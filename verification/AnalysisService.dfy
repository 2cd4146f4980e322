/** backend/app/analysis_service.py: the third instance of the ledger. Only its command handler is modelled; the run
    task is one event that ends it with any result, leaving the service uncertain or not. */
module AnalysisService {
  import opened Options
  import opened Ledger
  import Sorting

  const CACHE_LIMIT := 256

  datatype Operation = Run | Cancel

  datatype Body = Body(attempt: string, deadline: int, source: Option<string>)

  datatype Command = Command(sequence: nat, operation: Operation, body: Body) {
    function AsRun(): Command { this.(operation := Run) }
  }

  datatype Outcome = Success | Timeout | ResourceLimit | Canceled | Busy | Unavailable | ProtocolError

  /** `ended`: the task is over; its result is None when it ended cancelled. */
  datatype Attempt = Attempt(command: Command, ended: bool, result: Option<Outcome>)

  datatype Entry = Entry(command: Command, result: Outcome)

  datatype State = State(
    highwater: nat, terminals: seq<Entry>, active: Option<Attempt>, uncertain: bool, executed: seq<nat>)

  const INITIAL_STATE := State(0, [], None, false, [])

  datatype Event =
    | Arrives(command: Command, now: int)
    | TaskEnds(result: Option<Outcome>, uncertain: bool)
    | Settles
    | Drops

  function Find(terminals: seq<Entry>, s: nat): (r: Option<Entry>)
    ensures r.Some? ==> r.value in terminals && r.value.command.sequence == s
    ensures r.None? ==> forall e | e in terminals :: e.command.sequence != s
  {
    if terminals == [] then None
    else if terminals[0].command.sequence == s then Some(terminals[0])
    else Find(terminals[1..], s)
  }

  /** The answer None: the cancel waits for the active task, or the run was accepted. */
  function OnCommand(st: State, c: Command, now: int): (State, Option<Outcome>) {
    var cached := Find(st.terminals, c.sequence);
    if cached.Some? then
      var e := cached.value;
      (st, Some(if c.operation.Cancel? && e.command == c.AsRun() then Canceled
                else if e.command == c then e.result else ProtocolError))
    else if st.active.Some? && st.active.value.command.sequence == c.sequence then
      if st.active.value.command != c.AsRun() then (st, Some(ProtocolError))
      else if c.operation.Cancel? then (st, None)
      else (st, Some(Busy))
    else if c.sequence <= st.highwater then (st, Some(Canceled))
    else if c.operation.Cancel? then (st.(highwater := c.sequence), Some(Canceled))
    else if st.active.Some? then (st, Some(Busy))
    else if st.uncertain then (st, Some(Unavailable))
    else if c.body.deadline <= now then (st, Some(Timeout))
    else
      (st.(highwater := c.sequence, active := Some(Attempt(c, false, None)), executed := st.executed + [c.sequence]),
       None)
  }

  function OnSettle(st: State): State {
    if st.active.None? || !st.active.value.ended then st
    else if st.active.value.result.None? then st.(active := None)
    else
      var t := st.terminals + [Entry(st.active.value.command, st.active.value.result.value)];
      st.(active := None, terminals := if |t| > CACHE_LIMIT then t[1..] else t)
  }

  function Step(st: State, ev: Event): State {
    match ev
    case Arrives(c, now) => OnCommand(st, c, now).0
    case TaskEnds(result, uncertain) =>
      if st.active.Some? && !st.active.value.ended then
        st.(active := Some(st.active.value.(ended := true, result := result)), uncertain := st.uncertain || uncertain)
      else st
    case Settles => OnSettle(st)
    case Drops => if st.active.Some? && st.active.value.ended then st.(active := None) else st
  }

  function After(st: State, run: seq<Event>): State
    decreases |run|
  {
    if run == [] then st else After(Step(st, run[0]), run[1..])
  }

  function Abstract(st: State): Ledger {
    Ledger(st.highwater, if st.active.Some? then Some(st.active.value.command.sequence) else None, st.executed)
  }

  lemma StepRefinesLedger(st: State, ev: Event)
    ensures Next(Abstract(st), Abstract(Step(st, ev)))
  {
  }

  lemma {:induction false} RunRefinesLedger(st: State, run: seq<Event>)
    requires Safe(Abstract(st))
    ensures Evolves(Abstract(st), Abstract(After(st, run)))
    decreases |run|
  {
    if run != [] {
      var st1 := Step(st, run[0]);
      StepRefinesLedger(st, run[0]);
      NextEvolves(Abstract(st), Abstract(st1));
      RunRefinesLedger(st1, run[1..]);
      EvolvesTransitive(Abstract(st), Abstract(st1), Abstract(After(st, run)));
    }
  }

  /** In every run no attempt is executed twice and attempts are executed in increasing order of sequence; whatever
      follows, what it executes lies above every sequence run or cancelled before. */
  lemma ExecutesOnce(before: seq<Event>, after: seq<Event>)
    ensures var st := After(INITIAL_STATE, before);
            var st' := After(st, after);
            && Sorting.Increasing(st'.executed)
            && st.executed <= st'.executed
            && forall k | |st.executed| <= k < |st'.executed| :: st'.executed[k] > st.highwater
  {
    RunRefinesLedger(INITIAL_STATE, before);
    RunRefinesLedger(After(INITIAL_STATE, before), after);
  }

  /** A cancel that is answered at once is answered the same whether the service is uncertain or not: unlike the two
      newer services', its "canceled" proves nothing about processes. */
  lemma CancelIgnoresUncertain(st: State, c: Command, now: int, uncertain: bool)
    requires c.operation.Cancel?
    ensures OnCommand(st.(uncertain := uncertain), c, now).1 == OnCommand(st, c, now).1
    ensures OnCommand(st, c, now).1 != Some(Unavailable) || Find(st.terminals, c.sequence).Some?
  {
  }

  // ----- what an arriving command is answered -----

  lemma {:induction false} AfterOneMore(st: State, run: seq<Event>)
    requires run != []
    ensures After(st, run) == Step(After(st, run[..|run| - 1]), run[|run| - 1])
    decreases |run|
  {
    hide Step;
    if |run| == 1 {
      assert run[1..] == [] && run[..0] == [];
    } else {
      AfterOneMore(Step(st, run[0]), run[1..]);
      assert run[1..][..|run| - 2] == run[..|run| - 1][1..];
    }
  }

  /** What one event settles: the run handler resumes over a task that left a result. */
  function Settled(st: State, ev: Event): seq<Entry> {
    if ev.Settles? && st.active.Some? && st.active.value.ended && st.active.value.result.Some? then
      [Entry(st.active.value.command, st.active.value.result.value)]
    else []
  }

  /** Everything a run settled, in order. */
  function Log(run: seq<Event>): seq<Entry> {
    if run == [] then [] else
      var n := |run| - 1;
      Log(run[..n]) + Settled(After(INITIAL_STATE, run[..n]), run[n])
  }

  /** What a task ended with is what its run settles, and only such an end makes the service uncertain. */
  lemma TaskLeavesItsResult(st: State, result: Option<Outcome>, uncertain: bool, ev: Event)
    ensures st.active.Some? && !st.active.value.ended ==>
              var ended := Step(st, TaskEnds(result, uncertain));
              && ended.uncertain == (st.uncertain || uncertain)
              && Settled(ended, Settles) ==
                   (if result.Some? then [Entry(st.active.value.command, result.value)] else [])
              && Step(ended, Settles).active.None?
    ensures Step(st, ev).uncertain != st.uncertain ==>
              ev.TaskEnds? && ev.uncertain && st.active.Some? && !st.active.value.ended
  {
  }

  function Latest(log: seq<Entry>): seq<Entry> { if |log| <= CACHE_LIMIT then log else log[|log| - CACHE_LIMIT..] }

  ghost predicate Keeps(st: State, log: seq<Entry>) {
    && st.terminals == Latest(log)
    && (forall i, j | 0 <= i < j < |log| :: log[i].command.sequence < log[j].command.sequence)
    && (forall e | e in log :: e.command.sequence <= st.highwater && e.command.operation.Run?)
    && (st.active.Some? ==>
          var c := st.active.value.command;
          c.sequence <= st.highwater && c.operation.Run? && forall e | e in log :: e.command.sequence < c.sequence)
  }

  lemma SettleKeeps(st: State, log: seq<Entry>)
    requires Keeps(st, log)
    ensures Keeps(OnSettle(st), log + Settled(st, Settles))
  {
    hide Latest;
    var more := Settled(st, Settles);
    if more != [] {
      assert forall i | 0 <= i < |log| :: log[i] in log;
      LatestGrows(log, more[0]);
      assert log + more == log + [more[0]];
    } else {
      assert log + more == log;
    }
  }

  lemma LatestGrows(log: seq<Entry>, e: Entry)
    ensures var t := Latest(log) + [e]; Latest(log + [e]) == if |t| > CACHE_LIMIT then t[1..] else t
  {
    if |log| >= CACHE_LIMIT { assert Latest(log + [e]) == (Latest(log) + [e])[1..]; }
  }

  lemma CommandKeeps(st: State, log: seq<Entry>, c: Command, now: int)
    requires Keeps(st, log)
    ensures Keeps(OnCommand(st, c, now).0, log)
  {
    hide Find, Latest;
  }

  lemma {:induction false} RunKeeps(run: seq<Event>)
    ensures Keeps(After(INITIAL_STATE, run), Log(run))
  {
    hide OnCommand, OnSettle, Latest;
    if run == [] {
      assert Latest([]) == [] by { LatestOfNone(); }
    } else {
      var n := |run| - 1;
      RunKeeps(run[..n]);
      AfterOneMore(INITIAL_STATE, run);
      var st := After(INITIAL_STATE, run[..n]);
      if run[n].Arrives? { CommandKeeps(st, Log(run[..n]), run[n].command, run[n].now); }
      if run[n].Settles? { SettleKeeps(st, Log(run[..n])); } else { assert Log(run) == Log(run[..n]); }
    }
  }

  lemma LatestOfNone()
    ensures Latest([]) == []
  {
  }

  /** One of the last 256 settled. */
  ghost predicate Remembered(run: seq<Event>, e: Entry) {
    exists i :: 0 <= i < |Log(run)| && |Log(run)| - 256 <= i && Log(run)[i] == e
  }

  lemma RememberedIsCached(run: seq<Event>, e: Entry)
    ensures Remembered(run, e) <==> e in After(INITIAL_STATE, run).terminals
  {
    RunKeeps(run);
    var log, kept := Log(run), After(INITIAL_STATE, run).terminals;
    var from := |log| - |kept|;
    assert forall i | 0 <= i < |kept| :: kept[i] == log[from + i];
    assert forall i | from <= i < |log| :: log[i] == kept[i - from];
  }

  /** s is no longer new: an attempt of it or of a later sequence was executed, or a cancel of such a one arrived. */
  ghost predicate Passed(run: seq<Event>, s: nat) {
    || s == 0
    || (exists x :: x in After(INITIAL_STATE, run).executed && s <= x)
    || (exists ev :: ev in run && Cancels(ev) && s <= ev.command.sequence)
  }

  predicate Cancels(ev: Event) { ev.Arrives? && ev.command.operation.Cancel? }

  lemma StepMarks(st: State, log: seq<Entry>, ev: Event, s: nat)
    requires Keeps(st, log)
    ensures var st1 := Step(st, ev);
            && (s <= st1.highwater <==>
                  || s <= st.highwater
                  || (Cancels(ev) && s <= ev.command.sequence)
                  || (st1.executed != st.executed && s <= st1.executed[|st1.executed| - 1]))
            && (st1.executed == st.executed ||
                  (ev.Arrives? && ev.command.sequence > st.highwater
                   && st1.executed == st.executed + [ev.command.sequence]))
  {
  }

  /** The high-water mark told from the run alone. */
  lemma {:induction false} PassedExactly(run: seq<Event>, s: nat)
    ensures s <= After(INITIAL_STATE, run).highwater <==> Passed(run, s)
  {
    hide Keeps, Step;
    if run != [] {
      var n := |run| - 1;
      var before := run[..n];
      PassedExactly(before, s);
      RunKeeps(before);
      AfterOneMore(INITIAL_STATE, run);
      var st, st1 := After(INITIAL_STATE, before), After(INITIAL_STATE, run);
      StepMarks(st, Log(before), run[n], s);
      assert run == before + [run[n]];
      assert forall ev :: ev in run <==> ev in before || ev == run[n];
      if st1.executed != st.executed {
        var x := run[n].command.sequence;
        assert st1.executed[|st1.executed| - 1] == x && x in st1.executed;
        assert forall y :: y in st1.executed <==> y in st.executed || y == x;
      }
    }
  }

  /** A repeat of a remembered run gets its very result, a cancel of it canceled, and anything else on its sequence
      protocol_error; nothing changes. */
  lemma RememberedAnswered(run: seq<Event>, e: Entry, c: Command, now: int)
    requires Remembered(run, e) && c.sequence == e.command.sequence
    ensures var st := After(INITIAL_STATE, run);
            OnCommand(st, c, now) ==
              (st, Some(if c == e.command then e.result
                        else if c.operation.Cancel? && c.AsRun() == e.command then Canceled
                        else ProtocolError))
  {
    RunKeeps(run);
    RememberedIsCached(run, e);
    OneCached(After(INITIAL_STATE, run), Log(run), e, c.sequence);
  }

  lemma OneCached(st: State, log: seq<Entry>, e: Entry, s: nat)
    requires Keeps(st, log) && e in st.terminals && e.command.sequence == s
    ensures Find(st.terminals, s) == Some(e) && e.command.operation.Run?
  {
    hide Find;
    var f := Find(st.terminals, s).value;
    assert e in log && f in log;
    var i :| 0 <= i < |log| && log[i] == e;
    var j :| 0 <= j < |log| && log[j] == f;
  }

  /** The sequence of the active attempt: its own cancel waits for the task, its repeat is busy, and nothing else is its
      command. */
  lemma ActiveAnswered(run: seq<Event>, c: Command, now: int)
    requires var st := After(INITIAL_STATE, run); st.active.Some? && st.active.value.command.sequence == c.sequence
    ensures var st := After(INITIAL_STATE, run);
            OnCommand(st, c, now) ==
              (st, if c == st.active.value.command then Some(Busy)
                   else if c.AsRun() == st.active.value.command then None
                   else Some(ProtocolError))
  {
    RunKeeps(run);
    var st := After(INITIAL_STATE, run);
    assert forall e | e in st.terminals :: e in Log(run);
  }

  /** Neither remembered nor active. */
  ghost predicate Unknown(run: seq<Event>, s: nat) {
    var st := After(INITIAL_STATE, run);
    && (st.active.Some? ==> st.active.value.command.sequence != s)
    && forall e | Remembered(run, e) :: e.command.sequence != s
  }

  /** A sequence that is past, and a new cancel: canceled, and it is never executed. A new run is executed if and only
      if the service is free and certain and its deadline is ahead; one that is refused gets the first reason that
      applies. */
  lemma UnknownAnswered(run: seq<Event>, c: Command, now: int)
    requires Unknown(run, c.sequence)
    ensures var st := After(INITIAL_STATE, run);
            var (st1, answer) := OnCommand(st, c, now);
            && (st1.executed != st.executed <==>
                  && c.operation.Run? && !Passed(run, c.sequence)
                  && !st.uncertain && st.active.None? && now < c.body.deadline)
            && (st1.executed != st.executed ==>
                  && answer.None? && st1.executed == st.executed + [c.sequence]
                  && st1.active == Some(Attempt(c, false, None)))
            && (st1.executed == st.executed ==>
                  && st1 == st.(highwater := st1.highwater)
                  && answer == Some(if c.operation.Cancel? || Passed(run, c.sequence) then Canceled
                                    else if st.active.Some? then Busy
                                    else if st.uncertain then Unavailable
                                    else Timeout))
  {
    PassedExactly(run, c.sequence);
    var found := Find(After(INITIAL_STATE, run).terminals, c.sequence);
    if found.Some? { RememberedIsCached(run, found.value); }
  }

  class Service {
    var highwater: nat
    var terminals: seq<Entry>
    var active: Option<Attempt>
    var uncertain: bool
    ghost var executed: seq<nat>

    ghost function Contents(): State
      reads this
    {
      State(highwater, terminals, active, uncertain, executed)
    }

    constructor ()
      ensures Contents() == INITIAL_STATE
    {
      highwater, terminals, active, uncertain, executed := 0, [], None, false, [];
    }

    /** One arriving run or cancel, up to its first await. */
    method Receive(c: Command, now: int) returns (o: Option<Outcome>)
      modifies this
      ensures (Contents(), o) == OnCommand(old(Contents()), c, now)
    {
      var cached := Find(terminals, c.sequence);
      if cached.Some? {
        if c.operation.Cancel? && cached.value.command == c.AsRun() { return Some(Canceled); }
        return Some(if cached.value.command == c then cached.value.result else ProtocolError);
      }
      if active.Some? && active.value.command.sequence == c.sequence {
        if active.value.command != c.AsRun() { return Some(ProtocolError); }
        return if c.operation.Cancel? then None else Some(Busy);
      }
      if c.sequence <= highwater { return Some(Canceled); }
      if c.operation.Cancel? {
        highwater := c.sequence;
        return Some(Canceled);
      }
      if uncertain || active.Some? { return Some(if active.Some? then Busy else Unavailable); }
      if c.body.deadline <= now { return Some(Timeout); }
      highwater := c.sequence;
      active := Some(Attempt(c, false, None));
      executed := executed + [c.sequence];
      return None;
    }

    /** The run handler after its shield. */
    method Settle()
      modifies this
      ensures Contents() == OnSettle(old(Contents()))
    {
      if active.None? || !active.value.ended { return; }
      var a := active.value;
      active := None;
      if a.result.Some? {
        terminals := terminals + [Entry(a.command, a.result.value)];
        if |terminals| > CACHE_LIMIT { terminals := terminals[1..]; }
      }
    }

    /** Whatever the event loop runs next. */
    method Handle(ev: Event)
      modifies this
      ensures Contents() == Step(old(Contents()), ev)
    {
      hide OnCommand, OnSettle;
      match ev
      case Arrives(c, now) => var _ := Receive(c, now);
      case TaskEnds(result, unproven) =>
        if active.Some? && !active.value.ended {
          active := Some(active.value.(ended := true, result := result));
          uncertain := uncertain || unproven;
        }
      case Settles => Settle();
      case Drops => if active.Some? && active.value.ended { active := None; }
    }
  }
}
