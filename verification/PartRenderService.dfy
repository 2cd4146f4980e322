/** backend/app/part_render_service.py: the command handler, the run task and the end of its process tree.

    Every stretch of code between two awaits is one event. The run task is a phase machine whose phases are its
    await points; a cancel lands on whatever await the task is at. `mayLive` holds the attempts whose process tree
    was started and has not been proven gone. */
module PartRenderService {
  import opened Options
  import opened Ledger
  import Sorting

  const CACHE_LIMIT := 256

  datatype Operation = Run | Cancel

  /** The fields of a command besides sequence and operation: a cancel must repeat those of its run. */
  datatype Body = Body(attempt: string, deadline: int, task: string, node: Option<string>)

  datatype Command = Command(sequence: nat, operation: Operation, body: Body) {
    function AsRun(): Command { this.(operation := Run) }
  }

  datatype Outcome =
    | Rendered | Timeout | MemoryLimit | Crashed | InvalidOutput | Canceled | Busy | Unavailable | ProtocolError

  /** What the module promises of its outcomes: every other one is given only after the tree was proven gone. */
  predicate Promises(o: Outcome) {
    !o.Busy? && !o.Unavailable? && !o.ProtocolError?
  }

  /** The run task's await points. Ended(None): the task ended cancelled, it has no result. */
  datatype Phase =
    | Created | Preparing | Spawning | Watching | Ending | Uploading | Cleaning
    | Ended(result: Option<Outcome>)

  /** `cancelled`: a cancel was requested and has not been delivered yet; the step awaited is finished first. */
  datatype Attempt = Attempt(command: Command, phase: Phase, cancelled: bool, reply: Outcome, upload: bool)

  datatype Entry = Entry(command: Command, result: Outcome)

  datatype State = State(
    highwater: nat,
    terminals: seq<Entry>,
    active: Option<Attempt>,
    uncertain: bool,
    waiting: set<nat>,        // cancel handlers that await the active task
    cancelledEnds: set<nat>,  // attempts whose task ended without a result
    executed: seq<nat>,
    settled: seq<Entry>,      // every terminal ever stored
    mayLive: set<nat>,
    lost: set<nat>)           // attempts whose failed end was dropped by a cancel

  const INITIAL_STATE := State(0, [], None, false, {}, {}, [], [], {}, {})

  datatype SpawnEnd = SpawnOk | SpawnFailed | SpawnUnproven

  datatype TaskEvent =
    | Begin
    | Prepared(ok: bool)
    | Spawned(how: SpawnEnd)
    | WatchEnds(outcome: Outcome, resultOk: bool)
    | TreeEnded(proven: bool)
    | Uploaded(ok: bool)
    | Cleaned

  datatype Event =
    | Arrives(command: Command, now: int)
    | Disconnects
    | Advances(task: TaskEvent)
    | Settles
    | Drops
    | Joins(sequence: nat)

  datatype Answer = Answer(sequence: nat, operation: Operation, outcome: Outcome)

  // ----- the command handler -----

  function Find(terminals: seq<Entry>, s: nat): (r: Option<Entry>)
    ensures r.Some? ==> r.value in terminals && r.value.command.sequence == s
    ensures r.None? ==> forall e | e in terminals :: e.command.sequence != s
  {
    if terminals == [] then None
    else if terminals[0].command.sequence == s then Some(terminals[0])
    else Find(terminals[1..], s)
  }

  function RequestCancel(a: Attempt): Attempt {
    match a.phase
    case Created => a.(phase := Ended(None))
    case Ended(_) => a
    case _ => a.(cancelled := true)
  }

  function Settled(st: State): Outcome {
    if st.uncertain then Unavailable else Canceled
  }

  function OnCommand(st: State, c: Command, now: int): (State, Option<Outcome>) {
    var cached := Find(st.terminals, c.sequence);
    if cached.Some? then
      (st, Some(Replay(st, cached.value, c)))
    else if st.active.Some? && st.active.value.command.sequence == c.sequence then
      if st.active.value.command != c.AsRun() then (st, Some(ProtocolError))
      else if c.operation.Cancel? then
        (st.(active := Some(RequestCancel(st.active.value)), waiting := st.waiting + {c.sequence}), None)
      else (st, Some(Busy))
    else if c.sequence <= st.highwater then (st, Some(Settled(st)))
    else if c.operation.Cancel? then (st.(highwater := c.sequence), Some(Settled(st)))
    else if st.uncertain then (st, Some(Unavailable))
    else if st.active.Some? then (st, Some(Busy))
    else if c.body.deadline <= now then (st, Some(Timeout))
    else
      (st.(highwater := c.sequence, active := Some(Attempt(c, Created, false, Crashed, false)),
           executed := st.executed + [c.sequence]), None)
  }

  function Replay(st: State, e: Entry, c: Command): Outcome {
    if c.operation.Cancel? && e.command == c.AsRun() then
      if e.result.Unavailable? then Unavailable else Settled(st)
    else if e.command == c then e.result
    else ProtocolError
  }

  function Remember(terminals: seq<Entry>, e: Entry): seq<Entry> {
    var t := terminals + [e];
    if |t| > CACHE_LIMIT then t[1..] else t
  }

  /** The run handler resumes from its shield: active is cleared, a result is stored, a cancelled end is not. */
  function OnSettle(st: State): (State, Option<Answer>) {
    if st.active.Some? && st.active.value.phase.Ended? then
      var a := st.active.value;
      match a.phase.result
      case Some(o) =>
        var e := Entry(a.command, o);
        (st.(active := None, terminals := Remember(st.terminals, e), settled := st.settled + [e]),
         Some(Answer(a.command.sequence, Run, o)))
      case None =>
        (st.(active := None, cancelledEnds := st.cancelledEnds + {a.command.sequence}), None)
    else (st, None)
  }

  /** The service stops: the task was joined first, its run handler is cancelled and stores nothing. */
  function OnDrop(st: State): State {
    if st.active.Some? && st.active.value.phase.Ended? then
      var a := st.active.value;
      st.(active := None,
          cancelledEnds := if a.phase.result.None? then st.cancelledEnds + {a.command.sequence} else st.cancelledEnds)
    else st
  }

  /** The task of attempt s is not running (any more). */
  predicate TaskOver(st: State, s: nat) {
    st.active.Some? && st.active.value.command.sequence == s ==> st.active.value.phase.Ended?
  }

  predicate EndedCancelled(st: State, s: nat) {
    || s in st.cancelledEnds
    || (st.active.Some? && st.active.value.command.sequence == s && st.active.value.phase == Ended(None))
  }

  /** A cancel handler resumes once the task it awaited is over; a cancelled task raises into it: no reply. */
  function OnJoin(st: State, s: nat): (State, Option<Outcome>) {
    if s in st.waiting && TaskOver(st, s) then
      (st.(waiting := st.waiting - {s}), if EndedCancelled(st, s) then None else Some(Settled(st)))
    else (st, None)
  }

  // ----- the run task -----

  function End(st: State, a: Attempt, result: Option<Outcome>): State {
    st.(active := Some(a.(phase := Ended(result))))
  }

  /** What follows the finally block: nothing when uncertain, else the upload of an ok result, else the cleanup. */
  function AfterTree(st: State, a: Attempt): State {
    if st.uncertain then End(st, a, Some(Unavailable))
    else if a.reply.Rendered? && a.upload then st.(active := Some(a.(phase := Uploading)))
    else st.(active := Some(a.(phase := Cleaning)))
  }

  /** The reply the awaiting code forms: CancelledError wins over whatever the step answered. */
  function Formed(a: Attempt, o: Outcome, upload: bool): Attempt {
    if a.cancelled then a.(cancelled := false, reply := Canceled, upload := false)
    else a.(reply := o, upload := upload)
  }

  function OnTask(st: State, ev: TaskEvent): State {
    if st.active.None? then st
    else
      var a := st.active.value;
      var s := a.command.sequence;
      match (a.phase, ev)
      case (Created, Begin) => st.(active := Some(a.(phase := Preparing)))
      case (Preparing, Prepared(ok)) =>
        if ok && !a.cancelled then st.(active := Some(a.(phase := Spawning)))
        else AfterTree(st, Formed(a, Crashed, false))
      case (Spawning, Spawned(how)) =>
        (match how
         case SpawnOk =>
           var live := st.(mayLive := st.mayLive + {s});
           if a.cancelled then live.(active := Some(Formed(a, Crashed, false).(phase := Ending)))
           else live.(active := Some(a.(phase := Watching)))
         case SpawnFailed => AfterTree(st, Formed(a, Crashed, false))
         case SpawnUnproven =>
           AfterTree(st.(mayLive := st.mayLive + {s}, uncertain := true), Formed(a, Crashed, false)))
      case (Watching, WatchEnds(o, resultOk)) =>
        var watched := if o in {Rendered, Timeout, MemoryLimit, InvalidOutput} then o else Crashed;
        st.(active := Some(Formed(a, watched, watched.Rendered? && resultOk).(phase := Ending)))
      case (Ending, TreeEnded(proven)) =>
        var ended := if proven then st.(mayLive := st.mayLive - {s}) else st;
        if a.cancelled then
          // CancelledError leaves the finally block: a failed end raised no "uncertain"
          End(if proven then ended else ended.(lost := st.lost + {s}), a, None)
        else if !proven then AfterTree(ended.(uncertain := true), a)
        else AfterTree(ended, a)
      case (Uploading, Uploaded(ok)) =>
        st.(active := Some(Formed(a, if ok then Rendered else InvalidOutput, false).(phase := Cleaning)))
      case (Cleaning, Cleaned) => End(st, a, if a.cancelled then None else Some(a.reply))
      case (_, _) => st
  }

  function Step(st: State, ev: Event): (State, Option<Answer>) {
    match ev
    case Arrives(c, now) =>
      var (st', o) := OnCommand(st, c, now);
      (st', if o.Some? then Some(Answer(c.sequence, c.operation, o.value)) else None)
    case Disconnects =>
      (if st.active.Some? then st.(active := Some(RequestCancel(st.active.value))) else st, None)
    case Advances(task) => (OnTask(st, task), None)
    case Settles => OnSettle(st)
    case Drops => (OnDrop(st), None)
    case Joins(s) =>
      var (st', o) := OnJoin(st, s);
      (st', if o.Some? then Some(Answer(s, Cancel, o.value)) else None)
  }

  function After(st: State, run: seq<Event>): State
    decreases |run|
  {
    if run == [] then st else After(Step(st, run[0]).0, run[1..])
  }

  // ----- what every run keeps -----

  ghost predicate Stored(st: State, s: nat) {
    exists e :: e in st.terminals && e.command.sequence == s
  }

  ghost predicate ActiveInv(st: State, a: Attempt) {
    var s := a.command.sequence;
    && s <= st.highwater && a.command.operation.Run? && !Stored(st, s)
    && (forall e | e in st.settled :: e.command.sequence < s)
    && Promises(a.reply)
    && (!a.phase.Ended? ==> !st.uncertain && s !in st.lost)
    && (a.phase.Created? ==> !a.cancelled)
    && (!a.phase.Ended? ==> (s in st.mayLive <==> a.phase.Watching? || a.phase.Ending?))
    && (a.phase.Ended? && a.phase.result.Some? ==>
          && s !in st.lost
          && (Promises(a.phase.result.value) ==> s !in st.mayLive))
  }

  ghost predicate Inv(st: State) {
    && (forall e | e in st.terminals ::
          && e.command.sequence <= st.highwater
          && e.command.operation.Run?
          && e.command.sequence !in st.lost
          && (Promises(e.result) ==> e.command.sequence !in st.mayLive))
    && (forall e | e in st.settled :: e.command.sequence <= st.highwater)
    && (forall s | s in st.mayLive :: s <= st.highwater)
    && (forall s | s in st.waiting :: s <= st.highwater)
    && st.lost <= st.mayLive
    && (st.active.Some? ==> ActiveInv(st, st.active.value))
    && (!st.uncertain ==> forall s | s in st.mayLive && s !in st.lost ::
          && st.active.Some? && st.active.value.command.sequence == s
          && (st.active.value.phase.Watching? || st.active.value.phase.Ending?))
  }

  lemma FrontKeepsInv(st: State, ev: TaskEvent)
    requires Inv(st) && st.active.Some?
    requires var p := st.active.value.phase; p.Created? || p.Preparing? || p.Spawning?
    ensures Inv(OnTask(st, ev))
  {
  }

  lemma BackKeepsInv(st: State, ev: TaskEvent)
    requires Inv(st) && st.active.Some?
    requires var p := st.active.value.phase; !p.Created? && !p.Preparing? && !p.Spawning?
    ensures Inv(OnTask(st, ev))
  {
  }

  lemma CommandKeepsInv(st: State, c: Command, now: int)
    requires Inv(st)
    ensures Inv(OnCommand(st, c, now).0)
  {
  }

  lemma SettleKeepsInv(st: State)
    requires Inv(st)
    ensures Inv(OnSettle(st).0)
  {
    if st.active.Some? && st.active.value.phase.Ended? && st.active.value.phase.result.Some? {
      var e := Entry(st.active.value.command, st.active.value.phase.result.value);
      assert forall x | x in Remember(st.terminals, e) :: x in st.terminals || x == e;
    }
  }

  lemma StepKeepsInv(st: State, ev: Event)
    requires Inv(st)
    ensures Inv(Step(st, ev).0)
  {
    hide OnTask, OnCommand, OnSettle;
    match ev
    case Advances(task) =>
      if st.active.Some? {
        var p := st.active.value.phase;
        if p.Created? || p.Preparing? || p.Spawning? { FrontKeepsInv(st, task); } else { BackKeepsInv(st, task); }
      } else {
        NothingToAdvance(st, task);
      }
    case Arrives(c, now) => CommandKeepsInv(st, c, now);
    case Settles => SettleKeepsInv(st);
    case _ =>
  }

  lemma NothingToAdvance(st: State, ev: TaskEvent)
    requires st.active.None?
    ensures OnTask(st, ev) == st
  {
  }

  lemma {:induction false} RunKeepsInv(st: State, run: seq<Event>)
    requires Inv(st)
    ensures Inv(After(st, run))
    decreases |run|
  {
    if run != [] {
      StepKeepsInv(st, run[0]);
      RunKeepsInv(Step(st, run[0]).0, run[1..]);
    }
  }

  // ----- the promise of the answers, and the one branch that breaks it -----

  /** Every answer but busy, unavailable and protocol_error: the attempt's tree is proven gone. */
  ghost predicate Honest(st: State, ev: Event) {
    var (st', answer) := Step(st, ev);
    answer.Some? && Promises(answer.value.outcome) ==> answer.value.sequence !in st'.mayLive
  }

  /** The end of the tree failed while a cancel was waiting for it. */
  predicate DropsFailedEnd(st: State, ev: Event) {
    && ev == Advances(TreeEnded(false))
    && st.active.Some? && st.active.value.phase.Ending? && st.active.value.cancelled
  }

  predicate NoDrop(st: State, run: seq<Event>)
    decreases |run|
  {
    run == [] || (!DropsFailedEnd(st, run[0]) && NoDrop(Step(st, run[0]).0, run[1..]))
  }

  ghost predicate Guaranteed(st: State) {
    forall more: seq<Event>, ev: Event | NoDrop(st, more) :: Honest(After(st, more), ev)
  }

  lemma StepLoses(st: State, ev: Event)
    requires Inv(st)
    ensures st.lost <= Step(st, ev).0.lost
    ensures Step(st, ev).0.lost == st.lost <==> !DropsFailedEnd(st, ev)
    ensures st.uncertain ==> Step(st, ev).0.uncertain
  {
  }

  lemma {:induction false} RunLoses(st: State, run: seq<Event>)
    requires Inv(st)
    ensures st.lost <= After(st, run).lost
    ensures After(st, run).lost == st.lost <==> NoDrop(st, run)
    ensures st.uncertain ==> After(st, run).uncertain
    decreases |run|
  {
    if run != [] {
      StepLoses(st, run[0]);
      StepKeepsInv(st, run[0]);
      RunLoses(Step(st, run[0]).0, run[1..]);
    }
  }

  lemma HonestWhileNothingLost(st: State, ev: Event)
    requires Inv(st) && (st.uncertain || st.lost == {})
    ensures Honest(st, ev)
  {
  }

  /** Whatever state a run with a dropped failed end is in, two events later a cancel of that attempt is answered
      "canceled" while its tree may live. */
  lemma DroppedEndIsAnsweredCanceled(st: State, s: nat)
    requires Inv(st) && !st.uncertain && s in st.lost
    ensures NoDrop(st, [Settles])
    ensures var c := Arrives(Command(s, Cancel, Body("", 0, "", None)), 0);
            !Honest(After(st, [Settles]), c)
  {
    var st1 := Step(st, Settles).0;
    assert After(st, [Settles]) == st1;
    StepKeepsInv(st, Settles);
    assert NoDrop(st1, []);
    assert s in st1.mayLive;
    assert Find(st1.terminals, s).None?;
  }

  /** Exactly when the promise stands from here on: the service is uncertain already, or no failed end was dropped
      so far. */
  lemma PromiseStandsExactly(run: seq<Event>)
    ensures Guaranteed(After(INITIAL_STATE, run)) <==>
              After(INITIAL_STATE, run).uncertain || NoDrop(INITIAL_STATE, run)
  {
    var st := After(INITIAL_STATE, run);
    RunKeepsInv(INITIAL_STATE, run);
    RunLoses(INITIAL_STATE, run);
    if st.uncertain || st.lost == {} {
      forall more: seq<Event>, ev: Event | NoDrop(st, more) ensures Honest(After(st, more), ev) {
        RunKeepsInv(st, more);
        RunLoses(st, more);
        HonestWhileNothingLost(After(st, more), ev);
      }
    } else {
      var s :| s in st.lost;
      DroppedEndIsAnsweredCanceled(st, s);
    }
  }

  // ----- the run that shows it -----

  const FIRST_BODY := Body("a", 1, "", None)

  const DROPPING_RUN: seq<Event> := [
    Arrives(Command(1, Run, FIRST_BODY), 0), Advances(Begin), Advances(Prepared(true)), Advances(Spawned(SpawnOk)),
    Advances(WatchEnds(Rendered, true)), Arrives(Command(1, Cancel, FIRST_BODY), 0), Advances(TreeEnded(false))]

  /** The first attempt of a new service, when its child was watched to its end. */
  lemma WatchedToItsEnd()
    ensures After(INITIAL_STATE, DROPPING_RUN[..5]) ==
              State(1, [], Some(Attempt(Command(1, Run, FIRST_BODY), Ending, false, Rendered, true)), false, {}, {},
                    [1], [], {1}, {})
  {
    hide Find;
    var r := DROPPING_RUN[..5];
    var st1 := Step(INITIAL_STATE, r[0]).0;
    var st2 := Step(st1, r[1]).0;
    var st3 := Step(st2, r[2]).0;
    var st4 := Step(st3, r[3]).0;
    var st5 := Step(st4, r[4]).0;
    assert r[1..][1..] == r[2..] && r[2..][1..] == r[3..] && r[3..][1..] == r[4..] && r[4..][1..] == [];
    assert After(INITIAL_STATE, r) == After(st1, r[1..]) == After(st2, r[2..]) == After(st3, r[3..]);
    assert After(st3, r[3..]) == After(st4, r[4..]) == After(st5, []);
  }

  lemma {:induction false} AfterBoth(st: State, run: seq<Event>, more: seq<Event>)
    ensures After(st, run + more) == After(After(st, run), more)
    decreases |run|
  {
    if run == [] {
      assert run + more == more;
    } else {
      assert (run + more)[1..] == run[1..] + more;
      AfterBoth(Step(st, run[0]).0, run[1..], more);
    }
  }

  /** It is canceled while its tree is being ended, and that end fails. */
  lemma DroppingRunLoses()
    ensures var st := After(INITIAL_STATE, DROPPING_RUN);
            && 1 in st.lost && 1 in st.mayLive && 1 in st.waiting && !st.uncertain
            && st.active.Some? && st.active.value.command.sequence == 1 && st.active.value.phase == Ended(None)
  {
    hide Find;
    var r := DROPPING_RUN;
    WatchedToItsEnd();
    AfterBoth(INITIAL_STATE, r[..5], r[5..]);
    assert r == r[..5] + r[5..] && r[5..] == [r[5], r[6]];
    var st := After(INITIAL_STATE, r[..5]);
    var st1 := Step(st, r[5]).0;
    assert After(st, [r[5], r[6]]) == After(st1, [r[6]]) == After(Step(st1, r[6]).0, []);
  }

  /** From the initial state: the cancel's own handler gets no reply, so the broker asks again once the run handler has
      resumed, and is told "canceled" while the tree may live. */
  lemma DroppingRunBreaksPromise()
    ensures var st := After(After(INITIAL_STATE, DROPPING_RUN), [Settles]);
            var (last, answer) := Step(st, Arrives(Command(1, Cancel, FIRST_BODY), 0));
            && 1 in st.waiting && Step(st, Joins(1)).1.None?
            && answer == Some(Answer(1, Cancel, Canceled)) && 1 in last.mayLive
  {
    hide Find;
    var st0 := After(INITIAL_STATE, DROPPING_RUN);
    RunKeepsInv(INITIAL_STATE, DROPPING_RUN);
    DroppingRunLoses();
    var st := Step(st0, Settles).0;
    assert After(st0, [Settles]) == After(st, []) == st;
    StepKeepsInv(st0, Settles);
  }

  /** A cancel answered "canceled" (of an attempt whose end was not dropped): its tree is gone, and in whatever
      follows it neither starts nor comes to life. */
  ghost predicate Over(st: State, s: nat) {
    s <= st.highwater && TaskOver(st, s) && s !in st.mayLive
  }

  lemma TaskKeepsOver(st: State, s: nat, task: TaskEvent)
    requires Over(st, s)
    ensures Over(OnTask(st, task), s) && OnTask(st, task).executed == st.executed
  {
  }

  lemma OverStepsToOver(st: State, s: nat, ev: Event)
    requires Over(st, s)
    ensures var st1 := Step(st, ev).0;
            && Over(st1, s)
            && (st1.executed == st.executed || exists x :: x > s && st1.executed == st.executed + [x])
  {
    hide OnTask;
    match ev
    case Advances(task) => TaskKeepsOver(st, s, task);
    case _ =>
  }

  lemma {:induction false} OverForGood(st: State, s: nat, run: seq<Event>)
    requires Over(st, s)
    ensures Over(After(st, run), s)
    ensures st.executed <= After(st, run).executed
    ensures s !in After(st, run).executed[|st.executed|..]
    decreases |run|
  {
    if run != [] {
      var st1 := Step(st, run[0]).0;
      OverStepsToOver(st, s, run[0]);
      OverForGood(st1, s, run[1..]);
      var later := After(st, run).executed;
      assert later[|st.executed|..] == st1.executed[|st.executed|..] + later[|st1.executed|..];
    }
  }

  lemma CanceledMeansOver(before: seq<Event>, ev: Event, after: seq<Event>)
    requires var st := After(INITIAL_STATE, before);
             var (_, answer) := Step(st, ev);
             && answer.Some? && answer.value.operation.Cancel? && answer.value.outcome.Canceled?
             && (st.uncertain || NoDrop(INITIAL_STATE, before))
    ensures var st := After(INITIAL_STATE, before);
            var (st1, answer) := Step(st, ev);
            var st2 := After(st1, after);
            && answer.value.sequence !in st2.mayLive
            && st1.executed <= st2.executed
            && answer.value.sequence !in st2.executed[|st1.executed|..]
  {
    var st := After(INITIAL_STATE, before);
    RunKeepsInv(INITIAL_STATE, before);
    RunLoses(INITIAL_STATE, before);
    StepKeepsInv(st, ev);
    var (st1, answer) := Step(st, ev);
    OverForGood(st1, answer.value.sequence, after);
  }

  lemma {:induction false} UncertainStays(st: State, run: seq<Event>, ev: Event)
    requires Inv(st) && st.uncertain
    ensures After(st, run).uncertain && Step(After(st, run), ev).0.executed == After(st, run).executed == st.executed
    ensures var answer := Step(After(st, run), ev).1;
            answer.Some? && answer.value.operation.Cancel? ==>
              answer.value.outcome.Unavailable? || answer.value.outcome.ProtocolError?
    decreases |run|
  {
    if run != [] {
      StepKeepsInv(st, run[0]);
      UncertainStays(Step(st, run[0]).0, run[1..], ev);
    }
  }

  /** Once uncertain: nothing starts any more, and no cancel gets more than "unavailable". */
  lemma UncertainIsAbsorbing(before: seq<Event>, after: seq<Event>, ev: Event)
    requires After(INITIAL_STATE, before).uncertain
    ensures var st, st' := After(INITIAL_STATE, before), After(After(INITIAL_STATE, before), after);
            var answer := Step(st', ev).1;
            && st'.uncertain && Step(st', ev).0.executed == st.executed
            && (answer.Some? && answer.value.operation.Cancel? ==>
                  answer.value.outcome.Unavailable? || answer.value.outcome.ProtocolError?)
  {
    hide Step;
    RunKeepsInv(INITIAL_STATE, before);
    UncertainStays(After(INITIAL_STATE, before), after, ev);
  }

  /** The upload and the staging cleanup run only over a proven end of the attempt's own tree, in a service that is
      not uncertain -- whatever cancels and failed ends happened. */
  lemma UploadsAndCleansOverGoneTree(run: seq<Event>)
    ensures var st := After(INITIAL_STATE, run);
            st.active.Some? && (st.active.value.phase.Uploading? || st.active.value.phase.Cleaning?) ==>
              st.active.value.command.sequence !in st.mayLive && !st.uncertain
  {
    RunKeepsInv(INITIAL_STATE, run);
  }

  // ----- the cache of terminals -----

  function Latest(log: seq<Entry>): seq<Entry> {
    if |log| <= CACHE_LIMIT then log else log[|log| - CACHE_LIMIT..]
  }

  ghost predicate InOrder(log: seq<Entry>) {
    forall i, j | 0 <= i < j < |log| :: log[i].command.sequence < log[j].command.sequence
  }

  ghost predicate CacheInv(st: State) {
    st.terminals == Latest(st.settled) && InOrder(st.settled)
  }

  lemma RememberKeepsLatest(log: seq<Entry>, e: Entry)
    ensures Remember(Latest(log), e) == Latest(log + [e])
  {
    var t := Latest(log) + [e];
    if |log| > CACHE_LIMIT {
      assert t == (log + [e])[|log| - CACHE_LIMIT..];
    }
  }

  lemma StoringKeepsCache(st: State, e: Entry)
    requires CacheInv(st) && forall x | x in st.settled :: x.command.sequence < e.command.sequence
    ensures Remember(st.terminals, e) == Latest(st.settled + [e]) && InOrder(st.settled + [e])
  {
    RememberKeepsLatest(st.settled, e);
    assert forall i | 0 <= i < |st.settled| :: st.settled[i] in st.settled;
  }

  lemma StepStores(st: State, ev: Event)
    requires Inv(st)
    ensures var st1 := Step(st, ev).0;
            || (st1.terminals == st.terminals && st1.settled == st.settled)
            || exists e :: && st1.settled == st.settled + [e]
                           && st1.terminals == Remember(st.terminals, e)
                           && forall x | x in st.settled :: x.command.sequence < e.command.sequence
  {
    hide OnTask, OnCommand;
    if ev.Settles? && st.active.Some? && st.active.value.phase.Ended? && st.active.value.phase.result.Some? {
      var e := Entry(st.active.value.command, st.active.value.phase.result.value);
      assert Step(st, ev).0.settled == st.settled + [e];
    } else {
      StoresNothing(st, ev);
    }
  }

  lemma StoresNothing(st: State, ev: Event)
    requires ev.Settles? ==>
               st.active.None? || !st.active.value.phase.Ended? || st.active.value.phase.result.None?
    ensures var st1 := Step(st, ev).0; st1.terminals == st.terminals && st1.settled == st.settled
  {
    hide Find, Replay, Formed;
  }

  lemma StepKeepsCache(st: State, ev: Event)
    requires Inv(st) && CacheInv(st)
    ensures CacheInv(Step(st, ev).0)
  {
    StepStores(st, ev);
    var st1 := Step(st, ev).0;
    if st1.settled != st.settled || st1.terminals != st.terminals {
      var e :| && st1.settled == st.settled + [e]
               && st1.terminals == Remember(st.terminals, e)
               && forall x | x in st.settled :: x.command.sequence < e.command.sequence;
      StoringKeepsCache(st, e);
    }
  }

  lemma {:induction false} RunKeepsCache(st: State, run: seq<Event>)
    requires Inv(st) && CacheInv(st)
    ensures CacheInv(After(st, run))
    decreases |run|
  {
    if run != [] {
      StepKeepsInv(st, run[0]);
      StepKeepsCache(st, run[0]);
      RunKeepsCache(Step(st, run[0]).0, run[1..]);
    }
  }

  /** The cache always holds exactly the last min(256, n) stored terminals, and no sequence is ever stored twice. */
  lemma CacheIsTheLatest(run: seq<Event>)
    ensures var st := After(INITIAL_STATE, run);
            st.terminals == Latest(st.settled) && InOrder(st.settled)
  {
    RunKeepsCache(INITIAL_STATE, run);
  }

  // ----- refinement of the shared ledger -----

  function Abstract(st: State): Ledger {
    Ledger(st.highwater, if st.active.Some? then Some(st.active.value.command.sequence) else None, st.executed)
  }

  lemma StepRefinesLedger(st: State, ev: Event)
    ensures Next(Abstract(st), Abstract(Step(st, ev).0))
  {
  }

  lemma {:induction false} RunRefinesLedger(st: State, run: seq<Event>)
    requires Safe(Abstract(st))
    ensures Evolves(Abstract(st), Abstract(After(st, run)))
    decreases |run|
  {
    if run != [] {
      var st1 := Step(st, run[0]).0;
      StepRefinesLedger(st, run[0]);
      NextEvolves(Abstract(st), Abstract(st1));
      RunRefinesLedger(st1, run[1..]);
      EvolvesTransitive(Abstract(st), Abstract(st1), Abstract(After(st, run)));
    }
  }

  /** In every run no attempt is executed twice and attempts are executed in increasing order of sequence; whatever
      follows, what it executes lies above every sequence run or cancelled before. */
  lemma ExecutesOnce(before: seq<Event>, after: seq<Event>)
    ensures var st := After(INITIAL_STATE, before);
            var st' := After(st, after);
            && Sorting.Increasing(st'.executed)
            && st.executed <= st'.executed
            && forall k | |st.executed| <= k < |st'.executed| :: st'.executed[k] > st.highwater
  {
    RunRefinesLedger(INITIAL_STATE, before);
    RunRefinesLedger(After(INITIAL_STATE, before), after);
  }

  // ----- the service object -----

  class Service {
    var highwater: nat
    var terminals: seq<Entry>
    var active: Option<Attempt>
    var uncertain: bool
    var waiting: set<nat>        // the event loop's: suspended cancel handlers, by the attempt they await
    var cancelledEnds: set<nat>  // the event loop's: tasks that ended cancelled
    ghost var executed: seq<nat>
    ghost var settled: seq<Entry>
    ghost var mayLive: set<nat>
    ghost var lost: set<nat>

    ghost function Contents(): State
      reads this
    {
      State(highwater, terminals, active, uncertain, waiting, cancelledEnds, executed, settled, mayLive, lost)
    }

    constructor ()
      ensures Contents() == INITIAL_STATE
    {
      highwater, terminals, active, uncertain := 0, [], None, false;
      waiting, cancelledEnds, executed, settled, mayLive, lost := {}, {}, [], [], {}, {};
    }

    /** One arriving run or cancel, up to its first await. */
    method Receive(c: Command, now: int) returns (o: Option<Outcome>)
      modifies this
      ensures (Contents(), o) == OnCommand(old(Contents()), c, now)
    {
      var settledOutcome := if uncertain then Unavailable else Canceled;
      var cached := Find(terminals, c.sequence);
      if cached.Some? {
        var e := cached.value;
        if c.operation.Cancel? && e.command == c.AsRun() {
          return Some(if e.result.Unavailable? then Unavailable else settledOutcome);
        }
        return Some(if e.command == c then e.result else ProtocolError);
      }
      if active.Some? && active.value.command.sequence == c.sequence {
        if active.value.command != c.AsRun() { return Some(ProtocolError); }
        if c.operation.Run? { return Some(Busy); }
        active := Some(RequestCancel(active.value));
        waiting := waiting + {c.sequence};
        return None;
      }
      if c.sequence <= highwater { return Some(settledOutcome); }
      if c.operation.Cancel? {
        highwater := c.sequence;
        return Some(settledOutcome);
      }
      if uncertain { return Some(Unavailable); }
      if active.Some? { return Some(Busy); }
      if c.body.deadline <= now { return Some(Timeout); }
      highwater := c.sequence;
      active := Some(Attempt(c, Created, false, Crashed, false));
      executed := executed + [c.sequence];
      return None;
    }

    /** The broker is gone: the active task is cancelled. */
    method Disconnect()
      modifies this
      ensures Contents() == Step(old(Contents()), Disconnects).0
    {
      if active.Some? { active := Some(RequestCancel(active.value)); }
    }

    /** The run handler after its shield. */
    method Settle() returns (answer: Option<Answer>)
      modifies this
      ensures (Contents(), answer) == OnSettle(old(Contents()))
    {
      answer := None;
      if active.None? || !active.value.phase.Ended? { return; }
      var a := active.value;
      active := None;
      match a.phase.result
      case None => cancelledEnds := cancelledEnds + {a.command.sequence};
      case Some(o) =>
        terminals := terminals + [Entry(a.command, o)];
        if |terminals| > CACHE_LIMIT { terminals := terminals[1..]; }
        settled := settled + [Entry(a.command, o)];
        answer := Some(Answer(a.command.sequence, Run, o));
    }

    /** A cancel handler after its owned wait for the task. */
    method Join(s: nat) returns (o: Option<Outcome>)
      modifies this
      ensures (Contents(), o) == OnJoin(old(Contents()), s)
    {
      o := None;
      var own := active.Some? && active.value.command.sequence == s;
      if s !in waiting || (own && !active.value.phase.Ended?) { return; }
      waiting := waiting - {s};
      var raised := s in cancelledEnds || (own && active.value.phase == Ended(None));
      if !raised { o := Some(if uncertain then Unavailable else Canceled); }
    }

    /** The run task from one await to the next. */
    method Advance(ev: TaskEvent)
      modifies this
      ensures Contents() == OnTask(old(Contents()), ev)
    {
      if active.None? { return; }
      var a := active.value;
      var s := a.command.sequence;
      match (a.phase, ev)
      case (Created, Begin) => Move(a, Preparing);
      case (Preparing, Prepared(ok)) =>
        if ok && !a.cancelled { Move(a, Spawning); } else { LeaveFinally(Formed(a, Crashed, false)); }
      case (Spawning, Spawned(SpawnOk)) =>
        mayLive := mayLive + {s};
        if a.cancelled { Move(Formed(a, Crashed, false), Ending); } else { Move(a, Watching); }
      case (Spawning, Spawned(SpawnFailed)) => LeaveFinally(Formed(a, Crashed, false));
      case (Spawning, Spawned(SpawnUnproven)) =>
        mayLive := mayLive + {s};
        uncertain := true;
        LeaveFinally(Formed(a, Crashed, false));
      case (Watching, WatchEnds(o, resultOk)) =>
        var watched := if o in {Rendered, Timeout, MemoryLimit, InvalidOutput} then o else Crashed;
        Move(Formed(a, watched, watched.Rendered? && resultOk), Ending);
      case (Ending, TreeEnded(proven)) =>
        if proven { mayLive := mayLive - {s}; }
        if a.cancelled {
          if !proven { lost := lost + {s}; }
          Move(a, Ended(None));
        } else {
          if !proven { uncertain := true; }
          LeaveFinally(a);
        }
      case (Uploading, Uploaded(ok)) => Move(Formed(a, if ok then Rendered else InvalidOutput, false), Cleaning);
      case (Cleaning, Cleaned) => Move(a, Ended(if a.cancelled then None else Some(a.reply)));
      case (_, _) =>
    }

    method Move(a: Attempt, phase: Phase)
      modifies this`active
      ensures active == Some(a.(phase := phase))
    {
      active := Some(a.(phase := phase));
    }

    method LeaveFinally(a: Attempt)
      modifies this`active
      ensures Contents() == AfterTree(old(Contents()), a)
    {
      if uncertain { Move(a, Ended(Some(Unavailable))); }
      else if a.reply.Rendered? && a.upload { Move(a, Uploading); }
      else { Move(a, Cleaning); }
    }

    /** stop(): the run handler is cancelled once the task was joined, and stores nothing. */
    method Drop()
      modifies this
      ensures Contents() == OnDrop(old(Contents()))
    {
      if active.None? || !active.value.phase.Ended? { return; }
      if active.value.phase.result.None? { cancelledEnds := cancelledEnds + {active.value.command.sequence}; }
      active := None;
    }

    /** Whatever the event loop runs next, and the answer it sends. */
    method Handle(ev: Event) returns (answer: Option<Answer>)
      modifies this
      ensures (Contents(), answer) == Step(old(Contents()), ev)
    {
      hide OnCommand, OnSettle, OnDrop, OnJoin, OnTask;
      answer := None;
      match ev
      case Arrives(c, now) =>
        var o := Receive(c, now);
        if o.Some? { answer := Some(Answer(c.sequence, c.operation, o.value)); }
      case Disconnects => Disconnect();
      case Advances(task) => Advance(task);
      case Settles => answer := Settle();
      case Drops => Drop();
      case Joins(s) =>
        var o := Join(s);
        if o.Some? { answer := Some(Answer(s, Cancel, o.value)); }
    }
  }
}
