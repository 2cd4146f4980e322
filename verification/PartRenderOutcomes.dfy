/** backend/app/part_render_service.py: what an attempt is answered, told from what happened at its own awaits, and what
    every arriving command is answered, told from what was settled before. */
module PartRenderOutcomes {
  import opened Options
  import opened PartRenderService

  // ----- the story of one attempt -----

  /** What the watch saw: its outcome, and whether a result that was read is ok. */
  datatype Watch = Watch(outcome: Outcome, ok: bool)

  /** How each await of an attempt ended, and the await at which a cancel was last requested. */
  datatype Story = Story(
    prepared: Option<bool>, spawned: Option<SpawnEnd>, watched: Option<Watch>, treeEnded: Option<bool>,
    uploaded: Option<bool>, canceled: Option<Phase>)

  const UNTOLD := Story(None, None, None, None, None, None)

  /** Attempt s is the active one and its task runs. */
  predicate Runs(st: State, s: nat) {
    st.active.Some? && st.active.value.command.sequence == s && !st.active.value.phase.Ended?
  }

  /** A lost broker, or a cancel that repeats the run's fields. */
  predicate Requests(command: Command, ev: Event) {
    || ev.Disconnects?
    || (ev.Arrives? && ev.command.operation.Cancel? && ev.command.AsRun() == command)
  }

  /** What one event tells of attempt s, by the await the attempt is at. */
  function Learn(t: Story, st: State, s: nat, ev: Event): Story {
    if !Runs(st, s) then t
    else if Requests(st.active.value.command, ev) then t.(canceled := Some(st.active.value.phase))
    else if !ev.Advances? then t
    else
      match (st.active.value.phase, ev.task)
      case (Preparing, Prepared(ok)) => t.(prepared := Some(ok))
      case (Spawning, Spawned(how)) => t.(spawned := Some(how))
      case (Watching, WatchEnds(o, ok)) => t.(watched := Some(Watch(o, ok)))
      case (Ending, TreeEnded(proven)) => t.(treeEnded := Some(proven))
      case (Uploading, Uploaded(ok)) => t.(uploaded := Some(ok))
      case (_, _) => t
  }

  /** The story of attempt s in a run. */
  function Told(run: seq<Event>, s: nat): Story {
    if run == [] then UNTOLD else
      var n := |run| - 1;
      Learn(Told(run[..n], s), After(INITIAL_STATE, run[..n]), s, run[n])
  }

  lemma {:induction false} AfterOneMore(st: State, run: seq<Event>)
    requires run != []
    ensures After(st, run) == Step(After(st, run[..|run| - 1]), run[|run| - 1]).0
    decreases |run|
  {
    hide Step;
    if |run| == 1 {
      assert run[1..] == [] && run[..0] == [];
    } else {
      AfterOneMore(Step(st, run[0]).0, run[1..]);
      assert run[1..][..|run| - 2] == run[..|run| - 1][1..];
    }
  }

  // ----- what the task knows of its story -----

  /** Neither the service's tree nor its spawn stayed unproven. */
  predicate Proven(t: Story) { t.spawned != Some(SpawnUnproven) && t.treeEnded != Some(false) }

  /** No await is reached but from the one before it. */
  predicate InOrder(t: Story) {
    && (t.spawned.Some? ==> t.prepared == Some(true))
    && (t.watched.Some? || t.treeEnded.Some? ==> t.spawned == Some(SpawnOk))
    && (t.uploaded.Some? ==>
          t.treeEnded == Some(true) && t.watched.Some? && t.watched.value.outcome.Rendered? && t.watched.value.ok)
  }

  predicate Watched(o: Outcome) { o.Rendered? || o.Timeout? || o.MemoryLimit? || o.InvalidOutput? }

  /** The preparation or the spawn failed, or the watch ended in a way that is none of its own outcomes. */
  predicate Crashes(t: Story) {
    || t.prepared == Some(false)
    || t.spawned == Some(SpawnFailed)
    || (t.watched.Some? && !Watched(t.watched.value.outcome))
  }

  /** What the story makes of the reply, when no cancel and no unproven end decides. */
  ghost predicate Owed(t: Story, o: Outcome) {
    match o
    case Crashed => Crashes(t)
    case Rendered =>
      t.watched.Some? && t.watched.value.outcome.Rendered? && (t.watched.value.ok ==> t.uploaded == Some(true))
    case InvalidOutput =>
      t.watched.Some? &&
        (t.watched.value.outcome.InvalidOutput? ||
         (t.watched.value.outcome.Rendered? && t.watched.value.ok && t.uploaded == Some(false)))
    case Timeout => t.watched.Some? && t.watched.value.outcome.Timeout?
    case MemoryLimit => t.watched.Some? && t.watched.value.outcome.MemoryLimit?
    case _ => false
  }

  ghost predicate RightReply(t: Story, o: Outcome) {
    if t.canceled.Some? then o.Canceled? else Owed(t, o)
  }

  /** Nothing was requested but of the await the attempt is at. */
  ghost predicate Pending(a: Attempt, t: Story) { t.canceled == if a.cancelled then Some(a.phase) else None }

  /** The task was cancelled before it began, or where a cancel leaves no answer. */
  predicate CutOff(t: Story) {
    t.canceled == Some(Created) || t.canceled == Some(Ending) || t.canceled == Some(Cleaning)
  }

  ghost predicate KnowsActive(a: Attempt, t: Story) {
    match a.phase
    case Created => t == UNTOLD
    case Preparing => t == UNTOLD.(canceled := t.canceled) && Pending(a, t)
    case Spawning => t == UNTOLD.(prepared := Some(true), canceled := t.canceled) && Pending(a, t)
    case Watching =>
      t == UNTOLD.(prepared := Some(true), spawned := Some(SpawnOk), canceled := t.canceled) && Pending(a, t)
    case Ending =>
      && t.prepared == Some(true) && t.spawned == Some(SpawnOk) && t.treeEnded.None? && t.uploaded.None?
      && if a.cancelled then t.canceled == Some(Ending)
         else
           && !CutOff(t)
           && if t.canceled.Some? then a.reply.Canceled? && !a.upload
              else
                && t.watched.Some?
                && var Watch(o, ok) := t.watched.value;
                && a.reply == (if Watched(o) then o else Crashed)
                && (a.upload <==> o.Rendered? && ok)
    case Uploading =>
      && t.prepared == Some(true) && t.spawned == Some(SpawnOk) && t.treeEnded == Some(true) && t.uploaded.None?
      && t.watched.Some? && t.watched.value.outcome.Rendered? && t.watched.value.ok
      && Pending(a, t)
    case Cleaning =>
      && Proven(t) && (t.spawned == Some(SpawnOk) ==> t.treeEnded == Some(true))
      && if a.cancelled then t.canceled == Some(Cleaning) else !CutOff(t) && RightReply(t, a.reply)
    case Ended(None) => CutOff(t)
    case Ended(Some(o)) => KnowsResult(t, o)
  }

  ghost predicate KnowsResult(t: Story, o: Outcome) {
    && !CutOff(t)
    && if Proven(t) then RightReply(t, o) && (t.spawned == Some(SpawnOk) ==> t.treeEnded == Some(true))
       else o.Unavailable?
  }

  ghost predicate Knows(st: State, t: Story, s: nat) {
    && InOrder(t)
    && (s > st.highwater ==> t == UNTOLD && s !in st.cancelledEnds)
    && (st.active.Some? && st.active.value.command.sequence == s ==> KnowsActive(st.active.value, t))
    && (forall e | e in st.settled && e.command.sequence == s :: KnowsResult(t, e.result))
    && (s in st.cancelledEnds ==>
          && CutOff(t)
          && (st.active.Some? ==> st.active.value.command.sequence != s))
  }

  lemma FrontKnows(st: State, t: Story, s: nat, task: TaskEvent)
    requires Inv(st) && Knows(st, t, s) && Runs(st, s)
    requires var p := st.active.value.phase; p.Created? || p.Preparing? || p.Spawning? || p.Watching?
    ensures Knows(OnTask(st, task), Learn(t, st, s, Advances(task)), s)
  {
  }

  lemma BackKnows(st: State, t: Story, s: nat, task: TaskEvent)
    requires Inv(st) && Knows(st, t, s) && Runs(st, s)
    requires var p := st.active.value.phase; p.Ending? || p.Uploading? || p.Cleaning?
    ensures Knows(OnTask(st, task), Learn(t, st, s, Advances(task)), s)
  {
  }

  lemma OtherTaskKnows(st: State, t: Story, s: nat, task: TaskEvent)
    requires Inv(st) && Knows(st, t, s) && !Runs(st, s)
    ensures Knows(OnTask(st, task), Learn(t, st, s, Advances(task)), s)
  {
    hide KnowsActive, KnowsResult;
  }

  lemma RequestKnows(st: State, t: Story, s: nat, ev: Event)
    requires Inv(st) && Knows(st, t, s) && Runs(st, s) && Requests(st.active.value.command, ev)
    ensures Knows(Step(st, ev).0, Learn(t, st, s, ev), s)
  {
    hide OnTask;
  }

  lemma OtherKnows(st: State, t: Story, s: nat, ev: Event)
    requires Inv(st) && Knows(st, t, s) && !ev.Advances?
    requires Runs(st, s) ==> !Requests(st.active.value.command, ev)
    ensures Knows(Step(st, ev).0, Learn(t, st, s, ev), s)
  {
    hide OnTask;
  }

  lemma StepKnows(st: State, t: Story, s: nat, ev: Event)
    requires Inv(st) && Knows(st, t, s)
    ensures Knows(Step(st, ev).0, Learn(t, st, s, ev), s)
  {
    hide Inv, Knows, OnTask, OnCommand, OnSettle, Learn, Requests;
    if Runs(st, s) && Requests(st.active.value.command, ev) {
      RequestKnows(st, t, s, ev);
    } else if ev.Advances? {
      if !Runs(st, s) { OtherTaskKnows(st, t, s, ev.task); }
      else {
        var p := st.active.value.phase;
        if p.Created? || p.Preparing? || p.Spawning? || p.Watching? { FrontKnows(st, t, s, ev.task); }
        else { BackKnows(st, t, s, ev.task); }
      }
    } else {
      OtherKnows(st, t, s, ev);
    }
  }

  lemma {:induction false} RunKnows(run: seq<Event>, s: nat)
    ensures Knows(After(INITIAL_STATE, run), Told(run, s), s)
  {
    hide Inv, Step, Learn, KnowsActive, KnowsResult;
    if run != [] {
      var n := |run| - 1;
      RunKnows(run[..n], s);
      RunKeepsInv(INITIAL_STATE, run[..n]);
      AfterOneMore(INITIAL_STATE, run);
      StepKnows(After(INITIAL_STATE, run[..n]), Told(run[..n], s), s, run[n]);
    }
  }

  // ----- what an attempt is answered -----

  /** Over every run: what a settled attempt was answered, from its own awaits. It was rendered exactly when it was
      prepared, spawned and watched to a rendering, its tree was proven gone, an ok result was uploaded, and no cancel
      was requested of it. Every other outcome has its own causes, and an unproven end or a cancel comes before
      them. */
  lemma SettledExactly(run: seq<Event>, e: Entry)
    requires e in After(INITIAL_STATE, run).settled
    ensures var t := Told(run, e.command.sequence);
            && (e.result.Unavailable? <==> !Proven(t))
            && (e.result.Canceled? <==> Proven(t) && t.canceled.Some?)
            && (e.result.Rendered? <==>
                  && t.canceled.None? && t.prepared == Some(true) && t.spawned == Some(SpawnOk)
                  && t.watched.Some? && t.watched.value.outcome.Rendered? && t.treeEnded == Some(true)
                  && (t.watched.value.ok ==> t.uploaded == Some(true)))
            && (e.result.Timeout? <==>
                  Proven(t) && t.canceled.None? && t.watched.Some? && t.watched.value.outcome.Timeout?)
            && (e.result.MemoryLimit? <==>
                  Proven(t) && t.canceled.None? && t.watched.Some? && t.watched.value.outcome.MemoryLimit?)
            && (e.result.InvalidOutput? <==>
                  && Proven(t) && t.canceled.None?
                  && ((t.watched.Some? && t.watched.value.outcome.InvalidOutput?) || t.uploaded == Some(false)))
            && (e.result.Crashed? <==>
                  && Proven(t) && t.canceled.None?
                  && (t.prepared == Some(false) || t.spawned == Some(SpawnFailed)
                      || (t.watched.Some? && !Watched(t.watched.value.outcome))))
            && !e.result.Busy? && !e.result.ProtocolError?
  {
    RunKnows(run, e.command.sequence);
  }
  /** The attempt's end stayed unproven, and no cancel of its last step hid that. */
  predicate LeftUnproven(t: Story) { !Proven(t) && !CutOff(t) }

  lemma StepDoubts(st: State, t: Story, s: nat, ev: Event)
    requires Inv(st) && Knows(st, t, s) && Runs(st, s)
    ensures Step(st, ev).0.uncertain <==> LeftUnproven(Learn(t, st, s, ev))
    ensures !st.uncertain && !LeftUnproven(t)
  {
  }

  lemma DoubtStays(st: State, ev: Event)
    ensures st.uncertain ==> Step(st, ev).0.uncertain
    ensures Step(st, ev).0.uncertain != st.uncertain ==> st.active.Some? && !st.active.value.phase.Ended?
  {
  }

  ghost predicate SomeLeft(run: seq<Event>) { exists s: nat :: LeftUnproven(Told(run, s)) }

  /** The service is uncertain if and only if the end of some attempt stayed unproven and no cancel hid it. */
  lemma {:induction false} UncertainExactly(run: seq<Event>)
    ensures After(INITIAL_STATE, run).uncertain <==> SomeLeft(run)
  {
    hide Inv, Step, Learn, Knows, LeftUnproven;
    if run == [] {
      forall s: nat ensures !LeftUnproven(Told([], s)) { NothingLeft(s); }
    } else {
      var n := |run| - 1;
      var st := After(INITIAL_STATE, run[..n]);
      UncertainExactly(run[..n]);
      RunKeepsInv(INITIAL_STATE, run[..n]);
      AfterOneMore(INITIAL_STATE, run);
      DoubtStays(st, run[n]);
      if st.active.Some? && !st.active.value.phase.Ended? {
        var s := st.active.value.command.sequence;
        RunKnows(run[..n], s);
        StepDoubts(st, Told(run[..n], s), s, run[n]);
        forall x: nat | x != s ensures Told(run, x) == Told(run[..n], x) { OthersLearnNothing(run, x); }
        assert Told(run, s) == Learn(Told(run[..n], s), st, s, run[n]);
        if After(INITIAL_STATE, run).uncertain { assert LeftUnproven(Told(run, s)); }
      } else {
        forall x: nat ensures Told(run, x) == Told(run[..n], x) { OthersLearnNothing(run, x); }
        SameLeft(run, run[..n]);
      }
    }
  }

  lemma SameLeft(run: seq<Event>, before: seq<Event>)
    requires forall x: nat :: Told(run, x) == Told(before, x)
    ensures SomeLeft(run) <==> SomeLeft(before)
  {
    hide Told, LeftUnproven;
    if SomeLeft(run) {
      var s: nat :| LeftUnproven(Told(run, s));
      assert LeftUnproven(Told(before, s));
    }
    if SomeLeft(before) {
      var s: nat :| LeftUnproven(Told(before, s));
      assert LeftUnproven(Told(run, s));
    }
  }

  lemma NothingLeft(s: nat)
    ensures !LeftUnproven(Told([], s))
  {
  }

  lemma OthersLearnNothing(run: seq<Event>, s: nat)
    requires run != [] && !Runs(After(INITIAL_STATE, run[..|run| - 1]), s)
    ensures Told(run, s) == Told(run[..|run| - 1], s)
  {
    hide Step;
  }

  /** The run handler answers what it stores: exactly when the task left a result, and that result. */
  lemma AnsweredAsSettled(st: State)
    ensures var (st1, answer) := Step(st, Settles);
            && (answer.Some? <==> st.active.Some? && st.active.value.phase.Ended? && st.active.value.phase.result.Some?)
            && (answer.Some? ==>
                  var e := Entry(st.active.value.command, answer.value.outcome);
                  && answer.value == Answer(e.command.sequence, Run, e.result)
                  && e.result == st.active.value.phase.result.value
                  && st1.settled == st.settled + [e] && st1.active.None?)
  {
  }

  /** A service loses no attempt: from wherever its task is, these events end it. */
  const TO_THE_END: seq<Event> := [
    Advances(Begin), Advances(Prepared(true)), Advances(Spawned(SpawnOk)), Advances(WatchEnds(Rendered, true)),
    Advances(TreeEnded(true)), Advances(Uploaded(true)), Advances(Cleaned)]

  /** How far the first i of them bring a task, at least. */
  ghost predicate Past(st: State, i: nat) {
    && st.active.Some?
    && match st.active.value.phase
       case Created => i == 0
       case Preparing => i <= 1
       case Spawning => i <= 2
       case Watching => i <= 3
       case Ending => i <= 4
       case Uploading => i <= 5
       case Cleaning => i <= 6
       case Ended(_) => true
  }

  lemma GoesPast(st: State, i: nat)
    requires i < 7 && Past(st, i)
    ensures Past(Step(st, TO_THE_END[i]).0, i + 1)
  {
  }

  lemma {:induction false} RunsPast(st: State, i: nat)
    requires i <= 7 && Past(st, i)
    ensures Past(After(st, TO_THE_END[i..]), 7)
    decreases 7 - i
  {
    hide Step, Past;
    if i < 7 {
      GoesPast(st, i);
      RunsPast(Step(st, TO_THE_END[i]).0, i + 1);
      assert TO_THE_END[i..][1..] == TO_THE_END[i + 1..];
    }
  }

  lemma TaskCanEnd(st: State)
    requires st.active.Some?
    ensures After(st, TO_THE_END).active.Some? && After(st, TO_THE_END).active.value.phase.Ended?
  {
    RunsPast(st, 0);
    assert TO_THE_END[0..] == TO_THE_END;
  }

  // ----- what an arriving command is answered -----

  /** s is no longer new: an attempt of it or of a later sequence was executed, or a cancel of such a one arrived. */
  ghost predicate Passed(run: seq<Event>, s: nat) {
    || s == 0
    || (exists x :: x in After(INITIAL_STATE, run).executed && s <= x)
    || (exists ev :: ev in run && Cancels(ev) && s <= ev.command.sequence)
  }

  predicate Cancels(ev: Event) { ev.Arrives? && ev.command.operation.Cancel? }

  lemma StepMarks(st: State, ev: Event, s: nat)
    requires Inv(st)
    ensures var st1 := Step(st, ev).0;
            && (s <= st1.highwater <==>
                  || s <= st.highwater
                  || (Cancels(ev) && s <= ev.command.sequence)
                  || (st1.executed != st.executed && s <= st1.executed[|st1.executed| - 1]))
            && (st1.executed == st.executed ||
                  (ev.Arrives? && ev.command.sequence > st.highwater
                   && st1.executed == st.executed + [ev.command.sequence]))
  {
    hide OnTask;
    if ev.Advances? { TaskMarksNothing(st, ev.task); }
  }

  lemma TaskMarksNothing(st: State, task: TaskEvent)
    ensures OnTask(st, task).highwater == st.highwater && OnTask(st, task).executed == st.executed
  {
  }

  /** The high-water mark told from the run alone. */
  lemma {:induction false} PassedExactly(run: seq<Event>, s: nat)
    ensures s <= After(INITIAL_STATE, run).highwater <==> Passed(run, s)
  {
    hide Inv, Step;
    if run != [] {
      var n := |run| - 1;
      var before := run[..n];
      PassedExactly(before, s);
      RunKeepsInv(INITIAL_STATE, before);
      AfterOneMore(INITIAL_STATE, run);
      var st, st1 := After(INITIAL_STATE, before), After(INITIAL_STATE, run);
      StepMarks(st, run[n], s);
      assert run == before + [run[n]];
      assert forall ev :: ev in run <==> ev in before || ev == run[n];
      if st1.executed != st.executed {
        var x := run[n].command.sequence;
        assert st1.executed[|st1.executed| - 1] == x && x in st1.executed;
        assert forall y :: y in st1.executed <==> y in st.executed || y == x;
      }
    }
  }

  /** One of the last 256 settled. */
  ghost predicate Remembered(st: State, e: Entry) {
    exists i :: 0 <= i < |st.settled| && |st.settled| - 256 <= i && st.settled[i] == e
  }

  lemma RememberedIsCached(run: seq<Event>, e: Entry)
    ensures var st := After(INITIAL_STATE, run); Remembered(st, e) <==> e in st.terminals
  {
    CacheIsTheLatest(run);
    var st := After(INITIAL_STATE, run);
    var from := |st.settled| - |st.terminals|;
    assert forall i | 0 <= i < |st.terminals| :: st.terminals[i] == st.settled[from + i];
    assert forall i | from <= i < |st.settled| :: st.settled[i] == st.terminals[i - from];
  }

  /** A repeat of a remembered run gets its very result, a cancel of it the proof, and anything else on its sequence
      protocol_error; nothing changes. */
  lemma RememberedAnswered(run: seq<Event>, e: Entry, c: Command, now: int)
    requires Remembered(After(INITIAL_STATE, run), e) && c.sequence == e.command.sequence
    ensures var st := After(INITIAL_STATE, run);
            var (st1, answer) := Step(st, Arrives(c, now));
            && st1 == st && answer.Some? && answer.value.sequence == c.sequence
            && answer.value.outcome ==
                 (if c == e.command then e.result
                  else if c.operation.Cancel? && c.AsRun() == e.command then
                    if e.result.Unavailable? then Unavailable else if st.uncertain then Unavailable else Canceled
                  else ProtocolError)
  {
    var st := After(INITIAL_STATE, run);
    RunKeepsInv(INITIAL_STATE, run);
    RememberedIsCached(run, e);
    CacheIsTheLatest(run);
    OneCached(st, e, c.sequence);
  }

  lemma OneCached(st: State, e: Entry, s: nat)
    requires st.terminals == Latest(st.settled) && PartRenderService.InOrder(st.settled)
    requires e in st.terminals && e.command.sequence == s
    ensures Find(st.terminals, s) == Some(e)
  {
    hide Latest, Find;
    var f := Find(st.terminals, s).value;
    LatestAreSettled(st.settled, e);
    LatestAreSettled(st.settled, f);
    var i :| 0 <= i < |st.settled| && st.settled[i] == e;
    var j :| 0 <= j < |st.settled| && st.settled[j] == f;
  }

  lemma LatestAreSettled(log: seq<Entry>, e: Entry)
    requires e in Latest(log)
    ensures e in log
  {
  }

  /** The sequence of the active attempt: its own cancel waits for the task, its repeat is busy, and nothing else is its
      command. */
  lemma ActiveAnswered(run: seq<Event>, c: Command, now: int)
    requires var st := After(INITIAL_STATE, run); st.active.Some? && st.active.value.command.sequence == c.sequence
    ensures var st := After(INITIAL_STATE, run);
            var (st1, answer) := Step(st, Arrives(c, now));
            && (answer.None? <==> c.operation.Cancel? && c.AsRun() == st.active.value.command)
            && (answer.None? ==> st1.waiting == st.waiting + {c.sequence})
            && (answer.Some? ==> st1 == st)
            && (answer == Some(Answer(c.sequence, c.operation, Busy)) <==> c == st.active.value.command)
            && (answer == Some(Answer(c.sequence, c.operation, ProtocolError)) <==>
                  c.AsRun() != st.active.value.command)
  {
    RunKeepsInv(INITIAL_STATE, run);
    var st := After(INITIAL_STATE, run);
    assert Find(st.terminals, c.sequence).None?;
  }

  /** A sequence that is past, neither remembered nor active: it never starts, and the answer proves nothing more than
      the service knows. A new cancel is answered the same. */
  lemma PastAnswered(run: seq<Event>, c: Command, now: int)
    requires var st := After(INITIAL_STATE, run);
      && (st.active.Some? ==> st.active.value.command.sequence != c.sequence)
      && forall e | Remembered(st, e) :: e.command.sequence != c.sequence
    requires Passed(run, c.sequence) || c.operation.Cancel?
    ensures var st := After(INITIAL_STATE, run);
            var (st1, answer) := Step(st, Arrives(c, now));
            && st1.executed == st.executed && st1.active == st.active && st1.settled == st.settled
            && answer == Some(Answer(c.sequence, c.operation, if st.uncertain then Unavailable else Canceled))
  {
    var st := After(INITIAL_STATE, run);
    PassedExactly(run, c.sequence);
    NotRemembered(run, c.sequence);
  }

  lemma NotRemembered(run: seq<Event>, s: nat)
    requires forall e | Remembered(After(INITIAL_STATE, run), e) :: e.command.sequence != s
    ensures Find(After(INITIAL_STATE, run).terminals, s).None?
  {
    var found := Find(After(INITIAL_STATE, run).terminals, s);
    if found.Some? { RememberedIsCached(run, found.value); }
  }

  /** A run is executed if and only if it is new, the service is free and certain, and its deadline is ahead. One that
      is new and refused gets the first reason that applies. */
  lemma ExecutedExactly(run: seq<Event>, c: Command, now: int)
    ensures var st := After(INITIAL_STATE, run);
            var (st1, answer) := Step(st, Arrives(c, now));
            && (st1.executed != st.executed <==>
                  && c.operation.Run? && !Passed(run, c.sequence)
                  && !st.uncertain && st.active.None? && now < c.body.deadline)
            && (st1.executed != st.executed ==>
                  && answer.None? && st1.executed == st.executed + [c.sequence]
                  && st1.active == Some(Attempt(c, Created, false, Crashed, false)))
            && (c.operation.Run? && !Passed(run, c.sequence) && st1.executed == st.executed ==>
                  && st1 == st
                  && answer == Some(Answer(c.sequence, Run, if st.uncertain then Unavailable
                                                            else if st.active.Some? then Busy else Timeout)))
  {
    RunKeepsInv(INITIAL_STATE, run);
    PassedExactly(run, c.sequence);
  }

  /** A waiting cancel is answered exactly when its attempt is over and did not end cancelled. */
  lemma JoinAnswered(run: seq<Event>, s: nat)
    ensures var st := After(INITIAL_STATE, run);
            var (st1, answer) := Step(st, Joins(s));
            && (answer.Some? ==> answer.value == Answer(s, Cancel, if st.uncertain then Unavailable else Canceled))
            && (answer.Some? <==> s in st.waiting && !Runs(st, s) && !EndedCancelled(st, s))
            && st1 == st.(waiting := if Runs(st, s) then st.waiting else st.waiting - {s})
  {
  }

  /** An attempt ends without an answer if and only if a cancel was requested of it before its task began, while its
      tree was being ended, or during its cleanup. */
  lemma EndsUnansweredExactly(run: seq<Event>, s: nat)
    ensures var st := After(INITIAL_STATE, run);
            && (EndedCancelled(st, s) ==> CutOff(Told(run, s)))
            && (Answered(st, s) ==> !CutOff(Told(run, s)))
  {
    RunKnows(run, s);
  }

  /** The attempt is over and has its result. */
  ghost predicate Answered(st: State, s: nat) {
    || (exists e :: e in st.settled && e.command.sequence == s)
    || (st.active.Some? && st.active.value.command.sequence == s
        && st.active.value.phase.Ended? && st.active.value.phase.result.Some?)
  }
}
