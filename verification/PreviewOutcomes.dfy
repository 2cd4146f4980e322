/** backend/app/preview_service.py: what an attempt is answered, told from what happened at its own awaits, and what
    every arriving command is answered, told from what was settled before. */
module PreviewOutcomes {
  import opened Options
  import opened PreviewService

  // ----- the story of one attempt -----

  /** One child: how its spawn ended, what its watch saw, and whether its stop returned. */
  datatype ChildStory = ChildStory(spawned: SpawnEnd, watched: Option<Flow>, stopped: Option<bool>)

  /** Where a cancel finds an attempt whose body runs; in its finally a cancel is absorbed. */
  datatype Await = AtStart | AtWork | AtSpawn | AtWatch | AtStop

  /** The children in the order of their spawns; the error of the work between them; whether the work came to its end
      after the last render; the last stop of the finally; and the await at which a cancel was last requested. */
  datatype Story = Story(
    children: seq<ChildStory>, failed: Option<Failing>, done: bool, finalStop: Option<bool>, canceled: Option<Await>)

  const UNTOLD := Story([], None, false, None, None)

  /** Attempt s is the active one and its task runs. */
  predicate Runs(st: State, s: nat) {
    st.active.Some? && st.active.value.command.sequence == s && !st.active.value.phase.Ended?
  }

  function AwaitOf(p: Phase): Option<Await> {
    match p
    case Created => Some(AtStart)
    case Working => Some(AtWork)
    case Spawning => Some(AtSpawn)
    case Watching => Some(AtWatch)
    case Stopping(_) => Some(AtStop)
    case _ => None
  }

  /** A lost broker, or a cancel that repeats the run's fields. */
  predicate Requests(command: Command, ev: Event) {
    || ev.Disconnects?
    || (ev.Arrives? && ev.command.operation.Cancel? && ev.command.AsRun() == command)
  }

  function Last(t: Story): ChildStory
    requires t.children != []
  {
    t.children[|t.children| - 1]
  }

  function WithLast(t: Story, c: ChildStory): Story
    requires t.children != []
  {
    t.(children := t.children[..|t.children| - 1] + [c])
  }

  /** What one task event tells, by the await the attempt is at. */
  function LearnTask(t: Story, a: Attempt, ev: TaskEvent): Story {
    match (a.phase, ev)
    case (Working, WorkFails(o)) => t.(failed := Some(o))
    case (Working, WorkDone) => if |t.children| == |Chain(a.command.body)| then t.(done := true) else t
    case (Spawning, Spawned(how)) => t.(children := t.children + [ChildStory(how, None, None)])
    case (Watching, WatchEnds(flow)) => if t.children == [] then t else WithLast(t, Last(t).(watched := Some(flow)))
    case (Stopping(_), Stopped(gone)) => if t.children == [] then t else WithLast(t, Last(t).(stopped := Some(gone)))
    case (FinalStop, FinalStopped(gone)) => t.(finalStop := Some(gone))
    case (_, _) => t
  }

  function Learn(t: Story, st: State, s: nat, ev: Event): Story {
    if !Runs(st, s) then t
    else
      var a := st.active.value;
      if Requests(a.command, ev) then
        if AwaitOf(a.phase).Some? then t.(canceled := AwaitOf(a.phase)) else t
      else if ev.Advances? then LearnTask(t, a, ev.task)
      else t
  }

  /** The story of attempt s in a run. */
  function Told(run: seq<Event>, s: nat): Story {
    if run == [] then UNTOLD else
      var n := |run| - 1;
      Learn(Told(run[..n], s), After(INITIAL_STATE, run[..n]), s, run[n])
  }

  lemma {:induction false} AfterOneMore(st: State, run: seq<Event>)
    requires run != []
    ensures After(st, run) == Step(After(st, run[..|run| - 1]), run[|run| - 1]).0
    decreases |run|
  {
    hide Step;
    if |run| == 1 {
      assert run[1..] == [] && run[..0] == [];
    } else {
      AfterOneMore(Step(st, run[0]).0, run[1..]);
      assert run[1..][..|run| - 2] == run[..|run| - 1][1..];
    }
  }

  // ----- what the story makes of the reply -----

  /** The j-th render was watched to an end the chain goes on from, and its stop returned. A refused rendering of the
      sliced source is such an end. */
  predicate Fine(c: ChildStory, body: Body, j: nat) {
    && c.spawned.SpawnOk? && c.stopped == Some(true) && c.watched.Some?
    && (c.watched.value.Completed? || (c.watched.value.Refused? && j < |Chain(body)| && Chain(body)[j].Source?))
  }

  predicate AllFine(children: seq<ChildStory>, body: Body) {
    forall j | 0 <= j < |children| :: Fine(children[j], body, j)
  }

  /** The whole chain, and the work after it. */
  predicate Complete(t: Story, body: Body) {
    t.done && |t.children| == |Chain(body)| && AllFine(t.children, body)
  }

  /** The attempt's own error. */
  ghost predicate Broke(t: Story, body: Body, o: Outcome) {
    || (t.failed.Some? && t.failed.value == o)
    || (t.children != [] && var c := Last(t);
        || (c.spawned.SpawnFailed? && c.spawned.outcome == o)
        || (c.spawned.SpawnUnproven? && o.Unavailable?)
        || (c.stopped == Some(true) && c.watched.Some? && c.watched.value.Broken? && c.watched.value.outcome == o)
        || (c.stopped == Some(true) && c.watched == Some(Refused) && o.RenderFailed?
            && |t.children| <= |Chain(body)| && !Chain(body)[|t.children| - 1].Source?))
  }

  /** The stop of the last child failed while nothing was requested of it: no cancel is answered for that. */
  predicate StopLost(t: Story) {
    t.children != [] && Last(t).stopped == Some(false) && t.canceled != Some(AtStop)
  }

  ghost predicate Owed(t: Story, body: Body, o: Outcome) {
    if StopLost(t) then o.Unavailable?
    else if t.canceled.Some? then o.Canceled?
    else if Complete(t, body) then o.Success?
    else Broke(t, body, o)
  }

  /** Only the last child can have failed, and the work goes on only over fine ones. */
  ghost predicate WellTold(t: Story, body: Body) {
    && |t.children| <= |Chain(body)|
    && (t.children != [] ==>
          && AllFine(t.children[..|t.children| - 1], body)
          && (Last(t).watched.Some? || Last(t).stopped.Some? ==> Last(t).spawned.SpawnOk?))
    && (t.failed.Some? || t.done ==> AllFine(t.children, body) && (t.failed.Some? ==> !t.done))
  }

  // ----- what the task knows of its story -----

  ghost predicate KnowsActive(a: Attempt, t: Story, uncertain: bool) {
    var body := a.command.body;
    && WellTold(t, body)
    && (uncertain <==> t.finalStop == Some(false))
    && (!a.phase.Cleanup? && !a.phase.Ended? ==> t.finalStop.None?)
    && (AwaitOf(a.phase).Some? ==> t.failed.None? && !t.done)
    && match a.phase
       case Created => t == UNTOLD && a.place == 0
       case Working =>
         && |t.children| == a.place && AllFine(t.children, body)
         && t.canceled == if a.cancelled then Some(AtWork) else None
       case Spawning =>
         && |t.children| == a.place < |Chain(body)| && AllFine(t.children, body)
         && t.canceled == if a.cancelled then Some(AtSpawn) else None
       case Watching =>
         && |t.children| == a.place + 1 && Last(t) == ChildStory(SpawnOk, None, None)
         && t.canceled == if a.cancelled then Some(AtWatch) else None
       case Stopping(flow) =>
         && |t.children| == a.place + 1 && Last(t).spawned.SpawnOk? && Last(t).stopped.None?
         && if a.cancelled then t.canceled == Some(AtStop)
            else if t.canceled.None? then Last(t).watched == Some(flow)
              else (t.canceled == Some(AtSpawn) || t.canceled == Some(AtWatch)) && flow == Broken(Canceled)
       case Closing | FinalStop | Cleanup => t.canceled != Some(AtStart) && Owed(t, body, a.reply)
       case Ended(None) => t == UNTOLD.(canceled := Some(AtStart))
       case Ended(Some(o)) => t.canceled != Some(AtStart) && Owed(t, body, o)
  }

  ghost predicate KnowsResult(t: Story, e: Entry) {
    if e.command.operation.Run? then
      && WellTold(t, e.command.body) && t.canceled != Some(AtStart)
      && if t.finalStop == Some(false) then e.result.Unavailable? else Owed(t, e.command.body, e.result)
    else e.result.Canceled? && t == UNTOLD
  }

  ghost predicate Knows(st: State, t: Story, s: nat) {
    && (s > st.highwater ==> t == UNTOLD)
    && (st.active.Some? && st.active.value.command.sequence == s ==> KnowsActive(st.active.value, t, st.uncertain))
    && (forall e | e in st.settled && e.command.sequence == s :: KnowsResult(t, e))
  }

  lemma WorkKnows(st: State, t: Story, s: nat, task: TaskEvent)
    requires Inv(st) && Knows(st, t, s) && Runs(st, s)
    requires var p := st.active.value.phase; p.Created? || p.Working?
    ensures Knows(OnTask(st, task), Learn(t, st, s, Advances(task)), s)
  {
    hide Chain;
  }

  lemma SpawnKnows(st: State, t: Story, s: nat, task: TaskEvent)
    requires Inv(st) && Knows(st, t, s) && Runs(st, s) && st.active.value.phase.Spawning?
    ensures Knows(OnTask(st, task), Learn(t, st, s, Advances(task)), s)
  {
    hide Chain, AllFine;
    if task.Spawned? {
      var now := Learn(t, st, s, Advances(task));
      assert now.children[..|now.children| - 1] == t.children;
    }
  }

  lemma WatchKnows(st: State, t: Story, s: nat, task: TaskEvent)
    requires Inv(st) && Knows(st, t, s) && Runs(st, s) && st.active.value.phase.Watching?
    ensures Knows(OnTask(st, task), Learn(t, st, s, Advances(task)), s)
  {
    hide Chain;
    var now := Learn(t, st, s, Advances(task));
    assert now.children[..|now.children| - 1] == t.children[..|t.children| - 1];
  }

  lemma StopKnows(st: State, t: Story, s: nat, task: TaskEvent)
    requires Inv(st) && Knows(st, t, s) && Runs(st, s) && st.active.value.phase.Stopping?
    ensures Knows(OnTask(st, task), Learn(t, st, s, Advances(task)), s)
  {
    hide Chain;
    var now := Learn(t, st, s, Advances(task));
    assert now.children[..|now.children| - 1] == t.children[..|t.children| - 1];
  }

  lemma FinallyKnows(st: State, t: Story, s: nat, task: TaskEvent)
    requires Inv(st) && Knows(st, t, s) && Runs(st, s)
    requires var p := st.active.value.phase; p.Closing? || p.FinalStop? || p.Cleanup?
    ensures Knows(OnTask(st, task), Learn(t, st, s, Advances(task)), s)
  {
    hide Chain, AllFine;
  }

  lemma OtherTaskKnows(st: State, t: Story, s: nat, task: TaskEvent)
    requires Inv(st) && Knows(st, t, s) && !Runs(st, s)
    ensures Knows(OnTask(st, task), Learn(t, st, s, Advances(task)), s)
  {
    hide Chain, KnowsActive, KnowsResult;
  }

  lemma RequestKnows(st: State, t: Story, s: nat, ev: Event)
    requires Inv(st) && Knows(st, t, s) && Runs(st, s) && Requests(st.active.value.command, ev)
    ensures Knows(Step(st, ev).0, Learn(t, st, s, ev), s)
  {
    hide OnTask, Chain, AllFine, Put, Shrink, Runnable;
    if ev.Arrives? { ExpireHolds(st.terminals, st.clock + ev.ticks.elapsed); }
  }

  lemma SettleKnows(st: State, t: Story, s: nat, ev: Event)
    requires Inv(st) && Knows(st, t, s) && ev.Settles?
    ensures Knows(Step(st, ev).0, t, s)
  {
    hide Chain, AllFine, Put, Shrink;
  }

  lemma ArrivalKnows(st: State, t: Story, s: nat, ev: Event)
    requires Inv(st) && Knows(st, t, s) && ev.Arrives?
    requires Runs(st, s) ==> !Requests(st.active.value.command, ev)
    ensures Knows(Step(st, ev).0, t, s)
  {
    hide Chain, Put, Shrink, Expire, Runnable, Find, Owed;
  }

  lemma OtherKnows(st: State, t: Story, s: nat, ev: Event)
    requires Inv(st) && Knows(st, t, s) && !ev.Advances?
    requires Runs(st, s) ==> !Requests(st.active.value.command, ev)
    ensures Knows(Step(st, ev).0, Learn(t, st, s, ev), s)
  {
    hide OnTask, OnCommand, OnSettle, KnowsActive, KnowsResult;
    if ev.Arrives? { ArrivalKnows(st, t, s, ev); }
    if ev.Settles? { SettleKnows(st, t, s, ev); }
  }

  lemma StepKnows(st: State, t: Story, s: nat, ev: Event)
    requires Inv(st) && Knows(st, t, s)
    ensures Knows(Step(st, ev).0, Learn(t, st, s, ev), s)
  {
    hide Inv, Knows, OnTask, OnCommand, OnSettle, Learn, Requests;
    if Runs(st, s) && Requests(st.active.value.command, ev) {
      RequestKnows(st, t, s, ev);
    } else if !ev.Advances? {
      OtherKnows(st, t, s, ev);
    } else if !Runs(st, s) {
      OtherTaskKnows(st, t, s, ev.task);
    } else {
      match st.active.value.phase
      case Created | Working => WorkKnows(st, t, s, ev.task);
      case Spawning => SpawnKnows(st, t, s, ev.task);
      case Watching => WatchKnows(st, t, s, ev.task);
      case Stopping(_) => StopKnows(st, t, s, ev.task);
      case Closing | FinalStop | Cleanup => FinallyKnows(st, t, s, ev.task);
      case Ended(_) =>
    }
  }

  lemma {:induction false} RunKnows(run: seq<Event>, s: nat)
    ensures Knows(After(INITIAL_STATE, run), Told(run, s), s)
  {
    hide Inv, Step, Learn, KnowsActive, KnowsResult;
    if run != [] {
      var n := |run| - 1;
      RunKnows(run[..n], s);
      RunKeepsInv(INITIAL_STATE, run[..n]);
      AfterOneMore(INITIAL_STATE, run);
      StepKnows(After(INITIAL_STATE, run[..n]), Told(run[..n], s), s, run[n]);
    }
  }

  // ----- what an attempt is answered -----

  /** An attempt breaks in one way, and not when it is complete. */
  lemma BreaksOnce(t: Story, body: Body, o: Outcome, p: Outcome)
    requires WellTold(t, body) && Broke(t, body, o)
    ensures !Complete(t, body) && (Broke(t, body, p) ==> o == p)
  {
    hide Chain;
  }

  /** Over every run: what a settled attempt was answered, from its own awaits. It succeeded exactly when every render
      of its chain was watched to an end the chain goes on from, every stop returned, the work after them was done, and
      no cancel was requested before the finally. Every other outcome has its own cause there. */
  lemma SettledExactly(run: seq<Event>, e: Entry)
    requires e in After(INITIAL_STATE, run).settled && e.command.operation.Run?
    ensures var t, body := Told(run, e.command.sequence), e.command.body;
            && (e.result.Success? <==>
                  && t.canceled.None? && t.finalStop != Some(false) && t.done
                  && |t.children| == |Chain(body)|
                  && (forall j | 0 <= j < |t.children| :: Fine(t.children[j], body, j)))
            && (e.result.Canceled? <==>
                  && t.finalStop != Some(false) && !StopLost(t)
                  && (t.canceled.Some? || Broke(t, body, Canceled)))
            && (e.result.Unavailable? <==>
                  t.finalStop == Some(false) || StopLost(t) || (t.canceled.None? && Broke(t, body, Unavailable)))
            && forall o: Outcome | !o.Success? && !o.Canceled? && !o.Unavailable? ::
                 e.result == o <==>
                   t.finalStop != Some(false) && !StopLost(t) && t.canceled.None? && Broke(t, body, o)
  {
    hide Chain, AllFine, Fine, Broke, StopLost, WellTold;
    RunKnows(run, e.command.sequence);
    var t, body := Told(run, e.command.sequence), e.command.body;
    assert KnowsResult(t, e);
    forall o, p | Broke(t, body, o) ensures !Complete(t, body) && (Broke(t, body, p) ==> o == p) {
      BreaksOnce(t, body, o, p);
    }
    NoneSucceedsBroken(t, body);
    assert AllFine(t.children, body) <==> forall j | 0 <= j < |t.children| :: Fine(t.children[j], body, j) by {
      FineAlike(t.children, body);
    }
    if StopLost(t) { LostIsNotComplete(t, body); }
  }

  lemma NoneSucceedsBroken(t: Story, body: Body)
    ensures !Broke(t, body, Success)
  {
  }

  lemma FineAlike(children: seq<ChildStory>, body: Body)
    ensures AllFine(children, body) <==> forall j | 0 <= j < |children| :: Fine(children[j], body, j)
  {
  }

  lemma LostIsNotComplete(t: Story, body: Body)
    requires StopLost(t)
    ensures !Complete(t, body)
  {
    assert !Fine(Last(t), body, |t.children| - 1);
  }

  lemma StepDoubts(st: State, t: Story, s: nat, ev: Event)
    requires Inv(st) && Knows(st, t, s) && Runs(st, s)
    ensures Step(st, ev).0.uncertain <==> Learn(t, st, s, ev).finalStop == Some(false)
  {
    hide Chain, AllFine, Put, Shrink, Expire, Find, Runnable;
  }

  lemma DoubtStays(st: State, ev: Event)
    ensures st.uncertain ==> Step(st, ev).0.uncertain
    ensures Step(st, ev).0.uncertain != st.uncertain ==> st.active.Some? && !st.active.value.phase.Ended?
  {
    hide Chain, Put, Shrink, Expire, Find, Runnable;
  }

  ghost predicate SomeLost(run: seq<Event>) { exists s: nat :: Told(run, s).finalStop == Some(false) }

  /** The service is uncertain if and only if the last stop of some attempt's child failed. */
  lemma {:induction false} UncertainExactly(run: seq<Event>)
    ensures After(INITIAL_STATE, run).uncertain <==> SomeLost(run)
  {
    hide Inv, Step, Learn, Knows;
    if run != [] {
      var n := |run| - 1;
      var st := After(INITIAL_STATE, run[..n]);
      UncertainExactly(run[..n]);
      RunKeepsInv(INITIAL_STATE, run[..n]);
      AfterOneMore(INITIAL_STATE, run);
      DoubtStays(st, run[n]);
      if st.active.Some? && !st.active.value.phase.Ended? {
        var s := st.active.value.command.sequence;
        RunKnows(run[..n], s);
        StepDoubts(st, Told(run[..n], s), s, run[n]);
        NotLostYet(st, Told(run[..n], s), s);
        forall x: nat | x != s ensures Told(run, x) == Told(run[..n], x) { OthersLearnNothing(run, x); }
        assert Told(run, s) == Learn(Told(run[..n], s), st, s, run[n]);
        if After(INITIAL_STATE, run).uncertain { assert Told(run, s).finalStop == Some(false); }
      } else {
        forall x: nat ensures Told(run, x) == Told(run[..n], x) { OthersLearnNothing(run, x); }
      }
    }
  }

  lemma NotLostYet(st: State, t: Story, s: nat)
    requires Inv(st) && Knows(st, t, s) && Runs(st, s)
    ensures !st.uncertain && t.finalStop != Some(false)
  {
    hide Chain, AllFine;
  }

  lemma OthersLearnNothing(run: seq<Event>, s: nat)
    requires run != [] && !Runs(After(INITIAL_STATE, run[..|run| - 1]), s)
    ensures Told(run, s) == Told(run[..|run| - 1], s)
  {
    hide Step;
  }

  /** The run handler answers what it remembers: exactly when the task left a result, which an uncertain service
      replaces by unavailable. */
  lemma AnsweredAsSettled(st: State, stored: nat, pruned: nat)
    ensures var (st1, answer) := Step(st, Settles(stored, pruned));
            && (answer.Some? <==> st.active.Some? && st.active.value.phase.Ended? && st.active.value.phase.result.Some?)
            && (answer.Some? ==>
                  var a := st.active.value;
                  var o := if st.uncertain then Unavailable else a.phase.result.value;
                  && answer.value == Answer(a.command.sequence, Reply(o, None))
                  && st1.settled == st.settled + [Entry(st.clock + stored, a.command, o)] && st1.active.None?)
  {
  }

  /** A service loses no attempt: from wherever its task is, these events end it. */
  const TO_THE_END: seq<TaskEvent> := [
    Begin, StartsRender, Spawned(SpawnOk), WatchEnds(Completed), Stopped(true),
    StartsRender, Spawned(SpawnOk), WatchEnds(Completed), Stopped(true),
    WorkDone, Closed, FinalStopped(true), CleanedUp]

  /** How far the first i of them bring a task, at least. */
  ghost predicate Past(st: State, i: nat) {
    && st.active.Some?
    && var a := st.active.value;
       var left := if a.place >= |Chain(a.command.body)| then 8 else if a.place + 1 == |Chain(a.command.body)| then 4
                   else 0;
       match a.phase
       case Created => i == 0
       case Working => i <= left + 1
       case Spawning => i <= left + 2
       case Watching => i <= left + 3
       case Stopping(_) => i <= left + 4
       case Closing => i <= 10
       case FinalStop => i <= 11
       case Cleanup => i <= 12
       case Ended(_) => true
  }

  lemma WorkGoesPast(st: State, i: nat)
    requires Inv(st) && i < 13 && Past(st, i)
    requires var p := st.active.value.phase; p.Created? || p.Working? || p.Spawning?
    ensures Past(OnTask(st, TO_THE_END[i]), i + 1)
  {
    hide GoesOn, Inv, Chain;
    ChainLength(st.active.value.command.body);
    PlaceInChain(st);
    assert i in {1, 5} ==> TO_THE_END[i] == StartsRender;
    assert i in {2, 6} ==> TO_THE_END[i] == Spawned(SpawnOk);
    assert i == 9 ==> TO_THE_END[i] == WorkDone;
  }

  lemma PlaceInChain(st: State)
    requires Inv(st) && st.active.Some?
    ensures var a := st.active.value;
            a.place <= |Chain(a.command.body)| && (a.phase.Spawning? ==> a.place < |Chain(a.command.body)|)
  {
  }

  lemma WatchGoesPast(st: State, i: nat)
    requires Inv(st) && i < 13 && Past(st, i)
    requires var p := st.active.value.phase; p.Watching? || p.Stopping?
    ensures Past(OnTask(st, TO_THE_END[i]), i + 1)
  {
    hide Chain;
    ChainLength(st.active.value.command.body);
    assert i in {3, 7} ==> TO_THE_END[i] == WatchEnds(Completed);
    assert i in {4, 8} ==> TO_THE_END[i] == Stopped(true);
  }

  lemma FinallyGoesPast(st: State, i: nat)
    requires i < 13 && Past(st, i)
    requires var p := st.active.value.phase; p.Closing? || p.FinalStop? || p.Cleanup? || p.Ended?
    ensures Past(OnTask(st, TO_THE_END[i]), i + 1)
  {
    hide Chain;
  }

  lemma ChainLength(body: Body)
    ensures 1 <= |Chain(body)| <= 2
  {
  }

  lemma GoesPast(st: State, i: nat)
    requires Inv(st) && i < 13 && Past(st, i)
    ensures Past(OnTask(st, TO_THE_END[i]), i + 1)
  {
    hide OnTask, Inv, Past;
    assert st.active.Some? by { PastIsActive(st, i); }
    match st.active.value.phase
    case Created | Working | Spawning => WorkGoesPast(st, i);
    case Watching | Stopping(_) => WatchGoesPast(st, i);
    case Closing | FinalStop | Cleanup | Ended(_) => FinallyGoesPast(st, i);
  }

  lemma PastIsActive(st: State, i: nat)
    requires Past(st, i)
    ensures st.active.Some?
    ensures i == 13 ==> st.active.value.phase.Ended?
    ensures Past(st, 0)
  {
  }

  function Tasks(events: seq<TaskEvent>): seq<Event> {
    seq(|events|, k requires 0 <= k < |events| => Advances(events[k]))
  }

  lemma {:induction false} RunsPast(st: State, i: nat)
    requires Inv(st) && i <= 13 && Past(st, i)
    ensures Past(After(st, Tasks(TO_THE_END[i..])), 13)
    decreases 13 - i
  {
    hide Step, Past, Inv;
    var rest := Tasks(TO_THE_END[i..]);
    if i < 13 {
      GoesPast(st, i);
      StepKeepsInv(st, rest[0]);
      StepIsTask(st, TO_THE_END[i]);
      RunsPast(Step(st, rest[0]).0, i + 1);
      assert rest[1..] == Tasks(TO_THE_END[i + 1..]);
    } else {
      assert rest == [];
    }
  }

  lemma StepIsTask(st: State, task: TaskEvent)
    ensures Step(st, Advances(task)).0 == OnTask(st, task)
  {
  }

  lemma TaskCanEnd(run: seq<Event>)
    requires After(INITIAL_STATE, run).active.Some?
    ensures var end := After(After(INITIAL_STATE, run), Tasks(TO_THE_END));
            end.active.Some? && end.active.value.phase.Ended?
  {
    hide Past;
    var st := After(INITIAL_STATE, run);
    RunKeepsInv(INITIAL_STATE, run);
    assert Past(st, 0) by { AlwaysPastNone(st); }
    RunsPast(st, 0);
    assert TO_THE_END[0..] == TO_THE_END;
    PastIsActive(After(st, Tasks(TO_THE_END)), 13);
  }

  lemma AlwaysPastNone(st: State)
    requires st.active.Some?
    ensures Past(st, 0)
  {
  }

  // ----- what an arriving command is answered -----

  /** s is no longer new: an attempt of it or of a later sequence was executed, or a cancel of such a one arrived. */
  ghost predicate Passed(run: seq<Event>, s: nat) {
    || s == 0
    || (exists x :: x in After(INITIAL_STATE, run).executed && s <= x)
    || (exists ev :: ev in run && Cancels(ev) && s <= ev.command.sequence)
  }

  predicate Cancels(ev: Event) { ev.Arrives? && ev.command.operation.Cancel? }

  lemma StepMarks(st: State, ev: Event, s: nat)
    requires Inv(st)
    ensures var st1 := Step(st, ev).0;
            && (s <= st1.highwater <==>
                  || s <= st.highwater
                  || (Cancels(ev) && s <= ev.command.sequence)
                  || (st1.executed != st.executed && s <= st1.executed[|st1.executed| - 1]))
            && (st1.executed == st.executed ||
                  (ev.Arrives? && ev.command.sequence > st.highwater
                   && st1.executed == st.executed + [ev.command.sequence]))
  {
    hide OnTask, Runnable, Chain, Put, Shrink, Expire;
    if ev.Advances? { TaskMarksNothing(st, ev.task); }
    if ev.Arrives? { ExpireHolds(st.terminals, st.clock + ev.ticks.elapsed); }
  }

  lemma TaskMarksNothing(st: State, task: TaskEvent)
    ensures OnTask(st, task).highwater == st.highwater && OnTask(st, task).executed == st.executed
  {
    hide Chain, GoesOn;
  }

  /** The high-water mark told from the run alone. */
  lemma {:induction false} PassedExactly(run: seq<Event>, s: nat)
    ensures s <= After(INITIAL_STATE, run).highwater <==> Passed(run, s)
  {
    hide Inv, Step;
    if run != [] {
      var n := |run| - 1;
      var before := run[..n];
      PassedExactly(before, s);
      RunKeepsInv(INITIAL_STATE, before);
      AfterOneMore(INITIAL_STATE, run);
      var st, st1 := After(INITIAL_STATE, before), After(INITIAL_STATE, run);
      StepMarks(st, run[n], s);
      assert run == before + [run[n]];
      assert forall ev :: ev in run <==> ev in before || ev == run[n];
      if st1.executed != st.executed {
        var x := run[n].command.sequence;
        assert st1.executed[|st1.executed| - 1] == x && x in st1.executed;
        assert forall y :: y in st1.executed <==> y in st.executed || y == x;
      }
    }
  }

  /** One of the last 256 remembered, no older than 900 seconds. */
  ghost predicate Remembered(st: State, now: int, e: Entry) {
    exists i ::
      0 <= i < |st.settled| && |st.settled| - 256 <= i && st.settled[i] == e && now - e.time <= 900_000_000_000
  }

  lemma RememberedIsCached(run: seq<Event>, now: int, e: Entry)
    requires After(INITIAL_STATE, run).clock <= now
    ensures var st := After(INITIAL_STATE, run); Remembered(st, now, e) <==> e in Expire(st.terminals, now)
  {
    hide Expire;
    var st := After(INITIAL_STATE, run);
    RunKeepsCache(INITIAL_STATE, run);
    ExpireKeepsCache(st, now);
    ShrinkIsLongestFresh(st.settled, now);
    SuffixIsFresh(st.settled, now, Expire(st.terminals, now));
  }

  lemma SuffixIsFresh(log: seq<Entry>, now: int, kept: seq<Entry>)
    requires |kept| <= |log| && |kept| <= TERMINAL_LIMIT && kept == log[|log| - |kept|..]
    requires forall e | e in kept :: !Stale(e, now)
    requires forall i | 0 <= i < |log| - |kept| && |log| - i <= TERMINAL_LIMIT :: Stale(log[i], now)
    ensures forall e :: e in kept <==>
      exists i :: 0 <= i < |log| && |log| - 256 <= i && log[i] == e && now - e.time <= 900_000_000_000
  {
    var from := |log| - |kept|;
    forall e | e in kept
      ensures exists i :: 0 <= i < |log| && |log| - 256 <= i && log[i] == e && now - e.time <= 900_000_000_000
    {
      var j :| 0 <= j < |kept| && kept[j] == e;
      assert log[from + j] == e && !Stale(e, now);
    }
    forall i | 0 <= i < |log| && |log| - 256 <= i && now - log[i].time <= 900_000_000_000 ensures log[i] in kept {
      assert !Stale(log[i], now);
      assert kept[i - from] == log[i];
    }
  }

  /** Ready and shutdown are answered at once, whatever happens here. */
  lemma ControlAnswered(st: State, c: Command, t: Ticks)
    requires c.operation.Ready? || c.operation.Shutdown?
    ensures Step(st, Arrives(c, t)).1 == Some(Answer(c.sequence, Reply(Success, None)))
    ensures SameButCache(st, Step(st, Arrives(c, t)).0)
  {
  }

  /** Nothing but the cache and the clock changed: what was stale went. */
  ghost predicate SameButCache(st: State, st1: State) {
    st1 == st.(terminals := st1.terminals, clock := st1.clock)
  }

  predicate Speaks(c: Command) { !c.operation.Ready? && !c.operation.Shutdown? }

  /** A remembered sequence: its very result again, with a proof exactly for a cancel in a service that is not
      uncertain; protocol_error for any other command on it. */
  lemma RememberedAnswered(run: seq<Event>, e: Entry, c: Command, t: Ticks)
    requires Remembered(After(INITIAL_STATE, run), After(INITIAL_STATE, run).clock + t.elapsed, e)
    requires c.sequence == e.command.sequence && Speaks(c)
    ensures var st := After(INITIAL_STATE, run);
            var (st1, answer) := Step(st, Arrives(c, t));
            && SameButCache(st, st1)
            && answer == Some(Answer(c.sequence,
                 if c.AsRun() != e.command.AsRun() then Reply(ProtocolError, None)
                 else Reply(e.result, if c.operation.Cancel? && !st.uncertain then Some(TerminalReplay) else None)))
  {
    hide Expire, Step, Find;
    var st := After(INITIAL_STATE, run);
    var now := st.clock + t.elapsed;
    RememberedIsCached(run, now, e);
    CacheIsLongestFreshSuffix(run);
    ExpireHolds(st.terminals, now);
    RunKeepsInv(INITIAL_STATE, run);
    OneCached(st.settled, Expire(st.terminals, now), e, c.sequence);
    CachedAnswered(st, e, c, t);
  }

  lemma CachedAnswered(st: State, e: Entry, c: Command, t: Ticks)
    requires Find(Expire(st.terminals, st.clock + t.elapsed), c.sequence) == Some(e) && Speaks(c)
    ensures var (st1, answer) := Step(st, Arrives(c, t));
            && SameButCache(st, st1)
            && answer == Some(Answer(c.sequence,
                 if c.AsRun() != e.command.AsRun() then Reply(ProtocolError, None)
                 else Reply(e.result, if c.operation.Cancel? && !st.uncertain then Some(TerminalReplay) else None)))
  {
    hide Expire, Find, OnActive, OnNew;
  }

  lemma OneCached(log: seq<Entry>, cache: seq<Entry>, e: Entry, s: nat)
    requires Distinct(log) && (forall x | x in cache :: x in log) && e in cache && e.command.sequence == s
    ensures Find(cache, s) == Some(e)
  {
    var f := Find(cache, s).value;
    var i :| 0 <= i < |log| && log[i] == e;
    var j :| 0 <= j < |log| && log[j] == f;
    assert log[if i < j then i else j].command.sequence == s;
  }

  lemma NotRemembered(run: seq<Event>, now: int, s: nat)
    requires After(INITIAL_STATE, run).clock <= now
    requires forall e | Remembered(After(INITIAL_STATE, run), now, e) :: e.command.sequence != s
    ensures Find(Expire(After(INITIAL_STATE, run).terminals, now), s).None?
  {
    hide Expire;
    var found := Find(Expire(After(INITIAL_STATE, run).terminals, now), s);
    if found.Some? { RememberedIsCached(run, now, found.value); }
  }

  /** The sequence of the active attempt: its own cancel waits for the task, anything else that repeats it is busy, and
      nothing else is its command. */
  lemma ActiveAnswered(run: seq<Event>, c: Command, t: Ticks)
    requires var st := After(INITIAL_STATE, run);
      st.active.Some? && st.active.value.command.sequence == c.sequence && Speaks(c)
    ensures var st := After(INITIAL_STATE, run);
            var (st1, answer) := Step(st, Arrives(c, t));
            var same := c.AsRun() == st.active.value.command.AsRun();
            && (answer.None? <==> same && c.operation.Cancel?)
            && (answer.None? ==> st1.waiting == st.waiting + {c.sequence})
            && (answer.Some? ==>
                  && SameButCache(st, st1)
                  && answer.value == Answer(c.sequence, Reply(if same then Busy else ProtocolError, None)))
  {
    hide Shrink, Put, Expire, Runnable;
    var st := After(INITIAL_STATE, run);
    RunKeepsInv(INITIAL_STATE, run);
    ExpireHolds(st.terminals, st.clock + t.elapsed);
  }

  /** Neither remembered nor active. */
  ghost predicate Unknown(run: seq<Event>, c: Command, t: Ticks) {
    var st := After(INITIAL_STATE, run);
    && Speaks(c)
    && (st.active.Some? ==> st.active.value.command.sequence != c.sequence)
    && forall e | Remembered(st, st.clock + t.elapsed, e) :: e.command.sequence != c.sequence
  }

  /** A sequence that is past: canceled, with a proof exactly for a cancel in a service that is not uncertain. */
  lemma PastAnswered(run: seq<Event>, c: Command, t: Ticks)
    requires Unknown(run, c, t) && Passed(run, c.sequence)
    ensures var st := After(INITIAL_STATE, run);
            var (st1, answer) := Step(st, Arrives(c, t));
            && SameButCache(st, st1)
            && answer == Some(Answer(c.sequence, Reply(Canceled,
                 if c.operation.Cancel? && !st.uncertain then Some(CancelAck) else None)))
  {
    hide Shrink, Put, Expire, Runnable;
    var st := After(INITIAL_STATE, run);
    PassedExactly(run, c.sequence);
    NotRemembered(run, st.clock + t.elapsed, c.sequence);
  }

  /** A cancel of a new sequence is remembered as canceled and acknowledged the same way. */
  lemma NewCancelAnswered(run: seq<Event>, c: Command, t: Ticks)
    requires Unknown(run, c, t) && !Passed(run, c.sequence) && c.operation.Cancel?
    ensures var st := After(INITIAL_STATE, run);
            var (st1, answer) := Step(st, Arrives(c, t));
            && answer == Some(Answer(c.sequence, Reply(Canceled, if st.uncertain then None else Some(CancelAck))))
            && st1.settled == st.settled + [Entry(st.clock + t.elapsed + t.later, c, Canceled)]
            && st1.executed == st.executed && st1.active == st.active
  {
    hide Shrink, Put, Expire, Runnable;
    var st := After(INITIAL_STATE, run);
    PassedExactly(run, c.sequence);
    NotRemembered(run, st.clock + t.elapsed, c.sequence);
  }

  /** What a run may bring: a mesh or a sliced file, with source pictures beside them; each of a kind its role allows;
      and a CAD mesh, when nothing is sliced, alone and with its bundle named. */
  ghost predicate Wanted(body: Body) {
    && (exists a :: a in body.manifest && (a.role.Mesh? || a.role.Sliced?))
    && (forall a | a in body.manifest ::
          || (a.role.Mesh? && (a.kind.Stl? || a.kind.Obj? || a.kind.Cad?))
          || (a.role.Sliced? && a.kind.ThreeMf?)
          || (a.role.SourcePng? && a.kind.Png?))
    && ((exists a :: a in body.manifest && a.role.Mesh? && a.kind.Cad?)
        && (forall a | a in body.manifest :: !a.role.Sliced?) ==>
          body.cad.Some? && forall a | a in body.manifest :: a.role.Mesh?)
  }

  lemma WantedExactly(body: Body)
    ensures Runnable(body) <==> Wanted(body)
  {
    assert forall a | a in body.manifest :: a.role in Roles(body);
    if Wanted(body) {
      var a :| a in body.manifest && (a.role.Mesh? || a.role.Sliced?);
      assert a.role in Roles(body) * {Mesh, Sliced};
    }
    if Runnable(body) {
      var r :| r in Roles(body) * {Mesh, Sliced};
      var a :| a in body.manifest && a.role == r;
    }
  }

  /** The renders of an attempt: the source and then the plates of what is sliced; else a CAD mesh converted and then
      drawn; else a mesh. */
  lemma RendersExactly(body: Body)
    ensures Chain(body) == [Source, Plates] <==> exists a :: a in body.manifest && a.role.Sliced?
    ensures Chain(body) == [Convert, CadPng] <==>
      && (exists a :: a in body.manifest && a.role.Mesh? && a.kind.Cad?)
      && (forall a | a in body.manifest :: !a.role.Sliced?)
    ensures Chain(body) == [MeshPng] <==>
      forall a | a in body.manifest :: !a.role.Sliced? && !(a.role.Mesh? && a.kind.Cad?)
  {
    var c := Chain(body);
    assert c == [Source, Plates] ==> c[0] == Source;
    assert c == [Convert, CadPng] ==> c[0] == Convert;
    assert c == [MeshPng] ==> c[0] == MeshPng;
  }

  /** A run is executed if and only if it is new, the service is free and certain, its deadline is ahead at the next
      reading of the clock, and its manifest is one a run may bring. A new command that is refused gets the first reason
      that applies. */
  lemma ExecutedExactly(run: seq<Event>, c: Command, t: Ticks)
    requires Unknown(run, c, t) && !Passed(run, c.sequence) && !c.operation.Cancel?
    ensures var st := After(INITIAL_STATE, run);
            var (st1, answer) := Step(st, Arrives(c, t));
            var ahead := st.clock + t.elapsed + t.later < c.body.deadline;
            && (st1.executed != st.executed <==>
                  c.operation.Run? && !st.uncertain && st.active.None? && ahead && Wanted(c.body))
            && (st1.executed != st.executed ==>
                  && answer.None? && st1.executed == st.executed + [c.sequence]
                  && st1.active == Some(Attempt(c, Created, 0, false, false, Unavailable)))
            && (st1.executed == st.executed ==>
                  && SameButCache(st, st1)
                  && answer == Some(Answer(c.sequence, Reply(
                       if c.operation.Status? then Unavailable
                       else if !c.operation.Run? then ProtocolError
                       else if st.uncertain then Unavailable
                       else if st.active.Some? then Busy
                       else if !ahead then Timeout
                       else ProtocolError, None))))
  {
    hide Shrink, Put, Expire, Runnable, Wanted;
    var st := After(INITIAL_STATE, run);
    PassedExactly(run, c.sequence);
    NotRemembered(run, st.clock + t.elapsed, c.sequence);
    WantedExactly(c.body);
  }

  /** Only so is anything executed: a command on a remembered, active or past sequence never is. */
  lemma OnlyNewIsExecuted(run: seq<Event>, ev: Event)
    ensures var st := After(INITIAL_STATE, run);
            Step(st, ev).0.executed != st.executed ==>
              ev.Arrives? && ev.command.operation.Run? && !Passed(run, ev.command.sequence)
  {
    hide OnTask, Shrink, Put, Expire, Runnable;
    var st := After(INITIAL_STATE, run);
    if ev.Arrives? { PassedExactly(run, ev.command.sequence); }
    if ev.Advances? { TaskMarksNothing(st, ev.task); }
  }

  /** A waiting cancel is answered exactly when its attempt's task is over, with a proof unless the service is
      uncertain. */
  lemma JoinAnswered(run: seq<Event>, s: nat)
    ensures var st := After(INITIAL_STATE, run);
            var (st1, answer) := Step(st, Joins(s));
            && (answer.Some? <==> s in st.waiting && !Runs(st, s))
            && (answer.Some? ==> answer.value == Answer(s,
                  if st.uncertain then Reply(Unavailable, None) else Reply(Canceled, Some(CancelAck))))
            && st1 == st.(waiting := if Runs(st, s) then st.waiting else st.waiting - {s})
  {
  }

  /** An attempt ends without a result if and only if it was cancelled before its task began. */
  lemma EndsUnansweredExactly(run: seq<Event>, s: nat)
    requires var st := After(INITIAL_STATE, run);
      st.active.Some? && st.active.value.command.sequence == s && st.active.value.phase.Ended?
    ensures After(INITIAL_STATE, run).active.value.phase.result.None? <==> Told(run, s).canceled == Some(AtStart)
  {
    RunKnows(run, s);
  }
}
