/** backend/app/preview_service.py: the command handler with its cache of terminals and its proof envelopes, and the
    run task with its children one after another.

    Every stretch of code between two awaits is one event; the run task's phases are its await points. `mayLive`
    holds the children that were started and not proven gone, `stopped` those whose stop() returned. */
module PreviewService {
  import opened Options
  import opened Ledger
  import Sorting

  const TERMINAL_LIMIT := 256
  const TTL := 900 * 1_000_000_000

  datatype Operation = Ready | Run | Status | Cancel | Receipt | Shutdown

  datatype Role = Mesh | Sliced | SourcePng | Derived
  datatype FileKind = Stl | Obj | Cad | ThreeMf | Png
  datatype Artifact = Artifact(role: Role, kind: FileKind)

  datatype Body = Body(attempt: string, deadline: int, manifest: seq<Artifact>, cad: Option<string>)

  datatype Command = Command(sequence: nat, operation: Operation, body: Body) {
    /** The command as its run would be on the wire: what a proof names. */
    function AsRun(): Command { this.(operation := Run) }
  }

  datatype Outcome =
    | Success | Busy | Unavailable | Timeout | ResourceLimit | RenderFailed | Canceled | ProtocolError | CadUnavailable

  /** An error's outcome is never ok. */
  type Failing = o: Outcome | !o.Success? witness RenderFailed

  datatype Proof = TerminalReplay | CancelAck

  datatype Reply = Reply(outcome: Outcome, proof: Option<Proof>)

  /** One child of an attempt, by its place in the attempt's chain of renders. */
  datatype Child = Child(sequence: nat, place: nat)

  datatype Render = Convert | CadPng | Source | Plates | MeshPng

  /** sliced before step before mesh, from the roles alone. */
  function Chain(body: Body): (c: seq<Render>)
    ensures 1 <= |c| <= 2
  {
    if exists a :: a in body.manifest && a.role.Sliced? then [Source, Plates]
    else if exists a :: a in body.manifest && a.role.Mesh? && a.kind.Cad? then [Convert, CadPng]
    else [MeshPng]
  }

  datatype Phase =
    | Created
    | Working                  // transfers, copies, publishing: between two children
    | Spawning
    | Watching
    | Stopping(flow: Flow)     // render's finally
    | Closing                  // run's finally: each step settles, a cancel is absorbed
    | FinalStop
    | Cleanup
    | Ended(result: Option<Outcome>)

  /** How a watched child ended: with its result, refused as render_failed, or by another error. */
  datatype Flow = Completed | Refused | Broken(outcome: Failing)

  /** `held`: the service's `child` field is set. */
  datatype Attempt = Attempt(
    command: Command, phase: Phase, place: nat, held: bool, cancelled: bool, reply: Outcome)

  datatype Entry = Entry(time: int, command: Command, result: Outcome)

  datatype State = State(
    highwater: nat,
    terminals: seq<Entry>,
    active: Option<Attempt>,
    uncertain: bool,
    waiting: set<nat>,
    executed: seq<nat>,
    settled: seq<Entry>,   // every terminal ever remembered
    clock: int,            // the time of the latest pruning
    mayLive: set<Child>,
    stopped: set<Child>,
    unproven: set<Child>)  // children of a failed spawn whose cleanup proved nothing

  const INITIAL_STATE := State(0, [], None, false, {}, [], [], 0, {}, {}, {})

  datatype SpawnEnd = SpawnOk | SpawnFailed(outcome: Failing) | SpawnUnproven

  datatype TaskEvent =
    | Begin
    | StartsRender
    | Publishes
    | WorkFails(outcome: Failing)
    | WorkDone
    | Spawned(how: SpawnEnd)
    | WatchEnds(flow: Flow)
    | Stopped(gone: bool)
    | Closed
    | FinalStopped(gone: bool)
    | CleanedUp

  /** The clock while one command is handled: to its pruning, from there to its next reading, and from there to the
      pruning of what it remembered. */
  datatype Ticks = Ticks(elapsed: nat, later: nat, pruned: nat)

  datatype Event =
    | Arrives(command: Command, ticks: Ticks)
    | Disconnects
    | Advances(task: TaskEvent)
    | Settles(stored: nat, pruned: nat)
    | Drops
    | Joins(sequence: nat)

  datatype Answer = Answer(sequence: nat, reply: Reply)

  // ----- the cache of terminals -----

  function Find(terminals: seq<Entry>, s: nat): (r: Option<Entry>)
    ensures r.Some? ==> r.value in terminals && r.value.command.sequence == s
    ensures r.None? ==> forall e | e in terminals :: e.command.sequence != s
  {
    if terminals == [] then None
    else if terminals[0].command.sequence == s then Some(terminals[0])
    else Find(terminals[1..], s)
  }

  /** An ordered dictionary's assignment: in place for a key it has, else at the end. */
  function Put(terminals: seq<Entry>, e: Entry): seq<Entry> {
    if terminals == [] then [e]
    else if terminals[0].command.sequence == e.command.sequence then [e] + terminals[1..]
    else [terminals[0]] + Put(terminals[1..], e)
  }

  predicate Stale(e: Entry, now: int) { e.time < now - TTL }

  /** Popping stale heads, as every command does first. */
  function Expire(terminals: seq<Entry>, now: int): seq<Entry> {
    if terminals != [] && Stale(terminals[0], now) then Expire(terminals[1..], now) else terminals
  }

  /** Popping heads while there are too many or the oldest is stale, as `remember` does. */
  function Shrink(terminals: seq<Entry>, now: int): seq<Entry> {
    if terminals != [] && (|terminals| > TERMINAL_LIMIT || Stale(terminals[0], now)) then Shrink(terminals[1..], now)
    else terminals
  }

  function Remember(st: State, c: Command, result: Outcome, stored: nat, pruned: nat): State {
    var e := Entry(st.clock + stored, c, result);
    var now := st.clock + stored + pruned;
    st.(terminals := Shrink(Put(st.terminals, e), now), settled := st.settled + [e], clock := now)
  }

  // ----- the command handler -----

  function Acknowledged(st: State): Reply {
    Reply(Canceled, if st.uncertain then None else Some(CancelAck))
  }

  function Roles(body: Body): set<Role> { set a | a in body.manifest :: a.role }

  predicate Runnable(body: Body) {
    && Roles(body) != {}
    && Roles(body) <= {Mesh, Sliced, SourcePng}
    && Roles(body) * {Mesh, Sliced} != {}
    && (forall a | a in body.manifest ::
          match a.role
          case Mesh => a.kind.Stl? || a.kind.Obj? || a.kind.Cad?
          case Sliced => a.kind.ThreeMf?
          case _ => a.kind.Png?)
    && (Chain(body)[0].Convert? ==> Roles(body) == {Mesh} && body.cad.Some?)
  }

  function RequestCancel(a: Attempt): Attempt {
    match a.phase
    case Created => a.(phase := Ended(None))
    case Closing | FinalStop | Cleanup | Ended(_) => a
    case _ => a.(cancelled := true)
  }

  function OnCommand(st: State, c: Command, t: Ticks): (State, Option<Reply>) {
    var now := st.clock + t.elapsed;
    Dispatch(st.(terminals := Expire(st.terminals, now), clock := now), c, t)
  }

  /** The command against the cache just pruned; the clock shows now. */
  function Dispatch(st: State, c: Command, t: Ticks): (State, Option<Reply>) {
    if c.operation.Ready? || c.operation.Shutdown? then (st, Some(Reply(Success, None)))
    else
      var cached := Find(st.terminals, c.sequence);
      if cached.Some? then (st, Some(Replay(st, cached.value, c)))
      else if st.active.Some? && st.active.value.command.sequence == c.sequence then OnActive(st, st.active.value, c)
      else if c.sequence <= st.highwater then
        (st, Some(if c.operation.Cancel? then Acknowledged(st) else Reply(Canceled, None)))
      else OnNew(st, c, t)
  }

  function Replay(st: State, e: Entry, c: Command): Reply {
    if e.command.AsRun() != c.AsRun() then Reply(ProtocolError, None)
    else Reply(e.result, if c.operation.Cancel? && !st.uncertain then Some(TerminalReplay) else None)
  }

  function OnActive(st: State, a: Attempt, c: Command): (State, Option<Reply>) {
    if a.command.AsRun() != c.AsRun() then (st, Some(Reply(ProtocolError, None)))
    else if c.operation.Cancel? then
      (st.(active := Some(RequestCancel(a)), waiting := st.waiting + {c.sequence}), None)
    else (st, Some(Reply(Busy, None)))
  }

  /** A sequence above the high-water mark. */
  function OnNew(st: State, c: Command, t: Ticks): (State, Option<Reply>) {
    if c.operation.Status? then (st, Some(Reply(Unavailable, None)))
    else if c.operation.Cancel? then
      (Remember(st.(highwater := c.sequence), c, Canceled, t.later, t.pruned), Some(Acknowledged(st)))
    else if !c.operation.Run? then (st, Some(Reply(ProtocolError, None)))
    else if st.uncertain then (st, Some(Reply(Unavailable, None)))
    else if st.active.Some? then (st, Some(Reply(Busy, None)))
    else if c.body.deadline <= st.clock + t.later then (st, Some(Reply(Timeout, None)))
    else if !Runnable(c.body) then (st, Some(Reply(ProtocolError, None)))
    else
      (st.(highwater := c.sequence, active := Some(Attempt(c, Created, 0, false, false, Unavailable)),
           executed := st.executed + [c.sequence]), None)
  }

  /** The run handler resumes from its shield; a task that ended cancelled stores nothing. */
  function OnSettle(st: State, stored: nat, pruned: nat): (State, Option<Answer>) {
    if st.active.None? || !st.active.value.phase.Ended? then (st, None)
    else
      var a := st.active.value;
      match a.phase.result
      case None => (st.(active := None), None)
      case Some(o) =>
        var result := if st.uncertain then Unavailable else o;
        (Remember(st.(active := None), a.command, result, stored, pruned),
         Some(Answer(a.command.sequence, Reply(result, None))))
  }

  function OnDrop(st: State): State {
    if st.active.Some? && st.active.value.phase.Ended? then st.(active := None) else st
  }

  predicate TaskOver(st: State, s: nat) {
    st.active.Some? && st.active.value.command.sequence == s ==> st.active.value.phase.Ended?
  }

  /** A cancel handler resumes once the task it awaited is over, cancelled before its first step included. */
  function OnJoin(st: State, s: nat): (State, Option<Reply>) {
    if s in st.waiting && TaskOver(st, s) then
      (st.(waiting := st.waiting - {s}), Some(if st.uncertain then Reply(Unavailable, None) else Acknowledged(st)))
    else (st, None)
  }

  // ----- the run task -----

  function Move(st: State, a: Attempt, phase: Phase): State {
    st.(active := Some(a.(phase := phase)))
  }

  /** An exception leaves the body of run: CancelledError when a cancel was pending, else the error's outcome. */
  function Unwind(st: State, a: Attempt, o: Outcome): State {
    Move(st, a.(cancelled := false, reply := if a.cancelled then Canceled else o), Closing)
  }

  /** After run's stop of its child: the cleanup, unless the service became uncertain. */
  function Finish(st: State, a: Attempt): State {
    Move(st, a, if st.uncertain then Ended(Some(a.reply)) else Cleanup)
  }

  /** A render of the sliced source that was refused still leaves a usable checkpoint: the chain goes on. */
  predicate GoesOn(a: Attempt, flow: Flow) {
    flow.Completed? || (flow.Refused? && a.place < |Chain(a.command.body)| && Chain(a.command.body)[a.place].Source?)
  }

  function OnStopped(st: State, a: Attempt, flow: Flow, gone: bool): State {
    var c := Child(a.command.sequence, a.place);
    var st' := if gone then st.(mayLive := st.mayLive - {c}, stopped := st.stopped + {c}) else st;
    if a.cancelled || !gone then Unwind(st', a, Unavailable)
    else if GoesOn(a, flow) then Move(st', a.(held := false, place := a.place + 1), Working)
    else
      Unwind(st', a.(held := false),
             match flow case Broken(o) => o case _ => RenderFailed)
  }

  function OnTask(st: State, ev: TaskEvent): State {
    if st.active.None? then st
    else
      var a := st.active.value;
      var c := Child(a.command.sequence, a.place);
      match (a.phase, ev)
      case (Created, Begin) => Move(st, a, Working)
      case (Working, StartsRender) =>
        if a.cancelled then Unwind(st, a, Canceled)
        else if a.place < |Chain(a.command.body)| then Move(st, a, Spawning)
        else st
      case (Working, Publishes) => if a.cancelled then Unwind(st, a, Canceled) else st
      case (Working, WorkFails(o)) => Unwind(st, a, o)
      case (Working, WorkDone) =>
        if a.place == |Chain(a.command.body)| then Unwind(st, a, Success) else st
      case (Spawning, Spawned(SpawnOk)) =>
        var live := st.(mayLive := st.mayLive + {c});
        if a.cancelled then Move(live, a.(held := true, cancelled := false), Stopping(Broken(Canceled)))
        else Move(live, a.(held := true), Watching)
      case (Spawning, Spawned(SpawnFailed(o))) => Unwind(st, a, o)
      case (Spawning, Spawned(SpawnUnproven)) =>
        Unwind(st.(mayLive := st.mayLive + {c}, unproven := st.unproven + {c}), a, Unavailable)
      case (Watching, WatchEnds(flow)) =>
        Move(st, a.(cancelled := false), Stopping(if a.cancelled then Broken(Canceled) else flow))
      case (Stopping(flow), Stopped(gone)) => OnStopped(st, a, flow, gone)
      case (Closing, Closed) => if a.held then Move(st, a, FinalStop) else Finish(st, a)
      case (FinalStop, FinalStopped(gone)) =>
        if gone then
          Finish(st.(mayLive := st.mayLive - {c}, stopped := st.stopped + {c}), a.(held := false))
        else Finish(st.(uncertain := true), a)
      case (Cleanup, CleanedUp) => Move(st, a, Ended(Some(a.reply)))
      case (_, _) => st
  }

  function Step(st: State, ev: Event): (State, Option<Answer>) {
    match ev
    case Arrives(c, ticks) =>
      var (st', r) := OnCommand(st, c, ticks);
      (st', if r.Some? then Some(Answer(c.sequence, r.value)) else None)
    case Disconnects =>
      (if st.active.Some? then st.(active := Some(RequestCancel(st.active.value))) else st, None)
    case Advances(task) => (OnTask(st, task), None)
    case Settles(stored, pruned) => OnSettle(st, stored, pruned)
    case Drops => (OnDrop(st), None)
    case Joins(s) =>
      var (st', r) := OnJoin(st, s);
      (st', if r.Some? then Some(Answer(s, r.value)) else None)
  }

  function After(st: State, run: seq<Event>): State
    decreases |run|
  {
    if run == [] then st else After(Step(st, run[0]).0, run[1..])
  }

  // ----- what every run keeps -----

  /** What the phase says of the attempt's current child. */
  ghost predicate ChildInv(st: State, a: Attempt) {
    var c := Child(a.command.sequence, a.place);
    match a.phase
    case Created => !a.held && !a.cancelled && a.place == 0 && c !in st.mayLive
    case Working => !a.held && c !in st.mayLive
    case Spawning => !a.held && c !in st.mayLive && a.place < |Chain(a.command.body)|
    case Watching => a.held && c in st.mayLive && c !in st.unproven && a.place < |Chain(a.command.body)|
    case Stopping(_) => a.held && c in st.mayLive && c !in st.unproven && a.place < |Chain(a.command.body)|
    case Closing => !a.cancelled && (a.held ==> c !in st.unproven) && (!a.held && c in st.mayLive ==> c in st.unproven)
    case FinalStop => !a.cancelled && a.held && c !in st.unproven
    case Cleanup => !a.cancelled && !a.held && (c in st.mayLive ==> c in st.unproven)
    case Ended(_) => !st.uncertain && c in st.mayLive ==> c in st.unproven
  }

  ghost predicate ActiveInv(st: State, a: Attempt) {
    var s := a.command.sequence;
    && s <= st.highwater && a.command.operation.Run?
    && (forall e | e in st.settled :: e.command.sequence != s)
    && (!a.phase.Ended? ==> !st.uncertain)
    && a.place <= |Chain(a.command.body)|
    && (forall j | 0 <= j < a.place :: Child(s, j) in st.stopped)
    && (forall j | j >= a.place && (j > a.place || a.phase.Created? || a.phase.Working? || a.phase.Spawning?) ::
          Child(s, j) !in st.mayLive && Child(s, j) !in st.stopped)
    && ChildInv(st, a)
  }

  ghost predicate Inv(st: State) {
    && (forall e | e in st.settled :: e.command.sequence <= st.highwater && e.time <= st.clock)
    && (forall e | e in st.terminals :: e in st.settled)
    && (forall c | c in st.mayLive :: c.sequence <= st.highwater)
    && (forall c | c in st.stopped :: c.sequence <= st.highwater)
    && (forall s | s in st.waiting :: s <= st.highwater)
    && st.unproven <= st.mayLive && st.mayLive !! st.stopped
    && (st.active.Some? ==> ActiveInv(st, st.active.value))
    && (forall x, y | x in st.mayLive && y in st.mayLive && x !in st.unproven && y !in st.unproven :: x == y)
    && (!st.uncertain ==> forall c | c in st.mayLive && c !in st.unproven ::
          && st.active.Some?
          && c == Child(st.active.value.command.sequence, st.active.value.place)
          && !st.active.value.phase.Ended?)
  }

  lemma WorkKeepsInv(st: State, ev: TaskEvent)
    requires Inv(st) && st.active.Some? && (st.active.value.phase.Created? || st.active.value.phase.Working?)
    ensures Inv(OnTask(st, ev))
  {
  }

  lemma SpawnKeepsInv(st: State, ev: TaskEvent)
    requires Inv(st) && st.active.Some? && st.active.value.phase.Spawning?
    ensures Inv(OnTask(st, ev))
  {
    hide Chain;
    if ev.Spawned? {
      match ev.how
      case SpawnOk =>
      case SpawnFailed(_) =>
      case SpawnUnproven =>
    }
  }

  lemma WatchKeepsInv(st: State, ev: TaskEvent)
    requires Inv(st) && st.active.Some? && st.active.value.phase.Watching?
    ensures Inv(OnTask(st, ev))
  {
  }

  lemma StopKeepsInv(st: State, ev: TaskEvent)
    requires Inv(st) && st.active.Some? && st.active.value.phase.Stopping?
    ensures Inv(OnTask(st, ev))
  {
    hide Chain;
  }

  lemma FinallyKeepsInv(st: State, ev: TaskEvent)
    requires Inv(st) && st.active.Some?
    requires var p := st.active.value.phase; p.Closing? || p.FinalStop? || p.Cleanup? || p.Ended?
    ensures Inv(OnTask(st, ev))
  {
  }

  lemma TaskKeepsInv(st: State, ev: TaskEvent)
    requires Inv(st)
    ensures Inv(OnTask(st, ev))
  {
    if st.active.Some? {
      match st.active.value.phase
      case Created | Working => WorkKeepsInv(st, ev);
      case Spawning => SpawnKeepsInv(st, ev);
      case Watching => WatchKeepsInv(st, ev);
      case Stopping(_) => StopKeepsInv(st, ev);
      case _ => FinallyKeepsInv(st, ev);
    }
  }

  lemma {:induction false} PutHolds(terminals: seq<Entry>, e: Entry)
    ensures forall x | x in Put(terminals, e) :: x in terminals || x == e
  {
    if terminals != [] { PutHolds(terminals[1..], e); }
  }

  lemma {:induction false} ExpireHolds(terminals: seq<Entry>, now: int)
    ensures forall x | x in Expire(terminals, now) :: x in terminals
    ensures (forall x | x in terminals :: Stale(x, now)) ==> Expire(terminals, now) == []
  {
    if terminals != [] { ExpireHolds(terminals[1..], now); }
  }

  lemma {:induction false} ShrinkHolds(terminals: seq<Entry>, now: int)
    ensures forall x | x in Shrink(terminals, now) :: x in terminals
  {
    if terminals != [] { ShrinkHolds(terminals[1..], now); }
  }

  lemma CancelKeepsInv(st: State)
    requires Inv(st) && st.active.Some?
    ensures Inv(st.(active := Some(RequestCancel(st.active.value))))
  {
  }

  lemma RememberKeepsInv(st: State, c: Command, result: Outcome, stored: nat, pruned: nat)
    requires Inv(st) && c.sequence <= st.highwater
    requires st.active.Some? ==> st.active.value.command.sequence != c.sequence
    ensures Inv(Remember(st, c, result, stored, pruned))
  {
    var e := Entry(st.clock + stored, c, result);
    PutHolds(st.terminals, e);
    ShrinkHolds(Put(st.terminals, e), st.clock + stored + pruned);
  }

  lemma NewKeepsInv(st: State, c: Command, t: Ticks)
    requires Inv(st) && c.sequence > st.highwater
    ensures Inv(OnNew(st, c, t).0)
  {
    if c.operation.Cancel? {
      RememberKeepsInv(st.(highwater := c.sequence), c, Canceled, t.later, t.pruned);
    }
  }

  lemma PruneKeepsInv(st: State, now: int)
    requires Inv(st) && st.clock <= now
    ensures Inv(st.(terminals := Expire(st.terminals, now), clock := now))
  {
    ExpireHolds(st.terminals, now);
  }

  lemma WaitKeepsInv(st: State, s: nat)
    requires Inv(st) && s <= st.highwater
    ensures Inv(st.(waiting := st.waiting + {s}))
  {
  }

  lemma CommandKeepsInv(st: State, c: Command, t: Ticks)
    requires Inv(st)
    ensures Inv(OnCommand(st, c, t).0)
  {
    hide Expire, Shrink, Put, Runnable, Chain;
    var now := st.clock + t.elapsed;
    var pruned := st.(terminals := Expire(st.terminals, now), clock := now);
    PruneKeepsInv(st, now);
    if c.operation.Ready? || c.operation.Shutdown? || Find(pruned.terminals, c.sequence).Some? {
    } else if pruned.active.Some? && pruned.active.value.command.sequence == c.sequence {
      CancelKeepsInv(pruned);
      WaitKeepsInv(pruned.(active := Some(RequestCancel(pruned.active.value))), c.sequence);
    } else if c.sequence > st.highwater {
      NewKeepsInv(pruned, c, t);
    }
  }

  lemma StepKeepsInv(st: State, ev: Event)
    requires Inv(st)
    ensures Inv(Step(st, ev).0)
  {
    match ev
    case Arrives(c, ticks) => CommandKeepsInv(st, c, ticks);
    case Advances(task) => TaskKeepsInv(st, task);
    case Disconnects => if st.active.Some? { CancelKeepsInv(st); }
    case Settles(stored, pruned) =>
      if st.active.Some? && st.active.value.phase.Ended? && st.active.value.phase.result.Some? {
        var a := st.active.value;
        RememberKeepsInv(st.(active := None), a.command, if st.uncertain then Unavailable else a.phase.result.value,
                         stored, pruned);
      }
    case _ =>
  }

  lemma {:induction false} RunKeepsInv(st: State, run: seq<Event>)
    requires Inv(st)
    ensures Inv(After(st, run))
    decreases |run|
  {
    if run != [] {
      StepKeepsInv(st, run[0]);
      RunKeepsInv(Step(st, run[0]).0, run[1..]);
    }
  }

  // ----- the proof envelopes, and the one branch that breaks them -----

  /** A reply that carries a proof for attempt s: no child of s may live, and s is over for good. */
  ghost predicate Over(st: State, s: nat) {
    s <= st.highwater && TaskOver(st, s) && forall c | c in st.mayLive :: c.sequence != s
  }

  ghost predicate Sound(st: State, ev: Event) {
    var (st', answer) := Step(st, ev);
    answer.Some? && answer.value.reply.proof.Some? ==> Over(st', answer.value.sequence)
  }

  /** A spawn failed and its own cleanup could not prove the started process gone. */
  predicate LeavesUnproven(st: State, ev: Event) {
    ev == Advances(Spawned(SpawnUnproven)) && st.active.Some? && st.active.value.phase.Spawning?
  }

  predicate AllProven(st: State, run: seq<Event>)
    decreases |run|
  {
    run == [] || (!LeavesUnproven(st, run[0]) && AllProven(Step(st, run[0]).0, run[1..]))
  }

  ghost predicate Guaranteed(st: State) {
    forall more: seq<Event>, ev: Event | AllProven(st, more) :: Sound(After(st, more), ev)
  }

  lemma StepUnproven(st: State, ev: Event)
    requires Inv(st)
    ensures st.unproven <= Step(st, ev).0.unproven
    ensures Step(st, ev).0.unproven == st.unproven <==> !LeavesUnproven(st, ev)
    ensures st.uncertain ==> Step(st, ev).0.uncertain
  {
  }

  lemma {:induction false} RunUnproven(st: State, run: seq<Event>)
    requires Inv(st)
    ensures st.unproven <= After(st, run).unproven
    ensures After(st, run).unproven == st.unproven <==> AllProven(st, run)
    ensures st.uncertain ==> After(st, run).uncertain
    decreases |run|
  {
    if run != [] {
      StepUnproven(st, run[0]);
      StepKeepsInv(st, run[0]);
      RunUnproven(Step(st, run[0]).0, run[1..]);
    }
  }

  lemma SoundCommand(st: State, c: Command, t: Ticks)
    requires Inv(st) && (st.uncertain || st.unproven == {})
    ensures Sound(st, Arrives(c, t))
  {
    hide Shrink, Put, Runnable, Chain;
    ExpireHolds(st.terminals, st.clock + t.elapsed);
    CommandKeepsInv(st, c, t);
  }

  lemma SoundWhileAllProven(st: State, ev: Event)
    requires Inv(st) && (st.uncertain || st.unproven == {})
    ensures Sound(st, ev)
  {
    hide Shrink, Put, Expire, Runnable, Chain, OnTask, OnCommand;
    match ev
    case Arrives(c, ticks) => SoundCommand(st, c, ticks);
    case _ =>
  }

  /** The events that finish an attempt whose child is not held, and store its terminal. */
  const WIND_UP: seq<Event> := [Advances(Closed), Advances(CleanedUp), Settles(0, 0)]

  ghost predicate Winding(st: State, c: Child, done: nat) {
    && Inv(st) && !st.uncertain && c in st.unproven
    && (st.active.Some? && st.active.value.command.sequence == c.sequence ==>
          match st.active.value.phase
          case Closing => done == 0 && !st.active.value.held
          case Cleanup => done <= 1
          case Ended(_) => done <= 2
          case _ => false)
  }

  lemma UnprovenIsWinding(st: State, c: Child)
    requires Inv(st) && !st.uncertain && c in st.unproven
    ensures Winding(st, c, 0)
  {
    if st.active.Some? && st.active.value.command.sequence == c.sequence {
      assert c == Child(c.sequence, c.place);
      assert c.place == st.active.value.place;
    }
  }

  lemma WindStep(st: State, c: Child, i: nat)
    requires i < 3 && Winding(st, c, i)
    ensures !LeavesUnproven(st, WIND_UP[i])
    ensures Winding(Step(st, WIND_UP[i]).0, c, i + 1)
  {
    StepKeepsInv(st, WIND_UP[i]);
    StepUnproven(st, WIND_UP[i]);
  }

  lemma WindUp(st: State, c: Child)
    requires Inv(st) && !st.uncertain && c in st.unproven
    ensures AllProven(st, WIND_UP)
    ensures var st3 := After(st, WIND_UP);
            Inv(st3) && !st3.uncertain && c in st3.unproven &&
            (st3.active.Some? ==> st3.active.value.command.sequence != c.sequence)
  {
    UnprovenIsWinding(st, c);
    WindStep(st, c, 0);
    var st1 := Step(st, WIND_UP[0]).0;
    WindStep(st1, c, 1);
    var st2 := Step(st1, WIND_UP[1]).0;
    WindStep(st2, c, 2);
    var st3 := Step(st2, WIND_UP[2]).0;
    assert WIND_UP[1..][1..] == [WIND_UP[2]];
    assert After(st, WIND_UP) == After(st1, WIND_UP[1..]) == After(st2, [WIND_UP[2]]) == After(st3, []);
    assert AllProven(st3, []) && AllProven(st2, [WIND_UP[2]]) && AllProven(st1, WIND_UP[1..]);
  }

  /** After an unproven spawn, once the terminal has expired, a cancel of that attempt is acknowledged with a proof
      ("canceled", the kind the main process accepts) while the child may live. */
  lemma UnprovenChildIsAcknowledged(st: State, c: Child)
    requires Inv(st) && !st.uncertain && c in st.unproven
    ensures AllProven(st, WIND_UP)
    ensures var st3, cancel := After(st, WIND_UP), Command(c.sequence, Cancel, Body("", 0, [], None));
            var (st4, answer) := Step(st3, Arrives(cancel, Ticks(TTL + 1, 0, 0)));
            answer == Some(Answer(c.sequence, Reply(Canceled, Some(CancelAck)))) && c in st4.mayLive &&
            !Sound(st3, Arrives(cancel, Ticks(TTL + 1, 0, 0)))
  {
    hide Step, After, AllProven, Sound;
    WindUp(st, c);
    CancelAfterExpiry(After(st, WIND_UP), c);
  }

  lemma CancelAfterExpiry(st: State, c: Child)
    requires Inv(st) && !st.uncertain && c in st.unproven
    requires st.active.Some? ==> st.active.value.command.sequence != c.sequence
    ensures var cancel := Arrives(Command(c.sequence, Cancel, Body("", 0, [], None)), Ticks(TTL + 1, 0, 0));
            var (st1, answer) := Step(st, cancel);
            && answer == Some(Answer(c.sequence, Reply(Canceled, Some(CancelAck)))) && c in st1.mayLive
            && !Sound(st, cancel)
  {
    hide Shrink, Put, Runnable;
    ExpireHolds(st.terminals, st.clock + TTL + 1);
    assert Expire(st.terminals, st.clock + TTL + 1) == [];
    assert c.sequence <= st.highwater;
  }

  /** Exactly when every proof from here on is sound: the service is uncertain already, or every failed spawn so far
      left nothing running. */
  lemma ProofsStandExactly(run: seq<Event>)
    ensures Guaranteed(After(INITIAL_STATE, run)) <==>
              After(INITIAL_STATE, run).uncertain || AllProven(INITIAL_STATE, run)
  {
    var st := After(INITIAL_STATE, run);
    RunKeepsInv(INITIAL_STATE, run);
    RunUnproven(INITIAL_STATE, run);
    if st.uncertain || st.unproven == {} {
      forall more: seq<Event>, ev: Event | AllProven(st, more) ensures Sound(After(st, more), ev) {
        RunKeepsInv(st, more);
        RunUnproven(st, more);
        SoundWhileAllProven(After(st, more), ev);
      }
    } else {
      var c :| c in st.unproven;
      UnprovenChildIsAcknowledged(st, c);
    }
  }

  lemma TaskKeepsOver(st: State, s: nat, task: TaskEvent)
    requires Over(st, s)
    ensures Over(OnTask(st, task), s) && OnTask(st, task).executed == st.executed
  {
    hide Chain, GoesOn;
  }

  lemma OverStepsToOver(st: State, s: nat, ev: Event)
    requires Over(st, s)
    ensures var st1 := Step(st, ev).0;
            && Over(st1, s)
            && (st1.executed == st.executed || exists x :: x > s && st1.executed == st.executed + [x])
  {
    hide Expire, Shrink, Put, Find, Runnable;
    match ev
    case Advances(task) => TaskKeepsOver(st, s, task);
    case _ =>
  }

  lemma {:induction false} OverForGood(st: State, s: nat, run: seq<Event>)
    requires Over(st, s)
    ensures Over(After(st, run), s)
    ensures st.executed <= After(st, run).executed
    ensures s !in After(st, run).executed[|st.executed|..]
    decreases |run|
  {
    if run != [] {
      var st1 := Step(st, run[0]).0;
      OverStepsToOver(st, s, run[0]);
      OverForGood(st1, s, run[1..]);
      var later := After(st, run).executed;
      assert later[|st.executed|..] == st1.executed[|st.executed|..] + later[|st1.executed|..];
    }
  }

  /** A reply with a proof for attempt s: no child of s runs when it is sent, and none ever runs or starts in whatever
      follows. */
  lemma ProvenMeansOver(before: seq<Event>, ev: Event, after: seq<Event>)
    requires var st := After(INITIAL_STATE, before);
             var (_, answer) := Step(st, ev);
             && answer.Some? && answer.value.reply.proof.Some?
             && AllProven(INITIAL_STATE, before)
    ensures var (st1, answer) := Step(After(INITIAL_STATE, before), ev);
            var st2 := After(st1, after);
            && (forall c | c in st1.mayLive + st2.mayLive :: c.sequence != answer.value.sequence)
            && st1.executed <= st2.executed
            && answer.value.sequence !in st2.executed[|st1.executed|..]
  {
    var st := After(INITIAL_STATE, before);
    RunKeepsInv(INITIAL_STATE, before);
    RunUnproven(INITIAL_STATE, before);
    SoundWhileAllProven(st, ev);
    var (st1, answer) := Step(st, ev);
    OverForGood(st1, answer.value.sequence, after);
  }

  // ----- one child after another -----

  ghost predicate OneChildEach(st: State) {
    forall x, y | x in st.mayLive && y in st.mayLive && x.sequence == y.sequence :: x == y
  }

  lemma TaskKeepsOneChild(st: State, task: TaskEvent)
    requires Inv(st) && OneChildEach(st)
    ensures OneChildEach(OnTask(st, task))
  {
    hide Chain, GoesOn;
    if st.active.Some? && st.active.value.phase.Spawning? && task.Spawned? && !task.how.SpawnFailed? {
      NoneYet(st);
    }
  }

  /** While an attempt works between children or spawns one, none of its own may live. */
  lemma NoneYet(st: State)
    requires Inv(st) && st.active.Some? && (st.active.value.phase.Spawning? || st.active.value.phase.Working?)
    ensures forall c | c in st.mayLive :: c.sequence != st.active.value.command.sequence
  {
    var s := st.active.value.command.sequence;
    assert forall c: Child :: c == Child(c.sequence, c.place);
    assert forall place :: Child(s, place) !in st.mayLive;
  }

  lemma {:induction false} RunKeepsOneChild(st: State, run: seq<Event>)
    requires Inv(st) && OneChildEach(st)
    ensures OneChildEach(After(st, run))
    decreases |run|
  {
    hide OnTask, OnCommand, OnSettle;
    if run != [] {
      StepKeepsInv(st, run[0]);
      if run[0].Advances? { TaskKeepsOneChild(st, run[0].task); } else { OnlyTasksTouchChildren(st, run[0]); }
      RunKeepsOneChild(Step(st, run[0]).0, run[1..]);
    }
  }

  lemma OnlyTasksTouchChildren(st: State, ev: Event)
    requires !ev.Advances?
    ensures Step(st, ev).0.mayLive == st.mayLive
  {
    hide Expire, Shrink, Put, Find, Runnable;
  }

  /** At most one child of each attempt may live, whatever spawns failed; one is spawned, and outputs are published,
      only while none of the attempt's own may live and every earlier one was stopped, so the picture of a STEP file is
      never drawn beside its converter. Of all attempts together at most one child may live that was not left by a spawn
      whose end stayed unproven. */
  lemma ChildrenOneAfterAnother(run: seq<Event>)
    ensures var st := After(INITIAL_STATE, run);
            && OneChildEach(st)
            && (forall x, y | x in st.mayLive && y in st.mayLive && x !in st.unproven && y !in st.unproven :: x == y)
            && (st.active.Some? ==>
                  var a := st.active.value;
                  && (a.phase.Spawning? || a.phase.Working? ==>
                        !st.uncertain && forall c | c in st.mayLive :: c.sequence != a.command.sequence)
                  && (forall j | 0 <= j < a.place :: Child(a.command.sequence, j) in st.stopped - st.mayLive))
  {
    RunKeepsInv(INITIAL_STATE, run);
    RunKeepsOneChild(INITIAL_STATE, run);
    var st := After(INITIAL_STATE, run);
    if st.active.Some? && (st.active.value.phase.Spawning? || st.active.value.phase.Working?) { NoneYet(st); }
  }

  // ----- the cleanup of a staging, and the one branch that runs it over a live child -----

  ghost predicate OwnChildLives(st: State, s: nat) { exists c :: c in st.mayLive && c.sequence == s }

  /** The staging is being removed while a child that writes to it may live. */
  ghost predicate CleansOverLive(st: State) {
    st.active.Some? && st.active.value.phase.Cleanup? && OwnChildLives(st, st.active.value.command.sequence)
  }

  lemma CleanupInv(st: State)
    requires Inv(st) && st.active.Some? && st.active.value.phase.Cleanup?
    ensures var a := st.active.value;
            CleansOverLive(st) <==> Child(a.command.sequence, a.place) in st.unproven
  {
    var a := st.active.value;
    if Child(a.command.sequence, a.place) in st.unproven {
      assert Child(a.command.sequence, a.place) in st.mayLive;
    }
    if CleansOverLive(st) {
      var c :| c in st.mayLive && c.sequence == a.command.sequence;
      assert c == Child(a.command.sequence, c.place);
    }
  }

  /** In every run the cleanup is entered only by a service that is not uncertain, and it runs over a child that may
      live if and only if the spawn of that attempt's last child ended unproven. */
  lemma CleansOverLiveExactly(run: seq<Event>)
    requires var st := After(INITIAL_STATE, run); st.active.Some? && st.active.value.phase.Cleanup?
    ensures var st := After(INITIAL_STATE, run);
            var a := st.active.value;
            && !st.uncertain
            && (CleansOverLive(st) <==> Child(a.command.sequence, a.place) in st.unproven)
  {
    RunKeepsInv(INITIAL_STATE, run);
    CleanupInv(After(INITIAL_STATE, run));
  }

  /** What every unproven spawn leads to, one event later: its staging cleaned over its child. */
  lemma UnprovenSpawnIsCleanedOver(st: State, ev: Event)
    requires Inv(st) && LeavesUnproven(st, ev)
    ensures var st1 := Step(st, ev).0;
            AllProven(st1, [Advances(Closed)]) && CleansOverLive(After(st1, [Advances(Closed)]))
            && !After(st1, [Advances(Closed)]).uncertain
  {
    var st1 := Step(st, ev).0;
    var st2 := Step(st1, Advances(Closed)).0;
    StepKeepsInv(st, ev);
    StepKeepsInv(st1, Advances(Closed));
    assert AllProven(st2, []) && After(st2, []) == st2;
    assert After(st1, [Advances(Closed)]) == st2;
    CleanupInv(st2);
  }

  lemma {:induction false} FirstUnproven(st: State, run: seq<Event>) returns (n: nat)
    requires !AllProven(st, run)
    ensures n < |run| && LeavesUnproven(After(st, run[..n]), run[n])
    decreases |run|
  {
    if LeavesUnproven(st, run[0]) {
      n := 0;
      assert run[..0] == [] && After(st, []) == st;
    } else {
      var m := FirstUnproven(Step(st, run[0]).0, run[1..]);
      n := m + 1;
      assert run[..n][1..] == run[1..][..m];
    }
  }

  lemma {:induction false} OneMoreEvent(st: State, run: seq<Event>, n: nat)
    requires n < |run|
    ensures After(st, run[..n + 1]) == Step(After(st, run[..n]), run[n]).0
    decreases n
  {
    hide Step;
    if n == 0 {
      assert run[..1] == [run[0]] && run[..1][1..] == [] && run[..0] == [];
    } else {
      assert run[..n + 1][1..] == run[1..][..n] && run[..n][1..] == run[1..][..n - 1];
      OneMoreEvent(Step(st, run[0]).0, run[1..], n - 1);
    }
  }

  lemma {:induction false} PrefixAllProven(st: State, run: seq<Event>, n: nat)
    requires AllProven(st, run) && n <= |run|
    ensures AllProven(st, run[..n])
    decreases n
  {
    hide Step;
    if n > 0 {
      PrefixAllProven(Step(st, run[0]).0, run[1..], n - 1);
      assert run[..n][1..] == run[1..][..n - 1];
    }
  }

  /** From some point of the run, a continuation without a further unproven spawn cleans over a live child. */
  ghost predicate MayCleanOverLive(run: seq<Event>) {
    exists n, more: seq<Event> | 0 <= n <= |run| && AllProven(After(INITIAL_STATE, run[..n]), more) ::
      CleansOverLive(After(After(INITIAL_STATE, run[..n]), more))
  }

  /** Exactly when no staging of a run can be cleaned over a live child: every failed spawn in it left nothing
      running. */
  lemma CleanupStandsExactly(run: seq<Event>)
    ensures !MayCleanOverLive(run) <==> AllProven(INITIAL_STATE, run)
  {
    if AllProven(INITIAL_STATE, run) {
      forall n, more: seq<Event> | 0 <= n <= |run| && AllProven(After(INITIAL_STATE, run[..n]), more)
        ensures !CleansOverLive(After(After(INITIAL_STATE, run[..n]), more))
      {
        NothingUnproven(run, n, more);
      }
    } else {
      var n := FirstUnproven(INITIAL_STATE, run);
      RunKeepsInv(INITIAL_STATE, run[..n]);
      UnprovenSpawnIsCleanedOver(After(INITIAL_STATE, run[..n]), run[n]);
      OneMoreEvent(INITIAL_STATE, run, n);
      assert CleansOverLive(After(After(INITIAL_STATE, run[..n + 1]), [Advances(Closed)]));
    }
  }

  lemma NothingUnproven(run: seq<Event>, n: nat, more: seq<Event>)
    requires AllProven(INITIAL_STATE, run) && n <= |run| && AllProven(After(INITIAL_STATE, run[..n]), more)
    ensures !CleansOverLive(After(After(INITIAL_STATE, run[..n]), more))
  {
    var st := After(INITIAL_STATE, run[..n]);
    PrefixAllProven(INITIAL_STATE, run, n);
    RunKeepsInv(INITIAL_STATE, run[..n]);
    RunUnproven(INITIAL_STATE, run[..n]);
    RunKeepsInv(st, more);
    RunUnproven(st, more);
    var end := After(st, more);
    if end.active.Some? && end.active.value.phase.Cleanup? { CleanupInv(end); }
  }

  // ----- the run that shows both -----

  const MESH_RUN := Command(1, Run, Body("a", 1, [Artifact(Mesh, Stl)], None))

  const UNPROVEN_RUN: seq<Event> := [
    Arrives(MESH_RUN, Ticks(0, 0, 0)), Advances(Begin), Advances(StartsRender), Advances(Spawned(SpawnUnproven))]

  lemma MeshIsRunnable()
    ensures Runnable(MESH_RUN.body)
  {
    assert MESH_RUN.body.manifest[0] in MESH_RUN.body.manifest;
    assert Roles(MESH_RUN.body) == {Mesh};
  }

  lemma FirstRenderSpawns()
    ensures var st := After(INITIAL_STATE, UNPROVEN_RUN[..3]);
            && st.active == Some(Attempt(MESH_RUN, Spawning, 0, false, false, Unavailable)) && !st.uncertain
  {
    hide Runnable, Find;
    MeshIsRunnable();
    var r := UNPROVEN_RUN[..3];
    var st1 := Step(INITIAL_STATE, r[0]).0;
    assert st1.active == Some(Attempt(MESH_RUN, Created, 0, false, false, Unavailable));
    var st2 := Step(st1, r[1]).0;
    var st3 := Step(st2, r[2]).0;
    assert r[1..][1..] == r[2..] && r[2..][1..] == [];
    assert After(INITIAL_STATE, r) == After(st1, r[1..]) == After(st2, r[2..]) == After(st3, []);
  }

  /** The first attempt of a new service: its child's spawn fails and the end stays unproven. */
  lemma UnprovenRunEnds()
    ensures var st := After(INITIAL_STATE, UNPROVEN_RUN);
            && Child(1, 0) in st.unproven && Child(1, 0) in st.mayLive && !st.uncertain
            && st.active.Some? && st.active.value.phase.Closing? && !st.active.value.held
            && st.active.value.command.sequence == 1 && st.active.value.place == 0
  {
    hide After, Runnable, Find, Chain, GoesOn;
    FirstRenderSpawns();
    OneMoreEvent(INITIAL_STATE, UNPROVEN_RUN, 3);
    assert UNPROVEN_RUN[..4] == UNPROVEN_RUN;
  }

  /** From the initial state: that staging is cleaned over its child by a service that is not uncertain, and once the
      terminal has expired a cancel of the attempt is acknowledged with a proof while the child may live. */
  lemma UnprovenRunBreaksBoth()
    ensures var st := After(INITIAL_STATE, UNPROVEN_RUN);
            var cleaning := After(st, [Advances(Closed)]);
            var cancel := Arrives(Command(1, Cancel, Body("", 0, [], None)), Ticks(TTL + 1, 0, 0));
            var (last, answer) := Step(After(st, WIND_UP), cancel);
            && CleansOverLive(cleaning) && !cleaning.uncertain
            && answer == Some(Answer(1, Reply(Canceled, Some(CancelAck)))) && Child(1, 0) in last.mayLive
  {
    hide Step;
    RunKeepsInv(INITIAL_STATE, UNPROVEN_RUN);
    UnprovenRunEnds();
    ClosingCleans(After(INITIAL_STATE, UNPROVEN_RUN));
    UnprovenChildIsAcknowledged(After(INITIAL_STATE, UNPROVEN_RUN), Child(1, 0));
  }

  lemma ClosingCleans(st: State)
    requires Inv(st) && st.active.Some? && st.active.value.phase.Closing? && !st.active.value.held && !st.uncertain
    requires Child(st.active.value.command.sequence, st.active.value.place) in st.unproven
    ensures CleansOverLive(After(st, [Advances(Closed)])) && !After(st, [Advances(Closed)]).uncertain
  {
    var st1 := Step(st, Advances(Closed)).0;
    assert After(st, [Advances(Closed)]) == After(st1, []) == st1;
    StepKeepsInv(st, Advances(Closed));
    CleanupInv(st1);
  }

  // ----- the cache of terminals -----

  ghost predicate Sorted(log: seq<Entry>) {
    forall i, j | 0 <= i < j < |log| :: log[i].time <= log[j].time
  }

  ghost predicate Distinct(log: seq<Entry>) {
    forall i, j | 0 <= i < j < |log| :: log[i].command.sequence != log[j].command.sequence
  }

  lemma {:induction false} PutAppends(terminals: seq<Entry>, e: Entry)
    requires forall x | x in terminals :: x.command.sequence != e.command.sequence
    ensures Put(terminals, e) == terminals + [e]
  {
    if terminals != [] { PutAppends(terminals[1..], e); }
  }

  /** What was pruned before adds nothing to what is pruned now. */
  lemma {:induction false} ShrinkTwice(log: seq<Entry>, t1: int, more: seq<Entry>, t2: int)
    requires t1 <= t2
    ensures Shrink(Shrink(log, t1) + more, t2) == Shrink(log + more, t2)
    decreases |log|
  {
    if log != [] && (|log| > TERMINAL_LIMIT || Stale(log[0], t1)) {
      ShrinkTwice(log[1..], t1, more, t2);
      assert (log + more)[1..] == log[1..] + more;
    }
  }

  lemma {:induction false} ExpireIsShrink(terminals: seq<Entry>, now: int)
    requires |terminals| <= TERMINAL_LIMIT
    ensures Expire(terminals, now) == Shrink(terminals, now)
  {
    if terminals != [] { ExpireIsShrink(terminals[1..], now); }
  }

  lemma {:induction false} ShrinkBound(log: seq<Entry>, now: int)
    ensures |Shrink(log, now)| <= TERMINAL_LIMIT && |Shrink(log, now)| <= |log|
    ensures Shrink(log, now) == log[|log| - |Shrink(log, now)|..]
  {
    if log != [] && (|log| > TERMINAL_LIMIT || Stale(log[0], now)) {
      ShrinkBound(log[1..], now);
    }
  }

  /** Shrink answers the longest suffix of a time-ordered log that is within the TTL and within the limit. */
  lemma {:induction false} ShrinkIsLongestFresh(log: seq<Entry>, now: int)
    requires Sorted(log)
    ensures var kept := Shrink(log, now);
            && |kept| <= |log| && |kept| <= TERMINAL_LIMIT
            && kept == log[|log| - |kept|..]
            && (forall e | e in kept :: !Stale(e, now))
            && (forall i | 0 <= i < |log| - |kept| && |log| - i <= TERMINAL_LIMIT :: Stale(log[i], now))
  {
    ShrinkBound(log, now);
    if log != [] && (|log| > TERMINAL_LIMIT || Stale(log[0], now)) {
      ShrinkIsLongestFresh(log[1..], now);
    }
  }

  ghost predicate CacheInv(st: State) {
    st.terminals == Shrink(st.settled, st.clock) && Sorted(st.settled) && Distinct(st.settled)
  }

  lemma ExpireKeepsCache(st: State, now: int)
    requires CacheInv(st) && st.clock <= now
    ensures CacheInv(st.(terminals := Expire(st.terminals, now), clock := now))
  {
    ShrinkBound(st.settled, st.clock);
    ExpireIsShrink(st.terminals, now);
    ShrinkTwice(st.settled, st.clock, [], now);
    assert st.settled + [] == st.settled && st.terminals + [] == st.terminals;
  }

  lemma RememberKeepsCache(st: State, c: Command, result: Outcome, stored: nat, pruned: nat)
    requires Inv(st) && CacheInv(st) && forall e | e in st.settled :: e.command.sequence != c.sequence
    ensures CacheInv(Remember(st, c, result, stored, pruned))
  {
    hide Expire, Shrink, Put;
    var e := Entry(st.clock + stored, c, result);
    PutAppends(st.terminals, e);
    ShrinkTwice(st.settled, st.clock, [e], st.clock + stored + pruned);
    assert forall i | 0 <= i < |st.settled| :: st.settled[i] in st.settled;
  }

  lemma TaskKeepsCache(st: State, task: TaskEvent)
    ensures var st1 := OnTask(st, task);
            st1.terminals == st.terminals && st1.settled == st.settled && st1.clock == st.clock
  {
  }

  lemma StepKeepsCache(st: State, ev: Event)
    requires Inv(st) && CacheInv(st)
    ensures CacheInv(Step(st, ev).0)
  {
    hide Expire, Shrink, Put, Runnable, Chain;
    match ev
    case Arrives(c, ticks) =>
      var now := st.clock + ticks.elapsed;
      var pruned := st.(terminals := Expire(st.terminals, now), clock := now);
      ExpireKeepsCache(st, now);
      ExpireHolds(st.terminals, now);
      if c.operation.Cancel? && c.sequence > st.highwater {
        RememberKeepsCache(pruned.(highwater := c.sequence), c, Canceled, ticks.later, ticks.pruned);
      }
    case Settles(stored, pruned) =>
      if st.active.Some? && st.active.value.phase.Ended? && st.active.value.phase.result.Some? {
        var a := st.active.value;
        RememberKeepsCache(st.(active := None), a.command, if st.uncertain then Unavailable else a.phase.result.value,
                           stored, pruned);
      }
    case Advances(task) => TaskKeepsCache(st, task);
    case _ =>
  }

  lemma {:induction false} RunKeepsCache(st: State, run: seq<Event>)
    requires Inv(st) && CacheInv(st)
    ensures CacheInv(After(st, run))
    decreases |run|
  {
    if run != [] {
      StepKeepsInv(st, run[0]);
      StepKeepsCache(st, run[0]);
      RunKeepsCache(Step(st, run[0]).0, run[1..]);
    }
  }

  /** In every run no sequence is remembered twice, and the cache is the longest suffix of everything ever remembered
      that is within the TTL at the latest pruning and no longer than the limit. */
  lemma CacheIsLongestFreshSuffix(run: seq<Event>)
    ensures var st := After(INITIAL_STATE, run);
            var kept, log := st.terminals, st.settled;
            && Distinct(log)
            && |kept| <= |log| && |kept| <= TERMINAL_LIMIT
            && kept == log[|log| - |kept|..]
            && (forall e | e in kept :: !Stale(e, st.clock))
            && (forall i | 0 <= i < |log| - |kept| && |log| - i <= TERMINAL_LIMIT :: Stale(log[i], st.clock))
  {
    RunKeepsCache(INITIAL_STATE, run);
    ShrinkIsLongestFresh(After(INITIAL_STATE, run).settled, After(INITIAL_STATE, run).clock);
  }

  // ----- refinement of the shared ledger -----

  function Abstract(st: State): Ledger {
    Ledger(st.highwater, if st.active.Some? then Some(st.active.value.command.sequence) else None, st.executed)
  }

  lemma TaskLeavesLedger(st: State, task: TaskEvent)
    ensures Abstract(OnTask(st, task)) == Abstract(st)
  {
    hide Chain, GoesOn;
  }

  lemma StepRefinesLedger(st: State, ev: Event)
    ensures Next(Abstract(st), Abstract(Step(st, ev).0))
  {
    hide Expire, Shrink, Put, Find, Runnable;
    match ev
    case Advances(task) => TaskLeavesLedger(st, task);
    case _ =>
  }

  lemma {:induction false} RunRefinesLedger(st: State, run: seq<Event>)
    requires Safe(Abstract(st))
    ensures Evolves(Abstract(st), Abstract(After(st, run)))
    decreases |run|
  {
    if run != [] {
      var st1 := Step(st, run[0]).0;
      StepRefinesLedger(st, run[0]);
      NextEvolves(Abstract(st), Abstract(st1));
      RunRefinesLedger(st1, run[1..]);
      EvolvesTransitive(Abstract(st), Abstract(st1), Abstract(After(st, run)));
    }
  }

  /** In every run no attempt is executed twice and attempts are executed in increasing order of sequence; whatever
      follows, what it executes lies above every sequence run or cancelled before. */
  lemma ExecutesOnce(before: seq<Event>, after: seq<Event>)
    ensures var st := After(INITIAL_STATE, before);
            var st' := After(st, after);
            && Sorting.Increasing(st'.executed)
            && st.executed <= st'.executed
            && forall k | |st.executed| <= k < |st'.executed| :: st'.executed[k] > st.highwater
  {
    RunRefinesLedger(INITIAL_STATE, before);
    RunRefinesLedger(After(INITIAL_STATE, before), after);
  }

  // ----- the service object -----

  class Service {
    var highwater: nat
    var terminals: seq<Entry>
    var active: Option<Attempt>  // with its task and its child
    var uncertain: bool
    var waiting: set<nat>        // the event loop's: suspended cancel handlers, by the attempt they await
    var clock: int
    ghost var executed: seq<nat>
    ghost var settled: seq<Entry>
    ghost var mayLive: set<Child>
    ghost var stopped: set<Child>
    ghost var unproven: set<Child>

    ghost function Contents(): State
      reads this
    {
      State(highwater, terminals, active, uncertain, waiting, executed, settled, clock, mayLive, stopped, unproven)
    }

    constructor ()
      ensures Contents() == INITIAL_STATE
    {
      highwater, terminals, active, uncertain, waiting, clock := 0, [], None, false, {}, 0;
      executed, settled, mayLive, stopped, unproven := [], [], {}, {}, {};
    }

    method Store(c: Command, result: Outcome, stored: nat, pruned: nat)
      modifies this
      ensures Contents() == Remember(old(Contents()), c, result, stored, pruned)
    {
      var e := Entry(clock + stored, c, result);
      clock := clock + stored + pruned;
      terminals := Put(terminals, e);
      settled := settled + [e];
      ghost var put := terminals;
      while terminals != [] && (|terminals| > TERMINAL_LIMIT || Stale(terminals[0], clock))
        invariant Shrink(terminals, clock) == Shrink(put, clock)
        modifies this`terminals
      {
        terminals := terminals[1..];
      }
    }

    /** What every command does first: the clock has moved on, and stale terminals go. */
    method Prune(elapsed: nat)
      modifies this`clock, this`terminals
      ensures Contents() == var now := old(clock) + elapsed;
        old(Contents()).(clock := now, terminals := Expire(old(terminals), now))
    {
      clock := clock + elapsed;
      while terminals != [] && Stale(terminals[0], clock)
        invariant Expire(terminals, clock) == Expire(old(terminals), clock)
        modifies this`terminals
      {
        terminals := terminals[1..];
      }
    }

    /** Any arriving command, up to its first await. */
    method Receive(c: Command, t: Ticks) returns (r: Option<Reply>)
      modifies this
      ensures (Contents(), r) == OnCommand(old(Contents()), c, t)
    {
      hide Expire, Put, Shrink, Runnable;
      Prune(t.elapsed);
      if c.operation.Ready? || c.operation.Shutdown? { return Some(Reply(Success, None)); }
      var ack := Reply(Canceled, if uncertain then None else Some(CancelAck));
      var cached := Find(terminals, c.sequence);
      if cached.Some? {
        if cached.value.command.AsRun() != c.AsRun() { return Some(Reply(ProtocolError, None)); }
        if c.operation.Cancel? && !uncertain { return Some(Reply(cached.value.result, Some(TerminalReplay))); }
        return Some(Reply(cached.value.result, None));
      }
      if active.Some? && active.value.command.sequence == c.sequence {
        if active.value.command.AsRun() != c.AsRun() { return Some(Reply(ProtocolError, None)); }
        if !c.operation.Cancel? { return Some(Reply(Busy, None)); }
        active := Some(RequestCancel(active.value));
        waiting := waiting + {c.sequence};
        return None;
      }
      if c.sequence <= highwater { return Some(if c.operation.Cancel? then ack else Reply(Canceled, None)); }
      if c.operation.Status? { return Some(Reply(Unavailable, None)); }
      if c.operation.Cancel? {
        highwater := c.sequence;
        Store(c, Canceled, t.later, t.pruned);
        return Some(ack);
      }
      if !c.operation.Run? { return Some(Reply(ProtocolError, None)); }
      if uncertain { return Some(Reply(Unavailable, None)); }
      if active.Some? { return Some(Reply(Busy, None)); }
      if c.body.deadline <= clock + t.later { return Some(Reply(Timeout, None)); }
      if !Runnable(c.body) { return Some(Reply(ProtocolError, None)); }
      highwater := c.sequence;
      active := Some(Attempt(c, Created, 0, false, false, Unavailable));
      executed := executed + [c.sequence];
      return None;
    }

    /** The run handler after its shield. */
    method Settle(stored: nat, pruned: nat) returns (answer: Option<Answer>)
      modifies this
      ensures (Contents(), answer) == OnSettle(old(Contents()), stored, pruned)
    {
      answer := None;
      if active.None? || !active.value.phase.Ended? { return; }
      var a := active.value;
      active := None;
      if a.phase.result.Some? {
        var result := if uncertain then Unavailable else a.phase.result.value;
        Store(a.command, result, stored, pruned);
        answer := Some(Answer(a.command.sequence, Reply(result, None)));
      }
    }

    /** A cancel handler after its owned wait for the task. */
    method Join(s: nat) returns (r: Option<Reply>)
      modifies this
      ensures (Contents(), r) == OnJoin(old(Contents()), s)
    {
      r := None;
      if s !in waiting { return; }
      if active.Some? && active.value.command.sequence == s && !active.value.phase.Ended? { return; }
      waiting := waiting - {s};
      r := Some(if uncertain then Reply(Unavailable, None) else Reply(Canceled, Some(CancelAck)));
    }

    method Enter(a: Attempt, phase: Phase)
      modifies this`active
      ensures Contents() == Move(old(Contents()), a, phase)
    {
      active := Some(a.(phase := phase));
    }

    method Raise(a: Attempt, o: Outcome)
      modifies this`active
      ensures Contents() == Unwind(old(Contents()), a, o)
    {
      Enter(a.(cancelled := false, reply := if a.cancelled then Canceled else o), Closing);
    }

    method LeaveFinally(a: Attempt)
      modifies this`active
      ensures Contents() == Finish(old(Contents()), a)
    {
      if uncertain { Enter(a, Ended(Some(a.reply))); } else { Enter(a, Cleanup); }
    }

    /** The run task from one await to the next: the body of its try block. */
    method Render(a: Attempt, ev: TaskEvent)
      requires active == Some(a) && (a.phase.Created? || a.phase.Working? || a.phase.Spawning? || a.phase.Watching?)
      modifies this
      ensures Contents() == OnTask(old(Contents()), ev)
    {
      hide Chain, GoesOn;
      var c := Child(a.command.sequence, a.place);
      match (a.phase, ev)
      case (Created, Begin) => Enter(a, Working);
      case (Working, StartsRender) =>
        if a.cancelled { Raise(a, Canceled); }
        else if a.place < |Chain(a.command.body)| { Enter(a, Spawning); }
      case (Working, Publishes) => if a.cancelled { Raise(a, Canceled); }
      case (Working, WorkFails(o)) => Raise(a, o);
      case (Working, WorkDone) => if a.place == |Chain(a.command.body)| { Raise(a, Success); }
      case (Spawning, Spawned(SpawnOk)) =>
        mayLive := mayLive + {c};
        if a.cancelled { Enter(a.(held := true, cancelled := false), Stopping(Broken(Canceled))); }
        else { Enter(a.(held := true), Watching); }
      case (Spawning, Spawned(SpawnFailed(o))) => Raise(a, o);
      case (Spawning, Spawned(SpawnUnproven)) =>
        mayLive := mayLive + {c};
        unproven := unproven + {c};
        Raise(a, Unavailable);
      case (Watching, WatchEnds(flow)) =>
        Enter(a.(cancelled := false), Stopping(if a.cancelled then Broken(Canceled) else flow));
      case (_, _) =>
    }

    /** The run task from one await to the next: a child's stop and the finally blocks. */
    method Leave(a: Attempt, ev: TaskEvent)
      requires active == Some(a)
      requires !(a.phase.Created? || a.phase.Working? || a.phase.Spawning? || a.phase.Watching?)
      modifies this
      ensures Contents() == OnTask(old(Contents()), ev)
    {
      hide Chain, GoesOn;
      var c := Child(a.command.sequence, a.place);
      match (a.phase, ev)
      case (Stopping(flow), Stopped(gone)) =>
        if gone {
          mayLive := mayLive - {c};
          stopped := stopped + {c};
        }
        if a.cancelled || !gone { Raise(a, Unavailable); }
        else if GoesOn(a, flow) { Enter(a.(held := false, place := a.place + 1), Working); }
        else { Raise(a.(held := false), match flow case Broken(o) => o case _ => RenderFailed); }
      case (Closing, Closed) => if a.held { Enter(a, FinalStop); } else { LeaveFinally(a); }
      case (FinalStop, FinalStopped(gone)) =>
        if gone {
          mayLive := mayLive - {c};
          stopped := stopped + {c};
          LeaveFinally(a.(held := false));
        } else {
          uncertain := true;
          LeaveFinally(a);
        }
      case (Cleanup, CleanedUp) => Enter(a, Ended(Some(a.reply)));
      case (_, _) =>
    }

    /** The run task, when it is there, takes one step. */
    method Advance(ev: TaskEvent)
      modifies this
      ensures Contents() == OnTask(old(Contents()), ev)
    {
      if active.None? { return; }
      var a := active.value;
      if a.phase.Created? || a.phase.Working? || a.phase.Spawning? || a.phase.Watching? {
        Render(a, ev);
      } else {
        Leave(a, ev);
      }
    }

    /** Whatever the event loop runs next, and the answer it sends. */
    method Handle(ev: Event) returns (answer: Option<Answer>)
      modifies this
      ensures (Contents(), answer) == Step(old(Contents()), ev)
    {
      hide OnCommand, OnSettle, OnJoin, OnTask;
      answer := None;
      match ev
      case Arrives(c, ticks) =>
        var r := Receive(c, ticks);
        if r.Some? { answer := Some(Answer(c.sequence, r.value)); }
      case Disconnects => if active.Some? { active := Some(RequestCancel(active.value)); }
      case Advances(task) => Advance(task);
      case Settles(stored, pruned) => answer := Settle(stored, pruned);
      case Drops => if active.Some? && active.value.phase.Ended? { active := None; }
      case Joins(s) =>
        var r := Join(s);
        if r.Some? { answer := Some(Answer(s, r.value)); }
    }
  }
}
