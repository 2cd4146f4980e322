/** backend/app/camera_worker.py: the leases of one camera worker. A live or a raw lease is granted by the command
    loop and released by whoever takes it out of its table first: a command, the end of its forwarder or proxy, or the
    shutdown.

    One event is one stretch between two awaits. An event that cannot happen in a state leaves it as it is, so every
    sequence of events is a run. */
module CameraLeases {
  import opened Sorting

  type Id = nat

  datatype Kind = Live | Raw

  /** Who runs a release: the command loop itself, a tracked task of a finished forwarder or proxy, or the shutdown. */
  datatype Owner = ByCommand | Tracked | ByShutdown

  /** A release from its creation: it has not run yet, it took the lease out and waits for the registry, or it is over;
      NotMine when the lease was already taken. */
  datatype Phase = Waiting | Releasing | NotMine | Freed | Broken

  datatype Release = Release(kind: Kind, id: Id, owner: Owner, phase: Phase)

  /** Where the command loop is. Joining waits for the tracked releases; Stopped has sent the stopping reply. */
  datatype Loop = Idle | Asking(task: nat) | Draining | Gathering | Joining | Stopped | Died

  /** The tables, the forwarders and proxies that run, the releases that exist, and release_errors; granted, calls and
      freed are history: the leases acquired, the registry releases begun, in order, and those that ended well. */
  datatype State = State(
    leases: map<Id, Kind>, running: set<Id>, releases: map<nat, Release>, next: nat, errors: nat, loop: Loop,
    granted: set<Id>, calls: seq<Id>, freed: set<Id>)

  const START := State(map[], {}, map[], 0, 0, Idle, {}, [], {})

  datatype Event =
    | Grants(kind: Kind, id: Id)       // subscribe or start_raw_proxy
    | RawNotReady(id: Id)              // acquired, never in the table, released on the spot
    | Ends(id: Id)                     // a forwarder or a proxy is done, and its callback runs
    | Asks(kind: Kind, id: Id)         // unsubscribe or stop_raw_proxy
    | Starts(task: nat)
    | Finishes(task: nat, ok: bool)
    | Settles(task: nat)               // a tracked release's done callback
    | Answers                          // the command loop resumes from its own release
    | ShutsDown
    | Lists                            // the captures are cancelled: a release for every lease in the tables
    | Gathers                          // every release of the shutdown is over
    | Stops
    | Fails                            // the control connection or its protocol breaks

  predicate Over(r: Release) { r.phase.NotMine? || r.phase.Freed? || r.phase.Broken? }

  /** The first stretch of a release: table.pop(lease_id, None). */
  function Pop(st: State, r: Release): (State, Release) {
    if r.id in st.leases && st.leases[r.id] == r.kind then
      (st.(leases := st.leases - {r.id}, calls := st.calls + [r.id]), r.(phase := Releasing))
    else (st, r.(phase := NotMine))
  }

  function Add(st: State, r: Release): State { st.(releases := st.releases[st.next := r], next := st.next + 1) }

  function Put(st: State, task: nat, r: Release): State { st.(releases := st.releases[task := r]) }

  function Grant(st: State, kind: Kind, id: Id): State {
    if st.loop.Idle? && id !in st.granted then
      st.(leases := st.leases[id := kind], running := st.running + {id}, granted := st.granted + {id})
    else st
  }

  function NotReady(st: State, id: Id): State {
    if st.loop.Idle? && id !in st.granted then
      st.(granted := st.granted + {id}, calls := st.calls + [id], freed := st.freed + {id})
    else st
  }

  function End(st: State, id: Id): State {
    if id !in st.running then st
    else
      var gone := st.(running := st.running - {id});
      if id in st.leases then Add(gone, Release(st.leases[id], id, Tracked, Waiting)) else gone
  }

  function Ask(st: State, kind: Kind, id: Id): State {
    if !st.loop.Idle? then st
    else
      var (popped, r) := Pop(st, Release(kind, id, ByCommand, Waiting));
      Add(popped, r).(loop := Asking(st.next))
  }

  function Start(st: State, task: nat): State {
    if task !in st.releases || !st.releases[task].phase.Waiting? then st
    else
      var (popped, r) := Pop(st, st.releases[task]);
      Put(popped, task, r)
  }

  function Finish(st: State, task: nat, ok: bool): State {
    if task !in st.releases || !st.releases[task].phase.Releasing? then st
    else
      var r := st.releases[task];
      if ok then Put(st, task, r.(phase := Freed)).(freed := st.freed + {r.id}) else Put(st, task, r.(phase := Broken))
  }

  function Settle(st: State, task: nat): State {
    if task !in st.releases || !st.releases[task].owner.Tracked? || !Over(st.releases[task]) then st
    else
      st.(releases := st.releases - {task}, errors := st.errors + if st.releases[task].phase.Broken? then 1 else 0)
  }

  /** An error of the command's own release is raised out of the loop. */
  function Answer(st: State): State {
    if !st.loop.Asking? || st.loop.task !in st.releases || !Over(st.releases[st.loop.task]) then st
    else
      var broken := st.releases[st.loop.task].phase.Broken?;
      st.(releases := st.releases - {st.loop.task}, loop := if broken then Died else Idle)
  }

  /** A release for every lease in the tables. */
  function ListAll(st: State, ids: seq<Id>): State
    requires forall id | id in ids :: id in st.leases
    ensures ListAll(st, ids).leases == st.leases
  {
    if ids == [] then st else
      var id := ids[|ids| - 1];
      Add(ListAll(st, ids[..|ids| - 1]), Release(st.leases[id], id, ByShutdown, Waiting))
  }

  function IdsOf(leases: map<Id, Kind>): (ids: seq<Id>)
    ensures forall id :: id in ids <==> id in leases
  {
    assert forall id :: id in Sorted(leases.Keys) <==> id in Elements(Sorted(leases.Keys));
    Sorted(leases.Keys)
  }

  function ListLeases(st: State): State {
    if st.loop.Draining? then ListAll(st, IdsOf(st.leases)).(loop := Gathering) else st
  }

  function Owned(releases: map<nat, Release>, owner: Owner): set<nat> {
    set t | t in releases && releases[t].owner == owner
  }

  function BrokenOf(releases: map<nat, Release>, owner: Owner): set<nat> {
    set t | t in releases && releases[t].owner == owner && releases[t].phase.Broken?
  }

  predicate AllOver(releases: map<nat, Release>, owner: Owner) {
    forall t | t in releases && releases[t].owner == owner :: Over(releases[t])
  }

  function Gather(st: State): State {
    if st.loop.Gathering? && AllOver(st.releases, ByShutdown) then
      st.(releases := st.releases - Owned(st.releases, ByShutdown),
          errors := st.errors + |BrokenOf(st.releases, ByShutdown)|, loop := Joining)
    else st
  }

  function Stop(st: State): State {
    if st.loop.Joining? && Owned(st.releases, Tracked) == {} then
      st.(loop := if st.errors > 0 then Died else Stopped)
    else st
  }

  function Step(st: State, e: Event): State {
    match e
    case Grants(kind, id) => Grant(st, kind, id)
    case RawNotReady(id) => NotReady(st, id)
    case Ends(id) => End(st, id)
    case Asks(kind, id) => Ask(st, kind, id)
    case Starts(task) => Start(st, task)
    case Finishes(task, ok) => Finish(st, task, ok)
    case Settles(task) => Settle(st, task)
    case Answers => Answer(st)
    case ShutsDown => if st.loop.Idle? then st.(loop := Draining) else st
    case Lists => ListLeases(st)
    case Gathers => Gather(st)
    case Stops => Stop(st)
    case Fails => if st.loop.Idle? then st.(loop := Died) else st
  }

  function After(st: State, run: seq<Event>): State {
    if run == [] then st else Step(After(st, run[..|run| - 1]), run[|run| - 1])
  }

  // ----- the invariant -----

  ghost predicate Once(calls: seq<Id>) { forall i, j | 0 <= i < j < |calls| :: calls[i] != calls[j] }

  /** A release that took the lease out of its table. */
  predicate Took(r: Release) { r.phase.Releasing? || r.phase.Freed? || r.phase.Broken? }

  predicate Pending(r: Release, id: Id) { r.id == id && (r.phase.Releasing? || r.phase.Broken?) }

  ghost predicate InHand(st: State, id: Id) { exists t :: t in st.releases && Pending(st.releases[t], id) }

  ghost predicate Leases(st: State) {
    && Once(st.calls)
    && (forall id | id in st.leases :: id in st.granted && id !in st.calls)
    && (forall id | id in st.calls :: id in st.granted)
    && (forall id | id in st.granted :: id in st.leases || id in st.calls)
    && (forall id | id in st.freed :: id in st.calls)
    && (forall t | t in st.releases :: t < st.next && (Took(st.releases[t]) ==> st.releases[t].id in st.calls))
  }

  /** A release begun has ended well, or is still in hand, or its failure will keep the worker from stopping well. */
  ghost predicate Accounted(st: State) {
    forall id | id in st.calls :: id in st.freed || st.errors > 0 || st.loop.Died? || InHand(st, id)
  }

  ghost predicate ListedFor(st: State, id: Id)
    requires id in st.leases
  {
    exists t :: t in st.releases && st.releases[t] == Release(st.leases[id], id, ByShutdown, Waiting)
  }

  ghost predicate LoopAt(st: State) {
    && (forall t | t in st.releases && st.releases[t].owner.ByCommand? ::
          st.loop.Died? || st.loop == Asking(t))
    && (forall t | t in st.releases && st.releases[t].owner.ByShutdown? :: st.loop.Gathering?)
    && (st.loop.Gathering? ==> forall id | id in st.leases :: ListedFor(st, id))
    && (st.loop.Joining? || st.loop.Stopped? ==> st.leases == map[])
    && (st.loop.Stopped? ==> st.releases == map[] && st.errors == 0)
  }

  ghost predicate Inv(st: State) { Leases(st) && Accounted(st) && LoopAt(st) }

  /** A release in hand stays so while its task stays pending for the same lease. */
  lemma StillInHand(st: State, now: State, id: Id)
    requires InHand(st, id)
    requires forall t | t in st.releases && Pending(st.releases[t], id) ::
      t in now.releases && Pending(now.releases[t], id)
    ensures InHand(now, id)
  {
    var t :| t in st.releases && Pending(st.releases[t], id);
    assert t in now.releases && Pending(now.releases[t], id);
  }

  lemma StillAccounted(st: State, now: State)
    requires Accounted(st)
    requires now.calls == st.calls && st.freed <= now.freed && st.errors <= now.errors
      && (st.loop.Died? ==> now.loop.Died?)
    requires forall t | t in st.releases && (st.releases[t].phase.Releasing? || st.releases[t].phase.Broken?) ::
      || (t in now.releases && now.releases[t] == st.releases[t])
      || st.releases[t].id in now.freed || now.errors > 0 || now.loop.Died?
    ensures Accounted(now)
  {
    forall id | id in now.calls && id !in now.freed && now.errors == 0 && !now.loop.Died? ensures InHand(now, id) {
      assert InHand(st, id);
      StillInHand(st, now, id);
    }
  }

  lemma OnceMore(calls: seq<Id>, id: Id)
    requires Once(calls) && id !in calls
    ensures Once(calls + [id])
  {
  }

  lemma GrantKeepsInv(st: State, kind: Kind, id: Id)
    requires Inv(st)
    ensures Inv(Grant(st, kind, id))
  {
    StillAccounted(st, Grant(st, kind, id));
  }

  lemma NotReadyKeepsInv(st: State, id: Id)
    requires Inv(st)
    ensures Inv(NotReady(st, id))
  {
    var now := NotReady(st, id);
    if now != st {
      OnceMore(st.calls, id);
      forall i | i in now.calls && i !in now.freed && now.errors == 0 && !now.loop.Died? ensures InHand(now, i) {
        assert i in st.calls;
        StillInHand(st, now, i);
      }
    }
  }

  lemma EndKeepsInv(st: State, id: Id)
    requires Inv(st)
    ensures Inv(End(st, id))
  {
    var now := End(st, id);
    StillAccounted(st, now);
    if st.loop.Gathering? {
      forall i | i in now.leases ensures ListedFor(now, i) { StillListed(st, now, i); }
    }
  }

  lemma StillListed(st: State, now: State, id: Id)
    requires id in st.leases && ListedFor(st, id) && id in now.leases && now.leases[id] == st.leases[id]
    requires forall t | t in st.releases && st.releases[t].phase.Waiting? && st.releases[t].id == id ::
      t in now.releases && now.releases[t] == st.releases[t]
    ensures ListedFor(now, id)
  {
    var t :| t in st.releases && st.releases[t] == Release(st.leases[id], id, ByShutdown, Waiting);
    assert now.releases[t] == Release(now.leases[id], id, ByShutdown, Waiting);
  }

  /** Taking a lease out begins its one release. */
  lemma PopKeepsLeases(st: State, r: Release)
    requires Leases(st)
    ensures var (now, q) := Pop(st, r);
      && now.releases == st.releases && Once(now.calls) && now.granted == st.granted && now.freed == st.freed
      && (Took(q) ==> q.id in now.calls)
      && (forall id | id in now.calls :: id in st.calls || (id == r.id && q.phase.Releasing?))
      && (forall id | id in st.calls :: id in now.calls)
      && (forall id | id in now.leases :: id in st.leases && now.leases[id] == st.leases[id] && id !in now.calls)
      && (forall id | id in st.leases && id !in now.leases :: id == r.id && id in now.calls)
  {
    if r.id in st.leases { OnceMore(st.calls, r.id); }
  }

  lemma AskKeepsInv(st: State, kind: Kind, id: Id)
    requires Inv(st)
    ensures Inv(Ask(st, kind, id))
  {
    var now := Ask(st, kind, id);
    if now != st {
      PopKeepsLeases(st, Release(kind, id, ByCommand, Waiting));
      forall i | i in now.calls && i !in now.freed && now.errors == 0 ensures InHand(now, i) {
        if i in st.calls {
          StillInHand(st, now, i);
        } else {
          assert Pending(now.releases[st.next], i);
        }
      }
    }
  }

  lemma StartKeepsInv(st: State, task: nat)
    requires Inv(st)
    ensures Inv(Start(st, task))
  {
    var now := Start(st, task);
    if now != st {
      PopKeepsLeases(st, st.releases[task]);
      StartKeepsAccounted(st, task);
      StartKeepsListed(st, task);
    }
  }

  lemma StartKeepsAccounted(st: State, task: nat)
    requires Inv(st)
    ensures Accounted(Start(st, task))
  {
    var now := Start(st, task);
    if now != st {
      PopKeepsLeases(st, st.releases[task]);
      forall i | i in now.calls && i !in now.freed && now.errors == 0 && !now.loop.Died? ensures InHand(now, i) {
        if i in st.calls {
          StillInHand(st, now, i);
        } else {
          assert Pending(now.releases[task], i);
        }
      }
    }
  }

  lemma StartKeepsListed(st: State, task: nat)
    requires Inv(st)
    ensures var now := Start(st, task); now.loop.Gathering? ==> forall id | id in now.leases :: ListedFor(now, id)
  {
    var now := Start(st, task);
    if now != st && st.loop.Gathering? {
      PopKeepsLeases(st, st.releases[task]);
      forall id | id in now.leases ensures ListedFor(now, id) {
        assert ListedFor(st, id);
        var t :| t in st.releases && st.releases[t] == Release(st.leases[id], id, ByShutdown, Waiting);
        assert t != task;
        assert now.releases[t] == Release(now.leases[id], id, ByShutdown, Waiting);
      }
    }
  }

  lemma FinishKeepsInv(st: State, task: nat, ok: bool)
    requires Inv(st)
    ensures Inv(Finish(st, task, ok))
  {
    var now := Finish(st, task, ok);
    if now != st {
      forall i | i in now.calls && i !in now.freed && now.errors == 0 && !now.loop.Died? ensures InHand(now, i) {
        assert InHand(st, i);
        var t :| t in st.releases && Pending(st.releases[t], i);
        assert t in now.releases && Pending(now.releases[t], i);
      }
      if st.loop.Gathering? {
        forall id | id in now.leases ensures ListedFor(now, id) { StillListed(st, now, id); }
      }
    }
  }

  lemma SettleKeepsInv(st: State, task: nat)
    requires Inv(st)
    ensures Inv(Settle(st, task))
  {
    var now := Settle(st, task);
    if now != st {
      StillAccounted(st, now);
      if st.loop.Gathering? {
        forall id | id in now.leases ensures ListedFor(now, id) { StillListed(st, now, id); }
      }
    }
  }

  lemma AnswerKeepsInv(st: State)
    requires Inv(st)
    ensures Inv(Answer(st))
  {
    var now := Answer(st);
    if now != st { StillAccounted(st, now); }
  }

  lemma NoneWaiting(st: State, id: Id)
    requires AllOver(st.releases, ByShutdown) && id in st.leases
    ensures !ListedFor(st, id)
  {
  }

  lemma NothingListed(st: State)
    requires st.loop.Gathering? ==> forall id | id in st.leases :: ListedFor(st, id)
    requires st.loop.Gathering? && AllOver(st.releases, ByShutdown)
    ensures st.leases == map[]
  {
    if st.leases.Keys != {} {
      var id :| id in st.leases;
      NoneWaiting(st, id);
    }
  }

  lemma GatherKeepsInv(st: State)
    requires Inv(st)
    ensures Inv(Gather(st))
  {
    var now := Gather(st);
    if now != st {
      NothingListed(st);
      assert BrokenOf(st.releases, ByShutdown) != {} ==> now.errors > 0;
      assert forall t | t in st.releases && st.releases[t].owner.ByShutdown? && st.releases[t].phase.Broken? ::
        t in BrokenOf(st.releases, ByShutdown);
      StillAccounted(st, now);
    }
  }

  lemma StopKeepsInv(st: State)
    requires Inv(st)
    ensures Inv(Stop(st))
  {
    var now := Stop(st);
    if now != st {
      StillAccounted(st, now);
      if now.loop.Stopped? {
        assert st.releases.Keys <= Owned(st.releases, Tracked);
        assert st.releases == map[];
      }
    }
  }

  lemma {:induction false} ListKeeps(st: State, ids: seq<Id>)
    requires (forall id | id in ids :: id in st.leases) && Leases(st) && Accounted(st)
    ensures var now := ListAll(st, ids);
      && now == st.(releases := now.releases, next := now.next) && st.next <= now.next
      && (forall t | t in st.releases :: t in now.releases && now.releases[t] == st.releases[t])
      && (forall t | t in now.releases :: t < now.next)
      && (forall t | t in now.releases && t !in st.releases ::
            now.releases[t].owner.ByShutdown? && now.releases[t].phase.Waiting?)
      && (forall id | id in ids :: ListedFor(now, id))
  {
    if ids != [] {
      var id := ids[|ids| - 1];
      var front := ids[..|ids| - 1];
      ListKeeps(st, front);
      var before, now := ListAll(st, front), ListAll(st, ids);
      forall i | i in ids ensures ListedFor(now, i) {
        if i == id {
          assert now.releases[before.next] == Release(st.leases[id], id, ByShutdown, Waiting);
        } else {
          assert i in front;
          StillListed(before, now, i);
        }
      }
    }
  }

  lemma ListNone(st: State, ids: seq<Id>)
    ensures ListAll(st, ids[..0]) == st
  {
  }

  lemma ListOne(st: State, ids: seq<Id>, i: nat)
    requires (forall id | id in ids :: id in st.leases) && i < |ids|
    ensures ListAll(st, ids[..i + 1]) ==
      Add(ListAll(st, ids[..i]), Release(st.leases[ids[i]], ids[i], ByShutdown, Waiting))
  {
    assert ids[..i + 1][..i] == ids[..i];
  }

  lemma ListsKeepInv(st: State)
    requires Inv(st)
    ensures Inv(ListLeases(st))
  {
    hide IdsOf, ListAll;
    if st.loop.Draining? {
      var ids := IdsOf(st.leases);
      var listed, now := ListAll(st, ids), ListLeases(st);
      ListKeeps(st, ids);
      StillAccounted(st, now);
      forall id | id in now.leases ensures ListedFor(now, id) {
        assert ListedFor(listed, id);
        StillListed(listed, now, id);
      }
    }
  }

  lemma StepKeepsInv(st: State, e: Event)
    requires Inv(st)
    ensures Inv(Step(st, e))
  {
    hide Inv;
    match e
    case Grants(kind, id) => GrantKeepsInv(st, kind, id);
    case RawNotReady(id) => NotReadyKeepsInv(st, id);
    case Ends(id) => EndKeepsInv(st, id);
    case Asks(kind, id) => AskKeepsInv(st, kind, id);
    case Starts(task) => StartKeepsInv(st, task);
    case Finishes(task, ok) => FinishKeepsInv(st, task, ok);
    case Settles(task) => SettleKeepsInv(st, task);
    case Answers => AnswerKeepsInv(st);
    case Lists => ListsKeepInv(st);
    case Gathers => GatherKeepsInv(st);
    case Stops => StopKeepsInv(st);
    case _ => LoopOnlyKeepsInv(st, e);
  }

  lemma LoopOnlyKeepsInv(st: State, e: Event)
    requires Inv(st) && (e.ShutsDown? || e.Fails?)
    ensures Inv(Step(st, e))
  {
    StillAccounted(st, Step(st, e));
  }

  lemma {:induction false} RunKeepsInv(st: State, run: seq<Event>)
    requires Inv(st)
    ensures Inv(After(st, run))
  {
    if run != [] {
      RunKeepsInv(st, run[..|run| - 1]);
      StepKeepsInv(After(st, run[..|run| - 1]), run[|run| - 1]);
    }
  }

  // ----- what it is for -----

  /** No lease is released twice, whatever commands, ends and shutdown come in whatever order. */
  lemma ReleasedAtMostOnce(run: seq<Event>)
    ensures Once(After(START, run).calls)
    ensures var st := After(START, run); forall id | id in st.leases :: id !in st.calls
  {
    RunKeepsInv(START, run);
  }

  /** The stopping reply is sent only when every lease ever acquired was released, once and well, and no release is
      pending: the failure of any release keeps the worker from that reply. */
  lemma StoppingMeansReleased(run: seq<Event>)
    requires After(START, run).loop.Stopped?
    ensures var st := After(START, run);
      && st.leases == map[] && st.releases == map[]
      && Once(st.calls)
      && (forall id :: id in st.granted <==> id in st.calls)
      && (forall id :: id in st.granted <==> id in st.freed)
  {
    RunKeepsInv(START, run);
    var st := After(START, run);
    forall id | id in st.calls ensures id in st.freed { assert !InHand(st, id); }
  }

  // ----- the worker's tables -----

  // ----- no lease is forgotten -----

  /** A release of this very lease that has not begun. */
  ghost predicate Awaited(st: State, id: Id)
    requires id in st.leases
  {
    exists t :: t in st.releases && st.releases[t].phase.Waiting? && st.releases[t].id == id
                && st.releases[t].kind == st.leases[id]
  }

  ghost predicate Tended(st: State) {
    forall id | id in st.leases :: id in st.running || Awaited(st, id)
  }

  lemma StillAwaited(st: State, now: State, id: Id)
    requires id in st.leases && Awaited(st, id) && id in now.leases && now.leases[id] == st.leases[id]
    requires forall t | t in st.releases && st.releases[t].phase.Waiting? && st.releases[t].id == id
                        && st.releases[t].kind == st.leases[id] ::
      t in now.releases && now.releases[t] == st.releases[t]
    ensures Awaited(now, id)
  {
    var t :| t in st.releases && st.releases[t].phase.Waiting? && st.releases[t].id == id
             && st.releases[t].kind == st.leases[id];
    assert now.releases[t] == st.releases[t];
  }

  lemma StillTended(st: State, now: State)
    requires Tended(st) && now.running == st.running
    requires forall id | id in now.leases :: id in st.leases && now.leases[id] == st.leases[id]
    requires forall t | t in st.releases && st.releases[t].phase.Waiting? && st.releases[t].id in now.leases
                        && st.releases[t].kind == now.leases[st.releases[t].id] ::
      t in now.releases && now.releases[t] == st.releases[t]
    ensures Tended(now)
  {
    forall id | id in now.leases && id !in now.running ensures Awaited(now, id) { StillAwaited(st, now, id); }
  }

  lemma EndTends(st: State, id: Id)
    requires Inv(st) && Tended(st)
    ensures Tended(End(st, id))
  {
    var now := End(st, id);
    forall i | i in now.leases && i !in now.running ensures Awaited(now, i) {
      if i == id && id in st.running {
        assert now.releases[st.next] == Release(st.leases[id], id, Tracked, Waiting);
      } else {
        StillAwaited(st, now, i);
      }
    }
  }

  lemma GrantTends(st: State, kind: Kind, id: Id)
    requires Inv(st) && Tended(st)
    ensures Tended(Grant(st, kind, id))
  {
    var now := Grant(st, kind, id);
    forall i | i in now.leases && i !in now.running ensures Awaited(now, i) { StillAwaited(st, now, i); }
  }

  lemma ListTends(st: State)
    requires Inv(st) && Tended(st)
    ensures Tended(ListLeases(st))
  {
    hide IdsOf, ListAll;
    if st.loop.Draining? {
      ListKeeps(st, IdsOf(st.leases));
      StillTended(st, ListLeases(st));
    }
  }

  lemma StepTends(st: State, e: Event)
    requires Inv(st) && Tended(st)
    ensures Tended(Step(st, e))
  {
    hide ListLeases, Grant, End, Tended, Accounted;
    match e
    case Grants(kind, id) => GrantTends(st, kind, id);
    case Ends(id) => EndTends(st, id);
    case Lists => ListTends(st);
    case _ => StillTended(st, Step(st, e));
  }

  /** Over every run: each lease still in its table has its forwarder or proxy running, or a release of its own kind and
      id that waits to begin. */
  lemma {:induction false} NoLeaseForgotten(run: seq<Event>)
    ensures var st := After(START, run);
      forall id | id in st.leases ::
        id in st.running ||
        exists t :: t in st.releases && st.releases[t].phase.Waiting? && st.releases[t].id == id
                    && st.releases[t].kind == st.leases[id]
    ensures Tended(After(START, run))
  {
    hide Step, Inv, Tended;
    if run == [] {
      NothingTended();
    } else {
      NoLeaseForgotten(run[..|run| - 1]);
      RunKeepsInv(START, run[..|run| - 1]);
      StepTends(After(START, run[..|run| - 1]), run[|run| - 1]);
    }
    TendedMeans(After(START, run));
  }

  lemma NothingTended()
    ensures Tended(START)
  {
  }

  lemma TendedMeans(st: State)
    requires Tended(st)
    ensures forall id | id in st.leases ::
      id in st.running ||
      exists t :: t in st.releases && st.releases[t].phase.Waiting? && st.releases[t].id == id
                  && st.releases[t].kind == st.leases[id]
  {
    forall id | id in st.leases && id !in st.running
      ensures exists t :: t in st.releases && st.releases[t].phase.Waiting? && st.releases[t].id == id
                          && st.releases[t].kind == st.leases[id]
    {
      assert Awaited(st, id);
    }
  }

  /** Such a release, once it begins and ends well, frees its lease. */
  lemma AwaitedIsFreed(st: State, t: nat)
    requires t in st.releases && st.releases[t].phase.Waiting?
    requires var r := st.releases[t]; r.id in st.leases && st.leases[r.id] == r.kind
    ensures var id := st.releases[t].id;
      var begun := Step(st, Starts(t));
      && id !in begun.leases && begun.calls == st.calls + [id] && t in begun.releases
      && id in Step(begun, Finishes(t, true)).freed && id !in Step(begun, Finishes(t, false)).freed - st.freed
  {
  }

  /** A command's own release frees the lease of its kind and id, and none other; the loop goes on unless it failed. */
  lemma AskedIsFreed(st: State, kind: Kind, id: Id, ok: bool)
    requires st.loop.Idle?
    ensures var asked := Step(st, Asks(kind, id));
      var over := Step(asked, Finishes(st.next, ok));
      var mine := id in st.leases && st.leases[id] == kind;
      && (id in asked.leases <==> id in st.leases && !mine)
      && (mine ==> asked.calls == st.calls + [id] && over.freed == (if ok then st.freed + {id} else st.freed))
      && (!mine ==> asked.calls == st.calls && over == asked)
      && Step(over, Answers).loop == (if mine && !ok then Died else Idle)
  {
  }

  /** What moves the loop: a shutdown starts only from the idle loop and lists at once; it goes on when each of its own
      releases is over, with their errors counted; and a broken connection ends the idle loop. */
  lemma LoopMoves(st: State)
    ensures Step(st, ShutsDown).loop == (if st.loop.Idle? then Draining else st.loop)
    ensures Step(st, Fails).loop == (if st.loop.Idle? then Died else st.loop)
    ensures Step(st, Lists).loop == (if st.loop.Draining? then Gathering else st.loop)
    ensures var over := forall t | t in st.releases && st.releases[t].owner.ByShutdown? :: Over(st.releases[t]);
      && (Step(st, Gathers).loop == if st.loop.Gathering? && over then Joining else st.loop)
      && (st.loop.Gathering? && over ==>
            Step(st, Gathers).errors == st.errors + |BrokenOf(st.releases, ByShutdown)|)
  {
    hide IdsOf, ListAll;
  }

  /** A grant in the idle loop puts a new lease in its table with its forwarder or proxy; a raw one that was not ready
      is released on the spot. */
  lemma GrantGives(st: State, kind: Kind, id: Id)
    requires st.loop.Idle? && id !in st.granted
    ensures var now := Step(st, Grants(kind, id));
      && id in now.leases && now.leases[id] == kind && id in now.running && now.granted == st.granted + {id}
      && now.calls == st.calls && now.freed == st.freed
    ensures var now := Step(st, RawNotReady(id));
      && now.leases == st.leases && now.granted == st.granted + {id}
      && now.calls == st.calls + [id] && now.freed == st.freed + {id}
  {
  }

  /** A worker that grants two leases, sees the first's forwarder end, and shuts down. */
  const WHOLE_RUN: seq<Event> := [
    Grants(Live, 5), Ends(5), Starts(0), Finishes(0, true), Settles(0), Grants(Raw, 6), ShutsDown, Lists, Starts(1),
    Finishes(1, true), Gathers, Stops]

  lemma OneMoreEvent(run: seq<Event>, n: nat)
    requires n < |run|
    ensures After(START, run[..n + 1]) == Step(After(START, run[..n]), run[n])
  {
    assert run[..n + 1][..n] == run[..n];
  }

  lemma FirstHalf()
    ensures After(START, WHOLE_RUN[..6]) == State(map[6 := Raw], {6}, map[], 1, 0, Idle, {5, 6}, [5], {5})
  {
    hide After;
    FirstLease();
    OneMoreEvent(WHOLE_RUN, 3);
    OneMoreEvent(WHOLE_RUN, 4);
    OneMoreEvent(WHOLE_RUN, 5);
  }

  lemma NothingRun(run: seq<Event>)
    ensures After(START, run[..0]) == START
  {
  }

  lemma FirstLease()
    ensures After(START, WHOLE_RUN[..3]) ==
      State(map[], {}, map[0 := Release(Live, 5, Tracked, Releasing)], 1, 0, Idle, {5}, [5], {})
  {
    hide After;
    NothingRun(WHOLE_RUN);
    OneMoreEvent(WHOLE_RUN, 0);
    OneMoreEvent(WHOLE_RUN, 1);
    OneMoreEvent(WHOLE_RUN, 2);
  }

  lemma Listed()
    ensures After(START, WHOLE_RUN[..8]) ==
      State(map[6 := Raw], {6}, map[1 := Release(Raw, 6, ByShutdown, Waiting)], 2, 0, Gathering, {5, 6}, [5], {5})
  {
    hide IdsOf, After;
    FirstHalf();
    OneMoreEvent(WHOLE_RUN, 6);
    OneMoreEvent(WHOLE_RUN, 7);
    var st := After(START, WHOLE_RUN[..7]);
    assert st == State(map[6 := Raw], {6}, map[], 1, 0, Draining, {5, 6}, [5], {5});
    OneId(st);
    ListOne(st, [6], 0);
    ListNone(st, [6]);
    assert [6][..1] == [6];
  }

  lemma OneId(st: State)
    requires st.leases == map[6 := Raw]
    ensures IdsOf(st.leases) == [6]
  {
    var ids := IdsOf(st.leases);
    assert Increasing(ids);
    assert 6 in ids;
    assert forall i | 0 <= i < |ids| :: ids[i] in ids;
  }

  lemma Released()
    ensures After(START, WHOLE_RUN[..10]) ==
      State(map[], {6}, map[1 := Release(Raw, 6, ByShutdown, Freed)], 2, 0, Gathering, {5, 6}, [5, 6], {5, 6})
  {
    hide After;
    Listed();
    OneMoreEvent(WHOLE_RUN, 8);
    OneMoreEvent(WHOLE_RUN, 9);
  }

  /** It sends the stopping reply, and both leases are free. */
  lemma WholeRunStops()
    ensures var st := After(START, WHOLE_RUN);
      st.loop.Stopped? && st.freed == {5, 6} && st.calls == [5, 6] && st.leases == map[] && st.releases == map[]
  {
    hide After;
    Released();
    OneMoreEvent(WHOLE_RUN, 10);
    OneMoreEvent(WHOLE_RUN, 11);
    assert WHOLE_RUN[..12] == WHOLE_RUN;
    var releases := After(START, WHOLE_RUN[..10]).releases;
    assert BrokenOf(releases, ByShutdown) == {} && Owned(releases, ByShutdown) == {1};
    assert releases - {1} == map[];
    assert Owned(map[], Tracked) == {};
  }

  // ----- when the worker stops well -----

  /** The lease's one release is over and has not freed it. */
  ghost predicate Lost(st: State, id: Id) {
    id in st.calls && id !in st.freed && forall t | t in st.releases && Took(st.releases[t]) :: st.releases[t].id != id
  }

  ghost predicate OneEach(st: State) {
    && (forall t, u | t in st.releases && u in st.releases && Took(st.releases[t]) && Took(st.releases[u])
                      && st.releases[t].id == st.releases[u].id :: t == u)
    && (forall t | t in st.releases && (st.releases[t].phase.Releasing? || st.releases[t].phase.Broken?) ::
          st.releases[t].id !in st.freed)
    && (st.errors > 0 ==> exists id :: Lost(st, id))
  }

  lemma StillLost(st: State, now: State)
    requires st.errors > 0 && Leases(st) && OneEach(st)
    requires forall id | id in st.calls :: id in now.calls
    requires forall id | id in now.freed - st.freed ::
      id !in st.calls || exists t :: t in st.releases && Took(st.releases[t]) && st.releases[t].id == id
    requires forall t | t in now.releases && Took(now.releases[t]) ::
      || now.releases[t].id !in st.calls
      || (t in st.releases && Took(st.releases[t]) && st.releases[t].id == now.releases[t].id)
    ensures exists id :: Lost(now, id)
  {
    var id :| Lost(st, id);
    assert Lost(now, id);
  }

  lemma SettleKeepsOne(st: State, task: nat)
    requires Inv(st) && OneEach(st)
    ensures OneEach(Settle(st, task))
  {
    var now := Settle(st, task);
    if now != st {
      if st.releases[task].phase.Broken? { assert Lost(now, st.releases[task].id); }
      else if st.errors > 0 { StillLost(st, now); }
    }
  }

  lemma GatherKeepsOne(st: State)
    requires Inv(st) && OneEach(st)
    ensures OneEach(Gather(st))
  {
    var now := Gather(st);
    if now != st {
      var broken := BrokenOf(st.releases, ByShutdown);
      if broken != {} {
        var t :| t in broken;
        assert Lost(now, st.releases[t].id);
      } else if st.errors > 0 {
        StillLost(st, now);
      }
    }
  }

  lemma ListKeepsOne(st: State)
    requires Inv(st) && OneEach(st)
    ensures OneEach(ListLeases(st))
  {
    hide IdsOf, ListAll;
    if st.loop.Draining? {
      ListKeeps(st, IdsOf(st.leases));
      if st.errors > 0 { StillLost(st, ListLeases(st)); }
    }
  }

  lemma AskKeepsOne(st: State, kind: Kind, id: Id)
    requires Inv(st) && OneEach(st)
    ensures OneEach(Ask(st, kind, id))
  {
    hide Accounted, LoopAt;
    if st.errors > 0 { StillLost(st, Ask(st, kind, id)); }
  }

  lemma StartKeepsOne(st: State, task: nat)
    requires Inv(st) && OneEach(st)
    ensures OneEach(Start(st, task))
  {
    hide Accounted, LoopAt;
    if st.errors > 0 { StillLost(st, Start(st, task)); }
  }

  lemma FinishKeepsOne(st: State, task: nat, ok: bool)
    requires Inv(st) && OneEach(st)
    ensures OneEach(Finish(st, task, ok))
  {
    hide Accounted, LoopAt;
    if st.errors > 0 { StillLost(st, Finish(st, task, ok)); }
  }

  lemma NewKeepsOne(st: State, e: Event)
    requires Inv(st) && OneEach(st) && (e.Grants? || e.RawNotReady?)
    ensures OneEach(Step(st, e))
  {
    hide Accounted, LoopAt;
    if st.errors > 0 { StillLost(st, Step(st, e)); }
  }

  lemma EndKeepsOne(st: State, id: Id)
    requires Inv(st) && OneEach(st)
    ensures OneEach(End(st, id))
  {
    hide Accounted, LoopAt;
    if st.errors > 0 { StillLost(st, End(st, id)); }
  }

  lemma LoopKeepsOne(st: State, e: Event)
    requires Inv(st) && OneEach(st) && (e.Answers? || e.ShutsDown? || e.Stops? || e.Fails?)
    ensures OneEach(Step(st, e))
  {
    hide Accounted, LoopAt;
    if st.errors > 0 { StillLost(st, Step(st, e)); }
  }

  lemma StepKeepsOne(st: State, e: Event)
    requires Inv(st) && OneEach(st)
    ensures OneEach(Step(st, e))
  {
    hide Inv, OneEach, ListLeases, Gather, Settle, Ask, Start, Finish;
    match e
    case Settles(task) => SettleKeepsOne(st, task);
    case Gathers => GatherKeepsOne(st);
    case Lists => ListKeepsOne(st);
    case Asks(kind, id) => AskKeepsOne(st, kind, id);
    case Starts(task) => StartKeepsOne(st, task);
    case Finishes(task, ok) => FinishKeepsOne(st, task, ok);
    case Grants(_, _) | RawNotReady(_) => NewKeepsOne(st, e);
    case Ends(id) => EndKeepsOne(st, id);
    case _ => LoopKeepsOne(st, e);
  }

  lemma {:induction false} RunKeepsOne(run: seq<Event>)
    ensures OneEach(After(START, run))
  {
    hide Step, Inv;
    if run != [] {
      RunKeepsOne(run[..|run| - 1]);
      RunKeepsInv(START, run[..|run| - 1]);
      StepKeepsOne(After(START, run[..|run| - 1]), run[|run| - 1]);
    }
  }

  /** Once the shutdown has joined every release, the stopping reply is sent if and only if every lease the registry
      ever gave was released well; else the worker dies of the first error. */
  lemma StopsExactly(run: seq<Event>)
    requires var st := After(START, run); st.loop.Joining? && Owned(st.releases, Tracked) == {}
    ensures var st := After(START, run); var end := Step(st, Stops);
      && (end.loop.Stopped? <==> forall id | id in st.granted :: id in st.freed)
      && (end.loop.Stopped? || end.loop.Died?)
  {
    var st := After(START, run);
    RunKeepsInv(START, run);
    RunKeepsOne(run);
    assert forall t | t in st.releases :: t in Owned(st.releases, Tracked);
    if st.errors > 0 {
      var id :| Lost(st, id);
      assert id in st.granted;
    } else {
      assert forall id :: !InHand(st, id);
    }
  }

  class Worker {
    var leases: map<Id, Kind>       // live_leases and raw_proxies
    var running: set<Id>            // live_forwarders, and the tasks of raw_proxies
    var releases: map<nat, Release> // the release coroutines; release_tasks are the tracked ones
    var next: nat
    var errors: nat
    var loop: Loop
    var granted: set<Id>            // the registry's: every lease it gave, its ids fresh
    ghost var calls: seq<Id>
    ghost var freed: set<Id>

    ghost function Contents(): State
      reads this
    {
      State(leases, running, releases, next, errors, loop, granted, calls, freed)
    }

    constructor ()
      ensures Contents() == START
    {
      leases, running, releases, next, errors, loop := map[], {}, map[], 0, 0, Idle;
      granted, calls, freed := {}, [], {};
    }

    /** create_task of a release, tracked or of the shutdown, or the command's own call. */
    method Create(r: Release) returns (task: nat)
      modifies this`releases, this`next
      ensures Contents() == Add(old(Contents()), r) && task == old(next)
    {
      task := next;
      releases, next := releases[task := r], next + 1;
    }

    /** table.pop(lease_id, None): whether this release is the one that frees the lease. */
    method Take(r: Release) returns (q: Release)
      modifies this`leases, this`calls
      ensures (Contents(), q) == Pop(old(Contents()), r)
    {
      if r.id !in leases || leases[r.id] != r.kind { return r.(phase := NotMine); }
      leases := leases - {r.id};
      calls := calls + [r.id];
      q := r.(phase := Releasing);
    }

    /** release_finished_forwarder and release_finished_raw_proxy */
    method FinishedTask(id: Id)
      modifies this
      ensures Contents() == End(old(Contents()), id)
    {
      if id !in running { return; }
      running := running - {id};
      if id in leases { var _ := Create(Release(leases[id], id, Tracked, Waiting)); }
    }

    /** The unsubscribe and stop_raw_proxy branches, up to the registry's await. */
    method AskRelease(kind: Kind, id: Id)
      modifies this
      ensures Contents() == Ask(old(Contents()), kind, id)
    {
      if loop != Idle { return; }
      var r := Take(Release(kind, id, ByCommand, Waiting));
      var task := Create(r);
      loop := Asking(task);
    }

    method StartRelease(task: nat)
      modifies this
      ensures Contents() == Start(old(Contents()), task)
    {
      if task !in releases || !releases[task].phase.Waiting? { return; }
      var r := Take(releases[task]);
      releases := releases[task := r];
    }

    /** The done callback track_release adds. */
    method FinishedRelease(task: nat)
      modifies this
      ensures Contents() == Settle(old(Contents()), task)
    {
      if task !in releases || !releases[task].owner.Tracked? || !Over(releases[task]) { return; }
      if releases[task].phase.Broken? { errors := errors + 1; }
      releases := releases - {task};
    }

    /** The shutdown branch's list of releases: one for every lease, taken before any of them runs. */
    method ListReleases()
      modifies this
      ensures Contents() == ListLeases(old(Contents()))
    {
      hide IdsOf, ListAll;
      if loop != Draining { return; }
      ghost var start := Contents();
      var ids := IdsOf(leases);
      ListNone(start, ids);
      var i := 0;
      while i < |ids|
        invariant 0 <= i <= |ids| && leases == start.leases
        invariant Contents() == ListAll(start, ids[..i])
        modifies this`releases, this`next
      {
        ListOne(start, ids, i);
        var _ := Create(Release(leases[ids[i]], ids[i], ByShutdown, Waiting));
        i := i + 1;
      }
      assert ids[..i] == ids;
      loop := Gathering;
    }

    /** gather over the shutdown's releases: their errors join the others. */
    method Gathered()
      modifies this
      ensures Contents() == Gather(old(Contents()))
    {
      if loop != Gathering || !AllOver(releases, ByShutdown) { return; }
      errors := errors + |BrokenOf(releases, ByShutdown)|;
      releases := releases - Owned(releases, ByShutdown);
      loop := Joining;
    }

    /** The end of the shutdown branch, once no tracked release is left: the stopping reply, or the first error
        raised. */
    method FinishShutdown()
      modifies this
      ensures Contents() == Stop(old(Contents()))
    {
      if loop != Joining || Owned(releases, Tracked) != {} { return; }
      loop := if errors > 0 then Died else Stopped;
    }

    /** A subscribe or start_raw_proxy that got its lease, and a raw proxy that never became ready. */
    method Granted(kind: Kind, id: Id, ready: bool)
      modifies this`leases, this`running, this`granted, this`calls, this`freed
      ensures Contents() == if ready then Grant(old(Contents()), kind, id) else NotReady(old(Contents()), id)
    {
      if loop != Idle || id in granted { return; }
      granted := granted + {id};
      if ready {
        leases, running := leases[id := kind], running + {id};
      } else {
        calls, freed := calls + [id], freed + {id};
      }
    }

    /** The registry answers a release. */
    method FinishRelease(task: nat, ok: bool)
      modifies this`releases, this`freed
      ensures Contents() == Finish(old(Contents()), task, ok)
    {
      if task !in releases || !releases[task].phase.Releasing? { return; }
      var r := releases[task];
      releases := releases[task := r.(phase := if ok then Freed else Broken)];
      if ok { freed := freed + {r.id}; }
    }

    /** The command loop resumes from its own release, whose error is raised out of it. */
    method ResumeLoop()
      modifies this`releases, this`loop
      ensures Contents() == Answer(old(Contents()))
    {
      if !loop.Asking? || loop.task !in releases || !Over(releases[loop.task]) { return; }
      var task := loop.task;
      loop := if releases[task].phase.Broken? then Died else Idle;
      releases := releases - {task};
    }

    /** Whatever the event loop runs next. */
    method Handle(e: Event)
      modifies this
      ensures Contents() == Step(old(Contents()), e)
    {
      hide Grant, NotReady, End, Ask, Start, Finish, Settle, Answer, ListLeases, Gather, Stop;
      match e
      case Grants(kind, id) => Granted(kind, id, true);
      case RawNotReady(id) => Granted(Raw, id, false);
      case Ends(id) => FinishedTask(id);
      case Asks(kind, id) => AskRelease(kind, id);
      case Starts(task) => StartRelease(task);
      case Finishes(task, ok) => FinishRelease(task, ok);
      case Settles(task) => FinishedRelease(task);
      case Answers => ResumeLoop();
      case ShutsDown => if loop == Idle { loop := Draining; }
      case Lists => ListReleases();
      case Gathers => Gathered();
      case Stops => FinishShutdown();
      case Fails => if loop == Idle { loop := Died; }
    }
  }
}
