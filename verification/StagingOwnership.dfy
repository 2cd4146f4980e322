/** backend/app/step_runtime.py (_writer_may_live, _reclaim_staging, install) and
    backend/app/services/step_runtime_child.py (run_tree): who may still write into an installer's staging.

    The owner records itself, then the launch, both before the spawn, and records the bootstrap before it releases it.
    A staging goes only when its owner has proven its tree ended, or when a later install or prune, under the platform's
    lock, finds that no writer of it may live. Here the owner may die, and the machine reboot, between any two steps. */
module StagingOwnership {
  import opened Options

  // ----- the judgement -----

  /** What recorded_running answers: it is None, Ended here, only for a process shown to have ended. */
  datatype Running = Ended | MayRun(why: string)

  /** The records a staging holds. */
  datatype Records = Records(owner: bool, launch: bool, bootstrap: bool, survivors: nat)

  /** The process oracles' answers during one judgement. None is "cannot tell". */
  datatype Oracles = Oracles(
    owner: Running, bootstrap: Running, thisBoot: Option<bool>, groupNamed: bool, members: Option<seq<nat>>,
    token: bool, holdersEnded: bool, survivors: nat -> Running)

  datatype Reason =
    | OwnerMayLive(why: string) | BootstrapMayLive(why: string) | BootUnknown | RecordUnreadable | ScanUnreadable
    | MemberAlive(pid: nat) | LaunchUnreadable | UnreleasedUnproven | SurvivorMayLive(why: string)

  function FirstSurvivor(o: Oracles, i: nat, n: nat): Option<Reason>
    requires i <= n
    decreases n - i
  {
    if i == n then None
    else if o.survivors(i).MayRun? then Some(SurvivorMayLive(o.survivors(i).why))
    else FirstSurvivor(o, i + 1, n)
  }

  /** The record of a bootstrap that is there: it must have ended, and on POSIX its group with it. */
  function RecordedWhy(posix: bool, o: Oracles): Option<Reason> {
    if o.bootstrap.MayRun? then Some(BootstrapMayLive(o.bootstrap.why))
    else if !posix then None
    else if o.thisBoot.None? then Some(BootUnknown)
    else if !o.thisBoot.value then None
    else if !o.groupNamed then Some(RecordUnreadable)
    else if o.members.None? then Some(ScanUnreadable)
    else if o.members.value != [] then Some(MemberAlive(o.members.value[0]))
    else None
  }

  function UnrecordedWhy(o: Oracles): Option<Reason> {
    if !o.token then Some(LaunchUnreadable) else if !o.holdersEnded then Some(UnreleasedUnproven) else None
  }

  function MayLive(r: Records, posix: bool, o: Oracles): Option<Reason> {
    if !r.launch then None
    else if r.owner && o.owner.MayRun? then Some(OwnerMayLive(o.owner.why))
    else
      var why := if r.bootstrap then RecordedWhy(posix, o) else UnrecordedWhy(o);
      if why.Some? then why else FirstSurvivor(o, 0, r.survivors)
  }

  /** Why a writer may still live; ended tells that the token's holders were looked for and ended. */
  method WriterMayLive(r: Records, posix: bool, o: Oracles) returns (why: Option<Reason>, ended: bool)
    ensures why == MayLive(r, posix, o)
    ensures ended <==> r.launch && !(r.owner && o.owner.MayRun?) && !r.bootstrap && o.token && o.holdersEnded
  {
    ended := false;
    if !r.launch { return None, false; }
    if r.owner && o.owner.MayRun? { return Some(OwnerMayLive(o.owner.why)), false; }
    if r.bootstrap {
      if o.bootstrap.MayRun? { return Some(BootstrapMayLive(o.bootstrap.why)), false; }
      if posix {
        if o.thisBoot.None? { return Some(BootUnknown), false; }
        if o.thisBoot.value {
          if !o.groupNamed { return Some(RecordUnreadable), false; }
          if o.members.None? { return Some(ScanUnreadable), false; }
          if o.members.value != [] { return Some(MemberAlive(o.members.value[0])), false; }
        }
      }
    } else {
      if !o.token { return Some(LaunchUnreadable), false; }
      if !o.holdersEnded { return Some(UnreleasedUnproven), false; }
      ended := true;
    }
    var i := 0;
    while i < r.survivors
      invariant 0 <= i <= r.survivors
      invariant FirstSurvivor(o, 0, r.survivors) == FirstSurvivor(o, i, r.survivors)
    {
      if o.survivors(i).MayRun? { return Some(SurvivorMayLive(o.survivors(i).why)), ended; }
      i := i + 1;
    }
    why := None;
  }

  lemma {:induction false} SurvivorsAll(o: Oracles, i: nat, n: nat)
    requires i <= n
    ensures FirstSurvivor(o, i, n).None? <==> forall k | i <= k < n :: o.survivors(k).Ended?
    decreases n - i
  {
    if i < n { SurvivorsAll(o, i + 1, n); }
  }

  /** A staging is let go exactly when nothing was launched, or every oracle it asks gives a positive end: what cannot
      be told keeps it. */
  lemma UnknownKeeps(r: Records, posix: bool, o: Oracles)
    ensures MayLive(r, posix, o).None? <==>
      || !r.launch
      || (&& (r.owner ==> o.owner.Ended?)
          && (r.bootstrap ==> o.bootstrap.Ended?)
          && (r.bootstrap && posix ==>
                o.thisBoot == Some(false) || (o.thisBoot == Some(true) && o.groupNamed && o.members == Some([])))
          && (!r.bootstrap ==> o.token && o.holdersEnded)
          && (forall k | 0 <= k < r.survivors :: o.survivors(k).Ended?))
  {
    SurvivorsAll(o, 0, r.survivors);
  }

  /** The launch is recorded and its owner, if it is, has ended. */
  ghost predicate Asked(r: Records, o: Oracles) { r.launch && (r.owner ==> o.owner.Ended?) }

  /** ... and on POSIX the recorded bootstrap has ended too, so its group is asked about. */
  ghost predicate GroupAsked(r: Records, posix: bool, o: Oracles) {
    Asked(r, o) && r.bootstrap && o.bootstrap.Ended? && posix
  }

  /** ... in this very boot. */
  ghost predicate GroupNamed(r: Records, posix: bool, o: Oracles) {
    GroupAsked(r, posix, o) && o.thisBoot == Some(true) && o.groupNamed
  }

  /** Neither a bootstrap, recorded or not, nor its group keeps the staging. */
  ghost predicate BootstrapOver(r: Records, posix: bool, o: Oracles) {
    && Asked(r, o)
    && if r.bootstrap then
         && o.bootstrap.Ended?
         && (posix ==> o.thisBoot == Some(false) ||
                       (o.thisBoot == Some(true) && o.groupNamed && o.members == Some([])))
       else o.token && o.holdersEnded
  }

  lemma {:induction false} FirstSurvivorIs(o: Oracles, i: nat, n: nat, k: nat)
    requires i <= k < n && o.survivors(k).MayRun? && forall j | i <= j < k :: o.survivors(j).Ended?
    ensures FirstSurvivor(o, i, n) == Some(SurvivorMayLive(o.survivors(k).why))
    decreases n - i
  {
    if i < k { FirstSurvivorIs(o, i + 1, n, k); }
  }

  /** Why a staging is kept, reason by reason: each is given if and only if its own oracle is the first, in their order,
      not to answer positively. */
  lemma ReasonsExactly(r: Records, posix: bool, o: Oracles)
    ensures var why := MayLive(r, posix, o);
      && (forall w :: why == Some(OwnerMayLive(w)) <==> r.launch && r.owner && o.owner == MayRun(w))
      && (forall w :: why == Some(BootstrapMayLive(w)) <==> Asked(r, o) && r.bootstrap && o.bootstrap == MayRun(w))
      && (why == Some(BootUnknown) <==> GroupAsked(r, posix, o) && o.thisBoot.None?)
      && (why == Some(RecordUnreadable) <==>
            GroupAsked(r, posix, o) && o.thisBoot == Some(true) && !o.groupNamed)
      && (why == Some(ScanUnreadable) <==> GroupNamed(r, posix, o) && o.members.None?)
      && (forall pid :: why == Some(MemberAlive(pid)) <==>
            GroupNamed(r, posix, o) && o.members.Some? && o.members.value != [] && o.members.value[0] == pid)
      && (why == Some(LaunchUnreadable) <==> Asked(r, o) && !r.bootstrap && !o.token)
      && (why == Some(UnreleasedUnproven) <==> Asked(r, o) && !r.bootstrap && o.token && !o.holdersEnded)
      && (why.Some? && why.value.SurvivorMayLive? <==>
            BootstrapOver(r, posix, o) && exists k :: 0 <= k < r.survivors && o.survivors(k).MayRun?)
      && (forall k: nat | k < r.survivors && BootstrapOver(r, posix, o) && o.survivors(k).MayRun?
                          && (forall j | 0 <= j < k :: o.survivors(j).Ended?) ::
            why == Some(SurvivorMayLive(o.survivors(k).why)))
  {
    hide FirstSurvivor;
    SurvivorsAll(o, 0, r.survivors);
    OnlySurvivors(o, 0, r.survivors);
    forall k: nat | k < r.survivors && o.survivors(k).MayRun? && forall j | 0 <= j < k :: o.survivors(j).Ended?
      ensures FirstSurvivor(o, 0, r.survivors) == Some(SurvivorMayLive(o.survivors(k).why))
    {
      FirstSurvivorIs(o, 0, r.survivors, k);
    }
  }

  lemma {:induction false} OnlySurvivors(o: Oracles, i: nat, n: nat)
    requires i <= n
    ensures FirstSurvivor(o, i, n).Some? ==> FirstSurvivor(o, i, n).value.SurvivorMayLive?
    decreases n - i
  {
    if i < n { OnlySurvivors(o, i + 1, n); }
  }

  // ----- the run -----

  datatype Process = Unborn | Waiting | Released | Over

  /** Where the owner's program is; Done once it has given up the staging, and with it the platform's lock. */
  datatype At =
    | Made | OwnerNoted | Launched | Spawned | Owned | BootstrapNoted | Running | Proven | PidDropped | Done

  /** One staging: the owner, the bootstrap it starts and whether it owns it (on Windows a Job that closes with it), how
      many processes the released tree has besides, and whether the machine has rebooted since. gone: removed, or
      renamed into a bundle. */
  datatype State = State(
    posix: bool, at: At, ownerAlive: bool, rebooted: bool, owned: bool, bootstrap: Process, others: nat, files: Records,
    gone: bool)

  datatype Event =
    | NotesOwner(ok: bool)
    | Launches(ok: bool)
    | Spawns(ok: bool)
    | Owns(ok: bool, proven: bool)
    | NotesBootstrap(ok: bool, proven: bool)
    | Stops(proven: bool)         // stopped between its record and its go
    | Releases(delivered: bool)
    | Proves(ok: bool, survivors: nat)
    | DropsPid(ok: bool)
    | DropsLaunch(ok: bool)
    | OwnerDies
    | BootstrapEnds
    | TreeForks
    | TreeExits
    | Reboots
    | Judges(o: Oracles)          // an install's reclaim or a prune, holding the platform's lock

  const NEW := Records(false, false, false, 0)

  function Start(posix: bool): State { State(posix, Made, true, false, false, Unborn, 0, NEW, false) }

  predicate Alive(p: Process) { p.Waiting? || p.Released? }

  predicate Alone(st: State) { !Alive(st.bootstrap) && st.others == 0 }

  /** A process that may write into the staging. */
  predicate WriterLives(st: State) { st.bootstrap.Released? || st.others > 0 }

  predicate HoldsLock(st: State) { st.ownerAlive && st.at != Done }

  /** The owner leaves the staging: it goes with a proven end, and stays with its records otherwise. */
  function GiveUp(st: State, goes: bool): State { st.(at := Done, gone := st.gone || goes) }

  function NoRecords(st: State): State { st.(files := st.files.(bootstrap := false, launch := false)) }

  /** An oracle's positive answer is true; anything else says nothing. The holders of a launch's token are its
      unrecorded bootstrap; a record of another boot was written before a reboot. */
  ghost predicate Truthful(st: State, o: Oracles) {
    && (o.owner.Ended? ==> !st.ownerAlive)
    && (o.bootstrap.Ended? ==> !Alive(st.bootstrap))
    && (o.thisBoot == Some(false) ==> st.rebooted)
    && (o.members == Some([]) ==> !Alive(st.bootstrap) && st.others == 0)
  }

  ghost predicate Enabled(st: State, e: Event) {
    match e
    case NotesOwner(_) => HoldsLock(st) && st.at.Made?
    case Launches(_) => HoldsLock(st) && st.at.OwnerNoted?
    case Spawns(_) => HoldsLock(st) && st.at.Launched?
    case Owns(_, proven) => HoldsLock(st) && st.at.Spawned? && (proven ==> !Alive(st.bootstrap))
    case NotesBootstrap(_, proven) => HoldsLock(st) && st.at.Owned? && (proven ==> Alone(st))
    case Stops(proven) => HoldsLock(st) && st.at.BootstrapNoted? && (proven ==> Alone(st))
    case Releases(delivered) => HoldsLock(st) && st.at.BootstrapNoted? && (delivered ==> st.bootstrap.Waiting?)
    case Proves(ok, _) => HoldsLock(st) && st.at.Running? && (ok ==> Alone(st))
    case DropsPid(_) => HoldsLock(st) && st.at.Proven?
    case DropsLaunch(_) => HoldsLock(st) && st.at.PidDropped?
    case OwnerDies => st.ownerAlive
    case BootstrapEnds => Alive(st.bootstrap)
    case TreeForks => WriterLives(st)
    case TreeExits => st.others > 0
    case Reboots => true
    case Judges(o) => !HoldsLock(st) && !st.gone && Truthful(st, o)
  }

  function Step(st: State, e: Event): State {
    match e
    case NotesOwner(ok) => if ok then st.(at := OwnerNoted, files := st.files.(owner := true)) else GiveUp(st, true)
    case Launches(ok) => if ok then st.(at := Launched, files := st.files.(launch := true)) else GiveUp(st, true)
    case Spawns(ok) => if ok then st.(at := Spawned, bootstrap := Waiting) else GiveUp(NoRecords(st), true)
    case Owns(ok, proven) =>
      if ok then st.(at := Owned, owned := true) else GiveUp(if proven then NoRecords(st) else st, proven)
    case NotesBootstrap(ok, proven) =>
      if ok then st.(at := BootstrapNoted, files := st.files.(bootstrap := true))
      else GiveUp(if proven then NoRecords(st) else st, proven)
    case Stops(proven) => GiveUp(if proven then NoRecords(st) else st, proven)
    case Releases(delivered) => st.(at := Running, bootstrap := if delivered then Released else st.bootstrap)
    case Proves(ok, survivors) =>
      if ok then st.(at := Proven) else GiveUp(st.(files := st.files.(survivors := survivors)), false)
    case DropsPid(ok) => st.(at := PidDropped, files := st.files.(bootstrap := st.files.bootstrap && !ok))
    case DropsLaunch(ok) => GiveUp(st.(files := st.files.(launch := st.files.launch && !ok)), true)
    case OwnerDies =>
      if st.posix || !st.owned then st.(ownerAlive := false)
      else st.(ownerAlive := false, bootstrap := if Alive(st.bootstrap) then Over else st.bootstrap, others := 0)
    case BootstrapEnds => st.(bootstrap := Over)
    case TreeForks => st.(others := st.others + 1)
    case TreeExits => st.(others := if st.others > 0 then st.others - 1 else 0)
    case Reboots =>
      st.(ownerAlive := false, rebooted := true, others := 0,
          bootstrap := if Alive(st.bootstrap) then Over else st.bootstrap)
    case Judges(o) =>
      var ends := st.files.launch && !(st.files.owner && o.owner.MayRun?) && !st.files.bootstrap && o.token
        && o.holdersEnded;
      var after := if ends && Alive(st.bootstrap) then st.(bootstrap := Over) else st;
      if MayLive(st.files, st.posix, o).None? then after.(gone := true) else after
  }

  function After(st: State, run: seq<Event>): State {
    if run == [] then st else Step(After(st, run[..|run| - 1]), run[|run| - 1])
  }

  ghost predicate Possible(st: State, run: seq<Event>) {
    run == [] || (Possible(st, run[..|run| - 1]) && Enabled(After(st, run[..|run| - 1]), run[|run| - 1]))
  }

  // ----- the invariant -----

  /** The order on disk: no launch before the owner's record, no released process before the bootstrap's. */
  ghost predicate OnDisk(st: State) {
    && (st.files.launch ==> st.files.owner)
    && (st.at.OwnerNoted? ==> st.files.owner)
    && ((st.at.Launched? || st.at.Spawned? || st.at.Owned? || st.at.BootstrapNoted? || st.at.Running?) ==>
        st.files.launch)
    && ((st.at.BootstrapNoted? || st.at.Running?) ==> st.files.bootstrap)
    && (WriterLives(st) ==> st.files.owner && st.files.launch && st.files.bootstrap)
    && (st.bootstrap.Waiting? && !st.gone ==> st.files.launch)
  }

  ghost predicate Inv(st: State) {
    && OnDisk(st)
    && ((st.at.Made? || st.at.OwnerNoted? || st.at.Launched?) ==> st.bootstrap.Unborn?)
    && ((st.at.Owned? || st.at.BootstrapNoted? || st.at.Running?) ==> st.owned)
    && (WriterLives(st) ==> st.owned && (st.at.Running? || st.at.Done?))
    && ((st.at.Proven? || st.at.PidDropped?) ==> Alone(st))
    && (st.gone ==> !WriterLives(st) && !HoldsLock(st))
    && (st.rebooted ==> !st.ownerAlive && Alone(st))
    && (!st.posix && st.owned && !st.ownerAlive ==> Alone(st))
  }

  /** Whoever judges a staging that is let go finds no writer there. */
  lemma LetGoIsOver(st: State, o: Oracles)
    requires Inv(st) && Enabled(st, Judges(o)) && MayLive(st.files, st.posix, o).None?
    ensures !WriterLives(st)
  {
    UnknownKeeps(st.files, st.posix, o);
  }

  lemma JudgementKeepsInv(st: State, o: Oracles)
    requires Inv(st) && Enabled(st, Judges(o))
    ensures Inv(Step(st, Judges(o)))
  {
    if MayLive(st.files, st.posix, o).None? { LetGoIsOver(st, o); }
  }

  lemma StepKeepsInv(st: State, e: Event)
    requires Inv(st) && Enabled(st, e)
    ensures Inv(Step(st, e))
  {
    match e
    case Judges(o) => JudgementKeepsInv(st, o);
    case OwnerDies =>
    case Reboots =>
    case BootstrapEnds =>
    case TreeForks =>
    case TreeExits =>
    case _ => OwnerKeepsInv(st, e);
  }

  lemma OwnerKeepsInv(st: State, e: Event)
    requires Inv(st) && Enabled(st, e)
    requires !e.Judges? && !e.OwnerDies? && !e.Reboots? && !e.BootstrapEnds? && !e.TreeForks? && !e.TreeExits?
    ensures Inv(Step(st, e))
  {
    hide MayLive;
  }

  lemma {:induction false} RunKeepsInv(st: State, run: seq<Event>)
    requires Inv(st) && Possible(st, run)
    ensures Inv(After(st, run))
  {
    if run != [] {
      var n := |run| - 1;
      RunKeepsInv(st, run[..n]);
      StepKeepsInv(After(st, run[..n]), run[n]);
    }
  }

  // ----- what it is for -----

  /** Wherever the owner died: what may write is named by the records, so that the next judgement can find it. */
  lemma WritersAreRecorded(posix: bool, run: seq<Event>)
    requires Possible(Start(posix), run)
    ensures var st := After(Start(posix), run);
      WriterLives(st) ==> st.files.owner && st.files.launch && st.files.bootstrap
  {
    RunKeepsInv(Start(posix), run);
  }

  lemma GoneStays(st: State, e: Event)
    requires Inv(st) && st.gone && Enabled(st, e)
    ensures Step(st, e).gone
  {
  }

  lemma {:induction false} GoneForGood(st: State, run: seq<Event>)
    requires Inv(st) && st.gone && Possible(st, run)
    ensures After(st, run).gone && !WriterLives(After(st, run))
  {
    RunKeepsInv(st, run);
    if run != [] {
      var n := |run| - 1;
      GoneForGood(st, run[..n]);
      RunKeepsInv(st, run[..n]);
      GoneStays(After(st, run[..n]), run[n]);
    }
  }

  /** A staging that went, by its owner or by any judgement, wherever the owner died: no writer of it lives, then or
      ever after. */
  lemma GoneMeansOver(posix: bool, before: seq<Event>, after: seq<Event>)
    requires Possible(Start(posix), before) && After(Start(posix), before).gone
    requires Possible(After(Start(posix), before), after)
    ensures !WriterLives(After(After(Start(posix), before), after))
  {
    RunKeepsInv(Start(posix), before);
    GoneForGood(After(Start(posix), before), after);
  }

  /** What a judgement ends was never released: it had no input yet, and started nothing. */
  lemma JudgementEndsOnlyUnreleased(posix: bool, run: seq<Event>, o: Oracles)
    requires Possible(Start(posix), run) && Enabled(After(Start(posix), run), Judges(o))
    ensures var st := After(Start(posix), run);
      Step(st, Judges(o)).bootstrap != st.bootstrap ==> st.bootstrap.Waiting? && st.others == 0
  {
    RunKeepsInv(Start(posix), run);
  }

  /** One judgement that lets a staging go: no writer of it lives, then or ever after. */
  lemma JudgedGoneIsOver(posix: bool, run: seq<Event>, o: Oracles, after: seq<Event>)
    requires var st := After(Start(posix), run);
      Possible(Start(posix), run) && Enabled(st, Judges(o)) && MayLive(st.files, posix, o).None?
      && Possible(Step(st, Judges(o)), after)
    ensures var st := After(Start(posix), run);
      !WriterLives(st) && !WriterLives(After(Step(st, Judges(o)), after))
  {
    var st := After(Start(posix), run);
    RunKeepsInv(Start(posix), run);
    PosixStays(Start(posix), run);
    LetGoIsOver(st, o);
    StepKeepsInv(st, Judges(o));
    GoneForGood(Step(st, Judges(o)), after);
  }

  lemma {:induction false} PosixStays(st: State, run: seq<Event>)
    ensures After(st, run).posix == st.posix
  {
    hide Step;
    if run != [] {
      var n := |run| - 1;
      PosixStays(st, run[..n]);
      StepKeepsPosix(After(st, run[..n]), run[n]);
    }
  }

  lemma StepKeepsPosix(st: State, e: Event)
    ensures Step(st, e).posix == st.posix
  {
    hide MayLive, Alive;
    match e
    case OwnerDies =>
    case Reboots =>
    case Judges(_) =>
    case _ =>
  }
  // ----- stagings do go -----

  const RUNS_WELL: seq<Event> := [
    NotesOwner(true), Launches(true), Spawns(true), Owns(true, false), NotesBootstrap(true, false), Releases(true),
    TreeForks, TreeExits, BootstrapEnds, Proves(true, 0), DropsPid(true), DropsLaunch(true)]

  /** On Windows the bootstrap ends with its owner. */
  function DiesReleased(posix: bool): seq<Event> {
    RUNS_WELL[..6] + [OwnerDies] + if posix then [BootstrapEnds] else []
  }

  /** Every oracle answers positively. */
  const ALL_OVER := Oracles(Ended, Ended, Some(true), true, Some([]), true, true, (_: nat) => Ended)

  lemma OneMoreEvent(st: State, run: seq<Event>, n: nat)
    requires n < |run|
    ensures After(st, run[..n + 1]) == Step(After(st, run[..n]), run[n])
    ensures Possible(st, run[..n + 1]) <==> Possible(st, run[..n]) && Enabled(After(st, run[..n]), run[n])
  {
    assert run[..n + 1][..n] == run[..n];
  }

  lemma NothingYet(st: State, run: seq<Event>)
    ensures After(st, run[..0]) == st && Possible(st, run[..0])
  {
  }

  lemma ReleasedByOwner(posix: bool, run: seq<Event>)
    requires |run| >= 6 && run[..6] == RUNS_WELL[..6]
    ensures After(Start(posix), run[..6]) ==
      State(posix, Running, true, false, true, Released, 0, Records(true, true, true, 0), false)
    ensures Possible(Start(posix), run[..6])
  {
    hide After, Possible;
    NothingYet(Start(posix), run);
    assert forall i | 0 <= i < 6 :: run[i] == run[..6][i] == RUNS_WELL[i];
    OneMoreEvent(Start(posix), run, 0);
    OneMoreEvent(Start(posix), run, 1);
    OneMoreEvent(Start(posix), run, 2);
    OneMoreEvent(Start(posix), run, 3);
    OneMoreEvent(Start(posix), run, 4);
    OneMoreEvent(Start(posix), run, 5);
  }

  /** A run whose owner sees it through: its staging goes with the proven end, and no records are left. */
  lemma OwnerLetsGo(posix: bool)
    ensures Possible(Start(posix), RUNS_WELL)
    ensures var st := After(Start(posix), RUNS_WELL);
      st.gone && st.at.Done? && !st.files.launch && !st.files.bootstrap && !WriterLives(st)
  {
    hide After, Possible;
    ReleasedByOwner(posix, RUNS_WELL);
    OneMoreEvent(Start(posix), RUNS_WELL, 6);
    OneMoreEvent(Start(posix), RUNS_WELL, 7);
    OneMoreEvent(Start(posix), RUNS_WELL, 8);
    OneMoreEvent(Start(posix), RUNS_WELL, 9);
    OneMoreEvent(Start(posix), RUNS_WELL, 10);
    OneMoreEvent(Start(posix), RUNS_WELL, 11);
    assert RUNS_WELL[..12] == RUNS_WELL;
  }

  /** A run whose owner died over a released bootstrap that then ended: the next judgement that learns so lets the
      staging go. */
  lemma JudgementLetsGo(posix: bool)
    ensures Possible(Start(posix), DiesReleased(posix))
    ensures var st := After(Start(posix), DiesReleased(posix));
      Enabled(st, Judges(ALL_OVER)) && Step(st, Judges(ALL_OVER)).gone
  {
    hide After, Possible;
    var run := DiesReleased(posix);
    assert run[..6] == RUNS_WELL[..6] && run[6] == OwnerDies;
    ReleasedByOwner(posix, run);
    OneMoreEvent(Start(posix), run, 6);
    if posix {
      assert run[7] == BootstrapEnds;
      OneMoreEvent(Start(posix), run, 7);
      assert run[..8] == run;
    } else {
      assert run[..7] == run;
    }
    UnknownKeeps(After(Start(posix), run).files, posix, ALL_OVER);
  }
}
