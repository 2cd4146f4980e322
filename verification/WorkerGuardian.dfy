/** backend/app/worker_guardian.py: the bootstrap line read byte by byte, the order of launch, spawn, record and
    bootstrap, and the watch on the owner's pipe that ends the tree. The worker modules, JSON and base64 are not part of
    this model: decode gives a line its module and the bytes the child gets, or nothing. */
module WorkerGuardian {
  import opened Options

  type Byte = b: int | 0 <= b < 256

  const NEWLINE: Byte := 10
  const LINE_LIMIT := 98304
  const REFUSED := 2

  // ----- the bootstrap line -----

  /** The line ends with the first newline, and is no longer than the limit. */
  ghost predicate IsLine(input: seq<Byte>, n: int) {
    && 0 < n <= |input| && n <= 98304
    && input[n - 1] == NEWLINE
    && NEWLINE !in input[..n - 1]
  }

  /** The owner's bytes up to its EOF: a line is read exactly when one ends within the limit, and then it is the first;
      nothing past it is consumed. */
  method ReadLine(input: seq<Byte>) returns (line: Option<seq<Byte>>, consumed: nat)
    ensures line.Some? <==> exists n :: IsLine(input, n)
    ensures line.Some? ==> IsLine(input, consumed) && line.value == input[..consumed]
    ensures consumed <= |input| && consumed <= 98305
  {
    var bootstrap: seq<Byte> := [];
    var i := 0;
    while |bootstrap| <= LINE_LIMIT && (bootstrap == [] || bootstrap[|bootstrap| - 1] != NEWLINE)
      invariant 0 <= i <= |input| && bootstrap == input[..i] && i <= LINE_LIMIT + 1
      invariant i > 0 ==> NEWLINE !in input[..i - 1]
      decreases |input| - i
    {
      if i == |input| {
        assert NEWLINE !in input[..i];
        return None, i;
      }
      assert NEWLINE !in input[..i];
      bootstrap := bootstrap + [input[i]];
      i := i + 1;
    }
    if |bootstrap| > LINE_LIMIT { return None, i; }
    assert IsLine(input, i);
    line, consumed := Some(bootstrap), i;
  }

  // ----- launch, spawn, record, bootstrap, watch -----

  /** relays: the child's input stays open, and what the owner sends later is passed on. */
  datatype Worker = Recorded(name: string) | Unrecorded(relays: bool)

  datatype Deed =
    | WritesLaunch | Spawns | WritesRecord | KillsChild | SendsBootstrap(frame: seq<Byte>) | ClosesInput
    | Relays(chunk: seq<Byte>) | EndsTree

  /** What the OS answers: the launch, the spawn, the record and the writing of the i-th chunk can fail; code is how the
      child ends. chunks come from the owner before it dies or the child ends. */
  datatype World = World(
    launches: bool, spawns: bool, records: bool, code: int, windows: bool, chunks: seq<seq<Byte>>, writes: nat -> bool,
    ownerDies: bool)

  predicate Sent(deeds: seq<Deed>) { exists d | d in deeds :: d.SendsBootstrap? }

  /** Wherever the guardian is killed: a recorded worker was spawned only after its launch was on disk, and got its
      bootstrap only after its record was; a child that was killed unrecorded never got it; the watch began after the
      bootstrap. */
  ghost predicate InOrder(deeds: seq<Deed>, w: Worker) {
    && (w.Recorded? && Spawns in deeds ==> WritesLaunch in deeds)
    && (Sent(deeds) ==> Spawns in deeds && KillsChild !in deeds && (w.Recorded? ==> WritesRecord in deeds))
    && (WritesRecord in deeds || KillsChild in deeds ==> Spawns in deeds)
    && (EndsTree in deeds || ClosesInput in deeds ==> Sent(deeds))
    && (forall chunk | Relays(chunk) in deeds :: Sent(deeds) && ClosesInput !in deeds && w == Unrecorded(true))
  }

  ghost predicate AlwaysInOrder(deeds: seq<Deed>, w: Worker) {
    forall n | 0 <= n <= |deeds| :: InOrder(deeds[..n], w)
  }

  function Given(d: Deed): seq<Byte> {
    match d
    case SendsBootstrap(frame) => frame
    case Relays(chunk) => chunk
    case _ => []
  }

  /** The bytes the child's input was given. */
  function Input(deeds: seq<Deed>): seq<Byte> {
    if deeds == [] then [] else
      Input(deeds[..|deeds| - 1]) + Given(deeds[|deeds| - 1])
  }

  /** What the owner sent after the bootstrap, but for the chunks the child would not take. */
  function Relayed(w: World, n: nat): seq<Byte>
    requires n <= |w.chunks|
  {
    if n == 0 then [] else Relayed(w, n - 1) + if w.writes(n - 1) then w.chunks[n - 1] else []
  }

  lemma OneMoreInput(deeds: seq<Deed>, d: Deed)
    ensures Input(deeds + [d]) == Input(deeds) + Given(d)
  {
    assert (deeds + [d])[..|deeds|] == deeds;
  }

  lemma OneMoreDeed(deeds: seq<Deed>, d: Deed, w: Worker)
    requires AlwaysInOrder(deeds, w) && InOrder(deeds + [d], w)
    ensures AlwaysInOrder(deeds + [d], w)
  {
    hide InOrder;
    var all := deeds + [d];
    forall n | 0 <= n <= |all| ensures InOrder(all[..n], w) {
      if n <= |deeds| { assert all[..n] == deeds[..n]; } else { assert all[..n] == all; }
    }
  }

  /** A child's code as the guardian's own. */
  function ExitStatus(code: int, windows: bool): int {
    if windows && code >= 0x8000_0000 then code - 0x1_0000_0000
    else if !windows && code < 0 then 128 - code
    else code
  }

  /** On Windows the same DWORD, and one a C long holds; elsewhere two ends look alike only when one is a signal and the
      other the exit code a shell gives that signal. */
  lemma ExitStatusKeeps(a: int, b: int)
    requires -0x8000_0000 <= a < 0x1_0000_0000 && -0x8000_0000 <= b < 0x1_0000_0000
    ensures -0x8000_0000 <= ExitStatus(a, true) < 0x8000_0000
    ensures (ExitStatus(a, true) - a) % 0x1_0000_0000 == 0
    ensures ExitStatus(a, false) >= 0
    ensures ExitStatus(a, false) == ExitStatus(b, false) <==>
      a == b || (a < 0 && b == 128 - a) || (b < 0 && a == 128 - b)
  {
  }

  /** The bootstrap was sent, the child's input is open and nothing ended yet. */
  ghost predicate Open(deeds: seq<Deed>, w: Worker) {
    InOrder(deeds, w) && Sent(deeds) && ClosesInput !in deeds && EndsTree !in deeds
  }

  lemma RelaysOneMore(deeds: seq<Deed>, chunk: seq<Byte>, w: Worker)
    requires Open(deeds, w) && w == Unrecorded(true)
    ensures Open(deeds + [Relays(chunk)], w)
  {
    var d :| d in deeds && d.SendsBootstrap?;
    assert d in deeds + [Relays(chunk)];
  }

  /** Nothing was done in between but relaying. */
  ghost predicate SameButRelays(done: seq<Deed>, deeds: seq<Deed>) {
    forall d: Deed | !d.Relays? :: d in deeds <==> d in done
  }

  /** The watch of an analysis child: what the owner sends is passed on, and a write that fails is passed over. */
  method Relay(done: seq<Deed>, kind: Worker, w: World) returns (deeds: seq<Deed>)
    requires AlwaysInOrder(done, kind) && Open(done, kind) && kind == Unrecorded(true)
    ensures AlwaysInOrder(deeds, kind) && Open(deeds, kind) && done <= deeds && SameButRelays(done, deeds)
    ensures Input(deeds) == Input(done) + Relayed(w, |w.chunks|)
  {
    hide AlwaysInOrder, Input, Open;
    deeds := done;
    var i := 0;
    while i < |w.chunks|
      invariant 0 <= i <= |w.chunks|
      invariant AlwaysInOrder(deeds, kind) && Open(deeds, kind) && done <= deeds && SameButRelays(done, deeds)
      invariant Input(deeds) == Input(done) + Relayed(w, i)
    {
      if w.writes(i) {
        RelaysOneMore(deeds, w.chunks[i], kind);
        OpenInOrder(deeds + [Relays(w.chunks[i])], kind);
        deeds := Do(deeds, Relays(w.chunks[i]), kind);
      }
      i := i + 1;
    }
  }

  lemma OpenInOrder(deeds: seq<Deed>, w: Worker)
    requires Open(deeds, w)
    ensures InOrder(deeds, w)
  {
  }

  lemma EndsAny(deeds: seq<Deed>, w: Worker)
    requires InOrder(deeds, w) && Sent(deeds)
    ensures InOrder(deeds + [EndsTree], w)
  {
    var d :| d in deeds && d.SendsBootstrap?;
    assert d in deeds + [EndsTree];
  }

  lemma BootstrapOpens(deeds: seq<Deed>, frame: seq<Byte>, w: Worker)
    requires InOrder(deeds, w) && Ready(deeds, w)
    ensures Open(deeds + [SendsBootstrap(frame)], w)
    ensures InOrder(deeds + [SendsBootstrap(frame)] + [ClosesInput], w)
  {
    var all := deeds + [SendsBootstrap(frame)];
    assert SendsBootstrap(frame) in all && SendsBootstrap(frame) in all + [ClosesInput];
  }

  /** The child was spawned, and recorded if it must be, and still waits for its bootstrap. */
  ghost predicate Ready(deeds: seq<Deed>, w: Worker) {
    && Spawns in deeds && KillsChild !in deeds && !Sent(deeds) && EndsTree !in deeds && ClosesInput !in deeds
    && (w.Recorded? ==> WritesLaunch in deeds && WritesRecord in deeds)
  }

  /** From the bootstrap to the end of the child: an analysis child gets what the owner sends later, and the owner's
      EOF ends the tree. */
  method Watch(done: seq<Deed>, frame: seq<Byte>, kind: Worker, w: World) returns (exit: Option<int>, deeds: seq<Deed>)
    requires AlwaysInOrder(done, kind) && InOrder(done, kind) && Ready(done, kind) && Input(done) == []
    ensures AlwaysInOrder(deeds, kind) && SendsBootstrap(frame) in deeds && KillsChild !in deeds
    ensures ClosesInput in deeds <==> kind != Unrecorded(true)
    ensures forall d: Deed | d.WritesLaunch? || d.Spawns? || d.WritesRecord? :: d in deeds <==> d in done
    ensures Input(deeds) == frame + if kind == Unrecorded(true) then Relayed(w, |w.chunks|) else []
    ensures EndsTree in deeds <==> w.ownerDies
    ensures exit == if w.ownerDies && !w.windows then None else Some(ExitStatus(w.code, w.windows))
  {
    hide AlwaysInOrder, Input, InOrder;
    BootstrapOpens(done, frame, kind);
    OpenInOrder(done + [SendsBootstrap(frame)], kind);
    deeds := Do(done, SendsBootstrap(frame), kind);
    if kind == Unrecorded(true) {
      deeds := Relay(deeds, kind, w);
    } else {
      deeds := Do(deeds, ClosesInput, kind);
    }
    assert SendsBootstrap(frame) in deeds;
    AllInOrder(deeds, kind);
    NotKilled(deeds, kind);
    if w.ownerDies {
      EndsAny(deeds, kind);
      deeds := Do(deeds, EndsTree, kind);
      if !w.windows { return None, deeds; }  // the group that is killed is the guardian's own
    }
    exit := Some(ExitStatus(w.code, w.windows));
  }

  lemma NotKilled(deeds: seq<Deed>, w: Worker)
    requires InOrder(deeds, w) && Sent(deeds)
    ensures KillsChild !in deeds
  {
  }

  lemma AllInOrder(deeds: seq<Deed>, w: Worker)
    requires AlwaysInOrder(deeds, w)
    ensures InOrder(deeds, w)
  {
    assert deeds[..|deeds|] == deeds;
  }

  method Do(done: seq<Deed>, d: Deed, w: Worker) returns (deeds: seq<Deed>)
    requires AlwaysInOrder(done, w) && InOrder(done + [d], w)
    ensures deeds == done + [d] && AlwaysInOrder(deeds, w)
    ensures Input(deeds) == Input(done) + Given(d)
  {
    OneMoreDeed(done, d, w);
    OneMoreInput(done, d);
    deeds := done + [d];
  }

  /** The exit, the child's input and the deeds that one worker's bootstrap leads to. */
  ghost predicate Follows(kind: Worker, frame: seq<Byte>, w: World, exit: Option<int>, deeds: seq<Deed>) {
    && AlwaysInOrder(deeds, kind)
    && (Sent(deeds) <==> w.spawns && (kind.Recorded? ==> w.launches && w.records))
    && Input(deeds) == (if !Sent(deeds) then []
                        else frame + if kind == Unrecorded(true) then Relayed(w, |w.chunks|) else [])
    && (EndsTree in deeds <==> Sent(deeds) && w.ownerDies)
    && (Sent(deeds) ==> exit == if w.ownerDies && !w.windows then None else Some(ExitStatus(w.code, w.windows)))
    && (KillsChild in deeds <==> kind.Recorded? && w.launches && w.spawns && !w.records)
    && (KillsChild in deeds ==> exit == Some(REFUSED))
    && (WritesLaunch in deeds <==> kind.Recorded? && w.launches)
    && (Spawns in deeds <==> w.spawns && (kind.Recorded? ==> w.launches))
    && (WritesRecord in deeds <==> kind.Recorded? && w.launches && w.spawns && w.records)
    && (ClosesInput in deeds <==> Sent(deeds) && kind != Unrecorded(true))
    && (!w.spawns && (kind.Recorded? ==> w.launches) ==> exit.None?)
    && (kind.Recorded? && !w.launches ==> exit == Some(REFUSED) && deeds == [])
  }

  /** Everything done for one worker, and the exit code: none when the spawn itself raises, or when the guardian ends
      with its tree. */
  method Start(kind: Worker, frame: seq<Byte>, w: World) returns (exit: Option<int>, deeds: seq<Deed>)
    ensures Follows(kind, frame, w, exit, deeds)
  {
    hide AlwaysInOrder, Relayed, Input;
    deeds := [];
    NothingDone(kind);
    if kind.Recorded? {
      if !w.launches { return Some(REFUSED), deeds; }
      deeds := Do(deeds, WritesLaunch, kind);
    }
    if !w.spawns { return None, deeds; }
    deeds := Do(deeds, Spawns, kind);
    if kind.Recorded? {
      if !w.records {
        deeds := Do(deeds, KillsChild, kind);
        return Some(REFUSED), deeds;
      }
      deeds := Do(deeds, WritesRecord, kind);
    }
    exit, deeds := Watch(deeds, frame, kind, w);
  }

  /** The exit code of a guardian whose child got its bootstrap and ended first: off Windows the child's own code, or
      128 and the signal that killed it; on Windows the child's DWORD, as the signed number that exits with it. */
  lemma ExitsAsChild(kind: Worker, frame: seq<Byte>, w: World, exit: Option<int>, deeds: seq<Deed>)
    requires Follows(kind, frame, w, exit, deeds) && Sent(deeds) && !w.ownerDies
    requires -0x8000_0000 <= w.code < 0x1_0000_0000
    ensures !w.windows && w.code >= 0 ==> exit == Some(w.code)
    ensures !w.windows && w.code < 0 ==> var signal := -w.code; exit == Some(128 + signal)
    ensures w.windows && w.code < 0x8000_0000 ==> exit == Some(w.code)
    ensures w.windows && w.code >= 0x8000_0000 ==> exit == Some(w.code - 0x1_0000_0000)
  {
    hide AlwaysInOrder;
  }

  /** The guardian whose owner died first: off Windows it ends with its group and gives no code; on Windows it gives the
      killed child's. One that refused, or could not record its child, exits 2. */
  lemma ExitsOtherwise(kind: Worker, frame: seq<Byte>, w: World, exit: Option<int>, deeds: seq<Deed>)
    requires Follows(kind, frame, w, exit, deeds)
    ensures Sent(deeds) && w.ownerDies && !w.windows ==> exit.None?
    ensures Sent(deeds) && w.ownerDies && w.windows && w.code < 0x8000_0000 ==> exit == Some(w.code)
    ensures kind.Recorded? && !w.launches ==> exit == Some(2) && deeds == []
    ensures kind.Recorded? && w.launches && w.spawns && !w.records ==>
              exit == Some(2) && KillsChild in deeds && !Sent(deeds)
    ensures w.spawns && (kind.Recorded? ==> w.launches && w.records) ==> Sent(deeds)
  {
    hide AlwaysInOrder;
  }

  /** The guardian's main: the exit code, the worker it started, if any, and the deeds. */
  method Guard(input: seq<Byte>, decode: seq<Byte> -> Option<(Worker, seq<Byte>)>, w: World)
    returns (exit: Option<int>, worker: Option<Worker>, deeds: seq<Deed>)
    ensures worker.Some? <==> exists n :: IsLine(input, n) && decode(input[..n]).Some?
    ensures worker.None? ==> exit == Some(REFUSED) && deeds == []
    ensures worker.Some? ==> forall n | IsLine(input, n) ::
      && decode(input[..n]).Some? && worker == Some(decode(input[..n]).value.0)
      && Follows(worker.value, decode(input[..n]).value.1, w, exit, deeds)
  {
    hide Follows;
    var line, n := ReadLine(input);
    if line.None? { return Some(REFUSED), None, []; }
    OneLine(input, n);
    var decoded := decode(line.value);
    if decoded.None? { return Some(REFUSED), None, []; }
    var (kind, frame) := decoded.value;
    worker := Some(kind);
    exit, deeds := Start(kind, frame, w);
  }

  lemma NothingDone(w: Worker)
    ensures AlwaysInOrder([], w) && Input([]) == []
  {
  }

  /** The line is one: no other length ends with the first newline. */
  lemma OneLine(input: seq<Byte>, n: nat)
    requires IsLine(input, n)
    ensures forall m | IsLine(input, m) :: m == n
  {
    forall m | IsLine(input, m) ensures m == n {
      if m < n {
        NotBefore(input, n, m - 1);
      } else if n < m {
        NotBefore(input, m, n - 1);
      }
    }
  }

  lemma NotBefore(input: seq<Byte>, n: int, k: int)
    requires IsLine(input, n) && 0 <= k < n - 1
    ensures input[k] != NEWLINE
  {
    assert input[..n - 1][k] == input[k];
  }
}
