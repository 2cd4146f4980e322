/** backend/app/part_render.py: the scan for start markers in a G-code stream that arrives in chunks, and the two
    readers that feed it.

    A marker is the prefix "; start printing object, unique label id:", any number of spaces, 1 to 10 digits and one
    byte that is not a digit. The scan keeps the last 96 bytes of what it has seen. */
module MarkerScanning {
  import opened Options

  type Byte = b: int | 0 <= b < 256

  const TAIL_BYTES := 96
  const PREFIX: seq<Byte> := [
    59, 32, 115, 116, 97, 114, 116, 32, 112, 114, 105, 110, 116, 105, 110, 103,
    32, 111, 98, 106, 101, 99, 116, 44, 32, 117, 110, 105, 113, 117, 101, 32,
    108, 97, 98, 101, 108, 32, 105, 100, 58]

  const TEXT := "; start printing object, unique label id:"

  /** The prefix is that text. */
  lemma PrefixReads()
    ensures |PREFIX| == |TEXT| && forall i | 0 <= i < |TEXT| :: PREFIX[i] == TEXT[i] as int
  {
    FirstHalfReads();
    SecondHalfReads();
  }

  lemma FirstHalfReads()
    ensures |PREFIX| == |TEXT| == 41 && forall i | 0 <= i < 20 :: PREFIX[i] == TEXT[i] as int
  {
  }

  lemma SecondHalfReads()
    ensures |PREFIX| == |TEXT| == 41 && forall i | 20 <= i < 41 :: PREFIX[i] == TEXT[i] as int
  {
  }

  predicate IsDigit(b: Byte) { 48 <= b <= 57 }

  predicate IsSpace(b: Byte) { b == 32 }

  /** The number a run of digits writes. */
  function Number(digits: seq<Byte>): (n: nat)
    requires forall b | b in digits :: IsDigit(b)
  {
    if digits == [] then 0 else
      assert IsDigit(digits[|digits| - 1]);
      10 * Number(digits[..|digits| - 1]) + (digits[|digits| - 1] as int - 48)
  }

  /** What the pattern means: a marker starts at i, its digits are d[p..q] and d[q] ends them. */
  ghost predicate Marker(d: seq<Byte>, i: int, p: int, q: int) {
    && 0 <= i && i + |PREFIX| <= p < q < |d| && q - p <= 10
    && d[i..i + |PREFIX|] == PREFIX
    && (forall k | i + |PREFIX| <= k < p :: IsSpace(d[k]))
    && (forall k | p <= k < q :: IsDigit(d[k]))
    && !IsDigit(d[q])
  }

  ghost predicate MarkerOf(d: seq<Byte>, i: int, p: int, q: int, id: nat) {
    Marker(d, i, p, q) && Number(d[p..q]) == id
  }

  /** A marker with no space before its digits: there are 1 to 10 of them. */
  lemma TenDigits(digits: seq<Byte>, end: Byte)
    requires (forall b | b in digits :: IsDigit(b)) && !IsDigit(end)
    ensures Marker(PREFIX + digits + [end], 0, 41, 41 + |digits|) <==> 1 <= |digits| <= 10
  {
    var d := PREFIX + digits + [end];
    assert |PREFIX| == 41 && d[0..41] == PREFIX && d[41 + |digits|] == end;
    assert forall k | 41 <= k < 41 + |digits| :: d[k] == digits[k - 41] && d[k] in digits;
  }

  /** One scan of all of d passes a marker of id. */
  ghost predicate Passes(d: seq<Byte>, id: nat) {
    exists i, p, q :: MarkerOf(d, i, p, q, id)
  }

  /** ... one that takes, its ending byte included, at most one byte more than the scan keeps. */
  ghost predicate PassesShort(d: seq<Byte>, id: nat) {
    exists i, p, q :: MarkerOf(d, i, p, q, id) && q - i <= 96
  }

  // ----- one scan of one buffer -----

  function RunEnd(d: seq<Byte>, i: nat, f: Byte -> bool): (e: nat)
    requires i <= |d|
    ensures i <= e <= |d|
    ensures forall k | i <= k < e :: f(d[k])
    ensures e < |d| ==> !f(d[e])
    decreases |d| - i
  {
    if i < |d| && f(d[i]) then RunEnd(d, i + 1, f) else i
  }

  /** The marker that starts at i, when one does. */
  function MarkerAt(d: seq<Byte>, i: nat): (m: Option<(nat, nat)>)
    requires i <= |d|
    ensures m.Some? ==> Marker(d, i, m.value.0, m.value.1)
    ensures forall p, q | Marker(d, i, p, q) :: m == Some((p, q))
  {
    if i + |PREFIX| <= |d| && d[i..i + |PREFIX|] == PREFIX then
      var p := RunEnd(d, i + |PREFIX|, IsSpace);
      var q := RunEnd(d, p, IsDigit);
      OnlyMarkerAt(d, i, p, q);
      if p < q < |d| && q - p <= 10 then Some((p, q)) else None
    else None
  }

  lemma OnlyMarkerAt(d: seq<Byte>, i: nat, p: nat, q: nat)
    requires i + |PREFIX| <= p <= q <= |d|
    requires forall k | i + |PREFIX| <= k < p :: IsSpace(d[k])
    requires p < |d| ==> !IsSpace(d[p])
    requires forall k | p <= k < q :: IsDigit(d[k])
    requires q < |d| ==> !IsDigit(d[q])
    ensures forall p', q' | Marker(d, i, p', q') :: p' == p && q' == q
  {
    forall p', q' | Marker(d, i, p', q') ensures p' == p && q' == q {
      assert IsDigit(d[p']) && !IsDigit(d[q']);
    }
  }

  /** No marker starts inside another: past a match nothing is lost by going on from its end. */
  lemma MarkersDoNotOverlap(d: seq<Byte>, i: int, p: int, q: int, j: int, p': int, q': int)
    requires Marker(d, i, p, q) && Marker(d, j, p', q') && i < j
    ensures q <= j
  {
    assert d[i..i + |PREFIX|] == PREFIX && d[j..j + |PREFIX|] == PREFIX;
    assert forall k | 0 < k < |PREFIX| :: PREFIX[k] != PREFIX[0];
    assert d[j..j + |PREFIX|][0] == d[j] == PREFIX[0];
    assert forall k | i <= k < i + |PREFIX| :: d[k] == PREFIX[k - i];
  }

  /** A window of a stream has exactly the stream's markers that lie whole inside it. */
  lemma MarkerInWindow(s: seq<Byte>, a: nat, b: nat, i: int, p: int, q: int, id: nat)
    requires a <= b <= |s|
    ensures MarkerOf(s[a..b], i, p, q, id) <==> 0 <= i && a + q < b && MarkerOf(s, a + i, a + p, a + q, id)
  {
    var d := s[a..b];
    assert forall k | 0 <= k < b - a :: d[k] == s[a + k];
    assert forall k | a <= k < b :: s[k] == d[k - a];
    if 0 <= i && i + |PREFIX| <= p < q < b - a {
      assert d[i..i + |PREFIX|] == s[a + i..a + i + |PREFIX|];
      assert d[p..q] == s[a + p..a + q];
    }
  }

  /** A marker of id starts before i. */
  ghost predicate ShownBefore(d: seq<Byte>, i: nat, id: nat) {
    exists j, p, q :: j < i && MarkerOf(d, j, p, q, id)
  }

  /** One turn of the search: past i when nothing starts there, else on from the end of what does -- and no marker is
      stepped over. */
  lemma SearchTurn(d: seq<Byte>, i: nat, id: nat)
    requires i < |d|
    ensures MarkerAt(d, i).None? ==> (ShownBefore(d, i + 1, id) <==> ShownBefore(d, i, id))
    ensures MarkerAt(d, i).Some? ==>
              var (p, q) := MarkerAt(d, i).value;
              ShownBefore(d, q, id) <==> ShownBefore(d, i, id) || id == Number(d[p..q])
  {
    if MarkerAt(d, i).Some? {
      var (p, q) := MarkerAt(d, i).value;
      assert MarkerOf(d, i, p, q, Number(d[p..q]));
      forall j, p', q' | MarkerOf(d, j, p', q', id) && i < j ensures q <= j {
        MarkersDoNotOverlap(d, i, p, q, j, p', q');
      }
    }
  }

  ghost predicate ShownAny(d: seq<Byte>, i: nat) { exists id :: ShownBefore(d, i, id) }

  lemma SearchTurnAny(d: seq<Byte>, i: nat)
    requires i < |d|
    ensures MarkerAt(d, i).None? ==> (ShownAny(d, i + 1) <==> ShownAny(d, i))
    ensures MarkerAt(d, i).Some? ==> ShownAny(d, MarkerAt(d, i).value.1)
  {
    var n := if MarkerAt(d, i).Some? then MarkerAt(d, i).value.1 else i + 1;
    if MarkerAt(d, i).Some? {
      SearchTurn(d, i, Number(d[MarkerAt(d, i).value.0..n]));
    } else {
      if ShownAny(d, i) {
        var id :| ShownBefore(d, i, id);
        SearchTurn(d, i, id);
      }
      if ShownAny(d, n) {
        var id :| ShownBefore(d, n, id);
        SearchTurn(d, i, id);
      }
    }
  }

  lemma ShownAtEnds(d: seq<Byte>, id: nat)
    ensures ShownBefore(d, |d|, id) <==> Passes(d, id)
    ensures !ShownBefore(d, 0, id)
  {
  }

  // ----- the scan over chunks -----

  function Flat(chunks: seq<seq<Byte>>): seq<Byte> {
    if chunks == [] then [] else Flat(chunks[..|chunks| - 1]) + chunks[|chunks| - 1]
  }

  function Tail(s: seq<Byte>): (t: seq<Byte>)
    ensures |t| <= TAIL_BYTES && |t| <= |s| && (|t| < TAIL_BYTES ==> t == s)
  {
    if |s| <= TAIL_BYTES then s else s[|s| - TAIL_BYTES..]
  }

  /** What the scan looks at when the last of these chunks arrives. */
  function Window(chunks: seq<seq<Byte>>): seq<Byte>
    requires chunks != []
  {
    Tail(Flat(chunks[..|chunks| - 1])) + chunks[|chunks| - 1]
  }

  /** Some chunk's window shows a marker of id. */
  ghost predicate Sees(chunks: seq<seq<Byte>>, id: nat) {
    chunks != [] && (Sees(chunks[..|chunks| - 1], id) || Passes(Window(chunks), id))
  }

  lemma TailOfConcat(x: seq<Byte>, y: seq<Byte>)
    ensures var a := |x| - |Tail(x)|; 0 <= a && (x + y)[a..|x + y|] == Tail(x) + y
    ensures (x + y)[0..|x|] == x
  {
  }

  lemma MarkerBounds(d: seq<Byte>, i: int, p: int, q: int, id: nat)
    requires MarkerOf(d, i, p, q, id)
    ensures 0 <= i < p < q < |d|
  {
  }

  /** The markers of x + y that end in x are those of x; those that start in its tail or later are those of the tail
      and y. */
  lemma MarkerOfConcat(x: seq<Byte>, y: seq<Byte>, i: int, p: int, q: int, id: nat)
    ensures MarkerOf(x, i, p, q, id) <==> 0 <= i && q < |x| && MarkerOf(x + y, i, p, q, id)
    ensures var a := |x| - |Tail(x)|;
            MarkerOf(Tail(x) + y, i - a, p - a, q - a, id) <==> a <= i && MarkerOf(x + y, i, p, q, id)
  {
    hide MarkerOf;
    var s, a := x + y, |x| - |Tail(x)|;
    if MarkerOf(s, i, p, q, id) { MarkerBounds(s, i, p, q, id); }
    TailOfConcat(x, y);
    MarkerInWindow(s, 0, |x|, i, p, q, id);
    MarkerInWindow(s, a, |s|, i - a, p - a, q - a, id);
  }

  /** Nothing is invented: what the scan sees, one scan of the whole stream passes. */
  lemma {:induction false} SeesOnlyPassed(chunks: seq<seq<Byte>>, id: nat)
    requires Sees(chunks, id)
    ensures Passes(Flat(chunks), id)
  {
    hide MarkerOf, Tail;
    var init, last := chunks[..|chunks| - 1], chunks[|chunks| - 1];
    var before := Flat(init);
    if Sees(init, id) {
      SeesOnlyPassed(init, id);
      var i, p, q :| MarkerOf(before, i, p, q, id);
      MarkerOfConcat(before, last, i, p, q, id);
    } else {
      var a := |before| - |Tail(before)|;
      var i, p, q :| MarkerOf(Tail(before) + last, i, p, q, id);
      MarkerOfConcat(before, last, i + a, p + a, q + a, id);
    }
  }

  /** Nothing short is missed, however the stream is cut. */
  lemma {:induction false} SeesEveryShort(chunks: seq<seq<Byte>>, id: nat, i: int, p: int, q: int)
    requires MarkerOf(Flat(chunks), i, p, q, id) && q - i <= TAIL_BYTES
    ensures Sees(chunks, id)
  {
    hide MarkerOf, Tail;
    MarkerBounds(Flat(chunks), i, p, q, id);
    if chunks != [] {
      var init, last := chunks[..|chunks| - 1], chunks[|chunks| - 1];
      var before := Flat(init);
      MarkerOfConcat(before, last, i, p, q, id);
      if q < |before| {
        SeesEveryShort(init, id, i, p, q);
      } else {
        var a := |before| - |Tail(before)|;
        assert MarkerOf(Window(chunks), i - a, p - a, q - a, id);
      }
    }
  }

  function Singles(s: seq<Byte>): (chunks: seq<seq<Byte>>)
    ensures Flat(chunks) == s && |chunks| == |s|
  {
    if s == [] then [] else Singles(s[..|s| - 1]) + [[s[|s| - 1]]]
  }

  /** Cut into single bytes, the scan sees the short markers and no other. */
  lemma {:induction false} SinglesSeeOnlyShort(s: seq<Byte>, id: nat)
    requires Sees(Singles(s), id)
    ensures PassesShort(s, id)
  {
    hide MarkerOf, Tail;
    var init, last := s[..|s| - 1], [s[|s| - 1]];
    var chunks := Singles(s);
    assert chunks[..|chunks| - 1] == Singles(init);
    assert s == init + last && Window(chunks) == Tail(init) + last;
    if Sees(Singles(init), id) {
      SinglesSeeOnlyShort(init, id);
      var i, p, q :| MarkerOf(init, i, p, q, id) && q - i <= TAIL_BYTES;
      MarkerOfConcat(init, last, i, p, q, id);
      assert MarkerOf(s, i, p, q, id);
    } else {
      var a := |init| - |Tail(init)|;
      var i, p, q :| MarkerOf(Tail(init) + last, i, p, q, id);
      MarkerBounds(Tail(init) + last, i, p, q, id);
      MarkerOfConcat(init, last, i + a, p + a, q + a, id);
      assert MarkerOf(s, i + a, p + a, q + a, id);
    }
  }

  /** Exactly which ids are found however the stream is cut: those absent, and those with a short marker. */
  lemma FoundInEveryCutExactly(s: seq<Byte>, id: nat)
    ensures (forall chunks | Flat(chunks) == s :: Sees(chunks, id) <==> Passes(s, id)) <==>
              (Passes(s, id) ==> PassesShort(s, id))
  {
    if Passes(s, id) ==> PassesShort(s, id) {
      forall chunks | Flat(chunks) == s ensures Sees(chunks, id) <==> Passes(s, id) {
        if Passes(s, id) {
          var i, p, q :| MarkerOf(s, i, p, q, id) && q - i <= TAIL_BYTES;
          SeesEveryShort(chunks, id, i, p, q);
        }
        if Sees(chunks, id) { SeesOnlyPassed(chunks, id); }
      }
    } else {
      var chunks := Singles(s);
      if Sees(chunks, id) { SinglesSeeOnlyShort(s, id); }
      assert Flat(chunks) == s && Passes(s, id) && !Sees(chunks, id);
    }
  }

  // ----- one cut of the stream, and the readers' own -----

  /** Where the chunk that holds byte q begins. */
  function CutBefore(chunks: seq<seq<Byte>>, q: int): nat {
    if chunks == [] then 0
    else
      var init := chunks[..|chunks| - 1];
      if q < |Flat(init)| then CutBefore(init, q) else |Flat(init)|
  }

  /** The marker begins no further before the chunk of its ending byte than the scan keeps. */
  ghost predicate Caught(chunks: seq<seq<Byte>>, i: int, p: int, q: int, id: nat) {
    MarkerOf(Flat(chunks), i, p, q, id) && CutBefore(chunks, q) - i <= 96
  }

  ghost predicate CaughtOne(chunks: seq<seq<Byte>>, id: nat) { exists i, p, q :: Caught(chunks, i, p, q, id) }

  /** One cut: an id is found if and only if some marker of it is caught. */
  lemma {:induction false} SeesExactly(chunks: seq<seq<Byte>>, id: nat)
    ensures Sees(chunks, id) <==> CaughtOne(chunks, id)
  {
    hide MarkerOf, Tail;
    if chunks == [] {
      forall i, p, q ensures !Caught(chunks, i, p, q, id) {
        if MarkerOf([], i, p, q, id) { MarkerBounds([], i, p, q, id); }
      }
    } else {
      var init := chunks[..|chunks| - 1];
      SeesExactly(init, id);
      if Sees(chunks, id) { SeenIsCaught(chunks, id); }
      if i, p, q :| Caught(chunks, i, p, q, id) { CaughtIsSeen(chunks, i, p, q, id); }
    }
  }

  lemma SeenIsCaught(chunks: seq<seq<Byte>>, id: nat)
    requires chunks != [] && Sees(chunks, id)
    requires var init := chunks[..|chunks| - 1]; Sees(init, id) ==> CaughtOne(init, id)
    ensures CaughtOne(chunks, id)
  {
    hide MarkerOf, Tail;
    var init, last := chunks[..|chunks| - 1], chunks[|chunks| - 1];
    var before := Flat(init);
    if Sees(init, id) {
      var i, p, q :| Caught(init, i, p, q, id);
      MarkerBounds(before, i, p, q, id);
      MarkerOfConcat(before, last, i, p, q, id);
      assert Caught(chunks, i, p, q, id);
    } else {
      var a := |before| - |Tail(before)|;
      var i, p, q :| MarkerOf(Tail(before) + last, i, p, q, id);
      MarkerBounds(Tail(before) + last, i, p, q, id);
      MarkerOfConcat(before, last, i + a, p + a, q + a, id);
      CutIsEarly(chunks, q + a);
      TailBound(before);
      assert Caught(chunks, i + a, p + a, q + a, id);
    }
  }

  lemma CaughtIsSeen(chunks: seq<seq<Byte>>, i: int, p: int, q: int, id: nat)
    requires chunks != [] && Caught(chunks, i, p, q, id)
    requires var init := chunks[..|chunks| - 1]; Caught(init, i, p, q, id) ==> Sees(init, id)
    ensures Sees(chunks, id)
  {
    hide MarkerOf, Tail;
    var init, last := chunks[..|chunks| - 1], chunks[|chunks| - 1];
    var before := Flat(init);
    MarkerBounds(Flat(chunks), i, p, q, id);
    MarkerOfConcat(before, last, i, p, q, id);
    if q >= |before| {
      var a := |before| - |Tail(before)|;
      TailBound(before);
      assert MarkerOf(Window(chunks), i - a, p - a, q - a, id);
    }
  }

  lemma TailBound(s: seq<Byte>)
    ensures |s| - |Tail(s)| == if |s| <= TAIL_BYTES then 0 else |s| - TAIL_BYTES
  {
  }

  lemma {:induction false} CutIsEarly(chunks: seq<seq<Byte>>, q: int)
    requires chunks != []
    ensures CutBefore(chunks, q) <= |Flat(chunks[..|chunks| - 1])|
  {
    var init := chunks[..|chunks| - 1];
    if init != [] && q < |Flat(init)| {
      CutIsEarly(init, q);
      assert Flat(init) == Flat(init[..|init| - 1]) + init[|init| - 1];
    }
  }

  const BLOCK := 0x10_0000

  /** What reads of a block each give of a stream. */
  function Blocks(s: seq<Byte>): (chunks: seq<seq<Byte>>)
    ensures Flat(chunks) == s
  {
    if s == [] then [] else
      var n := (|s| - 1) / BLOCK * BLOCK;
      var chunks := Blocks(s[..n]) + [s[n..]];
      assert chunks[..|chunks| - 1] == Blocks(s[..n]);
      chunks
  }

  lemma {:induction false} BlocksCut(s: seq<Byte>, q: int)
    requires 0 <= q < |s|
    ensures CutBefore(Blocks(s), q) == q / BLOCK * BLOCK
  {
    hide Blocks;
    LastBlockOf(s);
    var n := (|s| - 1) / BLOCK * BLOCK;
    var chunks := Blocks(s);
    assert chunks[..|chunks| - 1] == Blocks(s[..n]);
    assert Flat(Blocks(s[..n])) == s[..n];
    assert CutBefore(chunks, q) == if q < n then CutBefore(Blocks(s[..n]), q) else n;
    if q < n { BlocksCut(s[..n], q); } else { LastBlock(|s|, q); }
  }

  lemma LastBlock(size: nat, q: int)
    requires (size - 1) / BLOCK * BLOCK <= q < size
    ensures q / BLOCK == (size - 1) / BLOCK
  {
  }

  /** The readers' own cut, block by block: an id is found if and only if one of its markers begins at most 96 bytes
      before the block of its ending byte. */
  lemma FoundInBlocksExactly(s: seq<Byte>, id: nat)
    ensures Sees(Blocks(s), id) <==>
      exists i, p, q :: MarkerOf(s, i, p, q, id) && q / 1_048_576 * 1_048_576 - i <= 96
  {
    hide MarkerOf, Sees, Blocks;
    SeesExactly(Blocks(s), id);
    forall i, p, q | MarkerOf(s, i, p, q, id)
      ensures Caught(Blocks(s), i, p, q, id) <==> q / 1_048_576 * 1_048_576 - i <= 96
    {
      MarkerBounds(s, i, p, q, id);
      BlocksCut(s, q);
    }
    if i, p, q :| Caught(Blocks(s), i, p, q, id) { assert MarkerOf(s, i, p, q, id); }
  }

  /** A stream whose only marker has 96 spaces or more, up to its digit and what ends it. */
  function UpToDigit(pad: seq<Byte>, spaces: seq<Byte>): seq<Byte> { pad + PREFIX + spaces }

  const SEVEN: seq<Byte> := [55, 10]

  lemma OnlyMarker(pad: seq<Byte>, spaces: seq<Byte>, i: int, p: int, q: int)
    requires PREFIX[0] !in pad && forall b | b in spaces :: IsSpace(b)
    ensures var first := UpToDigit(pad, spaces);
      Marker(first + SEVEN, i, p, q) <==> i == |pad| && p == |first| && q == |first| + 1
  {
    var first := UpToDigit(pad, spaces);
    var s := first + SEVEN;
    assert s[|pad|..|pad| + |PREFIX|] == PREFIX;
    assert forall k | 0 < k < |PREFIX| :: PREFIX[k] != PREFIX[0];
    forall k | 0 <= k < |s| && k != |pad| ensures s[k] != PREFIX[0] {
      if k < |pad| { assert s[k] == pad[k] && pad[k] in pad; }
      if |pad| < k < |pad| + |PREFIX| { assert s[k] == PREFIX[k - |pad|]; }
      if |pad| + |PREFIX| <= k < |first| {
        assert s[k] == spaces[k - |pad| - |PREFIX|] && s[k] in spaces;
      }
      if |first| <= k { assert s[k] == SEVEN[k - |first|]; }
    }
    forall k | |pad| + |PREFIX| <= k < |first| ensures IsSpace(s[k]) {
      assert s[k] == spaces[k - |pad| - |PREFIX|];
    }
    OnlyMarkerAt(s, |pad|, |first|, |first| + 1);
    if Marker(s, i, p, q) { assert s[i..i + |PREFIX|][0] == s[i]; }
  }

  /** The failing family: a marker of 96 spaces or more, cut before its digit, passes and is not seen. */
  lemma LongMarkerIsMissed(pad: seq<Byte>, spaces: seq<Byte>)
    requires PREFIX[0] !in pad && |spaces| >= 96 && forall b | b in spaces :: IsSpace(b)
    ensures var first := UpToDigit(pad, spaces);
      Passes(first + SEVEN, 7) && !PassesShort(first + SEVEN, 7) && !Sees([first, SEVEN], 7)
  {
    hide Marker, Sees;
    var first := UpToDigit(pad, spaces);
    var s := first + SEVEN;
    var cut: seq<seq<Byte>> := [first, SEVEN];
    forall i, p, q { OnlyMarker(pad, spaces, i, p, q); }
    var digits: seq<Byte> := [55];
    assert s[|first|..|first| + 1] == digits && Number(digits) == 7 by { assert |digits[..0]| == 0; }
    assert MarkerOf(s, |pad|, |first|, |first| + 1, 7);
    var one: seq<seq<Byte>> := [first];
    assert cut[..1] == one && one[..0] == [] && Flat(one) == first;
    assert Flat(cut) == s;
    SeesExactly(cut, 7);
  }

  /** ... and one a reader cuts so: its first block ends just before the digit. */
  lemma ReadersMissOne()
    ensures exists s :: Passes(s, 7) && !Sees(Blocks(s), 7)
  {
    hide Passes, Sees, Blocks;
    var spaces: seq<Byte> := seq(TAIL_BYTES, _ => 32);
    var pad: seq<Byte> := seq(BLOCK - |PREFIX| - TAIL_BYTES, _ => 10);
    var first := UpToDigit(pad, spaces);
    LongMarkerIsMissed(pad, spaces);
    FirstBlockThenRest(first, SEVEN);
  }

  lemma FirstBlockThenRest(first: seq<Byte>, rest: seq<Byte>)
    requires |first| == BLOCK && 0 < |rest| <= BLOCK
    ensures Blocks(first + rest) == [first, rest]
  {
    hide Blocks;
    OneMoreBlock([], first, 0);
    OneMoreBlock(first, rest, 1);
    assert [] + first == first && Blocks([]) == [] by { NoBlocks(); }
  }

  lemma NoBlocks()
    ensures Blocks([]) == []
  {
  }

  lemma OneMoreBlock(front: seq<Byte>, rest: seq<Byte>, k: nat)
    requires |front| == k * BLOCK && 0 < |rest| <= BLOCK
    ensures Blocks(front + rest) == Blocks(front) + [rest]
  {
    hide Blocks;
    var s := front + rest;
    WholeBlocks(|front|, |rest|, k);
    LastBlockOf(s);
    assert s[..|front|] == front && s[|front|..] == rest;
  }

  lemma LastBlockOf(s: seq<Byte>)
    requires s != []
    ensures var n := (|s| - 1) / BLOCK * BLOCK; Blocks(s) == Blocks(s[..n]) + [s[n..]]
  {
  }

  lemma WholeBlocks(n: nat, r: nat, k: nat)
    requires n == k * BLOCK && 0 < r <= BLOCK
    ensures (n + r - 1) / BLOCK * BLOCK == n
  {
  }

  ghost predicate SeesAny(chunks: seq<seq<Byte>>) { exists id :: Sees(chunks, id) }

  ghost predicate PassesAny(s: seq<Byte>) { exists id :: Passes(s, id) }

  ghost predicate PassesAnyShort(s: seq<Byte>) { exists id :: PassesShort(s, id) }

  /** The same for whether any marker passed at all. */
  lemma AnyFoundInEveryCutExactly(s: seq<Byte>)
    ensures (forall chunks | Flat(chunks) == s :: SeesAny(chunks) <==> PassesAny(s)) <==>
              (PassesAny(s) ==> PassesAnyShort(s))
  {
    if PassesAny(s) ==> PassesAnyShort(s) {
      forall chunks | Flat(chunks) == s ensures SeesAny(chunks) <==> PassesAny(s) {
        if PassesAny(s) {
          var id :| PassesShort(s, id);
          var i, p, q :| MarkerOf(s, i, p, q, id) && q - i <= TAIL_BYTES;
          SeesEveryShort(chunks, id, i, p, q);
        }
        if SeesAny(chunks) {
          var id :| Sees(chunks, id);
          SeesOnlyPassed(chunks, id);
        }
      }
    } else {
      var chunks := Singles(s);
      if SeesAny(chunks) {
        var id :| Sees(chunks, id);
        SinglesSeeOnlyShort(s, id);
      }
      assert Flat(chunks) == s && PassesAny(s) && !SeesAny(chunks);
    }
  }

  lemma TailOfTail(x: seq<Byte>, y: seq<Byte>)
    ensures Tail(Tail(x) + y) == Tail(x + y)
  {
    var a := |x| - |Tail(x)|;
    TailOfConcat(x, y);
    assert (x + y)[a..] == Tail(x) + y;
    if |Tail(x) + y| > TAIL_BYTES {
      assert (x + y)[a..][|Tail(x) + y| - TAIL_BYTES..] == (x + y)[|x + y| - TAIL_BYTES..];
    }
  }

  lemma OneMoreChunk(chunks: seq<seq<Byte>>, chunk: seq<Byte>, id: nat)
    ensures var now := chunks + [chunk];
            && Flat(now) == Flat(chunks) + chunk
            && (Sees(now, id) <==> Sees(chunks, id) || Passes(Tail(Flat(chunks)) + chunk, id))
  {
    hide MarkerOf, Tail;
    var now := chunks + [chunk];
    assert now[..|now| - 1] == chunks;
  }

  lemma OneMoreChunkAny(chunks: seq<seq<Byte>>, chunk: seq<Byte>)
    ensures SeesAny(chunks + [chunk]) <==> SeesAny(chunks) || PassesAny(Tail(Flat(chunks)) + chunk)
  {
    hide MarkerOf, Tail, Sees, Passes;
    forall id { OneMoreChunk(chunks, chunk, id); }
    if id :| Sees(chunks, id) { assert Sees(chunks + [chunk], id); }
    if id :| Passes(Tail(Flat(chunks)) + chunk, id) { assert Sees(chunks + [chunk], id); }
  }

  class MarkerScan {
    const wanted: set<nat>
    var marked: set<nat>
    var anyMarker: bool
    var tail: seq<Byte>
    ghost var chunks: seq<seq<Byte>>  // everything fed

    /** `marked` is exactly the wanted ids seen, `anyMarker` whether any was, and no more than the tail is kept. */
    ghost predicate Valid()
      reads this
    {
      && tail == Tail(Flat(chunks))
      && (forall id :: id in marked <==> id in wanted && Sees(chunks, id))
      && (anyMarker <==> SeesAny(chunks))
    }

    constructor (wanted: set<nat>)
      ensures Valid() && chunks == [] && this.wanted == wanted
    {
      this.wanted := wanted;
      marked, anyMarker, tail, chunks := {}, false, [], [];
    }

    /** The search in one buffer: non-overlapping, from left to right. */
    method Search(data: seq<Byte>)
      modifies this`marked, this`anyMarker
      ensures forall id :: id in marked <==> id in old(marked) || (id in wanted && Passes(data, id))
      ensures anyMarker <==> old(anyMarker) || PassesAny(data)
    {
      hide MarkerOf, ShownBefore;
      forall id ensures !ShownBefore(data, 0, id) && (ShownBefore(data, |data|, id) <==> Passes(data, id)) {
        ShownAtEnds(data, id);
      }
      var i := 0;
      while i < |data|
        invariant 0 <= i <= |data|
        invariant forall id :: id in marked <==> id in old(marked) || (id in wanted && ShownBefore(data, i, id))
        invariant anyMarker <==> old(anyMarker) || ShownAny(data, i)
      {
        SearchTurnAny(data, i);
        var m := MarkerAt(data, i);
        if m.Some? {
          var (p, q) := m.value;
          var id := Number(data[p..q]);
          forall x ensures ShownBefore(data, q, x) <==> ShownBefore(data, i, x) || x == id { SearchTurn(data, i, x); }
          anyMarker := true;
          if id in wanted { marked := marked + {id}; }
          i := q;
        } else {
          forall x ensures ShownBefore(data, i + 1, x) <==> ShownBefore(data, i, x) { SearchTurn(data, i, x); }
          i := i + 1;
        }
      }
    }

    method Feed(chunk: seq<Byte>) returns (passed: seq<Byte>)
      requires Valid()
      modifies this
      ensures Valid() && chunks == old(chunks) + [chunk] && passed == chunk
      ensures |tail| <= 96 && marked <= wanted
    {
      hide MarkerOf, Tail, Sees, Passes;
      var data := tail + chunk;
      Search(data);
      forall id { OneMoreChunk(chunks, chunk, id); }
      OneMoreChunkAny(chunks, chunk);
      TailOfTail(Flat(chunks), chunk);
      tail := Tail(data);
      chunks := chunks + [chunk];
      passed := chunk;
    }
  }

  // ----- the readers that feed it -----

  datatype ReadEnd = Whole | Grew | Short

  /** The raw G-code file. `blocks`: what its reads answer before the empty one that ends it; `cap`: its size. */
  method FileChunks(blocks: seq<seq<Byte>>, cap: nat, scan: MarkerScan)
    returns (end: ReadEnd, passed: seq<seq<Byte>>)
    requires scan.Valid()
    modifies scan
    ensures scan.Valid() && scan.chunks == old(scan.chunks) + passed && passed <= blocks
    ensures end.Whole? <==> |Flat(blocks)| == cap
    ensures end.Grew? <==> |Flat(blocks)| > cap
    ensures !end.Grew? ==> passed == blocks
  {
    hide Sees, Passes, Tail;
    var total, i := 0, 0;
    passed := [];
    while i < |blocks|
      invariant 0 <= i <= |blocks|
      invariant passed == blocks[..i] && total == |Flat(passed)| <= cap
      invariant scan.Valid() && scan.chunks == old(scan.chunks) + passed
    {
      total := total + |blocks[i]|;
      assert blocks[..i + 1][..i] == blocks[..i];
      if total > cap {
        FlatGrows(blocks, i + 1);
        return Grew, passed;
      }
      var chunk := scan.Feed(blocks[i]);
      passed := passed + [chunk];
      i := i + 1;
    }
    assert passed == blocks;
    end := if total != cap then Short else Whole;
  }

  lemma {:induction false} FlatGrows(chunks: seq<seq<Byte>>, n: nat)
    requires n <= |chunks|
    ensures |Flat(chunks[..n])| <= |Flat(chunks)|
  {
    if n == |chunks| {
      assert chunks[..n] == chunks;
    } else {
      FlatGrows(chunks[..|chunks| - 1], n);
      assert chunks[..|chunks| - 1][..n] == chunks[..n];
    }
  }

  /** A ZIP entry: `cap` is the size its directory names; ending below it is no error. */
  method ZipChunks(blocks: seq<seq<Byte>>, cap: nat, scan: MarkerScan)
    returns (end: ReadEnd, passed: seq<seq<Byte>>)
    requires scan.Valid()
    modifies scan
    ensures scan.Valid() && scan.chunks == old(scan.chunks) + passed && passed <= blocks
    ensures end.Whole? <==> |Flat(blocks)| <= cap
    ensures end.Grew? <==> |Flat(blocks)| > cap
    ensures end.Whole? ==> passed == blocks
  {
    hide Sees, Passes, Tail;
    var total, i := 0, 0;
    passed := [];
    while i < |blocks|
      invariant 0 <= i <= |blocks|
      invariant passed == blocks[..i] && total == |Flat(passed)| <= cap
      invariant scan.Valid() && scan.chunks == old(scan.chunks) + passed
    {
      total := total + |blocks[i]|;
      assert blocks[..i + 1][..i] == blocks[..i];
      if total > cap {
        FlatGrows(blocks, i + 1);
        return Grew, passed;
      }
      var chunk := scan.Feed(blocks[i]);
      passed := passed + [chunk];
      i := i + 1;
    }
    assert passed == blocks;
    end := Whole;
  }

  /** A file read whole by a fresh scan: exactly the wanted ids that one scan of the file passes, when each of them has
      a short marker. */
  method ScanFile(blocks: seq<seq<Byte>>, cap: nat, wanted: set<nat>)
    returns (end: ReadEnd, marked: set<nat>, anyMarker: bool)
    ensures end.Whole? <==> |Flat(blocks)| == cap
    ensures end.Whole? ==> forall id :: id in marked <==> id in wanted && CaughtOne(blocks, id)
    ensures end.Whole? ==> forall id | id in wanted && (Passes(Flat(blocks), id) ==> PassesShort(Flat(blocks), id)) ::
                             id in marked <==> Passes(Flat(blocks), id)
    ensures end.Whole? ==> marked <= wanted && forall id | id in marked :: Passes(Flat(blocks), id)
    ensures end.Whole? && (PassesAny(Flat(blocks)) ==> PassesAnyShort(Flat(blocks))) ==>
              (anyMarker <==> PassesAny(Flat(blocks)))
  {
    hide MarkerOf, CaughtOne, Sees, Tail;
    var scan := new MarkerScan(wanted);
    ghost var passed;
    end, passed := FileChunks(blocks, cap, scan);
    marked, anyMarker := scan.marked, scan.anyMarker;
    if end.Whole? {
      assert scan.chunks == blocks;
      forall id | Sees(blocks, id) ensures Passes(Flat(blocks), id) { SeesOnlyPassed(blocks, id); }
      forall id ensures Sees(blocks, id) <==> CaughtOne(blocks, id) { SeesExactly(blocks, id); }
      forall id { FoundInEveryCutExactly(Flat(blocks), id); }
      AnyFoundInEveryCutExactly(Flat(blocks));
    }
  }
}
