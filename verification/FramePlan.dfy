/** scripts/workshop_stand/capture_serve.py: the scroll offsets that cover a container of one height seen through a view
    of another. */
module FramePlan {
  const FRAME_OVERLAP := 80
  const FRAME_LIMIT := 40
  const LEAST_STEP := 200
  const SLACK := 4

  function Max(a: int, b: int): int { if a < b then b else a }

  function Bottom(height: int, view: int): nat { Max(0, height - view) }

  function StepOf(view: int, overlap: int): nat { Max(LEAST_STEP, view - overlap) }

  /** The frames of a full plan: one at each step before the bottom, and one at the bottom. */
  function Frames(bottom: nat, step: nat): (n: nat)
    requires step > 0
    ensures n >= 1 && (n - 2) * step < bottom <= (n - 1) * step
  {
    var k := (bottom + step - 1) / step;
    assert (k - 1) * step < bottom <= k * step;
    k + 1
  }

  /** Offset i of a full plan. */
  function Offset(bottom: nat, step: nat, i: nat): int
    requires step > 0
  {
    if i == Frames(bottom, step) - 1 then bottom else i * step
  }

  /** The plan of a page that reaches more than the slack below its first view. */
  ghost predicate IsPlan(bottom: nat, step: nat, limit: nat, offsets: seq<int>, complete: bool)
    requires step > 0
  {
    && (complete <==> Frames(bottom, step) <= limit)
    && |offsets| == (if complete then Frames(bottom, step) else limit)
    && forall i | 0 <= i < |offsets| :: offsets[i] == Offset(bottom, step, i)
  }

  lemma Times(a: int, b: int, step: nat)
    requires a <= b
    ensures a * step <= b * step
  {
  }

  lemma OneFrames(bottom: nat, step: nat, n: nat)
    requires step > 0 && n >= 1 && (n - 2) * step < bottom <= (n - 1) * step
    ensures n == Frames(bottom, step)
  {
    hide Frames;
    var m := Frames(bottom, step);
    if n < m { Times(n - 1, m - 2, step); }
    if m < n { Times(m - 1, n - 2, step); }
  }

  /** What a plan is. */
  ghost predicate Planned(height: int, view: int, overlap: int, limit: nat, offsets: seq<int>, complete: bool) {
    if Bottom(height, view) <= SLACK then offsets == [0] && complete
    else IsPlan(Bottom(height, view), StepOf(view, overlap), limit, offsets, complete)
  }

  method PlanOffsets(height: int, view: int, overlap: int, limit: nat) returns (offsets: seq<int>, complete: bool)
    ensures Planned(height, view, overlap, limit, offsets, complete)
  {
    var bottom := Max(0, height - view);
    if bottom <= SLACK { return [0], true; }
    var step := Max(LEAST_STEP, view - overlap);
    offsets := [];
    var at := 0;
    while at < bottom
      invariant at == |offsets| * step && (|offsets| - 1) * step < bottom
      invariant forall i | 0 <= i < |offsets| :: offsets[i] == i * step < bottom
      decreases bottom - at
    {
      offsets := offsets + [at];
      at := at + step;
    }
    OneFrames(bottom, step, |offsets| + 1);
    if offsets[|offsets| - 1] != bottom { offsets := offsets + [bottom]; }
    complete := |offsets| <= limit;
    if !complete { offsets := offsets[..limit]; }
  }

  /** Neighbours overlap by what was asked. */
  ghost predicate Overlapping(offsets: seq<int>, view: int, overlap: int) {
    forall i, j | 0 <= i < |offsets| && j == i + 1 < |offsets| :: offsets[i] + view - offsets[j] >= overlap
  }

  lemma Gap(bottom: nat, step: nat, i: nat)
    requires step > 0 && i + 1 < Frames(bottom, step)
    ensures 0 < Offset(bottom, step, i + 1) - Offset(bottom, step, i) <= step
    ensures i + 2 < Frames(bottom, step) ==> Offset(bottom, step, i + 1) - Offset(bottom, step, i) == step
  {
    var n := Frames(bottom, step);
    assert (i + 1) * step == i * step + step;
    if i + 2 == n { assert (n - 1) * step == (n - 2) * step + step; }
  }

  /** Frames overlap as asked exactly when the view has room for the least step besides the overlap, or the page ends
      before its first step would leave it. */
  lemma OverlapsExactly(height: int, view: int, overlap: int, limit: nat, offsets: seq<int>, complete: bool)
    requires Bottom(height, view) > SLACK && limit >= 2
    requires IsPlan(Bottom(height, view), StepOf(view, overlap), limit, offsets, complete)
    ensures Overlapping(offsets, view, overlap) <==>
      view - overlap >= LEAST_STEP || Bottom(height, view) <= view - overlap
  {
    var bottom, step := Bottom(height, view), StepOf(view, overlap);
    if view - overlap >= LEAST_STEP || bottom <= view - overlap {
      forall i, j | 0 <= i < |offsets| && j == i + 1 < |offsets| ensures offsets[i] + view - offsets[j] >= overlap {
        Gap(bottom, step, i);
        if view - overlap < LEAST_STEP { OneFrames(bottom, step, 2); }
      }
    } else {
      Gap(bottom, step, 0);
      assert offsets[0] + view - offsets[1] < overlap;
    }
  }

  /** With the usual overlap and limit, in any view of at least 280: no strip falls between two frames, and the plan is
      complete exactly when the page is no longer than the first view and 39 full steps. */
  lemma UsualPlan(height: int, view: int, offsets: seq<int>, complete: bool)
    requires view >= 280 && Bottom(height, view) > SLACK
    requires IsPlan(Bottom(height, view), StepOf(view, FRAME_OVERLAP), FRAME_LIMIT, offsets, complete)
    ensures Overlapping(offsets, view, 80)
    ensures complete <==> height <= view + 39 * (view - 80)
  {
    hide Frames, Overlapping;
    OverlapsExactly(height, view, FRAME_OVERLAP, FRAME_LIMIT, offsets, complete);
    var step := view - FRAME_OVERLAP;
    var n := Frames(height - view, step);
    if n <= FRAME_LIMIT { Times(n - 1, FRAME_LIMIT - 1, step); } else { Times(FRAME_LIMIT - 1, n - 2, step); }
  }

  lemma RowIn(bottom: nat, step: nat, y: nat) returns (i: nat)
    requires step > 0 && y < bottom
    ensures i < Frames(bottom, step) - 1 && Offset(bottom, step, i) <= y < Offset(bottom, step, i) + step
  {
    hide Frames;
    i := y / step;
    assert i * step <= y < i * step + step;
    if i >= Frames(bottom, step) - 1 { Times(Frames(bottom, step) - 1, i, step); }
  }

  ghost predicate Shown(offsets: seq<int>, view: int, y: int) {
    exists i :: 0 <= i < |offsets| && offsets[i] <= y < offsets[i] + view
  }

  /** A complete plan shows every row of the page if and only if the view has room for a whole step, or for all that the
      first view leaves over. */
  lemma ShowsEveryRowExactly(height: int, view: int, overlap: int, limit: nat, offsets: seq<int>, complete: bool)
    requires height > 0 && Bottom(height, view) > SLACK
    requires complete && IsPlan(Bottom(height, view), StepOf(view, overlap), limit, offsets, complete)
    ensures (forall y | 0 <= y < height :: Shown(offsets, view, y)) <==>
      view >= StepOf(view, overlap) || Bottom(height, view) <= view
  {
    hide Frames;
    var bottom, step := Bottom(height, view), StepOf(view, overlap);
    if view >= step || bottom <= view {
      forall y | 0 <= y < height ensures Shown(offsets, view, y) { RowShown(height, view, overlap, offsets, y); }
    } else {
      RowLost(height, view, overlap, limit, offsets);
    }
  }

  lemma RowShown(height: int, view: int, overlap: int, offsets: seq<int>, y: int)
    requires Bottom(height, view) > SLACK && 0 <= y < height
    requires view >= StepOf(view, overlap) || Bottom(height, view) <= view
    requires var n := Frames(Bottom(height, view), StepOf(view, overlap));
      IsPlan(Bottom(height, view), StepOf(view, overlap), n, offsets, true)
    ensures Shown(offsets, view, y)
  {
    var bottom, step := Bottom(height, view), StepOf(view, overlap);
    var n := Frames(bottom, step);
    if y >= bottom {
      assert offsets[n - 1] <= y < offsets[n - 1] + view;
    } else if bottom <= view {
      assert offsets[0] <= y < offsets[0] + view;
    } else {
      var i := RowIn(bottom, step, y);
      assert offsets[i] <= y < offsets[i] + view;
    }
  }

  /** The first row below the first frame, when the second begins further down. */
  lemma RowLost(height: int, view: int, overlap: int, limit: nat, offsets: seq<int>)
    requires height > 0 && Bottom(height, view) > SLACK
    requires IsPlan(Bottom(height, view), StepOf(view, overlap), limit, offsets, true)
    requires view < StepOf(view, overlap) && view < Bottom(height, view)
    ensures exists y :: 0 <= y < height && !Shown(offsets, view, y)
  {
    var bottom, step := Bottom(height, view), StepOf(view, overlap);
    var y := Max(0, view);
    forall i | 0 <= i < |offsets| ensures !(offsets[i] <= y < offsets[i] + view) {
      if i > 0 { Times(1, i, step); }
    }
    assert !Shown(offsets, view, y);
  }

  /** A page that ends at most 4 below its first view loses at most those rows; any longer page is planned in steps of
      200 or more. */
  lemma SlackLosesLittle(height: int, view: int, overlap: int, limit: nat, offsets: seq<int>, complete: bool, y: int)
    requires Planned(height, view, overlap, limit, offsets, complete) && 0 <= y < height
    ensures height - view <= 4 ==> offsets == [0] && complete && (Shown(offsets, view, y) <==> y < view)
    ensures height - view <= 4 && !Shown(offsets, view, y) ==> y >= height - 4
    ensures height - view > 4 && limit >= 2 ==>
      |offsets| >= 2 && offsets[0] == 0 && (offsets[1] >= 200 || (offsets[1] == height - view && complete))
    ensures height - view > 4 && complete && limit > 0 ==> offsets[|offsets| - 1] == height - view
  {
    if y < view && offsets == [0] { assert offsets[0] <= y < offsets[0] + view; }
  }

  /** Where both fall short, with an overlap of 80 asked for: over a page of 1000 a view of 250 steps by 200, so that
      its frames overlap by 50 only; over a page of 500 a view of 150 leaves rows out. */
  lemma NarrowViews()
    ensures IsPlan(750, StepOf(250, 80), 40, [0, 200, 400, 600, 750], true)
    ensures Bottom(1000, 250) == 750 && !Overlapping([0, 200, 400, 600, 750], 250, 80)
    ensures IsPlan(350, StepOf(150, 80), 40, [0, 200, 350], true)
    ensures Bottom(500, 150) == 350 && !Shown([0, 200, 350], 150, 150)
  {
    OneFrames(750, 200, 5);
    OneFrames(350, 200, 3);
    var offsets := [0, 200, 400, 600, 750];
    assert offsets[0] + 250 - offsets[1] < 80;
  }

  /** A plan cut short is the beginning of the full one. */
  lemma CutShortIsPrefix(bottom: nat, step: nat, limit: nat, offsets: seq<int>, more: nat, full: seq<int>)
    requires step > 0 && IsPlan(bottom, step, limit, offsets, false) && IsPlan(bottom, step, more, full, true)
    ensures offsets < full
  {
    assert offsets == full[..limit];
  }
}
