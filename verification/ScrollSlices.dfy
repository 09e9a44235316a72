// Scroll slicing of a long page: where the slices start, and which rows they show.
module ScrollSlices {
  const OVERLAP: int := 48
  const MAX_SLICES: int := 20

  function Max(a: int, b: int): int { if a < b then b else a }
  function Min(a: int, b: int): int { if a < b then a else b }

  function StepSize(clientHeight: nat): int { Max(80, clientHeight - OVERLAP) }
  function MaxY(scrollHeight: nat, clientHeight: nat): int { Max(0, scrollHeight - clientHeight) }
  predicate IsLong(scrollHeight: nat, clientHeight: nat) { scrollHeight > clientHeight + 48 }

  function CeilDiv(a: nat, b: int): int
    requires b > 0
  {
    (a + b - 1) / b
  }

  function SliceCount(scrollHeight: nat, clientHeight: nat): int {
    if !IsLong(scrollHeight, clientHeight) then 1
    else Min(MAX_SLICES, CeilDiv(MaxY(scrollHeight, clientHeight), StepSize(clientHeight)) + 1)
  }

  // ceil(a/b) is the least k with k*b >= a.
  lemma {:induction false} CeilDivIsLeast(a: nat, b: int, k: nat)
    requires b > 0
    ensures k >= CeilDiv(a, b) <==> k * b >= a
  {
    var q := CeilDiv(a, b);
    assert q * b >= a && (q - 1) * b < a by {
      assert (a + b - 1) == (a + b - 1) / b * b + (a + b - 1) % b;
      assert q * b == (a + b - 1) / b * b;
      assert (q - 1) * b == q * b - b;
    }
    if k >= q { assert k * b >= q * b by { Monotone(q, k, b); } }
    else { assert k * b <= (q - 1) * b by { Monotone(k, q - 1, b); } }
  }

  lemma Monotone(i: int, j: int, b: int)
    requires i <= j && b > 0
    ensures i * b <= j * b
  {
    assert j * b - i * b == (j - i) * b;
  }

  // The start of each slice, top to bottom: the positions the loop scrolls to.
  method CaptureScrollSlices(scrollHeight: nat, clientHeight: nat) returns (ys: seq<int>)
    ensures |ys| == SliceCount(scrollHeight, clientHeight)
    ensures forall k :: 0 <= k < |ys| ==> ys[k] == Min(MaxY(scrollHeight, clientHeight), k * StepSize(clientHeight))
    ensures Walk(ys, scrollHeight, clientHeight)
  {
    if !IsLong(scrollHeight, clientHeight) { return [0]; }
    var step := Max(80, clientHeight - OVERLAP);
    var maxY := Max(0, scrollHeight - clientHeight);
    ys := [];
    var y := 0;
    var i := 1;
    while i <= MAX_SLICES
      invariant 1 <= i <= MAX_SLICES + 1 && |ys| == i - 1
      invariant y == Min(maxY, (i - 1) * step)
      invariant forall k :: 0 <= k < |ys| ==> ys[k] == Min(maxY, k * step)
      invariant i >= 2 ==> (i - 2) * step < maxY
    {
      ys := ys + [y];
      if y >= maxY { break; }
      y := Min(maxY, y + step);
      i := i + 1;
    }
    CeilDivIsLeast(maxY, step, |ys| - 1);
    if |ys| >= 2 { CeilDivIsLeast(maxY, step, |ys| - 2); }
    SlicesWalk(ys, scrollHeight, clientHeight);
  }

  // The walk down the page, in rows: one stop if the page is at most 48 rows
  // taller than the viewport; otherwise from the top by clientHeight - 48 rows, at
  // least 80, up to the bottom or to 20 stops.
  ghost predicate Walk(ys: seq<int>, scrollHeight: nat, clientHeight: nat) {
    if scrollHeight <= clientHeight + 48 then ys == [0]
    else
      var bottom, step := scrollHeight - clientHeight, if clientHeight < 128 then 80 else clientHeight - 48;
      2 <= |ys| <= 20 && ys[0] == 0 && (ys[|ys| - 1] == bottom || |ys| == 20) &&
      forall k :: 0 <= k < |ys| - 1 ==>
        ys[k] < bottom && ys[k + 1] == if ys[k] + step < bottom then ys[k] + step else bottom
  }

  lemma SlicesWalk(ys: seq<int>, scrollHeight: nat, clientHeight: nat)
    requires Slices(ys, scrollHeight, clientHeight)
    ensures Walk(ys, scrollHeight, clientHeight)
  {
    if IsLong(scrollHeight, clientHeight) {
      var maxY, step := MaxY(scrollHeight, clientHeight), StepSize(clientHeight);
      CeilDivIsLeast(maxY, step, 0);
      CeilDivIsLeast(maxY, step, |ys| - 1);
      CeilDivIsLeast(maxY, step, |ys| - 2);
      forall k | 0 <= k < |ys| - 1 ensures k * step < maxY && (k + 1) * step == k * step + step {
        Monotone(k, |ys| - 2, step);
      }
    }
  }

  // What any list of slice starts with the method's contract looks like.
  ghost predicate Slices(ys: seq<int>, scrollHeight: nat, clientHeight: nat) {
    |ys| == SliceCount(scrollHeight, clientHeight) &&
    forall k :: 0 <= k < |ys| ==> ys[k] == Min(MaxY(scrollHeight, clientHeight), k * StepSize(clientHeight))
  }

  ghost predicate Shown(ys: seq<int>, clientHeight: nat, row: int) {
    exists k :: 0 <= k < |ys| && ys[k] <= row < ys[k] + clientHeight
  }

  predicate CapHit(scrollHeight: nat, clientHeight: nat) {
    MaxY(scrollHeight, clientHeight) > (MAX_SLICES - 1) * StepSize(clientHeight)
  }

  // A page that is not long gets one screenshot of the viewport; if it is taller
  // than the viewport at all, its last row is missed.
  lemma ShortPageIff(ys: seq<int>, scrollHeight: nat, clientHeight: nat)
    requires scrollHeight <= clientHeight + 48 && Slices(ys, scrollHeight, clientHeight)
    ensures (forall row :: 0 <= row < scrollHeight ==> Shown(ys, clientHeight, row)) <==> scrollHeight <= clientHeight
  {
    assert ys[0] == 0;
    if scrollHeight > clientHeight {
      assert !Shown(ys, clientHeight, scrollHeight - 1);
    } else {
      forall row | 0 <= row < scrollHeight ensures Shown(ys, clientHeight, row) { assert ys[0] <= row < ys[0] + clientHeight; }
    }
  }

  // Every row of a page is shown exactly when the page fits the viewport, or it
  // is long, the cap is not hit and the viewport is at least 80 tall (or one
  // viewport below the top is the bottom).
  lemma CoverageIff(ys: seq<int>, scrollHeight: nat, clientHeight: nat)
    requires Slices(ys, scrollHeight, clientHeight)
    ensures (forall row :: 0 <= row < scrollHeight ==> Shown(ys, clientHeight, row)) <==>
            scrollHeight <= clientHeight ||
            (scrollHeight > clientHeight + 48 &&
             scrollHeight - clientHeight <= 19 * (if clientHeight < 128 then 80 else clientHeight - 48) &&
             (clientHeight >= 80 || scrollHeight <= 2 * clientHeight))
  {
    if IsLong(scrollHeight, clientHeight) { LongPageIff(ys, scrollHeight, clientHeight); }
    else { ShortPageIff(ys, scrollHeight, clientHeight); }
  }

  lemma LongPageIff(ys: seq<int>, scrollHeight: nat, clientHeight: nat)
    requires IsLong(scrollHeight, clientHeight) && Slices(ys, scrollHeight, clientHeight)
    ensures (forall row :: 0 <= row < scrollHeight ==> Shown(ys, clientHeight, row)) <==>
            !CapHit(scrollHeight, clientHeight) && (clientHeight >= 80 || MaxY(scrollHeight, clientHeight) <= clientHeight)
  {
    var maxY, step := MaxY(scrollHeight, clientHeight), StepSize(clientHeight);
    CeilDivIsLeast(maxY, step, MAX_SLICES - 1);
    CeilDivIsLeast(maxY, step, |ys| - 1);
    if CapHit(scrollHeight, clientHeight) {
      LastRowMissed(ys, scrollHeight, clientHeight);
    } else if clientHeight >= 80 || maxY <= clientHeight {
      forall row | 0 <= row < scrollHeight ensures Shown(ys, clientHeight, row) {
        RowShown(ys, scrollHeight, clientHeight, row, |ys| - 1);
      }
    } else {
      GapBelowFirst(ys, scrollHeight, clientHeight);
    }
  }

  lemma LastRowMissed(ys: seq<int>, scrollHeight: nat, clientHeight: nat)
    requires IsLong(scrollHeight, clientHeight) && Slices(ys, scrollHeight, clientHeight) && CapHit(scrollHeight, clientHeight)
    ensures !Shown(ys, clientHeight, scrollHeight - 1)
  {
    var step := StepSize(clientHeight);
    forall k | 0 <= k < |ys| ensures ys[k] + clientHeight < scrollHeight {
      Monotone(k, MAX_SLICES - 1, step);
    }
  }

  lemma GapBelowFirst(ys: seq<int>, scrollHeight: nat, clientHeight: nat)
    requires IsLong(scrollHeight, clientHeight) && Slices(ys, scrollHeight, clientHeight)
    requires clientHeight < 80 && MaxY(scrollHeight, clientHeight) > clientHeight
    ensures !Shown(ys, clientHeight, clientHeight)
  {
    forall k | 0 <= k < |ys| ensures k == 0 || ys[k] > clientHeight {
      if k > 0 { Monotone(1, k, StepSize(clientHeight)); }
    }
  }

  // Rows above the end of slice k are shown, going up slice by slice.
  lemma {:induction false} RowShown(ys: seq<int>, scrollHeight: nat, clientHeight: nat, row: int, k: nat)
    requires IsLong(scrollHeight, clientHeight) && Slices(ys, scrollHeight, clientHeight)
    requires clientHeight >= 80 || MaxY(scrollHeight, clientHeight) <= clientHeight
    requires k < |ys| && 0 <= row < ys[k] + clientHeight
    ensures Shown(ys, clientHeight, row)
  {
    if row < ys[k] {
      assert k > 0;
      var step := StepSize(clientHeight);
      assert k * step == (k - 1) * step + step;
      if clientHeight < 80 && k > 1 { Monotone(1, k - 1, step); }
      RowShown(ys, scrollHeight, clientHeight, row, k - 1);
    }
  }

  predicate Overlaps(ys: seq<int>, clientHeight: nat, k: nat)
    requires k + 1 < |ys|
  {
    ys[k] + clientHeight - ys[k + 1] >= OVERLAP
  }

  lemma NeighbourDistance(ys: seq<int>, scrollHeight: nat, clientHeight: nat, k: nat)
    requires IsLong(scrollHeight, clientHeight) && Slices(ys, scrollHeight, clientHeight) && k + 1 < |ys|
    ensures 0 <= ys[k] && ys[k + 1] - ys[k] <= StepSize(clientHeight) && ys[k + 1] <= MaxY(scrollHeight, clientHeight)
  {
    var step := StepSize(clientHeight);
    assert (k + 1) * step == k * step + step;
    Monotone(0, k, step);
  }

  // Neighbouring slices share at least 48 rows exactly when there is only one
  // slice, the viewport is at least 128 tall or the second slice starts high enough.
  lemma OverlapIff(ys: seq<int>, scrollHeight: nat, clientHeight: nat)
    requires Slices(ys, scrollHeight, clientHeight)
    ensures (forall k: nat :: k + 1 < |ys| ==> ys[k] + clientHeight - ys[k + 1] >= 48) <==>
            scrollHeight <= clientHeight + 48 || clientHeight >= 128 || scrollHeight <= 2 * clientHeight - 48
  {
    if IsLong(scrollHeight, clientHeight) { LongOverlapIff(ys, scrollHeight, clientHeight); }
    assert forall k: nat :: k + 1 < |ys| ==> (Overlaps(ys, clientHeight, k) <==> ys[k] + clientHeight - ys[k + 1] >= 48);
  }

  lemma LongOverlapIff(ys: seq<int>, scrollHeight: nat, clientHeight: nat)
    requires IsLong(scrollHeight, clientHeight) && Slices(ys, scrollHeight, clientHeight)
    ensures (forall k: nat :: k + 1 < |ys| ==> Overlaps(ys, clientHeight, k)) <==>
            clientHeight >= 128 || MaxY(scrollHeight, clientHeight) <= clientHeight - OVERLAP
  {
    var maxY, step := MaxY(scrollHeight, clientHeight), StepSize(clientHeight);
    CeilDivIsLeast(maxY, step, 0);
    assert |ys| >= 2;
    assert ys[0] == 0 && ys[1] == Min(maxY, step);
    if clientHeight >= 128 || maxY <= clientHeight - OVERLAP {
      forall k: nat | k + 1 < |ys| ensures Overlaps(ys, clientHeight, k) { NeighbourDistance(ys, scrollHeight, clientHeight, k); }
    } else {
      assert !Overlaps(ys, clientHeight, 0);
    }
  }
}
