/**
 The ROI sensitivity chart: a savings-percentage axis built with `range(..., 5)`,
 a handful of fee percentages, and for each fee one line of total ROI multiples,
 one per savings value on the axis.
 */
module Sensitivity {
  import opened Wrappers
  import RoiEngine
  import PyRange

  function Max(a: int, b: int): (m: int)
    ensures m >= a && m >= b && (m == a || m == b)
  {
    if a >= b then a else b
  }

  function Min(a: int, b: int): (m: int)
    ensures m <= a && m <= b && (m == a || m == b)
  {
    if a <= b then a else b
  }

  /** A chart line with no value defined: every point is the undefined sentinel. */
  ghost predicate Undefined(line: seq<Option<real>>) {
    forall k :: 0 <= k < |line| ==> line[k] == None
  }

  /** A chart line defined everywhere whose values strictly increase from left to right. */
  ghost predicate Rises(line: seq<Option<real>>) {
    && (forall k :: 0 <= k < |line| ==> line[k].Some?)
    && (forall j, k :: 0 <= j < k < |line| ==> line[j].value < line[k].value)
  }

  /** The domains dashboard's axis: every fifth percentage from ten below to ten above the chosen savings, clamped to [0, 100]. */
  function DomainsSavingsAxis(savingsPct: int): (r: seq<int>)
    ensures |r| == 0 <==> Max(0, savingsPct - 10) > Min(100, savingsPct + 10)
    ensures forall k :: 0 <= k < |r| ==> r[k] == Max(0, savingsPct - 10) + 5 * k
    ensures forall k :: 0 <= k < |r| ==> r[k] <= Min(100, savingsPct + 10)
    ensures |r| > 0 ==> Min(100, savingsPct + 10) < r[|r| - 1] + 5
  {
    PyRange.Range(Max(0, savingsPct - 10), Min(100, savingsPct + 10) + 1, 5)
  }

  /**
   For a savings slider value in [0, 100] the domains axis starts at the clamped lower
   end, climbs in steps of 5 within the clamped window up to its last multiple of 5,
   and so has three to five points. It shows the chosen value itself exactly when that value is at
   least 10 or a multiple of 5.
   */
  lemma DomainsSavingsAxisShape(savingsPct: int)
    requires 0 <= savingsPct <= 100
    ensures var r := DomainsSavingsAxis(savingsPct);
      && |r| == (Min(100, savingsPct + 10) - Max(0, savingsPct - 10)) / 5 + 1
      && 3 <= |r| <= 5
      && r[0] == Max(0, savingsPct - 10)
      && (forall k :: 0 <= k < |r| ==> Max(0, savingsPct - 10) <= r[k] <= Min(100, savingsPct + 10))
      && (forall k :: 0 < k < |r| ==> r[k] == r[k - 1] + 5)
      && PyRange.StrictlyIncreasing(r)
      && (savingsPct in r <==> savingsPct >= 10 || savingsPct % 5 == 0)
  {
    var lo, hi := Max(0, savingsPct - 10), Min(100, savingsPct + 10);
    PyRange.RangeBoundsAndOrder(lo, hi + 1, 5);
    PyRange.RangeLengthStep5(lo, hi + 1);
    PyRange.RangeMembersStep5(lo, hi + 1, savingsPct);
  }

  /** The enhanced dashboard's axis: every fifth percentage from the low end of the chosen range up to its high end. */
  function EnhancedSavingsAxis(lo: int, hi: int): (r: seq<int>)
    ensures |r| == 0 <==> lo > hi
    ensures forall k :: 0 <= k < |r| ==> r[k] == lo + 5 * k && r[k] <= hi
  {
    PyRange.Range(lo, hi + 1, 5)
  }

  /**
   The enhanced axis is empty exactly when the range is inverted; otherwise it starts
   at `lo`, never passes `hi`, climbs strictly, and holds exactly the values
   `lo + 5k` up to `hi`.
   */
  lemma EnhancedSavingsAxisShape(lo: int, hi: int)
    ensures var r := EnhancedSavingsAxis(lo, hi);
      && (|r| == 0 <==> lo > hi)
      && (lo <= hi ==> r[0] == lo && |r| == (hi - lo) / 5 + 1)
      && (forall k :: 0 <= k < |r| ==> lo <= r[k] <= hi)
      && PyRange.StrictlyIncreasing(r)
      && (forall x :: x in r <==> lo <= x <= hi && (x - lo) % 5 == 0)
  {
    PyRange.RangeBoundsAndOrder(lo, hi + 1, 5);
    PyRange.RangeLengthStep5(lo, hi + 1);
    forall x
      ensures x in EnhancedSavingsAxis(lo, hi) <==> lo <= x <= hi && (x - lo) % 5 == 0
    {
      PyRange.RangeMembersStep5(lo, hi + 1, x);
    }
  }

  /** The domains dashboard's three fees: two points either side of the chosen fee, clamped to [0, 50]. */
  function DomainsFees(feePct: int): (r: seq<int>)
    ensures |r| == 3 && r[1] == feePct
    ensures 0 <= r[0] && r[2] <= 50
    ensures feePct - 2 <= r[0] && r[2] <= feePct + 2
    ensures r[0] == (if feePct >= 2 then feePct - 2 else 0)
    ensures r[2] == (if feePct <= 48 then feePct + 2 else 50)
    ensures 0 <= feePct <= 50 ==> r[0] <= feePct <= r[2]
  {
    [Max(0, feePct - 2), feePct, Min(50, feePct + 2)]
  }

  /**
   For a fee slider value in [0, 50] the three fees are ordered and stay in [0, 50];
   the lowest repeats the chosen fee only at 0 and the highest only at 50.
   */
  lemma DomainsFeesShape(feePct: int)
    requires 0 <= feePct <= 50
    ensures var r := DomainsFees(feePct);
      && |r| == 3
      && r[0] <= r[1] == feePct <= r[2]
      && (forall k :: 0 <= k < 3 ==> 0 <= r[k] <= 50)
      && (r[0] == r[1] <==> feePct == 0)
      && (r[1] == r[2] <==> feePct == 50)
  {
  }

  /**
   The enhanced dashboard's fees: only the two ends of the chosen fee range, so the
   sweep draws no line for a fee strictly inside it.
   */
  function EnhancedFees(lo: int, hi: int): (r: seq<int>)
    ensures |r| == 2
    ensures forall f :: f in r <==> f == lo || f == hi
    ensures forall f :: lo < f < hi ==> f !in r
  {
    [lo, hi]
  }

  /** The inputs at one grid point: the slider savings and fee replaced by the swept values. */
  function GridPoint(base: RoiEngine.Inputs, savingsPct: int, feePct: int): RoiEngine.Inputs {
    RoiEngine.WithSavingsAndFee(base, savingsPct as real, feePct as real)
  }

  /** One chart line: the total ROI multiple at each savings value on the axis, for one fee. */
  function RoiLine(base: RoiEngine.Inputs, axis: seq<int>, feePct: int): (r: seq<Option<real>>)
    ensures |r| == |axis|
    ensures forall k :: 0 <= k < |r| ==> (r[k] == None <==> base.spend == 0.0 || feePct == 0)
    ensures forall k :: 0 <= k < |r| ==> r[k] == RoiEngine.Calc(GridPoint(base, axis[k], feePct)).totalRoi
  {
    seq(|axis|, k requires 0 <= k < |axis| => RoiEngine.Calc(GridPoint(base, axis[k], feePct)).totalRoi)
  }

  /** The sweep: one line per fee, in the order the fees are listed. */
  function Sweep(base: RoiEngine.Inputs, axis: seq<int>, fees: seq<int>): (g: seq<seq<Option<real>>>)
    ensures |g| == |fees|
    ensures forall i :: 0 <= i < |g| ==> |g[i]| == |axis|
  {
    seq(|fees|, i requires 0 <= i < |fees| => RoiLine(base, axis, fees[i]))
  }

  /** On a positive spend with a positive fee, a line over a strictly increasing axis strictly rises. */
  lemma LineRises(base: RoiEngine.Inputs, axis: seq<int>, feePct: int)
    requires base.spend > 0.0 && feePct > 0
    requires PyRange.StrictlyIncreasing(axis)
    ensures Rises(RoiLine(base, axis, feePct))
  {
    var p := GridPoint(base, 0, feePct);
    RoiEngine.ZeroFeeCostUndefined(p);
    RoiEngine.FeeCostOrdered(base.spend, feePct as real, feePct as real);
    assert RoiEngine.Calc(p).feeCost > 0.0;
    forall j, k | 0 <= j < k < |axis|
      ensures RoiLine(base, axis, feePct)[j].value < RoiLine(base, axis, feePct)[k].value
    {
      RoiEngine.TotalRoiMonotoneInSavings(p, axis[j] as real, axis[k] as real);
      assert RoiEngine.WithSavingsAndFee(p, axis[j] as real, p.feePct) == GridPoint(base, axis[j], feePct);
      assert RoiEngine.WithSavingsAndFee(p, axis[k] as real, p.feePct) == GridPoint(base, axis[k], feePct);
    }
  }

  /** Non-negative inputs otherwise: the line of a larger positive fee lies on or below the line of a smaller one. */
  lemma LinesOrderedByFee(base: RoiEngine.Inputs, axis: seq<int>, f1: int, f2: int)
    requires base.spend > 0.0 && 0 < f1 <= f2
    requires base.hours >= 0.0 && base.timeSavedPct >= 0.0
    requires base.costPerHour >= 0.0 && base.oppPerHour >= 0.0
    requires forall k :: 0 <= k < |axis| ==> axis[k] >= 0
    ensures forall k :: 0 <= k < |axis| ==>
              && RoiLine(base, axis, f1)[k].Some? && RoiLine(base, axis, f2)[k].Some?
              && RoiLine(base, axis, f2)[k].value <= RoiLine(base, axis, f1)[k].value
  {
    forall k | 0 <= k < |axis|
      ensures && RoiLine(base, axis, f1)[k].Some? && RoiLine(base, axis, f2)[k].Some?
              && RoiLine(base, axis, f2)[k].value <= RoiLine(base, axis, f1)[k].value
    {
      var q := GridPoint(base, axis[k], f1);
      RoiEngine.TotalRoiAntitoneInFee(q, f1 as real, f2 as real);
      assert RoiEngine.WithSavingsAndFee(q, q.savingsPct, f1 as real) == GridPoint(base, axis[k], f1);
      assert RoiEngine.WithSavingsAndFee(q, q.savingsPct, f2 as real) == GridPoint(base, axis[k], f2);
    }
  }

  /** Each line depends only on its own fee: sweeping two lists of fees one after the other is sweeping their concatenation. */
  lemma SweepSplits(base: RoiEngine.Inputs, axis: seq<int>, fees1: seq<int>, fees2: seq<int>)
    ensures Sweep(base, axis, fees1 + fees2) == Sweep(base, axis, fees1) + Sweep(base, axis, fees2)
  {
  }

  /** The sequence in reverse order. */
  function Reverse<T>(s: seq<T>): (r: seq<T>)
    ensures |r| == |s|
    ensures forall k :: 0 <= k < |s| ==> r[k] == s[|s| - 1 - k]
  {
    seq(|s|, k requires 0 <= k < |s| => s[|s| - 1 - k])
  }

  /**
   Evaluating the grid with both the fees and the axis in reverse order yields the same
   values, at the mirrored positions: no grid point depends on the order of evaluation.
   */
  lemma SweepOrderIndependent(base: RoiEngine.Inputs, axis: seq<int>, fees: seq<int>)
    ensures forall i, k :: 0 <= i < |fees| && 0 <= k < |axis| ==>
              Sweep(base, Reverse(axis), Reverse(fees))[i][k]
              == Sweep(base, axis, fees)[|fees| - 1 - i][|axis| - 1 - k]
  {
  }
}
