/**
 The cumulative-benefit projection both dashboards chart: year `y` shows `y` times
 one year's total benefit. The benefit is the same every year; nothing compounds,
 grows or is discounted.
 */
module Projection {
  import PyRange

  /** `[total * y for y in range(1, years + 1)]`. */
  function Cumulative(total: real, years: int): (r: seq<real>)
    ensures |r| == if years < 1 then 0 else years
    ensures forall k :: 0 <= k < |r| ==> r[k] == total * (k + 1) as real
  {
    var ys := PyRange.Range(1, years + 1, 1);
    PyRange.RangeLengthStep1(1, years + 1);
    seq(|ys|, k requires 0 <= k < |ys| => total * ys[k] as real)
  }

  /** The domains dashboard always plots four years, `range(1, 4 + 1)`, under a "3-Year" heading. */
  function FourYear(total: real): (r: seq<real>)
    ensures |r| == 4
    ensures r == [total, 2.0 * total, 3.0 * total, 4.0 * total]
  {
    var r := Cumulative(total, 4);
    assert r[0] == total && r[1] == 2.0 * total && r[2] == 3.0 * total && r[3] == 4.0 * total;
    r
  }

  /**
   Consecutive years differ by exactly one year's benefit: the series is the running
   sum of a flat cash flow, starting from one year's benefit.
   */
  lemma CumulativeIsRunningSum(total: real, years: int)
    ensures years >= 1 ==> Cumulative(total, years)[0] == total
    ensures forall k :: 0 < k < |Cumulative(total, years)| ==>
              Cumulative(total, years)[k] == Cumulative(total, years)[k - 1] + total
  {
  }

  /** The last year shows `years` times one year's benefit. */
  lemma CumulativeLast(total: real, years: int)
    requires years >= 1
    ensures Cumulative(total, years)[years - 1] == years as real * total
  {
  }

  /** A non-negative yearly benefit gives a nondecreasing projection; a positive one a strictly increasing one. */
  lemma CumulativeMonotone(total: real, years: int)
    requires total >= 0.0
    ensures forall j, k :: 0 <= j <= k < |Cumulative(total, years)| ==>
              Cumulative(total, years)[j] <= Cumulative(total, years)[k]
    ensures total > 0.0 ==>
              forall j, k :: 0 <= j < k < |Cumulative(total, years)| ==>
                Cumulative(total, years)[j] < Cumulative(total, years)[k]
  {
    var r := Cumulative(total, years);
    forall j, k | 0 <= j <= k < |r|
      ensures r[j] <= r[k]
      ensures total > 0.0 && j < k ==> r[j] < r[k]
    {
      assert r[k] - r[j] == total * (k - j) as real;
    }
  }
}
