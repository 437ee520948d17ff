/**
 Python's `list(range(start, stop, step))` for a positive step, the only form the
 dashboards use (step 1 for the projection years, step 5 for the sensitivity axis).
 */
module PyRange {

  /** `list(range(start, stop, step))`: start, start + step, ... while below `stop`. */
  function Range(start: int, stop: int, step: int): (r: seq<int>)
    requires step > 0
    ensures |r| == 0 <==> start >= stop
    ensures forall k :: 0 <= k < |r| ==> r[k] == start + k * step
    ensures forall k :: 0 <= k < |r| ==> r[k] < stop
    ensures |r| > 0 ==> stop <= start + |r| * step
    decreases stop - start
  {
    if start >= stop then [] else [start] + Range(start + step, stop, step)
  }

  /** A sequence whose elements strictly increase from left to right. */
  ghost predicate StrictlyIncreasing(s: seq<int>) {
    forall j, k :: 0 <= j < k < |s| ==> s[j] < s[k]
  }

  /** Every element lies in `[start, stop)` and the elements strictly increase. */
  lemma RangeBoundsAndOrder(start: int, stop: int, step: int)
    requires step > 0
    ensures forall k :: 0 <= k < |Range(start, stop, step)| ==>
              start <= Range(start, stop, step)[k] < stop
    ensures StrictlyIncreasing(Range(start, stop, step))
  {
    var r := Range(start, stop, step);
    forall j, k | 0 <= j < k < |r|
      ensures r[j] < r[k]
    {
      StepProductGrows(j, k, step);
    }
  }

  /** `j * step < k * step` for `j < k` and a positive step. */
  lemma StepProductGrows(j: int, k: int, step: int)
    requires j < k && step > 0
    ensures j * step < k * step
  {
    assert k * step - j * step == (k - j) * step;
  }

  /**
   With step 5 the length is the number of multiples of 5 that fit: for a
   non-empty range, `(stop - 1 - start) / 5 + 1`.
   */
  lemma {:induction false} RangeLengthStep5(start: int, stop: int)
    ensures |Range(start, stop, 5)| == if start >= stop then 0 else (stop - 1 - start) / 5 + 1
    decreases stop - start
  {
    if start < stop {
      RangeLengthStep5(start + 5, stop);
    }
  }

  /** With step 5, membership is: within `[start, stop)` and a multiple of 5 away from `start`. */
  lemma {:induction false} RangeMembersStep5(start: int, stop: int, x: int)
    ensures x in Range(start, stop, 5) <==> start <= x < stop && (x - start) % 5 == 0
    decreases stop - start
  {
    if start < stop {
      RangeMembersStep5(start + 5, stop, x);
      assert Range(start, stop, 5) == [start] + Range(start + 5, stop, 5);
    }
  }

  /** With step 1 the range is every integer from `start` up to `stop - 1`. */
  lemma RangeLengthStep1(start: int, stop: int)
    ensures |Range(start, stop, 1)| == if start >= stop then 0 else stop - start
  {
    var r := Range(start, stop, 1);
    if start < stop {
      assert r[|r| - 1] == start + |r| - 1;
    }
  }
}
