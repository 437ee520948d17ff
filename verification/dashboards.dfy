/**
 What each dashboard computes from its widget values, leaving out the widgets and
 charts themselves: the in-house and broker figures, the cumulative projection, and
 the sensitivity sweep.
 */
module Dashboards {
  import opened Wrappers
  import RoiEngine
  import Projection
  import Sensitivity

  /**
   The seven widget values behind one calculation. Every widget in both dashboards
   yields a Python int (integer sliders; number inputs with integer defaults and steps).
   */
  datatype Settings = Settings(
    spend: int,
    savingsPct: int,
    feePct: int,
    hours: int,
    timeSavedPct: int,
    costPerHour: int,
    oppPerHour: int
  )

  /** The calculation's arguments, as the widgets hand them over. */
  function ToInputs(s: Settings): RoiEngine.Inputs {
    RoiEngine.Inputs(s.spend as real, s.savingsPct as real, s.feePct as real, s.hours as real,
                     s.timeSavedPct as real, s.costPerHour as real, s.oppPerHour as real)
  }

  /** Everything a dashboard derives from its settings. */
  datatype Report = Report(
    inHouse: RoiEngine.Metrics,
    broker: RoiEngine.Metrics,
    projection: seq<real>,
    savingsAxis: seq<int>,
    fees: seq<int>,
    sensitivity: seq<seq<Option<real>>>
  )

  /** The domains dashboard's slider ranges: savings and time saved in [0, 100], fee in [0, 50]. */
  ghost predicate DomainsWidgets(s: Settings) {
    && 0 <= s.savingsPct <= 100
    && 0 <= s.feePct <= 50
    && 0 <= s.timeSavedPct <= 100
  }

  /**
   The enhanced dashboard's widget ranges: every number input at least 0, the same
   percentage sliders, a horizon of 1 to 10 years, and two ordered range sliders.
   */
  ghost predicate EnhancedWidgets(s: Settings, years: int, savingsRange: (int, int), feeRange: (int, int)) {
    && s.spend >= 0 && s.hours >= 0 && s.costPerHour >= 0 && s.oppPerHour >= 0
    && 0 <= s.savingsPct <= 100 && 0 <= s.feePct <= 50 && 0 <= s.timeSavedPct <= 100
    && 1 <= years <= 10
    && 0 <= savingsRange.0 <= savingsRange.1 <= 100
    && 0 <= feeRange.0 <= feeRange.1 <= 50
  }

  /**
   Whether the domains dashboard's benefit pie chart can be drawn: its three wedges,
   net savings, time value and opportunity value, are all non-negative. The plotting
   library rejects a negative wedge, and the dashboard then stops before it shows the
   projection and the sensitivity chart.
   */
  ghost predicate PieDrawable(s: Settings) {
    var m := RoiEngine.Calc(ToInputs(s));
    m.netSavings >= 0.0 && m.timeValue >= 0.0 && m.oppValue >= 0.0
  }

  /**
   With positive spend and non-negative hours, time saved and rates, the pie chart can
   be drawn exactly when the savings % is at least the fee %.
   */
  lemma PieDrawableIff(s: Settings)
    requires s.spend > 0
    requires s.hours >= 0 && s.timeSavedPct >= 0 && s.costPerHour >= 0 && s.oppPerHour >= 0
    ensures PieDrawable(s) <==> s.savingsPct >= s.feePct
  {
    var i := ToInputs(s);
    RoiEngine.TotalBenefitAtLeastNet(i);
    var m := RoiEngine.Calc(i);
    assert m.netSavings == i.spend * (i.savingsPct - i.feePct) / 100.0;
    if s.savingsPct >= s.feePct {
      RoiEngine.MulNonNeg(i.spend, i.savingsPct - i.feePct);
    } else {
      assert i.spend * (i.feePct - i.savingsPct) > 0.0;
    }
  }

  /** The domains dashboard: hand-written in-house column, four-year projection, three-fee sweep. */
  function DomainsReport(s: Settings): (r: Report)
    ensures r.inHouse == RoiEngine.InHouseColumn()
    ensures r.broker == RoiEngine.Calc(ToInputs(s))
    ensures |r.projection| == 4
    ensures forall k :: 0 <= k < 4 ==> r.projection[k] == r.broker.totalBenefit * (k + 1) as real
    ensures r.savingsAxis == Sensitivity.DomainsSavingsAxis(s.savingsPct)
    ensures r.fees == Sensitivity.DomainsFees(s.feePct)
    ensures |r.sensitivity| == 3
    ensures forall i :: 0 <= i < 3 ==> |r.sensitivity[i]| == |r.savingsAxis|
    ensures forall i, k :: 0 <= i < 3 && 0 <= k < |r.savingsAxis| ==>
              r.sensitivity[i][k]
              == RoiEngine.Calc(Sensitivity.GridPoint(ToInputs(s), r.savingsAxis[k], r.fees[i])).totalRoi
  {
    var broker := RoiEngine.Calc(ToInputs(s));
    var axis := Sensitivity.DomainsSavingsAxis(s.savingsPct);
    var fees := Sensitivity.DomainsFees(s.feePct);
    Report(RoiEngine.InHouseColumn(), broker, Projection.FourYear(broker.totalBenefit),
           axis, fees, Sensitivity.Sweep(ToInputs(s), axis, fees))
  }

  /** The enhanced dashboard: computed in-house scenario, N-year projection, fee-endpoint sweep. */
  function EnhancedReport(s: Settings, years: int, savingsRange: (int, int), feeRange: (int, int)): (r: Report)
    ensures r.inHouse == RoiEngine.InHouseColumn()
    ensures r.broker == RoiEngine.Calc(ToInputs(s))
    ensures |r.projection| == if years < 1 then 0 else years
    ensures forall k :: 0 <= k < |r.projection| ==> r.projection[k] == r.broker.totalBenefit * (k + 1) as real
    ensures r.savingsAxis == Sensitivity.EnhancedSavingsAxis(savingsRange.0, savingsRange.1)
    ensures |r.savingsAxis| == 0 <==> savingsRange.0 > savingsRange.1
    ensures r.fees == [feeRange.0, feeRange.1]
    ensures |r.sensitivity| == 2
    ensures forall i :: 0 <= i < 2 ==> |r.sensitivity[i]| == |r.savingsAxis|
    ensures forall i, k :: 0 <= i < 2 && 0 <= k < |r.savingsAxis| ==>
              r.sensitivity[i][k]
              == RoiEngine.Calc(Sensitivity.GridPoint(ToInputs(s), r.savingsAxis[k], r.fees[i])).totalRoi
  {
    var inHouse := RoiEngine.Calc(RoiEngine.InHouse(ToInputs(s)));
    RoiEngine.InHouseIsAllZero(ToInputs(s));
    var broker := RoiEngine.Calc(ToInputs(s));
    var axis := Sensitivity.EnhancedSavingsAxis(savingsRange.0, savingsRange.1);
    var fees := Sensitivity.EnhancedFees(feeRange.0, feeRange.1);
    Report(inHouse, broker, Projection.Cumulative(broker.totalBenefit, years),
           axis, fees, Sensitivity.Sweep(ToInputs(s), axis, fees))
  }

  /**
   On the same settings the two dashboards agree: the same broker figures, the same
   in-house figures (one written by hand, one computed), and the same projection
   when the enhanced horizon is four years.
   */
  lemma DashboardsAgree(s: Settings, years: int, savingsRange: (int, int), feeRange: (int, int))
    ensures DomainsReport(s).broker == EnhancedReport(s, years, savingsRange, feeRange).broker
    ensures DomainsReport(s).inHouse == EnhancedReport(s, years, savingsRange, feeRange).inHouse
    ensures years == 4 ==>
              DomainsReport(s).projection == EnhancedReport(s, years, savingsRange, feeRange).projection
  {
  }

  /**
   The domains sensitivity chart, for a positive spend and non-negative hours and rates.
   The highest swept fee, min(50, f + 2), is always positive, so its line rises strictly
   from left to right. A swept fee clamped to 0 (the lowest one when f <= 2, the middle
   one too when f == 0) gives a line undefined throughout; every other line rises
   strictly and lies on or above the line of the next larger fee.
   */
  lemma DomainsChartShape(s: Settings)
    requires DomainsWidgets(s) && s.spend > 0
    requires s.hours >= 0 && s.costPerHour >= 0 && s.oppPerHour >= 0
    ensures var g := DomainsReport(s).sensitivity;
      && Sensitivity.Rises(g[2])
      && (s.feePct <= 2 ==> Sensitivity.Undefined(g[0]))
      && (s.feePct == 0 ==> Sensitivity.Undefined(g[1]))
      && (s.feePct >= 1 ==>
            && Sensitivity.Rises(g[1])
            && (forall k :: 0 <= k < |g[1]| ==> g[2][k].value <= g[1][k].value))
      && (s.feePct >= 3 ==>
            && Sensitivity.Rises(g[0])
            && (forall k :: 0 <= k < |g[0]| ==> g[1][k].value <= g[0][k].value))
  {
    var base := ToInputs(s);
    var axis := Sensitivity.DomainsSavingsAxis(s.savingsPct);
    var fees := Sensitivity.DomainsFees(s.feePct);
    var g := DomainsReport(s).sensitivity;
    assert g[0] == Sensitivity.RoiLine(base, axis, fees[0]);
    assert g[1] == Sensitivity.RoiLine(base, axis, fees[1]);
    assert g[2] == Sensitivity.RoiLine(base, axis, fees[2]);
    Sensitivity.DomainsSavingsAxisShape(s.savingsPct);
    Sensitivity.DomainsFeesShape(s.feePct);
    Sensitivity.LineRises(base, axis, fees[2]);
    if s.feePct >= 1 {
      Sensitivity.LineRises(base, axis, fees[1]);
      Sensitivity.LinesOrderedByFee(base, axis, fees[1], fees[2]);
    }
    if s.feePct >= 3 {
      Sensitivity.LineRises(base, axis, fees[0]);
      Sensitivity.LinesOrderedByFee(base, axis, fees[0], fees[1]);
    }
  }

  /**
   The enhanced sensitivity chart, for a positive spend within the widget ranges: a
   fee-range end of 0 gives a line undefined throughout, a positive end a line that
   rises strictly, and when the low end is positive the high-fee line lies on or below
   the low-fee line.
   */
  lemma EnhancedChartShape(s: Settings, years: int, savingsRange: (int, int), feeRange: (int, int))
    requires EnhancedWidgets(s, years, savingsRange, feeRange) && s.spend > 0
    ensures var g := EnhancedReport(s, years, savingsRange, feeRange).sensitivity;
      && (feeRange.0 == 0 ==> Sensitivity.Undefined(g[0]))
      && (feeRange.1 == 0 ==> Sensitivity.Undefined(g[1]))
      && (feeRange.0 > 0 ==> Sensitivity.Rises(g[0]))
      && (feeRange.1 > 0 ==> Sensitivity.Rises(g[1]))
      && (feeRange.0 > 0 ==> forall k :: 0 <= k < |g[0]| ==> g[1][k].value <= g[0][k].value)
  {
    var base := ToInputs(s);
    var axis := Sensitivity.EnhancedSavingsAxis(savingsRange.0, savingsRange.1);
    var g := EnhancedReport(s, years, savingsRange, feeRange).sensitivity;
    assert g[0] == Sensitivity.RoiLine(base, axis, feeRange.0);
    assert g[1] == Sensitivity.RoiLine(base, axis, feeRange.1);
    Sensitivity.EnhancedSavingsAxisShape(savingsRange.0, savingsRange.1);
    if feeRange.0 > 0 {
      Sensitivity.LineRises(base, axis, feeRange.0);
      Sensitivity.LinesOrderedByFee(base, axis, feeRange.0, feeRange.1);
    }
    if feeRange.1 > 0 {
      Sensitivity.LineRises(base, axis, feeRange.1);
    }
  }
}
