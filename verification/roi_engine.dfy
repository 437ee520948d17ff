/**
 The scenario arithmetic shared by both dashboards. The two Python copies
 (`calc` in the domains dashboard, `calculate_metrics` in the enhanced one) are
 the same seven-line computation; it is defined once here.

 Every quantity is an exact `real`. The source works on Python floats and marks an
 undefined ratio with `np.nan`; here an undefined ratio is `None`.
 */
module RoiEngine {
  import opened Wrappers

  /** The seven numbers a dashboard feeds to its calculation function. */
  datatype Inputs = Inputs(
    spend: real,          // annual IT spend, in dollars
    savingsPct: real,     // expected broker savings, percent of spend
    feePct: real,         // broker fee, percent of spend
    hours: real,          // annual procurement hours
    timeSavedPct: real,   // hours saved by the broker, percent of `hours`
    costPerHour: real,    // staff cost per hour, in dollars
    oppPerHour: real      // opportunity value per hour, in dollars
  )

  /** The nine figures the calculation returns, in the source's order. */
  datatype Metrics = Metrics(
    grossSavings: real,
    feeCost: real,
    netSavings: real,
    hoursSaved: real,
    timeValue: real,
    oppValue: real,
    totalBenefit: real,
    financialRoi: Option<real>,
    totalRoi: Option<real>
  )

  /** Python's `x / y if y else np.nan`: a float is falsy exactly when it is zero. */
  function Ratio(x: real, y: real): (r: Option<real>)
    ensures r.None? <==> y == 0.0
    ensures r.Some? ==> r.value * y == x
  {
    if y != 0.0 then Some(x / y) else None
  }

  /** `calc` / `calculate_metrics`: one scenario's savings, time value and ROI multiples. */
  function Calc(i: Inputs): (m: Metrics)
    ensures m.feeCost == 0.0 <==> i.spend == 0.0 || i.feePct == 0.0
    ensures m.netSavings == m.grossSavings - m.feeCost
    ensures m.totalBenefit == m.netSavings + m.timeValue + m.oppValue
    ensures m.financialRoi.None? <==> m.feeCost == 0.0
    ensures m.totalRoi.None? <==> m.feeCost == 0.0
    ensures m.financialRoi.Some? ==> m.financialRoi.value * m.feeCost == m.netSavings
    ensures m.totalRoi.Some? ==> m.totalRoi.value * m.feeCost == m.totalBenefit
  {
    PercentOfZero(i.spend, i.feePct);
    var gross := i.spend * i.savingsPct / 100.0;
    var fee := i.spend * i.feePct / 100.0;
    var net := gross - fee;
    var hoursSaved := i.hours * i.timeSavedPct / 100.0;
    var timeValue := hoursSaved * i.costPerHour;
    var oppValue := hoursSaved * i.oppPerHour;
    var total := net + timeValue + oppValue;
    Metrics(gross, fee, net, hoursSaved, timeValue, oppValue, total,
            Ratio(net, fee), Ratio(total, fee))
  }

  /** A percentage of an amount is zero exactly when the amount or the percentage is. */
  lemma PercentOfZero(a: real, p: real)
    ensures a * p / 100.0 == 0.0 <==> a == 0.0 || p == 0.0
  {
    if a != 0.0 && p != 0.0 {
      assert a * p != 0.0;
    }
  }

  /**
   An independent, relational statement of what a correct result is: each figure is
   pinned by an equation over the inputs, and each ROI multiple is the number that,
   multiplied by the fee cost, gives back its numerator (undefined for a zero fee cost).
   */
  ghost predicate IsScenarioOf(i: Inputs, m: Metrics) {
    && m.grossSavings * 100.0 == i.spend * i.savingsPct
    && m.feeCost * 100.0 == i.spend * i.feePct
    && m.netSavings == m.grossSavings - m.feeCost
    && m.hoursSaved * 100.0 == i.hours * i.timeSavedPct
    && m.timeValue == m.hoursSaved * i.costPerHour
    && m.oppValue == m.hoursSaved * i.oppPerHour
    && m.totalBenefit == m.netSavings + m.timeValue + m.oppValue
    && (m.feeCost == 0.0 ==> m.financialRoi == None && m.totalRoi == None)
    && (m.feeCost != 0.0 ==>
          && m.financialRoi.Some? && m.financialRoi.value * m.feeCost == m.netSavings
          && m.totalRoi.Some? && m.totalRoi.value * m.feeCost == m.totalBenefit)
  }

  /** Multiplying both sides by a nonzero factor is reversible. */
  lemma CancelFactor(a: real, b: real, c: real)
    requires c != 0.0
    requires a * c == b * c
    ensures a == b
  {
    assert (a - b) * c == 0.0;
  }

  /** `Calc`'s result meets the relational statement. */
  lemma CalcMeetsScenario(i: Inputs)
    ensures IsScenarioOf(i, Calc(i))
  {
    var c := Calc(i);
    assert c.grossSavings * 100.0 == i.spend * i.savingsPct;
    assert c.feeCost * 100.0 == i.spend * i.feePct;
    assert c.hoursSaved * 100.0 == i.hours * i.timeSavedPct;
  }

  /** The relational statement leaves no freedom: only `Calc`'s result meets it. */
  lemma ScenarioIsUnique(i: Inputs, m: Metrics)
    requires IsScenarioOf(i, m)
    ensures m == Calc(i)
  {
    var c := Calc(i);
    CalcMeetsScenario(i);
    CancelFactor(m.grossSavings, c.grossSavings, 100.0);
    CancelFactor(m.feeCost, c.feeCost, 100.0);
    CancelFactor(m.hoursSaved, c.hoursSaved, 100.0);
    assert m.netSavings == c.netSavings;
    assert m.timeValue == c.timeValue && m.oppValue == c.oppValue;
    assert m.totalBenefit == c.totalBenefit;
    if m.feeCost != 0.0 {
      CancelFactor(m.financialRoi.value, c.financialRoi.value, m.feeCost);
      CancelFactor(m.totalRoi.value, c.totalRoi.value, m.feeCost);
    }
  }

  /** `Calc` returns exactly the scenarios the relational statement describes. */
  lemma CalcIsTheScenario(i: Inputs, m: Metrics)
    ensures IsScenarioOf(i, m) <==> m == Calc(i)
  {
    CalcMeetsScenario(i);
    if IsScenarioOf(i, m) {
      ScenarioIsUnique(i, m);
    }
  }

  /** The fee cost vanishes, and both ROI multiples are undefined, exactly when spend or fee % is zero. */
  lemma ZeroFeeCostUndefined(i: Inputs)
    ensures Calc(i).feeCost == 0.0 <==> i.spend == 0.0 || i.feePct == 0.0
    ensures Calc(i).financialRoi == None <==> i.spend == 0.0 || i.feePct == 0.0
    ensures Calc(i).totalRoi == None <==> i.spend == 0.0 || i.feePct == 0.0
  {
    var m := Calc(i);
    assert m.feeCost * 100.0 == i.spend * i.feePct;
    if i.spend != 0.0 && i.feePct != 0.0 {
      assert i.spend * i.feePct != 0.0;
    }
  }

  /** A product of two non-negative reals is non-negative. */
  lemma MulNonNeg(a: real, b: real)
    requires a >= 0.0 && b >= 0.0
    ensures a * b >= 0.0
  {
  }

  /** With non-negative hours, time-saved %, cost and opportunity rates, the time terms only add to the net savings. */
  lemma TotalBenefitAtLeastNet(i: Inputs)
    requires i.hours >= 0.0 && i.timeSavedPct >= 0.0
    requires i.costPerHour >= 0.0 && i.oppPerHour >= 0.0
    ensures Calc(i).hoursSaved >= 0.0
    ensures Calc(i).timeValue >= 0.0 && Calc(i).oppValue >= 0.0
    ensures Calc(i).totalBenefit >= Calc(i).netSavings
  {
    var m := Calc(i);
    MulNonNeg(i.hours, i.timeSavedPct);
    assert m.hoursSaved >= 0.0;
    MulNonNeg(m.hoursSaved, i.costPerHour);
    MulNonNeg(m.hoursSaved, i.oppPerHour);
  }

  /** The slider ranges of the enhanced dashboard: spend >= 0, savings in [0,100], fee in [0,50]. */
  ghost predicate InSliderRange(i: Inputs) {
    && i.spend >= 0.0
    && 0.0 <= i.savingsPct <= 100.0
    && 0.0 <= i.feePct <= 50.0
  }

  /** Within the slider ranges gross savings never exceed spend and the fee never exceeds half of it. */
  lemma SliderBounds(i: Inputs)
    requires InSliderRange(i)
    ensures 0.0 <= Calc(i).grossSavings <= i.spend
    ensures 0.0 <= Calc(i).feeCost <= i.spend / 2.0
    ensures -i.spend / 2.0 <= Calc(i).netSavings <= i.spend
  {
    var m := Calc(i);
    MulNonNeg(i.spend, i.savingsPct);
    MulNonNeg(i.spend, 100.0 - i.savingsPct);
    MulNonNeg(i.spend, i.feePct);
    MulNonNeg(i.spend, 50.0 - i.feePct);
    assert m.grossSavings * 100.0 == i.spend * i.savingsPct;
    assert m.feeCost * 100.0 == i.spend * i.feePct;
  }

  /** The financial ROI multiple does not depend on spend: it is savings % over fee %, minus one. */
  lemma FinancialRoiClosedForm(i: Inputs)
    requires i.spend != 0.0 && i.feePct != 0.0
    ensures Calc(i).financialRoi == Some(i.savingsPct / i.feePct - 1.0)
  {
    var m := Calc(i);
    ZeroFeeCostUndefined(i);
    var x := i.savingsPct / i.feePct - 1.0;
    assert x * i.feePct == i.savingsPct - i.feePct;
    calc {
      x * m.feeCost;
      x * (i.spend * i.feePct / 100.0);
      (x * i.feePct) * i.spend / 100.0;
      (i.savingsPct - i.feePct) * i.spend / 100.0;
      m.netSavings;
    }
    CancelFactor(x, m.financialRoi.value, m.feeCost);
  }

  /** The enhanced dashboard's in-house scenario: the broker's savings, fee and time saved all set to zero. */
  function InHouse(i: Inputs): (h: Inputs)
    ensures h.savingsPct == 0.0 && h.feePct == 0.0 && h.timeSavedPct == 0.0
    ensures h.spend == i.spend && h.hours == i.hours
    ensures h.costPerHour == i.costPerHour && h.oppPerHour == i.oppPerHour
  {
    i.(savingsPct := 0.0, feePct := 0.0, timeSavedPct := 0.0)
  }

  /**
   The domains dashboard's hard-coded in-house column: seven zeros and two undefined
   ratios. It is a genuine result of the calculation for every in-house scenario,
   whatever the spend, hours and hourly rates.
   */
  function InHouseColumn(): (m: Metrics)
    ensures forall i :: IsScenarioOf(InHouse(i), m)
  {
    Metrics(0.0, 0.0, 0.0, 0.0, 0.0, 0.0, 0.0, None, None)
  }

  /**
   Computing the in-house scenario (as the enhanced dashboard does) gives exactly the
   column the domains dashboard writes down by hand, whatever the spend, hours and rates.
   */
  lemma InHouseIsAllZero(i: Inputs)
    ensures Calc(InHouse(i)) == InHouseColumn()
  {
  }

  /** The inputs with the savings and fee percentages replaced, as the sensitivity sweep does at each grid point. */
  function WithSavingsAndFee(i: Inputs, savingsPct: real, feePct: real): (j: Inputs)
    ensures j.savingsPct == savingsPct && j.feePct == feePct
    ensures j.spend == i.spend && j.hours == i.hours && j.timeSavedPct == i.timeSavedPct
    ensures j.costPerHour == i.costPerHour && j.oppPerHour == i.oppPerHour
  {
    i.(savingsPct := savingsPct, feePct := feePct)
  }

  /** Dividing by a positive number keeps order. */
  lemma DivMonotone(a: real, b: real, c: real)
    requires a <= b && c > 0.0
    ensures a / c <= b / c
  {
    assert b / c - a / c == (b - a) / c;
  }

  /** Dividing by a positive number keeps strict order. */
  lemma DivStrictMonotone(a: real, b: real, c: real)
    requires a < b && c > 0.0
    ensures a / c < b / c
  {
    assert b / c - a / c == (b - a) / c;
  }

  /** A non-negative number divided by a larger positive number gets no larger. */
  lemma DivAntitone(a: real, b: real, c: real)
    requires a >= 0.0 && 0.0 < b <= c
    ensures a / c <= a / b
  {
    assert a / b - a / c == a * (c - b) / (b * c);
    MulNonNeg(a, c - b);
  }

  /**
   With non-negative spend and a fee cost that is defined, raising the savings
   percentage never lowers the total ROI multiple (strictly raises it when spend > 0):
   the curves of the sensitivity chart rise from left to right.
   */
  lemma TotalRoiMonotoneInSavings(i: Inputs, s1: real, s2: real)
    requires i.spend >= 0.0 && Calc(i).feeCost > 0.0
    requires s1 <= s2
    ensures Calc(WithSavingsAndFee(i, s1, i.feePct)).totalRoi.Some?
    ensures Calc(WithSavingsAndFee(i, s2, i.feePct)).totalRoi.Some?
    ensures Calc(WithSavingsAndFee(i, s1, i.feePct)).totalRoi.value
            <= Calc(WithSavingsAndFee(i, s2, i.feePct)).totalRoi.value
    ensures s1 < s2 ==>
            Calc(WithSavingsAndFee(i, s1, i.feePct)).totalRoi.value
            < Calc(WithSavingsAndFee(i, s2, i.feePct)).totalRoi.value
  {
    var m1 := Calc(WithSavingsAndFee(i, s1, i.feePct));
    var m2 := Calc(WithSavingsAndFee(i, s2, i.feePct));
    var f := Calc(i).feeCost;
    assert m1.feeCost == f && m2.feeCost == f;
    ZeroFeeCostUndefined(i);
    assert i.spend > 0.0;
    MulNonNeg(i.spend, s2 - s1);
    assert m1.grossSavings <= m2.grossSavings;
    assert m1.totalBenefit - m1.grossSavings == m2.totalBenefit - m2.grossSavings;
    DivMonotone(m1.totalBenefit, m2.totalBenefit, f);
    if s1 < s2 {
      assert i.spend * (s2 - s1) > 0.0;
      DivStrictMonotone(m1.totalBenefit, m2.totalBenefit, f);
    }
  }

  /**
   With non-negative inputs otherwise, a higher (non-zero) fee percentage never
   raises the total ROI multiple: in the sensitivity chart the line of a larger fee
   lies on or below the line of a smaller one.
   */
  lemma TotalRoiAntitoneInFee(i: Inputs, f1: real, f2: real)
    requires i.spend > 0.0 && i.savingsPct >= 0.0
    requires i.hours >= 0.0 && i.timeSavedPct >= 0.0
    requires i.costPerHour >= 0.0 && i.oppPerHour >= 0.0
    requires 0.0 < f1 <= f2
    ensures Calc(WithSavingsAndFee(i, i.savingsPct, f1)).totalRoi.Some?
    ensures Calc(WithSavingsAndFee(i, i.savingsPct, f2)).totalRoi.Some?
    ensures Calc(WithSavingsAndFee(i, i.savingsPct, f2)).totalRoi.value
            <= Calc(WithSavingsAndFee(i, i.savingsPct, f1)).totalRoi.value
  {
    var j1 := WithSavingsAndFee(i, i.savingsPct, f1);
    var j2 := WithSavingsAndFee(i, i.savingsPct, f2);
    FeeCostOrdered(i.spend, f1, f2);
    assert Calc(j1).feeCost == i.spend * f1 / 100.0;
    assert Calc(j2).feeCost == i.spend * f2 / 100.0;
    // Everything except the fee itself (gross savings plus the two time terms) is the same for both fees.
    var g := FeeFreeBenefit(j1);
    assert g == FeeFreeBenefit(j2);
    FeeFreeBenefitNonNeg(j1);
    TotalRoiAsQuotient(j1);
    TotalRoiAsQuotient(j2);
    DivAntitone(g, Calc(j1).feeCost, Calc(j2).feeCost);
  }

  /** Gross savings plus time value plus opportunity value: the total benefit before the fee. */
  function FeeFreeBenefit(i: Inputs): (g: real)
    ensures g == Calc(i).totalBenefit + Calc(i).feeCost
  {
    Calc(i).grossSavings + Calc(i).timeValue + Calc(i).oppValue
  }

  /** The benefit before the fee is non-negative when every input it uses is. */
  lemma FeeFreeBenefitNonNeg(i: Inputs)
    requires i.spend >= 0.0 && i.savingsPct >= 0.0
    requires i.hours >= 0.0 && i.timeSavedPct >= 0.0
    requires i.costPerHour >= 0.0 && i.oppPerHour >= 0.0
    ensures FeeFreeBenefit(i) >= 0.0
  {
    TotalBenefitAtLeastNet(i);
    MulNonNeg(i.spend, i.savingsPct);
    assert Calc(i).grossSavings >= 0.0;
  }

  /** For a positive fee cost the total ROI multiple is the fee-free benefit per dollar of fee, minus one. */
  lemma TotalRoiAsQuotient(i: Inputs)
    requires Calc(i).feeCost > 0.0
    ensures Calc(i).totalRoi == Some(FeeFreeBenefit(i) / Calc(i).feeCost - 1.0)
  {
    var m := Calc(i);
    RoiAsQuotient(FeeFreeBenefit(i), m.feeCost, m.totalRoi.value);
  }

  /** A larger positive fee percentage on a positive spend means a larger positive fee cost. */
  lemma FeeCostOrdered(spend: real, f1: real, f2: real)
    requires spend > 0.0 && 0.0 < f1 <= f2
    ensures 0.0 < spend * f1 / 100.0 <= spend * f2 / 100.0
  {
    MulNonNeg(spend, f2 - f1);
    assert spend * f1 > 0.0;
  }

  /** A multiple `r` with `r * fee == g - fee` is `g / fee - 1`. */
  lemma RoiAsQuotient(g: real, fee: real, r: real)
    requires fee > 0.0 && r * fee == g - fee
    ensures r == g / fee - 1.0
  {
    CancelFactor(r, g / fee - 1.0, fee);
  }

  /**
   The dashed line at 1 on both sensitivity charts marks break-even: with a positive
   fee cost, the total ROI multiple is at least 1 exactly when the total benefit covers
   the fee, and the financial multiple is at least 0 exactly when net savings are.
   */
  lemma BreakEven(i: Inputs)
    requires Calc(i).feeCost > 0.0
    ensures Calc(i).totalRoi.value >= 1.0 <==> Calc(i).totalBenefit >= Calc(i).feeCost
    ensures Calc(i).financialRoi.value >= 0.0 <==> Calc(i).netSavings >= 0.0
  {
    var m := Calc(i);
    var f := m.feeCost;
    assert (m.totalRoi.value - 1.0) * f == m.totalBenefit - f;
    if m.totalRoi.value >= 1.0 {
      MulNonNeg(m.totalRoi.value - 1.0, f);
    } else {
      assert (1.0 - m.totalRoi.value) * f > 0.0;
    }
    if m.financialRoi.value >= 0.0 {
      MulNonNeg(m.financialRoi.value, f);
    } else {
      assert (0.0 - m.financialRoi.value) * f > 0.0;
    }
  }

  /**
   The enhanced dashboard's opening values (and the domains dashboard's with the
   "Cloud & SaaS" or "All" domain): 1,000,000 spend, 30 % savings, 10 % fee, 500 hours,
   50 % time saved, 150 $/h staff cost, 250 $/h opportunity value.
   */
  lemma DefaultScenario()
    ensures Calc(Inputs(1000000.0, 30.0, 10.0, 500.0, 50.0, 150.0, 250.0))
            == Metrics(300000.0, 100000.0, 200000.0, 250.0, 37500.0, 62500.0, 300000.0,
                       Some(2.0), Some(3.0))
  {
  }
}
