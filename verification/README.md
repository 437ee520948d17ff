# TREU IT Broker ROI calculator — a Dafny model of the scenario arithmetic

The TREU calculator consists of Streamlit dashboards that compare running IT
procurement in-house against engaging an IT broker. Two of them hold all the logic
that is modelled here:

- the *domains* dashboard (`it_broker_roi_calculator_enhanced_style_domains_fixed.py`),
  which seeds its sliders from a per-domain table of defaults, plots a four-year
  cumulative projection and a three-fee sensitivity chart;
- the *enhanced* dashboard (`it_broker_roi_calculator_enhanced.py`), which computes an
  in-house scenario alongside the broker one, plots an N-year projection and a
  sensitivity chart over a chosen savings range at the two ends of a chosen fee range.

Both files carry identical copies of one calculation (`calc` / `calculate_metrics`):
from spend, savings %, fee %, hours, time-saved %, cost per hour and opportunity value
per hour it derives gross savings, fee cost, net savings, hours saved, time value,
opportunity value, total benefit, and two ROI multiples (net savings and total benefit
per dollar of fee), which are "undefined" (`np.nan`) when the fee cost is zero.

## Modules

- `Wrappers` (`wrappers.dfy`): `Option`, standing in for the `np.nan` sentinel.
- `RoiEngine` (`roi_engine.dfy`): the calculation, defined once as `Calc` over exact
  `real`s; a relational statement `IsScenarioOf` that pins every figure by an equation,
  proved to characterise `Calc` in both directions; the zero-fee policy, bounds,
  break-even, the closed form of the financial ROI, monotonicity of the total ROI in
  savings % and in fee %, and the in-house scenario.
- `PyRange` (`py_range.dfy`): Python's `range(start, stop, step)` for a positive step.
- `Projection` (`projection.dfy`): the cumulative-benefit projection.
- `Sensitivity` (`sensitivity.dfy`): the savings axes, fee lists, ROI lines and sweeps
  of both charts.
- `Dashboards` (`dashboards.dfy`): what each dashboard derives from its widget values,
  and the facts that relate the two dashboards.
- `DomainDefaults` (`domain_defaults.dfy`): the per-domain defaults table and the
  settings the domains dashboard opens with.

Where the two dashboards differ the model keeps both behaviours: the domains dashboard
writes its in-house column by hand while the enhanced one computes it (`DashboardsAgree`
proves they coincide); the domains projection is fixed at four entries even though its
heading reads "3-Year", while the enhanced one follows the forecast slider; the domains
chart sweeps three fees around the chosen one, the enhanced chart only the two ends of
the fee range.

Every widget of both dashboards produces a Python int, so the dashboard-level
`Settings` record holds ints and converts them to `real` for the calculation; the
sensitivity axes are built from those ints with `range`. The calculation itself
validates nothing: a negative spend (which the domains dashboard's spend input allows)
or an out-of-range percentage flows straight through the arithmetic, and `Calc`
accordingly has no precondition. Facts that need the widget ranges take them as
preconditions of lemmas (`InSliderRange`, `DomainsWidgets`, `EnhancedWidgets`).

## Model

| member | source | states |
|---|---|---|
| `RoiEngine.Ratio` | it_broker_roi_calculator_enhanced_style_domains_fixed.py:71-72 | A ratio is undefined exactly when its denominator is zero; otherwise it times the denominator gives back the numerator. |
| `RoiEngine.Calc` | it_broker_roi_calculator_enhanced_style_domains_fixed.py:63-73 | The fee cost is zero iff spend or fee % is zero; net savings are gross savings minus the fee cost; total benefit is net savings plus time and opportunity value; each ROI multiple is undefined iff the fee cost is zero, and otherwise multiplied by the fee cost yields net savings (financial) or total benefit (total). |
| `RoiEngine.CalcMeetsScenario` | it_broker_roi_calculator_enhanced.py:52-60 | The computed figures satisfy every defining equation: gross·100 = spend·savings%, fee·100 = spend·fee%, hours saved·100 = hours·time%, time and opportunity value are hours saved times the hourly rates. |
| `RoiEngine.ScenarioIsUnique` | it_broker_roi_calculator_enhanced.py:52-60 | Any record meeting those equations is the computed one: the equations leave no freedom. |
| `RoiEngine.CalcIsTheScenario` | it_broker_roi_calculator_enhanced.py:51-71 | A record satisfies the relational statement of a scenario if and only if it is the calculation's result. |
| `RoiEngine.ZeroFeeCostUndefined` | it_broker_roi_calculator_enhanced.py:53-60 | The fee cost is zero iff spend or fee % is zero, and exactly then both ROI multiples are undefined rather than an error. |
| `RoiEngine.TotalBenefitAtLeastNet` | it_broker_roi_calculator_enhanced_style_domains_fixed.py:67-70 | With non-negative hours, time %, staff cost and opportunity rate, hours saved, time value and opportunity value are non-negative, so total benefit is at least net savings. |
| `RoiEngine.SliderBounds` | it_broker_roi_calculator_enhanced.py:36-53 | With spend ≥ 0, savings % in [0,100] and fee % in [0,50]: 0 ≤ gross ≤ spend, 0 ≤ fee cost ≤ spend/2, and −spend/2 ≤ net ≤ spend. |
| `RoiEngine.FinancialRoiClosedForm` | it_broker_roi_calculator_enhanced_style_domains_fixed.py:64-71 | For non-zero spend and fee %, the financial ROI is savings % / fee % − 1, independent of spend. |
| `RoiEngine.InHouseIsAllZero` | it_broker_roi_calculator_enhanced.py:74 | The in-house scenario (savings, fee and time saved all 0) yields seven zero figures and two undefined ROI multiples, whatever the spend, hours and rates. |
| `RoiEngine.InHouse` | it_broker_roi_calculator_enhanced.py:74 | The in-house inputs keep spend, hours and both hourly rates and set savings %, fee % and time saved % to 0. |
| `RoiEngine.InHouseColumn` | it_broker_roi_calculator_enhanced_style_domains_fixed.py:102-112 | The hand-written in-house column (seven zeros, two undefined ratios) satisfies every defining equation of a scenario for the in-house inputs of any spend, hours and rates. |
| `RoiEngine.TotalRoiMonotoneInSavings` | it_broker_roi_calculator_enhanced.py:102-103 | For non-negative spend and a positive fee cost, raising savings % never lowers the total ROI, and strictly raises it when savings % strictly rises. |
| `RoiEngine.TotalRoiAntitoneInFee` | it_broker_roi_calculator_enhanced_style_domains_fixed.py:145-146 | For positive spend and otherwise non-negative inputs, a larger positive fee % never gives a larger total ROI. |
| `RoiEngine.BreakEven` | it_broker_roi_calculator_enhanced_style_domains_fixed.py:148 | For a positive fee cost, total ROI ≥ 1 iff total benefit covers the fee, and financial ROI ≥ 0 iff net savings are non-negative. |
| `RoiEngine.DefaultScenario` | it_broker_roi_calculator_enhanced.py:36-42 | The opening inputs (1,000,000; 30 %; 10 %; 500 h; 50 %; 150; 250) give 300,000 gross, 100,000 fee, 200,000 net, 250 h saved, 37,500 time value, 62,500 opportunity value, 300,000 total, ROI multiples 2 and 3. |
| `PyRange.Range` | it_broker_roi_calculator_enhanced.py:100 | `range(start, stop, step)` is empty iff start ≥ stop; element k is start + k·step; every element is below stop and one more step would reach it. |
| `PyRange.RangeBoundsAndOrder` | it_broker_roi_calculator_enhanced_style_domains_fixed.py:143 | Every element lies in [start, stop) and the elements strictly increase. |
| `PyRange.RangeLengthStep5` | it_broker_roi_calculator_enhanced.py:100 | With step 5 the length is 0 for start ≥ stop and (stop − 1 − start)/5 + 1 otherwise. |
| `PyRange.RangeMembersStep5` | it_broker_roi_calculator_enhanced.py:100 | With step 5, x is an element iff start ≤ x < stop and x − start is a multiple of 5. |
| `PyRange.RangeLengthStep1` | it_broker_roi_calculator_enhanced.py:88 | With step 1 the length is stop − start for start < stop, else 0. |
| `Projection.Cumulative` | it_broker_roi_calculator_enhanced.py:88-89 | The projection has one entry per forecast year (none for a horizon below 1) and entry k is (k+1) times the yearly total benefit. |
| `Projection.FourYear` | it_broker_roi_calculator_enhanced_style_domains_fixed.py:134-136 | The domains projection always has four entries, total, 2·total, 3·total, 4·total, although its heading says "3-Year". |
| `Projection.CumulativeIsRunningSum` | it_broker_roi_calculator_enhanced.py:88-89 | The first entry is one year's benefit and each later entry adds exactly one more: the running sum of a flat yearly cash flow. |
| `Projection.CumulativeLast` | it_broker_roi_calculator_enhanced.py:88-89 | The last entry is the horizon times one year's benefit. |
| `Projection.CumulativeMonotone` | it_broker_roi_calculator_enhanced.py:88-89 | A non-negative yearly benefit gives a nondecreasing projection, a positive one a strictly increasing projection. |
| `Sensitivity.DomainsSavingsAxis` | it_broker_roi_calculator_enhanced_style_domains_fixed.py:143 | Point k of the domains axis is max(0, s−10) + 5k and never passes min(100, s+10), and one more step of 5 would pass it, so the axis runs to the last such point; the axis is empty iff the window is inverted. |
| `Sensitivity.EnhancedSavingsAxis` | it_broker_roi_calculator_enhanced.py:100 | Point k of the enhanced axis is lo + 5k and never passes hi; the axis is empty iff lo > hi. |
| `Sensitivity.DomainsFees` | it_broker_roi_calculator_enhanced_style_domains_fixed.py:145 | Three fees: the chosen f in the middle, the lowest f − 2 but 0 when f < 2, the highest f + 2 but 50 when f > 48; ordered around f whenever f is in [0, 50]. |
| `Sensitivity.EnhancedFees` | it_broker_roi_calculator_enhanced.py:102 | Two fees; a fee is among them iff it is one of the two ends of the fee range, so no fee strictly inside the range is swept. |
| `Sensitivity.RoiLine` | it_broker_roi_calculator_enhanced_style_domains_fixed.py:146 | One value per point of the axis, and the value at point k is the total ROI of the calculation at savings % axis[k] and the line's fee; every value is undefined exactly when spend or the fee is zero, so a line is undefined everywhere or nowhere. |
| `Sensitivity.DomainsSavingsAxisShape` | it_broker_roi_calculator_enhanced_style_domains_fixed.py:143 | For savings % in [0,100] the axis has (min(100, s+10) − max(0, s−10))/5 + 1 points, always 3 to 5; it starts at max(0, s−10), climbs by 5 within [max(0, s−10), min(100, s+10)], and contains s iff s ≥ 10 or s is a multiple of 5. |
| `Sensitivity.EnhancedSavingsAxisShape` | it_broker_roi_calculator_enhanced.py:100 | The axis is empty iff lo > hi; otherwise it starts at lo and has (hi−lo)/5+1 points; every point is in [lo, hi]; it strictly increases; x is on it iff lo ≤ x ≤ hi and x − lo is a multiple of 5. |
| `Sensitivity.DomainsFeesShape` | it_broker_roi_calculator_enhanced_style_domains_fixed.py:145 | For fee % f in [0,50] the three fees are ordered, all lie in [0,50], the lowest equals f iff f = 0 and the highest equals f iff f = 50. |
| `Sensitivity.Sweep` | it_broker_roi_calculator_enhanced_style_domains_fixed.py:145-146 | The sweep has one line per fee and every line has one value per savings point. |
| `Sensitivity.LineRises` | it_broker_roi_calculator_enhanced.py:102-103 | With positive spend and fee, a line over a strictly increasing axis is defined everywhere and strictly rising. |
| `Sensitivity.LinesOrderedByFee` | it_broker_roi_calculator_enhanced_style_domains_fixed.py:145-146 | With positive spend, non-negative hours and rates and a non-negative axis, the line of a larger positive fee lies pointwise on or below the line of a smaller one. |
| `Sensitivity.SweepSplits` | it_broker_roi_calculator_enhanced.py:102-103 | Sweeping a concatenation of fee lists is the concatenation of the two sweeps: each line depends only on its own fee. |
| `Sensitivity.SweepOrderIndependent` | it_broker_roi_calculator_enhanced_style_domains_fixed.py:145-146 | Sweeping with both the fees and the axis reversed gives the same values at the mirrored positions. |
| `Dashboards.DomainsReport` | it_broker_roi_calculator_enhanced_style_domains_fixed.py:76-146 | The domains dashboard reports the hand-written in-house column and the calculation's broker figures; its projection has four entries, k-th equal to (k+1) times the broker's total benefit; its sweep runs over the domains axis and the three domains fees, and the value at fee i and axis point k is the total ROI of the calculation at that savings % and fee %. The dashboard shows the projection and sweep only when `PieDrawable` holds (see `PieDrawableIff`); otherwise it stops at the pie chart. |
| `Dashboards.EnhancedReport` | it_broker_roi_calculator_enhanced.py:74-103 | The enhanced dashboard's computed in-house figures are the all-zero column with undefined ROIs and its broker figures are the calculation's; its projection has one entry per forecast year; its axis is the enhanced axis, empty iff the savings range is inverted; its sweep has exactly two lines, at the fee-range ends, whose value at axis point k is the total ROI of the calculation at that savings % and fee %. |
| `Dashboards.DashboardsAgree` | it_broker_roi_calculator_enhanced_style_domains_fixed.py:102-112 | On the same settings both dashboards report the same broker figures and the same in-house figures (hand-written in one, computed in the other), and the same projection when the horizon is four years. |
| `Dashboards.PieDrawableIff` | it_broker_roi_calculator_enhanced_style_domains_fixed.py:128-131 | With positive spend and non-negative hours, time saved and rates, the pie's three wedges (net savings, time value, opportunity value) are all non-negative exactly when savings % ≥ fee %. |
| `Dashboards.DomainsChartShape` | it_broker_roi_calculator_enhanced_style_domains_fixed.py:142-147 | For positive spend and non-negative hours and rates, at every fee setting: the highest-fee line always rises strictly; a swept fee clamped to 0 (the lowest when f ≤ 2, the middle too when f = 0) gives a line undefined throughout; every other line rises strictly and lies on or above the next larger fee's line. The chart is on screen only when `PieDrawable` also holds, i.e. when savings % ≥ fee %. |
| `Dashboards.EnhancedChartShape` | it_broker_roi_calculator_enhanced.py:98-104 | For positive spend within the widget ranges: a fee-range end of 0 gives a line undefined throughout, a positive end a strictly rising line, and with a positive low end the high-fee line lies on or below the low-fee line. |
| `DomainDefaults.Table` | it_broker_roi_calculator_enhanced_style_domains_fixed.py:8-15 | The table's keys are exactly the six selectable domains, and every entry has a 10 % fee, savings % in [0,100] and positive hours. |
| `DomainDefaults.Lookup` | it_broker_roi_calculator_enhanced_style_domains_fixed.py:8-15 | The lookup is defined exactly for the six listed domains; every entry has a 10 % fee, savings % in [0,100] and positive hours. |
| `DomainDefaults.DomainsAreDistinct` | it_broker_roi_calculator_enhanced_style_domains_fixed.py:8-15 | The selection box offers six labels, each listed once. |
| `DomainDefaults.InitialSettings` | it_broker_roi_calculator_enhanced_style_domains_fixed.py:36-60 | Opening settings exist exactly for the six domains; savings %, fee % and hours are the domain's table entry, and spend, time saved, staff cost and opportunity value open at 1,000,000, 50 %, 150 and 250; they lie within the slider ranges. |
| `DomainDefaults.InitialChartsRise` | it_broker_roi_calculator_enhanced_style_domains_fixed.py:142-147 | Every domain's opening sensitivity chart has three defined, strictly rising lines ordered by fee. |
| `DomainDefaults.InitialPieDrawable` | it_broker_roi_calculator_enhanced_style_domains_fixed.py:36-60 | Every domain opens with its pie chart drawable, so the opening dashboard reaches the projection and sensitivity chart. |
| `DomainDefaults.CloudOpeningScenario` | it_broker_roi_calculator_enhanced_style_domains_fixed.py:11 | Opening on "Cloud & SaaS" gives 300,000 gross, 100,000 fee, 200,000 net, 250 h saved, 37,500 and 62,500 of time and opportunity value, 300,000 total, ROI multiples 2 and 3. |

## Left out

- Streamlit page configuration, CSS theming, widgets, metric cards and tables: user interface; the widgets' values enter the model as `Settings`, their ranges as lemma preconditions.
- matplotlib charts (including the benefit pie chart) and the pandas DataFrames and CSV download: presentation and serialisation over libraries that are not modelled; the model stops at the numbers they are given.
- Number formatting of the metric cards (`:,.0f`, `:.2f`): presentation only.
- IEEE-754 floating point: all arithmetic is exact `real`, so rounding is not modelled, and `np.nan` is modelled as `None` rather than a float that propagates through later arithmetic.
- `Dashboards.DomainsReport`: the domains dashboard draws the benefit pie chart before the projection and sensitivity chart, and the plotting library rejects a negative wedge, so when net savings (savings % below fee %), time value or opportunity value is negative the dashboard stops there and shows neither; the report is computed for every setting, and `PieDrawable` names the condition under which it is what the dashboard shows. The plotting library's own behaviour is not modelled.
- `DomainDefaults.Lookup`: the source raises `KeyError` for a label outside the table; the model returns `None`, since the selection box only offers the table's keys.
- Net present value, discounting, payback period and per-category licence/implementation rates: none of these occur in the two dashboards modelled here.
- Input validation: the dashboards' calculation rejects nothing (negative spend or out-of-range percentages are computed through), so the model does not add a validation error either.
- `Sensitivity.Sweep`: its contract gives only the shape of the grid; the value at each grid point is stated by the value clauses of `Dashboards.DomainsReport` and `Dashboards.EnhancedReport`, and how values relate by `LineRises`, `LinesOrderedByFee` and `SweepOrderIndependent`.
