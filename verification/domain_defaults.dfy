/**
 The domains dashboard's table of per-domain starting values, and the settings the
 dashboard opens with once a domain is picked.
 */
module DomainDefaults {
  import opened Wrappers
  import RoiEngine
  import Dashboards
  import Sensitivity

  /** One domain's default savings %, fee % and annual procurement hours. */
  datatype Defaults = Defaults(savingsPct: int, feePct: int, baselineHours: int)

  /** The domain labels, in the order the selection box lists them. */
  const Domains: seq<string> :=
    ["Telecom", "Mobility & IoT", "Cloud & SaaS", "Security", "Governance", "All"]

  /**
   The fixed table from domain label to its defaults: keyed by exactly the listed
   domains, every entry a 10 % fee, a savings % in [0, 100] and positive hours.
   */
  function Table(): (t: map<string, Defaults>)
    ensures t.Keys == set d | d in Domains
    ensures forall d :: d in t ==> t[d].feePct == 10
    ensures forall d :: d in t ==> 0 <= t[d].savingsPct <= 100 && t[d].baselineHours > 0
  {
    map[
      "Telecom" := Defaults(35, 10, 400),
      "Mobility & IoT" := Defaults(25, 10, 450),
      "Cloud & SaaS" := Defaults(30, 10, 500),
      "Security" := Defaults(20, 10, 350),
      "Governance" := Defaults(15, 10, 300),
      "All" := Defaults(30, 10, 500)
    ]
  }

  /**
   `domain_defaults[domain]`: defined exactly for the six listed labels (the source
   raises on any other key, which its selection box never offers). Every entry charges
   a 10 % fee and sits inside the sliders it seeds.
   */
  function Lookup(domain: string): (r: Option<Defaults>)
    ensures r.Some? <==> domain in Domains
    ensures r.Some? ==> r.value.feePct == 10
    ensures r.Some? ==> 0 <= r.value.savingsPct <= 100 && r.value.baselineHours > 0
  {
    if domain in Table() then Some(Table()[domain]) else None
  }

  /** The selection box offers six labels, each once. */
  lemma DomainsAreDistinct()
    ensures |Domains| == 6
    ensures forall j, k :: 0 <= j < k < |Domains| ==> Domains[j] != Domains[k]
  {
  }

  /**
   The settings the domains dashboard opens with for a domain: 1,000,000 spend, the
   domain's savings %, fee % and hours, 50 % time saved, 150 $/h staff cost and
   250 $/h opportunity value.
   */
  function InitialSettings(domain: string): (r: Option<Dashboards.Settings>)
    ensures r.Some? <==> domain in Domains
    ensures r.Some? ==> Dashboards.DomainsWidgets(r.value)
    ensures r.Some? ==> r.value.spend > 0 && r.value.hours > 0
    ensures r.Some? ==>
              && r.value.savingsPct == Lookup(domain).value.savingsPct
              && r.value.feePct == Lookup(domain).value.feePct
              && r.value.hours == Lookup(domain).value.baselineHours
    ensures r.Some? ==>
              && r.value.spend == 1000000 && r.value.timeSavedPct == 50
              && r.value.costPerHour == 150 && r.value.oppPerHour == 250
  {
    match Lookup(domain)
    case None => None
    case Some(d) => Some(Dashboards.Settings(1000000, d.savingsPct, d.feePct, d.baselineHours, 50, 150, 250))
  }

  /**
   Every domain opens on the chart conditions of the sensitivity lemmas: positive
   spend, non-negative hours and rates, and a fee of at least 3 %, so its opening
   chart has three rising lines ordered by fee.
   */
  lemma InitialChartsRise(domain: string)
    requires domain in Domains
    ensures var s := InitialSettings(domain).value;
      var g := Dashboards.DomainsReport(s).sensitivity;
      && Sensitivity.Rises(g[0]) && Sensitivity.Rises(g[1]) && Sensitivity.Rises(g[2])
      && (forall k :: 0 <= k < |g[0]| ==> g[2][k].value <= g[1][k].value <= g[0][k].value)
  {
    Dashboards.DomainsChartShape(InitialSettings(domain).value);
  }

  /**
   Every domain opens with a savings % of at least its 10 % fee, so its benefit pie
   chart can be drawn and the rest of the dashboard is shown.
   */
  lemma InitialPieDrawable(domain: string)
    requires domain in Domains
    ensures Dashboards.PieDrawable(InitialSettings(domain).value)
  {
    var s := InitialSettings(domain).value;
    Dashboards.PieDrawableIff(s);
  }

  /** Opening on "Cloud & SaaS": 300,000 gross, 100,000 fee, 300,000 total benefit, ROI multiples 2 and 3. */
  lemma CloudOpeningScenario()
    ensures InitialSettings("Cloud & SaaS").Some?
    ensures var m := RoiEngine.Calc(Dashboards.ToInputs(InitialSettings("Cloud & SaaS").value));
      && m.grossSavings == 300000.0 && m.feeCost == 100000.0 && m.netSavings == 200000.0
      && m.hoursSaved == 250.0 && m.timeValue == 37500.0 && m.oppValue == 62500.0
      && m.totalBenefit == 300000.0
      && m.financialRoi == Some(2.0) && m.totalRoi == Some(3.0)
  {
    assert "Cloud & SaaS" in Domains;
    RoiEngine.DefaultScenario();
  }
}
