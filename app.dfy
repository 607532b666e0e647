/**
 * The decision logic embedded in the request handlers: the multi-year
 * comparison, the conservation alerts and the fixed-region global map. The
 * lookups each handler makes are parameters; routing, JSON and the blanket
 * error responses are not modelled.
 */
module App {
  import opened Wrappers
  import opened Numeric
  import opened Climate
  import BloomDetector

  // ===========================================================================
  // Multi-year comparison
  // ===========================================================================

  /** The three months sampled each year: northern spring or southern spring. */
  function SampledMonths(lat: real): (months: seq<int>)
    ensures |months| == 3
    ensures months == [3, 4, 5] <==> lat >= 0.0
    ensures months == [9, 10, 11] <==> lat < 0.0
  {
    if lat >= 0.0 then [3, 4, 5] else [9, 10, 11]
  }

  /** One entry of `years_data`. */
  datatype YearData = YearData(year: int, avgNdvi: real, months: seq<int>, values: seq<real>)

  datatype Trend = Increasing | Decreasing

  /** The trend from the first year's average to the last; a tie counts as decreasing. */
  function TrendOf(first: real, last: real): (t: Trend)
    ensures t == Increasing <==> last > first
    ensures t == Decreasing <==> last <= first
  {
    if last > first then Increasing else Decreasing
  }

  /** Percent change from the first average to the last; 0 when the first is not positive. */
  function ChangePercentage(first: real, last: real): (c: real)
    ensures first <= 0.0 ==> c == 0.0
    ensures first > 0.0 ==> c * first == (last - first) * 100.0
    ensures first > 0.0 ==> (c > 0.0 <==> last > first) && (c == 0.0 <==> last == first)
  {
    if first > 0.0 then ((last - first) / first) * 100.0 else 0.0
  }

  datatype ClimateImpact = Critico | Moderado | Bajo

  /** The climate-impact tier of a change, by its magnitude. */
  function ClimateImpactOf(change: real): (i: ClimateImpact)
    ensures i == Critico <==> Abs(change) > 15.0
    ensures i == Moderado <==> 8.0 < Abs(change) <= 15.0
    ensures i == Bajo <==> Abs(change) <= 8.0
  {
    if Abs(change) > 15.0 then Critico
    else if Abs(change) > 8.0 then Moderado
    else Bajo
  }

  /** The multi-year report, without the narrative sentence. */
  datatype Comparison = Comparison(
    yearsData: seq<YearData>, trend: Trend, changePercentage: real, climateImpact: ClimateImpact)

  /** The handler's only failure: indexing the averages of an empty year list. */
  datatype HandlerError = NoYears

  /**
   * `multi_year_comparison`: for each year, sample the NDVI on the 15th of
   * each of the three months (`ndviAt(year, month)`), average the three, then
   * compare the first and the last year.
   */
  method MultiYearComparison(lat: real, years: seq<int>, ndviAt: (int, int) -> real)
    returns (r: Result<Comparison, HandlerError>)
    ensures r.Failure? <==> |years| == 0
    ensures r.Success? ==>
      var data := r.value.yearsData;
      && |data| == |years|
      && (forall k :: 0 <= k < |data| ==>
            var d := data[k];
            && d.year == years[k]
            && d.months == SampledMonths(lat)
            && |d.values| == 3
            && (forall j :: 0 <= j < 3 ==> d.values[j] == ndviAt(years[k], d.months[j]))
            && d.avgNdvi == (d.values[0] + d.values[1] + d.values[2]) / 3.0
            && Min(Min(d.values[0], d.values[1]), d.values[2]) <= d.avgNdvi
            && d.avgNdvi <= Max(Max(d.values[0], d.values[1]), d.values[2]))
      && r.value.trend == TrendOf(data[0].avgNdvi, data[|data| - 1].avgNdvi)
      && r.value.changePercentage == ChangePercentage(data[0].avgNdvi, data[|data| - 1].avgNdvi)
      && r.value.climateImpact == ClimateImpactOf(r.value.changePercentage)
  {
    var comparisonData: seq<YearData> := [];
    var i := 0;
    while i < |years|
      invariant 0 <= i <= |years|
      invariant |comparisonData| == i
      invariant forall k :: 0 <= k < i ==>
        var d := comparisonData[k];
        && d.year == years[k]
        && d.months == SampledMonths(lat)
        && |d.values| == 3
        && (forall j :: 0 <= j < 3 ==> d.values[j] == ndviAt(years[k], d.months[j]))
        && d.avgNdvi == (d.values[0] + d.values[1] + d.values[2]) / 3.0
    {
      var year := years[i];
      var yearData: seq<real> := [];
      var months := SampledMonths(lat);
      var j := 0;
      while j < |months|
        invariant 0 <= j <= |months|
        invariant |yearData| == j
        invariant forall m :: 0 <= m < j ==> yearData[m] == ndviAt(year, months[m])
      {
        yearData := yearData + [ndviAt(year, months[j])];
        j := j + 1;
      }
      assert RealSum(yearData) == yearData[0] + yearData[1] + yearData[2] by {
        assert yearData[..2][..1] == yearData[..1];
        assert yearData[..1][..0] == [];
        assert RealSum(yearData[..1]) == yearData[0];
        assert RealSum(yearData[..2]) == yearData[0] + yearData[1];
      }
      var avgNdvi := RealSum(yearData) / |yearData| as real;
      comparisonData := comparisonData + [YearData(year, avgNdvi, months, yearData)];
      i := i + 1;
    }
    if |comparisonData| == 0 {
      return Failure(NoYears);
    }
    var first, last := comparisonData[0].avgNdvi, comparisonData[|comparisonData| - 1].avgNdvi;
    var trend := TrendOf(first, last);
    var change := ChangePercentage(first, last);
    r := Success(Comparison(comparisonData, trend, change, ClimateImpactOf(change)));
  }

  // ===========================================================================
  // Conservation alerts
  // ===========================================================================

  datatype AlertLevel = Critical | Warning | Info
  datatype AlertType = Degradacion | EspecieInvasora | Oportunidad

  /** An alert, without its message text (fixed per level). */
  datatype Alert = Alert(level: AlertLevel, kind: AlertType)

  datatype Recommendation =
    | InvestigateVegetationLoss
    | UrgentRestoration
    | FieldInspection
    | VerifyNonNativeSpecies
    | PlaceBeehives
    | PlanEcotourism

  /** The two recommendations every alert of a level brings. */
  function RecommendationsFor(level: AlertLevel): (rs: seq<Recommendation>)
    ensures |rs| == 2
  {
    match level
    case Critical => [InvestigateVegetationLoss, UrgentRestoration]
    case Warning => [FieldInspection, VerifyNonNativeSpecies]
    case Info => [PlaceBeehives, PlanEcotourism]
  }

  /** The recommendations a list of alerts brings, alert by alert. */
  function RecommendationsOf(alerts: seq<Alert>): (rs: seq<Recommendation>)
    ensures |rs| == 2 * |alerts|
  {
    if alerts == [] then []
    else RecommendationsOf(alerts[..|alerts| - 1]) + RecommendationsFor(alerts[|alerts| - 1].level)
  }

  /** Appending an alert appends its two recommendations. */
  lemma RecommendationsOfSnoc(alerts: seq<Alert>, a: Alert)
    ensures RecommendationsOf(alerts + [a]) == RecommendationsOf(alerts) + RecommendationsFor(a.level)
  {
    assert (alerts + [a])[..|alerts|] == alerts;
  }

  /** Two recommendations per alert, the pair at `2k` belonging to the alert at `k`. */
  lemma {:induction false} RecommendationsOfShape(alerts: seq<Alert>)
    ensures |RecommendationsOf(alerts)| == 2 * |alerts|
    ensures forall k :: 0 <= k < |alerts| ==>
      RecommendationsOf(alerts)[2 * k..2 * k + 2] == RecommendationsFor(alerts[k].level)
  {
    if alerts != [] {
      var init := alerts[..|alerts| - 1];
      RecommendationsOfShape(init);
      var rs := RecommendationsOf(alerts);
      assert rs == RecommendationsOf(init) + RecommendationsFor(alerts[|alerts| - 1].level);
      forall k | 0 <= k < |alerts|
        ensures rs[2 * k..2 * k + 2] == RecommendationsFor(alerts[k].level)
      {
        var prefix := RecommendationsOf(init);
        if k < |alerts| - 1 {
          assert rs[2 * k] == prefix[2 * k] && rs[2 * k + 1] == prefix[2 * k + 1];
          assert rs[2 * k..2 * k + 2] == prefix[2 * k..2 * k + 2];
          assert init[k] == alerts[k];
        } else {
          assert rs[2 * k..2 * k + 2] == rs[|prefix|..];
        }
      }
    }
  }

  /** Position of a level in the order the rules run. */
  function LevelRank(level: AlertLevel): nat
  {
    match level
    case Critical => 0
    case Warning => 1
    case Info => 2
  }

  /** Priority tier of a score `ndvi * 100`. */
  function PriorityLevel(score: real): (p: BloomDetector.Level)
    ensures p == BloomDetector.Alta <==> score > 60.0
    ensures p == BloomDetector.Media <==> 30.0 < score <= 60.0
    ensures p == BloomDetector.Baja <==> score <= 30.0
  {
    if score > 60.0 then BloomDetector.Alta
    else if score > 30.0 then BloomDetector.Media
    else BloomDetector.Baja
  }

  /**
   * The two priority scales disagree on sparse vegetation: the classifier
   * ranks it high while the alerts handler ranks it low.
   */
  lemma PriorityScalesDisagreeOnSparseVegetation(ndvi: real)
    requires ndvi < 0.3
    ensures BloomDetector.ConservationPriority(ndvi) == BloomDetector.Alta
    ensures PriorityLevel(ndvi * 100.0) == BloomDetector.Baja
  {
  }

  /** 1 for a rule that fires, 0 otherwise. */
  function Fired(rule: bool): nat
  {
    if rule then 1 else 0
  }

  /** The alerts of the three rules, in rule order, given which of them fire. */
  function AlertsFor(critical: bool, warning: bool, info: bool): (alerts: seq<Alert>)
    ensures |alerts| == Fired(critical) + Fired(warning) + Fired(info)
  {
    (if critical then [Alert(Critical, Degradacion)] else [])
    + (if warning then [Alert(Warning, EspecieInvasora)] else [])
    + (if info then [Alert(Info, Oportunidad)] else [])
  }

  /**
   * Each alert comes from its own rule, the alerts keep rule order, and since
   * the critical and warning rules exclude each other there are at most two.
   */
  lemma AlertsForShape(critical: bool, warning: bool, info: bool)
    requires !(critical && warning)
    ensures var alerts := AlertsFor(critical, warning, info);
      && (Alert(Critical, Degradacion) in alerts <==> critical)
      && (Alert(Warning, EspecieInvasora) in alerts <==> warning)
      && (Alert(Info, Oportunidad) in alerts <==> info)
      && (forall a :: a in alerts ==>
            a in [Alert(Critical, Degradacion), Alert(Warning, EspecieInvasora), Alert(Info, Oportunidad)])
      && (forall i, j :: 0 <= i < j < |alerts| ==> LevelRank(alerts[i].level) < LevelRank(alerts[j].level))
      && |alerts| <= 2
  {
  }

  /** The recommendations of the three rules, in rule order, given which of them fire. */
  function RuleRecommendations(critical: bool, warning: bool, info: bool): (rs: seq<Recommendation>)
    ensures |rs| == 2 * (Fired(critical) + Fired(warning) + Fired(info))
  {
    (if critical then RecommendationsFor(Critical) else [])
    + (if warning then RecommendationsFor(Warning) else [])
    + (if info then RecommendationsFor(Info) else [])
  }

  /** The rules' recommendations are those their alerts bring. */
  lemma RuleRecommendationsMatchAlerts(critical: bool, warning: bool, info: bool)
    ensures RuleRecommendations(critical, warning, info) == RecommendationsOf(AlertsFor(critical, warning, info))
  {
    var a1: seq<Alert> := if critical then [Alert(Critical, Degradacion)] else [];
    var a2 := a1 + (if warning then [Alert(Warning, EspecieInvasora)] else []);
    var a3 := a2 + (if info then [Alert(Info, Oportunidad)] else []);
    assert AlertsFor(critical, warning, info) == a3;
    assert RecommendationsOf(a1) == if critical then RecommendationsFor(Critical) else [] by {
      if critical { RecommendationsOfSnoc([], Alert(Critical, Degradacion)); assert [] + a1 == a1; }
    }
    if warning { RecommendationsOfSnoc(a1, Alert(Warning, EspecieInvasora)); } else { assert a2 == a1; }
    if info { RecommendationsOfSnoc(a2, Alert(Info, Oportunidad)); } else { assert a3 == a2; }
  }

  /** What `conservation_alerts` returns. */
  datatype AlertsReport = AlertsReport(
    alerts: seq<Alert>, recommendations: seq<Recommendation>, priorityScore: real, priorityLevel: BloomDetector.Level)

  /**
   * The three alert rules of `conservation_alerts`, in order: each appends one
   * alert and its two recommendations when its threshold is met.
   */
  method ApplyAlertRules(ndvi: real, temperature: real, level: real)
    returns (alerts: seq<Alert>, recommendations: seq<Recommendation>)
    ensures alerts == AlertsFor(ndvi < 0.3, ndvi > 0.8 && temperature < 15.0, level > 70.0)
    ensures recommendations == RuleRecommendations(ndvi < 0.3, ndvi > 0.8 && temperature < 15.0, level > 70.0)
  {
    alerts, recommendations := [], [];
    ghost var critical, warning, info := ndvi < 0.3, ndvi > 0.8 && temperature < 15.0, level > 70.0;
    ghost var criticalAlerts: seq<Alert> := if critical then [Alert(Critical, Degradacion)] else [];
    ghost var warningAlerts: seq<Alert> := if warning then [Alert(Warning, EspecieInvasora)] else [];
    ghost var infoAlerts: seq<Alert> := if info then [Alert(Info, Oportunidad)] else [];

    if ndvi < 0.3 {
      alerts := alerts + [Alert(Critical, Degradacion)];
      recommendations := recommendations + [InvestigateVegetationLoss];
      recommendations := recommendations + [UrgentRestoration];
    }
    assert alerts == criticalAlerts;
    assert recommendations == if critical then RecommendationsFor(Critical) else [];
    ghost var recommendations1 := recommendations;

    if ndvi > 0.8 && temperature < 15.0 {
      alerts := alerts + [Alert(Warning, EspecieInvasora)];
      recommendations := recommendations + [FieldInspection];
      recommendations := recommendations + [VerifyNonNativeSpecies];
    }
    assert alerts == criticalAlerts + warningAlerts;
    assert recommendations == recommendations1 + (if warning then RecommendationsFor(Warning) else []);
    ghost var alerts2, recommendations2 := alerts, recommendations;

    if level > 70.0 {
      alerts := alerts + [Alert(Info, Oportunidad)];
      recommendations := recommendations + [PlaceBeehives];
      recommendations := recommendations + [PlanEcotourism];
    }
    assert alerts == alerts2 + infoAlerts;
    assert recommendations == recommendations2 + (if info then RecommendationsFor(Info) else []);
  }

  /**
   * `conservation_alerts`: the three threshold rules, then the priority tier
   * of the NDVI score.
   */
  method ConservationAlerts(sample: Sample) returns (report: AlertsReport)
    ensures var critical, warning, info :=
      sample.ndvi < 0.3, sample.ndvi > 0.8 && sample.temperature < 15.0, BloomDetector.AnalyzeBloom(sample).level > 70.0;
      && report.alerts == AlertsFor(critical, warning, info)
      && report.recommendations == RuleRecommendations(critical, warning, info)
      && (Alert(Critical, Degradacion) in report.alerts <==> critical)
      && (Alert(Warning, EspecieInvasora) in report.alerts <==> warning)
      && (Alert(Info, Oportunidad) in report.alerts <==> info)
    ensures |report.alerts| <= 2
    ensures |report.recommendations| == 2 * |report.alerts|
    ensures report.priorityScore == sample.ndvi * 100.0
    ensures report.priorityLevel == PriorityLevel(report.priorityScore)
  {
    var bloomStatus := BloomDetector.AnalyzeBloom(sample);
    var ndvi := sample.ndvi;
    var alerts, recommendations := ApplyAlertRules(ndvi, sample.temperature, bloomStatus.level);
    AlertsForShape(ndvi < 0.3, ndvi > 0.8 && sample.temperature < 15.0, bloomStatus.level > 70.0);

    var priorityScore := ndvi * 100.0;
    report := AlertsReport(alerts, recommendations, priorityScore, PriorityLevel(priorityScore));
  }

  // ===========================================================================
  // Global bloom map
  // ===========================================================================

  datatype Region = Region(name: string, lat: real, lon: real)

  /** The six fixed regions of the global map, in declaration order. */
  const Regions: seq<Region> := [
    Region("Amazon", -3.4653, -62.2159),
    Region("Sahel", 15.0, 0.0),
    Region("Mediterranean", 40.0, 10.0),
    Region("North America", 40.0, -100.0),
    Region("Southeast Asia", 10.0, 105.0),
    Region("Australia", -25.0, 135.0)
  ]

  /** One entry of the global map. */
  datatype RegionBloom = RegionBloom(
    name: string, lat: real, lon: real, bloomLevel: real, status: BloomDetector.BloomStatus)

  /**
   * `global_bloom_map`: one lookup (`lookup(lat, lon)`, today's sample) and
   * one assessment per fixed region.
   */
  method GlobalBloomMap(lookup: (real, real) -> Sample) returns (data: seq<RegionBloom>)
    ensures |data| == |Regions| == 6
    ensures forall k :: 0 <= k < |data| ==>
      var region := Regions[k];
      var assessment := BloomDetector.AnalyzeBloom(lookup(region.lat, region.lon));
      && data[k].name == region.name && data[k].lat == region.lat && data[k].lon == region.lon
      && data[k].bloomLevel == assessment.level
      && data[k].status == assessment.status
    ensures forall k :: 0 <= k < |data| ==> data[k].bloomLevel <= 100.0
  {
    data := [];
    var i := 0;
    while i < |Regions|
      invariant 0 <= i <= |Regions|
      invariant |data| == i
      invariant forall k :: 0 <= k < i ==>
        var region := Regions[k];
        var assessment := BloomDetector.AnalyzeBloom(lookup(region.lat, region.lon));
        && data[k].name == region.name && data[k].lat == region.lat && data[k].lon == region.lon
        && data[k].bloomLevel == assessment.level
        && data[k].status == assessment.status
    {
      var region := Regions[i];
      var satelliteData := lookup(region.lat, region.lon);
      var bloomStatus := BloomDetector.AnalyzeBloom(satelliteData);
      data := data + [RegionBloom(region.name, region.lat, region.lon, bloomStatus.level, bloomStatus.status)];
      i := i + 1;
    }
  }
}
