/**
 * The bloom engine: the bloom-level score and its status bands, the predictor
 * that extrapolates the next bloom from transitions in a historical series,
 * and the rule-cascade species/ecosystem classifier.
 */
module BloomDetector {
  import opened Wrappers
  import opened Numeric
  import opened Climate

  /** NDVI that the later day of a transition must exceed. */
  const BloomThresholdNdvi: real := 0.6
  /** Day-over-day NDVI growth that a transition must exceed. */
  const GrowthRateThreshold: real := 0.05
  /** Shortest series the predictor works on. */
  const MinimumSeriesLength: int := 14
  /** Interval assumed when fewer than two transitions are known. */
  const DefaultInterval: int := 90

  // ===========================================================================
  // Bloom level
  // ===========================================================================

  /** `((ndvi + evi) / 2) * 40`. */
  function VegetationFactor(ndvi: real, evi: real): real
  {
    ((ndvi + evi) / 2.0) * 40.0
  }

  /** `max(0, (10 - |temp - 20|) / 10) * 30`. */
  function TemperatureFactor(temp: real): (r: real)
    ensures 0.0 <= r <= 30.0
    ensures r == 30.0 <==> temp == 20.0
    ensures Abs(temp - 20.0) >= 10.0 ==> r == 0.0
  {
    Max(0.0, (10.0 - Abs(temp - 20.0)) / 10.0) * 30.0
  }

  /** `min(precip / 15, 1) * 30` for positive precipitation, otherwise 5. */
  function PrecipitationFactor(precip: real): (r: real)
    ensures 0.0 < r <= 30.0
    ensures precip <= 0.0 ==> r == 5.0
    ensures r == 30.0 <==> precip >= 15.0
  {
    if precip > 0.0 then Min(precip / 15.0, 1.0) * 30.0 else 5.0
  }

  /** `_calculate_bloom_level`, before rounding: the three factors, capped at 100. */
  function BloomLevel(ndvi: real, evi: real, temp: real, precip: real): (r: real)
    ensures r <= 100.0
    ensures ndvi >= 0.0 && evi >= 0.0 ==> r >= 0.0
    ensures r < 100.0 ==> r > VegetationFactor(ndvi, evi)
  {
    Min(VegetationFactor(ndvi, evi) + TemperatureFactor(temp) + PrecipitationFactor(precip), 100.0)
  }

  /** With temperature and precipitation fixed, the level never drops as NDVI or EVI grows. */
  lemma BloomLevelMonotone(ndvi1: real, evi1: real, ndvi2: real, evi2: real, temp: real, precip: real)
    requires ndvi1 <= ndvi2 && evi1 <= evi2
    ensures BloomLevel(ndvi1, evi1, temp, precip) <= BloomLevel(ndvi2, evi2, temp, precip)
  {
  }

  // ===========================================================================
  // Status, confidence, colour
  // ===========================================================================

  datatype BloomStatus = NoBloom | EarlyBloom | ActiveBloom | PeakBloom

  /** The first band, from the top, whose lower bound the level reaches. */
  function StatusOf(level: real): (s: BloomStatus)
    ensures s == PeakBloom <==> level >= 70.0
    ensures s == ActiveBloom <==> 50.0 <= level < 70.0
    ensures s == EarlyBloom <==> 30.0 <= level < 50.0
    ensures s == NoBloom <==> level < 30.0
  {
    if level >= 70.0 then PeakBloom
    else if level >= 50.0 then ActiveBloom
    else if level >= 30.0 then EarlyBloom
    else NoBloom
  }

  /** Lower bound of a band's levels. */
  function BandFloor(s: BloomStatus): real
  {
    match s
    case PeakBloom => 70.0
    case ActiveBloom => 50.0
    case EarlyBloom => 30.0
    case NoBloom => 0.0
  }

  /** Confidence a band starts from. */
  function BandBase(s: BloomStatus): real
  {
    match s
    case PeakBloom => 0.85
    case ActiveBloom => 0.70
    case EarlyBloom => 0.55
    case NoBloom => 0.40
  }

  /** Confidence of a level, before rounding: its band's formula, capped at 0.95. */
  function ConfidenceOf(level: real): (c: real)
    ensures c <= 0.95
    ensures level >= 0.0 ==> c >= BandBase(StatusOf(level))
    ensures c == Min(0.95, BandBase(StatusOf(level)) + (level - BandFloor(StatusOf(level))) / 100.0)
  {
    var confidence :=
      if level >= 70.0 then 0.85 + (level - 70.0) / 100.0
      else if level >= 50.0 then 0.70 + (level - 50.0) / 100.0
      else if level >= 30.0 then 0.55 + (level - 30.0) / 100.0
      else 0.40 + level / 100.0;
    Min(confidence, 0.95)
  }

  /** Confidence is not monotone in the level: it falls back at each band's lower edge. */
  lemma ConfidenceDropsAtBandEdge(level: real)
    requires 69.0 < level < 70.0
    ensures ConfidenceOf(70.0) < ConfidenceOf(level)
  {
  }

  /** Display colour of a status. */
  function ColorOf(s: BloomStatus): (c: string)
    ensures |c| == 7 && c[0] == '#'
    ensures forall k :: 1 <= k < |c| ==> c[k] in "0123456789abcdef"
  {
    match s
    case PeakBloom => "#00ff00"
    case ActiveBloom => "#90ee90"
    case EarlyBloom => "#ffff00"
    case NoBloom => "#808080"
  }

  /** Each status has its own colour. */
  lemma ColorIdentifiesStatus(a: BloomStatus, b: BloomStatus)
    ensures ColorOf(a) == ColorOf(b) <==> a == b
  {
    if a != b {
      assert ColorOf(a)[1] != ColorOf(b)[1];
    }
  }

  /** What `analyze_bloom` returns, without the message text. */
  datatype BloomAssessment = BloomAssessment(
    status: BloomStatus, level: real, confidence: real, color: string, ndvi: real, evi: real)

  /** `analyze_bloom`: score a sample and place it in its band. */
  function AnalyzeBloom(sample: Sample): (a: BloomAssessment)
    ensures a.level == BloomLevel(sample.ndvi, sample.evi, sample.temperature, sample.precipitation)
    ensures a.level <= 100.0
    ensures a.status == StatusOf(a.level) && a.color == ColorOf(a.status)
    ensures a.confidence == ConfidenceOf(a.level)
    ensures a.ndvi == sample.ndvi && a.evi == sample.evi
  {
    var level := BloomLevel(sample.ndvi, sample.evi, sample.temperature, sample.precipitation);
    var status := StatusOf(level);
    BloomAssessment(status, level, ConfidenceOf(level), ColorOf(status), sample.ndvi, sample.evi)
  }

  // ===========================================================================
  // Predictor
  // ===========================================================================

  /** Consecutive pairs of a series: `range(len(s) - 1)`. */
  function PairCount(s: seq<HistoryPoint>): (n: nat)
    ensures n == 0 || n == |s| - 1
  {
    if |s| == 0 then 0 else |s| - 1
  }

  /** The pair at `i` is a bloom transition. */
  predicate IsTransition(s: seq<HistoryPoint>, i: nat)
    requires i + 1 < |s|
  {
    s[i + 1].ndvi > BloomThresholdNdvi && s[i + 1].ndvi - s[i].ndvi > GrowthRateThreshold
  }

  /** Indices of the transitions among the first `n` pairs, in order. */
  function TransitionIndices(s: seq<HistoryPoint>, n: nat): (r: seq<nat>)
    requires n <= PairCount(s)
    ensures |r| <= n
    ensures forall k :: 0 <= k < |r| ==> r[k] < n
  {
    if n == 0 then []
    else TransitionIndices(s, n - 1) + (if IsTransition(s, n - 1) then [n - 1] else [])
  }

  /** The dates the source collects for the first `n` pairs: the earlier date of each transition. */
  function TransitionDates(s: seq<HistoryPoint>, n: nat): (d: seq<int>)
    requires n <= PairCount(s)
    ensures |d| == |TransitionIndices(s, n)|
  {
    if n == 0 then []
    else TransitionDates(s, n - 1) + (if IsTransition(s, n - 1) then [s[n - 1].date] else [])
  }

  /**
   * A transition is recorded at index `i` exactly when pair `i` is one; the
   * indices are increasing, and the collected dates are those indices' dates.
   */
  lemma {:induction false} TransitionsCharacterized(s: seq<HistoryPoint>, n: nat)
    requires n <= PairCount(s)
    ensures |TransitionIndices(s, n)| <= n
    ensures forall k :: 0 <= k < |TransitionIndices(s, n)| ==>
      TransitionIndices(s, n)[k] < n && IsTransition(s, TransitionIndices(s, n)[k])
    ensures forall i :: 0 <= i < n && IsTransition(s, i) ==> i in TransitionIndices(s, n)
    ensures forall j, k :: 0 <= j < k < |TransitionIndices(s, n)| ==>
      TransitionIndices(s, n)[j] < TransitionIndices(s, n)[k]
    ensures |TransitionDates(s, n)| == |TransitionIndices(s, n)|
    ensures forall k :: 0 <= k < |TransitionDates(s, n)| ==>
      TransitionDates(s, n)[k] == s[TransitionIndices(s, n)[k]].date
  {
    if n > 0 {
      TransitionsCharacterized(s, n - 1);
    }
  }

  /**
   * The mean gap between consecutive transition dates, truncated toward zero,
   * written with the telescoped sum `last - first`; 90 for fewer than two dates.
   */
  function MeanGap(dates: seq<int>): (g: int)
    ensures |dates| < 2 ==> g == DefaultInterval
    ensures |dates| >= 2 && dates[0] <= dates[|dates| - 1] ==>
      0 <= g <= dates[|dates| - 1] - dates[0]
  {
    if |dates| < 2 then DefaultInterval
    else TruncDiv(dates[|dates| - 1] - dates[0], |dates| - 1)
  }

  /** `_calculate_average_interval`: collect the gaps, then take their truncated mean. */
  method AverageInterval(dates: seq<int>) returns (interval: int)
    ensures interval == MeanGap(dates)
  {
    if |dates| < 2 {
      return DefaultInterval;
    }
    var intervals: seq<int> := [];
    var i := 0;
    while i < |dates| - 1
      invariant 0 <= i <= |dates| - 1
      invariant |intervals| == i
      invariant IntSum(intervals) == dates[i] - dates[0]
    {
      intervals := intervals + [dates[i + 1] - dates[i]];
      assert intervals[..|intervals| - 1] == intervals[..i];
      i := i + 1;
    }
    interval := TruncDiv(IntSum(intervals), |intervals|);
  }

  datatype PredictedDate = InsufficientData | NoHistoricalPattern | OnDay(day: int)
  datatype PeakPeriod = NotApplicable | Variable | DaysSinceLastBloom(days: int)

  /** What `predict_bloom_date` returns; `historicalBlooms` is present only with a prediction. */
  datatype BloomPrediction = BloomPrediction(
    date: PredictedDate, probability: real, peakPeriod: PeakPeriod, historicalBlooms: Option<nat>)

  /** `predict_bloom_date`: scan the series for transitions and extrapolate the next one. */
  method PredictBloomDate(series: seq<HistoryPoint>) returns (p: BloomPrediction)
    ensures |series| < MinimumSeriesLength ==>
      p == BloomPrediction(InsufficientData, 0.0, NotApplicable, None)
    ensures |series| >= MinimumSeriesLength && |TransitionDates(series, PairCount(series))| == 0 ==>
      p == BloomPrediction(NoHistoricalPattern, 0.3, Variable, None)
    ensures |series| >= MinimumSeriesLength && |TransitionDates(series, PairCount(series))| > 0 ==>
      var dates := TransitionDates(series, PairCount(series));
      && p.date == OnDay(dates[|dates| - 1] + MeanGap(dates))
      && p.peakPeriod == DaysSinceLastBloom(MeanGap(dates))
      && p.probability == Min(0.95, 0.6 + |dates| as real * 0.05)
      && p.historicalBlooms == Some(|dates|)
    ensures 0.0 <= p.probability <= 0.95
    ensures p.historicalBlooms.Some? ==> 0.6 < p.probability && p.historicalBlooms.value < |series|
  {
    if |series| < MinimumSeriesLength {
      return BloomPrediction(InsufficientData, 0.0, NotApplicable, None);
    }
    var bloomDates: seq<int> := [];
    var i := 0;
    while i < |series| - 1
      invariant 0 <= i <= |series| - 1
      invariant bloomDates == TransitionDates(series, i)
    {
      var curr := series[i];
      var next := series[i + 1];
      if next.ndvi > BloomThresholdNdvi && next.ndvi - curr.ndvi > GrowthRateThreshold {
        bloomDates := bloomDates + [curr.date];
      }
      i := i + 1;
    }
    if |bloomDates| == 0 {
      return BloomPrediction(NoHistoricalPattern, 0.3, Variable, None);
    }
    var avgInterval := AverageInterval(bloomDates);
    var lastBloom := bloomDates[|bloomDates| - 1];
    var probability := Min(0.95, 0.6 + |bloomDates| as real * 0.05);
    p := BloomPrediction(OnDay(lastBloom + avgInterval), probability,
                         DaysSinceLastBloom(avgInterval), Some(|bloomDates|));
  }

  // ===========================================================================
  // Species and ecosystem classifier
  // ===========================================================================

  datatype Ecosystem = Tropical | Templado | BorealPolar

  /** Climatic zone of a latitude. */
  function EcosystemOf(lat: real): (e: Ecosystem)
    ensures e == Tropical <==> Abs(lat) <= 23.5
    ensures e == Templado <==> 23.5 < Abs(lat) <= 66.5
    ensures e == BorealPolar <==> Abs(lat) > 66.5
  {
    if -23.5 <= lat <= 23.5 then Tropical
    else if 23.5 < Abs(lat) <= 66.5 then Templado
    else BorealPolar
  }

  datatype SpeciesHint =
    | DenseRainforest        // "Selva tropical densa"
    | TropicalFlowers        // orchids, heliconias, ginger
    | FruitTreesInBloom
    | FruitTreeSpecies       // cherry, apple, peach
    | SpringWildflowers
    | TundraOrBorealForest
    | AgriculturalPattern
    | WarmSeasonCrops        // cotton, sunflower, canola
    | ColdClimateCrops       // wheat, barley
    | InvasiveSpeciesAlert
    | SparseVegetation
    | GeneralVegetation      // the default when no rule fires

  datatype EcologicalNote =
    | HighBiodiversityExpected
    | PollinatorWindow
    | PestControlWindow
    | NativePollinators
    | ShortBloomWindow       // short window, sensitive to climate change
    | FertilizerTiming
    | OffSeasonBloom
    | FieldInspectionNeeded
    | DesertificationRisk
    | RestorationPriority
    | NormalConditions       // the default when no rule adds a note

  /** What a group of rules appends to the hint and note lists. */
  datatype RuleOutput = RuleOutput(hints: seq<SpeciesHint>, notes: seq<EcologicalNote>)

  function Then(a: RuleOutput, b: RuleOutput): RuleOutput
  {
    RuleOutput(a.hints + b.hints, a.notes + b.notes)
  }

  function When(c: bool, hints: seq<SpeciesHint>, notes: seq<EcologicalNote>): RuleOutput
  {
    if c then RuleOutput(hints, notes) else RuleOutput([], [])
  }

  /** Hints only the latitude-zone rules produce. */
  predicate IsZoneHint(h: SpeciesHint)
  {
    h.DenseRainforest? || h.TropicalFlowers? || h.FruitTreesInBloom? || h.FruitTreeSpecies?
    || h.SpringWildflowers? || h.TundraOrBorealForest?
  }

  /** The rules nested under the latitude zone. */
  function ZoneRules(ndvi: real, temp: real, precip: real, lat: real): (r: RuleOutput)
    ensures forall h :: h in r.hints ==> IsZoneHint(h)
    ensures |r.hints| <= 3 && NormalConditions !in r.notes
  {
    match EcosystemOf(lat)
    case Tropical =>
      Then(When(ndvi > 0.7, [DenseRainforest], [HighBiodiversityExpected]),
           When(temp > 25.0 && precip > 10.0, [TropicalFlowers], [PollinatorWindow]))
    case Templado =>
      Then(When(15.0 < temp < 25.0 && ndvi > 0.5, [FruitTreesInBloom, FruitTreeSpecies], [PestControlWindow]),
           When(ndvi > 0.6 && 10.0 < temp < 20.0, [SpringWildflowers], [NativePollinators]))
    case BorealPolar =>
      When(ndvi > 0.3, [TundraOrBorealForest], [ShortBloomWindow])
  }

  predicate AgriculturalCondition(ndvi: real, evi: real)
  {
    0.4 < ndvi < 0.7 && 0.5 < evi < 0.8
  }

  /** The agricultural-pattern rule: two hints when it fires, a note only in warm weather. */
  function AgriculturalRule(ndvi: real, evi: real, temp: real): (r: RuleOutput)
    ensures |r.hints| == if AgriculturalCondition(ndvi, evi) then 2 else 0
    ensures AgriculturalCondition(ndvi, evi) ==>
      r.hints[0] == AgriculturalPattern && (r.hints[1] == WarmSeasonCrops <==> temp > 20.0)
    ensures r.notes == if AgriculturalCondition(ndvi, evi) && temp > 20.0 then [FertilizerTiming] else []
  {
    if AgriculturalCondition(ndvi, evi) then
      if temp > 20.0 then RuleOutput([AgriculturalPattern, WarmSeasonCrops], [FertilizerTiming])
      else RuleOutput([AgriculturalPattern, ColdClimateCrops], [])
    else RuleOutput([], [])
  }

  predicate InvasiveCondition(ndvi: real, temp: real)
  {
    ndvi > 0.75 && temp < 10.0
  }

  function InvasiveRule(ndvi: real, temp: real): (r: RuleOutput)
    ensures InvasiveSpeciesAlert in r.hints <==> InvasiveCondition(ndvi, temp)
    ensures |r.hints| <= 1 && |r.notes| == 2 * |r.hints|
  {
    When(InvasiveCondition(ndvi, temp), [InvasiveSpeciesAlert], [OffSeasonBloom, FieldInspectionNeeded])
  }

  predicate DegradationCondition(ndvi: real)
  {
    ndvi < 0.25
  }

  function DegradationRule(ndvi: real): (r: RuleOutput)
    ensures SparseVegetation in r.hints <==> DegradationCondition(ndvi)
    ensures |r.hints| <= 1 && |r.notes| == 2 * |r.hints|
  {
    When(DegradationCondition(ndvi), [SparseVegetation], [DesertificationRisk, RestorationPriority])
  }

  /** All rules in evaluation order, before the defaults are applied. */
  function RawFindings(sample: Sample, lat: real): (r: RuleOutput)
    ensures GeneralVegetation !in r.hints && NormalConditions !in r.notes
    ensures |r.hints| <= 5
  {
    var ndvi, evi, temp, precip := sample.ndvi, sample.evi, sample.temperature, sample.precipitation;
    Then(Then(Then(ZoneRules(ndvi, temp, precip, lat), AgriculturalRule(ndvi, evi, temp)),
              InvasiveRule(ndvi, temp)),
         DegradationRule(ndvi))
  }

  /** Some rule that appends a hint fires. */
  predicate AnyHintRuleFires(sample: Sample, lat: real)
  {
    var ndvi, evi, temp, precip := sample.ndvi, sample.evi, sample.temperature, sample.precipitation;
    || (EcosystemOf(lat) == Tropical && (ndvi > 0.7 || (temp > 25.0 && precip > 10.0)))
    || (EcosystemOf(lat) == Templado && ((15.0 < temp < 25.0 && ndvi > 0.5) || (ndvi > 0.6 && 10.0 < temp < 20.0)))
    || (EcosystemOf(lat) == BorealPolar && ndvi > 0.3)
    || AgriculturalCondition(ndvi, evi)
    || InvasiveCondition(ndvi, temp)
    || DegradationCondition(ndvi)
  }

  datatype Level = Alta | Media | Baja

  /** Classifier confidence from the number of hints the rules produced. */
  function HintConfidence(hintCount: nat): (c: Level)
    ensures c == Alta <==> hintCount > 2
    ensures c == Media <==> 0 < hintCount <= 2
    ensures c == Baja <==> hintCount == 0
  {
    if hintCount > 2 then Alta else if hintCount > 0 then Media else Baja
  }

  /** Conservation priority: high for very dense or very sparse vegetation. */
  function ConservationPriority(ndvi: real): (p: Level)
    ensures p == Alta <==> ndvi > 0.6 || ndvi < 0.3
    ensures p != Baja
  {
    if ndvi > 0.6 || ndvi < 0.3 then Alta else Media
  }

  datatype BiodiversityTier = MuyAlto | Alto | Moderado | Bajo

  /** The vegetation score plus 25 to 50 points for the weather. */
  function BiodiversityScore(ndvi: real, evi: real, temp: real, precip: real): (r: real)
    ensures (ndvi + evi) / 2.0 * 50.0 + 25.0 <= r <= (ndvi + evi) / 2.0 * 50.0 + 50.0
    ensures 0.0 <= ndvi <= 1.0 && 0.0 <= evi <= 1.0 ==> 25.0 <= r <= 100.0
  {
    var vegScore := (ndvi + evi) / 2.0 * 50.0;
    var tempScore := if 15.0 < temp < 28.0 then 30.0 else 15.0;
    var precipScore := if precip > 5.0 then 20.0 else 10.0;
    vegScore + tempScore + precipScore
  }

  /** `_calculate_biodiversity_potential`: the score placed against strict thresholds 80/60/40. */
  function BiodiversityPotential(ndvi: real, evi: real, temp: real, precip: real): (t: BiodiversityTier)
    ensures t == MuyAlto <==> BiodiversityScore(ndvi, evi, temp, precip) > 80.0
    ensures t == Alto <==> 60.0 < BiodiversityScore(ndvi, evi, temp, precip) <= 80.0
    ensures t == Moderado <==> 40.0 < BiodiversityScore(ndvi, evi, temp, precip) <= 60.0
    ensures t == Bajo <==> BiodiversityScore(ndvi, evi, temp, precip) <= 40.0
  {
    var total := BiodiversityScore(ndvi, evi, temp, precip);
    if total > 80.0 then MuyAlto
    else if total > 60.0 then Alto
    else if total > 40.0 then Moderado
    else Bajo
  }

  function TierRank(t: BiodiversityTier): nat
  {
    match t
    case Bajo => 0
    case Moderado => 1
    case Alto => 2
    case MuyAlto => 3
  }

  /** More vegetation never lowers the biodiversity tier. */
  lemma BiodiversityMonotone(ndvi1: real, evi1: real, ndvi2: real, evi2: real, temp: real, precip: real)
    requires ndvi1 <= ndvi2 && evi1 <= evi2
    ensures TierRank(BiodiversityPotential(ndvi1, evi1, temp, precip))
         <= TierRank(BiodiversityPotential(ndvi2, evi2, temp, precip))
  {
  }

  /** What `identify_species_type` returns. */
  datatype SpeciesInfo = SpeciesInfo(
    ecosystem: Ecosystem,
    speciesHints: seq<SpeciesHint>,
    ecologicalNotes: seq<EcologicalNote>,
    biodiversity: BiodiversityTier,
    confidence: Level,
    conservationPriority: Level)

  /**
   * The latitude block of `identify_species_type`: pick the zone and run the
   * rules nested under it, appending to the (initially empty) lists.
   */
  method ApplyZoneRules(ndvi: real, temp: real, precip: real, lat: real)
    returns (ecosystem: Ecosystem, speciesHints: seq<SpeciesHint>, ecologicalNotes: seq<EcologicalNote>)
    ensures ecosystem == EcosystemOf(lat)
    ensures RuleOutput(speciesHints, ecologicalNotes) == ZoneRules(ndvi, temp, precip, lat)
    ensures |speciesHints| <= 3 && |ecologicalNotes| == |speciesHints| - (if ecosystem == Templado && 15.0 < temp < 25.0 && ndvi > 0.5 then 1 else 0)
  {
    speciesHints, ecologicalNotes := [], [];
    if -23.5 <= lat <= 23.5 {
      ecosystem := Tropical;
      if ndvi > 0.7 {
        speciesHints := speciesHints + [DenseRainforest];
        ecologicalNotes := ecologicalNotes + [HighBiodiversityExpected];
      }
      if temp > 25.0 && precip > 10.0 {
        speciesHints := speciesHints + [TropicalFlowers];
        ecologicalNotes := ecologicalNotes + [PollinatorWindow];
      }
    } else if 23.5 < Abs(lat) <= 66.5 {
      ecosystem := Templado;
      if 15.0 < temp < 25.0 && ndvi > 0.5 {
        speciesHints := speciesHints + [FruitTreesInBloom];
        speciesHints := speciesHints + [FruitTreeSpecies];
        ecologicalNotes := ecologicalNotes + [PestControlWindow];
      }
      if ndvi > 0.6 && 10.0 < temp < 20.0 {
        speciesHints := speciesHints + [SpringWildflowers];
        ecologicalNotes := ecologicalNotes + [NativePollinators];
      }
    } else {
      ecosystem := BorealPolar;
      if ndvi > 0.3 {
        speciesHints := speciesHints + [TundraOrBorealForest];
        ecologicalNotes := ecologicalNotes + [ShortBloomWindow];
      }
    }
  }

  /** The agricultural-pattern block of `identify_species_type`, appending to the lists. */
  method ApplyAgriculturalRule(hints: seq<SpeciesHint>, notes: seq<EcologicalNote>, ndvi: real, evi: real, temp: real)
    returns (speciesHints: seq<SpeciesHint>, ecologicalNotes: seq<EcologicalNote>)
    ensures RuleOutput(speciesHints, ecologicalNotes) == Then(RuleOutput(hints, notes), AgriculturalRule(ndvi, evi, temp))
  {
    speciesHints, ecologicalNotes := hints, notes;
    if 0.4 < ndvi < 0.7 && 0.5 < evi < 0.8 {
      speciesHints := speciesHints + [AgriculturalPattern];
      if temp > 20.0 {
        speciesHints := speciesHints + [WarmSeasonCrops];
        ecologicalNotes := ecologicalNotes + [FertilizerTiming];
      } else {
        speciesHints := speciesHints + [ColdClimateCrops];
      }
    }
  }

  /** The invasive-species and degradation blocks of `identify_species_type`, appending to the lists. */
  method ApplyAnomalyRules(hints: seq<SpeciesHint>, notes: seq<EcologicalNote>, ndvi: real, temp: real)
    returns (speciesHints: seq<SpeciesHint>, ecologicalNotes: seq<EcologicalNote>)
    ensures RuleOutput(speciesHints, ecologicalNotes)
         == Then(Then(RuleOutput(hints, notes), InvasiveRule(ndvi, temp)), DegradationRule(ndvi))
  {
    speciesHints, ecologicalNotes := hints, notes;
    if ndvi > 0.75 && temp < 10.0 {
      speciesHints := speciesHints + [InvasiveSpeciesAlert];
      ecologicalNotes := ecologicalNotes + [OffSeasonBloom];
      ecologicalNotes := ecologicalNotes + [FieldInspectionNeeded];
    }
    assert RuleOutput(speciesHints, ecologicalNotes) == Then(RuleOutput(hints, notes), InvasiveRule(ndvi, temp));
    if ndvi < 0.25 {
      speciesHints := speciesHints + [SparseVegetation];
      ecologicalNotes := ecologicalNotes + [DesertificationRisk];
      ecologicalNotes := ecologicalNotes + [RestorationPriority];
    }
  }

  /**
   * `identify_species_type`: the latitude block, then the agricultural,
   * invasive-species and degradation rules appending to the same lists, then
   * the defaults. The blocks are the three methods above.
   */
  method IdentifySpeciesType(sample: Sample, lat: real) returns (info: SpeciesInfo)
    ensures info.ecosystem == EcosystemOf(lat)
    ensures var raw := RawFindings(sample, lat);
      && info.speciesHints == (if |raw.hints| == 0 then [GeneralVegetation] else raw.hints)
      && info.ecologicalNotes == (if |raw.notes| == 0 then [NormalConditions] else raw.notes)
      && info.confidence == HintConfidence(|raw.hints|)
    ensures |info.speciesHints| > 0 && |info.ecologicalNotes| > 0
    ensures info.conservationPriority == ConservationPriority(sample.ndvi)
    ensures info.biodiversity == BiodiversityPotential(sample.ndvi, sample.evi, sample.temperature, sample.precipitation)
  {
    var ndvi, evi, temp, precip := sample.ndvi, sample.evi, sample.temperature, sample.precipitation;
    var ecosystem, speciesHints, ecologicalNotes := ApplyZoneRules(ndvi, temp, precip, lat);
    speciesHints, ecologicalNotes := ApplyAgriculturalRule(speciesHints, ecologicalNotes, ndvi, evi, temp);
    speciesHints, ecologicalNotes := ApplyAnomalyRules(speciesHints, ecologicalNotes, ndvi, temp);
    assert RuleOutput(speciesHints, ecologicalNotes) == RawFindings(sample, lat);

    var biodiversity := BiodiversityPotential(ndvi, evi, temp, precip);
    info := SpeciesInfo(
      ecosystem,
      if |speciesHints| > 0 then speciesHints else [GeneralVegetation],
      if |ecologicalNotes| > 0 then ecologicalNotes else [NormalConditions],
      biodiversity,
      HintConfidence(|speciesHints|),
      ConservationPriority(ndvi));
  }

  /** Confidence is `Baja` exactly when no hint rule fires. */
  lemma ConfidenceLowIffNoRuleFires(sample: Sample, lat: real)
    ensures HintConfidence(|RawFindings(sample, lat).hints|) == Baja <==> !AnyHintRuleFires(sample, lat)
  {
    var ndvi, evi, temp := sample.ndvi, sample.evi, sample.temperature;
    var zone := ZoneRules(ndvi, temp, sample.precipitation, lat);
    assert RawFindings(sample, lat).hints
        == zone.hints + AgriculturalRule(ndvi, evi, temp).hints
           + InvasiveRule(ndvi, temp).hints + DegradationRule(ndvi).hints;
  }

  /** The invasive-species, degradation and agriculture hints each come from their own rule alone. */
  lemma RuleSpecificHints(sample: Sample, lat: real)
    ensures InvasiveSpeciesAlert in RawFindings(sample, lat).hints <==> InvasiveCondition(sample.ndvi, sample.temperature)
    ensures SparseVegetation in RawFindings(sample, lat).hints <==> DegradationCondition(sample.ndvi)
    ensures AgriculturalPattern in RawFindings(sample, lat).hints <==> AgriculturalCondition(sample.ndvi, sample.evi)
    ensures GeneralVegetation !in RawFindings(sample, lat).hints
  {
    var ndvi, evi, temp := sample.ndvi, sample.evi, sample.temperature;
    var zone := ZoneRules(ndvi, temp, sample.precipitation, lat).hints;
    var agri, inv, deg := AgriculturalRule(ndvi, evi, temp).hints, InvasiveRule(ndvi, temp).hints, DegradationRule(ndvi).hints;
    var hints := RawFindings(sample, lat).hints;
    assert hints == zone + agri + inv + deg;
    assert InvasiveSpeciesAlert !in zone && SparseVegetation !in zone;
    assert AgriculturalPattern !in zone && GeneralVegetation !in zone;
    assert forall h :: h in hints <==> h in zone || h in agri || h in inv || h in deg;
  }

  /**
   * The rules for anomalies come last: when the degradation or invasive rule
   * fires, its hint is the final hint (the two never fire together).
   */
  lemma AnomalyHintsComeLast(sample: Sample, lat: real)
    ensures !(InvasiveCondition(sample.ndvi, sample.temperature) && DegradationCondition(sample.ndvi))
    ensures !(AgriculturalCondition(sample.ndvi, sample.evi) && InvasiveCondition(sample.ndvi, sample.temperature))
    ensures DegradationCondition(sample.ndvi) ==>
      RawFindings(sample, lat).hints[|RawFindings(sample, lat).hints| - 1] == SparseVegetation
    ensures InvasiveCondition(sample.ndvi, sample.temperature) ==>
      RawFindings(sample, lat).hints[|RawFindings(sample, lat).hints| - 1] == InvasiveSpeciesAlert
  {
  }

  /**
   * A tropical sample with dense vegetation in warm, wet weather gets both
   * tropical hints and notes and nothing else, hence medium confidence.
   */
  lemma TropicalExample()
    ensures var raw := RawFindings(Sample(0.8, 0.8, 26.0, 12.0, 0), 0.0);
      && EcosystemOf(0.0) == Tropical
      && raw.hints == [DenseRainforest, TropicalFlowers]
      && raw.notes == [HighBiodiversityExpected, PollinatorWindow]
      && HintConfidence(|raw.hints|) == Media
  {
  }
}
