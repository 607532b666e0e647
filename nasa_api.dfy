/**
 * The climate source: NDVI/EVI derivation from a provider reading, the
 * synthetic fallback sample, and the assembly of historical and weekly series
 * from repeated single-point lookups.
 *
 * The provider call itself is a parameter: either `Unavailable` (non-200
 * status, timeout, any exception) or the temperature and precipitation values
 * of its payload. Random draws and the current day are parameters as well.
 */
module NasaApi {
  import opened Wrappers
  import opened Numeric
  import opened Climate

  /** Temperature at which the simulated NDVI is highest. */
  const OptimalTemperature: real := 20.0

  /** NDVI threshold above which a weekly step is reported as a bloom event. */
  const BloomEventNdvi: real := 0.6

  /** Days between two steps of a time series. */
  const TimeSeriesStep: int := 7

  // ---------------------------------------------------------------------------
  // Simulated vegetation indices
  // ---------------------------------------------------------------------------

  /** `1 - |temp - 20| / 30`, clamped to [0, 1]. */
  function NdviTemperatureFactor(temp: real): (r: real)
    ensures 0.0 <= r <= 1.0
    ensures r == 1.0 <==> temp == OptimalTemperature
    ensures Abs(temp - OptimalTemperature) >= 30.0 ==> r == 0.0
  {
    Clamp(0.0, 1.0, 1.0 - Abs(temp - OptimalTemperature) / 30.0)
  }

  /** `min(precip / 10, 1)` for positive precipitation, otherwise 0.3. */
  function NdviPrecipitationFactor(precip: real): (r: real)
    ensures 0.0 < r <= 1.0
    ensures precip <= 0.0 ==> r == 0.3
    ensures r == 1.0 <==> precip >= 10.0
  {
    if precip > 0.0 then Min(precip / 10.0, 1.0) else 0.3
  }

  /** The NDVI the source derives from a temperature and a precipitation. */
  function SimulatedNdvi(temp: real, precip: real): (r: real)
    ensures 0.0 <= r <= 0.95
  {
    var ndvi := (NdviTemperatureFactor(temp) * 0.6 + NdviPrecipitationFactor(precip) * 0.4) * 0.9;
    Max(0.0, Min(0.95, ndvi))
  }

  /**
   * The simulated NDVI never exceeds 0.9, and it is 0.9 exactly at the optimal
   * temperature with at least 10 mm of precipitation.
   */
  lemma SimulatedNdviMaximum(temp: real, precip: real)
    ensures SimulatedNdvi(temp, precip) <= 0.9
    ensures SimulatedNdvi(temp, precip) == 0.9 <==> temp == OptimalTemperature && precip >= 10.0
  {
    var tf, pf := NdviTemperatureFactor(temp), NdviPrecipitationFactor(precip);
    assert (tf * 0.6 + pf * 0.4) * 0.9 == 0.9 ==> tf == 1.0 && pf == 1.0;
  }

  /** EVI as the source derives it: 1.2 * NDVI below 0.83, NDVI itself from 0.83 on. */
  function DeriveEvi(ndvi: real): (r: real)
    ensures ndvi >= 0.0 ==> r >= ndvi
    ensures 0.0 <= ndvi <= 0.95 ==> r < 1.0
    ensures r == ndvi <==> ndvi >= 0.83 || ndvi == 0.0
  {
    if ndvi < 0.83 then ndvi * 1.2 else ndvi
  }

  /** The derivation is not monotone: EVI drops when NDVI crosses 0.83 from below. */
  lemma DeriveEviDropsAtCap(a: real, b: real)
    requires 0.7 < a < 0.83 <= b < 1.2 * a
    ensures a < b && DeriveEvi(b) < DeriveEvi(a)
  {
  }

  // ---------------------------------------------------------------------------
  // One lookup
  // ---------------------------------------------------------------------------

  /** Outcome of the provider call for one point and date. */
  datatype ProviderResponse =
    | Unavailable
    | Payload(temperatures: seq<real>, precipitations: seq<real>)

  /** The first value of a parameter series, or `default` when it is missing or empty. */
  function FirstOr(values: seq<real>, default: real): (r: real)
    ensures |values| == 0 ==> r == default
    ensures |values| > 0 ==> r == values[0]
  {
    if |values| > 0 then values[0] else default
  }

  /** The three values `random.uniform` supplies to the fallback sample. */
  datatype FallbackDraws = FallbackDraws(spread: real, temperatureOffset: real, precipitation: real)

  /** Ranges of `uniform(0, 0.3)`, `uniform(-5, 15)` and `uniform(0, 20)`. */
  predicate ValidDraws(d: FallbackDraws)
  {
    && 0.0 <= d.spread <= 0.3
    && -5.0 <= d.temperatureOffset <= 15.0
    && 0.0 <= d.precipitation <= 20.0
  }

  /**
   * The synthetic sample used when the provider is unavailable. It carries the
   * current day, whatever date was asked for.
   */
  function FallbackSample(lat: real, draws: FallbackDraws, today: int): (s: Sample)
    requires ValidDraws(draws)
    ensures Abs(lat) <= 90.0 ==> 0.4 <= s.ndvi <= 0.7
    ensures Abs(lat) == 90.0 ==> s.ndvi == 0.4
    ensures lat == 0.0 ==> s.ndvi == 0.4 + draws.spread
    ensures s.evi == 1.15 * s.ndvi
    ensures 10.0 <= s.temperature <= 30.0
    ensures 0.0 <= s.precipitation <= 20.0
    ensures s.date == today
  {
    var seasonFactor := Abs(lat) / 90.0;
    var baseNdvi := 0.4 + draws.spread * (1.0 - seasonFactor);
    assert Abs(lat) <= 90.0 ==> 0.0 <= draws.spread * (1.0 - seasonFactor) <= 0.3 by {
      if Abs(lat) <= 90.0 {
        SpreadBound(draws.spread, 1.0 - seasonFactor);
      }
    }
    Sample(baseNdvi, baseNdvi * 1.15, 15.0 + draws.temperatureOffset, draws.precipitation, today)
  }

  lemma SpreadBound(u: real, f: real)
    requires 0.0 <= u <= 0.3 && 0.0 <= f <= 1.0
    ensures 0.0 <= u * f <= 0.3
  {
    assert 0.0 <= u * f by { NonNegativeRealProduct(u, f); }
    assert u * f + u * (1.0 - f) == u;
    assert 0.0 <= u * (1.0 - f) by { NonNegativeRealProduct(u, 1.0 - f); }
  }

  /**
   * `get_vegetation_index`: the sample for one point. `date` is the requested
   * day (`None` asks for today).
   */
  function VegetationIndex(response: ProviderResponse, lat: real, draws: FallbackDraws,
                           date: Option<int>, today: int): (s: Sample)
    requires ValidDraws(draws)
    ensures response.Payload? ==>
      && s.temperature == (if |response.temperatures| == 0 then OptimalTemperature else response.temperatures[0])
      && s.precipitation == (if |response.precipitations| == 0 then 0.0 else response.precipitations[0])
      && s.ndvi == SimulatedNdvi(s.temperature, s.precipitation)
      && s.evi == DeriveEvi(s.ndvi)
      && s.date == (if date.Some? then date.value else today)
    ensures response.Unavailable? ==> s == FallbackSample(lat, draws, today)
    ensures Abs(lat) <= 90.0 ==> 0.0 <= s.ndvi <= 0.95 && s.ndvi <= s.evi
  {
    var day := match date case Some(d) => d case None => today;
    match response
    case Unavailable => FallbackSample(lat, draws, today)
    case Payload(temperatures, precipitations) =>
      var temp := FirstOr(temperatures, OptimalTemperature);
      var precip := FirstOr(precipitations, 0.0);
      var ndvi := SimulatedNdvi(temp, precip);
      Sample(ndvi, DeriveEvi(ndvi), temp, precip, day)
  }

  // ---------------------------------------------------------------------------
  // Series assembly
  // ---------------------------------------------------------------------------

  /** The historical entry for `day`: the loop's own date with the lookup's indices. */
  function PointOf(lookup: int -> Sample, day: int): (p: HistoryPoint)
    ensures p.date == day && p.ndvi == lookup(day).ndvi && p.evi == lookup(day).evi
  {
    var s := lookup(day);
    HistoryPoint(day, s.ndvi, s.evi)
  }

  /** `s[::-1]`. */
  function Reversed<T>(s: seq<T>): (r: seq<T>)
    ensures |r| == |s|
    ensures forall k :: 0 <= k < |s| ==> r[k] == s[|s| - 1 - k]
  {
    if s == [] then [] else Reversed(s[1..]) + [s[0]]
  }

  /**
   * `get_historical_data`: one lookup per day going back from `today`,
   * returned oldest first.
   */
  method HistoricalData(lookup: int -> Sample, today: int, days: int) returns (series: seq<HistoryPoint>)
    ensures |series| == if days > 0 then days else 0
    ensures forall k :: 0 <= k < |series| ==> series[k] == PointOf(lookup, today - (|series| - 1 - k))
    ensures |series| > 0 ==> series[|series| - 1].date == today
  {
    var historical: seq<HistoryPoint> := [];
    var i := 0;
    while i < days
      invariant 0 <= i && (i <= days || i == 0)
      invariant |historical| == i
      invariant forall k :: 0 <= k < i ==> historical[k] == PointOf(lookup, today - k)
    {
      var date := today - i;
      var data := lookup(date);
      historical := historical + [HistoryPoint(date, data.ndvi, data.evi)];
      i := i + 1;
    }
    series := Reversed(historical);
  }

  /** One flagged step of a time series. */
  datatype BloomEvent = BloomEvent(date: int, intensity: real)

  /** The four parallel lists `get_time_series` returns. */
  datatype TimeSeries = TimeSeries(dates: seq<int>, ndvi: seq<real>, evi: seq<real>, bloomEvents: seq<BloomEvent>)

  /** Number of 7-day steps from `start` that are not after `end`. */
  function StepCount(start: int, end: int): (n: nat)
    ensures end < start ==> n == 0
    ensures end >= start ==> start + TimeSeriesStep * (n - 1) <= end < start + TimeSeriesStep * n
  {
    if end < start then 0 else (end - start) / TimeSeriesStep + 1
  }

  /** The bloom events among the first `n` steps from `start`, in step order. */
  function BloomEventsOf(lookup: int -> Sample, start: int, n: nat): (events: seq<BloomEvent>)
    ensures |events| <= n
    ensures forall e :: e in events ==> e.intensity > BloomEventNdvi
  {
    if n == 0 then []
    else
      var day := start + TimeSeriesStep * (n - 1);
      BloomEventsOf(lookup, start, n - 1)
        + (if lookup(day).ndvi > BloomEventNdvi then [BloomEvent(day, lookup(day).ndvi)] else [])
  }

  /** Every event is a step among the first `n` whose NDVI exceeds 0.6, with that NDVI as intensity. */
  lemma {:induction false} BloomEventsSound(lookup: int -> Sample, start: int, n: nat)
    ensures |BloomEventsOf(lookup, start, n)| <= n
    ensures forall e :: e in BloomEventsOf(lookup, start, n) ==>
      && e.intensity > BloomEventNdvi
      && e.intensity == lookup(e.date).ndvi
      && exists k :: 0 <= k < n && e.date == start + TimeSeriesStep * k
  {
    if n > 0 {
      var prefix := BloomEventsOf(lookup, start, n - 1);
      BloomEventsSound(lookup, start, n - 1);
      var day := start + TimeSeriesStep * (n - 1);
      forall e | e in BloomEventsOf(lookup, start, n)
        ensures e.intensity > BloomEventNdvi && e.intensity == lookup(e.date).ndvi
        ensures exists k :: 0 <= k < n && e.date == start + TimeSeriesStep * k
      {
        if e !in prefix {
          assert e == BloomEvent(day, lookup(day).ndvi);
        }
      }
    }
  }

  /** Every step among the first `n` whose NDVI exceeds 0.6 is reported as an event. */
  lemma {:induction false} BloomEventsComplete(lookup: int -> Sample, start: int, n: nat)
    ensures forall k :: 0 <= k < n && lookup(start + TimeSeriesStep * k).ndvi > BloomEventNdvi ==>
      BloomEvent(start + TimeSeriesStep * k, lookup(start + TimeSeriesStep * k).ndvi) in BloomEventsOf(lookup, start, n)
  {
    if n > 0 {
      BloomEventsComplete(lookup, start, n - 1);
      var prefix := BloomEventsOf(lookup, start, n - 1);
      assert forall e :: e in prefix ==> e in BloomEventsOf(lookup, start, n);
    }
  }

  /** The events are in step order, and all lie before the `n`-th step. */
  lemma {:induction false} BloomEventsOrdered(lookup: int -> Sample, start: int, n: nat)
    ensures forall i :: 0 <= i < |BloomEventsOf(lookup, start, n)| ==>
      BloomEventsOf(lookup, start, n)[i].date < start + TimeSeriesStep * n
    ensures forall i, j :: 0 <= i < j < |BloomEventsOf(lookup, start, n)| ==>
      BloomEventsOf(lookup, start, n)[i].date < BloomEventsOf(lookup, start, n)[j].date
  {
    if n > 0 {
      BloomEventsOrdered(lookup, start, n - 1);
      var prefix := BloomEventsOf(lookup, start, n - 1);
      var events := BloomEventsOf(lookup, start, n);
      assert forall i :: 0 <= i < |prefix| ==> events[i] == prefix[i];
    }
  }

  /**
   * `get_time_series`: one lookup per 7-day step from `start` while the step
   * is not after `end`.
   */
  method GetTimeSeries(lookup: int -> Sample, start: int, end: int) returns (ts: TimeSeries)
    ensures |ts.dates| == |ts.ndvi| == |ts.evi| == StepCount(start, end)
    ensures forall k :: 0 <= k < |ts.dates| ==>
      && ts.dates[k] == start + TimeSeriesStep * k
      && ts.ndvi[k] == lookup(ts.dates[k]).ndvi
      && ts.evi[k] == lookup(ts.dates[k]).evi
    ensures forall k :: 0 <= k < |ts.dates| ==> ts.dates[k] <= end
    ensures ts.bloomEvents == BloomEventsOf(lookup, start, StepCount(start, end))
  {
    var dates: seq<int> := [];
    var ndviValues: seq<real> := [];
    var eviValues: seq<real> := [];
    var bloomEvents: seq<BloomEvent> := [];
    var current := start;
    while current <= end
      invariant current == start + TimeSeriesStep * |dates|
      invariant |dates| == 0 || current - TimeSeriesStep <= end
      invariant |ndviValues| == |eviValues| == |dates|
      invariant forall k :: 0 <= k < |dates| ==>
        && dates[k] == start + TimeSeriesStep * k
        && ndviValues[k] == lookup(dates[k]).ndvi
        && eviValues[k] == lookup(dates[k]).evi
      invariant bloomEvents == BloomEventsOf(lookup, start, |dates|)
      decreases end - current
    {
      var data := lookup(current);
      dates := dates + [current];
      ndviValues := ndviValues + [data.ndvi];
      eviValues := eviValues + [data.evi];
      if data.ndvi > BloomEventNdvi {
        bloomEvents := bloomEvents + [BloomEvent(current, data.ndvi)];
      }
      current := current + TimeSeriesStep;
    }
    StepCountExact(start, end, |dates|);
    ts := TimeSeries(dates, ndviValues, eviValues, bloomEvents);
  }

  /** The only step count consistent with the loop's exit condition. */
  lemma StepCountExact(start: int, end: int, k: nat)
    requires end < start + TimeSeriesStep * k
    requires k == 0 || start + TimeSeriesStep * (k - 1) <= end
    ensures k == StepCount(start, end)
  {
  }
}
