/** lib/server-utils.ts: the time-series generator loop and the empty-input guard of the
    KPI calculation. */
module ServerUtils {

  /** Timestamps are integer milliseconds. */
  const MINUTE: int := 60_000

  /** The timestamp of the i-th generated point. */
  function TimeAt(startTime: int, intervalMinutes: int, i: nat): int
  {
    startTime + i * (intervalMinutes * MINUTE)
  }

  /** How many points `generateTimeSeries` produces for a positive interval. */
  function SeriesLength(startTime: int, endTime: int, intervalMinutes: int): nat
    requires intervalMinutes > 0
  {
    if startTime > endTime then 0 else (endTime - startTime) / (intervalMinutes * MINUTE) + 1
  }

  /** `generateTimeSeries`: starting at `startTime`, call `generator` and step by the interval while
      the current time is not after `endTime`. The loop ends only if the interval is positive or
      the window is empty, which is what the precondition says. `generator` receives the time
      value at the moment of the call. */
  method GenerateTimeSeries<T>(startTime: int, endTime: int, intervalMinutes: int, generator: int -> T)
    returns (data: seq<T>)
    requires intervalMinutes > 0 || startTime > endTime
    ensures startTime > endTime ==> data == []
    ensures intervalMinutes > 0 ==> |data| == SeriesLength(startTime, endTime, intervalMinutes)
    ensures forall i :: 0 <= i < |data| ==> data[i] == generator(TimeAt(startTime, intervalMinutes, i))
    ensures forall i :: 0 <= i < |data| ==> TimeAt(startTime, intervalMinutes, i) <= endTime
    ensures intervalMinutes > 0 ==> TimeAt(startTime, intervalMinutes, |data|) > endTime
  {
    data := [];
    var current := startTime;
    if startTime > endTime {
      return;
    }
    var step := intervalMinutes * MINUTE;
    while current <= endTime
      invariant step > 0
      invariant current == TimeAt(startTime, intervalMinutes, |data|)
      invariant forall i :: 0 <= i < |data| ==> data[i] == generator(TimeAt(startTime, intervalMinutes, i))
      invariant forall i :: 0 <= i < |data| ==> TimeAt(startTime, intervalMinutes, i) <= endTime
      invariant current <= endTime + step
      decreases endTime - current + step
    {
      data := data + [generator(current)];
      current := current + step;
    }
    SeriesLengthIsCount(startTime, endTime, intervalMinutes, |data|);
  }

  /** The number of points is the one count whose last point is within the window and whose
      next point is past it. */
  lemma SeriesLengthIsCount(startTime: int, endTime: int, intervalMinutes: int, n: nat)
    requires intervalMinutes > 0 && startTime <= endTime && n > 0
    requires TimeAt(startTime, intervalMinutes, n - 1) <= endTime < TimeAt(startTime, intervalMinutes, n)
    ensures n == SeriesLength(startTime, endTime, intervalMinutes)
  {
    var step := intervalMinutes * MINUTE;
    var d := endTime - startTime;
    assert (n - 1) * step <= d < n * step;
    var q := d / step;
    assert q * step <= d < (q + 1) * step;
    if q < n - 1 {
      MultiplyMonotone(q + 1, n - 1, step);
    } else if q > n - 1 {
      MultiplyMonotone(n, q, step);
    }
  }

  lemma MultiplyMonotone(a: int, b: int, k: int)
    requires a <= b && k > 0
    ensures a * k <= b * k
  {
  }

  /** With a positive interval the generated times strictly increase. */
  lemma TimesIncrease(startTime: int, intervalMinutes: int, i: nat, j: nat)
    requires intervalMinutes > 0 && i < j
    ensures TimeAt(startTime, intervalMinutes, i) < TimeAt(startTime, intervalMinutes, j)
  {
    var step := intervalMinutes * MINUTE;
    assert j * step == i * step + (j - i) * step;
    assert (j - i) * step > 0;
  }

  /** As written, a non-positive interval never carries the time past a non-empty window: every
      point the loop would reach is still inside it, so the loop condition never fails. */
  lemma NonPositiveIntervalNeverEnds(startTime: int, endTime: int, intervalMinutes: int, k: nat)
    requires intervalMinutes <= 0 && startTime <= endTime
    ensures TimeAt(startTime, intervalMinutes, k) <= endTime
  {
    if k > 0 {
      MultiplyMonotone(intervalMinutes * MINUTE, 0, k);
    }
  }

  /** The generator with the missing guard: a non-positive interval gives no points instead of
      a loop that never ends. For a positive interval it is the loop above. */
  method GenerateTimeSeriesGuarded<T>(startTime: int, endTime: int, intervalMinutes: int, generator: int -> T)
    returns (data: seq<T>)
    ensures intervalMinutes <= 0 ==> data == []
    ensures intervalMinutes > 0 ==> |data| == SeriesLength(startTime, endTime, intervalMinutes)
    ensures forall i :: 0 <= i < |data| ==> data[i] == generator(TimeAt(startTime, intervalMinutes, i))
    ensures forall i :: 0 <= i < |data| ==> TimeAt(startTime, intervalMinutes, i) <= endTime
  {
    if intervalMinutes <= 0 {
      data := [];
    } else {
      data := GenerateTimeSeries(startTime, endTime, intervalMinutes, generator);
    }
  }

  // ------------------------------------------------------------ KPI guard

  datatype Reading = Reading(ts: int, tag: string, value: real, plantId: string)

  /** The four figures of a `Partial<KpiSnapshot>`. */
  datatype KpiFigures = KpiFigures(availability: real, conversionEff: real, throughputTph: real, energyPerTonKwh: real)

  /** `{}` or the object with all four figures. */
  datatype PartialKpi = NoFigures | Figures(figures: KpiFigures)

  /** `calculateKpiFromReadings`: empty input gives the empty object; otherwise the figures that
      `formulas` (the floating-point mock formulas, not modelled) compute from the readings. */
  function CalculateKpiFromReadings(readings: seq<Reading>, formulas: seq<Reading> -> KpiFigures): (r: PartialKpi)
    ensures r == NoFigures <==> |readings| == 0
    ensures r.Figures? ==> r.figures == formulas(readings)
  {
    if |readings| == 0 then NoFigures else Figures(formulas(readings))
  }
}
