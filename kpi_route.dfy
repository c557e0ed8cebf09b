/** app/api/kpi/route.ts: GET stamps the current snapshot with the delayed timestamp and
    selects the history for the requested period; the 7-day period appends 167 generated
    hourly entries to a copy of the history. */
module KpiRoute {
  import opened Wrappers
  import opened Strings
  import opened Types

  /** Timestamps are integer milliseconds. */
  const HOUR: int := 3_600_000

  /** `for (let i = 1; i < 168; i++)` generates this many entries. */
  const GENERATED_ENTRIES: nat := 167

  datatype KpiSnapshot = KpiSnapshot(
    ts: int,
    plantId: string,
    availability: real,
    conversionEff: real,
    throughputTph: real,
    energyPerTonKwh: real)

  /** The loaded `kpi/<plant>.json`; `targets` is passed through uninterpreted. */
  datatype KpiData<T> = KpiData(current: KpiSnapshot, history: seq<KpiSnapshot>, targets: T)

  datatype KpiResponse<T> = KpiResponse(current: KpiSnapshot, history: seq<KpiSnapshot>, targets: T, lastUpdate: int)

  /** The four `Math.random()`-based values of one generated entry. */
  datatype Sample = Sample(availability: real, conversionEff: real, throughputTph: real, energyPerTonKwh: real)

  /** The entry generated `i` hours before `now`; `sample(i)` stands for its random values. */
  function GeneratedEntry(plantId: string, now: int, sample: nat -> Sample, i: nat): KpiSnapshot
  {
    var v := sample(i);
    KpiSnapshot(now - i * HOUR, plantId, v.availability, v.conversionEff, v.throughputTph, v.energyPerTonKwh)
  }

  /** The 7-day branch: a copy of the history, then `push` of the entries for i = 1 .. 167. */
  method SevenDayHistory(history: seq<KpiSnapshot>, plantId: string, now: int, sample: nat -> Sample)
    returns (r: seq<KpiSnapshot>)
    ensures |r| == |history| + GENERATED_ENTRIES
    ensures r[..|history|] == history
    ensures forall i :: 1 <= i <= GENERATED_ENTRIES ==>
              r[|history| + i - 1] == GeneratedEntry(plantId, now, sample, i)
  {
    r := history;
    for i := 1 to GENERATED_ENTRIES + 1
      invariant |r| == |history| + i - 1
      invariant r[..|history|] == history
      invariant forall k :: 1 <= k < i ==> r[|history| + k - 1] == GeneratedEntry(plantId, now, sample, k)
    {
      r := r + [GeneratedEntry(plantId, now, sample, i)];
    }
  }

  /** The history the period selects: `1h` keeps the first four entries (fewer when the history
      is shorter), `7d` appends the generated entries, and `24h` or any other period keeps the
      history unchanged. */
  function SelectHistory(period: string, history: seq<KpiSnapshot>, plantId: string, now: int,
                         sample: nat -> Sample): seq<KpiSnapshot>
  {
    if period == "1h" then history[..if |history| < 4 then |history| else 4]
    else if period == "7d" then history + seq(GENERATED_ENTRIES, k requires 0 <= k => GeneratedEntry(plantId, now, sample, k + 1))
    else history
  }

  /** GET, with `plantId` defaulting to `okayama` and `period` to `24h`. `delayedTs` stands for
      `getDelayedTimestamp()`, `now` for `new Date()`; `kpiData` is the freshly loaded file, so the
      assignment to `current.ts` is a value update. */
  method Get<T>(plantIdParam: Option<string>, periodParam: Option<string>, kpiData: KpiData<T>,
                delayedTs: int, now: int, sample: nat -> Sample) returns (r: KpiResponse<T>)
    ensures r.current == kpiData.current.(ts := delayedTs)
    ensures r.current.ts == r.lastUpdate == delayedTs
    ensures r.targets == kpiData.targets
    ensures r.history == SelectHistory(ParamOr(periodParam, "24h"), kpiData.history,
                                       ParamOr(plantIdParam, DefaultPlant), now, sample)
  {
    var plantId := ParamOr(plantIdParam, DefaultPlant);
    var period := ParamOr(periodParam, "24h");
    var current := kpiData.current.(ts := delayedTs);
    var filteredHistory := kpiData.history;
    if period == "1h" {
      filteredHistory := kpiData.history[..if |kpiData.history| < 4 then |kpiData.history| else 4];
    } else if period == "24h" {
      filteredHistory := kpiData.history;
    } else if period == "7d" {
      filteredHistory := SevenDayHistory(kpiData.history, plantId, now, sample);
      assert filteredHistory == SelectHistory(period, kpiData.history, plantId, now, sample);
    }
    r := KpiResponse(current, filteredHistory, kpiData.targets, delayedTs);
  }

  /** `1h` is the prefix of length min(4, n). */
  lemma OneHourIsPrefix(history: seq<KpiSnapshot>, plantId: string, now: int, sample: nat -> Sample)
    ensures var h := SelectHistory("1h", history, plantId, now, sample);
      |h| == (if |history| < 4 then |history| else 4) && h == history[..|h|]
  {
  }

  /** Any period other than `1h` and `7d` (including the default `24h`) returns the history as it is. */
  lemma OtherPeriodsKeepHistory(period: string, history: seq<KpiSnapshot>, plantId: string, now: int, sample: nat -> Sample)
    requires period != "1h" && period != "7d"
    ensures SelectHistory(period, history, plantId, now, sample) == history
  {
  }

  /** `7d` keeps the history as a prefix and adds 167 entries an hour apart, the i-th one i hours
      before `now`, all for the requested plant; none of them is later than `now`. */
  lemma SevenDayShape(history: seq<KpiSnapshot>, plantId: string, now: int, sample: nat -> Sample)
    ensures var h := SelectHistory("7d", history, plantId, now, sample);
      && |h| == |history| + GENERATED_ENTRIES
      && h[..|history|] == history
      && (forall i :: 1 <= i <= GENERATED_ENTRIES ==>
            h[|history| + i - 1].ts == now - i * HOUR && h[|history| + i - 1].plantId == plantId
            && h[|history| + i - 1].ts < now)
  {
  }
}
