/** app/dashboard/page.tsx: the pure parts of the plant dashboard: the KPI delta, the chart
    points, the five alerts it shows and the tank level colour bands. */
module DashboardPage {
  import opened Wrappers
  import opened Seqs
  import KpiRoute
  import KpiCard
  import AlertsRoute
  import Types

  // ------------------------------------------------------------ delta

  /** `calculateDelta` as written: the change of `current` relative to the first history entry's
      availability, whatever metric `current` is; undefined for an empty history. JavaScript
      would give a non-finite number for a zero base; the model needs it nonzero. */
  function CalculateDelta(current: real, history: seq<KpiRoute.KpiSnapshot>): (d: Option<real>)
    requires |history| > 0 ==> history[0].availability != 0.0
    ensures d.None? <==> |history| == 0
    ensures d.Some? ==> d.value * history[0].availability == (current - history[0].availability) * 100.0
  {
    if |history| == 0 then None
    else
      var previous := history[0];
      Some((current - previous.availability) / previous.availability * 100.0)
  }

  /** The four metrics a KPI card shows. */
  datatype Metric = Availability | ConversionEff | Throughput | EnergyPerTon

  function MetricOf(s: KpiRoute.KpiSnapshot, m: Metric): real
  {
    match m
    case Availability => s.availability
    case ConversionEff => s.conversionEff
    case Throughput => s.throughputTph
    case EnergyPerTon => s.energyPerTonKwh
  }

  /** The delta as the cards evidently mean it: the change of a metric relative to the same
      metric in the first history entry. */
  function MetricDelta(m: Metric, current: real, history: seq<KpiRoute.KpiSnapshot>): (d: Option<real>)
    requires |history| > 0 ==> MetricOf(history[0], m) != 0.0
    ensures d.None? <==> |history| == 0
    ensures d.Some? ==> d.value * MetricOf(history[0], m) == (current - MetricOf(history[0], m)) * 100.0
  {
    if |history| == 0 then None
    else
      var previous := MetricOf(history[0], m);
      Some((current - previous) / previous * 100.0)
  }

  /** The corrected delta is zero exactly when the metric did not move, and for a positive base
      its sign is the sign of the change, so the card's trend arrow follows the metric. */
  lemma MetricDeltaFollowsMetric(m: Metric, current: real, history: seq<KpiRoute.KpiSnapshot>)
    requires |history| > 0 && MetricOf(history[0], m) > 0.0
    ensures MetricDelta(m, current, history).value == 0.0 <==> current == MetricOf(history[0], m)
    ensures MetricDelta(m, current, history).value > 0.0 <==> current > MetricOf(history[0], m)
    ensures KpiCard.TrendOf(MetricDelta(m, current, history)) == KpiCard.Up <==> current > MetricOf(history[0], m)
  {
    var p := MetricOf(history[0], m);
    var d := MetricDelta(m, current, history).value;
    assert d * p == (current - p) * 100.0;
    SignOfProduct(d, p);
  }

  lemma SignOfProduct(d: real, p: real)
    requires p > 0.0
    ensures d > 0.0 <==> d * p > 0.0
    ensures d == 0.0 <==> d * p == 0.0
  {
    if d > 0.0 {
      assert d * p > 0.0;
    } else if d < 0.0 {
      assert d * p < 0.0;
    }
  }

  /** For the availability card the source's delta is the intended one. */
  lemma DeltaAgreesForAvailability(current: real, history: seq<KpiRoute.KpiSnapshot>)
    requires |history| > 0 ==> history[0].availability != 0.0
    ensures CalculateDelta(current, history) == MetricDelta(Availability, current, history)
  {
  }

  /** For the other cards it is not: a conversion efficiency that has not moved from the first
      entry's 80 % is shown as a drop of 11.1 % against an availability of 90 %. */
  lemma DeltaMixesMetrics()
    ensures var h := [KpiRoute.KpiSnapshot(0, "okayama", 90.0, 80.0, 1.0, 300.0)];
      && MetricDelta(ConversionEff, 80.0, h) == Some(0.0)
      && CalculateDelta(80.0, h) != Some(0.0)
      && KpiCard.TrendOf(CalculateDelta(80.0, h)) == KpiCard.Down
      && KpiCard.TrendOf(MetricDelta(ConversionEff, 80.0, h)) == KpiCard.Neutral
  {
    var h := [KpiRoute.KpiSnapshot(0, "okayama", 90.0, 80.0, 1.0, 300.0)];
    assert CalculateDelta(80.0, h).value * 90.0 == -1000.0;
  }

  // ------------------------------------------------------------ target badge

  /** The badge of a dashboard card as written: the value is passed as `toFixed(...)` text, and
      `fixed` stands for that formatting. */
  function CardStatusAsWritten(value: real, target: Option<real>, fixed: real -> string): Option<KpiCard.TargetStatus>
  {
    KpiCard.GetTargetStatus(KpiCard.Text(fixed(value)), target)
  }

  /** So no dashboard card ever shows a target badge, whatever its value and target. */
  lemma AsWrittenCardHasNoBadge(value: real, target: Option<real>, fixed: real -> string)
    ensures CardStatusAsWritten(value, target, fixed).None?
  {
  }

  /** The badge with the number itself passed as the value. */
  function CardStatus(value: real, target: Option<real>): Option<KpiCard.TargetStatus>
  {
    KpiCard.GetTargetStatus(KpiCard.Num(value), target)
  }

  /** With a nonzero target the corrected card shows a badge, and reaching 95 % of the target
      gives success. */
  lemma CardShowsBadge(value: real, target: real)
    requires target != 0.0
    ensures CardStatus(value, Some(target)).Some?
    ensures CardStatus(value, Some(target)) == Some(KpiCard.Success) <==> KpiCard.Achievement(value, target) >= 95.0
  {
  }

  // ------------------------------------------------------------ chart and alerts

  datatype ChartPoint = ChartPoint(time: string, availability: real, conversionEff: real, throughput: real, energy: real)

  function PointOf(localeTime: int -> string): KpiRoute.KpiSnapshot -> ChartPoint
  {
    (s: KpiRoute.KpiSnapshot) =>
      ChartPoint(localeTime(s.ts), s.availability, s.conversionEff, s.throughputTph, s.energyPerTonKwh)
  }

  /** `formatChartData`: one point per history entry, in order, with that entry's figures;
      `localeTime` stands for `toLocaleTimeString('ja-JP', ...)`. */
  function FormatChartData(history: seq<KpiRoute.KpiSnapshot>, localeTime: int -> string): (points: seq<ChartPoint>)
    ensures |points| == |history|
    ensures forall i :: 0 <= i < |points| ==>
      && points[i].time == localeTime(history[i].ts)
      && points[i].availability == history[i].availability
      && points[i].conversionEff == history[i].conversionEff
      && points[i].throughput == history[i].throughputTph
      && points[i].energy == history[i].energyPerTonKwh
  {
    Map(history, PointOf(localeTime))
  }

  /** `alerts.slice(0, 5)`. */
  function LatestAlerts(alerts: seq<AlertsRoute.Alert>): (r: seq<AlertsRoute.Alert>)
    ensures |r| == if |alerts| < 5 then |alerts| else 5
    ensures r == alerts[..|r|]
  {
    if |alerts| < 5 then alerts else alerts[..5]
  }

  /** The dashboard asks for the open alerts of okayama and keeps the first five: what it shows
      are the first (at most five) stored alerts that are open at okayama, in stored order. */
  lemma ShownAlertsAreFirstOpen(stored: seq<AlertsRoute.Alert>)
    ensures var shown := LatestAlerts(AlertsRoute.Get(stored, Some("okayama"), Some("open"), None));
      var matching := Filter(stored, AlertsRoute.Selection(Some("okayama"), Some("open"), None));
      && |shown| <= 5
      && |shown| <= |matching| && shown == matching[..|shown|]
      && (|matching| >= 5 ==> |shown| == 5)
      && (forall i :: 0 <= i < |shown| ==>
            shown[i] in stored && shown[i].plantId == "okayama" && shown[i].status == Types.Open)
  {
    AlertsRoute.GetSelects(stored, Some("okayama"), Some("open"), None);
    var matching := Filter(stored, AlertsRoute.Selection(Some("okayama"), Some("open"), None));
    Types.WireNamesAreDistinct();
    assert Types.StatusText(Types.Open) == "open";
    var shown := LatestAlerts(matching);
    forall i | 0 <= i < |shown|
      ensures shown[i] in stored && shown[i].plantId == "okayama" && shown[i].status == Types.Open
    {
      assert shown[i] == matching[i];
    }
  }

  // ------------------------------------------------------------ tanks

  datatype TankColor = Blue | Green | Yellow | Red

  /** The level bar's colour: above 80 % red, above 60 % yellow, above 20 % green, else blue. */
  function TankBand(levelPct: real): (c: TankColor)
    ensures c == Red <==> levelPct > 80.0
    ensures c == Yellow <==> 60.0 < levelPct <= 80.0
    ensures c == Green <==> 20.0 < levelPct <= 60.0
    ensures c == Blue <==> levelPct <= 20.0
  {
    if levelPct > 80.0 then Red
    else if levelPct > 60.0 then Yellow
    else if levelPct > 20.0 then Green
    else Blue
  }

  function Severity(c: TankColor): nat
  {
    match c
    case Blue => 0
    case Green => 1
    case Yellow => 2
    case Red => 3
  }

  /** A fuller tank never gets a calmer colour, and each boundary belongs to the lower band. */
  lemma TankBandMonotone(a: real, b: real)
    requires a <= b
    ensures Severity(TankBand(a)) <= Severity(TankBand(b))
    ensures TankBand(80.0) == Yellow && TankBand(60.0) == Green && TankBand(20.0) == Blue
  {
  }
}
