/** components/ui/kpi-card.tsx: the target badge and the trend indicator of a KPI card. */
module KpiCard {
  import opened Wrappers

  /** The `value: number | string` prop. */
  datatype KpiValue = Num(x: real) | Text(s: string)

  datatype TargetStatus = Success | Warning | Danger

  datatype Trend = Neutral | Up | Down

  /** Danger < Warning < Success. */
  function Rank(s: TargetStatus): nat
  {
    match s
    case Danger => 0
    case Warning => 1
    case Success => 2
  }

  /** `(value / target) * 100`. */
  function Achievement(value: real, target: real): real
    requires target != 0.0
  {
    value / target * 100.0
  }

  /** `getTargetStatus`: no badge without a truthy target (absent or 0) or for a string value;
      otherwise success from 95 % of target, warning from 80 %, danger below. */
  function GetTargetStatus(value: KpiValue, target: Option<real>): (r: Option<TargetStatus>)
    ensures r.None? <==> target.None? || target.value == 0.0 || value.Text?
    ensures r.Some? ==> (r.value == Success <==> Achievement(value.x, target.value) >= 95.0)
    ensures r.Some? ==> (r.value == Warning <==> 80.0 <= Achievement(value.x, target.value) < 95.0)
    ensures r.Some? ==> (r.value == Danger <==> Achievement(value.x, target.value) < 80.0)
  {
    if target.None? || target.value == 0.0 || value.Text? then None
    else
      var achievement := Achievement(value.x, target.value);
      if achievement >= 95.0 then Some(Success)
      else if achievement >= 80.0 then Some(Warning)
      else Some(Danger)
  }

  /** For a fixed positive target the badge only improves as the value grows. */
  lemma StatusMonotoneInValue(v1: real, v2: real, target: real)
    requires target > 0.0
    requires v1 <= v2
    ensures Rank(GetTargetStatus(Num(v1), Some(target)).value) <= Rank(GetTargetStatus(Num(v2), Some(target)).value)
  {
    AchievementMonotone(v1, v2, target);
  }

  lemma AchievementMonotone(v1: real, v2: real, target: real)
    requires target > 0.0
    requires v1 <= v2
    ensures Achievement(v1, target) <= Achievement(v2, target)
  {
    assert v2 / target - v1 / target == (v2 - v1) / target;
    assert (v2 - v1) / target >= 0.0;
  }

  /** `getTrendIcon` (and the colour chosen with it): `!delta` covers an undefined and a zero delta. */
  function TrendOf(delta: Option<real>): (t: Trend)
    ensures t == Neutral <==> delta.None? || delta.value == 0.0
    ensures t == Up <==> delta.Some? && delta.value > 0.0
    ensures t == Down <==> delta.Some? && delta.value < 0.0
  {
    if delta.None? || delta.value == 0.0 then Neutral
    else if delta.value > 0.0 then Up
    else Down
  }

  /** `getTrendColor`. */
  function TrendColor(delta: Option<real>): (c: string)
    ensures c == (match TrendOf(delta) case Neutral => "text-gray-600" case Up => "text-green-600" case Down => "text-red-600")
  {
    if delta.None? || delta.value == 0.0 then "text-gray-600"
    else if delta.value > 0.0 then "text-green-600"
    else "text-red-600"
  }

  /** The sign printed before the delta: `'+'` only for a positive delta. */
  function DeltaSign(delta: real): (s: string)
    ensures s == "+" <==> TrendOf(Some(delta)) == Up
    ensures s != "+" ==> s == ""
  {
    if delta > 0.0 then "+" else ""
  }
}
