/** app/api/alerts/route.ts: the alert list kept in module-level state, its GET filter chain
    and the PATCH handler that acknowledges or closes one alert in place. */
module AlertsRoute {
  import opened Wrappers
  import opened Types
  import opened Seqs
  import opened Strings

  /** Timestamps are integer milliseconds. */
  datatype Alert = Alert(
    id: string,
    plantId: string,
    ts: int,
    severity: AlertSeverity,
    tag: string,
    title: string,
    message: string,
    status: AlertStatus,
    ackBy: Option<string>,
    ackTs: Option<int>,
    comment: Option<string>,
    rule: Option<string>)

  // ------------------------------------------------------------------ GET

  function PlantIs(plantId: string): Alert -> bool
  {
    (a: Alert) => a.plantId == plantId
  }

  function StatusIs(status: string): Alert -> bool
  {
    (a: Alert) => StatusText(a.status) == status
  }

  function SeverityIs(severity: string): Alert -> bool
  {
    (a: Alert) => SeverityText(a.severity) == severity
  }

  /** GET's chain: the plant filter (default `okayama`), then the status and severity filters,
      each applied only when its parameter is truthy. Only the alert list is modelled; the
      `statistics` object of the store is not. */
  function Get(alerts: seq<Alert>, plantId: Option<string>, status: Option<string>, severity: Option<string>): (r: seq<Alert>)
    ensures |r| <= |alerts|
    ensures forall i :: 0 <= i < |r| ==> r[i] in alerts && Selected(r[i], plantId, status, severity)
  {
    var byPlant := Filter(alerts, PlantIs(ParamOr(plantId, DefaultPlant)));
    var byStatus := if Present(status) then Filter(byPlant, StatusIs(status.value)) else byPlant;
    if Present(severity) then Filter(byStatus, SeverityIs(severity.value)) else byStatus
  }

  /** The same selection stated as one predicate: the alert is at the requested plant and has
      every status and severity that was asked for. */
  predicate Selected(a: Alert, plantId: Option<string>, status: Option<string>, severity: Option<string>)
  {
    && a.plantId == ParamOr(plantId, DefaultPlant)
    && (Present(status) ==> StatusText(a.status) == status.value)
    && (Present(severity) ==> SeverityText(a.severity) == severity.value)
  }

  function Selection(plantId: Option<string>, status: Option<string>, severity: Option<string>): Alert -> bool
  {
    (a: Alert) => Selected(a, plantId, status, severity)
  }

  /** The filter chain is one filter by `Selected`: what GET returns is exactly the stored alerts
      that match, in stored order. */
  lemma {:induction false} GetSelects(alerts: seq<Alert>, plantId: Option<string>, status: Option<string>, severity: Option<string>)
    ensures Get(alerts, plantId, status, severity) == Filter(alerts, Selection(plantId, status, severity))
  {
    var plant := PlantIs(ParamOr(plantId, DefaultPlant));
    var sel := Selection(plantId, status, severity);
    if Present(status) && Present(severity) {
      var st, sv := StatusIs(status.value), SeverityIs(severity.value);
      FilterTwice(alerts, plant, st);
      FilterTwice(alerts, Both(plant, st), sv);
      forall a | a in alerts ensures Both(Both(plant, st), sv)(a) == sel(a) { }
      FilterAgrees(alerts, Both(Both(plant, st), sv), sel);
    } else if Present(status) {
      var st := StatusIs(status.value);
      FilterTwice(alerts, plant, st);
      forall a | a in alerts ensures Both(plant, st)(a) == sel(a) { }
      FilterAgrees(alerts, Both(plant, st), sel);
    } else if Present(severity) {
      var sv := SeverityIs(severity.value);
      FilterTwice(alerts, plant, sv);
      forall a | a in alerts ensures Both(plant, sv)(a) == sel(a) { }
      FilterAgrees(alerts, Both(plant, sv), sel);
    } else {
      forall a | a in alerts ensures plant(a) == sel(a) { }
      FilterAgrees(alerts, plant, sel);
    }
  }

  /** Every returned alert matches every given filter; every stored alert that matches is
      returned; the result is an order-preserving subsequence of the store. */
  lemma GetIsExact(alerts: seq<Alert>, plantId: Option<string>, status: Option<string>, severity: Option<string>)
    ensures var r := Get(alerts, plantId, status, severity);
      && (forall i :: 0 <= i < |r| ==> r[i] in alerts && Selected(r[i], plantId, status, severity))
      && (forall i :: 0 <= i < |alerts| && Selected(alerts[i], plantId, status, severity) ==> alerts[i] in r)
      && IsSubsequence(r, alerts)
  {
    GetSelects(alerts, plantId, status, severity);
    FilterIsSubsequence(alerts, Selection(plantId, status, severity));
  }

  /** Without status and severity parameters GET is the plant filter alone. */
  lemma GetByPlantOnly(alerts: seq<Alert>, plantId: Option<string>)
    ensures Get(alerts, plantId, None, None) == Filter(alerts, PlantIs(ParamOr(plantId, DefaultPlant)))
  {
  }

  // ---------------------------------------------------------------- PATCH

  datatype PatchOutcome = NotFound | Updated(alert: Alert)

  function IdIs(id: string): Alert -> bool
  {
    (a: Alert) => a.id == id
  }

  /** What PATCH does to the alert it found. `comment` and `userId` come from the request body;
      a comment is written only when it is truthy. No prior status is required. */
  function ApplyAction(a: Alert, action: string, comment: Option<string>, userId: Option<string>, now: int): (r: Alert)
    ensures r.id == a.id && r.plantId == a.plantId && r.ts == a.ts && r.severity == a.severity
    ensures r.tag == a.tag && r.title == a.title && r.message == a.message && r.rule == a.rule
    ensures action == "ack" ==> r.status == Ack && r.ackBy == userId && r.ackTs == Some(now)
    ensures action == "close" ==> r.status == Closed && r.ackBy == a.ackBy && r.ackTs == a.ackTs
    ensures (action == "ack" || action == "close") && Present(comment) ==> r.comment == comment
    ensures !Present(comment) ==> r.comment == a.comment
    ensures action != "ack" && action != "close" ==> r == a
  {
    var commented := if Present(comment) then a.(comment := comment) else a;
    if action == "ack" then commented.(status := Ack, ackBy := userId, ackTs := Some(now))
    else if action == "close" then commented.(status := Closed)
    else a
  }

  /** The module-level `alertsData` store. */
  class AlertStore {
    var alerts: seq<Alert>

    constructor (seed: seq<Alert>)
      ensures alerts == seed
    {
      alerts := seed;
    }

    /** PATCH: locate the first alert with `alertId` (`findIndex`); an unknown id answers 404 and
        leaves the store alone; otherwise only that index is rewritten with the action applied. */
    method Patch(alertId: string, action: string, comment: Option<string>, userId: Option<string>, now: int)
      returns (outcome: PatchOutcome)
      modifies this
      ensures FirstIndex(old(alerts), IdIs(alertId)).None? ==> outcome == NotFound && alerts == old(alerts)
      ensures FirstIndex(old(alerts), IdIs(alertId)).Some? ==>
                var i := FirstIndex(old(alerts), IdIs(alertId)).value;
                && alerts == old(alerts)[i := ApplyAction(old(alerts)[i], action, comment, userId, now)]
                && outcome == Updated(alerts[i])
    {
      var i := 0;
      while i < |alerts| && alerts[i].id != alertId
        invariant 0 <= i <= |alerts|
        invariant forall j :: 0 <= j < i ==> alerts[j].id != alertId
      {
        i := i + 1;
      }
      if i == |alerts| {
        return NotFound;
      }
      var alert := ApplyAction(alerts[i], action, comment, userId, now);
      alerts := alerts[i := alert];
      outcome := Updated(alert);
    }
  }

  /** An acknowledgement or closing never changes how many alerts there are, nor any alert at
      another index. */
  lemma PatchTouchesOneIndex(alerts: seq<Alert>, i: nat, action: string, comment: Option<string>, userId: Option<string>, now: int)
    requires i < |alerts|
    ensures var after := alerts[i := ApplyAction(alerts[i], action, comment, userId, now)];
      |after| == |alerts| && forall j :: 0 <= j < |alerts| && j != i ==> after[j] == alerts[j]
  {
  }
}
