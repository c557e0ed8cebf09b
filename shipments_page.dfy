/** app/shipments/page.tsx: the query string `fetchShipments` sends to the shipments route, and
    the rows `exportShipments` hands to the CSV export. */
module ShipmentsPage {
  import opened Wrappers
  import opened Types
  import opened Seqs
  import opened Strings
  import ShipmentsRoute

  /** The oil-type select: `'all'` or one oil type. */
  datatype OilFilter = AllOils | OnlyOil(oil: OilType)

  /** The date-range picker's `{ from?: Date; to?: Date }`, as millisecond times. A `Date` object
      is always truthy, so a set bound is always sent. */
  datatype DateRange = DateRange(from: Option<int>, to: Option<int>)

  /** One `name=value` pair of a `URLSearchParams`, in insertion order. */
  datatype Param = Param(key: string, value: string)

  /** The query the page sends; `iso` stands for `Date.prototype.toISOString`. */
  function ShipmentQuery(plantId: string, oil: OilFilter, range: DateRange, iso: int -> string): seq<Param>
  {
    [Param("plantId", plantId)]
    + (if oil.OnlyOil? then [Param("oilType", OilText(oil.oil))] else [])
    + (if range.from.Some? then [Param("startDate", iso(range.from.value))] else [])
    + (if range.to.Some? then [Param("endDate", iso(range.to.value))] else [])
  }

  /** `fetchShipments`' query building: `new URLSearchParams({ plantId })`, then one guarded
      `append` per optional filter. */
  method BuildParams(plantIdFilter: string, oilTypeFilter: OilFilter, dateRange: DateRange, iso: int -> string)
    returns (params: seq<Param>)
    ensures params == ShipmentQuery(plantIdFilter, oilTypeFilter, dateRange, iso)
  {
    params := [Param("plantId", plantIdFilter)];
    if oilTypeFilter.OnlyOil? {
      params := params + [Param("oilType", OilText(oilTypeFilter.oil))];
    }
    if dateRange.from.Some? {
      params := params + [Param("startDate", iso(dateRange.from.value))];
    }
    if dateRange.to.Some? {
      params := params + [Param("endDate", iso(dateRange.to.value))];
    }
  }

  /** `searchParams.get(key)`: the value of the first pair with that key. */
  function Lookup(params: seq<Param>, key: string): (r: Option<string>)
    ensures r.None? <==> forall i :: 0 <= i < |params| ==> params[i].key != key
    ensures r.Some? ==> exists i :: 0 <= i < |params| && params[i] == Param(key, r.value)
  {
    if |params| == 0 then None
    else if params[0].key == key then Some(params[0].value)
    else Lookup(params[1..], key)
  }

  /** The position of each key in the order the page appends them. */
  function KeyRank(key: string): nat
  {
    if key == "plantId" then 0
    else if key == "oilType" then 1
    else if key == "startDate" then 2
    else if key == "endDate" then 3
    else 4
  }

  function Count(b: bool): nat
  {
    if b then 1 else 0
  }

  /** The query starts with `plantId`, and its keys come in the fixed order plantId, oilType,
      startDate, endDate, each at most once and each only when its filter is set. */
  lemma QueryOrder(plantId: string, oil: OilFilter, range: DateRange, iso: int -> string)
    ensures var q := ShipmentQuery(plantId, oil, range, iso);
      && |q| == 1 + Count(oil.OnlyOil?) + Count(range.from.Some?) + Count(range.to.Some?)
      && q[0] == Param("plantId", plantId)
      && (forall i, j :: 0 <= i < j < |q| ==> KeyRank(q[i].key) < KeyRank(q[j].key))
  {
  }

  /** `oilType` is sent iff the filter is not `'all'`, each date iff it is set, and each with the
      value the page holds. */
  lemma QueryLookups(plantId: string, oil: OilFilter, range: DateRange, iso: int -> string)
    ensures var q := ShipmentQuery(plantId, oil, range, iso);
      && Lookup(q, "plantId") == Some(plantId)
      && Lookup(q, "oilType") == (if oil.OnlyOil? then Some(OilText(oil.oil)) else None)
      && Lookup(q, "startDate") == (if range.from.Some? then Some(iso(range.from.value)) else None)
      && Lookup(q, "endDate") == (if range.to.Some? then Some(iso(range.to.value)) else None)
  {
    QueryLookup(plantId, oil, range, iso, "plantId");
    QueryLookup(plantId, oil, range, iso, "oilType");
    QueryLookup(plantId, oil, range, iso, "startDate");
    QueryLookup(plantId, oil, range, iso, "endDate");
  }

  /** The query's four optional pieces, looked up one by one. */
  lemma QueryLookup(plantId: string, oil: OilFilter, range: DateRange, iso: int -> string, key: string)
    ensures var p0 := [Param("plantId", plantId)];
      var p1 := if oil.OnlyOil? then [Param("oilType", OilText(oil.oil))] else [];
      var p2 := if range.from.Some? then [Param("startDate", iso(range.from.value))] else [];
      var p3 := if range.to.Some? then [Param("endDate", iso(range.to.value))] else [];
      Lookup(ShipmentQuery(plantId, oil, range, iso), key)
      == Lookup(p0, key).OrElse(Lookup(p1, key)).OrElse(Lookup(p2, key)).OrElse(Lookup(p3, key))
  {
    var p0 := [Param("plantId", plantId)];
    var p1 := if oil.OnlyOil? then [Param("oilType", OilText(oil.oil))] else [];
    var p2 := if range.from.Some? then [Param("startDate", iso(range.from.value))] else [];
    var p3 := if range.to.Some? then [Param("endDate", iso(range.to.value))] else [];
    assert ShipmentQuery(plantId, oil, range, iso) == p0 + p1 + p2 + p3;
    LookupConcat(p0 + p1 + p2, p3, key);
    LookupConcat(p0 + p1, p2, key);
    LookupConcat(p0, p1, key);
  }

  /** The first pair with a key in `a + b` is the first in `a`, or else the first in `b`. */
  lemma {:induction false} LookupConcat(a: seq<Param>, b: seq<Param>, key: string)
    ensures Lookup(a + b, key) == Lookup(a, key).OrElse(Lookup(b, key))
    decreases |a|
  {
    if |a| > 0 {
      assert (a + b)[1..] == a[1..] + b;
      LookupConcat(a[1..], b, key);
    } else {
      assert a + b == b;
    }
  }

  /** What the page means by its filter: the chosen oil type, and times within the inclusive range. */
  predicate PageSelects(oil: OilFilter, range: DateRange, s: ShipmentsRoute.Shipment)
  {
    && (oil.OnlyOil? ==> s.oil == oil.oil)
    && (range.from.Some? ==> s.shipTs >= range.from.value)
    && (range.to.Some? ==> s.shipTs <= range.to.value)
  }

  function PageSelection(oil: OilFilter, range: DateRange): ShipmentsRoute.Shipment -> bool
  {
    (s: ShipmentsRoute.Shipment) => PageSelects(oil, range, s)
  }

  /** The route, reading the page's query, returns exactly the loaded shipments the page's filter
      selects, in loaded order, provided the ISO text of a time parses back to that time. */
  lemma {:induction false} QueryRoundTrip<S>(shipments: seq<ShipmentsRoute.Shipment>, summary: S, plantId: string,
                                             oil: OilFilter, range: DateRange,
                                             iso: int -> string, parseDate: string -> Option<int>)
    requires forall t :: iso(t) != "" && parseDate(iso(t)) == Some(t)
    ensures var q := ShipmentQuery(plantId, oil, range, iso);
      ShipmentsRoute.Get(shipments, summary, Lookup(q, "oilType"), Lookup(q, "startDate"),
                         Lookup(q, "endDate"), parseDate).shipments
      == Filter(shipments, PageSelection(oil, range))
  {
    var q := ShipmentQuery(plantId, oil, range, iso);
    QueryLookups(plantId, oil, range, iso);
    var lo, ls, le := Lookup(q, "oilType"), Lookup(q, "startDate"), Lookup(q, "endDate");
    ShipmentsRoute.GetAdmits(shipments, summary, lo, ls, le, parseDate);
    var start, end := ShipmentsRoute.ParseBound(ls, parseDate), ShipmentsRoute.ParseBound(le, parseDate);
    assert range.from.Some? ==> start == ShipmentsRoute.At(range.from.value);
    assert range.from.None? ==> start == ShipmentsRoute.NoBound;
    assert range.to.Some? ==> end == ShipmentsRoute.At(range.to.value);
    assert range.to.None? ==> end == ShipmentsRoute.NoBound;
    assert oil.OnlyOil? ==> OilText(oil.oil) != "" by {
      if oil.OnlyOil? {
        match oil.oil
        case Light =>
        case Heavy =>
        case Residue =>
      }
    }
    assert ShipmentsRoute.OilParam(lo) == lo;
    WireNamesAreDistinct();
    var sel := ShipmentsRoute.Admission(lo, start, end);
    forall s | s in shipments ensures sel(s) == PageSelection(oil, range)(s) {
    }
    FilterAgrees(shipments, sel, PageSelection(oil, range));
  }

  // ------------------------------------------------------------ export

  /** One exported row, every cell text. The source keys these cells by Japanese column
      titles; the fields here carry English names in the same column order. */
  datatype ExportRow = ExportRow(
    shipmentId: string,
    plant: string,
    shippedAt: string,
    oilLabel: string,
    mass: string,
    customer: string,
    destinationCode: string,
    invoiceNo: string)

  function PlantLabel(plantId: string): (r: string)
    ensures plantId == DefaultPlant ==> r == "岡山ケミカル"
    ensures plantId != DefaultPlant ==> r == plantId
  {
    if plantId == DefaultPlant then "岡山ケミカル" else plantId
  }

  /** `light` → 軽質油, `heavy` → 重質油, anything else → 残渣. */
  function OilLabel(oil: OilType): string
  {
    if oil == Light then "軽質油" else if oil == Heavy then "重質油" else "残渣"
  }

  /** The badge `getOilTypeBadge` shows for an oil type. */
  function OilBadgeLabel(oil: OilType): string
  {
    match oil
    case Light => "軽質油"
    case Heavy => "重質油"
    case Residue => "残渣"
  }

  /** The export label names the oil type as the table's badge does, and no two types share one. */
  lemma OilLabelAgreesWithBadge(a: OilType, b: OilType)
    ensures OilLabel(a) == OilBadgeLabel(a)
    ensures OilLabel(a) == OilLabel(b) ==> a == b
  {
  }

  /** The row for one shipment; `localeTime` stands for `toLocaleString('ja-JP')` and `massText`
      for the template of a number. */
  function RowOf(s: ShipmentsRoute.Shipment, localeTime: int -> string, massText: real -> string): (r: ExportRow)
    ensures r.shipmentId == s.id && r.customer == s.customer && r.shippedAt == localeTime(s.shipTs)
    ensures r.plant == PlantLabel(s.plantId) && r.oilLabel == OilLabel(s.oil)
    ensures EndsWith(r.mass, "t")
    ensures r.destinationCode == "" <==> s.destinationCode.None? || s.destinationCode.value == ""
    ensures r.invoiceNo == "" <==> s.invoiceNo.None? || s.invoiceNo.value == ""
    ensures s.destinationCode.Some? ==> r.destinationCode == s.destinationCode.value
    ensures s.invoiceNo.Some? ==> r.invoiceNo == s.invoiceNo.value
  {
    ExportRow(
      s.id,
      PlantLabel(s.plantId),
      localeTime(s.shipTs),
      OilLabel(s.oil),
      massText(s.massT) + "t",
      s.customer,
      s.destinationCode.GetOr(""),
      s.invoiceNo.GetOr(""))
  }

  function RowFor(localeTime: int -> string, massText: real -> string): ShipmentsRoute.Shipment -> ExportRow
  {
    (s: ShipmentsRoute.Shipment) => RowOf(s, localeTime, massText)
  }

  /** `exportShipments`' rows: one per shipment, in the same order. */
  function ExportShipments(shipments: seq<ShipmentsRoute.Shipment>, localeTime: int -> string,
                           massText: real -> string): (rows: seq<ExportRow>)
    ensures |rows| == |shipments|
    ensures forall i :: 0 <= i < |rows| ==> rows[i] == RowOf(shipments[i], localeTime, massText)
  {
    Map(shipments, RowFor(localeTime, massText))
  }

  /** The export file name `shipments_<date>.csv`, the date being the ISO text before its `T`. */
  function ExportFileName(isoNow: string): string
  {
    "shipments_" + Split(isoNow, 'T')[0] + ".csv"
  }

  /** For an ISO timestamp `<date>T<time>` the file is named after the date part. */
  lemma ExportFileNameIsDate(date: string, time: string)
    requires 'T' !in date
    ensures ExportFileName(date + "T" + time) == "shipments_" + date + ".csv"
  {
    var s := date + "T" + time;
    assert s[|date|] == 'T';
    assert s[..|date|] == date;
  }
}
