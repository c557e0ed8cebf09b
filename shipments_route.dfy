/** app/api/shipments/route.ts: GET filters the loaded shipment list by oil type and by an
    inclusive date window; the loaded `summary` is returned as it is. */
module ShipmentsRoute {
  import opened Wrappers
  import opened Types
  import opened Seqs
  import opened Strings

  /** `shipTs` is the shipment time in integer milliseconds. */
  datatype Shipment = Shipment(
    id: string,
    plantId: string,
    shipTs: int,
    oil: OilType,
    massT: real,
    customer: string,
    destinationCode: Option<string>,
    invoiceNo: Option<string>)

  datatype ShipmentsResponse<S> = ShipmentsResponse(shipments: seq<Shipment>, summary: S)

  /** A date parameter after `new Date(param)`: absent (or empty), a time, or an Invalid Date.
      An Invalid Date compares false with everything, so it lets no shipment through. */
  datatype DateBound = NoBound | At(t: int) | InvalidDate

  /** `parseDate` stands for `new Date(string)`, with `None` for an Invalid Date. */
  function ParseBound(param: Option<string>, parseDate: string -> Option<int>): DateBound
  {
    if !Present(param) then NoBound
    else match parseDate(param.value)
      case Some(t) => At(t)
      case None => InvalidDate
  }

  function OilIs(oil: string): Shipment -> bool
  {
    (s: Shipment) => OilText(s.oil) == oil
  }

  /** `new Date(s.shipTs) >= new Date(startDate)`; the bound is known to be a parsed date here. */
  function NotBefore(bound: DateBound): Shipment -> bool
  {
    (s: Shipment) => bound.At? && s.shipTs >= bound.t
  }

  function NotAfter(bound: DateBound): Shipment -> bool
  {
    (s: Shipment) => bound.At? && s.shipTs <= bound.t
  }

  /** GET: three guarded filters over the loaded list, in the order oil type, start, end. */
  function Get<S>(shipments: seq<Shipment>, summary: S, oilType: Option<string>,
                  startDate: Option<string>, endDate: Option<string>,
                  parseDate: string -> Option<int>): (r: ShipmentsResponse<S>)
    ensures |r.shipments| <= |shipments| && r.summary == summary
    ensures forall i :: 0 <= i < |r.shipments| ==>
      r.shipments[i] in shipments
      && Admitted(r.shipments[i], OilParam(oilType), ParseBound(startDate, parseDate), ParseBound(endDate, parseDate))
  {
    var byOil := if Present(oilType) then Filter(shipments, OilIs(oilType.value)) else shipments;
    var start := ParseBound(startDate, parseDate);
    var fromStart := if Present(startDate) then Filter(byOil, NotBefore(start)) else byOil;
    var end := ParseBound(endDate, parseDate);
    var toEnd := if Present(endDate) then Filter(fromStart, NotAfter(end)) else fromStart;
    ShipmentsResponse(toEnd, summary)
  }

  /** A shipment passes GET when it passes every filter whose parameter was given. */
  predicate Admitted(s: Shipment, oilType: Option<string>, start: DateBound, end: DateBound)
  {
    && (oilType.Some? ==> OilText(s.oil) == oilType.value)
    && (start != NoBound ==> start.At? && s.shipTs >= start.t)
    && (end != NoBound ==> end.At? && s.shipTs <= end.t)
  }

  function Admission(oilType: Option<string>, start: DateBound, end: DateBound): Shipment -> bool
  {
    (s: Shipment) => Admitted(s, oilType, start, end)
  }

  /** The truthy oil-type parameter, if any. */
  function OilParam(oilType: Option<string>): Option<string>
  {
    if Present(oilType) then oilType else None
  }

  /** GET is one filter by `Admitted`: a stored shipment is returned iff it passes every given
      filter, and the returned list keeps the stored order. */
  lemma {:induction false} GetAdmits<S>(shipments: seq<Shipment>, summary: S, oilType: Option<string>,
                                        startDate: Option<string>, endDate: Option<string>,
                                        parseDate: string -> Option<int>)
    ensures var r := Get(shipments, summary, oilType, startDate, endDate, parseDate);
      var sel := Admission(OilParam(oilType), ParseBound(startDate, parseDate), ParseBound(endDate, parseDate));
      && r.shipments == Filter(shipments, sel)
      && IsSubsequence(r.shipments, shipments)
  {
    var start, end := ParseBound(startDate, parseDate), ParseBound(endDate, parseDate);
    var sel := Admission(OilParam(oilType), start, end);
    var o := When(Present(oilType), OilIs(ParamOr(oilType, "")));
    var b := When(Present(startDate), NotBefore(start));
    var e := When(Present(endDate), NotAfter(end));
    var byOil := if Present(oilType) then Filter(shipments, OilIs(ParamOr(oilType, ""))) else shipments;
    FilterWhen(shipments, Present(oilType), OilIs(ParamOr(oilType, "")));
    var fromStart := if Present(startDate) then Filter(byOil, NotBefore(start)) else byOil;
    FilterWhen(byOil, Present(startDate), NotBefore(start));
    FilterTwice(shipments, o, b);
    var toEnd := if Present(endDate) then Filter(fromStart, NotAfter(end)) else fromStart;
    FilterWhen(fromStart, Present(endDate), NotAfter(end));
    FilterTwice(shipments, Both(o, b), e);
    assert toEnd == Filter(shipments, Both(Both(o, b), e));
    assert toEnd == Get(shipments, summary, oilType, startDate, endDate, parseDate).shipments;
    forall s | s in shipments ensures Both(Both(o, b), e)(s) == sel(s) {
      ChainAgreesAt(s, oilType, startDate, endDate, parseDate);
    }
    FilterAgrees(shipments, Both(Both(o, b), e), sel);
    FilterIsSubsequence(shipments, sel);
  }

  /** At one shipment, the three guarded filters together decide as `Admitted` does. */
  lemma ChainAgreesAt(s: Shipment, oilType: Option<string>, startDate: Option<string>, endDate: Option<string>,
                      parseDate: string -> Option<int>)
    ensures var start, end := ParseBound(startDate, parseDate), ParseBound(endDate, parseDate);
      Both(Both(When(Present(oilType), OilIs(ParamOr(oilType, ""))), When(Present(startDate), NotBefore(start))),
           When(Present(endDate), NotAfter(end)))(s)
      == Admission(OilParam(oilType), start, end)(s)
  {
    var start, end := ParseBound(startDate, parseDate), ParseBound(endDate, parseDate);
    assert When(Present(oilType), OilIs(ParamOr(oilType, "")))(s) == (OilParam(oilType).Some? ==> OilText(s.oil) == OilParam(oilType).value);
    assert When(Present(startDate), NotBefore(start))(s) == (start != NoBound ==> start.At? && s.shipTs >= start.t);
    assert When(Present(endDate), NotAfter(end))(s) == (end != NoBound ==> end.At? && s.shipTs <= end.t);
  }

  /** With no filter parameter the whole loaded list comes back, and the summary is always the
      loaded one. */
  lemma NoFiltersReturnsAll<S>(shipments: seq<Shipment>, summary: S, parseDate: string -> Option<int>)
    ensures Get(shipments, summary, None, None, None, parseDate) == ShipmentsResponse(shipments, summary)
  {
  }

  lemma SummaryPassesThrough<S>(shipments: seq<Shipment>, summary: S, oilType: Option<string>,
                                startDate: Option<string>, endDate: Option<string>,
                                parseDate: string -> Option<int>)
    ensures Get(shipments, summary, oilType, startDate, endDate, parseDate).summary == summary
  {
  }

  /** Both bounds are inclusive; a start after the end, or an unparsable bound, empties the result. */
  lemma {:induction false} WindowIsInclusive<S>(shipments: seq<Shipment>, summary: S, oilType: Option<string>,
                                                startDate: Option<string>, endDate: Option<string>,
                                                parseDate: string -> Option<int>)
    ensures var r := Get(shipments, summary, oilType, startDate, endDate, parseDate).shipments;
      var start, end := ParseBound(startDate, parseDate), ParseBound(endDate, parseDate);
      && (forall i :: 0 <= i < |r| && start.At? ==> r[i].shipTs >= start.t)
      && (forall i :: 0 <= i < |r| && end.At? ==> r[i].shipTs <= end.t)
      && (forall i :: 0 <= i < |r| && Present(oilType) ==> OilText(r[i].oil) == oilType.value)
      && (start.At? && end.At? && start.t > end.t ==> r == [])
      && (start == InvalidDate || end == InvalidDate ==> r == [])
  {
    GetAdmits(shipments, summary, oilType, startDate, endDate, parseDate);
  }
}
