/** app/api/lots/route.ts: GET returns the inbound lots of one plant, either with each lot's
    first quality record joined in, or beside the plant's quality records. */
module LotsRoute {
  import opened Wrappers
  import opened Seqs
  import opened Strings
  import opened Types

  datatype LotCode = LotCode(name: string, shape: string, color: string, grade: string)

  datatype InboundLot = InboundLot(
    id: string,
    kintoneRecordId: string,
    supplier: string,
    code: LotCode,
    arrivalTs: int,
    massT: real,
    plantId: string)

  datatype QualityResult = Pass | Fail | Warn

  datatype QualityRecord = QualityRecord(
    id: string,
    lotId: string,
    testTs: int,
    viscosity: Option<real>,
    sulfurPpm: Option<real>,
    gcms: Option<string>,
    result: QualityResult,
    note: Option<string>,
    plantId: string)

  /** `{ ...lot, quality: qualityRecords[0] || null }`: every lot field kept, `quality` added. */
  datatype LotWithQuality = LotWithQuality(lot: InboundLot, quality: Option<QualityRecord>)

  datatype LotsResponse =
    | Joined(lots: seq<LotWithQuality>, totalCount: nat)
    | Separate(plainLots: seq<InboundLot>, quality: seq<QualityRecord>, totalCount: nat)

  function LotAtPlant(plantId: string): InboundLot -> bool
  {
    (lot: InboundLot) => lot.plantId == plantId
  }

  function RecordAtPlant(plantId: string): QualityRecord -> bool
  {
    (q: QualityRecord) => q.plantId == plantId
  }

  function ForLot(lotId: string): QualityRecord -> bool
  {
    (q: QualityRecord) => q.lotId == lotId
  }

  /** `quality.filter(q => q.lotId === lotId)[0] || null`: the first record of the lot, if any. */
  function FirstQuality(quality: seq<QualityRecord>, lotId: string): (r: Option<QualityRecord>)
    ensures r.None? <==> forall k :: 0 <= k < |quality| ==> quality[k].lotId != lotId
    ensures r.Some? ==> exists k :: 0 <= k < |quality| && quality[k] == r.value && r.value.lotId == lotId
                                    && forall j :: 0 <= j < k ==> quality[j].lotId != lotId
  {
    FilterHead(quality, ForLot(lotId));
    var matching := Filter(quality, ForLot(lotId));
    if |matching| > 0 then Some(matching[0]) else None
  }

  function WithFirstQuality(quality: seq<QualityRecord>): InboundLot -> LotWithQuality
  {
    (lot: InboundLot) => LotWithQuality(lot, FirstQuality(quality, lot.id))
  }

  /** GET. The join happens only when `includeQuality` is exactly the string "true". */
  function Get(lots: seq<InboundLot>, quality: seq<QualityRecord>,
               plantId: Option<string>, includeQuality: Option<string>): (r: LotsResponse)
    ensures r.Joined? <==> includeQuality == Some("true")
    ensures r.Joined? ==> r.totalCount == |r.lots|
    ensures r.Separate? ==> r.totalCount == |r.plainLots|
  {
    var plant := ParamOr(plantId, DefaultPlant);
    var atPlant := Filter(lots, LotAtPlant(plant));
    if includeQuality == Some("true") then
      var joined := Map(atPlant, WithFirstQuality(quality));
      Joined(joined, |joined|)
    else
      Separate(atPlant, Filter(quality, RecordAtPlant(plant)), |atPlant|)
  }

  /** The returned lots are exactly the stored lots of the requested plant, in stored order; with
      the join each keeps all its fields and gains its first quality record; without it the
      quality list is the plant's records, filtered by plant and not by lot. */
  lemma GetContents(lots: seq<InboundLot>, quality: seq<QualityRecord>,
                    plantId: Option<string>, includeQuality: Option<string>)
    ensures var plant := ParamOr(plantId, DefaultPlant);
      var atPlant := Filter(lots, LotAtPlant(plant));
      match Get(lots, quality, plantId, includeQuality)
      case Joined(joined, n) =>
        && |joined| == |atPlant| == n
        && forall i :: 0 <= i < |joined| ==>
             joined[i].lot == atPlant[i] && joined[i].quality == FirstQuality(quality, atPlant[i].id)
      case Separate(plain, q, n) =>
        && plain == atPlant && n == |atPlant|
        && q == Filter(quality, RecordAtPlant(plant))
  {
  }

  /** Without `includeQuality` (the branch that returns the lots on their own), the lots are the
      plant's filter of the stored list: they come from it, belong to the plant, keep their
      order, and every stored lot of the plant is among them. */
  lemma GetKeepsPlantLots(lots: seq<InboundLot>, quality: seq<QualityRecord>, plantId: Option<string>)
    ensures var plant := ParamOr(plantId, DefaultPlant);
      var plain := Get(lots, quality, plantId, None).plainLots;
      && plain == Filter(lots, LotAtPlant(plant))
      && IsSubsequence(plain, lots)
      && (forall i :: 0 <= i < |plain| ==> plain[i].plantId == plant)
      && (forall i :: 0 <= i < |lots| && lots[i].plantId == plant ==> lots[i] in plain)
  {
    FilterIsSubsequence(lots, LotAtPlant(ParamOr(plantId, DefaultPlant)));
  }
}
