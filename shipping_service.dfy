/**
 * `UspsShippingService`: the façade that validates both addresses, quotes
 * rates when no service was chosen, and creates and records the label with
 * the standardised addresses; plus batch creation and a raw tracking
 * status update.
 */
module ShippingService {
  import opened Php
  import opened Config
  import opened UspsClient
  import opened RateCache
  import opened Shipments
  import opened AddressValidation
  import opened RateService
  import opened LabelService
  import opened TrackingService

  const InvalidFrom := "Invalid from address: "
  const InvalidTo := "Invalid to address: "

  /** The address the caller gave under `key`, as the array `validate` receives. */
  function AddressOf(data: Dict, key: string): Dict {
    AsDict(At(data, key))
  }

  /** A standardised address mapped back to the caller's field names. */
  function CallerAddress(standardized: Value): Dict {
    map[
      "street" := Field(standardized, "streetAddress"),
      "street2" := FieldOr(standardized, "streetAddressAbbreviation", JStr("")),
      "city" := Field(standardized, "city"),
      "state" := Field(standardized, "state"),
      "zip" := Field(standardized, "ZIPCode"),
      "zip4" := FieldOr(standardized, "ZIPPlus4", JStr(""))
    ]
  }

  /**
   * Mapping back is the inverse of the carrier's address format: a caller
   * address turned into carrier fields and back gives the same carrier fields.
   */
  lemma CallerAddressRoundTrip(a: Dict)
    ensures CarrierAddress(CallerAddress(JObj(CarrierAddress(a)))) == CarrierAddress(a)
  {
    var c := CarrierAddress(a);
    var back := CallerAddress(JObj(c));
    assert At(back, "street") == At(a, "street");
    assert Or(back, "street2", JStr("")) == Or(a, "street2", JStr(""));
    assert At(back, "city") == At(a, "city") && At(back, "state") == At(a, "state");
    assert At(back, "zip") == At(a, "zip");
    assert Or(back, "zip4", JStr("")) == Or(a, "zip4", JStr(""));
  }

  /** The rate request `createShipment` makes when no service was selected. */
  function RateRequest(data: Dict, addresses: Standardized): Dict {
    var dims := AsDict(At(data, "dimensions"));
    map[
      "origin_zip" := Field(addresses.from, "ZIPCode"),
      "destination_zip" := Field(addresses.to, "ZIPCode"),
      "weight" := At(data, "weight"),
      "length" := Or(dims, "length", JNum(0)),
      "width" := Or(dims, "width", JNum(0)),
      "height" := Or(dims, "height", JNum(0)),
      "mail_class" := Or(data, "service_type", JStr("USPS_GROUND_ADVANTAGE"))
    ]
  }

  /** The zips quoted are the standardised ones. */
  lemma RateRequestZips(data: Dict, addresses: Standardized)
    ensures var q := RateRequest(data, addresses);
            && "origin_zip" in q && q["origin_zip"] == Field(addresses.from, "ZIPCode")
            && "destination_zip" in q && q["destination_zip"] == Field(addresses.to, "ZIPCode")
            && "mail_class" in q && q["mail_class"] == Or(data, "service_type", JStr("USPS_GROUND_ADVANTAGE"))
  {
  }

  /** `array_merge($shipmentData, [...])`: the caller's data with both addresses replaced. */
  function LabelRequestData(data: Dict, from: Value, to: Value): Dict {
    data + map["from_address" := JObj(CallerAddress(from)), "to_address" := JObj(CallerAddress(to))]
  }

  /** Both addresses are replaced by the mapped-back standardised ones; every other field is kept. */
  lemma LabelRequestDataFields(data: Dict, from: Value, to: Value)
    ensures var d := LabelRequestData(data, from, to);
            && d.Keys == data.Keys + {"from_address", "to_address"}
            && d["from_address"] == JObj(CallerAddress(from)) && d["to_address"] == JObj(CallerAddress(to))
            && forall k :: k in data && k != "from_address" && k != "to_address" ==> d[k] == data[k]
  {
  }

  /** The label request of `createShipment`. */
  function ShipmentLabelData(data: Dict, addresses: Standardized): Dict {
    LabelRequestData(data, addresses.from, addresses.to)
  }

  /** The two standardised addresses. */
  datatype Standardized = Standardized(from: Value, to: Value)

  /** Validation as `createShipment` sees it: the failure message, or both standardised addresses. */
  function Validated(data: Dict, carrier: Carrier): Result<Standardized> {
    var fromV := Validate(AddressOf(data, "from_address"), carrier);
    var toV := Validate(AddressOf(data, "to_address"), carrier);
    if fromV.Invalid? then Err(ShippingError(InvalidFrom + fromV.error))
    else if toV.Invalid? then Err(ShippingError(InvalidTo + toV.error))
    else Ok(Standardized(fromV.standardized, toV.standardized))
  }

  /** The from address is reported first: when both are invalid, the error names the from address. */
  lemma ValidatedOrder(data: Dict, carrier: Carrier)
    ensures var fromV := Validate(AddressOf(data, "from_address"), carrier);
            var toV := Validate(AddressOf(data, "to_address"), carrier);
            && (fromV.Invalid? ==> Validated(data, carrier) == Err(ShippingError(InvalidFrom + fromV.error)))
            && (fromV.Valid? && toV.Invalid? ==> Validated(data, carrier) == Err(ShippingError(InvalidTo + toV.error)))
            && (Validated(data, carrier).Ok? <==> fromV.Valid? && toV.Valid?)
  {
  }

  /** The rates `createShipment` asks for, or none when the caller selected a service. */
  predicate QuotesRates(data: Dict) {
    !IsSet(data, "selected_service")
  }

  /**
   * What `createShipment` returns once both addresses are standardised:
   * `quote` is the rate request and `labelData` the label request built
   * from them.
   */
  function LabelOutcome(data: Dict, quote: Dict, labelData: Dict, cfg: UspsConfig, carrier: Carrier,
                        digest: Dict -> string, now: int, cacheRows: Table,
                        rows: map<string, Shipment>): Result<Shipment> {
    var rates := RatesOutcome(quote, true, cfg, carrier, digest, cacheRows, now);
    if QuotesRates(data) && rates.Err? then Err(rates.error)
    else SavedLabel(labelData, cfg, carrier, now, rows)
  }

  /** The rate cache after the rate lookup of `createShipment`, when there is one. */
  function CacheAfterQuote(data: Dict, quote: Dict, cfg: UspsConfig, carrier: Carrier,
                           digest: Dict -> string, now: int, cacheRows: Table): Table {
    if QuotesRates(data) then CacheAfter(quote, true, cfg, carrier, digest, cacheRows, now)
    else cacheRows
  }

  /** What `createShipment` returns, given the rate cache and the shipment rows it starts from. */
  function ShipmentOutcome(data: Dict, cfg: UspsConfig, carrier: Carrier, digest: Dict -> string, now: int,
                           cacheRows: Table, rows: map<string, Shipment>): Result<Shipment> {
    match Validated(data, carrier)
    case Err(e) => Err(e)
    case Ok(addresses) =>
      LabelOutcome(data, RateRequest(data, addresses), ShipmentLabelData(data, addresses),
                   cfg, carrier, digest, now, cacheRows, rows)
  }

  /** The rate cache after `createShipment`. */
  function CacheAfterShipment(data: Dict, cfg: UspsConfig, carrier: Carrier, digest: Dict -> string, now: int,
                              cacheRows: Table): Table {
    match Validated(data, carrier)
    case Err(_) => cacheRows
    case Ok(addresses) => CacheAfterQuote(data, RateRequest(data, addresses), cfg, carrier, digest, now, cacheRows)
  }

  /**
   * An invalid address is reported before anything else happens. A rate
   * failure is reported as it is; the rates themselves are discarded. Past
   * both, the outcome is the label saved for the data with both addresses
   * replaced by the standardised ones: a shipment is created exactly when
   * validation and the rates succeed, the label is issued, and the row is
   * complete and new.
   */
  lemma ShipmentOutcomeCases(data: Dict, cfg: UspsConfig, carrier: Carrier, digest: Dict -> string, now: int,
                             cacheRows: Table, rows: map<string, Shipment>)
    ensures var r := ShipmentOutcome(data, cfg, carrier, digest, now, cacheRows, rows);
            var checked := Validated(data, carrier);
            && (checked.Err? ==> r == Err(checked.error)
                                 && CacheAfterShipment(data, cfg, carrier, digest, now, cacheRows) == cacheRows)
            && (!QuotesRates(data) ==> CacheAfterShipment(data, cfg, carrier, digest, now, cacheRows) == cacheRows)
            && (checked.Ok? ==>
                  var rates := RatesOutcome(RateRequest(data, checked.value), true, cfg, carrier, digest, cacheRows, now);
                  var labelData := ShipmentLabelData(data, checked.value);
                  var created := CreateLabel(labelData, cfg, carrier);
                  && (QuotesRates(data) && rates.Err? ==> r == Err(rates.error))
                  && (!QuotesRates(data) || rates.Ok? ==>
                        && (created.Err? ==> r == Err(created.error))
                        && (created.Ok? ==>
                              var s := LabelShipment(labelData, created.value, now);
                              r == InsertOutcome(rows, s))))
  {
    var checked := Validated(data, carrier);
    if checked.Ok? {
      var quote := RateRequest(data, checked.value);
      var labelData := ShipmentLabelData(data, checked.value);
      assert ShipmentOutcome(data, cfg, carrier, digest, now, cacheRows, rows)
          == LabelOutcome(data, quote, labelData, cfg, carrier, digest, now, cacheRows, rows);
    }
  }

  /**
   * The row `createShipment` saves always holds both standardised
   * addresses, so a NOT NULL column refuses it only when the weight or
   * the label's service type is missing.
   */
  lemma ShipmentRowHasAddresses(data: Dict, addresses: Standardized, info: LabelInfo, now: int)
    ensures var s := LabelShipment(ShipmentLabelData(data, addresses), info, now);
            s.fromAddress == JObj(CallerAddress(addresses.from)) && s.toAddress == JObj(CallerAddress(addresses.to))
            && (LacksRequired(s) <==> At(data, "weight") == JNull || info.serviceType == JNull)
  {
  }

  /** `createShipment` past validation: the rates when no service was selected, then the label. */
  method CreateValidated(data: Dict, quote: Dict, labelData: Dict, cfg: UspsConfig, carrier: Carrier,
                         digest: Dict -> string, now: int, store: ShipmentStore, cache: RateCacheTable)
    returns (r: Result<Shipment>)
    requires store.Valid()
    modifies store, cache
    ensures store.Valid()
    ensures r == LabelOutcome(data, quote, labelData, cfg, carrier, digest, now, old(cache.rows), old(store.rows))
    ensures cache.rows == CacheAfterQuote(data, quote, cfg, carrier, digest, now, old(cache.rows))
    ensures store.rows == Stored(old(store.rows), r)
  {
    if !IsSet(data, "selected_service") {
      var rates, calls := RateService.GetRates(quote, true, cfg, carrier, digest, cache, now);
      if rates.Err? {
        return Err(rates.error);
      }
    }
    r := CreateAndSaveLabel(labelData, cfg, carrier, now, store);
  }

  /** `createShipment`. */
  method CreateShipment(data: Dict, cfg: UspsConfig, carrier: Carrier, digest: Dict -> string, now: int,
                        store: ShipmentStore, cache: RateCacheTable)
    returns (r: Result<Shipment>)
    requires store.Valid()
    modifies store, cache
    ensures store.Valid()
    ensures r == ShipmentOutcome(data, cfg, carrier, digest, now, old(cache.rows), old(store.rows))
    ensures cache.rows == CacheAfterShipment(data, cfg, carrier, digest, now, old(cache.rows))
    ensures store.rows == Stored(old(store.rows), r)
  {
    var checked := Validated(data, carrier);
    if checked.Err? {
      return Err(checked.error);
    }
    r := CreateValidated(data, RateRequest(data, checked.value), ShipmentLabelData(data, checked.value),
                         cfg, carrier, digest, now, store, cache);
  }

  /** One entry of `createBatchShipments`' result. */
  datatype BatchResult = Created(shipment: Shipment) | Failed(error: string, data: Dict)

  /** The entry reported for `data` whose creation had outcome `r`: the shipment, or the message and the input. */
  function EntryOf(r: Result<Shipment>, data: Dict): BatchResult {
    if r.Ok? then Created(r.value) else Failed(r.error.message, data)
  }

  /** The results so far, and the rate cache and shipment rows they leave. */
  datatype BatchState = BatchState(results: seq<BatchResult>, cacheRows: Table, rows: map<string, Shipment>)

  /** One item of the batch, run on the state the items before it left. */
  function BatchStep(st: BatchState, data: Dict, cfg: UspsConfig, carrier: Carrier, digest: Dict -> string,
                     now: int): BatchState {
    var r := ShipmentOutcome(data, cfg, carrier, digest, now, st.cacheRows, st.rows);
    BatchState(st.results + [EntryOf(r, data)],
               CacheAfterShipment(data, cfg, carrier, digest, now, st.cacheRows),
               Stored(st.rows, r))
  }

  /** The state after running `step` on each of `items` in turn, starting from `st`. */
  function RunItems(step: (BatchState, Dict) -> BatchState, items: seq<Dict>, st: BatchState): BatchState
    decreases |items|
  {
    if items == [] then st
    else step(RunItems(step, items[..|items| - 1], st), items[|items| - 1])
  }

  /** `BatchStep` with the configuration, carrier, digest and clock fixed. */
  function BatchStepWith(cfg: UspsConfig, carrier: Carrier, digest: Dict -> string, now: int)
    : (BatchState, Dict) -> BatchState
  {
    (st: BatchState, data: Dict) => BatchStep(st, data, cfg, carrier, digest, now)
  }

  /** `createBatchShipments` on a rate cache and rows: every item in turn, each on what the earlier ones left. */
  function BatchRun(shipments: seq<Dict>, cfg: UspsConfig, carrier: Carrier, digest: Dict -> string, now: int,
                    cacheRows: Table, rows: map<string, Shipment>): BatchState
  {
    RunItems(BatchStepWith(cfg, carrier, digest, now), shipments, BatchState([], cacheRows, rows))
  }

  /** The number of successes among `results`. */
  function Successes(results: seq<BatchResult>): (n: nat)
    ensures n <= |results|
  {
    if results == [] then 0
    else Successes(results[..|results| - 1]) + (if results[|results| - 1].Created? then 1 else 0)
  }

  /** A step that appends exactly one entry and leaves the earlier ones alone. */
  ghost predicate Appends(step: (BatchState, Dict) -> BatchState) {
    forall st: BatchState, data: Dict :: |step(st, data).results| == |st.results| + 1
                       && step(st, data).results[..|st.results|] == st.results
  }

  /**
   * `next` follows `st` by one item: one entry appended, the rows still
   * keyed, the rows that existed kept, and a success stored under a key
   * that was free, so the rows grow by one exactly on a success.
   */
  predicate RowsStep(st: BatchState, next: BatchState) {
    && |next.results| == |st.results| + 1
    && next.results[..|st.results|] == st.results
    && Keyed(next.rows)
    && (forall k :: k in st.rows ==> k in next.rows && next.rows[k] == st.rows[k])
    && (next.results[|st.results|].Created? ==>
          next.results[|st.results|].shipment.trackingNumber in next.rows
          && next.rows[next.results[|st.results|].shipment.trackingNumber] == next.results[|st.results|].shipment)
    && |next.rows| == |st.rows| + (if next.results[|st.results|].Created? then 1 else 0)
  }

  /** A step that is a `RowsStep` from every keyed state. */
  ghost predicate KeepsRows(step: (BatchState, Dict) -> BatchState) {
    forall st: BatchState, data: Dict :: Keyed(st.rows) ==> RowsStep(st, step(st, data))
  }

  /** Running a step that appends: one entry per item, and the run of each prefix of the items is a prefix of the run. */
  lemma {:induction false} RunItemsPrefixes(step: (BatchState, Dict) -> BatchState, items: seq<Dict>,
                                            st: BatchState)
    requires Appends(step)
    requires st.results == []
    ensures |RunItems(step, items, st).results| == |items|
    ensures forall i :: 0 <= i <= |items| ==>
              RunItems(step, items[..i], st).results == RunItems(step, items, st).results[..i]
  {
    if items != [] {
      var n := |items| - 1;
      var init := items[..n];
      RunItemsPrefixes(step, init, st);
      var before := RunItems(step, init, st);
      var run := RunItems(step, items, st);
      assert run == step(before, items[n]);
      assert run.results[..n] == before.results;
      forall i | 0 <= i <= |items|
        ensures RunItems(step, items[..i], st).results == run.results[..i]
      {
        if i == |items| {
          assert items[..i] == items;
        } else {
          assert items[..i] == init[..i];
          assert run.results[..i] == before.results[..i];
        }
      }
    }
  }

  /**
   * The rows `run` holds, compared with the rows it started from: still
   * keyed, the starting rows kept, every success among its entries stored
   * under its tracking number, and one row more per success.
   */
  predicate RowsSince(start: map<string, Shipment>, run: BatchState) {
    && Keyed(run.rows)
    && (forall k :: k in start ==> k in run.rows && run.rows[k] == start[k])
    && (forall i :: 0 <= i < |run.results| && run.results[i].Created? ==>
          run.results[i].shipment.trackingNumber in run.rows
          && run.rows[run.results[i].shipment.trackingNumber] == run.results[i].shipment)
    && |run.rows| == |start| + Successes(run.results)
  }

  /** One more `RowsStep` keeps `RowsSince`. */
  lemma RowsSinceStep(start: map<string, Shipment>, before: BatchState, next: BatchState)
    requires RowsSince(start, before)
    requires RowsStep(before, next)
    ensures RowsSince(start, next)
  {
    var n := |before.results|;
    assert next.results[..n] == before.results;
    forall i | 0 <= i < n
      ensures next.results[i] == before.results[i]
    {
      assert next.results[..n][i] == before.results[i];
    }
  }

  /** Running a step that keeps rows, from keyed rows and no entries: `RowsSince` the start. */
  lemma {:induction false} RunItemsRows(step: (BatchState, Dict) -> BatchState, items: seq<Dict>,
                                        st: BatchState)
    requires KeepsRows(step)
    requires st.results == [] && Keyed(st.rows)
    ensures |RunItems(step, items, st).results| == |items|
    ensures RowsSince(st.rows, RunItems(step, items, st))
  {
    if items != [] {
      var n := |items| - 1;
      RunItemsRows(step, items[..n], st);
      var before := RunItems(step, items[..n], st);
      var run := RunItems(step, items, st);
      assert run == step(before, items[n]);
      RowsSinceStep(st.rows, before, run);
    }
  }

  /** `BatchStep` from keyed rows is a `RowsStep`. */
  lemma BatchStepRows(st: BatchState, data: Dict, cfg: UspsConfig, carrier: Carrier, digest: Dict -> string,
                      now: int)
    requires Keyed(st.rows)
    ensures RowsStep(st, BatchStep(st, data, cfg, carrier, digest, now))
  {
    var r := ShipmentOutcome(data, cfg, carrier, digest, now, st.cacheRows, st.rows);
    if r.Ok? {
      ShipmentOutcomeOk(data, cfg, carrier, digest, now, st.cacheRows, st.rows);
    }
    ReportedRowsStep(st, r, data, CacheAfterShipment(data, cfg, carrier, digest, now, st.cacheRows));
  }

  /** Reporting an outcome whose success, if any, has a free tracking number is a `RowsStep`. */
  lemma ReportedRowsStep(st: BatchState, r: Result<Shipment>, data: Dict, cacheRows: Table)
    requires Keyed(st.rows)
    requires r.Ok? ==> r.value.trackingNumber !in st.rows
    ensures RowsStep(st, BatchState(st.results + [EntryOf(r, data)], cacheRows, Stored(st.rows, r)))
  {
  }

  /**
   * A failure never stops the batch: there is one entry per item, in
   * order, and item i's entry is its own outcome on the cache and rows
   * the items before it left. A failed entry carries the exception's
   * message and the item's data.
   */
  lemma BatchRunEntry(shipments: seq<Dict>, i: int, cfg: UspsConfig, carrier: Carrier, digest: Dict -> string,
                      now: int, cacheRows: Table, rows: map<string, Shipment>)
    requires 0 <= i < |shipments|
    ensures var run := BatchRun(shipments, cfg, carrier, digest, now, cacheRows, rows);
            var before := BatchRun(shipments[..i], cfg, carrier, digest, now, cacheRows, rows);
            && |run.results| == |shipments|
            && run.results[i] == EntryOf(ShipmentOutcome(shipments[i], cfg, carrier, digest, now,
                                                         before.cacheRows, before.rows), shipments[i])
  {
    var step := BatchStepWith(cfg, carrier, digest, now);
    var st0 := BatchState([], cacheRows, rows);
    var run := RunItems(step, shipments, st0);
    var before := RunItems(step, shipments[..i], st0);
    var after := RunItems(step, shipments[..i + 1], st0);
    RunItemsPrefixes(step, shipments, st0);
    assert shipments[..i + 1][..i] == shipments[..i];
    assert after == step(before, shipments[i]);
    assert |before.results| == i;
    assert after.results[..i + 1] == run.results[..i + 1];
    assert run.results[i] == after.results[i];
  }


  /**
   * The rows a batch leaves: every row that existed is kept, every created
   * shipment is stored under its tracking number, and the rows grow by the
   * number of successes.
   */
  lemma BatchRunRows(shipments: seq<Dict>, cfg: UspsConfig, carrier: Carrier, digest: Dict -> string,
                     now: int, cacheRows: Table, rows: map<string, Shipment>)
    requires Keyed(rows)
    ensures var run := BatchRun(shipments, cfg, carrier, digest, now, cacheRows, rows);
            && |run.results| == |shipments|
            && Keyed(run.rows)
            && (forall k :: k in rows ==> k in run.rows && run.rows[k] == rows[k])
            && (forall i :: 0 <= i < |run.results| && run.results[i].Created? ==>
                  run.results[i].shipment.trackingNumber in run.rows
                  && run.rows[run.results[i].shipment.trackingNumber] == run.results[i].shipment)
            && |run.rows| == |rows| + Successes(run.results)
  {
    var step := BatchStepWith(cfg, carrier, digest, now);
    forall st: BatchState, data: Dict | Keyed(st.rows)
      ensures RowsStep(st, step(st, data))
    {
      BatchStepRows(st, data, cfg, carrier, digest, now);
    }
    RunItemsRows(step, shipments, BatchState([], cacheRows, rows));
  }

  /** A created shipment has a tracking number the rows did not hold. */
  lemma ShipmentOutcomeOk(data: Dict, cfg: UspsConfig, carrier: Carrier, digest: Dict -> string, now: int,
                          cacheRows: Table, rows: map<string, Shipment>)
    requires ShipmentOutcome(data, cfg, carrier, digest, now, cacheRows, rows).Ok?
    ensures var s := ShipmentOutcome(data, cfg, carrier, digest, now, cacheRows, rows).value;
            s.trackingNumber !in rows && !LacksRequired(s)
  {
  }

  /** One item of `createBatchShipments`: every exception is caught and reported with the input. */
  method CreateReported(data: Dict, cfg: UspsConfig, carrier: Carrier, digest: Dict -> string, now: int,
                        store: ShipmentStore, cache: RateCacheTable)
    returns (entry: BatchResult)
    requires store.Valid()
    modifies store, cache
    ensures store.Valid()
    ensures BatchStep(BatchState([], old(cache.rows), old(store.rows)), data, cfg, carrier, digest, now)
            == BatchState([entry], cache.rows, store.rows)
  {
    var r := CreateShipment(data, cfg, carrier, digest, now, store, cache);
    entry := EntryOf(r, data);
  }

  /** `createBatchShipments`: the items in order, each one's exception caught, as `BatchRun` describes. */
  method CreateBatchShipments(shipments: seq<Dict>, cfg: UspsConfig, carrier: Carrier, digest: Dict -> string,
                              now: int, store: ShipmentStore, cache: RateCacheTable)
    returns (results: seq<BatchResult>)
    requires store.Valid()
    modifies store, cache
    ensures store.Valid()
    ensures BatchState(results, cache.rows, store.rows)
            == BatchRun(shipments, cfg, carrier, digest, now, old(cache.rows), old(store.rows))
  {
    results := [];
    var i := 0;
    while i < |shipments|
      invariant 0 <= i <= |shipments|
      invariant store.Valid()
      invariant BatchState(results, cache.rows, store.rows)
                == BatchRun(shipments[..i], cfg, carrier, digest, now, old(cache.rows), old(store.rows))
    {
      ghost var st := BatchState(results, cache.rows, store.rows);
      var entry := CreateReported(shipments[i], cfg, carrier, digest, now, store, cache);
      assert shipments[..i + 1][..i] == shipments[..i];
      results := results + [entry];
      i := i + 1;
    }
    assert shipments[..i] == shipments;
  }

  /** The row after `updateTrackingStatus` found events: the raw event type lower-cased, and the events as given. */
  function RawTrackingUpdate(s: Shipment, events: Value): Shipment {
    var latest := FirstEvent(events);
    s.(status := RawStatus(Field(latest, "eventType")),
       deliveredAt := if Field(latest, "eventType") != JStr("DELIVERED") then s.deliveredAt
                      else if Field(latest, "eventDateTime") == JNull then None
                      else Some(EventTime(Field(latest, "eventDateTime"))),
       trackingEvents := events)
  }

  /** `strtolower($latestEvent['eventType'])`: the carrier's event type, lower-cased and nothing else. */
  function RawStatus(eventType: Value): string {
    Lower(ToPhpString(eventType))
  }

  /** The carrier's "DELIVERED" becomes the status the shipment accessors read as delivered. */
  lemma RawStatusDelivered()
    ensures RawStatus(JStr("DELIVERED")) == "delivered"
  {
    assert ToPhpString(JStr("DELIVERED")) == "DELIVERED";
    LowerOf("DELIVERED", "delivered");
  }

  /**
   * An event type holding a space ("OUT FOR DELIVERY") keeps the space, so
   * it never becomes one of the in-transit statuses, which have none.
   */
  lemma RawStatusKeepsSpace(eventType: string)
    requires ' ' in eventType
    ensures ' ' in RawStatus(JStr(eventType))
    ensures RawStatus(JStr(eventType)) != "in_transit"
    ensures RawStatus(JStr(eventType)) != "out_for_delivery"
  {
    var i :| 0 <= i < |eventType| && eventType[i] == ' ';
    var r := RawStatus(JStr(eventType));
    assert r == Lower(eventType);
    assert r[i] == ' ';
    NoSpaceIn("in_transit");
    NoSpaceIn("out_for_delivery");
  }

  /** A status made of lower-case letters and underscores holds no space. */
  lemma NoSpaceIn(t: string)
    requires forall k :: 0 <= k < |t| ==> 'a' <= t[k] <= 'z' || t[k] == '_'
    ensures ' ' !in t
  {
  }

  /**
   * Only the exact "DELIVERED" sets the delivery time: to the carrier's own
   * timestamp, or to null when the event has none; any other event type
   * keeps the delivery time. Whether the shipment reads as delivered
   * depends on the lower-cased type instead (`RawTrackingUpdateStatus`).
   */
  lemma RawTrackingUpdateDelivery(s: Shipment, events: Value)
    ensures var u := RawTrackingUpdate(s, events);
            var latest := FirstEvent(events);
            && u.trackingNumber == s.trackingNumber
            && u.trackingEvents == events
            && (Field(latest, "eventType") == JStr("DELIVERED") ==> IsDelivered(u))
            && (Field(latest, "eventType") == JStr("DELIVERED") && Field(latest, "eventDateTime") != JNull ==>
                  u.deliveredAt == Some(EventTime(Field(latest, "eventDateTime"))))
            && (Field(latest, "eventType") == JStr("DELIVERED") && Field(latest, "eventDateTime") == JNull ==>
                  u.deliveredAt.None?)
            && (Field(latest, "eventType") != JStr("DELIVERED") ==> u.deliveredAt == s.deliveredAt)
  {
    if Field(FirstEvent(events), "eventType") == JStr("DELIVERED") {
      RawStatusDelivered();
    }
  }

  /**
   * The status is the event type lower-cased, so the shipment reads as
   * delivered exactly when the type lower-cases to "delivered"; a type
   * other than the exact "DELIVERED" still keeps the delivery time.
   */
  lemma RawTrackingUpdateStatus(s: Shipment, events: Value, eventType: string)
    requires Field(FirstEvent(events), "eventType") == JStr(eventType)
    ensures var u := RawTrackingUpdate(s, events);
            && u.status == Lower(eventType)
            && (IsDelivered(u) <==> Lower(eventType) == "delivered")
            && (eventType != "DELIVERED" ==> u.deliveredAt == s.deliveredAt)
  {
    assert ToPhpString(JStr(eventType)) == eventType;
  }

  /**
   * An example: "Delivered" marks the shipment delivered but leaves its
   * delivery time as it was, possibly null.
   */
  lemma RawTrackingUpdateMixedCaseDelivered(s: Shipment, events: Value)
    requires Field(FirstEvent(events), "eventType") == JStr("Delivered")
    ensures IsDelivered(RawTrackingUpdate(s, events))
    ensures RawTrackingUpdate(s, events).deliveredAt == s.deliveredAt
  {
    LowerOf("Delivered", "delivered");
    RawTrackingUpdateStatus(s, events, "Delivered");
  }

  /**
   * "OUT FOR DELIVERY", or any event type holding a space, is stored as it
   * is lower-cased ("out for delivery"), which the shipment accessors do
   * not count as in transit.
   */
  lemma RawTrackingUpdateOutForDelivery(s: Shipment, events: Value, eventType: string)
    requires Field(FirstEvent(events), "eventType") == JStr(eventType)
    requires ' ' in eventType
    ensures !IsInTransit(RawTrackingUpdate(s, events))
  {
    RawStatusKeepsSpace(eventType);
  }

  /**
   * `updateTrackingStatus`: false when the shipment is unknown, true
   * otherwise; the row changes only when the reply has events. A failing
   * client call is not caught.
   */
  method UpdateTrackingStatus(trackingNumber: string, carrier: Carrier, store: ShipmentStore)
    returns (r: Result<bool>)
    requires store.Valid()
    modifies store
    ensures store.Valid()
    ensures r == Ok(false) <==> trackingNumber !in old(store.rows)
    ensures trackingNumber in old(store.rows) && carrier.trackPackage(trackingNumber).Err? ==>
              r == Err(carrier.trackPackage(trackingNumber).error)
    ensures trackingNumber in old(store.rows) && carrier.trackPackage(trackingNumber).Ok? ==> r == Ok(true)
    ensures r == Ok(true) && IsSet(carrier.trackPackage(trackingNumber).value, "trackingEvents") ==>
              store.rows == old(store.rows)[trackingNumber := RawTrackingUpdate(
                old(store.rows)[trackingNumber], carrier.trackPackage(trackingNumber).value["trackingEvents"])]
    ensures !(r == Ok(true) && IsSet(carrier.trackPackage(trackingNumber).value, "trackingEvents")) ==>
              store.rows == old(store.rows)
  {
    var found := store.Find(trackingNumber);
    if found.None? {
      return Ok(false);
    }
    var info := carrier.trackPackage(trackingNumber);
    if info.Err? {
      return Err(info.error);
    }
    if IsSet(info.value, "trackingEvents") {
      store.Save(RawTrackingUpdate(found.value, info.value["trackingEvents"]));
    }
    r := Ok(true);
  }
}
