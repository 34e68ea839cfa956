/**
 * `LabelService`: turns the caller's shipment parameters into the carrier's
 * label request (filling in the configured sender, service and label
 * options), asks the carrier for a label, and records the shipment.
 */
module LabelService {
  import opened Php
  import opened Config
  import opened UspsClient
  import opened Shipments

  const FailurePrefix := "Failed to create shipping label: "
  const NoTrackingNumber := "No tracking number received from USPS"

  /** `array_merge($config['default_sender'], $params['from_address'] ?? [])`. */
  function MergedSender(params: Dict, cfg: UspsConfig): (from: Dict)
    ensures forall k :: k in from <==> k in cfg.defaultSender || k in AsDict(Or(params, "from_address", JObj(map[])))
  {
    cfg.defaultSender + AsDict(Or(params, "from_address", JObj(map[])))
  }

  /** A field the caller gives wins over the configured sender; the others come from the configuration. */
  lemma MergedSenderPrefersCaller(params: Dict, cfg: UspsConfig, k: string)
    ensures var given := AsDict(Or(params, "from_address", JObj(map[])));
            (k in given ==> MergedSender(params, cfg)[k] == given[k])
            && (k !in given && k in cfg.defaultSender ==> MergedSender(params, cfg)[k] == cfg.defaultSender[k])
  {
  }

  /** `packageDescription`: dimensions default to 0, the service to the configured one. */
  function PreparedPackage(params: Dict, cfg: UspsConfig): Dict {
    var dims := AsDict(At(params, "dimensions"));
    map[
      "weight" := At(params, "weight"),
      "length" := Or(dims, "length", JNum(0)),
      "height" := Or(dims, "height", JNum(0)),
      "width" := Or(dims, "width", JNum(0)),
      "girth" := Or(dims, "girth", JNum(0)),
      "processingCategory" := Or(params, "processing_category", JStr("MACHINABLE")),
      "rateIndicator" := Or(params, "rate_indicator", JStr("SP")),
      "destinationEntryFacilityType" := JStr("NONE"),
      "mailClass" := Or(params, "service_type", cfg.defaultService)
    ]
  }

  /** `customerDetails`: the caller's contact, else the sender's. */
  function PreparedCustomer(params: Dict, from: Dict): Dict {
    map[
      "customerName" := Or(params, "customer_name", At(from, "name")),
      "customerEmail" := Or(params, "customer_email", At(from, "email")),
      "customerPhoneNumber" := Or(params, "customer_phone", At(from, "phone"))
    ]
  }

  /** `imageInfo`: the caller's label options, else the configured ones. */
  function PreparedImage(params: Dict, cfg: UspsConfig): Dict {
    map[
      "imageType" := Or(params, "label_format", cfg.labelFormat),
      "labelType" := Or(params, "label_type", cfg.labelType),
      "receiptOption" := Or(params, "receipt_option", JStr("SEPARATE_PAGE"))
    ]
  }

  /** `prepareLabelData`: the label request in the carrier's field names. */
  function PrepareLabelData(params: Dict, cfg: UspsConfig): Dict {
    var from := MergedSender(params, cfg);
    map[
      "labelAddress" := JObj(CarrierAddress(AsDict(At(params, "to_address")))),
      "senderAddress" := JObj(CarrierAddress(from)),
      "customerDetails" := JObj(PreparedCustomer(params, from)),
      "imageInfo" := JObj(PreparedImage(params, cfg)),
      "packageDescription" := JObj(PreparedPackage(params, cfg))
    ]
  }

  /** The recipient is `to_address`, in the carrier's field names. */
  lemma PreparedRecipient(params: Dict, cfg: UspsConfig)
    ensures var d := PrepareLabelData(params, cfg);
            "labelAddress" in d && d["labelAddress"] == JObj(CarrierAddress(AsDict(At(params, "to_address"))))
  {
  }

  /** The sender is the merged sender, in the carrier's field names. */
  lemma PreparedSender(params: Dict, cfg: UspsConfig)
    ensures var d := PrepareLabelData(params, cfg);
            "senderAddress" in d && d["senderAddress"] == JObj(CarrierAddress(MergedSender(params, cfg)))
  {
  }

  /** Without a `from_address` the label ships from the configured sender. */
  lemma MergedSenderWithoutCaller(params: Dict, cfg: UspsConfig)
    requires !IsSet(params, "from_address")
    ensures MergedSender(params, cfg) == cfg.defaultSender
  {
  }

  /** The weight as given, each dimension as given or 0, and the entry facility always NONE. */
  lemma PreparedPackageDefaults(params: Dict, cfg: UspsConfig)
    ensures var p := PreparedPackage(params, cfg);
            var dims := AsDict(At(params, "dimensions"));
            && "weight" in p && p["weight"] == At(params, "weight")
            && "length" in p && p["length"] == Or(dims, "length", JNum(0))
            && "height" in p && p["height"] == Or(dims, "height", JNum(0))
            && "width" in p && p["width"] == Or(dims, "width", JNum(0))
            && "girth" in p && p["girth"] == Or(dims, "girth", JNum(0))
            && "destinationEntryFacilityType" in p && p["destinationEntryFacilityType"] == JStr("NONE")
  {
  }

  /**
   * The service asked for, else the configured default; category and
   * rate indicator can be overridden.
   */
  lemma PreparedPackageFields(params: Dict, cfg: UspsConfig)
    ensures var p := PreparedPackage(params, cfg);
            && "mailClass" in p && p["mailClass"] == Or(params, "service_type", cfg.defaultService)
            && "processingCategory" in p && p["processingCategory"] == Or(params, "processing_category", JStr("MACHINABLE"))
            && "rateIndicator" in p && p["rateIndicator"] == Or(params, "rate_indicator", JStr("SP"))
    ensures "packageDescription" in PrepareLabelData(params, cfg)
            && PrepareLabelData(params, cfg)["packageDescription"] == JObj(PreparedPackage(params, cfg))
  {
  }

  /**
   * Contact details are the caller's, else the merged sender's; a caller
   * who gives neither contact details nor a from address gets the
   * configured sender's.
   */
  lemma PreparedCustomerFallback(params: Dict, cfg: UspsConfig)
    ensures var d := PrepareLabelData(params, cfg);
            var from := MergedSender(params, cfg);
            && "customerDetails" in d && d["customerDetails"].JObj?
            && var c := d["customerDetails"].fields;
            && "customerName" in c && c["customerName"] == Or(params, "customer_name", At(from, "name"))
            && "customerEmail" in c && c["customerEmail"] == Or(params, "customer_email", At(from, "email"))
            && "customerPhoneNumber" in c && c["customerPhoneNumber"] == Or(params, "customer_phone", At(from, "phone"))
    ensures !IsSet(params, "from_address") ==>
              var c := PreparedCustomer(params, MergedSender(params, cfg));
              && c["customerName"] == Or(params, "customer_name", At(cfg.defaultSender, "name"))
              && c["customerEmail"] == Or(params, "customer_email", At(cfg.defaultSender, "email"))
              && c["customerPhoneNumber"] == Or(params, "customer_phone", At(cfg.defaultSender, "phone"))
  {
    if !IsSet(params, "from_address") {
      MergedSenderWithoutCaller(params, cfg);
    }
  }

  /** The label format and type fall back to the configuration. */
  lemma PreparedImageFields(params: Dict, cfg: UspsConfig)
    ensures var i := PreparedImage(params, cfg);
            && "imageType" in i && i["imageType"] == Or(params, "label_format", cfg.labelFormat)
            && "labelType" in i && i["labelType"] == Or(params, "label_type", cfg.labelType)
            && "receiptOption" in i && i["receiptOption"] == Or(params, "receipt_option", JStr("SEPARATE_PAGE"))
  {
  }

  /** The service class recorded in prepared label data. */
  function PreparedService(labelData: Dict): Value {
    Field(At(labelData, "packageDescription"), "mailClass")
  }

  // ---------------------------------------------------------------------------
  // Finding: the client re-reads the prepared data as caller parameters
  // ---------------------------------------------------------------------------

  /**
   * As written, the client's `createLabel` reads `to_address`,
   * `service_type` and the other caller keys from the data it is given.
   * Prepared data has none of them, so the request carries no addresses
   * and no weight, and always asks for Ground Advantage.
   */
  lemma ClientLabelCallOfPreparedData(params: Dict, cfg: UspsConfig)
    ensures var p := LabelCall(PrepareLabelData(params, cfg)).payload;
            && "packageDescription" in p && p["packageDescription"].JObj?
            && "mailClass" in p["packageDescription"].fields
            && p["packageDescription"].fields["mailClass"] == JStr("USPS_GROUND_ADVANTAGE")
            && "labelAddress" in p && p["labelAddress"] == JObj(CarrierAddress(map[]))
  {
    var d := PrepareLabelData(params, cfg);
    assert "to_address" !in d && "from_address" !in d && "service_type" !in d;
    LabelCallPackage(d);
    LabelCallAddresses(d);
  }

  /** Asking for Priority Mail: the label requested is Ground Advantage, yet Priority Mail is reported. */
  lemma ClientLabelCallCounterexample(cfg: UspsConfig)
    ensures var d := PrepareLabelData(map["service_type" := JStr("PRIORITY_MAIL")], cfg);
            PreparedService(d) == JStr("PRIORITY_MAIL")
            && Field(At(LabelCall(d).payload, "packageDescription"), "mailClass") == JStr("USPS_GROUND_ADVANTAGE")
  {
    var params := map["service_type" := JStr("PRIORITY_MAIL")];
    PreparedPackageFields(params, cfg);
    ClientLabelCallOfPreparedData(params, cfg);
  }

  /** The evidently intended request: the prepared data posted as it is. */
  function PreparedLabelCall(labelData: Dict): (c: ApiCall)
    ensures c.verb == "POST" && c.endpoint == LabelEndpoint
  {
    ApiCall("POST", LabelEndpoint, labelData)
  }

  /** Posted as prepared, the request carries the service that is reported and the prepared addresses. */
  lemma PreparedLabelCallKeepsService(params: Dict, cfg: UspsConfig)
    ensures var c := PreparedLabelCall(PrepareLabelData(params, cfg));
            && Field(At(c.payload, "packageDescription"), "mailClass") == PreparedService(PrepareLabelData(params, cfg))
            && PreparedService(PrepareLabelData(params, cfg)) == Or(params, "service_type", cfg.defaultService)
            && At(c.payload, "labelAddress") == JObj(CarrierAddress(AsDict(At(params, "to_address"))))
            && At(c.payload, "senderAddress") == JObj(CarrierAddress(MergedSender(params, cfg)))
  {
    PreparedPackageFields(params, cfg);
    PreparedRecipient(params, cfg);
    PreparedSender(params, cfg);
  }

  // ---------------------------------------------------------------------------
  // createLabel and createAndSaveLabel
  // ---------------------------------------------------------------------------

  /** The array `createLabel` returns. */
  datatype LabelInfo = LabelInfo(trackingNumber: Value, labelUrl: Value, labelBase64: Value,
                                 cost: Value, serviceType: Value, labelFormat: Value)

  /**
   * `createLabel`. `carrier.createLabel` is the client's `createLabel`
   * given the prepared data: as written it posts `LabelCall` of that data
   * (see `ClientLabelCallOfPreparedData`), and the reply is the carrier's
   * answer to that request.
   */
  function CreateLabel(params: Dict, cfg: UspsConfig, carrier: Carrier): Result<LabelInfo> {
    var labelData := PrepareLabelData(params, cfg);
    match carrier.createLabel(labelData)
    case Err(e) => Err(ShippingError(FailurePrefix + e.message))
    case Ok(response) =>
      var metadata := At(response, "labelMetadata");
      var image := At(response, "labelImage");
      if Field(metadata, "trackingNumber") == JNull then Err(ShippingError(FailurePrefix + NoTrackingNumber))
      else Ok(LabelInfo(Field(metadata, "trackingNumber"), Field(image, "labelImageURL"),
                        Field(image, "labelImageBase64"), Field(metadata, "postage"),
                        PreparedService(labelData), Or(params, "label_format", cfg.labelFormat)))
  }

  /**
   * Every failure, the carrier's or a reply without a tracking number, is
   * one exception whose message starts with the failure prefix; a success
   * carries the carrier's tracking number and the service that was asked for.
   */
  lemma CreateLabelCases(params: Dict, cfg: UspsConfig, carrier: Carrier)
    ensures var r := CreateLabel(params, cfg, carrier);
            var reply := carrier.createLabel(PrepareLabelData(params, cfg));
            && (r.Err? ==> r.error.ShippingError? && FailurePrefix <= r.error.message)
            && (reply.Err? ==> r == Err(ShippingError(FailurePrefix + reply.error.message)))
            && (reply.Ok? ==> (r.Ok? <==> Field(At(reply.value, "labelMetadata"), "trackingNumber") != JNull))
            && (reply.Ok? && r.Err? ==> r.error.message == FailurePrefix + NoTrackingNumber)
            && (r.Ok? ==> r.value.trackingNumber == Field(At(reply.value, "labelMetadata"), "trackingNumber")
                          && r.value.trackingNumber != JNull
                          && r.value.serviceType == Or(params, "service_type", cfg.defaultService)
                          && r.value.labelFormat == Or(params, "label_format", cfg.labelFormat)
                          && r.value.labelUrl == Field(At(reply.value, "labelImage"), "labelImageURL")
                          && r.value.labelBase64 == Field(At(reply.value, "labelImage"), "labelImageBase64")
                          && r.value.cost == Field(At(reply.value, "labelMetadata"), "postage"))
  {
    PreparedPackageFields(params, cfg);
  }

  /** The row `createAndSaveLabel` inserts for a created label. */
  function LabelShipment(params: Dict, info: LabelInfo, now: int): Shipment {
    Shipment(
      trackingNumber := ToPhpString(info.trackingNumber),
      serviceType := info.serviceType,
      fromAddress := At(params, "from_address"),
      toAddress := At(params, "to_address"),
      weight := At(params, "weight"),
      dimensions := At(params, "dimensions"),
      cost := info.cost,
      labelUrl := info.labelUrl,
      labelBase64 := info.labelBase64,
      status := "label_created",
      trackingEvents := JNull,
      shippedAt := Some(Clock(now)),
      deliveredAt := None,
      metadata := At(params, "metadata"))
  }

  /**
   * A new row is "label_created", shipped now, not delivered and without
   * events; it stores the caller's own addresses, not the merged sender.
   */
  lemma LabelShipmentFields(params: Dict, info: LabelInfo, now: int)
    ensures var s := LabelShipment(params, info, now);
            && s.status == "label_created" && !IsDelivered(s) && !IsInTransit(s)
            && s.shippedAt == Some(Clock(now)) && s.deliveredAt.None?
            && EstimatedDelivery(s) == JNull
            && s.fromAddress == At(params, "from_address") && s.trackingNumber == ToPhpString(info.trackingNumber)
  {
  }

  /** What `createAndSaveLabel` returns on a table holding `rows`. */
  function SavedLabel(params: Dict, cfg: UspsConfig, carrier: Carrier, now: int,
                      rows: map<string, Shipment>): Result<Shipment> {
    match CreateLabel(params, cfg, carrier)
    case Err(e) => Err(e)
    case Ok(info) => InsertOutcome(rows, LabelShipment(params, info, now))
  }

  /**
   * A failed label is reported with its error. A created label is saved
   * as its row exactly when that row has a service type, both addresses
   * and a weight and its tracking number is new; otherwise the database
   * refuses it. The service type is missing exactly when the caller gives
   * no `service_type` and no default service is configured.
   */
  lemma SavedLabelCases(params: Dict, cfg: UspsConfig, carrier: Carrier, now: int, rows: map<string, Shipment>)
    ensures var r := SavedLabel(params, cfg, carrier, now, rows);
            var created := CreateLabel(params, cfg, carrier);
            && (created.Err? ==> r == Err(created.error))
            && (created.Ok? ==>
                  var s := LabelShipment(params, created.value, now);
                  && (s.serviceType == JNull <==> Or(params, "service_type", cfg.defaultService) == JNull)
                  && (r.Ok? <==> !LacksRequired(s) && s.trackingNumber !in rows)
                  && (r.Ok? ==> r.value == s)
                  && (!LacksRequired(s) && s.trackingNumber in rows ==> r == Err(ShippingError(DuplicateTrackingNumber))))
  {
  }

  /**
   * The label bought for a caller who relies on the configured sender is
   * lost: the row stores the caller's missing `from_address`, which the
   * table refuses, although the carrier issued the label.
   */
  lemma DefaultSenderLabelIsLost(params: Dict, cfg: UspsConfig, carrier: Carrier, now: int,
                                 rows: map<string, Shipment>)
    requires At(params, "from_address") == JNull
    requires CreateLabel(params, cfg, carrier).Ok?
    ensures SavedLabel(params, cfg, carrier, now, rows) == Err(ShippingError(NotNullViolation))
  {
  }

  /** `createAndSaveLabel`: the label, then the row; a failure of either saves nothing. */
  method CreateAndSaveLabel(params: Dict, cfg: UspsConfig, carrier: Carrier, now: int, store: ShipmentStore)
    returns (r: Result<Shipment>)
    requires store.Valid()
    modifies store
    ensures store.Valid()
    ensures r == SavedLabel(params, cfg, carrier, now, old(store.rows))
    ensures store.rows == Stored(old(store.rows), r)
  {
    var info := CreateLabel(params, cfg, carrier);
    if info.Err? {
      return Err(info.error);
    }
    r := store.Create(LabelShipment(params, info.value, now));
  }
}
