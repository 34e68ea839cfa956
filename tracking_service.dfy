/**
 * `TrackingService`: normalises the carrier's tracking reply (status, events,
 * estimated delivery, current location) and writes it back to stored
 * shipments.
 *
 * The client's `trackPackage` is `carrier.trackPackage`; Carbon's
 * `parse(...)->toISOString()` is the parameter `toIso`, which may fail like
 * Carbon does on text it cannot read; the clock is `now`.
 */
module TrackingService {
  import opened Php
  import opened UspsClient
  import opened Shipments

  datatype Location = Location(city: Value, state: Value, zip: Value)

  /** One reshaped event: ISO time (null when absent), status, description and location. */
  datatype TrackedEvent = TrackedEvent(datetime: Option<string>, status: Value, description: Value, location: Location)

  /** The array `track` returns: the normalised reply, or the error it caught. */
  datatype Tracking =
    | Tracked(trackingNumber: string, status: string, events: seq<TrackedEvent>,
              estimatedDelivery: Value, currentLocation: Option<Location>)
    | TrackFailed(trackingNumber: string, error: string)
  {
    /** The `status` entry; a caught error reports "unknown". */
    function Status(): string {
      if Tracked? then status else "unknown"
    }
  }

  /** Every status `parseStatus` can return. */
  const Statuses: set<string> :=
    {"unknown", "delivered", "out_for_delivery", "in_transit", "accepted", "pre_shipment", "returned"}

  /** The status table, with "in_transit" for any event type it does not list. */
  function StatusFor(eventType: string): string {
    if eventType == "delivered" then "delivered"
    else if eventType == "out for delivery" then "out_for_delivery"
    else if eventType == "in transit" || eventType == "departed" || eventType == "arrived" then "in_transit"
    else if eventType == "acceptance" then "accepted"
    else if eventType == "pre-shipment" then "pre_shipment"
    else if eventType == "return to sender" then "returned"
    else "in_transit"
  }

  /** `$response['trackingEvents'][0]`: the latest event, null when there is none. */
  function FirstEvent(events: Value): Value {
    match events
    case JList(items) => if items == [] then JNull else items[0]
    case JObj(fields) => At(fields, "0")
    case _ => JNull
  }

  /** The latest event's `eventType`, "unknown" when it has none, lower-cased. */
  function LatestEventType(response: Dict): string {
    Lower(ToPhpString(FieldOr(FirstEvent(At(response, "trackingEvents")), "eventType", JStr("unknown"))))
  }

  /** `parseStatus`. */
  function ParseStatus(response: Dict): (s: string)
    ensures s in Statuses
  {
    if !Truthy(At(response, "trackingEvents")) then "unknown" else StatusFor(LatestEventType(response))
  }

  /** Without events (missing, null or empty) the status is "unknown". */
  lemma ParseStatusWithoutEvents(response: Dict)
    requires !IsSet(response, "trackingEvents") || !Truthy(response["trackingEvents"])
    ensures ParseStatus(response) == "unknown"
  {
  }

  /** Only the latest event's type matters, whatever else the replies hold. */
  lemma ParseStatusLatestEventOnly(r1: Dict, r2: Dict)
    requires Truthy(At(r1, "trackingEvents")) && Truthy(At(r2, "trackingEvents"))
    requires FieldOr(FirstEvent(At(r1, "trackingEvents")), "eventType", JStr("unknown"))
             == FieldOr(FirstEvent(At(r2, "trackingEvents")), "eventType", JStr("unknown"))
    ensures ParseStatus(r1) == ParseStatus(r2)
  {
  }

  /** The table ignores case: the carrier's upper-case "DELIVERED" is "delivered". */
  lemma ParseStatusDelivered(response: Dict)
    requires Truthy(At(response, "trackingEvents"))
    requires Field(FirstEvent(At(response, "trackingEvents")), "eventType") == JStr("DELIVERED")
    ensures ParseStatus(response) == "delivered"
  {
    assert Lower("DELIVERED") == "delivered";
  }

  /** An event type the table does not list, a missing one included, counts as in transit. */
  lemma ParseStatusFallback(response: Dict)
    requires Truthy(At(response, "trackingEvents"))
    requires LatestEventType(response) !in
             {"delivered", "out for delivery", "in transit", "departed", "arrived",
              "acceptance", "pre-shipment", "return to sender"}
    ensures ParseStatus(response) == "in_transit"
  {
  }

  /** An event without `eventType` reads as "unknown", which the table maps to in transit. */
  lemma ParseStatusWithoutEventType(response: Dict)
    requires Truthy(At(response, "trackingEvents"))
    requires Field(FirstEvent(At(response, "trackingEvents")), "eventType") == JNull
    ensures ParseStatus(response) == "in_transit"
  {
    assert Lower("unknown") == "unknown";
  }

  function LocationOf(event: Value): Location {
    Location(Field(event, "eventCity"), Field(event, "eventState"), Field(event, "eventZIP"))
  }

  /** The closure of `parseEvents` for one event. */
  function ParseEvent(event: Value, toIso: Value -> Result<string>): (r: Result<TrackedEvent>)
    ensures Field(event, "eventDateTime") == JNull ==> r.Ok? && r.value.datetime.None?
    ensures Field(event, "eventDateTime") != JNull ==>
              (r.Ok? <==> toIso(Field(event, "eventDateTime")).Ok?)
              && (r.Ok? ==> r.value.datetime == Some(toIso(Field(event, "eventDateTime")).value))
              && (r.Err? ==> r.error == toIso(Field(event, "eventDateTime")).error)
    ensures r.Ok? ==> r.value.location == LocationOf(event)
  {
    var status := FieldOr(event, "eventType", JStr("Unknown"));
    var description := FieldOr(event, "eventDescription", JStr(""));
    if Field(event, "eventDateTime") == JNull then
      Ok(TrackedEvent(None, status, description, LocationOf(event)))
    else
      match toIso(Field(event, "eventDateTime"))
      case Err(e) => Err(e)
      case Ok(iso) => Ok(TrackedEvent(Some(iso), status, description, LocationOf(event)))
  }

  /** Missing fields default to status "Unknown", an empty description and null location parts. */
  lemma ParseEventDefaults(toIso: Value -> Result<string>)
    ensures ParseEvent(JObj(map[]), toIso) ==
            Ok(TrackedEvent(None, JStr("Unknown"), JStr(""), Location(JNull, JNull, JNull)))
  {
  }

  /**
   * `parseEvents`: one reshaped event per event, in order; the first event
   * Carbon cannot read aborts it with that error.
   */
  function ParseEvents(events: seq<Value>, toIso: Value -> Result<string>): (r: Result<seq<TrackedEvent>>)
    ensures r.Ok? <==> forall i :: 0 <= i < |events| ==> ParseEvent(events[i], toIso).Ok?
    ensures r.Ok? ==> |r.value| == |events|
                      && forall i :: 0 <= i < |events| ==> r.value[i] == ParseEvent(events[i], toIso).value
    ensures r.Err? ==> exists i :: 0 <= i < |events| && ParseEvent(events[i], toIso).Err?
                                   && r.error == ParseEvent(events[i], toIso).error
                                   && forall j :: 0 <= j < i ==> ParseEvent(events[j], toIso).Ok?
  {
    if events == [] then Ok([])
    else
      var rest := ParseEvents(events[1..], toIso);
      assert forall i :: 1 <= i < |events| ==> events[i] == events[1..][i - 1];
      match ParseEvent(events[0], toIso)
      case Err(e) => Err(e)
      case Ok(first) =>
        if rest.Err? then Err(rest.error) else Ok([first] + rest.value)
  }

  /** `parseEstimatedDelivery`: the reply's own estimate first, else the first event's that carries one. */
  function ParseEstimatedDelivery(response: Dict): (r: Value)
    ensures IsSet(response, "estimatedDeliveryDate") ==> r == response["estimatedDeliveryDate"]
    ensures !IsSet(response, "estimatedDeliveryDate") ==>
              r == FirstEstimate(AsList(At(response, "trackingEvents")))
  {
    if IsSet(response, "estimatedDeliveryDate") then response["estimatedDeliveryDate"]
    else FirstEstimate(AsList(At(response, "trackingEvents")))
  }

  /** `parseCurrentLocation`: none without events, else where the latest event happened. */
  function ParseCurrentLocation(response: Dict): (r: Option<Location>)
    ensures r.None? <==> !Truthy(At(response, "trackingEvents"))
    ensures r.Some? ==> r.value == LocationOf(FirstEvent(At(response, "trackingEvents")))
  {
    if !Truthy(At(response, "trackingEvents")) then None
    else Some(LocationOf(FirstEvent(At(response, "trackingEvents"))))
  }

  /** `track`: never throws; a failure of the client or of Carbon is reported with status "unknown". */
  function Track(trackingNumber: string, carrier: Carrier, toIso: Value -> Result<string>): Tracking
  {
    match carrier.trackPackage(trackingNumber)
    case Err(e) => TrackFailed(trackingNumber, e.message)
    case Ok(response) =>
      match ParseEvents(AsList(At(response, "trackingEvents")), toIso)
      case Err(e) => TrackFailed(trackingNumber, e.message)
      case Ok(events) =>
        Tracked(trackingNumber, ParseStatus(response), events,
                ParseEstimatedDelivery(response), ParseCurrentLocation(response))
  }

  /**
   * The tracking number is echoed; a failed call or an unreadable event
   * time is reported with its message; when the call and every event
   * succeed, the result holds the parsed status, the reshaped events in
   * order, the estimate and the current location.
   */
  lemma TrackCases(trackingNumber: string, carrier: Carrier, toIso: Value -> Result<string>)
    ensures var t := Track(trackingNumber, carrier, toIso);
            var reply := carrier.trackPackage(trackingNumber);
            && t.trackingNumber == trackingNumber
            && (reply.Err? ==> t == TrackFailed(trackingNumber, reply.error.message))
            && (reply.Ok? && ParseEvents(AsList(At(reply.value, "trackingEvents")), toIso).Err? ==>
                  t == TrackFailed(trackingNumber, ParseEvents(AsList(At(reply.value, "trackingEvents")), toIso).error.message))
            && (reply.Ok? && ParseEvents(AsList(At(reply.value, "trackingEvents")), toIso).Ok? ==>
                  t == Tracked(trackingNumber, ParseStatus(reply.value),
                               ParseEvents(AsList(At(reply.value, "trackingEvents")), toIso).value,
                               ParseEstimatedDelivery(reply.value), ParseCurrentLocation(reply.value)))
            && (t.Tracked? ==>
                  && reply.Ok?
                  && t.status == ParseStatus(reply.value)
                  && |t.events| == |AsList(At(reply.value, "trackingEvents"))|
                  && t.estimatedDelivery == ParseEstimatedDelivery(reply.value)
                  && t.currentLocation == ParseCurrentLocation(reply.value))
  {
  }

  // ---------------------------------------------------------------------------
  // Writing tracking back to the store
  // ---------------------------------------------------------------------------

  /** A reshaped event as it is stored in `tracking_events`. */
  function EventValue(e: TrackedEvent): (v: Value)
    ensures Field(v, "estimatedDeliveryDate") == JNull
  {
    JObj(map[
      "datetime" := (if e.datetime.Some? then JStr(e.datetime.value) else JNull),
      "status" := e.status,
      "description" := e.description,
      "location" := JObj(map["city" := e.location.city, "state" := e.location.state, "zip" := e.location.zip])
    ])
  }

  function EventValues(events: seq<TrackedEvent>): (vs: seq<Value>)
    ensures |vs| == |events| && forall i :: 0 <= i < |events| ==> vs[i] == EventValue(events[i])
  {
    seq(|events|, i requires 0 <= i < |events| => EventValue(events[i]))
  }

  /** The row after `updateShipmentTracking` succeeded. */
  function TrackedUpdate(s: Shipment, info: Tracking, now: int): Shipment
    requires info.Tracked?
  {
    s.(status := info.status,
       trackingEvents := JList(EventValues(info.events)),
       deliveredAt := if info.status == "delivered" then Some(Clock(now)) else None)
  }

  /**
   * The update sets a known status, stamps `delivered_at` with the clock
   * exactly when that status is "delivered", and changes nothing else.
   * The stored events no longer carry estimates, so the shipment's
   * estimated delivery reads null afterwards.
   */
  lemma TrackedUpdateProperties(s: Shipment, info: Tracking, now: int)
    requires info.Tracked? && info.status in Statuses
    ensures var u := TrackedUpdate(s, info, now);
            && u.status in Statuses
            && (u.deliveredAt.Some? <==> u.status == "delivered")
            && (u.deliveredAt.Some? ==> u.deliveredAt.value == Clock(now))
            && u.(status := s.status, trackingEvents := s.trackingEvents, deliveredAt := s.deliveredAt) == s
            && EstimatedDelivery(u) == JNull
  {
    var u := TrackedUpdate(s, info, now);
    var vs := EventValues(info.events);
    assert forall i :: 0 <= i < |vs| ==> Field(vs[i], "estimatedDeliveryDate") == JNull;
    assert Truthy(u.trackingEvents) ==> AsList(u.trackingEvents) == vs;
  }

  /** `updateShipmentTracking`. */
  method UpdateShipmentTracking(trackingNumber: string, carrier: Carrier, toIso: Value -> Result<string>,
                                now: int, store: ShipmentStore)
    returns (ok: bool)
    requires store.Valid()
    modifies store
    ensures store.Valid()
    ensures ok <==> old(trackingNumber in store.rows) && Track(trackingNumber, carrier, toIso).Tracked?
    ensures ok ==> store.rows == old(store.rows)[trackingNumber :=
                   TrackedUpdate(old(store.rows)[trackingNumber], Track(trackingNumber, carrier, toIso), now)]
    ensures !ok ==> store.rows == old(store.rows)
  {
    var found := store.Find(trackingNumber);
    if found.None? {
      return false;
    }
    var info := Track(trackingNumber, carrier, toIso);
    if info.TrackFailed? {
      return false;
    }
    store.Save(TrackedUpdate(found.value, info, now));
    ok := true;
  }

  /** The rows `updateMultipleShipments` visits: not delivered or returned, and among `numbers` when given. */
  function Pending(rows: map<string, Shipment>, numbers: Option<seq<string>>): set<string> {
    set k | k in rows && rows[k].status != "delivered" && rows[k].status != "returned"
                      && (numbers.None? || numbers.value == [] || k in numbers.value)
  }

  /** The visited rows whose tracking succeeds. */
  function Updatable(keys: set<string>, carrier: Carrier, toIso: Value -> Result<string>): set<string> {
    set k | k in keys && Track(k, carrier, toIso).Tracked?
  }

  /** A row after its visit: updated when tracking succeeds, as it was otherwise. */
  function Refreshed(s: Shipment, carrier: Carrier, toIso: Value -> Result<string>, now: int): Shipment {
    if Track(s.trackingNumber, carrier, toIso).Tracked?
    then TrackedUpdate(s, Track(s.trackingNumber, carrier, toIso), now)
    else s
  }

  /** `rows` is `before` with the rows in `done` refreshed and the others untouched. */
  ghost predicate RefreshedExactly(rows: map<string, Shipment>, before: map<string, Shipment>, done: set<string>,
                                   carrier: Carrier, toIso: Value -> Result<string>, now: int)
  {
    && rows.Keys == before.Keys
    && (forall j :: j in before ==> before[j].trackingNumber == j)
    && forall j :: j in rows ==>
         rows[j] == if j in done then Refreshed(before[j], carrier, toIso, now) else before[j]
  }

  /** One visit of the loop: `done` grows by the row and the count by its success. */
  lemma VisitStep(rows: map<string, Shipment>, next: map<string, Shipment>, ok: bool, k: string,
                  before: map<string, Shipment>, done: set<string>,
                  carrier: Carrier, toIso: Value -> Result<string>, now: int)
    requires RefreshedExactly(rows, before, done, carrier, toIso, now)
    requires k in before && k !in done
    requires ok <==> Track(k, carrier, toIso).Tracked?
    requires ok ==> next == rows[k := TrackedUpdate(rows[k], Track(k, carrier, toIso), now)]
    requires !ok ==> next == rows
    ensures RefreshedExactly(next, before, done + {k}, carrier, toIso, now)
    ensures |Updatable(done + {k}, carrier, toIso)| == |Updatable(done, carrier, toIso)| + (if ok then 1 else 0)
  {
    if ok {
      assert Updatable(done + {k}, carrier, toIso) == Updatable(done, carrier, toIso) + {k};
    } else {
      assert Updatable(done + {k}, carrier, toIso) == Updatable(done, carrier, toIso);
    }
  }

  lemma UpdatableBound(keys: set<string>, carrier: Carrier, toIso: Value -> Result<string>)
    ensures |Updatable(keys, carrier, toIso)| <= |keys|
  {
    var u := Updatable(keys, carrier, toIso);
    assert keys == u + (keys - u);
  }

  /**
   * `updateMultipleShipments`: visits each pending row once, in whatever
   * order the query returns them, refreshes it, and counts the successful
   * updates; rows it does not visit are left alone.
   */
  method UpdateMultipleShipments(numbers: Option<seq<string>>, carrier: Carrier, toIso: Value -> Result<string>,
                                 now: int, store: ShipmentStore)
    returns (updated: nat)
    requires store.Valid()
    modifies store
    ensures store.Valid()
    ensures RefreshedExactly(store.rows, old(store.rows), Pending(old(store.rows), numbers), carrier, toIso, now)
    ensures updated == |Updatable(Pending(old(store.rows), numbers), carrier, toIso)|
    ensures updated <= |Pending(old(store.rows), numbers)|
  {
    var pending := Pending(store.rows, numbers);
    ghost var before := store.rows;
    var todo := pending;
    ghost var done: set<string> := {};
    updated := 0;
    while todo != {}
      invariant store.Valid()
      invariant todo <= pending && done == pending - todo
      invariant updated == |Updatable(done, carrier, toIso)|
      invariant RefreshedExactly(store.rows, before, done, carrier, toIso, now)
      decreases |todo|
    {
      var k :| k in todo;
      ghost var rows := store.rows;
      var ok := UpdateShipmentTracking(k, carrier, toIso, now, store);
      VisitStep(rows, store.rows, ok, k, before, done, carrier, toIso, now);
      if ok {
        updated := updated + 1;
      }
      todo := todo - {k};
      done := done + {k};
    }
    assert done == pending;
    UpdatableBound(pending, carrier, toIso);
  }
}
