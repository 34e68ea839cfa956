/**
 * `UspsShipment`: one row of the `usps_shipments` table, its accessors, and
 * the table itself as a store keyed by `tracking_number` (a unique column).
 */
module Shipments {
  import opened Php
  import opened Config

  /** A stored time: the clock at the moment of the update, or a carrier timestamp as given. */
  datatype Moment = Clock(seconds: int) | EventTime(raw: Value)

  datatype Shipment = Shipment(
    trackingNumber: string,
    serviceType: Value,
    fromAddress: Value,
    toAddress: Value,
    weight: Value,
    dimensions: Value,
    cost: Value,
    labelUrl: Value,
    labelBase64: Value,
    status: string,
    trackingEvents: Value,
    shippedAt: Option<Moment>,
    deliveredAt: Option<Moment>,
    metadata: Value)

  predicate IsDelivered(s: Shipment) {
    s.status == "delivered"
  }

  predicate IsInTransit(s: Shipment) {
    s.status in ["in_transit", "out_for_delivery"]
  }

  /** A shipment is never both delivered and in transit. */
  lemma DeliveredNotInTransit(s: Shipment)
    ensures !(IsDelivered(s) && IsInTransit(s))
    ensures IsInTransit(s) <==> s.status == "in_transit" || s.status == "out_for_delivery"
  {
  }

  /** The first `estimatedDeliveryDate` set on an event, in event order; null when none is. */
  function FirstEstimate(events: seq<Value>): (r: Value)
    ensures r == JNull <==> forall i :: 0 <= i < |events| ==> Field(events[i], "estimatedDeliveryDate") == JNull
    ensures r != JNull ==>
              exists i :: 0 <= i < |events| && Field(events[i], "estimatedDeliveryDate") == r
                          && forall j :: 0 <= j < i ==> Field(events[j], "estimatedDeliveryDate") == JNull
  {
    if events == [] then JNull
    else if Field(events[0], "estimatedDeliveryDate") != JNull then Field(events[0], "estimatedDeliveryDate")
    else
      var r := FirstEstimate(events[1..]);
      assert forall i :: 1 <= i < |events| ==> events[i] == events[1..][i - 1];
      r
  }

  /** `getEstimatedDeliveryAttribute`. */
  function EstimatedDelivery(s: Shipment): Value {
    if !Truthy(s.trackingEvents) then JNull else FirstEstimate(AsList(s.trackingEvents))
  }

  /**
   * A shipment without events has no estimate; otherwise the estimate is the
   * first one carried by an event, and null when no event carries one.
   */
  lemma EstimatedDeliveryCases(s: Shipment)
    ensures !Truthy(s.trackingEvents) ==> EstimatedDelivery(s) == JNull
    ensures EstimatedDelivery(s) != JNull ==>
              s.trackingEvents.JList?
              && exists i :: 0 <= i < |s.trackingEvents.items|
                             && Field(s.trackingEvents.items[i], "estimatedDeliveryDate") == EstimatedDelivery(s)
                             && forall j :: 0 <= j < i ==> Field(s.trackingEvents.items[j], "estimatedDeliveryDate") == JNull
    ensures s.trackingEvents.JList?
            && (forall i :: 0 <= i < |s.trackingEvents.items| ==> Field(s.trackingEvents.items[i], "estimatedDeliveryDate") == JNull)
            ==> EstimatedDelivery(s) == JNull
  {
  }

  /** `getServiceNameAttribute`. */
  function ServiceNameOf(s: Shipment, services: map<string, ServiceInfo>): string {
    ServiceName(services, ToPhpString(s.serviceType))
  }

  /** The configured display name when there is one, the service code otherwise. */
  lemma ServiceNameOfCases(s: Shipment, services: map<string, ServiceInfo>)
    ensures var code := ToPhpString(s.serviceType);
            && (code in services && services[code].name.Some? ==> ServiceNameOf(s, services) == services[code].name.value)
            && (code !in services ==> ServiceNameOf(s, services) == code)
            && (code in services && services[code].name.None? ==> ServiceNameOf(s, services) == code)
            && (s.serviceType.JStr? ==> code == s.serviceType.s)
  {
  }

  /**
   * Examples with the shipped services table (the general statement is
   * `ServiceNameOfCases`): Priority Mail is named, and a code the table
   * does not list is shown as it is.
   */
  lemma ServiceNamesOfServiceTable(s: Shipment)
    ensures s.serviceType == JStr("PRIORITY_MAIL") ==> ServiceNameOf(s, ServiceTable) == "Priority Mail"
    ensures s.serviceType == JStr("MEDIA_MAIL") ==> ServiceNameOf(s, ServiceTable) == "MEDIA_MAIL"
  {
  }

  /**
   * `getFormattedWeightAttribute`: the weight under the `decimal:2` cast,
   * then " lbs". Whole-number weights get ".00".
   */
  function FormattedWeight(weight: Value): string {
    (if weight.JNum? then IntToString(weight.n) + ".00" else ToPhpString(weight)) + " lbs"
  }

  /**
   * A whole number of pounds is shown as its decimal digits, ".00" and
   * " lbs", and reading it back with `(int)` gives the pounds.
   */
  lemma FormattedWeightRoundTrip(n: nat)
    ensures FormattedWeight(JNum(n)) == NatToString(n) + ".00 lbs"
    ensures IntCast(FormattedWeight(JNum(n))) == n
    ensures var f := FormattedWeight(JNum(n)); |f| >= 8 && f[|f| - 7..] == ".00 lbs"
  {
    assert FormattedWeight(JNum(n)) == NatToString(n) + ".00 lbs";
    IntCastOfNatToString(n, ".00 lbs");
  }

  /**
   * The columns `service_type`, `from_address`, `to_address` and `weight`
   * are NOT NULL; the others may be null.
   */
  predicate LacksRequired(s: Shipment) {
    s.serviceType == JNull || s.fromAddress == JNull || s.toAddress == JNull || s.weight == JNull
  }

  /** What `create` does with a row on a table holding `rows`: the row, or the database's refusal. */
  function InsertOutcome(rows: map<string, Shipment>, s: Shipment): (r: Result<Shipment>)
    ensures r.Ok? <==> !LacksRequired(s) && s.trackingNumber !in rows
    ensures r.Ok? ==> r.value == s
    ensures r.Err? ==> r.error == ShippingError(NotNullViolation) || r.error == ShippingError(DuplicateTrackingNumber)
    ensures LacksRequired(s) ==> r == Err(ShippingError(NotNullViolation))
  {
    if LacksRequired(s) then Err(ShippingError(NotNullViolation))
    else if s.trackingNumber in rows then Err(ShippingError(DuplicateTrackingNumber))
    else Ok(s)
  }

  /** The rows after an insert with outcome `r`: the new row on success, nothing changed otherwise. */
  function Stored(rows: map<string, Shipment>, r: Result<Shipment>): map<string, Shipment> {
    if r.Ok? then rows[r.value.trackingNumber := r.value] else rows
  }

  /** Every row is stored under its own tracking number. */
  predicate Keyed(rows: map<string, Shipment>) {
    forall k :: k in rows ==> rows[k].trackingNumber == k
  }

  /**
   * A successful insert adds exactly one row under a fresh key and keeps
   * every row that was there; a refused one changes nothing. Either way
   * the rows stay keyed by their tracking numbers.
   */
  lemma StoredInsert(rows: map<string, Shipment>, s: Shipment)
    requires Keyed(rows)
    ensures var r := InsertOutcome(rows, s);
            && Keyed(Stored(rows, r))
            && (forall k :: k in rows ==> k in Stored(rows, r) && Stored(rows, r)[k] == rows[k])
            && |Stored(rows, r)| == |rows| + (if r.Ok? then 1 else 0)
            && (r.Ok? ==> s.trackingNumber in Stored(rows, r) && Stored(rows, r)[s.trackingNumber] == s)
  {
  }

  /** The `usps_shipments` table: rows keyed by their tracking number. */
  class ShipmentStore {
    var rows: map<string, Shipment>

    ghost predicate Valid()
      reads this
    {
      Keyed(rows)
    }

    constructor ()
      ensures Valid() && rows == map[]
    {
      rows := map[];
    }

    /** `where('tracking_number', $n)->first()`. */
    method Find(trackingNumber: string) returns (s: Option<Shipment>)
      requires Valid()
      ensures s.Some? <==> trackingNumber in rows
      ensures s.Some? ==> s.value == rows[trackingNumber] && s.value.trackingNumber == trackingNumber
    {
      if trackingNumber in rows {
        s := Some(rows[trackingNumber]);
      } else {
        s := None;
      }
    }

    /**
     * `create`: a row with a null address or weight violates a NOT NULL
     * column, and a second row with the same tracking number violates the
     * unique index; either is refused and changes nothing.
     */
    method Create(s: Shipment) returns (r: Result<Shipment>)
      requires Valid()
      modifies this
      ensures Valid()
      ensures r == InsertOutcome(old(rows), s)
      ensures rows == Stored(old(rows), r)
    {
      if LacksRequired(s) {
        return Err(ShippingError(NotNullViolation));
      }
      if s.trackingNumber in rows {
        return Err(ShippingError(DuplicateTrackingNumber));
      }
      rows := rows[s.trackingNumber := s];
      r := Ok(s);
    }

    /** `save` / `update` of a row that exists. */
    method Save(s: Shipment)
      requires Valid() && s.trackingNumber in rows
      modifies this
      ensures Valid()
      ensures rows == old(rows)[s.trackingNumber := s]
      ensures rows.Keys == old(rows).Keys
    {
      rows := rows[s.trackingNumber := s];
    }
  }

  /** The database error of a duplicate tracking number; its wording belongs to the database driver. */
  const DuplicateTrackingNumber := "Integrity constraint violation: duplicate tracking_number"

  /** The database error of a null in a NOT NULL column; its wording belongs to the database driver. */
  const NotNullViolation := "Integrity constraint violation: column cannot be null"
}
