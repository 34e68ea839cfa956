/**
 * `AddressValidationService`: asks the carrier to standardise an address
 * and reports, field by field, where the standardised address differs from
 * the one given. It never throws: a failure is reported as an invalid
 * result carrying the message.
 */
module AddressValidation {
  import opened Php
  import opened UspsClient

  /** One corrected field: what the caller sent and what the carrier returned. */
  datatype Correction = Correction(original: Value, corrected: Value)

  /** The array `validate` returns. */
  datatype Validation =
    | Valid(original: Dict, standardized: Value, corrections: map<string, Correction>)
    | Invalid(original: Dict, error: string)

  /** The carrier's address fields `getCorrections` compares, in its order. */
  const Fields: seq<string> := ["streetAddress", "city", "state", "ZIPCode"]

  const InvalidResponse := "Invalid address validation response"

  /** `mapFieldName`: the caller's name for a carrier field; unknown names map to themselves. */
  function MapFieldName(apiField: string): (name: string)
    ensures apiField !in Fields ==> name == apiField
  {
    if apiField == "streetAddress" then "street"
    else if apiField == "ZIPCode" then "zip"
    else apiField
  }

  /** The four compared fields come from four different caller fields. */
  lemma MapFieldNameOnFields()
    ensures MapFieldName("streetAddress") == "street" && MapFieldName("city") == "city"
    ensures MapFieldName("state") == "state" && MapFieldName("ZIPCode") == "zip"
    ensures forall i, j :: 0 <= i < j < |Fields| ==> MapFieldName(Fields[i]) != MapFieldName(Fields[j])
  {
  }

  /** Both sides carry the field and the values are not identical (PHP's `!==`). */
  predicate Differs(original: Dict, standardized: Dict, field: string) {
    IsSet(original, MapFieldName(field)) && IsSet(standardized, field)
    && original[MapFieldName(field)] != standardized[field]
  }

  /** The corrections found among `fields`, keyed by the carrier's field name. */
  function CorrectionsOver(original: Dict, standardized: Dict, fields: seq<string>): (r: map<string, Correction>)
    ensures forall k :: k in r <==> k in fields && Differs(original, standardized, k)
    ensures forall k :: k in r ==>
              Differs(original, standardized, k) && r[k] == Correction(original[MapFieldName(k)], standardized[k])
  {
    if fields == [] then map[]
    else
      var f := fields[|fields| - 1];
      var r := CorrectionsOver(original, standardized, fields[..|fields| - 1]);
      assert fields == fields[..|fields| - 1] + [f];
      if Differs(original, standardized, f)
      then r[f := Correction(original[MapFieldName(f)], standardized[f])]
      else r
  }

  /** What `getCorrections` computes. */
  function Corrections(original: Dict, standardized: Dict): map<string, Correction> {
    CorrectionsOver(original, standardized, Fields)
  }

  /**
   * A field is corrected exactly when it is one of the four, both sides
   * carry it and the values differ; the entry holds both values.
   */
  lemma CorrectionsExact(original: Dict, standardized: Dict, k: string)
    ensures k in Corrections(original, standardized) <==>
              k in Fields && IsSet(original, MapFieldName(k)) && IsSet(standardized, k)
              && original[MapFieldName(k)] != standardized[k]
    ensures k in Corrections(original, standardized) ==>
              Corrections(original, standardized)[k].original != Corrections(original, standardized)[k].corrected
  {
  }

  /** When the carrier returns every compared field unchanged there is nothing to correct. */
  lemma CorrectionsOfUnchanged(original: Dict, standardized: Dict)
    requires forall f :: f in Fields && IsSet(original, MapFieldName(f)) && IsSet(standardized, f)
                         ==> standardized[f] == original[MapFieldName(f)]
    ensures Corrections(original, standardized) == map[]
  {
    var c := Corrections(original, standardized);
    assert forall k :: k !in c;
  }

  /** A field missing on either side is never reported, whatever the other side holds. */
  lemma CorrectionsNeedBothSides(original: Dict, standardized: Dict, k: string)
    requires !IsSet(original, MapFieldName(k)) || !IsSet(standardized, k)
    ensures k !in Corrections(original, standardized)
  {
  }

  /** `getCorrections`. */
  method GetCorrections(original: Dict, standardized: Dict) returns (corrections: map<string, Correction>)
    ensures corrections == Corrections(original, standardized)
  {
    corrections := map[];
    var i := 0;
    while i < |Fields|
      invariant 0 <= i <= |Fields|
      invariant corrections == CorrectionsOver(original, standardized, Fields[..i])
    {
      var field := Fields[i];
      var originalKey := MapFieldName(field);
      assert Fields[..i + 1] == Fields[..i] + [field];
      if IsSet(original, originalKey) && IsSet(standardized, field) {
        if original[originalKey] != standardized[field] {
          corrections := corrections[field := Correction(original[originalKey], standardized[field])];
        }
      }
      i := i + 1;
    }
    assert Fields[..|Fields|] == Fields;
  }

  /** `validate`. */
  function Validate(address: Dict, carrier: Carrier): (v: Validation)
    ensures v.original == address
  {
    match carrier.validateAddress(address)
    case Err(e) => Invalid(address, e.message)
    case Ok(result) =>
      if !IsSet(result, "address") then Invalid(address, InvalidResponse)
      else Valid(address, result["address"], Corrections(address, AsDict(result["address"])))
  }

  /**
   * A failed call is reported with its message, a reply without an address
   * as an invalid response, and any other reply as valid with the carrier's
   * address and the corrections against it.
   */
  lemma ValidateCases(address: Dict, carrier: Carrier)
    ensures carrier.validateAddress(address).Err? ==>
              Validate(address, carrier) == Invalid(address, carrier.validateAddress(address).error.message)
    ensures carrier.validateAddress(address).Ok? && !IsSet(carrier.validateAddress(address).value, "address") ==>
              Validate(address, carrier) == Invalid(address, InvalidResponse)
    ensures Validate(address, carrier).Valid? <==>
              carrier.validateAddress(address).Ok? && IsSet(carrier.validateAddress(address).value, "address")
    ensures Validate(address, carrier).Valid? ==>
              var standardized := carrier.validateAddress(address).value["address"];
              Validate(address, carrier).standardized == standardized
              && Validate(address, carrier).corrections == Corrections(address, AsDict(standardized))
  {
  }
}
