/**
 * `UspsClient`: base-URL selection, the request payload of every carrier
 * operation, the OAuth2 client-credentials token cache and the mapping of a
 * carrier reply to a result or an exception.
 *
 * The network is not modelled: the reply of the token endpoint and the reply
 * of the product endpoint are parameters (`TokenReply`, `HttpOutcome`), and
 * the clock is the parameter `now` (seconds).
 */
module UspsClient {
  import opened Php

  const SandboxBaseUrl := "https://apis-tem.usps.com"
  const ProductionBaseUrl := "https://apis.usps.com"
  const TokenPath := "/oauth2/v3/token"
  const TokenScope := "addresses prices labels tracking service-standards"
  /** A cached token is not reused during its last five minutes. */
  const SafetyMargin := 300
  /** Lifetime assumed when the token reply carries no `expires_in`. */
  const DefaultExpiresIn := 3600

  const RatesEndpoint := "/prices/v3/base-rates/search"
  const LabelEndpoint := "/labels/v3/label"
  const AddressEndpoint := "/addresses/v3/address"
  const TrackingEndpoint := "/tracking/v3/tracking/"
  const ServiceStandardsEndpoint := "/service-standards/v3/estimates"
  const CityStateEndpoint := "/addresses/v3/city-state"

  /** The host chosen by `$config['sandbox'] ?? true`. */
  function BaseUrlFor(sandbox: Option<bool>): (url: string)
    ensures url == ProductionBaseUrl <==> sandbox == Some(false)
    ensures url == SandboxBaseUrl <==> sandbox != Some(false)
  {
    if sandbox.GetOr(true) then SandboxBaseUrl else ProductionBaseUrl
  }

  // ---------------------------------------------------------------------------
  // Request payloads
  // ---------------------------------------------------------------------------

  /** One call to a product endpoint: HTTP method, path and JSON payload. */
  datatype ApiCall = ApiCall(verb: string, endpoint: string, payload: Dict)

  /** A caller address (`street`, `street2`, `city`, `state`, `zip`, `zip4`) in the carrier's field names. */
  function CarrierAddress(a: Dict): (c: Dict)
    ensures "streetAddress" in c && "city" in c && "state" in c && "ZIPCode" in c
    ensures "streetAddressAbbreviation" in c && "ZIPPlus4" in c
    ensures c["streetAddress"] == At(a, "street") && c["city"] == At(a, "city")
    ensures c["state"] == At(a, "state") && c["ZIPCode"] == At(a, "zip")
    ensures c["streetAddressAbbreviation"] == (if IsSet(a, "street2") then a["street2"] else JStr(""))
    ensures c["ZIPPlus4"] == (if IsSet(a, "zip4") then a["zip4"] else JStr(""))
  {
    map[
      "streetAddress" := At(a, "street"),
      "streetAddressAbbreviation" := Or(a, "street2", JStr("")),
      "city" := At(a, "city"),
      "state" := At(a, "state"),
      "ZIPCode" := At(a, "zip"),
      "ZIPPlus4" := Or(a, "zip4", JStr(""))
    ]
  }

  /** `getRates`: the price search, with the package defaults filled in. */
  function RatesCall(params: Dict): (c: ApiCall)
    ensures c.verb == "POST" && c.endpoint == RatesEndpoint
  {
    ApiCall("POST", RatesEndpoint, map[
      "originZIPCode" := At(params, "origin_zip"),
      "destinationZIPCode" := At(params, "destination_zip"),
      "weight" := At(params, "weight"),
      "length" := Or(params, "length", JNum(0)),
      "width" := Or(params, "width", JNum(0)),
      "height" := Or(params, "height", JNum(0)),
      "mailClass" := Or(params, "mail_class", JStr("USPS_GROUND_ADVANTAGE")),
      "processingCategory" := Or(params, "processing_category", JStr("MACHINABLE")),
      "rateIndicator" := Or(params, "rate_indicator", JStr("SP")),
      "destinationEntryFacilityType" := JStr("NONE"),
      "priceType" := JStr("RETAIL")
    ])
  }

  /** The two ZIP codes and the weight are passed through as given (null when absent). */
  lemma RatesCallShipment(params: Dict)
    ensures var p := RatesCall(params).payload;
            && "originZIPCode" in p && p["originZIPCode"] == At(params, "origin_zip")
            && "destinationZIPCode" in p && p["destinationZIPCode"] == At(params, "destination_zip")
            && "weight" in p && p["weight"] == At(params, "weight")
  {
  }

  /** Each missing dimension is sent as 0; a given one is sent as it is. */
  lemma RatesCallDimensions(params: Dict, k: string)
    requires k == "length" || k == "width" || k == "height"
    ensures var p := RatesCall(params).payload;
            && k in p
            && (IsSet(params, k) ==> p[k] == params[k])
            && (!IsSet(params, k) ==> p[k] == JNum(0))
  {
  }

  /** Mail class, processing category and rate indicator default to Ground Advantage, MACHINABLE and SP. */
  lemma RatesCallClassDefaults(params: Dict)
    ensures var p := RatesCall(params).payload;
            && "mailClass" in p && "processingCategory" in p && "rateIndicator" in p
            && (IsSet(params, "mail_class") ==> p["mailClass"] == params["mail_class"])
            && (!IsSet(params, "mail_class") ==> p["mailClass"] == JStr("USPS_GROUND_ADVANTAGE"))
            && (!IsSet(params, "processing_category") ==> p["processingCategory"] == JStr("MACHINABLE"))
            && (!IsSet(params, "rate_indicator") ==> p["rateIndicator"] == JStr("SP"))
  {
  }

  /** The entry facility type and the price type are fixed whatever the caller gives. */
  lemma RatesCallFixedFields(params: Dict)
    ensures var p := RatesCall(params).payload;
            && "destinationEntryFacilityType" in p && p["destinationEntryFacilityType"] == JStr("NONE")
            && "priceType" in p && p["priceType"] == JStr("RETAIL")
  {
  }

  /** The package part of the client's label payload. */
  function LabelPackage(params: Dict): Dict {
    var dims := AsDict(At(params, "dimensions"));
    map[
      "weight" := At(params, "weight"),
      "length" := Or(dims, "length", JNum(0)),
      "height" := Or(dims, "height", JNum(0)),
      "width" := Or(dims, "width", JNum(0)),
      "girth" := Or(dims, "girth", JNum(0)),
      "mailClass" := Or(params, "service_type", JStr("USPS_GROUND_ADVANTAGE")),
      "processingCategory" := JStr("MACHINABLE"),
      "rateIndicator" := JStr("SP"),
      "destinationEntryFacilityType" := JStr("NONE")
    ]
  }

  /** The customer part of the client's label payload. */
  function LabelCustomer(params: Dict): Dict {
    map[
      "customerName" := Or(params, "customer_name", JStr("")),
      "customerEmail" := Or(params, "customer_email", JStr("")),
      "customerPhoneNumber" := Or(params, "customer_phone", JStr(""))
    ]
  }

  /** The image part of the client's label payload. */
  function LabelImage(params: Dict): Dict {
    map[
      "imageType" := Or(params, "label_format", JStr("PDF")),
      "labelType" := Or(params, "label_type", JStr("SHIPPING_LABEL_ONLY")),
      "receiptOption" := JStr("SEPARATE_PAGE")
    ]
  }

  /**
   * `createLabel` of the client: it reads the caller's `to_address`,
   * `from_address`, `weight`, `dimensions`, `service_type` and label options
   * and fixes processing category, rate indicator and receipt option.
   */
  function LabelCall(params: Dict): (c: ApiCall)
    ensures c.verb == "POST" && c.endpoint == LabelEndpoint
  {
    ApiCall("POST", LabelEndpoint, map[
      "labelAddress" := JObj(CarrierAddress(AsDict(At(params, "to_address")))),
      "senderAddress" := JObj(CarrierAddress(AsDict(At(params, "from_address")))),
      "packageDescription" := JObj(LabelPackage(params)),
      "customerDetails" := JObj(LabelCustomer(params)),
      "imageInfo" := JObj(LabelImage(params))
    ])
  }

  /** Both addresses are read from `to_address` and `from_address` of the caller's data. */
  lemma LabelCallAddresses(params: Dict)
    ensures var p := LabelCall(params).payload;
            && "labelAddress" in p && p["labelAddress"] == JObj(CarrierAddress(AsDict(At(params, "to_address"))))
            && "senderAddress" in p && p["senderAddress"] == JObj(CarrierAddress(AsDict(At(params, "from_address"))))
  {
  }

  /**
   * The mail class sent is `service_type`, or Ground Advantage without one;
   * processing category and rate indicator are fixed.
   */
  lemma LabelCallPackage(params: Dict)
    ensures var p := LabelCall(params).payload;
            && "packageDescription" in p && p["packageDescription"].JObj?
            && var d := p["packageDescription"].fields;
            && "mailClass" in d && "processingCategory" in d && "rateIndicator" in d
            && d["mailClass"] == Or(params, "service_type", JStr("USPS_GROUND_ADVANTAGE"))
            && d["processingCategory"] == JStr("MACHINABLE") && d["rateIndicator"] == JStr("SP")
  {
  }

  /** The receipt option is always a separate page. */
  lemma LabelCallImage(params: Dict)
    ensures var p := LabelCall(params).payload;
            && "imageInfo" in p && p["imageInfo"].JObj? && "receiptOption" in p["imageInfo"].fields
            && p["imageInfo"].fields["receiptOption"] == JStr("SEPARATE_PAGE")
  {
  }

  /**
   * The client's public methods as the services see them, once the token and
   * the transport are abstracted away: each gives the decoded reply to its
   * argument, or the exception it throws. `getRates` posts `RatesCall` of
   * its argument, `createLabel` posts `LabelCall`, `validateAddress` posts
   * `AddressCall` and `trackPackage` sends `TrackingCall`; `Interpret` and
   * `Client.MakeRequest` give the path from the call to the reply.
   */
  datatype Carrier = Carrier(
    getRates: Dict -> Result<Dict>,
    createLabel: Dict -> Result<Dict>,
    validateAddress: Dict -> Result<Dict>,
    trackPackage: string -> Result<Dict>)

  /** `validateAddress`: the caller's address in carrier field names. */
  function AddressCall(address: Dict): (c: ApiCall)
    ensures c.verb == "POST" && c.endpoint == AddressEndpoint
    ensures c.payload == CarrierAddress(address)
  {
    ApiCall("POST", AddressEndpoint, CarrierAddress(address))
  }

  /** `trackPackage`: a GET with the tracking number in the path and no body. */
  function TrackingCall(trackingNumber: string): (c: ApiCall)
    ensures c.verb == "GET" && c.payload == map[]
    ensures TrackingEndpoint <= c.endpoint && c.endpoint[|TrackingEndpoint|..] == trackingNumber
  {
    ApiCall("GET", TrackingEndpoint + trackingNumber, map[])
  }

  /** `getServiceAvailability`; `today` stands for `date('Y-m-d')`. */
  function ServiceAvailabilityCall(params: Dict, today: string): (c: ApiCall)
    ensures c.verb == "POST" && c.endpoint == ServiceStandardsEndpoint
    ensures c.payload.Keys == {"originZIPCode", "destinationZIPCode", "mailClass", "acceptanceDate"}
    ensures !IsSet(params, "service_type") ==> c.payload["mailClass"] == JStr("USPS_GROUND_ADVANTAGE")
    ensures !IsSet(params, "ship_date") ==> c.payload["acceptanceDate"] == JStr(today)
    ensures IsSet(params, "ship_date") ==> c.payload["acceptanceDate"] == params["ship_date"]
  {
    ApiCall("POST", ServiceStandardsEndpoint, map[
      "originZIPCode" := At(params, "origin_zip"),
      "destinationZIPCode" := At(params, "destination_zip"),
      "mailClass" := Or(params, "service_type", JStr("USPS_GROUND_ADVANTAGE")),
      "acceptanceDate" := Or(params, "ship_date", JStr(today))
    ])
  }

  /** `getZipInfo`: the city and state of one ZIP code. */
  function ZipInfoCall(zipCode: string): (c: ApiCall)
    ensures c.verb == "POST" && c.endpoint == CityStateEndpoint
    ensures c.payload == map["ZIPCode" := JStr(zipCode)]
  {
    ApiCall("POST", CityStateEndpoint, map["ZIPCode" := JStr(zipCode)])
  }

  // ---------------------------------------------------------------------------
  // The request on the wire and the interpretation of the reply
  // ---------------------------------------------------------------------------

  /** What `makeRequest` hands to curl: method, URL, header lines and JSON body. */
  datatype WireRequest = WireRequest(verb: string, url: string, headers: seq<string>, body: Option<Dict>)

  predicate SendsBody(verb: string) {
    verb == "POST" || verb == "PUT" || verb == "PATCH"
  }

  function Wire(baseUrl: string, call: ApiCall, token: string): (w: WireRequest)
    ensures w.verb == call.verb && w.url == baseUrl + call.endpoint
    ensures w.body.Some? <==> call.payload != map[] && SendsBody(call.verb)
    ensures w.body.Some? ==> w.body.value == call.payload
    ensures w.headers == ["Authorization: Bearer " + token, "Content-Type: application/json", "Accept: application/json"]
  {
    WireRequest(
      call.verb,
      baseUrl + call.endpoint,
      ["Authorization: Bearer " + token, "Content-Type: application/json", "Accept: application/json"],
      if call.payload != map[] && SendsBody(call.verb) then Some(call.payload) else None)
  }

  /**
   * What curl reports: a transport error, or an HTTP status with the decoded
   * body (`None` when the body decodes to null).
   */
  datatype HttpOutcome = TransportError(error: string) | HttpResponse(code: int, body: Option<Dict>)

  /** `$decoded['error']['message'] ?? 'Unknown API error'`. */
  function CarrierErrorMessage(body: Option<Dict>): string {
    var m := if body.Some? then Field(At(body.value, "error"), "message") else JNull;
    if m == JNull then "Unknown API error" else ToPhpString(m)
  }

  /** The reply of `makeRequest` once the request has been sent. */
  function Interpret(outcome: HttpOutcome): (r: Result<Dict>)
    ensures outcome.TransportError? ==>
              r == Err(ApiError("cURL Error: " + outcome.error, 0))
    ensures outcome.HttpResponse? && outcome.code >= 400 ==>
              r == Err(ApiError("USPS API Error (HTTP " + IntToString(outcome.code) + "): "
                                + CarrierErrorMessage(outcome.body), outcome.code))
    ensures outcome.HttpResponse? && outcome.code < 400 ==>
              r == Ok(if outcome.body.Some? then outcome.body.value else map[])
  {
    match outcome
    case TransportError(e) => Err(ApiError("cURL Error: " + e, 0))
    case HttpResponse(code, body) =>
      if code >= 400 then
        Err(ApiError("USPS API Error (HTTP " + IntToString(code) + "): " + CarrierErrorMessage(body), code))
      else Ok(body.GetOr(map[]))
  }

  /** An error reply without `error.message` reports "Unknown API error". */
  lemma ErrorWithoutMessage(code: int, body: Option<Dict>)
    requires code >= 400
    requires body.None? || Field(At(body.value, "error"), "message") == JNull
    ensures Interpret(HttpResponse(code, body)).error.message ==
            "USPS API Error (HTTP " + IntToString(code) + "): Unknown API error"
  {
  }

  // ---------------------------------------------------------------------------
  // The OAuth2 token
  // ---------------------------------------------------------------------------

  /** The client-credentials grant posted to the token endpoint. */
  datatype TokenRequest = TokenRequest(url: string, form: map<string, string>)

  function TokenGrant(baseUrl: string, clientId: string, clientSecret: string): (t: TokenRequest)
    ensures t.url == baseUrl + TokenPath
    ensures t.form.Keys == {"grant_type", "client_id", "client_secret", "scope"}
    ensures t.form["grant_type"] == "client_credentials" && t.form["scope"] == TokenScope
    ensures t.form["client_id"] == clientId && t.form["client_secret"] == clientSecret
  {
    TokenRequest(baseUrl + TokenPath, map[
      "grant_type" := "client_credentials",
      "client_id" := clientId,
      "client_secret" := clientSecret,
      "scope" := TokenScope
    ])
  }

  /**
   * What the token endpoint answers: a transport error, or a status, the raw
   * body and its decoded `access_token` and `expires_in` (`None` when absent
   * or null).
   */
  datatype TokenReply =
    | TokenTransportError(error: string)
    | TokenResponse(code: int, body: string, accessToken: Option<string>, expiresIn: Option<int>)

  predicate RenewalSucceeds(grant: TokenReply) {
    grant.TokenResponse? && grant.code == 200 && grant.accessToken.Some?
  }

  /**
   * The cached token is reused only when both fields are truthy (a token of
   * "" or "0", or an expiry of 0, is not) and `now` is before the margin.
   */
  predicate TokenUsable(token: Option<string>, expiresAt: Option<int>, now: int) {
    && token.Some? && Truthy(JStr(token.value))
    && expiresAt.Some? && expiresAt.value != 0
    && now < expiresAt.value - SafetyMargin
  }

  /** One `getAccessToken` call: its result, the new cache and whether the endpoint was asked. */
  datatype TokenStep = TokenStep(result: Result<string>, token: Option<string>, expiresAt: Option<int>, requested: bool)

  function AuthFailure(grant: TokenReply): Error {
    match grant
    case TokenTransportError(e) => AuthenticationError("cURL Error during authentication: " + e)
    case TokenResponse(code, body, tok, _) =>
      if code != 200 then
        AuthenticationError("Authentication failed with HTTP code: " + IntToString(code) + ". Response: " + body)
      else AuthenticationError("Failed to obtain access token. Response: " + body)
  }

  function AccessTokenStep(token: Option<string>, expiresAt: Option<int>, now: int, grant: TokenReply): (s: TokenStep)
    // the endpoint is asked exactly when the cached token is not usable
    ensures s.requested <==> !TokenUsable(token, expiresAt, now)
    // a reused token is returned as it is, and only outside the margin
    ensures !s.requested ==>
              s.result == Ok(token.value) && s.token == token && s.expiresAt == expiresAt
              && now < expiresAt.value - SafetyMargin
    // a successful renewal caches the new token until now + expires_in (default 3600)
    ensures s.requested && RenewalSucceeds(grant) ==>
              s.result == Ok(grant.accessToken.value) && s.token == grant.accessToken
              && s.expiresAt == Some(now + grant.expiresIn.GetOr(DefaultExpiresIn))
    // a failed renewal is an authentication error and leaves the cache alone
    ensures s.requested && !RenewalSucceeds(grant) ==>
              s.result.Err? && s.result.error.AuthenticationError?
              && s.token == token && s.expiresAt == expiresAt
  {
    if TokenUsable(token, expiresAt, now) then
      TokenStep(Ok(token.value), token, expiresAt, false)
    else if RenewalSucceeds(grant) then
      var exp := now + grant.expiresIn.GetOr(DefaultExpiresIn);
      TokenStep(Ok(grant.accessToken.value), grant.accessToken, Some(exp), true)
    else
      TokenStep(Err(AuthFailure(grant)), token, expiresAt, true)
  }

  /**
   * After a renewal that yields a truthy token living longer than the margin,
   * every later call before `now + expires_in - 300` reuses it without asking
   * the endpoint again.
   */
  lemma RenewedTokenIsReused(token: Option<string>, expiresAt: Option<int>, now: int, grant: TokenReply,
                             later: int, nextGrant: TokenReply)
    requires now >= 0 && !TokenUsable(token, expiresAt, now) && RenewalSucceeds(grant)
    requires Truthy(JStr(grant.accessToken.value))
    requires now <= later < now + grant.expiresIn.GetOr(DefaultExpiresIn) - SafetyMargin
    ensures var first := AccessTokenStep(token, expiresAt, now, grant);
            var second := AccessTokenStep(first.token, first.expiresAt, later, nextGrant);
            !second.requested && second.result == first.result
  {
    var first := AccessTokenStep(token, expiresAt, now, grant);
    assert first.expiresAt.value > later + SafetyMargin;
  }

  /**
   * A freshly obtained token is returned even when its lifetime is shorter
   * than the margin; only reused tokens are kept out of the margin.
   */
  lemma ShortLivedTokenIsReturned(now: int)
    ensures var grant := TokenResponse(200, "", Some("t"), Some(60));
            var s := AccessTokenStep(None, None, now, grant);
            s.result == Ok("t") && now >= s.expiresAt.value - SafetyMargin
  {
  }

  class Client {
    const clientId: string
    const clientSecret: string
    const sandbox: bool
    const baseUrl: string
    var accessToken: Option<string>
    var tokenExpiresAt: Option<int>

    constructor (clientId: string, clientSecret: string, sandbox: Option<bool>)
      ensures this.clientId == clientId && this.clientSecret == clientSecret
      ensures this.sandbox == sandbox.GetOr(true) && baseUrl == BaseUrlFor(sandbox)
      ensures accessToken == None && tokenExpiresAt == None
    {
      this.clientId := clientId;
      this.clientSecret := clientSecret;
      this.sandbox := sandbox.GetOr(true);
      this.baseUrl := if sandbox.GetOr(true) then SandboxBaseUrl else ProductionBaseUrl;
      accessToken := None;
      tokenExpiresAt := None;
    }

    /** `getAccessToken`; `grant` is what the token endpoint would answer if asked. */
    method GetAccessToken(now: int, grant: TokenReply) returns (r: Result<string>, request: Option<TokenRequest>)
      modifies this`accessToken, this`tokenExpiresAt
      ensures var s := AccessTokenStep(old(accessToken), old(tokenExpiresAt), now, grant);
              r == s.result && accessToken == s.token && tokenExpiresAt == s.expiresAt
              && (request.Some? <==> s.requested)
              && (request.Some? ==> request.value == TokenGrant(baseUrl, clientId, clientSecret))
    {
      if accessToken.Some? && Truthy(JStr(accessToken.value)) && tokenExpiresAt.Some?
         && tokenExpiresAt.value != 0 && now < tokenExpiresAt.value - SafetyMargin {
        return Ok(accessToken.value), None;
      }
      request := Some(TokenGrant(baseUrl, clientId, clientSecret));
      match grant {
        case TokenTransportError(_) =>
          r := Err(AuthFailure(grant));
        case TokenResponse(code, _, tok, expiresIn) =>
          if code != 200 || tok.None? {
            r := Err(AuthFailure(grant));
          } else {
            accessToken := tok;
            tokenExpiresAt := Some(now + expiresIn.GetOr(DefaultExpiresIn));
            r := Ok(tok.value);
          }
      }
    }

    /**
     * `makeRequest`: obtain a token (an authentication failure propagates and
     * nothing is sent), send the request, interpret the reply.
     */
    method MakeRequest(call: ApiCall, now: int, grant: TokenReply, outcome: HttpOutcome)
      returns (r: Result<Dict>, sent: Option<WireRequest>)
      modifies this`accessToken, this`tokenExpiresAt
      ensures var s := AccessTokenStep(old(accessToken), old(tokenExpiresAt), now, grant);
              accessToken == s.token && tokenExpiresAt == s.expiresAt
              && (s.result.Err? ==> r == Err(s.result.error) && sent.None?)
              && (s.result.Ok? ==> sent == Some(Wire(baseUrl, call, s.result.value)) && r == Interpret(outcome))
    {
      var token, _ := GetAccessToken(now, grant);
      if token.Err? {
        return Err(token.error), None;
      }
      sent := Some(Wire(baseUrl, call, token.value));
      r := Interpret(outcome);
    }
  }
}
