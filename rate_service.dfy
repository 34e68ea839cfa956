/**
 * `RateService`: rate lookup through the rate cache, and rate shopping,
 * which asks the carrier once per configured service, keeps the services
 * that answered with a price and orders them by price or by delivery time.
 *
 * The client is the parameter `carrier` (the reply to each client call), the
 * cache key digest (`md5(serialize($params))`) is the parameter `digest`
 * and the clock is the parameter `now`.
 */
module RateService {
  import opened Php
  import opened Config
  import opened UspsClient
  import opened StableSort
  import opened RateCache

  // ---------------------------------------------------------------------------
  // Estimated delivery days
  // ---------------------------------------------------------------------------

  /** `explode('-', $s)[0]`: the text before the first '-', or all of it. */
  function BeforeDash(s: string): (p: string)
    ensures p <= s
    ensures '-' !in p
    ensures |p| < |s| ==> s[|p|] == '-'
  {
    if s == [] || s[0] == '-' then [] else [s[0]] + BeforeDash(s[1..])
  }

  /** The configured `delivery_days` of a service, "5" when there is none. */
  function DeliveryDays(services: map<string, ServiceInfo>, serviceType: string): string {
    if serviceType in services && services[serviceType].deliveryDays.Some?
    then services[serviceType].deliveryDays.value
    else "5"
  }

  /** `getEstimatedDays`: the `(int)` of the lower bound of the days range. */
  function EstimatedDays(services: map<string, ServiceInfo>, serviceType: string): int {
    IntCast(BeforeDash(DeliveryDays(services, serviceType)))
  }

  lemma {:induction false} BeforeDashOfDigits(d: string, rest: string)
    requires forall i :: 0 <= i < |d| ==> IsDigit(d[i])
    ensures BeforeDash(d + "-" + rest) == d
  {
    if d != [] {
      assert (d + "-" + rest)[1..] == d[1..] + "-" + rest;
      BeforeDashOfDigits(d[1..], rest);
    } else {
      assert (d + "-" + rest)[0] == '-';
    }
  }

  /** A range "low-high" gives `low` days. */
  lemma EstimatedDaysOfRange(services: map<string, ServiceInfo>, serviceType: string, low: nat, rest: string)
    requires serviceType in services
    requires services[serviceType].deliveryDays == Some(NatToString(low) + "-" + rest)
    ensures EstimatedDays(services, serviceType) == low
  {
    BeforeDashOfDigits(NatToString(low), rest);
    IntCastOfNatToString(low, "");
    assert NatToString(low) + "" == NatToString(low);
  }

  /** A service without configured days counts as 5 days. */
  lemma EstimatedDaysUnconfigured(services: map<string, ServiceInfo>, serviceType: string)
    requires serviceType !in services || services[serviceType].deliveryDays.None?
    ensures EstimatedDays(services, serviceType) == 5
  {
    assert BeforeDash("5") == "5";
    IntCastOfNatToString(5, "");
    assert NatToString(5) + "" == "5";
  }

  /**
   * An example with the shipped services table (the general statements are
   * `EstimatedDaysOfRange` and `EstimatedDaysUnconfigured`): Ground
   * Advantage and Parcel Select take 2 days, the others 1.
   */
  lemma EstimatedDaysOfServiceTable(code: string)
    requires code in ServiceTable
    ensures EstimatedDays(ServiceTable, code) == if code in {"USPS_GROUND_ADVANTAGE", "PARCEL_SELECT"} then 2 else 1
  {
    var days := ServiceTable[code].deliveryDays.value;
    var low: nat := if code in {"USPS_GROUND_ADVANTAGE", "PARCEL_SELECT"} then 2 else 1;
    assert days == NatToString(low) + "-" + days[2..];
    EstimatedDaysOfRange(ServiceTable, code, low, days[2..]);
  }

  // ---------------------------------------------------------------------------
  // Rate shopping
  // ---------------------------------------------------------------------------

  /** `array_merge($params, ['mail_class' => $service])`. */
  function ServiceParams(params: Dict, service: string): Dict {
    params["mail_class" := JStr(service)]
  }

  /** A kept quote: the carrier's reply plus the service code and its display name. */
  function Quote(reply: Dict, service: string, services: map<string, ServiceInfo>): (q: Dict)
    ensures "service_type" in q && q["service_type"] == JStr(service)
    ensures "service_name" in q && q["service_name"] == JStr(ServiceName(services, service))
    ensures forall k :: k in reply && k != "service_type" && k != "service_name" ==> k in q && q[k] == reply[k]
  {
    reply + map["service_type" := JStr(service), "service_name" := JStr(ServiceName(services, service))]
  }

  /** The carrier's reply for one shopped service. */
  function Reply(params: Dict, service: string, carrier: Carrier): Result<Dict> {
    carrier.getRates(ServiceParams(params, service))
  }

  /** What one service contributes: its quote if it answered with a price, nothing otherwise. */
  function Kept(reply: Result<Dict>, service: string, services: map<string, ServiceInfo>): seq<Dict> {
    if reply.Ok? && IsSet(reply.value, "totalBasePrice") then [Quote(reply.value, service, services)] else []
  }

  /** The quotes collected by the loop over `shop`, in the order of `shop`. */
  function Collected(params: Dict, shop: seq<string>, carrier: Carrier, services: map<string, ServiceInfo>): seq<Dict>
    decreases |shop|
  {
    if shop == [] then []
    else
      var last := shop[|shop| - 1];
      Collected(params, shop[..|shop| - 1], carrier, services) + Kept(Reply(params, last, carrier), last, services)
  }

  /** The calls the loop over `shop` makes: one per service, in order. */
  function ShoppingCalls(params: Dict, shop: seq<string>): (calls: seq<Dict>)
    decreases |shop|
    ensures |calls| == |shop|
    ensures forall i :: 0 <= i < |shop| ==> calls[i] == ServiceParams(params, shop[i])
  {
    if shop == [] then []
    else ShoppingCalls(params, shop[..|shop| - 1]) + [ServiceParams(params, shop[|shop| - 1])]
  }

  /** `totalBasePrice` as the price comparator sees it; a non-number counts as 0. */
  function PriceOf(q: Dict): int {
    if At(q, "totalBasePrice").JNum? then At(q, "totalBasePrice").n else 0
  }

  function DaysOf(services: map<string, ServiceInfo>, q: Dict): int {
    EstimatedDays(services, ToPhpString(At(q, "service_type")))
  }

  /** The delivery-time comparator's key. */
  function DaysKey(services: map<string, ServiceInfo>): Dict -> int {
    q => DaysOf(services, q)
  }

  /** The `usort` calls: by price, by delivery time, or not at all. */
  function SortQuotes(quotes: seq<Dict>, sortBy: string, services: map<string, ServiceInfo>): seq<Dict> {
    if sortBy == "price" then SortBy(quotes, PriceOf)
    else if sortBy == "delivery_time" then SortBy(quotes, DaysKey(services))
    else quotes
  }

  function Objs(s: seq<Dict>): (vs: seq<Value>)
    ensures |vs| == |s| && forall i :: 0 <= i < |s| ==> vs[i] == JObj(s[i])
  {
    seq(|s|, i requires 0 <= i < |s| => JObj(s[i]))
  }

  /** `['rates' => $rates]`. */
  function ShoppingResult(params: Dict, cfg: UspsConfig, carrier: Carrier): Dict {
    var quotes := Collected(params, cfg.rateShoppingServices, carrier, cfg.services);
    map["rates" := JList(Objs(SortQuotes(quotes, cfg.sortBy, cfg.services)))]
  }

  /** One more loop iteration adds the next service's contribution and request. */
  lemma CollectedStep(params: Dict, shop: seq<string>, i: nat, carrier: Carrier, services: map<string, ServiceInfo>)
    requires i < |shop|
    ensures Collected(params, shop[..i + 1], carrier, services)
            == Collected(params, shop[..i], carrier, services) + Kept(Reply(params, shop[i], carrier), shop[i], services)
    ensures ShoppingCalls(params, shop[..i + 1]) == ShoppingCalls(params, shop[..i]) + [ServiceParams(params, shop[i])]
  {
    assert shop[..i + 1][..i] == shop[..i];
  }

  /** Rate shopping never has more quotes than services. */
  lemma {:induction false} CollectedBound(params: Dict, shop: seq<string>, carrier: Carrier, services: map<string, ServiceInfo>)
    ensures |Collected(params, shop, carrier, services)| <= |shop|
  {
    if shop != [] {
      CollectedBound(params, shop[..|shop| - 1], carrier, services);
    }
  }

  /**
   * Every kept quote has a price and names one of the shopped services; its
   * display name is the configured one or the code itself.
   */
  lemma {:induction false} CollectedQuotes(params: Dict, shop: seq<string>, carrier: Carrier, services: map<string, ServiceInfo>)
    ensures forall q: Dict :: q in Collected(params, shop, carrier, services) ==>
              IsSet(q, "totalBasePrice")
              && "service_type" in q && q["service_type"].JStr? && q["service_type"].s in shop
              && "service_name" in q && q["service_name"] == JStr(ServiceName(services, q["service_type"].s))
  {
    if shop != [] {
      var init := shop[..|shop| - 1];
      CollectedQuotes(params, init, carrier, services);
      forall q: Dict | q in Collected(params, shop, carrier, services)
        ensures IsSet(q, "totalBasePrice")
        ensures "service_type" in q && q["service_type"].JStr? && q["service_type"].s in shop
        ensures "service_name" in q && q["service_name"] == JStr(ServiceName(services, q["service_type"].s))
      {
        if q !in Collected(params, init, carrier, services) {
          var last := shop[|shop| - 1];
          assert q == Quote(Reply(params, last, carrier).value, last, services);
        } else {
          assert q["service_type"].s in init;
        }
      }
    }
  }

  /** When no service answers with a price the result is empty, not an error. */
  lemma {:induction false} CollectedNone(params: Dict, shop: seq<string>, carrier: Carrier, services: map<string, ServiceInfo>)
    requires forall i :: 0 <= i < |shop| ==>
               Reply(params, shop[i], carrier).Err? || !IsSet(Reply(params, shop[i], carrier).value, "totalBasePrice")
    ensures Collected(params, shop, carrier, services) == []
  {
    if shop != [] {
      CollectedNone(params, shop[..|shop| - 1], carrier, services);
    }
  }

  /** Each shopping request posts exactly its service's mail class, other parameters unchanged. */
  lemma ShoppingCallsMailClass(params: Dict, shop: seq<string>, i: nat)
    requires i < |shop|
    ensures var c := RatesCall(ShoppingCalls(params, shop)[i]);
            "mailClass" in c.payload && c.payload["mailClass"] == JStr(shop[i])
    ensures forall k :: k in params && k != "mail_class" ==> ShoppingCalls(params, shop)[i][k] == params[k]
  {
    RatesCallClassDefaults(ServiceParams(params, shop[i]));
  }

  /**
   * Sorting by price or by delivery time orders by that key, permutes the
   * quotes and keeps configured order among ties; any other setting keeps
   * configured order.
   */
  lemma SortQuotesCorrect(quotes: seq<Dict>, sortBy: string, services: map<string, ServiceInfo>)
    ensures multiset(SortQuotes(quotes, sortBy, services)) == multiset(quotes)
    ensures sortBy == "price" ==>
              SortedBy(SortQuotes(quotes, sortBy, services), PriceOf)
              && forall k :: WithKey(SortQuotes(quotes, sortBy, services), PriceOf, k) == WithKey(quotes, PriceOf, k)
    ensures sortBy == "delivery_time" ==>
              SortedBy(SortQuotes(quotes, sortBy, services), DaysKey(services))
              && forall k :: WithKey(SortQuotes(quotes, sortBy, services), DaysKey(services), k)
                            == WithKey(quotes, DaysKey(services), k)
    ensures sortBy != "price" && sortBy != "delivery_time" ==> SortQuotes(quotes, sortBy, services) == quotes
  {
    if sortBy == "price" {
      SortByCorrect(quotes, PriceOf);
    } else if sortBy == "delivery_time" {
      SortByCorrect(quotes, DaysKey(services));
    }
  }

  // ---------------------------------------------------------------------------
  // The service's methods
  // ---------------------------------------------------------------------------

  /** The foreach of `getRatesShopping`: one request per service, keeping the priced replies. */
  method CollectQuotes(params: Dict, shop: seq<string>, carrier: Carrier, services: map<string, ServiceInfo>)
    returns (quotes: seq<Dict>, calls: seq<Dict>)
    ensures quotes == Collected(params, shop, carrier, services)
    ensures calls == ShoppingCalls(params, shop)
  {
    quotes, calls := [], [];
    var i := 0;
    while i < |shop|
      invariant 0 <= i <= |shop|
      invariant quotes == Collected(params, shop[..i], carrier, services)
      invariant calls == ShoppingCalls(params, shop[..i])
    {
      var call := ServiceParams(params, shop[i]);
      calls := calls + [call];
      var reply := carrier.getRates(call);
      if reply.Ok? && IsSet(reply.value, "totalBasePrice") {
        quotes := quotes + [Quote(reply.value, shop[i], services)];
      }
      CollectedStep(params, shop, i, carrier, services);
      i := i + 1;
    }
    assert shop[..i] == shop;
  }

  /** `getRatesShopping`: collect the quotes, then sort them as configured. */
  method GetRatesShopping(params: Dict, cfg: UspsConfig, carrier: Carrier) returns (r: Dict, calls: seq<Dict>)
    ensures calls == ShoppingCalls(params, cfg.rateShoppingServices)
    ensures r == ShoppingResult(params, cfg, carrier)
  {
    var quotes;
    quotes, calls := CollectQuotes(params, cfg.rateShoppingServices, carrier, cfg.services);
    r := map["rates" := JList(Objs(SortQuotes(quotes, cfg.sortBy, cfg.services)))];
  }

  /** The reply of `fetchRates`. */
  function Fetched(params: Dict, cfg: UspsConfig, carrier: Carrier): Result<Dict> {
    if cfg.rateShoppingEnabled then Ok(ShoppingResult(params, cfg, carrier)) else carrier.getRates(params)
  }

  /** The carrier calls of `fetchRates`. */
  function FetchCalls(params: Dict, cfg: UspsConfig): seq<Dict> {
    if cfg.rateShoppingEnabled then ShoppingCalls(params, cfg.rateShoppingServices) else [params]
  }

  /** Without rate shopping the client's reply, or its exception, is passed on as it is. */
  method FetchRates(params: Dict, cfg: UspsConfig, carrier: Carrier) returns (r: Result<Dict>, calls: seq<Dict>)
    ensures !cfg.rateShoppingEnabled ==> r == carrier.getRates(params) && calls == [params]
    ensures cfg.rateShoppingEnabled ==> r.Ok? && r.value == ShoppingResult(params, cfg, carrier)
    ensures cfg.rateShoppingEnabled ==> calls == ShoppingCalls(params, cfg.rateShoppingServices)
    ensures r == Fetched(params, cfg, carrier) && calls == FetchCalls(params, cfg)
  {
    if cfg.rateShoppingEnabled {
      var shopped;
      shopped, calls := GetRatesShopping(params, cfg, carrier);
      r := Ok(shopped);
    } else {
      calls := [params];
      r := carrier.getRates(params);
    }
  }

  /** `generateCacheKey`: the configured prefix and a digest of the parameters. */
  function CacheKey(cfg: UspsConfig, digest: Dict -> string, params: Dict): string {
    cfg.cachePrefix + digest(params)
  }

  /** The cache is consulted and written only when the caller and the configuration both allow it. */
  predicate Caching(useCache: bool, cfg: UspsConfig) {
    useCache && cfg.cacheEnabled
  }

  /** A cached value is used only when it is a non-empty array. */
  predicate CacheHit(useCache: bool, cfg: UspsConfig, cached: Option<Dict>) {
    Caching(useCache, cfg) && cached.Some? && Truthy(JObj(cached.value))
  }

  /** What `getRates` returns on a cache table `t`. */
  function RatesOutcome(params: Dict, useCache: bool, cfg: UspsConfig, carrier: Carrier, digest: Dict -> string,
                        t: Table, now: int): Result<Dict> {
    var cached := CachedRates(t, CacheKey(cfg, digest, params), now);
    if CacheHit(useCache, cfg, cached) then Ok(cached.value) else Fetched(params, cfg, carrier)
  }

  /** The cache table after `getRates`. */
  function CacheAfter(params: Dict, useCache: bool, cfg: UspsConfig, carrier: Carrier, digest: Dict -> string,
                      t: Table, now: int): Table {
    var key := CacheKey(cfg, digest, params);
    var fetched := Fetched(params, cfg, carrier);
    if CacheHit(useCache, cfg, CachedRates(t, key, now)) || !Caching(useCache, cfg) || fetched.Err? then t
    else Upsert(t, key, params, fetched.value, cfg.cacheDuration, now)
  }

  /**
   * A non-empty cached value is returned as it is and nothing is written.
   * Otherwise the rates are fetched; with caching on, a successful result
   * is written back under the key with the configured lifetime, and a
   * failure or disabled caching leaves the table as it was.
   */
  lemma RatesOutcomeCases(params: Dict, useCache: bool, cfg: UspsConfig, carrier: Carrier, digest: Dict -> string,
                          t: Table, now: int)
    ensures var key := CacheKey(cfg, digest, params);
            var cached := CachedRates(t, key, now);
            var r := RatesOutcome(params, useCache, cfg, carrier, digest, t, now);
            var after := CacheAfter(params, useCache, cfg, carrier, digest, t, now);
            && (CacheHit(useCache, cfg, cached) ==> r == Ok(cached.value) && after == t)
            && (!CacheHit(useCache, cfg, cached) ==> r == Fetched(params, cfg, carrier))
            && (!CacheHit(useCache, cfg, cached) && Caching(useCache, cfg) && r.Ok? ==>
                  after == Upsert(t, key, params, r.value, cfg.cacheDuration, now))
            && (!Caching(useCache, cfg) || r.Err? ==> after == t)
  {
  }

  /**
   * Rates fetched and cached with a positive lifetime are served from the
   * cache by a second call at the same moment, whatever the carrier would
   * answer then.
   */
  lemma RatesServedFromCache(params: Dict, cfg: UspsConfig, carrier: Carrier, later: Carrier,
                             digest: Dict -> string, t: Table, now: int)
    requires Caching(true, cfg) && cfg.cacheDuration > 0
    requires RatesOutcome(params, true, cfg, carrier, digest, t, now).Ok?
    requires RatesOutcome(params, true, cfg, carrier, digest, t, now).value != map[]
    ensures var after := CacheAfter(params, true, cfg, carrier, digest, t, now);
            RatesOutcome(params, true, cfg, later, digest, after, now) == RatesOutcome(params, true, cfg, carrier, digest, t, now)
            && CacheAfter(params, true, cfg, later, digest, after, now) == after
  {
    var key := CacheKey(cfg, digest, params);
    var r := RatesOutcome(params, true, cfg, carrier, digest, t, now);
    var after := CacheAfter(params, true, cfg, carrier, digest, t, now);
    if !CacheHit(true, cfg, CachedRates(t, key, now)) {
      ReadAfterUpsert(t, key, params, r.value, cfg.cacheDuration, now);
    }
    assert CachedRates(after, key, now) == Some(r.value);
    assert Truthy(JObj(r.value));
  }

  /** `getRates`. */
  method GetRates(params: Dict, useCache: bool, cfg: UspsConfig, carrier: Carrier, digest: Dict -> string,
                  cache: RateCacheTable, now: int)
    returns (r: Result<Dict>, calls: seq<Dict>)
    modifies cache
    ensures r == RatesOutcome(params, useCache, cfg, carrier, digest, old(cache.rows), now)
    ensures cache.rows == CacheAfter(params, useCache, cfg, carrier, digest, old(cache.rows), now)
    ensures calls == if CacheHit(useCache, cfg, CachedRates(old(cache.rows), CacheKey(cfg, digest, params), now))
                     then [] else FetchCalls(params, cfg)
  {
    if useCache && cfg.cacheEnabled {
      var cached := cache.GetCachedRates(cfg.cachePrefix + digest(params), now);
      if cached.Some? && cached.value != map[] {
        return Ok(cached.value), [];
      }
    }
    r, calls := FetchRates(params, cfg, carrier);
    if r.Err? {
      return;
    }
    if useCache && cfg.cacheEnabled {
      cache.CacheRates(cfg.cachePrefix + digest(params), params, r.value, Some(cfg.cacheDuration), now);
    }
  }
}
