# USPS shipping for Laravel, modelled in Dafny

This project models the carrier-integration core of the `laravel-usps`
package. That core is made of three parts:

- **The USPS REST client** (`UspsClient`). It selects the base URL, shapes the
  request payload of every operation, caches the OAuth2 token and maps HTTP
  replies to results or exceptions.
- **The services built on the client:**
  - rate lookup through a rate cache, and rate shopping across services;
  - tracking-status normalisation and the write-back of tracking to stored
    shipments;
  - address validation with field-level corrections;
  - label creation;
  - the shipping façade that chains these together and runs batches.
- **The small helpers of the second stack:** the legacy `RateV4` XML builder,
  the HTTP client's base URL and request assembly, the rate-cache table and
  the shipment accessors.

PHP arrays are modelled as `Php.Value` / `Php.Dict` (`map<string, Value>`).

- `isset` and `??` are "the key is present and its value is not null".
- A missing key reads as null.
- Truthiness, `strtolower`, `(int)` of a decimal-digit string and string
  conversion are written out in module `Php`.

Code that changes state becomes imperative Dafny:

- The client's token cache is the `UspsClient.Client` class.
- The `usps_rate_cache` table is `RateCache.RateCacheTable`.
- The `usps_shipments` table is `Shipments.ShipmentStore`.
- The loops of `getRatesShopping`, `getCorrections`, `updateMultipleShipments`
  and `createBatchShipments` are methods with loop invariants, each proved
  against a function that specifies it.

The network, the clock, Carbon and `md5(serialize(...))` are parameters:

- The client, as the services use it, is the record `UspsClient.Carrier`. It
  holds one function per client call, giving the decoded reply or the
  exception.
- The token endpoint's reply is the parameter `TokenReply`. The product
  endpoint's reply is the parameter `HttpOutcome`.
- The clock is `now` (seconds).
- Carbon's ISO conversion is `toIso`.
- The cache-key digest is `digest`.

Two behaviours of the code are easy to miss:

- `UspsClient.ShortLivedTokenIsReturned` shows that a token just obtained is
  returned even when its lifetime is shorter than the 300-second margin. Only
  a *reused* token is kept out of the margin.
- `updateTrackingStatus` stores the carrier's raw event type lower-cased, not
  the normalised status that `TrackingService` uses (see
  `ShippingService.RawTrackingUpdateOutForDelivery`). Only the exact
  "DELIVERED" sets `delivered_at`, so "Delivered" reads as delivered with no
  delivery time (`ShippingService.RawTrackingUpdateMixedCaseDelivered`).

## Model

| member | source | states |
|---|---|---|
| UspsClient.BaseUrlFor | src/UspsClient.php:20-23 | The production host exactly when `sandbox` is false; the sandbox host when it is true or absent |
| UspsClient.Client.constructor | src/UspsClient.php:15-24 | Keeps the credentials, takes `sandbox` as true when absent, picks the base URL accordingly, starts with no cached token |
| UspsClient.CarrierAddress | src/UspsClient.php:107-114 | Carrier address fields from caller fields: street, city, state and zip are passed through (null when absent); street2 and zip4 default to "" |
| UspsClient.RatesCall | src/UspsClient.php:29-48 | `getRates` posts to the base-rates search endpoint |
| UspsClient.RatesCallShipment | src/UspsClient.php:34-36 | Both ZIP codes and the weight are sent as given |
| UspsClient.RatesCallDimensions | src/UspsClient.php:37-39 | Each of length, width and height is sent as given, or 0 when unset |
| UspsClient.RatesCallClassDefaults | src/UspsClient.php:40-42 | mailClass defaults to USPS_GROUND_ADVANTAGE, processingCategory to MACHINABLE and rateIndicator to SP; a given mail class is sent |
| UspsClient.RatesCallFixedFields | src/UspsClient.php:43-44 | destinationEntryFacilityType is always NONE and priceType always RETAIL |
| UspsClient.LabelCall | src/UspsClient.php:53-98 | `createLabel` posts to the label endpoint |
| UspsClient.LabelCallAddresses | src/UspsClient.php:58-73 | labelAddress is built from `to_address` and senderAddress from `from_address`, both in carrier field names |
| UspsClient.LabelCallPackage | src/UspsClient.php:74-84 | mailClass is `service_type`, else Ground Advantage; processing category MACHINABLE and rate indicator SP are fixed |
| UspsClient.LabelCallImage | src/UspsClient.php:90-94 | receiptOption is always SEPARATE_PAGE |
| UspsClient.AddressCall | src/UspsClient.php:103-117 | `validateAddress` posts the caller's address in carrier field names |
| UspsClient.TrackingCall | src/UspsClient.php:122-127 | `trackPackage` is a GET with no body, to the tracking endpoint followed by the tracking number |
| UspsClient.ServiceAvailabilityCall | src/UspsClient.php:132-144 | Exactly four payload keys; the mail class defaults to Ground Advantage; the acceptance date is `ship_date`, else today |
| UspsClient.ZipInfoCall | src/UspsClient.php:149-156 | Posts exactly the ZIP code to the city-state endpoint |
| UspsClient.Wire | src/UspsClient.php:163-186 | URL is base URL + endpoint; bearer, content-type and accept headers; a JSON body exactly when the data is non-empty and the verb is POST, PUT or PATCH |
| UspsClient.Interpret | src/UspsClient.php:193-204 | A transport error is reported first; then HTTP >= 400 is an API error with the code and `error.message`; otherwise the decoded body, or an empty array when it decodes to null |
| UspsClient.ErrorWithoutMessage | src/UspsClient.php:199-201 | An error reply without `error.message` reports "Unknown API error" |
| UspsClient.TokenGrant | src/UspsClient.php:218-225 | The client-credentials grant: token URL, grant type, both credentials and the fixed scope |
| UspsClient.AccessTokenStep | src/UspsClient.php:210-264 | The endpoint is asked exactly when the cached token is not usable. A reused token lies outside the margin. A renewal caches the token until now + expires_in (default 3600). A failed renewal is an authentication error that leaves the cache unchanged |
| UspsClient.RenewedTokenIsReused | src/UspsClient.php:213-215 | After a renewal, every call before now + expires_in - 300 reuses the token without a request |
| UspsClient.ShortLivedTokenIsReturned | src/UspsClient.php:259-263 | A renewed token is returned even when it already lies inside the safety margin |
| UspsClient.Client.GetAccessToken | src/UspsClient.php:210-264 | Result and new token fields follow `AccessTokenStep`; the grant is sent exactly when the cached token is not usable |
| UspsClient.Client.MakeRequest | src/UspsClient.php:161-205 | An authentication failure propagates and nothing is sent; otherwise the wire request is sent with the token and the reply is interpreted |
| RateService.BeforeDash | src/Services/RateService.php:95 | `explode('-')[0]`: a dash-free prefix that stops at the first dash |
| RateService.EstimatedDays | src/Services/RateService.php:92-96 | `getEstimatedDays`; stated by the three `EstimatedDays…` lemmas |
| RateService.EstimatedDaysOfRange | src/Services/RateService.php:92-96 | A configured range "low-rest" gives `low` days |
| RateService.EstimatedDaysUnconfigured | src/Services/RateService.php:94 | A service without configured delivery days counts as 5 |
| RateService.EstimatedDaysOfServiceTable | src/Services/RateService.php:92-96 | An example with the shipped services table: Ground Advantage and Parcel Select give 2 days and the others 1 |
| RateService.Quote | src/Services/RateService.php:64-67 | A kept quote is the reply plus `service_type` and the configured name (or the code); the other reply keys are kept |
| RateService.ShoppingCalls | src/Services/RateService.php:58-61 | One request per configured service, in order, each the parameters with `mail_class` set to that service |
| RateService.ShoppingCallsMailClass | src/Services/RateService.php:60-61 | Each shopping request posts exactly its service as mail class; the other parameters are unchanged |
| RateService.Collected | src/Services/RateService.php:58-73 | The quotes rate shopping keeps, in configured order; stated by `CollectedBound`, `CollectedQuotes` and `CollectedNone` |
| RateService.CollectedBound | src/Services/RateService.php:58-73 | Rate shopping never yields more quotes than services |
| RateService.CollectedQuotes | src/Services/RateService.php:63-67 | Every kept quote has a price, names one of the shopped services and carries its display name |
| RateService.CollectedNone | src/Services/RateService.php:58-89 | When no service answers with a price, the quotes are empty, not an error |
| RateService.SortQuotes | src/Services/RateService.php:76-87 | The sorting step of rate shopping; specified by `SortQuotesCorrect` |
| RateService.SortQuotesCorrect | src/Services/RateService.php:76-87 | Sorting permutes the quotes. By price or by delivery time, the result is ordered by that key and ties keep configured order. Any other setting keeps configured order |
| RateService.CollectQuotes | src/Services/RateService.php:58-73 | The loop's quotes and calls equal the specification functions `Collected` and `ShoppingCalls` |
| RateService.GetRatesShopping | src/Services/RateService.php:53-90 | Returns `['rates' => sorted quotes]` after exactly the shopping calls |
| RateService.FetchRates | src/Services/RateService.php:44-51 | Without rate shopping, the client's reply (or exception) is passed on as is, after one call; with rate shopping, the shopping result |
| RateService.RatesOutcome | src/Services/RateService.php:19-42 | The result of `getRates` on a cache table; specified by `RatesOutcomeCases` |
| RateService.CacheAfter | src/Services/RateService.php:31-38 | The cache table `getRates` leaves; specified by `RatesOutcomeCases` |
| RateService.RatesOutcomeCases | src/Services/RateService.php:19-42 | A non-empty cached value is returned and nothing is written. Otherwise the result is the fetched one; with caching on, a success is upserted under the key with the configured lifetime; a failure or disabled caching leaves the table unchanged |
| RateService.RatesServedFromCache | src/Services/RateService.php:19-42 | Rates fetched and cached with a positive lifetime are returned by a second call at the same moment, whatever the carrier would answer, and that call writes nothing |
| RateService.GetRates | src/Services/RateService.php:19-42 | The result is `RatesOutcome` and the table becomes `CacheAfter`; the client is called exactly on a cache miss, with exactly the fetch requests |
| RateCache.IsExpired | src/Models/UspsRateCache.php:24-27 | `isExpired`: the expiry lies strictly before now; stated by `ExpiryBoundary` |
| RateCache.CachedRates | src/Models/UspsRateCache.php:29-36 | `getCachedRates` on a table; stated by `ReadAfterUpsert`, `ExpiryBoundary` and `PurgeKeepsReads` |
| RateCache.Upsert | src/Models/UspsRateCache.php:38-48 | `cacheRates` on a table; stated by `ReadAfterUpsert`, `UpsertWithoutTtlIsUnreadable` and `UpsertKeepsOtherKeys` |
| RateCache.Purge | src/Models/UspsRateCache.php:50-53 | `clearExpired` on a table; specified by `PurgeExact` |
| RateCache.ReadAfterUpsert | src/Models/UspsRateCache.php:29-48 | Right after caching with a positive TTL, a read at the same time returns the cached rates |
| RateCache.UpsertWithoutTtlIsUnreadable | src/Models/UspsRateCache.php:38-48 | A TTL of zero or less stores a row that a read at the same time does not return |
| RateCache.UpsertKeepsOtherKeys | src/Models/UspsRateCache.php:40-47 | Caching under one key leaves every other row and every read of it unchanged |
| RateCache.PurgeExact | src/Models/UspsRateCache.php:50-53 | `clearExpired` keeps exactly the unexpired rows, unchanged, and the deleted and kept rows add up to the table |
| RateCache.PurgeKeepsReads | src/Models/UspsRateCache.php:29-53 | Purging never changes what a read at the same time returns |
| RateCache.ExpiryBoundary | src/Models/UspsRateCache.php:24-33 | A row expiring exactly now is neither expired nor purged, yet is not returned by a read |
| RateCache.RateCacheTable.GetCachedRates | src/Models/UspsRateCache.php:29-36 | Returns the row's rates exactly when the row exists and expires strictly after now |
| RateCache.RateCacheTable.CacheRates | src/Models/UspsRateCache.php:38-48 | Upserts the row with expiry now + ttl (default 3600); the key set gains only the key |
| RateCache.RateCacheTable.ClearExpired | src/Models/UspsRateCache.php:50-53 | Deletes the expired rows and returns how many were deleted |
| StableSort.SortByCorrect | src/Services/RateService.php:76-87 | The stable `usort`: ordered by key, a permutation, and equal keys keep their input order |
| StableSort.SortBySortedInput | src/Services/RateService.php:76-87 | Input already in key order is left as is |
| TrackingService.StatusFor | src/Services/TrackingService.php:94-105 | The status table; stated by `ParseStatusDelivered` and `ParseStatusFallback`, and its range by `ParseStatus` |
| TrackingService.ParseStatus | src/Services/TrackingService.php:85-106 | The status is always one of the seven known statuses |
| TrackingService.ParseStatusWithoutEvents | src/Services/TrackingService.php:87-89 | Missing, null or empty events give "unknown" |
| TrackingService.ParseStatusLatestEventOnly | src/Services/TrackingService.php:91-92 | Two replies whose latest events have the same type have the same status |
| TrackingService.ParseStatusDelivered | src/Services/TrackingService.php:92-95 | The upper-case "DELIVERED" maps to "delivered" |
| TrackingService.ParseStatusFallback | src/Services/TrackingService.php:105 | An event type the table does not list maps to "in_transit" |
| TrackingService.ParseStatusWithoutEventType | src/Services/TrackingService.php:92 | An event without `eventType` reads as "unknown", which maps to "in_transit" |
| TrackingService.ParseEvent | src/Services/TrackingService.php:110-122 | The time is null when absent and otherwise converted, and a conversion failure is an error; the location is the event's city, state and zip |
| TrackingService.ParseEventDefaults | src/Services/TrackingService.php:115-120 | Missing fields give status "Unknown", description "" and null location parts |
| TrackingService.ParseEvents | src/Services/TrackingService.php:108-124 | Succeeds exactly when every event converts; then one result per event, in order |
| TrackingService.ParseEstimatedDelivery | src/Services/TrackingService.php:126-140 | The reply's own estimate if set, else the first event's that is set, else null |
| TrackingService.ParseCurrentLocation | src/Services/TrackingService.php:142-155 | None exactly when there are no events; else the latest event's city, state and zip |
| TrackingService.Track | src/Services/TrackingService.php:18-37 | `track`; specified by `TrackCases` |
| TrackingService.TrackCases | src/Services/TrackingService.php:18-37 | Echoes the tracking number. A client or conversion failure is reported with its message. Otherwise the result is a success holding exactly the parsed status, the parsed events, the estimate and the location |
| TrackingService.TrackedUpdate | src/Services/TrackingService.php:53-57 | The row after a successful `track`; specified by `TrackedUpdateProperties` |
| TrackingService.TrackedUpdateProperties | src/Services/TrackingService.php:53-57 | The update sets a known status; `delivered_at` is stamped with the clock exactly when the status is "delivered"; only status, events and `delivered_at` change |
| TrackingService.UpdateShipmentTracking | src/Services/TrackingService.php:39-60 | True exactly when the row exists and tracking succeeds, and then the row is updated; otherwise the store is unchanged |
| TrackingService.UpdatableBound | src/Services/TrackingService.php:71-82 | The count of successful updates never exceeds the rows visited |
| TrackingService.UpdateMultipleShipments | src/Services/TrackingService.php:62-83 | Visits exactly the rows that are not delivered or returned (and are among the given numbers, when some are given). Refreshes each visited row and leaves the others alone. Returns the number of successful updates, at most the number visited |
| AddressValidation.MapFieldName | src/Services/AddressValidationService.php:63-73 | Names outside the four compared fields map to themselves |
| AddressValidation.MapFieldNameOnFields | src/Services/AddressValidationService.php:65-70 | streetAddress→street, city→city, state→state, ZIPCode→zip, all distinct |
| AddressValidation.CorrectionsOver | src/Services/AddressValidationService.php:47-58 | A field is reported exactly when it is compared and both sides are set and differ; the entry holds both values |
| AddressValidation.CorrectionsExact | src/Services/AddressValidationService.php:45-57 | Corrections are keyed by the four fields only: present iff both sides are set and differ under `!==`; original and corrected always differ |
| AddressValidation.CorrectionsOfUnchanged | src/Services/AddressValidationService.php:50-51 | When the carrier returns every compared field unchanged, there are no corrections |
| AddressValidation.CorrectionsNeedBothSides | src/Services/AddressValidationService.php:50 | A field missing on either side is never reported |
| AddressValidation.GetCorrections | src/Services/AddressValidationService.php:41-61 | The loop computes exactly `Corrections` |
| AddressValidation.Validate | src/Services/AddressValidationService.php:17-39 | The original address is always echoed |
| AddressValidation.ValidateCases | src/Services/AddressValidationService.php:19-38 | A failed call is reported with its message and a reply without an address as an invalid response. Otherwise the result is valid, with the carrier's address and the corrections against it |
| LabelService.MergedSender | src/Services/LabelService.php:67 | The sender has exactly the keys of the configured sender and of the caller's `from_address` |
| LabelService.MergedSenderPrefersCaller | src/Services/LabelService.php:67 | A field the caller gives wins; the others come from the configuration |
| LabelService.MergedSenderWithoutCaller | src/Services/LabelService.php:67 | Without `from_address`, the sender is exactly the configured one |
| LabelService.PreparedRecipient | src/Services/LabelService.php:70-77 | labelAddress is `to_address` in carrier field names |
| LabelService.PreparedSender | src/Services/LabelService.php:78-85 | senderAddress is the merged sender in carrier field names |
| LabelService.PreparedPackageFields | src/Services/LabelService.php:86-96 | mailClass is `service_type`, else the configured default; the processing category and rate indicator can be overridden and default to MACHINABLE and SP; the package is sent as `packageDescription` |
| LabelService.PreparedPackageDefaults | src/Services/LabelService.php:87-95 | The weight is passed as given; length, height, width and girth are the given dimensions, else 0; the destination entry facility is always NONE |
| LabelService.PreparedCustomerFallback | src/Services/LabelService.php:97-101 | Name, email and phone are the caller's `customer_name`, `customer_email` and `customer_phone`, else the merged sender's; without `from_address`, the configured sender's |
| LabelService.PreparedImageFields | src/Services/LabelService.php:102-106 | Image and label type fall back to the configuration; the receipt option falls back to SEPARATE_PAGE |
| LabelService.PrepareLabelData | src/Services/LabelService.php:64-108 | The carrier-format label request; its five parts are stated by the `Prepared…` lemmas above |
| LabelService.ClientLabelCallOfPreparedData | src/UspsClient.php:57-84 | As written, the client's label request built from prepared data has no addresses and always asks for Ground Advantage |
| LabelService.ClientLabelCallCounterexample | src/Services/LabelService.php:22-36 | Asking for Priority Mail: Ground Advantage is requested while Priority Mail is reported |
| LabelService.PreparedLabelCall | src/Services/LabelService.php:25 | The prepared data posted to the label endpoint |
| LabelService.PreparedLabelCallKeepsService | src/Services/LabelService.php:22-36 | Posted as prepared, the request carries the reported service and the prepared addresses |
| LabelService.CreateLabel | src/Services/LabelService.php:20-42 | `createLabel`, as a result or the exception; specified by `CreateLabelCases` |
| LabelService.CreateLabelCases | src/Services/LabelService.php:20-42 | Every failure is one exception with the prefix "Failed to create shipping label: "; a reply without a tracking number fails. A success carries that tracking number, the label URL, the base64 image and the postage from the reply (null when absent), the prepared mail class and the label format |
| LabelService.LabelShipmentFields | src/Services/LabelService.php:48-61 | A new row is "label_created", shipped now, not delivered, without events, and stores the caller's from address |
| LabelService.SavedLabel | src/Services/LabelService.php:44-62 | `createAndSaveLabel` on given rows; specified by `SavedLabelCases` |
| LabelService.SavedLabelCases | src/Services/LabelService.php:44-62 | A label failure is reported as it is. Otherwise the service type is missing exactly when neither `service_type` nor a default service is given, and the row is saved exactly when its service type, from address, to address and weight are set and its tracking number is new, else the NOT NULL or the duplicate error |
| LabelService.DefaultSenderLabelIsLost | src/Services/LabelService.php:51 | Without `from_address`, a label the carrier issued is never saved: the insert fails on the NOT NULL `from_address` column, although the label used the configured sender |
| LabelService.CreateAndSaveLabel | src/Services/LabelService.php:44-62 | The result is `SavedLabel` and the rows become `Stored` of it: a failure saves nothing, a success inserts exactly its row, and the rows stay keyed by tracking number |
| Shipments.IsDelivered | src/Models/UspsShipment.php:40-43 | `isDelivered`: the status is exactly "delivered"; stated with `DeliveredNotInTransit` |
| Shipments.IsInTransit | src/Models/UspsShipment.php:45-48 | `isInTransit`: the status is in_transit or out_for_delivery; stated with `DeliveredNotInTransit` |
| Shipments.DeliveredNotInTransit | src/Models/UspsShipment.php:40-48 | Never both delivered and in transit; in transit iff the status is in_transit or out_for_delivery |
| Shipments.FirstEstimate | src/Models/UspsShipment.php:56-62 | Null iff no event carries an estimate; otherwise the estimate of the first event that does |
| Shipments.EstimatedDelivery | src/Models/UspsShipment.php:50-63 | The estimated-delivery accessor; specified by `EstimatedDeliveryCases` and `FirstEstimate` |
| Shipments.EstimatedDeliveryCases | src/Models/UspsShipment.php:50-63 | Null without events; otherwise the first estimate carried by an event, or null |
| Shipments.ServiceNameOf | src/Models/UspsShipment.php:70-74 | The service-name accessor; specified by `ServiceNameOfCases` |
| Shipments.ServiceNameOfCases | src/Models/UspsShipment.php:70-74 | The configured display name when the service is configured with a name; the service code when it is not configured or has no name |
| Shipments.ServiceNamesOfServiceTable | src/Models/UspsShipment.php:70-74 | Examples with the shipped table: Priority Mail is named; an unknown code is shown as is |
| Shipments.FormattedWeight | src/Models/UspsShipment.php:65-68 | The formatted-weight accessor over the `decimal:2` cast; specified by `FormattedWeightRoundTrip` |
| Shipments.FormattedWeightRoundTrip | src/Models/UspsShipment.php:65-68 | A whole-number weight N is rendered exactly as N's digits followed by ".00 lbs", and `(int)` of that gives N back |
| Shipments.InsertOutcome | database/migrations/create_usps_shipments_table.php:13-17 | An insert succeeds exactly when service type, from address, to address and weight are set and the tracking number is new; a missing NOT NULL column is reported before a duplicate; a success is the row itself |
| Shipments.StoredInsert | database/migrations/create_usps_shipments_table.php:13 | Inserting keeps the rows keyed by tracking number and every old row; the table grows by one exactly on success, and then holds the new row under its number |
| Shipments.ShipmentStore.Find | src/Services/TrackingService.php:41 | Finds the row exactly when its tracking number is stored |
| Shipments.ShipmentStore.Create | src/Services/LabelService.php:48-61 | The result is `InsertOutcome` and the rows become `Stored` of it: a row missing service type, from address, to address or weight, or with a taken tracking number, is refused and changes nothing |
| Shipments.ShipmentStore.Save | src/Services/TrackingService.php:53-57 | Replaces the row under its tracking number; the key set is unchanged |
| Xml.Escape | src/Support/Xml.php:9 | `htmlspecialchars` output holds no raw <, >, " or ' and is never shorter |
| Xml.UnescapeEscape | src/Support/Xml.php:9 | Decoding escaped text gives the text back |
| Xml.EscapeInjective | src/Support/Xml.php:13-16 | Different texts never escape to the same text |
| Xml.ReadFieldsDefaults | src/Support/Xml.php:11-17 | An empty package gets ID "0", 0 ounces, size REGULAR, no container, and is machinable |
| Xml.ReadFieldsGiven | src/Support/Xml.php:11-17 | A given machinable becomes "true" or "false" by truthiness; the other fields are read as given |
| Xml.RenderFrame | src/Support/Xml.php:19-30 | The document starts with the request element and ends by closing the package and the request |
| Xml.RenderAtId | src/Support/Xml.php:21-30 | After the ID attribute's opening quote come the ID, the closing quote, the package elements and the closing tags |
| Xml.RenderUserIdReadsBack | src/Support/Xml.php:9-19 | The USERID attribute reads back as the user ID, whatever it contains |
| Xml.BuildRateV4 | src/Support/Xml.php:7-33 | `buildRateV4` as written; stated by `RenderFrame`, `RenderAtId`, `RenderUserIdReadsBack` and `BuildRateV4QuotedId` |
| Xml.BuildRateV4QuotedId | src/Support/Xml.php:11-21 | As written, a package ID `"` ends the attribute at once: the ID read back is empty |
| Xml.BuildRateV4Escaped | src/Support/Xml.php:7-33 | `buildRateV4` with the package ID escaped like the other fields; stated by `BuildRateV4EscapedReadsBack` |
| Xml.BuildRateV4EscapedReadsBack | src/Support/Xml.php:9-21 | With the ID escaped, both attributes read back exactly, whatever they contain |
| HttpClient.RTrimSlash | src/Http/HttpClient.php:32 | `rtrim('/')`: a prefix that does not end with a slash, and only slashes were removed |
| HttpClient.RTrimSlashIdempotent | src/Http/HttpClient.php:32 | Trimming twice trims nothing more |
| HttpClient.RTrimSlashOfSlashes | src/Http/HttpClient.php:32 | Any number of trailing slashes is removed, and nothing else |
| HttpClient.BaseUrl | src/Http/HttpClient.php:29-33 | `baseUrl`; specified by `BaseUrlCases` |
| HttpClient.BaseUrlCases | src/Http/HttpClient.php:29-33 | Production only for env exactly "production"; the URL never ends with a slash; an unconfigured product gives ""; one configured URL as an example |
| HttpClient.Headers | src/Http/HttpClient.php:52-55 | Exactly the bearer token and the JSON accept header |
| HttpClient.MakeRequest | src/Http/HttpClient.php:50-61 | The URL is the product's base URL followed by the path, with the standard headers |
| HttpClient.Get | src/Http/HttpClient.php:35-38 | `get`: a GET request with the query; stated by `VerbOptions` |
| HttpClient.Post | src/Http/HttpClient.php:40-43 | `post`: a POST request with the JSON body; stated by `VerbOptions` |
| HttpClient.Delete | src/Http/HttpClient.php:45-48 | `delete`: a DELETE request with no options; stated by `VerbOptions` |
| HttpClient.VerbOptions | src/Http/HttpClient.php:35-48 | GET sends only the query, POST only the JSON body, DELETE neither; the same URL and headers |
| Php.Lower | src/Services/TrackingService.php:92 | `strtolower`: the same length, each ASCII letter lower-cased |
| ShippingService.CallerAddress | src/Services/UspsShippingService.php:59-74 | A standardised address mapped back to caller fields; stated by `CallerAddressRoundTrip` |
| ShippingService.CallerAddressRoundTrip | src/Services/UspsShippingService.php:58-75 | Mapping a standardised address back to caller fields, then to carrier fields, gives the same carrier fields |
| ShippingService.RateRequest | src/Services/UspsShippingService.php:46-54 | The rate request of `createShipment`; stated by `RateRequestZips` |
| ShippingService.RateRequestZips | src/Services/UspsShippingService.php:46-54 | The rate request quotes the standardised ZIP codes and `service_type`, else Ground Advantage |
| ShippingService.LabelRequestDataFields | src/Services/UspsShippingService.php:58-75 | The keys are the caller's plus both addresses; both addresses are replaced by the mapped-back standardised ones; every other field is kept |
| ShippingService.Validated | src/Services/UspsShippingService.php:29-42 | Both validations and their errors; specified by `ValidatedOrder` |
| ShippingService.ValidatedOrder | src/Services/UspsShippingService.php:29-38 | An invalid from address is reported first, then an invalid to address; success iff both are valid |
| ShippingService.ShipmentOutcome | src/Services/UspsShippingService.php:26-78 | The result of `createShipment` on a cache table and rows; specified by `ShipmentOutcomeCases` |
| ShippingService.CacheAfterShipment | src/Services/UspsShippingService.php:45-55 | The cache table `createShipment` leaves; specified by `ShipmentOutcomeCases` |
| ShippingService.ShipmentOutcomeCases | src/Services/UspsShippingService.php:26-78 | A validation error is reported and the cache is untouched; with `selected_service` the cache is untouched; otherwise a rate failure is reported. Past these, a label failure is reported, and an issued label gives the insert outcome of its row for the remapped data |
| ShippingService.ShipmentRowHasAddresses | src/Services/UspsShippingService.php:58-77 | The row saved holds both standardised addresses, so it is refused for a missing column exactly when the weight or the service type is missing |
| ShippingService.ShipmentOutcomeOk | src/Services/UspsShippingService.php:26-78 | A created shipment has a tracking number the rows did not hold and every NOT NULL column, service type included |
| ShippingService.CreateValidated | src/Services/UspsShippingService.php:44-77 | Past validation: the result is `LabelOutcome`, the cache becomes `CacheAfterQuote`, the rows become `Stored` of the result and stay keyed |
| ShippingService.CreateShipment | src/Services/UspsShippingService.php:26-78 | The result is `ShipmentOutcome`, the cache becomes `CacheAfterShipment`, the rows become `Stored` of the result and stay keyed |
| ShippingService.CreateReported | src/Services/UspsShippingService.php:124-135 | One batch item is `BatchStep` from no entries: its entry reports the outcome (the shipment, or the exception's message and the input) and the tables change as `createShipment` changes them |
| ShippingService.BatchRun | src/Services/UspsShippingService.php:119-139 | `createBatchShipments` on a cache table and rows: each item in turn, on what the earlier ones left |
| ShippingService.RunItemsPrefixes | src/Services/UspsShippingService.php:123-136 | Running a step that appends one entry gives one entry per item, and each prefix of the items gives a prefix of the entries |
| ShippingService.BatchRunEntry | src/Services/UspsShippingService.php:123-136 | A failure never stops the batch: one entry per item, and item i's entry is its own outcome on the tables the items before it left |
| ShippingService.BatchStepRows | src/Services/UspsShippingService.php:124-135 | One batch item from keyed rows appends one entry, keeps every row, stores a success under a free tracking number, and grows the rows by one exactly on success |
| ShippingService.RowsSinceStep | src/Services/UspsShippingService.php:123-136 | One more such item keeps the rows keyed, the starting rows, every success stored and the count of rows |
| ShippingService.RunItemsRows | src/Services/UspsShippingService.php:123-136 | Running such items from keyed rows: every starting row kept, every success stored, and one new row per success |
| ShippingService.BatchRunRows | src/Services/UspsShippingService.php:119-139 | The rows a batch leaves: every old row kept, every created shipment stored under its tracking number, and one new row per success |
| ShippingService.CreateBatchShipments | src/Services/UspsShippingService.php:119-139 | The entries and both tables are exactly `BatchRun` of the items on the old tables |
| ShippingService.RawTrackingUpdate | src/Services/UspsShippingService.php:93-102 | The row `updateTrackingStatus` writes; stated by `RawTrackingUpdateDelivery` and `RawTrackingUpdateOutForDelivery` |
| ShippingService.RawStatusDelivered | src/Services/UspsShippingService.php:95 | "DELIVERED" becomes "delivered" |
| ShippingService.RawStatusKeepsSpace | src/Services/UspsShippingService.php:95 | Any event type holding a space, such as "OUT FOR DELIVERY", keeps the space and so becomes neither in-transit status |
| ShippingService.RawTrackingUpdateDelivery | src/Services/UspsShippingService.php:93-101 | Only the exact "DELIVERED" sets `delivered_at`: to the carrier's own time, or to null when the event has no time; any other type keeps it; the events are stored as given |
| ShippingService.RawTrackingUpdateStatus | src/Services/UspsShippingService.php:95-99 | The status is the event type lower-cased, so the shipment reads as delivered exactly when the type lower-cases to "delivered"; a type other than the exact "DELIVERED" keeps `delivered_at` |
| ShippingService.RawTrackingUpdateMixedCaseDelivered | src/Services/UspsShippingService.php:95-99 | An example: "Delivered" marks the shipment delivered while `delivered_at` keeps its old value, possibly null |
| ShippingService.RawTrackingUpdateOutForDelivery | src/Services/UspsShippingService.php:95 | "OUT FOR DELIVERY", or any event type holding a space, is stored so that the shipment does not count as in transit |
| ShippingService.UpdateTrackingStatus | src/Services/UspsShippingService.php:83-106 | False iff the shipment is unknown. A client exception propagates. Otherwise true, and the row is updated only when the reply has events |

## Left out

- The transport and the wire formats are not modelled: curl, Guzzle, JSON encoding and decoding, and form encoding. Each call is an abstract outcome. Only the request that would be sent is modelled.
- `OAuthTokenCache` (src/Auth/OAuthTokenCache.php) is not part of this model. The HTTP client's token is a parameter.
- The `HttpClient` response decoding (`json_decode` of the body) is not modelled.
- ShippingService.BatchRun: the batch is a list, and the results are indexed by position. `createBatchShipments` writes `$results[$index]` under the caller's own array keys, so a batch given as an array with other keys keeps those keys. This model does not.
- `getDeliveryEstimate` and `getZipInfo` only forward to the client. Their requests are `UspsClient.ServiceAvailabilityCall` and `UspsClient.ZipInfoCall`, and the reply is the client's.
- The cache-key digest `md5(serialize($params))` is an abstract function. `serialize` depends on key order, and maps cannot express that, so no canonicalisation is claimed.
- Carbon's ISO conversion is an abstract function `toIso`; `date('Y-m-d')` is the parameter `today`.
- `usleep` rate limiting and `\Log` calls are not modelled.
- Php.IntCast: only an optional sign and decimal digits are read. PHP's `(int)` of a leading-numeric string also honours a fraction and exponent notation (`(int)"1e3"` is 1000, here 1), and it saturates at PHP_INT_MAX, while integers here are unbounded. `RateService.EstimatedDays` and the string case of `Xml.Ounces` read through it.
- EstimatedDays: it reads `delivery_days` through `Php.IntCast`, so a configured value such as "1e1-3" gives 1 here and 10 in PHP. The shipped services table holds plain digit ranges only.
- Floats are left out:
  - Prices are integers, and a non-number `totalBasePrice` compares as 0.
  - `round()` of `weight_oz` is taken on whole ounces, and a numeric string is read with `(int)`.
  - The `decimal:2` weight cast is written out for whole numbers only.
- Laravel turns a read of a missing array key into an `ErrorException`. Here a missing key reads as null, as in plain PHP.
- Type errors are not modelled. A non-array address given to `validate`, or a non-array `standardized` value, is read as an empty array. A scalar `trackingEvents` is read as having no events (a string offset `[0]` is not modelled).
- TrackingService.FirstEvent: a `trackingEvents` object (a JSON object rather than a list) is read at key "0" for the latest event, while `AsList` treats it as holding no events. PHP would iterate its values in `parseEvents` and `getEstimatedDeliveryAttribute`; only list-shaped events are modelled faithfully.
- The "Unknown error" fallback of `createShipment` is not modelled. It is unreachable, because an invalid validation always carries a message.
- Eloquent plumbing, the service provider, the facades, the console commands and the webhook route are not part of this model.
- The carrier's replies are fixed functions of the request. Two calls with the same argument are assumed to get the same reply.
- UspsClient.Client.GetAccessToken: the concurrency tolerance of token renewal is not modelled; calls are sequential.
- The rate-cache migration is not part of this model. Of the shipments migration, only the unique tracking number and the NOT NULL `service_type`, `from_address`, `to_address` and `weight` columns are modelled (`Shipments.InsertOutcome`). A null `service_type` (no `service_type` given and no default service configured) is refused like the others.
- UspsClient.Client.constructor: the credentials are given as strings. A configuration without `client_id` or `client_secret` throws on construction under Laravel's error handler; that exception is not modelled.

## Findings

| source | as written | input that shows it | evidently intended | confidence | as-written member | corrected member |
|---|---|---|---|---|---|---|
| src/Services/LabelService.php:22-36 | `createLabel` passes the prepared carrier-format data to the client's `createLabel`. That method reads caller keys (`to_address`, `from_address`, `weight`, `service_type`), which the prepared data does not have. The request has no addresses and always asks for Ground Advantage, while the result reports the prepared mail class. Under Laravel's error handler the missing-key reads throw instead | params with `service_type` PRIORITY_MAIL | post the prepared data as the label request, so the service reported is the service requested | not executed | LabelService.ClientLabelCallCounterexample | LabelService.PreparedLabelCallKeepsService |
| src/Support/Xml.php:11-21 | the package ID is put into the `ID="…"` attribute without `htmlspecialchars`, unlike every other field | package `id` = `"` | escape the ID like the other fields, so that the attribute reads back as the ID | not executed | Xml.BuildRateV4QuotedId | Xml.BuildRateV4EscapedReadsBack |
