/**
 * The package configuration (`config/usps.php`) as a record, with the
 * values the file ships as defaults.
 */
module Config {
  import opened Php

  /** One entry of the `services` table. */
  datatype ServiceInfo = ServiceInfo(name: Option<string>, deliveryDays: Option<string>)

  datatype UspsConfig = UspsConfig(
    clientId: string,
    clientSecret: string,
    sandbox: Option<bool>,
    defaultService: Value,
    labelFormat: Value,
    labelType: Value,
    defaultSender: Dict,
    services: map<string, ServiceInfo>,
    cacheEnabled: bool,
    cacheDuration: int,
    cachePrefix: string,
    rateShoppingEnabled: bool,
    rateShoppingServices: seq<string>,
    sortBy: string)

  const ServiceTable: map<string, ServiceInfo> := map[
    "USPS_GROUND_ADVANTAGE" := ServiceInfo(Some("USPS Ground Advantage"), Some("2-5")),
    "PRIORITY_MAIL" := ServiceInfo(Some("Priority Mail"), Some("1-3")),
    "PRIORITY_MAIL_EXPRESS" := ServiceInfo(Some("Priority Mail Express"), Some("1-2")),
    "FIRST_CLASS_MAIL" := ServiceInfo(Some("First-Class Mail"), Some("1-5")),
    "PARCEL_SELECT" := ServiceInfo(Some("Parcel Select Ground"), Some("2-8"))
  ]

  const EmptySender: Dict := map[
    "name" := JStr(""), "company" := JStr(""), "street" := JStr(""), "street2" := JStr(""),
    "city" := JStr(""), "state" := JStr(""), "zip" := JStr(""), "phone" := JStr(""),
    "email" := JStr("")
  ]

  /** The configuration with every environment variable unset (credentials aside). */
  function Defaults(clientId: string, clientSecret: string): UspsConfig {
    UspsConfig(
      clientId, clientSecret, Some(true),
      JStr("USPS_GROUND_ADVANTAGE"), JStr("PDF"), JStr("SHIPPING_LABEL_ONLY"),
      EmptySender, ServiceTable,
      true, 3600, "usps_",
      false, ["USPS_GROUND_ADVANTAGE", "PRIORITY_MAIL", "PRIORITY_MAIL_EXPRESS"], "price")
  }

  /** `$services[$code]['name'] ?? $code`. */
  function ServiceName(services: map<string, ServiceInfo>, code: string): string {
    if code in services && services[code].name.Some? then services[code].name.value else code
  }
}
