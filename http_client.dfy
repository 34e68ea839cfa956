/**
 * `HttpClient` of the second stack: picks a base URL from the configuration
 * by environment and product, and assembles each request (method, URL,
 * options, headers). The bearer token comes from the token cache and is a
 * parameter; sending the request and decoding its body are not modelled.
 */
module HttpClient {
  import opened Php

  /** `rtrim($s, '/')`: every trailing slash removed. */
  function RTrimSlash(s: string): (r: string)
    ensures r <= s
    ensures r == [] || r[|r| - 1] != '/'
    ensures forall i :: |r| <= i < |s| ==> s[i] == '/'
  {
    if s != [] && s[|s| - 1] == '/' then RTrimSlash(s[..|s| - 1]) else s
  }

  /** Trimming twice trims nothing more. */
  lemma RTrimSlashIdempotent(s: string)
    ensures RTrimSlash(RTrimSlash(s)) == RTrimSlash(s)
  {
  }

  /** A URL without a trailing slash is kept; appending slashes changes nothing. */
  lemma {:induction false} RTrimSlashOfSlashes(s: string, n: nat)
    requires s == [] || s[|s| - 1] != '/'
    ensures RTrimSlash(s + seq(n, _ => '/')) == s
  {
    if n > 0 {
      var t := s + seq(n, _ => '/');
      assert t[..|t| - 1] == s + seq(n - 1, _ => '/');
      RTrimSlashOfSlashes(s, n - 1);
    }
  }

  /** `$config['env'] === 'production' ? 'production' : 'sandbox'`. */
  function Environment(config: Dict): string {
    if At(config, "env") == JStr("production") then "production" else "sandbox"
  }

  /** `baseUrl`. */
  function BaseUrl(config: Dict, product: string): string {
    RTrimSlash(ToPhpString(FieldOr(Field(At(config, "base_urls"), Environment(config)), product, JStr(""))))
  }

  /**
   * Only the exact string "production" selects the production table; a
   * missing or different `env` selects the sandbox one. The URL never
   * ends with a slash, and an unconfigured product gives "". The last
   * clause is an example: one configured URL with its trailing slash.
   */
  lemma BaseUrlCases(config: Dict, product: string)
    ensures Environment(config) == "production" <==> "env" in config && config["env"] == JStr("production")
    ensures var url := BaseUrl(config, product); url == [] || url[|url| - 1] != '/'
    ensures Field(Field(At(config, "base_urls"), Environment(config)), product) == JNull ==> BaseUrl(config, product) == ""
    ensures Field(Field(At(config, "base_urls"), Environment(config)), product) == JStr("https://apis.usps.com/") ==>
              BaseUrl(config, product) == "https://apis.usps.com"
  {
    var url := "https://apis.usps.com";
    assert url + "/" == url + seq(1, _ => '/');
    RTrimSlashOfSlashes(url, 1);
  }

  /** The Guzzle options of a request: a query, a JSON body, and the headers. */
  datatype Options = Options(query: Option<Dict>, json: Option<Dict>, headers: map<string, string>)

  datatype Request = Request(verb: string, url: string, options: Options)

  /** The headers `request` adds to every call. */
  function Headers(token: string): (h: map<string, string>)
    ensures h.Keys == {"Authorization", "Accept"}
    ensures h["Authorization"] == "Bearer " + token && h["Accept"] == "application/json"
  {
    map["Authorization" := "Bearer " + token, "Accept" := "application/json"]
  }

  /** `request`: the URL is the product's base URL followed by the path. */
  function MakeRequest(config: Dict, token: string, verb: string, product: string, path: string,
                       query: Option<Dict>, json: Option<Dict>): (r: Request)
    ensures r.verb == verb && r.url == BaseUrl(config, product) + path
    ensures r.options.headers == Headers(token)
  {
    Request(verb, BaseUrl(config, product) + path, Options(query, json, Headers(token)))
  }

  /** `get`: a GET with the query and no body. */
  function Get(config: Dict, token: string, product: string, path: string, query: Dict): Request {
    MakeRequest(config, token, "GET", product, path, Some(query), None)
  }

  /** `post`: a POST with the JSON body and no query. */
  function Post(config: Dict, token: string, product: string, path: string, json: Dict): Request {
    MakeRequest(config, token, "POST", product, path, None, Some(json))
  }

  /** `delete`: a DELETE with neither. */
  function Delete(config: Dict, token: string, product: string, path: string): Request {
    MakeRequest(config, token, "DELETE", product, path, None, None)
  }

  /** Each verb sends only the option it is given, to the same URL, with the same headers. */
  lemma VerbOptions(config: Dict, token: string, product: string, path: string, body: Dict)
    ensures var g := Get(config, token, product, path, body);
            g.verb == "GET" && g.options.query == Some(body) && g.options.json.None?
    ensures var p := Post(config, token, product, path, body);
            p.verb == "POST" && p.options.json == Some(body) && p.options.query.None?
    ensures var d := Delete(config, token, product, path);
            d.verb == "DELETE" && d.options.query.None? && d.options.json.None?
    ensures Get(config, token, product, path, body).url == Post(config, token, product, path, body).url
                                                       == Delete(config, token, product, path).url
    ensures Get(config, token, product, path, body).options.headers == Headers(token)
  {
  }
}
