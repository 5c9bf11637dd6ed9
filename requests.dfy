/** Download locations, archive names and the options of every outbound GET request. */
module Requests {
  import opened Common

  const ChromeDownloadUrlBase := "https://chromedriver.storage.googleapis.com"
  const ChromeDriverFileName := "chromedriver_linux64.zip"
  const GeckoDownloadUrlBase := "https://github.com/mozilla/geckodriver/releases/download"
  const GeckoFileNamePrefix := "geckodriver-v"
  const GeckoFileNameSuffix := "-linux64.tar.gz"

  /** `path.join(dir, name)` / `path.resolve(dir, name)` for an already resolved directory. */
  function JoinPath(dir: string, name: string): string {
    dir + "/" + name
  }

  /** The endpoint whose body is the newest chromedriver release for a "LATEST_RELEASE_<major>" marker. */
  function ChromeVersionQueryUrl(marker: string): string {
    ChromeDownloadUrlBase + "/" + marker
  }

  function ChromeDownloadUrl(version: string): string {
    ChromeDownloadUrlBase + "/" + version + "/" + ChromeDriverFileName
  }

  function GeckoDriverFileName(version: string): string {
    GeckoFileNamePrefix + version + GeckoFileNameSuffix
  }

  function GeckoDownloadUrl(version: string): string {
    GeckoDownloadUrlBase + "/v" + version + "/" + GeckoDriverFileName(version)
  }

  /** The text between a known prefix and a known suffix, when `s` has both. */
  function Between(s: string, prefix: string, suffix: string): (r: Option<string>)
    ensures r.Some? ==> s == prefix + r.value + suffix
  {
    if |prefix| + |suffix| <= |s| && s[..|prefix|] == prefix && s[|s| - |suffix|..] == suffix then
      var mid := s[|prefix|..|s| - |suffix|];
      assert s == s[..|prefix|] + mid + s[|s| - |suffix|..];
      Some(mid)
    else
      None
  }

  lemma BetweenOfConcatenation(prefix: string, mid: string, suffix: string)
    ensures Between(prefix + mid + suffix, prefix, suffix) == Some(mid)
  {
    var s := prefix + mid + suffix;
    assert s[..|prefix|] == prefix;
    assert s[|s| - |suffix|..] == suffix;
    assert s[|prefix|..|s| - |suffix|] == mid;
  }

  /** The version a chromedriver download URL was built for. */
  function ChromeUrlVersion(url: string): Option<string> {
    Between(url, ChromeDownloadUrlBase + "/", "/" + ChromeDriverFileName)
  }

  /** The chromedriver download URL determines the version it downloads, and the version in a
      well-formed URL is the one it was built from. */
  lemma ChromeDownloadUrlRoundTrip(version: string)
    ensures ChromeUrlVersion(ChromeDownloadUrl(version)) == Some(version)
    ensures EndsWith(ChromeDownloadUrl(version), "/" + ChromeDriverFileName)
  {
    assert ChromeDownloadUrl(version) == (ChromeDownloadUrlBase + "/") + version + ("/" + ChromeDriverFileName);
    BetweenOfConcatenation(ChromeDownloadUrlBase + "/", version, "/" + ChromeDriverFileName);
  }

  lemma ChromeUrlVersionInverse(url: string)
    requires ChromeUrlVersion(url).Some?
    ensures ChromeDownloadUrl(ChromeUrlVersion(url).value) == url
  {
  }

  /** The version a geckodriver download URL was built for: it appears twice, in the release
      directory and in the file name, and the two must agree. */
  function GeckoUrlVersion(url: string): Option<string> {
    match Between(url, GeckoDownloadUrlBase + "/v", GeckoFileNameSuffix)
    case None => None
    case Some(mid) => Doubled(mid, "/" + GeckoFileNamePrefix)
  }

  /** The `v` with `mid == v + sep + v`, if there is one. */
  function Doubled(mid: string, sep: string): (r: Option<string>)
    ensures r.Some? ==> mid == r.value + sep + r.value
  {
    if |mid| < |sep| || (|mid| - |sep|) % 2 != 0 then None
    else
      var n := (|mid| - |sep|) / 2;
      if mid == mid[..n] + sep + mid[..n] then Some(mid[..n]) else None
  }

  lemma DoubledOfConcatenation(v: string, sep: string)
    ensures Doubled(v + sep + v, sep) == Some(v)
  {
    var mid := v + sep + v;
    assert (|mid| - |sep|) / 2 == |v|;
    assert mid[..|v|] == v;
  }

  lemma GeckoDownloadUrlRoundTrip(version: string)
    ensures GeckoUrlVersion(GeckoDownloadUrl(version)) == Some(version)
  {
    var prefix, sep, suffix := GeckoDownloadUrlBase + "/v", "/" + GeckoFileNamePrefix, GeckoFileNameSuffix;
    var mid := version + sep + version;
    assert GeckoDownloadUrl(version) == prefix + mid + suffix;
    BetweenOfConcatenation(prefix, mid, suffix);
    DoubledOfConcatenation(version, sep);
  }

  lemma GeckoDownloadUrlEndsWithFileName(version: string)
    ensures EndsWith(GeckoDownloadUrl(version), "/" + GeckoDriverFileName(version))
  {
    var url := GeckoDownloadUrl(version);
    var tail := "/" + GeckoDriverFileName(version);
    assert url == (GeckoDownloadUrlBase + "/v" + version) + tail;
  }

  lemma GeckoUrlVersionInverse(url: string)
    requires GeckoUrlVersion(url).Some?
    ensures GeckoDownloadUrl(GeckoUrlVersion(url).value) == url
  {
    var v := GeckoUrlVersion(url).value;
    assert url == (GeckoDownloadUrlBase + "/v") + (v + "/" + GeckoFileNamePrefix + v) + GeckoFileNameSuffix;
  }

  /** The request library options prepareHttpGetRequest builds. */
  datatype RequestOptions = RequestOptions(httpMethod: string, uri: string, proxy: Option<string>, userAgent: Option<string>)

  const ProxyVariable := "npm_config_proxy"
  const HttpProxyVariable := "npm_config_http_proxy"
  const UserAgentVariable := "npm_config_user_agent"

  /** `process.env[name]`: set, or undefined. */
  function EnvLookup(env: map<string, string>, name: string): Option<string> {
    if name in env then Some(env[name]) else None
  }

  /** JavaScript's `a || b`. */
  function JsOr(a: Option<string>, b: Option<string>): Option<string> {
    if Truthy(a) then a else b
  }

  /** prepareHttpGetRequest: a GET of the URL, through npm's proxy and with npm's user agent when those
      variables are set to non-empty values; npm_config_proxy wins over npm_config_http_proxy. */
  function PrepareHttpGetRequest(url: string, env: map<string, string>): (o: RequestOptions)
    ensures o.httpMethod == "GET" && o.uri == url
    ensures o.proxy.Some? <==> Truthy(EnvLookup(env, ProxyVariable)) || Truthy(EnvLookup(env, HttpProxyVariable))
    ensures Truthy(EnvLookup(env, ProxyVariable)) ==> o.proxy == Some(env[ProxyVariable])
    ensures !Truthy(EnvLookup(env, ProxyVariable)) && Truthy(EnvLookup(env, HttpProxyVariable)) ==> o.proxy == Some(env[HttpProxyVariable])
    ensures o.proxy.Some? ==> o.proxy.value != ""
    ensures o.userAgent.Some? <==> Truthy(EnvLookup(env, UserAgentVariable))
    ensures o.userAgent.Some? ==> o.userAgent.value == env[UserAgentVariable]
  {
    var proxyUrl := JsOr(EnvLookup(env, ProxyVariable), EnvLookup(env, HttpProxyVariable));
    var userAgent := EnvLookup(env, UserAgentVariable);
    RequestOptions("GET", url,
                   if Truthy(proxyUrl) then proxyUrl else None,
                   if Truthy(userAgent) then userAgent else None)
  }
}
