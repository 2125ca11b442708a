/**
 * The gateway's service registry (services/gateway/src/config/services.ts):
 * descriptors are built from a primary URL or a fallback, defaults and
 * caller overrides, validated by four guard checks, and looked up by key.
 */
module Services {

  import opened Wrappers
  import opened Strings

  /**
   * One backend. `displayName` and `proxyPath` are read by the proxy router
   * but never set here: a registry given to the router may carry them.
   */
  datatype ServiceConfig = ServiceConfig(
    name: string,
    url: string,
    healthPath: string,
    timeout: int,
    retries: int,
    enabled: Option<bool>,
    displayName: Option<string>,
    proxyPath: Option<string>)

  /** `Partial<ServiceConfig>`: a present field overrides the default. */
  datatype Overrides = Overrides(
    name: Option<string>,
    url: Option<string>,
    healthPath: Option<string>,
    timeout: Option<int>,
    retries: Option<int>,
    enabled: Option<bool>)

  const NoOverrides: Overrides := Overrides(None, None, None, None, None, None)

  const DefaultHealthPath: string := "/health"
  const DefaultTimeout: int := 5000
  const DefaultRetries: int := 3

  datatype ConfigError =
    | EmptyName
    | InvalidUrl(service: string)
    | NonPositiveTimeout(service: string)
    | NegativeRetries(service: string)

  /** The text of the error each failed check throws. */
  function ErrorMessage(e: ConfigError): string {
    match e
    case EmptyName => "Service name cannot be empty"
    case InvalidUrl(s) => "Invalid URL for service " + s
    case NonPositiveTimeout(s) => "Timeout must be positive for service " + s
    case NegativeRetries(s) => "Retries cannot be negative for service " + s
  }

  // ---------------------------------------------------------------------
  // Validation
  // ---------------------------------------------------------------------

  predicate IsBlank(s: string) { Trim(s) == "" }

  /**
   * `url.match(/^https?:\/\/.+/)`: the scheme `http://` or `https://` and then
   * at least one character that `.` matches, i.e. not a line terminator.
   */
  predicate MatchesUrlPattern(url: string) {
    || (StartsWith(url, "http://") && |url| > 7 && !IsLineTerminator(url[7]))
    || (StartsWith(url, "https://") && |url| > 8 && !IsLineTerminator(url[8]))
  }

  predicate Valid(c: ServiceConfig) {
    !IsBlank(c.name) && MatchesUrlPattern(c.url) && c.timeout > 0 && c.retries >= 0
  }

  /** validateServiceConfig: the checks run name, URL, timeout, retries; the first failure is thrown. */
  function ValidateServiceConfig(c: ServiceConfig): (r: Option<ConfigError>)
    ensures r.None? <==> Valid(c)
    ensures r == Some(EmptyName) <==> IsBlank(c.name)
    ensures r == Some(InvalidUrl(c.name)) <==> !IsBlank(c.name) && !MatchesUrlPattern(c.url)
    ensures r == Some(NonPositiveTimeout(c.name)) <==>
              !IsBlank(c.name) && MatchesUrlPattern(c.url) && c.timeout <= 0
    ensures r == Some(NegativeRetries(c.name)) <==>
              !IsBlank(c.name) && MatchesUrlPattern(c.url) && c.timeout > 0 && c.retries < 0
  {
    if IsBlank(c.name) then Some(EmptyName)
    else if !MatchesUrlPattern(c.url) then Some(InvalidUrl(c.name))
    else if c.timeout <= 0 then Some(NonPositiveTimeout(c.name))
    else if c.retries < 0 then Some(NegativeRetries(c.name))
    else None
  }

  /** A name of whitespace only is refused, whatever the other fields hold. */
  lemma WhitespaceNameRejected(c: ServiceConfig)
    requires forall i :: 0 <= i < |c.name| ==> IsJsWhitespace(c.name[i])
    ensures ValidateServiceConfig(c) == Some(EmptyName)
  {
    BlankIffAllWhitespace(c.name);
  }

  // ---------------------------------------------------------------------
  // Construction
  // ---------------------------------------------------------------------

  /** `envUrl || defaultUrl`: an absent or empty primary URL falls back. */
  function ChooseUrl(envUrl: Option<string>, defaultUrl: string): (u: string)
    ensures envUrl.Some? && envUrl.value != "" ==> u == envUrl.value
    ensures envUrl.None? || envUrl.value == "" ==> u == defaultUrl
  {
    if envUrl.Some? && envUrl.value != "" then envUrl.value else defaultUrl
  }

  /** The object literal of createServiceConfig: defaults first, then `...options`. */
  function Merge(name: string, envUrl: Option<string>, defaultUrl: string, options: Overrides): (c: ServiceConfig)
    ensures c.name == options.name.GetOr(name)
    ensures c.url == options.url.GetOr(ChooseUrl(envUrl, defaultUrl))
    ensures c.healthPath == options.healthPath.GetOr(DefaultHealthPath)
    ensures c.timeout == options.timeout.GetOr(DefaultTimeout)
    ensures c.retries == options.retries.GetOr(DefaultRetries)
    ensures c.enabled == Some(options.enabled.GetOr(true))
    ensures c.displayName.None? && c.proxyPath.None?
  {
    ServiceConfig(
      options.name.GetOr(name),
      options.url.GetOr(ChooseUrl(envUrl, defaultUrl)),
      options.healthPath.GetOr(DefaultHealthPath),
      options.timeout.GetOr(DefaultTimeout),
      options.retries.GetOr(DefaultRetries),
      Some(options.enabled.GetOr(true)),
      None,
      None)
  }

  /** createServiceConfig: the merged descriptor, or the error its validation throws. */
  function CreateServiceConfig(name: string, envUrl: Option<string>, defaultUrl: string, options: Overrides)
    : (r: Result<ServiceConfig, ConfigError>)
    ensures r.Success? ==> Valid(r.value) && r.value == Merge(name, envUrl, defaultUrl, options)
    ensures r.Failure? ==> Some(r.error) == ValidateServiceConfig(Merge(name, envUrl, defaultUrl, options))
    ensures r.Success? <==> Valid(Merge(name, envUrl, defaultUrl, options))
  {
    var c := Merge(name, envUrl, defaultUrl, options);
    match ValidateServiceConfig(c)
    case None => Success(c)
    case Some(e) => Failure(e)
  }

  /** With no overrides, a well-formed URL and a real name, construction succeeds with every default. */
  lemma DefaultsAreValid(name: string, envUrl: Option<string>, defaultUrl: string)
    requires !IsBlank(name)
    requires MatchesUrlPattern(ChooseUrl(envUrl, defaultUrl))
    ensures CreateServiceConfig(name, envUrl, defaultUrl, NoOverrides).Success?
    ensures var c := CreateServiceConfig(name, envUrl, defaultUrl, NoOverrides).value;
            c.healthPath == "/health" && c.timeout == 5000 && c.retries == 3 && c.enabled == Some(true)
  {
  }

  // ---------------------------------------------------------------------
  // The registry
  // ---------------------------------------------------------------------

  /** One property of `servicesConfig`, in definition order. */
  datatype Entry = Entry(key: string, config: ServiceConfig)

  type Registry = seq<Entry>

  predicate DistinctKeys(reg: Registry) {
    forall i, j :: 0 <= i < j < |reg| ==> reg[i].key != reg[j].key
  }

  /**
   * The members every plain object inherits from `Object.prototype`; `obj[key]`
   * and `key in obj` find them too when `obj` has no own property of that name.
   */
  const ObjectPrototypeKeys: seq<string> :=
    ["constructor", "hasOwnProperty", "isPrototypeOf", "propertyIsEnumerable",
     "toLocaleString", "toString", "valueOf", "__proto__",
     "__defineGetter__", "__defineSetter__", "__lookupGetter__", "__lookupSetter__"]

  predicate InKeys(key: string, keys: seq<string>)
    decreases |keys|
  {
    keys != [] && (keys[0] == key || InKeys(key, keys[1..]))
  }

  predicate IsInheritedKey(key: string) { InKeys(key, ObjectPrototypeKeys) }

  predicate StartsWithNonSpace(key: string) { key != [] && !IsJsWhitespace(key[0]) }

  lemma {:induction false} InKeysStartsWithNonSpace(key: string, keys: seq<string>)
    requires forall j :: 0 <= j < |keys| ==> StartsWithNonSpace(keys[j])
    requires InKeys(key, keys)
    ensures StartsWithNonSpace(key)
  {
    if keys[0] != key {
      InKeysStartsWithNonSpace(key, keys[1..]);
    }
  }

  /** No inherited member has a blank name. */
  lemma InheritedKeyNotBlank(key: string)
    requires IsInheritedKey(key)
    ensures !IsBlank(key)
  {
    InKeysStartsWithNonSpace(key, ObjectPrototypeKeys);
    NotBlank(key);
  }

  /**
   * What `servicesConfig[key]` yields: an own service descriptor, or an
   * inherited member (a function, or the prototype itself for `__proto__`),
   * which is truthy but has neither `url` nor `enabled`.
   */
  datatype Property = Own(config: ServiceConfig) | Inherited(name: string)

  /** `${property.url}`: an inherited member has no `url`, which renders as `undefined`. */
  function UrlText(p: Property): string {
    match p
    case Own(c) => c.url
    case Inherited(_) => "undefined"
  }

  /**
   * `servicesConfig[key]`: an own property when one has the key, else the
   * inherited member of that name, if `Object.prototype` has one.
   */
  function Lookup(reg: Registry, key: string): (r: Option<Property>)
    ensures r.Some? <==> (exists i :: 0 <= i < |reg| && reg[i].key == key) || IsInheritedKey(key)
    ensures r.Some? && r.value.Own? ==> exists i :: 0 <= i < |reg| && reg[i] == Entry(key, r.value.config)
    ensures (exists i :: 0 <= i < |reg| && reg[i].key == key) ==> r.Some? && r.value.Own?
    ensures r.Some? && r.value.Inherited? ==> r.value.name == key && IsInheritedKey(key)
  {
    if reg == [] then (if IsInheritedKey(key) then Some(Inherited(key)) else None)
    else if reg[0].key == key then Some(Own(reg[0].config))
    else
      var r := Lookup(reg[1..], key);
      assert forall i :: 1 <= i < |reg| ==> reg[i] == reg[1..][i - 1];
      assert r.Some? && r.value.Own? ==> exists i :: 0 <= i < |reg[1..]| && reg[1..][i] == Entry(key, r.value.config);
      r
  }

  lemma {:induction false} LookupFinds(reg: Registry, i: nat)
    requires DistinctKeys(reg) && i < |reg|
    ensures Lookup(reg, reg[i].key) == Some(Own(reg[i].config))
  {
    if i > 0 {
      assert reg[0].key != reg[i].key;
      LookupFinds(reg[1..], i - 1);
    }
  }

  /** The registry built at start-up: auth, then user; the first construction error stops it. */
  function LoadServicesConfig(authUrl: Option<string>, userUrl: Option<string>): (r: Result<Registry, ConfigError>)
    ensures var auth := CreateServiceConfig("Auth Service", authUrl, "http://localhost:6001", NoOverrides);
            var user := CreateServiceConfig("User Service", userUrl, "http://localhost:6002", NoOverrides);
            && (r.Success? <==> auth.Success? && user.Success?)
            && (r.Success? ==> r.value == [Entry("auth", auth.value), Entry("user", user.value)])
            && (r.Failure? ==> r.error == if auth.Failure? then auth.error else user.error)
    ensures r.Success? ==> |r.value| == 2 && r.value[0].key == "auth" && r.value[1].key == "user"
    ensures r.Success? ==> Valid(r.value[0].config) && Valid(r.value[1].config)
  {
    var auth := CreateServiceConfig("Auth Service", authUrl, "http://localhost:6001", NoOverrides);
    var user := CreateServiceConfig("User Service", userUrl, "http://localhost:6002", NoOverrides);
    if auth.Failure? then Failure(auth.error)
    else if user.Failure? then Failure(user.error)
    else Success([Entry("auth", auth.value), Entry("user", user.value)])
  }

  /** A name that starts with a non-whitespace character is not blank. */
  lemma NotBlank(s: string)
    requires s != [] && !IsJsWhitespace(s[0])
    ensures !IsBlank(s)
  {
    BlankIffAllWhitespace(s);
  }

  /** Without configured URLs both services start on their localhost defaults. */
  lemma DefaultRegistryLoads()
    ensures LoadServicesConfig(None, None).Success?
    ensures LoadServicesConfig(None, None).value[0].config.url == "http://localhost:6001"
    ensures LoadServicesConfig(None, None).value[1].config.url == "http://localhost:6002"
  {
    DefaultServiceLoads("Auth Service", "http://localhost:6001");
    DefaultServiceLoads("User Service", "http://localhost:6002");
  }

  lemma DefaultServiceLoads(name: string, url: string)
    requires name != [] && !IsJsWhitespace(name[0])
    requires |url| > 7 && url[..7] == "http://" && !IsLineTerminator(url[7])
    ensures CreateServiceConfig(name, None, url, NoOverrides).Success?
    ensures CreateServiceConfig(name, None, url, NoOverrides).value.url == url
  {
    NotBlank(name);
  }

  /** A malformed primary URL stops start-up rather than falling back. */
  lemma MalformedAuthUrlStopsLoad(authUrl: string, userUrl: Option<string>)
    requires authUrl != "" && !MatchesUrlPattern(authUrl)
    ensures LoadServicesConfig(Some(authUrl), userUrl) == Failure(InvalidUrl("Auth Service"))
  {
    NotBlank("Auth Service");
  }

  /** getServiceConfig: blank names are refused, others looked up. */
  function GetServiceConfig(reg: Registry, serviceName: string): (r: Option<Property>)
    ensures IsBlank(serviceName) ==> r.None?
    ensures !IsBlank(serviceName) ==> r == Lookup(reg, serviceName)
  {
    if IsBlank(serviceName) then None else Lookup(reg, serviceName)
  }

  /** hasService: `key in servicesConfig`, without the blank-name guard. */
  function HasService(reg: Registry, serviceName: string): (b: bool)
    ensures b <==> (exists i :: 0 <= i < |reg| && reg[i].key == serviceName) || IsInheritedKey(serviceName)
  {
    Lookup(reg, serviceName).Some?
  }

  lemma HasServiceAgreesWithLookup(reg: Registry, serviceName: string)
    requires !IsBlank(serviceName)
    ensures HasService(reg, serviceName) <==> GetServiceConfig(reg, serviceName).Some?
  {
  }

  /** getAllServices: `Object.values(servicesConfig)`. */
  function GetAllServices(reg: Registry): (all: seq<ServiceConfig>)
    ensures |all| == |reg|
    ensures forall i :: 0 <= i < |reg| ==> all[i] == reg[i].config
  {
    if reg == [] then [] else [reg[0].config] + GetAllServices(reg[1..])
  }

  /** `enabled !== false`: an undefined flag counts as active. */
  predicate IsActive(c: ServiceConfig) { c.enabled != Some(false) }

  /** `filter(s => s.enabled !== false)`, keeping order. */
  function ActiveOf(s: seq<ServiceConfig>): (r: seq<ServiceConfig>)
    ensures |r| <= |s|
    ensures forall c :: c in r <==> c in s && IsActive(c)
  {
    if s == [] then []
    else if IsActive(s[0]) then [s[0]] + ActiveOf(s[1..])
    else ActiveOf(s[1..])
  }

  /** getActiveServices. */
  function GetActiveServices(reg: Registry): seq<ServiceConfig> {
    ActiveOf(GetAllServices(reg))
  }

  /** The filter distributes over concatenation, so relative order is kept. */
  lemma {:induction false} ActiveOfAppend(a: seq<ServiceConfig>, b: seq<ServiceConfig>)
    ensures ActiveOf(a + b) == ActiveOf(a) + ActiveOf(b)
  {
    if a != [] {
      assert (a + b)[0] == a[0];
      assert (a + b)[1..] == a[1..] + b;
      ActiveOfAppend(a[1..], b);
      if IsActive(a[0]) {
        assert ActiveOf(a + b) == [a[0]] + ActiveOf(a[1..] + b);
      } else {
        assert ActiveOf(a + b) == ActiveOf(a[1..] + b);
      }
    } else {
      assert a + b == b;
    }
  }

  /** Exactly the `enabled: false` entries are removed. */
  lemma {:induction false} ActiveDropsOnlyDisabled(s: seq<ServiceConfig>)
    ensures |ActiveOf(s)| == |s| - |DisabledOf(s)|
    ensures forall c :: c in DisabledOf(s) <==> c in s && c.enabled == Some(false)
  {
    if s != [] {
      ActiveDropsOnlyDisabled(s[1..]);
    }
  }

  function DisabledOf(s: seq<ServiceConfig>): seq<ServiceConfig> {
    if s == [] then []
    else if !IsActive(s[0]) then [s[0]] + DisabledOf(s[1..])
    else DisabledOf(s[1..])
  }

  lemma {:induction false} ActiveOfIdempotent(s: seq<ServiceConfig>)
    ensures ActiveOf(ActiveOf(s)) == ActiveOf(s)
  {
    if s != [] {
      ActiveOfIdempotent(s[1..]);
    }
  }

  /** When nothing is disabled the active list is the full list. */
  lemma {:induction false} NoneDisabledAllActive(s: seq<ServiceConfig>)
    requires forall i :: 0 <= i < |s| ==> s[i].enabled != Some(false)
    ensures ActiveOf(s) == s
  {
    if s != [] {
      NoneDisabledAllActive(s[1..]);
      assert [s[0]] + s[1..] == s;
    }
  }

  /** `path.startsWith("/") ? path : "/" + path`. */
  function CleanPath(path: string): (p: string)
    ensures StartsWith(p, "/")
    ensures StartsWith(path, "/") ==> p == path
    ensures !StartsWith(path, "/") ==> p == "/" + path
  {
    if StartsWith(path, "/") then path else "/" + path
  }

  /** getServiceUrl; `path` is undefined when the caller leaves it out (default `""`). */
  function GetServiceUrl(reg: Registry, serviceName: string, path: Option<string>): (r: Option<string>)
    ensures r.None? <==> GetServiceConfig(reg, serviceName).None?
    ensures r.Some? ==> r.value == UrlText(GetServiceConfig(reg, serviceName).value) + CleanPath(path.GetOr(""))
  {
    match GetServiceConfig(reg, serviceName)
    case None => None
    case Some(c) => Some(UrlText(c) + CleanPath(path.GetOr("")))
  }

  /** A name only `Object.prototype` supplies still yields a URL, one that starts with `undefined`. */
  lemma InheritedNameGivesUndefinedUrl(reg: Registry, serviceName: string, path: Option<string>)
    requires IsInheritedKey(serviceName)
    requires forall i :: 0 <= i < |reg| ==> reg[i].key != serviceName
    ensures HasService(reg, serviceName)
    ensures GetServiceUrl(reg, serviceName, path) == Some("undefined" + CleanPath(path.GetOr("")))
  {
    InheritedKeyNotBlank(serviceName);
  }

  /** `"x"` and `"/x"` give the same URL. */
  lemma ServiceUrlSlashInsensitive(reg: Registry, serviceName: string, x: string)
    requires !StartsWith(x, "/")
    ensures GetServiceUrl(reg, serviceName, Some(x)) == GetServiceUrl(reg, serviceName, Some("/" + x))
  {
    assert ("/" + x)[..1] == "/";
  }

  /** The default path gives the base URL followed by `/`. */
  lemma ServiceUrlDefaultPath(reg: Registry, serviceName: string)
    requires GetServiceConfig(reg, serviceName).Some?
    ensures GetServiceUrl(reg, serviceName, None) == Some(UrlText(GetServiceConfig(reg, serviceName).value) + "/")
  {
    assert !StartsWith("", "/");
    assert CleanPath("") == "/";
  }
}
