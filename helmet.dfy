/**
 * The options createHelmetMiddleware (packages/service/middleware/helmet.ts)
 * hands to `helmet`: the Content-Security-Policy source lists, the
 * Cross-Origin-Embedder-Policy switch and Strict-Transport-Security
 * (section 6.1 of RFC 6797: `max-age` in seconds, `includeSubDomains`,
 * and the `preload` token).
 */
module Helmet {

  import opened Wrappers

  /** `HelmetCSPOptions`; an omitted member is `None`. */
  datatype HelmetOptions = HelmetOptions(
    enableScalar: Option<bool>,
    allowedScriptSources: Option<seq<string>>,
    allowedStyleSources: Option<seq<string>>,
    allowedConnectSources: Option<seq<string>>,
    contentSecurityPolicy: Option<bool>,
    crossOriginEmbedderPolicy: Option<bool>,
    nodeEnv: Option<string>)

  const NoOptions := HelmetOptions(None, None, None, None, None, None, None)

  datatype Directives = Directives(
    defaultSrc: seq<string>,
    scriptSrc: seq<string>,
    styleSrc: seq<string>,
    fontSrc: seq<string>,
    imgSrc: seq<string>,
    connectSrc: seq<string>,
    objectSrc: seq<string>,
    frameAncestors: seq<string>,
    baseUri: seq<string>,
    formAction: seq<string>,
    upgradeInsecureRequests: seq<string>)

  datatype Hsts = Hsts(maxAge: nat, includeSubDomains: bool, preload: bool)

  /** `false` for a header helmet leaves out is `None` (CSP, HSTS) or `false` (COEP). */
  datatype HelmetConfig = HelmetConfig(
    contentSecurityPolicy: Option<Directives>,
    crossOriginEmbedderPolicy: bool,
    crossOriginResourcePolicy: string,
    hsts: Option<Hsts>)

  const Self := "'self'"
  const OneYearSeconds := 31536000

  const ScalarScriptSources: seq<string> :=
    ["'unsafe-inline'", "'unsafe-eval'", "https://cdn.jsdelivr.net", "https://cdnjs.cloudflare.com"]
  const ScalarStyleSources: seq<string> :=
    ["'unsafe-inline'", "https://cdn.jsdelivr.net", "https://fonts.googleapis.com"]
  const ScalarFontSources: seq<string> := ["https://fonts.gstatic.com", "https://cdn.jsdelivr.net"]
  const ScalarImgSources: seq<string> := ["https:"]
  const ScalarConnectSources: seq<string> := ["https://cdn.jsdelivr.net"]

  /** `enableScalar = true`: only an omitted flag takes the default. */
  function ScalarEnabled(o: HelmetOptions): bool { o.enableScalar.GetOr(true) }

  /** `nodeEnv = process.env.NODE_ENV || 'development'`, applied only when the option is omitted. */
  function EffectiveNodeEnv(o: HelmetOptions, processNodeEnv: Option<string>): string {
    if o.nodeEnv.Some? then o.nodeEnv.value
    else if processNodeEnv.Some? && processNodeEnv.value != "" then processNodeEnv.value
    else "development"
  }

  function Extra(enabled: bool, sources: seq<string>): seq<string> {
    if enabled then sources else []
  }

  /** The configuration the source computes, written as one expression per member. */
  function HelmetConfigOf(o: HelmetOptions, processNodeEnv: Option<string>): HelmetConfig {
    var scalar := ScalarEnabled(o);
    var dirs := Directives(
      [Self],
      [Self] + Extra(scalar, ScalarScriptSources) + o.allowedScriptSources.GetOr([]),
      [Self] + Extra(scalar, ScalarStyleSources) + o.allowedStyleSources.GetOr([]),
      [Self, "data:"] + Extra(scalar, ScalarFontSources),
      [Self, "data:", "blob:"] + Extra(scalar, ScalarImgSources),
      [Self] + Extra(scalar, ScalarConnectSources) + o.allowedConnectSources.GetOr([]),
      ["'none'"], ["'none'"], [Self], [Self], []);
    HelmetConfig(
      if o.contentSecurityPolicy.GetOr(true) then Some(dirs) else None,
      if scalar then false else o.crossOriginEmbedderPolicy.GetOr(true),
      "cross-origin",
      if EffectiveNodeEnv(o, processNodeEnv) == "development" then None
      else Some(Hsts(OneYearSeconds, true, true)))
  }

  /**
   * createHelmetMiddleware: the base lists start fixed, take the Scalar CDN
   * sources by `push` when enableScalar holds, and then the custom sources
   * are spread after them.
   */
  method CreateHelmetConfig(o: HelmetOptions, processNodeEnv: Option<string>) returns (cfg: HelmetConfig)
    ensures cfg == HelmetConfigOf(o, processNodeEnv)
  {
    var enableScalar := o.enableScalar.GetOr(true);
    var allowedScriptSources := o.allowedScriptSources.GetOr([]);
    var allowedStyleSources := o.allowedStyleSources.GetOr([]);
    var allowedConnectSources := o.allowedConnectSources.GetOr([]);
    var nodeEnv := EffectiveNodeEnv(o, processNodeEnv);
    var isDevelopment := nodeEnv == "development";

    var baseScriptSrc := [Self];
    var baseStyleSrc := [Self];
    var baseFontSrc := [Self, "data:"];
    var baseImgSrc := [Self, "data:", "blob:"];
    var baseConnectSrc := [Self];

    if enableScalar {
      baseScriptSrc := baseScriptSrc + ScalarScriptSources;
      baseStyleSrc := baseStyleSrc + ScalarStyleSources;
      baseFontSrc := baseFontSrc + ScalarFontSources;
      baseImgSrc := baseImgSrc + ScalarImgSources;
      baseConnectSrc := baseConnectSrc + ScalarConnectSources;
    }
    assert baseScriptSrc == [Self] + Extra(enableScalar, ScalarScriptSources);
    assert baseStyleSrc == [Self] + Extra(enableScalar, ScalarStyleSources);
    assert baseFontSrc == [Self, "data:"] + Extra(enableScalar, ScalarFontSources);
    assert baseImgSrc == [Self, "data:", "blob:"] + Extra(enableScalar, ScalarImgSources);
    assert baseConnectSrc == [Self] + Extra(enableScalar, ScalarConnectSources);

    var scriptSrc := baseScriptSrc + allowedScriptSources;
    var styleSrc := baseStyleSrc + allowedStyleSources;
    var connectSrc := baseConnectSrc + allowedConnectSources;

    var csp: Option<Directives> := None;
    if o.contentSecurityPolicy.GetOr(true) {
      csp := Some(Directives([Self], scriptSrc, styleSrc, baseFontSrc, baseImgSrc, connectSrc,
        ["'none'"], ["'none'"], [Self], [Self], []));
    }
    var coep := if enableScalar then false else o.crossOriginEmbedderPolicy.GetOr(true);
    var hsts: Option<Hsts> := if isDevelopment then None else Some(Hsts(OneYearSeconds, true, true));
    cfg := HelmetConfig(csp, coep, "cross-origin", hsts);
  }

  /** CSP is turned off exactly when the option is `false`; an omitted option keeps it on. */
  lemma CspOffIffFalse(o: HelmetOptions, env: Option<string>)
    ensures HelmetConfigOf(o, env).contentSecurityPolicy.None? <==> o.contentSecurityPolicy == Some(false)
  {
  }

  /** COEP is off whenever Scalar is enabled (the default), else it follows the option, defaulting to on. */
  lemma CoepRule(o: HelmetOptions, env: Option<string>)
    ensures ScalarEnabled(o) ==> !HelmetConfigOf(o, env).crossOriginEmbedderPolicy
    ensures !ScalarEnabled(o) ==> HelmetConfigOf(o, env).crossOriginEmbedderPolicy == (o.crossOriginEmbedderPolicy != Some(false))
  {
  }

  /** HSTS is off exactly in development; otherwise one year, with subdomains and preload. */
  lemma HstsRule(o: HelmetOptions, env: Option<string>)
    ensures HelmetConfigOf(o, env).hsts.None? <==> EffectiveNodeEnv(o, env) == "development"
    ensures HelmetConfigOf(o, env).hsts.Some? ==>
      HelmetConfigOf(o, env).hsts.value == Hsts(365 * 24 * 60 * 60, true, true)
  {
  }

  /** The fixed directives are the same whatever the options. */
  lemma FixedDirectives(o: HelmetOptions, env: Option<string>)
    requires HelmetConfigOf(o, env).contentSecurityPolicy.Some?
    ensures var d := HelmetConfigOf(o, env).contentSecurityPolicy.value;
      d.defaultSrc == [Self] && d.objectSrc == ["'none'"] && d.frameAncestors == ["'none'"] &&
      d.baseUri == [Self] && d.formAction == [Self] && d.upgradeInsecureRequests == []
  {
  }

  /**
   * Script, style and connect lists are the base, then the Scalar sources
   * when enabled, then the custom ones in their order; font and image lists
   * never take custom sources.
   */
  lemma SourceListsLayout(o: HelmetOptions, env: Option<string>)
    requires HelmetConfigOf(o, env).contentSecurityPolicy.Some?
    ensures var d := HelmetConfigOf(o, env).contentSecurityPolicy.value;
      var k := if ScalarEnabled(o) then |ScalarScriptSources| else 0;
      d.scriptSrc[..1] == [Self] && d.scriptSrc[1 + k..] == o.allowedScriptSources.GetOr([])
    ensures var d := HelmetConfigOf(o, env).contentSecurityPolicy.value;
      var k := if ScalarEnabled(o) then |ScalarStyleSources| else 0;
      d.styleSrc[..1] == [Self] && d.styleSrc[1 + k..] == o.allowedStyleSources.GetOr([])
    ensures var d := HelmetConfigOf(o, env).contentSecurityPolicy.value;
      var k := if ScalarEnabled(o) then |ScalarConnectSources| else 0;
      d.connectSrc[..1] == [Self] && d.connectSrc[1 + k..] == o.allowedConnectSources.GetOr([])
    ensures var d := HelmetConfigOf(o, env).contentSecurityPolicy.value;
      d.scriptSrc == [Self] + (if ScalarEnabled(o) then ScalarScriptSources else []) + o.allowedScriptSources.GetOr([]) &&
      d.styleSrc == [Self] + (if ScalarEnabled(o) then ScalarStyleSources else []) + o.allowedStyleSources.GetOr([]) &&
      d.connectSrc == [Self] + (if ScalarEnabled(o) then ScalarConnectSources else []) + o.allowedConnectSources.GetOr([])
    ensures var d := HelmetConfigOf(o, env).contentSecurityPolicy.value;
      d.fontSrc == [Self, "data:"] + Extra(ScalarEnabled(o), ScalarFontSources) &&
      d.imgSrc == [Self, "data:", "blob:"] + Extra(ScalarEnabled(o), ScalarImgSources)
  {
  }

  /** Without Scalar the lists are exactly the base ones plus the custom sources. */
  lemma NoScalarNoCdn(o: HelmetOptions, env: Option<string>)
    requires o.enableScalar == Some(false) && o.contentSecurityPolicy != Some(false)
    ensures var d := HelmetConfigOf(o, env).contentSecurityPolicy.value;
      d.scriptSrc == [Self] + o.allowedScriptSources.GetOr([]) &&
      d.fontSrc == [Self, "data:"] && d.imgSrc == [Self, "data:", "blob:"]
  {
  }

  /** strictHelmetMiddleware: no Scalar, production. */
  const StrictOptions := HelmetOptions(Some(false), None, None, None, None, None, Some("production"))
  /** devHelmetMiddleware: Scalar, development. */
  const DevOptions := HelmetOptions(Some(true), None, None, None, None, None, Some("development"))

  /** The strict preset embeds nothing cross-origin and always sends HSTS; the dev preset sends no HSTS. */
  lemma Presets(env: Option<string>)
    ensures HelmetConfigOf(StrictOptions, env).crossOriginEmbedderPolicy
    ensures HelmetConfigOf(StrictOptions, env).hsts == Some(Hsts(OneYearSeconds, true, true))
    ensures HelmetConfigOf(StrictOptions, env).contentSecurityPolicy.value.scriptSrc == [Self]
    ensures !HelmetConfigOf(DevOptions, env).crossOriginEmbedderPolicy
    ensures HelmetConfigOf(DevOptions, env).hsts.None?
  {
  }
}
