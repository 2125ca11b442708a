/**
 * The CORS policy (packages/service/config/cors.ts): which request origins
 * are allowed, and the fixed list of methods. The callback's two arguments
 * are returned as a value.
 */
module Cors {

  import opened Wrappers

  /** `callback(null, true)` or `callback(new Error(message), false)`. */
  datatype OriginVerdict = Allowed | Rejected(message: string)

  predicate OriginAllowed(nodeEnv: string, origin: Option<string>, whitelist: seq<string>) {
    nodeEnv == "development" || origin.None? || origin.value == "" || origin.value in whitelist
  }

  /** The `origin` callback: development, a missing or empty origin, or a whitelisted one is allowed. */
  function CheckOrigin(nodeEnv: string, origin: Option<string>, whitelist: seq<string>): (v: OriginVerdict)
    ensures v.Allowed? <==> OriginAllowed(nodeEnv, origin, whitelist)
    ensures v.Rejected? ==> origin.Some? && v.message == "CORS Error : " + origin.value + " is not allowed"
  {
    if nodeEnv == "development" || origin.None? || origin.value == "" || origin.value in whitelist then Allowed
    else Rejected("CORS Error : " + origin.value + " is not allowed")
  }

  /** Enlarging the whitelist never turns an allowed origin into a rejected one. */
  lemma WhitelistMonotone(nodeEnv: string, origin: Option<string>, small: seq<string>, large: seq<string>)
    requires forall o :: o in small ==> o in large
    requires CheckOrigin(nodeEnv, origin, small).Allowed?
    ensures CheckOrigin(nodeEnv, origin, large).Allowed?
  {
  }

  /** Outside development, a non-empty origin is allowed exactly when it is whitelisted. */
  lemma ProductionNeedsWhitelist(nodeEnv: string, origin: string, whitelist: seq<string>)
    requires nodeEnv != "development" && origin != ""
    ensures CheckOrigin(nodeEnv, Some(origin), whitelist).Allowed? <==> origin in whitelist
  {
  }

  datatype CorsOptions = CorsOptions(methods: seq<string>, credentials: bool)

  const AllowedMethods: seq<string> := ["GET", "POST", "PUT", "DELETE", "PATCH"]

  /** The options handed to `cors`: the fixed methods and the configured credentials flag. */
  function CreateCorsOptions(credentials: bool): (o: CorsOptions)
    ensures o.credentials == credentials
    ensures |o.methods| == 5 && forall m :: m in o.methods <==> m in {"GET", "POST", "PUT", "DELETE", "PATCH"}
  {
    CorsOptions(AllowedMethods, credentials)
  }
}
