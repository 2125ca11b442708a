# Gateway routing, shared service helpers and auth middleware, in Dafny

This project models the request-path logic of a TypeScript microservice monorepo:

- **The API gateway's service registry** (`services/gateway/src/config/services.ts`): building service descriptors, validating them, looking them up, filtering the active ones, and joining URLs.
- **The gateway's proxy router** (`services/gateway/src/routes/proxy.ts`), in six parts:
  - the root and health middleware;
  - per-service registration with a path-rewrite rule;
  - the request and response hooks of the proxy;
  - the socket-error mapping;
  - the 404 handler and the router's global error handler;
  - the order in which Express runs them.
- **The shared service package**:
  - response envelopes, `sanitizeInput`, OTP and UID generation, and `formatTime`;
  - the Zod-issue formatter and the CORS origin callback;
  - the helmet option computation;
  - the error and health-check middleware and the `ServiceError` class;
  - the logger's plain line format, its meta merging, and its status-to-level rules.
- **The auth service's middleware**: the Arcjet decision cascades and `verifySession`.

## Approach

Code that only computes a value is written as datatypes and functions. Code that changes state is written imperatively:

- The Express response is a `class` whose one write succeeds only once (`Express.Response.Send`). Every handler that writes and then still calls `next()` can therefore be checked against the `headersSent` rule: the first reply wins, and a second write throws `ERR_HTTP_HEADERS_SENT`.
- The request http-proxy forwards (`Proxy.ProxyRequest`) and the backend's response (`Proxy.ProxyResponse`) are classes too. Their mutable header maps are changed by the hooks.
- The router's middleware stack is a class (`ProxyRouter.Router`). `router.use` appends to it.
- `ProxyRouter.Dispatch` walks the stack as Express does. It is proved equal to a functional run (`ProxyRouter.Run`), and the lemmas about routing order are stated about that run.

## Inputs

Randomness, clocks, and calls into code that is not part of the model become parameters:

- UUIDs, `Date.now()`, `process.uptime()` (whole seconds) and ISO timestamps (opaque strings);
- `JSON.stringify` (an abstract `Json -> string` function);
- the backend reached through the proxy (an abstract `Outgoing -> Upstream` function);
- the outcome of `schema.parse`, Arcjet's `protect` and better-auth's `getSession`.

`proxy.ts` reads four things that `services.ts` never defines:

- `SERVICE_DEFINITIONS`, which becomes the `ProxyRouter.ServiceDefinition` list passed to the router;
- `displayName` and `proxyPath`, which become optional fields of `Services.ServiceConfig` that the descriptor builder leaves unset;
- `servicePath`.

Three settings the model takes as parameters are not set by the env modules it reads:

- `config.STARTING_NUMBER` (uid-generator.ts:22) is not defined in packages/service/config/env.ts, which holds only the CORS settings. As written, `parseInt` then reads `undefined`, and the no-latest-ID branch pads `NaN` (UnparsableStartingNumberGivesNaN, UndefinedParsesToNaN).
- `ARCJET_ENV` (arcjet.ts:14) is not defined in services/auth/src/config/env.ts, so as written the mode is always DRY_RUN.
- `USER_SERVICE_URL` (services.ts:59) is not defined in services/gateway/src/config/env.ts, so as written the user service always takes its localhost default.

## Model

| member | source | states |
|---|---|---|
| Services.ValidateServiceConfig | services/gateway/src/config/services.ts:16-29 | accepts exactly the valid configs. The checks run name, URL, timeout, retries, and each error is returned exactly when its check is the first to fail. |
| Services.WhitespaceNameRejected | services/gateway/src/config/services.ts:17-19 | a name made only of whitespace is rejected with the empty-name error |
| Services.ChooseUrl | services/gateway/src/config/services.ts:39 | `envUrl` when it is non-empty, else `defaultUrl` |
| Services.Merge | services/gateway/src/config/services.ts:37-45 | each field is the override when one is given, else the default: `/health`, 5000, 3, enabled true, URL from ChooseUrl |
| Services.CreateServiceConfig | services/gateway/src/config/services.ts:31-49 | succeeds exactly when the merged config is valid and then returns it. On failure, the error is the one validation reports. |
| Services.DefaultsAreValid | services/gateway/src/config/services.ts:37-48 | with no overrides, a non-blank name and a well-formed URL, creation succeeds with the documented defaults |
| Services.LoadServicesConfig | services/gateway/src/config/services.ts:51-62 | loads exactly when both createServiceConfig calls succeed, and then holds `auth` and `user`, in that order, with exactly their results. Otherwise the error is the first failing call's (auth before user). |
| Services.DefaultRegistryLoads | services/gateway/src/config/services.ts:51-62 | without environment URLs, the registry loads with the localhost:6001 and localhost:6002 defaults |
| Services.DefaultServiceLoads | services/gateway/src/config/services.ts:31-49 | any non-blank name with an `http://` URL that has a host character creates successfully and keeps that URL |
| Services.MalformedAuthUrlStopsLoad | services/gateway/src/config/services.ts:20-22 | a non-empty auth URL that fails the URL pattern makes the whole load fail with that service's URL error |
| Services.Lookup | services/gateway/src/config/services.ts:71 | finds something exactly when some entry has the key or the key is inherited from `Object.prototype`. An own entry comes first, and what it returns is stored under that key; an inherited member is returned only for an inherited key. |
| Services.LookupFinds | services/gateway/src/config/services.ts:71 | with distinct keys, each entry is found, as an own property, under its own key |
| Services.InheritedKeyNotBlank | services/gateway/src/config/services.ts:67 | no inherited member's name is blank, so the blank-name guard never hides one |
| Services.GetServiceConfig | services/gateway/src/config/services.ts:64-72 | a blank name gives nothing; any other name gives what `servicesConfig[name]` finds, inherited members included |
| Services.HasService | services/gateway/src/config/services.ts:85-87 | true exactly when some entry has the key or the key is inherited from `Object.prototype`, blank keys included |
| Services.HasServiceAgreesWithLookup | services/gateway/src/config/services.ts:64-87 | for non-blank names, `hasService` and `getServiceConfig` agree |
| Services.GetAllServices | services/gateway/src/config/services.ts:74-76 | the configs in registry order, one per entry |
| Services.ActiveOf | services/gateway/src/config/services.ts:78-83 | keeps exactly the configs whose `enabled` is not `false` |
| Services.ActiveOfAppend | services/gateway/src/config/services.ts:79-82 | the filter distributes over concatenation, so relative order is kept |
| Services.ActiveDropsOnlyDisabled | services/gateway/src/config/services.ts:79-82 | the active list is the full list minus exactly the `enabled === false` entries |
| Services.ActiveOfIdempotent | services/gateway/src/config/services.ts:78-83 | filtering twice is filtering once |
| Services.NoneDisabledAllActive | services/gateway/src/config/services.ts:81 | with no explicit `false`, every config (undefined `enabled` included) is active |
| Services.CleanPath | services/gateway/src/config/services.ts:96 | the result starts with `/`; a path that already has one is kept |
| Services.GetServiceUrl | services/gateway/src/config/services.ts:89-98 | undefined exactly for what getServiceConfig does not find; otherwise the `url` text (`undefined` for an inherited member) followed by the cleaned path |
| Services.InheritedNameGivesUndefinedUrl | services/gateway/src/config/services.ts:85-97 | a name such as `toString` or `__proto__` that only `Object.prototype` supplies counts as a service and yields `undefined` followed by the cleaned path |
| Services.ServiceUrlSlashInsensitive | services/gateway/src/config/services.ts:96-97 | `x` and `/x` give the same URL |
| Services.ServiceUrlDefaultPath | services/gateway/src/config/services.ts:91-97 | the default path gives the URL followed by `/` |
| Proxy.GetErrorMessage | services/gateway/src/routes/proxy.ts:128-140 | the four socket codes get their own texts. Every other or missing code gets the default text, and only those codes do. |
| Proxy.ProxyStatus | services/gateway/src/routes/proxy.ts:105 | `err.statusCode` when truthy, else 503 |
| Proxy.ProxyErrorDocument | services/gateway/src/routes/proxy.ts:118-124 | the error document has success false, `Service Unavailable`, the mapped message, the display name when defined, and the timestamp, with unique keys |
| Proxy.HandleProxyError | services/gateway/src/routes/proxy.ts:99-126 | writes the error reply only when nothing has been sent, and otherwise leaves the response untouched |
| Proxy.ProxyRequest.constructor | services/gateway/src/routes/proxy.ts:173 | a fresh outgoing request has no headers and no body bytes |
| Proxy.ProxyRequest.SetHeader | services/gateway/src/routes/proxy.ts:185-189 | sets one header and leaves the written bytes alone |
| Proxy.ProxyRequest.Write | services/gateway/src/routes/proxy.ts:190 | appends the UTF-8 bytes of the text and leaves the headers alone |
| Proxy.ProxyRequest.OnProxyReq | services/gateway/src/routes/proxy.ts:183-190 | forwards a body only for a truthy body on POST, PUT or PATCH, setting the JSON type and byte-length headers and writing the serialised bytes. It changes nothing otherwise. |
| Proxy.DeclaredLengthIsWrittenLength | services/gateway/src/routes/proxy.ts:186-190 | the declared Content-Length reads back as the number of bytes written (section 8.6 of RFC 9110), and those bytes decode back to the serialised text (RFC 3629) |
| Proxy.Duration | services/gateway/src/routes/proxy.ts:201 | now minus a truthy start time, else 0 |
| Proxy.ResponseTimeReadsBack | services/gateway/src/routes/proxy.ts:219 | `${duration}ms` reads back with `parseInt` as the duration |
| Proxy.TaggedHeaders | services/gateway/src/routes/proxy.ts:217-219 | adds exactly the three observability headers with their values and keeps every other header |
| Proxy.ProxyLogLevel | services/gateway/src/routes/proxy.ts:202-205 | error for status 500 and up, warn for 400 to 499, info below 400, with a missing status taken as 0 |
| Proxy.ProxyLogLevelMonotone | services/gateway/src/routes/proxy.ts:204-205 | a higher status never gets a less severe level |
| Proxy.ProxyResponse.constructor | services/gateway/src/routes/proxy.ts:200 | the backend response keeps its status and headers |
| Proxy.ProxyResponse.OnProxyRes | services/gateway/src/routes/proxy.ts:200-220 | tags the headers in place with the service name and duration, keeps the status, and returns the level for that status |
| Proxy.RewritePath | services/gateway/src/routes/proxy.ts:253 | replaces a leading prefix with the replacement, keeping the rest, and leaves other paths unchanged |
| Proxy.RewriteRoundTrip | services/gateway/src/routes/proxy.ts:253 | rewriting back with the rule reversed restores the path |
| Proxy.MountPath | services/gateway/src/routes/proxy.ts:260 | the mount path is the prefix itself, or the prefix less one trailing `/`; a prefix that does not end in `/` is kept whole |
| Proxy.MountAtSegmentBoundary | services/gateway/src/routes/proxy.ts:260 | a mount takes a path exactly when the path continues the prefix at a segment boundary |
| Proxy.MountIgnoresTrailingSlash | services/gateway/src/routes/proxy.ts:260 | a prefix without a trailing `/` takes itself and the paths below it, and adding a trailing `/` to it changes nothing |
| Proxy.AuthMountClaims | services/gateway/src/routes/proxy.ts:260 | `/api/auth` (with or without a trailing `/`) takes `/api/auth` and `/api/auth/login`, but not `/api/authx` or `/api` |
| Proxy.Write | services/gateway/src/routes/proxy.ts:45-55 | a reply goes out only if none has; otherwise the write throws the headers-sent error |
| Proxy.RootMiddleware | services/gateway/src/routes/proxy.ts:40-56 | answers `/` with the welcome document while nothing has been sent, and calls `next()` in every case |
| Proxy.Summaries | services/gateway/src/routes/proxy.ts:64-70 | one projection per active service, in order |
| Proxy.CountEnabled | services/gateway/src/routes/proxy.ts:87 | the active count never exceeds the list length |
| Proxy.CountEnabledCounts | services/gateway/src/routes/proxy.ts:87 | the active count is the number of services whose `enabled` flag is `true` |
| Proxy.CountEnabledAll | services/gateway/src/routes/proxy.ts:86-87 | `active` equals `total` exactly when every listed service has `enabled: true` |
| Proxy.CountEnabledOfActive | services/gateway/src/routes/proxy.ts:64-87 | counting over the active list equals counting over all services |
| Proxy.HealthServices | services/gateway/src/routes/proxy.ts:63-90 | the health document is healthy, carries the uptime, and lists the active services with total and active counts, with active at most total |
| Proxy.UnsetFlagListedNotCounted | services/gateway/src/routes/proxy.ts:64-87 | a service with undefined `enabled` is listed as active but not counted in `active` |
| Proxy.HealthMiddleware | services/gateway/src/routes/proxy.ts:58-93 | answers `/health` with the health document while nothing has been sent, and calls `next()` in every case |
| Proxy.RequestTimer | services/gateway/src/routes/proxy.ts:31-38 | stamps the start time and calls `next()`, leaving the rest of the request alone |
| Proxy.ServiceProxy | services/gateway/src/routes/proxy.ts:146-224 | the proxy middleware's effect on the response is that of the proxy step: relay the tagged backend reply or take the error path, and never call `next` |
| Proxy.RouteList | services/gateway/src/routes/proxy.ts:312 | one route string per prefix, in order |
| Proxy.NotFoundDocument | services/gateway/src/routes/proxy.ts:307-314 | the 404 document says `Not Found`, echoes the original URL, and lists the given prefixes, with unique keys |
| Proxy.NotFoundHandler | services/gateway/src/routes/proxy.ts:302-315 | writes the 404 reply while nothing has been sent and ends the request |
| Proxy.GlobalErrorMessage | services/gateway/src/routes/proxy.ts:330-333 | in production the fixed text, otherwise the error's own message |
| Proxy.ProductionHidesMessage | services/gateway/src/routes/proxy.ts:326-335 | in production, two errors with the same status get identical replies whatever their messages |
| Proxy.GlobalErrorHandler | services/gateway/src/routes/proxy.ts:318-337 | writes `statusCode \|\| 500` and the error document only while nothing has been sent, and never calls `next` |
| Proxy.StepsKeepSentReply | services/gateway/src/routes/proxy.ts:45-337 | once a reply has gone out, no handler changes it |
| ProxyRouter.ServiceRoutes | services/gateway/src/routes/proxy.ts:278-284 | one route per definition, in definition order, with its key, proxy path and service path |
| ProxyRouter.Prefixes | services/gateway/src/routes/proxy.ts:312 | the path prefixes of the routes, in order |
| ProxyRouter.Registration | services/gateway/src/routes/proxy.ts:230-267 | registers nothing exactly when the service is unknown, is an inherited `Object.prototype` member (whose `enabled` is undefined), or is not enabled. Otherwise it mounts one proxy layer at the prefix with the `^prefix` rewrite. |
| ProxyRouter.Registered | services/gateway/src/routes/proxy.ts:287 | at most one layer per route, and every mounted layer is an enabled service |
| ProxyRouter.RegisteredAppend | services/gateway/src/routes/proxy.ts:287 | registration of a concatenation is the concatenation of registrations, so definition order is kept |
| ProxyRouter.GatewayStackShape | services/gateway/src/routes/proxy.ts:274-318 | the stack is root, health, the registered mounts, 404 (listing every defined prefix), error handler |
| ProxyRouter.Router.constructor | services/gateway/src/routes/proxy.ts:274 | a new router has an empty stack |
| ProxyRouter.Router.Use | services/gateway/src/routes/proxy.ts:260 | `router.use` appends one layer |
| ProxyRouter.Router.RegisterServiceProxy | services/gateway/src/routes/proxy.ts:230-267 | appends exactly what Registration gives for the route |
| ProxyRouter.RegisteredOne | services/gateway/src/routes/proxy.ts:287 | registering one more route extends the registered layers by that route's registration |
| ProxyRouter.RegisteredPrefix | services/gateway/src/routes/proxy.ts:287 | the forEach loop's step: routes up to i+1 register as routes up to i plus route i |
| ProxyRouter.RegisterAll | services/gateway/src/routes/proxy.ts:287 | the forEach loop appends the registrations of all routes, in order |
| ProxyRouter.BuildRouter | services/gateway/src/routes/proxy.ts:274-318 | the module's top-level `router.use` calls build exactly the gateway stack |
| ProxyRouter.Dispatch | services/gateway/src/routes/proxy.ts:274-337 | walking the router's stack in place has the same effect on the response, the start time and the flow as the functional run |
| ProxyRouter.RunAppend | services/gateway/src/routes/proxy.ts:274-318 | running two stacks one after the other is running their concatenation |
| ProxyRouter.RunOne | services/gateway/src/routes/proxy.ts:274-318 | a one-layer stack advances once |
| ProxyRouter.AdvanceKeepsSentReply | services/gateway/src/routes/proxy.ts:117-337 | no layer changes a reply that has already gone out |
| ProxyRouter.RunKeepsSentReply | services/gateway/src/routes/proxy.ts:45-337 | no stack changes a reply that has already gone out |
| ProxyRouter.RunPastOtherMounts | services/gateway/src/routes/proxy.ts:260 | mounts whose prefix does not match leave the request untouched |
| ProxyRouter.StackParts | services/gateway/src/routes/proxy.ts:274-318 | the stack splits as root, then health, then the rest |
| ProxyRouter.PastRootAndHealth | services/gateway/src/routes/proxy.ts:45-63 | for paths other than `/` and `/health`, root and health pass the request on unchanged |
| ProxyRouter.RootAnswersWelcome | services/gateway/src/routes/proxy.ts:40-56 | a request for `/` gets the welcome document, even though later handlers run |
| ProxyRouter.HealthAnswersReport | services/gateway/src/routes/proxy.ts:58-93 | a request for `/health` gets the health document |
| ProxyRouter.FirstMatchAmongMounts | services/gateway/src/routes/proxy.ts:260-287 | among mounts, the first whose prefix matches decides the reply; there is no longest-prefix choice |
| ProxyRouter.FirstMatchingMountDecides | services/gateway/src/routes/proxy.ts:274-287 | through the whole stack, the first matching registered mount decides the reply |
| ProxyRouter.NoMatchAmongMounts | services/gateway/src/routes/proxy.ts:302-315 | when no mount matches, the 404 handler answers and ends the request |
| ProxyRouter.UnclaimedPathIsNotFound | services/gateway/src/routes/proxy.ts:302-315 | a path no handler claims gets the 404 document listing every defined prefix |
| Utf8.Width | services/gateway/src/routes/proxy.ts:188 | a character takes one to four bytes |
| Utf8.EncodeChar | services/gateway/src/routes/proxy.ts:190 | a character encodes to exactly its width in bytes |
| Utf8.Encode | services/gateway/src/routes/proxy.ts:188-190 | `Buffer.byteLength` counts exactly the bytes written |
| Utf8.ByteLengthBounds | services/gateway/src/routes/proxy.ts:188 | the byte length lies between the character count and four times it, and equals the character count exactly for ASCII text |
| Utf8.DecodeChar | services/gateway/src/routes/proxy.ts:190 | a decoded character consumes between one byte and the whole input |
| Utf8.DecodeTwo | services/gateway/src/routes/proxy.ts:190 | two-byte sequences decode back to their character |
| Utf8.DecodeThree | services/gateway/src/routes/proxy.ts:190 | three-byte sequences decode back to their character |
| Utf8.DecodeFour | services/gateway/src/routes/proxy.ts:190 | four-byte sequences decode back to their character |
| Utf8.DecodeEncodeChar | services/gateway/src/routes/proxy.ts:190 | every encoded character decodes back, consuming its width |
| Utf8.DecodeEncode | services/gateway/src/routes/proxy.ts:184-190 | the written bytes decode back to the serialised JSON text |
| Actions.JsRem | packages/service/utils/actions.ts:8-9 | JavaScript `%`: equal to the mathematical remainder for non-negative operands, and smaller than the divisor in size |
| Actions.PartsRoundTrip | packages/service/utils/actions.ts:7-9 | h*3600 + m*60 + s gives back the seconds, with minutes and seconds below 60 |
| Actions.HoursMonotone | packages/service/utils/actions.ts:7 | hours never decrease as seconds grow |
| Actions.FormatZero | packages/service/utils/actions.ts:10 | 0 renders as `0h 0m 0s` |
| Actions.DigitPrefixStops | packages/service/utils/actions.ts:10 | a digit run stops at the first non-digit |
| Actions.ReadDigits | packages/service/utils/actions.ts:10 | a rendered field reads back as its number and unit |
| Actions.ParseRendered | packages/service/utils/actions.ts:10 | a `{h}h {m}m {s}s` text reads back as its total |
| Actions.FormatTimeRoundTrip | packages/service/utils/actions.ts:6-11 | reading the rendering back gives the original seconds |
| Actions.FormatTimeInjective | packages/service/utils/actions.ts:6-11 | different whole seconds render differently |
| Utils.CreateApiResponse | packages/service/utils/index.ts:8-20 | copies its four arguments unchanged |
| Utils.CreateSuccessResponse | packages/service/utils/index.ts:22-27 | success true, the data and message given, and no error |
| Utils.CreateErrorResponse | packages/service/utils/index.ts:29-31 | success false, no data or message, and the given error |
| Utils.ToJson | packages/service/utils/index.ts:14-19 | the serialised envelope is an object that starts with `success` |
| Utils.EnvelopeRoundTrip | packages/service/utils/index.ts:8-20 | serialising an envelope loses nothing: reading it back gives the same envelope |
| Utils.EnvelopeLookups | packages/service/utils/index.ts:14-19 | each member of the serialised envelope has its envelope field's value, and undefined fields are absent |
| Utils.ErrorEnvelopeJson | packages/service/utils/index.ts:29-31 | an error envelope serialises to just `success: false` and `error` |
| Utils.CreateServiceError | packages/service/utils/index.ts:33-40 | the status defaults to 500, and the other arguments are stored unchanged |
| Utils.SanitizeInput | packages/service/utils/index.ts:43-47 | the output has no `<` or `>`, and is the bracket-free input with exactly its outer whitespace cut: a slice of it with only whitespace before and after, and no whitespace at either end |
| Utils.SanitizeIdempotent | packages/service/utils/index.ts:43-47 | sanitising twice is sanitising once |
| Utils.SanitizeKeepsCleanInput | packages/service/utils/index.ts:43-47 | bracket-free, already trimmed input is returned unchanged |
| Utils.SanitizeTrimsAfterRemoval | packages/service/utils/index.ts:45-46 | brackets go before trimming, so `< core >` sanitises to `core` |
| Utils.RemoveBrackets | packages/service/utils/index.ts:45 | removing brackets from `< core >` leaves the spaces around `core` |
| Utils.TrimSpaces | packages/service/utils/index.ts:46 | trimming strips the single spaces around a trimmed core |
| Utils.GenerateOtp | packages/service/utils/index.ts:57-62 | exactly six digits: the UUID's digits in order, right-padded with `0` |
| Utils.OtpIsFirstSixDigits | packages/service/utils/index.ts:59-61 | with at least six digits available, the OTP is the first six of them |
| ServiceTypes.ServiceError.constructor | packages/service/types/index.ts:25-42 | the name is `ServiceError`, the status defaults to 500 only when omitted, and the message, code and details are kept |
| UidGenerator.UidPrefix | packages/service/utils/private/uid-generator.ts:5 | the uppercased prefix, or `GLMX` when it is absent or empty |
| UidGenerator.RandomPart | packages/service/utils/private/uid-generator.ts:6 | the random part contains no `-` |
| UidGenerator.RandomPartAppend | packages/service/utils/private/uid-generator.ts:6 | the random part of a concatenation is the concatenation of the random parts, so the UUID's order is kept |
| UidGenerator.RandomPartOne | packages/service/utils/private/uid-generator.ts:6 | a `-` disappears, and any other character is kept, uppercased |
| UidGenerator.UpperKeepsNonDash | packages/service/utils/private/uid-generator.ts:6 | uppercasing introduces no `-` |
| UidGenerator.GenerateUidShape | packages/service/utils/private/uid-generator.ts:4-8 | the ID has length min(10, total) and is prefix then random part, cut at 10. A prefix of at most 10 characters is kept whole. |
| UidGenerator.DefaultUidShape | packages/service/utils/private/uid-generator.ts:5-7 | with the default prefix, the ID is `GLMX` followed by the first six UUID characters, uppercased |
| UidGenerator.UpperPrefix | packages/service/utils/private/uid-generator.ts:6-7 | uppercasing commutes with taking a prefix |
| UidGenerator.GenerateNextUid | packages/service/utils/private/uid-generator.ts:10-25 | the result starts with `${prefix}`. Its length is at least that text plus the pad width, because padding never truncates. |
| UidGenerator.NextUidOfParsed | packages/service/utils/private/uid-generator.ts:17-20 | after a given prefix, the number is the parsed suffix plus one, left-padded with `0` to 10 minus the prefix length |
| UidGenerator.NextNumberOfParsed | packages/service/utils/private/uid-generator.ts:18-19 | `parseInt` of the text after the prefix, plus one |
| UidGenerator.NextUidIsSuccessor | packages/service/utils/private/uid-generator.ts:17-20 | the ID after `p` + padded n is `p` + padded n+1 |
| UidGenerator.NextUidValue | packages/service/utils/private/uid-generator.ts:18-20 | the next ID starts with the prefix, and its numeric part reads as the successor |
| UidGenerator.NextUidChains | packages/service/utils/private/uid-generator.ts:17-20 | feeding the result back in advances by one again |
| UidGenerator.NextUidLength | packages/service/utils/private/uid-generator.ts:20-23 | the length is 10 while the number fits the width, and longer than 10 when it does not |
| UidGenerator.FittingNextUid | packages/service/utils/private/uid-generator.ts:14-20 | when the successor fits, the next ID is exactly 10 characters, starts with the prefix, and reads as n+1 |
| UidGenerator.NatToStringWidth | packages/service/utils/private/uid-generator.ts:20 | a number below 10^k has at most k digits |
| UidGenerator.NoLatestIdStartsAtConfig | packages/service/utils/private/uid-generator.ts:21-23 | with no (or an empty) latest ID, the configured starting number is padded the same way |
| UidGenerator.StartingNumberParses | packages/service/utils/private/uid-generator.ts:22 | a numeric starting number survives `parseInt` and `toString` unchanged |
| UidGenerator.UnparsableSuffixGivesNaN | packages/service/utils/private/uid-generator.ts:19-20 | a suffix `parseInt` cannot read yields `NaN`, padded |
| UidGenerator.UnparsableStartingNumberGivesNaN | packages/service/utils/private/uid-generator.ts:21-23 | with no latest ID, a starting number `parseInt` cannot read yields `NaN`, padded |
| UidGenerator.UndefinedParsesToNaN | packages/service/utils/private/uid-generator.ts:22 | `parseInt` of an unset setting, read as the text `undefined`, is NaN |
| UidGenerator.AbsentPrefixIsLiteralUndefined | packages/service/utils/private/uid-generator.ts:15-23 | with no prefix, the ID starts with the text `undefined` and is at least 19 characters long |
| UidGenerator.GenerateNextUidWithDefault | packages/service/utils/private/uid-generator.ts:10-25 | the corrected generator starts with the given prefix, or `GLMX` when there is none |
| UidGenerator.DefaultNextUidIsSuccessor | packages/service/utils/private/uid-generator.ts:10-25 | with the default prefix, IDs are 10 characters, start with `GLMX`, and each reads as the successor of the last |
| Validator.KeyTexts | packages/service/utils/validator.ts:26 | one text per path element, in order |
| Validator.IssueMessage | packages/service/utils/validator.ts:25-32 | `invalid_type` gives `Missing Field: ` and the path. Any other code gives `Invalid Field: path -> message` when the path is non-empty, else just the message. |
| Validator.IssueMessages | packages/service/utils/validator.ts:24-32 | one message per issue, in issue order |
| Validator.Validate | packages/service/utils/validator.ts:11-47 | success exactly when parsing succeeded, with the parsed data and no error. Otherwise the original body with the joined issue messages, or `Validation failed` for a non-Zod error. |
| Validator.SingleIssueMessage | packages/service/utils/validator.ts:24-39 | a single issue's message is the whole error |
| Validator.IssuesInOrder | packages/service/utils/validator.ts:33 | messages are joined by `, ` in issue order |
| Validator.FieldNameEmptyIff | packages/service/utils/validator.ts:26-30 | the field name is empty exactly for an empty path or a single empty key |
| Validator.FieldNameRoundTrip | packages/service/utils/validator.ts:26 | when no key contains a dot, splitting the field name at dots gives the path's keys back |
| Validator.IndexHasNoDot | packages/service/utils/validator.ts:26 | an array index renders without a dot |
| Cors.CheckOrigin | packages/service/config/cors.ts:10-20 | allows exactly: development, a missing or empty origin, or a whitelisted one. A rejection carries `CORS Error : <origin> is not allowed`. |
| Cors.WhitelistMonotone | packages/service/config/cors.ts:11-19 | enlarging the whitelist never turns an allowed origin into a rejected one |
| Cors.ProductionNeedsWhitelist | packages/service/config/cors.ts:11-19 | outside development, a non-empty origin is allowed exactly when it is whitelisted |
| Cors.CreateCorsOptions | packages/service/config/cors.ts:21-22 | the methods are exactly GET, POST, PUT, DELETE, PATCH, and credentials come from config |
| Helmet.CreateHelmetConfig | packages/service/middleware/helmet.ts:14-95 | the imperative `push` construction yields the configuration that HelmetConfigOf describes |
| Helmet.CspOffIffFalse | packages/service/middleware/helmet.ts:62-79 | CSP is disabled exactly when `contentSecurityPolicy` is `false` |
| Helmet.CoepRule | packages/service/middleware/helmet.ts:80-84 | COEP is off whenever Scalar is enabled, else it is on unless explicitly `false` |
| Helmet.HstsRule | packages/service/middleware/helmet.ts:22-93 | HSTS is off exactly in development. Otherwise it is one year (section 6.1.1 of RFC 6797) with includeSubDomains and preload. |
| Helmet.FixedDirectives | packages/service/middleware/helmet.ts:66-76 | the fixed directives are always present with their fixed values |
| Helmet.SourceListsLayout | packages/service/middleware/helmet.ts:28-71 | script, style and connect are exactly `'self'`, then that list's Scalar CDN sources when Scalar is enabled (nothing otherwise), then the custom sources in order. Font and img never take custom sources. |
| Helmet.NoScalarNoCdn | packages/service/middleware/helmet.ts:35-54 | with Scalar off, no CDN source is added |
| Helmet.Presets | packages/service/middleware/helmet.ts:97-105 | the strict preset has COEP, HSTS and a bare script list; the dev preset has neither COEP nor HSTS |
| ErrorMiddleware.ErrorStatus | packages/service/middleware/index.ts:19 | `statusCode` when truthy, else 500 |
| ErrorMiddleware.ErrorText | packages/service/middleware/index.ts:20 | the message when non-empty, else `Internal Server Error` |
| ErrorMiddleware.ErrorReplyBody | packages/service/middleware/index.ts:22 | the body is just `success: false` and the message |
| ErrorMiddleware.ErrorHandler | packages/service/middleware/index.ts:5-25 | writes the reply and still calls `next()`. If a reply already went out, the write throws and the response is unchanged. |
| HealthCheck.PayloadMembers | packages/service/middleware/healthcheck.ts:15-26 | success true and `healthy`; name, version and port echo the factory arguments; uptime is formatTime of the seconds; the timestamp is passed through |
| HealthCheck.FieldsMembers | packages/service/middleware/healthcheck.ts:18-26 | each payload member has its value, and an undefined version is absent |
| HealthCheck.OnlyUptimeAndTimestampVary | packages/service/middleware/healthcheck.ts:15-26 | two calls agree on every member other than uptime and timestamp |
| HealthCheck.Handle | packages/service/middleware/healthcheck.ts:15-27 | ignores the request and writes the payload with status 200 while nothing has been sent |
| Logger.Severity | packages/service/lib/logger.ts:8-14 | severities lie in 0..4 |
| Logger.SeverityOrder | packages/service/lib/logger.ts:8-14 | error < warn < info < http < debug, and no two levels share a severity |
| Logger.Delete | packages/service/lib/logger.ts:91-94 | `delete` removes the key and keeps every other lookup |
| Logger.Format | packages/service/lib/logger.ts:45-102 | the `+=` construction yields the plain line: header, optional context and service, the text, optional meta JSON |
| Logger.LineStartsWithHeader | packages/service/lib/logger.ts:86 | every line starts with `timestamp [LEVEL]` |
| Logger.StackWins | packages/service/lib/logger.ts:89 | the stack is printed in preference to the message |
| Logger.BareLine | packages/service/lib/logger.ts:86-98 | with no context, service or meta, the line is the header, a space, and the text |
| Logger.CleanMetaKeeps | packages/service/lib/logger.ts:91-96 | the cleaned meta drops exactly timestamp, level and message |
| Logger.Logger.constructor | packages/service/lib/logger.ts:195-197 | a logger keeps its context and has no service |
| Logger.Logger.Child | packages/service/lib/logger.ts:230-244 | a child keeps the parent's context and adds the service |
| Logger.Logger.Log | packages/service/lib/logger.ts:199-241 | context (and service) come first, then meta is spread over them, so meta keys override while base keys keep their positions |
| Logger.Logger.MakeChild | packages/service/lib/logger.ts:230-244 | `child()` returns a new logger with the same context and the given service |
| Logger.RequestLevel | packages/service/lib/logger.ts:266-267 | error for 500 and up, warn for 400 to 499, http below |
| Logger.RequestLevelMonotone | packages/service/lib/logger.ts:266-267 | a higher status never gets a less severe level |
| Arcjet.Mode | services/auth/src/config/arcjet.ts:14 | LIVE exactly when ARCJET_ENV is `production`, else DRY_RUN |
| Arcjet.Verdict | services/auth/src/config/arcjet.ts:50-72 | denied rate limit gives 429; denied bot gives 403 `No bots allowed`; other denials, a hosting IP, or any spoofed bot give 403 `Forbidden`. Only a clean decision gets no reply. |
| Arcjet.VerdictStatuses | services/auth/src/config/arcjet.ts:50-71 | 429 exactly for a denied rate limit, 403 for every other reply |
| Arcjet.DenialFirst | services/auth/src/config/arcjet.ts:50-64 | a denial decides whatever the hosting and spoofed results are |
| Arcjet.ArcjetMiddleware | services/auth/src/config/arcjet.ts:43-81 | either the verdict's reply is written and the chain ends, or `next()` is called. The latter happens for clean decisions, protection errors (fail open) and failed writes. |
| Arcjet.ArcjetEmailValidation | services/auth/src/config/arcjet.ts:83-107 | see the note below the table |
| VerifySession.Verify | services/auth/src/middleware/verify-session.ts:15-44 | a full session sets `req.session` and `req.user` and calls `next()`. Otherwise one 401 is written, with the invalid-session or verification-failed text, and `next` is not called. |
| Express.Response.constructor | services/gateway/src/routes/proxy.ts:117 | a fresh response has sent nothing |
| Express.Response.Send | services/gateway/src/routes/proxy.ts:117-118 | the write succeeds exactly when nothing has been sent, and only then changes the reply |
| Express.Request.constructor | services/gateway/src/routes/proxy.ts:36 | a request carries its method, path, URL and body, with no start time, user or session yet |
| Json.Assign | packages/service/lib/logger.ts:204-207 | `obj[key] = v` sets that key, keeps every other lookup, and keeps the key order |
| Json.SpreadGet | packages/service/lib/logger.ts:204-207 | after `{...base, ...extra}`, keys of `extra` have its values and the others keep `base`'s |
| Json.SpreadKeepsBaseOrder | packages/service/lib/logger.ts:204-207 | a spread keeps the base keys first, in order |
| Json.GetSomeIff | packages/service/middleware/healthcheck.ts:18-26 | a lookup finds a value exactly when the key is present |
| Strings.Trim | packages/service/utils/index.ts:46 | no longer than the input, with no whitespace at either end |
| Strings.TrimCutsOuterWhitespace | packages/service/utils/index.ts:46 | the result of trimming is a slice of the input with only whitespace before and after it, and no whitespace at either of its ends: exactly the outer whitespace is cut |
| Strings.RemoveOne | packages/service/utils/index.ts:45 | one character is kept exactly when it is not dropped |
| Strings.RemoveAppend | packages/service/utils/index.ts:45 | removal distributes over concatenation, so the kept characters stay in input order |
| Strings.TrimStart | packages/service/utils/index.ts:46 | removes exactly a leading whitespace run |
| Strings.TrimEnd | packages/service/utils/index.ts:46 | removes exactly a trailing whitespace run |
| Strings.BlankIffAllWhitespace | services/gateway/src/config/services.ts:17 | `trim() === ""` exactly when every character is whitespace |
| Strings.TrimKeepsTrimmed | packages/service/utils/index.ts:46 | trimming already-trimmed text changes nothing |
| Strings.ToUpper | packages/service/utils/private/uid-generator.ts:5-6 | the same length, each character uppercased |
| Strings.PadStart | packages/service/utils/private/uid-generator.ts:20 | the text is kept at the end, with fill characters before it up to the target and never truncated |
| Strings.PadEnd | packages/service/utils/index.ts:61 | the text is kept at the start, with fill characters after it up to the target |
| Strings.ParseInt | packages/service/utils/private/uid-generator.ts:19 | `parseInt` yields `NaN` exactly when no digit follows the optional whitespace and sign |
| Strings.PaddedNumeralParses | packages/service/utils/private/uid-generator.ts:19-20 | a zero-padded numeral parses back to its number |
| Strings.NatToStringRoundTrip | packages/service/utils/private/uid-generator.ts:20 | `toString` of a number reads back as that number |
| Strings.Join | packages/service/utils/validator.ts:26-33 | an empty list joins to the empty text, and one element joins to itself |
| Strings.SplitJoinRoundTrip | packages/service/utils/validator.ts:26 | splitting joined parts that contain no separator gives the parts back |
| Strings.JoinEmptyIff | packages/service/utils/validator.ts:26 | a join is empty exactly for no parts or a single empty part |

About `Arcjet.ArcjetEmailValidation`:

- A missing email writes a 400 and stops before `protect`.
- A denied email writes a 403 and still calls `next()`.
- An allowed email calls `next()`.
- Protection errors go to `next(error)`.
- Reading the email of an undefined or null body throws, and the throw also goes to `next(error)`.

## Left out

- Logging. Every `logger.*` call and `console.*` call is output. The winston pipeline, transports, file rotation, the log directory and chalk colouring are left out. So are the level wrappers `debug`, `info`, `http`, `warn` and `error`, which only forward to `log`.
- The colour branch of CustomFormatter.format: it is presentation only, and its `stack && !this.colorize` check cannot be reached.
- Proxy transport. Sockets, timeouts, streaming and retries belong to http-proxy-middleware. `timeout` and `retries` are only validated.
- The backend is an abstract function. A backend reply that arrives after this gateway has already replied is dropped, and the earlier reply stands; Node's error for that late write is not modelled.
- Express matches mount paths and header names case-insensitively. The model matches mount paths case-sensitively and keys headers by their exact spelling.
- The rewrite rule `^${pathPrefix}` is a regular expression, applied by `String.replace`. The model treats the prefix as literal text, so regex metacharacters in a prefix are not modelled. It also treats the replacement `servicePath` as literal text, so `$&` and `$1`-style patterns in it are not expanded.
- onProxyReq is modelled from the outgoing request's headers as given. The headers http-proxy copies from the client are not modelled.
- The two `Date.now()` readings in onProxyRes become one reading, `now`, per hook.
- `errorMessages[code]` also finds inherited object keys such as `constructor`; the table is modelled as the four own keys only. The registry's lookups (`servicesConfig[name]`, `name in servicesConfig`) do model the inherited `Object.prototype` keys; what an inherited member is beyond "truthy, with no `url` and no `enabled`" is not modelled.
- `process.uptime()` is a float; the model takes whole seconds. `parseInt` is exact on unbounded integers, with no float rounding for long digit runs.
- `toUpperCase` is modelled for ASCII letters only, since full Unicode case mapping is not modelled.
- Zod paths are keys or array indices. Symbol keys are left out.
- `config.PORT` is given as an optional integer. A NaN port is `None`, which renders as `null`.
- `Buffer.byteLength` of lone surrogates (three replacement bytes in Node) is left out: Dafny characters are Unicode scalar values.
- Zod's `schema.parse`, Arcjet's rule evaluation and token bucket, and better-auth's session lookup are foreign libraries. Only their outcomes are inputs.
- The source does not pin its Express version. Mount paths follow Express 4 (path-to-regexp 0.1): exactly one trailing `/` of a prefix is dropped, where Express 5 drops every trailing `/`.
- verifySession is async. When its 401 write throws because a reply already went out, the model records the rejection as `next(error)`, which is what Express 5 does; under Express 4 the rejected promise would go unhandled and no error handler would run.
- `res.status(x)` throws in Express or Node when x is not an integer from 100 to 999, for instance a non-integer `statusCode` on a thrown error. ErrorMiddleware.ErrorHandler, Proxy.HandleProxyError and Proxy.GlobalErrorHandler write any integer status; that throw is not modelled.
- A logged meta member whose value is `undefined` counts in `Object.keys(meta).length > 0` but is dropped by `JSON.stringify`, so a line can end in `{}`. The model's JSON values have no `undefined`, so such a member cannot be represented.
- `handleServerShutdown` (process exit), `generateFileName` (crypto randomness) and `generateRandomUsername` (a word list) are I/O or randomness with no logic to model.
- Strings.Remove: its contract states only that the result is no longer than the input and that nothing dropped remains. Which characters are kept, and in what order, is stated by RemoveOne and RemoveAppend, which together fix the result; Remove itself does not state it.
- RandomPart: its contract states only that no `-` remains. That the UUID's other characters are kept in order and uppercased is stated by RandomPartAppend and RandomPartOne, not by RandomPart itself.
- Trim: its contract states only the length bound and that no whitespace is left at either end. That exactly the outer whitespace is cut is stated by TrimCutsOuterWhitespace.
- CountEnabled: its contract gives only the bound; that it counts exactly the `true` flags is stated by CountEnabledCounts.

## Findings

| source | as written | input that shows it | evidently intended | confidence | as-written member | corrected member |
|---|---|---|---|---|---|---|
| packages/service/utils/private/uid-generator.ts:15-23 | with no prefix, `${prefix}` renders the text `undefined`, and the number is padded to the full 10 digits | `generateNextUID(undefined)` gives `undefined` followed by 10 characters: `undefined0000000NaN` while STARTING_NUMBER is unset, as in the shared env module, or `undefined0000000001` if it were set to `1` (hypothetical) | the `GLMX` default that generateUID uses, giving a 10-character ID | not executed | UidGenerator.AbsentPrefixIsLiteralUndefined | UidGenerator.DefaultNextUidIsSuccessor |
