# cors-ts CORS middleware, modelled in Dafny

This project models the CORS middleware of cors-ts (`src/index.ts`). For each
request the middleware does two things. It decides which CORS response headers
to attach. It also decides whether to finish a preflight (`OPTIONS`) request or
to hand control to `next`. The model covers all of its decision logic:

- origin matching against a boolean, string, regular expression or list;
- the `configure*` functions that build header directives;
- `applyHeaders`, which flattens directive groups, skips falsy values and sends
  `Vary` to the vary helper;
- `corsTs`, which separates the preflight path from the actual-request path;
- the middleware wrapper, which obtains the options, merges them over the
  defaults, resolves `origin` (possibly through a callback) and short-circuits
  on errors and denials.

Modules, one per part of `src/index.ts`:

- `CorsTypes` (types.dfy): the options record, the request fields, header
  directives and the response state. It also holds the string helpers the
  middleware uses: JavaScript truthiness, `Array.join` with `Split`, its inverse on non-empty lists without commas,
  and the decimal rendering of `maxAge` with its inverse `ParseDecimal`.
- `CorsOrigin` (origin.dfy): `isOriginAllowed`. `OriginAllowed` is the
  recursive rule. `IsOriginAllowed` is the source's loop with early return,
  proved equal to that rule.
- `CorsDirectives` (directives.dfy): the `configure*` functions and the meaning
  of applying directives (`ApplyOne`/`ApplyAll`). An independent reference
  definition, `Effect`, describes the same result as an override map
  (`WritesAll`) plus a list of Vary tokens (`TokensAll`). Each configure
  function's contract states which headers it sets and which Vary fields it adds.
- `CorsResponse` (response.dfy): the response object as a class (`headers`,
  `vary`, `statusCode`, `ended`), the `next` continuation as a class that logs
  its calls, and `ApplyHeaders`, the in-place walk over directives. Its contract
  ties it to `ApplyAll`.
- `CorsDispatch` (dispatch.dfy): `CorsTsModel` (what corsTs does), the method
  `CorsTs` proved against it, and lemmas about the headers and the control flow
  of each path.
- `CorsWrapper` (middleware.dfy): the defaults record, the `assign` merge,
  `MiddlewareModel`, the method `CorsMiddleware` proved against it, and lemmas
  about the error and denial short-circuits.

The two asynchronous callbacks are inputs. A provider callback is represented by
the one answer it gives for this request (`Delegate(answer)`). An origin
callback is represented the same way (`Dyn(answer)`). A regular expression is
represented by its `test` function (`Re(test)`). `RegExp.test(undefined)`
receives the string `"undefined"`, as in JavaScript.

The source has a legacy `headers` option. `configureAllowedHeaders` falls back
to it when `allowedHeaders` is falsy. The model includes it.

A resolved origin that is falsy (`false`, `""` or undefined) makes the
middleware call `next()` and skip corsTs entirely. This holds for a preflight
too: no Allow-Methods or Allow-Headers header is set, no status is set and the
response is not ended (src/index.ts:283-284, 290-291). So a denied preflight
gets no method or header directives either (`CorsWrapper.ShortCircuits`).

## Model

| member | source | states |
|---|---|---|
| `CorsOrigin.OriginAllowedCases` | src/index.ts:73-87 | a list allows an origin iff some element (checked recursively) allows it, so the empty list allows nothing; a string allows only an equal origin; a boolean allows by its value; a regular expression allows what its `test` accepts on the origin (`"undefined"` when absent); a callback value is truthy and allows everything |
| `CorsOrigin.IsOriginAllowed` | src/index.ts:73-88 | the loop with early return computes exactly the recursive matching rule |
| `CorsDirectives.ConfigureOrigin` | src/index.ts:93-129 | falsy or `'*'` origin: sets only `Access-Control-Allow-Origin: *` and adds no Vary field; other string S: sets the header to S and adds `Vary: Origin`; otherwise sets the header to the request origin only when it is allowed and non-empty (leaves it unset otherwise) and adds `Vary: Origin` in both cases; never touches another header |
| `CorsDirectives.ConfigureMethods` | src/index.ts:131-140 | sets `Access-Control-Allow-Methods` to the string or to the list joined with `,`; sets nothing when the value is empty or absent |
| `CorsDirectives.ConfigureCredentials` | src/index.ts:142-150 | sets `Access-Control-Allow-Credentials: true` iff `credentials` is true and sets nothing otherwise |
| `CorsDirectives.ConfigureAllowedHeaders` | src/index.ts:152-175 | with no setting (`allowedHeaders`, else `headers`): reflects the request's Access-Control-Request-Headers when non-empty and adds `Vary: Access-Control-Request-Headers`; with a setting: uses it (a list joined with `,`) with no Vary; omits the header when the value is empty |
| `CorsDirectives.ConfigureExposedHeaders` | src/index.ts:177-191 | sets `Access-Control-Expose-Headers` to the setting (a list joined with `,`) only when it is set and non-empty |
| `CorsDirectives.ConfigureMaxAge` | src/index.ts:193-202 | sets `Access-Control-Max-Age` to the decimal rendering of `maxAge`, `"0"` for zero; sets nothing when `maxAge` is unset |
| `CorsDirectives.ApplyAllEffect` | src/index.ts:207-220 | applying a directive list equals the reference `Effect`: the headers it writes override the old ones, its Vary fields are merged, and status and ended are unchanged |
| `CorsDirectives.VaryNeverSet` | src/index.ts:213-217 | `Vary` never goes through setHeader: a response without a plain `Vary` header still has none after any directive list |
| `CorsDirectives.ApplyIdempotent` | src/index.ts:207-220 | applying the same directives twice gives the same response as applying them once |
| `CorsResponse.ApplyHeaders` | src/index.ts:207-220 | the in-place loop (recursing into groups) leaves the response in the state `ApplyAll` specifies |
| `CorsDispatch.CorsTs` | src/index.ts:222-253 | the method leaves the response and the `next` log exactly as `CorsTsModel` says |
| `CorsDispatch.ControlFlow` | src/index.ts:236-251 | preflight without preflightContinue: sets the status to optionsSuccessStatus, sets `Content-Length: 0`, ends, and never calls `next`; with preflightContinue: calls `next()` once and leaves status and ended alone; any other method: calls `next()` once and never ends |
| `CorsDispatch.ActualLeavesPreflightHeaders` | src/index.ts:245-251 | an actual request never touches Allow-Methods, Allow-Headers, Max-Age or Content-Length and adds no Access-Control-Request-Headers Vary field |
| `CorsDispatch.CredentialsHeader` | src/index.ts:142-150 | after corsTs, Allow-Credentials is `"true"` when `credentials` is true and otherwise unchanged, so it is never `"false"` |
| `CorsDispatch.OriginHeaders` | src/index.ts:98-125 | after corsTs: `*` and no new `Vary: Origin` for a falsy or `'*'` origin; the fixed string plus `Vary: Origin`; or the reflected origin when allowed (when not allowed, the header keeps its presence and its value), with `Vary: Origin` either way |
| `CorsDispatch.AllowedHeadersHeader` | src/index.ts:152-175 | after a preflight: request headers reflected with `Vary: Access-Control-Request-Headers` when there is no setting; the string or comma-joined list otherwise; when the value is empty, the header keeps its presence and its value |
| `CorsDispatch.MaxAgeHeader` | src/index.ts:193-202 | after a preflight, `Access-Control-Max-Age` is `maxAge` in decimal (`"0"` for zero) and keeps its presence and value when `maxAge` is unset |
| `CorsDispatch.ExposedHeadersHeader` | src/index.ts:177-191 | after corsTs on either path, `Access-Control-Expose-Headers` is the non-empty setting, and otherwise keeps its presence and its value |
| `CorsDispatch.HeadersIdempotent` | src/index.ts:222-253 | running corsTs twice on the same request leaves the same headers and Vary tokens as running it once |
| `CorsWrapper.CorsMiddleware` | src/index.ts:266-295 | the method leaves the response and the `next` log exactly as `MiddlewareModel` says |
| `CorsWrapper.MergedOverDefaults` | src/index.ts:57-62 | merging over the defaults: an absent key gets origin `'*'`, the default methods, preflightContinue false or status 204, and a present key keeps its value |
| `CorsWrapper.ShortCircuits` | src/index.ts:267-291 | a provider error calls `next(err)` and a callback error calls `next(err2)`; a falsy merged or resolved origin calls `next()`; in all these cases the response is untouched; otherwise corsTs runs with the resolved origin |
| `CorsWrapper.StaticOriginPassesThrough` | src/index.ts:275-287 | a truthy static origin is passed to corsTs unchanged |
| `CorsWrapper.NextOrEnd` | src/index.ts:266-295 | every request either ends the response without calling `next`, or calls `next` exactly once without ending it |
| `CorsWrapper.DefaultPreflight` | src/index.ts:57-62 | with no options, a preflight gets status 204, `Content-Length: 0`, `Access-Control-Allow-Origin: *`, the default methods, no credentials header and no `Vary: Origin`, and `next` is not called |
| `CorsTypes.SplitJoin` | src/index.ts:134 | joining a list with `,` loses nothing: splitting the result at commas gives a non-empty list back when no element contains a comma (`[]` and `[""]` both join to `""`) |
| `CorsTypes.NatToStringDecimal` | src/index.ts:194 | the rendering of `maxAge` is a non-empty digit string that reads back as the same number, and is `"0"` for zero |

## Left out

- `src/object-assign.ts`, the `Object.assign` polyfill, is not part of this model. The merge is `Assign`, a field-by-field override.
- An option key that is present but explicitly `undefined` is not modelled. `Object.assign` copies such a key over the default. In the model an absent key is `None`, and no other "undefined" value exists.
- The vary npm package is not part of this model. The Vary header is kept as a list of tokens with exact-match union. Its case-insensitive matching, `*` handling and splitting of comma-separated fields are not modelled. Only single fields (`Origin`, `Access-Control-Request-Headers`) reach it here.
- Node's response object is not modelled: the case-insensitive header names, array-valued headers and the body. Headers are a map from exact names to strings.
- `RegExp.test` is not modelled: a regular expression is its `test` function. A global regular expression's `lastIndex` state is not captured.
- The asynchronous scheduling of the provider and origin callbacks is not modelled, and neither is a callback that completes twice or never. Each callback is its single answer.
- `maxAge` is a non-negative integer. `Number.prototype.toString` for fractions, negatives and exponents is not modelled.
- `isString`'s `instanceof String` boxing and the check that `req.method.toUpperCase` exists are not modelled.
- `IsPreflight`: `toUpperCase` is modelled for ASCII letters only. Non-ASCII characters that JavaScript upper-cases to `OPTIONS` letters (such as U+0131 to `I`) are not recognised.
- `next()` and `next(null)` are both logged as `None`.
- `ConfigureOrigin` uses the function `OriginAllowed`. The loop form `IsOriginAllowed` is proved equal to it, and `CorsTs` does not call the loop itself.
