/** corsTs: for a preflight (OPTIONS) request attach all six kinds of CORS
    headers and then either end the response or pass on to `next`; for any
    other request attach the origin, credentials and exposed-headers
    directives and always pass on to `next`. */
module CorsDispatch {
  import opened CorsTypes
  import opened CorsOrigin
  import opened CorsDirectives
  import opened CorsResponse

  /** The response state together with the calls made to `next`. */
  datatype Exchange = Exchange(res: ResState, nextCalls: seq<Option<Error>>)

  /** A request is a preflight when its method upper-cases to OPTIONS. */
  predicate IsPreflight(req: Request) {
    req.verb.Some? && UpperAscii(req.verb.value) == "OPTIONS"
  }

  function PreflightDirectives(options: CorsOptions, req: Request): seq<Directive> {
    [ConfigureOrigin(options, req), ConfigureCredentials(options), ConfigureMethods(options),
     ConfigureAllowedHeaders(options, req), ConfigureMaxAge(options), ConfigureExposedHeaders(options)]
  }

  function ActualDirectives(options: CorsOptions, req: Request): seq<Directive> {
    [ConfigureOrigin(options, req), ConfigureCredentials(options), ConfigureExposedHeaders(options)]
  }

  /** What corsTs does to the response and to `next`. */
  function CorsTsModel(options: CorsOptions, req: Request, ex: Exchange): Exchange {
    if IsPreflight(req) then
      var applied := ApplyAll(ex.res, PreflightDirectives(options, req));
      if options.preflightContinue == Some(true) then
        Exchange(applied, ex.nextCalls + [None])
      else
        Exchange(applied.(statusCode := options.optionsSuccessStatus,
                          headers := applied.headers[ContentLength := "0"],
                          ended := true),
                 ex.nextCalls)
    else
      Exchange(ApplyAll(ex.res, ActualDirectives(options, req)), ex.nextCalls + [None])
  }

  /** corsTs as the source writes it: push the directives into a local list,
      apply them, then end the response or call `next`. */
  method CorsTs(options: CorsOptions, req: Request, res: Response, next: Next)
    modifies res, next
    ensures Exchange(res.State(), next.calls)
         == CorsTsModel(options, req, Exchange(old(res.State()), old(next.calls)))
  {
    var headers: seq<Directive> := [];
    var verb := if req.verb.Some? then Some(UpperAscii(req.verb.value)) else None;
    if verb == Some("OPTIONS") {
      headers := headers + [ConfigureOrigin(options, req)];
      headers := headers + [ConfigureCredentials(options)];
      headers := headers + [ConfigureMethods(options)];
      headers := headers + [ConfigureAllowedHeaders(options, req)];
      headers := headers + [ConfigureMaxAge(options)];
      headers := headers + [ConfigureExposedHeaders(options)];
      assert headers == PreflightDirectives(options, req);
      ApplyHeaders(headers, res);
      if options.preflightContinue == Some(true) {
        next.Call(None);
      } else {
        res.statusCode := options.optionsSuccessStatus;
        res.SetHeader(ContentLength, "0");
        res.End();
      }
    } else {
      headers := headers + [ConfigureOrigin(options, req)];
      headers := headers + [ConfigureCredentials(options)];
      headers := headers + [ConfigureExposedHeaders(options)];
      assert headers == ActualDirectives(options, req);
      ApplyHeaders(headers, res);
      next.Call(None);
    }
  }

  // ---------------------------------------------------------------------
  // What corsTs promises.
  // ---------------------------------------------------------------------

  /** Looking a key up in headers overridden, in turn, by six maps (the
      right-most map that holds the key wins). */
  lemma Override6(h: map<string, string>, a: map<string, string>, b: map<string, string>,
                  c: map<string, string>, d: map<string, string>, e: map<string, string>,
                  f: map<string, string>, k: string)
    ensures var u := h + (a + (b + (c + (d + (e + f)))));
      && (k in u <==> k in h || k in a || k in b || k in c || k in d || k in e || k in f)
      && (k in u ==> u[k] == if k in f then f[k] else if k in e then e[k] else if k in d then d[k]
                             else if k in c then c[k] else if k in b then b[k] else if k in a then a[k]
                             else h[k])
  {
  }

  /** Looking a key up in headers overridden, in turn, by three maps. */
  lemma Override3(h: map<string, string>, a: map<string, string>, b: map<string, string>,
                  c: map<string, string>, k: string)
    ensures var u := h + (a + (b + c));
      && (k in u <==> k in h || k in a || k in b || k in c)
      && (k in u ==> u[k] == if k in c then c[k] else if k in b then b[k] else if k in a then a[k] else h[k])
  {
  }

  /** The headers set and the Vary fields added by each path, directive by
      directive: only the origin and allowed-headers directives add Vary fields. */
  lemma DirectivesEffect(options: CorsOptions, req: Request)
    ensures var o, c, m, a, x, e := ConfigureOrigin(options, req), ConfigureCredentials(options),
                                    ConfigureMethods(options), ConfigureAllowedHeaders(options, req),
                                    ConfigureMaxAge(options), ConfigureExposedHeaders(options);
      && WritesAll(PreflightDirectives(options, req))
           == WritesOne(o) + (WritesOne(c) + (WritesOne(m) + (WritesOne(a) + (WritesOne(x) + WritesOne(e)))))
      && TokensAll(PreflightDirectives(options, req)) == TokensOne(o) + TokensOne(a)
      && WritesAll(ActualDirectives(options, req)) == WritesOne(o) + (WritesOne(c) + WritesOne(e))
      && TokensAll(ActualDirectives(options, req)) == TokensOne(o)
  {
    var o, c, m, a, x, e := ConfigureOrigin(options, req), ConfigureCredentials(options),
                            ConfigureMethods(options), ConfigureAllowedHeaders(options, req),
                            ConfigureMaxAge(options), ConfigureExposedHeaders(options);
    Singleton(e);
    assert [x, e][1..] == [e];
    assert [a, x, e][1..] == [x, e];
    assert [m, a, x, e][1..] == [a, x, e];
    assert [c, m, a, x, e][1..] == [m, a, x, e];
    assert [o, c, m, a, x, e][1..] == [c, m, a, x, e];
    assert [c, e][1..] == [e];
    assert [o, c, e][1..] == [c, e];
    assert WritesAll([x, e]) == WritesOne(x) + WritesOne(e);
    assert WritesAll([a, x, e]) == WritesOne(a) + (WritesOne(x) + WritesOne(e));
    assert WritesAll([m, a, x, e]) == WritesOne(m) + (WritesOne(a) + (WritesOne(x) + WritesOne(e)));
    assert WritesAll([c, m, a, x, e]) == WritesOne(c) + (WritesOne(m) + (WritesOne(a) + (WritesOne(x) + WritesOne(e))));
    assert WritesAll([c, e]) == WritesOne(c) + WritesOne(e);
    assert TokensAll([a, x, e]) == TokensOne(a);
    assert TokensAll([c, m, a, x, e]) == TokensOne(a);
    assert TokensAll([c, e]) == [];
    assert TokensOne(o) + [] == TokensOne(o);
  }

  /** Each path's final headers and Vary tokens, from the response it started with. */
  lemma PathEffect(options: CorsOptions, req: Request, st: ResState)
    ensures var o, c, m, a, x, e := ConfigureOrigin(options, req), ConfigureCredentials(options),
                                    ConfigureMethods(options), ConfigureAllowedHeaders(options, req),
                                    ConfigureMaxAge(options), ConfigureExposedHeaders(options);
      && ApplyAll(st, PreflightDirectives(options, req)) == st.(
           headers := st.headers + (WritesOne(o) + (WritesOne(c) + (WritesOne(m) + (WritesOne(a) + (WritesOne(x) + WritesOne(e)))))),
           vary := AddVaryAll(st.vary, TokensOne(o) + TokensOne(a)))
      && ApplyAll(st, ActualDirectives(options, req)) == st.(
           headers := st.headers + (WritesOne(o) + (WritesOne(c) + WritesOne(e))),
           vary := AddVaryAll(st.vary, TokensOne(o)))
  {
    DirectivesEffect(options, req);
    ApplyAllEffect(st, PreflightDirectives(options, req));
    ApplyAllEffect(st, ActualDirectives(options, req));
  }

  /** Looking up header `k` after the preflight directives. */
  lemma PreflightHeaderAt(options: CorsOptions, req: Request, st: ResState, k: string)
    ensures var o, c, m, a, x, e := ConfigureOrigin(options, req), ConfigureCredentials(options),
                                    ConfigureMethods(options), ConfigureAllowedHeaders(options, req),
                                    ConfigureMaxAge(options), ConfigureExposedHeaders(options);
      var out := ApplyAll(st, PreflightDirectives(options, req)).headers;
      && (k in out <==> k in st.headers || k in WritesOne(o) || k in WritesOne(c) || k in WritesOne(m) ||
                        k in WritesOne(a) || k in WritesOne(x) || k in WritesOne(e))
      && (k in out ==> out[k] == if k in WritesOne(e) then WritesOne(e)[k] else if k in WritesOne(x) then WritesOne(x)[k]
                                 else if k in WritesOne(a) then WritesOne(a)[k] else if k in WritesOne(m) then WritesOne(m)[k]
                                 else if k in WritesOne(c) then WritesOne(c)[k] else if k in WritesOne(o) then WritesOne(o)[k]
                                 else st.headers[k])
  {
    var o, c, m, a, x, e := ConfigureOrigin(options, req), ConfigureCredentials(options),
                            ConfigureMethods(options), ConfigureAllowedHeaders(options, req),
                            ConfigureMaxAge(options), ConfigureExposedHeaders(options);
    PathEffect(options, req, st);
    Override6(st.headers, WritesOne(o), WritesOne(c), WritesOne(m), WritesOne(a), WritesOne(x), WritesOne(e), k);
  }

  /** Looking up header `k` after the actual-request directives. */
  lemma ActualHeaderAt(options: CorsOptions, req: Request, st: ResState, k: string)
    ensures var o, c, e := ConfigureOrigin(options, req), ConfigureCredentials(options), ConfigureExposedHeaders(options);
      var out := ApplyAll(st, ActualDirectives(options, req)).headers;
      && (k in out <==> k in st.headers || k in WritesOne(o) || k in WritesOne(c) || k in WritesOne(e))
      && (k in out ==> out[k] == if k in WritesOne(e) then WritesOne(e)[k] else if k in WritesOne(c) then WritesOne(c)[k]
                                 else if k in WritesOne(o) then WritesOne(o)[k] else st.headers[k])
  {
    var o, c, e := ConfigureOrigin(options, req), ConfigureCredentials(options), ConfigureExposedHeaders(options);
    PathEffect(options, req, st);
    Override3(st.headers, WritesOne(o), WritesOne(c), WritesOne(e), k);
  }

  /** The value corsTs leaves for header `k`, on either path, when `k` is not
      Content-Length. */
  lemma HeaderAt(options: CorsOptions, req: Request, ex: Exchange, k: string)
    requires k != ContentLength
    ensures var out := CorsTsModel(options, req, ex).res.headers;
      && (IsPreflight(req) ==>
            (k in out <==> k in ApplyAll(ex.res, PreflightDirectives(options, req)).headers) &&
            (k in out ==> out[k] == ApplyAll(ex.res, PreflightDirectives(options, req)).headers[k]))
      && (!IsPreflight(req) ==> out == ApplyAll(ex.res, ActualDirectives(options, req)).headers)
  {
  }

  /** A preflight without preflightContinue ends the response with the
      configured status and `Content-Length: 0` and never calls `next`; with
      preflightContinue it calls `next()` once and leaves status and end
      alone; any other request calls `next()` once and never ends. */
  lemma ControlFlow(options: CorsOptions, req: Request, ex: Exchange)
    ensures var out := CorsTsModel(options, req, ex);
      && (IsPreflight(req) && options.preflightContinue != Some(true) ==>
            out.res.statusCode == options.optionsSuccessStatus && out.res.ended &&
            ContentLength in out.res.headers && out.res.headers[ContentLength] == "0" &&
            out.nextCalls == ex.nextCalls)
      && (IsPreflight(req) && options.preflightContinue == Some(true) ==>
            out.res.statusCode == ex.res.statusCode && out.res.ended == ex.res.ended &&
            out.nextCalls == ex.nextCalls + [None])
      && (!IsPreflight(req) ==>
            out.res.statusCode == ex.res.statusCode && out.res.ended == ex.res.ended &&
            out.nextCalls == ex.nextCalls + [None])
  {
    PathEffect(options, req, ex.res);
  }

  /** An actual (non-preflight) request never touches the preflight-only
      headers: Allow-Methods, Allow-Headers, Max-Age and Content-Length keep
      whatever they were, and no Access-Control-Request-Headers is added to Vary. */
  lemma ActualLeavesPreflightHeaders(options: CorsOptions, req: Request, ex: Exchange, k: string)
    requires !IsPreflight(req)
    requires k in {AllowMethods, AllowHeaders, MaxAge, ContentLength}
    ensures var out := CorsTsModel(options, req, ex);
      && (k in out.res.headers <==> k in ex.res.headers)
      && (k in ex.res.headers ==> out.res.headers[k] == ex.res.headers[k])
      && (RequestHeadersToken in out.res.vary <==> RequestHeadersToken in ex.res.vary)
  {
    PathEffect(options, req, ex.res);
    ActualHeaderAt(options, req, ex.res, k);
    AddVaryAllMembers(ex.res.vary, TokensOne(ConfigureOrigin(options, req)), RequestHeadersToken);
  }

  /** Access-Control-Allow-Credentials is set, to "true", exactly when
      `credentials` is true; otherwise it is left as it was (never "false"). */
  lemma CredentialsHeader(options: CorsOptions, req: Request, ex: Exchange)
    ensures var out := CorsTsModel(options, req, ex);
      && (options.credentials == Some(true) ==>
            AllowCredentials in out.res.headers && out.res.headers[AllowCredentials] == "true")
      && (options.credentials != Some(true) ==>
            (AllowCredentials in out.res.headers <==> AllowCredentials in ex.res.headers) &&
            (AllowCredentials in ex.res.headers ==>
              out.res.headers[AllowCredentials] == ex.res.headers[AllowCredentials]))
  {
    HeaderAt(options, req, ex, AllowCredentials);
    PreflightHeaderAt(options, req, ex.res, AllowCredentials);
    ActualHeaderAt(options, req, ex.res, AllowCredentials);
  }

  /** The origin headers, on either path: `*` and no `Vary: Origin` when any
      origin is allowed; the fixed string and `Vary: Origin`; or the request's
      origin if it is allowed (the header left untouched, hence omitted, if
      not) and `Vary: Origin` in both cases. */
  lemma OriginHeaders(options: CorsOptions, req: Request, ex: Exchange)
    ensures var out := CorsTsModel(options, req, ex);
      && (AllowsAnyOrigin(options.origin) ==>
            AllowOrigin in out.res.headers && out.res.headers[AllowOrigin] == "*" &&
            ("Origin" in out.res.vary <==> "Origin" in ex.res.vary))
      && (!AllowsAnyOrigin(options.origin) && options.origin.value.Str? ==>
            AllowOrigin in out.res.headers && out.res.headers[AllowOrigin] == options.origin.value.s &&
            "Origin" in out.res.vary)
      && (!AllowsAnyOrigin(options.origin) && !options.origin.value.Str? ==>
            "Origin" in out.res.vary &&
            (OriginAllowed(req.origin, options.origin.value) && Truthy(req.origin) ==>
              AllowOrigin in out.res.headers && out.res.headers[AllowOrigin] == req.origin.value) &&
            (!(OriginAllowed(req.origin, options.origin.value) && Truthy(req.origin)) ==>
              (AllowOrigin in out.res.headers <==> AllowOrigin in ex.res.headers) &&
              (AllowOrigin in ex.res.headers ==> out.res.headers[AllowOrigin] == ex.res.headers[AllowOrigin])))
  {
    HeaderAt(options, req, ex, AllowOrigin);
    PreflightHeaderAt(options, req, ex.res, AllowOrigin);
    ActualHeaderAt(options, req, ex.res, AllowOrigin);
    PathEffect(options, req, ex.res);
    var o := TokensOne(ConfigureOrigin(options, req));
    var h := TokensOne(ConfigureAllowedHeaders(options, req));
    AddVaryAllMembers(ex.res.vary, o + h, "Origin");
    AddVaryAllMembers(ex.res.vary, o, "Origin");
    assert "Origin" != RequestHeadersToken;
  }

  /** On a preflight with no allowed-headers setting the request's
      Access-Control-Request-Headers is reflected and added to Vary; with a
      setting, its value (a list joined with commas) is used; an empty value
      leaves the header untouched. */
  lemma AllowedHeadersHeader(options: CorsOptions, req: Request, ex: Exchange)
    requires IsPreflight(req)
    ensures var out := CorsTsModel(options, req, ex);
      var setting := AllowedHeadersSetting(options);
      && (!StringsTruthy(setting) ==>
            RequestHeadersToken in out.res.vary &&
            (Truthy(req.requestHeaders) ==>
              AllowHeaders in out.res.headers && out.res.headers[AllowHeaders] == req.requestHeaders.value))
      && (setting.Some? && setting.value.Many? && Join(setting.value.items, ",") != "" ==>
            AllowHeaders in out.res.headers && out.res.headers[AllowHeaders] == Join(setting.value.items, ","))
      && (setting.Some? && setting.value.One? && setting.value.s != "" ==>
            AllowHeaders in out.res.headers && out.res.headers[AllowHeaders] == setting.value.s)
      && (StringsTruthy(setting) ==>
            (RequestHeadersToken in out.res.vary <==> RequestHeadersToken in ex.res.vary))
      && (!Truthy(if StringsTruthy(setting) then StringsValue(setting) else req.requestHeaders) ==>
            (AllowHeaders in out.res.headers <==> AllowHeaders in ex.res.headers) &&
            (AllowHeaders in ex.res.headers ==> out.res.headers[AllowHeaders] == ex.res.headers[AllowHeaders]))
  {
    HeaderAt(options, req, ex, AllowHeaders);
    PreflightHeaderAt(options, req, ex.res, AllowHeaders);
    ActualHeaderAt(options, req, ex.res, AllowHeaders);
    PathEffect(options, req, ex.res);
    var o := TokensOne(ConfigureOrigin(options, req));
    var h := TokensOne(ConfigureAllowedHeaders(options, req));
    AddVaryAllMembers(ex.res.vary, o + h, RequestHeadersToken);
    assert "Origin" != RequestHeadersToken;
  }

  /** On a preflight, `maxAge` n sets Access-Control-Max-Age to n in
      decimal, "0" for zero; an unset maxAge leaves it as it was. */
  lemma MaxAgeHeader(options: CorsOptions, req: Request, ex: Exchange)
    requires IsPreflight(req)
    ensures var out := CorsTsModel(options, req, ex);
      && (options.maxAge.Some? ==>
            MaxAge in out.res.headers && out.res.headers[MaxAge] == NatToString(options.maxAge.value))
      && (options.maxAge == Some(0) ==> out.res.headers[MaxAge] == "0")
      && (options.maxAge.None? ==>
            (MaxAge in out.res.headers <==> MaxAge in ex.res.headers) &&
            (MaxAge in ex.res.headers ==> out.res.headers[MaxAge] == ex.res.headers[MaxAge]))
  {
    HeaderAt(options, req, ex, MaxAge);
    PreflightHeaderAt(options, req, ex.res, MaxAge);
    ActualHeaderAt(options, req, ex.res, MaxAge);
    if options.maxAge.Some? {
      NatToStringDecimal(options.maxAge.value);
    }
  }

  /** On either path, Access-Control-Expose-Headers is the exposed-headers
      setting (a list joined with commas) when that is non-empty, and is left
      as it was otherwise. */
  lemma ExposedHeadersHeader(options: CorsOptions, req: Request, ex: Exchange)
    ensures var out := CorsTsModel(options, req, ex);
      var value := StringsValue(options.exposedHeaders);
      && (StringsTruthy(options.exposedHeaders) && Truthy(value) ==>
            ExposeHeaders in out.res.headers && out.res.headers[ExposeHeaders] == value.value)
      && (!(StringsTruthy(options.exposedHeaders) && Truthy(value)) ==>
            (ExposeHeaders in out.res.headers <==> ExposeHeaders in ex.res.headers) &&
            (ExposeHeaders in ex.res.headers ==> out.res.headers[ExposeHeaders] == ex.res.headers[ExposeHeaders]))
  {
    HeaderAt(options, req, ex, ExposeHeaders);
    PreflightHeaderAt(options, req, ex.res, ExposeHeaders);
    ActualHeaderAt(options, req, ex.res, ExposeHeaders);
  }

  /** Re-applying writes that do not touch `k`, then setting `k` again,
      gives the same headers as the first time. */
  lemma ReapplyOverride(h: map<string, string>, w: map<string, string>, k: string, v: string)
    requires k !in w
    ensures ((h + w)[k := v] + w)[k := v] == (h + w)[k := v]
  {
  }

  /** Running corsTs twice on the same request leaves the same headers and
      Vary tokens as running it once. */
  lemma HeadersIdempotent(options: CorsOptions, req: Request, ex: Exchange)
    ensures CorsTsModel(options, req, CorsTsModel(options, req, ex)).res.headers
         == CorsTsModel(options, req, ex).res.headers
    ensures CorsTsModel(options, req, CorsTsModel(options, req, ex)).res.vary
         == CorsTsModel(options, req, ex).res.vary
  {
    if IsPreflight(req) {
      var ds := PreflightDirectives(options, req);
      ApplyIdempotent(ex.res, ds);
      if options.preflightContinue != Some(true) {
        TerminatedIdempotent(options, req, ex.res);
      }
    } else {
      ApplyIdempotent(ex.res, ActualDirectives(options, req));
    }
  }

  /** A second run over an ended preflight rewrites the same headers and
      Vary tokens. */
  lemma TerminatedIdempotent(options: CorsOptions, req: Request, st: ResState)
    ensures var ds := PreflightDirectives(options, req);
      var once := ApplyAll(st, ds);
      var ended := once.(statusCode := options.optionsSuccessStatus,
                         headers := once.headers[ContentLength := "0"], ended := true);
      && ApplyAll(ended, ds).headers[ContentLength := "0"] == ended.headers
      && ApplyAll(ended, ds).vary == ended.vary
  {
    var ds := PreflightDirectives(options, req);
    var once := ApplyAll(st, ds);
    var ended := once.(statusCode := options.optionsSuccessStatus,
                       headers := once.headers[ContentLength := "0"], ended := true);
    var w := WritesAll(ds);
    DirectivesEffect(options, req);
    assert ContentLength !in w;
    ApplyAllEffect(st, ds);
    ApplyAllEffect(ended, ds);
    ApplyIdempotent(st, ds);
    ReapplyOverride(st.headers, w, ContentLength, "0");
    forall t | t in TokensAll(ds) ensures t in once.vary {
      AddVaryAllMembers(st.vary, TokensAll(ds), t);
    }
    AddVaryAllPresent(once.vary, TokensAll(ds));
  }
}
