/** The middleware returned by cors(options): obtain the options (static, or
    from a provider callback), merge them over the defaults, resolve the
    `origin` option (possibly through an origin callback), and then either
    pass an error or a denial to `next`, or run corsTs. */
module CorsWrapper {
  import opened CorsTypes
  import opened CorsOrigin
  import opened CorsDirectives
  import opened CorsResponse
  import opened CorsDispatch

  /** What an options provider passes to its completion: an error, or a
      (possibly undefined) options record. */
  datatype ProviderAnswer =
    | ProviderError(err: Error)
    | ProviderOptions(options: Option<CorsOptions>)

  /** The argument of cors(): a static options record (cors() with no
      argument is cors({})), or a provider callback, represented by the
      answer it gives for this request. */
  datatype Provider =
    | Static(options: CorsOptions)
    | Delegate(answer: ProviderAnswer)

  /** The defaults record. */
  const Defaults := CorsOptions(
    origin := Some(Str("*")),
    methods := Some(One(DefaultMethods)),
    allowedHeaders := None,
    headers := None,
    exposedHeaders := None,
    credentials := None,
    maxAge := None,
    preflightContinue := Some(false),
    optionsSuccessStatus := Some(204))

  /** middlewareWrapper's normalisation: static options become a provider
      that answers them unchanged. */
  function OptionsCallback(p: Provider): ProviderAnswer {
    match p
    case Static(o) => ProviderOptions(Some(o))
    case Delegate(answer) => answer
  }

  /** assign({}, base, over): every key present in `over` replaces the one in
      `base`; an undefined `over` leaves `base` as it is. */
  function Assign(base: CorsOptions, over: Option<CorsOptions>): CorsOptions {
    match over
    case None => base
    case Some(o) =>
      CorsOptions(
        origin := if o.origin.Some? then o.origin else base.origin,
        methods := if o.methods.Some? then o.methods else base.methods,
        allowedHeaders := if o.allowedHeaders.Some? then o.allowedHeaders else base.allowedHeaders,
        headers := if o.headers.Some? then o.headers else base.headers,
        exposedHeaders := if o.exposedHeaders.Some? then o.exposedHeaders else base.exposedHeaders,
        credentials := if o.credentials.Some? then o.credentials else base.credentials,
        maxAge := if o.maxAge.Some? then o.maxAge else base.maxAge,
        preflightContinue := if o.preflightContinue.Some? then o.preflightContinue else base.preflightContinue,
        optionsSuccessStatus := if o.optionsSuccessStatus.Some? then o.optionsSuccessStatus else base.optionsSuccessStatus)
  }

  /** The origin callback in force for merged options with a truthy origin:
      the user's callback, or one that answers the static origin. */
  function OriginCallbackAnswer(origin: OriginSetting): OriginAnswer {
    if origin.Dyn? then origin.answer else OriginValue(Some(origin))
  }

  /** What the middleware does to the response and to `next` for one request. */
  function MiddlewareModel(p: Provider, req: Request, ex: Exchange): Exchange {
    match OptionsCallback(p)
    case ProviderError(err) => ex.(nextCalls := ex.nextCalls + [Some(err)])
    case ProviderOptions(options) =>
      var corsOptions := Assign(Defaults, options);
      if !OriginTruthy(corsOptions.origin) then
        ex.(nextCalls := ex.nextCalls + [None])
      else
        match OriginCallbackAnswer(corsOptions.origin.value)
        case OriginError(err2) => ex.(nextCalls := ex.nextCalls + [Some(err2)])
        case OriginValue(origin) =>
          if !OriginTruthy(origin) then ex.(nextCalls := ex.nextCalls + [None])
          else CorsTsModel(corsOptions.(origin := origin), req, ex)
  }

  /** corsMiddleware as the source writes it. */
  method CorsMiddleware(p: Provider, req: Request, res: Response, next: Next)
    modifies res, next
    ensures Exchange(res.State(), next.calls)
         == MiddlewareModel(p, req, Exchange(old(res.State()), old(next.calls)))
  {
    var answer := OptionsCallback(p);
    if answer.ProviderError? {
      next.Call(Some(answer.err));
      return;
    }
    var corsOptions := Assign(Defaults, answer.options);
    var originCallback: Option<OriginAnswer> := None;
    if OriginTruthy(corsOptions.origin) && corsOptions.origin.value.Dyn? {
      originCallback := Some(corsOptions.origin.value.answer);
    } else if OriginTruthy(corsOptions.origin) {
      originCallback := Some(OriginValue(corsOptions.origin));
    }
    if originCallback.Some? {
      match originCallback.value {
        case OriginError(err2) =>
          next.Call(Some(err2));
        case OriginValue(origin) =>
          if !OriginTruthy(origin) {
            next.Call(None);
          } else {
            corsOptions := corsOptions.(origin := origin);
            CorsTs(corsOptions, req, res, next);
          }
      }
    } else {
      next.Call(None);
    }
  }

  // ---------------------------------------------------------------------
  // What the middleware promises.
  // ---------------------------------------------------------------------

  /** Merging over the defaults: an absent key takes its default (origin
      "*", the default methods, preflightContinue false, status 204), a
      present key keeps its value. */
  lemma MergedOverDefaults(o: CorsOptions)
    ensures var m := Assign(Defaults, Some(o));
      && (o.origin.None? ==> m.origin.Some? && m.origin.value.Str? && m.origin.value.s == "*")
      && (o.origin.Some? ==> m.origin == o.origin)
      && m.methods == (if o.methods.Some? then o.methods else Some(One(DefaultMethods)))
      && m.preflightContinue == (if o.preflightContinue.Some? then o.preflightContinue else Some(false))
      && m.optionsSuccessStatus == (if o.optionsSuccessStatus.Some? then o.optionsSuccessStatus else Some(204))
      && m.allowedHeaders == o.allowedHeaders && m.headers == o.headers
      && m.exposedHeaders == o.exposedHeaders && m.credentials == o.credentials && m.maxAge == o.maxAge
  {
  }

  /** Errors and denials short-circuit: a provider error, an origin-callback
      error, or a falsy origin calls `next` once with the error (or with
      nothing) and leaves the response untouched; otherwise corsTs runs with
      the merged options and the resolved origin. */
  lemma ShortCircuits(p: Provider, req: Request, ex: Exchange)
    ensures var out := MiddlewareModel(p, req, ex);
      && (OptionsCallback(p).ProviderError? ==>
            out == Exchange(ex.res, ex.nextCalls + [Some(OptionsCallback(p).err)]))
      && (OptionsCallback(p).ProviderOptions? ==>
            var merged := Assign(Defaults, OptionsCallback(p).options);
            && (!OriginTruthy(merged.origin) ==> out == Exchange(ex.res, ex.nextCalls + [None]))
            && (OriginTruthy(merged.origin) ==>
                  var answer := OriginCallbackAnswer(merged.origin.value);
                  && (answer.OriginError? ==> out == Exchange(ex.res, ex.nextCalls + [Some(answer.err)]))
                  && (answer.OriginValue? && !OriginTruthy(answer.origin) ==>
                        out == Exchange(ex.res, ex.nextCalls + [None]))
                  && (answer.OriginValue? && OriginTruthy(answer.origin) ==>
                        out == CorsTsModel(merged.(origin := answer.origin), req, ex))))
  {
  }

  /** A static truthy origin is used as it is: with no origin callback,
      corsTs runs with exactly the merged options. */
  lemma StaticOriginPassesThrough(o: CorsOptions, req: Request, ex: Exchange)
    requires OriginTruthy(Assign(Defaults, Some(o)).origin)
    requires !Assign(Defaults, Some(o)).origin.value.Dyn?
    ensures MiddlewareModel(Static(o), req, ex) == CorsTsModel(Assign(Defaults, Some(o)), req, ex)
  {
    var merged := Assign(Defaults, Some(o));
    assert merged.(origin := merged.origin) == merged;
  }

  /** Every request either ends the response without calling `next`, or
      calls `next` exactly once without ending it; never both, never neither. */
  lemma NextOrEnd(p: Provider, req: Request, ex: Exchange)
    ensures var out := MiddlewareModel(p, req, ex);
      || (out.nextCalls == ex.nextCalls && out.res.ended)
      || (|out.nextCalls| == |ex.nextCalls| + 1 && out.nextCalls[..|ex.nextCalls|] == ex.nextCalls &&
          out.res.ended == ex.res.ended)
  {
    var out := MiddlewareModel(p, req, ex);
    var answer := OptionsCallback(p);
    if answer.ProviderOptions? {
      var merged := Assign(Defaults, answer.options);
      if OriginTruthy(merged.origin) {
        var oa := OriginCallbackAnswer(merged.origin.value);
        if oa.OriginValue? && OriginTruthy(oa.origin) {
          ControlFlow(merged.(origin := oa.origin), req, ex);
        }
      }
    }
    assert (ex.nextCalls + [None])[..|ex.nextCalls|] == ex.nextCalls;
  }

  /** With no options at all, a preflight request from a fresh response is
      answered 204 with `Content-Length: 0`, `Access-Control-Allow-Origin: *`,
      the default methods, no Vary and no credentials header, and `next` is
      not called. */
  lemma DefaultPreflight(req: Request)
    requires IsPreflight(req)
    ensures var out := MiddlewareModel(Static(NoOptions), req, Exchange(ResState(map[], [], None, false), []));
      && out.res.statusCode == Some(204) && out.res.ended && out.nextCalls == []
      && ContentLength in out.res.headers && out.res.headers[ContentLength] == "0"
      && AllowOrigin in out.res.headers && out.res.headers[AllowOrigin] == "*"
      && AllowMethods in out.res.headers && out.res.headers[AllowMethods] == DefaultMethods
      && AllowCredentials !in out.res.headers
      && "Origin" !in out.res.vary
  {
    var merged := Assign(Defaults, Some(NoOptions));
    var ex := Exchange(ResState(map[], [], None, false), []);
    assert merged.(origin := merged.origin) == merged;
    ControlFlow(merged, req, ex);
    OriginHeaders(merged, req, ex);
    CredentialsHeader(merged, req, ex);
    PreflightHeaderAt(merged, req, ex.res, AllowMethods);
    HeaderAt(merged, req, ex, AllowMethods);
  }
}
