/** Header composition and application: the configure functions that turn
    the options and the request into header directives, and the meaning of
    applying a list of directives to the response state (applyHeaders). */
module CorsDirectives {
  import opened CorsTypes
  import opened CorsOrigin

  // ---------------------------------------------------------------------
  // What a directive does to the response, two ways.
  // ---------------------------------------------------------------------

  /** The vary helper, as a token union: a field already listed is not
      added again. */
  function AddVary(tokens: seq<string>, field: string): (r: seq<string>)
    ensures field in r
    ensures forall t :: t in tokens ==> t in r
    ensures forall t :: t in r ==> t in tokens || t == field
  {
    if field in tokens then tokens else tokens + [field]
  }

  /** The vary helper applied to each field in turn. */
  function AddVaryAll(tokens: seq<string>, fields: seq<string>): seq<string>
    decreases fields
  {
    if fields == [] then tokens else AddVaryAll(AddVary(tokens, fields[0]), fields[1..])
  }

  /** Vary on a list of fields holds exactly the old tokens and the fields. */
  lemma {:induction false} AddVaryAllMembers(tokens: seq<string>, fields: seq<string>, t: string)
    ensures t in AddVaryAll(tokens, fields) <==> t in tokens || t in fields
    decreases fields
  {
    if fields != [] {
      AddVaryAllMembers(AddVary(tokens, fields[0]), fields[1..], t);
      assert fields == [fields[0]] + fields[1..];
    }
  }

  /** applyHeaders on one directive: groups are applied element by element;
      a `Vary` pair with a truthy value goes to the vary helper; any other
      pair with a truthy value is set with setHeader; the rest is skipped. */
  function ApplyOne(st: ResState, d: Directive): ResState
    decreases d, 1
  {
    match d
    case Null => st
    case Group(items) => ApplyAll(st, items)
    case Pair(key, value) =>
      if key == VaryKey && Truthy(value) then st.(vary := AddVary(st.vary, value.value))
      else if Truthy(value) then st.(headers := st.headers[key := value.value])
      else st
  }

  /** applyHeaders on a list of directives, in order. */
  function ApplyAll(st: ResState, ds: seq<Directive>): ResState
    decreases ds, 0
  {
    if ds == [] then st else ApplyAll(ApplyOne(st, ds[0]), ds[1..])
  }

  /** The headers a directive sets with setHeader (later entries win). */
  function WritesOne(d: Directive): map<string, string>
    decreases d, 1
  {
    match d
    case Null => map[]
    case Group(items) => WritesAll(items)
    case Pair(key, value) => if key != VaryKey && Truthy(value) then map[key := value.value] else map[]
  }

  function WritesAll(ds: seq<Directive>): map<string, string>
    decreases ds, 0
  {
    if ds == [] then map[] else WritesOne(ds[0]) + WritesAll(ds[1..])
  }

  /** The fields a directive hands to the vary helper, in order. */
  function TokensOne(d: Directive): seq<string>
    decreases d, 1
  {
    match d
    case Null => []
    case Group(items) => TokensAll(items)
    case Pair(key, value) => if key == VaryKey && Truthy(value) then [value.value] else []
  }

  function TokensAll(ds: seq<Directive>): seq<string>
    decreases ds, 0
  {
    if ds == [] then [] else TokensOne(ds[0]) + TokensAll(ds[1..])
  }

  /** The effect of the fields a directive list computes: a directive
      overrides the headers it sets, merges its Vary fields, and leaves the
      status code and the ended flag alone. */
  function Effect(st: ResState, ds: seq<Directive>): ResState {
    st.(headers := st.headers + WritesAll(ds), vary := AddVaryAll(st.vary, TokensAll(ds)))
  }

  /** A one-element list writes and adds what its element does. */
  lemma Singleton(d: Directive)
    ensures WritesAll([d]) == WritesOne(d)
    ensures TokensAll([d]) == TokensOne(d)
  {
  }

  /** A directive wrapped in two groups writes and adds what it does alone. */
  lemma DoublyGroupedWrites(a: Directive)
    ensures WritesOne(Group([Group([a])])) == WritesOne(a)
    ensures TokensOne(Group([Group([a])])) == TokensOne(a)
  {
    Singleton(a);
    Singleton(Group([a]));
  }

  /** A group of two singleton groups writes the union of what its two
      directives write (the second winning) and adds both their Vary fields. */
  lemma TwoGroupedWrites(a: Directive, b: Directive)
    ensures WritesOne(Group([Group([a]), Group([b])])) == WritesOne(a) + WritesOne(b)
    ensures TokensOne(Group([Group([a]), Group([b])])) == TokensOne(a) + TokensOne(b)
  {
    var ga, gb := Group([a]), Group([b]);
    Singleton(a);
    Singleton(b);
    Singleton(gb);
    assert [ga, gb][0] == ga && [ga, gb][1..] == [gb];
    assert WritesAll([ga, gb]) == WritesOne(ga) + WritesAll([gb]);
    assert TokensAll([ga, gb]) == TokensOne(ga) + TokensAll([gb]);
  }

  // ---------------------------------------------------------------------
  // The configure functions.
  // ---------------------------------------------------------------------

  /** The `origin` option allows any origin: it is falsy or the string "*". */
  predicate AllowsAnyOrigin(o: Option<OriginSetting>) {
    !OriginTruthy(o) || (o.Some? && o.value.Str? && o.value.s == "*")
  }

  /** configureOrigin: `*` for any origin; a fixed string with `Vary: Origin`;
      otherwise the request's origin when it is allowed (undefined when it is
      not) with `Vary: Origin`. */
  function ConfigureOrigin(options: CorsOptions, req: Request): (d: Directive)
    ensures WritesOne(d).Keys <= {AllowOrigin}
    ensures AllowsAnyOrigin(options.origin) ==>
      WritesOne(d) == map[AllowOrigin := "*"] && TokensOne(d) == []
    ensures !AllowsAnyOrigin(options.origin) && options.origin.value.Str? ==>
      WritesOne(d) == map[AllowOrigin := options.origin.value.s] && TokensOne(d) == ["Origin"]
    ensures !AllowsAnyOrigin(options.origin) && !options.origin.value.Str? ==>
      TokensOne(d) == ["Origin"] &&
      WritesOne(d) == if OriginAllowed(req.origin, options.origin.value) && Truthy(req.origin)
                      then map[AllowOrigin := req.origin.value] else map[]
  {
    var vary := Pair(VaryKey, Some("Origin"));
    if AllowsAnyOrigin(options.origin) then
      var allow := Pair(AllowOrigin, Some("*"));
      DoublyGroupedWrites(allow);
      Group([Group([allow])])
    else if options.origin.value.Str? then
      var allow := Pair(AllowOrigin, Some(options.origin.value.s));
      TwoGroupedWrites(allow, vary);
      Group([Group([allow]), Group([vary])])
    else
      var isAllowed := OriginAllowed(req.origin, options.origin.value);
      var allow := Pair(AllowOrigin, if isAllowed then req.origin else None);
      TwoGroupedWrites(allow, vary);
      Group([Group([allow]), Group([vary])])
  }

  /** configureMethods: the methods string, or the list joined with commas. */
  function ConfigureMethods(options: CorsOptions): (d: Directive)
    ensures WritesOne(d).Keys <= {AllowMethods}
    ensures TokensOne(d) == []
    ensures options.methods.Some? && options.methods.value.Many? && Join(options.methods.value.items, ",") != "" ==>
      WritesOne(d) == map[AllowMethods := Join(options.methods.value.items, ",")]
    ensures options.methods.Some? && options.methods.value.One? && options.methods.value.s != "" ==>
      WritesOne(d) == map[AllowMethods := options.methods.value.s]
    ensures !Truthy(StringsValue(options.methods)) ==> WritesOne(d) == map[]
  {
    Pair(AllowMethods, StringsValue(options.methods))
  }

  /** configureCredentials: `Access-Control-Allow-Credentials: true` exactly
      when `credentials` is true; never the value "false". */
  function ConfigureCredentials(options: CorsOptions): (d: Directive)
    ensures WritesOne(d).Keys <= {AllowCredentials}
    ensures TokensOne(d) == []
    ensures WritesOne(d) == if options.credentials == Some(true) then map[AllowCredentials := "true"] else map[]
  {
    if options.credentials == Some(true) then Pair(AllowCredentials, Some("true")) else Null
  }

  /** The allowed-headers setting in force: `allowedHeaders`, or the legacy
      `headers` when `allowedHeaders` is falsy. */
  function AllowedHeadersSetting(options: CorsOptions): Option<Strings> {
    if StringsTruthy(options.allowedHeaders) then options.allowedHeaders else options.headers
  }

  /** configureAllowedHeaders: with no setting, reflect the request's
      Access-Control-Request-Headers and add `Vary: Access-Control-Request-Headers`;
      otherwise the setting, joined with commas when it is a list; the header
      is omitted when the value is empty. */
  function ConfigureAllowedHeaders(options: CorsOptions, req: Request): (d: Directive)
    ensures WritesOne(d).Keys <= {AllowHeaders}
    ensures !StringsTruthy(AllowedHeadersSetting(options)) ==>
      TokensOne(d) == [RequestHeadersToken] &&
      WritesOne(d) == if Truthy(req.requestHeaders) then map[AllowHeaders := req.requestHeaders.value] else map[]
    ensures StringsTruthy(AllowedHeadersSetting(options)) ==>
      TokensOne(d) == [] &&
      WritesOne(d) == if Truthy(StringsValue(AllowedHeadersSetting(options)))
                      then map[AllowHeaders := StringsValue(AllowedHeadersSetting(options)).value] else map[]
  {
    var setting := AllowedHeadersSetting(options);
    var vary := Pair(VaryKey, Some(RequestHeadersToken));
    if !StringsTruthy(setting) then
      var allow := Pair(AllowHeaders, req.requestHeaders);
      if Truthy(req.requestHeaders) then
        TwoGroupedWrites(vary, allow);
        Group([Group([vary]), Group([allow])])
      else
        DoublyGroupedWrites(vary);
        Group([Group([vary])])
    else
      var value := StringsValue(setting);
      if Truthy(value) then
        var allow := Pair(AllowHeaders, value);
        DoublyGroupedWrites(allow);
        Group([Group([allow])])
      else
        Group([])
  }

  /** configureExposedHeaders: the setting (joined with commas when a list),
      or null when it is unset or empty. */
  function ConfigureExposedHeaders(options: CorsOptions): (d: Directive)
    ensures WritesOne(d).Keys <= {ExposeHeaders}
    ensures TokensOne(d) == []
    ensures WritesOne(d) == if StringsTruthy(options.exposedHeaders) && Truthy(StringsValue(options.exposedHeaders))
                            then map[ExposeHeaders := StringsValue(options.exposedHeaders).value] else map[]
  {
    if !StringsTruthy(options.exposedHeaders) then Null
    else
      var value := StringsValue(options.exposedHeaders);
      if Truthy(value) then Pair(ExposeHeaders, value) else Null
  }

  /** configureMaxAge: the number in decimal, zero included; nothing when unset. */
  function ConfigureMaxAge(options: CorsOptions): (d: Directive)
    ensures WritesOne(d).Keys <= {MaxAge}
    ensures TokensOne(d) == []
    ensures options.maxAge.None? ==> WritesOne(d) == map[]
    ensures options.maxAge.Some? ==> WritesOne(d) == map[MaxAge := NatToString(options.maxAge.value)]
    ensures options.maxAge == Some(0) ==> WritesOne(d) == map[MaxAge := "0"]
  {
    match options.maxAge
    case None => Null
    case Some(n) =>
      var value := NatToString(n);
      NatToStringDecimal(n);
      if |value| > 0 then Pair(MaxAge, Some(value)) else Null
  }

  // ---------------------------------------------------------------------
  // Properties of applying directives.
  // ---------------------------------------------------------------------

  /** Vary on a concatenation is Vary on the first part, then on the second. */
  lemma {:induction false} AddVaryAllAppend(tokens: seq<string>, a: seq<string>, b: seq<string>)
    ensures AddVaryAll(tokens, a + b) == AddVaryAll(AddVaryAll(tokens, a), b)
    decreases a
  {
    if a != [] {
      assert (a + b)[0] == a[0] && (a + b)[1..] == a[1..] + b;
      AddVaryAllAppend(AddVary(tokens, a[0]), a[1..], b);
    } else {
      assert a + b == b;
    }
  }

  /** Applying directives does exactly what Effect says: the headers they
      set override, their Vary fields are merged, nothing else changes. */
  lemma {:induction false} ApplyOneEffect(st: ResState, d: Directive)
    ensures ApplyOne(st, d) == Effect(st, [d])
    decreases d, 1
  {
    Singleton(d);
    match d
    case Null =>
    case Group(items) =>
      ApplyAllEffect(st, items);
    case Pair(key, value) =>
      assert st.headers + map[] == st.headers;
      if key != VaryKey && Truthy(value) {
        assert st.headers + map[key := value.value] == st.headers[key := value.value];
      }
      if key == VaryKey && Truthy(value) {
        assert [value.value][1..] == [];
        assert AddVaryAll(st.vary, [value.value]) == AddVary(st.vary, value.value);
      }
  }

  lemma {:induction false} ApplyAllEffect(st: ResState, ds: seq<Directive>)
    ensures ApplyAll(st, ds) == Effect(st, ds)
    decreases ds, 0
  {
    if ds == [] {
      assert st.headers + map[] == st.headers;
    } else {
      var mid := ApplyOne(st, ds[0]);
      ApplyOneEffect(st, ds[0]);
      ApplyAllEffect(mid, ds[1..]);
      Singleton(ds[0]);
      AddVaryAllAppend(st.vary, TokensOne(ds[0]), TokensAll(ds[1..]));
      assert (st.headers + WritesOne(ds[0])) + WritesAll(ds[1..])
          == st.headers + (WritesOne(ds[0]) + WritesAll(ds[1..]));
    }
  }

  /** The vary helper is never bypassed: no directive list sets `Vary` with
      setHeader, so a response without a plain `Vary` header keeps none. */
  lemma {:induction false} VaryNeverSet(st: ResState, ds: seq<Directive>)
    requires VaryKey !in st.headers
    ensures VaryKey !in ApplyAll(st, ds).headers
  {
    ApplyAllEffect(st, ds);
    NoVaryWrites(ds);
  }

  /** No directive list writes `Vary` through setHeader. */
  lemma {:induction false} NoVaryWrites(ds: seq<Directive>)
    ensures VaryKey !in WritesAll(ds)
    decreases ds
  {
    if ds != [] {
      NoVaryWrites(ds[1..]);
      if ds[0].Group? {
        NoVaryWrites(ds[0].items);
      }
    }
  }

  /** Vary on fields that are all present already changes nothing. */
  lemma {:induction false} AddVaryAllPresent(tokens: seq<string>, fields: seq<string>)
    requires forall t :: t in fields ==> t in tokens
    ensures AddVaryAll(tokens, fields) == tokens
    decreases fields
  {
    if fields != [] {
      assert fields[0] in fields;
      forall t | t in fields[1..] ensures t in tokens {
        assert t in fields;
      }
      AddVaryAllPresent(tokens, fields[1..]);
    }
  }

  /** Applying the same directives twice leaves the response as applying
      them once: setHeader writes the same values again and the Vary token
      union is idempotent. */
  lemma ApplyIdempotent(st: ResState, ds: seq<Directive>)
    ensures ApplyAll(ApplyAll(st, ds), ds) == ApplyAll(st, ds)
  {
    var once := ApplyAll(st, ds);
    ApplyAllEffect(st, ds);
    ApplyAllEffect(once, ds);
    forall t | t in TokensAll(ds) ensures t in once.vary {
      AddVaryAllMembers(st.vary, TokensAll(ds), t);
    }
    AddVaryAllPresent(once.vary, TokensAll(ds));
    assert (st.headers + WritesAll(ds)) + WritesAll(ds) == st.headers + WritesAll(ds);
  }
}
