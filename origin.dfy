/** Origin matching: whether a request's Origin header is allowed by an
    `origin` option that is a boolean, a string, a regular expression or a
    (possibly nested) list of these. */
module CorsOrigin {
  import opened CorsTypes

  /** The matching rule, element by element in list order as the source's
      loop visits them. */
  function OriginAllowed(origin: Option<string>, allowed: OriginSetting): bool
    decreases allowed, 1
  {
    match allowed
    case List(items) => AnyAllowed(origin, items)
    case Str(s) => origin == Some(s)
    case Re(test) => test(JsString(origin))
    case _ => OriginTruthy(Some(allowed))
  }

  function AnyAllowed(origin: Option<string>, items: seq<OriginSetting>): bool
    decreases items, 0
  {
    |items| > 0 && (OriginAllowed(origin, items[0]) || AnyAllowed(origin, items[1..]))
  }

  /** A list allows an origin exactly when one of its elements does; hence
      the empty list allows nothing. A string allows only itself, a boolean
      allows by its value, a regular expression allows what its test accepts
      (undefined is tested as "undefined"), and a callback (truthy) allows
      everything. */
  lemma {:induction false} OriginAllowedCases(origin: Option<string>, allowed: OriginSetting)
    ensures allowed.List? ==>
      (OriginAllowed(origin, allowed) <==>
        exists i :: 0 <= i < |allowed.items| && OriginAllowed(origin, allowed.items[i]))
    ensures allowed.List? && allowed.items == [] ==> !OriginAllowed(origin, allowed)
    ensures allowed.Str? ==> (OriginAllowed(origin, allowed) <==> origin == Some(allowed.s))
    ensures allowed.Bool? ==> OriginAllowed(origin, allowed) == allowed.b
    ensures allowed.Dyn? ==> OriginAllowed(origin, allowed)
    ensures allowed.Re? ==> OriginAllowed(origin, allowed) == allowed.test(JsString(origin))
  {
    if allowed.List? {
      AnyAllowedExists(origin, allowed.items);
    }
  }

  lemma {:induction false} AnyAllowedExists(origin: Option<string>, items: seq<OriginSetting>)
    ensures AnyAllowed(origin, items) <==>
      exists i :: 0 <= i < |items| && OriginAllowed(origin, items[i])
  {
    if |items| > 0 {
      AnyAllowedExists(origin, items[1..]);
      if OriginAllowed(origin, items[0]) {
        assert 0 <= 0 < |items| && OriginAllowed(origin, items[0]);
      }
      if exists i :: 0 <= i < |items| && OriginAllowed(origin, items[i]) {
        var i :| 0 <= i < |items| && OriginAllowed(origin, items[i]);
        if i > 0 {
          assert items[1..][i - 1] == items[i];
        }
      }
      if exists j :: 0 <= j < |items[1..]| && OriginAllowed(origin, items[1..][j]) {
        var j :| 0 <= j < |items[1..]| && OriginAllowed(origin, items[1..][j]);
        assert items[1..][j] == items[j + 1];
      }
    }
  }

  /** isOriginAllowed as the source writes it: a loop over a list that
      returns at the first allowed element, recursing into each element. */
  method IsOriginAllowed(origin: Option<string>, allowed: OriginSetting) returns (r: bool)
    ensures r <==> OriginAllowed(origin, allowed)
    decreases allowed
  {
    if allowed.List? {
      var items := allowed.items;
      var i := 0;
      while i < |items|
        invariant 0 <= i <= |items|
        invariant AnyAllowed(origin, items) == AnyAllowed(origin, items[i..])
      {
        var ok := IsOriginAllowed(origin, items[i]);
        assert items[i..][1..] == items[i + 1..];
        if ok {
          return true;
        }
        i := i + 1;
      }
      return false;
    } else if allowed.Str? {
      r := origin == Some(allowed.s);
    } else if allowed.Re? {
      r := allowed.test(JsString(origin));
    } else {
      r := OriginTruthy(Some(allowed));
    }
  }
}
