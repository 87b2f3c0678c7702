/** The response and the `next` continuation the middleware acts on, and
    applyHeaders, which walks a directive list and updates the response in
    place. */
module CorsResponse {
  import opened CorsTypes
  import opened CorsDirectives

  /** The response object: the headers set with setHeader, the Vary header
      (kept as its list of tokens), the status code and whether end() ran. */
  class Response {
    var statusCode: Option<int>
    var headers: map<string, string>
    var vary: seq<string>
    var ended: bool

    constructor ()
      ensures State() == ResState(map[], [], None, false)
    {
      statusCode, headers, vary, ended := None, map[], [], false;
    }

    function State(): ResState
      reads this
    {
      ResState(headers, vary, statusCode, ended)
    }

    method SetHeader(key: string, value: string)
      modifies this
      ensures State() == old(State()).(headers := old(headers)[key := value])
    {
      headers := headers[key := value];
    }

    /** The vary helper applied to this response. */
    method Vary(field: string)
      modifies this
      ensures State() == old(State()).(vary := AddVary(old(vary), field))
    {
      vary := AddVary(vary, field);
    }

    method End()
      modifies this
      ensures State() == old(State()).(ended := true)
    {
      ended := true;
    }
  }

  /** The `next` continuation, recorded as the list of its calls: `None` for
      next() (or next(null)), `Some(err)` for next(err). */
  class Next {
    var calls: seq<Option<Error>>

    constructor ()
      ensures calls == []
    {
      calls := [];
    }

    method Call(err: Option<Error>)
      modifies this
      ensures calls == old(calls) + [err]
    {
      calls := calls + [err];
    }
  }

  /** applyHeaders: the loop over a directive list, recursing into groups,
      sending truthy `Vary` values to the vary helper and setting every other
      truthy value with setHeader. */
  method ApplyHeaders(ds: seq<Directive>, res: Response)
    modifies res
    ensures res.State() == ApplyAll(old(res.State()), ds)
    decreases ds
  {
    var i := 0;
    while i < |ds|
      invariant 0 <= i <= |ds|
      invariant ApplyAll(res.State(), ds[i..]) == ApplyAll(old(res.State()), ds)
    {
      var header := ds[i];
      ghost var before := res.State();
      match header {
        case Null =>
        case Group(items) =>
          ApplyHeaders(items, res);
        case Pair(key, value) =>
          if key == VaryKey && Truthy(value) {
            res.Vary(value.value);
          } else if Truthy(value) {
            res.SetHeader(key, value.value);
          }
      }
      assert res.State() == ApplyOne(before, header);
      assert ds[i..][0] == header && ds[i..][1..] == ds[i + 1..];
      i := i + 1;
    }
  }
}
