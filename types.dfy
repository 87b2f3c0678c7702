/** Values shared by the whole CORS middleware model: the options record,
    the request fields the middleware reads, header directives and the
    response state they act on, plus the small string helpers (Array.join,
    number-to-string, upper-casing) the middleware relies on. */
module CorsTypes {

  datatype Option<+T> = None | Some(value: T)

  /** An error handed to a callback; any error object is truthy. */
  datatype Error = Error(message: string)

  /** The `origin` option: boolean, fixed string, regular expression, list,
      or a callback. A regular expression is represented by its `test`
      function; a callback by the single answer it gives for this request. */
  datatype OriginSetting =
    | Bool(b: bool)
    | Str(s: string)
    | Re(test: string -> bool)
    | List(items: seq<OriginSetting>)
    | Dyn(answer: OriginAnswer)

  /** What an origin callback passes to its completion: an error, or a
      (possibly undefined) origin value. */
  datatype OriginAnswer =
    | OriginError(err: Error)
    | OriginValue(origin: Option<OriginSetting>)

  /** `methods`, `allowedHeaders`, `exposedHeaders`: a string or a list of strings. */
  datatype Strings = One(s: string) | Many(items: seq<string>)

  /** The options record; `None` means the key is absent. `headers` is the
      legacy alias that configureAllowedHeaders falls back to. */
  datatype CorsOptions = CorsOptions(
    origin: Option<OriginSetting>,
    methods: Option<Strings>,
    allowedHeaders: Option<Strings>,
    headers: Option<Strings>,
    exposedHeaders: Option<Strings>,
    credentials: Option<bool>,
    maxAge: Option<nat>,
    preflightContinue: Option<bool>,
    optionsSuccessStatus: Option<int>)

  const NoOptions := CorsOptions(None, None, None, None, None, None, None, None, None)

  /** The request fields the middleware reads: the method (`verb`) and the `origin`
      and `access-control-request-headers` headers. */
  datatype Request = Request(
    verb: Option<string>,
    origin: Option<string>,
    requestHeaders: Option<string>)

  /** A header directive: absent (`null`), a key/value pair whose value may be
      `undefined`, or a nested group of directives. */
  datatype Directive =
    | Null
    | Pair(key: string, value: Option<string>)
    | Group(items: seq<Directive>)

  /** The observable state of the response: the headers set with setHeader,
      the tokens of the Vary header, the status code and whether end() ran. */
  datatype ResState = ResState(
    headers: map<string, string>,
    vary: seq<string>,
    statusCode: Option<int>,
    ended: bool)

  const AllowOrigin := "Access-Control-Allow-Origin"
  const AllowCredentials := "Access-Control-Allow-Credentials"
  const AllowMethods := "Access-Control-Allow-Methods"
  const AllowHeaders := "Access-Control-Allow-Headers"
  const MaxAge := "Access-Control-Max-Age"
  const ExposeHeaders := "Access-Control-Expose-Headers"
  const VaryKey := "Vary"
  const ContentLength := "Content-Length"
  const RequestHeadersToken := "Access-Control-Request-Headers"
  const DefaultMethods := "GET,HEAD,PUT,PATCH,POST,DELETE"

  /** JavaScript truthiness of a string that may be undefined. */
  predicate Truthy(v: Option<string>) {
    v.Some? && v.value != ""
  }

  /** JavaScript truthiness of an origin setting: false, "" and undefined are
      falsy; regular expressions, lists (even empty ones) and functions are not. */
  predicate OriginTruthy(o: Option<OriginSetting>) {
    match o
    case None => false
    case Some(Bool(b)) => b
    case Some(Str(s)) => s != ""
    case Some(_) => true
  }

  /** JavaScript truthiness of a string-or-list option (arrays are always truthy). */
  predicate StringsTruthy(o: Option<Strings>) {
    match o
    case None => false
    case Some(One(s)) => s != ""
    case Some(Many(_)) => true
  }

  /** JavaScript's conversion of a possibly undefined string to a string. */
  function JsString(v: Option<string>): string {
    if v.Some? then v.value else "undefined"
  }

  /** Array.prototype.join. */
  function Join(items: seq<string>, sep: string): string {
    if |items| == 0 then ""
    else if |items| == 1 then items[0]
    else items[0] + sep + Join(items[1..], sep)
  }

  /** The value a string-or-list option contributes: the string itself, or the
      list joined with commas. */
  function StringsValue(o: Option<Strings>): Option<string> {
    match o
    case None => None
    case Some(One(s)) => Some(s)
    case Some(Many(items)) => Some(Join(items, ","))
  }

  /** Splits `s` at every occurrence of `c`; the inverse of joining a non-empty
      list whose elements do not contain `c`. */
  function Split(s: string, c: char): (parts: seq<string>)
    ensures |parts| >= 1
  {
    if |s| == 0 then [""]
    else
      var rest := Split(s[1..], c);
      if s[0] == c then [""] + rest
      else [[s[0]] + rest[0]] + rest[1..]
  }

  function DigitChar(d: nat): char
    requires d < 10
  {
    "0123456789"[d]
  }

  /** Number.prototype.toString for a non-negative integer: its decimal digits. */
  function NatToString(n: nat): string
    decreases n
  {
    if n < 10 then [DigitChar(n)] else NatToString(n / 10) + [DigitChar(n % 10)]
  }

  predicate IsDigit(c: char) {
    '0' <= c <= '9'
  }

  /** Reads a string of decimal digits back as a number. */
  function ParseDecimal(s: string): nat
    requires forall i :: 0 <= i < |s| ==> IsDigit(s[i])
  {
    if |s| == 0 then 0
    else
      assert IsDigit(s[|s| - 1]);
      10 * ParseDecimal(s[..|s| - 1]) + (s[|s| - 1] as int - '0' as int)
  }

  /** String.prototype.toUpperCase, restricted to ASCII letters. */
  function UpperAscii(s: string): (r: string)
    ensures |r| == |s|
    ensures forall i :: 0 <= i < |s| ==> r[i] == UpperChar(s[i])
  {
    if |s| == 0 then "" else [UpperChar(s[0])] + UpperAscii(s[1..])
  }

  function UpperChar(c: char): char {
    if 'a' <= c <= 'z' then (c as int - 32) as char else c
  }

  /** Splitting a comma-joined non-empty list at the commas gives the list
      back, when no element contains a comma (the empty list joins to "",
      which splits to [""]). */
  lemma {:induction false} SplitJoin(items: seq<string>, c: char)
    requires |items| >= 1
    requires forall i :: 0 <= i < |items| ==> c !in items[i]
    ensures Split(Join(items, [c]), c) == items
  {
    if |items| == 1 {
      SplitNoSeparator(items[0], c);
    } else {
      SplitJoin(items[1..], c);
      assert Join(items, [c]) == items[0] + [c] + Join(items[1..], [c]);
      SplitAtSeparator(items[0], Join(items[1..], [c]), c);
      assert [items[0]] + items[1..] == items;
    }
  }

  lemma {:induction false} SplitNoSeparator(x: string, c: char)
    requires c !in x
    ensures Split(x, c) == [x]
  {
    if |x| > 0 {
      SplitNoSeparator(x[1..], c);
      assert [x[0]] + x[1..] == x;
    }
  }

  lemma {:induction false} SplitAtSeparator(x: string, y: string, c: char)
    requires c !in x
    ensures Split(x + [c] + y, c) == [x] + Split(y, c)
  {
    var s := x + [c] + y;
    if |x| == 0 {
      assert s[1..] == y;
    } else {
      assert s[1..] == x[1..] + [c] + y;
      SplitAtSeparator(x[1..], y, c);
      assert [x[0]] + x[1..] == x;
    }
  }

  /** The decimal rendering of a number is a non-empty string of digits that
      reads back as the same number; zero renders as "0". */
  lemma {:induction false} NatToStringDecimal(n: nat)
    ensures |NatToString(n)| >= 1
    ensures forall i :: 0 <= i < |NatToString(n)| ==> IsDigit(NatToString(n)[i])
    ensures ParseDecimal(NatToString(n)) == n
    ensures n == 0 ==> NatToString(n) == "0"
  {
    if n >= 10 {
      NatToStringDecimal(n / 10);
      var s := NatToString(n);
      assert s[..|s| - 1] == NatToString(n / 10);
    }
  }
}
