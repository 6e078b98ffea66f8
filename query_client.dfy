/** The client request wrapper (client/src/lib/queryClient.ts): how a non-ok
    response becomes a thrown error, what `apiRequest` sends, and the query
    function's 401 branch and URL.

    `fetch` and `JSON.parse` are passed in as function values; a response body is
    either readable text or an error thrown while reading it. */
module QueryClient {
  import opened Js

  /** The prefix of the parse errors the inner `catch` treats as "not JSON". */
  const UNEXPECTED_TOKEN: string := "Unexpected token"
  /** The message of the TypeError raised by reading `json.error` when `JSON.parse` yields `null`,
      in V8's wording; other engines word it differently, and the inner `catch` rethrows it all the
      same, since no wording starts with `'Unexpected token'`. It is written as two literals so that
      Dafny unfolds its characters (a single long literal is not unfolded). */
  const NULL_ERROR_READ: string := "Cannot read properties " + "of null (reading 'error')"
  const CONTENT_TYPE: string := "Content-Type"
  const APPLICATION_JSON: string := "application/json"
  const INCLUDE: string := "include"
  const AUTH_ME_PATH: string := "/api/auth/me"

  /** The body of a response: its text, or the error `res.text()` rejects with. */
  datatype Body = Text(text: string) | Unreadable(error: JsError)

  datatype Response = Response(status: int, statusText: string, body: Body)

  /** `res.ok`. */
  predicate IsOk(res: Response)
  {
    200 <= res.status <= 299
  }

  /** What `JSON.parse(text)` gives, seen through the fields the code reads: an
      object (or other non-null value) with its `error` and `message` properties,
      `null`, or a thrown SyntaxError with its message. */
  datatype Parsed = ParseOk(error: Option<string>, message: Option<string>) | ParseNull | ParseErr(reason: string)

  type JsonParser = string -> Parsed

  /** The options object passed to `fetch`. */
  datatype FetchInit = FetchInit(httpMethod: string, headers: map<string, string>, body: Option<string>, credentials: string)

  /** `fetch(url, init)`: a response, or the error the call rejects with. */
  type Fetcher = (string, FetchInit) -> Result<Response, JsError>

  // ---------------------------------------------------------------------------
  // throwIfResNotOk

  /** The first truthy string of a `||` chain, or `""` when there is none. */
  function FirstTruthy(candidates: seq<string>): (r: string)
    ensures r == "" <==> forall i :: 0 <= i < |candidates| ==> candidates[i] == ""
    ensures r != "" ==> exists i :: 0 <= i < |candidates| && candidates[i] == r
                                    && forall j :: 0 <= j < i ==> candidates[j] == ""
  {
    if |candidates| == 0 then ""
    else if candidates[0] != "" then candidates[0]
    else
      var rest := FirstTruthy(candidates[1..]);
      assert forall i :: 1 <= i < |candidates| ==> candidates[i] == candidates[1..][i - 1];
      rest
  }

  lemma FirstTruthyPair(a: string, b: string)
    ensures FirstTruthy([a, b]) == OrElse(a, b)
  {
  }

  /** The `||` chain of line 10 is the first truthy string of its four operands. */
  lemma {:induction false} FirstTruthyChain(p: Parsed, text: string, statusText: string)
    ensures p.ParseOk? ==>
      FirstTruthy([OrEmpty(p.error), OrEmpty(p.message), text, statusText])
        == OptOrElse(p.error, OptOrElse(p.message, OrElse(text, statusText)))
  {
    if p.ParseOk? {
      var xs := [OrEmpty(p.error), OrEmpty(p.message), text, statusText];
      assert xs[1..] == [OrEmpty(p.message), text, statusText];
      assert xs[1..][1..] == [text, statusText];
      FirstTruthyPair(text, statusText);
    }
  }

  /** A message the inner `catch` rethrows as it is: non-empty and not starting with `'Unexpected token'`. */
  predicate Recognized(message: string)
  {
    message != "" && !StartsWith(message, UNEXPECTED_TOKEN)
  }

  lemma NullReadIsRecognized()
    ensures Recognized(NULL_ERROR_READ)
  {
    assert NULL_ERROR_READ[0] == 'C';
  }

  /** The error the inner `try` raises; it raises on every path. */
  function InnerTry(text: string, statusText: string, parsed: Parsed): (e: JsError)
    ensures parsed.ParseErr? ==> e == JsError(SyntaxError, parsed.reason)
    ensures parsed.ParseNull? ==> e.kind == TypeError && Recognized(e.message)
    ensures parsed.ParseOk? ==>
      e == JsError(PlainError, FirstTruthy([OrEmpty(parsed.error), OrEmpty(parsed.message), text, statusText]))
  {
    FirstTruthyChain(parsed, text, statusText);
    NullReadIsRecognized();
    match parsed
    case ParseErr(m) => JsError(SyntaxError, m)
    case ParseNull => JsError(TypeError, NULL_ERROR_READ)
    case ParseOk(e, m) => JsError(PlainError, OptOrElse(e, OptOrElse(m, OrElse(text, statusText))))
  }

  /** The inner `catch`: rethrow an error it recognises, otherwise throw the raw text. */
  function InnerCatch(error: JsError, text: string, statusText: string): (e: JsError)
    ensures Recognized(error.message) ==> e == error
    ensures !Recognized(error.message) ==> e == JsError(PlainError, FirstTruthy([text, statusText]))
    ensures e.message == "" <==> !Recognized(error.message) && text == "" && statusText == ""
  {
    FirstTruthyPair(text, statusText);
    if error.message != "" && !StartsWith(error.message, UNEXPECTED_TOKEN) then error
    else JsError(PlainError, OrElse(text, statusText))
  }

  /** `throwIfResNotOk(res)`: `None` when it returns normally, `Some(e)` when it throws `e`.
      The outer `catch` rethrows unchanged, so it adds nothing. */
  function ThrowIfResNotOk(res: Response, parse: JsonParser): (thrown: Option<JsError>)
    ensures thrown.None? <==> IsOk(res)
    ensures !IsOk(res) && res.body.Unreadable? ==> thrown == Some(res.body.error)
    ensures !IsOk(res) && res.body.Text? ==>
      var text := res.body.text;
      var fallback := JsError(PlainError, FirstTruthy([text, res.statusText]));
      match parse(text)
      case ParseOk(e, m) =>
        var chosen := FirstTruthy([OrEmpty(e), OrEmpty(m), text, res.statusText]);
        thrown == Some(if Recognized(chosen) then JsError(PlainError, chosen) else fallback)
      case ParseErr(m) =>
        thrown == Some(if Recognized(m) then JsError(SyntaxError, m) else fallback)
      case ParseNull =>
        thrown == Some(JsError(TypeError, NULL_ERROR_READ))
  {
    if IsOk(res) then None
    else
      match res.body
      case Unreadable(e) => Some(e)
      case Text(text) =>
        FirstTruthyPair(text, res.statusText);
        FirstTruthyChain(parse(text), text, res.statusText);
        NullReadIsRecognized();
        Some(InnerCatch(InnerTry(text, res.statusText, parse(text)), text, res.statusText))
  }

  /** A JSON error body with a usable `error` field yields exactly that message. */
  lemma ErrorFieldWins(res: Response, parse: JsonParser, error: string, message: Option<string>)
    requires !IsOk(res) && res.body.Text? && parse(res.body.text) == ParseOk(Some(error), message)
    requires Recognized(error)
    ensures ThrowIfResNotOk(res, parse) == Some(JsError(PlainError, error))
  {
  }

  /** A server message that itself begins with `'Unexpected token'` is replaced by the raw body text. */
  lemma UnexpectedTokenMessageIsReplaced(res: Response, parse: JsonParser, error: string)
    requires !IsOk(res) && res.body.Text? && res.body.text != ""
    requires parse(res.body.text) == ParseOk(Some(error), None)
    requires StartsWith(error, UNEXPECTED_TOKEN)
    ensures ThrowIfResNotOk(res, parse) == Some(JsError(PlainError, res.body.text))
  {
  }

  /** A body that is not JSON and whose parse error says `'Unexpected token ...'` yields the text, or the status text if the text is empty. */
  lemma NonJsonBodyYieldsText(res: Response, parse: JsonParser, parseMessage: string)
    requires !IsOk(res) && res.body.Text? && parse(res.body.text) == ParseErr(parseMessage)
    requires StartsWith(parseMessage, UNEXPECTED_TOKEN)
    ensures ThrowIfResNotOk(res, parse) == Some(JsError(PlainError, OrElse(res.body.text, res.statusText)))
  {
  }

  /** An empty body whose parse error has another wording (such as `'Unexpected end of JSON input'`)
      is rethrown as that SyntaxError, not replaced by the status text. */
  lemma EmptyBodyParseErrorEscapes(status: int, statusText: string, parse: JsonParser)
    requires !(200 <= status <= 299)
    requires parse("") == ParseErr("Unexpected end of JSON input")
    ensures ThrowIfResNotOk(Response(status, statusText, Text("")), parse)
         == Some(JsError(SyntaxError, "Unexpected end of JSON input"))
  {
    assert "Unexpected end of JSON input"[..|UNEXPECTED_TOKEN|] != UNEXPECTED_TOKEN by {
      assert "Unexpected end of JSON input"[11] == 'e';
    }
  }

  // ---------------------------------------------------------------------------
  // apiRequest

  /** The options `apiRequest` gives to `fetch`: a JSON content type and body only for truthy `data`. */
  function RequestInit(httpMethod: string, data: Option<JsValue>): (init: FetchInit)
    ensures init.httpMethod == httpMethod && init.credentials == INCLUDE
    ensures init.body.Some? <==> data.Some? && data.value.truthy
    ensures (CONTENT_TYPE in init.headers) <==> init.body.Some?
    ensures init.body.Some? ==> init.body.value == data.value.json && init.headers[CONTENT_TYPE] == APPLICATION_JSON
    ensures init.headers.Keys <= {CONTENT_TYPE}
  {
    var send := data.Some? && data.value.truthy;
    FetchInit(httpMethod,
              if send then map[CONTENT_TYPE := APPLICATION_JSON] else map[],
              if send then Some(data.value.json) else None,
              INCLUDE)
  }

  /** `apiRequest(method, url, data)`: the response itself when it is ok, otherwise what `throwIfResNotOk` throws. */
  function ApiRequest(httpMethod: string, url: string, data: Option<JsValue>, fetch: Fetcher, parse: JsonParser)
    : (r: Result<Response, JsError>)
    ensures fetch(url, RequestInit(httpMethod, data)).Err? ==> r == fetch(url, RequestInit(httpMethod, data))
    ensures fetch(url, RequestInit(httpMethod, data)).Ok? ==>
      var res := fetch(url, RequestInit(httpMethod, data)).value;
      && (r == Ok(res) <==> IsOk(res))
      && (!IsOk(res) ==> r == Err(ThrowIfResNotOk(res, parse).value))
  {
    match fetch(url, RequestInit(httpMethod, data))
    case Err(e) => Err(e)
    case Ok(res) =>
      match ThrowIfResNotOk(res, parse)
      case Some(e) => Err(e)
      case None => Ok(res)
  }

  // ---------------------------------------------------------------------------
  // getQueryFn

  datatype UnauthorizedBehavior = ReturnNull | Throw

  /** The `on401` option of the default query function. */
  const DEFAULT_ON401: UnauthorizedBehavior := Throw

  /** What a query function resolves to: `null`, or the parsed JSON of the given body text. */
  datatype QueryValue = Null | Json(text: string)

  /** The options the query function gives to `fetch`: only `credentials`, so the method is GET and no body is sent. */
  const QUERY_INIT: FetchInit := FetchInit("GET", map[], None, INCLUDE)

  /** The total length of some strings. */
  function TotalLength(parts: seq<string>): nat
  {
    if |parts| == 0 then 0 else |parts[0]| + TotalLength(parts[1..])
  }

  /** `parts.join(sep)`: the parts in order, with one separator between neighbours. */
  function Join(parts: seq<string>, sep: string): (r: string)
    ensures |parts| == 0 ==> r == ""
    ensures |parts| > 0 ==> |r| == TotalLength(parts) + (|parts| - 1) * |sep|
    ensures |parts| > 0 ==> r[..|parts[0]|] == parts[0]
    ensures |parts| > 1 ==> r[|parts[0]|..|parts[0]| + |sep|] == sep
  {
    if |parts| == 0 then ""
    else if |parts| == 1 then parts[0]
    else parts[0] + sep + Join(parts[1..], sep)
  }

  lemma {:induction false} JoinAppend(parts: seq<string>, last: string, sep: string)
    requires |parts| > 0
    ensures Join(parts + [last], sep) == Join(parts, sep) + sep + last
  {
    if |parts| == 1 {
      assert parts + [last] == [parts[0], last];
      assert [parts[0], last][1..] == [last];
    } else {
      assert (parts + [last])[1..] == parts[1..] + [last];
      JoinAppend(parts[1..], last, sep);
    }
  }

  /** A one-element query key is the URL itself; a longer one puts `"/"` between segments. */
  lemma QueryKeyUrl(key: string, segment: string)
    ensures Join([key], "/") == key
    ensures Join([AUTH_ME_PATH], "/") == AUTH_ME_PATH
    ensures Join([key, segment], "/") == key + "/" + segment
  {
  }

  /** `res.json()` on a response `throwIfResNotOk` let through. */
  function ReadJson(res: Response, parse: JsonParser): (r: Result<QueryValue, JsError>)
    ensures res.body.Unreadable? ==> r == Err(res.body.error)
    ensures res.body.Text? ==>
      && (r.Ok? <==> !parse(res.body.text).ParseErr?)
      && (parse(res.body.text).ParseErr? ==> r == Err(JsError(SyntaxError, parse(res.body.text).reason)))
      && (parse(res.body.text).ParseNull? ==> r == Ok(Null))
      && (parse(res.body.text).ParseOk? ==> r == Ok(Json(res.body.text)))
  {
    match res.body
    case Unreadable(e) => Err(e)
    case Text(text) =>
      match parse(text)
      case ParseErr(m) => Err(JsError(SyntaxError, m))
      case ParseNull => Ok(Null)
      case ParseOk(_, _) => Ok(Json(text))
  }

  /** The function `getQueryFn({on401})` returns, applied to a query key. */
  function QueryFn(on401: UnauthorizedBehavior, queryKey: seq<string>, fetch: Fetcher, parse: JsonParser)
    : (r: Result<QueryValue, JsError>)
    ensures fetch(Join(queryKey, "/"), QUERY_INIT).Err? ==> r.Err? && r.error == fetch(Join(queryKey, "/"), QUERY_INIT).error
    ensures fetch(Join(queryKey, "/"), QUERY_INIT).Ok? ==>
      var res := fetch(Join(queryKey, "/"), QUERY_INIT).value;
      && (on401 == ReturnNull && res.status == 401 ==> r == Ok(Null))
      && (!(on401 == ReturnNull && res.status == 401) && !IsOk(res) ==> r == Err(ThrowIfResNotOk(res, parse).value))
      && (IsOk(res) && res.body.Unreadable? ==> r == Err(res.body.error))
      && (IsOk(res) && res.body.Text? ==>
            match parse(res.body.text)
            case ParseOk(_, _) => r == Ok(Json(res.body.text))
            case ParseNull => r == Ok(Null)
            case ParseErr(m) => r == Err(JsError(SyntaxError, m)))
  {
    match fetch(Join(queryKey, "/"), QUERY_INIT)
    case Err(e) => Err(e)
    case Ok(res) =>
      if on401 == ReturnNull && res.status == 401 then Ok(Null)
      else
        match ThrowIfResNotOk(res, parse)
        case Some(e) => Err(e)
        case None => ReadJson(res, parse)
  }

  /** The query function the shared query client uses unless a query overrides it. */
  function DefaultQueryFn(queryKey: seq<string>, fetch: Fetcher, parse: JsonParser): (r: Result<QueryValue, JsError>)
    ensures fetch(Join(queryKey, "/"), QUERY_INIT).Err? ==> r == Err(fetch(Join(queryKey, "/"), QUERY_INIT).error)
    ensures fetch(Join(queryKey, "/"), QUERY_INIT).Ok? ==>
      var res := fetch(Join(queryKey, "/"), QUERY_INIT).value;
      && (!IsOk(res) ==> r == Err(ThrowIfResNotOk(res, parse).value))
      && (IsOk(res) ==> r == ReadJson(res, parse))
  {
    QueryFn(DEFAULT_ON401, queryKey, fetch, parse)
  }

  /** Queries that keep the default fail on a 401 instead of resolving to `null`. */
  lemma DefaultQueryFailsOn401(queryKey: seq<string>, fetch: Fetcher, parse: JsonParser)
    requires fetch(Join(queryKey, "/"), QUERY_INIT).Ok?
    requires fetch(Join(queryKey, "/"), QUERY_INIT).value.status == 401
    ensures DefaultQueryFn(queryKey, fetch, parse).Err?
    ensures QueryFn(ReturnNull, queryKey, fetch, parse) == Ok(Null)
  {
  }
}
