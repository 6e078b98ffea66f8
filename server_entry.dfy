/** The small decision logic of the server entry point (api/index.ts): the
    request log line and its truncation, the error handler's status and message,
    and the flag that makes route setup run once. */
module ServerEntry {
  import opened Js

  const API_PREFIX: string := "/api"
  const MAX_LOG_LENGTH: nat := 80
  const ELLIPSIS: char := '\U{2026}'
  const DEFAULT_STATUS: int := 500
  const DEFAULT_MESSAGE: string := "Internal Server Error"

  // ---------------------------------------------------------------------------
  // Log lines

  /** A log line cut to at most 80 characters: a longer one keeps its first 79 and ends in an ellipsis. */
  function Truncate(line: string): (r: string)
    ensures |r| <= MAX_LOG_LENGTH
    ensures |line| <= MAX_LOG_LENGTH ==> r == line
    ensures |line| > MAX_LOG_LENGTH ==>
      |r| == MAX_LOG_LENGTH && r[..MAX_LOG_LENGTH - 1] == line[..MAX_LOG_LENGTH - 1] && r[MAX_LOG_LENGTH - 1] == ELLIPSIS
  {
    if |line| > 80 then line[..79] + [ELLIPSIS] else line
  }

  /** Truncating twice is truncating once. */
  lemma TruncateIdempotent(line: string)
    ensures Truncate(Truncate(line)) == Truncate(line)
  {
  }

  function DigitChar(d: nat): char
    requires d < 10
  {
    "0123456789"[d]
  }

  /** The value of a string of decimal digits. */
  function DecimalValue(s: string): nat
  {
    if s == [] then 0
    else
      var d := s[|s| - 1] as int - '0' as int;
      DecimalValue(s[..|s| - 1]) * 10 + (if 0 <= d < 10 then d else 0)
  }

  predicate IsDigit(c: char)
  {
    '0' <= c <= '9'
  }

  /** The decimal text of a natural number, as a template literal prints it. */
  function DecimalDigits(n: nat): (s: string)
    ensures |s| >= 1 && forall i :: 0 <= i < |s| ==> IsDigit(s[i])
    ensures |s| > 1 ==> s[0] != '0'
    ensures DecimalValue(s) == n
  {
    var last := [DigitChar(n % 10)];
    if n < 10 then last
    else
      var prefix := DecimalDigits(n / 10);
      var s := prefix + last;
      assert s[..|s| - 1] == prefix;
      s
  }

  /** `${n}` for an integer. */
  function NumberText(n: int): string
  {
    if n < 0 then "-" + DecimalDigits(-n) else DecimalDigits(n)
  }

  /** The line logged for a finished request, before truncation; the JSON body is appended only when a truthy one was captured. */
  function LogEntry(httpMethod: string, path: string, statusCode: int, duration: int, captured: Option<JsValue>): (line: string)
    ensures |line| >= |httpMethod| + |path| + 2 && line[..|httpMethod| + |path| + 2] == httpMethod + " " + path + " "
    ensures var suffix := if captured.Some? && captured.value.truthy then " :: " + captured.value.json else "ms";
      |line| >= |suffix| && line[|line| - |suffix|..] == suffix
  {
    var head := httpMethod + " " + path + " ";
    var base := head + NumberText(statusCode) + " in " + NumberText(duration) + "ms";
    var suffix := if captured.Some? && captured.value.truthy then " :: " + captured.value.json else "";
    var line := base + suffix;
    assert line == head + (line[|head|..]);
    assert base == base[..|base| - 2] + "ms";
    line
  }

  /** Capturing a falsy body (or none) logs the same line; a truthy one adds `" :: "` and its JSON. */
  lemma CapturedBodySuffix(httpMethod: string, path: string, statusCode: int, duration: int, body: JsValue)
    ensures LogEntry(httpMethod, path, statusCode, duration, Some(body))
         == LogEntry(httpMethod, path, statusCode, duration, None) + (if body.truthy then " :: " + body.json else "")
  {
  }

  /** The per-request logging middleware: `res.json` records the body it is given, `finish` logs the line. */
  class RequestLogger {
    const httpMethod: string
    const path: string
    const start: int
    var captured: Option<JsValue>

    constructor (httpMethod: string, path: string, start: int)
      ensures this.httpMethod == httpMethod && this.path == path && this.start == start && captured == None
    {
      this.httpMethod := httpMethod;
      this.path := path;
      this.start := start;
      this.captured := None;
    }

    /** The patched `res.json(bodyJson)`: the last body sent is the one remembered. */
    method Json(bodyJson: JsValue)
      modifies this`captured
      ensures captured == Some(bodyJson)
    {
      captured := Some(bodyJson);
    }

    /** The `finish` handler at time `now`: a line only for `/api` paths, never longer than 80 characters. */
    method OnFinish(now: int, statusCode: int) returns (line: Option<string>)
      ensures line.Some? <==> StartsWith(path, API_PREFIX)
      ensures line.Some? ==> line.value == Truncate(LogEntry(httpMethod, path, statusCode, now - start, captured))
    {
      var duration := now - start;
      line := None;
      if |path| >= 4 && path[..4] == "/api" {
        var logLine := httpMethod + " " + path + " " + NumberText(statusCode) + " in " + NumberText(duration) + "ms";
        if captured.Some? && captured.value.truthy {
          logLine := logLine + " :: " + captured.value.json;
        }
        assert logLine == LogEntry(httpMethod, path, statusCode, duration, captured);
        if |logLine| > 80 {
          logLine := logLine[..79] + [ELLIPSIS];
        }
        line := Some(logLine);
      }
    }
  }

  // ---------------------------------------------------------------------------
  // Error handler

  /** The fields of a thrown error the handler reads. */
  datatype ServerError = ServerError(status: Option<int>, statusCode: Option<int>, message: Option<string>)

  /** The response the handler sends: a status and the JSON body `{message}`. */
  datatype ErrorReply = ErrorReply(status: int, message: string)

  /** `err.status || err.statusCode || 500` and `err.message || "Internal Server Error"`. */
  function HandleError(err: ServerError): (reply: ErrorReply)
    ensures reply.status != 0 && reply.message != ""
    ensures TruthyNumber(err.status) ==> reply.status == err.status.value
    ensures !TruthyNumber(err.status) && TruthyNumber(err.statusCode) ==> reply.status == err.statusCode.value
    ensures !TruthyNumber(err.status) && !TruthyNumber(err.statusCode) ==> reply.status == DEFAULT_STATUS
    ensures reply.message == if Truthy(err.message) then err.message.value else DEFAULT_MESSAGE
  {
    var status := if TruthyNumber(err.status) then err.status.value
                  else if TruthyNumber(err.statusCode) then err.statusCode.value
                  else DEFAULT_STATUS;
    ErrorReply(status, OptOrElse(err.message, DEFAULT_MESSAGE))
  }

  // ---------------------------------------------------------------------------
  // Route setup

  /** The middleware stack of the app, in registration order; `ApiRoutes` stands for everything `registerRoutes` installs. */
  datatype Layer = JsonBodyParser | UrlEncodedParser | RequestLogging | ApiRoutes(server: nat)
                 | ErrorHandling | StaticFiles | SpaFallback

  const BASE_LAYERS: seq<Layer> := [JsonBodyParser, UrlEncodedParser, RequestLogging]

  /** What one completed `setupRoutes` adds, `server` being the handle `registerRoutes` resolved to. */
  function RouteLayers(server: nat): seq<Layer>
  {
    [ApiRoutes(server), ErrorHandling, StaticFiles, SpaFallback]
  }

  /** The module state of the entry point: the app's stack, `routesRegistered` and `server`. */
  class App {
    var layers: seq<Layer>
    var routesRegistered: bool
    var server: Option<nat>

    /** Routes are on the stack exactly once after a completed setup, and not at all before. */
    ghost predicate Valid()
      reads this
    {
      if routesRegistered then server.Some? && layers == BASE_LAYERS + RouteLayers(server.value)
      else server.None? && layers == BASE_LAYERS
    }

    constructor ()
      ensures Valid()
      ensures layers == BASE_LAYERS && !routesRegistered && server == None
    {
      layers := BASE_LAYERS;
      routesRegistered := false;
      server := None;
    }

    /** `setupRoutes()`, run to completion without interleaving. `registered` is what
        `registerRoutes` resolves to when it is called, `None` when it rejects; `ok` is false when the call rejects. */
    method SetupRoutes(registered: Option<nat>) returns (ok: bool)
      requires Valid()
      modifies this
      ensures Valid()
      ensures old(routesRegistered) ==> ok && unchanged(this)
      ensures !old(routesRegistered) ==> ok == registered.Some?
      ensures !old(routesRegistered) && !ok ==> unchanged(this)
      ensures !old(routesRegistered) && ok ==>
        routesRegistered && server == registered && layers == old(layers) + RouteLayers(registered.value)
    {
      ok := true;
      if !routesRegistered {
        if registered.None? {
          return false;
        }
        server := registered;
        layers := layers + RouteLayers(registered.value);
        routesRegistered := true;
      }
    }

    /** `handler(req, res)`: the app serves the request only once setup has completed. */
    method Handler(registered: Option<nat>) returns (dispatched: bool)
      requires Valid()
      modifies this
      ensures Valid()
      ensures dispatched <==> routesRegistered
      ensures old(routesRegistered) ==> unchanged(this)
      ensures !old(routesRegistered) ==> (dispatched <==> registered.Some?)
      ensures !old(routesRegistered) && !dispatched ==> unchanged(this)
      ensures !old(routesRegistered) && dispatched ==>
        server == registered && layers == old(layers) + RouteLayers(registered.value)
    {
      dispatched := SetupRoutes(registered);
    }
  }

  /** In every state an `App` can reach, at most one error handler is installed, whatever the call sequence. */
  lemma AtMostOneErrorHandler(app: App)
    requires app.Valid()
    ensures multiset(app.layers)[ErrorHandling] == if app.routesRegistered then 1 else 0
  {
  }
}
