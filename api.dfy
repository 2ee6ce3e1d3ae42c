/**
  The two places in the workshop API (src/api/main.py) that consult the fault
  table: the HTTP middleware wrapped around every request, and the helper that
  opens a database connection.

  The request handler is represented by the response it would return, and the
  database driver by the outcome of each connect call; random draws and the
  uniformly chosen catalog entries are parameters.
*/
module Api {
  import opened Chaos

  /** Only paths under this prefix are subject to request-path faults. */
  const ApiPrefix: string := "/api/"

  predicate IsApiPath(path: string) {
    |path| >= |ApiPrefix| && path[..|ApiPrefix|] == ApiPrefix
  }

  // ---------------------------------------------------------------------------
  // Response corruption
  // ---------------------------------------------------------------------------

  datatype Json =
    | JNull
    | JInt(i: int)
    | JStr(s: string)
    | JArray(items: seq<Json>)
    | JObject(fields: seq<(string, Json)>)

  /** A top-level JSON object as its ordered key/value pairs. */
  type JsonObject = seq<(string, Json)>

  predicate HasKey(obj: JsonObject, key: string) {
    exists i :: 0 <= i < |obj| && obj[i].0 == key
  }

  /** The corrupted payloads the middleware substitutes for a real response. */
  const CorruptionCatalog: seq<JsonObject> := [
    [ ("error", JStr("TypeError")),
      ("message", JStr("Object of type 'Decimal' is not JSON serializable")),
      ("traceback", JStr("File /app/main.py, line 234")) ],
    [ ("items", JArray([JObject([("id", JNull), ("name", JNull), ("price", JStr("NaN")), ("quantity", JInt(-1))])])),
      ("error", JStr("partial_data")) ],
    [ ("database_error", JStr("relation \"items\" does not exist")),
      ("hint", JStr("Perhaps you meant to reference the table \"public.items\"?")) ]
  ]

  /** The status a substituted payload is served with. */
  function CorruptionStatus(payload: JsonObject): (status: int)
    ensures status == 500 <==> HasKey(payload, "error")
    ensures status == 200 <==> !HasKey(payload, "error")
  {
    if HasKey(payload, "error") then 500 else 200
  }

  /** The first two corrupted payloads carry an "error" key and are served as
      500; the third, a bare database error object, is served as 200. */
  lemma CorruptionCatalogStatuses()
    ensures CorruptionStatus(CorruptionCatalog[0]) == 500
    ensures CorruptionStatus(CorruptionCatalog[1]) == 500
    ensures CorruptionStatus(CorruptionCatalog[2]) == 200
  {
    assert CorruptionCatalog[0][0].0 == "error";
    assert CorruptionCatalog[1][1].0 == "error";
  }

  /** Corruption applies to an API path when the fault is on and the draw
      falls within its intensity. */
  predicate CorruptionTriggers(r: Registry, path: string, draw: int)
    requires WellFormed(r)
  {
    r.faults[CorruptData].enabled && IsApiPath(path) && draw <= r.faults[CorruptData].intensity
  }

  // ---------------------------------------------------------------------------
  // The middleware
  // ---------------------------------------------------------------------------

  /** What the client receives. */
  datatype Outcome<R> =
    | Forwarded(response: R)                          // the handler's response, unchanged
    | Substituted(status: int, content: JsonObject)   // a corrupted payload in its place
    | Aborted(status: int, detail: string)            // a synthetic error raised before the handler
    | DelayRejected(seconds: int)                     // the delay could not be slept (negative or too large)

  /** One request through the middleware: whether the handler ran, the
      seconds slept before it, and the outcome. */
  datatype Exchange<R> = Exchange(handlerCalled: bool, delay: nat, outcome: Outcome<R>)

  /**
    chaos_middleware: ingress faults (only on API paths), then the handler,
    then the corruption check (only on API paths). `response` is what the
    handler would return; `errorDraw`/`errorPick` are the random-error draw and
    catalog choice, `corruptDraw`/`corruptPick` the corruption draw and choice.
  */
  function ChaosMiddleware<R(==)>(r: Registry, path: string, response: R,
                                  errorDraw: int, errorPick: nat, corruptDraw: int, corruptPick: nat)
    : (x: Exchange<R>)
    requires WellFormed(r)
    requires 1 <= errorDraw <= 100 && errorPick < |ErrorCatalog|
    requires 1 <= corruptDraw <= 100 && corruptPick < |CorruptionCatalog|
    ensures !IsApiPath(path) ==> x == Exchange(true, 0, Forwarded(response))
    ensures x.handlerCalled <==> !IsApiPath(path) || ApplyChaos(r, errorDraw, errorPick).Proceed?
    ensures !x.handlerCalled ==> x.delay == 0 && (x.outcome.Aborted? || x.outcome.DelayRejected?)
    ensures x.outcome.Aborted? <==>
      IsApiPath(path) && r.faults[RandomErrors].enabled && errorDraw <= r.faults[RandomErrors].intensity
    ensures x.outcome.Aborted? ==> x.outcome.status in {500, 503, 504}
    ensures x.outcome.Aborted? ==> (x.outcome.detail, x.outcome.status) == ErrorCatalog[errorPick]
    ensures x.outcome.DelayRejected? ==> x.outcome.seconds == r.faults[SlowResponses].intensity
    ensures x.outcome.Substituted? <==> x.handlerCalled && CorruptionTriggers(r, path, corruptDraw)
    ensures x.outcome.Substituted? ==>
      && x.outcome.content == CorruptionCatalog[corruptPick]
      && (x.outcome.status == 500 <==> HasKey(x.outcome.content, "error"))
      && (x.outcome.status == 200 <==> !HasKey(x.outcome.content, "error"))
    ensures x.handlerCalled && !CorruptionTriggers(r, path, corruptDraw) ==> x.outcome == Forwarded(response)
    ensures x.delay > 0 ==>
      IsApiPath(path) && r.faults[SlowResponses].enabled && x.delay == r.faults[SlowResponses].intensity
    ensures IsApiPath(path) && ApplyChaos(r, errorDraw, errorPick).Proceed? ==>
      x.delay == ApplyChaos(r, errorDraw, errorPick).delay
  {
    var ingress := if IsApiPath(path) then ApplyChaos(r, errorDraw, errorPick) else Proceed(0);
    match ingress
    case Abort(status, detail) => Exchange(false, 0, Aborted(status, detail))
    case SleepFailed(seconds) => Exchange(false, 0, DelayRejected(seconds))
    case Proceed(delay) =>
      if CorruptionTriggers(r, path, corruptDraw) then
        var payload := CorruptionCatalog[corruptPick];
        Exchange(true, delay, Substituted(CorruptionStatus(payload), payload))
      else
        Exchange(true, delay, Forwarded(response))
  }

  /** With random errors on at intensity 100 or more, every API request is
      aborted with a catalog status and never reaches the handler, while a
      request outside the API prefix is served normally. */
  lemma FullIntensityErrorsAbortEveryApiRequest<R>(r: Registry, path: string, response: R,
                                                   errorDraw: int, errorPick: nat, corruptDraw: int, corruptPick: nat)
    requires WellFormed(r)
    requires 1 <= errorDraw <= 100 && errorPick < |ErrorCatalog|
    requires 1 <= corruptDraw <= 100 && corruptPick < |CorruptionCatalog|
    requires r.faults[RandomErrors].enabled && r.faults[RandomErrors].intensity >= 100
    ensures var x := ChaosMiddleware(r, path, response, errorDraw, errorPick, corruptDraw, corruptPick);
      && (IsApiPath(path) ==> !x.handlerCalled && x.outcome.Aborted? && x.outcome.status in {500, 503, 504})
      && (!IsApiPath(path) ==> x.handlerCalled && !x.outcome.Aborted?)
  {
  }

  /** Enabling slow_responses at two seconds delays an API request by two
      seconds unless a random error aborts it first; other paths are not delayed. */
  lemma SlowResponsesScenario<R>(r: Registry, isAlive: Handle -> bool, path: string, response: R,
                                 errorDraw: int, errorPick: nat, corruptDraw: int, corruptPick: nat)
    requires WellFormed(r)
    requires 1 <= errorDraw <= 100 && errorPick < |ErrorCatalog|
    requires 1 <= corruptDraw <= 100 && corruptPick < |CorruptionCatalog|
    ensures var r1 := EnableFault(r, SlowResponses, Some(2), isAlive).0;
      var x := ChaosMiddleware(r1, path, response, errorDraw, errorPick, corruptDraw, corruptPick);
      && (IsApiPath(path) && !x.outcome.Aborted? ==> x.delay == 2 && x.handlerCalled)
      && (!IsApiPath(path) ==> x.delay == 0)
  {
  }

  // ---------------------------------------------------------------------------
  // Database connections
  // ---------------------------------------------------------------------------

  /** The outcome of one connect call to the database driver. */
  datatype Connect = Opened(conn: ConnId) | ConnectFailed(reason: string)

  /** What get_db_connection gives its caller. */
  datatype DbReply = Connection(conn: ConnId) | DbError(status: int, detail: string)

  const NotConfiguredDetail: string := "Database connection not configured"

  function ConnectFailedDetail(reason: string): string {
    "Database connection failed: " + reason
  }

  /** A connection is leaked when the fault is on and the draw falls within its intensity. */
  predicate LeakTriggers(r: Registry, draw: int)
    requires WellFormed(r)
  {
    r.faults[ConnectionLeak].enabled && draw <= r.faults[ConnectionLeak].intensity
  }

  function LeakedOf(r: Registry): seq<ConnId>
    requires WellFormed(r)
  {
    r.faults[ConnectionLeak].slot.leakedConnections
  }

  /**
    get_db_connection: `first` and `second` are the outcomes of the first and,
    when a leak happens, the replacement connect call.
  */
  function AcquireConnection(r: Registry, databaseUrl: string, draw: int, first: Connect, second: Connect)
    : (out: (Registry, DbReply))
    requires WellFormed(r)
    requires 1 <= draw <= 100
    ensures WellFormed(out.0)
    ensures databaseUrl == "" ==> out == (r, DbError(500, NotConfiguredDetail))
    ensures databaseUrl != "" && first.ConnectFailed? ==>
      out == (r, DbError(500, ConnectFailedDetail(first.reason)))
    ensures databaseUrl != "" && first.Opened? && LeakTriggers(r, draw) ==>
      && out.0 == r.(faults := r.faults[ConnectionLeak :=
           r.faults[ConnectionLeak].(slot := ConnectionPool(LeakedOf(r) + [first.conn]))])
      && (second.Opened? ==> out.1 == Connection(second.conn))
      && (second.ConnectFailed? ==> out.1 == DbError(500, ConnectFailedDetail(second.reason)))
    ensures databaseUrl != "" && first.Opened? && !LeakTriggers(r, draw) ==>
      out == (r, Connection(first.conn))
    ensures out.1.DbError? ==> out.1.status == 500
  {
    if databaseUrl == "" then (r, DbError(500, NotConfiguredDetail))
    else
      match first
      case ConnectFailed(e) => (r, DbError(500, ConnectFailedDetail(e)))
      case Opened(conn) =>
        if LeakTriggers(r, draw) then
          var pool := r.faults[ConnectionLeak];
          var r' := r.(faults := r.faults[ConnectionLeak := pool.(slot := ConnectionPool(pool.slot.leakedConnections + [conn]))]);
          match second
          case ConnectFailed(e) => (r', DbError(500, ConnectFailedDetail(e)))
          case Opened(replacement) => (r', Connection(replacement))
        else
          (r, Connection(conn))
  }

  /** A leaked connection is never handed to a caller: when every connect call
      opens a connection not already leaked, the connection returned is not in
      the leaked list afterwards. */
  lemma LeakedNeverReturned(r: Registry, databaseUrl: string, draw: int, first: Connect, second: Connect)
    requires WellFormed(r) && 1 <= draw <= 100
    requires first.Opened? ==> first.conn !in LeakedOf(r)
    requires second.Opened? ==> second.conn !in LeakedOf(r)
    requires first.Opened? && second.Opened? ==> first.conn != second.conn
    ensures var out := AcquireConnection(r, databaseUrl, draw, first, second);
      out.1.Connection? ==> out.1.conn !in LeakedOf(out.0)
  {
  }

  /** Each call leaks at most one connection, and only by appending it. */
  lemma AcquireLeaksAtMostOne(r: Registry, databaseUrl: string, draw: int, first: Connect, second: Connect)
    requires WellFormed(r) && 1 <= draw <= 100
    ensures var leaked := LeakedOf(AcquireConnection(r, databaseUrl, draw, first, second).0);
      && |leaked| <= |LeakedOf(r)| + 1
      && leaked[..|LeakedOf(r)|] == LeakedOf(r)
  {
  }

  /** get_db_connection against the shared table. */
  method GetDbConnection(c: Controller, databaseUrl: string, draw: int, first: Connect, second: Connect)
    returns (reply: DbReply)
    requires c.Valid() && 1 <= draw <= 100
    modifies c
    ensures c.Valid()
    ensures (c.Model(), reply) == AcquireConnection(old(c.Model()), databaseUrl, draw, first, second)
  {
    if databaseUrl == "" {
      return DbError(500, NotConfiguredDetail);
    }
    match first
    case ConnectFailed(e) =>
      return DbError(500, ConnectFailedDetail(e));
    case Opened(conn) =>
      if c.faults[ConnectionLeak].enabled && draw <= c.faults[ConnectionLeak].intensity {
        var pool := c.faults[ConnectionLeak];
        c.faults := c.faults[ConnectionLeak := pool.(slot := ConnectionPool(pool.slot.leakedConnections + [conn]))];
        match second
        case ConnectFailed(e) =>
          return DbError(500, ConnectFailedDetail(e));
        case Opened(replacement) =>
          return Connection(replacement);
      }
      return Connection(conn);
  }
}
