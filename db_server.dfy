/**
 * The DB-backed HTTP server: GET /health and POST /login, which looks the
 * submitted id up with a prepared statement and compares the stored
 * password with the submitted one.
 */
module DbServer {
  import opened Wrappers
  import opened Json
  import opened Http
  import opened MariaDb

  const DB_HOST := "127.0.0.1"
  const DB_USER := "seonseo"
  const DB_PASS := "seonseopw"
  const DB_NAME := "login_test"
  /** The port MariaDBConn::connect uses when the caller gives none. */
  const DB_PORT := 3306
  /** The arguments the handler connects with. */
  const DB_ARGS := ConnectArgs(DB_HOST, DB_USER, DB_PASS, DB_NAME, DB_PORT)
  const QUERY := "SELECT uid, pw, name FROM user WHERE id = ?"

  /** {"ok":false,"msg":m} */
  function FailureBody(m: string): JsonObject
  {
    map["ok" := JBool(false), "msg" := JString(m)]
  }

  const BAD_REQUEST_MSG := "bad_request - id/pw required"
  const INVALID_CREDENTIALS_MSG := "invalid credentials"

  /** The message of the 500 reply for a failed step. */
  function StepMessage(s: Step): string
  {
    match s
    case Init => "db connect failed"
    case Connect => "db connect failed"
    case StmtInit => "stmt init fail"
    case Prepare => "stmt prepare fail"
    case BindParam => "bind param fail"
    case Execute => "exec fail"
    case BindResult => "bind result fail"
  }

  /** The outcome of one authentication attempt. */
  datatype AuthVerdict =
    | Success(uid: int, name: string)
    | InvalidCredentials
    | MalformedRequest
    | StoreUnavailable(step: Step)

  /** The first step of the handler's sequence that fails: the step that
      fails while all steps before it succeed. */
  function FirstFailure(failing: set<Step>): (r: Option<Step>)
    ensures r.None? <==> failing == {}
    ensures r.Some? ==> r.value in failing && Before(r.value) !! failing
  {
    if Init in failing then Some(Init)
    else if Connect in failing then Some(Connect)
    else if StmtInit in failing then Some(StmtInit)
    else if Prepare in failing then Some(Prepare)
    else if BindParam in failing then Some(BindParam)
    else if Execute in failing then Some(Execute)
    else if BindResult in failing then Some(BindResult)
    else
      assert forall t: Step :: t !in failing by {
        forall t: Step ensures t !in failing {
          var k := Rank(t);
        }
      }
      None
  }

  /** Position of a step in STEP_ORDER. */
  function Rank(t: Step): (k: nat)
    ensures k < |STEP_ORDER| && STEP_ORDER[k] == t
  {
    match t
    case Init => 0
    case Connect => 1
    case StmtInit => 2
    case Prepare => 3
    case BindParam => 4
    case Execute => 5
    case BindResult => 6
  }

  /** The verdict the handler reaches for a body and a database. */
  function Authenticate(body: Parsed, env: Behaviour): (v: AuthVerdict)
    requires StringCredentials(body)
    ensures v.MalformedRequest? <==> !HasCredentials(body)
    ensures v.StoreUnavailable? <==> HasCredentials(body) && env.failing != {}
    ensures v.StoreUnavailable? ==> v.step in env.failing && Before(v.step) !! env.failing
    ensures v.Success? <==>
      HasCredentials(body) && env.failing == {} && env.fetched.Some?
      && env.fetched.value.pw == SubmittedPw(body)
    ensures v.Success? ==> v.uid == env.fetched.value.uid && v.name == env.fetched.value.name
  {
    if !HasCredentials(body) then MalformedRequest
    else match FirstFailure(env.failing)
      case Some(s) => StoreUnavailable(s)
      case None =>
        match env.fetched
        case Some(row) =>
          if row.pw == SubmittedPw(body) then Success(row.uid, row.name) else InvalidCredentials
        case None => InvalidCredentials
  }

  /** Any two distinct steps are ordered. */
  lemma StepsOrdered(s: Step, t: Step)
    ensures s == t || s in Before(t) || t in Before(s)
  {
  }

  /** A failing step whose predecessors all succeed is the first failure. */
  lemma FirstFailureAt(failing: set<Step>, s: Step)
    requires s in failing && Before(s) !! failing
    ensures FirstFailure(failing) == Some(s)
  {
    StepsOrdered(s, FirstFailure(failing).value);
  }

  /** The reply written for a verdict. */
  function Respond(v: AuthVerdict): (r: Served)
    ensures r.status == 200 <==> v.Success?
    ensures r.status == 400 <==> v.MalformedRequest?
    ensures r.status == 401 <==> v.InvalidCredentials?
    ensures r.status == 500 <==> v.StoreUnavailable?
    ensures "ok" in r.body && r.body["ok"] == JBool(v.Success?)
    ensures v.Success? ==> r.body == map["ok" := JBool(true), "uid" := JNumber(v.uid), "name" := JString(v.name)]
    ensures !v.Success? ==> "msg" in r.body && r.body["msg"].JString? && r.body.Keys == {"ok", "msg"}
  {
    match v
    case Success(uid, name) =>
      Served(200, map["ok" := JBool(true), "uid" := JNumber(uid), "name" := JString(name)])
    case InvalidCredentials => Served(401, FailureBody(INVALID_CREDENTIALS_MSG))
    case MalformedRequest => Served(400, FailureBody(BAD_REQUEST_MSG))
    case StoreUnavailable(s) => Served(500, FailureBody(StepMessage(s)))
  }

  /** The handler gets as far as calling step s. */
  predicate Reached(body: Parsed, env: Behaviour, s: Step)
  {
    HasCredentials(body) && Before(s) !! env.failing
  }

  /** mysql_stmt_init returned a statement handle. */
  predicate StmtCreated(body: Parsed, env: Behaviour)
  {
    Reached(body, env, StmtInit) && StmtInit !in env.failing
  }

  /** The connector calls that can fail, in order. */
  const STEP_CALLS: seq<Api> :=
    [Called(Init), Called(Connect), Called(StmtInit), Called(Prepare),
     Called(BindParam), Called(Execute), Called(BindResult)]

  /** The calls the handler makes while the connection holder is in scope:
      every step up to the first failing one; then, if the statement had
      been created, its close, preceded by store/fetch/free when no step
      failed. */
  function ScopeCalls(failing: set<Step>): seq<Api>
  {
    match FirstFailure(failing)
    case None => STEP_CALLS + [StoreResult, FetchRow, FreeResult, StmtClose]
    case Some(s) => STEP_CALLS[..Rank(s) + 1] + (if Rank(s) > Rank(StmtInit) then [StmtClose] else [])
  }

  /** The whole call trace of one POST /login: nothing for a bad body;
      otherwise the scope's calls and the destructor's mysql_close when
      mysql_init gave a handle. */
  function ExpectedCalls(body: Parsed, env: Behaviour): (r: seq<Api>)
    ensures r == [] <==> !HasCredentials(body)
    ensures r != [] ==> r[0] == Called(Init)
  {
    if !HasCredentials(body) then []
    else ScopeCalls(env.failing) + (if Init !in env.failing then [Close] else [])
  }

  /** Number of occurrences of x in calls. */
  function Count(calls: seq<Api>, x: Api): nat
  {
    if calls == [] then 0
    else (if calls[0] == x then 1 else 0) + Count(calls[1..], x)
  }

  lemma {:induction false} CountAppend(a: seq<Api>, b: seq<Api>, x: Api)
    ensures Count(a + b, x) == Count(a, x) + Count(b, x)
  {
    if a == [] {
      assert a + b == b;
    } else {
      assert (a + b)[1..] == a[1..] + b;
      CountAppend(a[1..], b, x);
    }
  }

  lemma {:induction false} CountPresent(a: seq<Api>, x: Api)
    requires x in a
    ensures Count(a, x) > 0
  {
    if a[0] != x {
      CountPresent(a[1..], x);
    }
  }

  lemma {:induction false} CountAbsent(a: seq<Api>, x: Api)
    requires x !in a
    ensures Count(a, x) == 0
  {
    if a != [] {
      CountAbsent(a[1..], x);
    }
  }

  /** t comes before s exactly when its rank is lower. */
  lemma BeforeByRank(s: Step, t: Step)
    ensures t in Before(s) <==> Rank(t) < Rank(s)
  {
  }

  lemma StepCallsPrefix(n: nat, s: Step)
    requires n <= |STEP_CALLS|
    ensures Called(s) in STEP_CALLS[..n] <==> Rank(s) < n
  {
    assert STEP_CALLS[..n][..] == STEP_CALLS[..n];
    if Called(s) in STEP_CALLS[..n] {
      var k :| 0 <= k < n && STEP_CALLS[..n][k] == Called(s);
      assert STEP_CALLS[k] == Called(STEP_ORDER[k]);
    }
    if Rank(s) < n {
      assert STEP_CALLS[..n][Rank(s)] == Called(s);
    }
  }

  /** Within the holder's scope a step is called exactly when every step
      before it succeeded. */
  lemma ScopeCallsSteps(failing: set<Step>, s: Step)
    ensures Called(s) in ScopeCalls(failing) <==> Before(s) !! failing
  {
    match FirstFailure(failing)
    case None =>
      var rest: seq<Api> := [StoreResult, FetchRow, FreeResult, StmtClose];
      assert ScopeCalls(failing) == STEP_CALLS + rest;
      StepCallsPrefix(|STEP_CALLS|, s);
      assert STEP_CALLS[..|STEP_CALLS|] == STEP_CALLS;
    case Some(f) =>
      var prefix := STEP_CALLS[..Rank(f) + 1];
      var close: seq<Api> := if Rank(f) > Rank(StmtInit) then [StmtClose] else [];
      assert ScopeCalls(failing) == prefix + close;
      StepCallsPrefix(Rank(f) + 1, s);
      ReachedByRank(failing, f, s);
  }

  /** A connector step is called exactly when every step before it
      succeeded: no step runs after a failure. */
  lemma CallsMatchReached(body: Parsed, env: Behaviour, s: Step)
    ensures Called(s) in ExpectedCalls(body, env) <==> Reached(body, env, s)
  {
    if HasCredentials(body) {
      var tail: seq<Api> := if Init !in env.failing then [Close] else [];
      assert ExpectedCalls(body, env) == ScopeCalls(env.failing) + tail;
      ScopeCallsSteps(env.failing, s);
    }
  }

  /** Every entry of a prefix of STEP_CALLS is a step call. */
  lemma StepCallsOnly(n: nat, x: Api)
    requires n <= |STEP_CALLS| && x in STEP_CALLS[..n]
    ensures x.Called?
  {
    var k :| 0 <= k < n && STEP_CALLS[..n][k] == x;
    assert STEP_CALLS[k] == Called(STEP_ORDER[k]);
  }

  /** With f the first failing step, step t is reached exactly when it
      does not come after f. */
  lemma ReachedByRank(failing: set<Step>, f: Step, t: Step)
    requires f in failing && Before(f) !! failing
    ensures Before(t) !! failing <==> Rank(t) <= Rank(f)
  {
    BeforeByRank(t, f);
    if Rank(t) <= Rank(f) {
      forall u | u in Before(t) ensures u !in failing {
        BeforeByRank(t, u);
        BeforeByRank(f, u);
      }
    }
  }

  /** Within the holder's scope the statement is closed once if it was
      created, and the connection is never closed. */
  lemma ScopeCounts(failing: set<Step>)
    ensures Count(ScopeCalls(failing), StmtClose) ==
      if Before(StmtInit) !! failing && StmtInit !in failing then 1 else 0
    ensures Count(ScopeCalls(failing), Close) == 0
  {
    match FirstFailure(failing)
    case None =>
      var rest: seq<Api> := [StoreResult, FetchRow, FreeResult, StmtClose];
      assert ScopeCalls(failing) == STEP_CALLS[..|STEP_CALLS|] + rest;
      StepCallsCounts(|STEP_CALLS|);
      CountAppend(STEP_CALLS[..|STEP_CALLS|], rest, StmtClose);
      CountAppend(STEP_CALLS[..|STEP_CALLS|], rest, Close);
    case Some(f) =>
      var prefix := STEP_CALLS[..Rank(f) + 1];
      var close: seq<Api> := if Rank(f) > Rank(StmtInit) then [StmtClose] else [];
      assert ScopeCalls(failing) == prefix + close;
      StepCallsCounts(Rank(f) + 1);
      CountAppend(prefix, close, StmtClose);
      CountAppend(prefix, close, Close);
      ReachedByRank(failing, f, StmtInit);
      BeforeByRank(f, StmtInit);
  }

  /** No prefix of STEP_CALLS closes anything. */
  lemma StepCallsCounts(n: nat)
    requires n <= |STEP_CALLS|
    ensures Count(STEP_CALLS[..n], StmtClose) == 0 && Count(STEP_CALLS[..n], Close) == 0
  {
    if StmtClose in STEP_CALLS[..n] { StepCallsOnly(n, StmtClose); }
    if Close in STEP_CALLS[..n] { StepCallsOnly(n, Close); }
    CountAbsent(STEP_CALLS[..n], StmtClose);
    CountAbsent(STEP_CALLS[..n], Close);
  }

  /** The prepared statement is closed exactly once when mysql_stmt_init
      gave one, and never otherwise. */
  lemma StatementClosedOnce(body: Parsed, env: Behaviour)
    ensures Count(ExpectedCalls(body, env), StmtClose) == if StmtCreated(body, env) then 1 else 0
  {
    if HasCredentials(body) {
      var tail: seq<Api> := if Init !in env.failing then [Close] else [];
      assert ExpectedCalls(body, env) == ScopeCalls(env.failing) + tail;
      CountAppend(ScopeCalls(env.failing), tail, StmtClose);
      CountAbsent(tail, StmtClose);
      ScopeCounts(env.failing);
    }
  }

  /** The connection handle is closed exactly once when mysql_init gave
      one, and never otherwise. */
  lemma ConnectionClosedOnce(body: Parsed, env: Behaviour)
    ensures Count(ExpectedCalls(body, env), Close) == if Reached(body, env, Step.Connect) then 1 else 0
  {
    if HasCredentials(body) {
      var tail: seq<Api> := if Init !in env.failing then [Close] else [];
      assert ExpectedCalls(body, env) == ScopeCalls(env.failing) + tail;
      CountAppend(ScopeCalls(env.failing), tail, Close);
      ScopeCounts(env.failing);
    }
  }

  /** After the statement is closed, only mysql_close may follow; the
      connection is released last. */
  lemma CloseOrder(body: Parsed, env: Behaviour, i: nat, j: nat)
    requires i < j < |ExpectedCalls(body, env)|
    requires ExpectedCalls(body, env)[i] == StmtClose || ExpectedCalls(body, env)[i] == Close
    ensures ExpectedCalls(body, env)[j] == Close
  {
  }

  /** A body without both members is answered 400 before any connector
      call. */
  lemma BadRequestBeforeDb(body: Parsed, env: Behaviour)
    requires StringCredentials(body) && !HasCredentials(body)
    ensures Respond(Authenticate(body, env)) == Served(400, FailureBody(BAD_REQUEST_MSG))
    ensures ExpectedCalls(body, env) == []
  {
  }

  /** When mysql_init or mysql_real_connect fails the reply is 500 "db
      connect failed" and no statement is created or used. */
  lemma ConnectFailureNoStatement(body: Parsed, env: Behaviour)
    requires StringCredentials(body) && HasCredentials(body)
    requires Init in env.failing || Step.Connect in env.failing
    ensures Respond(Authenticate(body, env)) == Served(500, FailureBody("db connect failed"))
    ensures !StmtCreated(body, env)
    ensures forall t :: Called(t) in ExpectedCalls(body, env) ==> t == Init || t == Step.Connect
    ensures StmtClose !in ExpectedCalls(body, env)
  {
    var f := if Init in env.failing then Init else Step.Connect;
    FailureOutcome(body, env, f);
    forall t | Called(t) in ExpectedCalls(body, env) ensures t == Init || t == Step.Connect {
      CallsMatchReached(body, env, t);
      ReachedByRank(env.failing, f, t);
    }
    StatementClosedOnce(body, env);
    if StmtClose in ExpectedCalls(body, env) {
      CountPresent(ExpectedCalls(body, env), StmtClose);
    }
  }

  /** When step s is the first to fail, the reply is 500 with that step's
      message and exactly the steps up to s are called. */
  lemma StepFailureStopsSteps(body: Parsed, env: Behaviour, s: Step, t: Step)
    requires StringCredentials(body) && HasCredentials(body)
    requires s in env.failing && Before(s) !! env.failing
    ensures Respond(Authenticate(body, env)) == Served(500, FailureBody(StepMessage(s)))
    ensures Called(t) in ExpectedCalls(body, env) <==> Rank(t) <= Rank(s)
  {
    FailureOutcome(body, env, s);
    CallsMatchReached(body, env, t);
    ReachedByRank(env.failing, s, t);
  }

  /** An unknown id and a wrong password give the same reply. */
  lemma UnknownIdLikeWrongPassword(body: Parsed, row: Row)
    requires StringCredentials(body) && HasCredentials(body)
    requires row.pw != SubmittedPw(body)
    ensures Respond(Authenticate(body, Behaviour({}, None))) ==
            Respond(Authenticate(body, Behaviour({}, Some(row))))
            == Served(401, FailureBody(INVALID_CREDENTIALS_MSG))
  {
  }

  /** The RAII holder of the connection handle: mysql_init on
      construction, mysql_close on destruction when the handle is not null. */
  class MariaDBConn {
    const lib: Library
    var conn: bool   // conn != nullptr

    constructor (lib: Library)
      requires !lib.handleLive
      modifies lib`calls, lib`handleLive
      ensures this.lib == lib && conn == (Init !in lib.env.failing) && lib.handleLive == conn
      ensures lib.calls == old(lib.calls) + [Called(Init)]
    {
      var handle := lib.MysqlInit();
      this.lib := lib;
      conn := handle;
    }

    /** MariaDBConn::connect: false without a handle or when
        mysql_real_connect fails. */
    method Connect(host: string, user: string, pass: string, db: string, port: nat) returns (ok: bool)
      requires conn ==> lib.handleLive
      modifies lib`calls, lib`connectArgs
      ensures ok == (conn && Step.Connect !in lib.env.failing)
      ensures lib.calls == old(lib.calls) + (if conn then [Called(Step.Connect)] else [])
      ensures lib.connectArgs == if conn then Some(ConnectArgs(host, user, pass, db, port)) else old(lib.connectArgs)
    {
      if !conn {
        return false;
      }
      ok := lib.MysqlRealConnect(host, user, pass, db, port);
    }

    /** ~MariaDBConn: runs on every exit from the handler's scope. */
    method Destroy()
      requires conn == lib.handleLive
      modifies lib`calls, lib`handleLive, lib`connCloses
      ensures !lib.handleLive
      ensures lib.connCloses == old(lib.connCloses) + (if conn then 1 else 0)
      ensures lib.calls == old(lib.calls) + (if conn then [Close] else [])
    {
      if conn {
        lib.MysqlClose();
      }
    }
  }

  /** GET /health: a constant body, the default status, no database. */
  method Health(res: Response)
    requires res.Unwritten()
    modifies res
    ensures res.Holds(Served(200, HEALTH_BODY)) && res.statusWrites == 0
  {
    res.SetContent(HEALTH_BODY, JSON_TYPE);
  }

  /** POST /login. */
  method Login(body: Parsed, lib: Library, res: Response)
    requires StringCredentials(body) && lib.Pristine() && res.Unwritten()
    modifies lib, res
    ensures res.Holds(Respond(Authenticate(body, lib.env)))
    ensures res.statusWrites == if Authenticate(body, lib.env).Success? then 0 else 1
    ensures lib.calls == ExpectedCalls(body, lib.env)
    ensures !lib.stmtOpen && lib.stmtCloses == if StmtCreated(body, lib.env) then 1 else 0
    ensures !lib.handleLive && lib.connCloses == if Reached(body, lib.env, Step.Connect) then 1 else 0
    ensures lib.connectArgs == if Reached(body, lib.env, Step.Connect) then Some(DB_ARGS) else None
    ensures IdBound(body, lib)
  {
    if !HasCredentials(body) {
      res.SetStatus(400);
      res.SetContent(FailureBody(BAD_REQUEST_MSG), JSON_TYPE);
      return;
    }
    var id := body.fields["id"].s;
    var pw := body.fields["pw"].s;

    var db := new MariaDBConn(lib);
    LookUp(db, body, id, pw, res);
    db.Destroy();
  }

  /** When the last step and every step before it succeed, none fails. */
  lemma AllStepsSucceed(failing: set<Step>)
    requires BindResult !in failing && Before(BindResult) !! failing
    ensures failing == {}
  {
    forall t: Step ensures t !in failing {
      BeforeByRank(BindResult, t);
    }
  }

  /** The outcome of a request whose step s is the first to fail. */
  lemma FailureOutcome(body: Parsed, env: Behaviour, s: Step)
    requires StringCredentials(body) && HasCredentials(body)
    requires s in env.failing && Before(s) !! env.failing
    ensures Respond(Authenticate(body, env)) == Served(500, FailureBody(StepMessage(s)))
    ensures !Authenticate(body, env).Success?
    ensures ScopeCalls(env.failing) == STEP_CALLS[..Rank(s) + 1] + (if Rank(s) > Rank(StmtInit) then [StmtClose] else [])
    ensures StmtCreated(body, env) == (Rank(s) > Rank(StmtInit))
    ensures Reached(body, env, BindParam) == (Rank(s) >= Rank(BindParam))
  {
    FirstFailureAt(env.failing, s);
    BeforeByRank(StmtInit, s);
    BeforeByRank(BindParam, s);
    if Rank(s) >= Rank(BindParam) {
      forall t | t in Before(BindParam) ensures t in Before(s) {
        BeforeByRank(BindParam, t);
        BeforeByRank(s, t);
      }
    }
  }

  /** What every exit from the handler's scope leaves behind: the reply of
      the verdict, a status written only on failure, the calls of the scope
      in order, and no statement left open. */
  predicate ScopeAnswered(body: Parsed, lib: Library, res: Response)
    requires StringCredentials(body)
    reads lib, res
  {
    && res.Holds(Respond(Authenticate(body, lib.env)))
    && res.statusWrites == (if Authenticate(body, lib.env).Success? then 0 else 1)
    && lib.calls == ScopeCalls(lib.env.failing)
    && !lib.stmtOpen
  }

  /** Once the handler gets as far as binding, the prepared query is the
      user lookup and its parameter is the submitted id. */
  predicate IdBound(body: Parsed, lib: Library)
    requires StringCredentials(body)
    reads lib
  {
    Reached(body, lib.env, BindParam) ==>
      lib.query == Some(QUERY) && lib.boundId == Some(SubmittedId(body))
  }

  /** The part of the handler that runs while the connection holder is in
      scope: connect with the fixed parameters, answer 500 when that fails,
      and otherwise go on to the statement.  Each early return leaves
      the scope, which runs the holder's destructor (db.Destroy() in Login). */
  method LookUp(db: MariaDBConn, ghost body: Parsed, id: string, pw: string, res: Response)
    requires HasCredentials(body) && StringCredentials(body)
    requires id == SubmittedId(body) && pw == SubmittedPw(body)
    requires db.lib.calls == [Called(Init)] && db.conn == db.lib.handleLive
    requires db.conn == (Init !in db.lib.env.failing)
    requires !db.lib.stmtOpen && db.lib.stmtCloses == 0
    requires db.lib.connectArgs == None && db.lib.query == None && db.lib.boundId == None
    requires res.Unwritten()
    modifies db.lib`calls, db.lib`connectArgs, db.lib`stmtOpen, db.lib`stmtCloses, db.lib`query, db.lib`boundId, res
    ensures ScopeAnswered(body, db.lib, res)
    ensures db.lib.connectArgs == if db.conn then Some(DB_ARGS) else None
    ensures db.lib.stmtCloses == if StmtCreated(body, db.lib.env) then 1 else 0
    ensures IdBound(body, db.lib)
  {
    var lib := db.lib;
    var connected := db.Connect(DB_HOST, DB_USER, DB_PASS, DB_NAME, DB_PORT);
    if !connected {
      FailureOutcome(body, lib.env, if db.conn then Step.Connect else Init);
      assert lib.calls == STEP_CALLS[..if db.conn then 2 else 1];
      res.SetStatus(500);
      res.SetContent(FailureBody("db connect failed"), JSON_TYPE);
      return;
    }
    assert lib.calls == STEP_CALLS[..2];
    CreateStatement(lib, body, id, pw, res);
  }

  /** Create the statement handle; without one, answer 500. */
  method CreateStatement(lib: Library, ghost body: Parsed, id: string, pw: string, res: Response)
    requires HasCredentials(body) && StringCredentials(body)
    requires id == SubmittedId(body) && pw == SubmittedPw(body)
    requires lib.calls == STEP_CALLS[..2] && lib.handleLive
    requires Before(StmtInit) !! lib.env.failing
    requires !lib.stmtOpen && lib.stmtCloses == 0
    requires res.Unwritten()
    modifies lib`calls, lib`stmtOpen, lib`stmtCloses, lib`query, lib`boundId, res
    ensures ScopeAnswered(body, lib, res)
    ensures lib.stmtCloses == if StmtCreated(body, lib.env) then 1 else 0
    ensures IdBound(body, lib)
  {
    var stmt := lib.MysqlStmtInit();
    assert lib.calls == STEP_CALLS[..3];
    if !stmt {
      FailureOutcome(body, lib.env, StmtInit);
      res.SetStatus(500);
      res.SetContent(FailureBody("stmt init fail"), JSON_TYPE);
      return;
    }

    PrepareQuery(lib, body, id, pw, res);
  }

  /** Prepare the user lookup; on failure, close the statement and answer 500. */
  method PrepareQuery(lib: Library, ghost body: Parsed, id: string, pw: string, res: Response)
    requires HasCredentials(body) && StringCredentials(body)
    requires id == SubmittedId(body) && pw == SubmittedPw(body)
    requires lib.calls == STEP_CALLS[..3] && lib.stmtOpen && lib.stmtCloses == 0
    requires Before(Prepare) !! lib.env.failing
    requires res.Unwritten()
    modifies lib`calls, lib`stmtOpen, lib`stmtCloses, lib`query, lib`boundId, res
    ensures ScopeAnswered(body, lib, res)
    ensures lib.stmtCloses == 1
    ensures IdBound(body, lib)
  {
    var rc := lib.MysqlStmtPrepare(QUERY);
    assert lib.calls == STEP_CALLS[..4];
    if rc != 0 {
      FailureOutcome(body, lib.env, Prepare);
      lib.MysqlStmtClose();
      res.SetStatus(500);
      res.SetContent(FailureBody("stmt prepare fail"), JSON_TYPE);
      return;
    }

    BindId(lib, body, id, pw, res);
  }

  /** Bind the submitted id as the query's one parameter; on failure, close
      the statement and answer 500. */
  method BindId(lib: Library, ghost body: Parsed, id: string, pw: string, res: Response)
    requires HasCredentials(body) && StringCredentials(body)
    requires id == SubmittedId(body) && pw == SubmittedPw(body)
    requires lib.calls == STEP_CALLS[..4] && lib.stmtOpen && lib.stmtCloses == 0
    requires Before(BindParam) !! lib.env.failing && lib.query == Some(QUERY)
    requires res.Unwritten()
    modifies lib`calls, lib`stmtOpen, lib`stmtCloses, lib`boundId, res
    ensures ScopeAnswered(body, lib, res)
    ensures lib.stmtCloses == if StmtCreated(body, lib.env) then 1 else 0
    ensures IdBound(body, lib)
  {
    var rc := lib.MysqlStmtBindParam(id);
    assert lib.calls == STEP_CALLS[..5];
    if rc != 0 {
      FailureOutcome(body, lib.env, BindParam);
      lib.MysqlStmtClose();
      res.SetStatus(500);
      res.SetContent(FailureBody("bind param fail"), JSON_TYPE);
      return;
    }

    ExecuteStatement(lib, body, pw, res);
  }

  /** Execute the query; on failure, close the statement and answer 500. */
  method ExecuteStatement(lib: Library, ghost body: Parsed, pw: string, res: Response)
    requires HasCredentials(body) && StringCredentials(body) && pw == SubmittedPw(body)
    requires lib.calls == STEP_CALLS[..5] && lib.stmtOpen && lib.stmtCloses == 0
    requires Before(Execute) !! lib.env.failing
    requires res.Unwritten()
    modifies lib`calls, lib`stmtOpen, lib`stmtCloses, res
    ensures ScopeAnswered(body, lib, res)
    ensures lib.stmtCloses == 1
  {
    var rc := lib.MysqlStmtExecute();
    assert lib.calls == STEP_CALLS[..6];
    if rc != 0 {
      FailureOutcome(body, lib.env, Execute);
      lib.MysqlStmtClose();
      res.SetStatus(500);
      res.SetContent(FailureBody("exec fail"), JSON_TYPE);
      return;
    }

    BindColumns(lib, body, pw, res);
  }

  /** Bind the uid, pw and name result columns; on failure, close the
      statement and answer 500. */
  method BindColumns(lib: Library, ghost body: Parsed, pw: string, res: Response)
    requires HasCredentials(body) && StringCredentials(body) && pw == SubmittedPw(body)
    requires lib.calls == STEP_CALLS[..6] && lib.stmtOpen && lib.stmtCloses == 0
    requires Before(BindResult) !! lib.env.failing
    requires res.Unwritten()
    modifies lib`calls, lib`stmtOpen, lib`stmtCloses, res
    ensures ScopeAnswered(body, lib, res)
    ensures lib.stmtCloses == 1
  {
    var rc := lib.MysqlStmtBindResult();
    assert lib.calls == STEP_CALLS;
    if rc != 0 {
      FailureOutcome(body, lib.env, BindResult);
      lib.MysqlStmtClose();
      res.SetStatus(500);
      res.SetContent(FailureBody("bind result fail"), JSON_TYPE);
      return;
    }

    AllStepsSucceed(lib.env.failing);
    FetchAndCompare(lib, body, pw, res);
  }

  /** Fetch the row, release the result and the statement, and compare the
      stored password with the submitted one. */
  method FetchAndCompare(lib: Library, ghost body: Parsed, pw: string, res: Response)
    requires HasCredentials(body) && StringCredentials(body) && pw == SubmittedPw(body)
    requires lib.calls == STEP_CALLS && lib.env.failing == {}
    requires lib.stmtOpen && lib.stmtCloses == 0
    requires res.Unwritten()
    modifies lib`calls, lib`stmtOpen, lib`stmtCloses, res
    ensures ScopeAnswered(body, lib, res)
    ensures lib.stmtCloses == 1
  {
    lib.MysqlStmtStoreResult();
    var row := lib.MysqlStmtFetch();
    var found := row.Some?;
    lib.MysqlStmtFreeResult();
    lib.MysqlStmtClose();

    if !found {
      res.SetStatus(401);
      res.SetContent(FailureBody(INVALID_CREDENTIALS_MSG), JSON_TYPE);
      return;
    }

    if row.value.pw == pw {
      res.SetContent(map["ok" := JBool(true), "uid" := JNumber(row.value.uid), "name" := JString(row.value.name)], JSON_TYPE);
    } else {
      res.SetStatus(401);
      res.SetContent(FailureBody(INVALID_CREDENTIALS_MSG), JSON_TYPE);
    }
  }
}
