/**
 * The MariaDB C connector as the DB-backed server uses it.  The library is
 * not modelled: each call's outcome comes from a scripted Behaviour, and the
 * object only records which calls were made and which handles are open.
 * The preconditions of the calls are the connector's own rules (a statement
 * is used only while open, each handle is closed once).
 */
module MariaDb {
  import opened Wrappers

  /** The calls that can fail, in the order the handler makes them:
      mysql_init, mysql_real_connect, mysql_stmt_init, mysql_stmt_prepare,
      mysql_stmt_bind_param, mysql_stmt_execute, mysql_stmt_bind_result. */
  datatype Step = Init | Connect | StmtInit | Prepare | BindParam | Execute | BindResult

  const STEP_ORDER: seq<Step> := [Init, Connect, StmtInit, Prepare, BindParam, Execute, BindResult]

  /** The steps that precede s in STEP_ORDER. */
  function Before(s: Step): (b: set<Step>)
    ensures s !in b
  {
    match s
    case Init => {}
    case Connect => {Init}
    case StmtInit => {Init, Connect}
    case Prepare => {Init, Connect, StmtInit}
    case BindParam => {Init, Connect, StmtInit, Prepare}
    case Execute => {Init, Connect, StmtInit, Prepare, BindParam}
    case BindResult => {Init, Connect, StmtInit, Prepare, BindParam, Execute}
  }

  /** A row of "SELECT uid, pw, name FROM user WHERE id = ?". */
  datatype Row = Row(uid: int, pw: string, name: string)

  /** How the database behaves for one request: which calls would fail, and
      the row mysql_stmt_fetch delivers (None when it returns anything but 0:
      no row, an error, or a truncated column). */
  datatype Behaviour = Behaviour(failing: set<Step>, fetched: Option<Row>)

  /** The arguments of a mysql_real_connect call. */
  datatype ConnectArgs = ConnectArgs(host: string, user: string, pass: string, db: string, port: nat)

  /** An entry of the call trace. */
  datatype Api = Called(step: Step) | StoreResult | FetchRow | FreeResult | StmtClose | Close

  class Library {
    const env: Behaviour
    var calls: seq<Api>
    var handleLive: bool     // a MYSQL* from mysql_init not yet passed to mysql_close
    var stmtOpen: bool       // a MYSQL_STMT* not yet passed to mysql_stmt_close
    var stmtCloses: nat
    var connCloses: nat
    var connectArgs: Option<ConnectArgs>
    var query: Option<string>
    var boundId: Option<string>

    predicate Pristine()
      reads this
    {
      calls == [] && !handleLive && !stmtOpen && stmtCloses == 0 && connCloses == 0
      && connectArgs == None && query == None && boundId == None
    }

    constructor (env: Behaviour)
      ensures this.env == env && Pristine()
    {
      this.env := env;
      calls := [];
      handleLive, stmtOpen := false, false;
      stmtCloses, connCloses := 0, 0;
      connectArgs, query, boundId := None, None, None;
    }

    /** mysql_init(nullptr): a handle, or null. */
    method MysqlInit() returns (ok: bool)
      requires !handleLive
      modifies this`calls, this`handleLive
      ensures ok == (Init !in env.failing) && handleLive == ok
      ensures calls == old(calls) + [Called(Init)]
    {
      ok := Init !in env.failing;
      handleLive := ok;
      calls := calls + [Called(Init)];
    }

    /** mysql_real_connect: non-null on success.  The connection
        parameters are recorded; they do not influence the scripted outcome. */
    method MysqlRealConnect(host: string, user: string, pass: string, db: string, port: nat) returns (ok: bool)
      requires handleLive
      modifies this`calls, this`connectArgs
      ensures ok == (Connect !in env.failing)
      ensures calls == old(calls) + [Called(Connect)]
      ensures connectArgs == Some(ConnectArgs(host, user, pass, db, port))
    {
      ok := Connect !in env.failing;
      connectArgs := Some(ConnectArgs(host, user, pass, db, port));
      calls := calls + [Called(Connect)];
    }

    /** mysql_stmt_init: a statement handle, or null. */
    method MysqlStmtInit() returns (ok: bool)
      requires handleLive && !stmtOpen
      modifies this`calls, this`stmtOpen
      ensures ok == (StmtInit !in env.failing) && stmtOpen == ok
      ensures calls == old(calls) + [Called(StmtInit)]
    {
      ok := StmtInit !in env.failing;
      stmtOpen := ok;
      calls := calls + [Called(StmtInit)];
    }

    /** mysql_stmt_prepare: 0 on success. */
    method MysqlStmtPrepare(sql: string) returns (rc: int)
      requires stmtOpen
      modifies this`calls, this`query
      ensures (rc == 0) == (Prepare !in env.failing)
      ensures calls == old(calls) + [Called(Prepare)] && query == Some(sql)
    {
      rc := if Prepare in env.failing then 1 else 0;
      query := Some(sql);
      calls := calls + [Called(Prepare)];
    }

    /** mysql_stmt_bind_param with one string parameter. */
    method MysqlStmtBindParam(param: string) returns (rc: int)
      requires stmtOpen
      modifies this`calls, this`boundId
      ensures (rc == 0) == (BindParam !in env.failing)
      ensures calls == old(calls) + [Called(BindParam)] && boundId == Some(param)
    {
      rc := if BindParam in env.failing then 1 else 0;
      boundId := Some(param);
      calls := calls + [Called(BindParam)];
    }

    /** mysql_stmt_execute: 0 on success. */
    method MysqlStmtExecute() returns (rc: int)
      requires stmtOpen
      modifies this`calls
      ensures (rc == 0) == (Execute !in env.failing)
      ensures calls == old(calls) + [Called(Execute)]
    {
      rc := if Execute in env.failing then 1 else 0;
      calls := calls + [Called(Execute)];
    }

    /** mysql_stmt_bind_result for the three result columns. */
    method MysqlStmtBindResult() returns (rc: int)
      requires stmtOpen
      modifies this`calls
      ensures (rc == 0) == (BindResult !in env.failing)
      ensures calls == old(calls) + [Called(BindResult)]
    {
      rc := if BindResult in env.failing then 1 else 0;
      calls := calls + [Called(BindResult)];
    }

    /** mysql_stmt_store_result; its result is ignored by the caller. */
    method MysqlStmtStoreResult()
      requires stmtOpen
      modifies this`calls
      ensures calls == old(calls) + [StoreResult]
    {
      calls := calls + [StoreResult];
    }

    /** mysql_stmt_fetch: the bound row when it returns 0. */
    method MysqlStmtFetch() returns (row: Option<Row>)
      requires stmtOpen
      modifies this`calls
      ensures row == env.fetched
      ensures calls == old(calls) + [FetchRow]
    {
      row := env.fetched;
      calls := calls + [FetchRow];
    }

    /** mysql_stmt_free_result. */
    method MysqlStmtFreeResult()
      requires stmtOpen
      modifies this`calls
      ensures calls == old(calls) + [FreeResult]
    {
      calls := calls + [FreeResult];
    }

    /** mysql_stmt_close: releases the statement handle. */
    method MysqlStmtClose()
      requires stmtOpen
      modifies this`calls, this`stmtOpen, this`stmtCloses
      ensures !stmtOpen && stmtCloses == old(stmtCloses) + 1
      ensures calls == old(calls) + [StmtClose]
    {
      stmtOpen := false;
      stmtCloses := stmtCloses + 1;
      calls := calls + [StmtClose];
    }

    /** mysql_close: releases the connection handle. */
    method MysqlClose()
      requires handleLive
      modifies this`calls, this`handleLive, this`connCloses
      ensures !handleLive && connCloses == old(connCloses) + 1
      ensures calls == old(calls) + [Close]
    {
      handleLive := false;
      connCloses := connCloses + 1;
      calls := calls + [Close];
    }
  }
}
