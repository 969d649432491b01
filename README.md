# cpp-qt-http-demo in Dafny

This project models the login demo of cpp-qt-http-demo. The demo has three parts:

- **The DB-backed server** (`server/src/server.cpp`). It is a cpp-httplib server with two handlers:
  - `GET /health` always answers `{"ok":true}`.
  - `POST /login` first checks the JSON body for `id` and `pw`. It then opens a MariaDB connection through the RAII holder `MariaDBConn`, and runs the prepared statement `SELECT uid, pw, name FROM user WHERE id = ?` step by step. The stored password is compared with the submitted one. Every failing step has its own early return.
- **The demo server** (`src/server.cpp`). Its `/login` accepts the single account `seonseo`/`1216` and answers with a fixed token.
- **The Qt client window** (`client/Client_Gui/mainwindow.cpp`):
  - `on_btnLogin_clicked` checks the input: the id is trimmed, both fields must be non-empty, and the id must contain an email-shaped match. It then POSTs `{"id","pw"}` and clears the line edits (`lineEditIni`).
  - `onLoginReply` is the one slot that handles every finished reply. It picks a branch from the status, the network error, the body parse and the `ok` member. It then sets the status label, shows a message box and releases the reply.

How the model is built:

- **Handlers.** Each handler is an imperative method over an `Http.Response` object. The object records the status, the body, the content type, and how often each was written.
- **Database.** The MariaDB C connector is the class `MariaDb.Library`. It is driven by a scripted `Behaviour`: the set of steps that fail, and the row (if any) that `mysql_stmt_fetch` delivers. It records every call in a trace and tracks which handles are open.
- **Specification functions.** The handler methods are proved against pure functions:
  - `DbServer.Authenticate` gives the verdict, and `DbServer.Respond` the reply;
  - `DbServer.ExpectedCalls` gives the connector call trace;
  - `DemoServer.Decide` gives the demo server's reply;
  - `LoginClient.CheckLoginInput` and `LoginClient.Classify` cover the client.
- **Lemmas.** Lemmas then state what those functions promise:
  - the statement is closed once;
  - the connection is closed once;
  - no step runs after a failure;
  - "no such id" and "wrong password" give the same reply;
  - the id regex is unanchored;
  - the demo server's success reply is shown as a failure by the client.

Library behaviour the model follows from the code:

- **Trimming.** `QString::trimmed` removes characters for which `QChar::isSpace` holds: the Unicode categories Zs, Zl and Zp, U+0009 to U+000D, and U+0085.
- **The id pattern.** The `QRegularExpression` is built without `UseUnicodePropertiesOption`, so `\w` is the ASCII class `[A-Za-z0-9_]`.
- **JSON member reads.** `QJsonValue::toBool()` is true only for a boolean member that is true. `toString()` is `""` for a member that is not a string.
- **The status attribute.** A missing status attribute reads as 0.
- **The default status.** cpp-httplib sends 200 when the handler sets no status. A fresh `Response` therefore starts at 200.

Behaviour of the code worth knowing, which the model keeps:

- **One exact status.** The client treats every status other than exactly 200 as an error, including the rest of the 2xx range.
- **Unreachable server.** When the server cannot be reached, the client only shows a warning. It does not change the status label.
- **Empty members.** The DB server accepts empty `id`/`pw` members. It checks only that they are present.
- **Any path can be a login.** A 200 object reply on any path other than `/health` is handled as a login reply.
- **Plain-text passwords.** The DB server compares the stored password with the submitted one by plain string equality (`server/src/server.cpp:195-196`). There is no password hash and no constant-time comparison.

## Model

| member | source | states |
|---|---|---|
| Json.ToBool | client/Client_Gui/mainwindow.cpp:203 | `value("ok").toBool()`: true only when the member is present and is the boolean true |
| Json.ToText | client/Client_Gui/mainwindow.cpp:224 | `value("name").toString()`: the member's text when it is a string, otherwise the empty string |
| QtText.IsSpace | client/Client_Gui/mainwindow.cpp:73 | the characters `trimmed()` removes, as `QChar::isSpace` defines them: U+0009 to U+000D, U+0085, and the Zs, Zl and Zp separators |
| QtText.LeadingSpaces | client/Client_Gui/mainwindow.cpp:73 | the count of leading white-space characters: all of them are spaces, and the next character is not |
| QtText.TrailingSpaces | client/Client_Gui/mainwindow.cpp:73 | the count of trailing white-space characters, and the character before them is not a space |
| QtText.Trimmed | client/Client_Gui/mainwindow.cpp:73 | the trimmed id is the slice that follows the leading spaces, and only spaces follow it; it is empty exactly when the text is all white space; otherwise it starts and ends with a non-space |
| QtText.TrimmedUnpadded | client/Client_Gui/mainwindow.cpp:73 | text without white space at either end is left unchanged by trimming |
| QtText.TrimmedIdempotent | client/Client_Gui/mainwindow.cpp:73 | trimming an already trimmed id changes nothing |
| QtText.TrimmedKeepsInnerText | client/Client_Gui/mainwindow.cpp:73 | trimming removes exactly the white-space padding around an id |
| QtText.NatDigits | client/Client_Gui/mainwindow.cpp:166 | the decimal digits of a natural number; the text is never empty and consists of digits only |
| QtText.Number | client/Client_Gui/mainwindow.cpp:166 | `QString::number` for an int: a minus sign for a negative number, then the digits of its magnitude |
| QtText.NatDigitsValue | client/Client_Gui/mainwindow.cpp:166 | the decimal digits written by QString::number denote the number and have no leading zero |
| QtText.NumberSign | client/Client_Gui/mainwindow.cpp:166 | the text is never empty and starts with '-' exactly for negative numbers |
| QtText.NatDigitsInjective | client/Client_Gui/mainwindow.cpp:166 | distinct naturals are written with distinct digits |
| QtText.NumberInjective | client/Client_Gui/mainwindow.cpp:166 | distinct status codes are written as distinct texts |
| EmailPattern.SplitAt | client/Client_Gui/mainwindow.cpp:89-91 | how a text splits into the pattern's three groups: a non-empty local part and domain of `[\w.-]`, an '@' and a final '.' between them, and at least two letters after the '.' |
| EmailPattern.MatchesWhole | client/Client_Gui/mainwindow.cpp:89-91 | a whole text matches the pattern when some '@' and '.' split it that way |
| EmailPattern.HasMatch | client/Client_Gui/mainwindow.cpp:89-92 | `match(id).hasMatch()`: the pattern has no anchors, so some substring of the id matches it as a whole |
| EmailPattern.HasMatchIffCore | client/Client_Gui/mainwindow.cpp:89-92 | the unanchored search succeeds exactly when some '@' has a name character before it, then name characters up to a '.' followed by two letters |
| EmailPattern.CoreIsMatch | client/Client_Gui/mainwindow.cpp:89-92 | such a minimal shape is a match of the pattern |
| EmailPattern.NoAtNoMatch | client/Client_Gui/mainwindow.cpp:89-92 | an id without '@' never matches |
| EmailPattern.CoreShift | client/Client_Gui/mainwindow.cpp:89-92 | a minimal match inside a slice is a minimal match of the whole text |
| EmailPattern.MatchAnywhere | client/Client_Gui/mainwindow.cpp:89-92 | the pattern is not anchored: text added before or after keeps a match |
| EmailPattern.ExampleAccepted | client/Client_Gui/mainwindow.cpp:90 | "a@b.com" matches |
| EmailPattern.ExampleTopLevelTooShort | client/Client_Gui/mainwindow.cpp:90 | "a@b.c" does not match, because the top-level part needs two letters |
| EmailPattern.ExampleNoDomainDot | client/Client_Gui/mainwindow.cpp:90 | "user@localhost" does not match |
| Http.HasCredentials | server/src/server.cpp:73 | the body is a JSON object with both an "id" and a "pw" member; the demo server makes the same check at src/server.cpp:32 |
| Http.StringCredentials | server/src/server.cpp:81-82 | when both members are present they are JSON strings, the condition under which the two conversions to std::string succeed (src/server.cpp:38-39 likewise) |
| Http.Response.constructor | server/src/server.cpp:196-203 | a response starts unwritten, with the default status 200 |
| Http.Response.SetStatus | server/src/server.cpp:75 | `res.status = code` sets the status and counts one status write |
| Http.Response.SetContent | server/src/server.cpp:76 | `set_content` stores the body object and type and counts one content write |
| MariaDb.Before | server/src/server.cpp:90-174 | the steps the handler calls before a given step; a step never precedes itself |
| MariaDb.Library.constructor | server/src/server.cpp:33 | a fresh connector has no open handle, no call trace and no bound query |
| MariaDb.Library.MysqlInit | server/src/server.cpp:33 | mysql_init gives a handle unless it fails; the call is recorded |
| MariaDb.Library.MysqlRealConnect | server/src/server.cpp:41 | mysql_real_connect needs a live handle, records the host, user, password, database and port it is given, and succeeds unless scripted to fail |
| MariaDb.Library.MysqlStmtInit | server/src/server.cpp:101 | mysql_stmt_init opens a statement unless it fails |
| MariaDb.Library.MysqlStmtPrepare | server/src/server.cpp:108 | prepare needs an open statement and records the query; it returns 0 unless it fails |
| MariaDb.Library.MysqlStmtBindParam | server/src/server.cpp:124 | bind_param records the bound id and returns 0 unless it fails |
| MariaDb.Library.MysqlStmtExecute | server/src/server.cpp:133 | execute returns 0 unless it fails |
| MariaDb.Library.MysqlStmtBindResult | server/src/server.cpp:168 | bind_result returns 0 unless it fails |
| MariaDb.Library.MysqlStmtStoreResult | server/src/server.cpp:177 | store_result is recorded; its result is not used |
| MariaDb.Library.MysqlStmtFetch | server/src/server.cpp:180 | fetch delivers the scripted row, or none |
| MariaDb.Library.MysqlStmtFreeResult | server/src/server.cpp:185 | free_result is recorded |
| MariaDb.Library.MysqlStmtClose | server/src/server.cpp:111 | closing needs an open statement, leaves it closed and counts the close |
| MariaDb.Library.MysqlClose | server/src/server.cpp:34 | closing needs a live handle, leaves it closed and counts the close |
| DbServer.FailureBody | server/src/server.cpp:76 | every failure reply's body is {"ok": false, "msg": m} |
| DbServer.StepMessage | server/src/server.cpp:95-172 | the "msg" of the 500 reply for each failing step: "db connect failed" for init and connect, then "stmt init fail", "stmt prepare fail", "bind param fail", "exec fail", "bind result fail" |
| DbServer.ScopeCalls | server/src/server.cpp:91-186 | the connector calls while the holder is in scope: the steps up to the first failing one, then the statement close when a statement was created; with no failure, store, fetch, free and close follow all seven steps |
| DbServer.FirstFailure | server/src/server.cpp:91-174 | the step at which the chain of early returns stops: none exactly when no step fails; otherwise a failing step whose predecessors all succeed |
| DbServer.Authenticate | server/src/server.cpp:72-208 | a body without id/pw is a bad request; otherwise any failing step makes the store unavailable at the first one; success holds exactly when a row is fetched and its pw equals the submitted pw, with that row's uid and name; otherwise the credentials are invalid |
| DbServer.Respond | server/src/server.cpp:73-207 | status 200/400/401/500 exactly for success / bad request / invalid credentials / store failure; "ok" is true only on success; the success body is {ok, uid, name}; every failure body is exactly {ok, msg} |
| DbServer.ExpectedCalls | server/src/server.cpp:33-34 | no connector call for a bad body; otherwise the trace starts with mysql_init |
| DbServer.CallsMatchReached | server/src/server.cpp:91-174 | a connector step is called exactly when the body is well formed and every earlier step succeeded: nothing runs after a failure |
| DbServer.StatementClosedOnce | server/src/server.cpp:101-186 | the statement is closed exactly once when mysql_stmt_init returned one, and never otherwise |
| DbServer.ConnectionClosedOnce | server/src/server.cpp:33-34 | the destructor closes the connection exactly once when mysql_init returned a handle, and never otherwise |
| DbServer.CloseOrder | server/src/server.cpp:34 | after a statement close or a connection close, only the connection close can follow; the connection is released last |
| DbServer.BadRequestBeforeDb | server/src/server.cpp:72-78 | a body without id/pw gets 400 "bad_request - id/pw required" and makes no connector call |
| DbServer.ConnectFailureNoStatement | server/src/server.cpp:91-97 | a failed init or connect gets 500 "db connect failed"; no statement is created, used or closed |
| DbServer.StepFailureStopsSteps | server/src/server.cpp:101-174 | when step s fails first, the reply is 500 with s's message and exactly the steps up to s are called |
| DbServer.FailureOutcome | server/src/server.cpp:101-174 | when step s fails first, the reply is 500 with s's message; the trace ends with s and then a statement close if one was created |
| DbServer.UnknownIdLikeWrongPassword | server/src/server.cpp:188-193 | an unknown id and a wrong password give the identical 401 "invalid credentials" reply |
| DbServer.MariaDBConn.constructor | server/src/server.cpp:33 | the holder calls mysql_init and keeps the handle if there is one |
| DbServer.MariaDBConn.Connect | server/src/server.cpp:38-47 | connect is false without a handle, with no further call; otherwise it passes its arguments to mysql_real_connect and is false when that fails |
| DbServer.MariaDBConn.Destroy | server/src/server.cpp:34 | the destructor calls mysql_close exactly when the handle is not null, and nothing is left open |
| DbServer.Health | server/src/server.cpp:65-67 | GET /health writes {"ok":true} with the default status and one content write; it takes no database |
| DbServer.Login | server/src/server.cpp:70-209 | the handler writes exactly the reply of the verdict, with one content write; it sets the status only on failure; the call trace is ExpectedCalls; the statement and the connection are closed once each when opened; when the body is well formed and mysql_init gave a handle, mysql_real_connect got 127.0.0.1, seonseo, seonseopw, login_test and port 3306, and otherwise it was not called; the query is bound to the submitted id |
| DbServer.LookUp | server/src/server.cpp:85-97 | after the holder is created: it connects to 127.0.0.1 as seonseo to login_test on the default port 3306; a failed connect answers 500; otherwise the statement part runs; the statement is closed when it was created |
| DbServer.CreateStatement | server/src/server.cpp:99-106 | without a statement handle the reply is 500 "stmt init fail" and nothing is closed |
| DbServer.PrepareQuery | server/src/server.cpp:108-115 | a failed prepare closes the statement and answers 500 "stmt prepare fail" |
| DbServer.BindId | server/src/server.cpp:116-130 | the submitted id is bound; a failed bind closes the statement and answers 500 "bind param fail" |
| DbServer.ExecuteStatement | server/src/server.cpp:132-139 | a failed execute closes the statement and answers 500 "exec fail" |
| DbServer.BindColumns | server/src/server.cpp:141-174 | a failed bind_result closes the statement and answers 500 "bind result fail" |
| DbServer.FetchAndCompare | server/src/server.cpp:176-208 | store, fetch, free and close run in order; no row or a pw mismatch answers 401; a match answers the row's uid and name with the default status |
| DemoServer.Decide | src/server.cpp:29-49 | 400 exactly for a body without id/pw, and then the body is {"error":"bad_request"}; 200 exactly for "seonseo"/"1216", and a reply is {"status":"ok","token":"fake_token_123"} exactly when it is 200; a token appears only then; every other reply is 401 {"status":"fail"}; no reply has an "ok" member |
| DemoServer.RejectionsAlike | src/server.cpp:45-49 | every rejected pair gets the same 401 {"status":"fail"} |
| DemoServer.OnlyCredentialsMatter | src/server.cpp:38-42 | the reply depends only on the id and pw members |
| DemoServer.Health | src/server.cpp:15-17 | GET /health writes {"ok":true} with the default status |
| DemoServer.Login | src/server.cpp:25-50 | the handler writes Decide's reply and sets the status only when not answering 200 |
| LoginClient.ServerErrorText | client/Client_Gui/mainwindow.cpp:163-167 | the server-error text carries the status code written by `QString::number` |
| LoginClient.LoginBody | client/Client_Gui/mainwindow.cpp:107-109 | the POST body is the object {"id": id, "pw": pw} and nothing else |
| LoginClient.CheckLoginInput | client/Client_Gui/mainwindow.cpp:73-96 | a missing id means the id is all white space; a missing pw means the untrimmed pw is empty; otherwise the trimmed id is accepted exactly when it contains a match |
| LoginClient.GateMessage | client/Client_Gui/mainwindow.cpp:77-96 | every rejected input shows a warning titled "입력 오류" |
| LoginClient.AcceptedIdShape | client/Client_Gui/mainwindow.cpp:73-96 | an accepted id is non-empty, has no white space at either end, and contains '@' |
| LoginClient.PaddedIdAccepted | client/Client_Gui/mainwindow.cpp:73-96 | white space typed around a valid id is dropped and the id is accepted |
| LoginClient.BlankPasswordAccepted | client/Client_Gui/mainwindow.cpp:74-87 | the password is not trimmed: a password of one space passes |
| LoginClient.SurroundedMatchAccepted | client/Client_Gui/mainwindow.cpp:89-96 | any text with no white space at either end that contains a match is accepted whole |
| LoginClient.Classify | client/Client_Gui/mainwindow.cpp:128-230 | the branches in precedence order: no status plus a network error; 401 on /login; any other status but 200 (carrying the code); a non-object body, by path; then "ok" gives Online or Offline on /health, and a rejection or a welcome with "name" elsewhere |
| LoginClient.LabelOf | client/Client_Gui/mainwindow.cpp:183-210 | the label text each branch sets: parse failure, Online or Offline for a /health reply, and no change for every other branch |
| LoginClient.MessagesOf | client/Client_Gui/mainwindow.cpp:139-229 | the message box each branch shows, with its icon, title and text; none for a /health object reply or an ignored reply |
| LoginClient.LabelOnlyFromHealth | client/Client_Gui/mainwindow.cpp:183-211 | the label changes exactly for a status-200 reply on /health; a login reply never changes it |
| LoginClient.AtMostOneMessage | client/Client_Gui/mainwindow.cpp:139-229 | a reply shows at most one message box, and none exactly for a 200 object on /health or a malformed 200 on another path |
| LoginClient.StatusZeroWithoutError | client/Client_Gui/mainwindow.cpp:139-170 | status 0 without a network error gives the "서버 오류 발생 (HTTP 0)" warning |
| LoginClient.ServerErrorTextsDiffer | client/Client_Gui/mainwindow.cpp:163-167 | distinct error statuses give distinct server-error texts |
| LoginClient.Reply.constructor | client/Client_Gui/mainwindow.cpp:128 | a reply arrives unreleased and unread |
| LoginClient.Reply.DeleteLater | client/Client_Gui/mainwindow.cpp:142 | deleteLater counts one release |
| LoginClient.Reply.ReadAll | client/Client_Gui/mainwindow.cpp:173-178 | reading gives the body's parse outcome and marks the body read |
| LoginClient.MainWindow.constructor | client/Client_Gui/mainwindow.cpp:34 | the window starts with empty fields, no messages, no login request sent, and the "connection check" label |
| LoginClient.MainWindow.Warn | client/Client_Gui/mainwindow.cpp:78 | a warning box is appended to the message log |
| LoginClient.MainWindow.Inform | client/Client_Gui/mainwindow.cpp:154-158 | an information box is appended to the message log |
| LoginClient.MainWindow.LineEditIni | client/Client_Gui/mainwindow.cpp:233-236 | both line edits are cleared |
| LoginClient.MainWindow.OnBtnLoginClicked | client/Client_Gui/mainwindow.cpp:70-118 | rejected input shows CheckLoginInput's warning and changes neither the fields nor the sent requests; accepted input sends exactly one POST to /login with {"id": trimmed id, "pw": pw as typed}, then clears both fields |
| LoginClient.MainWindow.OnLoginReply | client/Client_Gui/mainwindow.cpp:128-230 | every path releases the reply exactly once; the body is read only for status 200; the label and the message log change exactly as the reply's classification says |
| Interop.LoginBodyWellFormed | client/Client_Gui/mainwindow.cpp:107-112 | the client's POST body passes the servers' id/pw check and carries both values unchanged |
| Interop.ClientNeverMalformedForDb | server/src/server.cpp:72-78 | the client's request never gets the DB server's 400 |
| Interop.DemoAcceptsClientIff | src/server.cpp:42 | the demo server accepts the client's request exactly for "seonseo"/"1216" and never answers it with 400 |
| Interop.HealthShowsOnline | client/Client_Gui/mainwindow.cpp:203-211 | either server's /health reply is classified as Online |
| Interop.DbVerdictOnClient | client/Client_Gui/mainwindow.cpp:149-229 | the client shows a DB-server success as a welcome with the stored name; invalid credentials as the 401 dialog; a bad body or store failure as a server error with 400 or 500 |
| Interop.DemoSuccessShownAsFailure | src/server.cpp:44 | the demo server's token reply has no "ok", so the client shows the check-credentials dialog |
| Interop.DemoNeverWelcomes | src/server.cpp:32-49 | no demo-server reply produces the welcome dialog; 200, 401 and 400 map to rejection, the 401 dialog and a server error |

## Left out

- **JSON.** Parsing and serialisation (nlohmann::json, QJsonDocument) are not modelled. A body is the JSON object it denotes, or `NotObject` for a syntax error or a non-object document. "Identical bodies" means identical objects, not identical byte strings.
- DbServer.Login and DemoServer.Login require string-valued `id`/`pw` members (`StringCredentials`). Otherwise the source's `get<std::string>()` or implicit conversion throws. Exceptions are library behaviour and are not modelled.
- **MariaDB internals.** The MariaDB C connector itself, its `MYSQL_BIND` buffers and `memset` are not modelled. Each call either succeeds or fails as scripted.
  - Truncation of `pw_buf`/`name_buf` (a fetch result other than 0) counts as "no row".
  - `pw_is_null`, which the source never reads, is left out.
  - The connection parameters and the query text are recorded but do not affect the scripted outcomes.
- DbServer.Login: the handler scope is modelled as the helper methods LookUp, CreateStatement, PrepareQuery, BindId, ExecuteStatement, BindColumns and FetchAndCompare, one per connector step. Leaving the scope is modelled as an explicit `Destroy` call after `LookUp` returns.
- **Logging.** `std::cerr` logging, `mysql_error`, and the startup message and `listen` of both servers are I/O and are left out.
- **HTTP details.** cpp-httplib's request routing, headers, and its 206 rewriting for Range requests are not modelled.
- **Client start-up.** `checkServerHealth`, the `QTimer` poll and the `finished` signal wiring are event-loop plumbing. The constructor is modelled only for the label it sets. Health replies enter through `OnLoginReply` like any other reply.
- **UI details.** `QMessageBox` modality and `setFocus` calls are not modelled; a message box is an entry in a log. The order of `deleteLater` relative to the message box is not recorded.
- LoginClient.Reply.ReadAll: `readAll` and `QJsonDocument::fromJson` are one step. The byte content is not modelled, only its parse outcome and the parser's error text.
- **Status attribute.** A missing status attribute is modelled as the value 0, as `toInt()` returns.
- **`src/BCrypt.hpp`** wraps libcrypt's `crypt_r`, a foreign call. It is used by neither login path and is not part of this model.
- **`client/Client_Gui/mainwindow.h`** holds declarations only.
