/**
 * What the client makes of the servers' replies, and what the servers make
 * of the client's request.  A served response reaches the client as a reply
 * whose status attribute is the response status and whose body parses to
 * the response's JSON object; the reply's error flag and texts are left
 * free, since the client consults them only when the status is 0.
 */
module Interop {
  import opened Wrappers
  import opened Json
  import opened Http
  import opened MariaDb
  import opened LoginClient
  import DbServer
  import DemoServer

  /** The reply the client receives on path for a served response. */
  function ReplyTo(path: string, s: Served, err: bool, errText: string, parseText: string): (d: ReplyData)
    ensures d.path == path && d.statusCode == s.status && d.body == Object(s.body)
  {
    ReplyData(path, s.status, err, errText, Object(s.body), parseText)
  }

  /** The client's POST body passes both servers' 400 check and carries
      the id and password unchanged. */
  lemma LoginBodyWellFormed(id: string, pw: string)
    ensures HasCredentials(Object(LoginBody(id, pw))) && StringCredentials(Object(LoginBody(id, pw)))
    ensures SubmittedId(Object(LoginBody(id, pw))) == id && SubmittedPw(Object(LoginBody(id, pw))) == pw
  {
  }

  /** Whatever the database does, the DB-backed server never answers the
      client's request with 400. */
  lemma ClientNeverMalformedForDb(id: string, pw: string, env: Behaviour)
    ensures !DbServer.Authenticate(Object(LoginBody(id, pw)), env).MalformedRequest?
  {
    LoginBodyWellFormed(id, pw);
  }

  /** The demo server accepts the client's request exactly for its one
      account. */
  lemma DemoAcceptsClientIff(id: string, pw: string)
    ensures DemoServer.Decide(Object(LoginBody(id, pw))).status == 200 <==>
      id == DemoServer.DEMO_ID && pw == DemoServer.DEMO_PW
    ensures DemoServer.Decide(Object(LoginBody(id, pw))).status != 400
  {
    LoginBodyWellFormed(id, pw);
  }

  /** GET /health of either server is classified as Online. */
  lemma HealthShowsOnline(err: bool, errText: string, parseText: string)
    ensures Classify(ReplyTo(HEALTH_PATH, Served(200, HEALTH_BODY), err, errText, parseText)) == HealthOnline
  {
  }

  /** The DB-backed server's verdicts as the client shows them: a success
      welcomes the stored name, a wrong id or password gives the
      invalid-credentials dialog, and a bad body or a database failure gives
      the server-error dialog with its status. */
  lemma DbVerdictOnClient(body: Parsed, env: Behaviour, err: bool, errText: string, parseText: string)
    requires StringCredentials(body)
    ensures var v := DbServer.Authenticate(body, env);
      var o := Classify(ReplyTo(LOGIN_PATH, DbServer.Respond(v), err, errText, parseText));
      match v
      case Success(_, name) => o == LoginWelcome(name)
      case InvalidCredentials => o == LoginUnauthorized
      case MalformedRequest => o == ServerError(400)
      case StoreUnavailable(_) => o == ServerError(500)
  {
  }

  /** The demo server's success reply has no "ok" member, so the client
      reads it as a rejection: it shows the check-credentials dialog. */
  lemma DemoSuccessShownAsFailure(body: Parsed, err: bool, errText: string, parseText: string)
    requires StringCredentials(body) && DemoServer.Decide(body).status == 200
    ensures var d := ReplyTo(LOGIN_PATH, DemoServer.Decide(body), err, errText, parseText);
      Classify(d) == LoginRejected
      && MessagesOf(Classify(d)) == [MessageBox(Information, LOGIN_FAILED_TITLE, CHECK_CREDENTIALS_TEXT)]
  {
  }

  /** No reply of the demo server ever produces the welcome dialog. */
  lemma DemoNeverWelcomes(body: Parsed, err: bool, errText: string, parseText: string)
    requires StringCredentials(body)
    ensures var s := DemoServer.Decide(body);
      var o := Classify(ReplyTo(LOGIN_PATH, s, err, errText, parseText));
      !o.LoginWelcome?
      && (s.status == 200 ==> o == LoginRejected)
      && (s.status == 401 ==> o == LoginUnauthorized)
      && (s.status == 400 ==> o == ServerError(400))
  {
  }
}
