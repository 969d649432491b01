/**
 * The stand-alone demo server: GET /health and a POST /login that accepts
 * one hard-coded account and answers with a fixed token.
 */
module DemoServer {
  import opened Json
  import opened Http

  const DEMO_ID := "seonseo"
  const DEMO_PW := "1216"

  /** {"error":"bad_request"} */
  const BAD_REQUEST_BODY: JsonObject := map["error" := JString("bad_request")]
  /** {"status":"ok","token":"fake_token_123"} */
  const TOKEN_BODY: JsonObject := map["status" := JString("ok"), "token" := JString("fake_token_123")]
  /** {"status":"fail"} */
  const FAIL_BODY: JsonObject := map["status" := JString("fail")]

  /** The reply of POST /login for a request body. */
  function Decide(body: Parsed): (r: Served)
    requires StringCredentials(body)
    ensures r.status == 400 <==> !HasCredentials(body)
    ensures r.status == 200 <==>
      HasCredentials(body) && SubmittedId(body) == DEMO_ID && SubmittedPw(body) == DEMO_PW
    ensures r.status in {200, 400, 401}
    ensures r.status == 400 ==> r.body == BAD_REQUEST_BODY
    ensures r.status == 200 <==> r.body == TOKEN_BODY
    ensures r.status == 401 ==> r.body == FAIL_BODY
    ensures "token" in r.body <==> r.status == 200
    ensures "ok" !in r.body
  {
    assert "token" in TOKEN_BODY && "token" !in BAD_REQUEST_BODY && "token" !in FAIL_BODY;
    if !HasCredentials(body) then Served(400, BAD_REQUEST_BODY)
    else if SubmittedId(body) == DEMO_ID && SubmittedPw(body) == DEMO_PW then Served(200, TOKEN_BODY)
    else Served(401, FAIL_BODY)
  }

  /** Every rejected credential pair gets the same reply: a wrong id and a
      wrong password cannot be told apart. */
  lemma RejectionsAlike(b1: Parsed, b2: Parsed)
    requires StringCredentials(b1) && StringCredentials(b2)
    requires HasCredentials(b1) && HasCredentials(b2)
    requires Decide(b1).status != 200 && Decide(b2).status != 200
    ensures Decide(b1) == Decide(b2) == Served(401, FAIL_BODY)
  {
  }

  /** The reply depends on the body only through its two members. */
  lemma OnlyCredentialsMatter(b1: Parsed, b2: Parsed)
    requires StringCredentials(b1) && StringCredentials(b2)
    requires HasCredentials(b1) && HasCredentials(b2)
    requires b1.fields["id"] == b2.fields["id"] && b1.fields["pw"] == b2.fields["pw"]
    ensures Decide(b1) == Decide(b2)
  {
  }

  /** GET /health */
  method Health(res: Response)
    requires res.Unwritten()
    modifies res
    ensures res.Holds(Served(200, HEALTH_BODY)) && res.statusWrites == 0
  {
    res.SetContent(HEALTH_BODY, JSON_TYPE);
  }

  /** POST /login: the success reply keeps the default status. */
  method Login(body: Parsed, res: Response)
    requires StringCredentials(body) && res.Unwritten()
    modifies res
    ensures res.Holds(Decide(body))
    ensures res.statusWrites == if Decide(body).status == 200 then 0 else 1
  {
    if !HasCredentials(body) {
      res.SetStatus(400);
      res.SetContent(BAD_REQUEST_BODY, JSON_TYPE);
      return;
    }
    var id := body.fields["id"].s;
    var pw := body.fields["pw"].s;
    if id == DEMO_ID && pw == DEMO_PW {
      res.SetContent(TOKEN_BODY, JSON_TYPE);
    } else {
      res.SetStatus(401);
      res.SetContent(FAIL_BODY, JSON_TYPE);
    }
  }
}
