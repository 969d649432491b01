/**
 * The Qt login window: the login button's input checks and POST, and the
 * single slot that handles every finished network reply (both the
 * periodic GET /health and POST /login).  Message boxes are modelled as
 * entries appended to a log; the server-status label as a string field.
 */
module LoginClient {
  import opened Wrappers
  import opened Json
  import opened QtText
  import opened EmailPattern

  const LOGIN_URL := "http://15.164.100.14:8080/login"
  const HEALTH_PATH := "/health"
  const LOGIN_PATH := "/login"

  const INITIAL_LABEL := "서버 상태: 연결 확인 중..."
  const ONLINE_LABEL := "\U{1F7E2} Online"
  const OFFLINE_LABEL := "\U{1F534} Offline"
  const UNPARSABLE_LABEL := "서버 상태: 응답 파싱 실패"

  const INPUT_ERROR_TITLE := "입력 오류"
  const MISSING_ID_TEXT := "아이디를 입력하세요."
  const MISSING_PW_TEXT := "비밀번호를 입력하세요."
  const NOT_EMAIL_TEXT := "이메일 형식의 아이디를 입력하세요"

  const NETWORK_ERROR_TITLE := "네트워크 오류"
  const UNREACHABLE_PREFIX := "서버에 연결할 수 없습니다.\n"
  const LOGIN_FAILED_TITLE := "로그인 실패"
  const WRONG_CREDENTIALS_TEXT := "아이디 또는 비밀번호가 잘못되었습니다."
  const SERVER_ERROR_TITLE := "서버 오류"
  const SERVER_STATUS_TITLE := "서버 상태"
  const HEALTH_PARSE_PREFIX := "헬스 체크 응답 파싱 실패:\n"
  const BAD_REPLY_TITLE := "서버 응답 오류"
  const BAD_REPLY_TEXT := "로그인 응답 형식이 올바르지 않습니다."
  const CHECK_CREDENTIALS_TEXT := "아이디 혹은 비밀번호를 확인하세요."
  const LOGIN_OK_TITLE := "로그인 성공"
  const WELCOME_SUFFIX := "님 환영합니다!"

  /** "서버 오류 발생 (HTTP <code>)" */
  function ServerErrorText(code: int): string
  {
    "서버 오류 발생 (HTTP " + Number(code) + ")"
  }

  /** QMessageBox::warning versus QMessageBox::information. */
  datatype Icon = Warning | Information

  datatype MessageBox = MessageBox(icon: Icon, title: string, text: string)

  /** A request handed to the QNetworkAccessManager. */
  datatype Request = Post(url: string, contentType: string, body: JsonObject)

  /** {"id": id, "pw": pw} */
  function LoginBody(id: string, pw: string): JsonObject
  {
    map["id" := JString(id), "pw" := JString(pw)]
  }

  // ---------------------------------------------------------------- input

  /** The outcome of the login button's checks on the two line edits. */
  datatype InputGate = MissingId | MissingPw | NotEmailShaped | Accepted(id: string)

  /** The checks in the order the slot makes them: the trimmed id must be
      non-empty, the password (not trimmed) must be non-empty, and the
      trimmed id must contain an email-shaped substring. */
  function CheckLoginInput(rawId: string, pw: string): (g: InputGate)
    ensures g.MissingId? <==> AllSpace(rawId)
    ensures g.MissingPw? <==> !AllSpace(rawId) && pw == []
    ensures g.NotEmailShaped? <==> !AllSpace(rawId) && pw != [] && !HasMatch(Trimmed(rawId))
    ensures g.Accepted? <==> pw != [] && HasMatch(Trimmed(rawId))
    ensures g.Accepted? ==> g.id == Trimmed(rawId)
  {
    var id := Trimmed(rawId);
    if id == [] then MissingId
    else if pw == [] then MissingPw
    else if !HasMatch(id) then NotEmailShaped
    else Accepted(id)
  }

  /** The warning shown for a rejected input. */
  function GateMessage(g: InputGate): (m: MessageBox)
    requires !g.Accepted?
    ensures m.icon == Warning && m.title == INPUT_ERROR_TITLE
  {
    match g
    case MissingId => MessageBox(Warning, INPUT_ERROR_TITLE, MISSING_ID_TEXT)
    case MissingPw => MessageBox(Warning, INPUT_ERROR_TITLE, MISSING_PW_TEXT)
    case NotEmailShaped => MessageBox(Warning, INPUT_ERROR_TITLE, NOT_EMAIL_TEXT)
  }

  /** An accepted id is the trimmed text: non-empty, without surrounding
      white space, and containing an '@'. */
  lemma AcceptedIdShape(rawId: string, pw: string)
    requires CheckLoginInput(rawId, pw).Accepted?
    ensures var id := CheckLoginInput(rawId, pw).id;
      id != [] && !IsSpace(id[0]) && !IsSpace(id[|id| - 1]) && '@' in id
  {
    var id := Trimmed(rawId);
    if '@' !in id {
      NoAtNoMatch(id);
    }
  }

  /** Surrounding white space around the id does not matter. */
  lemma PaddedIdAccepted(pre: string, id: string, post: string, pw: string)
    requires AllSpace(pre) && AllSpace(post) && pw != []
    requires id != [] && !IsSpace(id[0]) && !IsSpace(id[|id| - 1]) && HasMatch(id)
    ensures CheckLoginInput(pre + id + post, pw) == Accepted(id)
  {
    TrimmedKeepsInnerText(pre, id, post);
  }

  /** The password is not trimmed: one made only of spaces is sent as is. */
  lemma BlankPasswordAccepted(rawId: string)
    requires HasMatch(Trimmed(rawId))
    ensures CheckLoginInput(rawId, " ") == Accepted(Trimmed(rawId))
  {
  }

  /** The pattern is searched, not anchored: text around a matching id is
      accepted as a whole, provided the combined text has no white space at
      either end. */
  lemma SurroundedMatchAccepted(pre: string, id: string, post: string, pw: string)
    requires HasMatch(id) && pw != []
    requires var t := pre + id + post; t != [] && !IsSpace(t[0]) && !IsSpace(t[|t| - 1])
    ensures CheckLoginInput(pre + id + post, pw) == Accepted(pre + id + post)
  {
    MatchAnywhere(pre, id, post);
    TrimmedUnpadded(pre + id + post);
  }

  // ---------------------------------------------------------------- replies

  /** What the slot can observe of a finished QNetworkReply: the URL path,
      the HTTP status attribute read with toInt() (0 when absent), whether
      error() is not NoError, errorString(), the outcome of parsing the body
      and the parser's errorString(). */
  datatype ReplyData = ReplyData(
    path: string,
    statusCode: int,
    networkError: bool,
    errorString: string,
    body: Parsed,
    parseErrorString: string)

  /** The branch of onLoginReply a reply ends in. */
  datatype ReplyOutcome =
    | Unreachable(error: string)        // no status and a network error
    | LoginUnauthorized                 // 401 on /login
    | ServerError(code: int)            // any other status but 200
    | HealthUnparsable(parseError: string)
    | LoginMalformed                    // 200, body not an object, /login
    | Ignored                           // 200, body not an object, other path
    | HealthOnline
    | HealthOffline
    | LoginRejected                     // 200 object whose "ok" is not true
    | LoginWelcome(name: string)

  /** The slot's decision, rule by rule in its order of precedence: a
      network failure without status, then any status but exactly 200, then
      a body that is not a JSON object, then the "ok" member. */
  function Classify(d: ReplyData): (o: ReplyOutcome)
    ensures o.Unreachable? <==> d.statusCode == 0 && d.networkError
    ensures o.Unreachable? ==> o.error == d.errorString
    ensures o.LoginUnauthorized? <==> d.path == LOGIN_PATH && d.statusCode == 401
    ensures o.ServerError? <==>
      d.statusCode != 200 && !(d.statusCode == 0 && d.networkError)
      && !(d.path == LOGIN_PATH && d.statusCode == 401)
    ensures o.ServerError? ==> o.code == d.statusCode
    ensures (o.HealthUnparsable? || o.LoginMalformed? || o.Ignored?) <==>
      d.statusCode == 200 && d.body.NotObject?
    ensures o.HealthUnparsable? ==> d.path == HEALTH_PATH && o.parseError == d.parseErrorString
    ensures o.LoginMalformed? ==> d.path == LOGIN_PATH
    ensures o.Ignored? ==> d.path != HEALTH_PATH && d.path != LOGIN_PATH
    ensures (o.HealthOnline? || o.HealthOffline?) <==>
      d.path == HEALTH_PATH && d.statusCode == 200 && d.body.Object?
    ensures (o.LoginRejected? || o.LoginWelcome?) <==>
      d.path != HEALTH_PATH && d.statusCode == 200 && d.body.Object?
    ensures d.statusCode == 200 && d.body.Object? ==>
      ((o.HealthOnline? || o.LoginWelcome?) <==> ToBool(d.body.fields, "ok"))
    ensures o.LoginWelcome? ==> o.name == ToText(d.body.fields, "name")
  {
    if d.statusCode == 0 && d.networkError then Unreachable(d.errorString)
    else if d.statusCode != 200 then
      if d.path == LOGIN_PATH && d.statusCode == 401 then LoginUnauthorized
      else ServerError(d.statusCode)
    else match d.body
      case NotObject =>
        if d.path == HEALTH_PATH then HealthUnparsable(d.parseErrorString)
        else if d.path == LOGIN_PATH then LoginMalformed
        else Ignored
      case Object(fields) =>
        var ok := ToBool(fields, "ok");
        if d.path == HEALTH_PATH then
          if ok then HealthOnline else HealthOffline
        else if !ok then LoginRejected
        else LoginWelcome(ToText(fields, "name"))
  }

  /** The text the server-status label takes, if the branch sets it. */
  function LabelOf(o: ReplyOutcome): Option<string>
  {
    match o
    case HealthUnparsable(_) => Some(UNPARSABLE_LABEL)
    case HealthOnline => Some(ONLINE_LABEL)
    case HealthOffline => Some(OFFLINE_LABEL)
    case _ => None
  }

  /** The message boxes the branch shows. */
  function MessagesOf(o: ReplyOutcome): seq<MessageBox>
  {
    match o
    case Unreachable(e) => [MessageBox(Warning, NETWORK_ERROR_TITLE, UNREACHABLE_PREFIX + e)]
    case LoginUnauthorized => [MessageBox(Information, LOGIN_FAILED_TITLE, WRONG_CREDENTIALS_TEXT)]
    case ServerError(code) => [MessageBox(Warning, SERVER_ERROR_TITLE, ServerErrorText(code))]
    case HealthUnparsable(e) => [MessageBox(Warning, SERVER_STATUS_TITLE, HEALTH_PARSE_PREFIX + e)]
    case LoginMalformed => [MessageBox(Warning, BAD_REPLY_TITLE, BAD_REPLY_TEXT)]
    case Ignored => []
    case HealthOnline => []
    case HealthOffline => []
    case LoginRejected => [MessageBox(Information, LOGIN_FAILED_TITLE, CHECK_CREDENTIALS_TEXT)]
    case LoginWelcome(name) => [MessageBox(Information, LOGIN_OK_TITLE, name + WELCOME_SUFFIX)]
  }

  /** Only a 200 reply on /health changes the label: a login reply, a
      failed request and an error status never do. */
  lemma LabelOnlyFromHealth(d: ReplyData)
    ensures LabelOf(Classify(d)).Some? <==> d.path == HEALTH_PATH && d.statusCode == 200
  {
  }

  /** A reply shows at most one message box, and none exactly when it is a
      well-formed health reply or a malformed reply on another path. */
  lemma AtMostOneMessage(d: ReplyData)
    ensures |MessagesOf(Classify(d))| <= 1
    ensures MessagesOf(Classify(d)) == [] <==>
      d.statusCode == 200 && (d.body.Object? ==> d.path == HEALTH_PATH)
      && (d.body.NotObject? ==> d.path != HEALTH_PATH && d.path != LOGIN_PATH)
  {
  }

  /** A reply without status but also without an error is not treated as a
      connection failure: it reaches the server-error branch as HTTP 0. */
  lemma StatusZeroWithoutError(d: ReplyData)
    requires d.statusCode == 0 && !d.networkError
    ensures MessagesOf(Classify(d)) == [MessageBox(Warning, SERVER_ERROR_TITLE, "서버 오류 발생 (HTTP 0)")]
  {
    assert Number(0) == "0";
    assert ServerErrorText(0) == "서버 오류 발생 (HTTP " + "0" + ")";
    assert "서버 오류 발생 (HTTP " + "0" + ")" == "서버 오류 발생 (HTTP 0)";
    assert Classify(d) == ServerError(0);
  }

  /** Different error statuses give different server-error texts. */
  lemma ServerErrorTextsDiffer(c1: int, c2: int)
    requires ServerErrorText(c1) == ServerErrorText(c2)
    ensures c1 == c2
  {
    var p := "서버 오류 발생 (HTTP ";
    var r1, r2 := Number(c1) + ")", Number(c2) + ")";
    assert ServerErrorText(c1) == p + r1 && ServerErrorText(c2) == p + r2;
    assert r1 == (p + r1)[|p|..] && r2 == (p + r2)[|p|..];
    assert Number(c1) == r1[..|r1| - 1] && Number(c2) == r2[..|r2| - 1];
    NumberInjective(c1, c2);
  }

  /** A finished QNetworkReply.  releases counts deleteLater() calls;
      bodyRead records whether readAll() was called. */
  class Reply {
    const data: ReplyData
    var releases: nat
    var bodyRead: bool

    constructor (data: ReplyData)
      ensures this.data == data && releases == 0 && !bodyRead
    {
      this.data := data;
      releases := 0;
      bodyRead := false;
    }

    /** reply->deleteLater() */
    method DeleteLater()
      modifies this`releases
      ensures releases == old(releases) + 1
    {
      releases := releases + 1;
    }

    /** reply->readAll() followed by QJsonDocument::fromJson: the body's
        parse outcome. */
    method ReadAll() returns (body: Parsed)
      modifies this`bodyRead
      ensures body == data.body && bodyRead
    {
      body := data.body;
      bodyRead := true;
    }
  }

  class MainWindow {
    var idText: string          // ui->lineEditId
    var pwText: string          // ui->lineEditPw
    var statusLabel: string     // ui->labelServerStatus
    var messages: seq<MessageBox>
    var sent: seq<Request>

    /** The window as the constructor leaves it, before any reply arrives. */
    constructor ()
      ensures idText == [] && pwText == [] && statusLabel == INITIAL_LABEL
      ensures messages == [] && sent == []
    {
      idText, pwText := [], [];
      statusLabel := INITIAL_LABEL;
      messages, sent := [], [];
    }

    /** QMessageBox::warning(this, title, text) */
    method Warn(title: string, text: string)
      modifies this`messages
      ensures messages == old(messages) + [MessageBox(Warning, title, text)]
    {
      messages := messages + [MessageBox(Warning, title, text)];
    }

    /** QMessageBox::information(this, title, text) */
    method Inform(title: string, text: string)
      modifies this`messages
      ensures messages == old(messages) + [MessageBox(Information, title, text)]
    {
      messages := messages + [MessageBox(Information, title, text)];
    }

    /** lineEditIni: clears both line edits. */
    method LineEditIni()
      modifies this`idText, this`pwText
      ensures idText == [] && pwText == []
    {
      idText := [];
      pwText := [];
    }

    /** on_btnLogin_clicked: a rejected input shows one warning and leaves
        the fields and the network alone; an accepted one sends exactly one
        POST carrying the trimmed id and the password as typed, then clears
        both fields. */
    method OnBtnLoginClicked()
      modifies this`idText, this`pwText, this`messages, this`sent
      ensures var g := CheckLoginInput(old(idText), old(pwText));
        if g.Accepted? then
          && sent == old(sent) + [Post(LOGIN_URL, JSON_TYPE, LoginBody(g.id, old(pwText)))]
          && idText == [] && pwText == [] && messages == old(messages)
        else
          && sent == old(sent) && messages == old(messages) + [GateMessage(g)]
          && idText == old(idText) && pwText == old(pwText)
    {
      var id := Trimmed(idText);
      var pw := pwText;

      if id == [] {
        Warn(INPUT_ERROR_TITLE, MISSING_ID_TEXT);
        return;
      }
      if pw == [] {
        Warn(INPUT_ERROR_TITLE, MISSING_PW_TEXT);
        return;
      }
      if !HasMatch(id) {
        Warn(INPUT_ERROR_TITLE, NOT_EMAIL_TEXT);
        return;
      }

      sent := sent + [Post(LOGIN_URL, JSON_TYPE, LoginBody(id, pw))];
      LineEditIni();
    }

    /** onLoginReply: releases the reply exactly once on every path, reads
        its body only for status 200, and shows the label and messages of
        the reply's outcome. */
    method OnLoginReply(reply: Reply)
      modifies this`statusLabel, this`messages, reply`releases, reply`bodyRead
      ensures reply.releases == old(reply.releases) + 1
      ensures reply.bodyRead == (old(reply.bodyRead) || reply.data.statusCode == 200)
      ensures var o := Classify(reply.data);
        && statusLabel == (if LabelOf(o).Some? then LabelOf(o).value else old(statusLabel))
        && messages == old(messages) + MessagesOf(o)
    {
      var path := reply.data.path;
      var statusCode := reply.data.statusCode;

      if statusCode == 0 && reply.data.networkError {
        Warn(NETWORK_ERROR_TITLE, UNREACHABLE_PREFIX + reply.data.errorString);
        reply.DeleteLater();
        return;
      }

      if statusCode != 200 {
        if path == LOGIN_PATH && statusCode == 401 {
          reply.DeleteLater();
          Inform(LOGIN_FAILED_TITLE, WRONG_CREDENTIALS_TEXT);
          return;
        }
        Warn(SERVER_ERROR_TITLE, ServerErrorText(statusCode));
        reply.DeleteLater();
        return;
      }

      var doc := reply.ReadAll();
      reply.DeleteLater();

      if doc.NotObject? {
        if path == HEALTH_PATH {
          statusLabel := UNPARSABLE_LABEL;
          Warn(SERVER_STATUS_TITLE, HEALTH_PARSE_PREFIX + reply.data.parseErrorString);
        } else if path == LOGIN_PATH {
          Warn(BAD_REPLY_TITLE, BAD_REPLY_TEXT);
        }
        return;
      }

      var ok := ToBool(doc.fields, "ok");

      if path == HEALTH_PATH {
        if ok {
          statusLabel := ONLINE_LABEL;
        } else {
          statusLabel := OFFLINE_LABEL;
        }
        return;
      }

      if !ok {
        Inform(LOGIN_FAILED_TITLE, CHECK_CREDENTIALS_TEXT);
        return;
      }

      var name := ToText(doc.fields, "name");
      Inform(LOGIN_OK_TITLE, name + WELCOME_SUFFIX);
    }
  }
}
