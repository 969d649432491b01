/**
 * The part of cpp-httplib both servers touch: the Response a handler writes
 * into, and the request-body check the two /login handlers share.
 */
module Http {
  import opened Wrappers
  import opened Json

  /** {"ok":true}, the body both servers answer GET /health with. */
  const HEALTH_BODY: JsonObject := map["ok" := JBool(true)]

  /** What a handler leaves behind for the wire: a status and the JSON
      object its body text denotes. */
  datatype Served = Served(status: int, body: JsonObject)

  /** httplib::Response, reduced to what the handlers write.  The counters
      record how often the handler wrote each part. */
  class Response {
    var status: int
    var body: Option<JsonObject>
    var contentType: string
    var statusWrites: nat
    var contentWrites: nat

    /** A response before the handler runs.  httplib fills in 200 for a
        status the handler leaves unset. */
    predicate Unwritten()
      reads this
    {
      status == 200 && body == None && contentType == "" && statusWrites == 0 && contentWrites == 0
    }

    /** The handler has written exactly this, with one set_content call. */
    predicate Holds(s: Served)
      reads this
    {
      status == s.status && body == Some(s.body) && contentType == JSON_TYPE && contentWrites == 1
    }

    constructor ()
      ensures Unwritten()
    {
      status := 200;
      body := None;
      contentType := "";
      statusWrites := 0;
      contentWrites := 0;
    }

    /** Assign the reply's status code. */
    method SetStatus(code: int)
      modifies this`status, this`statusWrites
      ensures status == code && statusWrites == old(statusWrites) + 1
    {
      status := code;
      statusWrites := statusWrites + 1;
    }

    /** Store the reply's body and its media type. */
    method SetContent(content: JsonObject, kind: string)
      modifies this`body, this`contentType, this`contentWrites
      ensures body == Some(content) && contentType == kind
      ensures contentWrites == old(contentWrites) + 1
    {
      body := Some(content);
      contentType := kind;
      contentWrites := contentWrites + 1;
    }
  }

  /** The request body is a JSON object with both an id and a pw member. */
  predicate HasCredentials(body: Parsed)
  {
    body.Object? && "id" in body.fields && "pw" in body.fields
  }

  /** Both handlers convert the two members to std::string, which throws
      unless they are JSON strings; the model admits only such bodies. */
  predicate StringCredentials(body: Parsed)
  {
    HasCredentials(body) ==> body.fields["id"].JString? && body.fields["pw"].JString?
  }

  function SubmittedId(body: Parsed): string
    requires HasCredentials(body) && StringCredentials(body)
  {
    body.fields["id"].s
  }

  function SubmittedPw(body: Parsed): string
    requires HasCredentials(body) && StringCredentials(body)
  {
    body.fields["pw"].s
  }
}
