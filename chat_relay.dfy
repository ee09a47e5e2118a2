/** The decision logic of the relay's `POST /api/chat` handler (server.js):
    the payload forwarded to the workflow engine, the success envelope,
    and the classification of a failed call into the error envelope.
    The HTTP call itself is the parameter `upstream`. */
module ChatRelay {
  import opened JsValues
  import opened Normalizer

  const DefaultSession := "default-session"
  // The two long messages are written as two literals each: the verifier
  // reads characters of a short literal, not of a long one.
  const NoReplyMessage := "No response received from n8n workflow." + " Please check if n8n is running."
  const RefusedMessage := "Cannot connect to n8n." + " Please make sure n8n is running on port 5678."
  const SetupMessage := "Request setup error"

  /** The HTTP response carried by a failed call (a non-2xx status). */
  datatype UpstreamResponse = UpstreamResponse(status: int, statusText: string, data: Option<Json>)

  /** The error record of a failed call: `err.response` when the engine
      answered, `err.request` when a request went out, `err.code`, `err.message`. */
  datatype UpstreamError = UpstreamError(
    response: Option<UpstreamResponse>,
    request: bool,
    code: Option<string>,
    message: string)

  datatype UpstreamOutcome = Replied(data: Json) | Failed(err: UpstreamError)

  /** What the handler sends back: an HTTP status and a JSON body. */
  datatype Reply = Reply(status: int, body: Json)

  /** `errorMessage` and `errorDetails` once the if/else chain has run. */
  datatype ErrorReport = ErrorReport(message: string, details: string)

  /** Which branch of the chain an error record takes. */
  datatype ErrorKind = HttpStatus | NoReply | Refused | Setup

  /** `v || fallback`. */
  function OrElse(v: Option<Json>, fallback: Json): Json {
    if Present(v) then v.value else fallback
  }

  /** The payload sent to the workflow engine: each of `chatInput`, `files`
      and `sessionId` of the request body, or its default when falsy. */
  function UpstreamPayload(body: Json): (p: Json)
    ensures p.Obj? && |p.members| == 3
    ensures p.members[0].0 == "chatInput" && p.members[1].0 == "files" && p.members[2].0 == "sessionId"
    ensures Present(Get(body, "chatInput")) ==> Get(p, "chatInput") == Get(body, "chatInput")
    ensures !Present(Get(body, "chatInput")) ==> Get(p, "chatInput") == Some(Str(""))
    ensures Present(Get(body, "files")) ==> Get(p, "files") == Get(body, "files")
    ensures !Present(Get(body, "files")) ==> Get(p, "files") == Some(Arr([]))
    ensures Present(Get(body, "sessionId")) ==> Get(p, "sessionId") == Get(body, "sessionId")
    ensures !Present(Get(body, "sessionId")) ==> Get(p, "sessionId") == Some(Str(DefaultSession))
  {
    Obj([("chatInput", OrElse(Get(body, "chatInput"), Str(""))),
         ("files", OrElse(Get(body, "files"), Arr([]))),
         ("sessionId", OrElse(Get(body, "sessionId"), Str(DefaultSession)))])
  }

  /** `{success: true, response, sessionId}` where `sessionId` is the one of
      the request, not the defaulted one; `res.json` drops it when undefined. */
  function SuccessEnvelope(requestSessionId: Option<Json>, response: Json): (env: Json)
    ensures env.Obj?
    ensures Get(env, "success") == Some(Bool(true))
    ensures Get(env, "response") == Some(response)
    ensures Get(env, "sessionId") == requestSessionId
    ensures Get(env, "content").None? && Get(env, "message").None? && Get(env, "error").None?
  {
    var head := [("success", Bool(true)), ("response", response)];
    assert head[1..] == [("response", response)];
    if requestSessionId.Some? then
      var members := [("success", Bool(true)), ("response", response), ("sessionId", requestSessionId.value)];
      assert members[1..] == [("response", response), ("sessionId", requestSessionId.value)];
      assert members[2..] == [("sessionId", requestSessionId.value)];
      assert Lookup(members, "response") == Lookup(members[1..], "response") == Some(response);
      assert Lookup(members, "sessionId") == Lookup(members[1..], "sessionId") == Lookup(members[2..], "sessionId");
      Obj(members)
    else
      assert Lookup(head, "response") == Lookup(head[1..], "response") == Some(response);
      assert Lookup(head, "sessionId") == Lookup(head[1..], "sessionId") == Lookup(head[2..], "sessionId");
      Obj(head)
  }

  /** The branch taken: first match on `err.response`, `err.request`, `err.code`. */
  function Kind(err: UpstreamError): ErrorKind {
    if err.response.Some? then HttpStatus
    else if err.request then NoReply
    else if err.code == Some("ECONNREFUSED") then Refused
    else Setup
  }

  /** The if/else chain of the handler's catch block, in its order:
      `err.response`, then `err.request`, then `err.code === 'ECONNREFUSED'`. */
  function Classify(err: UpstreamError, stringify: Json -> string): (r: ErrorReport)
    ensures err.response.Some? ==>
      r.message == "n8n returned " + IntToString(err.response.value.status) + ": " + err.response.value.statusText
    ensures err.response.Some? && err.response.value.data.Some?
            && Truthy(err.response.value.data.value) && IsObject(err.response.value.data.value) ==>
      r.details == stringify(err.response.value.data.value)
    ensures err.response.Some? && !(err.response.value.data.Some? && IsObject(err.response.value.data.value)) ==>
      r.details == ""
    ensures err.response.None? && err.request ==> r == ErrorReport(NoReplyMessage, err.message)
    ensures err.response.None? && !err.request && err.code == Some("ECONNREFUSED") ==>
      r == ErrorReport(RefusedMessage, err.message)
    ensures err.response.None? && !err.request && err.code != Some("ECONNREFUSED") ==>
      r == ErrorReport(SetupMessage, err.message)
  {
    match Kind(err)
    case HttpStatus =>
      var resp := err.response.value;
      var details := if resp.data.Some? && Truthy(resp.data.value) && IsObject(resp.data.value)
                     then stringify(resp.data.value) else "";
      ErrorReport("n8n returned " + IntToString(resp.status) + ": " + resp.statusText, details)
    case NoReply => ErrorReport(NoReplyMessage, err.message)
    case Refused => ErrorReport(RefusedMessage, err.message)
    case Setup => ErrorReport(SetupMessage, err.message)
  }

  /** The user-visible message tells the four kinds of failure apart. */
  lemma MessageDeterminesKind(e1: UpstreamError, e2: UpstreamError, stringify: Json -> string)
    requires Classify(e1, stringify).message == Classify(e2, stringify).message
    ensures Kind(e1) == Kind(e2)
  {
    var m1, m2 := Classify(e1, stringify).message, Classify(e2, stringify).message;
    assert NoReplyMessage[0] == 'N' && RefusedMessage[0] == 'C' && SetupMessage[0] == 'R';
    // the four messages differ in their first two characters
    assert Kind(e1) == HttpStatus ==> m1[0] == 'n' && m1[1] == '8';
    assert Kind(e2) == HttpStatus ==> m2[0] == 'n' && m2[1] == '8';
    assert Kind(e1) == NoReply ==> m1[0] == 'N';
    assert Kind(e2) == NoReply ==> m2[0] == 'N';
    assert Kind(e1) == Refused ==> m1[0] == 'C';
    assert Kind(e2) == Refused ==> m2[0] == 'C';
    assert Kind(e1) == Setup ==> m1[0] == 'R';
    assert Kind(e2) == Setup ==> m2[0] == 'R';
  }

  /** `res.status(500).json({success: false, error, details})`. */
  function ErrorEnvelope(report: ErrorReport): (reply: Reply)
    ensures reply.status == 500
    ensures Get(reply.body, "success") == Some(Bool(false))
    ensures Get(reply.body, "error") == Some(Str(report.message))
    ensures Get(reply.body, "details") == Some(Str(report.details))
  {
    var members := [("success", Bool(false)), ("error", Str(report.message)), ("details", Str(report.details))];
    assert members[1..] == [("error", Str(report.message)), ("details", Str(report.details))];
    assert members[2..] == [("details", Str(report.details))];
    assert Lookup(members, "error") == Lookup(members[1..], "error") == Some(Str(report.message));
    assert Lookup(members, "details") == Lookup(members[1..], "details") == Lookup(members[2..], "details");
    Reply(500, Obj(members))
  }

  /** The TypeError text of `chatInput?.substring(...)` when `chatInput`
      has no `substring` method. */
  const LogTypeError := "chatInput?.substring is not a function"

  /** The log line at the top of the handler calls `chatInput?.substring`,
      which throws when `chatInput` is present and neither `null` nor a string. */
  predicate LogThrows(body: Json) {
    var v := Get(body, "chatInput");
    v.Some? && !v.value.Null? && !v.value.Str?
  }

  /** One chat turn at the relay: forward the defaulted payload, then
      normalise the engine's answer or report the failure. The TypeError of
      the log line is caught by the same catch block, before any call
      goes out. The session registry is not consulted. */
  function HandleChat(body: Json, upstream: Json -> UpstreamOutcome, stringify: Json -> string): (reply: Reply)
    ensures reply.status == 200 || reply.status == 500
    ensures reply.status == 200 <==> !LogThrows(body) && upstream(UpstreamPayload(body)).Replied?
    ensures LogThrows(body) ==> reply == ErrorEnvelope(ErrorReport(SetupMessage, LogTypeError))
    ensures !LogThrows(body) && upstream(UpstreamPayload(body)).Replied? ==>
      reply.body == SuccessEnvelope(Get(body, "sessionId"), ServerNormalize(upstream(UpstreamPayload(body)).data, stringify))
    ensures !LogThrows(body) && upstream(UpstreamPayload(body)).Failed? ==>
      reply == ErrorEnvelope(Classify(upstream(UpstreamPayload(body)).err, stringify))
  {
    if LogThrows(body) then
      // no response, no request, no code
      ErrorEnvelope(Classify(UpstreamError(None, false, None, LogTypeError), stringify))
    else
      match upstream(UpstreamPayload(body))
      case Replied(data) => Reply(200, SuccessEnvelope(Get(body, "sessionId"), ServerNormalize(data, stringify)))
      case Failed(err) => ErrorEnvelope(Classify(err, stringify))
  }
}
