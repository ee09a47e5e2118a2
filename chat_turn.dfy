/** One chat turn end to end: the browser's request handled by the relay's
    `/api/chat`, and the relay's answer handled by the browser. */
module ChatTurn {
  import opened JsValues
  import opened Normalizer
  import opened ChatRelay
  import opened ChatPage

  /** The relay echoes the session id the browser sent, so when the
      browser's id is still the one it sent, a reply never changes it. */
  lemma EchoKeepsSession(text: string, entries: seq<Json>, current: string,
                         upstream: Json -> UpstreamOutcome, stringify: Json -> string)
    ensures var reply := HandleChat(RequestBody(text, entries, current), upstream, stringify);
      AfterReply(Response(reply.status, reply.body), current, stringify).sessionId == current
  {
    var body := RequestBody(text, entries, current);
    var reply := HandleChat(body, upstream, stringify);
    if upstream(UpstreamPayload(body)).Replied? {
      var n := ServerNormalize(upstream(UpstreamPayload(body)).data, stringify);
      assert reply == Reply(200, SuccessEnvelope(Some(Str(current)), n));
      BrowserReadsSuccessEnvelope(current, current, n, stringify);
    } else {
      assert !IsOk(reply.status);
    }
  }

  /** A new chat started while a request is pending: the reply echoes the
      id the request was sent with, which now differs from the browser's,
      so the browser adopts the old id again whenever it shows a non-empty
      reply. */
  lemma StaleEchoRevertsSession(text: string, entries: seq<Json>, sent: string, now: string,
                                upstream: Json -> UpstreamOutcome, stringify: Json -> string)
    requires upstream(UpstreamPayload(RequestBody(text, entries, sent))).Replied?
    requires sent != "" && sent != now
    ensures var body := RequestBody(text, entries, sent);
      var n := ServerNormalize(upstream(UpstreamPayload(body)).data, stringify);
      var reply := HandleChat(body, upstream, stringify);
      (Truthy(n) || stringify(reply.body) != "") ==>
        AfterReply(Response(reply.status, reply.body), now, stringify).sessionId == sent
  {
    var body := RequestBody(text, entries, sent);
    var n := ServerNormalize(upstream(UpstreamPayload(body)).data, stringify);
    var reply := HandleChat(body, upstream, stringify);
    assert reply == Reply(200, SuccessEnvelope(Some(Str(sent)), n));
    BrowserReadsSuccessEnvelope(sent, now, n, stringify);
  }

  /** The browser's normaliser applied to the relay's success envelope
      returns the relay's reply when it is truthy, and otherwise the
      serialisation of the whole envelope. */
  lemma ClientReadsEnvelope(sessionId: Option<Json>, n: Json, stringify: Json -> string)
    ensures var env := SuccessEnvelope(sessionId, n);
      ClientNormalize(env, stringify) == if Truthy(n) then n else Str(stringify(env))
  {
    var env := SuccessEnvelope(sessionId, n);
    assert IsObject(env);
    if !Truthy(n) {
      assert PriorityField(env).None?;
      assert !SuccessIsFalse(env);
    }
  }

  /** Every message of the error envelope is non-empty. */
  lemma ErrorMessageNonEmpty(err: UpstreamError, stringify: Json -> string)
    ensures Classify(err, stringify).message != ""
  {
    var report := Classify(err, stringify);
    match Kind(err)
    case HttpStatus => assert report.message[0] == 'n';
    case NoReply => assert report.message[0] == 'N';
    case Refused => assert report.message[0] == 'C';
    case Setup => assert report.message[0] == 'R';
  }

  /** The browser's reading of the relay's success envelope that echoes
      `sent`, handled while the browser's id is `now`: the browser takes
      `sent` whenever it is non-empty and a non-empty reply is shown, and
      keeps `now` otherwise; the bubble shows the relay's reply when it is
      truthy, otherwise the envelope's serialisation, or the empty-response
      message when that is empty. */
  lemma BrowserReadsSuccessEnvelope(sent: string, now: string, n: Json, stringify: Json -> string)
    ensures var env := SuccessEnvelope(Some(Str(sent)), n);
      var e := AfterReply(Response(200, env), now, stringify);
      e.sessionId == (if sent != "" && (Truthy(n) || stringify(env) != "") then sent else now)
      && (Truthy(n) ==> e.shown == [Message("assistant", ToJsString(n))])
      && (!Truthy(n) && stringify(env) != "" ==> e.shown == [Message("assistant", stringify(env))])
      && (!Truthy(n) && stringify(env) == "" ==> e.shown == [Message("assistant", EmptyReplyText)])
  {
    var env := SuccessEnvelope(Some(Str(sent)), n);
    ClientReadsEnvelope(Some(Str(sent)), n, stringify);
    assert OfferedSession(env) == if sent != "" then Some(sent) else None;
    var c := ClientNormalize(env, stringify);
    var shown := AfterReply(Response(200, env), now, stringify).shown;
    assert |shown| == 1;
    if Truthy(c) {
      assert shown[0] == Message("assistant", ToJsString(c));
    }
  }

  /** What the browser shows for a turn the workflow engine answered: the
      relay's normalised reply when it is truthy; otherwise the browser
      finds no priority field in the envelope and shows the envelope's
      serialisation, so the empty-response message appears only if that
      serialisation is empty. */
  lemma RelayedReplyShown(text: string, entries: seq<Json>, current: string,
                          upstream: Json -> UpstreamOutcome, stringify: Json -> string)
    requires upstream(UpstreamPayload(RequestBody(text, entries, current))).Replied?
    ensures var body := RequestBody(text, entries, current);
      var n := ServerNormalize(upstream(UpstreamPayload(body)).data, stringify);
      var reply := HandleChat(body, upstream, stringify);
      var shown := AfterReply(Response(reply.status, reply.body), current, stringify).shown;
      reply.status == 200
      && (Truthy(n) ==> shown == [Message("assistant", ToJsString(n))])
      && (!Truthy(n) && stringify(reply.body) != "" ==> shown == [Message("assistant", stringify(reply.body))])
      && (!Truthy(n) && stringify(reply.body) == "" ==> shown == [Message("assistant", EmptyReplyText)])
  {
    var body := RequestBody(text, entries, current);
    var n := ServerNormalize(upstream(UpstreamPayload(body)).data, stringify);
    var reply := HandleChat(body, upstream, stringify);
    assert reply == Reply(200, SuccessEnvelope(Some(Str(current)), n));
    BrowserReadsSuccessEnvelope(current, current, n, stringify);
  }

  /** The browser's reading of an error envelope with a non-empty message. */
  lemma BrowserReadsErrorEnvelope(report: ErrorReport, current: string, stringify: Json -> string)
    requires report.message != ""
    ensures var reply := ErrorEnvelope(report);
      AfterReply(Response(reply.status, reply.body), current, stringify)
        == ReplyEffect([ConnectionError(report.message)], current)
  {
    var reply := ErrorEnvelope(report);
    assert !IsOk(reply.status) && reply.body.Obj?;
    assert Present(Get(reply.body, "error"));
    assert ToJsString(Get(reply.body, "error").value) == report.message;
  }

  /** A turn the relay could not complete shows the relay's error message
      in an error box: the 500 status makes the browser throw
      `data.error`, which is never empty. */
  lemma FailedTurnShown(text: string, entries: seq<Json>, current: string,
                        upstream: Json -> UpstreamOutcome, stringify: Json -> string)
    requires upstream(UpstreamPayload(RequestBody(text, entries, current))).Failed?
    ensures var body := RequestBody(text, entries, current);
      var err := upstream(UpstreamPayload(body)).err;
      var reply := HandleChat(body, upstream, stringify);
      AfterReply(Response(reply.status, reply.body), current, stringify)
        == ReplyEffect([ConnectionError(Classify(err, stringify).message)], current)
  {
    var body := RequestBody(text, entries, current);
    var err := upstream(UpstreamPayload(body)).err;
    var report := Classify(err, stringify);
    ErrorMessageNonEmpty(err, stringify);
    BrowserReadsErrorEnvelope(report, current, stringify);
  }
}
