/** The reply normaliser, in its two variants: the relay's (server.js),
    which picks one reply out of whatever the workflow engine answered, and
    the browser's (app.js), which picks one reply out of the relay's answer.
    `stringify` stands for `JSON.stringify`, left uninterpreted. */
module Normalizer {
  import opened JsValues

  const NoResponse := "No response from AI assistant"
  const ServerErrorPrefix := "Error from AI service: "
  const ServerUnknownError := "Unknown error"
  const ClientErrorPrefix := "Error: "
  const ClientUnknownError := "Unknown error from AI service"

  /** A string whose trimmed form is non-empty: what the relay's member scan looks for. */
  predicate IsText(v: Json) {
    v.Str? && Trim(v.s) != ""
  }

  /** `data.success === false`. */
  predicate SuccessIsFalse(data: Json) {
    Get(data, "success") == Some(Bool(false))
  }

  /** The first truthy value among `data.response`, `data.content` and
      `data.message`, in that order; `None` when all three are falsy or missing. */
  function PriorityField(data: Json): (r: Option<Json>)
    ensures r.Some? ==> Truthy(r.value)
    ensures r.None? <==> !Present(Get(data, "response")) && !Present(Get(data, "content")) && !Present(Get(data, "message"))
  {
    if Present(Get(data, "response")) then Get(data, "response")
    else if Present(Get(data, "content")) then Get(data, "content")
    else if Present(Get(data, "message")) then Get(data, "message")
    else None
  }

  /** The values a `for (const key in data)` loop visits, in order: the
      members' values of an object, the items of an array. */
  function EnumeratedValues(data: Json): seq<Json>
    requires IsObject(data)
  {
    if data.Arr? then data.items else seq(|data.members|, i requires 0 <= i < |data.members| => data.members[i].1)
  }

  /** Index of the first text value of `vs`, `|vs|` when there is none:
      the loop with `break` of server.js as a first-match. */
  function FirstTextIndex(vs: seq<Json>): (k: nat)
    ensures k <= |vs|
    ensures k < |vs| ==> IsText(vs[k])
    ensures forall i :: 0 <= i < k ==> !IsText(vs[i])
  {
    if |vs| == 0 then 0
    else if IsText(vs[0]) then 0
    else 1 + FirstTextIndex(vs[1..])
  }

  /** `data.error || fallback`, converted to text by string concatenation. */
  function ErrorText(data: Json, fallback: string): string
  {
    if Present(Get(data, "error")) then ToJsString(Get(data, "error").value) else fallback
  }

  /** The relay's normaliser (server.js). The result is a JSON value:
      a truthy priority field is returned whatever its type. */
  function ServerNormalize(data: Json, stringify: Json -> string): (r: Json)
    // a string reply is returned verbatim, the empty string included
    ensures data.Str? ==> r == data
    // null, numbers and booleans
    ensures !IsObject(data) && !data.Str? ==> r == Str(NoResponse)
    // response, then content, then message, each only when truthy
    ensures IsObject(data) && Present(Get(data, "response")) ==> r == Get(data, "response").value
    ensures IsObject(data) && !Present(Get(data, "response")) && Present(Get(data, "content"))
      ==> r == Get(data, "content").value
    ensures (IsObject(data) && !Present(Get(data, "response")) && !Present(Get(data, "content"))
             && Present(Get(data, "message"))) ==> r == Get(data, "message").value
    // no priority field and success not literally false: first text value, else the serialisation
    ensures IsObject(data) && PriorityField(data).None? && !SuccessIsFalse(data) ==>
      var vs := EnumeratedValues(data);
      ((exists i :: 0 <= i < |vs| && IsText(vs[i])) ==>
        exists i :: 0 <= i < |vs| && IsText(vs[i]) && r == vs[i] && forall k :: 0 <= k < i ==> !IsText(vs[k]))
      && ((forall i :: 0 <= i < |vs| ==> !IsText(vs[i])) ==> r == Str(stringify(data)))
    // success literally false and no priority field: the error text
    ensures IsObject(data) && PriorityField(data).None? && SuccessIsFalse(data) ==>
      r == Str(ServerErrorPrefix + ErrorText(data, ServerUnknownError))
  {
    if IsObject(data) then
      if PriorityField(data).Some? then PriorityField(data).value
      else if !SuccessIsFalse(data) then
        var vs := EnumeratedValues(data);
        var k := FirstTextIndex(vs);
        if k < |vs| then vs[k] else Str(stringify(data))
      else Str(ServerErrorPrefix + ErrorText(data, ServerUnknownError))
    else if data.Str? then data
    else Str(NoResponse)
  }

  /** The browser's normaliser (app.js): the same priority fields, no
      member scan, and its own error texts. */
  function ClientNormalize(data: Json, stringify: Json -> string): (r: Json)
    ensures data.Str? ==> r == data
    ensures !IsObject(data) && !data.Str? ==> r == Str(NoResponse)
    ensures IsObject(data) && Present(Get(data, "response")) ==> r == Get(data, "response").value
    ensures IsObject(data) && !Present(Get(data, "response")) && Present(Get(data, "content"))
      ==> r == Get(data, "content").value
    ensures (IsObject(data) && !Present(Get(data, "response")) && !Present(Get(data, "content"))
             && Present(Get(data, "message"))) ==> r == Get(data, "message").value
    ensures IsObject(data) && PriorityField(data).None? && !SuccessIsFalse(data) ==> r == Str(stringify(data))
    ensures IsObject(data) && PriorityField(data).None? && SuccessIsFalse(data) ==>
      r == Str(ClientErrorPrefix + ErrorText(data, ClientUnknownError))
  {
    if IsObject(data) then
      if PriorityField(data).Some? then PriorityField(data).value
      else if !SuccessIsFalse(data) then Str(stringify(data))
      else Str(ClientErrorPrefix + ErrorText(data, ClientUnknownError))
    else if data.Str? then data
    else Str(NoResponse)
  }

  /** Where the two variants part: they agree on every input except an
      object (or array) with no truthy priority field, where the relay
      scans for a text value the browser does not look for, and where the
      two error texts differ. */
  lemma VariantsDiffer(data: Json, stringify: Json -> string)
    ensures ServerNormalize(data, stringify) != ClientNormalize(data, stringify) ==>
      IsObject(data) && PriorityField(data).None?
    ensures IsObject(data) && PriorityField(data).None? && !SuccessIsFalse(data) ==>
      (forall i :: 0 <= i < |EnumeratedValues(data)| ==> !IsText(EnumeratedValues(data)[i])) ==>
        ServerNormalize(data, stringify) == ClientNormalize(data, stringify)
    ensures IsObject(data) && PriorityField(data).None? && SuccessIsFalse(data) ==>
      ServerNormalize(data, stringify) != ClientNormalize(data, stringify)
  {
    if IsObject(data) && PriorityField(data).None? && SuccessIsFalse(data) {
      var e := ErrorText(data, ServerUnknownError);
      // the client's text has ':' where the server's has a space
      assert (ServerErrorPrefix + e)[5] == ' ';
      assert (ClientErrorPrefix + ErrorText(data, ClientUnknownError))[5] == ':';
    }
  }

  /** The relay's reply is falsy only for an empty string reply or an empty serialisation. */
  lemma ServerFalsyReply(data: Json, stringify: Json -> string)
    ensures !Truthy(ServerNormalize(data, stringify)) ==>
      data == Str("") || ServerNormalize(data, stringify) == Str(stringify(data))
  {
    if IsObject(data) && PriorityField(data).None? && !SuccessIsFalse(data) {
      var vs := EnumeratedValues(data);
      var k := FirstTextIndex(vs);
      if k < |vs| {
        TrimEmptyIff(vs[k].s);
      }
    }
  }
}
