/** The browser script (public/app.js): the page's turn state, kept in
    module-level variables the event handlers update, and the pure
    decisions those handlers take. The DOM is reduced to the transcript of
    bubbles shown; `localStorage` to its one key. The file reader, the
    id generator and the `fetch` call are parameters. */
module ChatPage {
  import opened JsValues
  import opened Normalizer

  const DefaultFileType := "text/plain"
  const ReadErrorText := "Error reading files: Failed to read file"
  const EmptyReplyText := "Error: Empty response from AI service"
  const ConnectionErrorPrefix := "Connection error: "
  const ConnectionErrorSuffix := ". Please check if n8n is running on port 5678."

  /** A `File` the user picked or dropped. `handle` stands for the `File`
      object itself, so two files with the same name, size and type are
      still two files that `readFile` may read differently. */
  datatype SelectedFile = SelectedFile(handle: nat, name: string, size: nat, mime: string)

  /** The outcome of `readFileContent`: the text, or a rejected promise. */
  datatype ReadResult = Loaded(text: string) | ReadError

  /** An assistant or user message (`addMessage`), or an error box (`showError`). */
  datatype Bubble = Message(role: string, text: string) | ErrorBox(text: string)

  /** The outcome of `fetch` followed by `res.json()`: a thrown error, or a response. */
  datatype FetchResult = Thrown(message: string) | Response(status: int, data: Json)

  /** What happens on the page once a reply has been handled. */
  datatype ReplyEffect = ReplyEffect(shown: seq<Bubble>, sessionId: string)

  /** The session label: the first eight characters and an ellipsis. */
  function SessionLabel(sessionId: string): (caption: string)
    ensures |caption| == (if |sessionId| < 8 then |sessionId| else 8) + 3
    ensures caption[..|caption| - 3] == sessionId[..|caption| - 3]
    ensures caption[|caption| - 3..] == "..."
  {
    var n := if |sessionId| < 8 then |sessionId| else 8;
    sessionId[..n] + "..."
  }

  /** `Math.round(x) == n`: `n` is the integer nearest `x`, halves rounding up. */
  predicate IsJsRound(x: real, n: int) {
    n as real - 0.5 <= x < n as real + 0.5
  }

  /** The size in KB shown for a file, `Math.round(size / 1024)`. */
  function SizeKb(size: nat): (kb: nat)
    ensures IsJsRound(size as real / 1024.0, kb)
  {
    var kb := (size + 512) / 1024;
    assert kb * 1024 <= size + 512 < kb * 1024 + 1024;
    assert (kb * 1024) as real == kb as real * 1024.0;
    kb
  }

  /** The label of a file pill: `name (N KB)`, where `N` is the size in KB
      written in decimal. */
  function FileLabel(f: SelectedFile): (pill: string)
    ensures |pill| > |f.name| + 6
    ensures pill[..|f.name|] == f.name && pill[|f.name|..|f.name| + 2] == " ("
    ensures pill[|pill| - 4..] == " KB)"
    ensures var number := pill[|f.name| + 2..|pill| - 4];
      IsDigits(number) && (|number| > 1 ==> number[0] != '0')
      && DecValue(number) == SizeKb(f.size)
  {
    var number := NatToString(SizeKb(f.size));
    var pill := f.name + " (" + number + " KB)";
    assert pill[|f.name| + 2..|pill| - 4] == number;
    pill
  }

  /** The submit guard: nothing happens when the trimmed text is empty and
      no file is selected. */
  function MaySubmit(input: string, files: seq<SelectedFile>): (ok: bool)
    ensures !ok <==> (forall i :: 0 <= i < |input| ==> IsJsSpace(input[i])) && files == []
  {
    TrimEmptyIff(input);
    Trim(input) != "" || |files| > 0
  }

  /** The user bubble for a turn: shown only when the trimmed text is non-empty. */
  function UserBubble(text: string): seq<Bubble>
  {
    if text != "" then [Message("user", text)] else []
  }

  /** The payload entry of one file: name, text, size and type, the type
      defaulting to `text/plain` when empty. */
  function FileEntry(f: SelectedFile, content: string): Json {
    Obj([("name", Str(f.name)), ("content", Str(content)), ("size", Num(f.size)),
         ("type", Str(if f.mime != "" then f.mime else DefaultFileType))])
  }

  /** The `fileContents` the loop of the submit handler builds: one entry per
      file in order, or `None` when a read fails. */
  function FilePayload(files: seq<SelectedFile>, readFile: SelectedFile -> ReadResult): (r: Option<seq<Json>>)
    ensures r.None? <==> exists i :: 0 <= i < |files| && readFile(files[i]).ReadError?
    ensures r.Some? ==> |r.value| == |files|
    ensures r.Some? ==> forall i :: 0 <= i < |files| ==>
      readFile(files[i]).Loaded? && r.value[i] == FileEntry(files[i], readFile(files[i]).text)
  {
    if |files| == 0 then Some([])
    else
      match readFile(files[0])
      case ReadError => None
      case Loaded(text) =>
        var rest := FilePayload(files[1..], readFile);
        if rest.None? then None else Some([FileEntry(files[0], text)] + rest.value)
  }

  /** The request body of `POST /api/chat`. */
  function RequestBody(text: string, files: seq<Json>, sessionId: string): (body: Json)
    ensures body.Obj? && |body.members| == 3
    ensures body.members[0].0 == "chatInput" && body.members[1].0 == "files" && body.members[2].0 == "sessionId"
    ensures Get(body, "chatInput") == Some(Str(text))
    ensures Get(body, "files") == Some(Arr(files))
    ensures Get(body, "sessionId") == Some(Str(sessionId))
  {
    var members := [("chatInput", Str(text)), ("files", Arr(files)), ("sessionId", Str(sessionId))];
    assert members[1..] == [("files", Arr(files)), ("sessionId", Str(sessionId))];
    assert members[2..] == [("sessionId", Str(sessionId))];
    assert Lookup(members, "sessionId") == Lookup(members[1..], "sessionId") == Lookup(members[2..], "sessionId");
    Obj(members)
  }

  /** The error box for an error `message` caught by the submit handler. */
  function ConnectionError(message: string): (b: Bubble)
    ensures b.ErrorBox?
    ensures |b.text| == |ConnectionErrorPrefix| + |message| + |ConnectionErrorSuffix|
    ensures b.text[..|ConnectionErrorPrefix|] == ConnectionErrorPrefix
    ensures b.text[|ConnectionErrorPrefix|..|b.text| - |ConnectionErrorSuffix|] == message
    ensures b.text[|b.text| - |ConnectionErrorSuffix|..] == ConnectionErrorSuffix
  {
    var text := ConnectionErrorPrefix + message + ConnectionErrorSuffix;
    assert text[|ConnectionErrorPrefix|..|text| - |ConnectionErrorSuffix|] == message;
    ErrorBox(text)
  }

  /** The text V8 gives the TypeError of reading property `key` of `null`. */
  function NullPropertyError(key: string): string {
    "Cannot read properties of null (reading '" + key + "')"
  }

  predicate IsOk(status: int) {
    200 <= status < 300
  }

  /** The session id offered by a reply: `data.sessionId` when it is a
      non-empty string. */
  function OfferedSession(data: Json): (r: Option<string>)
    ensures r.Some? ==> r.value != "" && Get(data, "sessionId") == Some(Str(r.value))
    ensures r.None? ==> !(Get(data, "sessionId").Some? && Get(data, "sessionId").value.Str?
                          && Truthy(Get(data, "sessionId").value))
  {
    match Get(data, "sessionId")
    case Some(Str(s)) => if s != "" then Some(s) else None
    case _ => None
  }

  /** How the submit handler reacts to the answer of `fetch` (lines past the
      request): the bubbles it shows and the session id it keeps. */
  function AfterReply(result: FetchResult, current: string, stringify: Json -> string): (e: ReplyEffect)
    // the session id changes only to a non-empty id that a successful reply offers
    ensures e.sessionId != current ==>
      result.Response? && IsOk(result.status) && Truthy(ClientNormalize(result.data, stringify))
      && OfferedSession(result.data) == Some(e.sessionId)
    ensures (result.Response? && IsOk(result.status) && Truthy(ClientNormalize(result.data, stringify))
             && OfferedSession(result.data).Some?) ==> e.sessionId == OfferedSession(result.data).value
    // a falsy reply shows the empty-response message
    ensures result.Response? && IsOk(result.status) && !Truthy(ClientNormalize(result.data, stringify)) ==>
      e == ReplyEffect([Message("assistant", EmptyReplyText)], current)
    ensures result.Response? && IsOk(result.status) && Truthy(ClientNormalize(result.data, stringify)) ==>
      |e.shown| >= 1 && e.shown[0] == Message("assistant", ToJsString(ClientNormalize(result.data, stringify)))
    ensures result.Response? && !result.data.Null? ==> |e.shown| == 1
    // a thrown error or a failing status shows one error box
    ensures result.Thrown? ==> e == ReplyEffect([ConnectionError(result.message)], current)
    ensures result.Response? && !IsOk(result.status) && !result.data.Null? ==>
      e == ReplyEffect([ConnectionError(
             if Present(Get(result.data, "error")) then ToJsString(Get(result.data, "error").value)
             else "Server returned " + IntToString(result.status))], current)
    // a `null` body: reading `data.error` or `data.sessionId` throws a TypeError
    ensures result.Response? && !IsOk(result.status) && result.data.Null? ==>
      e == ReplyEffect([ConnectionError(NullPropertyError("error"))], current)
    ensures result.Response? && IsOk(result.status) && result.data.Null? ==>
      e == ReplyEffect([Message("assistant", NoResponse), ConnectionError(NullPropertyError("sessionId"))], current)
  {
    match result
    case Thrown(message) => ReplyEffect([ConnectionError(message)], current)
    case Response(status, data) =>
      if !IsOk(status) then
        // `throw new Error(data.error || ...)`
        var message :=
          if data.Null? then NullPropertyError("error")
          else if Present(Get(data, "error")) then ToJsString(Get(data, "error").value)
          else "Server returned " + IntToString(status);
        ReplyEffect([ConnectionError(message)], current)
      else
        var reply := ClientNormalize(data, stringify);
        if !Truthy(reply) then ReplyEffect([Message("assistant", EmptyReplyText)], current)
        else
          var shown := [Message("assistant", ToJsString(reply))];
          if data.Null? then
            // `data.sessionId` throws after the reply has been shown
            ReplyEffect(shown + [ConnectionError(NullPropertyError("sessionId"))], current)
          else if OfferedSession(data).Some? && OfferedSession(data).value != current then
            ReplyEffect(shown, OfferedSession(data).value)
          else ReplyEffect(shown, current)
  }

  /** The page's state. */
  class Page {
    /** `localStorage.getItem('ai-chat-sessionId')`. */
    var storage: Option<string>
    var sessionId: string
    var selectedFiles: seq<SelectedFile>
    /** The message input's value. */
    var input: string
    /** The bubbles in the message list, oldest first. */
    var transcript: seq<Bubble>

    /** The stored id and the session variable agree. */
    predicate Synced()
      reads this
    {
      storage == Some(sessionId)
    }

    /** Page load: `sessionId = genId()`, nothing selected, nothing shown. */
    constructor (stored: Option<string>, freshId: string)
      ensures Synced()
      ensures stored.Some? && stored.value != "" ==> sessionId == stored.value
      ensures !(stored.Some? && stored.value != "") ==> sessionId == freshId
      ensures selectedFiles == [] && input == "" && transcript == []
    {
      storage := stored;
      sessionId := "";
      selectedFiles := [];
      input := "";
      transcript := [];
      new;
      sessionId := GenId(freshId);
    }

    /** `genId()`: the stored id when there is one, else `freshId`, which is
        stored. */
    method GenId(freshId: string) returns (v: string)
      modifies this`storage
      ensures old(storage).Some? && old(storage).value != "" ==> v == old(storage).value && storage == old(storage)
      ensures !(old(storage).Some? && old(storage).value != "") ==> v == freshId && storage == Some(freshId)
    {
      if storage.Some? && storage.value != "" {
        v := storage.value;
      } else {
        v := freshId;
        storage := Some(v);
      }
    }

    /** `handleFiles(files)`: appends the files, in order. */
    method HandleFiles(files: seq<SelectedFile>)
      modifies this`selectedFiles
      ensures selectedFiles == old(selectedFiles) + files
    {
      var i := 0;
      while i < |files|
        invariant 0 <= i <= |files|
        invariant selectedFiles == old(selectedFiles) + files[..i]
      {
        selectedFiles := selectedFiles + [files[i]];
        i := i + 1;
      }
      assert files[..i] == files;
    }

    /** The new-chat button: a fresh session, stored; the list and the
        selection emptied; the input kept. */
    method NewChat(freshId: string)
      modifies this
      ensures sessionId == freshId && Synced()
      ensures transcript == [] && selectedFiles == []
      ensures input == old(input)
    {
      sessionId := freshId;
      storage := Some(sessionId);
      transcript := [];
      selectedFiles := [];
    }

    /** Submit: the guard, the user bubble, the file entries, the request
        and the handling of its answer. `request` is the body sent, `None`
        when nothing is sent. */
    method Submit(readFile: SelectedFile -> ReadResult, server: Json -> FetchResult, stringify: Json -> string)
      returns (request: Option<Json>)
      modifies this
      ensures old(Synced()) ==> Synced()
      // the guard: nothing happens
      ensures !MaySubmit(old(input), old(selectedFiles)) ==>
        request == None && input == old(input) && selectedFiles == old(selectedFiles)
        && sessionId == old(sessionId) && storage == old(storage) && transcript == old(transcript)
      // a read fails: the error is shown and the selection kept
      ensures MaySubmit(old(input), old(selectedFiles)) && FilePayload(old(selectedFiles), readFile).None? ==>
        request == None && input == old(input) && selectedFiles == old(selectedFiles)
        && sessionId == old(sessionId) && storage == old(storage)
        && transcript == old(transcript) + UserBubble(Trim(old(input))) + [Message("assistant", ReadErrorText)]
      // the request is sent: the selection and the input are cleared whatever the answer
      ensures MaySubmit(old(input), old(selectedFiles)) && FilePayload(old(selectedFiles), readFile).Some? ==>
        var body := RequestBody(Trim(old(input)), FilePayload(old(selectedFiles), readFile).value, old(sessionId));
        var effect := AfterReply(server(body), old(sessionId), stringify);
        request == Some(body) && input == "" && selectedFiles == []
        && transcript == old(transcript) + UserBubble(Trim(old(input))) + effect.shown
        && sessionId == effect.sessionId
        && storage == (if effect.sessionId == old(sessionId) then old(storage) else Some(effect.sessionId))
    {
      var text := Trim(input);
      if !MaySubmit(input, selectedFiles) {
        return None;
      }
      transcript := transcript + UserBubble(text);
      var entries: seq<Json> := [];
      if |selectedFiles| > 0 {
        var read := ReadFiles(selectedFiles, readFile);
        if read.None? {
          transcript := transcript + [Message("assistant", ReadErrorText)];
          return None;
        }
        entries := read.value;
      }
      var body := Send(text, entries, server, stringify);
      request := Some(body);
    }

    /** The request and the handling of its answer, up to the `finally`
        block that re-enables the form: the bubbles of the answer are shown,
        a newly offered session id is adopted and stored, and the input and
        the selection are cleared whatever the answer was. */
    method Send(text: string, entries: seq<Json>, server: Json -> FetchResult, stringify: Json -> string)
      returns (body: Json)
      modifies this
      ensures body == RequestBody(text, entries, old(sessionId))
      ensures var effect := AfterReply(server(body), old(sessionId), stringify);
        transcript == old(transcript) + effect.shown
        && sessionId == effect.sessionId
        && storage == (if effect.sessionId == old(sessionId) then old(storage) else Some(effect.sessionId))
      ensures input == "" && selectedFiles == []
    {
      body := RequestBody(text, entries, sessionId);
      var effect := AfterReply(server(body), sessionId, stringify);
      transcript := transcript + effect.shown;
      if effect.sessionId != sessionId {
        sessionId := effect.sessionId;
        storage := Some(sessionId);
      }
      input := "";
      selectedFiles := [];
    }
  }

  /** The loop of the submit handler that reads every selected file in
      turn, stopping at the first failure. */
  method ReadFiles(files: seq<SelectedFile>, readFile: SelectedFile -> ReadResult) returns (r: Option<seq<Json>>)
    ensures r == FilePayload(files, readFile)
  {
    var contents: seq<Json> := [];
    var i := 0;
    while i < |files|
      invariant 0 <= i <= |files| && |contents| == i
      invariant forall k :: 0 <= k < i ==>
        readFile(files[k]).Loaded? && contents[k] == FileEntry(files[k], readFile(files[k]).text)
    {
      var read := readFile(files[i]);
      if read.ReadError? {
        assert readFile(files[i]).ReadError?;
        return None;
      }
      contents := contents + [FileEntry(files[i], read.text)];
      i := i + 1;
    }
    r := Some(contents);
    assert FilePayload(files, readFile).Some?;
    assert FilePayload(files, readFile).value == contents;
  }
}
