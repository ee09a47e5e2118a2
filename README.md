# Chat relay and chat page: a verified model of the decision logic

The system is a small chat front end. A browser page (`AI_Interface/public/app.js`)
sends the user's text and attached files to an Express relay
(`AI_Interface/server.js`). The relay forwards them to an n8n workflow and
extracts one reply from whatever the workflow answers. The relay can also
register sessions and list a session's history in Postgres. This project
models the relay's and the page's deterministic decisions in Dafny 4.11 and
proves properties of them:

- `js_values.dfy`, module `JsValues`: JSON values as JavaScript sees them. It
  covers truthiness, property access, `String.prototype.trim` with the exact
  ECMAScript white-space set, and the string conversion that `+` and
  `textContent` apply.
- `normalizer.dfy`, module `Normalizer`: the reply normaliser in its two
  variants. The relay's variant has the member scan and the texts
  `Error from AI service: ` / `Unknown error`. The page's variant has no scan
  and uses `Error: ` / `Unknown error from AI service`.
- `chat_relay.dfy`, module `ChatRelay`: the `/api/chat` handler. It covers
  payload defaults, the success envelope (which echoes the *request's*
  `sessionId`), the first-match classification of a failed call, and the
  500 error envelope.
- `session_store.dfy`, module `SessionStore`: `ensureSession` as a method on
  a `Server` whose `pool` is an optional `Database` object, and
  `/api/history` as a filter and a sort by `created_at`.
- `chat_page.dfy`, module `ChatPage`: the page's state as a class `Page`
  holding `storage`, `sessionId`, `selectedFiles`, `input` and
  `transcript`. It covers `genId`, `handleFiles`, the new-chat reset, and the
  submit handler: the guard, the file-reading loop, the request, and the
  handling of the answer. It also covers the two display labels.
- `chat_turn.dfy`, module `ChatTurn`: one turn end to end, from the page's
  request through the relay back to the page.

Calls the model cannot see are parameters:

- `JSON.stringify` (`stringify: Json -> string`, left uninterpreted);
- the workflow call (`upstream`);
- `fetch` (`server`);
- `FileReader` (`readFile`);
- `uuidv4`, `crypto.randomUUID` and `Date.now` (`freshId`);
- database failures (`insertFails`, `queryFails`).

Every proof holds for every choice of these parameters.

Consequences proved end to end:

- The relay echoes the page's own session id. So when no new chat starts
  while a request is pending, the page's "adopt a new session id from the
  reply" branch never fires (`ChatTurn.EchoKeepsSession`).
- When a new chat does start while a request is pending, the reply echoes
  the old id, and the page adopts the old id again as soon as it shows a
  non-empty reply (`ChatTurn.StaleEchoRevertsSession`).
- When the relay's reply is falsy (the workflow answered `""`), the page
  finds no priority field in the envelope and shows the serialised envelope.
  The page's "Empty response" message can appear only if that serialisation
  is empty (`ChatTurn.RelayedReplyShown`).

Details of the code that the model keeps:

- The normaliser returns the truthy priority field as it is, which need not
  be a string.
- Only the relay scans members; only the page uses `Error: ` and
  `Unknown error from AI service`. For `{success:false, error:"x"}` the relay
  gives `Error from AI service: x`.
- The chat handler never calls `ensureSession`, and the model does not
  either.
- `ECONNREFUSED` is looked at only after `err.request`, as a third branch.
- The log line at the top of the chat handler calls `chatInput?.substring`.
  A `chatInput` that is present and neither `null` nor a string makes it
  throw, so the relay answers 500 `Request setup error` without calling
  the workflow.

## Model

| member | source | states |
|---|---|---|
| `JsValues.Get` | AI_Interface/server.js:95-101 | a property read finds a member of an object with that key; it is `undefined` exactly when no member has the key |
| `JsValues.TrimStartSpec` | AI_Interface/server.js:104 | trimming the front drops exactly the leading run of ECMAScript white space and keeps a suffix of the string |
| `JsValues.TrimEndSpec` | AI_Interface/server.js:104 | trimming the end drops exactly the trailing run of white space and keeps a prefix |
| `JsValues.TrimEmptyIff` | AI_Interface/public/app.js:136-137 | `s.trim()` is empty iff every character is white space; otherwise it starts and ends with a non-space character |
| `JsValues.NatToString` | AI_Interface/public/app.js:82 | the decimal text of a number: digits only, no leading zero, and its decimal value is the number |
| `JsValues.ArrayTextSingle` | AI_Interface/public/app.js:37 | `ToJsString`, the text `textContent` and `+` give a value: a one-item array is the item's text, empty for `null` |
| `JsValues.ArrayTextAppend` | AI_Interface/server.js:113 | `ToJsString` of a non-empty array with one more item is the shorter array's text, a comma, and the item's text (empty for `null`) |
| `Normalizer.PriorityField` | AI_Interface/server.js:95-100 | the chosen priority field is truthy, and there is none exactly when `response`, `content` and `message` are all falsy or missing |
| `Normalizer.FirstTextIndex` | AI_Interface/server.js:103-108 | the scan stops at the first string whose trim is non-empty; every earlier value is not such a string |
| `Normalizer.ServerNormalize` | AI_Interface/server.js:91-119 | a string is returned verbatim (`""` too); null, numbers and booleans give `No response from AI assistant`; a truthy `response` wins over `content`, which wins over `message`, each returned as is; with none of them and `success !== false`, the result is the first value whose trim is non-empty, else the serialisation; only `success === false` gives `Error from AI service: ` + error or `Unknown error` |
| `Normalizer.ClientNormalize` | AI_Interface/public/app.js:187-204 | the same priority and string/primitive rules; with no priority field and `success !== false` the serialisation of the whole object, with no scan; `success === false` gives `Error: ` + error or `Unknown error from AI service` |
| `Normalizer.VariantsDiffer` | AI_Interface/public/app.js:187-204 | the two normalisers agree except on an object with no truthy priority field; there they agree when `success !== false` and no value is a non-blank string, and they always differ when `success === false` |
| `Normalizer.ServerFalsyReply` | AI_Interface/server.js:109-111 | the relay's reply is falsy only for the empty-string reply or an empty serialisation |
| `ChatRelay.UpstreamPayload` | AI_Interface/server.js:72-76 | the payload has exactly `chatInput`, `files`, `sessionId`; each is the request's value when truthy, otherwise `''`, `[]` or `'default-session'` |
| `ChatRelay.SuccessEnvelope` | AI_Interface/server.js:124-128 | `success` is true, `response` is the normalised reply, `sessionId` is the request's raw value (left out when undefined); no `content`, `message` or `error` |
| `ChatRelay.Classify` | AI_Interface/server.js:134-158 | first match on the error record's fields, in the source's order: a response gives `n8n returned <status>: <statusText>` with the serialised body as details when it is an object, else `''`; else a request gives the no-response message with `err.message`; else `ECONNREFUSED` gives the cannot-connect message; else `Request setup error` |
| `ChatRelay.MessageDeterminesKind` | AI_Interface/server.js:137-158 | two failures with the same message took the same branch |
| `ChatRelay.ErrorEnvelope` | AI_Interface/server.js:160-164 | status 500, `success: false`, the message as `error`, the details as `details` |
| `ChatRelay.HandleChat` | AI_Interface/server.js:58-165 | a `chatInput` that is present and neither `null` nor a string makes the log call at line 63 throw, and the answer is the 500 envelope of `Request setup error` with the TypeError text as details; otherwise the status is 200 exactly when the upstream call on the defaulted payload succeeds, the body then being the success envelope of the normalised reply, and the 500 envelope of the classified error when it fails |
| `SessionStore.SessionItems` | AI_Interface/server.js:177-183 | the projected items are exactly those of rows whose `session_id` is the query id |
| `SessionStore.SessionItemsAppend` | AI_Interface/server.js:177-183 | the projection of two tables joined is the two projections joined |
| `SessionStore.SessionItemsSingle` | AI_Interface/server.js:179-180 | one row contributes its `role, content, created_at` exactly when its `session_id` is the query id; with `SessionItemsAppend` this fixes every item and how often it appears |
| `SessionStore.InsertByTime` | AI_Interface/server.js:181 | inserting into a list sorted by `created_at` keeps it sorted and adds exactly that item |
| `SessionStore.SortByTime` | AI_Interface/server.js:181 | `ORDER BY created_at ASC`: the result is sorted and a permutation of its input |
| `SessionStore.InsertByTimeAtTime` | AI_Interface/server.js:181 | an inserted item goes before every item with the same `created_at` |
| `SessionStore.SortByTimeStable` | AI_Interface/server.js:181 | among items with the same `created_at`, the sort keeps the table order |
| `SessionStore.Server.EnsureSession` | AI_Interface/server.js:42-55 | without a pool the argument is returned and nothing is stored; with a pool the result is the argument if truthy, else the fresh id; the id is added to the session set unless the insert fails; a known id leaves the set unchanged; the messages are untouched |
| `SessionStore.Server.History` | AI_Interface/server.js:168-190 | empty success without a pool or without a truthy `sessionId`; `Internal error` with status 500 exactly on a query failure; otherwise the session's rows, sorted by `created_at` |
| `ChatPage.SessionLabel` | AI_Interface/public/app.js:28-32 | the first eight characters of the id (all of a shorter id) followed by `...` |
| `ChatPage.SizeKb` | AI_Interface/public/app.js:82 | `(size + 512) div 1024` is `Math.round(size/1024)`: the nearest integer, halves rounding up |
| `ChatPage.FileLabel` | AI_Interface/public/app.js:82 | the pill is the file's name, ` (`, a decimal number without leading zeros whose value is `Math.round(size/1024)`, and ` KB)` |
| `ChatPage.MaySubmit` | AI_Interface/public/app.js:136-137 | a submit is ignored exactly when the input is all white space and no file is selected |
| `ChatPage.FilePayload` | AI_Interface/public/app.js:142-158 | no payload exactly when some read fails; otherwise one entry per file in order, from that file's name, content, size and type (`text/plain` when empty) |
| `ChatPage.ReadFiles` | AI_Interface/public/app.js:144-157 | the reading loop builds exactly that payload |
| `ChatPage.RequestBody` | AI_Interface/public/app.js:173-177 | the request is an object with exactly `chatInput`, `files` and `sessionId`, in that order, carrying the trimmed text, the file entries and the current session id |
| `ChatPage.ConnectionError` | AI_Interface/public/app.js:221 | the error box text is `Connection error: `, the message, and the n8n hint, so the message can be read back out of it |
| `ChatPage.OfferedSession` | AI_Interface/public/app.js:210 | an offered id is a non-empty string that is the reply's `sessionId`; none is offered exactly when `sessionId` is missing, not a string or empty |
| `ChatPage.AfterReply` | AI_Interface/public/app.js:180-221 | the session id changes only to a non-empty string id offered by a successful, truthy reply, and always when one is offered; a falsy reply shows `Error: Empty response from AI service`; a thrown error or a failing status shows one error box, with `data.error` or `Server returned <status>` for a non-null body; a `null` body shows the TypeError of reading `data.error` on a failing status, and on an ok status `No response from AI assistant` followed by the TypeError of reading `data.sessionId` |
| `ChatPage.Page.constructor` | AI_Interface/public/app.js:12 | the session variable starts as the stored id, or the fresh one, and the store holds it |
| `ChatPage.Page.GenId` | AI_Interface/public/app.js:2-10 | the stored id when non-empty, unchanged store; otherwise the fresh id, now stored |
| `ChatPage.Page.HandleFiles` | AI_Interface/public/app.js:88-91 | the new files are appended after the selected ones, in order |
| `ChatPage.Page.NewChat` | AI_Interface/public/app.js:122-131 | a new session id that the store holds too, an empty message list and selection, the input kept |
| `ChatPage.Page.Submit` | AI_Interface/public/app.js:134-231 | a blocked submit changes nothing; a failed read shows the read error and keeps the selection and the input; otherwise the request is sent, its answer handled, and the input and selection emptied; store and session id stay in step |
| `ChatPage.Page.Send` | AI_Interface/public/app.js:160-230 | the bubbles of the answer are appended, an offered id is adopted and stored, and the input and selection are cleared whatever the answer |
| `ChatTurn.EchoKeepsSession` | AI_Interface/public/app.js:209-214 | when the page's id is still the one its request carried, the relay's answer never makes the page change it |
| `ChatTurn.StaleEchoRevertsSession` | AI_Interface/public/app.js:122-214 | a reply to a request sent before a new chat started makes the page switch back to the old id whenever it shows a non-empty reply |
| `ChatTurn.ClientReadsEnvelope` | AI_Interface/public/app.js:187-199 | the page reads the relay's success envelope as the relay's reply if truthy, else as the envelope's serialisation |
| `ChatTurn.ErrorMessageNonEmpty` | AI_Interface/server.js:134-158 | every error message of the relay is non-empty |
| `ChatTurn.BrowserReadsErrorEnvelope` | AI_Interface/public/app.js:182-184 | a 500 envelope makes the page show its `error` in one error box and keep the session |
| `ChatTurn.BrowserReadsSuccessEnvelope` | AI_Interface/public/app.js:206-214 | on the relay's success envelope echoing an id, the page ends with that id when it is non-empty and a non-empty reply is shown, and keeps its own otherwise; it shows the relay's reply when truthy, else the serialised envelope or the empty-response text |
| `ChatTurn.RelayedReplyShown` | AI_Interface/public/app.js:206-217 | for an answered turn, the page shows the relay's reply when truthy, else the serialised envelope, and the empty-response text only when that is empty |
| `ChatTurn.FailedTurnShown` | AI_Interface/public/app.js:219-222 | for a failed turn, the page shows the relay's classified message in one error box |

## Left out

- Express set-up, CORS, body limits and static files (server.js:13-17), and `app.listen` (220-225): framework plumbing.
- The multer storage and the uploads directory (server.js:33-40): file-system I/O that no route uses.
- The Postgres pool and the SQL: the database is a `Database` object holding a set of session ids and a sequence of message rows; a pool that was never configured is `pool == null`.
- The axios calls, their headers and their 120 s and 5 s timeouts, and the whole `/api/health` endpoint (server.js:80-86, 193-218): network I/O. A call's outcome is the `upstream` parameter.
- Console logging (server.js:62-66 and elsewhere), except that the TypeError the preview at server.js:63 throws is modelled.
- `JSON.stringify`: an uninterpreted parameter, so its exact output is not modelled.
- For-in order: an object's member sequence is taken to be already in the order of OrdinaryOwnPropertyKeys (section 10.1.11.1 of ECMA-262), which puts integer-like keys first.
- Non-integer numbers, `NaN` and `-0` in JSON values.
- `JsValues.IntToString`: numbers are unbounded integers written in full decimal. That matches JavaScript only for magnitudes below 2^53; beyond that `JSON.parse` rounds, and from 10^21 on `String` writes exponent form (`1e+21`). Doubles are not modelled.
- Duplicate keys: an object's keys are taken to be distinct; with duplicates `Get` reads the first one.
- `JsValues.ToJsString`: an object that has its own `toString` member converts like any other object, to `[object Object]`. In JavaScript the conversion would throw, because a JSON value cannot hold a function. An own `valueOf` alone does not change the result, since the conversion falls back to the inherited `toString`.
- Strings are sequences of Unicode scalar values, not UTF-16 units, so `slice(0, 8)` differs for characters outside the Basic Multilingual Plane.
- The DOM: rendering, `innerHTML`, scrolling, the send button's state and the event wiring. Elements are taken to exist. Messages and error boxes become `Bubble`s in `transcript`.
- `loadHistory` (app.js:63-74): the page's history fetch at load is network I/O and only re-renders rows.
- `localStorage` is a single optional value; changes made by other tabs are not modelled.
- Two submits in flight at once, and concurrency between requests. `ChatPage.Page.Submit` runs a turn to completion, so a new chat clicked while a request is pending is not a state the class reaches; that interleaving is stated on values by `ChatTurn.StaleEchoRevertsSession`.
- `ChatPage.AfterReply`: when a reply carries a truthy `sessionId` that is not a string, the source adopts it. For a number, a boolean or an object, `renderSessionId` then throws; an array is adopted, stored as its comma-joined text and labelled with `slice` on the array. The model keeps the current id in all these cases, because the relay never sends such a reply.
- `ChatPage.AfterReply`: for a `null` reply body, the text of the TypeError is V8's wording. Other engines word it differently.
- `SessionStore.Server.History`: rows with equal `created_at` come back in an order the database chooses. The model keeps table order there (`SessionStore.SortByTimeStable`), and the contract of `History` promises only what SQL does: sorted, and a permutation of the session's rows.
- `SessionStore.Server.EnsureSession`: the argument is an optional string; a non-string id is not modelled because nothing calls the function.
- A query string that repeats `sessionId` (Express then gives an array) is not modelled.
