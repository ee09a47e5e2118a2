/** The relay's persistence (server.js): `ensureSession`, an idempotent
    insert into the session table, and the `GET /api/history` projection of
    the message table. The database is a `Database` object holding the two
    tables; a server configured without one has `pool == null`. */
module SessionStore {
  import opened JsValues

  const InternalError := "Internal error"

  /** A row of the `messages` table. */
  datatype MessageRow = MessageRow(sessionId: string, role: string, content: string, createdAt: int)

  /** The columns `/api/history` selects: `role, content, created_at`. */
  datatype HistoryItem = HistoryItem(role: string, content: string, createdAt: int)

  /** The answer of `/api/history`. */
  datatype HistoryReply = Messages(items: seq<HistoryItem>) | Failure(error: string) {
    /** The HTTP status: 500 for the failure envelope, 200 otherwise. */
    function Status(): int {
      if Failure? then 500 else 200
    }
  }

  /** `sessionId` of a request is truthy: present and non-empty. */
  predicate IsSet(id: Option<string>) {
    id.Some? && id.value != ""
  }

  predicate SortedByTime(s: seq<HistoryItem>) {
    forall i, j :: 0 <= i < j < |s| ==> s[i].createdAt <= s[j].createdAt
  }

  function View(row: MessageRow): HistoryItem {
    HistoryItem(row.role, row.content, row.createdAt)
  }

  /** `WHERE session_id = id`, projected onto the selected columns, in table order. */
  function SessionItems(rows: seq<MessageRow>, id: string): (r: seq<HistoryItem>)
    ensures |r| <= |rows|
    ensures forall h :: h in r <==> exists row :: row in rows && row.sessionId == id && View(row) == h
  {
    if |rows| == 0 then []
    else
      var rest := SessionItems(rows[1..], id);
      assert forall row :: row in rows <==> row == rows[0] || row in rows[1..];
      if rows[0].sessionId == id then [View(rows[0])] + rest else rest
  }

  /** Inserts `h` into a sorted sequence before every item not earlier than it. */
  function InsertByTime(h: HistoryItem, s: seq<HistoryItem>): (r: seq<HistoryItem>)
    requires SortedByTime(s)
    ensures SortedByTime(r)
    ensures multiset(r) == multiset(s) + multiset{h}
    ensures |r| == |s| + 1
    ensures r[0] == if |s| == 0 || h.createdAt <= s[0].createdAt then h else s[0]
  {
    if |s| == 0 then [h]
    else if h.createdAt <= s[0].createdAt then [h] + s
    else
      var rest := InsertByTime(h, s[1..]);
      assert s[0].createdAt <= rest[0].createdAt;
      assert s == [s[0]] + s[1..];
      [s[0]] + rest
  }

  /** `ORDER BY created_at ASC`; SQL leaves the order among equal
      timestamps open, and the model keeps table order there (`SortByTimeStable`). */
  function SortByTime(s: seq<HistoryItem>): (r: seq<HistoryItem>)
    ensures SortedByTime(r)
    ensures multiset(r) == multiset(s)
  {
    if |s| == 0 then [] else
      assert s == [s[0]] + s[1..];
      InsertByTime(s[0], SortByTime(s[1..]))
  }

  /** The items of `s` stamped `t`, in order. */
  function AtTime(s: seq<HistoryItem>, t: int): seq<HistoryItem> {
    if |s| == 0 then []
    else (if s[0].createdAt == t then [s[0]] else []) + AtTime(s[1..], t)
  }

  lemma AtTimeCons(x: HistoryItem, s: seq<HistoryItem>, t: int)
    ensures AtTime([x] + s, t) == (if x.createdAt == t then [x] else []) + AtTime(s, t)
  {
    assert ([x] + s)[1..] == s;
  }

  /** `h` goes before every item with its timestamp. */
  lemma {:induction false} InsertByTimeAtTime(h: HistoryItem, s: seq<HistoryItem>, t: int)
    requires SortedByTime(s)
    ensures AtTime(InsertByTime(h, s), t) == (if h.createdAt == t then [h] else []) + AtTime(s, t)
  {
    if |s| == 0 {
      AtTimeCons(h, [], t);
    } else if h.createdAt <= s[0].createdAt {
      AtTimeCons(h, s, t);
    } else {
      var rest := InsertByTime(h, s[1..]);
      assert InsertByTime(h, s) == [s[0]] + rest;
      InsertByTimeAtTime(h, s[1..], t);
      AtTimeCons(s[0], rest, t);
      AtTimeCons(s[0], s[1..], t);
      assert s == [s[0]] + s[1..];
    }
  }

  /** The sort is stable: items with the same timestamp keep their order. */
  lemma {:induction false} SortByTimeStable(s: seq<HistoryItem>, t: int)
    ensures AtTime(SortByTime(s), t) == AtTime(s, t)
  {
    if |s| > 0 {
      SortByTimeStable(s[1..], t);
      InsertByTimeAtTime(s[0], SortByTime(s[1..]), t);
    }
  }

  /** The projection of a table split in two is the two projections joined. */
  lemma {:induction false} SessionItemsAppend(a: seq<MessageRow>, b: seq<MessageRow>, id: string)
    ensures SessionItems(a + b, id) == SessionItems(a, id) + SessionItems(b, id)
  {
    if |a| == 0 {
      assert a + b == b;
    } else {
      assert (a + b)[1..] == a[1..] + b;
      SessionItemsAppend(a[1..], b, id);
    }
  }

  /** A single row contributes its view exactly when it belongs to the session. */
  lemma SessionItemsSingle(row: MessageRow, id: string)
    ensures SessionItems([row], id) == if row.sessionId == id then [View(row)] else []
  {
    assert [row][1..] == [];
  }

  /** The database: the `chat_sessions` ids and the `messages` table. */
  class Database {
    var sessions: set<string>
    var messages: seq<MessageRow>

    constructor (sessions: set<string>, messages: seq<MessageRow>)
      ensures this.sessions == sessions && this.messages == messages
    {
      this.sessions := sessions;
      this.messages := messages;
    }
  }

  /** The relay's persistent side: an optional database connection. */
  class Server {
    const pool: Database?

    constructor (pool: Database?)
      ensures this.pool == pool
    {
      this.pool := pool;
    }

    /** `ensureSession(sessionId)`. `freshId` stands for `uuidv4()` and
        `insertFails` for a database error, which is swallowed. */
    method EnsureSession(sessionId: Option<string>, freshId: string, insertFails: bool) returns (id: Option<string>)
      modifies pool
      ensures pool == null ==> id == sessionId
      ensures pool != null ==> id == Some(if IsSet(sessionId) then sessionId.value else freshId)
      ensures pool != null && !insertFails ==> pool.sessions == old(pool.sessions) + {id.value}
      ensures pool != null && insertFails ==> pool.sessions == old(pool.sessions)
      // ON CONFLICT DO NOTHING: repeating the call with a known id changes nothing
      ensures pool != null && id.Some? && id.value in old(pool.sessions) ==> pool.sessions == old(pool.sessions)
      ensures pool != null ==> pool.messages == old(pool.messages)
    {
      if pool == null {
        return sessionId;
      }
      var resolved := if IsSet(sessionId) then sessionId.value else freshId;
      if !insertFails {
        pool.sessions := pool.sessions + {resolved};
      }
      id := Some(resolved);
    }

    /** `GET /api/history?sessionId=...`; `queryFails` stands for a database error. */
    function History(sessionId: Option<string>, queryFails: bool): (r: HistoryReply)
      reads pool
      ensures pool == null || !IsSet(sessionId) ==> r == Messages([])
      ensures r.Failure? <==> pool != null && IsSet(sessionId) && queryFails
      ensures r.Failure? ==> r.error == InternalError && r.Status() == 500
      ensures r.Messages? ==> r.Status() == 200 && SortedByTime(r.items)
      ensures r.Messages? && pool != null && IsSet(sessionId) ==>
        multiset(r.items) == multiset(SessionItems(pool.messages, sessionId.value))
    {
      if pool == null then Messages([])
      else if !IsSet(sessionId) then Messages([])
      else if queryFails then Failure(InternalError)
      else Messages(SortByTime(SessionItems(pool.messages, sessionId.value)))
    }
  }
}
