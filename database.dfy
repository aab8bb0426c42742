/** The chat log: one table of turns (session, query, response, intent,
    optional PDF name, creation time), appended to per turn and read back
    per session or grouped by session. The database engine is replaced by a
    sequence of rows kept in insertion order; creation times come from a
    counter that only increases, so insertion order is creation order. */
module Database {
  import opened Common

  datatype Row = Row(sessionId: string, userQuery: string, aiResponse: string,
                     intent: string, pdfName: Option<string>, createdAt: nat)

  /** One entry of `get_all_sessions`. */
  datatype SessionSummary = SessionSummary(sessionId: string, messageCount: nat,
                                           lastMessage: nat, pdfName: Option<string>)

  /** Rows in strictly increasing creation time. */
  ghost predicate Ascending(rows: seq<Row>) {
    forall i, j :: 0 <= i < j < |rows| ==> rows[i].createdAt < rows[j].createdAt
  }

  /** The rows of one session, in table order. */
  function SessionRows(rows: seq<Row>, s: string): (r: seq<Row>)
    ensures |r| <= |rows|
    ensures forall k :: 0 <= k < |r| ==> r[k].sessionId == s
  {
    if rows == [] then []
    else if Last(rows).sessionId == s then SessionRows(ButLast(rows), s) + [Last(rows)]
    else SessionRows(ButLast(rows), s)
  }

  /** No row of the session is dropped. */
  lemma {:induction false} SessionRowsComplete(rows: seq<Row>, s: string, i: nat)
    requires i < |rows| && rows[i].sessionId == s
    ensures rows[i] in SessionRows(rows, s)
    decreases |rows|
  {
    if i < |rows| - 1 {
      SessionRowsComplete(ButLast(rows), s, i);
      assert ButLast(rows)[i] == rows[i];
    }
  }

  /** `COUNT(*)` of a session's rows. */
  function Count(rows: seq<Row>, s: string): (c: nat)
    ensures c <= |rows|
  {
    |SessionRows(rows, s)|
  }

  /** A session has no rows exactly when no row of the table carries its id. */
  lemma {:induction false} CountZero(rows: seq<Row>, s: string)
    ensures Count(rows, s) == 0 <==> forall i :: 0 <= i < |rows| ==> rows[i].sessionId != s
    decreases |rows|
  {
    if rows != [] {
      CountZero(ButLast(rows), s);
      assert forall i :: 0 <= i < |rows| - 1 ==> rows[i] == ButLast(rows)[i];
    }
  }

  /** The per-session replay that `get_session_history` builds: for each of
      the session's rows, oldest first, the user's query then the answer. */
  function History(rows: seq<Row>, s: string): (h: seq<Message>)
    ensures |h| == 2 * Count(rows, s)
    ensures forall k :: 0 <= k < |h| ==> h[k].role == (if k % 2 == 0 then "human" else "ai")
  {
    if rows == [] then []
    else if Last(rows).sessionId == s then
      History(ButLast(rows), s) + [Message("human", Last(rows).userQuery), Message("ai", Last(rows).aiResponse)]
    else History(ButLast(rows), s)
  }

  /** The replay is the session's rows, pair by pair. */
  lemma {:induction false} HistoryPairs(rows: seq<Row>, s: string, k: nat)
    requires k < Count(rows, s)
    ensures History(rows, s)[2 * k] == Message("human", SessionRows(rows, s)[k].userQuery)
    ensures History(rows, s)[2 * k + 1] == Message("ai", SessionRows(rows, s)[k].aiResponse)
    decreases |rows|
  {
    if Last(rows).sessionId == s {
      if k < Count(ButLast(rows), s) {
        HistoryPairs(ButLast(rows), s, k);
      }
    } else {
      HistoryPairs(ButLast(rows), s, k);
    }
  }

  /** A session's rows keep the table's order, so the replay runs oldest
      first. */
  lemma {:induction false} SessionRowsAscending(rows: seq<Row>, s: string)
    requires Ascending(rows)
    ensures Ascending(SessionRows(rows, s))
    ensures forall k :: 0 <= k < |SessionRows(rows, s)| ==> SessionRows(rows, s)[k] in rows
    decreases |rows|
  {
    if rows != [] {
      assert Ascending(ButLast(rows));
      SessionRowsAscending(ButLast(rows), s);
      var p := SessionRows(ButLast(rows), s);
      forall k | 0 <= k < |p| ensures p[k] in rows && p[k].createdAt < Last(rows).createdAt {
        var i :| 0 <= i < |rows| - 1 && rows[i] == p[k];
      }
    }
  }

  /** Row i is the session's most recent row that names a PDF. */
  predicate NewestPdfRow(rows: seq<Row>, s: string, i: int) {
    && 0 <= i < |rows| && rows[i].sessionId == s && rows[i].pdfName.Some?
    && forall j :: i < j < |rows| && rows[j].sessionId == s ==> rows[j].pdfName.None?
  }

  /** `get_session_pdf`: the PDF name of the session's most recent row whose
      PDF name is set, or none. */
  function SessionPdf(rows: seq<Row>, s: string): (r: Option<string>)
    ensures r.Some? ==> Count(rows, s) > 0
  {
    if rows == [] then None
    else if Last(rows).sessionId == s && Last(rows).pdfName.Some? then Last(rows).pdfName
    else SessionPdf(ButLast(rows), s)
  }

  /** The session's PDF is none exactly when none of its rows names one. */
  lemma {:induction false} SessionPdfNone(rows: seq<Row>, s: string)
    ensures SessionPdf(rows, s).None? <==>
      forall i :: 0 <= i < |rows| && rows[i].sessionId == s ==> rows[i].pdfName.None?
    decreases |rows|
  {
    if rows != [] && !(Last(rows).sessionId == s && Last(rows).pdfName.Some?) {
      SessionPdfNone(ButLast(rows), s);
      assert forall i :: 0 <= i < |rows| - 1 ==> rows[i] == ButLast(rows)[i];
    }
  }

  /** A session's PDF, when it has one, is named by its newest row that
      names one. */
  lemma {:induction false} SessionPdfNewest(rows: seq<Row>, s: string)
    requires SessionPdf(rows, s).Some?
    ensures exists i :: NewestPdfRow(rows, s, i) && rows[i].pdfName == SessionPdf(rows, s)
    decreases |rows|
  {
    if Last(rows).sessionId == s && Last(rows).pdfName.Some? {
      assert NewestPdfRow(rows, s, |rows| - 1);
    } else {
      SessionPdfNewest(ButLast(rows), s);
      var i :| NewestPdfRow(ButLast(rows), s, i) && ButLast(rows)[i].pdfName == SessionPdf(rows, s);
      NewestPdfRowExtends(rows, s, i);
    }
  }

  /** A row that names no PDF for the session keeps the newest one newest. */
  lemma NewestPdfRowExtends(rows: seq<Row>, s: string, i: int)
    requires rows != [] && NewestPdfRow(ButLast(rows), s, i)
    requires Last(rows).sessionId == s ==> Last(rows).pdfName.None?
    ensures NewestPdfRow(rows, s, i) && rows[i] == ButLast(rows)[i]
  {
    forall j | i < j < |rows| && rows[j].sessionId == s
      ensures rows[j].pdfName.None?
    {
      if j < |rows| - 1 {
        assert rows[j] == ButLast(rows)[j];
      }
    }
  }

  /** `MAX(created_at)` over a session's rows, none if it has no rows. */
  function Latest(rows: seq<Row>, s: string): (r: Option<nat>)
    ensures r.None? <==> Count(rows, s) == 0
  {
    if rows == [] then None
    else if Last(rows).sessionId == s then
      match Latest(ButLast(rows), s)
      case None => Some(Last(rows).createdAt)
      case Some(m) => Some(if m < Last(rows).createdAt then Last(rows).createdAt else m)
    else Latest(ButLast(rows), s)
  }

  /** In a table in creation order the maximum creation time of a session is
      that of its last row. */
  lemma {:induction false} LatestIsLastRow(rows: seq<Row>, s: string, i: nat)
    requires Ascending(rows)
    requires i < |rows| && rows[i].sessionId == s
    requires forall j :: i < j < |rows| ==> rows[j].sessionId != s
    ensures Latest(rows, s) == Some(rows[i].createdAt)
    decreases |rows|
  {
    assert Ascending(ButLast(rows));
    if i < |rows| - 1 {
      LatestIsLastRow(ButLast(rows), s, i);
    } else {
      match Latest(ButLast(rows), s)
      case None =>
      case Some(m) =>
        LatestIsSomeRow(ButLast(rows), s);
    }
  }

  /** The maximum is the creation time of one of the session's rows. */
  lemma {:induction false} LatestIsSomeRow(rows: seq<Row>, s: string)
    requires Latest(rows, s).Some?
    ensures exists i :: 0 <= i < |rows| && rows[i].sessionId == s && rows[i].createdAt == Latest(rows, s).value
    decreases |rows|
  {
    if Last(rows).sessionId == s && (Latest(ButLast(rows), s).None? || Latest(ButLast(rows), s).value < Last(rows).createdAt) {
      assert Last(rows) == rows[|rows| - 1];
    } else {
      LatestIsSomeRow(ButLast(rows), s);
      var i :| 0 <= i < |rows| - 1 && ButLast(rows)[i].sessionId == s && ButLast(rows)[i].createdAt == Latest(ButLast(rows), s).value;
      assert rows[i] == ButLast(rows)[i];
    }
  }

  /** Appending a row adds its query and answer to the replay of its own
      session, makes its PDF (when set) that session's PDF and its time that
      session's latest, and leaves every other session as it was. */
  lemma AppendRow(rows: seq<Row>, row: Row, s: string)
    ensures History(rows + [row], s) ==
      History(rows, s) + (if row.sessionId == s then [Message("human", row.userQuery), Message("ai", row.aiResponse)] else [])
    ensures Count(rows + [row], s) == Count(rows, s) + (if row.sessionId == s then 1 else 0)
    ensures SessionPdf(rows + [row], s) ==
      (if row.sessionId == s && row.pdfName.Some? then row.pdfName else SessionPdf(rows, s))
  {
    assert ButLast(rows + [row]) == rows;
  }

  /** Appending a row leaves every other session's replay as it was. */
  lemma AppendRowOthers(rows: seq<Row>, row: Row)
    ensures forall t :: t != row.sessionId ==> History(rows + [row], t) == History(rows, t)
  {
    forall t | t != row.sessionId
      ensures History(rows + [row], t) == History(rows, t)
    {
      AppendRow(rows, row, t);
    }
  }

  /** The rows that remain after `DELETE FROM chat_history WHERE session_id = s`. */
  function Without(rows: seq<Row>, s: string): (r: seq<Row>)
    ensures |r| <= |rows|
    ensures forall k :: 0 <= k < |r| ==> r[k].sessionId != s
  {
    if rows == [] then []
    else if Last(rows).sessionId == s then Without(ButLast(rows), s)
    else Without(ButLast(rows), s) + [Last(rows)]
  }

  /** Clearing a session empties it and leaves every other session's rows,
      replay, PDF and maximum time as they were; the table stays in order. */
  lemma {:induction false} WithoutKeepsOthers(rows: seq<Row>, s: string, t: string)
    requires t != s
    ensures SessionRows(Without(rows, s), s) == []
    ensures SessionRows(Without(rows, s), t) == SessionRows(rows, t)
    ensures History(Without(rows, s), t) == History(rows, t)
    ensures SessionPdf(Without(rows, s), t) == SessionPdf(rows, t)
    ensures Latest(Without(rows, s), t) == Latest(rows, t)
    decreases |rows|
  {
    if rows != [] {
      WithoutKeepsOthers(ButLast(rows), s, t);
      var w := Without(rows, s);
      if Last(rows).sessionId != s {
        assert ButLast(w) == Without(ButLast(rows), s);
      }
    }
  }

  lemma {:induction false} WithoutAscending(rows: seq<Row>, s: string)
    requires Ascending(rows)
    ensures Ascending(Without(rows, s))
    ensures forall k :: 0 <= k < |Without(rows, s)| ==> Without(rows, s)[k] in rows
    decreases |rows|
  {
    if rows != [] {
      assert Ascending(ButLast(rows));
      WithoutAscending(ButLast(rows), s);
      var p := Without(ButLast(rows), s);
      forall k | 0 <= k < |p| ensures p[k] in rows && p[k].createdAt < Last(rows).createdAt {
        var i :| 0 <= i < |rows| - 1 && rows[i] == p[k];
      }
    }
  }

  /** The set of sessions that have at least one row. */
  function Sessions(rows: seq<Row>): set<string> {
    set i | 0 <= i < |rows| :: rows[i].sessionId
  }

  /** The sessions of the rows from position i on. */
  function SessionsFrom(rows: seq<Row>, i: nat): (r: set<string>)
    requires i <= |rows|
    ensures forall j :: i <= j < |rows| ==> rows[j].sessionId in r
    decreases |rows| - i
  {
    if i == |rows| then {} else {rows[i].sessionId} + SessionsFrom(rows, i + 1)
  }

  /** Every session of the table is the session of some row. */
  lemma {:induction false} SessionsFromAll(rows: seq<Row>, i: nat)
    requires i <= |rows|
    ensures SessionsFrom(rows, i) <= Sessions(rows)
    decreases |rows| - i
  {
    if i < |rows| {
      SessionsFromAll(rows, i + 1);
    }
  }

  /** The session ids of a listing. */
  function Ids(sessions: seq<SessionSummary>): (r: set<string>)
    ensures forall k :: 0 <= k < |sessions| ==> sessions[k].sessionId in r
  {
    if sessions == [] then {} else Ids(ButLast(sessions)) + {Last(sessions).sessionId}
  }

  /** A listing entry tells the truth about its session: its row count, its
      latest creation time and its most recent PDF. */
  predicate Describes(rows: seq<Row>, e: SessionSummary) {
    && e.messageCount == Count(rows, e.sessionId)
    && Latest(rows, e.sessionId) == Some(e.lastMessage)
    && e.pdfName == SessionPdf(rows, e.sessionId)
  }

  /** Strictly decreasing latest times, so in particular no session twice. */
  predicate NewestFirst(sessions: seq<SessionSummary>) {
    forall k, l :: 0 <= k < l < |sessions| ==> sessions[k].lastMessage > sessions[l].lastMessage
  }

  /** Entries that describe their sessions in strictly decreasing time name
      distinct sessions, so a listing has one entry per session it names. */
  lemma {:induction false} ListingDistinct(rows: seq<Row>, sessions: seq<SessionSummary>)
    requires forall k :: 0 <= k < |sessions| ==> Describes(rows, sessions[k])
    requires NewestFirst(sessions)
    ensures |Ids(sessions)| == |sessions|
  {
    if sessions != [] {
      var p := ButLast(sessions);
      assert forall k :: 0 <= k < |p| ==> p[k] == sessions[k];
      ListingDistinct(rows, p);
      if Last(sessions).sessionId in Ids(p) {
        IdIndexExists(p, Last(sessions).sessionId);
        assert false;
      }
    }
  }

  /** A position at which a listed id is found. */
  lemma {:induction false} IdIndexExists(sessions: seq<SessionSummary>, x: string)
    requires x in Ids(sessions)
    ensures exists k :: 0 <= k < |sessions| && sessions[k].sessionId == x
  {
    if Last(sessions).sessionId != x {
      IdIndexExists(ButLast(sessions), x);
      var k :| 0 <= k < |sessions| - 1 && ButLast(sessions)[k].sessionId == x;
      assert sessions[k] == ButLast(sessions)[k];
    } else {
      assert sessions[|sessions| - 1].sessionId == x;
    }
  }

  /** The listing of an empty table is empty. */
  lemma NoSessionsNoListing(sessions: seq<SessionSummary>)
    requires Ids(sessions) == Sessions([])
    ensures sessions == []
  {
  }

  /** The listing built from the rows after position i, as the newest-first
      scan has it: every session of those rows once, each entry describing
      its session, newest first, none older than row i + 1. */
  predicate ListedFrom(rows: seq<Row>, i: nat, sessions: seq<SessionSummary>)
    requires i <= |rows|
  {
    && SessionsFrom(rows, i) == Ids(sessions)
    && (forall k :: 0 <= k < |sessions| ==> Describes(rows, sessions[k]))
    && NewestFirst(sessions)
    && (i < |rows| ==> forall k :: 0 <= k < |sessions| ==> sessions[k].lastMessage >= rows[i].createdAt)
  }

  /** A row whose session was already met adds nothing to the listing. */
  lemma ListingSkip(rows: seq<Row>, i: nat, sessions: seq<SessionSummary>)
    requires Ascending(rows) && i < |rows|
    requires ListedFrom(rows, i + 1, sessions)
    requires rows[i].sessionId in Ids(sessions)
    ensures ListedFrom(rows, i, sessions)
  {
  }

  /** A row whose session was not met yet is that session's newest row, so
      its entry, appended, describes it and is older than all before it. */
  lemma ListingAdd(rows: seq<Row>, i: nat, sessions: seq<SessionSummary>)
    requires Ascending(rows) && i < |rows|
    requires ListedFrom(rows, i + 1, sessions)
    requires rows[i].sessionId !in Ids(sessions)
    ensures ListedFrom(rows, i, sessions + [Entry(rows, i)])
  {
    var next := sessions + [Entry(rows, i)];
    AddIds(sessions, Entry(rows, i));
    EntryDescribes(rows, i, sessions);
    assert forall k :: 0 <= k < |sessions| ==> next[k] == sessions[k];
    AddOrder(rows, i, sessions);
  }

  lemma AddIds(sessions: seq<SessionSummary>, e: SessionSummary)
    ensures Ids(sessions + [e]) == Ids(sessions) + {e.sessionId}
  {
    assert ButLast(sessions + [e]) == sessions;
  }

  /** The entry of a session's newest row describes the session. */
  lemma EntryDescribes(rows: seq<Row>, i: nat, sessions: seq<SessionSummary>)
    requires Ascending(rows) && i < |rows|
    requires SessionsFrom(rows, i + 1) == Ids(sessions)
    requires rows[i].sessionId !in Ids(sessions)
    ensures Describes(rows, Entry(rows, i))
  {
    LatestIsLastRow(rows, rows[i].sessionId, i);
  }

  /** The new entry is older than every entry before it. */
  lemma AddOrder(rows: seq<Row>, i: nat, sessions: seq<SessionSummary>)
    requires Ascending(rows) && i < |rows|
    requires NewestFirst(sessions)
    requires i + 1 < |rows| ==> forall k :: 0 <= k < |sessions| ==> sessions[k].lastMessage >= rows[i + 1].createdAt
    requires sessions != [] ==> i + 1 < |rows|
    ensures NewestFirst(sessions + [Entry(rows, i)])
    ensures forall k :: 0 <= k < |sessions| + 1 ==> (sessions + [Entry(rows, i)])[k].lastMessage >= rows[i].createdAt
  {
    var next := sessions + [Entry(rows, i)];
    assert forall k :: 0 <= k < |sessions| ==> next[k] == sessions[k];
    if i + 1 < |rows| {
      assert rows[i].createdAt < rows[i + 1].createdAt;
    }
  }

  /** A scan that reached the first row has listed every session once. */
  lemma ListingComplete(rows: seq<Row>, sessions: seq<SessionSummary>)
    requires ListedFrom(rows, 0, sessions)
    ensures Ids(sessions) == Sessions(rows)
    ensures |sessions| == |Sessions(rows)|
  {
    SessionsFromAll(rows, 0);
    ListingDistinct(rows, sessions);
  }

  /** The entry the scan makes for row i's session. */
  function Entry(rows: seq<Row>, i: nat): SessionSummary
    requires i < |rows|
  {
    var s := rows[i].sessionId;
    SessionSummary(s, Count(rows, s), rows[i].createdAt, SessionPdf(rows, s))
  }

  class ChatDatabase {
    /** The `chat_history` table, in insertion order. */
    var rows: seq<Row>
    /** The creation time the next row receives. */
    var clock: nat

    ghost predicate Valid()
      reads this
    {
      Ascending(rows) && forall i :: 0 <= i < |rows| ==> rows[i].createdAt < clock
    }

    /** Opening the database file: the table keeps the rows it already
        holds (it is created empty only when absent), and the clock stands
        after all of their creation times. */
    constructor (existing: seq<Row>, start: nat)
      requires Ascending(existing)
      requires forall i :: 0 <= i < |existing| ==> existing[i].createdAt < start
      ensures Valid() && rows == existing && clock == start
    {
      rows := existing;
      clock := start;
    }

    /** `insert_message`: append one row stamped with the current time. */
    method InsertMessage(sessionId: string, userQuery: string, aiResponse: string,
                         intent: string, pdfName: Option<string>)
      requires Valid()
      modifies this
      ensures Valid()
      ensures rows == old(rows) + [Row(sessionId, userQuery, aiResponse, intent, pdfName, old(clock))]
      ensures clock == old(clock) + 1
    {
      rows := rows + [Row(sessionId, userQuery, aiResponse, intent, pdfName, clock)];
      clock := clock + 1;
    }

    /** `get_session_history`: the session's turns flattened, oldest first. */
    method GetSessionHistory(sessionId: string) returns (messages: seq<Message>)
      ensures messages == History(rows, sessionId)
    {
      messages := [];
      var i := 0;
      while i < |rows|
        invariant 0 <= i <= |rows|
        invariant messages == History(rows[..i], sessionId)
      {
        assert ButLast(rows[..i + 1]) == rows[..i];
        var row := rows[i];
        if row.sessionId == sessionId {
          messages := messages + [Message("human", row.userQuery)];
          messages := messages + [Message("ai", row.aiResponse)];
        }
        i := i + 1;
      }
      assert rows[..i] == rows;
    }

    /** `get_session_pdf`: scan from the newest row for the first one of the
        session whose PDF name is set. */
    method GetSessionPdf(sessionId: string) returns (pdf: Option<string>)
      ensures pdf == SessionPdf(rows, sessionId)
    {
      var i := |rows|;
      assert rows[..i] == rows;
      while i > 0
        invariant 0 <= i <= |rows|
        invariant SessionPdf(rows[..i], sessionId) == SessionPdf(rows, sessionId)
      {
        assert ButLast(rows[..i]) == rows[..i - 1];
        if rows[i - 1].sessionId == sessionId && rows[i - 1].pdfName.Some? {
          return rows[i - 1].pdfName;
        }
        i := i - 1;
      }
      return None;
    }

    /** `get_all_sessions`: one entry per session with its row count, its
        latest time and its PDF, the most recently active session first. The
        scan runs from the newest row; a session is listed when its newest
        row is met. */
    method GetAllSessions() returns (sessions: seq<SessionSummary>)
      requires Valid()
      ensures Ids(sessions) == Sessions(rows)
      ensures forall k :: 0 <= k < |sessions| ==> Describes(rows, sessions[k])
      ensures NewestFirst(sessions)
      ensures |sessions| == |Sessions(rows)|
    {
      var table := rows;
      assert Ascending(table);
      sessions := [];
      var seen: set<string> := {};
      var i := |table|;
      while i > 0
        invariant 0 <= i <= |table|
        invariant seen == Ids(sessions)
        invariant ListedFrom(table, i, sessions)
      {
        i := i - 1;
        if table[i].sessionId !in seen {
          ListingAdd(table, i, sessions);
          sessions := sessions + [Entry(table, i)];
          seen := seen + {table[i].sessionId};
        } else {
          ListingSkip(table, i, sessions);
        }
      }
      ListingComplete(table, sessions);
    }

    /** `clear_session`: delete every row of the session, keep the rest. */
    method ClearSession(sessionId: string)
      requires Valid()
      modifies this
      ensures Valid() && clock == old(clock)
      ensures rows == Without(old(rows), sessionId)
    {
      WithoutAscending(rows, sessionId);
      rows := Without(rows, sessionId);
    }

    /** `clear_all`: delete every row. */
    method ClearAll()
      requires Valid()
      modifies this
      ensures Valid() && clock == old(clock)
      ensures rows == []
    {
      rows := [];
    }
  }
}
