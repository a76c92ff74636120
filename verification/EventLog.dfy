// The append-only event table: per-session numbering, watermark garbage
// collection and the range queries over it.

module EventLog {
  import opened Wrappers
  import Sorting

  datatype SessionKey = SessionKey(channel: string, chatId: string)

  datatype Kind = UserMessage | AssistantMessage | ToolCall | ToolResult | Summary

  /** An event as handed to `append`; `key` is the session key as spelled by the caller. */
  datatype Event = Event(id: string, key: string, kind: Kind, content: string, createdAt: int)

  /** A row of `session_events`. */
  datatype Row = Row(id: string, session: SessionKey, kind: Kind, content: string, createdAt: int, sequence: int)

  /** A row of `sessions_v2`; different spellings of one session have a row each. */
  datatype SessionRow = SessionRow(key: string, session: SessionKey, total: nat)

  /** Both tables, rows in insertion order. */
  datatype Tables = Tables(sessions: seq<SessionRow>, rows: seq<Row>)

  const EMPTY := Tables([], [])

  datatype StoreError = DuplicateId

  /** How a spelled session key is read; total, since a key without a channel falls back to one. */
  type Parser = string -> SessionKey

  // ---------------------------------------------------------------------
  // Tables
  // ---------------------------------------------------------------------

  function Select(rows: seq<Row>, p: Row -> bool): seq<Row> {
    if rows == [] then []
    else Select(rows[..|rows| - 1], p) + (if p(rows[|rows| - 1]) then [rows[|rows| - 1]] else [])
  }

  // WHERE clauses

  function InSession(k: SessionKey): Row -> bool { (r: Row) => r.session == k }
  function NotInSession(k: SessionKey): Row -> bool { (r: Row) => r.session != k }
  function Covered(k: SessionKey, upto: int): Row -> bool { (r: Row) => r.session == k && r.sequence <= upto }
  function Uncovered(k: SessionKey, upto: int): Row -> bool { (r: Row) => !(r.session == k && r.sequence <= upto) }
  function After(k: SessionKey, after: int): Row -> bool { (r: Row) => r.session == k && r.sequence > after }
  function ToSummarize(k: SessionKey, upto: int): Row -> bool {
    (r: Row) => r.session == k && r.sequence <= upto && !r.kind.Summary?
  }
  function FromSequence(n: int): Row -> bool { (r: Row) => r.sequence >= n }

  predicate Earlier(x: Row, y: Row) { x.sequence < y.sequence }

  /** `ORDER BY sequence ASC` */
  function OrderBySequence(rows: seq<Row>): seq<Row> { Sorting.Sort(Earlier, rows) }

  predicate HasId(rows: seq<Row>, id: string) { exists i :: 0 <= i < |rows| && rows[i].id == id }

  predicate HasKey(sessions: seq<SessionRow>, key: string) { exists i :: 0 <= i < |sessions| && sessions[i].key == key }

  /** `total_events` of the first matching session row, 0 if there is none. */
  function Counter(sessions: seq<SessionRow>, k: SessionKey): nat {
    if sessions == [] then 0
    else if sessions[0].session == k then sessions[0].total
    else Counter(sessions[1..], k)
  }

  predicate HasSession(sessions: seq<SessionRow>, k: SessionKey) {
    exists i :: 0 <= i < |sessions| && sessions[i].session == k
  }

  /** `UPDATE ... SET total_events = total_events + 1` hits every spelling of the session. */
  function Bumped(sessions: seq<SessionRow>, k: SessionKey): (r: seq<SessionRow>)
    ensures |r| == |sessions|
  {
    if sessions == [] then []
    else [if sessions[0].session == k then sessions[0].(total := sessions[0].total + 1) else sessions[0]] +
         Bumped(sessions[1..], k)
  }

  function Without(sessions: seq<SessionRow>, k: SessionKey): seq<SessionRow> {
    if sessions == [] then []
    else (if sessions[0].session == k then [] else [sessions[0]]) + Without(sessions[1..], k)
  }

  function RowOf(k: SessionKey, e: Event, sequence: int): Row {
    Row(e.id, k, e.kind, e.content, e.createdAt, sequence)
  }

  /** `INSERT OR IGNORE INTO sessions_v2` */
  function WithSession(sessions: seq<SessionRow>, key: string, k: SessionKey): seq<SessionRow> {
    if HasKey(sessions, key) then sessions else sessions + [SessionRow(key, k, 0)]
  }

  // ---------------------------------------------------------------------
  // Operations
  // ---------------------------------------------------------------------

  /** One transaction; a duplicate id rolls all of it back. */
  function Appended(parse: Parser, t: Tables, e: Event): (Tables, Result<int, StoreError>) {
    if HasId(t.rows, e.id) then (t, Err(DuplicateId))
    else
      var k := parse(e.key);
      var sessions := WithSession(t.sessions, e.key, k);
      var sequence := Counter(sessions, k);
      (Tables(Bumped(sessions, k), t.rows + [RowOf(k, e, sequence)]), Ok(sequence))
  }

  function Collected(t: Tables, k: SessionKey, upto: int): Tables {
    t.(rows := Select(t.rows, Uncovered(k, upto)))
  }

  function Cleared(t: Tables, k: SessionKey): Tables {
    Tables(Without(t.sessions, k), Select(t.rows, NotInSession(k)))
  }

  // Queries

  function History(t: Tables, k: SessionKey): seq<Row> {
    OrderBySequence(Select(t.rows, InSession(k)))
  }

  function EventsAfter(t: Tables, k: SessionKey, after: int): seq<Row> {
    OrderBySequence(Select(t.rows, After(k, after)))
  }

  function EventsUpTo(t: Tables, k: SessionKey, upto: int): seq<Row> {
    OrderBySequence(Select(t.rows, ToSummarize(k, upto)))
  }

  function Ids(rows: seq<Row>): (ids: seq<string>)
    ensures |ids| == |rows| && forall i :: 0 <= i < |ids| ==> ids[i] == rows[i].id
  {
    seq(|rows|, i requires 0 <= i < |rows| => rows[i].id)
  }

  function IdsUpTo(t: Tables, k: SessionKey, upto: int): seq<string> {
    Ids(Select(t.rows, Covered(k, upto)))
  }

  /** `COALESCE(MAX(sequence), 0)` */
  function MaxSequence(rows: seq<Row>): int {
    if rows == [] then 0
    else if |rows| == 1 then rows[0].sequence
    else
      var m := MaxSequence(rows[..|rows| - 1]);
      if rows[|rows| - 1].sequence > m then rows[|rows| - 1].sequence else m
  }

  class EventStore {
    const parse: Parser
    var sessions: seq<SessionRow>
    var rows: seq<Row>

    function View(): Tables
      reads this
    {
      Tables(sessions, rows)
    }

    constructor (parse: Parser)
      ensures this.parse == parse && View() == EMPTY
    {
      this.parse := parse;
      sessions, rows := [], [];
    }

    method Append(e: Event) returns (r: Result<int, StoreError>)
      modifies this
      ensures (View(), r) == Appended(parse, old(View()), e)
    {
      if HasId(rows, e.id) {
        return Err(DuplicateId);
      }
      var k := parse(e.key);
      if !HasKey(sessions, e.key) {
        sessions := sessions + [SessionRow(e.key, k, 0)];
      }
      var sequence := Counter(sessions, k);
      rows := rows + [RowOf(k, e, sequence)];
      sessions := Bumped(sessions, k);
      r := Ok(sequence);
    }

    method DeleteEventsUpto(k: SessionKey, upto: int) returns (deleted: nat)
      modifies this`rows
      ensures View() == Collected(old(View()), k, upto)
      ensures deleted == |IdsUpTo(old(View()), k, upto)|
    {
      var before := rows;
      rows := Select(rows, Uncovered(k, upto));
      SelectSplits(before, Covered(k, upto), Uncovered(k, upto));
      deleted := |before| - |rows|;
    }

    method ClearSession(k: SessionKey)
      modifies this
      ensures View() == Cleared(old(View()), k)
    {
      rows := Select(rows, NotInSession(k));
      sessions := Without(sessions, k);
    }
  }

  // ---------------------------------------------------------------------
  // Selection lemmas
  // ---------------------------------------------------------------------

  lemma {:induction false} SelectSplits(rows: seq<Row>, p: Row -> bool, q: Row -> bool)
    requires forall r :: p(r) != q(r)
    ensures |Select(rows, p)| + |Select(rows, q)| == |rows|
  {
    if rows != [] { SelectSplits(rows[..|rows| - 1], p, q); }
  }

  lemma {:induction false} SelectSelect(rows: seq<Row>, p: Row -> bool, q: Row -> bool, both: Row -> bool)
    requires forall r :: both(r) == (p(r) && q(r))
    ensures Select(Select(rows, p), q) == Select(rows, both)
  {
    if rows != [] {
      var front, last := rows[..|rows| - 1], rows[|rows| - 1];
      SelectSelect(front, p, q, both);
      if p(last) {
        SelectPush(Select(front, p), last, q);
      } else {
        assert Select(rows, p) == Select(front, p);
      }
    }
  }

  lemma SelectPush(rows: seq<Row>, r: Row, p: Row -> bool)
    ensures Select(rows + [r], p) == if p(r) then Select(rows, p) + [r] else Select(rows, p)
  {
    assert (rows + [r])[..|rows|] == rows;
  }

  lemma {:induction false} SelectSame(rows: seq<Row>, p: Row -> bool, q: Row -> bool)
    requires forall r :: r in rows ==> p(r) == q(r)
    ensures Select(rows, p) == Select(rows, q)
  {
    if rows != [] { SelectSame(rows[..|rows| - 1], p, q); }
  }

  lemma {:induction false} SelectMembers(rows: seq<Row>, p: Row -> bool, r: Row)
    ensures r in Select(rows, p) <==> r in rows && p(r)
  {
    if rows != [] {
      var front, last := rows[..|rows| - 1], rows[|rows| - 1];
      SelectMembers(front, p, r);
      assert rows == front + [last];
    }
  }

  ghost predicate Increasing(rows: seq<Row>) {
    forall i, j :: 0 <= i < j < |rows| ==> rows[i].sequence < rows[j].sequence
  }

  /** On rows already in sequence order the ORDER BY changes nothing. */
  lemma OrderKeepsIncreasing(rows: seq<Row>)
    requires Increasing(rows)
    ensures OrderBySequence(rows) == rows
  {
    Sorting.SortKeepsSorted(Earlier, rows);
  }

  ghost predicate NonDecreasing(rows: seq<Row>) {
    forall i, j :: 0 <= i < j < |rows| ==> rows[i].sequence <= rows[j].sequence
  }

  /** On any rows the ORDER BY returns the same rows, sorted. */
  lemma OrderSorts(rows: seq<Row>)
    ensures NonDecreasing(OrderBySequence(rows))
    ensures multiset(OrderBySequence(rows)) == multiset(rows)
  {
    Sorting.SortSorts(Earlier, rows);
    Sorting.SortPermutes(Earlier, rows);
  }

  // ---------------------------------------------------------------------
  // The reference: each session is a log of which a prefix has been collected
  // ---------------------------------------------------------------------

  /** Everything appended since the last clear, and the index of the first event still stored. */
  datatype Log = Log(events: seq<Event>, first: nat)

  type Journal = map<SessionKey, Log>

  function LogOf(j: Journal, k: SessionKey): Log { if k in j then j[k] else Log([], 0) }

  /** The stored rows of a log: events from `first` on, numbered by their position. */
  function Numbered(k: SessionKey, events: seq<Event>, first: nat): (rows: seq<Row>)
    ensures |rows| == if first <= |events| then |events| - first else 0
    ensures forall i :: 0 <= i < |rows| ==> rows[i] == RowOf(k, events[first + i], first + i)
  {
    if |events| <= first then []
    else Numbered(k, events[..|events| - 1], first) + [RowOf(k, events[|events| - 1], |events| - 1)]
  }

  function Max(a: int, b: int): int { if a >= b then a else b }
  function Min(a: int, b: int): int { if a <= b then a else b }

  datatype Op = Append(e: Event) | Collect(k: SessionKey, upto: int) | Clear(k: SessionKey)

  function Apply(parse: Parser, t: Tables, op: Op): Tables {
    match op
    case Append(e) => Appended(parse, t, e).0
    case Collect(k, upto) => Collected(t, k, upto)
    case Clear(k) => Cleared(t, k)
  }

  /** What the operation means for the logs; a refused append means nothing. */
  function Record(parse: Parser, j: Journal, op: Op, refused: bool): Journal {
    match op
    case Append(e) =>
      var k := parse(e.key);
      if refused then j else j[k := LogOf(j, k).(events := LogOf(j, k).events + [e])]
    case Collect(k, upto) =>
      var log := LogOf(j, k);
      j[k := log.(first := Max(log.first, Min(Max(upto + 1, 0), |log.events|)))]
    case Clear(k) => j[k := Log([], 0)]
  }

  predicate Refused(t: Tables, op: Op) { op.Append? && HasId(t.rows, op.e.id) }

  datatype World = World(tables: Tables, journal: Journal)

  function Run(parse: Parser, ops: seq<Op>): World {
    if ops == [] then World(EMPTY, map[])
    else
      var w := Run(parse, ops[..|ops| - 1]);
      var op := ops[|ops| - 1];
      World(Apply(parse, w.tables, op), Record(parse, w.journal, op, Refused(w.tables, op)))
  }

  /** The tables hold exactly what the log says, numbered by position. */
  ghost predicate Matches(t: Tables, log: Log, k: SessionKey) {
    && log.first <= |log.events|
    && Counter(t.sessions, k) == |log.events|
    && (log.events != [] ==> HasSession(t.sessions, k))
    && Select(t.rows, InSession(k)) == Numbered(k, log.events, log.first)
  }

  ghost predicate SessionsOk(parse: Parser, sessions: seq<SessionRow>) {
    forall i :: 0 <= i < |sessions| ==> sessions[i].session == parse(sessions[i].key)
  }

  ghost predicate Agree(parse: Parser, w: World) {
    && SessionsOk(parse, w.tables.sessions)
    && (forall k :: Matches(w.tables, LogOf(w.journal, k), k))
  }

  // Lemmas about the session table

  lemma {:induction false} CounterOfBumped(sessions: seq<SessionRow>, k: SessionKey, other: SessionKey)
    ensures Counter(Bumped(sessions, k), other) ==
            Counter(sessions, other) + (if other == k && HasSession(sessions, k) then 1 else 0)
    ensures HasSession(Bumped(sessions, k), other) <==> HasSession(sessions, other)
  {
    if sessions != [] {
      CounterOfBumped(sessions[1..], k, other);
      HasSessionSplits(sessions, other);
      HasSessionSplits(sessions, k);
      HasSessionSplits(Bumped(sessions, k), other);
      assert Bumped(sessions, k)[1..] == Bumped(sessions[1..], k);
    }
  }

  lemma {:induction false} BumpedKeys(sessions: seq<SessionRow>, k: SessionKey)
    ensures forall i :: 0 <= i < |sessions| ==>
              Bumped(sessions, k)[i].key == sessions[i].key && Bumped(sessions, k)[i].session == sessions[i].session
  {
    if sessions != [] { BumpedKeys(sessions[1..], k); }
  }

  lemma HasSessionSplits(sessions: seq<SessionRow>, k: SessionKey)
    requires sessions != []
    ensures HasSession(sessions, k) <==> sessions[0].session == k || HasSession(sessions[1..], k)
  {
    if HasSession(sessions[1..], k) {
      var i :| 0 <= i < |sessions[1..]| && sessions[1..][i].session == k;
      assert sessions[i + 1].session == k;
    }
    if HasSession(sessions, k) {
      var i :| 0 <= i < |sessions| && sessions[i].session == k;
      if i > 0 { assert sessions[1..][i - 1].session == k; }
    }
  }

  lemma {:induction false} CounterOfAppended(sessions: seq<SessionRow>, row: SessionRow, k: SessionKey)
    requires row.total == 0
    ensures Counter(sessions + [row], k) == Counter(sessions, k)
  {
    if sessions == [] {
      assert sessions + [row] == [row];
    } else {
      assert (sessions + [row])[1..] == sessions[1..] + [row];
      CounterOfAppended(sessions[1..], row, k);
    }
  }

  lemma {:induction false} NoSessionNoCounter(sessions: seq<SessionRow>, k: SessionKey)
    requires !HasSession(sessions, k)
    ensures Counter(sessions, k) == 0
  {
    if sessions != [] {
      HasSessionSplits(sessions, k);
      NoSessionNoCounter(sessions[1..], k);
    }
  }

  lemma {:induction false} CounterOfWithout(sessions: seq<SessionRow>, k: SessionKey, other: SessionKey)
    ensures other == k ==> Counter(Without(sessions, k), other) == 0
    ensures other != k ==> Counter(Without(sessions, k), other) == Counter(sessions, other)
    ensures other != k ==> HasSession(sessions, other) ==> HasSession(Without(sessions, k), other)
  {
    if sessions != [] {
      CounterOfWithout(sessions[1..], k, other);
      HasSessionSplits(sessions, other);
      if sessions[0].session != k {
        assert Without(sessions, k)[1..] == Without(sessions[1..], k);
        HasSessionSplits(Without(sessions, k), other);
      } else {
        assert Without(sessions, k) == Without(sessions[1..], k);
      }
    }
  }

  // Lemmas about numbered logs

  lemma {:induction false} NumberedFrom(k: SessionKey, events: seq<Event>, first: nat, from: int)
    ensures Select(Numbered(k, events, first), FromSequence(from)) == Numbered(k, events, Max(first, from))
  {
    if |events| > first {
      var front, last := events[..|events| - 1], events[|events| - 1];
      NumberedFrom(k, front, first, from);
      SelectPush(Numbered(k, front, first), RowOf(k, last, |events| - 1), FromSequence(from));
    }
  }

  // Each operation

  lemma AppendKeepsSessions(parse: Parser, sessions: seq<SessionRow>, key: string, k: SessionKey)
    requires SessionsOk(parse, sessions)
    ensures var next := WithSession(sessions, key, parse(key));
            && SessionsOk(parse, next) && HasSession(next, parse(key))
            && Counter(next, k) == Counter(sessions, k)
            && (HasSession(sessions, k) ==> HasSession(next, k))
  {
    var me := parse(key);
    var next := WithSession(sessions, key, me);
    CounterOfAppended(sessions, SessionRow(key, me, 0), k);
    if HasKey(sessions, key) {
      var i :| 0 <= i < |sessions| && sessions[i].key == key;
      assert next[i].session == me;
    } else {
      assert next[|sessions|].session == me;
    }
    if HasSession(sessions, k) {
      var i :| 0 <= i < |sessions| && sessions[i].session == k;
      assert next[i].session == k;
    }
  }

  lemma AppendCounts(parse: Parser, t: Tables, e: Event, k: SessionKey)
    requires SessionsOk(parse, t.sessions) && !HasId(t.rows, e.id)
    ensures var me := parse(e.key);
            var after := Appended(parse, t, e).0.sessions;
            && Counter(after, k) == Counter(t.sessions, k) + (if k == me then 1 else 0)
            && (k == me || HasSession(t.sessions, k) ==> HasSession(after, k))
            && Counter(WithSession(t.sessions, e.key, me), me) == Counter(t.sessions, me)
  {
    var me := parse(e.key);
    AppendKeepsSessions(parse, t.sessions, e.key, k);
    AppendKeepsSessions(parse, t.sessions, e.key, me);
    CounterOfBumped(WithSession(t.sessions, e.key, me), me, k);
  }

  lemma AppendRows(parse: Parser, t: Tables, e: Event, k: SessionKey)
    requires !HasId(t.rows, e.id)
    ensures var me := parse(e.key);
            Select(Appended(parse, t, e).0.rows, InSession(k)) ==
            if k == me then Select(t.rows, InSession(k)) + [RowOf(me, e, Counter(WithSession(t.sessions, e.key, me), me))]
            else Select(t.rows, InSession(k))
  {
    var me := parse(e.key);
    SelectPush(t.rows, RowOf(me, e, Counter(WithSession(t.sessions, e.key, me), me)), InSession(k));
  }

  lemma AppendMatches(parse: Parser, t: Tables, e: Event, log: Log, k: SessionKey)
    requires SessionsOk(parse, t.sessions) && Matches(t, log, k) && !HasId(t.rows, e.id)
    ensures Matches(Appended(parse, t, e).0, if k == parse(e.key) then log.(events := log.events + [e]) else log, k)
    ensures k == parse(e.key) ==> Appended(parse, t, e).1 == Ok(|log.events|)
  {
    AppendCounts(parse, t, e, k);
    AppendRows(parse, t, e, k);
    NumberedPush(k, log.events, log.first, e);
  }

  lemma NumberedPush(k: SessionKey, events: seq<Event>, first: nat, e: Event)
    requires first <= |events|
    ensures Numbered(k, events + [e], first) == Numbered(k, events, first) + [RowOf(k, e, |events|)]
  {
    assert (events + [e])[..|events|] == events;
  }

  /** What a collection leaves of a session is what it leaves of that session's rows. */
  lemma CollectCommutes(t: Tables, k: SessionKey, upto: int, other: SessionKey)
    ensures Select(Collected(t, k, upto).rows, InSession(other)) ==
            Select(Select(t.rows, InSession(other)), Uncovered(k, upto))
  {
    var mine, kept := InSession(other), Uncovered(k, upto);
    var both := (r: Row) => mine(r) && kept(r);
    SelectSelect(t.rows, kept, mine, both);
    SelectSelect(t.rows, mine, kept, both);
  }

  lemma {:induction false} SelectUncovered(k: SessionKey, events: seq<Event>, first: nat, upto: int)
    ensures Select(Numbered(k, events, first), Uncovered(k, upto)) == Select(Numbered(k, events, first), FromSequence(upto + 1))
  {
    SelectSame(Numbered(k, events, first), Uncovered(k, upto), FromSequence(upto + 1));
  }

  lemma CollectNumbered(k: SessionKey, events: seq<Event>, first: nat, upto: int)
    requires first <= |events|
    ensures Select(Numbered(k, events, first), Uncovered(k, upto)) ==
            Numbered(k, events, Max(first, Min(Max(upto + 1, 0), |events|)))
  {
    SelectUncovered(k, events, first, upto);
    NumberedFrom(k, events, first, upto + 1);
    NumberedStart(k, events, Max(first, upto + 1));
  }

  lemma CollectMatches(t: Tables, k: SessionKey, upto: int, log: Log, other: SessionKey)
    requires Matches(t, log, other)
    ensures Matches(Collected(t, k, upto),
                    if other == k then log.(first := Max(log.first, Min(Max(upto + 1, 0), |log.events|))) else log, other)
  {
    CollectCommutes(t, k, upto, other);
    if other == k {
      CollectNumbered(k, log.events, log.first, upto);
    } else {
      SelectAll(Numbered(other, log.events, log.first), Uncovered(k, upto));
    }
  }

  lemma NumberedStart(k: SessionKey, events: seq<Event>, first: nat)
    ensures Numbered(k, events, first) == Numbered(k, events, Min(first, |events|))
  {
  }

  lemma {:induction false} SelectAll(rows: seq<Row>, p: Row -> bool)
    requires forall r :: r in rows ==> p(r)
    ensures Select(rows, p) == rows
  {
    if rows != [] {
      SelectAll(rows[..|rows| - 1], p);
      assert rows == rows[..|rows| - 1] + [rows[|rows| - 1]];
    }
  }

  lemma {:induction false} SelectNone(rows: seq<Row>, p: Row -> bool)
    requires forall r :: r in rows ==> !p(r)
    ensures Select(rows, p) == []
  {
    if rows != [] { SelectNone(rows[..|rows| - 1], p); }
  }

  lemma ClearMatches(t: Tables, k: SessionKey, log: Log, other: SessionKey)
    requires Matches(t, log, other)
    ensures Matches(Cleared(t, k), if other == k then Log([], 0) else log, other)
  {
    CounterOfWithout(t.sessions, k, other);
    var mine, kept := InSession(other), NotInSession(k);
    var both := (r: Row) => mine(r) && kept(r);
    SelectSelect(t.rows, kept, mine, both);
    if other == k {
      SelectNone(t.rows, both);
    } else {
      SelectSame(t.rows, both, mine);
    }
  }

  lemma {:induction false} RunAgrees(parse: Parser, ops: seq<Op>)
    ensures Agree(parse, Run(parse, ops))
  {
    if ops != [] {
      var before, op := ops[..|ops| - 1], ops[|ops| - 1];
      RunAgrees(parse, before);
      OpAgrees(parse, Run(parse, before), op);
    }
  }

  lemma OpKeepsSessionsOk(parse: Parser, t: Tables, op: Op)
    requires SessionsOk(parse, t.sessions)
    ensures SessionsOk(parse, Apply(parse, t, op).sessions)
  {
    match op
    case Append(e) =>
      AppendKeepsSessions(parse, t.sessions, e.key, parse(e.key));
      BumpedKeys(WithSession(t.sessions, e.key, parse(e.key)), parse(e.key));
    case Clear(k) => WithoutKeeps(parse, t.sessions, k);
    case Collect(_, _) =>
  }

  lemma {:induction false} WithoutKeeps(parse: Parser, sessions: seq<SessionRow>, k: SessionKey)
    requires SessionsOk(parse, sessions)
    ensures SessionsOk(parse, Without(sessions, k))
  {
    if sessions != [] { WithoutKeeps(parse, sessions[1..], k); }
  }

  lemma OpMatches(parse: Parser, w: World, op: Op, k: SessionKey)
    requires Agree(parse, w)
    ensures Matches(Apply(parse, w.tables, op), LogOf(Record(parse, w.journal, op, Refused(w.tables, op)), k), k)
  {
    var log := LogOf(w.journal, k);
    assert Matches(w.tables, log, k);
    match op
    case Append(e) => if !HasId(w.tables.rows, e.id) { AppendMatches(parse, w.tables, e, log, k); }
    case Collect(c, upto) => CollectMatches(w.tables, c, upto, log, k);
    case Clear(c) => ClearMatches(w.tables, c, log, k);
  }

  lemma OpAgrees(parse: Parser, w: World, op: Op)
    requires Agree(parse, w)
    ensures Agree(parse, World(Apply(parse, w.tables, op), Record(parse, w.journal, op, Refused(w.tables, op))))
  {
    OpKeepsSessionsOk(parse, w.tables, op);
    forall k ensures Matches(Apply(parse, w.tables, op), LogOf(Record(parse, w.journal, op, Refused(w.tables, op)), k), k) {
      OpMatches(parse, w, op, k);
    }
  }

  // ---------------------------------------------------------------------
  // What every run guarantees
  // ---------------------------------------------------------------------

  /** An accepted append is numbered with the count of the session's appends since it was last cleared. */
  lemma SequenceIsPosition(parse: Parser, ops: seq<Op>, e: Event)
    ensures var w := Run(parse, ops);
            Appended(parse, w.tables, e).1 ==
            if HasId(w.tables.rows, e.id) then Err(DuplicateId)
            else Ok(|LogOf(w.journal, parse(e.key)).events|)
  {
    RunAgrees(parse, ops);
    var w := Run(parse, ops);
    var log := LogOf(w.journal, parse(e.key));
    assert Matches(w.tables, log, parse(e.key));
    if !HasId(w.tables.rows, e.id) { AppendMatches(parse, w.tables, e, log, parse(e.key)); }
  }

  /** Range queries read the log: numbering survives every collection, and ORDER BY returns append order. */
  lemma QueriesReadTheLog(parse: Parser, ops: seq<Op>, k: SessionKey, w: int)
    ensures var t := Run(parse, ops).tables; var log := LogOf(Run(parse, ops).journal, k);
            && History(t, k) == Numbered(k, log.events, log.first)
            && EventsAfter(t, k, w) == Numbered(k, log.events, Max(log.first, w + 1))
  {
    RunAgrees(parse, ops);
    var t, log := Run(parse, ops).tables, LogOf(Run(parse, ops).journal, k);
    assert Matches(t, log, k);
    SelectSelect(t.rows, InSession(k), FromSequence(w + 1), After(k, w));
    NumberedFrom(k, log.events, log.first, w + 1);
    OrderKeepsIncreasing(Numbered(k, log.events, log.first));
    OrderKeepsIncreasing(Numbered(k, log.events, Max(log.first, w + 1)));
  }

  /** The rows are the events from `from` on, field by field, numbered by position. */
  ghost predicate AreRowsFor(rows: seq<Row>, k: SessionKey, events: seq<Event>, from: nat) {
    && |rows| == (if from <= |events| then |events| - from else 0)
    && forall i :: 0 <= i < |rows| ==> IsRowFor(rows[i], k, events[from + i], from + i)
  }

  lemma NumberedFields(k: SessionKey, events: seq<Event>, from: nat)
    ensures AreRowsFor(Numbered(k, events, from), k, events, from)
  {
  }

  /** What is read back, field by field: the events as they were handed to `append`, "after w" from w + 1 on. */
  lemma ReadBackFieldByField(parse: Parser, ops: seq<Op>, k: SessionKey, w: int)
    ensures var t, log := Run(parse, ops).tables, LogOf(Run(parse, ops).journal, k);
            && AreRowsFor(History(t, k), k, log.events, log.first)
            && AreRowsFor(EventsAfter(t, k, w), k, log.events, if log.first > w + 1 then log.first else w + 1)
  {
    QueriesReadTheLog(parse, ops, k, w);
    var log := LogOf(Run(parse, ops).journal, k);
    NumberedFields(k, log.events, log.first);
    NumberedFields(k, log.events, Max(log.first, w + 1));
  }

  /** An accepted append is read back at the end of its session's history, and no other history changes. */
  lemma AppendIsReadBack(parse: Parser, ops: seq<Op>, e: Event, other: SessionKey)
    requires !HasId(Run(parse, ops).tables.rows, e.id)
    ensures var t, k := Run(parse, ops).tables, parse(e.key);
            var t' := Appended(parse, t, e).0;
            && |History(t', k)| == |History(t, k)| + 1 && History(t, k) == History(t', k)[..|History(t, k)|]
            && (exists n :: IsRowFor(History(t', k)[|History(t, k)|], k, e, n))
            && (other != k ==> History(t', other) == History(t, other))
  {
    var t, k := Run(parse, ops).tables, parse(e.key);
    var row := RowOf(k, e, Counter(WithSession(t.sessions, e.key, k), k));
    SelectPush(t.rows, row, InSession(k));
    SelectPush(t.rows, row, InSession(other));
    RunAgrees(parse, ops);
    AppendedHistory(parse, t, e, LogOf(Run(parse, ops).journal, k));
    assert IsRowFor(row, k, e, row.sequence);
  }

  lemma AppendedHistory(parse: Parser, t: Tables, e: Event, log: Log)
    requires SessionsOk(parse, t.sessions) && Matches(t, log, parse(e.key)) && !HasId(t.rows, e.id)
    ensures var k := parse(e.key);
            History(Appended(parse, t, e).0, k) == History(t, k) + [RowOf(k, e, |log.events|)]
    ensures Counter(WithSession(t.sessions, e.key, parse(e.key)), parse(e.key)) == |log.events|
  {
    var k := parse(e.key);
    AppendMatches(parse, t, e, log, k);
    AppendKeepsSessions(parse, t.sessions, e.key, k);
    NumberedPush(k, log.events, log.first, e);
    OrderKeepsIncreasing(Numbered(k, log.events, log.first));
    OrderKeepsIncreasing(Numbered(k, log.events + [e], log.first));
  }

  predicate IsRowFor(r: Row, k: SessionKey, e: Event, sequence: int) {
    && r.id == e.id && r.kind == e.kind && r.content == e.content && r.createdAt == e.createdAt
    && r.session == k && r.sequence == sequence
  }

  // Ids are unique

  ghost predicate UniqueIds(rows: seq<Row>) {
    forall i, j :: 0 <= i < j < |rows| ==> rows[i].id != rows[j].id
  }

  lemma {:induction false} SelectKeepsUnique(rows: seq<Row>, p: Row -> bool)
    requires UniqueIds(rows)
    ensures UniqueIds(Select(rows, p))
  {
    if rows != [] {
      var front, last := rows[..|rows| - 1], rows[|rows| - 1];
      SelectKeepsUnique(front, p);
      forall r | r in Select(front, p) ensures r.id != last.id {
        SelectMembers(front, p, r);
      }
    }
  }

  /** The event table never holds two rows with one id. */
  lemma {:induction false} RunKeepsUnique(parse: Parser, ops: seq<Op>)
    ensures UniqueIds(Run(parse, ops).tables.rows)
  {
    if ops != [] {
      RunKeepsUnique(parse, ops[..|ops| - 1]);
      var rows := Run(parse, ops[..|ops| - 1]).tables.rows;
      match ops[|ops| - 1]
      case Append(_) =>
      case Collect(k, upto) => SelectKeepsUnique(rows, Uncovered(k, upto));
      case Clear(k) => SelectKeepsUnique(rows, NotInSession(k));
    }
  }

  lemma RowById(rows: seq<Row>, a: Row, b: Row)
    requires UniqueIds(rows) && a in rows && b in rows && a.id == b.id
    ensures a == b
  {
  }

  lemma AnnouncedIds(t: Tables, k: SessionKey, upto: int, id: string)
    ensures id in IdsUpTo(t, k, upto) <==> exists r :: r in t.rows && Covered(k, upto)(r) && r.id == id
  {
    var covered := Select(t.rows, Covered(k, upto));
    if id in IdsUpTo(t, k, upto) {
      var j :| 0 <= j < |covered| && covered[j].id == id;
      SelectMembers(t.rows, Covered(k, upto), covered[j]);
      assert covered[j] in covered;
    }
    if r :| r in t.rows && Covered(k, upto)(r) && r.id == id {
      SelectMembers(t.rows, Covered(k, upto), r);
      var j :| 0 <= j < |covered| && covered[j] == r;
      assert IdsUpTo(t, k, upto)[j] == id;
    }
  }

  /** The ids announced for a collection are exactly the ones it removes. */
  lemma CollectionRemovesTheAnnounced(parse: Parser, ops: seq<Op>, k: SessionKey, upto: int, id: string)
    ensures var t := Run(parse, ops).tables;
            id in IdsUpTo(t, k, upto) <==> HasId(t.rows, id) && !HasId(Collected(t, k, upto).rows, id)
  {
    RunKeepsUnique(parse, ops);
    var t := Run(parse, ops).tables;
    var left := Collected(t, k, upto).rows;
    AnnouncedIds(t, k, upto, id);
    if HasId(left, id) {
      var i :| 0 <= i < |left| && left[i].id == id;
      SelectMembers(t.rows, Uncovered(k, upto), left[i]);
      forall r | r in t.rows && r.id == id ensures !Covered(k, upto)(r) { RowById(t.rows, r, left[i]); }
    }
    if HasId(t.rows, id) && !HasId(left, id) {
      var i :| 0 <= i < |t.rows| && t.rows[i].id == id;
      SelectMembers(t.rows, Uncovered(k, upto), t.rows[i]);
      assert Covered(k, upto)(t.rows[i]);
    }
    if r :| r in t.rows && Covered(k, upto)(r) && r.id == id {
      var i :| 0 <= i < |t.rows| && t.rows[i] == r;
      assert HasId(t.rows, id);
    }
  }

  lemma {:induction false} SelectKeepsIncreasing(rows: seq<Row>, p: Row -> bool)
    requires Increasing(rows)
    ensures Increasing(Select(rows, p))
    ensures forall r :: r in Select(rows, p) ==> r in rows
  {
    if rows != [] {
      var front, last := rows[..|rows| - 1], rows[|rows| - 1];
      SelectKeepsIncreasing(front, p);
      forall i | 0 <= i < |Select(front, p)| ensures Select(front, p)[i].sequence < last.sequence {
        assert Select(front, p)[i] in front;
      }
    }
  }

  /** The input of a summary is the part of the history up to the target that is not itself a summary. */
  lemma SummaryInputReadsTheHistory(parse: Parser, ops: seq<Op>, k: SessionKey, upto: int)
    ensures var t := Run(parse, ops).tables;
            && EventsUpTo(t, k, upto) == Select(History(t, k), ToSummarize(k, upto))
            && Increasing(EventsUpTo(t, k, upto))
  {
    QueriesReadTheLog(parse, ops, k, 0);
    RunAgrees(parse, ops);
    var t, log := Run(parse, ops).tables, LogOf(Run(parse, ops).journal, k);
    assert Matches(t, log, k);
    SelectSelect(t.rows, InSession(k), ToSummarize(k, upto), ToSummarize(k, upto));
    SelectKeepsIncreasing(History(t, k), ToSummarize(k, upto));
    OrderKeepsIncreasing(Select(History(t, k), ToSummarize(k, upto)));
  }

  /** The same by membership, in sequence order. */
  lemma SummaryInputByMember(parse: Parser, ops: seq<Op>, k: SessionKey, upto: int, r: Row)
    ensures var t := Run(parse, ops).tables;
            r in EventsUpTo(t, k, upto) <==> r in t.rows && r.session == k && r.sequence <= upto && r.kind != Summary
  {
    var selected := Select(Run(parse, ops).tables.rows, ToSummarize(k, upto));
    SelectMembers(Run(parse, ops).tables.rows, ToSummarize(k, upto), r);
    OrderSorts(selected);
    assert r in multiset(OrderBySequence(selected)) <==> r in multiset(selected);
  }

  /**
   * Collection up to `upto` removes exactly the ids announced for it, leaves
   * every query after a later watermark as it was, and touches no other session.
   */
  lemma CollectionIsInvisibleAbove(parse: Parser, ops: seq<Op>, k: SessionKey, upto: int, w: int, other: SessionKey)
    ensures var t := Run(parse, ops).tables; var t' := Collected(t, k, upto);
            && (w >= upto ==> EventsAfter(t', k, w) == EventsAfter(t, k, w))
            && (other != k ==> History(t', other) == History(t, other))
            && (forall id :: id in IdsUpTo(t, k, upto) <==> HasId(t.rows, id) && !HasId(t'.rows, id))
            && (forall r :: r in t'.rows <==> r in t.rows && !(r.session == k && r.sequence <= upto))
            && Counter(t'.sessions, k) == Counter(t.sessions, k)
  {
    var t := Run(parse, ops).tables;
    var t' := Collected(t, k, upto);
    var kept, covered := Uncovered(k, upto), Covered(k, upto);
    if w >= upto { SelectSelect(t.rows, kept, After(k, w), After(k, w)); }
    if other != k { SelectSelect(t.rows, kept, InSession(other), InSession(other)); }
    forall r ensures r in t'.rows <==> r in t.rows && !covered(r) { SelectMembers(t.rows, kept, r); }
    forall id ensures id in IdsUpTo(t, k, upto) <==> HasId(t.rows, id) && !HasId(t'.rows, id) {
      CollectionRemovesTheAnnounced(parse, ops, k, upto, id);
    }
  }

  /**
   * Numbering starts at 0 and "after" is strict, so watermark 0 stands for
   * "everything" exactly when the first event is gone or was never there.
   */
  lemma WatermarkZeroIsEverything(parse: Parser, ops: seq<Op>, k: SessionKey)
    ensures var t := Run(parse, ops).tables; var log := LogOf(Run(parse, ops).journal, k);
            EventsAfter(t, k, 0) == History(t, k) <==> log.first > 0 || log.events == []
  {
    QueriesReadTheLog(parse, ops, k, 0);
  }

  /** The first event of a session is invisible after watermark 0. */
  lemma FirstEventHiddenByWatermarkZero(parse: Parser, e: Event)
    ensures var t := Run(parse, [Append(e)]).tables; var k := parse(e.key);
            History(t, k) == [RowOf(k, e, 0)] && EventsAfter(t, k, 0) == []
  {
    var ops := [Append(e)];
    assert ops[..0] == [];
    QueriesReadTheLog(parse, ops, parse(e.key), 0);
    assert Run(parse, ops[..0]) == World(EMPTY, map[]);
    assert LogOf(Run(parse, ops).journal, parse(e.key)).events == [e];
  }

  /** The reported maximum is the last number handed out, unless everything was collected: then it is 0. */
  lemma MaxSequenceOfLog(parse: Parser, ops: seq<Op>, k: SessionKey)
    ensures var t := Run(parse, ops).tables; var log := LogOf(Run(parse, ops).journal, k);
            MaxSequence(Select(t.rows, InSession(k))) ==
            if log.first < |log.events| then |log.events| - 1 else 0
  {
    RunAgrees(parse, ops);
    var log := LogOf(Run(parse, ops).journal, k);
    assert Matches(Run(parse, ops).tables, log, k);
    MaxOfNumbered(k, log.events, log.first);
  }

  lemma {:induction false} MaxOfNumbered(k: SessionKey, events: seq<Event>, first: nat)
    ensures MaxSequence(Numbered(k, events, first)) == if first < |events| then |events| - 1 else 0
  {
    if |events| > first {
      var front := events[..|events| - 1];
      MaxOfNumbered(k, front, first);
      var rows := Numbered(k, events, first);
      assert rows[..|rows| - 1] == Numbered(k, front, first);
    }
  }
}
