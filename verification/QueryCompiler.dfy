// The filter-to-SQL compiler of the event store.
//
// Conditions are appended to the statement in one pass and parameters bound
// in a second one; nothing but their order ties a placeholder to its value.

module QueryCompiler {
  import opened Wrappers
  import opened EventLog
  import Sorting

  datatype EventFilter = EventFilter(
    session: Option<SessionKey>,
    timeRange: Option<(int, int)>,
    eventTypes: Option<seq<Kind>>,
    eventIds: Option<seq<string>>,
    limit: Option<nat>,
    sequenceAfter: Option<int>)

  function EventTypeTag(kind: Kind): string {
    match kind
    case UserMessage => "user_message"
    case AssistantMessage => "assistant_message"
    case ToolCall => "tool_call"
    case ToolResult => "tool_result"
    case Summary => "summary"
  }

  lemma TagsAreDistinct(a: Kind, b: Kind)
    ensures EventTypeTag(a) == EventTypeTag(b) <==> a == b
  {
    assert |EventTypeTag(a)| == |EventTypeTag(b)| ==> a == b;
  }

  // ---------------------------------------------------------------------
  // What the filter means
  // ---------------------------------------------------------------------

  predicate Wanted(f: EventFilter, r: Row) {
    && f.session == Some(r.session)
    && (f.timeRange.Some? ==> f.timeRange.value.0 <= r.createdAt <= f.timeRange.value.1)
    && (f.sequenceAfter.Some? ==> r.sequence > f.sequenceAfter.value)
    && (f.eventTypes.Some? && f.eventTypes.value != [] ==> r.kind in f.eventTypes.value)
    && (f.eventIds.Some? && f.eventIds.value != [] ==> r.id in f.eventIds.value)
  }

  function Limited(rows: seq<Row>, limit: Option<nat>): seq<Row> {
    if limit.Some? && limit.value < |rows| then rows[..limit.value] else rows
  }

  /** The session's matching events in sequence order, cut to the limit. */
  function Meaning(f: EventFilter, rows: seq<Row>): seq<Row> {
    Limited(OrderBySequence(Select(rows, (r: Row) => Wanted(f, r))), f.limit)
  }

  // ---------------------------------------------------------------------
  // The statement and how a database evaluates it
  // ---------------------------------------------------------------------

  datatype Condition =
    SessionIs | CreatedIn | SequenceAfter | TypeIn(n: nat) | IdIn(n: nat)

  datatype Value = Text(s: string) | Stamp(t: int) | Number(i: int)

  function Arity(c: Condition): nat {
    match c
    case SessionIs => 2
    case CreatedIn => 2
    case SequenceAfter => 1
    case TypeIn(n) => n
    case IdIn(n) => n
  }

  /** One condition with its own parameters. */
  predicate Holds(c: Condition, args: seq<Value>, r: Row)
    requires |args| == Arity(c)
  {
    match c
    case SessionIs => args[0] == Text(r.session.channel) && args[1] == Text(r.session.chatId)
    case CreatedIn => args[0].Stamp? && args[1].Stamp? && args[0].t <= r.createdAt <= args[1].t
    case SequenceAfter => args[0].Number? && r.sequence > args[0].i
    case TypeIn(_) => Text(EventTypeTag(r.kind)) in args
    case IdIn(_) => Text(r.id) in args
  }

  function Placeholders(cs: seq<Condition>): nat {
    if cs == [] then 0 else Placeholders(cs[..|cs| - 1]) + Arity(cs[|cs| - 1])
  }

  /** Placeholders take parameters from left to right. */
  predicate AllHold(cs: seq<Condition>, params: seq<Value>, r: Row)
    requires |params| == Placeholders(cs)
  {
    cs == [] ||
    var n := |params| - Arity(cs[|cs| - 1]);
    AllHold(cs[..|cs| - 1], params[..n], r) && Holds(cs[|cs| - 1], params[n..], r)
  }

  /** Running the statement; a wrong number of parameters is an error. */
  function Evaluate(cs: seq<Condition>, limit: Option<nat>, params: seq<Value>, rows: seq<Row>): Option<seq<Row>> {
    if |params| != Placeholders(cs) then None
    else Some(Limited(OrderBySequence(Select(rows, (r: Row) => AllHold(cs, params, r))), limit))
  }

  // The text of the statement

  function Questions(n: nat): string {
    if n == 0 then "" else if n == 1 then "?" else Questions(n - 1) + ",?"
  }

  function ConditionText(c: Condition): string {
    match c
    case SessionIs => "channel = ? AND chat_id = ?"
    case CreatedIn => " AND created_at >= ? AND created_at <= ?"
    case SequenceAfter => " AND sequence > ?"
    case TypeIn(n) => " AND event_type IN (" + Questions(n) + ")"
    case IdIn(n) => " AND id IN (" + Questions(n) + ")"
  }

  function ConditionTexts(cs: seq<Condition>): string {
    if cs == [] then "" else ConditionText(cs[0]) + ConditionTexts(cs[1..])
  }

  function Digits(n: nat): string {
    if n < 10 then [DIGITS[n]] else Digits(n / 10) + [DIGITS[n % 10]]
  }

  const DIGITS: seq<char> := "0123456789"

  function LimitText(limit: Option<nat>): string {
    if limit.Some? then " LIMIT " + Digits(limit.value) else ""
  }

  const SELECT := "SELECT * FROM session_events WHERE "
  const ORDER := " ORDER BY sequence ASC"

  function Statement(cs: seq<Condition>, limit: Option<nat>): string {
    SELECT + ConditionTexts(cs) + ORDER + LimitText(limit)
  }

  function Marks(text: string): nat {
    if text == "" then 0 else Marks(text[..|text| - 1]) + (if text[|text| - 1] == '?' then 1 else 0)
  }

  // ---------------------------------------------------------------------
  // The compiler
  // ---------------------------------------------------------------------

  function TypeParams(types: seq<Kind>): (params: seq<Value>)
    ensures |params| == |types| && forall i :: 0 <= i < |types| ==> params[i] == Text(EventTypeTag(types[i]))
  {
    seq(|types|, i requires 0 <= i < |types| => Text(EventTypeTag(types[i])))
  }

  function IdParams(ids: seq<string>): (params: seq<Value>)
    ensures |params| == |ids| && forall i :: 0 <= i < |ids| ==> params[i] == Text(ids[i])
  {
    seq(|ids|, i requires 0 <= i < |ids| => Text(ids[i]))
  }

  /** The conditions `cs` with parameters `params` say that the row satisfies `p`. */
  ghost predicate Says(cs: seq<Condition>, params: seq<Value>, p: Row -> bool) {
    |params| == Placeholders(cs) && forall r :: AllHold(cs, params, r) <==> p(r)
  }

  lemma PlaceholdersPush(cs: seq<Condition>, c: Condition)
    ensures Placeholders(cs + [c]) == Placeholders(cs) + Arity(c)
  {
    assert (cs + [c])[..|cs|] == cs;
  }

  /** Appending one condition at the end of both passes conjoins it. */
  lemma AllHoldPush(cs: seq<Condition>, params: seq<Value>, c: Condition, args: seq<Value>, r: Row)
    requires |params| == Placeholders(cs) && |args| == Arity(c)
    ensures |params + args| == Placeholders(cs + [c])
    ensures AllHold(cs + [c], params + args, r) <==> AllHold(cs, params, r) && Holds(c, args, r)
  {
    PlaceholdersPush(cs, c);
    assert (cs + [c])[..|cs|] == cs;
    assert (params + args)[..|params|] == params && (params + args)[|params|..] == args;
  }

  lemma SaysPush(cs: seq<Condition>, params: seq<Value>, p: Row -> bool, c: Condition, args: seq<Value>, q: Row -> bool)
    requires Says(cs, params, p) && |args| == Arity(c)
    requires forall r :: q(r) <==> p(r) && Holds(c, args, r)
    ensures Says(cs + [c], params + args, q)
  {
    PlaceholdersPush(cs, c);
    forall r ensures AllHold(cs + [c], params + args, r) <==> q(r) { AllHoldPush(cs, params, c, args, r); }
  }

  // The filter, one conjunct at a time

  predicate InItsSession(f: EventFilter, r: Row) { f.session == Some(r.session) }

  predicate InTime(f: EventFilter, r: Row) {
    InItsSession(f, r) && (f.timeRange.Some? ==> f.timeRange.value.0 <= r.createdAt <= f.timeRange.value.1)
  }

  predicate InSequence(f: EventFilter, r: Row) {
    InTime(f, r) && (f.sequenceAfter.Some? ==> r.sequence > f.sequenceAfter.value)
  }

  predicate OfType(f: EventFilter, r: Row) {
    InSequence(f, r) && (f.eventTypes.Some? && f.eventTypes.value != [] ==> r.kind in f.eventTypes.value)
  }

  /** The conditions after each stage of the first pass. */
  datatype Stages = Stages(base: seq<Condition>, time: seq<Condition>, after: seq<Condition>, types: seq<Condition>, all: seq<Condition>)

  function StagesOf(f: EventFilter): Stages {
    var base := [SessionIs];
    var time := if f.timeRange.Some? then base + [CreatedIn] else base;
    var after := if f.sequenceAfter.Some? then time + [SequenceAfter] else time;
    var types := if f.eventTypes.Some? && f.eventTypes.value != [] then after + [TypeIn(|f.eventTypes.value|)] else after;
    var all := if f.eventIds.Some? && f.eventIds.value != [] then types + [IdIn(|f.eventIds.value|)] else types;
    Stages(base, time, after, types, all)
  }

  // What each stage says, once its parameters are bound

  function SessionPart(f: EventFilter): Row -> bool { (r: Row) => InItsSession(f, r) }
  function TimePart(f: EventFilter): Row -> bool { (r: Row) => InTime(f, r) }
  function AfterPart(f: EventFilter): Row -> bool { (r: Row) => InSequence(f, r) }
  function TypePart(f: EventFilter): Row -> bool { (r: Row) => OfType(f, r) }
  function Whole(f: EventFilter): Row -> bool { (r: Row) => Wanted(f, r) }

  lemma SessionSays(f: EventFilter, k: SessionKey)
    requires f.session == Some(k)
    ensures Says(StagesOf(f).base, [Text(k.channel), Text(k.chatId)], SessionPart(f))
  {
    var args := [Text(k.channel), Text(k.chatId)];
    SaysPush([], [], (r: Row) => true, SessionIs, args, SessionPart(f));
    assert [] + [SessionIs] == [SessionIs] && [] + args == args;
  }

  lemma TimeSays(f: EventFilter, params: seq<Value>)
    requires Says(StagesOf(f).base, params, SessionPart(f))
    ensures Says(StagesOf(f).time,
                 if f.timeRange.Some? then params + [Stamp(f.timeRange.value.0), Stamp(f.timeRange.value.1)] else params,
                 TimePart(f))
  {
    if f.timeRange.Some? {
      SaysPush(StagesOf(f).base, params, SessionPart(f),
               CreatedIn, [Stamp(f.timeRange.value.0), Stamp(f.timeRange.value.1)], TimePart(f));
    }
  }

  lemma AfterSays(f: EventFilter, params: seq<Value>)
    requires Says(StagesOf(f).time, params, TimePart(f))
    ensures Says(StagesOf(f).after, if f.sequenceAfter.Some? then params + [Number(f.sequenceAfter.value)] else params, AfterPart(f))
  {
    if f.sequenceAfter.Some? {
      SaysPush(StagesOf(f).time, params, TimePart(f), SequenceAfter, [Number(f.sequenceAfter.value)], AfterPart(f));
    }
  }

  /** An empty list adds no condition and binds nothing. */
  lemma TypesSay(f: EventFilter, params: seq<Value>)
    requires Says(StagesOf(f).after, params, AfterPart(f))
    ensures Says(StagesOf(f).types, if f.eventTypes.Some? then params + TypeParams(f.eventTypes.value) else params, TypePart(f))
  {
    if f.eventTypes.Some? && f.eventTypes.value != [] {
      var types := f.eventTypes.value;
      forall r: Row ensures Text(EventTypeTag(r.kind)) in TypeParams(types) <==> r.kind in types {
        TypeParamsContain(types, r.kind);
      }
      SaysPush(StagesOf(f).after, params, AfterPart(f), TypeIn(|types|), TypeParams(types), TypePart(f));
    } else if f.eventTypes.Some? {
      assert params + TypeParams([]) == params;
    }
  }

  lemma TypeParamsContain(types: seq<Kind>, kind: Kind)
    ensures Text(EventTypeTag(kind)) in TypeParams(types) <==> kind in types
  {
    if kind in types {
      var i :| 0 <= i < |types| && types[i] == kind;
      assert TypeParams(types)[i] == Text(EventTypeTag(kind));
    }
    if Text(EventTypeTag(kind)) in TypeParams(types) {
      var i :| 0 <= i < |types| && TypeParams(types)[i] == Text(EventTypeTag(kind));
      TagsAreDistinct(types[i], kind);
    }
  }

  lemma IdsSay(f: EventFilter, params: seq<Value>)
    requires Says(StagesOf(f).types, params, TypePart(f))
    ensures Says(StagesOf(f).all, if f.eventIds.Some? then params + IdParams(f.eventIds.value) else params, Whole(f))
  {
    if f.eventIds.Some? && f.eventIds.value != [] {
      var ids := f.eventIds.value;
      forall r: Row ensures Text(r.id) in IdParams(ids) <==> r.id in ids {
        if r.id in ids {
          var i :| 0 <= i < |ids| && ids[i] == r.id;
          assert IdParams(ids)[i] == Text(r.id);
        }
      }
      SaysPush(StagesOf(f).types, params, TypePart(f), IdIn(|ids|), IdParams(ids), Whole(f));
    } else if f.eventIds.Some? {
      assert params + IdParams([]) == params;
    }
  }

  lemma {:induction false} TextsPush(cs: seq<Condition>, c: Condition)
    ensures ConditionTexts(cs + [c]) == ConditionTexts(cs) + ConditionText(c)
  {
    if cs == [] {
      OneText(c);
    } else {
      TextsPush(cs[1..], c);
      assert (cs + [c])[1..] == cs[1..] + [c] && (cs + [c])[0] == cs[0];
      Regroup(ConditionText(cs[0]), ConditionTexts(cs[1..]), ConditionText(c));
    }
  }

  lemma OneText(c: Condition)
    ensures ConditionTexts([] + [c]) == "" + ConditionText(c)
  {
    assert [] + [c] == [c] && [c][1..] == [];
    assert ConditionTexts([]) == "";
  }

  lemma Regroup(x: string, y: string, z: string)
    ensures x + y + z == x + (y + z)
  {
  }

  /** `sql` spells the conditions `cs` so far. */
  ghost predicate Spells(sql: string, cs: seq<Condition>) { sql == SELECT + ConditionTexts(cs) }

  lemma SpellsPush(sql: string, cs: seq<Condition>, c: Condition)
    requires Spells(sql, cs)
    ensures Spells(sql + ConditionText(c), cs + [c])
  {
    TextsPush(cs, c);
    Regroup(SELECT, ConditionTexts(cs), ConditionText(c));
  }

  lemma SpellsBase()
    ensures Spells(SELECT + "channel = ? AND chat_id = ?", [SessionIs])
  {
    TextsPush([], SessionIs);
    assert [] + [SessionIs] == [SessionIs];
    assert "" + ConditionText(SessionIs) == ConditionText(SessionIs);
  }

  lemma StatementOf(sql: string, cs: seq<Condition>, limit: Option<nat>)
    requires Spells(sql, cs)
    ensures Statement(cs, limit) == sql + ORDER + LimitText(limit)
    ensures limit.None? ==> Statement(cs, limit) == sql + ORDER
  {
    assert sql + ORDER + "" == sql + ORDER;
  }

  /** First pass: the text of the statement. */
  method BuildStatement(f: EventFilter) returns (sql: string)
    ensures sql == Statement(StagesOf(f).all, f.limit)
  {
    ghost var cs := StagesOf(f);
    sql := SELECT + "channel = ? AND chat_id = ?";
    SpellsBase();
    if f.timeRange.Some? {
      SpellsPush(sql, cs.base, CreatedIn);
      sql := sql + " AND created_at >= ? AND created_at <= ?";
    }
    assert Spells(sql, cs.time);
    if f.sequenceAfter.Some? {
      SpellsPush(sql, cs.time, SequenceAfter);
      sql := sql + " AND sequence > ?";
    }
    assert Spells(sql, cs.after);
    if f.eventTypes.Some? && f.eventTypes.value != [] {
      SpellsPush(sql, cs.after, TypeIn(|f.eventTypes.value|));
      sql := sql + (" AND event_type IN (" + Questions(|f.eventTypes.value|) + ")");
    }
    assert Spells(sql, cs.types);
    if f.eventIds.Some? && f.eventIds.value != [] {
      SpellsPush(sql, cs.types, IdIn(|f.eventIds.value|));
      sql := sql + (" AND id IN (" + Questions(|f.eventIds.value|) + ")");
    }
    StatementOf(sql, cs.all, f.limit);
    sql := sql + ORDER;
    if f.limit.Some? {
      sql := sql + (" LIMIT " + Digits(f.limit.value));
    }
  }

  /** Second pass: the parameters, which must line up with the first. */
  method BindParameters(f: EventFilter, k: SessionKey) returns (params: seq<Value>)
    requires f.session == Some(k)
    ensures Says(StagesOf(f).all, params, Whole(f))
  {
    params := [Text(k.channel), Text(k.chatId)];
    SessionSays(f, k);
    TimeSays(f, params);
    if f.timeRange.Some? {
      params := params + [Stamp(f.timeRange.value.0), Stamp(f.timeRange.value.1)];
    }
    AfterSays(f, params);
    if f.sequenceAfter.Some? {
      params := params + [Number(f.sequenceAfter.value)];
    }
    TypesSay(f, params);
    if f.eventTypes.Some? {
      params := params + TypeParams(f.eventTypes.value);
    }
    IdsSay(f, params);
    if f.eventIds.Some? {
      params := params + IdParams(f.eventIds.value);
    }
  }

  // ---------------------------------------------------------------------
  // Placeholders in the text
  // ---------------------------------------------------------------------

  lemma {:induction false} MarksAppend(a: string, b: string)
    ensures Marks(a + b) == Marks(a) + Marks(b)
  {
    if b == "" {
      assert a + b == a;
    } else {
      assert (a + b)[..|a + b| - 1] == a + b[..|b| - 1];
      MarksAppend(a, b[..|b| - 1]);
    }
  }

  lemma MarksAppend4(a: string, b: string, c: string, d: string)
    ensures Marks(a + b + c + d) == Marks(a) + Marks(b) + Marks(c) + Marks(d)
  {
    MarksAppend(a, b);
    MarksAppend(a + b, c);
    MarksAppend(a + b + c, d);
  }

  lemma {:induction false} NoMarks(text: string)
    requires '?' !in text
    ensures Marks(text) == 0
  {
    if text != "" { NoMarks(text[..|text| - 1]); }
  }

  lemma {:induction false} QuestionsMarks(n: nat)
    ensures Marks(Questions(n)) == n
  {
    if n == 1 {
      assert "?"[..0] == "";
    } else if n > 1 {
      QuestionsMarks(n - 1);
      MarksAppend(Questions(n - 1), ",?");
      MarksAppend(",", "?");
      NoMarks(",");
      assert "," + "?" == ",?" && "?"[..0] == "";
    }
  }

  lemma {:induction false} DigitsMarks(n: nat)
    ensures Marks(Digits(n)) == 0
  {
    if n >= 10 {
      DigitsMarks(n / 10);
      MarksAppend(Digits(n / 10), [DIGITS[n % 10]]);
    }
    NoMarks([DIGITS[n % 10]]);
  }

  lemma EndMark(text: string)
    requires '?' !in text
    ensures Marks(text + "?") == 1
  {
    NoMarks(text);
    assert (text + "?")[..|text|] == text;
  }

  lemma TwoMarks(a: string, b: string)
    requires '?' !in a && '?' !in b
    ensures Marks(a + "?" + b + "?") == 2
  {
    EndMark(a);
    EndMark(b);
    MarksAppend(a + "?", b + "?");
    assert a + "?" + b + "?" == (a + "?") + (b + "?");
  }

  lemma ListMarks(open: string, n: nat)
    requires '?' !in open
    ensures Marks(open + Questions(n) + ")") == n
  {
    NoMarks(open);
    QuestionsMarks(n);
    MarksAppend(open, Questions(n));
    MarksAppend(open + Questions(n), ")");
    NoMarks(")");
  }

  lemma SessionMarks()
    ensures Marks(ConditionText(SessionIs)) == 2
  {
    TwoMarks("channel = ", " AND chat_id = ");
    assert ConditionText(SessionIs) == "channel = " + "?" + " AND chat_id = " + "?";
  }

  lemma CreatedMarks()
    ensures Marks(ConditionText(CreatedIn)) == 2
  {
    TwoMarks(" AND created_at >= ", " AND created_at <= ");
    assert ConditionText(CreatedIn) == " AND created_at >= " + "?" + " AND created_at <= " + "?";
  }

  lemma ConditionMarks(c: Condition)
    ensures Marks(ConditionText(c)) == Arity(c)
  {
    match c
    case SessionIs => SessionMarks();
    case CreatedIn => CreatedMarks();
    case SequenceAfter => EndMark(" AND sequence > "); assert ConditionText(c) == " AND sequence > " + "?";
    case TypeIn(n) => ListMarks(" AND event_type IN (", n);
    case IdIn(n) => ListMarks(" AND id IN (", n);
  }

  lemma {:induction false} PlaceholdersSplit(cs: seq<Condition>)
    requires cs != []
    ensures Placeholders(cs) == Arity(cs[0]) + Placeholders(cs[1..])
  {
    if |cs| > 1 {
      var front := cs[..|cs| - 1];
      PlaceholdersSplit(front);
      assert cs[1..][..|cs| - 2] == front[1..];
    }
  }

  lemma {:induction false} ConditionsMarks(cs: seq<Condition>)
    ensures Marks(ConditionTexts(cs)) == Placeholders(cs)
  {
    if cs != [] {
      ConditionsMarks(cs[1..]);
      ConditionMarks(cs[0]);
      MarksAppend(ConditionText(cs[0]), ConditionTexts(cs[1..]));
      PlaceholdersSplit(cs);
    }
  }

  lemma LimitMarks(limit: Option<nat>)
    ensures Marks(LimitText(limit)) == 0
  {
    if limit.Some? {
      NoMarks(" LIMIT ");
      DigitsMarks(limit.value);
      MarksAppend(" LIMIT ", Digits(limit.value));
    }
  }

  lemma FrameMarks()
    ensures Marks(SELECT) == 0 && Marks(ORDER) == 0
  {
    NoMarks(SELECT);
    NoMarks(ORDER);
  }

  lemma StatementMarks(cs: seq<Condition>, limit: Option<nat>)
    ensures Marks(Statement(cs, limit)) == Placeholders(cs)
  {
    FrameMarks();
    ConditionsMarks(cs);
    LimitMarks(limit);
    MarksAppend4(SELECT, ConditionTexts(cs), ORDER, LimitText(limit));
  }

  // ---------------------------------------------------------------------
  // The text, clause by clause
  // ---------------------------------------------------------------------

  /** A clause of a WHERE: a column compared with a parameter, or looked up among several. */
  datatype Clause = Compare(column: string, op: string) | Among(column: string, n: nat)

  function ClauseText(c: Clause): string {
    match c
    case Compare(column, op) => column + " " + op + " ?"
    case Among(column, n) => column + " IN (" + Questions(n) + ")"
  }

  function Column(r: Row, name: string): Value {
    match name
    case "channel" => Text(r.session.channel)
    case "chat_id" => Text(r.session.chatId)
    case "created_at" => Stamp(r.createdAt)
    case "sequence" => Number(r.sequence)
    case "event_type" => Text(EventTypeTag(r.kind))
    case _ => Text(r.id)
  }

  predicate Less(a: Value, b: Value) {
    (a.Stamp? && b.Stamp? && a.t < b.t) || (a.Number? && b.Number? && a.i < b.i)
  }

  predicate Compares(a: Value, op: string, b: Value) {
    match op
    case "=" => a == b
    case ">" => Less(b, a)
    case ">=" => Less(b, a) || a == b
    case "<=" => Less(a, b) || a == b
    case _ => false
  }

  /** What SQL says a clause means, from the names of its column and operator. */
  predicate ClauseHolds(c: Clause, args: seq<Value>, r: Row) {
    match c
    case Compare(column, op) => |args| == 1 && Compares(Column(r, column), op, args[0])
    case Among(column, n) => |args| == n && Column(r, column) in args
  }

  lemma SessionText()
    ensures ConditionText(SessionIs) == ClauseText(Compare("channel", "=")) + " AND " + ClauseText(Compare("chat_id", "="))
  {
    assert ClauseText(Compare("channel", "=")) == "channel = ?" && ClauseText(Compare("chat_id", "=")) == "chat_id = ?";
  }

  lemma SessionMeaning(a: Value, b: Value, r: Row)
    ensures Holds(SessionIs, [a, b], r) <==>
            ClauseHolds(Compare("channel", "="), [a], r) && ClauseHolds(Compare("chat_id", "="), [b], r)
  {
  }

  lemma SessionClauses(args: seq<Value>, r: Row)
    requires |args| == 2
    ensures ConditionText(SessionIs) == ClauseText(Compare("channel", "=")) + " AND " + ClauseText(Compare("chat_id", "="))
    ensures Holds(SessionIs, args, r) <==>
            ClauseHolds(Compare("channel", "="), args[..1], r) && ClauseHolds(Compare("chat_id", "="), args[1..], r)
  {
    SessionText();
    SessionMeaning(args[0], args[1], r);
    assert args == [args[0], args[1]] && args[..1] == [args[0]] && args[1..] == [args[1]];
  }

  lemma CreatedText()
    ensures ConditionText(CreatedIn) ==
            " AND " + ClauseText(Compare("created_at", ">=")) + " AND " + ClauseText(Compare("created_at", "<="))
  {
    assert " AND created_at >= ? AND created_at <= ?" == " AND " + "created_at >= ?" + " AND " + "created_at <= ?";
    assert ClauseText(Compare("created_at", ">=")) == "created_at >= ?";
    assert ClauseText(Compare("created_at", "<=")) == "created_at <= ?";
  }

  lemma CreatedMeaning(a: Value, b: Value, r: Row)
    ensures Holds(CreatedIn, [a, b], r) <==>
            ClauseHolds(Compare("created_at", ">="), [a], r) && ClauseHolds(Compare("created_at", "<="), [b], r)
  {
  }

  lemma CreatedClauses(args: seq<Value>, r: Row)
    requires |args| == 2
    ensures ConditionText(CreatedIn) ==
            " AND " + ClauseText(Compare("created_at", ">=")) + " AND " + ClauseText(Compare("created_at", "<="))
    ensures Holds(CreatedIn, args, r) <==>
            ClauseHolds(Compare("created_at", ">="), args[..1], r) && ClauseHolds(Compare("created_at", "<="), args[1..], r)
  {
    CreatedText();
    CreatedMeaning(args[0], args[1], r);
    assert args == [args[0], args[1]] && args[..1] == [args[0]] && args[1..] == [args[1]];
  }

  lemma SequenceClause(args: seq<Value>, r: Row)
    requires |args| == 1
    ensures ConditionText(SequenceAfter) == " AND " + ClauseText(Compare("sequence", ">"))
    ensures Holds(SequenceAfter, args, r) <==> ClauseHolds(Compare("sequence", ">"), args, r)
  {
  }

  lemma ListText(open: string, list: string, column: string)
    requires open == " AND " + (column + " IN (")
    ensures open + list + ")" == " AND " + (column + " IN (" + list + ")")
  {
  }

  lemma TypesClause(n: nat, args: seq<Value>, r: Row)
    requires |args| == n
    ensures ConditionText(TypeIn(n)) == " AND " + ClauseText(Among("event_type", n))
    ensures Holds(TypeIn(n), args, r) <==> ClauseHolds(Among("event_type", n), args, r)
  {
    ListText(" AND event_type IN (", Questions(n), "event_type");
  }

  lemma IdsClause(n: nat, args: seq<Value>, r: Row)
    requires |args| == n
    ensures ConditionText(IdIn(n)) == " AND " + ClauseText(Among("id", n))
    ensures Holds(IdIn(n), args, r) <==> ClauseHolds(Among("id", n), args, r)
  {
    ListText(" AND id IN (", Questions(n), "id");
  }

  function OrderText(column: string, direction: string): string { " ORDER BY " + column + " " + direction }

  /** What SQL says an ordering means. */
  function OrderedBy(column: string, direction: string, rows: seq<Row>): seq<Row> {
    if direction == "ASC" then Sorting.Sort((x: Row, y: Row) => Less(Column(x, column), Column(y, column)), rows)
    else Sorting.Sort((x: Row, y: Row) => Less(Column(y, column), Column(x, column)), rows)
  }

  lemma OrderClause(rows: seq<Row>)
    ensures ORDER == OrderText("sequence", "ASC") && OrderBySequence(rows) == OrderedBy("sequence", "ASC", rows)
  {
    Sorting.SameSort(Earlier, (x: Row, y: Row) => Less(Column(x, "sequence"), Column(y, "sequence")), rows);
  }

  // ---------------------------------------------------------------------
  // Reading the text back
  // ---------------------------------------------------------------------

  function DigitValue(c: char): nat {
    if '0' <= c <= '9' then (c - '0') as nat else 0
  }

  function ReadNumber(text: string): nat {
    if text == "" then 0 else 10 * ReadNumber(text[..|text| - 1]) + DigitValue(text[|text| - 1])
  }

  lemma DigitReadsBack(d: nat)
    requires d < 10
    ensures DigitValue(DIGITS[d]) == d
  {
  }

  /** A limit is spelled so that it can be read back. */
  lemma {:induction false} DigitsReadBack(n: nat)
    ensures ReadNumber(Digits(n)) == n
  {
    DigitReadsBack(n % 10);
    if n < 10 {
      assert [DIGITS[n]][..0] == "";
    } else {
      DigitsReadBack(n / 10);
      ReadNumberPush(Digits(n / 10), DIGITS[n % 10]);
    }
  }

  lemma ReadNumberPush(text: string, c: char)
    ensures ReadNumber(text + [c]) == 10 * ReadNumber(text) + DigitValue(c)
  {
    assert (text + [c])[..|text|] == text;
  }

  lemma {:induction false} QuestionsShape(n: nat)
    ensures |Questions(n)| == if n == 0 then 0 else 2 * n - 1
    ensures ')' !in Questions(n)
  {
    if n > 1 { QuestionsShape(n - 1); }
  }

  lemma BracketCloses(n: nat, rest: string)
    ensures var x := Questions(n) + ")" + rest;
            |Questions(n)| < |x| && x[|Questions(n)|] == ')' && forall i :: 0 <= i < |Questions(n)| ==> x[i] != ')'
  {
    QuestionsShape(n);
  }

  /** The closing bracket tells how many placeholders a list has. */
  lemma ListReadsBack(m: nat, n: nat, a: string, b: string)
    requires Questions(m) + ")" + a == Questions(n) + ")" + b
    ensures m == n
  {
    QuestionsShape(m);
    QuestionsShape(n);
    BracketCloses(m, a);
    BracketCloses(n, b);
  }

  // A few characters tell conditions apart.

  /** What follows `AND `. */
  function Initial(c: Condition): char {
    match c
    case SessionIs => 'e'
    case CreatedIn => 'c'
    case SequenceAfter => 's'
    case TypeIn(_) => 'e'
    case IdIn(_) => 'i'
  }

  lemma ListInitial(open: string, n: nat)
    requires |open| > 5
    ensures var text := open + Questions(n) + ")"; |text| > 5 && text[0] == open[0] && text[1] == open[1] && text[5] == open[5]
  {
  }

  ghost predicate StartsAs(c: Condition, text: string) {
    && |text| > 5 && (text[0] == if c.SessionIs? then 'c' else ' ') && (text[1] == 'A' <==> !c.SessionIs?)
    && text[1] != 'O' && text[5] == Initial(c)
  }

  lemma SessionStarts()
    ensures StartsAs(SessionIs, ConditionText(SessionIs))
  {
  }

  lemma PlainStarts()
    ensures StartsAs(CreatedIn, ConditionText(CreatedIn)) && StartsAs(SequenceAfter, ConditionText(SequenceAfter))
  {
  }

  lemma Initials(c: Condition)
    ensures StartsAs(c, ConditionText(c))
  {
    match c
    case SessionIs => SessionStarts();
    case TypeIn(n) => ListInitial(" AND event_type IN (", n);
    case IdIn(n) => ListInitial(" AND id IN (", n);
    case _ => PlainStarts();
  }

  lemma CutFront(front: string, a: string, b: string)
    requires front + a == front + b
    ensures a == b
  {
    assert (front + a)[|front|..] == a && (front + b)[|front|..] == b;
  }

  lemma OpenedListReadsBack(open: string, m: nat, n: nat, a: string, b: string)
    requires open + Questions(m) + ")" + a == open + Questions(n) + ")" + b
    ensures m == n
  {
    assert open + Questions(m) + ")" + a == open + (Questions(m) + ")" + a);
    assert open + Questions(n) + ")" + b == open + (Questions(n) + ")" + b);
    CutFront(open, Questions(m) + ")" + a, Questions(n) + ")" + b);
    ListReadsBack(m, n, a, b);
  }

  lemma SameCondition(c: Condition, d: Condition, a: string, b: string)
    requires ConditionText(c) + a == ConditionText(d) + b
    ensures c == d && a == b
  {
    SameKind(c, d, a, b);
    if c.TypeIn? { OpenedListReadsBack(" AND event_type IN (", c.n, d.n, a, b); }
    if c.IdIn? { OpenedListReadsBack(" AND id IN (", c.n, d.n, a, b); }
    CutFront(ConditionText(c), a, b);
  }

  lemma SameKind(c: Condition, d: Condition, a: string, b: string)
    requires ConditionText(c) + a == ConditionText(d) + b
    ensures c.SessionIs? == d.SessionIs? && Initial(c) == Initial(d)
    ensures c.TypeIn? == d.TypeIn? && c.IdIn? == d.IdIn? && (!c.TypeIn? && !c.IdIn? ==> c == d)
  {
    Initials(c);
    Initials(d);
    var x, y := ConditionText(c) + a, ConditionText(d) + b;
    assert x[0] == ConditionText(c)[0] && y[0] == ConditionText(d)[0];
    assert x[5] == ConditionText(c)[5] && y[5] == ConditionText(d)[5];
  }

  lemma NotTheEnd(c: Condition, a: string, b: string)
    ensures ConditionText(c) + a != ORDER + b
  {
    Initials(c);
    assert (ConditionText(c) + a)[1] == ConditionText(c)[1] && (ORDER + b)[1] == ORDER[1] == 'O';
  }

  lemma {:induction false} ConditionsReadBack(cs: seq<Condition>, ds: seq<Condition>, a: string, b: string)
    requires ConditionTexts(cs) + (ORDER + a) == ConditionTexts(ds) + (ORDER + b)
    ensures cs == ds && a == b
    decreases |cs|
  {
    if cs != [] && ds != [] {
      var restC, restD := ConditionTexts(cs[1..]) + (ORDER + a), ConditionTexts(ds[1..]) + (ORDER + b);
      Regroup(ConditionText(cs[0]), ConditionTexts(cs[1..]), ORDER + a);
      Regroup(ConditionText(ds[0]), ConditionTexts(ds[1..]), ORDER + b);
      SameCondition(cs[0], ds[0], restC, restD);
      ConditionsReadBack(cs[1..], ds[1..], a, b);
    } else {
      EndsTogether(cs, ds, a, b);
      assert "" + (ORDER + a) == ORDER + a && "" + (ORDER + b) == ORDER + b;
      CutFront(ORDER, a, b);
    }
  }

  lemma MoreToCome(cs: seq<Condition>, a: string, b: string)
    requires cs != []
    ensures ConditionTexts(cs) + (ORDER + a) != ORDER + b
  {
    Regroup(ConditionText(cs[0]), ConditionTexts(cs[1..]), ORDER + a);
    NotTheEnd(cs[0], ConditionTexts(cs[1..]) + (ORDER + a), b);
  }

  lemma EndsTogether(cs: seq<Condition>, ds: seq<Condition>, a: string, b: string)
    requires ConditionTexts(cs) + (ORDER + a) == ConditionTexts(ds) + (ORDER + b)
    requires cs == [] || ds == []
    ensures cs == [] && ds == []
  {
    NothingBefore(a);
    NothingBefore(b);
    if cs != [] { MoreToCome(cs, a, b); }
    if ds != [] { MoreToCome(ds, b, a); }
  }

  lemma NothingBefore(a: string)
    ensures ConditionTexts([]) + (ORDER + a) == ORDER + a
  {
  }

  lemma LimitReadsBack(m: Option<nat>, n: Option<nat>)
    requires LimitText(m) == LimitText(n)
    ensures m == n
  {
    if m.Some? && n.Some? {
      CutFront(" LIMIT ", Digits(m.value), Digits(n.value));
      DigitsReadBack(m.value);
      DigitsReadBack(n.value);
    }
  }

  lemma Regroup4(w: string, x: string, y: string, z: string)
    ensures w + x + y + z == w + (x + (y + z))
  {
  }

  /** The text of a statement determines its conditions and its limit. */
  lemma StatementReadsBack(cs: seq<Condition>, limit: Option<nat>, ds: seq<Condition>, other: Option<nat>)
    requires Statement(cs, limit) == Statement(ds, other)
    ensures cs == ds && limit == other
  {
    Regroup4(SELECT, ConditionTexts(cs), ORDER, LimitText(limit));
    Regroup4(SELECT, ConditionTexts(ds), ORDER, LimitText(other));
    CutFront(SELECT, ConditionTexts(cs) + (ORDER + LimitText(limit)), ConditionTexts(ds) + (ORDER + LimitText(other)));
    ConditionsReadBack(cs, ds, LimitText(limit), LimitText(other));
    LimitReadsBack(limit, other);
  }

  ghost predicate IsStatement(sql: string, cs: seq<Condition>, limit: Option<nat>) { sql == Statement(cs, limit) }

  /** Running a text: what it evaluates to if it spells a statement. */
  ghost function EvaluateText(sql: string, params: seq<Value>, rows: seq<Row>): Option<seq<Row>> {
    if exists cs, limit :: IsStatement(sql, cs, limit) then
      var cs, limit :| IsStatement(sql, cs, limit);
      Evaluate(cs, limit, params, rows)
    else None
  }

  /** There is one way to read a statement. */
  lemma EvaluateTextReads(cs: seq<Condition>, limit: Option<nat>, params: seq<Value>, rows: seq<Row>)
    ensures EvaluateText(Statement(cs, limit), params, rows) == Evaluate(cs, limit, params, rows)
  {
    var sql := Statement(cs, limit);
    assert IsStatement(sql, cs, limit);
    forall ds, other | IsStatement(sql, ds, other) ensures ds == cs && other == limit {
      StatementReadsBack(cs, limit, ds, other);
    }
  }

  // ---------------------------------------------------------------------
  // The meaning, row by row
  // ---------------------------------------------------------------------

  /** The limit keeps the first rows, as many as it says or all there are. */
  lemma LimitKeepsTheFirst(rows: seq<Row>, limit: nat)
    ensures Limited(rows, None) == rows
    ensures |Limited(rows, Some(limit))| == (if limit <= |rows| then limit else |rows|)
    ensures Limited(rows, Some(limit)) <= rows
  {
  }

  /** Without a limit, a filter returns in sequence order the rows that meet every condition it gives. */
  lemma MeaningByMember(f: EventFilter, rows: seq<Row>, r: Row)
    requires f.limit == None
    ensures NonDecreasing(Meaning(f, rows))
    ensures r in Meaning(f, rows) <==>
            && r in rows
            && f.session == Some(r.session)
            && (f.timeRange == None || f.timeRange.value.0 <= r.createdAt <= f.timeRange.value.1)
            && (f.sequenceAfter == None || r.sequence > f.sequenceAfter.value)
            && (f.eventTypes == None || f.eventTypes.value == [] || r.kind in f.eventTypes.value)
            && (f.eventIds == None || f.eventIds.value == [] || r.id in f.eventIds.value)
  {
    var selected := Select(rows, (x: Row) => Wanted(f, x));
    SelectMembers(rows, (x: Row) => Wanted(f, x), r);
    OrderSorts(selected);
    assert r in multiset(OrderBySequence(selected)) <==> r in multiset(selected);
  }

  // ---------------------------------------------------------------------
  // The compiler is correct
  // ---------------------------------------------------------------------

  lemma EvaluatesToMeaning(f: EventFilter, cs: seq<Condition>, params: seq<Value>, rows: seq<Row>)
    requires Says(cs, params, Whole(f))
    ensures Evaluate(cs, f.limit, params, rows) == Some(Meaning(f, rows))
  {
    SelectSame(rows, (r: Row) => AllHold(cs, params, r), (r: Row) => Wanted(f, r));
  }

  lemma {:induction false} NoSessionSelectsNothing(f: EventFilter, rows: seq<Row>)
    requires f.session.None?
    ensures Meaning(f, rows) == []
  {
    SelectNone(rows, (r: Row) => Wanted(f, r));
  }

  /**
   * For every filter and every table: the statement has one placeholder for
   * each bound parameter, and evaluating its text gives what the filter means.
   */
  method QueryEvents(f: EventFilter, rows: seq<Row>) returns (sql: string, params: seq<Value>, found: seq<Row>)
    ensures found == Meaning(f, rows)
    ensures f.session.Some? ==> sql == Statement(StagesOf(f).all, f.limit) && Marks(sql) == |params|
    ensures f.session.Some? ==> EvaluateText(sql, params, rows) == Some(found)
  {
    if f.session.None? {
      NoSessionSelectsNothing(f, rows);
      return "", [], [];
    }
    sql := BuildStatement(f);
    params := BindParameters(f, f.session.value);
    StatementMarks(StagesOf(f).all, f.limit);
    EvaluatesToMeaning(f, StagesOf(f).all, params, rows);
    EvaluateTextReads(StagesOf(f).all, f.limit, params, rows);
    found := Evaluate(StagesOf(f).all, f.limit, params, rows).value;
  }
}
