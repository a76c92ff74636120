// Rewriting a conversation for a provider without system messages:
// convert, merge, sanitize.

module Normalizer {
  import opened Wrappers

  datatype Role = System | User | Assistant | Tool

  datatype ToolCall = ToolCall(id: string, name: string, arguments: string)

  datatype Message = Message(
    role: Role,
    content: Option<string>,
    toolCalls: Option<seq<ToolCall>>,
    toolCallId: Option<string>,
    name: Option<string>,
    reasoning: Option<string>)

  const SEPARATOR := "\n\n"

  function UserMessage(text: string): Message { Message(User, Some(text), None, None, None, None) }

  function Join(parts: seq<string>): string {
    if |parts| == 0 then ""
    else if |parts| == 1 then parts[0]
    else Join(parts[..|parts| - 1]) + SEPARATOR + parts[|parts| - 1]
  }

  // ---------------------------------------------------------------------
  // The three passes, as specifications
  // ---------------------------------------------------------------------

  function Present(m: Message): seq<string> { if m.content.Some? then [m.content.value] else [] }

  /** The present contents, in order. */
  function Texts(ms: seq<Message>): seq<string> {
    if ms == [] then [] else Texts(ms[..|ms| - 1]) + Present(ms[|ms| - 1])
  }

  function Systems(ms: seq<Message>): seq<Message> {
    if ms == [] then []
    else Systems(ms[..|ms| - 1]) + (if ms[|ms| - 1].role.System? then [ms[|ms| - 1]] else [])
  }

  function Others(ms: seq<Message>): seq<Message> {
    if ms == [] then []
    else Others(ms[..|ms| - 1]) + (if ms[|ms| - 1].role.System? then [] else [ms[|ms| - 1]])
  }

  predicate Eligible(m: Message) { m.role.User? && m.toolCallId.None? }

  /** Index of the first user message that is not a tool response, or the length. */
  function FirstEligible(ms: seq<Message>): (k: nat)
    ensures k <= |ms|
    ensures k < |ms| ==> Eligible(ms[k])
    ensures forall i :: 0 <= i < k ==> !Eligible(ms[i])
  {
    if ms == [] then 0
    else if Eligible(ms[0]) then 0
    else 1 + FirstEligible(ms[1..])
  }

  function Prefixed(text: string, m: Message): Message {
    m.(content := Some(if m.content.Some? then text + SEPARATOR + m.content.value else text))
  }

  function Converted(ms: seq<Message>): seq<Message> {
    var parts, rest := Texts(Systems(ms)), Others(ms);
    if parts == [] then rest
    else
      var k := FirstEligible(rest);
      if k < |rest| then rest[k := Prefixed(Join(parts), rest[k])]
      else [UserMessage(Join(parts))] + rest
  }

  predicate Mergeable(last: Message, msg: Message) {
    && last.role == msg.role
    && !msg.role.Tool?
    && !(msg.role.Assistant? && (msg.toolCalls.Some? || last.toolCalls.Some?))
  }

  function Absorb(last: Message, msg: Message): Message {
    match (last.content, msg.content)
    case (Some(a), Some(b)) => last.(content := Some(a + SEPARATOR + b))
    case (None, Some(b)) => last.(content := Some(b))
    case (_, None) => last
  }

  function Push(merged: seq<Message>, msg: Message): seq<Message> {
    if merged != [] && Mergeable(merged[|merged| - 1], msg)
    then merged[|merged| - 1 := Absorb(merged[|merged| - 1], msg)]
    else merged + [msg]
  }

  function Merged(ms: seq<Message>): seq<Message> {
    if ms == [] then [] else Push(Merged(ms[..|ms| - 1]), ms[|ms| - 1])
  }

  function Sanitized(m: Message): Message {
    var m := m.(reasoning := None);
    var m := if m.role.Tool? then m.(name := None) else m;
    if m.role.Assistant? && m.toolCalls.Some? && m.content.None? then m.(content := Some("")) else m
  }

  function SanitizedAll(ms: seq<Message>): (r: seq<Message>)
    ensures |r| == |ms| && forall i :: 0 <= i < |ms| ==> r[i] == Sanitized(ms[i])
  {
    seq(|ms|, i requires 0 <= i < |ms| => Sanitized(ms[i]))
  }

  function Normalized(ms: seq<Message>): seq<Message> { SanitizedAll(Merged(Converted(ms))) }

  // ---------------------------------------------------------------------
  // The passes
  // ---------------------------------------------------------------------

  // The specifications read the conversation from its end; these lemmas
  // say what one more message does.

  lemma FiltersPush(ms: seq<Message>, m: Message)
    ensures Systems(ms + [m]) == if m.role.System? then Systems(ms) + [m] else Systems(ms)
    ensures Others(ms + [m]) == if m.role.System? then Others(ms) else Others(ms) + [m]
  {
    assert (ms + [m])[..|ms|] == ms;
  }

  lemma TextsPush(ms: seq<Message>, m: Message)
    ensures Texts(ms + [m]) == Texts(ms) + Present(m)
  {
    assert (ms + [m])[..|ms|] == ms;
  }

  lemma MergedPush(ms: seq<Message>, m: Message)
    ensures Merged(ms + [m]) == Push(Merged(ms), m)
  {
    assert (ms + [m])[..|ms|] == ms;
  }

  /** First pass: the system texts and the other messages, each in order. */
  method SetAside(messages: seq<Message>) returns (systemParts: seq<string>, result: seq<Message>)
    ensures systemParts == Texts(Systems(messages)) && result == Others(messages)
  {
    systemParts, result := [], [];
    for i := 0 to |messages|
      invariant systemParts == Texts(Systems(messages[..i])) && result == Others(messages[..i])
    {
      var msg := messages[i];
      assert messages[..i + 1] == messages[..i] + [msg];
      FiltersPush(messages[..i], msg);
      if msg.role.System? {
        TextsPush(Systems(messages[..i]), msg);
        if msg.content.Some? {
          systemParts := systemParts + [msg.content.value];
        }
      } else {
        result := result + [msg];
      }
    }
    assert messages[..|messages|] == messages;
  }

  method FindEligible(messages: seq<Message>) returns (k: nat)
    ensures k == FirstEligible(messages)
  {
    k := 0;
    while k < |messages| && !Eligible(messages[k])
      invariant k <= |messages| && forall i :: 0 <= i < k ==> !Eligible(messages[i])
    {
      k := k + 1;
    }
  }

  method ConvertSystemMessages(messages: seq<Message>) returns (result: seq<Message>)
    ensures result == Converted(messages)
  {
    var systemParts;
    systemParts, result := SetAside(messages);
    if systemParts != [] {
      var text := Join(systemParts);
      var k := FindEligible(result);
      if k < |result| {
        var first := result[k];
        result := result[k := first.(content := Some(if first.content.Some? then text + SEPARATOR + first.content.value else text))];
      } else {
        result := [UserMessage(text)] + result;
      }
    }
  }

  method MergeConsecutiveMessages(messages: seq<Message>) returns (merged: seq<Message>)
    ensures merged == Merged(messages)
  {
    merged := [];
    for i := 0 to |messages|
      invariant merged == Merged(messages[..i])
    {
      var msg := messages[i];
      assert messages[..i + 1] == messages[..i] + [msg];
      MergedPush(messages[..i], msg);
      if merged != [] {
        var n := |merged| - 1;
        var last := merged[n];
        if last.role == msg.role && !msg.role.Tool? {
          if msg.role.Assistant? && (msg.toolCalls.Some? || last.toolCalls.Some?) {
            merged := merged + [msg];
            continue;
          }
          match (last.content, msg.content) {
            case (Some(a), Some(b)) => merged := merged[n := last.(content := Some(a + SEPARATOR + b))];
            case (None, Some(b)) => merged := merged[n := last.(content := Some(b))];
            case (_, None) =>
          }
          continue;
        }
      }
      merged := merged + [msg];
    }
    assert messages[..|messages|] == messages;
  }

  method NormalizeMessages(messages: seq<Message>) returns (result: seq<Message>)
    ensures result == Normalized(messages)
    ensures NormalForm(result)
  {
    result := ConvertSystemMessages(messages);
    result := MergeConsecutiveMessages(result);
    result := SanitizedAll(result);
    NormalizedIsNormal(messages);
  }

  // ---------------------------------------------------------------------
  // Normal form and idempotence
  // ---------------------------------------------------------------------

  ghost predicate NoSystem(ms: seq<Message>) { forall i :: 0 <= i < |ms| ==> !ms[i].role.System? }

  ghost predicate NothingToMerge(ms: seq<Message>) {
    forall i, j :: 0 <= i < |ms| && j == i + 1 && j < |ms| ==> !Mergeable(ms[i], ms[j])
  }

  ghost predicate NormalForm(ms: seq<Message>) {
    && NoSystem(ms)
    && NothingToMerge(ms)
    && (forall i :: 0 <= i < |ms| ==> Sanitized(ms[i]) == ms[i])
  }

  lemma {:induction false} OthersHaveNoSystem(ms: seq<Message>)
    ensures NoSystem(Others(ms))
  {
    if ms != [] { OthersHaveNoSystem(ms[..|ms| - 1]); }
  }

  lemma {:induction false} MergedIsMerged(ms: seq<Message>)
    ensures NothingToMerge(Merged(ms))
    ensures NoSystem(ms) ==> NoSystem(Merged(ms))
  {
    if ms != [] {
      MergedIsMerged(ms[..|ms| - 1]);
    }
  }

  lemma {:induction false} MergedLeavesAlone(ms: seq<Message>)
    requires NothingToMerge(ms)
    ensures Merged(ms) == ms
  {
    if ms != [] {
      var n := |ms| - 1;
      MergedLeavesAlone(ms[..n]);
      assert ms[..n] + [ms[n]] == ms;
      if n > 0 { assert !Mergeable(ms[n - 1], ms[n]); }
    }
  }

  lemma {:induction false} NoSystemsToConvert(ms: seq<Message>)
    requires NoSystem(ms)
    ensures Systems(ms) == [] && Others(ms) == ms
  {
    if ms != [] {
      var n := |ms| - 1;
      NoSystemsToConvert(ms[..n]);
      assert ms[..n] + [ms[n]] == ms;
    }
  }

  lemma ConvertedHasNoSystem(ms: seq<Message>)
    ensures NoSystem(Converted(ms))
  {
    OthersHaveNoSystem(ms);
  }

  lemma NormalizedIsNormal(ms: seq<Message>)
    ensures NormalForm(Normalized(ms))
  {
    ConvertedHasNoSystem(ms);
    MergedIsMerged(Converted(ms));
    var merged := Merged(Converted(ms));
    forall i, j | 0 <= i < |merged| && j == i + 1 && j < |merged|
      ensures !Mergeable(Normalized(ms)[i], Normalized(ms)[j])
    {
      assert !Mergeable(merged[i], merged[j]);
    }
  }

  /** A conversation is left alone exactly when it is in normal form. */
  lemma FixedExactlyInNormalForm(ms: seq<Message>)
    ensures Normalized(ms) == ms <==> NormalForm(ms)
  {
    NormalizedIsNormal(ms);
    if NormalForm(ms) {
      NoSystemsToConvert(ms);
      MergedLeavesAlone(ms);
    }
  }

  lemma NormalizingTwiceIsOnce(ms: seq<Message>)
    ensures Normalized(Normalized(ms)) == Normalized(ms)
  {
    NormalizedIsNormal(ms);
    FixedExactlyInNormalForm(Normalized(ms));
  }

  // ---------------------------------------------------------------------
  // Tool calls keep their place
  // ---------------------------------------------------------------------

  /** Assistant messages that carry tool calls, and tool results. */
  predicate IsToolTraffic(m: Message) { m.role.Tool? || (m.role.Assistant? && m.toolCalls.Some?) }

  function ToolTraffic(ms: seq<Message>): seq<Message> {
    if ms == [] then []
    else ToolTraffic(ms[..|ms| - 1]) + (if IsToolTraffic(ms[|ms| - 1]) then [ms[|ms| - 1]] else [])
  }

  lemma {:induction false} ToolTrafficAppend(a: seq<Message>, b: seq<Message>)
    ensures ToolTraffic(a + b) == ToolTraffic(a) + ToolTraffic(b)
  {
    if b == [] {
      assert a + b == a;
    } else {
      var n := |b| - 1;
      assert (a + b)[..|a + b| - 1] == a + b[..n];
      ToolTrafficAppend(a, b[..n]);
    }
  }

  lemma ToolTrafficUpdate(ms: seq<Message>, k: nat, m: Message)
    requires k < |ms| && !IsToolTraffic(ms[k]) && !IsToolTraffic(m)
    ensures ToolTraffic(ms[k := m]) == ToolTraffic(ms)
  {
    assert ms[k := m] == ms[..k] + ([m] + ms[k + 1..]);
    assert ms == ms[..k] + ([ms[k]] + ms[k + 1..]);
    ToolTrafficAppend(ms[..k], [m] + ms[k + 1..]);
    ToolTrafficAppend(ms[..k], [ms[k]] + ms[k + 1..]);
    ToolTrafficAppend([m], ms[k + 1..]);
    ToolTrafficAppend([ms[k]], ms[k + 1..]);
  }

  lemma ToolTrafficPush(ms: seq<Message>, m: Message)
    ensures ToolTraffic(ms + [m]) == if IsToolTraffic(m) then ToolTraffic(ms) + [m] else ToolTraffic(ms)
  {
    assert (ms + [m])[..|ms|] == ms;
  }

  lemma {:induction false} OthersKeepToolTraffic(ms: seq<Message>)
    ensures ToolTraffic(Others(ms)) == ToolTraffic(ms)
  {
    if ms != [] {
      var n := |ms| - 1;
      OthersKeepToolTraffic(ms[..n]);
      assert ms == ms[..n] + [ms[n]];
      FiltersPush(ms[..n], ms[n]);
      ToolTrafficPush(ms[..n], ms[n]);
      ToolTrafficPush(Others(ms[..n]), ms[n]);
    }
  }

  lemma ConvertedKeepsToolTraffic(ms: seq<Message>)
    ensures ToolTraffic(Converted(ms)) == ToolTraffic(ms)
  {
    OthersKeepToolTraffic(ms);
    var parts, rest := Texts(Systems(ms)), Others(ms);
    if parts != [] {
      var k := FirstEligible(rest);
      if k < |rest| {
        ToolTrafficUpdate(rest, k, Prefixed(Join(parts), rest[k]));
      } else {
        var u := UserMessage(Join(parts));
        ToolTrafficAppend([u], rest);
        assert ToolTraffic([u]) == [] by { assert [u][..0] == []; }
      }
    }
  }

  lemma {:induction false} MergedKeepsToolTraffic(ms: seq<Message>)
    ensures ToolTraffic(Merged(ms)) == ToolTraffic(ms)
  {
    if ms != [] {
      var n := |ms| - 1;
      MergedKeepsToolTraffic(ms[..n]);
      var merged, msg := Merged(ms[..n]), ms[n];
      if merged != [] && Mergeable(merged[|merged| - 1], msg) {
        ToolTrafficUpdate(merged, |merged| - 1, Absorb(merged[|merged| - 1], msg));
      } else {
        assert (merged + [msg])[..|merged|] == merged;
      }
    }
  }

  lemma {:induction false} SanitizedKeepsToolTraffic(ms: seq<Message>)
    ensures ToolTraffic(SanitizedAll(ms)) == SanitizedAll(ToolTraffic(ms))
  {
    if ms != [] {
      var n := |ms| - 1;
      SanitizedKeepsToolTraffic(ms[..n]);
      assert SanitizedAll(ms)[..n] == SanitizedAll(ms[..n]);
    }
  }

  /**
   * Tool calls and tool results come out complete and in the order they went
   * in, changed only in the sanitized fields: every result still follows its call.
   */
  lemma NormalizedKeepsToolTraffic(ms: seq<Message>)
    ensures ToolTraffic(Normalized(ms)) == SanitizedAll(ToolTraffic(ms))
  {
    ConvertedKeepsToolTraffic(ms);
    MergedKeepsToolTraffic(Converted(ms));
    SanitizedKeepsToolTraffic(Merged(Converted(ms)));
  }

  // ---------------------------------------------------------------------
  // Merging is joining maximal runs
  // ---------------------------------------------------------------------

  function Flatten(segments: seq<seq<Message>>): seq<Message> {
    if segments == [] then [] else Flatten(segments[..|segments| - 1]) + segments[|segments| - 1]
  }

  /** The first message of a run, holding the joined contents of all of it. */
  function Fuse(segment: seq<Message>): Message
    requires segment != []
  {
    segment[0].(content := if Texts(segment) == [] then None else Some(Join(Texts(segment))))
  }

  ghost predicate IsRunOf(segment: seq<Message>) {
    segment != [] && forall i, j :: 0 <= i < |segment| && j == i + 1 && j < |segment| ==> Mergeable(segment[i], segment[j])
  }

  function Last<T>(s: seq<T>): T
    requires s != []
  {
    s[|s| - 1]
  }

  ghost predicate IsFusedRun(segment: seq<Message>, m: Message) {
    IsRunOf(segment) && m == Fuse(segment)
  }

  /** No run could have been longer. */
  ghost predicate Separated(segments: seq<seq<Message>>) {
    && (forall i :: 0 <= i < |segments| ==> segments[i] != [])
    && (forall i, j :: 0 <= i < |segments| && j == i + 1 && j < |segments| ==>
          !Mergeable(Last(segments[i]), segments[j][0]))
  }

  /** `segments` cuts `ms` into maximal runs, and `out` has one fused message for each. */
  ghost predicate FusesRuns(ms: seq<Message>, segments: seq<seq<Message>>, out: seq<Message>) {
    && Flatten(segments) == ms
    && |out| == |segments|
    && (forall i :: 0 <= i < |segments| ==> IsFusedRun(segments[i], out[i]))
    && Separated(segments)
  }

  lemma FuseSingle(m: Message)
    ensures IsFusedRun([m], m)
  {
    assert [m][..0] == [];
    assert Texts([m]) == Present(m);
  }

  lemma JoinPush(parts: seq<string>, p: string)
    ensures Join(parts + [p]) == if parts == [] then p else Join(parts) + SEPARATOR + p
  {
    assert (parts + [p])[..|parts|] == parts;
  }

  lemma FusePush(segment: seq<Message>, m: Message)
    requires segment != []
    ensures Fuse(segment + [m]) == Absorb(Fuse(segment), m)
  {
    TextsPush(segment, m);
    if m.content.Some? {
      JoinPush(Texts(segment), m.content.value);
    } else {
      assert Texts(segment) + [] == Texts(segment);
    }
  }

  /** In a run, the first message decides mergeability with the next one just as the last does. */
  lemma {:induction false} RunActsAsItsHead(segment: seq<Message>, msg: Message)
    requires IsRunOf(segment)
    ensures Mergeable(segment[0], msg) == Mergeable(Last(segment), msg)
  {
    var n := |segment| - 1;
    if n > 0 {
      assert Mergeable(segment[n - 1], segment[n]);
      RunActsAsItsHead(segment[..n], msg);
    }
  }

  lemma FlattenPush(segments: seq<seq<Message>>, segment: seq<Message>)
    ensures Flatten(segments + [segment]) == Flatten(segments) + segment
  {
    assert (segments + [segment])[..|segments|] == segments;
  }

  lemma FlattenExtend(segments: seq<seq<Message>>, msg: Message)
    requires segments != []
    ensures Flatten(segments[|segments| - 1 := Last(segments) + [msg]]) == Flatten(segments) + [msg]
  {
    var front, last := segments[..|segments| - 1], Last(segments);
    assert segments == front + [last] && segments[|segments| - 1 := last + [msg]] == front + [last + [msg]];
    FlattenPush(front, last);
    FlattenPush(front, last + [msg]);
  }

  lemma RunPush(segment: seq<Message>, m: Message, msg: Message)
    requires IsFusedRun(segment, m) && Mergeable(m, msg)
    ensures IsFusedRun(segment + [msg], Absorb(m, msg))
  {
    RunActsAsItsHead(segment, msg);
    FusePush(segment, msg);
  }

  lemma HeadDecides(segment: seq<Message>, m: Message, msg: Message)
    requires IsFusedRun(segment, m)
    ensures segment != [] && Mergeable(m, msg) == Mergeable(Last(segment), msg)
  {
    RunActsAsItsHead(segment, msg);
  }

  lemma StaysSeparated(segments: seq<seq<Message>>, msg: Message)
    requires Separated(segments) && segments != []
    ensures Separated(segments[|segments| - 1 := Last(segments) + [msg]])
    ensures !Mergeable(Last(Last(segments)), msg) ==> Separated(segments + [[msg]])
  {
  }

  lemma PushExtendsRun(ms: seq<Message>, segments: seq<seq<Message>>, out: seq<Message>, msg: Message)
    requires FusesRuns(ms, segments, out) && out != [] && Mergeable(Last(out), msg)
    ensures FusesRuns(ms + [msg], segments[|segments| - 1 := Last(segments) + [msg]], Push(out, msg))
  {
    FlattenExtend(segments, msg);
    RunPush(Last(segments), Last(out), msg);
    StaysSeparated(segments, msg);
  }

  lemma SeparatedFromNew(segments: seq<seq<Message>>, out: seq<Message>, msg: Message)
    requires |out| == |segments| && Separated(segments)
    requires out != [] ==> IsFusedRun(Last(segments), Last(out)) && !Mergeable(Last(out), msg)
    ensures Separated(segments + [[msg]])
  {
    if out != [] {
      HeadDecides(Last(segments), Last(out), msg);
      StaysSeparated(segments, msg);
    }
  }

  lemma PushStartsRun(ms: seq<Message>, segments: seq<seq<Message>>, out: seq<Message>, msg: Message)
    requires FusesRuns(ms, segments, out) && (out == [] || !Mergeable(Last(out), msg))
    ensures FusesRuns(ms + [msg], segments + [[msg]], Push(out, msg))
  {
    FlattenPush(segments, [msg]);
    FuseSingle(msg);
    SeparatedFromNew(segments, out, msg);
  }

  /** Merging cuts the conversation into maximal runs and joins the present contents of each. */
  lemma {:induction false} MergedFusesRuns(ms: seq<Message>) returns (segments: seq<seq<Message>>)
    ensures FusesRuns(ms, segments, Merged(ms))
  {
    if ms == [] {
      segments := [];
    } else {
      var before, msg := ms[..|ms| - 1], ms[|ms| - 1];
      segments := MergedFusesRuns(before);
      assert ms == before + [msg];
      MergedPush(before, msg);
      var out := Merged(before);
      if out != [] && Mergeable(Last(out), msg) {
        PushExtendsRun(before, segments, out, msg);
        segments := segments[|segments| - 1 := Last(segments) + [msg]];
      } else {
        PushStartsRun(before, segments, out, msg);
        segments := segments + [[msg]];
      }
    }
  }

  // ---------------------------------------------------------------------
  // No text is lost
  // ---------------------------------------------------------------------

  lemma {:induction false} TextsAppend(a: seq<Message>, b: seq<Message>)
    ensures Texts(a + b) == Texts(a) + Texts(b)
  {
    if b == [] {
      assert a + b == a;
    } else {
      var n := |b| - 1;
      assert (a + b)[..|a + b| - 1] == a + b[..n];
      TextsAppend(a, b[..n]);
    }
  }

  lemma {:induction false} JoinAppend(a: seq<string>, b: seq<string>)
    ensures Join(a + b) == if a == [] then Join(b) else if b == [] then Join(a) else Join(a) + SEPARATOR + Join(b)
  {
    if a == [] {
      assert a + b == b;
    } else if b == [] {
      assert a + b == a;
    } else {
      var n := |b| - 1;
      assert a + b == (a + b[..n]) + [b[n]];
      assert b == b[..n] + [b[n]];
      JoinPush(a + b[..n], b[n]);
      JoinPush(b[..n], b[n]);
      JoinAppend(a, b[..n]);
    }
  }

  /** Joining adjacent parts first changes nothing. */
  lemma JoinRegroups(a: seq<string>, b: seq<string>, c: seq<string>)
    requires b != []
    ensures Join(a + [Join(b)] + c) == Join(a + b + c)
  {
    assert Join([Join(b)]) == Join(b);
    JoinAppend(a, [Join(b)]);
    JoinAppend(a, b);
    JoinAppend(a + [Join(b)], c);
    JoinAppend(a + b, c);
  }

  lemma PushKeepsText(merged: seq<Message>, msg: Message)
    ensures Join(Texts(Push(merged, msg))) == Join(Texts(merged) + Present(msg))
    ensures Texts(Push(merged, msg)) == [] <==> Texts(merged) + Present(msg) == []
  {
    if merged != [] && Mergeable(Last(merged), msg) {
      var front, last := merged[..|merged| - 1], Last(merged);
      var absorbed := Absorb(last, msg);
      assert merged == front + [last] && Push(merged, msg) == front + [absorbed];
      TextsPush(front, last);
      TextsPush(front, absorbed);
      AbsorbKeepsText(Texts(front), last, msg);
      assert Texts(front) + Present(last) + Present(msg) == Texts(merged) + Present(msg);
    } else {
      TextsPush(merged, msg);
    }
  }

  lemma AbsorbKeepsText(front: seq<string>, last: Message, msg: Message)
    ensures Join(front + Present(Absorb(last, msg))) == Join(front + Present(last) + Present(msg))
    ensures Present(Absorb(last, msg)) == [] <==> Present(last) + Present(msg) == []
  {
    if last.content.Some? && msg.content.Some? {
      var both := [last.content.value, msg.content.value];
      JoinPush([last.content.value], msg.content.value);
      assert [last.content.value] + [msg.content.value] == both;
      JoinRegroups(front, both, []);
      assert front + [Join(both)] + [] == front + Present(Absorb(last, msg));
      assert front + both + [] == front + Present(last) + Present(msg);
    } else if msg.content.None? {
      assert front + Present(last) + Present(msg) == front + Present(last);
    } else {
      assert front + Present(last) + Present(msg) == front + Present(msg);
    }
  }

  lemma {:induction false} MergedKeepsText(ms: seq<Message>)
    ensures Join(Texts(Merged(ms))) == Join(Texts(ms))
    ensures Texts(Merged(ms)) == [] <==> Texts(ms) == []
  {
    if ms != [] {
      var before, msg := ms[..|ms| - 1], ms[|ms| - 1];
      assert ms == before + [msg];
      MergedKeepsText(before);
      MergedPush(before, msg);
      PushKeepsText(Merged(before), msg);
      TextsPush(before, msg);
      JoinAppend(Texts(before), Present(msg));
      JoinAppend(Texts(Merged(before)), Present(msg));
    }
  }

  lemma TextsSingle(m: Message)
    ensures Texts([m]) == Present(m)
  {
    assert [m][..0] == [];
  }

  lemma TextsAround(ms: seq<Message>, k: nat, m: Message)
    requires k < |ms|
    ensures Texts(ms[k := m]) == Texts(ms[..k]) + (Present(m) + Texts(ms[k + 1..]))
  {
    assert ms[k := m] == ms[..k] + ([m] + ms[k + 1..]);
    TextsAppend(ms[..k], [m] + ms[k + 1..]);
    TextsAppend([m], ms[k + 1..]);
    TextsSingle(m);
  }

  lemma Associative<T>(a: seq<T>, b: seq<T>, c: seq<T>)
    ensures a + (b + c) == a + b + c
  {
  }

  lemma JoinPrefix(front: seq<string>, parts: seq<string>, own: seq<string>, tail: seq<string>)
    requires parts != []
    ensures Join(front + ([Join(parts + own)] + tail)) == Join(front + parts + (own + tail))
  {
    JoinRegroups(front, parts + own, tail);
    Associative(front, [Join(parts + own)], tail);
    Associative(front + parts, own, tail);
    Associative(front, parts, own);
  }

  lemma PrefixKeepsText(rest: seq<Message>, k: nat, parts: seq<string>)
    requires k < |rest| && parts != []
    ensures Join(Texts(rest[k := Prefixed(Join(parts), rest[k])]))
         == Join(Texts(rest[..k]) + parts + Texts(rest[k..]))
  {
    var user, tail := rest[k], rest[k + 1..];
    TextsAround(rest, k, Prefixed(Join(parts), user));
    assert rest[k..] == [user] + tail;
    TextsAppend([user], tail);
    TextsSingle(user);
    JoinAppend(parts, Present(user));
    JoinPrefix(Texts(rest[..k]), parts, Present(user), Texts(tail));
  }

  lemma InsertKeepsText(rest: seq<Message>, parts: seq<string>)
    requires parts != []
    ensures Join(Texts([UserMessage(Join(parts))] + rest)) == Join(parts + Texts(rest))
  {
    var u := UserMessage(Join(parts));
    TextsAppend([u], rest);
    TextsSingle(u);
    JoinPrefix([], parts, [], Texts(rest));
    assert parts + [] == parts && [] + parts == parts && [] + Texts(rest) == Texts(rest);
    assert [] + ([Join(parts)] + Texts(rest)) == [Join(parts)] + Texts(rest);
  }

  /**
   * Converting and merging keep every word: what comes out is the system
   * text, in order, in front of the first eligible user message (or of
   * everything), and all other text where it was.
   */
  lemma NoTextIsLost(ms: seq<Message>)
    ensures var rest := Others(ms);
            var k := if FirstEligible(rest) < |rest| then FirstEligible(rest) else 0;
            Join(Texts(Merged(Converted(ms)))) == Join(Texts(rest[..k]) + Texts(Systems(ms)) + Texts(rest[k..]))
  {
    MergedKeepsText(Converted(ms));
    ConvertedKeepsText(Texts(Systems(ms)), Others(ms));
  }

  lemma ConvertedKeepsText(parts: seq<string>, rest: seq<Message>)
    ensures var first := FirstEligible(rest);
            var k := if first < |rest| then first else 0;
            var converted := if parts == [] then rest
                             else if first < |rest| then rest[first := Prefixed(Join(parts), rest[first])]
                             else [UserMessage(Join(parts))] + rest;
            Join(Texts(converted)) == Join(Texts(rest[..k]) + parts + Texts(rest[k..]))
  {
    var first := FirstEligible(rest);
    var k := if first < |rest| then first else 0;
    if parts == [] {
      NothingToPrefix(rest, k);
    } else if first < |rest| {
      PrefixKeepsText(rest, k, parts);
    } else {
      InsertKeepsText(rest, parts);
      NothingBefore(rest, parts);
    }
  }

  lemma NothingToPrefix(rest: seq<Message>, k: nat)
    requires k <= |rest|
    ensures Texts(rest) == Texts(rest[..k]) + [] + Texts(rest[k..])
  {
    assert rest == rest[..k] + rest[k..];
    TextsAppend(rest[..k], rest[k..]);
  }

  lemma NothingBefore(rest: seq<Message>, parts: seq<string>)
    ensures Texts(rest[..0]) + parts + Texts(rest[0..]) == parts + Texts(rest)
  {
    assert rest[..0] == [] && rest[0..] == rest;
  }

  // ---------------------------------------------------------------------
  // Field by field
  // ---------------------------------------------------------------------

  /** System texts are joined by blank lines in front of the first user message that answers no tool call. */
  lemma ConvertedFieldByField(ms: seq<Message>)
    ensures var rest, parts := Others(ms), Texts(Systems(ms));
            && (parts == [] ==> Converted(ms) == rest)
            && (forall k :: 0 <= k < |rest| && parts != [] ==>
                  (rest[k].role == User && rest[k].toolCallId == None) ==>
                  (forall j :: 0 <= j < k ==> rest[j].role != User || rest[j].toolCallId != None) ==>
                  Converted(ms) == rest[k := rest[k].(content := Some(
                    if rest[k].content.Some? then Join(parts) + "\n\n" + rest[k].content.value else Join(parts)))])
            && (parts != [] && (forall j :: 0 <= j < |rest| ==> rest[j].role != User || rest[j].toolCallId != None) ==>
                  Converted(ms) == [Message(User, Some(Join(parts)), None, None, None, None)] + rest)
  {
    var rest := Others(ms);
    var f := FirstEligible(rest);
    assert forall k :: 0 <= k < |rest| && Eligible(rest[k]) && (forall j :: 0 <= j < k ==> !Eligible(rest[j])) ==> k == f;
  }

  lemma JoinsWithBlankLines(a: string, b: string, parts: seq<string>)
    ensures Join([]) == "" && Join([a]) == a && Join([a, b]) == a + "\n\n" + b
    ensures parts != [] ==> Join(parts + [b]) == Join(parts) + "\n\n" + b
  {
    assert [a, b][..1] == [a];
    JoinPush(parts, b);
  }

  /** The filters of the conversion, by membership. */
  lemma {:induction false} SetAsideByRole(ms: seq<Message>, m: Message)
    ensures m in Systems(ms) <==> m in ms && m.role == System
    ensures m in Others(ms) <==> m in ms && m.role != System
    ensures |Systems(ms)| + |Others(ms)| == |ms|
  {
    if ms != [] {
      var front, last := ms[..|ms| - 1], ms[|ms| - 1];
      SetAsideByRole(front, m);
      assert ms == front + [last];
    }
  }

  /** One output message against the run of input messages it stands for. */
  ghost predicate StandsFor(segment: seq<Message>, m: Message) {
    && segment != []
    && m.role == segment[0].role && m.toolCalls == segment[0].toolCalls && m.toolCallId == segment[0].toolCallId
    && m.reasoning == None
    && m.name == (if m.role == Tool then None else segment[0].name)
    && m.content == (if Texts(segment) != [] then Some(Join(Texts(segment)))
                     else if m.role == Assistant && m.toolCalls != None then Some("") else None)
    && (forall i :: 0 <= i < |segment| ==> segment[i].role == m.role)
    && (|segment| > 1 ==> m.role != Tool)
    && (|segment| > 1 && m.role == Assistant ==> forall i :: 0 <= i < |segment| ==> segment[i].toolCalls == None)
  }

  lemma {:induction false} RunIsUniform(segment: seq<Message>, i: nat)
    requires IsRunOf(segment) && i < |segment|
    ensures segment[i].role == segment[0].role
    ensures |segment| > 1 ==> segment[0].role != Tool
    ensures |segment| > 1 && segment[0].role == Assistant ==> segment[i].toolCalls == None
  {
    if |segment| > 1 { assert Mergeable(segment[0], segment[1]); }
    if i > 0 {
      assert Mergeable(segment[i - 1], segment[i]);
      RunIsUniform(segment, i - 1);
    }
  }

  lemma SanitizedStandsFor(segment: seq<Message>)
    requires IsRunOf(segment)
    ensures StandsFor(segment, Sanitized(Fuse(segment)))
  {
    forall i | 0 <= i < |segment|
      ensures segment[i].role == segment[0].role
      ensures |segment| > 1 ==> segment[0].role != Tool
      ensures |segment| > 1 && segment[0].role == Assistant ==> segment[i].toolCalls == None
    {
      RunIsUniform(segment, i);
    }
  }

  /** Two messages that stay apart: different roles, a tool result, or an assistant message with tool calls. */
  predicate Apart(a: Message, b: Message) {
    a.role != b.role || a.role == Tool || (a.role == Assistant && (a.toolCalls != None || b.toolCalls != None))
  }

  /** Every field of the result, from the converted conversation. */
  lemma NormalizedFieldByField(ms: seq<Message>) returns (segments: seq<seq<Message>>)
    ensures Flatten(segments) == Converted(ms) && |segments| == |Normalized(ms)|
    ensures forall i :: 0 <= i < |segments| ==> StandsFor(segments[i], Normalized(ms)[i])
    ensures forall i, j :: 0 <= i < |segments| && j == i + 1 && j < |segments| ==> Apart(Normalized(ms)[i], Normalized(ms)[j])
    ensures forall i :: 0 <= i < |Normalized(ms)| ==> Normalized(ms)[i].role != System
  {
    segments := MergedFusesRuns(Converted(ms));
    forall i | 0 <= i < |segments| ensures StandsFor(segments[i], Normalized(ms)[i]) {
      assert IsFusedRun(segments[i], Merged(Converted(ms))[i]);
      SanitizedStandsFor(segments[i]);
    }
    NormalizedIsNormal(ms);
  }

  lemma {:induction false} ToolTrafficByRole(ms: seq<Message>, m: Message)
    ensures m in ToolTraffic(ms) <==> m in ms && (m.role == Tool || (m.role == Assistant && m.toolCalls != None))
  {
    if ms != [] {
      var front, last := ms[..|ms| - 1], ms[|ms| - 1];
      ToolTrafficByRole(front, m);
      assert ms == front + [last];
    }
  }

  /** The i-th message of the tool traffic still says the same: its call, its result, and what it answers. */
  lemma ToolTrafficFieldByField(ms: seq<Message>)
    ensures var before, after := ToolTraffic(ms), ToolTraffic(Normalized(ms));
            && |after| == |before|
            && forall i :: 0 <= i < |before| ==>
                 && after[i].role == before[i].role
                 && after[i].toolCalls == before[i].toolCalls
                 && after[i].toolCallId == before[i].toolCallId
                 && after[i].content == (if before[i].role == Assistant && before[i].toolCalls != None && before[i].content == None
                                         then Some("") else before[i].content)
                 && after[i].name == (if before[i].role == Tool then None else before[i].name)
                 && after[i].reasoning == None
  {
    NormalizedKeepsToolTraffic(ms);
  }
}
