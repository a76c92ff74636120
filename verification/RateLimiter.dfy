// The sliding-window rate limiter of the channel middleware.
//
// The limiter keeps one deque of timestamps per sender, evicts from its front
// on every check and drops whole senders in the background. The reference
// keeps the complete history of allowed messages and counts in it.

module RateLimiter {
  type Sender = string
  type Time = nat

  datatype Op = Check(sender: Sender, now: Time) | Prune(now: Time)

  datatype Config = Config(maxMessages: nat, window: nat)

  type Table = map<Sender, seq<Time>>

  /** `Instant::duration_since` saturates at zero. */
  function Elapsed(now: Time, earlier: Time): nat {
    if now >= earlier then now - earlier else 0
  }

  predicate Expired(config: Config, now: Time, t: Time) { Elapsed(now, t) > config.window }

  /** The deque after popping expired entries from its front. */
  function Evicted(config: Config, ts: seq<Time>, now: Time): seq<Time> {
    if ts != [] && Expired(config, now, ts[0]) then Evicted(config, ts[1..], now) else ts
  }

  function Deque(table: Table, sender: Sender): seq<Time> {
    if sender in table then table[sender] else []
  }

  function Checked(config: Config, table: Table, sender: Sender, now: Time): (Table, bool) {
    var ts := Evicted(config, Deque(table, sender), now);
    if |ts| < config.maxMessages then (table[sender := ts + [now]], true) else (table[sender := ts], false)
  }

  function Pruned(config: Config, table: Table, now: Time): Table {
    map sender | sender in table && exists i :: 0 <= i < |table[sender]| && !Expired(config, now, table[sender][i])
      :: table[sender]
  }

  // ---------------------------------------------------------------------
  // The limiter
  // ---------------------------------------------------------------------

  class SimpleRateLimiter {
    const config: Config
    var timestamps: Table

    constructor (config: Config)
      ensures this.config == config && timestamps == map[]
    {
      this.config := config;
      timestamps := map[];
    }

    method Check(sender: Sender, now: Time) returns (allowed: bool)
      modifies this
      ensures (timestamps, allowed) == Checked(config, old(timestamps), sender, now)
    {
      var ts := if sender in timestamps then timestamps[sender] else [];
      while ts != [] && Expired(config, now, ts[0])
        invariant Evicted(config, ts, now) == Evicted(config, Deque(timestamps, sender), now)
      {
        ts := ts[1..];
      }
      allowed := |ts| < config.maxMessages;
      if allowed {
        ts := ts + [now];
      }
      timestamps := timestamps[sender := ts];
    }

    method PruneStale(now: Time)
      modifies this
      ensures timestamps == Pruned(config, old(timestamps), now)
      ensures forall s :: s in timestamps <==>
                s in old(timestamps) &&
                exists i :: 0 <= i < |old(timestamps)[s]| && now - old(timestamps)[s][i] <= config.window
    {
      var todo := timestamps.Keys;
      while todo != {}
        invariant todo <= timestamps.Keys <= old(timestamps).Keys
        invariant forall s :: s in old(timestamps) ==> (s in timestamps <==> s in todo || s in Pruned(config, old(timestamps), now))
        invariant forall s :: s in timestamps ==> timestamps[s] == old(timestamps)[s]
        decreases |todo|
      {
        var s :| s in todo;
        todo := todo - {s};
        var i := 0;
        while i < |timestamps[s]| && Expired(config, now, timestamps[s][i])
          invariant i <= |timestamps[s]|
          invariant forall j :: 0 <= j < i ==> Expired(config, now, timestamps[s][j])
        {
          i := i + 1;
        }
        if i == |timestamps[s]| {
          timestamps := timestamps - {s};
        }
      }
    }
  }

  // ---------------------------------------------------------------------
  // Whole runs of the limiter and of the reference
  // ---------------------------------------------------------------------

  datatype Served = Served(table: Table, answers: seq<bool>)

  function ServeOne(config: Config, s: Served, op: Op): Served {
    match op
    case Check(sender, now) =>
      var (table, allowed) := Checked(config, s.table, sender, now);
      Served(table, s.answers + [allowed])
    case Prune(now) => Served(Pruned(config, s.table, now), s.answers)
  }

  /** The limiter after `ops`, with the answer to every check so far. */
  function Serve(config: Config, ops: seq<Op>): Served {
    if ops == [] then Served(map[], []) else ServeOne(config, Serve(config, ops[..|ops| - 1]), ops[|ops| - 1])
  }

  /** How many of these times lie within the window ending now. */
  function Recent(config: Config, times: seq<Time>, now: Time): nat {
    if times == [] then 0
    else Recent(config, times[..|times| - 1], now) + (if Expired(config, now, times[|times| - 1]) then 0 else 1)
  }

  datatype Reference = Reference(allowed: map<Sender, seq<Time>>, answers: seq<bool>)

  /** The definition: allow when fewer than the maximum of the sender's allowed messages are recent. */
  function DefineOne(config: Config, r: Reference, op: Op): Reference {
    match op
    case Check(sender, now) =>
      var times := Deque(r.allowed, sender);
      if Recent(config, times, now) < config.maxMessages
      then Reference(r.allowed[sender := times + [now]], r.answers + [true])
      else Reference(r.allowed, r.answers + [false])
    case Prune(_) => r
  }

  function Define(config: Config, ops: seq<Op>): Reference {
    if ops == [] then Reference(map[], []) else DefineOne(config, Define(config, ops[..|ops| - 1]), ops[|ops| - 1])
  }

  /** The clock under the mutex never runs backwards. */
  ghost predicate Monotone(ops: seq<Op>) {
    forall i, j :: 0 <= i < j < |ops| ==> ops[i].now <= ops[j].now
  }

  // ---------------------------------------------------------------------
  // The deque is the recent end of the history
  // ---------------------------------------------------------------------

  ghost predicate Ordered(times: seq<Time>, now: Time) {
    && (forall i, j :: 0 <= i < j < |times| ==> times[i] <= times[j])
    && (forall i :: 0 <= i < |times| ==> times[i] <= now)
  }

  /** `ts` is a suffix of `times`, and everything before it has expired. */
  ghost predicate RecentEnd(config: Config, times: seq<Time>, ts: seq<Time>, now: Time) {
    && |ts| <= |times| && times[|times| - |ts|..] == ts
    && (forall i :: 0 <= i < |times| - |ts| ==> Expired(config, now, times[i]))
  }

  lemma {:induction false} EvictedIsRecentEnd(config: Config, times: seq<Time>, ts: seq<Time>, now: Time)
    requires Ordered(times, now) && RecentEnd(config, times, ts, now)
    ensures RecentEnd(config, times, Evicted(config, ts, now), now)
    ensures forall x :: x in Evicted(config, ts, now) ==> !Expired(config, now, x)
  {
    if ts != [] && Expired(config, now, ts[0]) {
      EvictedIsRecentEnd(config, times, ts[1..], now);
    }
  }

  lemma {:induction false} RecentCounts(config: Config, times: seq<Time>, k: nat, now: Time)
    requires k <= |times|
    requires forall i :: 0 <= i < k ==> Expired(config, now, times[i])
    requires forall i :: k <= i < |times| ==> !Expired(config, now, times[i])
    ensures Recent(config, times, now) == |times| - k
  {
    if times != [] {
      var n := |times| - 1;
      RecentCounts(config, times[..n], if k <= n then k else n, now);
    }
  }

  lemma EvictedCountsRecent(config: Config, times: seq<Time>, ts: seq<Time>, now: Time)
    requires Ordered(times, now) && RecentEnd(config, times, ts, now)
    ensures |Evicted(config, ts, now)| == Recent(config, times, now)
  {
    var kept := Evicted(config, ts, now);
    EvictedIsRecentEnd(config, times, ts, now);
    var k := |times| - |kept|;
    forall i | k <= i < |times| ensures !Expired(config, now, times[i]) {
      assert times[k..][i - k] == times[i];
    }
    RecentCounts(config, times, k, now);
  }

  ghost predicate AgreeOn(config: Config, impl: Served, spec: Reference, sender: Sender, now: Time) {
    && Ordered(Deque(spec.allowed, sender), now)
    && RecentEnd(config, Deque(spec.allowed, sender), Deque(impl.table, sender), now)
  }

  /** Limiter and reference gave the same answers and will go on doing so. */
  ghost predicate Agree(config: Config, impl: Served, spec: Reference, now: Time) {
    && impl.answers == spec.answers
    && (forall sender :: AgreeOn(config, impl, spec, sender, now))
  }

  lemma RecentEndAppend(config: Config, times: seq<Time>, ts: seq<Time>, now: Time)
    requires Ordered(times, now) && RecentEnd(config, times, ts, now)
    ensures Ordered(times + [now], now) && RecentEnd(config, times + [now], ts + [now], now)
  {
    var k := |times| - |ts|;
    assert (times + [now])[k..] == times[k..] + [now];
  }

  lemma CheckAgreesOnSender(config: Config, impl: Served, spec: Reference, sender: Sender, now: Time)
    requires AgreeOn(config, impl, spec, sender, now) && impl.answers == spec.answers
    ensures var impl', spec' := ServeOne(config, impl, Check(sender, now)), DefineOne(config, spec, Check(sender, now));
            impl'.answers == spec'.answers && AgreeOn(config, impl', spec', sender, now)
  {
    var times, ts := Deque(spec.allowed, sender), Deque(impl.table, sender);
    var kept := Evicted(config, ts, now);
    EvictedIsRecentEnd(config, times, ts, now);
    EvictedCountsRecent(config, times, ts, now);
    RecentEndAppend(config, times, kept, now);
  }

  lemma CheckKeepsAgreement(config: Config, impl: Served, spec: Reference, sender: Sender, now: Time)
    requires Agree(config, impl, spec, now)
    ensures Agree(config, ServeOne(config, impl, Check(sender, now)), DefineOne(config, spec, Check(sender, now)), now)
  {
    var impl', spec' := ServeOne(config, impl, Check(sender, now)), DefineOne(config, spec, Check(sender, now));
    assert AgreeOn(config, impl, spec, sender, now);
    CheckAgreesOnSender(config, impl, spec, sender, now);
    forall other ensures AgreeOn(config, impl', spec', other, now) {
      assert AgreeOn(config, impl, spec, other, now);
      if other != sender {
        assert Deque(impl'.table, other) == Deque(impl.table, other);
        assert Deque(spec'.allowed, other) == Deque(spec.allowed, other);
      }
    }
  }

  lemma PruneKeepsAgreement(config: Config, impl: Served, spec: Reference, now: Time)
    requires Agree(config, impl, spec, now)
    ensures Agree(config, ServeOne(config, impl, Prune(now)), spec, now)
  {
    var impl' := ServeOne(config, impl, Prune(now));
    forall sender ensures AgreeOn(config, impl', spec, sender, now) {
      assert AgreeOn(config, impl, spec, sender, now);
      var times, ts := Deque(spec.allowed, sender), Deque(impl.table, sender);
      if sender in impl.table && sender !in impl'.table {
        forall i | 0 <= i < |times| ensures Expired(config, now, times[i]) {
          if i >= |times| - |ts| { assert times[i] == ts[i - (|times| - |ts|)]; }
        }
      }
    }
  }

  lemma AgreeLater(config: Config, impl: Served, spec: Reference, now: Time, later: Time)
    requires Agree(config, impl, spec, now) && now <= later
    ensures Agree(config, impl, spec, later)
  {
    forall sender ensures AgreeOn(config, impl, spec, sender, later) {
      assert AgreeOn(config, impl, spec, sender, now);
    }
  }

  function LastTime(ops: seq<Op>): Time { if ops == [] then 0 else ops[|ops| - 1].now }

  lemma {:induction false} LimiterAgrees(config: Config, ops: seq<Op>)
    requires Monotone(ops)
    ensures Agree(config, Serve(config, ops), Define(config, ops), LastTime(ops))
  {
    if ops != [] {
      var before, op := ops[..|ops| - 1], ops[|ops| - 1];
      LimiterAgrees(config, before);
      var impl, spec := Serve(config, before), Define(config, before);
      AgreeLater(config, impl, spec, LastTime(before), op.now);
      if op.Check? {
        CheckKeepsAgreement(config, impl, spec, op.sender, op.now);
      } else {
        PruneKeepsAgreement(config, impl, spec, op.now);
      }
    }
  }

  /**
   * Every check, anywhere in any run, is answered as the full history says,
   * whatever was evicted or pruned before it.
   */
  lemma LimiterMatchesHistory(config: Config, ops: seq<Op>)
    requires Monotone(ops)
    ensures Serve(config, ops).answers == Define(config, ops).answers
  {
    LimiterAgrees(config, ops);
  }

  // ---------------------------------------------------------------------
  // Consequences
  // ---------------------------------------------------------------------

  /** Any `maxMessages + 1` consecutive allowed messages of a sender span more than the window. */
  ghost predicate Spread(config: Config, times: seq<Time>) {
    && (config.maxMessages == 0 ==> times == [])
    && (forall i, j :: 0 <= i && j == i + config.maxMessages && j < |times| ==> times[j] - times[i] > config.window)
  }

  lemma {:induction false} RecentIsAtLeast(config: Config, times: seq<Time>, k: nat, now: Time)
    requires k <= |times| && forall i :: k <= i < |times| ==> !Expired(config, now, times[i])
    ensures Recent(config, times, now) >= |times| - k
  {
    if k < |times| { RecentIsAtLeast(config, times[..|times| - 1], k, now); }
  }

  lemma AllowedKeepsSpread(config: Config, times: seq<Time>, now: Time)
    requires Ordered(times, now) && Spread(config, times) && Recent(config, times, now) < config.maxMessages
    ensures Ordered(times + [now], now) && Spread(config, times + [now])
  {
    var i := |times| - config.maxMessages;
    if i >= 0 && !Expired(config, now, times[i]) { RecentIsAtLeast(config, times, i, now); }
  }

  lemma {:induction false} WindowNeverExceeded(config: Config, ops: seq<Op>, sender: Sender)
    requires Monotone(ops)
    ensures Spread(config, Deque(Define(config, ops).allowed, sender))
    ensures Ordered(Deque(Define(config, ops).allowed, sender), LastTime(ops))
  {
    if ops != [] {
      var before, op := ops[..|ops| - 1], ops[|ops| - 1];
      WindowNeverExceeded(config, before, sender);
      var times := Deque(Define(config, before).allowed, sender);
      assert LastTime(before) <= op.now;
      if op.Check? && op.sender == sender && Recent(config, times, op.now) < config.maxMessages {
        AllowedKeepsSpread(config, times, op.now);
      }
    }
  }

  function ChecksOnly(ops: seq<Op>): seq<Op> {
    if ops == [] then []
    else if ops[|ops| - 1].Check? then ChecksOnly(ops[..|ops| - 1]) + [ops[|ops| - 1]]
    else ChecksOnly(ops[..|ops| - 1])
  }

  lemma {:induction false} ChecksOnlyMonotone(ops: seq<Op>)
    requires Monotone(ops)
    ensures Monotone(ChecksOnly(ops))
    ensures forall i :: 0 <= i < |ChecksOnly(ops)| ==> ChecksOnly(ops)[i].now <= LastTime(ops)
  {
    if ops != [] {
      ChecksOnlyMonotone(ops[..|ops| - 1]);
      assert LastTime(ops[..|ops| - 1]) <= LastTime(ops);
    }
  }

  lemma {:induction false} DefineIgnoresPrunes(config: Config, ops: seq<Op>)
    ensures Define(config, ChecksOnly(ops)) == Define(config, ops)
  {
    if ops != [] {
      var before, op := ops[..|ops| - 1], ops[|ops| - 1];
      DefineIgnoresPrunes(config, before);
      if op.Check? {
        var checks := ChecksOnly(before) + [op];
        assert checks[..|checks| - 1] == ChecksOnly(before);
        assert Define(config, checks) == DefineOne(config, Define(config, ChecksOnly(before)), op);
      }
    }
  }

  /** Background pruning, whenever it happens, never changes an answer. */
  lemma PruningIsInvisible(config: Config, ops: seq<Op>)
    requires Monotone(ops)
    ensures Serve(config, ops).answers == Serve(config, ChecksOnly(ops)).answers
  {
    DefineIgnoresPrunes(config, ops);
    ChecksOnlyMonotone(ops);
    LimiterMatchesHistory(config, ops);
    LimiterMatchesHistory(config, ChecksOnly(ops));
  }

  /** No deque ever holds more than the maximum, so memory is bounded by the number of senders. */
  lemma {:induction false} DequesStaySmall(config: Config, ops: seq<Op>, sender: Sender)
    ensures |Deque(Serve(config, ops).table, sender)| <= config.maxMessages
  {
    if ops != [] {
      var n := |ops| - 1;
      DequesStaySmall(config, ops[..n], sender);
      EvictedShrinks(config, Deque(Serve(config, ops[..n]).table, sender), ops[n].now);
    }
  }

  lemma {:induction false} EvictedShrinks(config: Config, ts: seq<Time>, now: Time)
    ensures |Evicted(config, ts, now)| <= |ts|
  {
    if ts != [] && Expired(config, now, ts[0]) { EvictedShrinks(config, ts[1..], now); }
  }

  // ---------------------------------------------------------------------
  // The window itself
  // ---------------------------------------------------------------------

  /** The positions of the times that lie at most one window back. */
  function Within(window: nat, times: seq<Time>, now: Time): set<nat> {
    set i | 0 <= i < |times| && now - times[i] <= window
  }

  lemma {:induction false} RecentIsWithin(config: Config, times: seq<Time>, now: Time)
    ensures Recent(config, times, now) == |Within(config.window, times, now)|
  {
    if times == [] {
      assert Within(config.window, times, now) == {};
    } else {
      var n := |times| - 1;
      RecentIsWithin(config, times[..n], now);
      assert Within(config.window, times, now) ==
             Within(config.window, times[..n], now) + (if now - times[n] <= config.window then {n} else {});
    }
  }

  /**
   * After any run, a message is allowed exactly when fewer than the maximum of
   * the sender's allowed messages are at most one window old; one that is
   * exactly one window old still counts.
   */
  lemma AllowedExactlyByTheWindow(config: Config, ops: seq<Op>, sender: Sender, now: Time)
    requires Monotone(ops) && LastTime(ops) <= now
    ensures Checked(config, Serve(config, ops).table, sender, now).1 <==>
            |Within(config.window, Deque(Define(config, ops).allowed, sender), now)| < config.maxMessages
  {
    LimiterAgrees(config, ops);
    AgreeLater(config, Serve(config, ops), Define(config, ops), LastTime(ops), now);
    var times := Deque(Define(config, ops).allowed, sender);
    assert AgreeOn(config, Serve(config, ops), Define(config, ops), sender, now);
    EvictedCountsRecent(config, times, Deque(Serve(config, ops).table, sender), now);
    RecentIsWithin(config, times, now);
  }
}
