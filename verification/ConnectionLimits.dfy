// Exactly when "one connection per user" and the connection limit can break:
// both depend on what the sockets still registering are about to do.

module ConnectionLimits {
  import opened Wrappers
  import opened Connections

  // ---------------------------------------------------------------------
  // Where a registration leads
  // ---------------------------------------------------------------------

  /** Between admission and insertion. */
  predicate Pending(phase: Phase) { phase.Accepted? || phase.Looked? || phase.Evicted? }

  /** The connection that socket `j` is about to remove. */
  function Target(s: State, j: ConnId): Option<ConnId>
    requires j < |s.sockets|
  {
    match s.sockets[j].phase
    case Accepted => Current(s, s.sockets[j].user)
    case Looked => s.sockets[j].prior
    case _ => None
  }

  function Without(connections: set<ConnId>, target: Option<ConnId>): set<ConnId> {
    if target.Some? then connections - {target.value} else connections
  }

  /** `t` is `s` with socket `j` inserted. */
  ghost predicate IsInserted(s: State, t: State, j: ConnId)
    requires j < |s.sockets|
  {
    && t.limit == s.limit && t.users == s.users && |t.sockets| == |s.sockets|
    && (forall k :: 0 <= k < |s.sockets| && k != j ==> t.sockets[k] == s.sockets[k])
    && t.sockets[j].user == s.sockets[j].user && t.sockets[j].phase.Inserted?
    && t.connections == Without(s.connections, Target(s, j)) + {j}
  }

  ghost predicate NoOpens(steps: seq<Step>) { forall i :: 0 <= i < |steps| ==> !steps[i].Open? }

  ghost predicate NoLooks(steps: seq<Step>) { forall i :: 0 <= i < |steps| ==> !steps[i].Look? }

  predicate Registering(phase: Phase) { Pending(phase) || phase.Inserted? }

  function StepsLeft(phase: Phase): nat {
    match phase
    case Accepted => 3
    case Looked => 2
    case Evicted => 1
    case _ => 0
  }

  /** The next step of a registration. */
  function Next(s: State, j: ConnId): Step
    requires j < |s.sockets|
  {
    match s.sockets[j].phase
    case Accepted => Look(j)
    case Looked => Evict(j)
    case _ => Insert(j)
  }

  lemma NextLeadsOn(s: State, j: ConnId)
    requires Inv(s) && j < |s.sockets| && Pending(s.sockets[j].phase)
    ensures Enabled(s, Next(s, j)) && !Next(s, j).Open? && (Next(s, j).Look? <==> s.sockets[j].phase.Accepted?)
    ensures var t := Apply(s, Next(s, j));
            && t.limit == s.limit && t.users == s.users && |t.sockets| == |s.sockets|
            && (forall k :: 0 <= k < |s.sockets| && k != j ==> t.sockets[k] == s.sockets[k])
            && t.sockets[j].user == s.sockets[j].user && Registering(t.sockets[j].phase)
            && StepsLeft(t.sockets[j].phase) < StepsLeft(s.sockets[j].phase) && !t.sockets[j].phase.Accepted?
            && Without(t.connections, Target(t, j)) + {j} == Without(s.connections, Target(s, j)) + {j}
  {
  }

  /** Any unfinished registration can go through on its own. */
  lemma {:induction false} InsertOne(s: State, j: ConnId) returns (run: seq<State>, steps: seq<Step>)
    requires Inv(s) && j < |s.sockets| && Registering(s.sockets[j].phase)
    ensures IsPath(run, steps) && run[0] == s && Inv(run[|steps|]) && IsInserted(s, run[|steps|], j)
    ensures NoOpens(steps) && (!s.sockets[j].phase.Accepted? ==> NoLooks(steps))
    decreases StepsLeft(s.sockets[j].phase)
  {
    run, steps := [s], [];
    if !s.sockets[j].phase.Inserted? {
      NextLeadsOn(s, j);
      StepKeepsInv(s, Next(s, j));
      run, steps := Extend(run, steps, Next(s, j));
      var more, moreSteps := InsertOne(run[|steps|], j);
      run, steps := Join(run, steps, more, moreSteps);
    }
  }

  // ---------------------------------------------------------------------
  // One connection per user
  // ---------------------------------------------------------------------

  ghost predicate OnePerUser(s: State) {
    forall c, d :: c in s.connections && d in s.connections && c < |s.sockets| && d < |s.sockets| ==>
      s.sockets[c].user == s.sockets[d].user ==> c == d
  }

  /** However the registrations already begun go on, no user gets a second connection. */
  ghost predicate StaysSingle(s: State) {
    forall run: seq<State>, steps :: IsPath(run, steps) && run[0] == s && NoLooks(steps) ==> OnePerUser(run[|steps|])
  }

  lemma InsertBoth(s: State, i: ConnId, j: ConnId) returns (run: seq<State>, steps: seq<Step>)
    requires Inv(s) && i < |s.sockets| && j < |s.sockets| && i != j
    requires Underway(s.sockets[i].phase) && Underway(s.sockets[j].phase)
    ensures IsPath(run, steps) && run[0] == s && NoLooks(steps) && NoOpens(steps)
    ensures var t := run[|steps|];
            && Inv(t) && In(t, i, Inserted) && In(t, j, Inserted)
            && t.sockets[i].user == s.sockets[i].user && t.sockets[j].user == s.sockets[j].user
  {
    run, steps := InsertOne(s, i);
    var more, moreSteps := InsertOne(run[|steps|], j);
    run, steps := Join(run, steps, more, moreSteps);
  }

  /** Two registrations of one user under way at once can both finish and leave two connections. */
  lemma OverlapCanLeaveTwo(s: State, i: ConnId, j: ConnId) returns (run: seq<State>, steps: seq<Step>)
    requires Inv(s) && i < |s.sockets| && j < |s.sockets| && i != j
    requires s.sockets[i].user == s.sockets[j].user && Underway(s.sockets[i].phase) && Underway(s.sockets[j].phase)
    ensures IsPath(run, steps) && run[0] == s && NoLooks(steps) && NoOpens(steps)
    ensures var t := run[|steps|];
            && i in t.connections && j in t.connections
            && In(t, i, Registered) && In(t, j, Registered) && t.sockets[i].user == t.sockets[j].user
  {
    run, steps := InsertBoth(s, i, j);
    run, steps := Extend(run, steps, MapUser(i));
    run, steps := Extend(run, steps, MapUser(j));
  }

  lemma {:induction false} NoLooksKeepSolo(run: seq<State>, steps: seq<Step>, n: nat)
    requires IsPath(run, steps) && NoLooks(steps) && Inv(run[0]) && SoloInv(run[0]) && n < |run|
    ensures Inv(run[n]) && SoloInv(run[n])
  {
    if n > 0 {
      NoLooksKeepSolo(run, steps, n - 1);
      StepKeepsInv(run[n - 1], steps[n - 1]);
      StepKeepsSolo(run[n - 1], steps[n - 1]);
    }
  }

  lemma SoloStaysSingle(s: State)
    requires Inv(s) && SoloInv(s)
    ensures StaysSingle(s)
  {
    forall run: seq<State>, steps | IsPath(run, steps) && run[0] == s && NoLooks(steps) ensures OnePerUser(run[|steps|]) {
      NoLooksKeepSolo(run, steps, |steps|);
    }
  }

  lemma OverlapIsNotSingle(s: State, c: ConnId)
    requires Inv(s) && Enabled(s, Look(c)) && !NoneUnderway(s, s.sockets[c].user)
    ensures !StaysSingle(Apply(s, Look(c)))
  {
    var j :| 0 <= j < |s.sockets| && s.sockets[j].user == s.sockets[c].user && Underway(s.sockets[j].phase);
    var t := Apply(s, Look(c));
    StepKeepsInv(s, Look(c));
    var run, steps := OverlapCanLeaveTwo(t, c, j);
    assert !OnePerUser(run[|steps|]);
  }

  /**
   * A run is at every moment safe from a second connection of one user exactly
   * when each registration that reads the user map is then the only one of its
   * user under way.
   */
  lemma SingleExactlyWhenSequential(run: seq<State>, steps: seq<Step>)
    requires IsRun(run, steps)
    ensures Sequential(run, steps) <==> forall n :: 0 <= n < |run| ==> StaysSingle(run[n])
  {
    if Sequential(run, steps) {
      forall n | 0 <= n < |run| ensures StaysSingle(run[n]) {
        RunKeepsInv(run, steps, n);
        RunKeepsSolo(run, steps, n);
        SoloStaysSingle(run[n]);
      }
    } else {
      var i :| 0 <= i < |steps| && steps[i].Look? && !NoneUnderway(run[i], run[i].sockets[steps[i].conn].user);
      RunKeepsInv(run, steps, i);
      OverlapIsNotSingle(run[i], steps[i].conn);
      assert !StaysSingle(run[i + 1]);
    }
  }

  // ---------------------------------------------------------------------
  // The connection limit
  // ---------------------------------------------------------------------

  ghost predicate Doomed(s: State, c: ConnId) {
    exists j :: 0 <= j < |s.sockets| && Target(s, j) == Some(c)
  }

  /** Who is connected once every admitted socket has got through, if nobody leaves. */
  ghost function Expected(s: State): set<ConnId> {
    set c | 0 <= c < |s.sockets| && (Pending(s.sockets[c].phase) || (c in s.connections && !Doomed(s, c)))
  }

  function PendingSet(s: State): set<ConnId> {
    set c | 0 <= c < |s.sockets| && Pending(s.sockets[c].phase)
  }

  lemma Shrinks(a: set<ConnId>, b: set<ConnId>)
    requires a <= b
    ensures |a| <= |b|
  {
    assert b == a + (b - a);
  }

  function Targets(s: State, js: set<ConnId>): set<ConnId>
    requires forall j :: j in js ==> j < |s.sockets|
  {
    set j | j in js && Target(s, j).Some? :: Target(s, j).value
  }

  lemma {:induction false} TargetsAreFew(s: State, js: set<ConnId>)
    requires forall j :: j in js ==> j < |s.sockets|
    ensures |Targets(s, js)| <= |js|
  {
    if js != {} {
      var j :| j in js;
      var rest := js - {j};
      TargetsAreFew(s, rest);
      if Target(s, j).Some? {
        assert Targets(s, js) == Targets(s, rest) + {Target(s, j).value};
      } else {
        assert Targets(s, js) == Targets(s, rest);
      }
    }
  }

  /** Each socket removes one connection at most, so there are never more now than expected. */
  lemma NoMoreThanExpected(s: State)
    requires Inv(s)
    ensures |s.connections| <= |Expected(s)|
  {
    var pending := PendingSet(s);
    var standing := Expected(s) - pending;
    forall c | c in s.connections ensures c in standing || c in Targets(s, pending) {
      if Doomed(s, c) {
        var j :| 0 <= j < |s.sockets| && Target(s, j) == Some(c);
        assert j in pending;
      }
    }
    TargetsAreFew(s, pending);
    Shrinks(s.connections, standing + Targets(s, pending));
    assert Expected(s) == standing + pending;
  }

  // No step but an admission raises the expectation.

  lemma DoomSurvives(s: State, step: Step, c: ConnId)
    requires Inv(s) && Enabled(s, step) && !step.Open? && !step.MapUser?
    requires c in Apply(s, step).connections && Doomed(s, c)
    ensures Doomed(Apply(s, step), c)
  {
    var j :| 0 <= j < |s.sockets| && Target(s, j) == Some(c);
    var t := Apply(s, step);
    assert Target(t, j) == Some(c);
  }

  lemma StepLowersExpected(s: State, step: Step)
    requires Inv(s) && Enabled(s, step) && !step.Open? && !step.MapUser?
    ensures Expected(Apply(s, step)) <= Expected(s)
  {
    var t := Apply(s, step);
    forall c | c in Expected(t) ensures c in Expected(s) {
      if c in s.connections && c in t.connections && Doomed(s, c) { DoomSurvives(s, step, c); }
    }
  }

  /** When a socket takes over the mapping, whoever waits for its user is to remove it instead. */
  lemma MappingLowersExpected(s: State, i: ConnId)
    requires Inv(s) && Enabled(s, MapUser(i))
    ensures |Expected(Apply(s, MapUser(i)))| <= |Expected(s)|
  {
    var t, u := Apply(s, MapUser(i)), s.sockets[i].user;
    if j :| 0 <= j < |s.sockets| && s.sockets[j].user == u && s.sockets[j].phase.Accepted? {
      assert Target(t, j) == Some(i);
      InsertedIsNotDoomed(s, i);
      forall c | c in Expected(t) ensures c in Expected(s) - {i} || Current(s, u) == Some(c) {
        if c in s.connections && Doomed(s, c) { OtherDoomSurvives(s, i, c); }
      }
      if Current(s, u).Some? {
        Shrinks(Expected(t), Expected(s) - {i} + {Current(s, u).value});
      } else {
        Shrinks(Expected(t), Expected(s));
      }
    } else {
      forall c | c in Expected(t) ensures c in Expected(s) {
        if c in s.connections && Doomed(s, c) { NobodyWaits(s, i, c); }
      }
      Shrinks(Expected(t), Expected(s));
    }
  }

  lemma InsertedIsNotDoomed(s: State, i: ConnId)
    requires Inv(s) && In(s, i, Inserted)
    ensures i in Expected(s)
  {
    forall j | 0 <= j < |s.sockets| ensures Target(s, j) != Some(i) { assert OldOk(s, j); }
  }

  lemma OtherDoomSurvives(s: State, i: ConnId, c: ConnId)
    requires Inv(s) && Enabled(s, MapUser(i)) && Doomed(s, c)
    ensures Current(s, s.sockets[i].user) == Some(c) || Doomed(Apply(s, MapUser(i)), c)
  {
    var j :| 0 <= j < |s.sockets| && Target(s, j) == Some(c);
    if Current(s, s.sockets[i].user) != Some(c) { assert Target(Apply(s, MapUser(i)), j) == Some(c); }
  }

  lemma NobodyWaits(s: State, i: ConnId, c: ConnId)
    requires Inv(s) && Enabled(s, MapUser(i)) && Doomed(s, c)
    requires forall j :: 0 <= j < |s.sockets| && s.sockets[j].user == s.sockets[i].user ==> !s.sockets[j].phase.Accepted?
    ensures Doomed(Apply(s, MapUser(i)), c)
  {
    var j :| 0 <= j < |s.sockets| && Target(s, j) == Some(c);
    assert Target(Apply(s, MapUser(i)), j) == Some(c);
  }

  lemma ExpectationNeverRises(s: State, step: Step)
    requires Inv(s) && Enabled(s, step) && !step.Open?
    ensures |Expected(Apply(s, step))| <= |Expected(s)|
  {
    if step.MapUser? {
      MappingLowersExpected(s, step.conn);
    } else {
      StepLowersExpected(s, step);
      Shrinks(Expected(Apply(s, step)), Expected(s));
    }
  }

  lemma {:induction false} PathLowersExpected(run: seq<State>, steps: seq<Step>, n: nat)
    requires IsPath(run, steps) && Inv(run[0]) && NoOpens(steps) && n < |run|
    ensures Inv(run[n]) && |Expected(run[n])| <= |Expected(run[0])|
  {
    if n > 0 {
      PathLowersExpected(run, steps, n - 1);
      StepKeepsInv(run[n - 1], steps[n - 1]);
      ExpectationNeverRises(run[n - 1], steps[n - 1]);
    }
  }

  // The expectation can be met.

  lemma InsertingKeepsExpected(s: State, t: State, j: ConnId)
    requires Inv(s) && Inv(t) && j < |s.sockets| && Pending(s.sockets[j].phase) && IsInserted(s, t, j)
    ensures Expected(t) == Expected(s) && PendingSet(t) == PendingSet(s) - {j}
  {
    InsertedIsNotDoomed(t, j);
    forall k | 0 <= k < |s.sockets| && k != j ensures Target(t, k) == Target(s, k) {}
    forall c | 0 <= c < |s.sockets| && c != j ensures c in Expected(t) <==> c in Expected(s) {
      if Doomed(s, c) && c in t.connections {
        var k :| 0 <= k < |s.sockets| && Target(s, k) == Some(c);
        assert Target(t, k) == Some(c);
      }
      if Doomed(t, c) {
        var k :| 0 <= k < |t.sockets| && Target(t, k) == Some(c);
        assert Target(s, k) == Some(c);
      }
    }
  }

  /** All admitted sockets can get through. */
  lemma {:induction false} InsertAll(s: State) returns (run: seq<State>, steps: seq<Step>)
    requires Inv(s)
    ensures IsPath(run, steps) && run[0] == s && NoOpens(steps)
    ensures run[|steps|].connections == Expected(s) && run[|steps|].limit == s.limit
    decreases |PendingSet(s)|
  {
    if j :| j in PendingSet(s) {
      run, steps := InsertOne(s, j);
      var t := run[|steps|];
      InsertingKeepsExpected(s, t, j);
      var more, moreSteps := InsertAll(t);
      run, steps := Join(run, steps, more, moreSteps);
    } else {
      run, steps := [s], [];
      forall c ensures c in s.connections <==> c in Expected(s) {
        if 0 <= c < |s.sockets| { assert c !in PendingSet(s); }
        forall k | 0 <= k < |s.sockets| ensures Target(s, k) == None { assert k !in PendingSet(s); }
      }
    }
  }

  /** However the sockets already admitted go on, the limit is kept. */
  ghost predicate StaysWithinLimit(s: State) {
    forall run: seq<State>, steps :: IsPath(run, steps) && run[0] == s && NoOpens(steps) ==> |run[|steps|].connections| <= s.limit
  }

  /** The limit is safe exactly when the connections to be expected fit. */
  lemma WithinLimitExactlyWhenExpectedFits(s: State)
    requires Inv(s)
    ensures StaysWithinLimit(s) <==> |Expected(s)| <= s.limit
  {
    var run, steps := InsertAll(s);
    if |Expected(s)| <= s.limit {
      forall run: seq<State>, steps | IsPath(run, steps) && run[0] == s && NoOpens(steps) ensures |run[|steps|].connections| <= s.limit {
        PathLowersExpected(run, steps, |steps|);
        NoMoreThanExpected(run[|steps|]);
      }
    }
  }

  /** Every admission leaves room for all sockets admitted before it. */
  ghost predicate AdmissionsFit(run: seq<State>, steps: seq<Step>)
    requires IsRun(run, steps)
  {
    forall i :: 0 <= i < |steps| && steps[i].Open? ==> |Expected(run[i + 1])| <= run[0].limit
  }

  lemma {:induction false} AdmissionsDecide(run: seq<State>, steps: seq<Step>, n: nat)
    requires IsRun(run, steps) && AdmissionsFit(run, steps) && n < |run|
    ensures |Expected(run[n])| <= run[0].limit
  {
    if n == 0 {
      assert Expected(run[0]) == {};
    } else if !steps[n - 1].Open? {
      AdmissionsDecide(run, steps, n - 1);
      RunKeepsInv(run, steps, n - 1);
      ExpectationNeverRises(run[n - 1], steps[n - 1]);
    } else {
      assert |Expected(run[(n - 1) + 1])| <= run[0].limit;
    }
  }

  lemma {:induction false} LimitIsFixed(run: seq<State>, steps: seq<Step>, n: nat)
    requires IsPath(run, steps) && n < |run|
    ensures run[n].limit == run[0].limit
  {
    if n > 0 { LimitIsFixed(run, steps, n - 1); }
  }

  /** A run is at every moment safe from passing the limit exactly when each admission fits. */
  lemma LimitHoldsExactlyWhenAdmissionsFit(run: seq<State>, steps: seq<Step>)
    requires IsRun(run, steps)
    ensures AdmissionsFit(run, steps) <==> forall n :: 0 <= n < |run| ==> StaysWithinLimit(run[n])
  {
    forall n | 0 <= n < |run| ensures StaysWithinLimit(run[n]) <==> |Expected(run[n])| <= run[0].limit {
      RunKeepsInv(run, steps, n);
      LimitIsFixed(run, steps, n);
      WithinLimitExactlyWhenExpectedFits(run[n]);
    }
    if AdmissionsFit(run, steps) {
      forall n | 0 <= n < |run| ensures StaysWithinLimit(run[n]) { AdmissionsDecide(run, steps, n); }
    } else {
      var i :| 0 <= i < |steps| && steps[i].Open? && |Expected(run[i + 1])| > run[0].limit;
      assert !StaysWithinLimit(run[i + 1]);
    }
  }

  /** A socket is admitted only when no other is between admission and insertion. */
  ghost predicate OneAdmissionAtATime(run: seq<State>, steps: seq<Step>)
    requires IsRun(run, steps)
  {
    forall i :: 0 <= i < |steps| && steps[i].Open? ==> PendingSet(run[i]) == {}
  }

  /** Admitting one socket at a time is enough. */
  lemma {:induction false} LimitHolds(run: seq<State>, steps: seq<Step>, n: nat)
    requires IsRun(run, steps) && OneAdmissionAtATime(run, steps) && n < |run|
    ensures |run[n].connections| <= |Expected(run[n])| <= run[0].limit
  {
    if n == 0 {
      assert Expected(run[0]) == {};
    } else {
      LimitHolds(run, steps, n - 1);
      RunKeepsInv(run, steps, n - 1);
      LimitIsFixed(run, steps, n - 1);
      if steps[n - 1].Open? {
        AdmittedAlone(run[n - 1], steps[n - 1].user);
      } else {
        ExpectationNeverRises(run[n - 1], steps[n - 1]);
      }
    }
    RunKeepsInv(run, steps, n);
    NoMoreThanExpected(run[n]);
  }

  lemma AdmittedAlone(s: State, u: User)
    requires Inv(s) && PendingSet(s) == {} && |s.connections| <= s.limit
    ensures |Expected(Apply(s, Open(u)))| <= s.limit
  {
    var t := Apply(s, Open(u));
    forall c | c in Expected(t) && c < |s.sockets| ensures c in s.connections {
      assert c !in PendingSet(s);
    }
    if |s.connections| < s.limit {
      Shrinks(Expected(t), s.connections + {|s.sockets|});
    } else {
      Shrinks(Expected(t), s.connections);
    }
  }

  // ---------------------------------------------------------------------
  // Failing runs, for every limit
  // ---------------------------------------------------------------------

  function AllAdmitted(limit: nat, users: seq<User>): State {
    State(limit, {}, map[], seq(|users|, i requires 0 <= i < |users| => Socket(users[i], Accepted, None)))
  }

  lemma {:induction false} AdmitAll(limit: nat, users: seq<User>) returns (run: seq<State>, steps: seq<Step>)
    requires limit > 0
    ensures IsRun(run, steps) && run[0] == Init(limit) && run[|steps|] == AllAdmitted(limit, users)
  {
    if users == [] {
      run, steps := [Init(limit)], [];
      assert AllAdmitted(limit, []) == Init(limit);
    } else {
      var front, u := users[..|users| - 1], users[|users| - 1];
      run, steps := AdmitAll(limit, front);
      run, steps := Extend(run, steps, Open(u));
      assert AllAdmitted(limit, users).sockets == AllAdmitted(limit, front).sockets + [Socket(u, Accepted, None)];
    }
  }

  /** Whatever the limit, that many users and one more can all get in at once. */
  lemma LimitCanBePassed(limit: nat, users: seq<User>) returns (run: seq<State>, steps: seq<Step>)
    requires limit > 0 && |users| > limit
    ensures IsRun(run, steps) && run[0] == Init(limit) && |run[|steps|].connections| == |users| > limit
  {
    run, steps := AdmitAll(limit, users);
    var s := run[|steps|];
    RunKeepsInv(run, steps, |steps|);
    var more, moreSteps := InsertAll(s);
    run, steps := Join(run, steps, more, moreSteps);
    AllAreExpected(limit, users);
  }

  lemma {:induction false} AllAreExpected(limit: nat, users: seq<User>)
    ensures |Expected(AllAdmitted(limit, users))| == |users|
  {
    var s := AllAdmitted(limit, users);
    if users == [] {
      assert Expected(s) == {};
    } else {
      var front := users[..|users| - 1];
      AllAreExpected(limit, front);
      assert Expected(s) == Expected(AllAdmitted(limit, front)) + {|front|};
    }
  }

  /** Two overlapping registrations of one user leave two registered connections, whatever the limit. */
  lemma OverlapLeavesTwoConnections(limit: nat, u: User) returns (run: seq<State>, steps: seq<Step>)
    requires limit > 0
    ensures IsRun(run, steps) && run[0] == Init(limit)
    ensures var s := run[|steps|];
            && 0 in s.connections && 1 in s.connections && In(s, 0, Registered) && In(s, 1, Registered)
            && s.sockets[0].user == s.sockets[1].user
  {
    run, steps := AdmitAll(limit, [u, u]);
    run, steps := Extend(run, steps, Look(0));
    run, steps := Extend(run, steps, Look(1));
    RunKeepsInv(run, steps, |steps|);
    var more, moreSteps := OverlapCanLeaveTwo(run[|steps|], 0, 1);
    run, steps := Join(run, steps, more, moreSteps);
  }
}
