// WebSocket connection ownership: registration, reconnects and the
// compare-and-remove guard that cleans up after a socket.
//
// Registration touches the two concurrent maps in four separate steps and the
// guard in two; any number of sockets interleave between them.

module Connections {
  import opened Wrappers

  type User = string

  /** A connection id is the number of its socket: ids are never reused. */
  type ConnId = nat

  datatype Phase =
    | Accepted     // passed the connection limit
    | Looked       // has read the user's current connection
    | Evicted      // has removed that connection
    | Inserted     // own connection is in the connection map
    | Registered   // user mapping set, guard alive
    | Leaving      // guard has removed the connection
    | Closed       // guard has finished
    | Rejected

  /** `prior` is what the registration read for its user. */
  datatype Socket = Socket(user: User, phase: Phase, prior: Option<ConnId>)

  datatype State = State(
    limit: nat,
    connections: set<ConnId>,
    users: map<User, ConnId>,
    sockets: seq<Socket>)

  datatype Step =
    | Open(user: User)
    | Look(conn: ConnId)
    | Evict(conn: ConnId)
    | Insert(conn: ConnId)
    | MapUser(conn: ConnId)
    | DropConnection(conn: ConnId)
    | DropUser(conn: ConnId)

  function Init(limit: nat): State { State(limit, {}, map[], []) }

  predicate In(s: State, c: ConnId, phase: Phase) { c < |s.sockets| && s.sockets[c].phase == phase }

  predicate Enabled(s: State, step: Step) {
    match step
    case Open(_) => true
    case Look(c) => In(s, c, Accepted)
    case Evict(c) => In(s, c, Looked)
    case Insert(c) => In(s, c, Evicted)
    case MapUser(c) => In(s, c, Inserted)
    case DropConnection(c) => In(s, c, Registered)
    case DropUser(c) => In(s, c, Leaving)
  }

  function SetPhase(s: State, c: ConnId, phase: Phase): State
    requires c < |s.sockets|
  {
    s.(sockets := s.sockets[c := s.sockets[c].(phase := phase)])
  }

  function Current(s: State, u: User): Option<ConnId> { if u in s.users then Some(s.users[u]) else None }

  function Apply(s: State, step: Step): State
    requires Enabled(s, step)
  {
    match step
    case Open(u) => s.(sockets := s.sockets + [Socket(u, if |s.connections| >= s.limit then Rejected else Accepted, None)])
    case Look(c) => s.(sockets := s.sockets[c := Socket(s.sockets[c].user, Looked, Current(s, s.sockets[c].user))])
    case Evict(c) =>
      var t := SetPhase(s, c, Evicted);
      if s.sockets[c].prior.Some? then t.(connections := s.connections - {s.sockets[c].prior.value}) else t
    case Insert(c) => SetPhase(s, c, Inserted).(connections := s.connections + {c})
    case MapUser(c) => SetPhase(s, c, Registered).(users := s.users[s.sockets[c].user := c])
    case DropConnection(c) => SetPhase(s, c, Leaving).(connections := s.connections - {c})
    case DropUser(c) =>
      var u := s.sockets[c].user;
      var t := SetPhase(s, c, Closed);
      if Current(s, u) == Some(c) then t.(users := s.users - {u}) else t
  }

  // ---------------------------------------------------------------------
  // Invariant
  // ---------------------------------------------------------------------

  predicate Mapped(phase: Phase) { phase.Registered? || phase.Leaving? || phase.Closed? }

  /** A registration that may have removed the connection it read. */
  predicate HasEvicted(phase: Phase) { phase.Evicted? || phase.Inserted? || Mapped(phase) }

  /** A registration between its read of the user map and its write. */
  predicate Underway(phase: Phase) { phase.Looked? || phase.Evicted? || phase.Inserted? }

  /** The connection a registration read is an earlier, fully mapped one of the same user. */
  ghost predicate OldOk(s: State, j: ConnId)
    requires j < |s.sockets|
  {
    s.sockets[j].prior.Some? ==>
      var c := s.sockets[j].prior.value;
      && c < |s.sockets| && c != j && s.sockets[c].user == s.sockets[j].user
      && Mapped(s.sockets[c].phase)
      && (Mapped(s.sockets[j].phase) ==> Current(s, s.sockets[j].user) != Some(c))
  }

  ghost predicate EvictedBySomeone(s: State, c: ConnId) {
    exists j :: 0 <= j < |s.sockets| && s.sockets[j].prior == Some(c) && HasEvicted(s.sockets[j].phase)
  }

  ghost predicate UsersInv(s: State) {
    forall u :: u in s.users ==>
      var c := s.users[u];
      c < |s.sockets| && s.sockets[c].user == u && (s.sockets[c].phase.Registered? || s.sockets[c].phase.Leaving?)
  }

  ghost predicate ConnectionsInv(s: State) {
    && (forall c :: c in s.connections ==>
          c < |s.sockets| && (s.sockets[c].phase.Inserted? || s.sockets[c].phase.Registered?))
    && (forall c :: 0 <= c < |s.sockets| && s.sockets[c].phase.Inserted? ==> c in s.connections)
  }

  ghost predicate MapInv(s: State) { UsersInv(s) && ConnectionsInv(s) }

  ghost predicate OldInv(s: State) { forall j :: 0 <= j < |s.sockets| ==> OldOk(s, j) }

  /** A registered socket loses its connection only to a newer registration. */
  ghost predicate EvictionInv(s: State) {
    forall c :: 0 <= c < |s.sockets| && s.sockets[c].phase.Registered? && c !in s.connections ==> EvictedBySomeone(s, c)
  }

  ghost predicate Inv(s: State) { MapInv(s) && OldInv(s) && EvictionInv(s) }

  lemma StepKeepsUsers(s: State, step: Step)
    requires UsersInv(s) && Enabled(s, step)
    ensures UsersInv(Apply(s, step))
  {
  }

  lemma StepKeepsConnections(s: State, step: Step)
    requires ConnectionsInv(s) && OldInv(s) && Enabled(s, step)
    ensures ConnectionsInv(Apply(s, step))
  {
    if step.Evict? { assert OldOk(s, step.conn); }
  }

  lemma StepKeepsMaps(s: State, step: Step)
    requires MapInv(s) && OldInv(s) && Enabled(s, step)
    ensures MapInv(Apply(s, step))
  {
    StepKeepsUsers(s, step);
    StepKeepsConnections(s, step);
  }

  /** Steps that leave the user map alone. */
  lemma OldStaysUnmapped(s: State, step: Step, j: ConnId)
    requires MapInv(s) && Enabled(s, step) && !step.MapUser? && !step.DropUser?
    requires j < |s.sockets| && OldOk(s, j)
    ensures OldOk(Apply(s, step), j)
  {
    match step
    case Open(_) =>
    case Look(_) =>
    case Evict(_) =>
    case Insert(_) =>
    case DropConnection(_) =>
  }

  lemma OldStays(s: State, step: Step, j: ConnId)
    requires MapInv(s) && Enabled(s, step) && j < |s.sockets| && OldOk(s, j)
    ensures OldOk(Apply(s, step), j)
  {
    if !step.MapUser? && !step.DropUser? { OldStaysUnmapped(s, step, j); }
  }

  lemma StepKeepsOld(s: State, step: Step)
    requires MapInv(s) && OldInv(s) && Enabled(s, step)
    ensures OldInv(Apply(s, step))
  {
    var t := Apply(s, step);
    forall j | 0 <= j < |t.sockets| ensures OldOk(t, j) {
      if j < |s.sockets| { OldStays(s, step, j); }
    }
  }

  lemma PriorStays(s: State, step: Step, j: ConnId)
    requires Enabled(s, step) && j < |s.sockets| && HasEvicted(s.sockets[j].phase)
    ensures var t := Apply(s, step);
            j < |t.sockets| && t.sockets[j].prior == s.sockets[j].prior && HasEvicted(t.sockets[j].phase)
  {
    match step
    case Open(_) =>
    case Look(_) =>
    case Evict(_) =>
    case Insert(_) =>
    case MapUser(_) =>
    case DropConnection(_) =>
    case DropUser(_) =>
  }

  lemma EvictionsStay(s: State, step: Step, c: ConnId)
    requires Enabled(s, step) && EvictedBySomeone(s, c)
    ensures EvictedBySomeone(Apply(s, step), c)
  {
    var j :| 0 <= j < |s.sockets| && s.sockets[j].prior == Some(c) && HasEvicted(s.sockets[j].phase);
    PriorStays(s, step, j);
  }

  lemma StepKeepsEvictions(s: State, step: Step)
    requires Inv(s) && Enabled(s, step)
    ensures EvictionInv(Apply(s, step))
  {
    var t := Apply(s, step);
    forall c | 0 <= c < |t.sockets| && t.sockets[c].phase.Registered? && c !in t.connections
      ensures EvictedBySomeone(t, c)
    {
      if step.Evict? && s.sockets[step.conn].prior == Some(c) {
        assert t.sockets[step.conn].prior == Some(c) && HasEvicted(t.sockets[step.conn].phase);
      } else {
        assert EvictedBySomeone(s, c);
        EvictionsStay(s, step, c);
      }
    }
  }

  lemma StepKeepsInv(s: State, step: Step)
    requires Inv(s) && Enabled(s, step)
    ensures Inv(Apply(s, step))
  {
    StepKeepsMaps(s, step);
    StepKeepsOld(s, step);
    StepKeepsEvictions(s, step);
  }

  ghost predicate IsPath(run: seq<State>, steps: seq<Step>) {
    && |run| == |steps| + 1
    && (forall i :: 0 <= i < |steps| ==> Enabled(run[i], steps[i]) && run[i + 1] == Apply(run[i], steps[i]))
  }

  /** A path that starts with no connections at all. */
  ghost predicate IsRun(run: seq<State>, steps: seq<Step>) {
    IsPath(run, steps) && run[0] == Init(run[0].limit)
  }

  lemma {:induction false} PathKeepsInv(run: seq<State>, steps: seq<Step>, n: nat)
    requires IsPath(run, steps) && Inv(run[0]) && n < |run|
    ensures Inv(run[n])
  {
    if n > 0 {
      PathKeepsInv(run, steps, n - 1);
      StepKeepsInv(run[n - 1], steps[n - 1]);
    }
  }

  lemma RunKeepsInv(run: seq<State>, steps: seq<Step>, n: nat)
    requires IsRun(run, steps) && n < |run|
    ensures Inv(run[n])
  {
    PathKeepsInv(run, steps, n);
  }

  lemma Extend(run: seq<State>, steps: seq<Step>, step: Step) returns (run': seq<State>, steps': seq<Step>)
    requires IsPath(run, steps) && Enabled(run[|steps|], step)
    ensures IsPath(run', steps') && run'[0] == run[0]
    ensures run'[|steps'|] == Apply(run[|steps|], step) && steps' == steps + [step]
  {
    run', steps' := run + [Apply(run[|steps|], step)], steps + [step];
  }

  lemma Join(run: seq<State>, steps: seq<Step>, more: seq<State>, moreSteps: seq<Step>) returns (run': seq<State>, steps': seq<Step>)
    requires IsPath(run, steps) && IsPath(more, moreSteps) && more[0] == run[|steps|]
    ensures IsPath(run', steps') && run'[0] == run[0] && run'[|steps'|] == more[|moreSteps|]
    ensures steps' == steps + moreSteps
  {
    run', steps' := run[..|steps|] + more, steps + moreSteps;
    forall i | 0 <= i < |steps'| ensures Enabled(run'[i], steps'[i]) && run'[i + 1] == Apply(run'[i], steps'[i]) {
      if i >= |steps| {
        assert run'[i] == more[i - |steps|] && steps'[i] == moreSteps[i - |steps|] && run'[i + 1] == more[i - |steps| + 1];
      } else {
        assert run'[i] == run[i] && run'[i + 1] == run[i + 1];
      }
    }
  }

  // ---------------------------------------------------------------------
  // Reconnect safety
  // ---------------------------------------------------------------------

  /**
   * A user's mapping never dangles for long: the connection it names is live,
   * or its own guard is half way through, or a newer registration of the same
   * user has evicted it and is about to take over the mapping.
   */
  lemma MappingNeverDangles(run: seq<State>, steps: seq<Step>, n: nat, u: User)
    requires IsRun(run, steps) && n < |run| && u in run[n].users
    ensures var s := run[n]; var c := s.users[u];
            || c in s.connections
            || In(s, c, Leaving)
            || exists j :: 0 <= j < |s.sockets| && s.sockets[j].user == u && s.sockets[j].prior == Some(c) && Underway(s.sockets[j].phase)
  {
    RunKeepsInv(run, steps, n);
    var s := run[n];
    var c := s.users[u];
    if c !in s.connections && s.sockets[c].phase.Registered? {
      var j :| 0 <= j < |s.sockets| && s.sockets[j].prior == Some(c) && HasEvicted(s.sockets[j].phase);
      assert OldOk(s, j);
      assert s.sockets[j].user == u && Underway(s.sockets[j].phase);
    }
  }

  /** Socket `c` is the user's connection and can be written to. */
  predicate Serving(s: State, c: ConnId) {
    c < |s.sockets| && c in s.connections && Current(s, s.sockets[c].user) == Some(c)
  }

  /** Steps that may end the service of `c`: its own guard, or a registration of the same user. */
  predicate MayReplace(s: State, step: Step, c: ConnId)
    requires Enabled(s, step) && c < |s.sockets|
  {
    match step
    case DropConnection(d) => d == c
    case DropUser(d) => d == c
    case Evict(d) => s.sockets[d].user == s.sockets[c].user
    case MapUser(d) => s.sockets[d].user == s.sockets[c].user
    case _ => false
  }

  /** The step cannot end the service of `c`. */
  predicate Leaves(s: State, step: Step, c: ConnId) {
    Enabled(s, step) && c < |s.sockets| ==> !MayReplace(s, step, c)
  }

  lemma OthersLeaveServing(s: State, step: Step, c: ConnId)
    requires Inv(s) && Enabled(s, step) && Serving(s, c) && !MayReplace(s, step, c)
    ensures Serving(Apply(s, step), c) && Apply(s, step).sockets[c].user == s.sockets[c].user
  {
    if step.Evict? { assert OldOk(s, step.conn); }
  }

  lemma ServingStays(run: seq<State>, steps: seq<Step>, i: nat, c: ConnId)
    requires IsRun(run, steps) && i < |steps| && Serving(run[i], c) && Leaves(run[i], steps[i], c)
    ensures Serving(run[i + 1], c) && run[i + 1].sockets[c].user == run[i].sockets[c].user
  {
    RunKeepsInv(run, steps, i);
    OthersLeaveServing(run[i], steps[i], c);
  }

  /**
   * A stale guard never removes a newer connection: through any stretch of a
   * run without its own guard or a new registration of its user, a serving
   * connection stays mapped and connected, whatever older guards do.
   */
  lemma {:induction false} StaleGuardsAreHarmless(run: seq<State>, steps: seq<Step>, m: nat, n: nat, c: ConnId)
    requires IsRun(run, steps) && m <= n < |run| && Serving(run[m], c)
    requires forall i :: m <= i < n ==> Leaves(run[i], steps[i], c)
    ensures Serving(run[n], c) && run[n].sockets[c].user == run[m].sockets[c].user
  {
    if m < n {
      StaleGuardsAreHarmless(run, steps, m, n - 1, c);
      ServingStays(run, steps, n - 1, c);
    }
  }

  /** The guard's last step removes the mapping exactly when it is still its own, and nothing else. */
  lemma GuardRemovesOnlyItsOwn(s: State, c: ConnId, u: User)
    requires Inv(s) && Enabled(s, DropUser(c))
    ensures var t := Apply(s, DropUser(c));
            && t.connections == s.connections
            && (Current(t, u) == Current(s, u) <==> Current(s, u) != Some(c))
            && Current(t, u) != Some(c)
  {
  }

  // ---------------------------------------------------------------------
  // One connection per user
  // ---------------------------------------------------------------------

  ghost predicate NoneUnderway(s: State, u: User) {
    forall j :: 0 <= j < |s.sockets| && s.sockets[j].user == u ==> !Underway(s.sockets[j].phase)
  }

  /** Registrations of one user do not overlap. */
  ghost predicate Sequential(run: seq<State>, steps: seq<Step>)
    requires IsRun(run, steps)
  {
    forall i :: 0 <= i < |steps| && steps[i].Look? ==> NoneUnderway(run[i], run[i].sockets[steps[i].conn].user)
  }

  ghost predicate OneUnderway(s: State) {
    forall i, j :: 0 <= i < |s.sockets| && 0 <= j < |s.sockets| && s.sockets[i].user == s.sockets[j].user ==>
      Underway(s.sockets[i].phase) && Underway(s.sockets[j].phase) ==> i == j
  }

  /** While `j` registers, connection `c` of the same user is the one it read, or its own. */
  predicate Fits(s: State, c: ConnId, j: ConnId)
    requires j < |s.sockets|
  {
    && (s.sockets[j].phase.Looked? ==> s.sockets[j].prior == Some(c))
    && !s.sockets[j].phase.Evicted?
    && (s.sockets[j].phase.Inserted? ==> j == c)
  }

  ghost predicate SoloInv(s: State) {
    && OneUnderway(s)
    && (forall c, j :: c in s.connections && c < |s.sockets| && 0 <= j < |s.sockets| ==>
          s.sockets[j].user == s.sockets[c].user ==> Fits(s, c, j))
    && (forall c :: c in s.connections && c < |s.sockets| && !s.sockets[c].phase.Inserted? ==>
          Current(s, s.sockets[c].user) == Some(c))
  }

  lemma StepKeepsOneUnderway(s: State, step: Step)
    requires OneUnderway(s) && Enabled(s, step)
    requires step.Look? ==> NoneUnderway(s, s.sockets[step.conn].user)
    ensures OneUnderway(Apply(s, step))
  {
    var t := Apply(s, step);
    forall i, j | 0 <= i < |t.sockets| && 0 <= j < |t.sockets| && t.sockets[i].user == t.sockets[j].user &&
                  Underway(t.sockets[i].phase) && Underway(t.sockets[j].phase)
      ensures i == j
    {
      assert i < |s.sockets| && j < |s.sockets|;
    }
  }

  lemma StepKeepsFit(s: State, step: Step)
    requires Inv(s) && SoloInv(s) && Enabled(s, step)
    requires step.Look? ==> NoneUnderway(s, s.sockets[step.conn].user)
    ensures var t := Apply(s, step);
            forall c, j :: c in t.connections && c < |t.sockets| && 0 <= j < |t.sockets| ==>
              t.sockets[j].user == t.sockets[c].user ==> Fits(t, c, j)
  {
    var t := Apply(s, step);
    forall c, j | c in t.connections && c < |t.sockets| && 0 <= j < |t.sockets| && t.sockets[j].user == t.sockets[c].user
      ensures Fits(t, c, j)
    {
      if c in s.connections && j < |s.sockets| { assert Fits(s, c, j); }
    }
  }

  lemma StepKeepsCurrent(s: State, step: Step)
    requires Inv(s) && SoloInv(s) && Enabled(s, step)
    requires step.Look? ==> NoneUnderway(s, s.sockets[step.conn].user)
    ensures var t := Apply(s, step);
            forall c :: c in t.connections && c < |t.sockets| && !t.sockets[c].phase.Inserted? ==>
              Current(t, t.sockets[c].user) == Some(c)
  {
    var t := Apply(s, step);
    forall c | c in t.connections && c < |t.sockets| && !t.sockets[c].phase.Inserted?
      ensures Current(t, t.sockets[c].user) == Some(c)
    {
      assert c in s.connections;
      if step.MapUser? && s.sockets[step.conn].user == s.sockets[c].user { assert Fits(s, c, step.conn); }
    }
  }

  lemma StepKeepsSolo(s: State, step: Step)
    requires Inv(s) && SoloInv(s) && Enabled(s, step)
    requires step.Look? ==> NoneUnderway(s, s.sockets[step.conn].user)
    ensures SoloInv(Apply(s, step))
  {
    StepKeepsOneUnderway(s, step);
    StepKeepsFit(s, step);
    StepKeepsCurrent(s, step);
  }

  lemma {:induction false} RunKeepsSolo(run: seq<State>, steps: seq<Step>, n: nat)
    requires IsRun(run, steps) && Sequential(run, steps) && n < |run|
    ensures SoloInv(run[n])
  {
    if n > 0 {
      RunKeepsSolo(run, steps, n - 1);
      RunKeepsInv(run, steps, n - 1);
      StepKeepsSolo(run[n - 1], steps[n - 1]);
    }
  }

  /** A user has at most one connection as long as its registrations do not overlap. */
  lemma OneConnectionPerUser(run: seq<State>, steps: seq<Step>, n: nat, c: ConnId, d: ConnId)
    requires IsRun(run, steps) && Sequential(run, steps) && n < |run|
    requires c in run[n].connections && d in run[n].connections
    ensures c < |run[n].sockets| && d < |run[n].sockets|
    ensures run[n].sockets[c].user == run[n].sockets[d].user ==> c == d
  {
    RunKeepsInv(run, steps, n);
    RunKeepsSolo(run, steps, n);
  }

  // ---------------------------------------------------------------------
  // The manager
  // ---------------------------------------------------------------------

  class WebSocketManager {
    const limit: nat
    var connections: set<ConnId>
    var users: map<User, ConnId>
    var sockets: seq<Socket>

    function View(): State
      reads this
    {
      State(limit, connections, users, sockets)
    }

    constructor (limit: nat)
      ensures View() == Init(limit)
    {
      this.limit := limit;
      connections, users, sockets := {}, map[], [];
    }

    method Admit(user: User) returns (conn: ConnId, admitted: bool)
      modifies this`sockets
      ensures View() == Apply(old(View()), Open(user)) && conn == |old(sockets)|
      ensures admitted <==> In(View(), conn, Accepted)
    {
      conn := |sockets|;
      admitted := |connections| < limit;
      sockets := sockets + [Socket(user, if admitted then Accepted else Rejected, None)];
    }

    method LookUpOld(conn: ConnId)
      requires Enabled(View(), Look(conn))
      modifies this`sockets
      ensures View() == Apply(old(View()), Look(conn))
    {
      var user := sockets[conn].user;
      if user in users {
        sockets := sockets[conn := Socket(user, Looked, Some(users[user]))];
      } else {
        sockets := sockets[conn := Socket(user, Looked, None)];
      }
    }

    method EvictOld(conn: ConnId)
      requires Enabled(View(), Evict(conn))
      modifies this
      ensures View() == Apply(old(View()), Evict(conn))
    {
      if sockets[conn].prior.Some? {
        connections := connections - {sockets[conn].prior.value};
      }
      sockets := sockets[conn := sockets[conn].(phase := Evicted)];
    }

    method InsertConnection(conn: ConnId)
      requires Enabled(View(), Insert(conn))
      modifies this
      ensures View() == Apply(old(View()), Insert(conn))
    {
      connections := connections + {conn};
      sockets := sockets[conn := sockets[conn].(phase := Inserted)];
    }

    method InsertUser(conn: ConnId)
      requires Enabled(View(), MapUser(conn))
      modifies this
      ensures View() == Apply(old(View()), MapUser(conn))
    {
      users := users[sockets[conn].user := conn];
      sockets := sockets[conn := sockets[conn].(phase := Registered)];
    }

    method GuardDropsConnection(conn: ConnId)
      requires Enabled(View(), DropConnection(conn))
      modifies this
      ensures View() == Apply(old(View()), DropConnection(conn))
    {
      connections := connections - {conn};
      sockets := sockets[conn := sockets[conn].(phase := Leaving)];
    }

    /** Compare and remove; the caller forgets the session's approvals when told so. */
    method GuardDropsUser(conn: ConnId) returns (wasRemoved: bool)
      requires Enabled(View(), DropUser(conn))
      modifies this
      ensures View() == Apply(old(View()), DropUser(conn))
      ensures wasRemoved <==> Current(old(View()), old(sockets)[conn].user) == Some(conn)
    {
      var user := sockets[conn].user;
      wasRemoved := user in users && users[user] == conn;
      if wasRemoved {
        users := users - {user};
      }
      sockets := sockets[conn := sockets[conn].(phase := Closed)];
    }
  }
}
