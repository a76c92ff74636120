// The in-memory broker's point-to-point queues.
//
// A publish is a snapshot of the topic's sender, a send, and then a separate
// counter increment; a receive is a take and then a separate increment. Any
// number of publishers and subscribers interleave between those steps, and a
// topic can be closed and recreated under them.

module MemoryBroker {
  import opened Wrappers

  type Topic = string

  /** `id` is the number of the publish call that built the envelope. */
  datatype Envelope = Envelope(id: nat, topic: Topic)

  datatype Queue = Queue(
    topic: Topic,
    waiting: seq<Envelope>,
    accepted: seq<Envelope>,     // every successful send, in order
    delivered: seq<Envelope>,    // every receive, in order
    takers: seq<nat>,            // the subscriber of each receive
    published: nat, consumed: nat)

  datatype Publish =
    | Holding(env: Envelope, queue: nat, blocking: bool)   // owns a cloned sender
    | Bumping(env: Envelope, queue: nat, pos: nat)         // sent, counter not yet incremented
    | Published(env: Envelope, queue: nat, pos: nat)
    | QueueFull(env: Envelope)
    | ChannelClosed(env: Envelope)

  datatype Subscriber = Ready(queue: nat) | Counting(queue: nat) | Gone(queue: nat)

  datatype State = State(
    capacity: nat,
    topics: map<Topic, nat>,
    queues: seq<Queue>,
    publishes: seq<Publish>,
    subscribers: seq<Subscriber>)

  datatype Step =
    | Snapshot(topic: Topic, blocking: bool)
    | SendOk(call: nat)
    | SendFull(call: nat)
    | SendClosed(call: nat)
    | BumpPublished(call: nat)
    | Subscribe(topic: Topic)
    | Receive(sub: nat)
    | BumpConsumed(sub: nat)
    | Unsubscribe(sub: nat)
    | CloseTopic(topic: Topic)

  function Init(capacity: nat): State { State(capacity, map[], [], [], []) }

  function NewQueue(topic: Topic): Queue { Queue(topic, [], [], [], [], 0, 0) }

  predicate Listens(sub: Subscriber, q: nat) { !sub.Gone? && sub.queue == q }

  /** The map entry and every live subscriber hold a receiver; without one a channel is closed. */
  predicate HasReceiver(s: State, q: nat) {
    q in s.topics.Values || exists i :: 0 <= i < |s.subscribers| && Listens(s.subscribers[i], q)
  }

  predicate Room(s: State, q: nat) { q < |s.queues| && |s.queues[q].waiting| < s.capacity }

  predicate IsHolding(s: State, i: nat) {
    i < |s.publishes| && s.publishes[i].Holding? && s.publishes[i].queue < |s.queues|
  }

  predicate Enabled(s: State, step: Step) {
    match step
    case Snapshot(_, _) => true
    case SendOk(i) => IsHolding(s, i) && HasReceiver(s, s.publishes[i].queue) && Room(s, s.publishes[i].queue)
    case SendFull(i) => IsHolding(s, i) && !s.publishes[i].blocking && HasReceiver(s, s.publishes[i].queue) &&
                        !Room(s, s.publishes[i].queue)
    case SendClosed(i) => IsHolding(s, i) && !HasReceiver(s, s.publishes[i].queue)
    case BumpPublished(i) => i < |s.publishes| && s.publishes[i].Bumping? && s.publishes[i].queue < |s.queues|
    case Subscribe(_) => true
    case Receive(b) => b < |s.subscribers| && s.subscribers[b].Ready? && s.subscribers[b].queue < |s.queues| &&
                       s.queues[s.subscribers[b].queue].waiting != []
    case BumpConsumed(b) => b < |s.subscribers| && s.subscribers[b].Counting? && s.subscribers[b].queue < |s.queues|
    case Unsubscribe(b) => b < |s.subscribers| && s.subscribers[b].Ready?
    case CloseTopic(_) => true
  }

  /** The topic's queue, built on first use. */
  function WithQueue(s: State, topic: Topic): State {
    if topic in s.topics then s
    else s.(topics := s.topics[topic := |s.queues|], queues := s.queues + [NewQueue(topic)])
  }

  function SetQueue(s: State, q: nat, queue: Queue): State
    requires q < |s.queues|
  {
    s.(queues := s.queues[q := queue])
  }

  function SetPublish(s: State, i: nat, p: Publish): State
    requires i < |s.publishes|
  {
    s.(publishes := s.publishes[i := p])
  }

  function SetSubscriber(s: State, b: nat, sub: Subscriber): State
    requires b < |s.subscribers|
  {
    s.(subscribers := s.subscribers[b := sub])
  }

  function Sent(s: State, i: nat): State
    requires IsHolding(s, i)
  {
    var p := s.publishes[i];
    var q := s.queues[p.queue];
    SetPublish(
      SetQueue(s, p.queue, q.(waiting := q.waiting + [p.env], accepted := q.accepted + [p.env])),
      i, Bumping(p.env, p.queue, |q.accepted|))
  }

  function Taken(s: State, b: nat): State
    requires Enabled(s, Receive(b))
  {
    var qid := s.subscribers[b].queue;
    var q := s.queues[qid];
    SetSubscriber(
      SetQueue(s, qid, q.(waiting := q.waiting[1..], delivered := q.delivered + [q.waiting[0]], takers := q.takers + [b])),
      b, Counting(qid))
  }

  function Apply(s: State, step: Step): State
    requires Enabled(s, step)
  {
    match step
    case Snapshot(topic, blocking) =>
      var t := WithQueue(s, topic);
      t.(publishes := t.publishes + [Holding(Envelope(|t.publishes|, topic), t.topics[topic], blocking)])
    case SendOk(i) => Sent(s, i)
    case SendFull(i) => SetPublish(s, i, QueueFull(s.publishes[i].env))
    case SendClosed(i) => SetPublish(s, i, ChannelClosed(s.publishes[i].env))
    case BumpPublished(i) =>
      var p := s.publishes[i];
      var q := s.queues[p.queue];
      SetPublish(SetQueue(s, p.queue, q.(published := q.published + 1)), i, Published(p.env, p.queue, p.pos))
    case Subscribe(topic) =>
      var t := WithQueue(s, topic);
      t.(subscribers := t.subscribers + [Ready(t.topics[topic])])
    case Receive(b) => Taken(s, b)
    case BumpConsumed(b) =>
      var qid := s.subscribers[b].queue;
      var q := s.queues[qid];
      SetSubscriber(SetQueue(s, qid, q.(consumed := q.consumed + 1)), b, Ready(qid))
    case Unsubscribe(b) => SetSubscriber(s, b, Gone(s.subscribers[b].queue))
    case CloseTopic(topic) => s.(topics := s.topics - {topic})
  }

  // ---------------------------------------------------------------------
  // Invariants
  // ---------------------------------------------------------------------

  /** Publishes that reached queue `q` without having incremented its counter. */
  function UncountedSends(ps: seq<Publish>, q: nat): nat {
    if ps == [] then 0
    else UncountedSends(ps[..|ps| - 1], q) + (if ps[|ps| - 1].Bumping? && ps[|ps| - 1].queue == q then 1 else 0)
  }

  /** Receives from queue `q` whose subscriber has not yet incremented the counter. */
  function UncountedReceives(subs: seq<Subscriber>, q: nat): nat {
    if subs == [] then 0
    else UncountedReceives(subs[..|subs| - 1], q) + (if subs[|subs| - 1] == Counting(q) then 1 else 0)
  }

  ghost predicate QueueOk(s: State, q: nat)
    requires q < |s.queues|
  {
    var queue := s.queues[q];
    && queue.accepted == queue.delivered + queue.waiting
    && |queue.takers| == |queue.delivered|
    && |queue.waiting| <= s.capacity
    && queue.published + UncountedSends(s.publishes, q) == |queue.accepted|
    && queue.consumed + UncountedReceives(s.subscribers, q) == |queue.delivered|
  }

  ghost predicate QueueInv(s: State) {
    forall q :: 0 <= q < |s.queues| ==> QueueOk(s, q)
  }

  ghost predicate TopicInv(s: State) {
    && (forall t :: t in s.topics ==> s.topics[t] < |s.queues| && s.queues[s.topics[t]].topic == t)
    && (forall i :: 0 <= i < |s.publishes| ==> s.publishes[i].env.id == i)
    && (forall i :: 0 <= i < |s.publishes| && !s.publishes[i].QueueFull? && !s.publishes[i].ChannelClosed? ==>
          s.publishes[i].queue < |s.queues| && s.queues[s.publishes[i].queue].topic == s.publishes[i].env.topic)
    && (forall b :: 0 <= b < |s.subscribers| ==> s.subscribers[b].queue < |s.queues|)
  }

  predicate Placed(p: Publish) { p.Bumping? || p.Published? }

  ghost predicate PlacedAt(s: State, env: Envelope, q: nat, pos: nat) {
    && env.id < |s.publishes|
    && Placed(s.publishes[env.id])
    && s.publishes[env.id].env == env && s.publishes[env.id].queue == q && s.publishes[env.id].pos == pos
  }

  /** Queues hold exactly the envelopes whose send succeeded, each once. */
  ghost predicate PlaceInv(s: State) {
    && (forall q, pos :: 0 <= q < |s.queues| && 0 <= pos < |s.queues[q].accepted| ==>
          PlacedAt(s, s.queues[q].accepted[pos], q, pos))
    && (forall i :: 0 <= i < |s.publishes| && Placed(s.publishes[i]) ==> PlaceOk(s, s.publishes[i]))
  }

  ghost predicate PlaceOk(s: State, p: Publish)
    requires Placed(p)
  {
    p.queue < |s.queues| && p.pos < |s.queues[p.queue].accepted| && s.queues[p.queue].accepted[p.pos] == p.env
  }

  ghost predicate Inv(s: State) { QueueInv(s) && TopicInv(s) && PlaceInv(s) }

  // ---------------------------------------------------------------------
  // Counting lemmas
  // ---------------------------------------------------------------------

  function One(b: bool): nat { if b then 1 else 0 }

  lemma {:induction false} SetUncountedSends(ps: seq<Publish>, i: nat, p: Publish, q: nat)
    requires i < |ps|
    ensures UncountedSends(ps[i := p], q) + One(ps[i].Bumping? && ps[i].queue == q)
         == UncountedSends(ps, q) + One(p.Bumping? && p.queue == q)
  {
    var n := |ps| - 1;
    if i == n {
      assert ps[i := p][..n] == ps[..n];
    } else {
      assert ps[i := p][..n] == ps[..n][i := p];
      SetUncountedSends(ps[..n], i, p, q);
    }
  }

  lemma {:induction false} SetUncountedReceives(subs: seq<Subscriber>, i: nat, sub: Subscriber, q: nat)
    requires i < |subs|
    ensures UncountedReceives(subs[i := sub], q) + One(subs[i] == Counting(q))
         == UncountedReceives(subs, q) + One(sub == Counting(q))
  {
    var n := |subs| - 1;
    if i == n {
      assert subs[i := sub][..n] == subs[..n];
    } else {
      assert subs[i := sub][..n] == subs[..n][i := sub];
      SetUncountedReceives(subs[..n], i, sub, q);
    }
  }

  lemma {:induction false} NoneUncounted(ps: seq<Publish>, subs: seq<Subscriber>, q: nat)
    requires forall i :: 0 <= i < |ps| && ps[i].Bumping? ==> ps[i].queue < q
    requires forall b :: 0 <= b < |subs| ==> subs[b].queue < q
    ensures UncountedSends(ps, q) == 0 && UncountedReceives(subs, q) == 0
    decreases |ps| + |subs|
  {
    if ps != [] { NoneUncounted(ps[..|ps| - 1], subs, q); }
    if subs != [] { NoneUncounted(ps, subs[..|subs| - 1], q); }
  }

  // ---------------------------------------------------------------------
  // Every step keeps the invariants
  // ---------------------------------------------------------------------

  lemma WithQueueKeeps(s: State, topic: Topic)
    requires Inv(s)
    ensures Inv(WithQueue(s, topic))
  {
    var t := WithQueue(s, topic);
    forall q | 0 <= q < |t.queues| ensures QueueOk(t, q) {
      if q < |s.queues| { assert QueueOk(s, q); } else { NoneUncounted(s.publishes, s.subscribers, q); }
    }
  }

  lemma AppendPublishKeeps(s: State, p: Publish)
    requires Inv(s) && p.Holding? && p.env.id == |s.publishes|
    requires p.queue < |s.queues| && s.queues[p.queue].topic == p.env.topic
    ensures Inv(s.(publishes := s.publishes + [p]))
  {
    var t := s.(publishes := s.publishes + [p]);
    assert t.publishes[..|s.publishes|] == s.publishes;
    forall q | 0 <= q < |t.queues| ensures QueueOk(t, q) { assert QueueOk(s, q); }
  }

  lemma AppendSubscriberKeeps(s: State, q: nat)
    requires Inv(s) && q < |s.queues|
    ensures Inv(s.(subscribers := s.subscribers + [Ready(q)]))
  {
    var t := s.(subscribers := s.subscribers + [Ready(q)]);
    assert t.subscribers[..|s.subscribers|] == s.subscribers;
    forall r | 0 <= r < |t.queues| ensures QueueOk(t, r) { assert QueueOk(s, r); }
  }

  lemma RefusedKeeps(s: State, i: nat, p: Publish)
    requires Inv(s) && IsHolding(s, i) && (p.QueueFull? || p.ChannelClosed?) && p.env == s.publishes[i].env
    ensures Inv(SetPublish(s, i, p))
  {
    var t := SetPublish(s, i, p);
    forall q | 0 <= q < |t.queues| ensures QueueOk(t, q) {
      assert QueueOk(s, q);
      SetUncountedSends(s.publishes, i, p, q);
    }
  }

  lemma SentKeeps(s: State, i: nat)
    requires Inv(s) && Enabled(s, SendOk(i))
    ensures Inv(Sent(s, i))
  {
    var t := Sent(s, i);
    forall q | 0 <= q < |t.queues| ensures QueueOk(t, q) {
      assert QueueOk(s, q);
      SetUncountedSends(s.publishes, i, t.publishes[i], q);
    }
    forall q, pos | 0 <= q < |t.queues| && 0 <= pos < |t.queues[q].accepted|
      ensures PlacedAt(t, t.queues[q].accepted[pos], q, pos)
    {
      if pos < |s.queues[q].accepted| { assert PlacedAt(s, s.queues[q].accepted[pos], q, pos); }
    }
  }

  lemma BumpPublishedKeeps(s: State, i: nat)
    requires Inv(s) && Enabled(s, BumpPublished(i))
    ensures Inv(Apply(s, BumpPublished(i)))
  {
    var t := Apply(s, BumpPublished(i));
    forall q | 0 <= q < |t.queues| ensures QueueOk(t, q) {
      assert QueueOk(s, q);
      SetUncountedSends(s.publishes, i, t.publishes[i], q);
    }
    assert PlaceOk(s, s.publishes[i]);
    forall q, pos | 0 <= q < |t.queues| && 0 <= pos < |t.queues[q].accepted|
      ensures PlacedAt(t, t.queues[q].accepted[pos], q, pos)
    {
      assert PlacedAt(s, s.queues[q].accepted[pos], q, pos);
    }
  }

  lemma TakenKeepsQueues(s: State, b: nat)
    requires QueueInv(s) && Enabled(s, Receive(b))
    ensures QueueInv(Taken(s, b))
  {
    var t := Taken(s, b);
    forall q | 0 <= q < |t.queues| ensures QueueOk(t, q) {
      assert QueueOk(s, q);
      SetUncountedReceives(s.subscribers, b, t.subscribers[b], q);
      if q == s.subscribers[b].queue {
        var w := s.queues[q].waiting;
        assert w == [w[0]] + w[1..];
      }
    }
  }

  lemma TakenKeeps(s: State, b: nat)
    requires Inv(s) && Enabled(s, Receive(b))
    ensures Inv(Taken(s, b))
  {
    var t := Taken(s, b);
    TakenKeepsQueues(s, b);
    forall q, pos | 0 <= q < |t.queues| && 0 <= pos < |t.queues[q].accepted|
      ensures PlacedAt(t, t.queues[q].accepted[pos], q, pos)
    {
      assert PlacedAt(s, s.queues[q].accepted[pos], q, pos);
    }
  }

  lemma BumpConsumedKeeps(s: State, b: nat)
    requires Inv(s) && Enabled(s, BumpConsumed(b))
    ensures Inv(Apply(s, BumpConsumed(b)))
  {
    var t := Apply(s, BumpConsumed(b));
    forall q | 0 <= q < |t.queues| ensures QueueOk(t, q) {
      assert QueueOk(s, q);
      SetUncountedReceives(s.subscribers, b, t.subscribers[b], q);
    }
    forall q, pos | 0 <= q < |t.queues| && 0 <= pos < |t.queues[q].accepted|
      ensures PlacedAt(t, t.queues[q].accepted[pos], q, pos)
    {
      assert PlacedAt(s, s.queues[q].accepted[pos], q, pos);
    }
  }

  lemma UnsubscribeKeeps(s: State, b: nat)
    requires Inv(s) && Enabled(s, Unsubscribe(b))
    ensures Inv(Apply(s, Unsubscribe(b)))
  {
    var t := Apply(s, Unsubscribe(b));
    forall q | 0 <= q < |t.queues| ensures QueueOk(t, q) {
      assert QueueOk(s, q);
      SetUncountedReceives(s.subscribers, b, Gone(s.subscribers[b].queue), q);
    }
  }

  lemma StepKeepsInv(s: State, step: Step)
    requires Inv(s) && Enabled(s, step)
    ensures Inv(Apply(s, step))
  {
    match step
    case Snapshot(topic, blocking) =>
      WithQueueKeeps(s, topic);
      var t := WithQueue(s, topic);
      AppendPublishKeeps(t, Holding(Envelope(|t.publishes|, topic), t.topics[topic], blocking));
    case SendOk(i) => SentKeeps(s, i);
    case SendFull(i) => RefusedKeeps(s, i, QueueFull(s.publishes[i].env));
    case SendClosed(i) => RefusedKeeps(s, i, ChannelClosed(s.publishes[i].env));
    case BumpPublished(i) => BumpPublishedKeeps(s, i);
    case Subscribe(topic) =>
      WithQueueKeeps(s, topic);
      var t := WithQueue(s, topic);
      AppendSubscriberKeeps(t, t.topics[topic]);
    case Receive(b) => TakenKeeps(s, b);
    case BumpConsumed(b) => BumpConsumedKeeps(s, b);
    case Unsubscribe(b) => UnsubscribeKeeps(s, b);
    case CloseTopic(topic) =>
      forall q | 0 <= q < |s.queues| ensures QueueOk(Apply(s, step), q) { assert QueueOk(s, q); }
  }

  // ---------------------------------------------------------------------
  // Whole runs
  // ---------------------------------------------------------------------

  ghost predicate IsRun(run: seq<State>, steps: seq<Step>) {
    && |run| == |steps| + 1
    && run[0] == Init(run[0].capacity)
    && (forall i :: 0 <= i < |steps| ==> Enabled(run[i], steps[i]) && run[i + 1] == Apply(run[i], steps[i]))
  }

  lemma {:induction false} RunKeepsInv(run: seq<State>, steps: seq<Step>, n: nat)
    requires IsRun(run, steps) && n < |run|
    ensures Inv(run[n])
  {
    if n > 0 {
      RunKeepsInv(run, steps, n - 1);
      StepKeepsInv(run[n - 1], steps[n - 1]);
    }
  }

  /** First in, first out, nothing lost and within capacity, however the calls interleave. */
  lemma QueueIsLossless(run: seq<State>, steps: seq<Step>, n: nat, q: nat)
    requires IsRun(run, steps) && n < |run| && q < |run[n].queues|
    ensures run[n].queues[q].delivered + run[n].queues[q].waiting == run[n].queues[q].accepted
    ensures |run[n].queues[q].waiting| <= run[n].capacity
  {
    RunKeepsInv(run, steps, n);
    assert QueueOk(run[n], q);
  }

  /** Work stealing: an envelope is received at most once, by one subscriber, from the queue that accepted it. */
  lemma EachEnvelopeHasOneTaker(run: seq<State>, steps: seq<Step>, n: nat, q: nat, a: nat, r: nat, b: nat)
    requires IsRun(run, steps) && n < |run| && q < |run[n].queues| && r < |run[n].queues|
    requires a < |run[n].queues[q].delivered| && b < |run[n].queues[r].delivered|
    requires run[n].queues[q].delivered[a] == run[n].queues[r].delivered[b]
    ensures q == r && a == b
    ensures a < |run[n].queues[q].takers|
  {
    RunKeepsInv(run, steps, n);
    var s := run[n];
    assert QueueOk(s, q) && QueueOk(s, r);
    assert PlacedAt(s, s.queues[q].accepted[a], q, a);
    assert PlacedAt(s, s.queues[r].accepted[b], r, b);
  }

  // Topics

  /** Whoever took an envelope from a queue has a receiver of that queue. */
  ghost predicate TakerInv(s: State) {
    forall q, p :: 0 <= q < |s.queues| && 0 <= p < |s.queues[q].takers| ==>
      s.queues[q].takers[p] < |s.subscribers| && s.subscribers[s.queues[q].takers[p]].queue == q
  }

  lemma NothingMoves(s: State, step: Step)
    requires Enabled(s, step)
    ensures var t := Apply(s, step);
            && |s.subscribers| <= |t.subscribers| && |s.publishes| <= |t.publishes| && |s.queues| <= |t.queues|
            && (forall b :: 0 <= b < |s.subscribers| ==> t.subscribers[b].queue == s.subscribers[b].queue)
            && (forall i :: 0 <= i < |s.publishes| ==> t.publishes[i].env == s.publishes[i].env)
            && (forall q :: 0 <= q < |s.queues| ==> t.queues[q].topic == s.queues[q].topic)
  {
  }

  lemma TakenKeepsTakers(s: State, b: nat)
    requires TakerInv(s) && Enabled(s, Receive(b))
    ensures TakerInv(Taken(s, b))
  {
  }

  lemma StepKeepsTakers(s: State, step: Step)
    requires TakerInv(s) && Enabled(s, step)
    ensures TakerInv(Apply(s, step))
  {
    NothingMoves(s, step);
    if step.Receive? {
      TakenKeepsTakers(s, step.sub);
    } else {
      assert forall q :: 0 <= q < |s.queues| ==> Apply(s, step).queues[q].takers == s.queues[q].takers;
    }
  }

  lemma {:induction false} RunKeepsTakers(run: seq<State>, steps: seq<Step>, n: nat)
    requires IsRun(run, steps) && n < |run|
    ensures TakerInv(run[n])
  {
    if n > 0 {
      RunKeepsTakers(run, steps, n - 1);
      StepKeepsTakers(run[n - 1], steps[n - 1]);
    }
  }

  /** Every subscriber has a queue of the topic it once subscribed to. */
  lemma {:induction false} SubscriberHasItsTopic(run: seq<State>, steps: seq<Step>, n: nat, b: nat)
    requires IsRun(run, steps) && n < |run| && b < |run[n].subscribers|
    ensures var q := run[n].subscribers[b].queue;
            q < |run[n].queues| &&
            exists k :: 0 <= k < n && steps[k] == Subscribe(run[n].queues[q].topic) && |run[k].subscribers| == b
  {
    if n > 0 {
      var s, step := run[n - 1], steps[n - 1];
      RunKeepsInv(run, steps, n - 1);
      NothingMoves(s, step);
      if b < |s.subscribers| {
        SubscriberHasItsTopic(run, steps, n - 1, b);
      } else {
        NewSubscriber(s, step);
        assert steps[n - 1] == Subscribe(run[n].queues[run[n].subscribers[b].queue].topic);
      }
    }
  }

  lemma NewSubscriber(s: State, step: Step)
    requires TopicInv(s) && Enabled(s, step) && |Apply(s, step).subscribers| > |s.subscribers|
    ensures step.Subscribe?
    ensures var t := Apply(s, step);
            && |t.subscribers| == |s.subscribers| + 1
            && var q := t.subscribers[|s.subscribers|].queue;
               q < |t.queues| && t.queues[q].topic == step.topic && step.topic in t.topics && t.topics[step.topic] == q
  {
  }

  /** Every envelope carries the topic its publisher named. */
  lemma {:induction false} EnvelopeHasItsTopic(run: seq<State>, steps: seq<Step>, n: nat, i: nat)
    requires IsRun(run, steps) && n < |run| && i < |run[n].publishes|
    ensures exists k :: 0 <= k < n && steps[k].Snapshot? && steps[k].topic == run[n].publishes[i].env.topic && |run[k].publishes| == i
  {
    if n > 0 {
      NothingMoves(run[n - 1], steps[n - 1]);
      if i < |run[n - 1].publishes| {
        EnvelopeHasItsTopic(run, steps, n - 1, i);
      } else {
        assert steps[n - 1].Snapshot? && steps[n - 1].topic == run[n].publishes[i].env.topic;
      }
    }
  }

  /** Over every run, what a subscriber receives was published to the topic it subscribed to. */
  lemma DeliveredToItsTopic(run: seq<State>, steps: seq<Step>, n: nat, q: nat, p: nat)
    requires IsRun(run, steps) && n < |run| && q < |run[n].queues| && p < |run[n].queues[q].delivered|
    ensures var queue := run[n].queues[q]; var env := queue.delivered[p];
            && p < |queue.takers|
            && (exists k :: 0 <= k < n && steps[k] == Subscribe(env.topic) && |run[k].subscribers| == queue.takers[p])
            && (exists k :: 0 <= k < n && steps[k].Snapshot? && steps[k].topic == env.topic && |run[k].publishes| == env.id)
  {
    RunKeepsInv(run, steps, n);
    RunKeepsTakers(run, steps, n);
    var s := run[n];
    assert QueueOk(s, q);
    assert s.queues[q].accepted[p] == s.queues[q].delivered[p];
    assert PlacedAt(s, s.queues[q].accepted[p], q, p);
    SubscriberHasItsTopic(run, steps, n, s.queues[q].takers[p]);
    EnvelopeHasItsTopic(run, steps, n, s.queues[q].delivered[p].id);
  }

  // Refusals

  /** A publish is refused as full only if it does not block and the queue holds `capacity` envelopes. */
  lemma {:induction false} FullOnlyWhenFull(run: seq<State>, steps: seq<Step>, n: nat, i: nat)
    requires IsRun(run, steps) && n < |run| && i < |run[n].publishes| && run[n].publishes[i].QueueFull?
    ensures exists k :: 0 <= k < n && IsHolding(run[k], i) && !run[k].publishes[i].blocking &&
                        |run[k].queues[run[k].publishes[i].queue].waiting| >= run[k].capacity
  {
    if n > 0 {
      NothingMoves(run[n - 1], steps[n - 1]);
      if i < |run[n - 1].publishes| && run[n - 1].publishes[i].QueueFull? {
        FullOnlyWhenFull(run, steps, n - 1, i);
      } else {
        assert IsHolding(run[n - 1], i);
      }
    }
  }

  /** A publish finds its channel closed only if the topic was closed and no subscriber is left. */
  lemma {:induction false} ClosedOnlyWithoutReceivers(run: seq<State>, steps: seq<Step>, n: nat, i: nat)
    requires IsRun(run, steps) && n < |run| && i < |run[n].publishes| && run[n].publishes[i].ChannelClosed?
    ensures exists k :: 0 <= k < n && IsHolding(run[k], i) && run[k].publishes[i].queue !in run[k].topics.Values &&
                        forall b :: 0 <= b < |run[k].subscribers| && run[k].subscribers[b].queue == run[k].publishes[i].queue ==>
                          run[k].subscribers[b].Gone?
  {
    if n > 0 {
      var s := run[n - 1];
      NothingMoves(s, steps[n - 1]);
      if i < |s.publishes| && s.publishes[i].ChannelClosed? {
        ClosedOnlyWithoutReceivers(run, steps, n - 1, i);
      } else {
        assert IsHolding(s, i) && !HasReceiver(s, s.publishes[i].queue);
        assert forall b :: 0 <= b < |s.subscribers| ==> !Listens(s.subscribers[b], s.publishes[i].queue);
      }
    }
  }

  /** After a topic is closed its next subscriber starts with a new, empty queue. */
  lemma ReopenedTopicStartsEmpty(s: State, topic: Topic)
    ensures var t := Apply(Apply(s, CloseTopic(topic)), Subscribe(topic));
            && t.subscribers == s.subscribers + [Ready(|s.queues|)]
            && t.queues == s.queues + [Queue(topic, [], [], [], [], 0, 0)]
  {
  }

  /**
   * The counters are exact up to increments still under way, so a metrics
   * snapshot balances exactly when as many sends as receives are uncounted.
   */
  lemma MetricsBalance(run: seq<State>, steps: seq<Step>, n: nat, q: nat)
    requires IsRun(run, steps) && n < |run| && q < |run[n].queues|
    ensures var s := run[n]; var queue := s.queues[q];
            && (queue.published as int - queue.consumed as int == |queue.waiting|
                <==> UncountedSends(s.publishes, q) == UncountedReceives(s.subscribers, q))
            && queue.published + UncountedSends(s.publishes, q) == |queue.accepted|
            && queue.consumed + UncountedReceives(s.subscribers, q) == |queue.delivered|
  {
    RunKeepsInv(run, steps, n);
    assert QueueOk(run[n], q);
  }

  /** A snapshot shows more consumed than published exactly when the uncounted sends outnumber what waits and what is uncounted. */
  lemma ConsumedLeadsExactlyWhen(run: seq<State>, steps: seq<Step>, n: nat, q: nat)
    requires IsRun(run, steps) && n < |run| && q < |run[n].queues|
    ensures var s := run[n]; var queue := s.queues[q];
            queue.consumed > queue.published <==>
            UncountedSends(s.publishes, q) > |queue.waiting| + UncountedReceives(s.subscribers, q)
  {
    MetricsBalance(run, steps, n, q);
    RunKeepsInv(run, steps, n);
    assert QueueOk(run[n], q);
  }

  ghost predicate Quiescent(s: State) {
    && (forall i :: 0 <= i < |s.publishes| ==> !s.publishes[i].Bumping?)
    && (forall b :: 0 <= b < |s.subscribers| ==> !s.subscribers[b].Counting?)
  }

  lemma {:induction false} QuiescentCountsNothing(ps: seq<Publish>, subs: seq<Subscriber>, q: nat)
    requires forall i :: 0 <= i < |ps| ==> !ps[i].Bumping?
    requires forall b :: 0 <= b < |subs| ==> !subs[b].Counting?
    ensures UncountedSends(ps, q) == 0 && UncountedReceives(subs, q) == 0
    decreases |ps| + |subs|
  {
    if ps != [] { QuiescentCountsNothing(ps[..|ps| - 1], subs, q); }
    if subs != [] { QuiescentCountsNothing(ps, subs[..|subs| - 1], q); }
  }

  lemma MetricsExactWhenQuiet(run: seq<State>, steps: seq<Step>, n: nat, q: nat)
    requires IsRun(run, steps) && n < |run| && q < |run[n].queues| && Quiescent(run[n])
    ensures var queue := run[n].queues[q];
            queue.published == |queue.accepted| && queue.consumed == |queue.delivered| &&
            queue.published == queue.consumed + |queue.waiting|
  {
    RunKeepsInv(run, steps, n);
    assert QueueOk(run[n], q);
    QuiescentCountsNothing(run[n].publishes, run[n].subscribers, q);
  }

  lemma Extend(run: seq<State>, steps: seq<Step>, step: Step, next: State) returns (run': seq<State>, steps': seq<Step>)
    requires IsRun(run, steps) && Enabled(run[|steps|], step) && next == Apply(run[|steps|], step)
    ensures IsRun(run', steps') && run'[|steps'|] == next
  {
    run', steps' := run + [next], steps + [step];
  }

  lemma OneEnvelopeAccepted() returns (run: seq<State>, steps: seq<Step>)
    ensures IsRun(run, steps)
    ensures var e := Envelope(0, "t");
            run[|steps|] == State(1, map["t" := 0], [Queue("t", [e], [e], [], [], 0, 0)], [Bumping(e, 0, 0)], [Ready(0)])
  {
    var e := Envelope(0, "t");
    var topics: map<Topic, nat> := map["t" := 0];
    var q := NewQueue("t");
    run, steps := [Init(1)], [];
    run, steps := Extend(run, steps, Subscribe("t"), State(1, topics, [q], [], [Ready(0)]));
    run, steps := Extend(run, steps, Snapshot("t", true), State(1, topics, [q], [Holding(e, 0, true)], [Ready(0)]));
    assert 0 in topics.Values by { assert topics["t"] == 0; }
    assert q.waiting + [e] == [e];
    run, steps := Extend(run, steps, SendOk(0),
                         State(1, topics, [Queue("t", [e], [e], [], [], 0, 0)], [Bumping(e, 0, 0)], [Ready(0)]));
  }

  /** Mid-flight a snapshot can report more consumed than published. */
  lemma ConsumedCanLeadPublished() returns (run: seq<State>, steps: seq<Step>)
    ensures IsRun(run, steps) && |run[|steps|].queues| == 1
    ensures run[|steps|].queues[0].consumed > run[|steps|].queues[0].published
  {
    var e := Envelope(0, "t");
    var topics: map<Topic, nat> := map["t" := 0];
    var q := NewQueue("t");
    run, steps := OneEnvelopeAccepted();
    assert [e][1..] == [] && q.delivered + [e] == [e] && q.takers + [0] == [0];
    run, steps := Extend(run, steps, Receive(0),
                         State(1, topics, [Queue("t", [], [e], [e], [0], 0, 0)], [Bumping(e, 0, 0)], [Counting(0)]));
    run, steps := Extend(run, steps, BumpConsumed(0),
                         State(1, topics, [Queue("t", [], [e], [e], [0], 0, 1)], [Bumping(e, 0, 0)], [Ready(0)]));
  }

  // ---------------------------------------------------------------------
  // The broker itself
  // ---------------------------------------------------------------------

  datatype SendOutcome = Accepted | Full | Closed

  datatype QueueMetrics = QueueMetrics(depth: nat, totalPublished: nat, totalConsumed: nat)

  class Broker {
    const capacity: nat
    var topics: map<Topic, nat>
    var queues: seq<Queue>
    var publishes: seq<Publish>
    var subscribers: seq<Subscriber>

    function View(): State
      reads this
    {
      State(capacity, topics, queues, publishes, subscribers)
    }

    constructor (capacity: nat)
      requires capacity > 0
      ensures View() == Init(capacity)
    {
      this.capacity := capacity;
      topics, queues, publishes, subscribers := map[], [], [], [];
    }

    method EnsureQueue(topic: Topic)
      modifies this`topics, this`queues
      ensures View() == WithQueue(old(View()), topic)
    {
      if topic !in topics {
        topics := topics[topic := |queues|];
        queues := queues + [NewQueue(topic)];
      }
    }

    method SenderSnapshot(topic: Topic, blocking: bool) returns (call: nat)
      modifies this
      ensures View() == Apply(old(View()), Snapshot(topic, blocking)) && call == |old(publishes)|
      ensures topic in topics && publishes == old(publishes) + [Holding(Envelope(call, topic), topics[topic], blocking)]
    {
      EnsureQueue(topic);
      call := |publishes|;
      publishes := publishes + [Holding(Envelope(call, topic), topics[topic], blocking)];
    }

    /** One attempt of the send: a blocking publish facing a full queue keeps waiting. */
    method TrySend(call: nat) returns (outcome: SendOutcome)
      requires IsHolding(View(), call)
      modifies this
      ensures outcome.Accepted? <==> Enabled(old(View()), SendOk(call))
      ensures outcome.Closed? <==> Enabled(old(View()), SendClosed(call))
      ensures outcome.Accepted? ==> View() == Apply(old(View()), SendOk(call))
      ensures outcome.Closed? ==> View() == Apply(old(View()), SendClosed(call))
      ensures outcome.Full? ==>
        View() == if old(publishes)[call].blocking then old(View()) else Apply(old(View()), SendFull(call))
    {
      var p := publishes[call];
      if !HasReceiver(View(), p.queue) {
        publishes := publishes[call := ChannelClosed(p.env)];
        return Closed;
      }
      var q := queues[p.queue];
      if |q.waiting| < capacity {
        publishes := publishes[call := Bumping(p.env, p.queue, |q.accepted|)];
        queues := queues[p.queue := q.(waiting := q.waiting + [p.env], accepted := q.accepted + [p.env])];
        return Accepted;
      }
      if !p.blocking {
        publishes := publishes[call := QueueFull(p.env)];
      }
      outcome := Full;
    }

    method CountPublished(call: nat)
      requires Enabled(View(), BumpPublished(call))
      modifies this
      ensures View() == Apply(old(View()), BumpPublished(call))
    {
      var p := publishes[call];
      var q := queues[p.queue];
      queues := queues[p.queue := q.(published := q.published + 1)];
      publishes := publishes[call := Published(p.env, p.queue, p.pos)];
    }

    method AddSubscriber(topic: Topic) returns (sub: nat)
      modifies this
      ensures View() == Apply(old(View()), Subscribe(topic)) && sub == |old(subscribers)|
      ensures topic in topics && subscribers == old(subscribers) + [Ready(topics[topic])]
      ensures TopicInv(old(View())) ==> topics[topic] < |queues| && queues[topics[topic]].topic == topic
    {
      EnsureQueue(topic);
      sub := |subscribers|;
      subscribers := subscribers + [Ready(topics[topic])];
    }

    method Take(sub: nat) returns (env: Envelope)
      requires Enabled(View(), Receive(sub))
      modifies this
      ensures View() == Apply(old(View()), Receive(sub))
      ensures env == old(queues[subscribers[sub].queue].waiting[0])
    {
      var qid := subscribers[sub].queue;
      var q := queues[qid];
      env := q.waiting[0];
      queues := queues[qid := q.(waiting := q.waiting[1..], delivered := q.delivered + [env], takers := q.takers + [sub])];
      subscribers := subscribers[sub := Counting(qid)];
    }

    method CountConsumed(sub: nat)
      requires Enabled(View(), BumpConsumed(sub))
      modifies this
      ensures View() == Apply(old(View()), BumpConsumed(sub))
    {
      var qid := subscribers[sub].queue;
      var q := queues[qid];
      queues := queues[qid := q.(consumed := q.consumed + 1)];
      subscribers := subscribers[sub := Ready(qid)];
    }

    /** A snapshot of the queue the topic currently has, if any. */
    method Metrics(topic: Topic) returns (m: Option<QueueMetrics>)
      requires TopicInv(View())
      ensures m.Some? <==> topic in topics
      ensures m.Some? ==>
        exists q :: 0 <= q < |queues| && topics[topic] == q && queues[q].topic == topic &&
                    m.value == QueueMetrics(|queues[q].waiting|, queues[q].published, queues[q].consumed)
    {
      if topic !in topics {
        return None;
      }
      var q := queues[topics[topic]];
      m := Some(QueueMetrics(|q.waiting|, q.published, q.consumed));
    }

    method Close(topic: Topic)
      modifies this`topics
      ensures View() == Apply(old(View()), CloseTopic(topic))
      ensures forall t :: t in topics <==> t in old(topics) && t != topic
    {
      topics := topics - {topic};
    }
  }
}
