// The per-session dispatch protocol of the session manager.
//
// Every stretch of code between two awaits is one atomic step. The state
// records the slot map, every channel ever created together with the worker
// that drains it, and one program counter per call of the dispatcher.

module SessionDispatch {
  type Key = string

  /** Channel bound used when a slot is claimed. */
  const CAPACITY: nat := 32

  /** `id` is the number of the dispatcher call that carries the message. */
  datatype Message = Message(id: nat, key: Key)

  datatype Task = Unspawned | Waiting | Handling(msg: Message) | Exited

  /** A channel, its task, and what became of the messages it accepted. */
  datatype Channel = Channel(
    key: Key, queue: seq<Message>, task: Task,
    accepted: seq<Message>,    // every message a send put in, in order
    done: seq<Message>, discarded: seq<Message>)
  {
    /** The receiver lives exactly as long as the worker task that owns it. */
    predicate Open() { !task.Exited? }

    function Current(): seq<Message> { if task.Handling? then [task.msg] else [] }
  }

  /** Program counter of one dispatcher call. */
  datatype Call =
    | Arrived(msg: Message)                        // before the intercept hook
    | Passed(msg: Message)                         // before the map lookup
    | FastSend(msg: Message, chan: nat)            // holds a sender from the map
    | Claim(msg: Message)                          // before the entry lock
    | Spawn(msg: Message, chan: nat)               // won the slot, task not started
    | FinalSend(msg: Message, chan: nat)           // holds the winner's sender
    | Intercepted(msg: Message)
    | Sent(msg: Message, chan: nat, pos: nat, stamp: nat)  // message `pos` of the channel, send `stamp` overall
    | Failed(msg: Message)                         // final send found the channel closed

  datatype State = State(
    sessions: map<Key, nat>,
    channels: seq<Channel>,
    calls: seq<Call>,
    sends: nat,                // successful sends so far
    started: seq<Message>)     // messages in the order handlers were entered

  datatype Step =
    | Begin(key: Key)
    | Intercept(call: nat)
    | Pass(call: nat)
    | Lookup(call: nat)
    | FastSendOk(call: nat)
    | FastSendErr(call: nat)
    | ClaimSlot(call: nat)
    | SpawnTask(call: nat)
    | FinalSendOk(call: nat)
    | FinalSendErr(call: nat)
    | Receive(chan: nat)
    | Finish(chan: nat)
    | IdleExit(chan: nat)
    | Abort(chan: nat)
    | Gc(keys: set<Key>)

  const INIT := State(map[], [], [], 0, [])

  predicate Live(s: State, chan: nat) { chan < |s.channels| && s.channels[chan].Open() }

  /** A bounded channel takes a message while its receiver lives and it has room. */
  predicate CanSend(s: State, chan: nat) {
    Live(s, chan) && |s.channels[chan].queue| < CAPACITY
  }

  predicate At(s: State, call: nat) { call < |s.calls| }

  predicate Enabled(s: State, step: Step) {
    match step
    case Begin(_) => true
    case Intercept(i) => At(s, i) && s.calls[i].Arrived?
    case Pass(i) => At(s, i) && s.calls[i].Arrived?
    case Lookup(i) => At(s, i) && s.calls[i].Passed?
    case FastSendOk(i) => At(s, i) && s.calls[i].FastSend? && CanSend(s, s.calls[i].chan)
    case FastSendErr(i) => At(s, i) && s.calls[i].FastSend? && !Live(s, s.calls[i].chan)
    case ClaimSlot(i) => At(s, i) && s.calls[i].Claim?
    case SpawnTask(i) => At(s, i) && s.calls[i].Spawn? && s.calls[i].chan < |s.channels|
    case FinalSendOk(i) => At(s, i) && s.calls[i].FinalSend? && CanSend(s, s.calls[i].chan)
    case FinalSendErr(i) => At(s, i) && s.calls[i].FinalSend? && !Live(s, s.calls[i].chan)
    case Receive(c) => c < |s.channels| && s.channels[c].task.Waiting? && s.channels[c].queue != []
    case Finish(c) => c < |s.channels| && s.channels[c].task.Handling?
    case IdleExit(c) => c < |s.channels| && s.channels[c].task.Waiting?
    case Abort(c) => c < |s.channels| && s.channels[c].task.Handling?
    case Gc(_) => true
  }

  function SetCall(s: State, i: nat, call: Call): State
    requires At(s, i)
  {
    s.(calls := s.calls[i := call])
  }

  function SetChannel(s: State, c: nat, channel: Channel): State
    requires c < |s.channels|
  {
    s.(channels := s.channels[c := channel])
  }

  function SendTo(s: State, i: nat, chan: nat): State
    requires At(s, i) && chan < |s.channels|
  {
    var c := s.channels[chan];
    var m := s.calls[i].msg;
    s.(channels := s.channels[chan := c.(queue := c.queue + [m], accepted := c.accepted + [m])],
       calls := s.calls[i := Sent(m, chan, |c.accepted|, s.sends)],
       sends := s.sends + 1)
  }

  /** A fresh channel goes into the slot; its task is still to be spawned. */
  function Install(s: State, i: nat): State
    requires At(s, i)
  {
    var m := s.calls[i].msg;
    s.(sessions := s.sessions[m.key := |s.channels|],
       channels := s.channels + [Channel(m.key, [], Unspawned, [], [], [])],
       calls := s.calls[i := Spawn(m, |s.channels|)])
  }

  function Started(s: State, i: nat, chan: nat): State
    requires At(s, i) && chan < |s.channels|
  {
    s.(channels := s.channels[chan := s.channels[chan].(task := Waiting)],
       calls := s.calls[i := FinalSend(s.calls[i].msg, chan)])
  }

  function Received(s: State, c: nat): State
    requires c < |s.channels| && s.channels[c].queue != []
  {
    var ch := s.channels[c];
    s.(channels := s.channels[c := ch.(queue := ch.queue[1..], task := Handling(ch.queue[0]))],
       started := s.started + [ch.queue[0]])
  }

  function Completed(c: Channel): Channel
    requires c.task.Handling?
  {
    c.(task := Waiting, done := c.done + [c.task.msg])
  }

  /** The receiver is dropped: whatever was queued or half handled is gone. */
  function Dropped(c: Channel): Channel {
    c.(queue := [], task := Exited, discarded := c.discarded + c.Current() + c.queue)
  }

  /** Closed channels under the swept keys leave the map. */
  function Swept(s: State, keys: set<Key>): State {
    s.(sessions := map k | k in s.sessions && (k in keys ==> Live(s, s.sessions[k])) :: s.sessions[k])
  }

  function Apply(s: State, step: Step): State
    requires Enabled(s, step)
  {
    match step
    case Begin(k) => s.(calls := s.calls + [Arrived(Message(|s.calls|, k))])
    case Intercept(i) => SetCall(s, i, Intercepted(s.calls[i].msg))
    case Pass(i) => SetCall(s, i, Passed(s.calls[i].msg))
    case Lookup(i) =>
      var m := s.calls[i].msg;
      SetCall(s, i, if m.key in s.sessions then FastSend(m, s.sessions[m.key]) else Claim(m))
    case FastSendOk(i) => SendTo(s, i, s.calls[i].chan)
    case FastSendErr(i) => SetCall(s, i, Claim(s.calls[i].msg))
    case ClaimSlot(i) =>
      var m := s.calls[i].msg;
      if m.key in s.sessions && Live(s, s.sessions[m.key]) then
        SetCall(s, i, FinalSend(m, s.sessions[m.key]))
      else
        Install(s, i)
    case SpawnTask(i) => Started(s, i, s.calls[i].chan)
    case FinalSendOk(i) => SendTo(s, i, s.calls[i].chan)
    case FinalSendErr(i) => SetCall(s, i, Failed(s.calls[i].msg))
    case Receive(c) => Received(s, c)
    case Finish(c) => SetChannel(s, c, Completed(s.channels[c]))
    case IdleExit(c) => SetChannel(s, c, Dropped(s.channels[c]))
    case Abort(c) => SetChannel(s, c, Dropped(s.channels[c]))
    case Gc(ks) => Swept(s, ks)
  }

  // ---------------------------------------------------------------------
  // Invariants
  // ---------------------------------------------------------------------

  /** The slot map names channels of the right key, and every open channel is the one in its slot. */
  ghost predicate SlotInv(s: State) {
    && (forall k :: k in s.sessions ==> s.sessions[k] < |s.channels| && s.channels[s.sessions[k]].key == k)
    && (forall c :: 0 <= c < |s.channels| && s.channels[c].Open() ==>
          s.channels[c].key in s.sessions && s.sessions[s.channels[c].key] == c)
  }

  /** What a channel accepted is, in order: handled, in the handler, queued, discarded. */
  ghost predicate ChannelOk(c: Channel) {
    && c.accepted == c.done + c.Current() + c.queue + c.discarded
    && |c.queue| <= CAPACITY
    && (c.task.Exited? ==> c.queue == [])
    && (c.Open() ==> c.discarded == [])
  }

  ghost predicate ChannelInv(s: State) {
    forall c :: 0 <= c < |s.channels| ==> ChannelOk(s.channels[c])
  }

  predicate HoldsSender(call: Call) { call.FastSend? || call.Spawn? || call.FinalSend? || call.Sent? }

  ghost predicate CallOk(channels: seq<Channel>, call: Call) {
    HoldsSender(call) ==>
      && call.chan < |channels|
      && channels[call.chan].key == call.msg.key
      && (call.Spawn? ==> channels[call.chan].task.Unspawned?)
  }

  /** Program counters refer to channels of their own key, and a task is started by one call at most. */
  ghost predicate CallInv(s: State) {
    && (forall i :: 0 <= i < |s.calls| ==> s.calls[i].msg.id == i && CallOk(s.channels, s.calls[i]))
    && (forall i, j :: 0 <= i < j < |s.calls| && s.calls[i].Spawn? && s.calls[j].Spawn? ==>
          s.calls[i].chan != s.calls[j].chan)
  }

  ghost predicate Accepted(s: State, m: Message) {
    m.id < |s.calls| && s.calls[m.id].Sent? && s.calls[m.id].msg == m
  }

  ghost predicate AcceptedAt(s: State, m: Message, c: nat, p: nat) {
    Accepted(s, m) && s.calls[m.id].chan == c && s.calls[m.id].pos == p
  }

  /** Channels hold exactly the messages whose send succeeded, each at the one place its call recorded. */
  ghost predicate SendInv(s: State) {
    && (forall i :: 0 <= i < |s.calls| && s.calls[i].Sent? ==> SentOk(s, s.calls[i]))
    && (forall c, p :: 0 <= c < |s.channels| && 0 <= p < |s.channels[c].accepted| ==>
          AcceptedAt(s, s.channels[c].accepted[p], c, p))
  }

  ghost predicate SentOk(s: State, call: Call)
    requires call.Sent?
  {
    && call.stamp < s.sends
    && call.chan < |s.channels|
    && call.pos < |s.channels[call.chan].accepted|
    && s.channels[call.chan].accepted[call.pos] == call.msg
  }

  ghost predicate Before(s: State, a: Message, b: Message) {
    Accepted(s, a) && Accepted(s, b) && s.calls[a.id].stamp < s.calls[b.id].stamp
  }

  /** Handlers are entered in acceptance order, across every respawn of a session's task. */
  ghost predicate StartedFifo(s: State) {
    && (forall a :: 0 <= a < |s.started| ==> Accepted(s, s.started[a]))
    && (forall a, b :: 0 <= a < b < |s.started| && s.started[a].key == s.started[b].key ==>
          Before(s, s.started[a], s.started[b]))
  }

  /** Queues are in acceptance order, and behind everything of their key that reached a handler. */
  ghost predicate QueueFifo(s: State) {
    && (forall c, p :: 0 <= c < |s.channels| && 0 <= p < |s.channels[c].queue| ==>
          Accepted(s, s.channels[c].queue[p]) && s.channels[c].queue[p].key == s.channels[c].key)
    && (forall c, p, a :: 0 <= c < |s.channels| && 0 <= p < |s.channels[c].queue| && 0 <= a < |s.started| ==>
          s.started[a].key == s.channels[c].key ==> Before(s, s.started[a], s.channels[c].queue[p]))
    && (forall c, p, q :: 0 <= c < |s.channels| && 0 <= p < q < |s.channels[c].queue| ==>
          Before(s, s.channels[c].queue[p], s.channels[c].queue[q]))
  }

  ghost predicate FifoInv(s: State) { StartedFifo(s) && QueueFifo(s) }

  ghost predicate Inv(s: State) {
    SlotInv(s) && ChannelInv(s) && CallInv(s) && SendInv(s) && FifoInv(s)
  }

  // ---------------------------------------------------------------------
  // Every step keeps the invariants
  // ---------------------------------------------------------------------

  lemma ReceiveKeepsChannel(c: Channel)
    requires ChannelOk(c) && c.task.Waiting? && c.queue != []
    ensures ChannelOk(c.(queue := c.queue[1..], task := Handling(c.queue[0])))
  {
    assert c.queue == [c.queue[0]] + c.queue[1..];
  }

  lemma SendKeepsChannel(c: Channel, m: Message)
    requires ChannelOk(c) && c.Open() && |c.queue| < CAPACITY
    ensures ChannelOk(c.(queue := c.queue + [m], accepted := c.accepted + [m]))
  {
  }

  lemma CompletedKeepsChannel(c: Channel)
    requires ChannelOk(c) && c.task.Handling?
    ensures ChannelOk(Completed(c))
  {
  }

  lemma DroppedKeepsChannel(c: Channel)
    requires ChannelOk(c) && c.Open()
    ensures ChannelOk(Dropped(c))
  {
  }

  lemma StepKeepsChannels(s: State, step: Step)
    requires ChannelInv(s) && CallInv(s) && Enabled(s, step)
    ensures ChannelInv(Apply(s, step))
  {
    match step
    case SpawnTask(i) =>
      assert CallOk(s.channels, s.calls[i]);
      assert ChannelOk(s.channels[s.calls[i].chan].(task := Waiting));
    case FastSendOk(i) => SendKeepsChannel(s.channels[s.calls[i].chan], s.calls[i].msg);
    case FinalSendOk(i) => SendKeepsChannel(s.channels[s.calls[i].chan], s.calls[i].msg);
    case Receive(c) => ReceiveKeepsChannel(s.channels[c]);
    case Finish(c) => CompletedKeepsChannel(s.channels[c]);
    case IdleExit(c) => DroppedKeepsChannel(s.channels[c]);
    case Abort(c) => DroppedKeepsChannel(s.channels[c]);
    case _ =>
  }

  /** From `s` to `t` nothing was accepted and no handler was entered. */
  ghost predicate Quiet(s: State, t: State) {
    && |s.calls| <= |t.calls| && |s.channels| <= |t.channels| && t.sends == s.sends && t.started == s.started
    && (forall i :: 0 <= i < |s.calls| ==> s.calls[i].Sent? || t.calls[i].Sent? ==> t.calls[i] == s.calls[i])
    && (forall i :: |s.calls| <= i < |t.calls| ==> !t.calls[i].Sent?)
    && (forall c :: 0 <= c < |s.channels| ==> QuietChannel(s.channels[c], t.channels[c]))
    && (forall c :: |s.channels| <= c < |t.channels| ==> t.channels[c].accepted == t.channels[c].queue == [])
  }

  ghost predicate QuietChannel(a: Channel, b: Channel) {
    b.key == a.key && b.accepted == a.accepted && (b.queue == a.queue || b.queue == [])
  }

  lemma QuietKeeps(s: State, t: State)
    requires SendInv(s) && FifoInv(s) && Quiet(s, t)
    ensures SendInv(t) && FifoInv(t)
  {
  }

  // One lemma for each shape of state change: slots and program counters stay
  // consistent and, unless a message moves, nothing else is observable.

  ghost predicate Consistent(s: State) { SlotInv(s) && CallInv(s) }

  lemma SetCallKeeps(s: State, i: nat, call: Call)
    requires Consistent(s) && At(s, i) && !s.calls[i].Sent? && !call.Sent? && !call.Spawn?
    requires call.msg == s.calls[i].msg && CallOk(s.channels, call)
    ensures Consistent(SetCall(s, i, call)) && Quiet(s, SetCall(s, i, call))
  {
  }

  lemma BeginKeeps(s: State, k: Key)
    requires Consistent(s)
    ensures Consistent(Apply(s, Begin(k))) && Quiet(s, Apply(s, Begin(k)))
  {
  }

  lemma InstallKeeps(s: State, i: nat)
    requires Consistent(s) && At(s, i) && !s.calls[i].Sent?
    requires s.calls[i].msg.key in s.sessions ==> !Live(s, s.sessions[s.calls[i].msg.key])
    ensures Consistent(Install(s, i)) && Quiet(s, Install(s, i))
  {
    var t := Install(s, i);
    forall j | 0 <= j < |t.calls| ensures t.calls[j].msg.id == j && CallOk(t.channels, t.calls[j]) {
      if j != i { assert CallOk(s.channels, s.calls[j]); }
    }
    forall j, k | 0 <= j < k < |t.calls| && t.calls[j].Spawn? && t.calls[k].Spawn?
      ensures t.calls[j].chan != t.calls[k].chan
    {
      assert CallOk(s.channels, s.calls[j]) && CallOk(s.channels, s.calls[k]);
    }
  }

  lemma StartedKeeps(s: State, i: nat)
    requires Consistent(s) && At(s, i) && s.calls[i].Spawn? && s.calls[i].chan < |s.channels|
    ensures Consistent(Started(s, i, s.calls[i].chan)) && Quiet(s, Started(s, i, s.calls[i].chan))
  {
    var t := Started(s, i, s.calls[i].chan);
    forall j | 0 <= j < |t.calls| ensures t.calls[j].msg.id == j && CallOk(t.channels, t.calls[j]) {
      assert CallOk(s.channels, s.calls[j]);
    }
  }

  /** A running task moves on, keeping or losing its receiver. */
  lemma SetChannelKeeps(s: State, c: nat, ch: Channel)
    requires Consistent(s) && Live(s, c) && !s.channels[c].task.Unspawned?
    requires ch.key == s.channels[c].key
    ensures Consistent(SetChannel(s, c, ch))
    ensures QuietChannel(s.channels[c], ch) ==> Quiet(s, SetChannel(s, c, ch))
  {
    var t := SetChannel(s, c, ch);
    forall j | 0 <= j < |t.calls| ensures t.calls[j].msg.id == j && CallOk(t.channels, t.calls[j]) {
      assert CallOk(s.channels, s.calls[j]);
    }
  }

  lemma SweptKeeps(s: State, keys: set<Key>)
    requires Consistent(s)
    ensures Consistent(Swept(s, keys)) && Quiet(s, Swept(s, keys))
  {
  }

  lemma SendKeepsConsistent(s: State, i: nat, chan: nat)
    requires Consistent(s) && At(s, i) && chan < |s.channels| && s.channels[chan].key == s.calls[i].msg.key
    ensures Consistent(SendTo(s, i, chan))
  {
    var t := SendTo(s, i, chan);
    forall j | 0 <= j < |t.calls| ensures t.calls[j].msg.id == j && CallOk(t.channels, t.calls[j]) {
      assert CallOk(s.channels, s.calls[j]);
    }
  }

  predicate MovesMessage(step: Step) { step.FastSendOk? || step.FinalSendOk? || step.Receive? }

  lemma StepKeepsConsistent(s: State, step: Step)
    requires Consistent(s) && Enabled(s, step)
    ensures Consistent(Apply(s, step))
    ensures !MovesMessage(step) ==> Quiet(s, Apply(s, step))
  {
    match step
    case Begin(k) => BeginKeeps(s, k);
    case Intercept(i) => SetCallKeeps(s, i, Intercepted(s.calls[i].msg));
    case Pass(i) => SetCallKeeps(s, i, Passed(s.calls[i].msg));
    case Lookup(i) =>
      var m := s.calls[i].msg;
      SetCallKeeps(s, i, if m.key in s.sessions then FastSend(m, s.sessions[m.key]) else Claim(m));
    case FastSendOk(i) => assert CallOk(s.channels, s.calls[i]); SendKeepsConsistent(s, i, s.calls[i].chan);
    case FastSendErr(i) => SetCallKeeps(s, i, Claim(s.calls[i].msg));
    case ClaimSlot(i) =>
      var m := s.calls[i].msg;
      if m.key in s.sessions && Live(s, s.sessions[m.key]) {
        SetCallKeeps(s, i, FinalSend(m, s.sessions[m.key]));
      } else {
        InstallKeeps(s, i);
      }
    case SpawnTask(i) => StartedKeeps(s, i);
    case FinalSendOk(i) => assert CallOk(s.channels, s.calls[i]); SendKeepsConsistent(s, i, s.calls[i].chan);
    case FinalSendErr(i) => SetCallKeeps(s, i, Failed(s.calls[i].msg));
    case Receive(c) =>
      var ch := s.channels[c];
      SetChannelKeeps(s, c, ch.(queue := ch.queue[1..], task := Handling(ch.queue[0])));
    case Finish(c) => SetChannelKeeps(s, c, Completed(s.channels[c]));
    case IdleExit(c) => SetChannelKeeps(s, c, Dropped(s.channels[c]));
    case Abort(c) => SetChannelKeeps(s, c, Dropped(s.channels[c]));
    case Gc(ks) => SweptKeeps(s, ks);
  }

  lemma SendKeepsSends(s: State, i: nat, chan: nat)
    requires SendInv(s) && CallInv(s) && At(s, i) && chan < |s.channels| && !s.calls[i].Sent?
    ensures SendInv(SendTo(s, i, chan))
  {
    var t := SendTo(s, i, chan);
    forall c, p | 0 <= c < |t.channels| && 0 <= p < |t.channels[c].accepted|
      ensures AcceptedAt(t, t.channels[c].accepted[p], c, p)
    {
      if p < |s.channels[c].accepted| { assert AcceptedAt(s, s.channels[c].accepted[p], c, p); }
    }
  }

  lemma SendKeepsStarted(s: State, i: nat, chan: nat)
    requires StartedFifo(s) && At(s, i) && chan < |s.channels| && !s.calls[i].Sent?
    ensures StartedFifo(SendTo(s, i, chan))
  {
  }

  lemma SendKeepsQueues(s: State, i: nat, chan: nat)
    requires SendInv(s) && FifoInv(s) && CallInv(s) && At(s, i) && chan < |s.channels|
    requires !s.calls[i].Sent? && s.channels[chan].key == s.calls[i].msg.key
    ensures QueueFifo(SendTo(s, i, chan))
  {
    var t := SendTo(s, i, chan);
    var m := s.calls[i].msg;
    assert forall x :: Accepted(s, x) ==> Accepted(t, x) && Before(t, x, m) && t.calls[x.id] == s.calls[x.id];
    assert forall x, y :: Before(s, x, y) ==> Before(t, x, y);
  }

  lemma ReceivedKeepsSends(s: State, c: nat)
    requires SendInv(s) && Enabled(s, Receive(c))
    ensures SendInv(Received(s, c))
  {
    var t := Received(s, c);
    forall d, p | 0 <= d < |t.channels| && 0 <= p < |t.channels[d].accepted|
      ensures AcceptedAt(t, t.channels[d].accepted[p], d, p)
    {
      assert AcceptedAt(s, s.channels[d].accepted[p], d, p);
    }
  }

  lemma ReceivedKeepsStarted(s: State, c: nat)
    requires FifoInv(s) && Enabled(s, Receive(c))
    ensures StartedFifo(Received(s, c))
  {
    var t := Received(s, c);
    forall a, b | 0 <= a < b < |t.started| && t.started[a].key == t.started[b].key
      ensures Before(t, t.started[a], t.started[b])
    {
      if b == |s.started| { assert Before(s, s.started[a], s.channels[c].queue[0]); }
      else { assert Before(s, s.started[a], s.started[b]); }
    }
  }

  lemma ReceivedKeepsQueues(s: State, c: nat)
    requires SlotInv(s) && ChannelInv(s) && QueueFifo(s) && Enabled(s, Receive(c))
    ensures QueueFifo(Received(s, c))
  {
    var t := Received(s, c);
    var m := s.channels[c].queue[0];
    assert Accepted(s, m) && m.key == s.channels[c].key;
    forall d, p | 0 <= d < |t.channels| && 0 <= p < |t.channels[d].queue|
      ensures Accepted(t, t.channels[d].queue[p]) && t.channels[d].queue[p].key == t.channels[d].key
    {
      assert t.channels[d].queue[p] == s.channels[d].queue[if d == c then p + 1 else p];
    }
    forall d, p, q | 0 <= d < |t.channels| && 0 <= p < q < |t.channels[d].queue|
      ensures Before(t, t.channels[d].queue[p], t.channels[d].queue[q])
    {
      var o := if d == c then 1 else 0;
      assert Before(s, s.channels[d].queue[p + o], s.channels[d].queue[q + o]);
    }
    forall d, p, a | 0 <= d < |t.channels| && 0 <= p < |t.channels[d].queue| && 0 <= a < |t.started| &&
                     t.started[a].key == t.channels[d].key
      ensures Before(t, t.started[a], t.channels[d].queue[p])
    {
      // Two queues of one key are both live, so by the slot invariant they are the same one.
      assert s.channels[d].Open() && s.channels[c].Open();
      var o := if d == c then 1 else 0;
      if a == |s.started| {
        assert d == c;
        assert Before(s, m, s.channels[c].queue[p + 1]);
      } else {
        assert Before(s, s.started[a], s.channels[d].queue[p + o]);
      }
    }
  }

  lemma StepKeepsInv(s: State, step: Step)
    requires Inv(s) && Enabled(s, step)
    ensures Inv(Apply(s, step))
  {
    StepKeepsConsistent(s, step);
    StepKeepsChannels(s, step);
    if step.FastSendOk? || step.FinalSendOk? {
      assert CallOk(s.channels, s.calls[step.call]);
      SendKeepsSends(s, step.call, s.calls[step.call].chan);
      SendKeepsStarted(s, step.call, s.calls[step.call].chan);
      SendKeepsQueues(s, step.call, s.calls[step.call].chan);
    } else if step.Receive? {
      ReceivedKeepsSends(s, step.chan);
      ReceivedKeepsStarted(s, step.chan);
      ReceivedKeepsQueues(s, step.chan);
    } else {
      QuietKeeps(s, Apply(s, step));
    }
  }

  // ---------------------------------------------------------------------
  // Whole runs
  // ---------------------------------------------------------------------

  ghost predicate IsPath(run: seq<State>, steps: seq<Step>) {
    && |run| == |steps| + 1
    && (forall i :: 0 <= i < |steps| ==> Enabled(run[i], steps[i]) && run[i + 1] == Apply(run[i], steps[i]))
  }

  /** `run` is a sequence of states that `steps` leads through from the empty manager. */
  ghost predicate IsRun(run: seq<State>, steps: seq<Step>) { IsPath(run, steps) && run[0] == INIT }

  lemma {:induction false} RunKeepsInv(run: seq<State>, steps: seq<Step>, n: nat)
    requires IsRun(run, steps) && n < |run|
    ensures Inv(run[n])
  {
    if n > 0 {
      RunKeepsInv(run, steps, n - 1);
      StepKeepsInv(run[n - 1], steps[n - 1]);
    }
  }

  /**
   * Serial processing per session, for any number of concurrent dispatchers:
   * a key has at most one open channel, that channel is the one in the map,
   * and at most one of its messages is inside the handler.
   */
  lemma OneTaskPerSession(run: seq<State>, steps: seq<Step>, n: nat, c: nat, d: nat)
    requires IsRun(run, steps) && n < |run|
    requires Live(run[n], c) && Live(run[n], d) && run[n].channels[c].key == run[n].channels[d].key
    ensures c == d
    ensures run[n].channels[c].key in run[n].sessions && run[n].sessions[run[n].channels[c].key] == c
  {
    RunKeepsInv(run, steps, n);
  }

  lemma OneMessageInHandler(run: seq<State>, steps: seq<Step>, n: nat, c: nat, d: nat)
    requires IsRun(run, steps) && n < |run| && c < |run[n].channels| && d < |run[n].channels|
    requires run[n].channels[c].task.Handling? && run[n].channels[d].task.Handling?
    requires run[n].channels[c].task.msg.key == run[n].channels[d].task.msg.key
    ensures c == d
  {
    RunKeepsInv(run, steps, n);
    var s := run[n];
    HandledKey(s, c);
    HandledKey(s, d);
  }

  lemma HandledKey(s: State, c: nat)
    requires Inv(s) && c < |s.channels| && s.channels[c].task.Handling?
    ensures s.channels[c].task.msg.key == s.channels[c].key
  {
    var ch := s.channels[c];
    assert ch.accepted[|ch.done|] == ch.task.msg;
    assert AcceptedAt(s, ch.accepted[|ch.done|], c, |ch.done|);
  }

  /** The task's "all senders gone" exit is dead code while the manager lives: the map holds a sender. */
  lemma OpenChannelKeepsASender(run: seq<State>, steps: seq<Step>, n: nat, c: nat)
    requires IsRun(run, steps) && n < |run| && Live(run[n], c)
    ensures c in run[n].sessions.Values
  {
    RunKeepsInv(run, steps, n);
    assert run[n].channels[c].key in run[n].sessions;
  }

  /** Where a dispatched message can be. */
  datatype Place =
    | WithDispatcher | ByIntercept | RefusedBySend
    | InQueue(chan: nat) | InHandler(chan: nat) | Handled(chan: nat) | Discarded(chan: nat)

  /** The message of call `i` occurs at `place`. */
  ghost predicate Holds(s: State, i: nat, place: Place)
    requires i < |s.calls|
  {
    var m := s.calls[i].msg;
    match place
    case WithDispatcher => s.calls[i].Arrived? || s.calls[i].Passed? || s.calls[i].FastSend? ||
                           s.calls[i].Claim? || s.calls[i].Spawn? || s.calls[i].FinalSend?
    case ByIntercept => s.calls[i].Intercepted?
    case RefusedBySend => s.calls[i].Failed?
    case InQueue(c) => c < |s.channels| && m in s.channels[c].queue
    case InHandler(c) => c < |s.channels| && m in s.channels[c].Current()
    case Handled(c) => c < |s.channels| && m in s.channels[c].done
    case Discarded(c) => c < |s.channels| && m in s.channels[c].discarded
  }

  /** The buckets are consecutive stretches of what the channel accepted. */
  function BucketStart(c: Channel, place: Place): nat
    requires place.InQueue? || place.InHandler? || place.Handled? || place.Discarded?
  {
    match place
    case Handled(_) => 0
    case InHandler(_) => |c.done|
    case InQueue(_) => |c.done| + |c.Current()|
    case Discarded(_) => |c.done| + |c.Current()| + |c.queue|
  }

  function Bucket(c: Channel, place: Place): seq<Message>
    requires place.InQueue? || place.InHandler? || place.Handled? || place.Discarded?
  {
    match place
    case Handled(_) => c.done
    case InHandler(_) => c.Current()
    case InQueue(_) => c.queue
    case Discarded(_) => c.discarded
  }

  lemma BucketAt(c: Channel, place: Place, k: nat)
    requires ChannelOk(c) && (place.InQueue? || place.InHandler? || place.Handled? || place.Discarded?)
    requires k < |Bucket(c, place)|
    ensures BucketStart(c, place) + k < |c.accepted|
    ensures c.accepted[BucketStart(c, place) + k] == Bucket(c, place)[k]
  {
  }

  /** A message found in a channel's buckets is the one its call put at that position. */
  lemma BucketPosition(s: State, i: nat, place: Place)
    requires Inv(s) && i < |s.calls| && Holds(s, i, place)
    requires place.InQueue? || place.InHandler? || place.Handled? || place.Discarded?
    ensures s.calls[i].Sent? && s.calls[i].chan == place.chan
    ensures var c := s.channels[place.chan];
            BucketStart(c, place) <= s.calls[i].pos < BucketStart(c, place) + |Bucket(c, place)|
  {
    var c := s.channels[place.chan];
    var m := s.calls[i].msg;
    var k :| 0 <= k < |Bucket(c, place)| && Bucket(c, place)[k] == m;
    BucketAt(c, place, k);
    var p := BucketStart(c, place) + k;
    assert AcceptedAt(s, c.accepted[p], place.chan, p);
  }

  /** Conservation: in every reachable state every dispatched message is in one place and no other. */
  lemma ExactlyOnePlace(run: seq<State>, steps: seq<Step>, n: nat, i: nat)
    requires IsRun(run, steps) && n < |run| && i < |run[n].calls|
    ensures exists place :: Holds(run[n], i, place)
    ensures forall a, b :: Holds(run[n], i, a) && Holds(run[n], i, b) ==> a == b
  {
    RunKeepsInv(run, steps, n);
    var s := run[n];
    var call := s.calls[i];
    SomePlace(s, i);
    forall a, b | Holds(s, i, a) && Holds(s, i, b) ensures a == b {
      if a.InQueue? || a.InHandler? || a.Handled? || a.Discarded? {
        BucketPosition(s, i, a);
        if b.InQueue? || b.InHandler? || b.Handled? || b.Discarded? { BucketPosition(s, i, b); }
      } else if b.InQueue? || b.InHandler? || b.Handled? || b.Discarded? {
        BucketPosition(s, i, b);
      }
    }
  }

  lemma SomePlace(s: State, i: nat)
    requires Inv(s) && i < |s.calls|
    ensures exists place :: Holds(s, i, place)
  {
    var call := s.calls[i];
    match call
    case Intercepted(_) => assert Holds(s, i, ByIntercept);
    case Failed(_) => assert Holds(s, i, RefusedBySend);
    case Sent(m, chan, pos, _) =>
      assert SentOk(s, call);
      var c := s.channels[chan];
      assert m in c.done + c.Current() + c.queue + c.discarded;
      assert Holds(s, i, InQueue(chan)) || Holds(s, i, InHandler(chan)) || Holds(s, i, Handled(chan)) || Holds(s, i, Discarded(chan));
    case _ => assert Holds(s, i, WithDispatcher);
  }

  lemma OnlyExitsDiscard(s: State, step: Step, c: nat)
    requires Enabled(s, step) && c < |Apply(s, step).channels|
    ensures Apply(s, step).channels[c].discarded ==
            if c >= |s.channels| then []
            else if step == IdleExit(c) || step == Abort(c)
            then s.channels[c].discarded + s.channels[c].Current() + s.channels[c].queue
            else s.channels[c].discarded
  {
  }

  /** A message is lost by a step exactly when that step drops a receiver that still holds it. */
  lemma LostOnlyWithItsReceiver(s: State, step: Step, m: Message, c: nat)
    requires Enabled(s, step) && c < |s.channels| && m !in s.channels[c].discarded
    ensures c < |Apply(s, step).channels|
    ensures m in Apply(s, step).channels[c].discarded <==>
            (step == IdleExit(c) || step == Abort(c)) && (m in s.channels[c].queue || m in s.channels[c].Current())
  {
    OnlyExitsDiscard(s, step, c);
  }

  /** The step drops the receiver of channel `c` while it holds the message of call `i`. */
  ghost predicate DropsMessage(s: State, step: Step, i: nat, c: nat) {
    && (step == IdleExit(c) || step == Abort(c))
    && i < |s.calls| && (Holds(s, i, InQueue(c)) || Holds(s, i, InHandler(c)))
  }

  lemma CallsPersist(s: State, step: Step)
    requires Enabled(s, step)
    ensures |s.calls| <= |Apply(s, step).calls| && |s.channels| <= |Apply(s, step).channels|
    ensures forall i :: 0 <= i < |s.calls| ==> Apply(s, step).calls[i].msg == s.calls[i].msg
    ensures |s.calls| < |Apply(s, step).calls| ==> Apply(s, step).calls[|s.calls|].Arrived? && |Apply(s, step).calls| == |s.calls| + 1
  {
  }

  lemma DiscardedByStep(s: State, step: Step, i: nat, c: nat)
    requires Enabled(s, step) && i < |s.calls|
    ensures i < |Apply(s, step).calls|
    ensures Holds(Apply(s, step), i, Discarded(c)) <==> Holds(s, i, Discarded(c)) || DropsMessage(s, step, i, c)
  {
    CallsPersist(s, step);
    var m := s.calls[i].msg;
    if c < |s.channels| && m !in s.channels[c].discarded {
      LostOnlyWithItsReceiver(s, step, m, c);
    } else if c < |Apply(s, step).channels| {
      OnlyExitsDiscard(s, step, c);
    }
  }

  lemma {:induction false} CallsOnlyGrow(run: seq<State>, steps: seq<Step>, n: nat)
    requires IsRun(run, steps) && n < |run|
    ensures forall k :: 0 <= k < n ==> |run[k].calls| <= |run[n].calls|
  {
    if n > 0 {
      CallsOnlyGrow(run, steps, n - 1);
      CallsPersist(run[n - 1], steps[n - 1]);
    }
  }

  /**
   * Over every run, a dispatched message is among those a channel discarded
   * exactly when the channel's task once ended, idle or by a panic, while the
   * message was in its queue or its handler.
   */
  lemma {:induction false} LostExactlyAtAnExit(run: seq<State>, steps: seq<Step>, n: nat, i: nat, c: nat)
    requires IsRun(run, steps) && n < |run| && i < |run[n].calls|
    ensures Holds(run[n], i, Discarded(c)) <==> exists k :: 0 <= k < n && DropsMessage(run[k], steps[k], i, c)
  {
    if n > 0 {
      var s, step := run[n - 1], steps[n - 1];
      CallsPersist(s, step);
      if i < |s.calls| {
        LostExactlyAtAnExit(run, steps, n - 1, i, c);
        DiscardedByStep(s, step, i, c);
      } else {
        RunKeepsInv(run, steps, n);
        CallsOnlyGrow(run, steps, n - 1);
        if Holds(run[n], i, Discarded(c)) { BucketPosition(run[n], i, Discarded(c)); }
      }
    }
  }

  lemma Extend(run: seq<State>, steps: seq<Step>, step: Step, next: State) returns (run': seq<State>, steps': seq<Step>)
    requires IsRun(run, steps) && Enabled(run[|steps|], step) && next == Apply(run[|steps|], step)
    ensures IsRun(run', steps') && run'[|steps'|] == next
  {
    run', steps' := run + [next], steps + [step];
  }

  lemma FirstChannelOpens() returns (run: seq<State>, steps: seq<Step>)
    ensures IsRun(run, steps)
    ensures run[|steps|] == State(map["k" := 0], [Channel("k", [], Unspawned, [], [], [])], [Spawn(Message(0, "k"), 0)], 0, [])
  {
    var m := Message(0, "k");
    run, steps := [INIT], [];
    run, steps := Extend(run, steps, Begin("k"), State(map[], [], [Arrived(m)], 0, []));
    run, steps := Extend(run, steps, Pass(0), State(map[], [], [Passed(m)], 0, []));
    run, steps := Extend(run, steps, Lookup(0), State(map[], [], [Claim(m)], 0, []));
    run, steps := Extend(run, steps, ClaimSlot(0),
                         State(map["k" := 0], [Channel("k", [], Unspawned, [], [], [])], [Spawn(m, 0)], 0, []));
  }

  /** A successful send is no promise of delivery: an idle exit can drop the message. */
  lemma AcceptedMessageCanBeLost() returns (run: seq<State>, steps: seq<Step>)
    ensures IsRun(run, steps) && |run[|steps|].calls| == 1
    ensures run[|steps|].calls[0].Sent? && Holds(run[|steps|], 0, Discarded(0)) && run[|steps|].started == []
  {
    var m := Message(0, "k");
    var open := Channel("k", [], Waiting, [], [], []);
    var held := Channel("k", [m], Waiting, [m], [], []);
    var gone := Channel("k", [], Exited, [m], [], [m]);
    assert open.queue + [m] == [m] && held.discarded + held.Current() + held.queue == [m];
    run, steps := FirstChannelOpens();
    run, steps := Extend(run, steps, SpawnTask(0), State(map["k" := 0], [open], [FinalSend(m, 0)], 0, []));
    run, steps := Extend(run, steps, FinalSendOk(0), State(map["k" := 0], [held], [Sent(m, 0, 0, 0)], 1, []));
    run, steps := Extend(run, steps, IdleExit(0), State(map["k" := 0], [gone], [Sent(m, 0, 0, 0)], 1, []));
  }

  /** For any number of dispatchers, a session's messages enter handlers in the order they were accepted. */
  lemma HandledInAcceptanceOrder(run: seq<State>, steps: seq<Step>, n: nat, a: nat, b: nat)
    requires IsRun(run, steps) && n < |run| && a < b < |run[n].started|
    requires run[n].started[a].key == run[n].started[b].key
    ensures Before(run[n], run[n].started[a], run[n].started[b])
  {
    RunKeepsInv(run, steps, n);
  }

  // ---------------------------------------------------------------------
  // The single receive loop of `run`
  // ---------------------------------------------------------------------

  predicate Finished(call: Call) { call.Intercepted? || call.Sent? || call.Failed? }

  /** The loop awaits a dispatch before it takes the next message. */
  ghost predicate OneDispatcher(run: seq<State>, steps: seq<Step>)
    requires IsRun(run, steps)
  {
    forall i, j :: 0 <= i < |steps| && steps[i].Begin? && 0 <= j < |run[i].calls| ==> Finished(run[i].calls[j])
  }

  ghost predicate LoopInv(s: State) {
    && (forall j :: 0 <= j < |s.calls| - 1 ==> Finished(s.calls[j]))
    && (forall i, j :: 0 <= i < j < |s.calls| && s.calls[i].Sent? && s.calls[j].Sent? ==>
          s.calls[i].stamp < s.calls[j].stamp)
  }

  lemma SendKeepsLoop(s: State, i: nat, chan: nat)
    requires SendInv(s) && LoopInv(s) && At(s, i) && chan < |s.channels| && !Finished(s.calls[i])
    ensures LoopInv(SendTo(s, i, chan))
  {
    assert i == |s.calls| - 1;
    assert forall j :: 0 <= j < |s.calls| && s.calls[j].Sent? ==> SentOk(s, s.calls[j]);
  }

  lemma OthersStayFinished(s: State, step: Step)
    requires LoopInv(s) && Enabled(s, step) && !MovesMessage(step)
    requires step.Begin? ==> forall j :: 0 <= j < |s.calls| ==> Finished(s.calls[j])
    ensures forall j :: 0 <= j < |Apply(s, step).calls| - 1 ==> Finished(Apply(s, step).calls[j])
  {
  }

  lemma StepKeepsLoop(s: State, step: Step)
    requires Inv(s) && LoopInv(s) && Enabled(s, step)
    requires step.Begin? ==> forall j :: 0 <= j < |s.calls| ==> Finished(s.calls[j])
    ensures LoopInv(Apply(s, step))
  {
    if step.FastSendOk? || step.FinalSendOk? {
      SendKeepsLoop(s, step.call, s.calls[step.call].chan);
    } else if !step.Receive? {
      StepKeepsConsistent(s, step);
      OthersStayFinished(s, step);
    }
  }

  lemma {:induction false} RunKeepsLoop(run: seq<State>, steps: seq<Step>, n: nat)
    requires IsRun(run, steps) && OneDispatcher(run, steps) && n < |run|
    ensures LoopInv(run[n])
  {
    if n > 0 {
      RunKeepsLoop(run, steps, n - 1);
      RunKeepsInv(run, steps, n - 1);
      StepKeepsLoop(run[n - 1], steps[n - 1]);
    }
  }

  /**
   * With the single loop, what a session handles across all its tasks is a
   * duplicate-free subsequence of what was dispatched and not intercepted.
   */
  lemma HandledInDispatchOrder(run: seq<State>, steps: seq<Step>, n: nat, a: nat, b: nat)
    requires IsRun(run, steps) && OneDispatcher(run, steps) && n < |run| && a < b < |run[n].started|
    requires run[n].started[a].key == run[n].started[b].key
    ensures var x, y := run[n].started[a], run[n].started[b];
            && x.id < y.id < |run[n].calls|
            && run[n].calls[x.id].msg == x && !run[n].calls[x.id].Intercepted?
            && run[n].calls[y.id].msg == y && !run[n].calls[y.id].Intercepted?
  {
    HandledInAcceptanceOrder(run, steps, n, a, b);
    RunKeepsLoop(run, steps, n);
  }

  // ---------------------------------------------------------------------
  // How a dispatch can end
  // ---------------------------------------------------------------------

  lemma OnlyLastSendRefuses(s: State, step: Step, i: nat)
    requires Enabled(s, step) && At(Apply(s, step), i) && Apply(s, step).calls[i].Failed?
    ensures At(s, i)
    ensures s.calls[i].Failed? || (step == FinalSendErr(i) && s.calls[i].FinalSend? && !Live(s, s.calls[i].chan))
  {
  }

  /** Over every run, a message is refused only by the last send, and only because that channel is closed. */
  lemma {:induction false} RefusedOnlyByTheLastSend(run: seq<State>, steps: seq<Step>, n: nat, i: nat)
    requires IsRun(run, steps) && n < |run| && At(run[n], i) && run[n].calls[i].Failed?
    ensures exists k :: 0 <= k < n && At(run[k], i) && steps[k] == FinalSendErr(i) &&
                        run[k].calls[i].FinalSend? && !Live(run[k], run[k].calls[i].chan)
  {
    if n > 0 {
      OnlyLastSendRefuses(run[n - 1], steps[n - 1], i);
      if run[n - 1].calls[i].Failed? { RefusedOnlyByTheLastSend(run, steps, n - 1, i); }
    }
  }

  lemma OnlyHookIntercepts(s: State, step: Step, i: nat)
    requires Enabled(s, step) && At(Apply(s, step), i) && Apply(s, step).calls[i].Intercepted?
    ensures At(s, i) && (s.calls[i].Intercepted? || step == Intercept(i))
  {
  }

  /** Over every run, a message is consumed without being sent only by the intercept hook. */
  lemma {:induction false} InterceptedOnlyByTheHook(run: seq<State>, steps: seq<Step>, n: nat, i: nat)
    requires IsRun(run, steps) && n < |run| && At(run[n], i) && run[n].calls[i].Intercepted?
    ensures exists k :: 0 <= k < n && steps[k] == Intercept(i)
  {
    if n > 0 {
      OnlyHookIntercepts(run[n - 1], steps[n - 1], i);
      if run[n - 1].calls[i].Intercepted? { InterceptedOnlyByTheHook(run, steps, n - 1, i); }
    }
  }

  /** A dispatch that can still succeed: unfinished, and not left with the sender of a dead channel for its last send. */
  predicate Deliverable(s: State, i: nat) {
    At(s, i) && !Finished(s.calls[i]) && (s.calls[i].FinalSend? ==> Live(s, s.calls[i].chan))
  }

  ghost predicate HasRoom(s: State, k: Key) {
    forall c :: 0 <= c < |s.channels| && Live(s, c) && s.channels[c].key == k ==> |s.channels[c].queue| < 32
  }

  function StepsLeft(call: Call): nat {
    match call
    case Arrived(_) => 6
    case Passed(_) => 5
    case FastSend(_, _) => 4
    case Claim(_) => 3
    case Spawn(_, _) => 2
    case FinalSend(_, _) => 1
    case _ => 0
  }

  /** The call's own next step, with nobody else in between. */
  function OwnStep(s: State, i: nat): Step
    requires At(s, i)
  {
    match s.calls[i]
    case Arrived(_) => Pass(i)
    case Passed(_) => Lookup(i)
    case FastSend(_, c) => if Live(s, c) then FastSendOk(i) else FastSendErr(i)
    case Claim(_) => ClaimSlot(i)
    case Spawn(_, _) => SpawnTask(i)
    case _ => FinalSendOk(i)
  }

  ghost predicate IsDelivered(s: State, i: nat, m: Message) {
    && At(s, i) && s.calls[i].Sent? && s.calls[i].msg == m
    && Live(s, s.calls[i].chan) && s.channels[s.calls[i].chan].key == m.key && m in s.channels[s.calls[i].chan].queue
  }

  lemma OwnStepLeadsOn(s: State, i: nat)
    requires Inv(s) && Deliverable(s, i) && HasRoom(s, s.calls[i].msg.key)
    ensures Enabled(s, OwnStep(s, i))
    ensures var t, m := Apply(s, OwnStep(s, i)), s.calls[i].msg;
            && At(t, i) && t.calls[i].msg == m
            && (IsDelivered(t, i, m) ||
                (Deliverable(t, i) && HasRoom(t, m.key) && StepsLeft(t.calls[i]) < StepsLeft(s.calls[i])))
  {
    assert CallOk(s.channels, s.calls[i]);
  }

  /** A path of steps of call `i` only. */
  ghost predicate IsOwnPath(run: seq<State>, steps: seq<Step>, i: nat) {
    IsPath(run, steps) && forall k :: 0 <= k < |steps| ==> At(run[k], i) && steps[k] == OwnStep(run[k], i)
  }

  lemma StartOwnPath(s: State, i: nat, run: seq<State>, steps: seq<Step>)
    requires At(s, i) && Enabled(s, OwnStep(s, i))
    requires IsOwnPath(run, steps, i) && run[0] == Apply(s, OwnStep(s, i))
    ensures IsOwnPath([s] + run, [OwnStep(s, i)] + steps, i)
    ensures ([s] + run)[|steps| + 1] == run[|steps|]
  {
  }

  /**
   * From every state with the invariant, a dispatch gets its message into an
   * open channel of its session by its own steps alone, given room there; in
   * particular one that holds the sender of a dead channel respawns.
   */
  lemma {:induction false} DispatchCanDeliver(s: State, i: nat) returns (run: seq<State>, steps: seq<Step>)
    requires Inv(s) && Deliverable(s, i) && HasRoom(s, s.calls[i].msg.key)
    ensures IsOwnPath(run, steps, i) && run[0] == s && IsDelivered(run[|steps|], i, s.calls[i].msg)
    decreases StepsLeft(s.calls[i])
  {
    var step := OwnStep(s, i);
    OwnStepLeadsOn(s, i);
    StepKeepsInv(s, step);
    var t := Apply(s, step);
    if IsDelivered(t, i, s.calls[i].msg) {
      run, steps := [t], [];
    } else {
      run, steps := DispatchCanDeliver(t, i);
    }
    StartOwnPath(s, i, run, steps);
    run, steps := [s] + run, [step] + steps;
  }

  // ---------------------------------------------------------------------
  // The manager itself: one method per atomic stretch of code
  // ---------------------------------------------------------------------

  class SessionManager {
    var sessions: map<Key, nat>
    var channels: seq<Channel>
    var calls: seq<Call>
    var sends: nat
    var started: seq<Message>

    function View(): State
      reads this
    {
      State(sessions, channels, calls, sends, started)
    }

    constructor ()
      ensures View() == INIT
    {
      sessions, channels, calls, sends, started := map[], [], [], 0, [];
    }

    /** A message arrives and the intercept hook decides on it. */
    method Arrive(key: Key, consumed: bool) returns (call: nat)
      modifies this
      ensures call == |old(calls)| && Enabled(old(View()), Begin(key))
      ensures var s := Apply(old(View()), Begin(key));
              View() == Apply(s, if consumed then Intercept(call) else Pass(call))
    {
      call := |calls|;
      var m := Message(call, key);
      calls := calls + [if consumed then Intercepted(m) else Passed(m)];
      assert old(calls) + [Passed(m)] == (old(calls) + [Arrived(m)])[call := Passed(m)];
      assert old(calls) + [Intercepted(m)] == (old(calls) + [Arrived(m)])[call := Intercepted(m)];
    }

    method LookupSender(call: nat)
      requires Enabled(View(), Lookup(call))
      modifies this`calls
      ensures View() == Apply(old(View()), Lookup(call))
      ensures var m := old(calls)[call].msg;
              calls[call] == if m.key in sessions then FastSend(m, sessions[m.key]) else Claim(m)
    {
      var m := calls[call].msg;
      if m.key in sessions {
        calls := calls[call := FastSend(m, sessions[m.key])];
      } else {
        calls := calls[call := Claim(m)];
      }
    }

    /** The fast path: on a dead channel the message comes back and the slot is claimed. */
    method TryFastSend(call: nat) returns (sent: bool)
      requires Enabled(View(), FastSendOk(call)) || Enabled(View(), FastSendErr(call))
      modifies this
      ensures sent == Enabled(old(View()), FastSendOk(call))
      ensures View() == Apply(old(View()), if sent then FastSendOk(call) else FastSendErr(call))
      ensures !sent ==> calls == old(calls)[call := Claim(old(calls)[call].msg)] && channels == old(channels)
    {
      var m, c := calls[call].msg, calls[call].chan;
      sent := c < |channels| && channels[c].Open();
      if sent {
        Enqueue(call, c);
      } else {
        calls := calls[call := Claim(m)];
      }
    }

    method Enqueue(call: nat, c: nat)
      requires At(View(), call) && CanSend(View(), c)
      modifies this
      ensures View() == SendTo(old(View()), call, c)
    {
      var m, ch := calls[call].msg, channels[c];
      calls := calls[call := Sent(m, c, |ch.accepted|, sends)];
      channels := channels[c := ch.(queue := ch.queue + [m], accepted := ch.accepted + [m])];
      sends := sends + 1;
    }

    /** The entry guard: reuse an open channel, replace a closed one, fill a vacant slot. */
    method ClaimOrReuse(call: nat) returns (spawn: bool)
      requires Enabled(View(), ClaimSlot(call))
      modifies this
      ensures View() == Apply(old(View()), ClaimSlot(call)) && spawn == calls[call].Spawn?
    {
      var m := calls[call].msg;
      var next := |channels|;
      if m.key in sessions {
        var occupied := sessions[m.key];
        if occupied < |channels| && channels[occupied].Open() {
          calls := calls[call := FinalSend(m, occupied)];
          return false;
        }
      }
      sessions := sessions[m.key := next];
      channels := channels + [Channel(m.key, [], Unspawned, [], [], [])];
      calls := calls[call := Spawn(m, next)];
      spawn := true;
    }

    method SpawnSession(call: nat)
      requires Enabled(View(), SpawnTask(call))
      modifies this
      ensures View() == Apply(old(View()), SpawnTask(call))
    {
      var m, c := calls[call].msg, calls[call].chan;
      channels := channels[c := channels[c].(task := Waiting)];
      calls := calls[call := FinalSend(m, c)];
    }

    method TryFinalSend(call: nat) returns (sent: bool)
      requires Enabled(View(), FinalSendOk(call)) || Enabled(View(), FinalSendErr(call))
      modifies this
      ensures sent == Enabled(old(View()), FinalSendOk(call))
      ensures View() == Apply(old(View()), if sent then FinalSendOk(call) else FinalSendErr(call))
    {
      var m, c := calls[call].msg, calls[call].chan;
      sent := c < |channels| && channels[c].Open();
      if sent {
        Enqueue(call, c);
      } else {
        calls := calls[call := Failed(m)];
      }
    }

    /** One wake-up of a session task: a message is taken, or the wait timed out and its task ends. */
    method Wake(c: nat, timedOut: bool)
      requires Enabled(View(), if timedOut then IdleExit(c) else Receive(c))
      modifies this
      ensures View() == Apply(old(View()), if timedOut then IdleExit(c) else Receive(c))
    {
      var ch := channels[c];
      if timedOut {
        channels := channels[c := Dropped(ch)];
      } else {
        var m := ch.queue[0];
        channels := channels[c := ch.(queue := ch.queue[1..], task := Handling(m))];
        started := started + [m];
      }
    }

    /** The handler returns, or unwinds and takes its task with it. */
    method HandlerDone(c: nat, panicked: bool)
      requires Enabled(View(), Finish(c))
      modifies this
      ensures View() == Apply(old(View()), if panicked then Abort(c) else Finish(c))
    {
      var ch := channels[c];
      channels := channels[c := if panicked then Dropped(ch) else Completed(ch)];
    }

    /** The periodic sweep visits the entries one by one, in any order. */
    method CollectGarbage()
      modifies this`sessions
      ensures View() == Apply(old(View()), Gc(old(sessions).Keys))
      ensures forall k :: k in sessions <==> k in old(sessions) && Live(old(View()), old(sessions)[k])
    {
      var todo := sessions.Keys;
      while todo != {}
        invariant todo <= sessions.Keys <= old(sessions).Keys
        invariant forall k :: k in old(sessions) ==>
                    (k in sessions <==> k in todo || Live(old(View()), old(sessions)[k]))
        invariant forall k :: k in sessions ==> sessions[k] == old(sessions)[k]
        decreases |todo|
      {
        var k :| k in todo;
        todo := todo - {k};
        if !(sessions[k] < |channels| && channels[sessions[k]].Open()) {
          sessions := sessions - {k};
        }
      }
    }
  }
}
