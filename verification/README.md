# Gasket: a verified model of the assistant runtime's core

Gasket routes chat messages to per-session workers, keeps their history in an
event log, and finds related past messages by embedding similarity. This
project models the parts of it whose correctness is hard to see in one
function and proves what they promise.

- `SessionDispatch.dfy`: per-session dispatch. Concurrent dispatchers, a slot
  map, bounded channels, workers that exit when idle, the claim-or-reuse
  respawn and the periodic sweep are transitions of one state; the manager
  class has one method per atomic stretch of code.
- `MemoryBroker.dfy`: the work-stealing queue of a point-to-point topic, with
  counter increments as steps of their own.
- `RateLimiter.dfy`: the sliding-window limiter against the full history.
- `HistoryProcessor.dfy`: truncation to a token budget.
- `EventLog.dfy`, `QueryCompiler.dfy`: the event table against a log per
  session, and the translation of filters into parameterised statements.
- `Normalizer.dfy`: the three-pass rewrite of conversations for MiniMax.
- `Connections.dfy`, `ConnectionLimits.dfy`: ownership of WebSocket connections
  across reconnects, and when one per user and the limit are kept.
- `Codec.dfy`, `VectorMath.dfy`, `Sorting.dfy`, `TopK.dfy`: embedding blobs, dot
  product and cosine, stable sorting, selection of the k best.
- `MemoryIndex.dfy`, `EmbeddingStore.dfy`: the hot and the cold tier.
- `Recall.dfy`, `RecallExactness.dfy`: two-tier recall and when it is exact.
- `Indexer.dfy`, `SemanticRecall.dfy`: the indexing loop, and indexing and
  recall together.

Protocols have the same shape throughout: a `State`, a `Step`, `Enabled` and
`Apply`, an invariant kept by every step, and theorems about every run. The
classes beside them change their fields as the program does, and each method's
contract says that the view of the object moves by that step.

## Where the promises and the code differ

- A message accepted by a session's channel can be discarded when its worker
  exits on idle (`SessionDispatch.AcceptedMessageCanBeLost`). What holds is
  conservation with a discarded bucket; a message gets there exactly when its
  worker ends while holding it (`SessionDispatch.LostExactlyAtAnExit`).
- Sequence numbers start at 0 and "after" is strict, so watermark 0 does not
  stand for the whole history (`EventLog.WatermarkZeroIsEverything`).
- "Single connection per user" can fail when two registrations of one user
  overlap (`ConnectionLimits.OverlapLeavesTwoConnections`). It is out of danger
  exactly when every registration reads the user map alone
  (`ConnectionLimits.SingleExactlyWhenSequential`).
- The connection limit is compared before a socket is inserted, so it can be
  passed for every positive limit (`ConnectionLimits.LimitCanBePassed`). It is out of
  danger exactly when the connections to be expected fit
  (`ConnectionLimits.LimitHoldsExactlyWhenAdmissionsFit`).
- Received events are lost when a flush fails (`Indexer.FailedFlushLosesEvents`);
  all eligible ones are stored exactly when no lost one was the only chance of its id
  (`Indexer.NothingIsLostExactlyWhen`).
- Published and consumed counters can be out of order in a snapshot
  (`MemoryBroker.ConsumedCanLeadPublished`), exactly as
  `MemoryBroker.ConsumedLeadsExactlyWhen` says.
- Recall with a partial hot index is not always the global top-k;
  `RecallExactness.ExactIffNothingCrowdedOut` says exactly when it is.
- The limiter is described as a token bucket at
  gasket/channels/src/middleware.rs:64; the code keeps a log of timestamps.
- The decoding buffer is documented as cleared first at
  gasket/embedding/src/store.rs:489; on a bad length the code returns before
  clearing it.

## Model

| member | source | states |
|---|---|---|
| `SessionDispatch.OneTaskPerSession` | gasket/broker/src/session.rs:230-270 | In every state of every interleaving of dispatches, claims, sends, idle exits, panics and sweeps, a session key has at most one channel with a live receiver, and it is the one in the slot map. |
| `SessionDispatch.OneMessageInHandler` | gasket/broker/src/session.rs:273-351 | At most one message of a session is inside the handler at any time, across respawns. |
| `SessionDispatch.ExactlyOnePlace` | gasket/broker/src/session.rs:190-270 | Conservation: every dispatched message is in exactly one place: on its way, intercepted, refused by the last send, queued, in the handler, handled, or discarded with its receiver. |
| `SessionDispatch.LostExactlyAtAnExit` | gasket/broker/src/session.rs:284-351 | Over every run, a dispatched message is among those a channel discarded if and only if the channel's worker once ended, idle or by a panic, while the message was in its queue or its handler. |
| `SessionDispatch.OnlyExitsDiscard` | gasket/broker/src/session.rs:284-295 | The effect of every step on every discarded list: the end of a session worker appends the message being handled and the queue, every other step changes nothing. |
| `SessionDispatch.AcceptedMessageCanBeLost` | gasket/broker/src/session.rs:286-294 | A concrete run in which a message whose send succeeded is discarded by an idle exit, so a successful send does not promise delivery. |
| `SessionDispatch.OpenChannelKeepsASender` | gasket/broker/src/session.rs:286-290 | An open channel always has a sender in the slot map, so a worker never sees its channel closed while the manager lives. |
| `SessionDispatch.HandledInAcceptanceOrder` | gasket/broker/src/session.rs:216-227 | With any number of concurrent dispatchers, a session's messages enter handlers in the order in which channels accepted them, across every respawn. |
| `SessionDispatch.HandledInDispatchOrder` | gasket/broker/src/session.rs:151-188 | With the single receive loop as dispatcher, a session's messages enter handlers in dispatch order, without duplicates. |
| `SessionDispatch.DispatchCanDeliver` | gasket/broker/src/session.rs:216-270 | From every reachable state, an unfinished dispatch that is not left with a dead channel for its last send gets its message into an open channel of its session by its own steps alone, given room for 32; so one that meets a dead channel on the fast path respawns the session. |
| `SessionDispatch.RefusedOnlyByTheLastSend` | gasket/broker/src/session.rs:216-227 | Over every run, a message is refused only by the last send, and only because that channel was closed then. |
| `SessionDispatch.InterceptedOnlyByTheHook` | gasket/broker/src/session.rs:200-214 | Over every run, a message is consumed without being sent only by the intercept hook. |
| `SessionDispatch.StepKeepsInv` | gasket/broker/src/session.rs:190-351 | Every enabled step keeps the whole invariant: slots, channel buckets, program counters, send positions and first-in-first-out order. |
| `SessionDispatch.RunKeepsInv` | gasket/broker/src/session.rs:151-351 | The invariant holds in every state of every run from the empty manager. |
| `SessionDispatch.RunKeepsLoop` | gasket/broker/src/session.rs:151-188 | Under the single receive loop all earlier dispatches are finished before the next begins. |
| `SessionDispatch.SessionManager.Arrive` | gasket/broker/src/session.rs:190-214 | A message arrives and the intercept hook consumes it or hands it back; the new state is the transition's. |
| `SessionDispatch.SessionManager.LookupSender` | gasket/broker/src/session.rs:216-217 | The fast path clones the sender in the slot, or finds none and goes on to claim the slot. |
| `SessionDispatch.SessionManager.TryFastSend` | gasket/broker/src/session.rs:218-224 | The fast send succeeds when the channel is open and has room; on a closed one the message comes back and its call goes on to claim the slot, with no channel touched. |
| `SessionDispatch.SessionManager.ClaimOrReuse` | gasket/broker/src/session.rs:241-255 | Under the entry guard an open channel is reused, a closed one replaced and a vacant slot filled; a worker is due exactly when a new channel was installed. |
| `SessionDispatch.SessionManager.SpawnSession` | gasket/broker/src/session.rs:257-265 | The worker of a freshly installed channel starts. |
| `SessionDispatch.SessionManager.TryFinalSend` | gasket/broker/src/session.rs:267-269 | The last send succeeds, or fails for good on a closed channel. |
| `SessionDispatch.SessionManager.Wake` | gasket/broker/src/session.rs:284-295 | A worker takes the oldest message, or its wait times out and it ends, discarding what is queued. |
| `SessionDispatch.SessionManager.HandlerDone` | gasket/broker/src/session.rs:341-349 | The handler returns and the message counts as handled, or it unwinds and takes the worker with it. |
| `SessionDispatch.SessionManager.CollectGarbage` | gasket/broker/src/session.rs:171-184 | After the sweep a key is in the map if and only if it was and its channel is open. |
| `MemoryBroker.QueueIsLossless` | gasket/broker/src/memory.rs:130-162 | For every interleaving of publishers and competing subscribers: what was received followed by what waits is what was accepted, in order, and the depth is within the capacity. |
| `MemoryBroker.EachEnvelopeHasOneTaker` | gasket/broker/src/broker.rs:42-62 | Each accepted envelope is received at most once, by one subscriber, from the queue that accepted it. |
| `MemoryBroker.DeliveredToItsTopic` | gasket/broker/src/memory.rs:112-179 | Over every run, what a subscriber receives was published to the topic it subscribed to. |
| `MemoryBroker.FullOnlyWhenFull` | gasket/broker/src/memory.rs:146-155 | Over every run, a publish is refused as full only if it does not block and the queue held as many envelopes as its capacity. |
| `MemoryBroker.ClosedOnlyWithoutReceivers` | gasket/broker/src/memory.rs:130-153 | Over every run, a publish finds its channel closed only if the topic was closed and every subscriber of that queue was gone. |
| `MemoryBroker.ReopenedTopicStartsEmpty` | gasket/broker/src/memory.rs:164-185 | The first subscriber after a topic was closed gets a new, empty queue. |
| `MemoryBroker.MetricsBalance` | gasket/broker/src/memory.rs:187-201 | Counters lag by exactly the sends and receives whose increment is still outstanding; published minus consumed equals the depth if and only if the two kinds of outstanding increments are equally many. |
| `MemoryBroker.MetricsExactWhenQuiet` | gasket/broker/src/memory.rs:187-201 | With no call in flight, published minus consumed equals the depth. |
| `MemoryBroker.ConsumedCanLeadPublished` | gasket/broker/src/memory.rs:133-136 | A concrete run in which a snapshot shows more consumed than published, because the counter is incremented after the send. |
| `MemoryBroker.ConsumedLeadsExactlyWhen` | gasket/broker/src/memory.rs:187-201 | A snapshot shows more consumed than published if and only if the uncounted sends outnumber the waiting envelopes and the uncounted receives together. |
| `MemoryBroker.StepKeepsInv` | gasket/broker/src/memory.rs:107-185 | Every step keeps queues in first-in-first-out order and within capacity, the topic map consistent, and every accepted envelope at the one position its call recorded. |
| `MemoryBroker.RunKeepsInv` | gasket/broker/src/memory.rs:107-185 | The invariant holds in every state of every run. |
| `MemoryBroker.Broker.EnsureQueue` | gasket/broker/src/memory.rs:113-116 | The topic's queue is created on first use and reused afterwards. |
| `MemoryBroker.Broker.SenderSnapshot` | gasket/broker/src/memory.rs:112-127 | A publish call fixes the queue it will send to, even if the topic is closed meanwhile. |
| `MemoryBroker.Broker.TrySend` | gasket/broker/src/memory.rs:130-155 | A send is accepted when a receiver lives and there is room; a full queue blocks a publish and refuses a non-blocking one; without receivers the channel is closed. |
| `MemoryBroker.Broker.CountPublished` | gasket/broker/src/memory.rs:136 | The published counter is incremented in a step of its own. |
| `MemoryBroker.Broker.AddSubscriber` | gasket/broker/src/memory.rs:165-179 | A subscriber holds a receiver of the queue the map has for the requested topic, and that queue belongs to the topic. |
| `MemoryBroker.Broker.Take` | gasket/broker/src/broker.rs:43-46 | A receive takes the oldest waiting envelope. |
| `MemoryBroker.Broker.CountConsumed` | gasket/broker/src/broker.rs:52-60 | The consumed counter is incremented after the receive. |
| `MemoryBroker.Broker.Metrics` | gasket/broker/src/memory.rs:188-194 | A snapshot reports depth and counters of the queue the topic currently has, and nothing for an unknown topic. |
| `MemoryBroker.Broker.Close` | gasket/broker/src/memory.rs:182-185 | Closing a topic only forgets the map entry; subscribers keep their queue. |
| `RateLimiter.LimiterMatchesHistory` | gasket/channels/src/middleware.rs:90-122 | Over every sequence of checks and prunes with non-decreasing time, each check is answered exactly as the full history demands: allowed if and only if fewer than the maximum of that sender's allowed messages lie in the window. |
| `RateLimiter.LimiterAgrees` | gasket/channels/src/middleware.rs:90-122 | Refinement: the table always holds, per sender, an end of the full history that contains every recent message. |
| `RateLimiter.WindowNeverExceeded` | gasket/channels/src/middleware.rs:64-66 | Any maximum+1 consecutive allowed messages of a sender span more than the window. |
| `RateLimiter.AllowedExactlyByTheWindow` | gasket/channels/src/middleware.rs:96-110 | After every run, a message is allowed if and only if fewer than the maximum of its sender's allowed messages are at most one window old; one of exactly that age still counts. |
| `RateLimiter.PruningIsInvisible` | gasket/channels/src/middleware.rs:113-122 | Removing all prunes from a run changes no answer. |
| `RateLimiter.DequesStaySmall` | gasket/channels/src/middleware.rs:105-110 | No sender's deque ever holds more than the maximum. |
| `RateLimiter.SimpleRateLimiter.Check` | gasket/channels/src/middleware.rs:90-111 | The eviction loop and the length test compute the specified table and answer. |
| `RateLimiter.SimpleRateLimiter.PruneStale` | gasket/channels/src/middleware.rs:118-122 | Exactly the senders with no recent timestamp are removed. |
| `HistoryProcessor.ProcessHistory` | gasket/storage/src/processor.rs:57-115 | The result keeps the longest suffix of the last `max_events` events that contains the protected ones and is wholly protected or within budget; dropped, evicted and kept concatenate to the input; both numbers describe what was kept. |
| `HistoryProcessor.WalkBack` | gasket/storage/src/processor.rs:76-94 | The backward loop stops at the first unprotected event that would break the budget, with the exact token sum. |
| `HistoryProcessor.SplitIsLongest` | gasket/storage/src/processor.rs:79-94 | Stopping there is optimal: no longer suffix is admissible. |
| `HistoryProcessor.ResultIsUnique` | gasket/storage/src/processor.rs:57-115 | The contract determines the result. |
| `HistoryProcessor.RecentEventsSurvive` | gasket/storage/src/processor.rs:50-56 | The last `recent_keep` events survive in place and at most `max_events` are kept. |
| `HistoryProcessor.DroppedOnlyForAReason` | gasket/storage/src/processor.rs:76-94 | An event is dropped only beyond `max_events`, or because the budget is limited and keeping the event would exceed it. |
| `HistoryProcessor.TokensAreCounts` | gasket/storage/src/processor.rs:145-157 | The token sum adds each event's stored count, and the tokenizer's where there is none. |
| `HistoryProcessor.StoredCountsDecide` | gasket/storage/src/processor.rs:145-157 | When every event has a stored count, the tokenizer has no influence on the result. |
| `HistoryProcessor.BudgetHoldsOrAllProtected` | gasket/storage/src/processor.rs:83-88 | The kept events exceed the budget only if all of them are protected. |
| `HistoryProcessor.ProcessingIsIdempotent` | gasket/storage/src/processor.rs:57-115 | Processing what was kept keeps all of it. |
| `HistoryProcessor.BudgetIsMonotone` | gasket/storage/src/processor.rs:86-88 | A larger budget never keeps less. |
| `HistoryProcessor.EvictedNeverReturns` | gasket/storage/src/processor.rs:57-115 | When one event is appended to the history, an event that had fallen out does not come back. |
| `EventLog.RunAgrees` | gasket/storage/src/event_store.rs:117-208 | Refinement: over every sequence of appends, collections and clears, each session's rows are the uncollected end of its log, numbered by position, and the counter is the length of the log. |
| `EventLog.SequenceIsPosition` | gasket/storage/src/event_store.rs:148-157 | An append is refused exactly when the id exists; otherwise it gets the number of the session's appends since its last clear, so numbers increase and are not reused before a clear. |
| `EventLog.QueriesReadTheLog` | gasket/storage/src/event_store.rs:215-269 | The history and every "after w" query return the log's events in append order, from the first uncollected one and from w+1 on. |
| `EventLog.ReadBackFieldByField` | gasket/storage/src/event_store.rs:165-269 | After every run, row i of the history has the id, kind, content and creation time of the i-th uncollected event of the log, its session and its position; the same for "after w" from w + 1 on. |
| `EventLog.AppendIsReadBack` | gasket/storage/src/event_store.rs:165-235 | An accepted append is read back, with its fields, at the end of its session's history, and no other history changes. |
| `EventLog.SummaryInputByMember` | gasket/storage/src/event_store.rs:283-288 | The summary input holds exactly the session's rows up to the target that are not summaries. |
| `EventLog.SummaryInputReadsTheHistory` | gasket/storage/src/event_store.rs:276-303 | The summary input is the part of the history up to the target that is not itself a summary. |
| `EventLog.CollectionIsInvisibleAbove` | gasket/storage/src/event_store.rs:356-437 | Collection up to w removes exactly the ids announced for it and exactly the covered rows, leaves every query after w' >= w unchanged, keeps the counter and touches no other session. |
| `EventLog.CollectionRemovesTheAnnounced` | gasket/storage/src/event_store.rs:356-374 | After every run, an id is announced for a collection if and only if the collection removes it from the table. |
| `EventLog.RunKeepsUnique` | gasket/storage/src/event_store.rs:165-187 | The event table never holds two rows with one id. |
| `EventLog.WatermarkZeroIsEverything` | gasket/storage/src/event_store.rs:237-269 | "After 0" returns the whole history if and only if the first event is collected or was never appended. |
| `EventLog.FirstEventHiddenByWatermarkZero` | gasket/storage/src/event_store.rs:242-258 | Concrete case: the first event has number 0 and is invisible after watermark 0. |
| `EventLog.MaxSequenceOfLog` | gasket/storage/src/event_store.rs:395-409 | The maximum is the last number handed out while anything is stored, and 0 once everything is collected. |
| `EventLog.OrderSorts` | gasket/storage/src/event_store.rs:250-254 | The ORDER BY of the queries permutes and sorts by sequence. |
| `EventLog.EventStore.Append` | gasket/storage/src/event_store.rs:117-208 | One transaction: session row if missing, number from the counter, row, counter increment for all spellings; a duplicate id changes nothing. |
| `EventLog.EventStore.DeleteEventsUpto` | gasket/storage/src/event_store.rs:416-437 | Deletes the covered rows and reports their number. |
| `EventLog.EventStore.ClearSession` | gasket/storage/src/event_store.rs:376-393 | Deletes the rows and all session rows of the session. |
| `QueryCompiler.QueryEvents` | gasket/storage/src/event_store.rs:582-649 | For every filter and table: the statement has as many placeholders as bound parameters, and evaluating its text yields the session's events in sequence order that meet every given condition, cut to the limit; no session means no events. |
| `QueryCompiler.MeaningByMember` | gasket/storage/src/event_store.rs:582-649 | Without a limit the result holds, in sequence order, exactly the rows of the session that meet each given condition: time range inclusive, sequence strictly after, type and id among a non-empty list. |
| `QueryCompiler.LimitKeepsTheFirst` | gasket/storage/src/event_store.rs:619-621 | A limit keeps the first rows, as many as it says or all there are. |
| `QueryCompiler.SessionClauses` | gasket/storage/src/event_store.rs:591-592 | The session condition spells two equalities and holds exactly when they do, by the names of their columns and operators. |
| `QueryCompiler.CreatedClauses` | gasket/storage/src/event_store.rs:594-596 | The time condition spells an inclusive range on the creation time and means it. |
| `QueryCompiler.SequenceClause` | gasket/storage/src/event_store.rs:597-599 | The sequence condition spells a strict comparison and means it. |
| `QueryCompiler.TypesClause` | gasket/storage/src/event_store.rs:600-605 | The type condition spells a membership of the event type and means it. |
| `QueryCompiler.IdsClause` | gasket/storage/src/event_store.rs:606-611 | The id condition spells a membership of the id and means it. |
| `QueryCompiler.OrderClause` | gasket/storage/src/event_store.rs:613 | The statement spells an ascending order by sequence, and that is how its result is ordered. |
| `QueryCompiler.StatementReadsBack` | gasket/storage/src/event_store.rs:590-621 | The text of a statement determines its conditions and its limit, so a text has one reading. |
| `QueryCompiler.DigitsReadBack` | gasket/storage/src/event_store.rs:619-621 | The limit is spelled so that it reads back as the same number. |
| `QueryCompiler.BuildStatement` | gasket/storage/src/event_store.rs:590-621 | The first pass spells exactly the statement of the conditions the filter asks for. |
| `QueryCompiler.BindParameters` | gasket/storage/src/event_store.rs:623-643 | The second pass binds parameters under which those conditions say, row by row, what the filter means. |
| `QueryCompiler.StatementMarks` | gasket/storage/src/event_store.rs:590-621 | The number of question marks in the text is the number of parameters its conditions take. |
| `QueryCompiler.EvaluatesToMeaning` | gasket/storage/src/event_store.rs:645-648 | A statement and parameters that line up evaluate to the meaning of the filter. |
| `QueryCompiler.TypesSay` | gasket/storage/src/event_store.rs:600-605 | An empty type list adds no condition and binds nothing; a non-empty one means membership. |
| `QueryCompiler.TagsAreDistinct` | gasket/storage/src/event_store.rs:28-36 | Different event types have different tags. |
| `Normalizer.NormalizeMessages` | gasket/providers/src/vendor_workarounds.rs:187-192 | The pipeline computes the composition of the three rewrites and its result is in normal form. |
| `Normalizer.ConvertSystemMessages` | gasket/providers/src/vendor_workarounds.rs:102-134 | System texts are joined in order and prefixed to the first eligible user message, or become a new first message. |
| `Normalizer.MergeConsecutiveMessages` | gasket/providers/src/vendor_workarounds.rs:137-165 | The in-place merge loop computes the specified fold. |
| `Normalizer.NormalizedIsNormal` | gasket/providers/src/vendor_workarounds.rs:187-192 | No system message remains, no two neighbours could still be merged, and every message is sanitised. |
| `Normalizer.NormalizedFieldByField` | gasket/providers/src/vendor_workarounds.rs:102-192 | Every output message, field by field: it stands for a run of converted messages of one role, with the role, tool calls, tool call id and name of the first, no reasoning, no name on tool results, the present contents joined, and "" for a missing content beside tool calls; neighbours are of different roles, tool results, or carry tool calls. |
| `Normalizer.ConvertedFieldByField` | gasket/providers/src/vendor_workarounds.rs:116-131 | The joined system texts go, with a blank line, in front of the content of the first user message without a tool call id, or become a new first user message. |
| `Normalizer.JoinsWithBlankLines` | gasket/providers/src/vendor_workarounds.rs:117-130 | Texts are joined by one blank line. |
| `Normalizer.FixedExactlyInNormalForm` | gasket/providers/src/vendor_workarounds.rs:187-192 | A conversation is left alone if and only if it is in normal form. |
| `Normalizer.NormalizingTwiceIsOnce` | gasket/providers/src/vendor_workarounds.rs:187-192 | Normalisation is idempotent. |
| `Normalizer.MergedFusesRuns` | gasket/providers/src/vendor_workarounds.rs:136-165 | Merging partitions its input into maximal runs of mergeable messages and turns each into one message whose content joins the present contents with blank lines. |
| `Normalizer.NormalizedKeepsToolTraffic` | gasket/providers/src/vendor_workarounds.rs:137-185 | Assistant messages with tool calls and tool results come out complete and in order, changed only in the sanitised fields. |
| `Normalizer.ToolTrafficFieldByField` | gasket/providers/src/vendor_workarounds.rs:168-185 | The i-th message of the tool traffic keeps its role, tool calls, tool call id and content ("" where it was missing beside tool calls); tool results lose their name, the others keep it, and none has reasoning. |
| `Normalizer.NoTextIsLost` | gasket/providers/src/vendor_workarounds.rs:102-165 | The joined text after conversion and merging is the joined text before, with the system texts moved in front of the first eligible user message. |
| `Connections.MappingNeverDangles` | gasket/channels/src/websocket.rs:312-338 | In every interleaving of registration steps and guard drops, a user's mapping names a registered connection, or one whose own guard has begun to drop, or one that an unfinished registration of the same user has read. |
| `Connections.StaleGuardsAreHarmless` | gasket/channels/src/websocket.rs:52-80 | Through any stretch without its own guard or a new registration of its user, a serving connection stays mapped and connected, whatever older guards do. |
| `Connections.GuardRemovesOnlyItsOwn` | gasket/channels/src/websocket.rs:61-80 | The guard's compare-and-remove changes the mapping exactly when it is still its own, and never another user's. |
| `ConnectionLimits.SingleExactlyWhenSequential` | gasket/channels/src/websocket.rs:312-323 | For every run: at every moment the registrations begun so far can only end with one connection per user, if and only if each registration that read the user map was then the only one of its user under way. |
| `Connections.OneConnectionPerUser` | gasket/channels/src/websocket.rs:312-323 | Corollary for whole runs: while the registrations of each user do not overlap, no user ever has two connections. |
| `ConnectionLimits.LimitHolds` | gasket/channels/src/websocket.rs:299-307 | Corollary for whole runs: while sockets are admitted one at a time, neither the connections nor the expected ones exceed the limit. |
| `ConnectionLimits.OverlapCanLeaveTwo` | gasket/channels/src/websocket.rs:314-323 | From every reachable state with two registrations of one user under way, both can finish and leave two registered connections of that user. |
| `ConnectionLimits.OverlapLeavesTwoConnections` | gasket/channels/src/websocket.rs:312-323 | For every positive limit and every user, a run of two overlapping registrations that ends with two registered connections of that user. |
| `ConnectionLimits.WithinLimitExactlyWhenExpectedFits` | gasket/channels/src/websocket.rs:299-320 | From every reachable state, the sockets already admitted can pass the limit, however they go on, if and only if the connections to be expected (those not about to be evicted, and all admitted sockets) are more than the limit. |
| `ConnectionLimits.LimitHoldsExactlyWhenAdmissionsFit` | gasket/channels/src/websocket.rs:299-307 | For every run: the limit is safe at every moment if and only if after each admission the expected connections fit. |
| `ConnectionLimits.LimitCanBePassed` | gasket/channels/src/websocket.rs:299-320 | For every positive limit, and any users more than the limit, a run that admits them all and ends with as many connections. |
| `ConnectionLimits.NoMoreThanExpected` | gasket/channels/src/websocket.rs:314-320 | There are never more connections than expected. |
| `Connections.StepKeepsInv` | gasket/channels/src/websocket.rs:52-80 | Every registration or guard step keeps the invariant of both maps. |
| `Connections.RunKeepsInv` | gasket/channels/src/websocket.rs:312-338 | The invariant holds in every state of every run. |
| `Connections.WebSocketManager.Admit` | gasket/channels/src/websocket.rs:299-307 | A socket is admitted exactly when fewer than the limit are connected. |
| `Connections.WebSocketManager.LookUpOld` | gasket/channels/src/websocket.rs:314-315 | The registration reads the user's current connection. |
| `Connections.WebSocketManager.EvictOld` | gasket/channels/src/websocket.rs:316 | The connection that was read is removed. |
| `Connections.WebSocketManager.InsertConnection` | gasket/channels/src/websocket.rs:320 | The new connection is registered. |
| `Connections.WebSocketManager.InsertUser` | gasket/channels/src/websocket.rs:321-323 | The user is mapped to the new connection. |
| `Connections.WebSocketManager.GuardDropsConnection` | gasket/channels/src/websocket.rs:58-59 | The guard removes its connection. |
| `Connections.WebSocketManager.GuardDropsUser` | gasket/channels/src/websocket.rs:61-84 | The guard removes the mapping only if it is its own and reports whether it did. |
| `Codec.DecodeEncode` | gasket/embedding/src/store.rs:473-506 | Decoding an encoded vector returns it, bit for bit, for every length. |
| `Codec.EncodeDecode` | gasket/embedding/src/store.rs:473-506 | Encoding a decoded blob returns the same bytes. |
| `Codec.LowestByteFirst` | gasket/embedding/src/store.rs:473-480 | Word i of a vector is encoded in bytes 4i to 4i + 3, the lowest first. |
| `Codec.EmbeddingToBytes` | gasket/embedding/src/store.rs:473-480 | The loop computes the little-endian encoding. |
| `Codec.BytesToEmbeddingInto` | gasket/embedding/src/store.rs:489-506 | Decoding fails exactly when the length is not a multiple of 4, and then leaves the buffer alone. |
| `VectorMath.NormalizedDotIsCosine` | gasket/embedding/src/index.rs:158-190 | For all vectors of equal length, zero vectors included, the dot product of the normalised vectors is the cosine of the raw ones. |
| `VectorMath.CosineInUnitInterval` | gasket/embedding/src/index.rs:158-172 | Every cosine lies between -1 and 1. |
| `VectorMath.CauchySchwarz` | gasket/embedding/src/index.rs:186-190 | The square of a dot product is at most the product of the two self products. |
| `VectorMath.DotIsSumOfProducts` | gasket/embedding/src/index.rs:186-190 | The dot product is the sum of the products, position by position. |
| `VectorMath.NormalizedIsUnit` | gasket/embedding/src/index.rs:20-22 | A normalised vector has self product 1, or 0 if it was zero. |
| `VectorMath.NormalizeInPlace` | gasket/embedding/src/index.rs:174-184 | The in-place loop computes the normalised vector and leaves zero vectors untouched. |
| `TopK.PushTopk` | gasket/embedding/src/store.rs:447-462 | Replacing the first weakest entry keeps a correct selection of the k best candidates seen so far. |
| `TopK.MinIndex` | gasket/embedding/src/store.rs:453-458 | The first of the weakest entries. |
| `TopK.AgreesWithSortAndTake` | gasket/embedding/src/store.rs:442-462 | Any correct selection scores, position by position, like sorting everything and cutting at k. |
| `TopK.ScoresAreDetermined` | gasket/embedding/src/index.rs:93-123 | Two correct selections carry the same scores; only ties may pick different entries. |
| `TopK.SelectsMeansTopK` | gasket/embedding/src/index.rs:93-123 | A descending, duplicate-free list whose omitted candidates score no higher than any kept one is a correct selection. |
| `TopK.TopKMeansSelects` | gasket/embedding/src/index.rs:93-123 | A correct selection of scored ids is duplicate-free and descending, has each id's own score, and omits an id only when k others score at least as high. |
| `Sorting.SortSorts` | gasket/embedding/src/index.rs:120 | Stable insertion by any strict weak order sorts; the descending sort of hits and the ORDER BY of queries are instances. |
| `Sorting.SortIsStable` | gasket/embedding/src/index.rs:120 | Elements of equal rank stay in order. |
| `TopK.SortDescends` | gasket/embedding/src/index.rs:120 | The final sort is descending. |
| `TopK.SortPermutes` | gasket/embedding/src/index.rs:120 | The final sort loses and invents nothing. |
| `MemoryIndex.MemoryIndex.Insert` | gasket/embedding/src/index.rs:51-74 | The map from id to vector gains exactly the normalised vector under the id; a wrong length is refused and changes nothing. |
| `MemoryIndex.MemoryIndex.Remove` | gasket/embedding/src/index.rs:126-145 | The map loses exactly the id; the buffer, ids and reverse map stay a bijection. |
| `MemoryIndex.MemoryIndex.Search` | gasket/embedding/src/index.rs:80-124 | The result is the correct top-k of all entries by dot product with the normalised query; k = 0 or a wrong length gives nothing. |
| `MemoryIndex.SwapRemove` | gasket/embedding/src/index.rs:133-144 | Moving the last row into the freed one leaves every other entry's vector unchanged. |
| `MemoryIndex.AppendEntry` | gasket/embedding/src/index.rs:67-72 | Appending a row adds one entry and leaves the others unchanged. |
| `MemoryIndex.OverwriteEntry` | gasket/embedding/src/index.rs:64-66 | Overwriting a row changes one entry and leaves the others unchanged. |
| `MemoryIndex.BestRows` | gasket/embedding/src/index.rs:93-118 | The linear scan keeps the best rows. |
| `MemoryIndex.ScanCoversIndex` | gasket/embedding/src/index.rs:97-100 | The scan scores every entry of the map exactly once. |
| `EmbeddingStore.EmbeddingStore.SaveBatch` | gasket/embedding/src/store.rs:228-267 | One transaction: a vector of the wrong length fails the whole batch with nothing saved; otherwise each new id is inserted and known ids are ignored. |
| `EmbeddingStore.EmbeddingStore.SearchSimilar` | gasket/embedding/src/store.rs:403-444 | The result is the correct top-k by cosine among the readable rows that are not excluded and reach the threshold. |
| `EmbeddingStore.EmbeddingStore.LoadAll` | gasket/embedding/src/store.rs:270-303 | All readable rows, decoded, in table order; corrupt blobs are skipped. |
| `EmbeddingStore.EmbeddingStore.LoadRecent` | gasket/embedding/src/store.rs:361-395 | The readable ones among the most recent rows, newest first. |
| `EmbeddingStore.LoadedFieldByField` | gasket/embedding/src/store.rs:277-300 | A load returns exactly the rows whose blob is a whole number of words, each with its own id, session key, vector, event type and time. |
| `EmbeddingStore.RecentRows` | gasket/embedding/src/store.rs:360-367 | The most recent rows are that many rows of the table, one per id, and none left out is newer. |
| `EmbeddingStore.BestHits` | gasket/embedding/src/store.rs:420-440 | The streaming loop with its three skips keeps the best of the eligible rows. |
| `EmbeddingStore.HitsAreCandidates` | gasket/embedding/src/store.rs:420-440 | What the loop lets through is exactly the passing part of the stored scores, each id once. |
| `EmbeddingStore.SavedReadsBack` | gasket/embedding/src/store.rs:236-263 | After a batch the table decodes to the old vectors plus each new id with its first vector. |
| `Recall.RecallIds` | gasket/embedding/src/searcher.rs:88-122 | Overfetch, threshold, cold fill, merge and cut, as one predicate over what the two tiers hold; a failed embedding is passed on. |
| `Recall.FillFromCold` | gasket/embedding/src/searcher.rs:104-117 | The cold tier is asked only for what is missing, without the ids already found. |
| `Recall.RecallIsSound` | gasket/embedding/src/searcher.rs:82-122 | At most k distinct ids, descending, all at or above the threshold, each scored by a tier that holds it. |
| `Recall.ColdOnlyWhenHotIsExhausted` | gasket/embedding/src/searcher.rs:96-106 | If the cold store is consulted, every hot entry that passes the threshold is already in the answer. |
| `Recall.ExactWhenHotCovers` | gasket/embedding/src/searcher.rs:96-121 | A hot index that covers the store answers with the exact global top-k above the threshold. |
| `RecallExactness.ExactIffNothingCrowdedOut` | gasket/embedding/src/searcher.rs:96-121 | For tiers that agree on shared ids the answer is the global top-k of both tiers if and only if no passing hot hit among the best k of its tier is beaten by more cold-only hits than the hot tier leaves room for. |
| `RecallExactness.HotHitCrowdsOutBetterColdHit` | gasket/embedding/src/searcher.rs:105-121 | Concrete case: with an index that holds one of three stored vectors, its hit of 0.4 takes the place of a stored one of 0.8. |
| `RecallExactness.TiersScoreAlike` | gasket/embedding/src/searcher.rs:96-116 | When both tiers hold the same vectors, hot and cold scores of an id are equal, so they can be ranked together. |
| `RecallExactness.FullIndexIsExact` | gasket/embedding/src/searcher.rs:45-49 | With every readable row in the index, recall is the exact top-k by cosine of the raw vectors. |
| `SemanticRecall.PartialIndexIsExactIff` | gasket/embedding/src/searcher.rs:45-49 | When the index holds any part of the store, also in the middle of a batch, recall is the exact top-k of the store by cosine if and only if no better cold hit is crowded out. |
| `SemanticRecall.RecallAfterAnyRun` | gasket/embedding/src/indexer.rs:162-235 | The same after any run of the indexer from any such start, failed batches included; from an index with all of the store recall is exact without condition. |
| `SemanticRecall.RecallAfterColdStart` | gasket/embedding/src/indexer.rs:128-149 | The same for the life of the program: a cold start, limited or not, and then any run. |
| `SemanticRecall.LiveRecallIsExact` | gasket/embedding/src/searcher.rs:88-122 | The same for the objects at any moment at which the index is part of the store. |
| `Indexer.ProcessBatch` | gasket/embedding/src/indexer.rs:162-235 | Filter, two-stage deduplication, embedding, save and index update take both tiers to the specified state; failure is reported exactly when the provider or a dimension check fails, by its own kind. |
| `Indexer.SelectCandidates` | gasket/embedding/src/indexer.rs:168-186 | The first eligible event of each id. |
| `Indexer.BatchStoresTheMessages` | gasket/embedding/src/indexer.rs:168-227 | After a batch that goes through, every user or assistant message of at least 5 bytes is stored; what was added, behind the old rows, are rows of first such messages of new ids, with their session key, the tag of their kind, the encoded embedding of their content and the time of saving. |
| `Indexer.FlushesWhenDue` | gasket/embedding/src/indexer.rs:43-102 | The buffer is emptied by the sixteenth event, by every tick and by the shutdown, and grows by the event otherwise. |
| `Indexer.SkipStored` | gasket/embedding/src/indexer.rs:192-200 | The candidates whose id is not stored yet. |
| `Indexer.UpdateIndex` | gasket/embedding/src/indexer.rs:229-232 | The records go into the index one by one. |
| `Indexer.RebuildIndex` | gasket/embedding/src/indexer.rs:132-149 | A rebuild inserts every embedding it loads, all of them or the most recent ones, and fails exactly when one has the wrong length. |
| `Indexer.ColdStartIsPart` | gasket/embedding/src/indexer.rs:128-149 | A cold start yields part of the store, and all of it without a limit or with one that is large enough. |
| `Indexer.RebuildReadsStore` | gasket/embedding/src/indexer.rs:132-149 | A rebuild from scratch yields the normalised form of what the readable rows hold. |
| `Indexer.LiveIndexIsRebuilt` | gasket/embedding/src/indexer.rs:26-104 | After every turn of every run that starts in step, failed batches included, the live index equals the one a rebuild from the store would produce. |
| `Indexer.BatchKeepsInStep` | gasket/embedding/src/indexer.rs:162-235 | No batch takes store and index out of step, or the index beyond the store. |
| `Indexer.MidBatchIsPart` | gasket/embedding/src/indexer.rs:227-232 | Between the commit of a batch and its last index update the index is part of the store. |
| `Indexer.BatchAbsorbs` | gasket/embedding/src/indexer.rs:168-227 | A batch that goes through means the same as its events one at a time: an eligible event with a new id is embedded and stored; one that does not changes nothing. |
| `Indexer.BatchingIsTransparent` | gasket/embedding/src/indexer.rs:61-76 | How events are cut into batches does not change the outcome. |
| `Indexer.ReprocessingIsHarmless` | gasket/embedding/src/indexer.rs:161-204 | Processing earlier events again, in any order and number, changes nothing. |
| `Indexer.StoredEventsAreSkipped` | gasket/embedding/src/indexer.rs:192-204 | A batch of stored events succeeds without changing anything, whatever the provider would have answered. |
| `Indexer.NothingIsLostExactlyWhen` | gasket/embedding/src/indexer.rs:37-104 | For every run, whichever provider calls fail: after shutdown every eligible event received is stored if and only if no failed flush held the only chance of its id. |
| `Indexer.FailedFlushLosesEvents` | gasket/embedding/src/indexer.rs:46-57 | For every eligible event, a run with a provider that is down: the event is received and never stored. |
| `Indexer.NothingHeardIsLost` | gasket/embedding/src/indexer.rs:37-104 | After shutdown without a failed flush, the store holds the first version of every eligible event received, whatever the batches were. |
| `Indexer.RunIsAccounted` | gasket/embedding/src/indexer.rs:37-104 | For every run from any start: the store holds exactly what the flushes that went through absorb, every event received is kept, lost with a failed flush or still buffered, and the buffer stays below the batch size. |
| `Indexer.EmbeddingIndexer.Turn` | gasket/embedding/src/indexer.rs:43-102 | One turn of the loop: a receipt, a lag, a tick or the shutdown, with flushes at 16 events, on ticks and at the end. |
| `Indexer.EmbeddingIndexer.Flush` | gasket/embedding/src/indexer.rs:47-54 | A flush takes the buffer and processes it; a failed one loses its events. |

## Left out

- Floating point: scores and vectors are real numbers; rounding, NaN,
  infinities and the early return on a non-finite norm are not modelled. The
  square root is a parameter known by its defining property, and a stored
  32-bit word stands for the number a parameter assigns to it.
- Integer width: counters, sequence numbers, token sums and `2 * top_k` are
  unbounded.
- Clock: time is an input that never decreases. Timeouts are steps that may
  happen at any moment; timestamps are integers in the order of their texts.
- SQL execution: tables are sequences in insertion order, a WHERE clause is a
  predicate, ORDER BY is a stable sort, and rows with equal index keys are
  scanned in insertion order. Transactions are atomic; I/O failures are not
  modelled.
- Embedding provider and tokenizer: arbitrary functions. A provider may fail
  at any flush; one that answers with fewer vectors than texts makes the
  original panic, so an answer is required to have one vector per text.
- Rows with equal creation times: the most recent rows are taken as a stable sort
  gives them.
- Embedding rows that were not written with the store's dimension: search and
  loading skip or compare them as the code does, but the theorems about the
  indexer start from a store without such rows.
- The index repeats the replace-the-weakest step inline over pairs of score and
  row; the model shares one method between both tiers and keeps ids instead of
  rows.
- Event lookups by a list of ids, within a session or across sessions.
- Deleting embeddings by id or session, `count`, and the content hash column.
- `recall`, which joins event contents to the ids found.
- LanceDB and the provider adapters: foreign libraries.
- Cloning a `SessionManager` copies the slot map; claims are about one manager.
- The `force_compact` command and `process_message`: their effect inside the
  handler is not modelled, only that they occupy it.
- The shard locks of the concurrent maps: each map operation is one step, and
  a sweep removes any set of closed slots in one step.
- Broadcast topics and their lag.
- Forgetting remembered approvals when a guard removes its mapping; message
  forwarding over a socket.
- JSON columns of events, the broadcast of appended events, and the latest
  summary query.
- Parsing of session keys: an arbitrary function from spelling to session.
- Telegram, Discord, Slack, Feishu and WeChat adapters, the web front end,
  vault, wiki, sandbox, cron, compactor and engine kernel.
- Slash parser, templates, token tracker, spawn budget, provider registry and
  key-value store: correct but simple.
- MemoryBroker.Broker.Metrics: reads depth and counters in one step, while the
  code loads them one after the other, so a snapshot torn by other calls in
  between is not modelled.
- RecallExactness.ExactIffNothingCrowdedOut: assumes tiers that agree on shared
  ids, which SemanticRecall.PartialIndexIsExactIff derives for an index that is
  part of the store, and Indexer.RunStaysInStep for every run of the indexer
  from a cold start. Both searches see the tiers at one moment.
