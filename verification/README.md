# Verified model of the PubNub C client core

A model in Dafny of the parts of the client where state, in-place rewriting and
arithmetic meet: the Subscribe Event Engine, the parser of subscribe replies, the
query string, the callback queue, the automatic heartbeat, the presence state, the
message counters, the leave lists, and the reference counts of the engine's objects and
of the data they share.

Code that changes things in place is a class or a method over an array, and its
contract ties the new contents to a function of the old ones (`Model()`,
`Contents()`, `Text()`, `a[..]`). Lemmas about those functions then say what whole
runs keep. `dafny verify dfyconfig.toml` checks everything.

## How the files fit together

| part | functions and state | what is proved about runs or texts | code in place |
|---|---|---|---|
| Subscribe Event Engine | `SubscribeTypes`, `SubscribeTransitions`, `SubscribeMachine` | `SubscribeLog`, `SubscribeInvariants`, `SubscribeLifecycle`, `SubscribeOrder`, `SubscribeFacts`, `SubscribeRuns`, `SubscribeTheorems`, `SubscribeMoves`, `SubscribeCalls`, `SubscribeAnswers`, `SubscribeOutcomes` | `SubscribeEngine` |
| engine objects | `EngineReferences` | `EngineReferences` | `EngineLifetimes` |
| shared data | `SharedData` | `SharedData`, `LeaveTexts` | |
| leave lists | `NameLists`, `LeaveLists` | `LeaveLists`, `LeaveSets` | `SubscriptionLoop` |
| subscribe reply | `ReplyText`, `SubscribeReply`, `Json` | `SubscribeReplyRoundTrip`, `ReplyJson`, `SubscribeReplyValues` | `SubscribeReplyReader` |
| query string | `UrlParameters`, `UrlQuery` | `UrlParameters`, `UrlQuery`, `UrlAlphabet` | `UrlParameters`, `UrlBuffer` |
| callback queue | `CallbackQueue` | `CallbackRuns` | `CallbackQueue` |
| heartbeat | `HeartbeatTimers`, `ThumperSlots` | `HeartbeatRuns`, `ThumperSlots` | `HeartbeatTimers`, `ThumperSlots` |
| presence state | `PresenceState` | `PresenceState`, `PresenceReader` | `PresenceStateBuilder` |
| message counters | `MessageCounts` | `MessageCountsNames`, `MessageCountsFacts`, `MessageCountsTheorems` | `MessageCountsReader` |

A run of the Subscribe Event Engine is any sequence of calls and callbacks against
any environment (`World`: whether a transaction can start, how a subscribe call went,
whether a cancel finished at once). The log records what happened; the run theorems
compare the machine with what the log alone adds up to. `SubscribeMoves` to
`SubscribeOutcomes` say, state by state, where each event, call and result leads.

## Where the code does not meet its documentation or the obvious property

Each of these is stated with the exact condition under which the property holds, and
with an input at which it does not.

- **Overlapping cancels.** `cancel_invocation` holds one waiting CANCEL. A second one
  started before the callback completes the first overwrites it, and the first is never
  completed; the queue then never drains. A machine is stuck exactly when two waits
  overlapped (`StuckExactlyWhenOverlapped`), and it stays so (`StuckForever`). One
  subscription to three channels, its heartbeat's callback and two unsubscriptions suffice
  when cancels do not finish at once (`OverlapHappens`).
- **Asking for nothing.** core/pbcc_subscribe_event_engine.c:868-871 says that an empty
  list takes the engine to UNSUBSCRIBED. It does exactly from HANDSHAKING,
  HANDSHAKE_FAILED and RECEIVING (`NothingUnsubscribes`). The stopped states remember it,
  and RECEIVE_FAILED asks for a handshake for nothing: the only channel is unsubscribed
  from after a failed long poll (`LastChannelGone`).
- **Texts with two owners.** UNSUBSCRIBE_ALL gives its channel and group texts to the
  event's context, which frees them, and when no leave call can start to the leave lists,
  which free them too. A freed text waits in the leave lists exactly when no leave call
  can start and the state is not RECEIVING (`UnsubscribeAllDangles`); sending it then
  frees it twice (`PostponedLeaveFreesTwice`, `HandshakingFreesTwice`). In RECEIVING
  sending it frees a text that the emission's context still refers to
  (`PostponedLeaveFreesHeld`). Where a text has one owner nothing reachable is freed
  (`NoFreedTextIsReached`).
- **Counts that are never taken back.** States and invocations that can be reached are
  never freed (`NothingReachableIsFreed`), but an invocation that was merged once, and
  every state but the initial one, is not freed at all (`FreedExactlyIfNeverMerged`,
  `HandleAll`): each merge counts the invocation and nothing takes that count back, and
  the state's maker never lets go.
- **Parameter sort.** The outer loop stops one slot early. The result is in key order
  exactly when the last slot is unused, nothing used stands before it, or its key equals
  the greatest of the others (`SortUrlParameters`); a full table in order is not, when its
  last key is the greatest (`FullTableIsNotSorted`). The encoder never sends the last
  slot, so a table needs the spare slot anyway.
- **URL encoder.** A run of safe characters must end one byte earlier than an escape may
  (`UrlEncode`, `BoundIsUneven`). When the `=` of a parameter takes the last byte of the
  buffer, the size left is zero, both size tests wrap around, and the whole value is
  written behind the buffer. Bytes are written behind the buffer exactly when a slot that
  is reached fills it so (`EncodeUrlParameters`, `ExactlyFull`).
- **Heartbeat timers.** The time left passes through a 32-bit `int`. An undisturbed timer
  always fires at the right tick exactly when its period is below 2^31 milliseconds
  (`FiresOnTime`); a period of 25 days fires at the first tick (`LongPeriodFiresAtOnce`).
  A stopped timer keeps its time left, and a start without smart heartbeat then takes it
  for a running one (`StopLeavesStale`, `StartRuns`, `StaleForever`,
  `StoppedStaysStopped`). A smart start of a running timer lists it twice
  (`StartKeepsDistinct`, `SmartRestartListsTwice`).
- **Callback queue.** Removal blanks only the first occurrence of a context; that is
  enough exactly when it does not wait twice (`RemovalTakesOut`, `RemovedOnceStillWaits`),
  which a run avoids exactly when no plain enqueue doubles a waiting context
  (`SingleExactlyWithoutDoubles`).
- **Presence state.** A channel list that starts with a comma is passed over and its
  channels are lost (`LeadingCommaLosesChannel`); an empty first name leaves a comma
  behind the opening brace; a state that ends in a comma loses it. The text is the object
  over all names given exactly when none of this applies (`BuildsObject`). The computed
  size is one byte short exactly for one channel and one group (`FitsUnlessTight`,
  `OneByteShort`).
- **Message counters.** core/pubnub_advanced_history.h:67-77 says a name in the answer
  that was not requested is no error. The code writes its count behind the array and
  counts it as a hit. The promise is kept exactly when none of the entries read is such a
  name (`PromisedExactlyWithoutStrays`, `StrayIsWritten`). The search for the requested
  names stays inside the list exactly when the number of its trailing commas is even
  (`StaysInsideOnEven`, `TrailingCommaLeaves`).
- **Leave lists.** Channels, groups and presence channels share one set keyed by name.
  What drops out is left exactly when its name is not in use as something else, for one
  subscription (`LeftExactlyWithoutNameClash`, `GroupHidesChannel`) and for a whole set
  (`SetLeftExactlyWithoutNameClash`, `PresenceHidesChannel`).

## Model

| member | source | states |
|---|---|---|
| SubscribeTheorems.CompletionOrder | core/pbcc_event_engine.c:352-381 | in every run the non-immediate invocations finished so far, then those still queued, are exactly the enqueued ones in order without those cancelled by type |
| SubscribeTheorems.RestartOnlyAfterPause | core/pbcc_event_engine.c:672-700 | between two starts of the same invocation it was paused |
| SubscribeTheorems.FinishedForGood | core/pbcc_event_engine.c:370-381 | a finished invocation is never started or finished again and is not in the queue |
| SubscribeTheorems.OnePendingRequest | core/pbcc_subscribe_event_engine_states.c:38-46 | at most one HANDSHAKE and one RECEIVE are ever queued, so removing the first match leaves none |
| SubscribeTheorems.ListenersNeverStale | core/pbcc_subscribe_event_engine_effects.c:62-83 | the status last reported is the current one unless an emission is queued; and the status fits the state |
| SubscribeTheorems.ListsOfLast | core/pbcc_subscribe_event_engine_events.c:231-278 | the lists a log adds up to are those of its last accepted CHANGED or RESTORED event |
| SubscribeTheorems.CursorOfLast | core/pbcc_subscribe_event_engine_events.c:262-263 | the cursor a log adds up to is that of its last accepted event that brings one, or the default when that entered UNSUBSCRIBED |
| SubscribeTheorems.NoCursor | core/pbcc_subscribe_event_engine_events.c:313 | without any such event it is the default |
| SubscribeTheorems.NoLists | core/pbcc_subscribe_event_engine_events.c:310-311 | without any CHANGED or RESTORED there are no lists |
| SubscribeTheorems.ContextIsHistory | core/pbcc_subscribe_event_engine_events.c:323-344 | in every reachable state the context's lists and cursor are what the log adds up to; only UNSUBSCRIBED has none |
| SubscribeTheorems.ContextIsLastAccepted | core/pbcc_subscribe_event_engine_events.c:231-278 | in every reachable state with a context: its lists are those of the last accepted CHANGED or RESTORED, its cursor that of the last accepted event that brings one since UNSUBSCRIBED, else the default |
| SubscribeTheorems.RequestsAreCurrent | core/pbcc_subscribe_event_engine_effects.c:146-239 | a subscribe call sent for the current state carries the current lists and cursor, however long it was queued or paused |
| SubscribeTheorems.ReceivingBeginsWithHandshake | core/pbcc_subscribe_event_engine_transitions.c:157-260 | RECEIVING is entered from elsewhere only from HANDSHAKING by HANDSHAKE_SUCCESS |
| SubscribeTheorems.StuckExactlyWhenOverlapped | core/pbcc_subscribe_event_engine_effects.c:113-144 | some running invocation is out of every callback's reach if and only if two waiting cancels overlapped |
| SubscribeTheorems.CallbackFreesQueue | core/pbcc_subscribe_event_engine.c:783-850 | after the callback completes the waiting cancel nothing is running, if and only if no two cancels overlapped |
| SubscribeTheorems.OverlapStep | core/pbcc_subscribe_event_engine_effects.c:113-144 | the exact guard of the step that overlaps |
| SubscribeTheorems.StuckForever | core/pbcc_event_engine.c:672-682 | an orphaned cancel stays at its place through every later call and callback |
| SubscribeTheorems.OverlapHappens | core/pbcc_event_engine.c:334-339 | a subscription, its heartbeat's callback and two unsubscriptions get the engine stuck when cancels do not finish at once |
| SubscribeMoves.ReconnectResumes | core/pbcc_subscribe_event_engine_transitions.c:293-573 | RECONNECT in each of the four failed or stopped states enters HANDSHAKING with the remembered lists and the given cursor, and queues exactly one HANDSHAKE for them behind what else is queued; the other states ignore it |
| SubscribeMoves.DisconnectStops | core/pbcc_subscribe_event_engine_transitions.c:234-407 | DISCONNECT stops HANDSHAKING and RECEIVING with lists and cursor kept, queues the cancel of the call and, from RECEIVING, a report of DISCONNECTED in front; the others ignore it |
| SubscribeMoves.HandshakeEnds | core/pbcc_subscribe_event_engine_transitions.c:190-232 | HANDSHAKE_SUCCESS enters RECEIVING at its cursor with CONNECTED and queues report, cancel and long poll; HANDSHAKE_FAILURE keeps lists and cursor and stores its reason; only HANDSHAKING takes either |
| SubscribeMoves.ReceiveEnds | core/pbcc_subscribe_event_engine_transitions.c:397-403 | RECEIVE_SUCCESS stays in RECEIVING at its cursor and queues messages, cancel and the next long poll; RECEIVE_FAILURE keeps lists and cursor and stores its reason; only RECEIVING takes either |
| SubscribeMoves.UnsubscribeAllEnds | core/pbcc_subscribe_event_engine_transitions.c:237-577 | UNSUBSCRIBE_ALL ends every state in UNSUBSCRIBED without a context; a live one cancels its call, and RECEIVING reports with the lists that were given up |
| SubscribeMoves.ChangeWhileLive | core/pbcc_subscribe_event_engine_transitions.c:170-396 | new lists in a live state drop the request that waits, cancel the call and queue a request for exactly them; RECEIVING reports the change |
| SubscribeMoves.ChangeToNothing | core/pbcc_subscribe_event_engine_transitions.c:276-392 | no lists at all end HANDSHAKING, HANDSHAKE_FAILED and RECEIVING |
| SubscribeMoves.ChangeWhileStopped | core/pbcc_subscribe_event_engine_transitions.c:333-571 | new lists in a stopped state are remembered and nothing is queued |
| SubscribeMoves.ChangeStarts | core/pbcc_subscribe_event_engine_transitions.c:123-153 | from UNSUBSCRIBED and RECEIVE_FAILED always, and from HANDSHAKE_FAILED with something to ask for, new lists queue one HANDSHAKE for them |
| SubscribeCalls.DriveMoves | core/pbcc_event_engine.c:352-368 | in every reachable machine, running what is queued leaves state, context and status alone, unless the network refused a call meanwhile: then the state has failed with that reason |
| SubscribeCalls.RefusedCallFails | core/pbcc_subscribe_event_engine_effects.c:229-236 | a call refused in a live state makes that state fail, with this call's reason when no other request is behind it |
| SubscribeCalls.DriveServes | core/pbcc_event_engine.c:352-381 | nothing queued is lost: apart from cancels it is still queued afterwards, or it finished, and a request then went out for the lists and cursor it was queued with |
| SubscribeCalls.DriveRests | core/pbcc_event_engine.c:352-368 | the queue is run until it is empty, its head waits, or what ran last paused or waits |
| SubscribeCalls.OnlyOnFreeWire | core/pbcc_subscribe_event_engine_effects.c:163-224 | a call goes out and a cancel starts only while nothing is on the wire, and never a call that still owes a heartbeat |
| SubscribeCalls.HeartbeatGoesFirst | core/pbcc_subscribe_event_engine_effects.c:171-210 | the heartbeat a request owes goes out first and once, and the request keeps its place; when no transaction can start it still owes it |
| SubscribeCalls.CancelEndsOrWaits | core/pbcc_subscribe_event_engine_effects.c:113-144 | on a free wire a cancel ends at once or runs until a callback ends it |
| SubscribeCalls.BusyWireIsLeftAlone | core/pbcc_subscribe_event_engine_effects.c:163-169 | while a heartbeat or a leave is on the wire, nothing that runs calls, cancels or moves the engine |
| SubscribeCalls.DriveWire | core/pbcc_event_engine.c:352-368 | running keeps what is still to be left and puts nothing but a heartbeat on the wire |
| SubscribeAnswers.EventEnds | core/pbcc_event_engine.c:261-350 | the state an event leads to is where its step ends unless a call is refused, and everything it queued apart from cancels has run or will |
| SubscribeAnswers.ReconnectCallResumes | core/pbcc_subscribe_event_engine.c:621-661 | a reconnect resumes every failed or stopped subscription with its lists from the given cursor, its handshake on the way, and leaves any other alone |
| SubscribeAnswers.DisconnectCallStops | core/pbcc_subscribe_event_engine.c:579-619 | a disconnect stops a live subscription, keeping lists and cursor, and reports an established one |
| SubscribeAnswers.ChangeEnds | core/pbcc_subscribe_event_engine.c:852-913 | changed lists: remembered while stopped, ended when nothing is asked of a state that can end, and otherwise a request for exactly them is on its way from the cursor kept or given |
| SubscribeAnswers.SubscribeChanges | core/pbcc_subscribe_event_engine.c:883-890 | subscribing is such a change; the cursor counts unless its timetoken begins with a zero |
| SubscribeAnswers.UnsubscribeChanges | core/pbcc_subscribe_event_engine.c:959-1004 | unsubscribing is such a change without a heartbeat; what is left is told now or remembered, and stays so through everything that runs |
| SubscribeAnswers.UnsubscribeEverythingEnds | core/pbcc_subscribe_event_engine.c:663-736 | it ends every subscription and reports an established one with what was given up |
| SubscribeOutcomes.CallbackIs | core/pbcc_subscribe_event_engine.c:796-817 | which callbacks are taken for the outcome of the call, and what the others do |
| SubscribeOutcomes.SuccessConnects | core/pbcc_subscribe_event_engine.c:835-836 | in every reachable HANDSHAKING a successful result leads to RECEIVING at the callback's cursor with CONNECTED, report and long poll on their way |
| SubscribeOutcomes.SuccessDelivers | core/pbcc_subscribe_event_engine.c:841-842 | in every reachable RECEIVING it stays, at the callback's cursor, with the messages and the next long poll on their way |
| SubscribeOutcomes.FailureFails | core/pbcc_subscribe_event_engine.c:835-845 | a failed or cancelled result leads to HANDSHAKE_FAILED or RECEIVE_FAILED with the result as reason, lists and cursor kept and the report on its way |
| SubscribeOutcomes.ElsewhereNothing | core/pbcc_subscribe_event_engine.c:835-848 | in any other state a result changes nothing but what the callback itself ends |
| SubscribeOutcomes.CallbackGoesOn | core/pbcc_subscribe_event_engine.c:796-817 | a callback of a heartbeat, a leave or a cancelled call sends all postponed leaves on a free wire, or runs the queue until nothing more can run |
| SubscribeOutcomes.NothingUnsubscribes | core/pbcc_subscribe_event_engine.c:868-878 | a change to no lists ends in UNSUBSCRIBED if and only if the state is HANDSHAKING, HANDSHAKE_FAILED or RECEIVING |
| SubscribeOutcomes.LastChannelGone | core/pbcc_subscribe_event_engine_transitions.c:527-531 | the input: the only channel is unsubscribed from after a failed long poll |
| SubscribeEngine.Engine.CancelByType | core/pbcc_event_engine.c:514-534 | removes the first invocation of the type that is not running |
| SubscribeEngine.Engine.Gather | core/pbcc_event_engine.c:546-602 | a transition's invocations: its own, those of leaving, those of entering |
| SubscribeEngine.Engine.Prepare | core/pbcc_subscribe_event_engine_states.c:22-61 | the status is stored and an outdated request of the state to enter is removed |
| SubscribeEngine.Engine.Transit | core/pbcc_subscribe_event_engine_transitions.c:123-652 | one transition: target, status, context, queue and what runs next are those of the machine, which `SubscribeMoves` fixes for every state and event |
| SubscribeEngine.Engine.HandleEvent | core/pbcc_event_engine.c:261-350 | the transition followed by everything it sets off |
| SubscribeEngine.Engine.ProcessNextInvocation | core/pbcc_event_engine.c:352-368 | runs the head of the queue |
| SubscribeEngine.Engine.InvocationExec | core/pbcc_event_engine.c:672-682 | runs an invocation only if it is CREATED |
| SubscribeEngine.Engine.EmitStatusEffect | core/pbcc_subscribe_event_engine_effects.c:62-83 | reports the status of the moment it runs, then completes |
| SubscribeEngine.Engine.EmitMessagesEffect | core/pbcc_subscribe_event_engine_effects.c:85-111 | completes and goes on |
| SubscribeEngine.Engine.CancelEffect | core/pbcc_subscribe_event_engine_effects.c:113-144 | pauses while something is on the wire, else completes or waits for the callback |
| SubscribeEngine.Engine.MakeSubscribeRequest | core/pbcc_subscribe_event_engine_effects.c:146-239 | pauses, sends the heartbeat first, or sends the call and completes; a refused call becomes a failure event |
| SubscribeEngine.Engine.HandleSubscribeError | core/pbcc_subscribe_event_engine.c:738-752 | the failure event of the current state, if it has a request |
| SubscribeEngine.Engine.EffectCompletion | core/pbcc_event_engine.c:684-700 | a paused invocation is runnable again, any other leaves the queue and the next is run |
| SubscribeEngine.Engine.HandleEffectCompletion | core/pbcc_event_engine.c:370-381 | only a running invocation is completed and removed |
| SubscribeEngine.Engine.SubscribeCallback | core/pbcc_subscribe_event_engine.c:783-850 | completes a waiting cancel, sends a postponed leave, resumes the queue or turns the outcome into an event, as the machine does; `SubscribeOutcomes` fixes where each result leads |
| SubscribeEngine.Engine.PostponedUnsubscribe | core/pbcc_subscribe_event_engine.c:1007-1082 | what is still to be left is joined and sent once, when the wire is free |
| SubscribeEngine.Engine.JoinedElements | core/pbcc_subscribe_event_engine.c:1256-1288 | the elements joined by commas |
| SubscribeEngine.Engine.SendOrPostponeLeave | core/pbcc_subscribe_event_engine.c:959-993 | leaves now or remembers what to leave |
| SubscribeEngine.Engine.Call | core/pbcc_subscribe_event_engine.c:579-736 | each entry point is the machine's step |
| EngineReferences.NothingReachableIsFreed | core/pbcc_event_engine.c:436-450 | over any interleaving of steps: states referred to are counted exactly, their lists live, and every invocation in a live list is allocated and counted at least once per holder |
| EngineReferences.FreedExactlyIfNeverMerged | core/pbcc_event_engine.c:536-544 | an invocation's counter is zero if and only if no list holds it and it was never merged |
| EngineReferences.ReachedIsCounted | core/pbcc_event_engine.c:654-670 | what a live list reaches is not freed and its counter is at least the number of holders |
| EngineReferences.MergeKeeps | core/pbcc_event_engine.c:654-670 | merging shares entries and keeps every count |
| EngineReferences.RemoveAtKeeps | core/pbcc_event_engine.c:514-534 | taking one invocation out of a list keeps every count |
| EngineReferences.FreeArrayKeeps | core/pbcc_event_engine.c:604-613 | freeing a list keeps every count |
| EngineReferences.SetCurrentKeeps | core/pbcc_event_engine.c:615-619 | letting the old state go and counting the new one keeps every count, even if they are the same |
| EngineLifetimes.CountedEngine.HandleEvent | core/pbcc_event_engine.c:261-350 | one event leaves exactly one more reference behind, its maker's, and the new state current |
| EngineLifetimes.CountedEngine.Gather | core/pbcc_event_engine.c:546-602 | the three lists are merged into the transition and its own list is freed |
| EngineLifetimes.HandleAll | core/pbcc_subscribe_event_engine_transitions.c:600-652 | after any events and removals every state but the initial one is still counted once, and the current one once more |
| SharedData.DataIsCounted | core/pbcc_event_engine.c:383-418 | over any interleaving of steps: a context or text cell is allocated exactly while something holds it, and its counter is the number of events, states, invocations, functions and contexts that do |
| SharedData.StepCounts | core/pbcc_event_engine.c:395-403 | every step keeps every counter equal to the number of holders |
| SharedData.DropKeeps | core/pbcc_subscribe_event_engine_events.c:346-353 | with the last holder a context lets go of its lists once each |
| SharedData.PutKeeps | core/pbcc_subscribe_event_engine_events.c:323-344 | a context takes over or shares a list |
| SharedData.NoFreedTextIsReached | core/pbcc_subscribe_event_engine.c:961-1000 | when a text goes into one cell or into the leave lists but not both, none is freed twice or while something has it |
| LeaveTexts.DanglesExactly | core/pbcc_subscribe_event_engine.c:672-722 | after UNSUBSCRIBE_ALL a freed text waits in the leave lists if and only if no leave call could start and no emission keeps the event's context |
| LeaveTexts.UnsubscribeAllDangles | core/pbcc_subscribe_event_engine.c:672-722 | that is, if and only if no leave call can start and the state is not RECEIVING |
| LeaveTexts.PostponedLeaveFreesTwice | core/pbcc_subscribe_event_engine.c:1026-1032 | sending the postponed leave then frees a text twice, and only then |
| LeaveTexts.PostponedLeaveFreesHeld | core/pbcc_subscribe_event_engine.c:1026-1032 | it frees a text that a live context refers to if and only if no leave call could start and an emission keeps the context |
| LeaveTexts.HandshakingFreesTwice | core/pbcc_subscribe_event_engine.c:672-722 | the input: HANDSHAKING, one channel, no leave call can start |
| LeaveLists.LoopHas | core/pbcc_subscribe_event_engine.c:1084-1112 | the loop holds a name if and only if some subscription, alone or in a set, uses it |
| LeaveSets.AskedExactly | core/pbcc_subscribe_event_engine.c:1171-1254 | the subscribe lists hold exactly the names some subscription uses, presence names included, each once and in one of the two |
| LeaveLists.DropsOut | core/pbcc_subscribe_event_engine.c:429-470 | the names removed by unsubscribing are those of the loop before that are not in the loop after |
| LeaveLists.SetDropsOut | core/pbcc_subscribe_event_engine.c:498-539 | the same names, whatever their kind, for a set of subscriptions |
| LeaveLists.NeverLeftWhileHeld | core/pbcc_subscribe_event_engine.c:936-946 | a name is listed if and only if it is among the removed ones of that kind and nothing holds it any more |
| LeaveLists.LeaveOfOne | core/pbcc_subscribe_event_engine.c:915-959 | one subscription leaves its own channel or group, once, if the name is held nowhere, and never a presence channel |
| LeaveLists.LeftExactlyWithoutNameClash | core/pbcc_subscribe_event_engine.c:936-946 | for one subscription, what nobody holds is left, and what is held is not, if and only if the name is not used as something else |
| LeaveSets.LeaveOfSet | core/pbcc_subscribe_event_engine.c:915-959 | a name is left with a set if and only if the set's first use of it is as a channel or group of that kind and nothing uses it any more |
| LeaveSets.SetListedOnce | core/pbcc_subscribe_event_engine.c:915-959 | no name is listed twice |
| LeaveSets.SetLeftExactlyWithoutNameClash | core/pbcc_subscribe_event_engine.c:936-946 | both leave lists of a set are exactly the channels and groups nobody holds any more if and only if none of their names clashes with another kind or a presence channel |
| LeaveSets.OneOfSetDropsOut | core/pbcc_subscribe_event_engine.c:541-577 | taking one subscription out of a set that stays removes the names of the loop before that are not in the loop after |
| LeaveSets.GroupHidesChannel | core/pbcc_subscribe_event_engine.c:936-946 | the input: a channel goes while a group of the same name stays |
| LeaveSets.PresenceHidesChannel | core/pbcc_subscribe_event_engine.c:936-946 | the input: a set with presence for a channel and a channel of the presence channel's name |
| LeaveLists.JoinedSplits | core/pbcc_subscribe_event_engine.c:1227-1249 | splitting the written list at its commas gives back exactly the names |
| LeaveLists.AlwaysRoom | core/pbcc_subscribe_event_engine.c:1185-1208 | the size of the first pass has room for every prefix the second pass writes |
| SubscriptionLoop.ListSize | core/pbcc_subscribe_event_engine.c:1189-1208 | the first pass: total length and buffer size |
| SubscriptionLoop.AppendName | core/pbcc_subscribe_event_engine.c:1233-1249 | one name, with a comma once something stands there, and the terminator |
| SubscriptionLoop.WriteList | core/pbcc_subscribe_event_engine.c:1171-1254 | the buffer holds the joined names of one kind; no write leaves it |
| SubscriptionLoop.LoopKeeper.AddSubscribables | core/pbcc_subscribe_event_engine.c:1114-1169 | the union by name |
| SubscriptionLoop.LoopKeeper.UpdateSubscribables | core/pbcc_subscribe_event_engine.c:1084-1112 | the set is collected afresh from all subscriptions and sets |
| SubscriptionLoop.LoopKeeper.DropHeld | core/pbcc_subscribe_event_engine.c:936-946 | what the loop still holds is taken out |
| SubscriptionLoop.LoopKeeper.SubscribeWithSubscription | core/pbcc_subscribe_event_engine.c:403-427 | the subscription is added and the set is current |
| SubscriptionLoop.LoopKeeper.SubscribeWithSet | core/pbcc_subscribe_event_engine.c:472-496 | the set is added and the names are current |
| SubscriptionLoop.LoopKeeper.Unsubscribe | core/pbcc_subscribe_event_engine.c:915-959 | the two leave lists and whether there is anything to leave |
| SubscriptionLoop.LoopKeeper.UnsubscribeWithSubscription | core/pbcc_subscribe_event_engine.c:429-470 | not found, or every occurrence is gone and the leave list names the subscription unless its name is held |
| SubscriptionLoop.LoopKeeper.UnsubscribeWithSet | core/pbcc_subscribe_event_engine.c:498-539 | not found, or the set is gone, the lists are those of the set, and there is nothing to leave exactly when both are empty |
| SubscriptionLoop.LoopKeeper.UnsubscribeFromSet | core/pbcc_subscribe_event_engine.c:541-577 | one subscription leaves a set that stays: the leave list names it unless its name is held |
| SubscriptionLoop.LoopKeeper.SubscribeLists | core/pbcc_subscribe_event_engine.c:863-877 | the lists of the whole loop, presence names included; absent if and only if the loop is empty |
| ReplyText.SplitChangesTopCommas | core/pubnub_ccore_pubsub.c:284-319 | exactly the commas outside strings at level 0 become NUL |
| ReplyText.SplitLosesNothing | core/pubnub_ccore_pubsub.c:284-319 | joining the pieces with commas gives back the text |
| ReplyText.DrainJoined | core/pubnub_ccore_pubsub.c:189-221 | a NUL-joined list of non-empty names is drained name by name |
| SubscribeReplyRoundTrip.RoundTrip | core/pubnub_ccore_pubsub.c:361-469 | parsing a printed reply gives OK, its timetoken, exactly its messages and exactly its channels |
| SubscribeReplyValues.ValuesRoundTrip | core/pubnub_ccore_pubsub.c:361-469 | for any JSON values as messages, any timetoken of fewer than 20 characters and any lists, with or without a line end behind them: parsing gives back exactly the values as written, the timetoken and the channels |
| SubscribeReplyValues.RoundTripAnyEnd | core/pubnub_ccore_pubsub.c:394-396 | a trailing line end of two bytes changes nothing |
| SubscribeReplyValues.StatusDecides | core/pubnub_ccore_pubsub.c:369-393 | which error status of the reply gives which result, and that nothing else does |
| ReplyJson.ValuesArePlain | core/pubnub_ccore_pubsub.c:284-319 | the splitter finds no separator inside any JSON value and leaves it as it entered |
| ReplyJson.CutShortIsOpen | core/pubnub_ccore_pubsub.c:284-319 | a string, array or object cut short anywhere never counts as closed |
| SubscribeReplyReader.AcceptedTimetoken | core/pubnub_ccore_pubsub.c:436-455 | whatever is accepted, the timetoken is a piece of the reply shorter than the limit |
| SubscribeReplyReader.AcceptedDrainable | core/pubnub_ccore_pubsub.c:361-469 | whatever is accepted, both regions end in a NUL, so the getters stay inside |
| SubscribeReplyReader.ReplyContext.FindStringStart | core/pubnub_ccore_pubsub.c:274-281 | the last quote that follows a comma, or none |
| SubscribeReplyReader.ReplyContext.SplitArray | core/pubnub_ccore_pubsub.c:284-319 | the region is split in place and closed if and only if the scan ends outside strings, escapes and brackets |
| SubscribeReplyReader.ReplyContext.CutCommasDown | core/pubnub_ccore_pubsub.c:404-410 | every comma of the channel list becomes NUL |
| SubscribeReplyReader.ReplyContext.ParseChannels | core/pubnub_ccore_pubsub.c:398-434 | the channel list is cut and stored, and a group list in front of it skipped |
| SubscribeReplyReader.ReplyContext.StoreAndSplit | core/pubnub_ccore_pubsub.c:436-468 | timetoken stored, message array cut off and split |
| SubscribeReplyReader.ReplyContext.ParseSubscribeResponse | core/pubnub_ccore_pubsub.c:361-469 | result, buffer and offsets are those of the parser function |
| SubscribeReplyReader.ReplyContext.GetMsg | core/pubnub_ccore_pubsub.c:189-209 | takes the next message off those left |
| SubscribeReplyReader.ReplyContext.GetChannel | core/pubnub_ccore_pubsub.c:212-221 | takes the next channel off those left |
| UrlParameters.SortUrlParameters | core/pubnub_ccore_pubsub.h:445-459 | a rearrangement that leaves unused slots in place; in key order if and only if the table was sortable |
| UrlParameters.PassStep | core/pubnub_ccore_pubsub.h:449-457 | one comparison of a pass keeps the sorted prefix and the maximum at its slot |
| UrlParameters.Finished | core/pubnub_ccore_pubsub.h:448-458 | what the last pass leaves is sorted if and only if the table was sortable |
| UrlParameters.SortedUnique | core/pubnub_ccore_pubsub.h:445-459 | with distinct keys the sorted rearrangement is the only one |
| UrlAlphabet.FirstDifference | core/pubnub_ccore_pubsub.h:452 | one key stands before another if and only if at their first difference it ends or has the smaller byte |
| UrlParameters.FullTableIsNotSorted | core/pubnub_ccore_pubsub.h:445-459 | the input: a full table of two keys in order |
| UrlQuery.DecodeEncoded | core/pubnub_url_encode.c:39-118 | decoding the encoding of any bytes gives them back |
| UrlQuery.EncodedHides | core/pubnub_url_encode.c:39-118 | every character of the encoding is kept as it is or starts an escape; `UrlAlphabet` says which ones are kept |
| UrlAlphabet.KeptExactlyIfListed | core/pubnub_url_encode.h:7 | a byte is kept as it is if and only if it is one of the 69 listed characters; any other becomes an escape |
| UrlAlphabet.OnlyListed | core/pubnub_url_encode.c:81-112 | every character of an encoded value is a listed one or a percent sign |
| UrlAlphabet.NothingSeparates | core/pubnub_url_encode.c:81-112 | no blank, control character, `&`, `=`, `?`, `#`, `/`, `+`, quote or byte outside ASCII comes from a value |
| UrlAlphabet.Escapes | core/pubnub_url_encode.c:97-101 | a blank becomes `%20`, and so on with upper-case digits |
| UrlAlphabet.QueryText | core/pubnub_ccore_pubsub.h:461-472 | the query is a question mark and the assignments with ampersands between them, or nothing |
| UrlQuery.QueryRoundTrip | core/pubnub_ccore_pubsub.h:461-472 | parsing the query gives every parameter of the table, once, in order |
| UrlQuery.SortedQuery | core/pubnub_ccore_pubsub.h:445-472 | sorted and encoded, the receiver reads the same parameters in key order |
| UrlQuery.SpareSlotSorts | core/pubnub_ccore_pubsub.h:445-459 | a table with a spare slot is always sortable |
| UrlBuffer.RequestBuffer.UrlEncode | core/pubnub_url_encode.c:39-118 | with room left, the encoding, whose characters `UrlAlphabet` lists, is written if and only if it fits the encoder's bound, and nothing behind the buffer; with none, it is always written, and behind the buffer |
| UrlBuffer.RequestBuffer.AppendUrlParamEncoded | core/pubnub_ccore_pubsub.c:553-570 | separator, name, `=` and encoded value; too small leaves the text, or empties it once the name was written; bytes go behind the buffer only when the `=` takes its last byte, and then the value does |
| UrlBuffer.RequestBuffer.EncodeSlot | core/pubnub_ccore_pubsub.h:464-470 | a slot with key and value is sent if it is accepted, any other skipped |
| UrlBuffer.RequestBuffer.EncodeUrlParameters | core/pubnub_ccore_pubsub.h:461-472 | succeeds if and only if every field is accepted in its turn, and then appends the whole query; bytes are written behind the buffer if and only if a slot that is reached fills it exactly |
| UrlBuffer.TestsWrap | core/pubnub_url_encode.c:84-108 | the two size tests are the plain comparisons while something is left and always pass when nothing was |
| UrlBuffer.BoundIsUneven | core/pubnub_url_encode.c:83-108 | the input: one safe character with its exact room is refused, one escape is not |
| UrlBuffer.ExactlyFull | core/pubnub_ccore_pubsub.c:561-569 | the input: a buffer full behind the `=` |
| CallbackQueue.ProcessingQueue.EnqueueForProcessing | core/pbpal_ntf_callback_queue.c:24-49 | accepted if and only if fewer than size - 1 entries wait |
| CallbackQueue.ProcessingQueue.RequeueForProcessing | core/pbpal_ntf_callback_queue.c:52-71 | nothing if the context waits already, else an enqueue |
| CallbackQueue.ProcessingQueue.RemoveFromQueue | core/pbpal_ntf_callback_queue.c:74-91 | the first occurrence becomes a hole |
| CallbackQueue.ProcessingQueue.ProcessOne | core/pbpal_ntf_callback_queue.c:97-114 | the oldest entry leaves and is dispatched unless it is a hole |
| CallbackQueue.ProcessingQueue.ProcessQueue | core/pbpal_ntf_callback_queue.c:94-117 | a round empties the queue and dispatches what was live, in order |
| CallbackRuns.StepMatches | core/pbpal_ntf_callback_queue.c:24-117 | the run's step changes the contents as the ring's operations do |
| CallbackRuns.DispatchedInOrder | core/pbpal_ntf_callback_queue.c:24-117 | over any interleaving, dispatched then still live are all accepted in order without the removed; at most the capacity waits |
| CallbackRuns.Conservation | core/pbpal_ntf_callback_queue.c:24-117 | accepted = dispatched + removed + live and waiting |
| CallbackRuns.SingleExactlyWithoutDoubles | core/pbpal_ntf_callback_queue.c:52-71 | no context ever waits twice if and only if no plain enqueue was accepted for a waiting one |
| CallbackRuns.RemovalTakesOut | core/pbpal_ntf_callback_queue.c:74-91 | after a removal the context does not wait, if and only if it waited at most once |
| CallbackRuns.RemovedOnceStillWaits | core/pbpal_ntf_callback_queue.c:74-91 | the input: enqueued twice and removed once |
| CallbackRuns.RemovedIsNotDispatched | core/pbpal_ntf_callback_queue.c:74-117 | once taken out it is not dispatched until it is put back |
| HeartbeatTimers.ExpiresOnTime | core/pbauto_heartbeat.c:384-386 | every tick decides a timer rightly if and only if it shows at most 2^31 milliseconds |
| HeartbeatTimers.RemainsIs | core/pbauto_heartbeat.c:385 | the time left is right if and only if it is below 2^31 milliseconds |
| HeartbeatTimers.TakeTheNodeOut | core/pbauto_heartbeat.c:333-341 | the entry is gone, the rest shifted, the dimension one less |
| HeartbeatTimers.Watcher.HandleHeartbeatTimers | core/pbauto_heartbeat.c:377-421 | what fires, what stays and the time left are those of the tick function although the array shrinks while it is walked |
| HeartbeatTimers.Watcher.StartHeartbeatTimer | core/pbauto_heartbeat.c:37-80 | arms a timer unless it counts as started |
| HeartbeatTimers.Watcher.AutoHeartbeatStopTimer | core/pbauto_heartbeat.c:572-591 | takes the first listing out and keeps the time left |
| HeartbeatRuns.TickIsExact | core/pbauto_heartbeat.c:377-421 | a tick fires exactly the timers with at most that time left, once and in order, and reduces the others, if and only if none keeps 2^31 milliseconds or more |
| HeartbeatRuns.FiresOnTime | core/pbauto_heartbeat.c:75-79 | over any operations a timer left alone fires at exactly the tick by which its period has elapsed, if and only if the period is below 2^31 milliseconds |
| HeartbeatRuns.FiresEarly | core/pbauto_heartbeat.c:384-386 | two ticks at which a longer timer fires before its period has elapsed |
| HeartbeatRuns.LongPeriodFiresAtOnce | core/pbauto_heartbeat.c:384-386 | the input: a period of 25 days |
| HeartbeatRuns.StartRuns | core/pbauto_heartbeat.c:37-80 | a start without smart heartbeat leaves it running if and only if it ran or showed no time left |
| HeartbeatRuns.StopLeavesStale | core/pbauto_heartbeat.c:572-591 | a stop leaves it stale if and only if time was left and it was listed at most once |
| HeartbeatRuns.StoppedStaysStopped | core/pbauto_heartbeat.c:572-591 | the input: started, stopped and started again |
| HeartbeatRuns.StaleForever | core/pbauto_heartbeat.c:37-80 | a stale timer never fires until a smart start |
| HeartbeatRuns.StartKeepsDistinct | core/pbauto_heartbeat.c:37-80 | the list stays without duplicates if and only if no smart start hits a running timer |
| HeartbeatRuns.SmartRestartListsTwice | core/pbauto_heartbeat.c:37-80 | the input: two smart starts |
| ThumperSlots.EnableSucceeds | core/pbauto_heartbeat.c:551-569 | after any history: below 16 in use there is a free slot, and when enabling succeeds |
| ThumperSlots.DisableUndoes | core/pbauto_heartbeat.c:642-655 | disabling gives back the slots as they were before enabling |
| ThumperSlots.EnableKeeps | core/pbauto_heartbeat.c:469-526 | the counter equals the slots taken, and every index names a slot holding its own context |
| ThumperSlots.EnableStores | core/pbauto_heartbeat.c:529-569 | enabling stores the period, also for a context enabled before, which keeps its slot; nobody else's slot or period changes and a refused call changes nothing |
| ThumperSlots.PeriodOfLast | core/pbauto_heartbeat.c:551-569 | after any history an enabled context beats at the period of its last enabling |
| ThumperSlots.ThumpersStay | core/pbauto_heartbeat.c:494-519 | a thumper context made for a slot is never lost, whoever enables and disables |
| ThumperSlots.DisableKeeps | core/pbauto_heartbeat.c:609-655 | the same after disabling |
| ThumperSlots.SlotTable.FormHeartbeatThumper | core/pbauto_heartbeat.c:469-526 | takes the first vacant slot, or reports that none can be had |
| ThumperSlots.SlotTable.SetHeartbeatPeriod | core/pbauto_heartbeat.c:529-548 | stores the given period for an enabled context and refuses any other |
| ThumperSlots.SlotTable.EnableAutoHeartbeat | core/pbauto_heartbeat.c:551-569 | the table changes as the enabling function says, which `EnableStores` fixes |
| ThumperSlots.SlotTable.DisableAutoHeartbeat | core/pbauto_heartbeat.c:642-655 | the table changes as the disabling function says, and the running timer is stopped or the heartbeat call cancelled |
| ThumperSlots.SlotTable.ReleaseThumper | core/pbauto_heartbeat.c:609-624 | the slot is vacant, the counter one less and its heartbeat stopped |
| ThumperSlots.SlotTable.StopHeartbeat | core/pbauto_heartbeat.c:594-606 | the timer is stopped when a transaction can start, else the call is cancelled |
| PresenceState.ResultIs | core/pbcc_set_state.c:89-164 | the text is the object over the non-empty names in order, with one leading comma only if the first name is empty; `PresenceReader` reads such objects |
| PresenceState.BuildsObject | core/pbcc_set_state.c:89-164 | the text is the object over all names given if and only if there are none, or no channel is passed over, the first list walked starts with a name and the state does not end in a comma; `PresenceReader` reads such objects |
| PresenceReader.StateReadsBack | core/pbcc_set_state.c:89-164 | a reader of brace, quoted keys, colons, values and commas gets from the text exactly the names in order, each with the state, for quote-free names and a lexically closed state, when no channel is passed over and the first list walked starts with a name |
| PresenceReader.ValueStateReadsBack | core/pbcc_set_state.c:9-27 | the same for every JSON value as state |
| PresenceReader.ReadsObject | core/pbcc_set_state.c:9-27 | reading an object over names gives back its pairs |
| PresenceState.LeadingCommaLosesChannel | core/pbcc_set_state.c:93 | the input: the channel list `,a` |
| PresenceState.OneByteShort | core/pbcc_set_state.c:76-77 | the input: one channel and one group |
| PresenceState.FitsUnlessTight | core/pbcc_set_state.c:54-82 | text and terminator fit the computed size in all cases but one channel with one group, where one byte is missing |
| PresenceStateBuilder.KvpBuilder | core/pbcc_set_state.c:9-27 | quoted name, colon and state are written behind what stands there; `PresenceReader.ReadsObject` reads such pairs back |
| PresenceStateBuilder.CountNames | core/pbcc_set_state.c:36-48 | the number of names, empty ones included |
| PresenceStateBuilder.ComputeSize | core/pbcc_set_state.c:36-76 | the computed size |
| PresenceStateBuilder.AppendNames | core/pbcc_set_state.c:92-155 | the loop over one list |
| PresenceStateBuilder.Close | core/pbcc_set_state.c:157-161 | a trailing comma becomes the closing brace |
| PresenceStateBuilder.StateKeeper.AdjustState | core/pbcc_set_state.c:30-168 | the buffer, grown only when the kept string is shorter than the size, holds the text and its terminator, which falls behind the block exactly for one channel with one group in a block of just the computed size |
| MessageCountsFacts.OffsetsDecode | core/pbcc_advanced_history.c:312-335 | the k-th counter is the negated place of the k-th name, counted from one, and matches a name if and only if it is the k-th requested one |
| MessageCountsFacts.ValueOfDecimal | core/pbcc_advanced_history.c:409 | reading a number written by dividing by ten gives it back, for every number |
| MessageCountsFacts.EveryText | core/pbcc_advanced_history.c:409 | every text of digits is zeros and such a number, so no entry is left out |
| MessageCountsFacts.ScansWritten | core/pbcc_advanced_history.c:409 | the scanner stores a written number, or its negation behind a minus, as a signed counter sees it |
| MessageCountsFacts.Wraps | core/pbcc_advanced_history.c:409 | which numbers a counter shows as they are, and which negative |
| MessageCountsNames.StaysInsideOnEven | core/pbcc_advanced_history.c:312-335 | the search for names never leaves the list if and only if the number of its trailing commas is even |
| MessageCountsNames.TrailingCommaLeaves | core/pbcc_advanced_history.c:312-335 | the input: a list with one trailing comma |
| MessageCountsTheorems.CountsLand | core/pbcc_advanced_history.c:338-445 | whatever the reply's order, each counter ends as the number its own channel's entry was written from, or stays the place of its name |
| MessageCountsTheorems.PromisedExactlyWithoutStrays | core/pubnub_advanced_history.h:67-77 | the numbers written in the reply in request order, negative exactly for absent channels and nothing else written, if and only if no entry read is a stray |
| MessageCountsTheorems.StrayIsWritten | core/pbcc_advanced_history.c:362-412 | a reply that breaks the promise |
| MessageCountsReader.CountsReader.InitializeMsgCounters | core/pbcc_advanced_history.c:312-335 | every counter holds the negated start of its name; the rest of the array is untouched |
| MessageCountsReader.CountsReader.FindCounter | core/pbcc_advanced_history.c:366-380 | the first counter waiting for the name, or their number |
| MessageCountsReader.CountsReader.GetMessageCounts | core/pbcc_advanced_history.c:338-445 | counters, the one place behind them and the offset are those of the reading function, for which `CountsLand` gives the numbers |

## Left out

Modelling choices that hold for all parts: a locked region is one step; out-of-memory
branches, logging and real thread interleavings inside a step are not modelled;
callbacks do not re-enter the engine.

- Subscribe Event Engine: the answers of `can_start`, `subscribe_v2` and cancel are the environment's; the filter expression and the choice of heartbeat value are not modelled.
- SubscribeEngine.Engine.EmitMessagesEffect: taking the messages from the reply and handing them to listeners is not modelled, only that the effect completes.
- Subscribe Event Engine: invocations are values addressed by an id; sharing of the same object between a transition's list and the queue is modelled in `EngineReferences` only.
- Subscribe Event Engine: calls that arrive between a transition and the run of its first invocation are not modelled.
- SubscribeOutcomes.SuccessDelivers: the callback's cursor stands for the timetoken and region the parser stored; that a negative region counts as zero is not modelled.
- SharedData: that the references of states and invocations last as long as these do is taken from `EngineReferences`, where their lives are modelled.
- LeaveLists: the order of names follows insertion; the source's follows hash buckets, so which of two clashing names comes first is the order given.
- SubscriptionLoop.LoopKeeper.UnsubscribeFromSet: a set that is not in the loop is only changed, which is not modelled.
- LeaveLists.DropsOut: two subscriptions with the same identity are one object, as the removal by pointer has it.
- SubscriptionLoop.LoopKeeper.SubscribeLists: names are not empty, as entities require.
- SubscribeReplyReader.ReplyContext.ParseSubscribeResponse: the checks for 403 and 400 replies are a parameter, and the timetoken stays text.
- SubscribeReplyReader.ReplyContext.GetMsg: decryption of a message is not modelled.
- UrlBuffer.RequestBuffer.UrlEncode: the memory behind the buffer must be long enough to hold an overrun, and buffer and encoding are below 4 GB; a second set of safe characters, for other transactions, is not modelled.
- CallbackQueue.ProcessingQueue.RequeueForProcessing: its search and its insertion are two locked regions in the source and one step here; runs with a plain enqueue between them are covered by `CallbackRuns`.
- CallbackQueue.ProcessingQueue.ProcessOne: what is done with a dispatched context is not modelled.
- HeartbeatTimers: a period's milliseconds are not cut to the width of sizes; the heartbeat request itself, the watcher thread's clock and the list of heartbeats in progress are not modelled.
- ThumperSlots: calls made on a thumper's own context, which are exempted, are not modelled, nor is what a cancelled heartbeat call does.
- MessageCounts: a count that does not fit the scanned type, and a key of one character that is not a string, are not modelled; a negative counter that is no offset matches nothing.
- MessageCountsReader.CountsReader.InitializeMsgCounters: a list whose trailing commas are odd in number is excluded, because the source then searches behind the terminator, where the model has no memory.
- MessageCountsReader.CountsReader.GetMessageCounts: the array includes the place behind the counters, where the source writes a stray count; lists as above.
- MessageCountsTheorems.PromisedExactlyWithoutStrays: counts are below 2^31 and names distinct, and an empty object holds no whitespace.
- Request builders, the public API wrappers, sockets, TLS, cryptors, hashing, compression, proxy authentication, entities and listeners.
