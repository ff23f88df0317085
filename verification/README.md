# Keyleport, verified

Keyleport shares one keyboard and mouse between computers on a local network. Nodes find each
other by broadcasting JSON announcements; one node connects to another and becomes its sender; the
sender turns input events into packets, coalescing mouse motion on the way; the receiver injects
them into its own system. This project models those parts in Dafny and proves what they promise
over all inputs and all runs.

| module | what it holds |
|---|---|
| `Prelude` | options, results, the machine integers in use |
| `Json` | printing and parsing of integers, strings, arrays and objects, and that parsing undoes printing |
| `InputEvents`, `EventBatches`, `DiscoveryPeers` | the wire formats built on it |
| `DiscoveryTable` | the peer table as a function of the log of accepted messages |
| `BroadcastGate` | the gate on broadcasts as a function of the calls made to it, and its budget |
| `DiscoveryService` | one node: two parallel vectors changed in place, the published list, whole sessions |
| `DiscoveryExchange` | two node objects hearing each other: greetings, farewells, and the way to a session |
| `DiscoveryTiming` | why a live peer is never pruned, and by how much |
| `DiscoveryNetwork` | many nodes with messages in flight: discovery completes, and it does not storm |
| `MoveAggregators`, `SenderFlow`, `SenderThreads` | coalescing, three threads step by step, and the objects that take those steps |
| `UdpClient` | the connection machine against an adversarial one-slot host |
| `Communication` | the pin and its filter, the two home-scene handlers, whole sessions, and two nodes end to end |
| `UiDispatch`, `EventEmitter` | the UI task queue and the publish/subscribe utility, both re-entrant |
| `WindowsEmitter` | the scancode table, the dispatch, the keys and buttons held down, the cursor |
| `EndToEnd` | a sending session from the click to what ENet is handed, and from the pushes to the receiver's cursor and keys |

Conventions. Clock readings, received datagrams, answers of the network library and what callbacks
do re-entrantly are arguments, so a theorem over all arguments covers every environment. Objects keep
ghost records of the clock readings that matter to a limit (`gate`, `asked`), each method says what it
adds to them, and properties that need an ordered clock say so of those readings. Exceptions of the JSON library on
wrongly typed fields are failures in a `Result`; in the program nothing catches them.

Results that differ from what one might expect of the code:

- The age of a table entry is an unsigned difference of system-clock readings. A clock that goes
  back by one millisecond drops a peer heard a moment before (`ClockStepBackForgets`);
  `AnnouncementKeptIff` says exactly when a fresh announcement survives its own prune.
- The peer that asks to be received is matched by its address. The comment at
  `src/gui/scenes/home/home_scene.cpp:55` speaks of its id, which the code only logs; the model
  follows the code.
- The retry limit of the client does not bind after an attempt at time 0, which its own field cannot
  tell from "never". For a clock that never goes back, attempts are 1000 ms apart exactly when a first
  reading of 0 is not followed by another within 1000 ms (`RateLimitHoldsIff`).
- Motion left in an accumulator when `stop` returns is not sent, and a later `start` sends it
  (`ResidueAfterStop` says exactly how much it is).
- A key event with any action but Down releases the key (`Emit`).
- A scroll with vertical motion loses its horizontal motion at the receiver (`EventTurns`, `ScrollingConserved`).
- The bound on the peer timeout is tight: with one millisecond more between the broadcasts and their
  delivery, a live peer can be dropped (`BoundIsTight`).

## Model

| member | source | states |
|---|---|---|
| Json.NatRoundTrip | src/keyboard/input_event.h:45-53 | a printed natural number is all digits, has no leading zero unless it is 0, and reads back as itself |
| Json.ParseIntRoundTrip | src/keyboard/input_event.h:45-73 | any signed integer printed before a non-digit is read back whole, with the rest untouched |
| Json.ParseCharRoundTrip | src/services/communication/typed_package.h:18-41 | every character, escaped or not, reads back as itself, and its text never looks like a closing quote |
| Json.ParseStringRoundTrip | src/services/communication/typed_package.h:18-41 | any string, quotes and control characters included, survives quoting inside any surrounding text |
| Json.ParseValueRoundTrip | src/keyboard/event_batch.cpp:8-26 | any nested value followed by any delimiter is read back whole, with the rest untouched |
| Json.ParseItemsRoundTrip | src/keyboard/event_batch.cpp:8-26 | the same for the items of a list of any length |
| Json.ParseMembersRoundTrip | src/services/communication/typed_package.h:18-27 | the same for the members of an object |
| Json.ParseDump | src/services/communication/typed_package.h:18-27 | parsing the printed text of any value gives that value |
| Json.EscapedForms | src/services/communication/typed_package.h:18-22 | the text of every character inside a string, as section 7 of RFC 8259 has it: short escapes, hexadecimal controls, everything else itself |
| Json.ObjectForms | src/services/communication/typed_package.h:18-22 | an object's text is its quoted keys and values with colons and commas between braces |
| Json.ListForms | src/keyboard/event_batch.cpp:8-21 | a list's text is its items' texts with commas between brackets |
| InputEvents.EventFields | src/keyboard/input_event.h:45-53 | every field of a printed event is found under its own key, and there is no legacy key |
| InputEvents.EventRoundTrip | src/keyboard/input_event.h:45-73 | decoding an encoded event gives the event, for every kind, action, code and motion |
| InputEvents.PackageRoundTrip | src/services/communication/typed_package.h:18-41 | decoding an encoded envelope gives the envelope, whatever its two strings hold |
| InputEvents.NestedRoundTrip | src/services/communication/packages/keyboard_input_package.h:14-39 | an event printed into a string inside a second object arrives exactly, through both levels |
| InputEvents.WireIsInjective | src/services/communication/packages/keyboard_input_package.h:31-39 | two events with the same wire text are the same event |
| InputEvents.PackageFields | src/services/communication/typed_package.h:18-22 | the envelope's two strings are found under their names |
| InputEvents.DecodedFields | src/keyboard/input_event.h:56-73 | any object decodes exactly when its fields are absent or 64-bit integers, absent ones as 0, each narrowed to its width |
| InputEvents.NotAnObject | src/keyboard/input_event.h:56-64 | any other text decodes to the zero event, and as an envelope to empty strings |
| EventBatches.Encode | src/keyboard/event_batch.cpp:8-21 | the loop prints the object whose one list holds every event, in order |
| EventBatches.Decode | src/keyboard/event_batch.cpp:23-57 | the loop returns the events of the entries that are objects, in order, or the first error |
| EventBatches.EntryFailureSpreads | src/keyboard/event_batch.cpp:36-55 | an error in a prefix is the error of the whole list |
| EventBatches.BatchRoundTrip | src/keyboard/event_batch.cpp:8-57 | batches of any length survive encoding, scrolls without vertical motion included |
| EventBatches.DecodeNormalises | src/keyboard/event_batch.cpp:23-57 | whatever text was decoded, encoding and decoding again changes nothing |
| EventBatches.LegacyDelta | src/keyboard/event_batch.cpp:43-53 | the legacy field counts exactly for a scroll whose narrowed vertical motion is 0, and changes only that field |
| EventBatches.NonObjectsSkipped | src/keyboard/event_batch.cpp:36-41 | entries that are not objects make no difference |
| EventBatches.NoListNoEvents | src/keyboard/event_batch.cpp:26-35 | without an object holding a list of events the batch is empty |
| DiscoveryPeers.PeerRoundTrip | src/services/discovery/discovery_peer.h:24-65 | every announcement decodes to what was announced |
| DiscoveryPeers.PeerFields | src/services/discovery/discovery_peer.h:24-32 | every field of an announcement is found under its name, the state as a number |
| DiscoveryPeers.DecodedPeer | src/services/discovery/discovery_peer.h:34-65 | any object decodes exactly when its four texts are texts or absent, to those texts, absent ones empty |
| DiscoveryPeers.StateSanitised | src/services/discovery/discovery_peer.h:48-62 | for any object: gone (busy) exactly for a 64-bit integer congruent to 2 (1) modulo 2^32; anything else, wider integers included, is idle |
| DiscoveryTable.FindPruned | src/services/discovery/discovery_service.cpp:27-48 | pruning keeps an id's entry unless it is stale, and affects no other |
| DiscoveryTable.FindUpserted | src/services/discovery/discovery_service.cpp:70-98 | an upsert keeps ids distinct, replaces one id's entry and leaves the others |
| DiscoveryTable.FindWithout | src/services/discovery/discovery_service.cpp:50-68 | a removal keeps ids distinct, drops one id and leaves the others |
| DiscoveryTable.UpsertKeepsPositions | src/services/discovery/discovery_service.cpp:70-98 | an update keeps every entry where it is, a new one goes to the end |
| DiscoveryTable.OrderOfFirstSight | src/services/discovery/discovery_service.cpp:27-98 | after any run the table is in the order in which its ids were last newly seen |
| DiscoveryTable.TableInvariant | src/services/discovery/discovery_service.cpp:148-182 | after any run ids are distinct, and no entry is the node itself, at its own address, or gone |
| DiscoveryTable.History | src/services/discovery/discovery_service.cpp:27-98 | for every log and any clock: an id is listed iff its last message is an announcement that no later prune found stale, and then with that message's contents, address and time |
| DiscoveryTable.MonotoneHistory | src/services/discovery/discovery_service.cpp:27-98 | under a monotone clock: iff its last message is an announcement at most 15000 ms old at the latest prune |
| DiscoveryTable.AnnouncementKeptIff | src/services/discovery/discovery_service.cpp:27-48 | a fresh announcement survives its own prune iff the second clock reading is 0 to 15000 ms later, modulo 2^64 |
| DiscoveryTable.ClockStepBackForgets | src/services/discovery/discovery_service.cpp:37-41 | a concrete run in which a clock going back 1 ms drops a peer just heard |
| BroadcastGate.GateAppend | src/services/discovery/discovery_service.cpp:100-112 | one more call of the gate broadcasts exactly when forced or due since the last broadcast it let through |
| BroadcastGate.BudgetHolds | src/services/discovery/discovery_service.cpp:100-112 | after any calls on a positive clock that never goes back, broadcasts beyond the forced ones are paid for at 5001 ms each |
| BroadcastGate.GateBudget | src/services/discovery/discovery_service.cpp:100-112 | broadcasts are at most the forced calls plus one per 5001 ms from the first call to the last |
| DiscoveryService.PruneTurn | src/services/discovery/discovery_service.cpp:34-47 | one turn of the erase loop leaves the final table unchanged, erased or advanced |
| DiscoveryService.CandidatesMirrorPeers | src/services/discovery/discovery_service.cpp:114-128 | with no entry at the node's own address the published list is, one to one and in order, each peer's name and address, port 8800, and busy exactly if the peer is |
| DiscoveryService.RecordsAppend | src/services/discovery/discovery_service.cpp:148-182 | doing an event on the table and writing it to the log keep the two in agreement, first sights counted |
| DiscoveryService.GatedStep | src/services/discovery/discovery_service.cpp:100-112 | sending when the gate opens keeps what was sent equal to what the gate lets through |
| DiscoveryService.PollAdvances | src/services/discovery/discovery_service.cpp:190-195 | one more datagram extends log, broadcasts and gate calls of a poll by what it causes |
| DiscoveryService.PolledFailureSpreads | src/services/discovery/discovery_service.cpp:190-195 | a poll that raises on a datagram raises whatever follows it |
| DiscoveryService.EventOfMeans | src/services/discovery/discovery_service.cpp:148-172 | from payload and sender alone: gone means a departure, another state an announcement at the sender's real address, the node's own nothing |
| DiscoveryService.MessageEffect | src/services/discovery/discovery_service.cpp:148-182 | a departure unlists exactly that id, an announcement lists exactly that entry, and no other id changes but by age |
| DiscoveryService.PollMeaning | src/services/discovery/discovery_service.cpp:190-195 | after a poll an id is as its last datagram says, or else as before, unless a prune since found it stale |
| DiscoveryService.DiscoveryService.RemoveStalePeers | src/services/discovery/discovery_service.cpp:27-48 | both vectors, in lockstep, end as the pruned table |
| DiscoveryService.DiscoveryService.PositionOf | src/services/discovery/discovery_service.cpp:72-74 | the first position of an id, or the length |
| DiscoveryService.DiscoveryService.RemovePeerByDeviceId | src/services/discovery/discovery_service.cpp:50-68 | both vectors lose that id, and the result says whether it was there |
| DiscoveryService.DiscoveryService.UpdatePeerState | src/services/discovery/discovery_service.cpp:70-98 | both vectors take the step of an announcement, and the result says whether the id was new |
| DiscoveryService.DiscoveryService.BroadcastOwnState | src/services/discovery/discovery_service.cpp:100-112 | sends its own record exactly when forced or due and a client exists, remembers the time, and records the call |
| DiscoveryService.DiscoveryService.UpdateConnectionCandidates | src/services/discovery/discovery_service.cpp:114-128 | publishes exactly that list, field by field |
| DiscoveryService.DiscoveryService.AcceptDeparture | src/services/discovery/discovery_service.cpp:163-170 | logs the departure, and a published list that was current stays current |
| DiscoveryService.DiscoveryService.AcceptAnnouncement | src/services/discovery/discovery_service.cpp:172-181 | logs it, publishes, and broadcasts at once exactly on first sight |
| DiscoveryService.DiscoveryService.OnMessage | src/services/discovery/discovery_service.cpp:148-182 | for every datagram, said of its payload and sender: raises and changes nothing, removes the departed id at once and republishes, or lists the announced one and broadcasts exactly on first sight; the node's own change nothing |
| DiscoveryService.DiscoveryService.Init | src/services/discovery/discovery_service.cpp:130-188 | opens a session with exactly two broadcasts |
| DiscoveryService.DiscoveryService.PollEvents | src/services/discovery/discovery_service.cpp:190-195 | the log grows by the events of the datagrams, in order, broadcasts by the replies to first sights, and every id is as its last datagram says |
| DiscoveryService.DiscoveryService.BroadcastAndPrune | src/services/discovery/discovery_service.cpp:197-198 | one call of the gate, at most one broadcast, exactly when due, then a prune |
| DiscoveryService.DiscoveryService.Update | src/services/discovery/discovery_service.cpp:190-200 | after every tick the vectors are what the history says, the published list mirrors them, and what was sent and asked of the gate is the replies and then the periodic call |
| DiscoveryService.DiscoveryService.Cleanup | src/services/discovery/discovery_service.cpp:202-217 | one last broadcast in state gone, then nothing is left |
| DiscoveryService.DiscoveryService.TableMeaning | src/services/discovery/discovery_service.cpp:27-98 | between calls the vectors are the history of the log, clean, and mirrored by a published list |
| DiscoveryService.DiscoveryService.BroadcastBudget | src/services/discovery/discovery_service.cpp:100-112 | at any moment of a session, if the readings at its gate calls are positive and ordered: at most 2, plus first sights, plus one per 5001 ms |
| DiscoveryService.DiscoveryService.RunTurns | src/services/discovery/discovery_service.cpp:190-200 | any number of ticks make the log and the gate calls that their datagrams and readings determine |
| DiscoveryService.DiscoveryService.RunSession | src/services/discovery/discovery_service.cpp:130-200 | a whole session from its inputs alone: its log, its gate calls, the times it broadcasts, and the budget from init to the last tick if those readings are positive and ordered |
| DiscoveryService.SessionEnds | src/services/discovery/discovery_service.cpp:184-200 | the first gate call of a session is that of startup, the last that of the last tick |
| DiscoveryExchange.Farewell | src/services/discovery/discovery_service.cpp:202-217 | what a node's cleanup broadcasts makes another that gets it drop the sender at once, and nobody else |
| DiscoveryExchange.Hear | src/services/discovery/discovery_service.cpp:148-182 | a broadcast heard in time is offered at its sender's address, under its name, busy exactly as announced, and answered exactly if new |
| DiscoveryExchange.Acquaint | src/services/discovery/discovery_service.cpp:148-188 | one broadcast and its answer make two nodes offer each other |
| DiscoveryExchange.Meet | src/gui/scenes/home/home_scene.cpp:142-170 | after that a click on what is offered makes the other node the receiver |
| DiscoveryTiming.BroadcastsArePaced | src/services/discovery/discovery_service.cpp:100-112 | ticks at most d apart make the gate open at most 5000 + d apart, forced openings included |
| DiscoveryTiming.LastWordIsNewest | src/services/discovery/discovery_service.cpp:70-98 | under a monotone clock, once heard at t, an id's last word is no older than t until it leaves |
| DiscoveryTiming.RecentlyHeard | src/services/discovery/discovery_service.cpp:27-98 | with no two consecutive losses, some announcement was heard within two gaps and one delay |
| DiscoveryTiming.LivePeerStaysListed | src/services/discovery/discovery_service.cpp:27-48 | once seen, a live peer is listed at every later step if 2 gaps + delay fit the timeout |
| DiscoveryTiming.HeardEarly | src/services/discovery/discovery_service.cpp:70-98 | an announcement stamped before a prune was heard before it |
| DiscoveryTiming.LivePeerStaysThroughout | src/services/discovery/discovery_service.cpp:27-48 | the premises once for a whole log: from its first announcement on a live peer is listed after every event |
| DiscoveryTiming.TickingPeerStaysListed | src/services/discovery/discovery_service.cpp:190-200 | the same throughout, from the calls of the sender's gate at most d apart: 2 (5000 + d) + delay at most 15000 |
| DiscoveryTiming.RunningSenderStaysListed | src/services/discovery/discovery_service.cpp:190-200 | the same for a running service object and the broadcasts it actually sent |
| DiscoveryTiming.BoundIsTight | src/services/discovery/discovery_service.h:44-45 | a concrete run with the sum at 15001 in which a live peer is dropped |
| DiscoveryNetwork.DeliveredEvent | src/services/discovery/discovery_service.cpp:148-160 | the real text and sender address of a broadcast cause, in the receive callback, the event the network step uses |
| DiscoveryNetwork.DeliverEffect | src/services/discovery/discovery_service.cpp:172-181 | a delivery teaches its target one id and makes it answer exactly when that was new |
| DiscoveryNetwork.StartKeepsCover | src/services/discovery/discovery_service.cpp:184-187 | a new node's two broadcasts cover every pair it is in |
| DiscoveryNetwork.DeliverKeepsCover | src/services/discovery/discovery_service.cpp:148-182 | no delivery uncovers a pair |
| DiscoveryNetwork.RunKeepsInv | src/services/discovery/discovery_service.cpp:148-187 | every run keeps: a lists b, or b's announcement is on its way, or a's is on its way to a b that will answer |
| DiscoveryNetwork.MutualDiscovery | src/services/discovery/discovery_service.cpp:148-187 | in any start order, whenever nothing is in flight every node lists every other |
| DiscoveryNetwork.DeliveryLowersWeight | src/services/discovery/discovery_service.cpp:172-181 | unknown ordered pairs times nodes, plus messages in flight, falls at every delivery, answers included |
| DiscoveryNetwork.CascadeTerminates | src/services/discovery/discovery_service.cpp:172-181 | without starts and ticks no run is longer than that weight |
| DiscoveryNetwork.NextKeepsSettled | src/services/discovery/discovery_service.cpp:27-48 | every step leaves each table a moment at which nothing in it is stale |
| DiscoveryNetwork.DeliveryPossible | src/services/discovery/discovery_service.cpp:148-182 | any message in flight can be delivered |
| DiscoveryNetwork.StuckIsDrained | src/services/discovery/discovery_service.cpp:148-187 | no delivery is possible exactly when nothing is in flight |
| DiscoveryNetwork.SomeRunDrains | src/services/discovery/discovery_service.cpp:172-181 | from every such state some run of deliveries drains the network |
| DiscoveryNetwork.CascadeEndsDiscovered | src/services/discovery/discovery_service.cpp:148-187 | from any reachable state, deliveries are at most the weight in number, stop exactly when nothing is in flight, and once stopped everyone lists everyone |
| MoveAggregators.SegmentSums | src/flows/sender/move_aggregator.h:17-35 | leaving out zero sums does not change the total |
| MoveAggregators.FewerSumsThanPushes | src/flows/sender/move_aggregator.h:17-35 | nonzero segment sums never outnumber nonzero elements |
| MoveAggregators.SegmentedAppend | src/flows/sender/sender.cpp:104-110 | draining appends exactly one segment, and its sum if it is not zero |
| MoveAggregators.MoveAggregator.Add | src/flows/sender/move_aggregator.h:17-26 | adds both components, given that the sum fits 32 bits |
| MoveAggregators.MoveAggregator.Take | src/flows/sender/move_aggregator.h:28-35 | returns the accumulator and leaves zero |
| SenderFlow.NextKeepsInv | src/flows/sender/sender.cpp:19-166 | every atomic action of every thread keeps the thread phases and the coalescing of both lanes |
| SenderFlow.RunKeepsInv | src/flows/sender/sender.cpp:19-166 | so does every interleaving |
| SenderFlow.ServiceIsSet | src/flows/sender/sender.cpp:19-58 | no reachable state has a live worker, or accepts pushes, with a null service |
| SenderFlow.ServiceWrittenAlone | src/flows/sender/sender.cpp:19-58 | the pointer is only ever written while neither worker lives |
| SenderFlow.PushesRecorded | src/flows/sender/sender.cpp:60-77 | a lane's record grows by exactly the motion of its kind in the events pushed while running, x from dx and y from dy |
| SenderFlow.Coalescing | src/flows/sender/sender.cpp:60-166 | for any number of sessions, packets are the nonzero sums of consecutive disjoint segments of the motion in the events pushed while running, in order, and no more than its nonzero elements |
| SenderFlow.Conservation | src/flows/sender/sender.cpp:60-131 | at every step the motion pushed while running = sent + in hand + accumulated, and what is accumulated was pushed after the last take |
| SenderFlow.ResidueAfterStop | src/flows/sender/sender.cpp:41-58 | when stop has returned, what was not sent is exactly what was pushed after the last take |
| SenderFlow.ClicksSent | src/flows/sender/sender.cpp:60-90 | what is handed to the service at once is every accepted push that is not motion, in order, for every interleaving |
| SenderFlow.ClicksRecorded | src/flows/sender/sender.cpp:60-90 | the flow's record of such events grows by exactly those |
| SenderFlow.MotionsSent | src/flows/sender/sender.cpp:98-166 | the motion handed to the service is that of each lane's packets, in order |
| SenderFlow.ReceivedIsSum | src/flows/sender/sender.cpp:111-122 | decoding the packets' wire texts and adding up gives the sum of what was sent |
| SenderFlow.MotionArrives | src/flows/sender/sender.cpp:60-166 | in any run, motion decoded at the other end plus what is still here is all that was pushed while running |
| SenderFlow.AtMostOneMore | src/flows/sender/sender.cpp:98-166 | once its flag is cleared a worker takes at most once more and sends at most once more |
| SenderFlow.StopIsNeverStuck | src/flows/sender/sender.cpp:49-57 | while stop waits, some thread can move |
| SenderFlow.StopProgress | src/flows/sender/sender.cpp:49-57 | and any move brings its return nearer |
| SenderFlow.StopReturns | src/flows/sender/sender.cpp:41-58 | within 11 steps of clearing the flags stop has returned, both workers joined and the service dropped |
| SenderFlow.StopCallReturns | src/flows/sender/sender.cpp:41-58 | from the call of stop: once its thread has been scheduled twice, at most 11 more steps pass before it has returned |
| SenderThreads.Worker.Push | src/flows/sender/move_aggregator.h:17-26 | the lane gains the push, zero pushes included |
| SenderThreads.Worker.Act | src/flows/sender/sender.cpp:98-166 | one action of the worker loop is one worker step |
| SenderThreads.Sender.CallStart | src/flows/sender/sender.cpp:19-30 | start's lookup, and its early return |
| SenderThreads.Sender.CallStop | src/flows/sender/sender.cpp:41-46 | stop's exchange, and its early return |
| SenderThreads.Sender.PushEvent | src/flows/sender/sender.cpp:60-90 | a move adds (dx, dy) to the move lane alone, a scroll to the scroll lane alone, anything else goes through the service to its target, reliably |
| SenderThreads.Sender.StartStatement | src/flows/sender/sender.cpp:32-38 | each later statement of start is one step |
| SenderThreads.Sender.StopStatement | src/flows/sender/sender.cpp:47-57 | each later statement of stop is one step |
| SenderThreads.Sender.WorkerAct | src/flows/sender/sender.cpp:98-166 | a worker's action, which at its send hands what it took to the service, unreliably |
| SenderThreads.Sender.Schedule | src/flows/sender/sender.cpp:19-166 | under any schedule the objects end where the step system says, and the service has sent that run's outbox |
| SenderThreads.Sender.RunFlow | src/flows/sender/sender.cpp:19-166 | after any schedule of a new flow both lanes are coalesced, a running flow has its service, and the service got every accepted event that is not motion and each lane's packets |
| SenderThreads.WhatARunHands | src/flows/sender/sender.cpp:19-166 | the same of the step system |
| UdpClient.AwaitConnect | src/networking/p2p/udp_client.cpp:39-56 | a wait of k slices makes at most k service calls, and a failed one frees the slot |
| UdpClient.AwaitConnectIff | src/networking/p2p/udp_client.cpp:39-56 | a wait succeeds iff a connect event is within reach of its calls, with no connect or disconnect event before it |
| UdpClient.LinkIff | src/networking/p2p/udp_client.cpp:39-56 | it ends with the slot connected iff besides that event leaves it so and it was never freed before |
| UdpClient.PeerKeptIff | src/networking/p2p/udp_client.cpp:209-224 | polling keeps the peer iff none of the answers polled is a disconnect |
| UdpClient.ReliableSubsequence | src/networking/p2p/udp_client.cpp:233-252 | leaving packets out keeps the reliable ones in order |
| UdpClient.SpacedSpan | src/networking/p2p/udp_client.cpp:151-158 | k times at least 1000 ms apart span at least 1000 (k - 1) ms |
| UdpClient.AttemptedAppend | src/networking/p2p/udp_client.cpp:151-158 | one more reading makes an attempt exactly when it is not too soon after the last attempt made |
| UdpClient.AttemptsAreSpaced | src/networking/p2p/udp_client.cpp:151-158 | on a positive clock that never goes back any readings make attempts 1000 ms apart |
| UdpClient.NoneRefusedLonger | src/networking/p2p/udp_client.cpp:151-158 | nor is a retry refused longer than that: every reading falls within 1000 ms of an attempt |
| UdpClient.RateLimitHoldsIff | src/networking/p2p/udp_client.cpp:151-158 | on a clock that never goes back, attempts are 1000 ms apart iff a first reading of 0 is not followed within 1000 ms |
| UdpClient.UdpClient.ConnectPeer | src/networking/p2p/udp_client.cpp:17-57 | called only on a free slot; succeeds iff the address is usable, resolves and is allocated, and the script has a connect event within timeout/50 calls with no verdict before it |
| UdpClient.Attempt | src/networking/p2p/udp_client.cpp:160-182 | an attempt ends connected or with the slot free, within 10 service calls |
| UdpClient.AttemptIff | src/networking/p2p/udp_client.cpp:160-182 | an attempt connects iff the peer is reachable and such a link is within ten answers |
| UdpClient.ConnectsIff | src/networking/p2p/udp_client.cpp:207-231 | a send finds or makes a connection iff polling leaves one, or it is not too soon and such a link is within ten answers |
| UdpClient.Ensured | src/networking/p2p/udp_client.cpp:136-183 | success means connected and failure a free slot; too soon means no service call |
| UdpClient.UdpClient.AttemptConnection | src/networking/p2p/udp_client.cpp:160-182 | the peer is kept exactly when the attempt connects |
| UdpClient.UdpClient.Retry | src/networking/p2p/udp_client.cpp:151-158 | an attempt is made, and noted, exactly when not too soon |
| UdpClient.UdpClient.EnsureConnected | src/networking/p2p/udp_client.cpp:136-183 | true iff connected, else no peer and a free slot; attempts exactly when not connected and not too soon |
| UdpClient.UdpClient.PollDisconnects | src/networking/p2p/udp_client.cpp:209-224 | any events leave the slot free if the peer is gone |
| UdpClient.UdpClient.SendImpl | src/networking/p2p/udp_client.cpp:185-257 | hands over this packet exactly when it is not empty, polling leaves a connection or a retry in time links within ten answers, and the library takes it; a pending disconnect is noticed first |
| UdpClient.UdpClient.FlushServiceEvents | src/networking/p2p/udp_client.cpp:271-290 | ends as polling with a budget of 16 calls does, and drops the peer iff one of those brings a disconnect |
| UdpClient.UdpClient.FlushPendingMessages | src/networking/p2p/udp_client.cpp:259-269 | no packet and no attempt, only polling |
| UdpClient.UdpClient.AttemptsSpan | src/networking/p2p/udp_client.cpp:151-170 | at any moment of a client's life, if the readings of its retry limit are positive and ordered, k attempts span at least 1000 (k - 1) ms |
| UdpClient.UdpClient.RunCalls | src/networking/p2p/udp_client.cpp:185-269 | any sends and flushes on a new client: if the times of the sends are positive and ordered, k attempts span at least 1000 (k - 1) ms |
| UdpClient.UdpClient.ReliableInOrder | src/networking/p2p/udp_client.cpp:185-257 | reliable packets handed over are an in-order subsequence of those the client was asked to send |
| Communication.FirstAt | src/gui/scenes/home/home_scene.cpp:59-74 | the device at that address with none before it at that address, found iff one is listed |
| Communication.PinIsolation | src/services/communication/communication_service.cpp:29-45 | in every session pin, client and connected device agree; while pinned only that peer's packages are emitted; events are injected only from the device shown; nothing happens unpinned |
| Communication.PinHolds | src/services/communication/communication_service.cpp:29-45 | no remote message moves a pin; emissions are exactly the pinned peer's messages, in order, and everything sent goes to it |
| Communication.PinIsFirstRequest | src/gui/scenes/home/home_scene.cpp:37-92 | left to remote messages a node pins exactly the first listed address that asks |
| Communication.SceneDecides | src/gui/scenes/receiver/receiver_scene.cpp:30-42 | home answers requests and injects nothing, the sender scene does neither, the receiver scene injects and leaves the connection alone |
| Communication.ClickNeedsFreeDevice | src/gui/scenes/home/home_scene.cpp:141-142 | a click does something only in the home scene, beside a listed device that is not busy |
| Communication.RequestNamesSender | src/gui/scenes/home/home_scene.cpp:153-164 | the request on the wire is a become_receiver package naming the node that clicked |
| Communication.DrawsInOrder | src/gui/scenes/home/home_scene.cpp:87-89 | posted scenes are mounted in the order they were posted |
| Communication.ReceiverInjects | src/gui/scenes/receiver/receiver_scene.cpp:30-42 | a receiver injects exactly its peer's events in order, whatever else arrives, and ends iff the peer sends a malformed one |
| Communication.Handshake | src/gui/scenes/home/home_scene.cpp:146-167 | the clicking node pins, sends one reliable request and draws the sender scene; a free peer that lists it pins it back and mounts the receiver |
| Communication.EndToEnd | src/gui/scenes/receiver/receiver_scene.cpp:30-42 | after the handshake the receiver injects exactly the delivered events, and the keys it holds down are those held in them |
| Communication.CommunicationService.OnMessage | src/services/communication/communication_service.cpp:29-45 | emits the decoded package iff there is no pin or it is the sender |
| Communication.CommunicationService.PinConnection | src/services/communication/communication_service.cpp:70-83 | the pin becomes the target, with a new client for it that was asked nothing yet |
| Communication.CommunicationService.UnpinConnection | src/services/communication/communication_service.cpp:85-93 | both are dropped, whatever was there |
| Communication.CommunicationService.SendPackage | src/services/communication/communication_service.cpp:95-139 | sends to the pinned address through its client exactly when both are there; the client was asked exactly what was sent since the pin |
| Communication.HomeScene.FindDevice | src/gui/scenes/home/home_scene.cpp:59-64 | the loop finds the first device at an address |
| Communication.HomeScene.OnPackage | src/gui/scenes/home/home_scene.cpp:37-92 | a request from a listed device connects, pins and posts the receiver scene; anything else changes nothing |
| Communication.HomeScene.Receive | src/services/communication/communication_service.cpp:29-45 | filter and handler together are the step the sessions take |
| Communication.HomeScene.OnConnectClick | src/gui/scenes/home/home_scene.cpp:142-170 | connects, pins, sends the request to the new pin and posts the sender scene |
| UiDispatch.TurnsAdvance | src/gui/framework/ui_dispatch.cpp:35-56 | a frame runs tasks in posting order, as many as its budget or the queue allow, under any re-entrant posts |
| UiDispatch.FramesAdvance | src/gui/framework/ui_dispatch.cpp:35-56 | so do any number of frames |
| UiDispatch.RunsOnTime | src/gui/framework/ui_dispatch.cpp:35-56 | a task at position p runs in exactly the (p/8 + 1)-th frame, in its turn, whatever is posted later |
| UiDispatch.FrameIsBounded | src/gui/framework/ui_dispatch.cpp:37-40 | a frame runs at most eight tasks, and exactly eight if so many wait |
| UiDispatch.UiQueue.PostToUi | src/gui/framework/ui_dispatch.cpp:25-33 | appends a task and ignores an empty function; executed then queued is always what was posted |
| UiDispatch.UiQueue.ProcessUiTasks | src/gui/framework/ui_dispatch.cpp:35-56 | the loop is the frame the fairness theorem speaks of |
| EventEmitter.InvokedOneByOne | src/utils/event_emitter/event_emitter.h:44-58 | an emission goes through the subscribers in order and skips empty functions |
| EventEmitter.LiveGrows | src/utils/event_emitter/event_emitter.h:84-100 | a call keeps exactly the live subscriptions it does not cancel |
| EventEmitter.WithoutIsKept | src/utils/event_emitter/event_emitter.h:84-95 | erasing the first match erases every match, ids being distinct |
| EventEmitter.SubscribersAreLive | src/utils/event_emitter/event_emitter.h:30-36 | after any calls the subscribers are exactly the subscriptions not cancelled since, in order, with increasing ids |
| EventEmitter.CancelledForGood | src/utils/event_emitter/event_emitter.h:84-95 | a cancelled id never comes back, whatever is called later |
| EventEmitter.Emitter.Subscribe | src/utils/event_emitter/event_emitter.h:30-36 | appends under a new id and returns it |
| EventEmitter.Emitter.Unsubscribe | src/utils/event_emitter/event_emitter.h:84-95 | the loop erases the first entry with the id |
| EventEmitter.Emitter.Emit | src/utils/event_emitter/event_emitter.h:40-59 | invokes exactly the callbacks subscribed when it began, in order, whatever they subscribe or cancel meanwhile |
| WindowsEmitter.ScanTableInverse | src/keyboard/mapping/hid_to_win.cpp:8-210 | a second table undoes the first on every supported code |
| WindowsEmitter.ScanTableInjective | src/keyboard/mapping/hid_to_win.cpp:8-210 | no two supported codes share a scancode and extended flag |
| WindowsEmitter.LetterRows | src/keyboard/mapping/hid_to_win.cpp:8-210 | the letters sit on three rows of consecutive scancodes, in keyboard order |
| WindowsEmitter.DigitRow | src/keyboard/mapping/hid_to_win.cpp:8-210 | so do escape, the digits, minus, equals, backspace and tab |
| WindowsEmitter.FunctionRow | src/keyboard/mapping/hid_to_win.cpp:8-210 | F1 to F10 follow each other, then F11 and F12 |
| WindowsEmitter.NavigationKeys | src/keyboard/mapping/hid_to_win.cpp:8-210 | arrows and page keys are extended twins of the keypad |
| WindowsEmitter.ExtendedModifiers | src/keyboard/mapping/hid_to_win.cpp:8-210 | right control and alt are the extended twins of the left ones |
| WindowsEmitter.HeldStep | src/keyboard/windows/emitter.cpp:16-74 | any one event moves the held codes and the held scancodes alike |
| WindowsEmitter.HeldKeys | src/keyboard/windows/emitter.cpp:16-74 | after any events the held scancodes are the image of the held supported codes |
| WindowsEmitter.HeldExactly | src/keyboard/windows/emitter.cpp:58-74 | a supported code is held iff its scancode is |
| WindowsEmitter.ButtonsHeld | src/keyboard/windows/emitter.cpp:104-133 | after any events a supported button is held iff its press was the last word on it |
| WindowsEmitter.CursorFollows | src/keyboard/windows/emitter.cpp:76-84 | the cursor moves by the sum of the move events, whatever else is injected |
| WindowsEmitter.WheelWord | src/keyboard/windows/emitter.cpp:86-102 | the wheel word, read as signed, is 120 per notch iff that fits 32 bits |
| WindowsEmitter.WheelsFollow | src/keyboard/windows/emitter.cpp:26-36 | after any events whose notches fit, the vertical wheel has turned 120 for every dy scrolled and the horizontal one 120 for every dx of scrolls without dy |
| WindowsEmitter.ButtonNumbers | src/keyboard/windows/emitter.cpp:104-133 | buttons 1 to 5 are left, middle, right and the two extra ones; no other code injects |
| EndToEnd.EventsInSubsequence | src/networking/p2p/udp_client.cpp:233-252 | leaving packets out leaves the decoded events in order |
| EndToEnd.ReliableEventsAreClicks | src/services/communication/packages/keyboard_input_package.h:14-39 | the reliable texts of a flow's outbox decode to its events that are not motion |
| EndToEnd.ReliablePushesInOrder | src/flows/sender/sender.cpp:79-83 | reliable packets handed to ENet decode to an in-order subsequence of the accepted pushes that are neither move nor scroll, whatever ENet answers |
| EndToEnd.SendingSession | src/gui/scenes/home/home_scene.cpp:142-170 | from the click through any schedule of the flow: the service sent the request and the flow's outbox, and its client kept the order of the pushes |
| EndToEnd.PacketsMoveCursor | src/gui/scenes/receiver/receiver_scene.cpp:30-42 | a receiver that gets these move packets, among keys, clicks and scrolls of the same peer and anything from others, moves its cursor by their sum |
| EndToEnd.MotionConserved | src/flows/sender/sender.cpp:60-131 | for any sender run and any receiver session that gets its move packets amid other traffic, the motion of the events pushed while running is the receiver's cursor, the worker's hands and the accumulator together |
| EndToEnd.ScrollingConserved | src/flows/sender/sender.cpp:60-166 | the same for scrolls: the receiver's vertical wheel turns 120 for every notch pushed and not still here, the horizontal one for every notch of the packets without vertical motion |
| EndToEnd.OutboxArrives | src/gui/scenes/receiver/receiver_scene.cpp:30-42 | a whole outbox delivered: the receiver injects its events, motion is conserved, and the keys held are those held in the accepted pushes |
| EndToEnd.OutboxScrolls | src/gui/scenes/receiver/receiver_scene.cpp:30-42 | a whole outbox delivered: the receiver's wheels turn with what was pushed |

## Left out

- Sockets, ENet and packet memory: the network library is an adversary. It is assumed only that servicing a host does not fill a free slot, that a finite number of events is pending when the client polls without a budget, and that it reports a peer's true address.
- JSON beyond what the program prints: white space, fractions and exponents, true, false and null, surrogate pairs, invalid UTF-8. Such texts are not in the model's domain; strings are sequences of characters.
- Integers that fit no 64-bit type: the library reads them as floating point; the model reports them as an error of their own.
- Order of keys: the library prints object members in sorted key order, and the models list them so.
- Exceptions of the library on wrongly typed fields: a failure of the call that raised, or the end of a session. The program does not catch them.
- DiscoveryService.DiscoveryService.Update: on a raised exception it says only that the object is still valid, because the program ends there.
- The broadcast server: the poll follows the macOS code, with at most eight datagrams and those without an address skipped. Its 1500-byte buffer is not modelled, nor the Windows code, which reports every sender as "remote".
- DiscoveryNetwork.MutualDiscovery: for distinct ids, with nothing lost, expired or leaving, because the program promises no more. Ids are seeded by the second, so two nodes may draw the same one.
- DiscoveryService.DiscoveryService.BroadcastBudget: for readings of the gate that are positive and never decrease, because it reads the system clock.
- SenderFlow.Coalescing: for pushes whose partial sums fit 32 bits, because signed overflow has no meaning in the source. Memory order is sequential consistency, calls to start, stop and push come from one thread, and start is called only while stopped.
- Order between motion and other events: the code sends clicks at once, so they overtake motion still accumulated. Nothing is claimed.
- Destructors, and the connection they close: easy members.
- Communication.PinIsolation: each handler runs to completion before the next starts, because the code takes no lock around them. Unpinning is modelled but not part of a session, since nothing calls it; shutdown is not part of one either.
- EventEmitter.Emitter.Emit: callbacks that emit on the same emitter are not modelled, and ids do not wrap at 2^64.
- UiDispatch.UiQueue.ProcessUiTasks: a task that throws is not modelled.
- WindowsEmitter.WheelsFollow: for notches whose words fit 32 bits, because beyond that the product overflows in the source.
- Injection that fails, and keys still held when the receiver unmounts. The macOS emitter and key table repeat the shape of the Windows ones.
- SDL and ImGui, mouse confinement, device names, `Atom`, the service repository and the command line.
