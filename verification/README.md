# Geyser publish/subscribe: a verified model

A validator plugin publishes account, slot, entry, transaction and block updates
to gRPC subscribers through one event loop; a client library consumes them; a
protobuf crate converts blocks, metadata and errors. This project models that
system and proves what its parts keep over whole runs.

- **Broker.** `Broker` is a transition system: validator threads raise an atomic
  mark and then offer an update to a bounded channel, subscribe handlers send an
  added event and then read the mark, clients read and drop their streams, and
  the loop takes from any channel. Every theorem about it is over all sequences
  of steps. `Registry`, `Delivery`, `CloseRace`, `Lifetime`, `HighWater` and
  `NonInterference` state what runs keep, `Meaning` what the messages say.
  `EventLoop` is the loop's mutable state, seven tables and the channels, with
  methods proved to act as broker steps for every iteration order; `Service` does
  the same for the plugin callbacks, the subscribe handlers, and a stream with its
  close task; `LoopTurns` places the loop in the world of a run.
- **Consumer.** `WriteSeqs` is the bounded LRU of per-slot counters against the
  unbounded counts it stands in for; `Consumer` has the receive loops as
  methods, `Decoding` what each item of a stream means to them, `ConsumerRuns`
  what their runs guarantee, and `EndToEnd` and `StreamOrder` join them to the
  broker.
- **Conversions.** `TransactionErrors`, `TransactionsByAddr`, `ConvertMessage`,
  `ConvertMeta`, `ConvertBlock` and `StoredMeta` give each encoder and decoder,
  what it puts where, the normal form a round trip reaches, and exactly which
  messages decode. A panic is an error value, never a precondition.
- **Arithmetic.** `CompactTimestamp` and `TickArrays`.

`dafny verify dfyconfig.toml` checks the project.

## Where code and documentation disagree

The model follows the code.

- `geyser_consumer.rs:5` promises monotone slots. The code only compares with the
  header and the rooted slot: `ConsumerRuns.MonotonePromise` gives the exact
  condition, `ConsumerRuns.SlotsMayGoBack` a run that breaks it.
- `geyser_consumer.rs:7` promises an error on out-of-order updates. The code only
  compares with the first sequence since the slot's counters were created, and
  never across slots: `ConsumerRuns.OutOfOrderPromise` gives the exact condition
  for an account, `ConsumerRuns.OutOfOrderAcrossSlotsIsAccepted` and
  `ConsumerRuns.OutOfOrderIsAccepted` runs that break it.
- `compact_timestamp.rs:3` claims about 71 minutes. The window is 2^31
  microseconds, about 35.8 minutes: `CompactTimestamp.ReconstructionWindow`.
- `geyser_grpc_plugin.rs:296` labels version 3 notifications as replica version 2:
  `Service.LabelIsVersionIff` says exactly when the label is the version.

## Assumptions

- Atomic operations, sends and loop turns interleave; each is one step. A send
  on a bounded channel reports closed if the receiver is gone, else full if
  there is no room, else appends.
- Uuids are fresh. Clocks, the rooted slot and the exit flag are inputs.
- Bincode round-trips transaction errors (`ConvertMeta.Faithful`); it and the
  decimal text of token amounts are parameters. A token amount is a double up to
  the sign of zero and NaN payloads, compared with f64::EPSILON.

## Model

| member | source | states |
|---|---|---|
| Broker.ReachableInv | src/geyser-grpc-plugin/server/src/server.rs:427-511 | In every reachable world, whatever the interleaving: registered subscriptions keep their request, every buffered message belongs on its stream and decodes, buffers stay within capacity, and no queued or in-flight update has a slot above the high-water mark. |
| Broker.StepKeepsInv | src/geyser-grpc-plugin/server/src/server.rs:427-511 | Each of the thirteen moves (validator, subscribe handlers, clients, loop turns) keeps that invariant. |
| Broker.FanOutKeepsMessages | src/geyser-grpc-plugin/server/src/server.rs:695-763 | Fan-out of an update at or below the mark puts into a buffer only messages that match the request, have 32-byte keys and lie below the mark. |
| Broker.RaiseKeepsInv | src/geyser-grpc-plugin/server/src/geyser_grpc_plugin.rs:235-320 | Raising the mark for a notification keeps the invariant: the mark bounds what is already queued and buffered, and the update that is now in flight is well-formed and at or below it. |
| Broker.EnqueueKeepsInv | src/geyser-grpc-plugin/server/src/geyser_grpc_plugin.rs:329-341 | Offering an update to the account channel, full or not, keeps the invariant: the channel stays within its capacity and holds only updates at or below the mark. |
| Broker.SubscribeKeepsInv | src/geyser-grpc-plugin/server/src/server.rs:851-886 | A subscribe request, accepted or refused, keeps the invariant: added events are of known, distinct, unregistered subscriptions, and accepted filters have 32-byte keys. |
| Broker.NotifyKeepsInv | src/geyser-grpc-plugin/server/src/subscription_stream.rs:46-56 | Sending a close event keeps the invariant: there is at most one waiting per stream, it names the kind of its request, and only signalled streams have one. |
| Broker.ValidFilterIff | src/geyser-grpc-plugin/server/src/server.rs:858-864 | A request is accepted exactly when every account or program key in it has 32 bytes. |
| Broker.AcceptedKeysHave32Bytes | src/geyser-grpc-plugin/server/src/server.rs:908-914 | In every reachable world the keys of every subscription, held by a client, on its way to the loop or registered, have 32 bytes. |
| FanOut.FanOutIsLocal | src/geyser-grpc-plugin/server/src/server.rs:695-763 | A turn reads and writes the channels of registered subscriptions alone: worked out on any part of the channels that covers those, it is the turn on the whole. |
| Meaning.OfferMeans | src/geyser-grpc-plugin/server/src/server.rs:701-757 | A subscriber is offered a message exactly for the events its request asks for, in the request's own terms, and the message reports the event: the full update unchanged, seven fields of it, or the very slot, entry, transaction or block. |
| Meaning.PartialRepeats | src/geyser-grpc-plugin/server/src/server.rs:736-744 | The partial message of an account update has its slot, pubkey, owner, startup flag, sequence, signature and version, field by field. |
| Meaning.VoteProgramId | src/geyser-grpc-plugin/server/src/server.rs:93-99 | The skipped owner is the 32 bytes of the base58 text "Vote" followed by 39 digits "1". |
| Registry.SevenTablesAgree | src/geyser-grpc-plugin/server/src/server.rs:413-460 | Along every run the seven hash maps are one partial map split by kind: each table holds exactly the subscriptions of its kind with their requests. |
| Registry.NoUuidInTwoTables | src/geyser-grpc-plugin/server/src/server.rs:413-425 | In every reachable state a uuid is a key of at most one of the seven tables. |
| Registry.DropAgrees | src/geyser-grpc-plugin/server/src/server.rs:448-460 | Dropping the one list of failed ids from all three account tables removes each failed subscription from the only table that has it, and no other entry anywhere. |
| Registry.InsertAgrees | src/geyser-grpc-plugin/server/src/server.rs:572-647 | A new subscription goes into the table of its kind. |
| Registry.RemoveAgrees | src/geyser-grpc-plugin/server/src/server.rs:667-689 | A close event removes its id from the table of its kind only. |
| Lifetime.StreamOfALifetime | src/geyser-grpc-plugin/server/src/server.rs:427-511 | The whole life of a subscriber, in every run: what was placed in its buffer is an in-order subsequence, each at most once, of the messages that report exactly the events its request asks for out of those the loop handled in the one stretch in which it was registered; it is all of them if and only if no send found the buffer full or the receiver gone. |
| Lifetime.OneWindow | src/geyser-grpc-plugin/server/src/server.rs:427-447 | The steps at which a subscription is registered are one contiguous stretch of every run. |
| Lifetime.OffersInWindow | src/geyser-grpc-plugin/server/src/server.rs:704-757 | What it is offered reports, in order and one each, exactly the events handled in that stretch that its request asks for (pubkey in set, owner in set, or not a skipped vote). |
| Lifetime.MatchingAnswers | src/geyser-grpc-plugin/server/src/server.rs:704-757 | For any list of events, the messages offered report one each and in order exactly the events asked for. |
| Delivery.StreamRefinesOffers | src/geyser-grpc-plugin/server/src/server.rs:704-763 | Over a whole run, what was placed in a subscriber's buffer (read, dropped with the receiver, or still there) is an in-order subsequence, each at most once, of what it was offered; it is short exactly by the sends that found the buffer full or the receiver gone, and equal to the offers if and only if there were none. |
| Delivery.PlacedIsSent | src/geyser-grpc-plugin/server/src/server.rs:427-511 | Read, then discarded, then still buffered is exactly the offers that were sent, in order; nothing is discarded while the receiver is open. |
| Delivery.OutcomesPartitionOffers | src/geyser-grpc-plugin/server/src/server.rs:704-763 | Matching = delivered + full-and-kept + closed: the three outcomes split the offers, each part in order. |
| Delivery.QueueStep | src/geyser-grpc-plugin/server/src/server.rs:427-511 | One step changes a buffer only by what its own subscriber is sent, reads or drops. |
| CloseRace.ClosedSendEvicts | src/geyser-grpc-plugin/server/src/server.rs:827-836 | A send that finds the receiver gone removes the subscription for good; a send with any other outcome, full included, never removes it. |
| CloseRace.OneClosedSend | src/geyser-grpc-plugin/server/src/server.rs:448-460 | In every run at most one send to a subscriber fails on a closed channel, and it is the last message the subscriber is ever offered. |
| CloseRace.HeartbeatEvictsClosedPartials | src/geyser-grpc-plugin/server/src/server.rs:765-776 | No partial subscription with a closed receiver survives a heartbeat turn. |
| CloseRace.CloseTurnOutcome | src/geyser-grpc-plugin/server/src/server.rs:654-692 | After a close event is handled the id is unregistered, and it is gone for good exactly when its added event is not still waiting. |
| CloseRace.LeakIsReachable | src/geyser-grpc-plugin/server/src/subscription_stream.rs:46-56 | The race is real: for every accepted request there is a run in which the close event is handled before the added event and leaves an entry with a closed receiver and no close event left. |
| CloseRace.LeakLastsUntilOffer | src/geyser-grpc-plugin/server/src/server.rs:428-447 | Such an entry stays registered exactly until the loop next offers it a message, in every run; then it is gone for good. |
| CloseRace.GoneForever | src/geyser-grpc-plugin/server/src/server.rs:428-447 | A known id that is unregistered with no added event waiting is never registered again. |
| CloseRace.NoOffersOnceGone | src/geyser-grpc-plugin/server/src/server.rs:704-763 | Nothing is ever sent to such an id. |
| NonInterference.OthersUnaffected | src/geyser-grpc-plugin/server/src/server.rs:704-763 | In every run, every other subscriber reads, is offered and has buffered the same messages, and is registered or not, as in the run in which the one singled out never subscribed. |
| NonInterference.ErasureCommutes | src/geyser-grpc-plugin/server/src/server.rs:427-511 | Erasing a subscriber and purging its moves commutes with running, step by step. |
| NonInterference.FanOutErase | src/geyser-grpc-plugin/server/src/server.rs:448-461 | One fan-out leaves all other buffers and registrations the same whether or not the erased subscriber took part in it. |
| HighWater.AboveHeaderIsLater | src/geyser-grpc-plugin/server/src/server.rs:866-894 | A message with a slot above the header its subscriber was answered with carries an update the validator announced after the answer, hence after the added event was sent. |
| HighWater.ProcessedAboveMarkIsLater | src/geyser-grpc-plugin/server/src/geyser_grpc_plugin.rs:320-329 | From any reachable world on, an update above the mark that the loop handles raised the mark, and was enqueued, after that world, behind everything then queued. |
| HighWater.MarkNeverDecreases | src/geyser-grpc-plugin/server/src/geyser_grpc_plugin.rs:320 | The mark never decreases along a run. |
| HighWater.AccountChannelIsFifo | src/geyser-grpc-plugin/server/src/geyser_grpc_plugin.rs:329-341 | What enters the account channel reaches the loop in order, nothing lost, duplicated or reordered after entry. |
| HighWater.RaisedIsAccountedFor | src/geyser-grpc-plugin/server/src/geyser_grpc_plugin.rs:320-341 | Conservation, in every run and as multisets: what entered the channel, what was lost to a full one and what is in flight is exactly what was in flight before and what raised the mark. |
| HighWater.RaisedIsBelowMark | src/geyser-grpc-plugin/server/src/geyser_grpc_plugin.rs:243-320 | Everything counted as raised passed the startup gate and the length checks, and the mark has reached its slot. |
| HighWater.OfferedIsProcessed | src/geyser-grpc-plugin/server/src/server.rs:701-757 | Every account message offered carries an update the loop took out of the channel in that run, and matches the request of its stream. |
| EventLoop.Wire.Offer | src/geyser-grpc-plugin/server/src/server.rs:106-113 | try_send on the bounded channel: closed if the receiver is gone, else full if there is no room, else the message is appended; a failed send leaves the channel as it was. |
| EventLoop.StreamTo | src/geyser-grpc-plugin/server/src/server.rs:704-718 | Iterating a table in any order sends every matching subscription its message and returns exactly the ids whose receiver is gone, each once; the result is the same for every order. |
| EventLoop.DropSubscriptions | src/geyser-grpc-plugin/server/src/server.rs:827-836 | Exactly the listed ids leave the table; only they are offered the error status. |
| EventLoop.DropKind | src/geyser-grpc-plugin/server/src/server.rs:455-459 | With the ids the loop passes, whose receivers are gone, the broken-connection status reaches no buffer. |
| EventLoop.EventLoop.OnAdded | src/geyser-grpc-plugin/server/src/server.rs:559-650 | A new subscription is put in the table of its kind with its own channel; all other tables, entries and channels are unchanged; a disconnected channel stops the loop. |
| EventLoop.EventLoop.OnClosed | src/geyser-grpc-plugin/server/src/server.rs:654-692 | The id is removed from the table of its kind, and nothing else changes. |
| EventLoop.EventLoop.HandleAccountUpdateEvent | src/geyser-grpc-plugin/server/src/server.rs:695-763 | The three passes over the tables together act as one simultaneous delivery, and the chained id list holds each failed subscription once. |
| EventLoop.EventLoop.OnAccountUpdate | src/geyser-grpc-plugin/server/src/server.rs:448-461 | The whole turn, passes and three drops, is the broker's fan-out step. |
| EventLoop.EventLoop.OnHeartbeat | src/geyser-grpc-plugin/server/src/server.rs:429-433 | So is a heartbeat turn, over the partial table only. |
| EventLoop.EventLoop.OnSlotUpdate | src/geyser-grpc-plugin/server/src/server.rs:462-473 | So is a slot turn. |
| EventLoop.EventLoop.OnSlotEntryUpdate | src/geyser-grpc-plugin/server/src/server.rs:474-485 | So is a slot-entry turn. |
| EventLoop.EventLoop.OnBlockUpdate | src/geyser-grpc-plugin/server/src/server.rs:486-497 | So is a block turn. |
| EventLoop.EventLoop.OnTransactionUpdate | src/geyser-grpc-plugin/server/src/server.rs:498-509 | So is a transaction turn. |
| EventLoop.ThreeKindsAreAll | src/geyser-grpc-plugin/server/src/server.rs:704-763 | Sending to accounts, then partials, then programs is sending to all at once, and the three lists of failures together are all failures. |
| EventLoop.AllHoldAfterDrop | src/geyser-grpc-plugin/server/src/server.rs:456-458 | After the drops each table again holds exactly the surviving subscriptions of its kind. |
| EventLoop.EventLoop.FanOutOverOne | src/geyser-grpc-plugin/server/src/server.rs:462-509 | The turn shared by the heartbeat and the four unfiltered channels is the broker's fan-out step, over the one table the event targets. |
| EventLoop.EventLoop.ValidAgrees | src/geyser-grpc-plugin/server/src/server.rs:413-425 | The tables the object holds agree with the one map of registrations, kind by kind. |
| LoopTurns.Select | src/geyser-grpc-plugin/server/src/server.rs:427-511 | One pass of the loop on whichever channel it picked, handler and drops together, takes an object that mirrors a reachable world to one that mirrors the world after the corresponding broker step; it stops, mirroring the same world, exactly when that channel is disconnected. |
| LoopTurns.TablesOfTheRun | src/geyser-grpc-plugin/server/src/server.rs:413-460 | In every reachable world the seven tables of such an object are, entry for entry, the tables worked out along the run. |
| LoopTurns.QuietMovesKeepMirror | src/geyser-grpc-plugin/server/src/server.rs:851-894 | Moves of the validator, of the subscribe handlers and of the close tasks leave the object a mirror of the world. |
| LoopTurns.ClientReads | src/geyser-grpc-plugin/server/src/subscription_stream.rs:70-72 | So does a client reading from its stream, which is the broker's poll move on both. |
| LoopTurns.ClientLeaves | src/geyser-grpc-plugin/server/src/subscription_stream.rs:80-93 | So does a client dropping its stream, which is the broker's signal move followed by the loss of the receiver. |
| Service.PluginData.UpdateAccount | src/geyser-grpc-plugin/server/src/geyser_grpc_plugin.rs:235-342 | A notification stopped by the startup gate or by a key that is not 32 bytes changes neither mark nor channel. Any other raises the mark to its slot and is put at the end of the channel if there is room; a full channel drops it silently, a disconnected one is an error. The call is the broker's raise move followed by its enqueue move. |
| Service.MessageRepeats | src/geyser-grpc-plugin/server/src/geyser_grpc_plugin.rs:247-299 | The message built for a notification repeats its fields, each in its place; version 1 has no signature. |
| Service.PluginData.NotifyEndOfStartup | src/geyser-grpc-plugin/server/src/geyser_grpc_plugin.rs:226-233 | Opens the startup gate, for the plugin and in the world, and changes nothing else. |
| Service.LabelIsVersionIff | src/geyser-grpc-plugin/server/src/geyser_grpc_plugin.rs:247-299 | A message is labelled with the version its notification came in if and only if that is not version 3, which is labelled 2. |
| Service.UpdateChannel.TrySend | src/geyser-grpc-plugin/server/src/geyser_grpc_plugin.rs:329-341 | Appends when there is room; otherwise unchanged, reported as full or disconnected. |
| Service.GeyserService.Subscribe | src/geyser-grpc-plugin/server/src/server.rs:851-914 | A request is an invalid argument exactly when it lists accounts or programs with a key whose length is not 32, and a stopped loop is an internal error, with nothing changed; otherwise the call is the broker's subscribe move, which sends the added event, followed by its reply move, which reads the header, and the stream holds the receiving half of the very channel sent to the loop. |
| Service.GeyserService.Admit | src/geyser-grpc-plugin/server/src/server.rs:866-879 | Sending the added event with a new channel is the subscribe move; with the loop stopped it fails and changes nothing. |
| Service.GeyserService.Answer | src/geyser-grpc-plugin/server/src/server.rs:890-894 | Reading the header is the reply move: the header is the mark at that moment. |
| Service.SubscriptionStream.constructor | src/geyser-grpc-plugin/server/src/subscription_stream.rs:36-64 | A new stream holds the sender of the signal its own close task waits on, not yet fired. |
| Service.SubscriptionStream.Drop | src/geyser-grpc-plugin/server/src/subscription_stream.rs:80-93 | The drop takes the signal out of its field and fires the one its close task waits on; the receiver and what was buffered are gone afterwards. It is the broker's signal move followed by its close of the receiver. |
| Service.CloseTask.Resume | src/geyser-grpc-plugin/server/src/subscription_stream.rs:48-56 | The spawned task sends its close event once, the first time it finds that its signal has fired or that the sender is gone: the broker's notify move. With the loop stopped the event is lost. |
| Service.SubscriptionStream.Poll | src/geyser-grpc-plugin/server/src/subscription_stream.rs:70-72 | A read takes the oldest buffered message: the broker's poll move. |
| WriteSeqs.TouchKeepsPrefix | src/geyser-grpc-plugin/client/src/geyser_consumer.rs:370 | The bounded LRU always holds the first entries of the unbounded recency list, in order: after a hit, an insertion or an eviction. |
| WriteSeqs.RecencyPosition | src/geyser-grpc-plugin/client/src/geyser_consumer.rs:370 | A slot's place in the recency list is the number of distinct slots accessed since. |
| WriteSeqs.CachedIffHit | src/geyser-grpc-plugin/client/src/geyser_consumer.rs:370 | A slot is cached exactly when it was accessed before and fewer than the capacity of distinct slots were accessed since. |
| WriteSeqs.AccountDecides | src/geyser-grpc-plugin/client/src/geyser_consumer.rs:370-389 | What the cache decides and numbers is told from the accepted updates alone: accepted iff not below the first raw sequence since the slot's counters were created, numbered by the count since then. |
| WriteSeqs.AcceptKeepsFaithful | src/geyser-grpc-plugin/client/src/geyser_consumer.rs:370-389 | An accepted update keeps the cache equal to what the accepted updates say it should be. |
| WriteSeqs.FoldIsFaithful | src/geyser-grpc-plugin/client/src/geyser_consumer.rs:370-389 | So it is after any run of accepted updates. |
| WriteSeqs.NumberIsCount | src/geyser-grpc-plugin/client/src/geyser_consumer.rs:370-389 | The number given equals the number of earlier accepted updates for the pair in the whole run if and only if none of them came before an access at which the slot had been evicted. |
| WriteSeqs.CloseAccessesGiveCount | src/geyser-grpc-plugin/client/src/geyser_consumer.rs:73-87 | In particular when fewer than the capacity of distinct other slots are accessed between any two consecutive accesses of the slot, however late its first access comes. |
| WriteSeqs.SinceIsCount | src/geyser-grpc-plugin/client/src/geyser_consumer.rs:370-389 | The count since creation is at most the whole count, with equality under exactly that condition. |
| WriteSeqs.RejectChangesNothing | src/geyser-grpc-plugin/client/src/geyser_consumer.rs:378-385 | An out-of-order rejection changes no counter and evicts no slot. |
| WriteSeqs.RejectedIsLate | src/geyser-grpc-plugin/client/src/geyser_consumer.rs:378-385 | Every rejection is justified: an accepted update of the pair had a higher raw sequence. |
| WriteSeqs.RejectedAgainst | src/geyser-grpc-plugin/client/src/geyser_consumer.rs:378-385 | The sequence a rejected update is compared with, and reported as expected, is the first one accepted for the pair since the slot's counters were created. |
| WriteSeqs.OrderCheckCatchesIff | src/geyser-grpc-plugin/client/src/geyser_consumer.rs:378-385 | Past the gates, every late update of an account in a slot is an error if and only if no accepted update of the account, in any slot, exceeds the one sequence the code compares with. |
| Consumer.AccountWriteSeqsCache.GetOrInsertMut | src/geyser-grpc-plugin/client/src/geyser_consumer.rs:370 | Promotes a cached slot, or evicts the least recently used one when full and inserts the slot empty. |
| Consumer.ProcessUpdate | src/geyser-grpc-plugin/client/src/geyser_consumer.rs:343-390 | Staleness gates, cache access, order check and renumbering in place, against the functional account of them; a rejected update is not renumbered. |
| Consumer.ConsumeAccountUpdates | src/geyser-grpc-plugin/client/src/geyser_consumer.rs:106-154 | The receive loop computes the run its inputs define: what is forwarded and how it ends. |
| Consumer.ConsumePartialAccountUpdates | src/geyser-grpc-plugin/client/src/geyser_consumer.rs:156-217 | So does the partial loop, with its heartbeat watchdog. |
| Consumer.StaysEnded | src/geyser-grpc-plugin/client/src/geyser_consumer.rs:131-153 | Once a loop has returned, later inputs change nothing. |
| ConsumerRuns.ForwardedIsRenumbered | src/geyser-grpc-plugin/client/src/geyser_consumer.rs:131-151 | In every run the forwarded list is the accepted one changed only in the sequence, and the new sequences are functions of the accepted updates. |
| ConsumerRuns.AcceptedIsPrefix | src/geyser-grpc-plugin/client/src/geyser_consumer.rs:131-151 | The accepted updates are a prefix of those received, all of them while the loop runs. |
| ConsumerRuns.UpdateDecision | src/geyser-grpc-plugin/client/src/geyser_consumer.rs:350-389 | While running, the next update is forwarded if and only if it passes both gates as read and is not below the reference sequence of its pair; if not, nothing is forwarded, no counter changes, and the loop ends in the error of the first check that failed, with the values it reports. |
| ConsumerRuns.FreshIff | src/geyser-grpc-plugin/client/src/geyser_consumer.rs:350-368 | The gates without the subtraction: slot at least the header, and slot plus distance at least the rooted slot. |
| ConsumerRuns.TurnOutcomes | src/geyser-grpc-plugin/client/src/geyser_consumer.rs:131-154 | An input without an update hands nothing on: the exit flag stops the loop, the end of the stream and every undecodable item end it in their own error, and a heartbeat moves the clock of the last one. |
| ConsumerRuns.ReceiverGone | src/geyser-grpc-plugin/client/src/geyser_consumer.rs:142-144 | With its receiver gone the loop ends, in ConsumerChannelDisconnected exactly if the update passes the checks. |
| ConsumerRuns.ForwardedIsFresh | src/geyser-grpc-plugin/client/src/geyser_consumer.rs:350-368 | Each forwarded update has a slot at least the header and at least root minus distance, with the rooted slot that was read at the input which carried it. |
| ConsumerRuns.MonotonePromise | src/geyser-grpc-plugin/client/src/geyser_consumer.rs:5-6 | The promise of slots that never go back holds of the next update of an account if and only if the highest slot handed on is no higher than the header, or plus the distance no higher than the rooted slot. |
| ConsumerRuns.SlotsMayGoBack | src/geyser-grpc-plugin/client/src/geyser_consumer.rs:350-368 | It does not always: slot 9 after slot 10 is forwarded whenever both pass the gates. |
| ConsumerRuns.OutOfOrderPromise | src/geyser-grpc-plugin/client/src/geyser_consumer.rs:7 | The promise of an error on any account update received out of order holds of the next update of an account in a slot if and only if the slot is too old for the gates, or no accepted update of the account, in any slot, exceeds the one sequence the code compares with. |
| ConsumerRuns.OutOfOrderPromiseInSlot | src/geyser-grpc-plugin/client/src/geyser_consumer.rs:7 | Read within one slot, it holds if and only if the slot is too old for the gates, or no accepted update of that slot and account exceeds that sequence. |
| ConsumerRuns.OutOfOrderIsAccepted | src/geyser-grpc-plugin/client/src/geyser_consumer.rs:350-389 | It does not always: every run that carries raw sequences 5, 9, 7 for one account in one slot past the gates accepts all three. |
| ConsumerRuns.OutOfOrderAcrossSlotsIsAccepted | src/geyser-grpc-plugin/client/src/geyser_consumer.rs:350-389 | Nor across slots: every run that carries raw sequences 100 in one slot and then 50 in another past the gates accepts both. |
| ConsumerRuns.CarriedAreAccepted | src/geyser-grpc-plugin/client/src/geyser_consumer.rs:350-389 | Updates that pass the gates and the order check one after the other are all accepted, and the loop runs on. |
| ConsumerRuns.LatestIsHighest | src/geyser-grpc-plugin/client/src/geyser_consumer.rs:141 | The loop's latest write slot is the highest slot handed on. |
| ConsumerRuns.AlarmIffExpired | src/geyser-grpc-plugin/client/src/geyser_consumer.rs:192-197 | A running loop ends in MissedHeartbeat at an input if and only if it is a tick later by more than the allowance than the last heartbeat item of the stream; updates do not count as heartbeats. |
| ConsumerRuns.NoFalseAlarm | src/geyser-grpc-plugin/client/src/geyser_consumer.rs:183-197 | No MissedHeartbeat as long as each heartbeat is processed within the allowance of the one before and the run ends within the allowance of the last, whatever ticks and data come in between; a tick may be handled late, with the time it was due. |
| ConsumerRuns.PaceBoundsClock | src/geyser-grpc-plugin/client/src/geyser_consumer.rs:183-197 | At such a pace every tick and message comes within the allowance of the heartbeat before it. |
| ConsumerRuns.SilenceIsDetected | src/geyser-grpc-plugin/client/src/geyser_consumer.rs:183-197 | If heartbeats stop at L and ticks stay on schedule, the loop is over at a tick no later than L + allowance + interval, whatever data arrives. |
| EndToEnd.NoDecodeFailure | src/geyser-grpc-plugin/client/src/types.rs:49-105 | For every run of the server and every loop reading one of its streams: no unwrap fails, no unreachable arm is reached, and a gRPC error comes only from the transport. |
| EndToEnd.ReceivedFits | src/geyser-grpc-plugin/server/src/server.rs:701-757 | Everything a client has read fits its request and lies below the mark. |
| EndToEnd.FittingDecodes | src/geyser-grpc-plugin/client/src/geyser_consumer.rs:285-336 | A message that fits the request of a stream decodes in the loop that reads it: to a beat exactly if it is a heartbeat, else to an update. |
| Decoding.PartialItems | src/geyser-grpc-plugin/client/src/geyser_consumer.rs:306-341 | On a partial stream, a beat is exactly a heartbeat item, and data exactly an update with a 32-byte key, which says its key, signature, slot, sequence and startup flag; the end of the stream and error statuses end the loop in their own errors. |
| Decoding.FullItems | src/geyser-grpc-plugin/client/src/geyser_consumer.rs:278-304 | On a full stream there are no beats, and data is exactly an update with 32-byte keys, with all eleven fields in place. |
| Decoding.FullAndPartialAgree | src/geyser-grpc-plugin/client/src/types.rs:49-105 | One account update reaches a client of full updates and one of partial updates with the same key, slot, sequence, signature and startup flag. |
| Decoding.SetSeqChangesSequence | src/geyser-grpc-plugin/client/src/types.rs:34-91 | Renumbering replaces the sequence of either kind of update and nothing else. |
| StreamOrder.AcceptedInOrder | src/geyser-grpc-plugin/client/src/geyser_consumer.rs:131-151 | For every run of server and consumer, with the loop reading its stream in order: the accepted updates are an in-order subsequence, each at most once, of the matching updates the server loop handled in the one stretch in which the subscription was registered; they are handed on changed only in the sequence, which counts over them; and if no send failed, nothing is left unread and the loop runs, they are all of them. |
| StreamOrder.AcceptedTellsOfEvents | src/geyser-grpc-plugin/client/src/geyser_consumer.rs:131-151 | For every run of server and consumer: each accepted update says, field by field, what one account update says that the server loop handled while the subscription was registered, in the order of handling and each at most once; if nothing was lost and the loop runs there is one for every account update asked for, and a running loop has accepted as many updates as it has taken account messages. |
| StreamOrder.EveryAccountMessageIsDecoded | src/geyser-grpc-plugin/client/src/geyser_consumer.rs:285-336 | The updates decoded from a stream are as many as its account messages. |
| StreamOrder.DecodingKeepsOrder | src/geyser-grpc-plugin/client/src/types.rs:49-105 | Decoding a subsequence of a stream gives a subsequence of the updates the whole stream decodes to. |
| TransactionErrors.RoundTrip | src/geyser-grpc-plugin/proto/src/convert.rs:711-1168 | Decoding an encoded transaction error gives it back exactly, except that the text of a Borsh error is blanked. |
| TransactionErrors.EncodingsAgreeIff | src/geyser-grpc-plugin/proto/src/convert.rs:851-1168 | Two errors have the same encoding if and only if they differ at most in that text. |
| TransactionErrors.DecodesIff | src/geyser-grpc-plugin/proto/src/convert.rs:711-849 | Exactly which wire errors decode: known codes, with the payload or details they need; a code 25 without a custom value is refused. |
| TransactionErrors.DecodeEncodeDecode | src/geyser-grpc-plugin/proto/src/convert.rs:711-1168 | Decode-encode-decode is decode on every wire error that decodes, and the re-encoded message is the same if and only if it had no field the decoder ignores or truncates. |
| TransactionErrors.DecodedMeans | src/geyser-grpc-plugin/proto/src/convert.rs:711-849 | A decoded error has the code of its message, its own payload with indexes cut to a byte, and a custom value before any other code. |
| TransactionErrors.EncodedMeans | src/geyser-grpc-plugin/proto/src/convert.rs:971-1166 | An encoded error puts its payload in the place of its kind. |
| TransactionErrors.TransactionCodes | src/geyser-grpc-plugin/proto/proto/transaction_by_addr.proto:27-67 | The 39 transaction error codes are those of the protobuf enumeration. |
| TransactionErrors.FirstInstructionCodes | src/geyser-grpc-plugin/proto/proto/transaction_by_addr.proto:80-97 | The first 18 instruction error codes are those of the protobuf enumeration. |
| TransactionErrors.MiddleInstructionCodes | src/geyser-grpc-plugin/proto/proto/transaction_by_addr.proto:98-115 | So are the next 18. |
| TransactionErrors.LateInstructionCodes | src/geyser-grpc-plugin/proto/proto/transaction_by_addr.proto:116-124 | So are the next nine. |
| TransactionErrors.LastInstructionCodes | src/geyser-grpc-plugin/proto/proto/transaction_by_addr.proto:125-133 | And the last nine. |
| TransactionsByAddr.RoundTrip | src/geyser-grpc-plugin/proto/src/convert.rs:1170-1214 | A transaction found for an address comes back exactly, up to a Borsh text. |
| TransactionsByAddr.DecodesIff | src/geyser-grpc-plugin/proto/src/convert.rs:1190-1214 | One decodes exactly when its error does and its signature has 64 bytes, the error first; what decodes has the fields it had on the wire. |
| TransactionsByAddr.DecodeEncodeDecode | src/geyser-grpc-plugin/proto/src/convert.rs:1170-1214 | Decode-encode-decode is decode. |
| TransactionsByAddr.ListDecodesIff | src/geyser-grpc-plugin/proto/src/convert.rs:1216-1226 | A list decodes if and only if every element does, element by element in order, and otherwise fails with the error of the first that does not. |
| TransactionsByAddr.ListRoundTrip | src/geyser-grpc-plugin/proto/src/convert.rs:1216-1226 | A list of encoded transactions decodes to the list of their normal forms. |
| ConvertMessage.MessageRoundTrip | src/geyser-grpc-plugin/proto/src/convert.rs:277-361 | Legacy and V0 messages come back exactly. |
| ConvertMessage.TransactionRoundTrip | src/geyser-grpc-plugin/proto/src/convert.rs:250-275 | Versioned transactions come back exactly. |
| ConvertMessage.LegacyTransactionRoundTrip | src/geyser-grpc-plugin/proto/src/convert.rs:237-275 | Legacy transactions come back as versioned ones with the same signatures and message. |
| ConvertMessage.MessageDecodesIff | src/geyser-grpc-plugin/proto/src/convert.rs:326-361 | Exactly which wire messages decode instead of panicking: header present, all keys and the blockhash 32 bytes, lookup keys too even for a legacy message. |
| ConvertMessage.TransactionDecodesIff | src/geyser-grpc-plugin/proto/src/convert.rs:263-275 | Exactly which wire transactions do: 64-byte signatures and a message that does. |
| ConvertMessage.ReencodedMessageIff | src/geyser-grpc-plugin/proto/src/convert.rs:298-381 | Re-encoding a decoded message gives the same wire message if and only if its indexes and header counts fit a byte and a legacy message has no lookups. |
| ConvertMessage.EncodedMessageIsSame | src/geyser-grpc-plugin/proto/src/convert.rs:298-324 | An encoded message has the same header, keys, hash, instructions and lookups on the wire, each in its place, and is marked versioned exactly if it is V0. |
| ConvertMessage.DecodedMessageIsSame | src/geyser-grpc-plugin/proto/src/convert.rs:326-361 | A decoded message has those it had on the wire, with indexes and header counts cut to a byte. |
| ConvertMessage.DecodedTransactionIsSame | src/geyser-grpc-plugin/proto/src/convert.rs:263-275 | So has a decoded transaction, with its signatures. |
| ConvertMeta.MetaRoundTrip | src/geyser-grpc-plugin/proto/src/convert.rs:383-563 | Decoding encoded metadata succeeds and gives the normal form: absent token balances and rewards become empty lists, near-zero amounts absent, missing amount texts recomputed; everything else exact. |
| ConvertMeta.MetaUnchangedIff | src/geyser-grpc-plugin/proto/src/convert.rs:383-563 | It comes back unchanged if and only if it is in that form. |
| ConvertMeta.MetaDecodesIff | src/geyser-grpc-plugin/proto/src/convert.rs:469-563 | Exactly which wire metadata decodes, which is refused (status or loaded address unreadable) and which panics (return data of a readable one). |
| ConvertMeta.MetaDecodeEncodeDecode | src/geyser-grpc-plugin/proto/src/convert.rs:383-563 | Decode-encode-decode is decode on all wire metadata that decodes. |
| ConvertMeta.RewardRoundTrip | src/geyser-grpc-plugin/proto/src/convert.rs:94-129 | Rewards come back exactly, the commission by way of its decimal text. |
| ConvertMeta.RewardsAndPartitionsRoundTrip | src/geyser-grpc-plugin/proto/src/convert.rs:40-64 | So do reward lists with their partition count. |
| ConvertMeta.TokenBalanceRoundTrip | src/geyser-grpc-plugin/proto/src/convert.rs:583-627 | A token balance comes back in normal form. |
| ConvertMeta.InnerRoundTrip | src/geyser-grpc-plugin/proto/src/convert.rs:565-581 | Inner instructions come back exactly. |
| ConvertMeta.RewardOnTheWire | src/geyser-grpc-plugin/proto/src/convert.rs:94-110 | The wire numbers reward types 1 to 4, with 0 for none, and has the commission as a decimal text. |
| ConvertMeta.RewardFromTheWire | src/geyser-grpc-plugin/proto/src/convert.rs:112-129 | Reading them back, an unknown type is none, and so is a commission that is no number up to 255. |
| ConvertMeta.TokenBalanceOnTheWire | src/geyser-grpc-plugin/proto/src/convert.rs:583-598 | The fields of a token balance on the wire, an absent amount being zero. |
| ConvertMeta.TokenBalanceFromTheWire | src/geyser-grpc-plugin/proto/src/convert.rs:600-627 | Reading it back, an amount is present exactly if it is far from zero, and a missing text is recomputed from the number the amount spells. |
| ConvertMeta.AmountStringMeans | src/geyser-grpc-plugin/proto/src/convert.rs:614-621 | The text recomputed for an amount is that of the 64-bit number it spells, or of zero if it spells none. |
| ConvertMeta.FarFromZeroIff | src/geyser-grpc-plugin/proto/src/convert.rs:607 | Far from zero is beyond two to the power -52 either way; a NaN is not. |
| ConvertMeta.EncodedMetaIsSame | src/geyser-grpc-plugin/proto/src/convert.rs:383-460 | The fields of metadata on the wire, each in its place, with a flag for what is absent. |
| ConvertMeta.DecodedMetaIsSame | src/geyser-grpc-plugin/proto/src/convert.rs:469-563 | Decoded metadata has the fields it had on the wire. |
| ConvertBlock.BlockRoundTrip | src/geyser-grpc-plugin/proto/src/convert.rs:137-196 | An encoded block always decodes, without panic or error, to its normal form, given that bincode round-trips the status. |
| ConvertBlock.BlockDecodesIff | src/geyser-grpc-plugin/proto/src/convert.rs:164-196 | A wire block decodes if and only if each transaction is readable; otherwise it fails as its first unreadable transaction does. |
| ConvertBlock.BlockDecodeEncodeDecode | src/geyser-grpc-plugin/proto/src/convert.rs:137-196 | A decoded block can be encoded again if and only if every transaction had metadata, and then decodes to the same block. |
| ConvertBlock.ConfirmedRoundTrip | src/geyser-grpc-plugin/proto/src/convert.rs:198-235 | A transaction, with or without metadata, comes back with its metadata in normal form. |
| ConvertBlock.ConfirmedDecodesIff | src/geyser-grpc-plugin/proto/src/convert.rs:219-235 | Exactly which wire transactions decode, and that an error rather than a panic comes from unreadable metadata only; a versioned transaction without metadata panics. |
| ConvertBlock.ConfirmedDecodeEncodeDecode | src/geyser-grpc-plugin/proto/src/convert.rs:198-235 | Decode-encode-decode is decode. |
| ConvertBlock.EncodedConfirmedIsSame | src/geyser-grpc-plugin/proto/src/convert.rs:198-217 | An encoded transaction has its own parts on the wire. |
| ConvertBlock.DecodedConfirmedIsSame | src/geyser-grpc-plugin/proto/src/convert.rs:219-235 | A decoded one has the parts it had. |
| ConvertBlock.BlockFieldsKeepPlaces | src/geyser-grpc-plugin/proto/src/convert.rs:137-196 | The fields and the order of the lists of a block are kept in both directions. |
| StoredMeta.StoredRoundTrip | src/geyser-grpc-plugin/proto/src/lib.rs:200-277 | Stored metadata to memory and back always succeeds and changes nothing. |
| StoredMeta.StoringIff | src/geyser-grpc-plugin/proto/src/lib.rs:235-277 | Storing fails exactly when there are loaded addresses; what is stored comes back unchanged if and only if every token amount is present with the text that would be computed for it. |
| StoredMeta.StoredOverTheWire | src/geyser-grpc-plugin/proto/src/convert.rs:462-467 | Stored metadata sent over the wire arrives as the normal form of its in-memory value, and can be stored again. |
| StoredMeta.StoredWireStoredIff | src/geyser-grpc-plugin/proto/src/convert.rs:462-467 | It is stored as what was sent if and only if all three lists were present and every amount near zero was zero. |
| StoredMeta.StoredRewardsRoundTrip | src/geyser-grpc-plugin/proto/src/convert.rs:66-92 | Stored rewards come back from the wire exactly. |
| StoredMeta.StoredBalanceInMemory | src/geyser-grpc-plugin/proto/src/lib.rs:95-127 | A stored balance in memory has its own fields, its amount present, and the text of the 64-bit number its amount spells, or of zero if it spells none. |
| StoredMeta.MemoryBalanceStored | src/geyser-grpc-plugin/proto/src/lib.rs:113-127 | A balance stored has the fields it had, an absent amount being zero. |
| StoredMeta.StoredIsSame | src/geyser-grpc-plugin/proto/src/lib.rs:200-277 | All other fields of stored metadata are those of the in-memory form, in both directions. |
| CompactTimestamp.DistanceIsLeast | src/geyser-grpc-plugin/server/src/compact_timestamp.rs:9-18 | The distance is the least distance of any two instants with those residues, and equals the distance of two instants if and only if they are at most 2^31 apart. |
| CompactTimestamp.AttainedFrom | src/geyser-grpc-plugin/server/src/compact_timestamp.rs:9-18 | It is attained, with the first instant chosen freely. |
| CompactTimestamp.DistanceIsMetric | src/geyser-grpc-plugin/server/src/compact_timestamp.rs:9-18 | Zero only on equal arguments, symmetric, at most 2^31, and the triangle inequality. |
| CompactTimestamp.DistanceIsShiftInvariant | src/geyser-grpc-plugin/server/src/compact_timestamp.rs:9-18 | Unchanged by a wrapping shift of both arguments. |
| CompactTimestamp.ReconstructionWindow | src/geyser-grpc-plugin/server/src/compact_timestamp.rs:20-29 | A timestamp is read back to within a microsecond if and only if it is not from the future and at most 2^31 microseconds old. |
| CompactTimestamp.ReadsBackAsAlias | src/geyser-grpc-plugin/server/src/compact_timestamp.rs:24-29 | Otherwise it reads back as an instant of the last 2^31 microseconds that has the same 32 bits, or whose mirror image around now has them. |
| CompactTimestamp.WindowIsTight | src/geyser-grpc-plugin/server/src/compact_timestamp.rs:24-29 | An age of 2^31 + 1 microseconds already reads back as 2^31 - 1. |
| CompactTimestamp.TimestampMeans | src/geyser-grpc-plugin/server/src/compact_timestamp.rs:20-22 | A timestamp is the microseconds since the epoch, cut to 32 bits. |
| TickArrays.StartHoldsTick | src/orca_toolkit/src/main.rs:144-150 | For every tick, negative ones included, the nested Euclidean division gives a multiple of the width with start <= tick < start + width. |
| TickArrays.StartIsUnique | src/orca_toolkit/src/main.rs:147-150 | It is the only such multiple. |
| TickArrays.SucceedsIffOuterFit | src/orca_toolkit/src/main.rs:147-164 | The 32-bit computation overflows nowhere if and only if the spacing is positive and the two outermost indexes fit; then the five indexes are start, one and two widths above, one and two below. |
| TickArrays.NoOverflowInRange | src/orca_toolkit/src/main.rs:147-164 | In terms of the tick: no overflow from i32::MIN + 3w - 1 to i32::MAX - 2w. |
| TickArrays.ArraysTile | src/orca_toolkit/src/main.rs:158-164 | The five arrays tile the stretch from two widths below to three above the start, each tick in exactly one of them, the current tick in the first. |
| TickArrays.SeedsDiffer | src/orca_toolkit/src/main.rs:254-259 | The five decimal seeds are pairwise distinct. |
| Decimals.DecimalMeans | src/orca_toolkit/src/main.rs:254 | The seed of an index spells it: a minus sign exactly when negative, then its digits. |
| Decimals.ParsesIff | src/geyser-grpc-plugin/proto/src/convert.rs:126 | Exactly which texts parse as an unsigned number: an optional plus sign, digits, at least one, and no overflow. |

## Left out

- LoopTurns.Select: is one pass; that the loop makes passes until one stops it is the step sequence of Broker.
- Delivery.StreamRefinesOffers: says nothing about which ready channel the loop takes next, nor that anything is eventually delivered; the source leaves both open.
- EventLoop.EventLoop.OnAccountUpdate: one turn is atomic here, while in the source a client may read or drop its stream between two sends of the same turn; sends to different subscribers touch different channels.
- Service.SubscriptionStream.Drop: a second drop, which would panic, cannot happen to an owned value and is not modelled.
- Consumer.ProcessUpdate: counters are unbounded; the 64-bit overflow of a per-slot counter is not modelled.
- Consumer.ConsumePartialAccountUpdates: the product of interval and missed heartbeats does not overflow here, and an interval of zero, which the timer refuses, is not excluded.
- TickArrays.SucceedsIffOuterFit: an overflow is a failure here, as in a build with overflow checks; without them the source wraps around.
- Slot, slot-entry, transaction and block payloads are opaque, and the loop that produces them is any sequence of events.
- A channel of capacity zero: tokio refuses to create one, and the plugin's channel would be a rendezvous; here it is always full.
- Header parsing and its malformed-response errors, the slot and slot-entry consumer loops, and their conversions.
- The entry summary conversion: it truncates two indexes and copies the rest.
- gRPC transport, TLS, access tokens, configuration, plugin loading, logging.
- Bincode and Borsh encodings themselves, program-derived addresses, the rest of the swap transaction, RPC, the command line and the account dumps.
