# easykafka: no accepted work is silently lost

A Dafny model of easykafka-go, and proofs of what it promises: a subscriber never lets a commit
pass a message that was not resolved, a publisher reports every record it accepted, and the retry
ladder that joins the two loses nothing on the way. `dafny verify dfyconfig.toml` checks it all.

## How it is laid out

**The subscriber's offset protocol.** `ConsumerGroup` is a step relation over a consumer group of any
number of members: per partition a log with ascending offsets and gaps, and the committed position;
per member its assignment, fetch positions, offset store, buffer and loop phase. Steps are polls,
eager rebalances, lost partitions, handler verdicts, strategy calls, stores, commits (which land for
any subset of partitions), background ticks, cancellation, poll errors and crashes. `GroupSafety` and
`AtLeastOnce` prove an invariant of every step and the at-least-once theorem; `Conservation` follows
every polled message through the buffer; `Resume` says exactly when a stopped subscriber resumes
where it left off; `Handover` says who commits what, and what the next owner of a partition reads;
`Answers` says what each answer of handler and strategy records; `NoLoss` is the end-to-end theorem
under the retry strategy. `OffsetStore` is the arithmetic of one batch, and `StoreWalk` its
StoreOffset calls as steps of the group, in any order. `Driver`, `Buffering`, `Batching`,
`RetryStrategy` and `Subscriber` are the source's objects and loops as classes and methods. Each
method step is a step of the group (`Driver.World` carries the run), so the theorems hold at the end
of every execution of `Subscriber.Run`; and each iteration does what `Iteration` says, as a relation
between the group before and after it: what the handler answered, which calls the strategy got and
how it answered them, what was settled, stored and committed.

**The retry/DLQ ladder.** It joins the two protocols: the strategy's answer to the subscriber is
derived from the publisher's reports (`RetryStrategy`). `Headers`, `Wire`, `Decimal` and `Ladder` say
which record a failed message becomes, that sorting its headers, writing them and reading them back
loses nothing, and what any number of hops keeps. `Backoff` is the delay between hops. `StrategyLease` is who may hold a retry
strategy when several subscribers share it.

**The publisher's delivery protocol.** `Settlement` is what the report goroutine does with any
sequence of events; `Publisher` has the objects that do it; `PublisherProtocol` interleaves any
number of senders and closers with it, one atomic step at a time, and `PublisherClose` holds the
theorems about every interleaving. `HandleProtocol` is the lock around librdkafka's handle.
`KafkaErrors` is the error translation.

**Configuration.** `KafkaConfig`, `PublisherOptions` and `ConsumerOptions`: the option folds, and
the maps librdkafka is given.

## What is assumed of the environment

- The broker's log only grows, with ascending offsets per partition; an assignment starts at the
  committed position, or at the earliest record if there is none; a commit publishes stored offsets
  only, for any subset of partitions. No exclusivity of assignments is assumed.
- StoreOffset answers that a partition was revoked exactly when it is not assigned.
- The producer reports each accepted record at most once before anything else names it, answers
  zero from Len and Flush only when it holds nothing, and drops what it holds when closed
  (internal/publish/publishdriver/producer.go:14-40). It may emit any other event at any time.
- A callback does not call Close, as documented.

## Findings

- **Close ignores an answer it depends on** (publish/publisher.go:462). When any Close has returned,
  the unresolved deliveries are exactly the records the driver still held when it was closed. There
  are none if the Flush after Purge answered zero, and Close never looks at that answer:
  `FlushTimeoutLeavesUnresolved` shows a run in which it times out. Close's error does then say that
  records were not delivered, so nothing is lost in silence.
- **The resume boundary in batch mode is not always exact.** It is exact if and only if the loop
  stopped cleanly on that partition: by cancellation or a poll error, by a strategy error before any
  message of that partition in the batch was resolved, or by a store failure elsewhere.
  `BatchStopMayRepeat` is a run that handles a message and reads it again. Nothing is ever skipped.
- **The attempt counter wraps.** A record whose attempt header is the largest int64 goes to the retry
  topic once more, with the smallest (internal/subscribe/strategy/retry.go:336-337).
- **A fatal error may come without ErrFatal.** The comment at publish/publisher.go:367-369 says the
  driver attaches ErrFatal to every fatal error. It does not for the four codes that have a sentinel
  of their own, so the wrapping there is needed.
- **A commit interval below a millisecond becomes zero** (subscribe/options.go:230-238,
  internal/subscribe/subscribedriver/consumer.go:164).
- **A very large float passes the in-flight check**, because its conversion leaves the range of
  int64 (publish/options.go:288-292; the model takes amd64's result).
- **The consumer driver writes the caller's map last**, so only the options' rejection of managed
  keys keeps the offset store off and the assignment eager.

## Model

| member | source | states |
|---|---|---|
| `AtLeastOnce.NothingIsEverSkipped` | subscribe/subscriber.go:243-435 | In every reachable state of a group of any size, every record below a committed or a stored position was handled or written off by the strategy. |
| `AtLeastOnce.StepKeeps` | subscribe/subscriber.go:243-519 | Every step of every member, and every step of the environment, keeps the group invariant. |
| `AtLeastOnce.PublishKeeps` | internal/subscribe/subscribedriver/consumer.go:525-543 | A commit that lands for any subset of partitions, from any member's store, passes nothing unresolved. |
| `AtLeastOnce.RebalancingKeeps` | internal/subscribe/subscribedriver/consumer.go:276-329 | Assigning, revoking eagerly with the buffer dropped, or losing a partition keeps a member in order. |
| `AtLeastOnce.VerdictKeeps` | subscribe/subscriber.go:400-467 | Whatever the handler answers, what it did not fail is accounted for and the rest is left to be routed. |
| `AtLeastOnce.RoutedKeeps` | subscribe/subscriber.go:444-467 | Whatever the strategy answers, only accepted messages count as resolved, and a refusal leaves the loop. |
| `Answers.VerdictRecords` | subscribe/subscriber.go:400-435 | A per-item verdict makes exactly the messages that were not failed handled, and a whole failure none. |
| `Answers.AnswerRecords` | subscribe/subscriber.go:444-467 | An accepted call writes off exactly its own messages, the whole batch or the first failed item, and a refused one none. |
| `Answers.FailedItemsAre` | subscribe/subscriber.go:455-466 | The items to route are exactly those the handler failed. |
| `Answers.WhenDispatched` | subscribe/subscriber.go:379-387 | Something buffered is dispatched, all of it, exactly when it is full or has timed out, and in single mode at once. |
| `AtLeastOnce.StoreReturnsKeeps` | subscribe/subscriber.go:482-519 | Storing, being told of a revoke and failing to store all keep the invariant, in both modes. |
| `GroupSafety.ResolveAllKeeps` | subscribe/subscriber.go:400-435 | Once the whole batch is resolved, the maxima per partition may be stored: all below them is accounted for. |
| `GroupSafety.StoredKeeps` | internal/subscribe/subscribedriver/consumer.go:451-476 | After a store of offset+1, everything below the new position is accounted for. |
| `GroupSafety.FetchKeeps` | internal/subscribe/subscribedriver/consumer.go:333-442 | A polled record is the only new pending one, in poll order. |
| `NoLoss.NothingIsEverLost` | internal/subscribe/strategy/retry.go:327-458 | Under the retry strategy, every source record, on whatever topic, is handled or not passed by a commit, itself or through an acknowledged record with its key, payload (a tombstone stays one), headers and name. |
| `NoLoss.TrailExists` | internal/subscribe/strategy/retry.go:327-379 | Every record of the log has a trail of records, each carrying the one before, that ends in one that is handled or not passed. |
| `NoLoss.TrailKeeps` | internal/subscribe/metadata/headers.go:113-137 | Along a trail of any length key, payload, application headers and origin stay the same. |
| `NoLoss.TrailIsBounded` | internal/subscribe/strategy/retry.go:336-376 | A trail from a source record reaches the DLQ in at most maxAttempts hops, if it is that long: before, its length is the attempt counter. |
| `Resume.ResumeBoundary` | subscribe/subscriber.go:214-240 | A subscriber that left its loop resumes a partition exactly where it stopped resolving if and only if it stopped cleanly on it; undispatched messages lie past that position. |
| `Resume.SingleResumesExactly` | subscribe/subscriber.go:243-342 | In single mode the boundary is exact unless a store failed. |
| `Resume.NextOwnerReads` | subscribe/subscriber.go:222-231 | After a clean stop and a final commit that lands, the next assignment reads precisely what was not resolved, also when nothing was stored and the commit is still the one the member started from. |
| `Resume.BatchStopMayRepeat` | subscribe/subscriber.go:444-467 | A concrete run in which a batch message is handled and its offset is not stored, so it is read again. |
| `Resume.CanReadOn` | internal/subscribe/subscribedriver/consumer.go:333-442 | As long as a partition has unread records there is a next one to poll, and none before it. |
| `OffsetStore.HighestIsMaximum` | subscribe/subscriber.go:487-493 | The fold over a batch gives each of its partitions the offset of one of its messages, and no message exceeds it. |
| `OffsetStore.BatchRefinesSequential` | subscribe/subscriber.go:482-519 | For a batch in poll order, storing the maxima leaves the same store as storing every message in turn. |
| `OffsetStore.PollOrderMatters` | subscribe/subscriber.go:469-481 | Out of poll order the two differ. |
| `OffsetStore.AnyTwoOrdersAgree` | subscribe/subscriber.go:495-518 | With revoked partitions and partial failures, neither the store nor the stop decision depends on map iteration order. |
| `StoreWalk.AnyWalk` | subscribe/subscriber.go:495-518 | The StoreOffset calls of a batch, in any order, are a run of the group that stores exactly the held maxima whose store succeeds and stops for exactly the held ones whose store fails. |
| `StoreWalk.OutcomeMeans` | subscribe/subscriber.go:495-518 | Partition by partition: what is stored, what is left as it was, and which failures are remembered. |
| `StoreWalk.AnyTwoWalksAgree` | subscribe/subscriber.go:495-518 | Two such runs, in different orders, leave the same group. |
| `StoreWalk.WalkRefinesSequential` | subscribe/subscriber.go:469-481 | For a batch in poll order that is still held, such a run leaves the store that storing every message in turn leaves. |
| `Conservation.ConservedInEveryRun` | internal/subscribe/batch/batch.go:32-79 | In every run of the group, what the labels say a member polled is, in order, what was dispatched and dropped followed by its buffer; every batch is non-empty and at most the batch size, and the one in work is the last dispatched. |
| `Conservation.ReadableInEveryRun` | internal/subscribe/subscribedriver/consumer.go:368-382 | Every record a run writes has its header keys in the form Poll gives them. |
| `Buffering.Buffer.Add` | internal/subscribe/batch/batch.go:32-37 | Appends; the first message sets the time; what was ever added is what left and what is held. |
| `Buffering.Buffer.TimedOut` | internal/subscribe/batch/batch.go:46-51 | True exactly when there is a first message and it has waited long enough. |
| `Buffering.Buffer.Drop` | internal/subscribe/batch/batch.go:62-67 | Empties the buffer, says how many it held, and records them as dropped. |
| `Buffering.Buffer.Flush` | internal/subscribe/batch/batch.go:71-79 | Hands out the whole buffer in order, or nothing if it is empty, and starts afresh. |
| `Batching.NewBatchFromBuffer` | internal/subscribe/types/types.go:106-114 | One fresh item per polled message, in poll order, none failed yet. |
| `Batching.BatchItem.Fail` | internal/subscribe/types/types.go:136-136 | The last verdict stands. |
| `Batching.InvokeBatchHandler` | subscribe/subscriber.go:524-540 | Each item has the last failure recorded on it; a panic comes back as a failure of the whole batch, with an error, no step and no code; without one the handler's own answer stands. |
| `Batching.InvokeHandler` | subscribe/subscriber.go:551-571 | The same for one message: a panic is a failure, never a success. |
| `Batching.WithReason` | subscribe/subscriber.go:573-591 | A failure always has an error, and keeps its own if it had one. |
| `Driver.Consumer.RebalanceCallback` | internal/subscribe/subscribedriver/consumer.go:276-329 | Assign starts at the committed positions, or at the first record, with an empty store. Revoke drops the buffer, commits the stored positions of the partitions its commit lands for and no others, and leaves neither assignment nor store. |
| `Handover.WhatIsCommitted` | internal/subscribe/subscribedriver/consumer.go:505-561 | A revoke, MaybeCommitStored, the background committer, the final commit and Close commit exactly the stored positions the commit lands for; no other step of the group commits anything. |
| `Handover.WhoOwnsTheTiming` | internal/subscribe/subscribedriver/consumer.go:149-168 | The background committer acts only for a member that was given an interval, and such a member commits nothing itself between two polls. |
| `Handover.RevokeLeavesNothing` | internal/subscribe/subscribedriver/consumer.go:298-329 | After a revoke the member has no partition, no stored position and no buffered message, and goes on polling. |
| `Handover.AssignStartsAtCommitted` | internal/subscribe/subscribedriver/consumer.go:276-297 | An assignment reads on from the committed positions, or from the first record, and nothing is stored yet. |
| `Handover.NextOwnerReadsOn` | internal/subscribe/subscribedriver/consumer.go:298-329 | In every run: after a revoke whose commit lands, the first record the next owner polls of a partition is one the old owner had not resolved, and all of its assignment before it was resolved. |
| `Handover.CrashLosesTheMember` | subscribe/subscriber.go:187-240 | A crash at any point takes the member away with what it stored and buffered, and leaves the rest of the group as it was. |
| `Handover.RestartReadsFromCommitted` | internal/subscribe/subscribedriver/consumer.go:139-168 | A subscriber that starts again reads on from the committed positions. |
| `Driver.Consumer.Poll` | internal/subscribe/subscribedriver/consumer.go:333-442 | Returns the message the broker offers exactly if it is the next record of an assigned partition, nothing otherwise, or a fatal error, after any rebalances; only a revoke drops buffered messages. |
| `Driver.Consumer.StoreOffset` | internal/subscribe/subscribedriver/consumer.go:451-499 | Stores offset+1, or tells a revoked partition from a real failure. |
| `Driver.Consumer.MaybeCommitStored` | internal/subscribe/subscribedriver/consumer.go:510-515 | Commits the store unless the background committer owns the timing; the loop then goes on or stops. |
| `Driver.Consumer.CommitStored` | internal/subscribe/subscribedriver/consumer.go:525-543 | The stored offsets of the partitions a commit lands for become the committed ones. |
| `Driver.Consumer.Close` | internal/subscribe/subscribedriver/consumer.go:546-561 | The store is committed once more wherever that lands, and the assignment is gone. |
| `Subscriber.ErrorStrategy.HandleError` | internal/subscribe/types/types.go:161-176 | Each call is on record with its messages, its failure and its answer: skip always accepts, fail-fast never does, and retry accepts exactly when every record was queued and acknowledged. |
| `Subscriber.Subscriber.FindHighest` | subscribe/subscriber.go:487-493 | The loop computes the maxima: each is some message's offset and bounds all of its partition. |
| `Subscriber.Subscriber.StoreOnce` | internal/subscribe/subscribedriver/consumer.go:451-476 | One call stores offset+1, fails, or is passed over because the partition is gone, and touches nothing else. |
| `Subscriber.Subscriber.StoreHighestOffsetPerPartition` | subscribe/subscriber.go:482-519 | Whatever order the stores take and whatever is lost in between: each maximum still held is stored at offset+1 unless its store fails, every other position is untouched, and the loop is to stop for exactly the held ones that failed. |
| `Subscriber.Subscriber.CommitOnce` | subscribe/subscriber.go:326-338 | One commit, of the stored partitions it lands for, or left to the background committer; what it lands for is committed as stored. |
| `Subscriber.Subscriber.RouteItems` | subscribe/subscriber.go:455-466 | The strategy is asked exactly for the failed items, each alone with its own failure, up to the first it refuses; the loop fails exactly if it refused one, and what it accepted is written off. |
| `Subscriber.Subscriber.Ask` | subscribe/subscriber.go:451-463 | One call of the strategy, with its answer: the failure it is given has an error, and what it accepts is written off. |
| `Subscriber.Subscriber.RouteBatchFailures` | subscribe/subscriber.go:444-467 | The strategy is asked once, with every message, if the batch failed as a whole, and otherwise item by item; the outcome is its answers. |
| `Subscriber.Subscriber.Handle` | subscribe/subscriber.go:400-435 | The handler sees fresh copies in poll order; each item has the verdict it recorded, and this verdict, no other, goes to the group. |
| `Subscriber.Subscriber.HandleMessage` | subscribe/subscriber.go:279-294 | One message: a panic, or a failure the handler returns, is one call of the strategy with this message, and without either there is no call and it is handled. |
| `Iteration.WholeBatchIsOneCall` | subscribe/subscriber.go:444-454 | A panic or a failure of the whole batch is one call with every message; the failure it carries is the handler's, or for a panic has an error and neither step nor code. |
| `Iteration.SinglePanicIsRouted` | subscribe/subscriber.go:551-571 | In an iteration whose handler panics on a message, that message is in one strategy call, written off if the call is accepted, and the loop stops if it is not. |
| `Iteration.BatchPanicIsRouted` | subscribe/subscriber.go:521-540 | And so is every message of a batch. |
| `Iteration.ItemCallsCarryTheirFailure` | subscribe/subscriber.go:455-466 | Every call for an item carries the failure recorded last on that very item; skip accepts all, fail-fast none. |
| `Iteration.IterationLeavesFresh` | subscribe/subscriber.go:376-393 | After an iteration that goes on, the buffer is empty, or short of a batch with its first message younger than the timeout. |
| `Subscriber.Subscriber.DispatchBatch` | subscribe/subscriber.go:400-435 | The handler answers once, the strategy is asked for exactly what it failed, and the loop stops for the strategy exactly if it refused. If it did, nothing is stored or committed; if not, every message is handled or written off as the handler decided, every maximum whose store succeeds is stored, and one commit is made. |
| `Subscriber.Subscriber.Buffering` | subscribe/subscriber.go:352-393 | The polled message joins the buffer; what is buffered is dispatched exactly when it has reached the batch size or its first message has waited for the timeout. |
| `Subscriber.AddAndFlush` | subscribe/subscriber.go:352-393 | The buffer object hands out its messages, the new one last, exactly if there are any and either their number has reached the batch size or now lies at least the timeout after the first of them was added; otherwise it keeps them all. |
| `Subscriber.Subscriber.BatchTurn` | subscribe/subscriber.go:348-396 | One iteration: it leaves when the context has ended or Poll fails; otherwise the message Poll offers is buffered, and a batch that is due is dispatched: handled, routed, stored and committed. If the loop goes on, what is still buffered is short of a batch and younger than the timeout. |
| `Subscriber.Subscriber.RunBatchLoop` | subscribe/subscriber.go:348-396 | The loop is a chain of iterations, each doing its work, up to the one that stops it, and after each that does not, nothing due is left; the buffer object has seen exactly what they took from Poll, which is what the run fetched, and all of it was dispatched, dropped or is held. |
| `Subscriber.Subscriber.DispatchOne` | subscribe/subscriber.go:276-339 | The handler answers once, and the strategy is asked exactly if it failed. Unless refused, the message is handled or written off accordingly, stored at offset+1 if its partition is still held and the store does not fail, and then committed. |
| `Subscriber.Subscriber.SingleTurn` | subscribe/subscriber.go:243-342 | One iteration: it leaves when the context has ended or Poll fails; otherwise the message Poll offers is handled, routed if it failed, stored and committed. |
| `Subscriber.Subscriber.RunSingleLoop` | subscribe/subscriber.go:243-342 | The loop is a chain of iterations, each doing its work, up to the one that stops it. |
| `Subscriber.Subscriber.Run` | subscribe/subscriber.go:187-240 | Either loop does the work of its iterations, then what is stored is committed and the driver closed; at any point nothing was skipped and, under the retry strategy, nothing lost. |
| `Subscriber.Subscriber.ShutDown` | subscribe/subscriber.go:214-240 | The stored positions of what is still held are committed wherever one of the two commits lands, and the member holds nothing any more. |
| `Iteration.SingleLoopResolves` | subscribe/subscriber.go:243-342 | Every message any iteration of a single loop took from Poll is settled in the end: handled if its handler succeeded, written off by the strategy if it failed; except one the strategy refused, which ended the loop. |
| `Iteration.BatchLoopResolves` | subscribe/subscriber.go:348-435 | Every message of every batch any iteration dispatched is settled in the end: handled if not failed, written off if failed, alone or with its batch; except in a batch at which the strategy stopped the loop. |
| `Iteration.CallsArePrefix` | subscribe/subscriber.go:444-467 | The calls made for a batch are for a prefix, in poll order, of its failed items, each alone; all but the last are accepted, and the prefix is proper only if the last is refused. |
| `Iteration.NoneRefusedSettles` | subscribe/subscriber.go:400-435 | If no call was refused, every message of the batch is handled or written off as the handler decided. |
| `Iteration.LoopPolls` | subscribe/subscriber.go:348-396 | A loop forgets nothing it resolved, and polls exactly what Poll offered its iterations, in order. |
| `Decimal.ParsePrint` | internal/subscribe/metadata/headers.go:25-38 | Printing any integer in decimal and parsing it gives it back. |
| `Decimal.DigitsInOrder` | internal/subscribe/metadata/headers.go:121-134 | The digit at each decimal place is the number's, and a positive number has no zero in front. |
| `Headers.BuildFailureHeaders` | internal/subscribe/metadata/headers.go:113-137 | Fills the map step by step with application headers, counter, step, code, message, origin and time. |
| `Headers.BuildRetryHeaders` | internal/subscribe/metadata/headers.go:94-98 | The same, and the retry time. |
| `Headers.CountersReadBack` | internal/subscribe/metadata/headers.go:25-74 | Attempt and step come back as written, and read as zero when absent or out of their range. |
| `Wire.SortedHeaders` | internal/subscribe/strategy/retry.go:462-468 | The list has every header once, strictly ascending by key. |
| `Wire.ConvertHeaders` | internal/subscribe/subscribedriver/consumer.go:368-382 | A later value of the same key replaces an earlier one. |
| `Wire.LastValueWins` | internal/subscribe/subscribedriver/consumer.go:368-382 | Each key that is listed, and no other, has the last of its values. |
| `Wire.HeaderListRoundTrip` | internal/subscribe/strategy/retry.go:462-468 | Listing a header map and reading the list back gives the map. |
| `Wire.SortedListingUnique` | internal/subscribe/strategy/retry.go:460-468 | A header map has one sorted listing: the order written does not depend on map iteration. |
| `Wire.KeyTextBijection` | internal/subscribe/metadata/headers.go:140-149 | The library's nine header names are told apart from each other and from any other name. |
| `Wire.NineNames` | internal/subscribe/metadata/headers.go:12-20 | Which name stands for which header. |
| `Wire.LexOrder` | internal/subscribe/strategy/retry.go:460-468 | The order is that of Go's strings: at the first difference the smaller character, or the end of the text, comes first. |
| `Ladder.RecordIsHop` | internal/subscribe/strategy/retry.go:428-458 | The record written is consumed as exactly the message one hop predicts. |
| `Ladder.LandedIsProper` | internal/subscribe/subscribedriver/consumer.go:368-382 | Any record at all is consumed with its header keys in proper form. |
| `Ladder.HopCarries` | internal/subscribe/strategy/retry.go:327-379 | One hop keeps key, payload, application headers and origin, and counts one attempt. |
| `Ladder.Provenance` | internal/subscribe/metadata/headers.go:94-185 | After any number of hops the last record alone names its source, has its content, the latest non-zero step and the current code, and has a retry time exactly if it is not a DLQ record. |
| `Ladder.LadderExact` | internal/subscribe/strategy/retry.go:336-376 | A ladder is complete exactly when its last failure is permanent or uses up the attempts, and no failure before it is permanent. |
| `Ladder.AlwaysFailing` | internal/subscribe/strategy/retry.go:71-83 | A source record that always fails with plain errors is handled maxAttempts times: all but one retry record, then one DLQ record. |
| `Ladder.PermanentEndsLadder` | internal/subscribe/strategy/retry.go:332-349 | A permanent failure within the attempts ends the ladder there: a DLQ record, whatever attempts are left, and retry records before it. |
| `Ladder.WhereItGoes` | internal/subscribe/strategy/retry.go:336-376 | A permanent failure goes to the DLQ topic; any other goes there exactly when the attempt it counts has reached maxAttempts, and to the retry topic before. |
| `Ladder.SaysItsFailure` | internal/subscribe/metadata/headers.go:113-137 | Code, message and time of failure are those of the failure at hand, the code "HANDLER_ERROR" for an error without one; the retry time is there for a retry record alone. |
| `Ladder.LadderEnd` | internal/subscribe/strategy/retry.go:349-349 | A non-permanent failure goes to the DLQ exactly at the last attempt, unless the counter is at its largest value. |
| `Ladder.CounterWraps` | internal/subscribe/strategy/retry.go:336-337 | There the counter wraps and the record is retried. |
| `RetryStrategy.Send` | internal/subscribe/strategy/retry.go:449-458 | Key and payload go out unchanged, a tombstone as a tombstone, headers sorted. |
| `RetryStrategy.SendValue` | publish/writer.go:54-68 | A value that encodes to nil is refused. |
| `RetryStrategy.BuildRecord` | publish/writer.go:92-104 | The topic's headers come first, then the call's, in order. |
| `RetryStrategy.Strategy.Republish` | internal/subscribe/strategy/retry.go:349-375 | The record is the one the ladder prescribes: on the DLQ topic if the error is permanent or the attempt has reached maxAttempts, on the retry topic otherwise. |
| `RetryStrategy.Strategy.AwaitWrites` | internal/subscribe/strategy/retry.go:385-413 | The failures are exactly the queued records that the publisher did not acknowledge. |
| `RetryStrategy.AcknowledgedByFirstReport` | publish/publisher.go:248-276 | A record counts as acknowledged exactly when Produce took it and the first report that names it carries no error, whatever else is on the reports channel; it landed in the partition that report gives. |
| `RetryStrategy.Strategy.HandleError` | internal/subscribe/strategy/retry.go:327-379 | Returns nil exactly when initialized and every record was queued and acknowledged; then each message has a log entry that carries it. It stops sending at the first record that cannot be queued. |
| `RetryStrategy.Strategy.Initialize` | internal/subscribe/strategy/retry.go:254-293 | A strategy in use is rejected and untouched; a failed build releases it. |
| `Backoff.BackoffBounds` | internal/subscribe/strategy/retry.go:471-486 | From attempt 1 the delay lies between the smaller of initial and maximal delay and the maximal one, and starts at the former; below 1 it is never negative. |
| `Backoff.BackoffIsExponential` | internal/subscribe/strategy/retry.go:471-486 | It begins at the initial delay and grows by the multiplier with each attempt; what is returned is its whole nanoseconds, or the cap. |
| `Backoff.BackoffMonotone` | internal/subscribe/strategy/retry.go:471-486 | It never decreases with the attempt. |
| `Backoff.BackoffReachesCap` | internal/subscribe/strategy/retry.go:476-485 | With a multiplier above 1 it reaches the maximum and stays there; with 1 it is constant. |
| `StrategyLease.OneHolder` | internal/subscribe/strategy/retry.go:254-312 | Over any interleaving of Start calls at most one holds the strategy, and while it polls the publisher is its own, still open, and so is the logger. |
| `StrategyLease.OutsidersTouchNothing` | subscribe/subscriber.go:100-119 | A call that does not hold the strategy changes nothing of it, except by the claim that wins. |
| `StrategyLease.EachInitializeIsClosed` | subscribe/subscriber.go:103-149 | On every exit path as many publishers are closed as were built: one if Initialize succeeded, none otherwise. |
| `StrategyLease.SingleUse` | subscribe/subscriber.go:82-89 | Of all Start calls of a subscriber one gets past the first check. |
| `StrategyLease.WhenClaimed` | internal/subscribe/strategy/retry.go:254-258 | Whatever the interleaving, Initialize gets the strategy exactly when no call holds it. |
| `StrategyLease.WhyItReturned` | subscribe/subscriber.go:82-149 | Over any interleaving, what Start returns tells what happened: it was not the first Start of its subscriber, the strategy was in use, the publisher or the consumer could not be built, or it polled; each exactly then. |
| `StrategyLease.FreeInTheEnd` | internal/subscribe/strategy/retry.go:303-312 | When no call is inside Start the strategy is free and its publisher closed. |
| `KafkaErrors.AsFatal` | publish/publisher.go:365-372 | A recorded fatal error has ErrFatal in its chain and keeps its cause. |
| `KafkaErrors.WhenWrappingIsNeeded` | internal/publish/publishdriver/event.go:102-129 | The driver's own translation attaches ErrFatal except for the four codes with a sentinel of their own. |
| `KafkaErrors.TranslationMeans` | internal/publish/publishdriver/event.go:102-129 | Which sentinel an error has, and whether it is fatal or a disconnect, as its code and flag say. |
| `Settlement.FirstOutcomeStands` | publish/publisher.go:248-276 | Over any events, duplicates and foreign tokens included, a delivery is resolved exactly if some report named it. |
| `Settlement.OutcomeIsFirstReports` | publish/publisher.go:248-276 | Its partition, its offset and its error are, each, those of the first report that named it. |
| `Settlement.SettledExactlyOnce` | publish/publisher.go:229-323 | Each channel is closed once or never, the error callback runs once per failed delivery and never otherwise, the fatal handler once if at all. |
| `Settlement.CallbackBeforeDone` | publish/publisher.go:268-276 | The callback of a failed delivery runs before its channel is closed, panic or not. |
| `Settlement.OutageAccounting` | publish/publisher.go:328-360 | Down and restored lines alternate, and every non-fatal disconnect is a down line, in a reported count, or counted still. |
| `Settlement.DownSince` | publish/publisher.go:328-360 | Over any events the broker counts as down exactly if a non-fatal error said so and no delivery was acknowledged since; failed deliveries, duplicates and foreign reports restore nothing. |
| `Settlement.FirstFatalLatches` | publish/publisher.go:365-381 | The first fatal error among the events is the one recorded, with ErrFatal in its chain. |
| `Settlement.SettledStays` | publish/delivery.go:32-35 | A settled delivery keeps its outcome, whatever events come later. |
| `Publisher.NewDeliveryError` | publish/publisher.go:290-306 | The error holds the record as it was sent, the report's partition and its cause. |
| `Publisher.Delivery.Resolve` | publish/delivery.go:32-35 | Requires an open channel; records the outcome and closes it. |
| `Publisher.Publisher.Enqueue` | publish/publisher.go:210-226 | Refuses when closed, after a fatal error, or when the driver does; otherwise hands out a fresh unresolved delivery of this record. |
| `Publisher.Publisher.BeginClose` | publish/publisher.go:429-440 | Of all Close calls the one that finds the publisher open shuts it down, and it is closed from then on. |
| `Publisher.Publisher.Settle` | publish/publisher.go:248-276 | An open delivery gets its own topic, the report's partition and offset, and an error with its record and the report's cause exactly if the report has one; otherwise the objects change as the settlement function says, and no channel is closed twice. |
| `Publisher.Publisher.NoteClientError` | publish/publisher.go:328-348 | Likewise for client errors. |
| `Publisher.Publisher.ReadReports` | publish/publisher.go:229-239 | The loop over any events leaves the objects where the fold over them ends, and each resolved delivery tells of its own record. |
| `Publisher.Publisher.WaitAll` | publish/delivery.go:89-105 | While reports keep coming in, nil exactly when every delivery is acknowledged; up to the first one the context cuts off, each failed delivery is among the failures and no other is. |
| `Publisher.Drain` | publish/publisher.go:481-491 | Stops at the first zero, otherwise uses all the time there is, and returns the last answer. |
| `PublisherProtocol.LockKeeps` | publish/publisher.go:210-226 | Every step keeps the lock exclusive, and whoever saw the publisher open under the read lock still finds it open. |
| `PublisherProtocol.RecordKeeps` | publish/publisher.go:210-239 | After every step each produced record is held, dropped or reported, and only one of these. |
| `PublisherProtocol.CloseKeeps` | publish/publisher.go:428-477 | Every step keeps what each stage of Close relies on. |
| `PublisherClose.NothingProducedAfterClosed` | publish/publisher.go:211-215 | Once closed is set no interleaving produces another record. |
| `PublisherClose.NothingProducedAfterFatal` | publish/publisher.go:210-226 | Once a fatal error is recorded it stays recorded, and no interleaving accepts more records than there were senders already past the check for it. |
| `PublisherClose.CloseAccountsForEveryRecord` | publish/publisher.go:428-477 | When any Close has returned, the unresolved deliveries are exactly the records dropped with the driver, all others were settled once; if there are any, the ignored Flush answer was not zero and the error says so. |
| `PublisherClose.CloseLeavesNothingUnresolved` | publish/publisher.go:450-465 | If the flush after the purge hands on every report, every delivery ever returned is settled when Close returns. |
| `PublisherClose.FlushTimeoutLeavesUnresolved` | publish/publisher.go:462-464 | If it does not, a run exists in which Close returns and a delivery stays unresolved. |
| `PublisherClose.ClosersAgree` | publish/publisher.go:428-477 | All Close callers get the same error; it is nil exactly when drain left nothing and no fatal error was reported; its fatal part is the first one. |
| `PublisherClose.CloseErrorIsFinal` | publish/publisher.go:466-476 | Once written, the close error, the events and what was done about them never change. |
| `PublisherClose.ShutdownOnlyAdvances` | publish/publisher.go:446-476 | Past draining some step of Close or of the report goroutine is always possible, Close's own steps bring it nearer its end, the report goroutine's use up what is left to read, and no other step undoes either once the driver is closed. |
| `PublisherClose.CloseCanFinish` | publish/publisher.go:428-491 | From every reachable state in which Close has begun, some run finishes it. |
| `HandleProtocol.HandleIsSafe` | internal/publish/publishdriver/producer.go:112-242 | Over every interleaving no call runs on the handle once closed is set, and it is destroyed at most once, by who set it. |
| `HandleProtocol.NoCallAfterDestroy` | internal/publish/publishdriver/producer.go:48-62 | Once destruction has begun no call is inside, every later one is refused, and nobody else can destroy. |
| `HandleProtocol.RefusedOnlyWhenClosed` | internal/publish/publishdriver/producer.go:48-62 | A call is refused only by a producer that is closed. |
| `KafkaConfig.PublisherConfig` | internal/subscribe/strategy/publisher_config.go:54-66 | The loop keeps exactly the inherited keys, with their values. |
| `KafkaConfig.InheritedPart` | internal/publish/publishdriver/managed_keys.go:39-49 | What a retry publisher inherits holds no managed key. |
| `KafkaConfig.ConnectionKeysPass` | internal/subscribe/strategy/publisher_config.go:9-66 | Every security, SASL and TLS key passes to the retry publisher. |
| `KafkaConfig.OthersDoNotPass` | internal/subscribe/strategy/publisher_config.go:9-66 | No consumer-only key, no client option and no managed key does. |
| `KafkaConfig.InFlightAsFloat` | publish/options.go:288-292 | A float limit is accepted exactly when whole and at most five, or out of int64's range. |
| `KafkaConfig.WhenInFlightIsAccepted` | publish/options.go:270-302 | The limit is accepted when absent, or an integer or its text of at most five; text that is no integer, and other values, are refused. |
| `KafkaConfig.InFlightIsInherited` | internal/subscribe/strategy/publisher_config.go:18-32 | The in-flight limit is among the inherited keys. |
| `PublisherOptions.New` | publish/publisher.go:101-113 | The loop over the options, and validation, give the fold's result or an error. |
| `PublisherOptions.WhatOptionsMean` | publish/options.go:101-205 | Accepted exactly when no option is refused; leader acks on exactly when asked for, idempotence exactly when neither option turned it off, the last map wins and has no managed key. |
| `PublisherOptions.WhenNewAccepts` | publish/publisher.go:101-113 | Accepted exactly when no option is refused, brokers are given, and the in-flight limit of the last map is fit for idempotence or idempotence was turned off. |
| `PublisherOptions.LeaderAcksMeansNoIdempotence` | publish/options.go:162-168 | Over every list of options leader acks imply idempotence off. |
| `PublisherOptions.ConfigMap` | internal/publish/publishdriver/config.go:37-67 | The caller's keys first, then the driver's own over them. |
| `PublisherOptions.EffectiveConfig` | internal/publish/publishdriver/config.go:25-67 | The effective map has what the options say of acks, idempotence, reports and timeout, and nothing of the caller's is overwritten. |
| `PublisherOptions.LastOnesCount` | publish/options.go:101-205 | Of several brokers, partitioners and delivery timeouts the last one given counts. |
| `PublisherOptions.EffectiveRest` | internal/publish/publishdriver/config.go:37-67 | The effective map has the last brokers, partitioner and delivery timeout, in milliseconds, and no report fields. |
| `PublisherOptions.JoinMeans` | internal/publish/publishdriver/config.go:37-67 | Brokers are joined in order, with one comma between any two. |
| `ConsumerOptions.New` | subscribe/subscriber.go:53-72 | The loop over the options, Validate, and a poll timeout of 100 ms where none was given. |
| `ConsumerOptions.WhenNewAccepts` | subscribe/options.go:63-203 | Accepted exactly when no option is refused, topic, brokers and group are given and handlers of exactly one kind; batch mode follows, with the last size and timeout given, else the defaults, whatever the order. |
| `ConsumerOptions.NewConsumer` | internal/subscribe/subscribedriver/consumer.go:125-231 | The driver's settings, then the caller's over them. |
| `ConsumerOptions.DriverAlone` | internal/subscribe/subscribedriver/consumer.go:170-221 | The driver's map keeps the offset store off and the assignment eager exactly if the caller's map does not say otherwise. |
| `ConsumerOptions.AcceptedConsumerIsSound` | subscribe/options.go:251-296 | Every accepted list of options keeps the offset store off and the assignment eager, and turns automatic commits on exactly when asked for. |
| `ConsumerOptions.LastOnesCount` | subscribe/options.go:63-296 | Of several topics, poll timeouts, brokers, groups and maps the last one given counts. |
| `ConsumerOptions.AcceptedConsumerStartsEarliest` | internal/subscribe/subscribedriver/consumer.go:139-221 | Whatever the options, the consumer joins the last group given on the last brokers given, and starts at the earliest record unless the last map says otherwise. |
| `ConsumerOptions.IntervalMayBeZero` | internal/subscribe/subscribedriver/consumer.go:159-168 | The commit interval in milliseconds is positive exactly when the one asked for is at least one. |
| `ConsumerOptions.RetryPublisherIsSound` | internal/subscribe/strategy/retry.go:259-276 | For every consumer map the retry publisher's options meet no managed key and fail on the map only for an in-flight limit that is unreadable or above five; acks=all, idempotence on, inherited keys in effect. |

## Left out

- librdkafka, confluent-kafka-go and the broker: replaced by the contracts above; no networking, replication, partition hashing or retention.
- Failing Assign and Unassign calls in the rebalance callback, which the source logs and hands back to librdkafka.
- Cooperative rebalancing, which the configuration excludes, and auto.offset.reset=latest, which the source documents as not at-least-once.
- The sharing of payload and header memory between a handler's message copy and the subscriber: messages are values here, so a handler that writes into them, against its contract, is not modelled.
- Fail called by several goroutines on different items of a batch: the handler's calls are a sequence.
- Connect, SubscribeToTopic and the failures before the poll loop, except for what they mean to who holds the strategy.
- Log text, error texts, stack traces and log levels: only which event happened is kept.
- Unset callbacks: a note of the settlement says that the callback ran, which reads "if one is configured".
- Formatting and parsing of the retry time, WaitUntilRetryTime, and the record timestamp.
- IEEE rounding, NaN and infinities in the backoff and in float configuration values: they are reals.
- A custom backoff function, which replaces the computed one.
- confluent-kafka-go's treatment of keys that begin with "{topic}.": they are kept under the name they are given.
- Bind, Ping, TopicPartitions, topic validation, codecs and JSONValue: I/O, or settled by one branch.
- Which options a nil function or a nil error strategy belongs to: one constructor stands for each kind.
- `RetryStrategy.Strategy.HandleError`: sends through the report goroutine's book of outcomes, not through delivery objects; where an acknowledged record lands past the end of its partition is given.
- `Publisher.Drain`: takes the answers of Len and Flush as given; that they are truthful is in module PublisherProtocol.
- Labels of the rest of the group that cannot happen at the point where a loop lets them in are passed over, so every list of labels stands for some run.
- `PublisherClose.CloseCanFinish`: while Close drains, it is the driver or the end of the context that lets it go on; the run shown has the context end.
- The playground commands, benchmarks, container helpers and the architecture test.
