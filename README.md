# Consumer record buffer

A Dafny model of the record buffer that the Vert.x Kafka consumer keeps between a poll and
the handlers. The buffer holds the fetched records per partition and hands them out one at a
time.

- **Per-partition buffer** (`PartitionBuffer`). A queue of record batches, a read position in
  the oldest batch and a pause flag.
  - `add` queues a batch.
  - `pause` and `resume` set the flag.
  - `flush` drops every batch.
  - `next` returns null when paused. Otherwise it drops the batches that have been read to
    their end and returns the record at the read position.
- **Buffer** (`Buffer`). A hash table from partition to partition buffer, a key iterator and
  the current key.
  - `add` creates a partition's buffer on first use.
  - `pause`, `resume` and `flush` work on one partition or on a list of partitions.
  - `next` stays on the current partition while it has records. Otherwise it moves the key
    iterator on, renewing the iterator when it is used up. It gives up with null when it comes
    back to the key it started from.

The model has five files:

- `optional.dfy`: `Option`, standing for a nullable result.
- `sequences.dfy`: `Flatten` and facts about sequences without repetitions. It also has
  `HashOrder`, the stand-in for the unpredictable iteration order of the hash table.
- `partition.dfy`:
  - `Queue`, a value holding a partition buffer's state;
  - one function per operation (`Empty`, `Appended`, `WithPause`, `Cleared`, `Take`);
  - the class `PartitionBuffer`, whose methods change its fields in place and are proved
    against those functions.

  The contents of a partition buffer are `Pending(q)`: the flattened batches from the read
  position on.
- `buffer.dfy`: the class `Buffer`, with these fields:
  - `buffers`, the queue of each known partition;
  - `keys`, the order in which a fresh key iterator visits the partitions, re-chosen
    arbitrarily by `HashOrder` whenever a partition is added;
  - `rest`, the keys the live iterator has still to return;
  - `currentKey`.

  `next` is the loop `Scan`, run by `NextRecord` on the values of the fields. It is proved
  against the predicate `NextOutcome`, and the lemmas beside it draw the consequences:
  - only the partition a record comes from loses a record; every other partition keeps its
    pending records and its flag (a partition looked at may still drop batches read to
    their end);
  - the iterator stays on that partition;
  - the loop stops when it comes back to the start key, after at most as many moves as the
    iterator had keys left plus the number of partitions; when the iterator is in step with
    the key order, that is after looking at each partition exactly once;
  - the loop finds a record exactly when some partition has one, whenever the iterator is in
    step with the key order.
- `scenarios.dfy`: the unit-test scenarios, replayed as methods whose postconditions are the
  expected results. They hold for every key order the hash table could choose, unless stated
  otherwise. It also has the scenario behind the finding below.

## Model

| member | source | states |
|---|---|---|
| Sequences.HashOrder | src/main/java/io/vertx/kafka/client/consumer/impl/Buffer.java:87 | the iteration order of the key set lists every known partition exactly once, and nothing else |
| PartitionBuffers.Empty | src/main/java/io/vertx/kafka/client/consumer/impl/Buffer.java:32-37 | a buffer starts consistent, with no pending record, not paused |
| PartitionBuffers.Appended | src/main/java/io/vertx/kafka/client/consumer/impl/Buffer.java:40-42 | `add` puts the batch behind the pending records, so an empty batch changes nothing; the flag is kept |
| PartitionBuffers.WithPause | src/main/java/io/vertx/kafka/client/consumer/impl/Buffer.java:44-50 | `pause` and `resume` change only the flag: the pending records and the read position stay as they were |
| PartitionBuffers.Cleared | src/main/java/io/vertx/kafka/client/consumer/impl/Buffer.java:52-55 | `flush` leaves no pending record and keeps the flag |
| PartitionBuffers.Skip | src/main/java/io/vertx/kafka/client/consumer/impl/Buffer.java:68-77 | the eviction loop ends with the read position inside the oldest batch, so the read is in range |
| PartitionBuffers.SkipReturnsFirst | src/main/java/io/vertx/kafka/client/consumer/impl/Buffer.java:68-78 | the loop returns the first record at or after the read position, and afterwards exactly the later records are pending; it finds none exactly when none is pending, and then no batch is left |
| PartitionBuffers.SkipDropsFront | src/main/java/io/vertx/kafka/client/consumer/impl/Buffer.java:69-75 | the loop only removes batches from the front |
| PartitionBuffers.Take | src/main/java/io/vertx/kafka/client/consumer/impl/Buffer.java:61-79 | `next` returns a record exactly when the buffer is unpaused with records pending; the record is the oldest pending one and exactly it stops being pending; otherwise nothing pending changes, and the flag never does; a paused buffer is left exactly as it was, and an unpaused one with nothing pending ends with no batch and read position 0 |
| PartitionBuffers.TakeNothingAgain | src/main/java/io/vertx/kafka/client/consumer/impl/Buffer.java:61-79 | after a `next` that found nothing, `next` again finds nothing and changes nothing |
| PartitionBuffers.TakeDrains | src/main/java/io/vertx/kafka/client/consumer/impl/Buffer.java:61-79 | `n` calls of `next` on an unpaused buffer consume exactly the `n` oldest pending records |
| PartitionBuffers.PartitionBuffer.constructor | src/main/java/io/vertx/kafka/client/consumer/impl/Buffer.java:36-39 | a new buffer holds exactly the given batch, unpaused |
| PartitionBuffers.PartitionBuffer.Add | src/main/java/io/vertx/kafka/client/consumer/impl/Buffer.java:40-42 | the new state is `Appended` of the old one |
| PartitionBuffers.PartitionBuffer.Pause | src/main/java/io/vertx/kafka/client/consumer/impl/Buffer.java:44-46 | the new state is the old one paused |
| PartitionBuffers.PartitionBuffer.Resume | src/main/java/io/vertx/kafka/client/consumer/impl/Buffer.java:48-50 | the new state is the old one unpaused |
| PartitionBuffers.PartitionBuffer.Flush | src/main/java/io/vertx/kafka/client/consumer/impl/Buffer.java:52-55 | the new state is `Cleared` of the old one |
| PartitionBuffers.PartitionBuffer.Next | src/main/java/io/vertx/kafka/client/consumer/impl/Buffer.java:61-79 | the eviction loop in place computes `Take`: same record, same new state, and the state stays consistent |
| ConsumerBuffer.FirstReady | src/main/java/io/vertx/kafka/client/consumer/impl/Buffer.java:126-134 | the position where the scan stops: a partition with a record, and none before it has one |
| ConsumerBuffer.FirstReadyFinds | src/main/java/io/vertx/kafka/client/consumer/impl/Buffer.java:126-134 | the scan stops inside its order exactly when the order lists a partition with a record |
| ConsumerBuffer.FirstReadyAt | src/main/java/io/vertx/kafka/client/consumer/impl/Buffer.java:126-134 | a partition with a record, with none before it, is where the scan stops |
| ConsumerBuffer.IteratorMoves | src/main/java/io/vertx/kafka/client/consumer/impl/Buffer.java:127-130 | one move of the key iterator, renewed when used up, yields the next key of the scan order, then the start key again |
| ConsumerBuffer.VisitTakes | src/main/java/io/vertx/kafka/client/consumer/impl/Buffer.java:126 | looking at a partition takes its oldest record exactly when it is unpaused with records pending, and changes nothing else |
| ConsumerBuffer.VisitNext | src/main/java/io/vertx/kafka/client/consumer/impl/Buffer.java:126-130 | looking at the next key of the order finds a record exactly when it is the first ready key; only looked-at partitions change |
| ConsumerBuffer.ScanFirst | src/main/java/io/vertx/kafka/client/consumer/impl/Buffer.java:124-126 | the loop invariant holds after the start key has been looked at |
| ConsumerBuffer.ScanMove | src/main/java/io/vertx/kafka/client/consumer/impl/Buffer.java:127-133 | the key the iterator moves to is the start key exactly when every key of the order has been looked at, and then the scan ends with nothing found |
| ConsumerBuffer.ScanEnds | src/main/java/io/vertx/kafka/client/consumer/impl/Buffer.java:130-133 | coming back to the start key ends the scan without a record, the iterator on the start key |
| ConsumerBuffer.ScanAhead | src/main/java/io/vertx/kafka/client/consumer/impl/Buffer.java:127-130 | short of the start key, the iterator moves to the next key of the order and keeps no repetition |
| ConsumerBuffer.ScanVisit | src/main/java/io/vertx/kafka/client/consumer/impl/Buffer.java:126-133 | one turn of the loop keeps the loop invariant |
| ConsumerBuffer.ScanFound | src/main/java/io/vertx/kafka/client/consumer/impl/Buffer.java:126-135 | the loop ends with a record at the first ready key, and no later key was looked at |
| ConsumerBuffer.ScanKeepsKeys | src/main/java/io/vertx/kafka/client/consumer/impl/Buffer.java:126-134 | a scan neither adds nor removes partitions, and leaves every queue consistent |
| ConsumerBuffer.ScanStaysInStep | src/main/java/io/vertx/kafka/client/consumer/impl/Buffer.java:126-134 | a scan that starts in step with the key order leaves the iterator holding exactly the keys after the one it stands on |
| ConsumerBuffer.ScanFindsAny | src/main/java/io/vertx/kafka/client/consumer/impl/Buffer.java:126-134 | a scan that starts in step with the key order finds a record exactly when some partition has one |
| ConsumerBuffer.RotatedScan | src/main/java/io/vertx/kafka/client/consumer/impl/Buffer.java:127-130 | the scan order that starts at the current key and wraps around lists each partition once |
| ConsumerBuffer.InStepAfterScan | src/main/java/io/vertx/kafka/client/consumer/impl/Buffer.java:127-130 | wherever the scan stops, what the iterator has left is the key order after the key it stands on |
| ConsumerBuffer.Scan | src/main/java/io/vertx/kafka/client/consumer/impl/Buffer.java:124-135 | the loop: the result, the queues and the iterator are as `Scanned` describes, and the iterator keeps no repetition |
| ConsumerBuffer.NextRecord | src/main/java/io/vertx/kafka/client/consumer/impl/Buffer.java:116-136 | `next` on the field values meets `NextOutcome`: with no partition it returns null at once and changes nothing; otherwise it scans from the current key or, without one, the first key of a fresh iterator |
| ConsumerBuffer.NextTakesOne | src/main/java/io/vertx/kafka/client/consumer/impl/Buffer.java:116-136 | a record `next` returns is the oldest pending record of a ready partition, only that queue loses it, and the iterator stays on that partition; without a record no queue loses anything and the iterator is back on the start key |
| ConsumerBuffer.NextFirstReady | src/main/java/io/vertx/kafka/client/consumer/impl/Buffer.java:124-135 | `next` takes the oldest record of the first ready key of its scan order and stays on it, so a current key with records keeps being drained |
| ConsumerBuffer.NextNoneReady | src/main/java/io/vertx/kafka/client/consumer/impl/Buffer.java:126-135 | with no ready key in its order, `next` returns null on coming back to the start key, after at most as many moves as the iterator had keys left plus the number of partitions; it changes no pending record and stands on the start key |
| ConsumerBuffer.NextInStepFinds | src/main/java/io/vertx/kafka/client/consumer/impl/Buffer.java:116-136 | from an iterator in step with the key order, `next` returns null exactly when every partition is paused or empty, and leaves the iterator in step |
| ConsumerBuffer.NextRecordInStep | src/main/java/io/vertx/kafka/client/consumer/impl/Buffer.java:116-136 | the corrected `next`: it first puts the iterator back in step, then returns a record exactly when some partition has one, taken as `NextTakesOne` says |
| ConsumerBuffer.PausedAll | src/main/java/io/vertx/kafka/client/consumer/impl/Buffer.java:149-159 | pausing or resuming a list of partitions sets the flag of exactly those partitions and changes nothing else |
| ConsumerBuffer.FlushedAll | src/main/java/io/vertx/kafka/client/consumer/impl/Buffer.java:143-147 | flushing a list of partitions empties exactly those partitions and keeps every flag |
| ConsumerBuffer.PausedAllStep | src/main/java/io/vertx/kafka/client/consumer/impl/Buffer.java:149-159 | pausing one more partition of the list is one single-key `pause` |
| ConsumerBuffer.FlushedAllStep | src/main/java/io/vertx/kafka/client/consumer/impl/Buffer.java:143-147 | flushing one more partition of the list is one single-key `flush` |
| ConsumerBuffer.Buffer.constructor | src/main/java/io/vertx/kafka/client/consumer/impl/Buffer.java:87-89 | a new buffer knows no partition and has no current key |
| ConsumerBuffer.Buffer.Add | src/main/java/io/vertx/kafka/client/consumer/impl/Buffer.java:91-98 | a new partition gets an unpaused queue holding the batch; a known one gets the batch behind its pending records; no other queue changes |
| ConsumerBuffer.Buffer.Pause | src/main/java/io/vertx/kafka/client/consumer/impl/Buffer.java:100-102 | only the flag of that partition is set |
| ConsumerBuffer.Buffer.Resume | src/main/java/io/vertx/kafka/client/consumer/impl/Buffer.java:104-106 | only the flag of that partition is cleared |
| ConsumerBuffer.Buffer.Flush | src/main/java/io/vertx/kafka/client/consumer/impl/Buffer.java:108-110 | only that partition is emptied |
| ConsumerBuffer.Buffer.Next | src/main/java/io/vertx/kafka/client/consumer/impl/Buffer.java:116-136 | the new queues, current key and iterator meet `NextOutcome`; the key order is unchanged |
| ConsumerBuffer.Buffer.NextInStep | src/main/java/io/vertx/kafka/client/consumer/impl/Buffer.java:116-136 | the corrected `next`: null exactly when every partition is paused or empty; otherwise the oldest record of a ready partition, which becomes current |
| ConsumerBuffer.Buffer.PauseAll | src/main/java/io/vertx/kafka/client/consumer/impl/Buffer.java:155-159 | the loop applies single-key `pause` to each listed partition in order, ending in `PausedAll` |
| ConsumerBuffer.Buffer.ResumeAll | src/main/java/io/vertx/kafka/client/consumer/impl/Buffer.java:149-153 | the loop applies single-key `resume` to each listed partition in order |
| ConsumerBuffer.Buffer.FlushAll | src/main/java/io/vertx/kafka/client/consumer/impl/Buffer.java:143-147 | the loop applies single-key `flush` to each listed partition in order, ending in `FlushedAll` |
| ConsumerBufferScenarios.PartitionBufferReplay | src/test/java/io/vertx/kafka/client/consumer/impl/ConsumerBufferTest.java:16-46 | the partition buffer returns null, null, 1, null, 2, 3, null, 4, 5, null, 7, 8, null (paused), 9 (resumed), null (flushed) |
| ConsumerBufferScenarios.SingleRecords | src/test/java/io/vertx/kafka/client/consumer/impl/ConsumerBufferTest.java:17-23 | an empty batch yields nothing; a one-record batch yields its record once |
| ConsumerBufferScenarios.BatchesInOrder | src/test/java/io/vertx/kafka/client/consumer/impl/ConsumerBufferTest.java:25-34 | batches are returned in the order they were added, then null |
| ConsumerBufferScenarios.PauseResumeFlush | src/test/java/io/vertx/kafka/client/consumer/impl/ConsumerBufferTest.java:36-45 | a pause holds back 9, the resume releases it, the flush drops 10 |
| ConsumerBufferScenarios.TwoKeys | src/test/java/io/vertx/kafka/client/consumer/impl/ConsumerBufferTest.java:50-54 | two partitions are iterated in one of their two orders |
| ConsumerBufferScenarios.TwoScanOrder | src/main/java/io/vertx/kafka/client/consumer/impl/Buffer.java:124-130 | on two partitions the scan looks at the current key, then at the other one |
| ConsumerBufferScenarios.TwoTakes | src/main/java/io/vertx/kafka/client/consumer/impl/Buffer.java:116-136 | on two partitions `next` takes the head of the first ready one of the current and the other, and stays on it |
| ConsumerBufferScenarios.TwoFirst | src/main/java/io/vertx/kafka/client/consumer/impl/Buffer.java:124-135 | where the iterator stands and which record is taken, on two partitions |
| ConsumerBufferScenarios.TwoRest | src/main/java/io/vertx/kafka/client/consumer/impl/Buffer.java:127-130 | what the iterator has left after moving on two partitions |
| ConsumerBufferScenarios.TwoTaken | src/main/java/io/vertx/kafka/client/consumer/impl/Buffer.java:126 | the record taken from one of two partitions is its head, and only that queue loses it |
| ConsumerBufferScenarios.TwoNone | src/main/java/io/vertx/kafka/client/consumer/impl/Buffer.java:126-135 | with neither partition ready, `next` returns null and stands on the start key |
| ConsumerBufferScenarios.TwoUntouched | src/main/java/io/vertx/kafka/client/consumer/impl/Buffer.java:126-135 | a `next` that finds nothing changes no pending record and no flag |
| ConsumerBufferScenarios.NewTwo | src/test/java/io/vertx/kafka/client/consumer/impl/ConsumerBufferTest.java:50-54 | a new buffer given one batch for each of two partitions holds both, in one of the two key orders, with no current key |
| ConsumerBufferScenarios.NextOfTwo | src/main/java/io/vertx/kafka/client/consumer/impl/Buffer.java:116-136 | `next` on two partitions: the record and the new state as `TwoPick` chooses |
| ConsumerBufferScenarios.AddOfTwo | src/main/java/io/vertx/kafka/client/consumer/impl/Buffer.java:91-98 | `add` on two partitions extends that partition's pending records |
| ConsumerBufferScenarios.PauseOfTwo | src/main/java/io/vertx/kafka/client/consumer/impl/Buffer.java:100-106 | `pause` or `resume` on two partitions sets only that flag |
| ConsumerBufferScenarios.FlushOfTwo | src/main/java/io/vertx/kafka/client/consumer/impl/Buffer.java:108-110 | `flush` on two partitions empties only that partition |
| ConsumerBufferScenarios.DrainBoth | src/test/java/io/vertx/kafka/client/consumer/impl/ConsumerBufferTest.java:55-67 | two partitions are drained completely one after the other, then null |
| ConsumerBufferScenarios.DrainFirst | src/test/java/io/vertx/kafka/client/consumer/impl/ConsumerBufferTest.java:55-60 | the first partition is drained while the iterator stays on it |
| ConsumerBufferScenarios.DrainSecond | src/test/java/io/vertx/kafka/client/consumer/impl/ConsumerBufferTest.java:61-66 | then the iterator moves to the second partition and drains it |
| ConsumerBufferScenarios.ConsumerBufferNextReplay | src/test/java/io/vertx/kafka/client/consumer/impl/ConsumerBufferTest.java:49-68 | 20 to 25, then 90 to 95, then null, when partition 0 is iterated first; the mirror image otherwise |
| ConsumerBufferScenarios.ConsumerBufferAddReplay | src/test/java/io/vertx/kafka/client/consumer/impl/ConsumerBufferTest.java:71-92 | 20, 21, 22, 90, 91, 92, 93, 94, 95, 23, 24, 25, null |
| ConsumerBufferScenarios.SecondBatches | src/test/java/io/vertx/kafka/client/consumer/impl/ConsumerBufferTest.java:82-84 | a batch added to the current partition is returned before the other partition's new batch |
| ConsumerBufferScenarios.SecondRound | src/test/java/io/vertx/kafka/client/consumer/impl/ConsumerBufferTest.java:85-91 | 93, 94, 95, 23, 24, 25, null |
| ConsumerBufferScenarios.ConsumerBufferPauseReplay | src/test/java/io/vertx/kafka/client/consumer/impl/ConsumerBufferTest.java:95-118 | 20, 90, 91, 92, 93, 94, 95, 21, 22, 23, 24, 25, null: the records held back by the pause are neither lost nor repeated |
| ConsumerBufferScenarios.PauseMiddle | src/test/java/io/vertx/kafka/client/consumer/impl/ConsumerBufferTest.java:106-108 | a record between the second batches of the two partitions |
| ConsumerBufferScenarios.PauseRound | src/test/java/io/vertx/kafka/client/consumer/impl/ConsumerBufferTest.java:109-117 | 93, 94, 95, 21, 22, 23, 24, 25, null |
| ConsumerBufferScenarios.ConsumerBufferFlushReplay | src/test/java/io/vertx/kafka/client/consumer/impl/ConsumerBufferTest.java:121-141 | 20, 90, 91, 92, 93, 94, 95, 23, 24, 25, null: the flushed 21 and 22 never appear |
| ConsumerBufferScenarios.ReorderedScan | src/main/java/io/vertx/kafka/client/consumer/impl/Buffer.java:127-131 | out of step with a re-chosen key order, the scan can look at a partition twice before it meets the start key, staying within the bound of `NextNoneReady` |
| ConsumerBufferScenarios.StaleIteratorReplay | src/main/java/io/vertx/kafka/client/consumer/impl/Buffer.java:116-136 | the finding below, as written: after 20, the call following the new partition's 90 returns null when partition 0 is iterated first, and 90 only one call later |
| ConsumerBufferScenarios.SecondPartition | src/main/java/io/vertx/kafka/client/consumer/impl/Buffer.java:91-98 | a partition added later gets its own queue; the key iterator and the current key do not move |
| ConsumerBufferScenarios.FirstRecord | src/main/java/io/vertx/kafka/client/consumer/impl/Buffer.java:116-126 | the first `next` on one partition takes a fresh iterator, returns 20 and leaves the used-up iterator on partition 0 |
| ConsumerBufferScenarios.AfterNewPartitionFirst | src/main/java/io/vertx/kafka/client/consumer/impl/Buffer.java:126-134 | null, then 90, when partition 0 is iterated first |
| ConsumerBufferScenarios.StaleScan | src/main/java/io/vertx/kafka/client/consumer/impl/Buffer.java:126-134 | the renewed iterator meets partition 0 first, so the scan stops without looking at partition 1 |
| ConsumerBufferScenarios.AfterNewPartitionLast | src/main/java/io/vertx/kafka/client/consumer/impl/Buffer.java:126-134 | 90, then null, when partition 1 is iterated first |
| ConsumerBufferScenarios.ResyncedReplay | src/main/java/io/vertx/kafka/client/consumer/impl/Buffer.java:116-136 | with the corrected `next`, the same calls return 20, 90, null in either key order |
| ConsumerBufferScenarios.ResyncedCalls | src/main/java/io/vertx/kafka/client/consumer/impl/Buffer.java:116-136 | the corrected `next` returns 90, then null |
| ConsumerBufferScenarios.ResyncedFinds | src/main/java/io/vertx/kafka/client/consumer/impl/Buffer.java:116-136 | only partition 1 is ready, so the corrected `next` takes 90 from it and leaves nothing ready |

## Left out

- Concurrency is not modelled: the thread safety of the `ConcurrentHashMap`, the visibility
  of the `volatile` pause flag, and `add` or `flush` racing with `next`. Every operation is
  atomic and sequential.
- Weakly consistent iterators are not modelled. A key iterator is a snapshot of the key order
  taken when it is created (`rest`). It does not see partitions added later, which is also
  what a hash-table iterator that has run past their bucket does.
- The iteration order of the hash table is not predictable. `keys` is re-chosen arbitrarily
  (`HashOrder`) whenever a partition appears, and the scenarios are proved for every order
  the table could choose. The add, pause and flush scenarios rely on partition 0 being
  iterated first, as the unit tests do, and take that as a precondition.
- The key iterator is a sequence of remaining keys, not an index into the key order: after
  the order is re-chosen, the live iterator keeps the snapshot it was created from.
- The partition buffers in the hash table are `Queue` values, not `PartitionBuffer` objects.
  `Buffer` never lets a partition buffer escape, so no aliasing can be observed. The class
  `PartitionBuffer` is modelled on its own and proved against the same functions.
- Pause, Resume and Flush on an unknown partition fail with a null-pointer exception. The
  model makes a known partition a precondition of these and of the bulk operations.
- Null records inside a batch are not modelled. A caller of `next` could not tell them from
  "no record".
- The 32-bit `int` read position is not modelled as a bounded integer: a batch has fewer
  than 2^31 records.
- The `toString` methods only produce diagnostics and are not modelled.
- The JSON serializer of the client is a wrapper over a library call and is not part of this
  model.
- ConsumerBuffer.Buffer.Next: the claim "returns null only when every partition is paused or
  empty" is proved only from a key iterator in step with the key order
  (`NextInStepFinds`); as written, `next` breaks it (see Findings).
- ConsumerBuffer.Buffer.Next: "each partition is looked at at most once per call" is proved
  only from a key iterator in step with the key order (`RotatedScan`). Once a new partition
  has re-chosen the key order under a live iterator, the scan order can repeat partitions:
  with `keys == [3, 2, 1, 0]`, current key 0 and `[1, 2]` left, it is `[0, 1, 2, 3, 2, 1]`
  (`ConsumerBufferScenarios.ReorderedScan`). In general only the bound of `NextNoneReady`
  holds: at most as many moves as the iterator had keys left plus the number of partitions.
- Batches are stored as values. The source keeps the caller's list object, so a caller that
  changed the list after `add` would change what `next` returns; the model assumes, as the
  source's comment on the batch list does, that batches are unmodifiable.

## Findings

| source | as written | input that shows it | evidently intended | confidence | as-written member | corrected member |
|---|---|---|---|---|---|---|
| src/main/java/io/vertx/kafka/client/consumer/impl/Buffer.java:126-134 | `next` keeps a key iterator across calls. When the iterator has been used up on the current key, the next call renews it; if the renewed iterator returns the start key first, the loop stops with null without looking at the partitions added since | add(0, [20]); next() returns 20, the iterator is used up on partition 0; add(1, [90]); with partition 0 iterated first, next() returns null although 90 is pending, and only the call after it returns 90 | `next` returns null only when every partition is paused or empty (the full-cycle check) | not executed | ConsumerBufferScenarios.StaleIteratorReplay | ConsumerBuffer.Buffer.NextInStep |
