/**
 * The fetched records of one partition: a list of batches, a read position in the oldest
 * batch, and a pause flag. `Queue` is that state as a value, with one function per operation;
 * `PartitionBuffer` is the object that changes it in place, proved against those functions.
 */
module PartitionBuffers {
  import opened Optional
  import opened Sequences

  datatype Queue<T> = Queue(records: seq<seq<T>>, index: nat, paused: bool)

  /** The read position lies inside the oldest batch, and is 0 when there is no batch. */
  predicate QueueValid<T>(q: Queue<T>)
  {
    if q.records == [] then q.index == 0 else q.index <= |q.records[0]|
  }

  /** The records not yet returned, oldest first. */
  function Pending<T>(q: Queue<T>): seq<T>
    requires QueueValid(q)
  {
    Flatten(q.records)[q.index..]
  }

  /** The queue holds a record that `next` would return. */
  predicate HasNext<T>(q: Queue<T>)
  {
    QueueValid(q) && !q.paused && Pending(q) != []
  }

  /** The state a new buffer starts in: no batch, not paused. */
  function Empty<T>(): (q: Queue<T>)
    ensures QueueValid(q) && Pending(q) == [] && !q.paused
  {
    Queue([], 0, false)
  }

  /** `add`: the batch is queued behind the records already there. */
  function Appended<T>(q: Queue<T>, batch: seq<T>): (q': Queue<T>)
    requires QueueValid(q)
    ensures QueueValid(q') && Pending(q') == Pending(q) + batch && q'.paused == q.paused
  {
    FlattenAppend(q.records, [batch]);
    assert Flatten([batch]) == batch;
    q.(records := q.records + [batch])
  }

  /** `pause` and `resume`: only the flag changes. */
  function WithPause<T>(q: Queue<T>, paused: bool): (q': Queue<T>)
    ensures QueueValid(q') == QueueValid(q) && q'.paused == paused
    ensures QueueValid(q) ==> Pending(q') == Pending(q)
    ensures q'.records == q.records && q'.index == q.index
  {
    q.(paused := paused)
  }

  /** `flush`: every batch is dropped, the flag is kept. */
  function Cleared<T>(q: Queue<T>): (q': Queue<T>)
    ensures QueueValid(q') && Pending(q') == [] && q'.paused == q.paused
  {
    q.(records := [], index := 0)
  }

  /**
   * The loop of `next`: leading batches read to their end are dropped (the read position
   * going back to 0) until one has a record at the read position, which is returned and
   * passed; when the last batch is dropped there is no record.
   */
  function Skip<T>(records: seq<seq<T>>, index: nat): (res: (Option<T>, seq<seq<T>>, nat))
    requires records != [] && index <= |records[0]|
    ensures QueueValid(Queue(res.1, res.2, false))
    decreases |records|
  {
    if index == |records[0]| then
      if |records| == 1 then (None, [], 0) else Skip(records[1..], 0)
    else
      (Some(records[0][index]), records, index + 1)
  }

  /**
   * The loop returns the first record at or after the read position, and afterwards exactly
   * the records after it are pending; it finds none only when there is none, and then no batch
   * is left.
   */
  lemma {:induction false} SkipReturnsFirst<T>(records: seq<seq<T>>, index: nat)
    requires records != [] && index <= |records[0]|
    ensures Skip(records, index).0.None? <==> Flatten(records)[index..] == []
    ensures Skip(records, index).0.None? ==> Skip(records, index).1 == [] && Skip(records, index).2 == 0
    ensures Skip(records, index).0.Some? ==>
      && Skip(records, index).0.value == Flatten(records)[index]
      && Flatten(Skip(records, index).1)[Skip(records, index).2..] == Flatten(records)[index + 1..]
    decreases |records|
  {
    assert Flatten(records) == records[0] + Flatten(records[1..]);
    if index == |records[0]| {
      if |records| == 1 {
        assert Flatten(records[1..]) == [];
      } else {
        assert Skip(records, index) == Skip(records[1..], 0);
        SkipReturnsFirst(records[1..], 0);
      }
    } else {
      assert Skip(records, index) == (Some(records[0][index]), records, index + 1);
      assert Flatten(records)[index + 1..] == Flatten(records)[index..][1..];
    }
  }

  /** The loop only ever drops batches from the front: what is left is a suffix of the batches. */
  lemma {:induction false} SkipDropsFront<T>(records: seq<seq<T>>, index: nat)
    requires records != [] && index <= |records[0]|
    ensures var rs := Skip(records, index).1; |rs| <= |records| && rs == records[|records| - |rs|..]
    decreases |records|
  {
    if index == |records[0]| && |records| > 1 {
      SkipDropsFront(records[1..], 0);
    }
  }

  /**
   * `next`: nothing when paused or when there is no batch; otherwise the loop above. The
   * result is the oldest pending record, and exactly that record stops being pending.
   */
  function Take<T>(q: Queue<T>): (res: (Option<T>, Queue<T>))
    requires QueueValid(q)
    ensures QueueValid(res.1) && res.1.paused == q.paused
    ensures res.0.Some? <==> HasNext(q)
    ensures res.0.Some? ==> res.0.value == Pending(q)[0] && Pending(res.1) == Pending(q)[1..]
    ensures res.0.None? ==> Pending(res.1) == Pending(q)
    ensures q.paused ==> res == (None, q)
    ensures !q.paused && Pending(q) == [] ==> res.1.records == [] && res.1.index == 0
  {
    if q.paused || q.records == [] then
      (None, q)
    else
      SkipReturnsFirst(q.records, q.index);
      var (r, records, index) := Skip(q.records, q.index);
      (r, Queue(records, index, q.paused))
  }

  /** A `next` that found nothing leaves a queue on which `next` again finds nothing and changes nothing. */
  lemma TakeNothingAgain<T>(q: Queue<T>)
    requires QueueValid(q) && Take(q).0.None?
    ensures Take(Take(q).1) == (None, Take(q).1)
  {
    if !q.paused && q.records != [] {
      SkipReturnsFirst(q.records, q.index);
    }
  }

  /** Taking every pending record one call at a time returns them in order, then nothing. */
  lemma {:induction false} TakeDrains<T>(q: Queue<T>, n: nat)
    requires QueueValid(q) && !q.paused && n <= |Pending(q)|
    ensures QueueValid(TakeN(q, n)) && Pending(TakeN(q, n)) == Pending(q)[n..]
    decreases n
  {
    if n > 0 {
      TakeDrains(Take(q).1, n - 1);
    }
  }

  /** The queue after `n` calls of `next`. */
  function TakeN<T>(q: Queue<T>, n: nat): Queue<T>
    requires QueueValid(q)
    decreases n
  {
    if n == 0 then q else TakeN(Take(q).1, n - 1)
  }

  class PartitionBuffer<T> {
    var records: seq<seq<T>>
    var index: nat
    var paused: bool

    ghost function State(): Queue<T>
      reads this
    {
      Queue(records, index, paused)
    }

    ghost predicate Valid()
      reads this
    {
      QueueValid(State())
    }

    /** A buffer holding `batch`, not paused. */
    constructor (batch: seq<T>)
      ensures Valid() && State() == Appended(Empty(), batch)
    {
      records := [];
      index := 0;
      paused := false;
      new;
      Add(batch);
    }

    method Add(batch: seq<T>)
      requires Valid()
      modifies this
      ensures Valid() && State() == Appended(old(State()), batch)
    {
      records := records + [batch];
    }

    method Pause()
      requires Valid()
      modifies this
      ensures Valid() && State() == WithPause(old(State()), true)
    {
      paused := true;
    }

    method Resume()
      requires Valid()
      modifies this
      ensures Valid() && State() == WithPause(old(State()), false)
    {
      paused := false;
    }

    method Flush()
      requires Valid()
      modifies this
      ensures Valid() && State() == Cleared(old(State()))
    {
      records := [];
      index := 0;
    }

    /** Returns the oldest pending record, or None when paused or when there is none. */
    method Next() returns (r: Option<T>)
      requires Valid()
      modifies this
      ensures Valid() && (r, State()) == Take(old(State()))
    {
      if paused {
        return None;
      }
      if records == [] {
        return None;
      }
      var list := records[0];
      while index == |list|
        invariant records != [] && list == records[0] && index <= |list| && !paused
        invariant Skip(records, index) == Skip(old(records), old(index))
        decreases |records|
      {
        assert Skip(records, index) == if |records| == 1 then (None, [], 0) else Skip(records[1..], 0);
        records := records[1..];
        index := 0;
        if records == [] {
          return None;
        }
        list := records[0];
      }
      assert Skip(records, index) == (Some(list[index]), records, index + 1);
      r := Some(list[index]);
      index := index + 1;
    }
  }
}
