/**
 * The consumer's record buffer: one queue per partition, drained one record at a time,
 * partition after partition, each partition paused, resumed or flushed on its own.
 */
module ConsumerBuffer {
  import opened Optional
  import opened Sequences
  import opened PartitionBuffers

  /** `k` is a known partition whose queue has a record for `next`. */
  predicate Ready<P, R>(buffers: map<P, Queue<R>>, k: P)
  {
    k in buffers && HasNext(buffers[k])
  }

  /** The position of the first ready partition of `order`, or |order| when none is ready. */
  function FirstReady<P, R>(order: seq<P>, buffers: map<P, Queue<R>>): (f: nat)
    ensures f <= |order|
    ensures f < |order| ==> Ready(buffers, order[f])
    ensures forall i :: 0 <= i < f ==> !Ready(buffers, order[i])
  {
    if order == [] then 0
    else if Ready(buffers, order[0]) then 0
    else 1 + FirstReady(order[1..], buffers)
  }

  /** A ready partition is found exactly when `order` lists one. */
  lemma {:induction false} FirstReadyFinds<P, R>(order: seq<P>, buffers: map<P, Queue<R>>)
    ensures FirstReady(order, buffers) < |order| <==> exists k :: k in order && Ready(buffers, k)
  {
    if order != [] && !Ready(buffers, order[0]) {
      FirstReadyFinds(order[1..], buffers);
      assert forall k :: k in order <==> k == order[0] || k in order[1..];
    }
  }

  /**
   * The keys the key iterator has still to return are distinct known partitions, and the
   * current key is a known partition that is not among them.
   */
  predicate CursorWithin<P>(known: set<P>, rest: seq<P>, current: Option<P>)
  {
    && Distinct(rest) && (forall k :: k in rest ==> k in known)
    && (current.Some? ==> current.value in known && current.value !in rest)
  }

  /**
   * What the key iterator has still to return after it has moved `moves` times on from the
   * start key: first what its own keys had left (`upcoming`), then, once those are used up,
   * what is left of a fresh iterator over `keys`.
   */
  function IteratorRest<P>(upcoming: seq<P>, keys: seq<P>, moves: nat): seq<P>
    requires moves <= |upcoming| + |keys|
  {
    if moves <= |upcoming| then upcoming[moves..] else keys[moves - |upcoming|..]
  }

  /**
   * One move of the key iterator in `next` (renewing it when it has nothing left) yields the
   * next key of `order`, or the start key again once `order` is used up.
   */
  lemma IteratorMoves<P>(order: seq<P>, upcoming: seq<P>, keys: seq<P>, j: nat, m: nat)
    requires j < |keys| && order == [keys[j]] + upcoming + keys[..j] && m < |order|
    ensures var it := IteratorRest(upcoming, keys, m);
      var renewed := if it == [] then keys else it;
      && renewed != []
      && renewed[0] == (if m + 1 < |order| then order[m + 1] else keys[j])
      && renewed[1..] == IteratorRest(upcoming, keys, m + 1)
  {
    if m < |upcoming| {
      assert upcoming[m..][0] == order[m + 1];
    } else if m > |upcoming| && m + 1 < |order| {
      assert order[m + 1] == keys[..j][m - |upcoming|];
    }
  }

  /**
   * The queues after `next`, when `taken` names the partition a record was taken from (None
   * when there was no record): that partition's oldest pending record is gone, every other
   * queue keeps its pending records, and no flag changes.
   */
  ghost predicate RecordsTaken<P, R>(before: map<P, Queue<R>>, after: map<P, Queue<R>>, taken: Option<P>)
  {
    && after.Keys == before.Keys
    && (taken.Some? ==> Ready(before, taken.value))
    && (forall k :: k in before ==>
         QueueValid(before[k]) && QueueValid(after[k]) && after[k].paused == before[k].paused)
    && (taken.Some? ==> Pending(after[taken.value]) == Pending(before[taken.value])[1..])
    && (forall k :: k in before && Some(k) != taken ==> Pending(after[k]) == Pending(before[k]))
  }

  /**
   * The outcome of `next` scanning partitions in `order` (whose first key is where the key
   * iterator stands, followed by `upcoming` and then by a fresh iterator over `keys`): the first
   * ready partition supplies its oldest pending record and the iterator stays on it; when none
   * is ready the result is None and the iterator is back on the first key. Only the queues of
   * the partitions looked at can change.
   */
  ghost predicate Scanned<P, R>(order: seq<P>, upcoming: seq<P>, keys: seq<P>,
                                before: map<P, Queue<R>>, after: map<P, Queue<R>>,
                                r: Option<R>, current: Option<P>, rest: seq<P>)
  {
    var f := FirstReady(order, before);
    var moves := if f < |order| then f else |order|;
    var seen := if f < |order| then f + 1 else |order|;
    && order != []
    && moves <= |upcoming| + |keys|
    && current == Some(if f < |order| then order[f] else order[0])
    && rest == IteratorRest(upcoming, keys, moves)
    && (f < |order| ==> r == Some(Pending(before[order[f]])[0]) && RecordsTaken(before, after, Some(order[f])))
    && (f == |order| ==> r == None && RecordsTaken(before, after, None))
    && forall k :: k in before && k !in order[..seen] ==> after[k] == before[k]
  }

  /**
   * Where `next` scans from: the start key `keys[j]`, the keys `upcoming` its key iterator has
   * left, then a fresh iterator up to the start key.
   */
  ghost predicate ScanShape<P, R>(order: seq<P>, upcoming: seq<P>, keys: seq<P>, j: nat, before: map<P, Queue<R>>)
  {
    && j < |keys|
    && order == [keys[j]] + upcoming + keys[..j]
    && Enumerates(keys, before.Keys)
    && CursorWithin(before.Keys, upcoming, Some(keys[j]))
    && (forall k :: k in before ==> QueueValid(before[k]))
  }

  /**
   * The state of `next`'s loop once it has looked at the keys `order[..moves + 1]`: it stands
   * on the last of them, and has found a record exactly when that key is the first ready one.
   */
  ghost predicate Scanning<P, R>(order: seq<P>, upcoming: seq<P>, keys: seq<P>,
                                 before: map<P, Queue<R>>, after: map<P, Queue<R>>,
                                 r: Option<R>, current: Option<P>, rest: seq<P>, moves: nat)
  {
    var f := FirstReady(order, before);
    && moves < |order| && moves <= |upcoming| + |keys|
    && current == Some(order[moves])
    && rest == IteratorRest(upcoming, keys, moves)
    && CursorWithin(before.Keys, rest, current)
    && (r.None? ==> moves < f && RecordsTaken(before, after, None))
    && (r.Some? ==> moves == f && r == Some(Pending(before[order[f]])[0]))
    && (r.Some? ==> RecordsTaken(before, after, Some(order[f])))
    && forall k :: k in before && k !in order[..moves + 1] ==> after[k] == before[k]
  }

  /** Looking at the next key of `order` after nothing was found so far. */
  lemma VisitNext<P, R>(order: seq<P>, before: map<P, Queue<R>>, after: map<P, Queue<R>>, moves: nat,
                        after': map<P, Queue<R>>, r': Option<R>)
    requires moves + 1 < |order| && order[moves + 1] in after
    requires moves < FirstReady(order, before) && RecordsTaken(before, after, None)
    requires forall k :: k in before && k !in order[..moves + 1] ==> after[k] == before[k]
    requires after' == after[order[moves + 1] := Take(after[order[moves + 1]]).1]
    requires r' == Take(after[order[moves + 1]]).0
    ensures var f := FirstReady(order, before);
      && (r'.None? ==> moves + 1 < f && RecordsTaken(before, after', None))
      && (r'.Some? ==> moves + 1 == f && r' == Some(Pending(before[order[f]])[0]))
      && (r'.Some? ==> RecordsTaken(before, after', Some(order[f])))
      && forall k :: k in before && k !in order[..moves + 2] ==> after'[k] == before[k]
  {
    var c := order[moves + 1];
    var f := FirstReady(order, before);
    VisitTakes(before, after, c);
    if Ready(before, c) {
      assert f == moves + 1;
    } else {
      assert f != moves + 1;
    }
    PrefixGrows(order, moves + 1);
  }

  /** Looking at one partition before any record was taken takes its oldest record if it is ready. */
  lemma VisitTakes<P, R>(before: map<P, Queue<R>>, after: map<P, Queue<R>>, c: P)
    requires RecordsTaken(before, after, None) && c in before
    ensures var taken := if Ready(before, c) then Some(c) else None;
      RecordsTaken(before, after[c := Take(after[c]).1], taken)
    ensures Take(after[c]).0 == if Ready(before, c) then Some(Pending(before[c])[0]) else None
  {
    assert HasNext(after[c]) == Ready(before, c);
  }

  /** The loop starts after `next` has looked at the start key. */
  lemma ScanFirst<P, R>(order: seq<P>, upcoming: seq<P>, keys: seq<P>, j: nat,
                        before: map<P, Queue<R>>, after: map<P, Queue<R>>, r: Option<R>)
    requires ScanShape(order, upcoming, keys, j, before)
    requires after == before[keys[j] := Take(before[keys[j]]).1] && r == Take(before[keys[j]]).0
    ensures Scanning(order, upcoming, keys, before, after, r, Some(keys[j]), upcoming, 0)
  {
    VisitTakes(before, before, keys[j]);
  }

  /**
   * One turn of the loop: the key iterator, `renewed` when used up, returns its next key. It
   * is the start key exactly when every key of `order` has been looked at, and then the scan
   * has found nothing.
   */
  lemma ScanMove<P, R>(order: seq<P>, upcoming: seq<P>, keys: seq<P>, j: nat,
                       before: map<P, Queue<R>>, after: map<P, Queue<R>>,
                       r: Option<R>, current: Option<P>, it: seq<P>, moves: nat, renewed: seq<P>)
    requires ScanShape(order, upcoming, keys, j, before)
    requires Scanning(order, upcoming, keys, before, after, r, current, it, moves) && r.None?
    requires renewed == if it == [] then keys else it
    ensures renewed != [] && (renewed[0] == keys[j] <==> moves + 1 == |order|)
    ensures moves + 1 == |order| ==>
      && CursorWithin(before.Keys, renewed[1..], Some(renewed[0]))
      && Scanned(order, upcoming, keys, before, after, r, Some(renewed[0]), renewed[1..])
  {
    IteratorMoves(order, upcoming, keys, j, moves);
    if moves + 1 == |order| {
      ScanEnds(order, upcoming, keys, j, before, after, moves, renewed);
    } else {
      assert renewed[0] in order[1..];
    }
  }

  /** Back at the start key, every key of `order` has been looked at and none was ready. */
  lemma ScanEnds<P, R>(order: seq<P>, upcoming: seq<P>, keys: seq<P>, j: nat,
                       before: map<P, Queue<R>>, after: map<P, Queue<R>>, moves: nat, renewed: seq<P>)
    requires ScanShape(order, upcoming, keys, j, before) && moves + 1 == |order|
    requires renewed != [] && renewed[0] == keys[j] && renewed[1..] == IteratorRest(upcoming, keys, moves + 1)
    requires moves < FirstReady(order, before) && RecordsTaken(before, after, None)
    requires forall k :: k in before && k !in order[..moves + 1] ==> after[k] == before[k]
    ensures CursorWithin(before.Keys, renewed[1..], Some(renewed[0]))
    ensures Scanned(order, upcoming, keys, before, after, None, Some(renewed[0]), renewed[1..])
  {
    assert renewed[1..] == keys[j + 1..];
    DistinctSuffix(keys, j);
    assert order[..|order|] == order;
  }

  /** Short of the start key, the key iterator moves on to the next key of `order`. */
  lemma ScanAhead<P, R>(order: seq<P>, upcoming: seq<P>, keys: seq<P>, j: nat, before: map<P, Queue<R>>,
                        it: seq<P>, moves: nat, renewed: seq<P>)
    requires ScanShape(order, upcoming, keys, j, before)
    requires moves + 1 < |order| && moves <= |upcoming| + |keys| && it == IteratorRest(upcoming, keys, moves)
    requires renewed == if it == [] then keys else it
    ensures renewed != [] && moves + 1 <= |upcoming| + |keys|
    ensures renewed[0] == order[moves + 1] && renewed[1..] == IteratorRest(upcoming, keys, moves + 1)
    ensures CursorWithin(before.Keys, renewed[1..], Some(renewed[0]))
  {
    IteratorMoves(order, upcoming, keys, j, moves);
    if moves < |upcoming| {
      assert renewed == upcoming[moves..];
      DistinctSuffix(upcoming, moves);
    } else {
      assert renewed == keys[moves - |upcoming|..];
      DistinctSuffix(keys, moves - |upcoming|);
    }
  }

  /** Short of the start key, the loop looks at the key the iterator has moved to. */
  lemma ScanVisit<P, R>(order: seq<P>, upcoming: seq<P>, keys: seq<P>, j: nat,
                        before: map<P, Queue<R>>, after: map<P, Queue<R>>,
                        r: Option<R>, current: Option<P>, it: seq<P>, moves: nat, renewed: seq<P>,
                        after': map<P, Queue<R>>, r': Option<R>)
    requires ScanShape(order, upcoming, keys, j, before)
    requires Scanning(order, upcoming, keys, before, after, r, current, it, moves) && r.None?
    requires renewed == (if it == [] then keys else it) && renewed != [] && moves + 1 < |order|
    requires renewed[0] in after
    requires after' == after[renewed[0] := Take(after[renewed[0]]).1] && r' == Take(after[renewed[0]]).0
    ensures Scanning(order, upcoming, keys, before, after', r', Some(renewed[0]), renewed[1..], moves + 1)
  {
    ScanAhead(order, upcoming, keys, j, before, it, moves, renewed);
    VisitNext(order, before, after, moves, after', r');
  }

  /** The loop ends on a record at the first ready key. */
  lemma ScanFound<P, R>(order: seq<P>, upcoming: seq<P>, keys: seq<P>, j: nat,
                        before: map<P, Queue<R>>, after: map<P, Queue<R>>,
                        r: Option<R>, current: Option<P>, rest: seq<P>, moves: nat)
    requires ScanShape(order, upcoming, keys, j, before)
    requires Scanning(order, upcoming, keys, before, after, r, current, rest, moves) && r.Some?
    ensures Scanned(order, upcoming, keys, before, after, r, current, rest)
  {
  }

  /** A scan keeps every queue consistent and the set of known partitions. */
  lemma ScanKeepsKeys<P, R>(order: seq<P>, upcoming: seq<P>, keys: seq<P>,
                            before: map<P, Queue<R>>, after: map<P, Queue<R>>,
                            r: Option<R>, current: Option<P>, rest: seq<P>)
    requires Scanned(order, upcoming, keys, before, after, r, current, rest)
    ensures after.Keys == before.Keys && forall k :: k in after ==> QueueValid(after[k])
  {
  }

  /** A scan that started in step with the key order leaves the key iterator in step. */
  lemma ScanStaysInStep<P, R>(order: seq<P>, upcoming: seq<P>, keys: seq<P>, j: nat,
                              before: map<P, Queue<R>>, after: map<P, Queue<R>>,
                              r: Option<R>, current: Option<P>, rest: seq<P>)
    requires ScanShape(order, upcoming, keys, j, before) && upcoming == keys[j + 1..]
    requires Scanned(order, upcoming, keys, before, after, r, current, rest)
    ensures current.Some? && current.value in keys && rest == keys[IndexOf(keys, current.value) + 1..]
  {
    var f := FirstReady(order, before);
    var m := if f < |order| then f else |order|;
    var c := if m < |order| then order[m] else keys[j];
    assert current == Some(c) && rest == IteratorRest(upcoming, keys, m);
    InStepAfterScan(order, keys, j, m);
  }

  /**
   * A scan that started in step with the key order looks at every known partition: it finds
   * a record exactly when some partition is ready.
   */
  lemma ScanFindsAny<P, R>(order: seq<P>, upcoming: seq<P>, keys: seq<P>, j: nat,
                           before: map<P, Queue<R>>, after: map<P, Queue<R>>,
                           r: Option<R>, current: Option<P>, rest: seq<P>)
    requires ScanShape(order, upcoming, keys, j, before) && upcoming == keys[j + 1..]
    requires Scanned(order, upcoming, keys, before, after, r, current, rest)
    ensures r.Some? <==> exists k :: Ready(before, k)
  {
    RotatedScan(keys, before.Keys, j);
    FirstReadyFinds(order, before);
  }

  /** Starting the scan right after the iterator's place in the key order visits each key once. */
  lemma RotatedScan<P>(keys: seq<P>, known: set<P>, j: nat)
    requires Enumerates(keys, known) && j < |keys|
    ensures Enumerates([keys[j]] + keys[j + 1..] + keys[..j], known)
  {
    assert [keys[j]] + keys[j + 1..] == keys[j..];
    RotationEnumerates(keys, j);
  }

  /**
   * When the scan started right after the iterator's place in the key order, the iterator
   * ends in step again: what it has left follows the key it stands on.
   */
  lemma InStepAfterScan<P>(order: seq<P>, keys: seq<P>, j: nat, m: nat)
    requires Distinct(keys) && j < |keys| && m <= |keys| && order == [keys[j]] + keys[j + 1..] + keys[..j]
    ensures var c := if m < |order| then order[m] else keys[j];
      && c in keys
      && keys[IndexOf(keys, c) + 1..] == IteratorRest(keys[j + 1..], keys, m)
  {
    var u := |keys| - j - 1;
    var c := if m < |order| then order[m] else keys[j];
    var i: nat := if m == 0 || m == |order| then j else if m <= u then j + m else m - u - 1;
    if 0 < m <= u {
      assert order[m] == keys[j + 1..][m - 1];
    } else if u < m < |order| {
      assert order[m] == keys[..j][m - u - 1];
    }
    assert i < |keys| && c == keys[i];
    assert IteratorRest(keys[j + 1..], keys, m) == keys[i + 1..];
    IndexOfDistinct(keys, i);
    assert IndexOf(keys, c) == i;
  }

  /** The queues after the partitions of `ps` have all been paused (or all resumed). */
  function PausedAll<P, R>(buffers: map<P, Queue<R>>, ps: seq<P>, paused: bool): (after: map<P, Queue<R>>)
    ensures after.Keys == buffers.Keys
    ensures forall k :: k in buffers ==> after[k].records == buffers[k].records && after[k].index == buffers[k].index
    ensures forall k :: k in buffers ==> after[k].paused == if k in ps then paused else buffers[k].paused
  {
    map k | k in buffers :: if k in ps then WithPause(buffers[k], paused) else buffers[k]
  }

  /** The queues after the partitions of `ps` have all been flushed. */
  function FlushedAll<P, R>(buffers: map<P, Queue<R>>, ps: seq<P>): (after: map<P, Queue<R>>)
    ensures after.Keys == buffers.Keys
    ensures forall k :: k in buffers ==> after[k].paused == buffers[k].paused
    ensures forall k :: k in buffers && k in ps ==> QueueValid(after[k]) && Pending(after[k]) == []
    ensures forall k :: k in buffers && k !in ps ==> after[k] == buffers[k]
  {
    map k | k in buffers :: if k in ps then Cleared(buffers[k]) else buffers[k]
  }

  /** Pausing one more partition extends `PausedAll` by that partition. */
  lemma PausedAllStep<P, R>(buffers: map<P, Queue<R>>, ps: seq<P>, p: P, paused: bool)
    requires p in buffers
    ensures var m := PausedAll(buffers, ps, paused);
      m[p := WithPause(m[p], paused)] == PausedAll(buffers, ps + [p], paused)
  {
    var m := PausedAll(buffers, ps, paused);
    assert forall k :: k in ps + [p] <==> k in ps || k == p;
    assert m[p := WithPause(m[p], paused)] == PausedAll(buffers, ps + [p], paused);
  }

  /** Flushing one more partition extends `FlushedAll` by that partition. */
  lemma FlushedAllStep<P, R>(buffers: map<P, Queue<R>>, ps: seq<P>, p: P)
    requires p in buffers
    ensures var m := FlushedAll(buffers, ps);
      m[p := Cleared(m[p])] == FlushedAll(buffers, ps + [p])
  {
    var m := FlushedAll(buffers, ps);
    assert forall k :: k in ps + [p] <==> k in ps || k == p;
    assert m[p := Cleared(m[p])] == FlushedAll(buffers, ps + [p]);
  }

  /** The key `next` looks at first: the current key, or the first key of a fresh iterator. */
  function StartKey<P>(keys: seq<P>, current: Option<P>): P
    requires keys != []
  {
    if current.Some? then current.value else keys[0]
  }

  /** The keys the key iterator returns after the start key, before it has to be renewed. */
  function StartRest<P>(keys: seq<P>, current: Option<P>, rest: seq<P>): seq<P>
    requires keys != []
  {
    if current.Some? then rest else keys[1..]
  }

  /**
   * The keys `next` looks at, in order, when none of them is ready: the start key, what is
   * left of the key iterator, then a fresh iterator up to the start key again.
   */
  function ScanOrder<P(==)>(keys: seq<P>, current: Option<P>, rest: seq<P>): seq<P>
    requires keys != [] && (current.Some? ==> current.value in keys)
  {
    var start := StartKey(keys, current);
    [start] + StartRest(keys, current, rest) + keys[..IndexOf(keys, start)]
  }

  /** The key iterator has left exactly the keys after the current one in today's key order. */
  predicate InStep<P(==)>(keys: seq<P>, current: Option<P>, rest: seq<P>)
  {
    current.None? || (current.value in keys && rest == keys[IndexOf(keys, current.value) + 1..])
  }

  /**
   * The loop of `next`, from the start key `initialKey` (at position `j` of the fresh
   * iterator order `keys`) with `upcoming` left in the key iterator: look at the current key's
   * queue; while it has no record, move the iterator on, renewing it when used up, and stop
   * without a record on coming back to the start key.
   */
  method Scan<P(==), R>(keys: seq<P>, before: map<P, Queue<R>>, initialKey: P, upcoming: seq<P>, ghost j: nat)
    returns (r: Option<R>, after: map<P, Queue<R>>, current: Option<P>, it: seq<P>)
    requires j < |keys| && keys[j] == initialKey
    requires ScanShape([initialKey] + upcoming + keys[..j], upcoming, keys, j, before)
    ensures Scanned([initialKey] + upcoming + keys[..j], upcoming, keys, before, after, r, current, it)
    ensures CursorWithin(before.Keys, it, current)
  {
    ghost var order := [initialKey] + upcoming + keys[..j];
    it := upcoming;
    current := Some(initialKey);
    r, after := Take(before[initialKey]).0, before[initialKey := Take(before[initialKey]).1];
    ScanFirst(order, upcoming, keys, j, before, after, r);
    ghost var moves := 0;
    while r.None?
      invariant Scanning(order, upcoming, keys, before, after, r, current, it, moves)
      decreases |order| - moves
    {
      ghost var last, lastCurrent, lastIt := after, current, it;
      if it == [] {
        it := keys;
      }
      ghost var renewed := it;
      ScanMove(order, upcoming, keys, j, before, last, r, lastCurrent, lastIt, moves, renewed);
      current := Some(it[0]);
      it := it[1..];
      if current.value == initialKey {
        return;
      }
      var k := current.value;
      r, after := Take(after[k]).0, after[k := Take(after[k]).1];
      ScanVisit(order, upcoming, keys, j, before, last, None, lastCurrent, lastIt, moves, renewed, after, r);
      moves := moves + 1;
    }
    ScanFound(order, upcoming, keys, j, before, after, r, current, it, moves);
  }

  /**
   * What `next` does, from the fresh iterator order `keys`, the queues `before` and the key
   * iterator (`current`, with `rest` left) to the record `r`, the queues `after` and the key
   * iterator (`current'`, with `rest'` left): with no partition, nothing happens; otherwise the
   * scan from the start key takes the oldest record of the first ready partition, or finds
   * none. When the iterator was in step with `keys`, it stays in step and a record is found
   * exactly when some partition is ready.
   */
  ghost predicate NextOutcome<P, R>(keys: seq<P>, before: map<P, Queue<R>>, current: Option<P>, rest: seq<P>,
                                        r: Option<R>, after: map<P, Queue<R>>, current': Option<P>, rest': seq<P>)
    requires Enumerates(keys, before.Keys) && CursorWithin(before.Keys, rest, current)
  {
    && (forall k :: k in after ==> QueueValid(after[k])) && after.Keys == before.Keys
    && CursorWithin(before.Keys, rest', current')
    && (keys == [] ==> r == None && after == before && current' == None && rest' == [])
    && (keys != [] ==>
         Scanned(ScanOrder(keys, current, rest), StartRest(keys, current, rest), keys, before, after, r, current', rest'))
    && (InStep(keys, current, rest) ==>
         InStep(keys, current', rest') && (r.Some? <==> exists k :: k in before && Ready(before, k)))
  }

  /**
   * A record `next` returns is the oldest pending record of a ready partition, the only one
   * whose queue changes, and the key iterator stays on that partition; without a record no
   * queue loses anything and the iterator is back on the key it started from.
   */
  lemma NextTakesOne<P, R>(keys: seq<P>, before: map<P, Queue<R>>, current: Option<P>, rest: seq<P>,
                           r: Option<R>, after: map<P, Queue<R>>, current': Option<P>, rest': seq<P>)
    requires Enumerates(keys, before.Keys) && CursorWithin(before.Keys, rest, current) && keys != []
    requires NextOutcome(keys, before, current, rest, r, after, current', rest')
    ensures r.Some? ==> && current'.Some? && Ready(before, current'.value)
                        && r == Some(Pending(before[current'.value])[0]) && RecordsTaken(before, after, current')
    ensures r.None? ==> current' == Some(StartKey(keys, current)) && RecordsTaken(before, after, None)
  {
    var order := ScanOrder(keys, current, rest);
    var f := FirstReady(order, before);
    if r.Some? {
      assert f < |order|;
      assert current' == Some(order[f]);
    }
  }

  /**
   * A `next` that starts in step with the key order finds a record exactly when some
   * partition is ready, takes it as `NextTakesOne` says, and leaves the iterator in step.
   */
  lemma NextInStepFinds<P, R>(keys: seq<P>, before: map<P, Queue<R>>, current: Option<P>, rest: seq<P>,
                              r: Option<R>, after: map<P, Queue<R>>, current': Option<P>, rest': seq<P>)
    requires Enumerates(keys, before.Keys) && CursorWithin(before.Keys, rest, current) && InStep(keys, current, rest)
    requires NextOutcome(keys, before, current, rest, r, after, current', rest')
    ensures InStep(keys, current', rest')
    ensures r.Some? <==> exists k :: k in before && Ready(before, k)
    ensures r.Some? ==> && current'.Some? && Ready(before, current'.value)
                        && r == Some(Pending(before[current'.value])[0]) && RecordsTaken(before, after, current')
    ensures r.None? ==> RecordsTaken(before, after, None)
  {
    if keys != [] {
      NextTakesOne(keys, before, current, rest, r, after, current', rest');
    }
  }

  /**
   * The scan of `next` stops at the first ready key of its order: it takes that key's oldest
   * record and leaves the key iterator on it. In particular a current key that still has
   * records keeps being drained (`f` = 0).
   */
  lemma NextFirstReady<P, R>(keys: seq<P>, before: map<P, Queue<R>>, current: Option<P>, rest: seq<P>,
                             r: Option<R>, after: map<P, Queue<R>>, current': Option<P>, rest': seq<P>, f: nat)
    requires Enumerates(keys, before.Keys) && CursorWithin(before.Keys, rest, current) && keys != []
    requires var order := ScanOrder(keys, current, rest);
      f < |order| && Ready(before, order[f]) && forall i :: 0 <= i < f ==> !Ready(before, order[i])
    requires NextOutcome(keys, before, current, rest, r, after, current', rest')
    ensures f <= |StartRest(keys, current, rest)| + |keys|
    ensures var k := ScanOrder(keys, current, rest)[f];
      && current' == Some(k) && RecordsTaken(before, after, Some(k)) && r == Some(Pending(before[k])[0])
      && rest' == IteratorRest(StartRest(keys, current, rest), keys, f)
  {
    var order := ScanOrder(keys, current, rest);
    FirstReadyAt(order, before, f);
  }

  /**
   * With no ready key in its order, the scan of `next` returns null, changes no queue's
   * pending records, and stands on the key it started from.
   */
  lemma NextNoneReady<P, R>(keys: seq<P>, before: map<P, Queue<R>>, current: Option<P>, rest: seq<P>,
                            r: Option<R>, after: map<P, Queue<R>>, current': Option<P>, rest': seq<P>)
    requires Enumerates(keys, before.Keys) && CursorWithin(before.Keys, rest, current) && keys != []
    requires var order := ScanOrder(keys, current, rest); forall i :: 0 <= i < |order| ==> !Ready(before, order[i])
    requires NextOutcome(keys, before, current, rest, r, after, current', rest')
    ensures |ScanOrder(keys, current, rest)| <= |StartRest(keys, current, rest)| + |keys|
    ensures && r == None && current' == Some(StartKey(keys, current)) && RecordsTaken(before, after, None)
            && rest' == IteratorRest(StartRest(keys, current, rest), keys, |ScanOrder(keys, current, rest)|)
  {
    var order := ScanOrder(keys, current, rest);
    assert FirstReady(order, before) == |order|;
  }

  /** The first ready key is the one that every key before it is not. */
  lemma {:induction false} FirstReadyAt<P, R>(order: seq<P>, buffers: map<P, Queue<R>>, f: nat)
    requires f < |order| && Ready(buffers, order[f])
    requires forall i :: 0 <= i < f ==> !Ready(buffers, order[i])
    ensures FirstReady(order, buffers) == f
  {
    if f > 0 {
      assert !Ready(buffers, order[0]);
      FirstReadyAt(order[1..], buffers, f - 1);
    }
  }

  /**
   * `next` on the values of the buffer's fields: without a current key, a fresh key iterator
   * is taken and, unless there is no partition at all, its first key becomes current; then
   * the scan runs from the current key.
   */
  method NextRecord<P(==), R>(keys: seq<P>, before: map<P, Queue<R>>, current: Option<P>, rest: seq<P>)
    returns (r: Option<R>, after: map<P, Queue<R>>, current': Option<P>, rest': seq<P>)
    requires (forall k :: k in before ==> QueueValid(before[k])) && Enumerates(keys, before.Keys)
    requires CursorWithin(before.Keys, rest, current)
    ensures NextOutcome(keys, before, current, rest, r, after, current', rest')
  {
    var it := rest;
    var cur := current;
    if cur.None? {
      it := keys;
      if it == [] {
        return None, before, None, it;
      }
      cur := Some(it[0]);
      it := it[1..];
    }
    var initialKey := cur.value;
    ghost var j := IndexOf(keys, initialKey);
    ghost var order := [initialKey] + it + keys[..j];
    assert order == ScanOrder(keys, current, rest) && it == StartRest(keys, current, rest);
    ghost var upcoming := it;
    r, after, current', rest' := Scan(keys, before, initialKey, it, j);
    ScanKeepsKeys(order, upcoming, keys, before, after, r, current', rest');
    if InStep(keys, current, rest) {
      assert upcoming == keys[j + 1..];
      ScanStaysInStep(order, upcoming, keys, j, before, after, r, current', rest');
      ScanFindsAny(order, upcoming, keys, j, before, after, r, current', rest');
    }
  }

  /**
   * `next` on the values of the buffer's fields, with the key iterator first put back in step
   * with `keys`, just after the current key.
   */
  method NextRecordInStep<P(==), R>(keys: seq<P>, before: map<P, Queue<R>>, current: Option<P>, rest: seq<P>)
    returns (r: Option<R>, after: map<P, Queue<R>>, current': Option<P>, rest': seq<P>)
    requires (forall k :: k in before ==> QueueValid(before[k])) && Enumerates(keys, before.Keys)
    requires CursorWithin(before.Keys, rest, current)
    ensures (forall k :: k in after ==> QueueValid(after[k])) && after.Keys == before.Keys
    ensures CursorWithin(before.Keys, rest', current') && InStep(keys, current', rest')
    ensures r.Some? <==> exists k :: k in before && Ready(before, k)
    ensures r.Some? ==> && current'.Some? && Ready(before, current'.value)
                        && r == Some(Pending(before[current'.value])[0]) && RecordsTaken(before, after, current')
    ensures r.None? ==> RecordsTaken(before, after, None)
  {
    var it := rest;
    if current.Some? {
      var i := IndexOf(keys, current.value);
      DistinctSuffix(keys, i);
      it := keys[i + 1..];
    }
    r, after, current', rest' := NextRecord(keys, before, current, it);
    NextInStepFinds(keys, before, current, it, r, after, current', rest');
  }

  class Buffer<P(==), R> {
    /** The queue of each known partition. */
    var buffers: map<P, Queue<R>>
    /** The order in which a fresh key iterator visits the known partitions. */
    var keys: seq<P>
    /** The keys the current key iterator has still to return. */
    var rest: seq<P>
    var currentKey: Option<P>

    ghost predicate Valid()
      reads this
    {
      && (forall k :: k in buffers ==> QueueValid(buffers[k]))
      && Enumerates(keys, buffers.Keys)
      && CursorWithin(buffers.Keys, rest, currentKey)
    }

    constructor ()
      ensures Valid() && InStep(keys, currentKey, rest)
      ensures buffers == map[] && keys == [] && rest == [] && currentKey == None
    {
      buffers := map[];
      keys := [];
      rest := [];
      currentKey := None;
    }

    /** Queues `batch` for `p`; a partition seen for the first time gets a new, unpaused queue. */
    method Add(p: P, batch: seq<R>)
      requires Valid()
      modifies this`buffers, this`keys
      ensures Valid()
      ensures buffers == old(buffers)[p := Appended(if p in old(buffers) then old(buffers)[p] else Empty(), batch)]
      ensures p in old(buffers) ==> keys == old(keys)
    {
      if p !in buffers {
        buffers := buffers[p := Appended(Empty(), batch)];
        EnumeratesAppend(keys, old(buffers).Keys, p);
        keys := HashOrder(buffers.Keys, keys + [p]);
      } else {
        buffers := buffers[p := Appended(buffers[p], batch)];
      }
    }

    method Pause(p: P)
      requires Valid() && p in buffers
      modifies this`buffers
      ensures Valid() && buffers == old(buffers)[p := WithPause(old(buffers)[p], true)]
    {
      buffers := buffers[p := WithPause(buffers[p], true)];
    }

    method Resume(p: P)
      requires Valid() && p in buffers
      modifies this`buffers
      ensures Valid() && buffers == old(buffers)[p := WithPause(old(buffers)[p], false)]
    {
      buffers := buffers[p := WithPause(buffers[p], false)];
    }

    method Flush(p: P)
      requires Valid() && p in buffers
      modifies this`buffers
      ensures Valid() && buffers == old(buffers)[p := Cleared(old(buffers)[p])]
    {
      buffers := buffers[p := Cleared(buffers[p])];
    }

    /**
     * The next record, taken partition after partition: the key iterator stays on a partition
     * while it has records, moves on (renewing itself when used up) past partitions that have
     * none, and gives up with None when it comes back to the key it started from.
     */
    method Next() returns (r: Option<R>)
      requires Valid()
      modifies this`buffers, this`rest, this`currentKey
      ensures Valid() && keys == old(keys)
      ensures NextOutcome(keys, old(buffers), old(currentKey), old(rest), r, buffers, currentKey, rest)
    {
      var after, current, it;
      r, after, current, it := NextRecord(keys, buffers, currentKey, rest);
      buffers, currentKey, rest := after, current, it;
    }

    /**
     * `next` with the key iterator first put back in step with today's key order, just after
     * the current key: then a record is found whenever some partition has one.
     */
    method NextInStep() returns (r: Option<R>)
      requires Valid()
      modifies this`buffers, this`rest, this`currentKey
      ensures Valid() && keys == old(keys) && InStep(keys, currentKey, rest)
      ensures r.Some? <==> exists k :: k in old(buffers) && Ready(old(buffers), k)
      ensures r.Some? ==> && currentKey.Some? && Ready(old(buffers), currentKey.value)
                          && r == Some(Pending(old(buffers)[currentKey.value])[0])
                          && RecordsTaken(old(buffers), buffers, currentKey)
      ensures r.None? ==> RecordsTaken(old(buffers), buffers, None)
    {
      var after, current, it;
      r, after, current, it := NextRecordInStep(keys, buffers, currentKey, rest);
      buffers, currentKey, rest := after, current, it;
    }

    method PauseAll(ps: seq<P>)
      requires Valid() && forall p :: p in ps ==> p in buffers
      modifies this`buffers
      ensures Valid() && buffers == PausedAll(old(buffers), ps, true)
    {
      for i := 0 to |ps|
        invariant Valid() && buffers == PausedAll(old(buffers), ps[..i], true)
      {
        PausedAllStep(old(buffers), ps[..i], ps[i], true);
        assert ps[..i + 1] == ps[..i] + [ps[i]];
        Pause(ps[i]);
      }
      assert ps[..|ps|] == ps;
    }

    method ResumeAll(ps: seq<P>)
      requires Valid() && forall p :: p in ps ==> p in buffers
      modifies this`buffers
      ensures Valid() && buffers == PausedAll(old(buffers), ps, false)
    {
      for i := 0 to |ps|
        invariant Valid() && buffers == PausedAll(old(buffers), ps[..i], false)
      {
        PausedAllStep(old(buffers), ps[..i], ps[i], false);
        assert ps[..i + 1] == ps[..i] + [ps[i]];
        Resume(ps[i]);
      }
      assert ps[..|ps|] == ps;
    }

    method FlushAll(ps: seq<P>)
      requires Valid() && forall p :: p in ps ==> p in buffers
      modifies this`buffers
      ensures Valid() && buffers == FlushedAll(old(buffers), ps)
    {
      for i := 0 to |ps|
        invariant Valid() && buffers == FlushedAll(old(buffers), ps[..i])
      {
        FlushedAllStep(old(buffers), ps[..i], ps[i]);
        assert ps[..i + 1] == ps[..i] + [ps[i]];
        Flush(ps[i]);
      }
      assert ps[..|ps|] == ps;
    }
  }
}
