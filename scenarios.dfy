/**
 * The unit-test scenarios of the consumer buffer, replayed on the model: the records each
 * call returns are proved, for every key order the hash table could choose.
 */
module ConsumerBufferScenarios {
  import opened Optional
  import opened Sequences
  import opened PartitionBuffers
  import opened ConsumerBuffer

  /** One partition buffer: empty batches, single and multi-record batches, pause, resume, flush. */
  method PartitionBufferReplay() returns (results: seq<Option<int>>)
    ensures results == [None, None, Some(1), None, Some(2), Some(3), None, Some(4), Some(5), None,
                        Some(7), Some(8), None, Some(9), None]
  {
    var pb := new PartitionBuffer<int>([]);
    var first := SingleRecords(pb);
    var second := BatchesInOrder(pb);
    var third := PauseResumeFlush(pb);
    results := first + second + third;
  }

  /** The first part of that scenario, on an empty unpaused buffer: an empty batch, then one record. */
  method SingleRecords(pb: PartitionBuffer<int>) returns (results: seq<Option<int>>)
    requires pb.Valid() && Pending(pb.State()) == [] && !pb.paused
    modifies pb
    ensures pb.Valid() && Pending(pb.State()) == [] && !pb.paused
    ensures results == [None, None, Some(1), None]
  {
    assert [] + [1] == [1];
    var r1 := pb.Next();
    var r2 := pb.Next();
    pb.Add([1]);
    var r3 := pb.Next();
    var r4 := pb.Next();
    results := [r1, r2, r3, r4];
  }

  /** The second part: two single-record batches, then one batch of two, each drained in order. */
  method BatchesInOrder(pb: PartitionBuffer<int>) returns (results: seq<Option<int>>)
    requires pb.Valid() && Pending(pb.State()) == [] && !pb.paused
    modifies pb
    ensures pb.Valid() && Pending(pb.State()) == [] && !pb.paused
    ensures results == [Some(2), Some(3), None, Some(4), Some(5), None]
  {
    assert [] + [2] + [3] == [2, 3] && [2, 3][1..] == [3];
    assert [] + [4, 5] == [4, 5] && [4, 5][1..] == [5];
    pb.Add([2]);
    pb.Add([3]);
    var r1 := pb.Next();
    var r2 := pb.Next();
    var r3 := pb.Next();
    pb.Add([4, 5]);
    var r4 := pb.Next();
    var r5 := pb.Next();
    var r6 := pb.Next();
    results := [r1, r2, r3, r4, r5, r6];
  }

  /** The third part: two batches, a pause that holds a record back, a resume that releases it, a flush. */
  method PauseResumeFlush(pb: PartitionBuffer<int>) returns (results: seq<Option<int>>)
    requires pb.Valid() && Pending(pb.State()) == [] && !pb.paused
    modifies pb
    ensures results == [Some(7), Some(8), None, Some(9), None]
  {
    assert [] + [7, 8] + [9, 10] == [7, 8, 9, 10];
    assert [7, 8, 9, 10][1..] == [8, 9, 10] && [8, 9, 10][1..] == [9, 10];
    pb.Add([7, 8]);
    assert Pending(pb.State()) == [7, 8];
    pb.Add([9, 10]);
    assert Pending(pb.State()) == [7, 8, 9, 10];
    var r1 := pb.Next();
    assert Pending(pb.State()) == [8, 9, 10];
    var r2 := pb.Next();
    assert Pending(pb.State()) == [9, 10];
    pb.Pause();
    var r3 := pb.Next();
    assert Pending(pb.State()) == [9, 10];
    pb.Resume();
    var r4 := pb.Next();
    pb.Flush();
    var r5 := pb.Next();
    results := [r1, r2, r3, r4, r5];
  }

  /** Two distinct keys are enumerated in one of their two orders. */
  lemma TwoKeys(keys: seq<int>, a: int, c: int)
    requires Enumerates(keys, {a, c}) && a != c
    ensures keys == [a, c] || keys == [c, a]
  {
    DistinctWithin(keys, {a, c});
    var i, j := IndexOf(keys, a), IndexOf(keys, c);
  }

  /** Each record as a non-null result of `next`. */
  function Somes(xs: seq<int>): seq<Option<int>>
  {
    seq(|xs|, i requires 0 <= i < |xs| => Some(xs[i]))
  }

  /**
   * The queues of exactly the two partitions `a` and `c`: `xs` and `ys` pending, paused as
   * `pausedA` and `pausedC` say.
   */
  ghost predicate TwoQueues(buffers: map<int, Queue<int>>, a: int, c: int, xs: seq<int>, ys: seq<int>,
                            pausedA: bool, pausedC: bool)
  {
    && buffers.Keys == {a, c} && QueueValid(buffers[a]) && QueueValid(buffers[c])
    && Pending(buffers[a]) == xs && Pending(buffers[c]) == ys
    && buffers[a].paused == pausedA && buffers[c].paused == pausedC
  }

  /** Where the key iterator of a two-partition buffer can stand when it is in step with `[a, c]`. */
  predicate TwoCursor(a: int, c: int, current: Option<int>, rest: seq<int>)
  {
    (current, rest) == (None, []) || (current, rest) == (Some(a), [c]) || (current, rest) == (Some(c), [])
  }

  /** The order in which `next` looks at two partitions iterated as `[a, c]`. */
  function TwoOrder(a: int, c: int, current: Option<int>): seq<int>
  {
    if current == Some(c) then [c, a] else [a, c]
  }

  /** Where the scan of `next` goes on two partitions. */
  lemma TwoScanOrder(keys: seq<int>, a: int, c: int, current: Option<int>, rest: seq<int>)
    requires keys == [a, c] && a != c && TwoCursor(a, c, current, rest)
    ensures ScanOrder(keys, current, rest) == TwoOrder(a, c, current)
    ensures StartRest(keys, current, rest) == if current == Some(c) then [] else [c]
  {
  }

  /**
   * `next` on two partitions iterated as `[a, c]` looks at the current key first (`a` when
   * there is none), then at the other one, and takes the oldest record of the first of them
   * that is ready, staying on that partition.
   */
  lemma TwoTakes(keys: seq<int>, before: map<int, Queue<int>>, current: Option<int>, rest: seq<int>,
                 r: Option<int>, after: map<int, Queue<int>>, current': Option<int>, rest': seq<int>,
                 a: int, c: int, xs: seq<int>, ys: seq<int>, pausedA: bool, pausedC: bool, f: nat)
    requires keys == [a, c] && a != c && TwoQueues(before, a, c, xs, ys, pausedA, pausedC)
    requires TwoCursor(a, c, current, rest)
    requires Enumerates(keys, before.Keys) && CursorWithin(before.Keys, rest, current)
    requires f < 2 && Ready(before, TwoOrder(a, c, current)[f])
    requires f == 1 ==> !Ready(before, TwoOrder(a, c, current)[0])
    requires NextOutcome(keys, before, current, rest, r, after, current', rest')
    ensures var k := TwoOrder(a, c, current)[f];
      && current' == Some(k) && rest' == (if k == a then [c] else [])
      && (if k == a then xs != [] && r == Some(xs[0]) else ys != [] && r == Some(ys[0]))
      && TwoQueues(after, a, c, if k == a then xs[1..] else xs, if k == c then ys[1..] else ys, pausedA, pausedC)
  {
    TwoFirst(keys, before, current, rest, r, after, current', rest', a, c, f);
    TwoTaken(before, r, after, a, c, xs, ys, pausedA, pausedC, TwoOrder(a, c, current)[f]);
  }

  /** The part of `TwoTakes` about the key iterator and the partition the record comes from. */
  lemma TwoFirst(keys: seq<int>, before: map<int, Queue<int>>, current: Option<int>, rest: seq<int>,
                 r: Option<int>, after: map<int, Queue<int>>, current': Option<int>, rest': seq<int>,
                 a: int, c: int, f: nat)
    requires keys == [a, c] && a != c && TwoCursor(a, c, current, rest)
    requires Enumerates(keys, before.Keys) && CursorWithin(before.Keys, rest, current)
    requires f < 2 && Ready(before, TwoOrder(a, c, current)[f])
    requires f == 1 ==> !Ready(before, TwoOrder(a, c, current)[0])
    requires NextOutcome(keys, before, current, rest, r, after, current', rest')
    ensures var k := TwoOrder(a, c, current)[f];
      && current' == Some(k) && rest' == (if k == a then [c] else [])
      && r == Some(Pending(before[k])[0]) && RecordsTaken(before, after, Some(k))
  {
    TwoScanOrder(keys, a, c, current, rest);
    NextFirstReady(keys, before, current, rest, r, after, current', rest', f);
    TwoRest(keys, a, c, current, rest, f);
  }

  /** Where the key iterator of two partitions stands after moving `f` times on from the start key. */
  lemma TwoRest(keys: seq<int>, a: int, c: int, current: Option<int>, rest: seq<int>, f: nat)
    requires keys == [a, c] && a != c && TwoCursor(a, c, current, rest) && f < 2
    ensures IteratorRest(StartRest(keys, current, rest), keys, f) == if TwoOrder(a, c, current)[f] == a then [c] else []
  {
  }

  /** A record taken from one of two partitions is the oldest of its pending records. */
  lemma TwoTaken(before: map<int, Queue<int>>, r: Option<int>, after: map<int, Queue<int>>,
                 a: int, c: int, xs: seq<int>, ys: seq<int>, pausedA: bool, pausedC: bool, k: int)
    requires a != c && TwoQueues(before, a, c, xs, ys, pausedA, pausedC) && (k == a || k == c)
    requires Ready(before, k) && r == Some(Pending(before[k])[0]) && RecordsTaken(before, after, Some(k))
    ensures if k == a then xs != [] && r == Some(xs[0]) else ys != [] && r == Some(ys[0])
    ensures TwoQueues(after, a, c, if k == a then xs[1..] else xs, if k == c then ys[1..] else ys, pausedA, pausedC)
  {
    assert a in before && c in before;
  }

  /** With neither of two partitions ready, `next` returns null and stands where it started. */
  lemma TwoNone(keys: seq<int>, before: map<int, Queue<int>>, current: Option<int>, rest: seq<int>,
                r: Option<int>, after: map<int, Queue<int>>, current': Option<int>, rest': seq<int>,
                a: int, c: int, xs: seq<int>, ys: seq<int>, pausedA: bool, pausedC: bool)
    requires keys == [a, c] && a != c && TwoQueues(before, a, c, xs, ys, pausedA, pausedC)
    requires TwoCursor(a, c, current, rest)
    requires Enumerates(keys, before.Keys) && CursorWithin(before.Keys, rest, current)
    requires !Ready(before, a) && !Ready(before, c)
    requires NextOutcome(keys, before, current, rest, r, after, current', rest')
    ensures var k := TwoOrder(a, c, current)[0];
      && current' == Some(k) && rest' == (if k == a then [c] else [])
      && r == None && TwoQueues(after, a, c, xs, ys, pausedA, pausedC)
  {
    TwoScanOrder(keys, a, c, current, rest);
    NextNoneReady(keys, before, current, rest, r, after, current', rest');
    TwoUntouched(keys, before, current, rest, after, current', rest', a, c, xs, ys, pausedA, pausedC);
  }

  /** The step of `TwoNone` from the scan that found nothing to the two queues and the cursor. */
  lemma TwoUntouched(keys: seq<int>, before: map<int, Queue<int>>, current: Option<int>, rest: seq<int>,
                     after: map<int, Queue<int>>, current': Option<int>, rest': seq<int>,
                     a: int, c: int, xs: seq<int>, ys: seq<int>, pausedA: bool, pausedC: bool)
    requires keys == [a, c] && a != c && TwoQueues(before, a, c, xs, ys, pausedA, pausedC)
    requires TwoCursor(a, c, current, rest)
    requires current' == Some(StartKey(keys, current)) && RecordsTaken(before, after, None)
    requires rest' == IteratorRest(StartRest(keys, current, rest), keys, 2)
    ensures var k := TwoOrder(a, c, current)[0];
      current' == Some(k) && rest' == (if k == a then [c] else []) && TwoQueues(after, a, c, xs, ys, pausedA, pausedC)
  {
    assert a in before && c in before;
  }

  /**
   * A buffer holding exactly the two partitions `a` and `c`, which a fresh key iterator
   * visits in that order, with `xs` and `ys` pending, paused as `pausedA` and `pausedC` say,
   * and the key iterator on `current` with `rest` left.
   */
  ghost predicate Holds(b: Buffer<int, int>, a: int, c: int, xs: seq<int>, ys: seq<int>, pausedA: bool, pausedC: bool,
                        current: Option<int>, rest: seq<int>)
    reads b
  {
    && b.Valid() && a != c && b.keys == [a, c] && TwoQueues(b.buffers, a, c, xs, ys, pausedA, pausedC)
    && b.currentKey == current && b.rest == rest && TwoCursor(a, c, current, rest)
  }

  /** The partition `next` takes a record from, if any, on two partitions iterated as `[a, c]`. */
  function TwoPick(a: int, c: int, xs: seq<int>, ys: seq<int>, pausedA: bool, pausedC: bool, current: Option<int>): Option<int>
  {
    var readyA, readyC := !pausedA && xs != [], !pausedC && ys != [];
    if current == Some(c) then
      (if readyC then Some(c) else if readyA then Some(a) else None)
    else
      (if readyA then Some(a) else if readyC then Some(c) else None)
  }

  /** A new buffer given a batch for `a` and then one for `c`: one of the two key orders. */
  method NewTwo(a: int, c: int, xs: seq<int>, ys: seq<int>) returns (b: Buffer<int, int>, ordered: bool)
    requires a != c
    ensures fresh(b) && ordered == (b.keys == [a, c])
    ensures ordered ==> Holds(b, a, c, xs, ys, false, false, None, [])
    ensures !ordered ==> Holds(b, c, a, ys, xs, false, false, None, [])
  {
    b := new Buffer<int, int>();
    b.Add(a, xs);
    b.Add(c, ys);
    TwoKeys(b.keys, a, c);
    ordered := b.keys == [a, c];
  }

  /** `next` on a two-partition buffer, as `TwoTakes` and `TwoNone` describe it. */
  method NextOfTwo(b: Buffer<int, int>, a: int, c: int, ghost xs: seq<int>, ghost ys: seq<int>,
                   ghost pausedA: bool, ghost pausedC: bool) returns (r: Option<int>)
    requires Holds(b, a, c, xs, ys, pausedA, pausedC, b.currentKey, b.rest)
    modifies b
    ensures var k := TwoPick(a, c, xs, ys, pausedA, pausedC, old(b.currentKey));
      var stand := if k.Some? then k.value else TwoOrder(a, c, old(b.currentKey))[0];
      && r == (if k == Some(a) then Some(xs[0]) else if k == Some(c) then Some(ys[0]) else None)
      && Holds(b, a, c, if k == Some(a) then xs[1..] else xs, if k == Some(c) then ys[1..] else ys, pausedA, pausedC,
               Some(stand), if stand == a then [c] else [])
  {
    ghost var (before, current, rest) := (b.buffers, b.currentKey, b.rest);
    r := b.Next();
    ghost var order := TwoOrder(a, c, current);
    if Ready(before, order[0]) {
      TwoTakes(b.keys, before, current, rest, r, b.buffers, b.currentKey, b.rest, a, c, xs, ys, pausedA, pausedC, 0);
    } else if Ready(before, order[1]) {
      TwoTakes(b.keys, before, current, rest, r, b.buffers, b.currentKey, b.rest, a, c, xs, ys, pausedA, pausedC, 1);
    } else {
      TwoNone(b.keys, before, current, rest, r, b.buffers, b.currentKey, b.rest, a, c, xs, ys, pausedA, pausedC);
    }
  }

  /** `add` on a two-partition buffer: the batch joins the pending records of its partition. */
  method AddOfTwo(b: Buffer<int, int>, a: int, c: int, ghost xs: seq<int>, ghost ys: seq<int>,
                  ghost pausedA: bool, ghost pausedC: bool, p: int, batch: seq<int>)
    requires Holds(b, a, c, xs, ys, pausedA, pausedC, b.currentKey, b.rest) && (p == a || p == c)
    modifies b
    ensures Holds(b, a, c, if p == a then xs + batch else xs, if p == c then ys + batch else ys, pausedA, pausedC,
                  old(b.currentKey), old(b.rest))
  {
    b.Add(p, batch);
  }

  /** `pause` (or `resume`) on a two-partition buffer: only the flag of that partition changes. */
  method PauseOfTwo(b: Buffer<int, int>, a: int, c: int, ghost xs: seq<int>, ghost ys: seq<int>,
                    ghost pausedA: bool, ghost pausedC: bool, p: int, paused: bool)
    requires Holds(b, a, c, xs, ys, pausedA, pausedC, b.currentKey, b.rest) && (p == a || p == c)
    modifies b
    ensures Holds(b, a, c, xs, ys, if p == a then paused else pausedA, if p == c then paused else pausedC,
                  old(b.currentKey), old(b.rest))
  {
    if paused {
      b.Pause(p);
    } else {
      b.Resume(p);
    }
  }

  /** `flush` on a two-partition buffer: that partition's pending records are gone. */
  method FlushOfTwo(b: Buffer<int, int>, a: int, c: int, ghost xs: seq<int>, ghost ys: seq<int>,
                    ghost pausedA: bool, ghost pausedC: bool, p: int)
    requires Holds(b, a, c, xs, ys, pausedA, pausedC, b.currentKey, b.rest) && (p == a || p == c)
    modifies b
    ensures Holds(b, a, c, if p == a then [] else xs, if p == c then [] else ys, pausedA, pausedC,
                  old(b.currentKey), old(b.rest))
  {
    b.Flush(p);
  }

  /** One more record as one more result. */
  lemma SomesSnoc(xs: seq<int>, i: nat)
    requires i < |xs|
    ensures Somes(xs[..i + 1]) == Somes(xs[..i]) + [Some(xs[i])]
  {
  }

  /**
   * Draining a fresh buffer of two unpaused partitions: all the records of the first partition
   * in the key order, then all the records of the second, then null.
   */
  method DrainBoth(b: Buffer<int, int>, a: int, c: int, xs: seq<int>, ys: seq<int>)
    returns (results: seq<Option<int>>)
    requires Holds(b, a, c, xs, ys, false, false, None, [])
    modifies b
    ensures results == Somes(xs) + Somes(ys) + [None]
  {
    var first := DrainFirst(b, a, c, xs, ys);
    var second := DrainSecond(b, a, c, ys);
    var r := NextOfTwo(b, a, c, [], [], false, false);
    results := first + second + [r];
  }

  /** Every record of the first partition, the key iterator staying on it. */
  method DrainFirst(b: Buffer<int, int>, a: int, c: int, xs: seq<int>, ys: seq<int>)
    returns (results: seq<Option<int>>)
    requires Holds(b, a, c, xs, ys, false, false, None, [])
    modifies b
    ensures Holds(b, a, c, [], ys, false, false, b.currentKey, b.rest) && b.currentKey != Some(c)
    ensures results == Somes(xs)
  {
    results := [];
    for i := 0 to |xs|
      invariant Holds(b, a, c, xs[i..], ys, false, false, b.currentKey, b.rest) && b.currentKey != Some(c)
      invariant results == Somes(xs[..i])
    {
      assert TwoPick(a, c, xs[i..], ys, false, false, b.currentKey) == Some(a);
      var r := NextOfTwo(b, a, c, xs[i..], ys, false, false);
      assert xs[i..][1..] == xs[i + 1..];
      SomesSnoc(xs, i);
      results := results + [r];
    }
    assert xs[..|xs|] == xs;
  }

  /** The first partition used up: the key iterator moves on to the second and drains it. */
  method DrainSecond(b: Buffer<int, int>, a: int, c: int, ys: seq<int>) returns (results: seq<Option<int>>)
    requires Holds(b, a, c, [], ys, false, false, b.currentKey, b.rest) && b.currentKey != Some(c)
    modifies b
    ensures Holds(b, a, c, [], [], false, false, b.currentKey, b.rest)
    ensures results == Somes(ys)
  {
    results := [];
    for i := 0 to |ys|
      invariant Holds(b, a, c, [], ys[i..], false, false, b.currentKey, b.rest)
      invariant i > 0 ==> b.currentKey == Some(c)
      invariant results == Somes(ys[..i])
    {
      assert TwoPick(a, c, [], ys[i..], false, false, b.currentKey) == Some(c);
      var r := NextOfTwo(b, a, c, [], ys[i..], false, false);
      assert ys[i..][1..] == ys[i + 1..];
      SomesSnoc(ys, i);
      results := results + [r];
    }
    assert ys[..|ys|] == ys;
  }

  /** Two partitions drained in turn: 20 to 25 from partition 0, 90 to 95 from partition 1, then null. */
  method ConsumerBufferNextReplay() returns (results: seq<Option<int>>, ordered: bool)
    ensures ordered ==> results == Somes([20, 21, 22, 23, 24, 25]) + Somes([90, 91, 92, 93, 94, 95]) + [None]
    ensures !ordered ==> results == Somes([90, 91, 92, 93, 94, 95]) + Somes([20, 21, 22, 23, 24, 25]) + [None]
  {
    var b;
    b, ordered := NewTwo(0, 1, [20, 21, 22, 23, 24, 25], [90, 91, 92, 93, 94, 95]);
    if ordered {
      results := DrainBoth(b, 0, 1, [20, 21, 22, 23, 24, 25], [90, 91, 92, 93, 94, 95]);
    } else {
      results := DrainBoth(b, 1, 0, [90, 91, 92, 93, 94, 95], [20, 21, 22, 23, 24, 25]);
    }
  }

  /**
   * Records added while the buffer is being drained: partition 1 gets a second batch while it
   * is current and is drained to its end before partition 0's second batch. The expected
   * results assume a fresh key iterator visits partition 0 first, as `NewTwo` allows.
   */
  method ConsumerBufferAddReplay(b: Buffer<int, int>) returns (results: seq<Option<int>>)
    requires Holds(b, 0, 1, [20, 21, 22], [90, 91, 92], false, false, None, [])
    modifies b
    ensures results == [Some(20), Some(21), Some(22), Some(90), Some(91), Some(92), Some(93), Some(94), Some(95),
                        Some(23), Some(24), Some(25), None]
  {
    var r1 := NextOfTwo(b, 0, 1, [20, 21, 22], [90, 91, 92], false, false);
    var r2 := NextOfTwo(b, 0, 1, [21, 22], [90, 91, 92], false, false);
    var r3 := NextOfTwo(b, 0, 1, [22], [90, 91, 92], false, false);
    var r4 := NextOfTwo(b, 0, 1, [], [90, 91, 92], false, false);
    var r5 := NextOfTwo(b, 0, 1, [], [91, 92], false, false);
    var r6 := SecondBatches(b);
    var rest := SecondRound(b);
    results := [r1, r2, r3, r4, r5, r6, rest[0], rest[1], rest[2], rest[3], rest[4], rest[5], rest[6]];
  }

  /**
   * The middle of the add and flush scenarios: a second batch for partition 1, its last
   * original record, then a second batch for partition 0.
   */
  method SecondBatches(b: Buffer<int, int>) returns (r: Option<int>)
    requires Holds(b, 0, 1, [], [92], false, false, Some(1), [])
    modifies b
    ensures Holds(b, 0, 1, [23, 24, 25], [93, 94, 95], false, false, Some(1), [])
    ensures r == Some(92)
  {
    assert [92] + [93, 94, 95] == [92, 93, 94, 95];
    assert [] + [23, 24, 25] == [23, 24, 25];
    AddOfTwo(b, 0, 1, [], [92], false, false, 1, [93, 94, 95]);
    r := NextOfTwo(b, 0, 1, [], [92, 93, 94, 95], false, false);
    AddOfTwo(b, 0, 1, [], [93, 94, 95], false, false, 0, [23, 24, 25]);
  }

  /** The end of the add and flush scenarios: partition 1 drained, then partition 0, then null. */
  method SecondRound(b: Buffer<int, int>) returns (results: seq<Option<int>>)
    requires Holds(b, 0, 1, [23, 24, 25], [93, 94, 95], false, false, Some(1), [])
    modifies b
    ensures results == [Some(93), Some(94), Some(95), Some(23), Some(24), Some(25), None]
  {
    var r1 := NextOfTwo(b, 0, 1, [23, 24, 25], [93, 94, 95], false, false);
    var r2 := NextOfTwo(b, 0, 1, [23, 24, 25], [94, 95], false, false);
    var r3 := NextOfTwo(b, 0, 1, [23, 24, 25], [95], false, false);
    var r4 := NextOfTwo(b, 0, 1, [23, 24, 25], [], false, false);
    var r5 := NextOfTwo(b, 0, 1, [24, 25], [], false, false);
    var r6 := NextOfTwo(b, 0, 1, [25], [], false, false);
    var r7 := NextOfTwo(b, 0, 1, [], [], false, false);
    results := [r1, r2, r3, r4, r5, r6, r7];
  }

  /**
   * A partition paused while it has records: the key iterator moves on to the other one and
   * stays there after the resume until it is used up; the paused records come after.
   */
  method ConsumerBufferPauseReplay(b: Buffer<int, int>) returns (results: seq<Option<int>>)
    requires Holds(b, 0, 1, [20, 21, 22], [90, 91, 92], false, false, None, [])
    modifies b
    ensures results == [Some(20), Some(90), Some(91), Some(92), Some(93), Some(94), Some(95),
                        Some(21), Some(22), Some(23), Some(24), Some(25), None]
  {
    var r1 := NextOfTwo(b, 0, 1, [20, 21, 22], [90, 91, 92], false, false);
    PauseOfTwo(b, 0, 1, [21, 22], [90, 91, 92], false, false, 0, true);
    var r2 := NextOfTwo(b, 0, 1, [21, 22], [90, 91, 92], true, false);
    PauseOfTwo(b, 0, 1, [21, 22], [91, 92], true, false, 0, false);
    var r3 := NextOfTwo(b, 0, 1, [21, 22], [91, 92], false, false);
    var r4 := PauseMiddle(b);
    var rest := PauseRound(b);
    results := [r1, r2, r3, r4, rest[0], rest[1], rest[2], rest[3], rest[4], rest[5], rest[6], rest[7], rest[8]];
  }

  /** The middle of the pause scenario: a second batch for each partition around one more record. */
  method PauseMiddle(b: Buffer<int, int>) returns (r: Option<int>)
    requires Holds(b, 0, 1, [21, 22], [92], false, false, Some(1), [])
    modifies b
    ensures Holds(b, 0, 1, [21, 22, 23, 24, 25], [93, 94, 95], false, false, Some(1), [])
    ensures r == Some(92)
  {
    assert [92] + [93, 94, 95] == [92, 93, 94, 95];
    assert [21, 22] + [23, 24, 25] == [21, 22, 23, 24, 25];
    AddOfTwo(b, 0, 1, [21, 22], [92], false, false, 1, [93, 94, 95]);
    r := NextOfTwo(b, 0, 1, [21, 22], [92, 93, 94, 95], false, false);
    AddOfTwo(b, 0, 1, [21, 22], [93, 94, 95], false, false, 0, [23, 24, 25]);
  }

  /** The end of the pause scenario: partition 1 drained, then all of partition 0, then null. */
  method PauseRound(b: Buffer<int, int>) returns (results: seq<Option<int>>)
    requires Holds(b, 0, 1, [21, 22, 23, 24, 25], [93, 94, 95], false, false, Some(1), [])
    modifies b
    ensures results == [Some(93), Some(94), Some(95), Some(21), Some(22), Some(23), Some(24), Some(25), None]
  {
    var r1 := NextOfTwo(b, 0, 1, [21, 22, 23, 24, 25], [93, 94, 95], false, false);
    var r2 := NextOfTwo(b, 0, 1, [21, 22, 23, 24, 25], [94, 95], false, false);
    var r3 := NextOfTwo(b, 0, 1, [21, 22, 23, 24, 25], [95], false, false);
    var r4 := NextOfTwo(b, 0, 1, [21, 22, 23, 24, 25], [], false, false);
    var r5 := NextOfTwo(b, 0, 1, [22, 23, 24, 25], [], false, false);
    var r6 := NextOfTwo(b, 0, 1, [23, 24, 25], [], false, false);
    var r7 := NextOfTwo(b, 0, 1, [24, 25], [], false, false);
    var r8 := NextOfTwo(b, 0, 1, [25], [], false, false);
    var r9 := NextOfTwo(b, 0, 1, [], [], false, false);
    results := [r1, r2, r3, r4, r5, r6, r7, r8, r9];
  }

  /**
   * A partition flushed while it has records: they are never returned, and its next batch
   * comes after the other partition is used up.
   */
  method ConsumerBufferFlushReplay(b: Buffer<int, int>) returns (results: seq<Option<int>>)
    requires Holds(b, 0, 1, [20, 21, 22], [90, 91, 92], false, false, None, [])
    modifies b
    ensures results == [Some(20), Some(90), Some(91), Some(92), Some(93), Some(94), Some(95),
                        Some(23), Some(24), Some(25), None]
  {
    var r1 := NextOfTwo(b, 0, 1, [20, 21, 22], [90, 91, 92], false, false);
    FlushOfTwo(b, 0, 1, [21, 22], [90, 91, 92], false, false, 0);
    var r2 := NextOfTwo(b, 0, 1, [], [90, 91, 92], false, false);
    var r3 := NextOfTwo(b, 0, 1, [], [91, 92], false, false);
    var r4 := SecondBatches(b);
    var rest := SecondRound(b);
    results := [r1, r2, r3, r4, rest[0], rest[1], rest[2], rest[3], rest[4], rest[5], rest[6]];
  }

  /**
   * Out of step with the key order, the scan of `next` can look at a partition twice: the
   * live iterator still has `[1, 2]` after key 0, while a fresh iterator now visits
   * `[3, 2, 1, 0]`. The scan stays within the bound of `NextNoneReady`.
   */
  lemma ReorderedScan()
    ensures ScanOrder([3, 2, 1, 0], Some(0), [1, 2]) == [0, 1, 2, 3, 2, 1]
    ensures |ScanOrder([3, 2, 1, 0], Some(0), [1, 2])| <= |StartRest([3, 2, 1, 0], Some(0), [1, 2])| + 4
    ensures !Distinct(ScanOrder([3, 2, 1, 0], Some(0), [1, 2]))
  {
    var order := ScanOrder([3, 2, 1, 0], Some(0), [1, 2]);
    assert order == [0, 1, 2, 3, 2, 1];
    DistinctIndices(order);
    assert order[2] == order[4];
  }

  /**
   * A partition that appears after the key iterator has been used up. Partition 0 gets 20,
   * which `next` returns, leaving the iterator on partition 0 with nothing left; then
   * partition 1 gets 90. When a fresh iterator visits partition 0 first, the next `next` only
   * looks at partition 0 and returns null although 90 is pending; the call after it returns 90.
   * With the other order it returns 90 at once.
   */
  method StaleIteratorReplay() returns (r1: Option<int>, r2: Option<int>, r3: Option<int>, ordered: bool)
    ensures r1 == Some(20)
    ensures ordered ==> r2 == None && r3 == Some(90)
    ensures !ordered ==> r2 == Some(90) && r3 == None
  {
    var b := new Buffer<int, int>();
    b.Add(0, [20]);
    DistinctWithin(b.keys, {0});
    assert b.keys == [0] by { assert 0 in b.keys; }
    r1 := FirstRecord(b);
    SecondPartition(b);
    ordered := b.keys == [0, 1];
    if ordered {
      r2, r3 := AfterNewPartitionFirst(b);
    } else {
      assert TwoQueues(b.buffers, 1, 0, [90], [], false, false) by {
        assert {0, 1} == {1, 0};
      }
      r2, r3 := AfterNewPartitionLast(b);
    }
  }

  /** Partition 1 appears with 90 after partition 0 has been drained; the key iterator stays put. */
  method SecondPartition(b: Buffer<int, int>)
    requires b.Valid() && b.keys == [0]
    requires b.buffers.Keys == {0} && Pending(b.buffers[0]) == [] && !b.buffers[0].paused
    modifies b
    ensures b.Valid() && (b.keys == [0, 1] || b.keys == [1, 0])
    ensures b.currentKey == old(b.currentKey) && b.rest == old(b.rest)
    ensures TwoQueues(b.buffers, 0, 1, [], [90], false, false)
  {
    assert [] + [90] == [90];
    b.Add(1, [90]);
    TwoKeys(b.keys, 0, 1);
  }

  /** The first call of that scenario: the only record of the only partition. */
  method FirstRecord(b: Buffer<int, int>) returns (r: Option<int>)
    requires b.Valid() && b.keys == [0] && b.currentKey == None && b.rest == []
    requires b.buffers.Keys == {0} && Pending(b.buffers[0]) == [20] && !b.buffers[0].paused
    modifies b
    ensures b.Valid() && b.keys == [0] && b.currentKey == Some(0) && b.rest == []
    ensures b.buffers.Keys == {0} && Pending(b.buffers[0]) == [] && !b.buffers[0].paused
    ensures r == Some(20)
  {
    ghost var before := b.buffers;
    r := b.Next();
    NextFirstReady([0], before, None, [], r, b.buffers, b.currentKey, b.rest, 0);
  }

  /**
   * The second and third calls of that scenario, once partition 1 holds 90, when a fresh key
   * iterator visits partition 0 first: the used-up iterator is renewed, returns partition 0
   * again at once, and the call gives up; the iterator now has partition 1 left.
   */
  method AfterNewPartitionFirst(b: Buffer<int, int>) returns (r2: Option<int>, r3: Option<int>)
    requires b.Valid() && b.keys == [0, 1] && b.currentKey == Some(0) && b.rest == []
    requires TwoQueues(b.buffers, 0, 1, [], [90], false, false)
    modifies b
    ensures r2 == None && r3 == Some(90)
  {
    ghost var before := b.buffers;
    r2 := b.Next();
    StaleScan(b.keys, before, r2, b.buffers, b.currentKey, b.rest);
    r3 := NextOfTwo(b, 0, 1, [], [90], false, false);
  }

  /**
   * The second call of that scenario: with the iterator used up on partition 0, the scan
   * renews it, meets partition 0 first and stops there, so partition 1 is not looked at.
   */
  lemma StaleScan(keys: seq<int>, before: map<int, Queue<int>>,
                  r: Option<int>, after: map<int, Queue<int>>, current': Option<int>, rest': seq<int>)
    requires keys == [0, 1] && TwoQueues(before, 0, 1, [], [90], false, false)
    requires Enumerates(keys, before.Keys) && CursorWithin(before.Keys, [], Some(0))
    requires NextOutcome(keys, before, Some(0), [], r, after, current', rest')
    ensures r == None && current' == Some(0) && rest' == [1]
    ensures TwoQueues(after, 0, 1, [], [90], false, false)
  {
    assert ScanOrder(keys, Some(0), []) == [0];
    NextNoneReady(keys, before, Some(0), [], r, after, current', rest');
    assert 0 in before && 1 in before;
  }

  /**
   * The same two calls when a fresh key iterator visits partition 1 first: the renewed
   * iterator reaches partition 1 before partition 0.
   */
  method AfterNewPartitionLast(b: Buffer<int, int>) returns (r2: Option<int>, r3: Option<int>)
    requires b.Valid() && b.keys == [1, 0] && b.currentKey == Some(0) && b.rest == []
    requires TwoQueues(b.buffers, 1, 0, [90], [], false, false)
    modifies b
    ensures r2 == Some(90) && r3 == None
  {
    r2 := NextOfTwo(b, 1, 0, [90], [], false, false);
    r3 := NextOfTwo(b, 1, 0, [], [], false, false);
  }

  /**
   * The same scenario with `next` putting the key iterator back in step first: the call after
   * partition 1 appears returns 90 whichever order a fresh iterator visits the partitions in.
   */
  method ResyncedReplay() returns (r1: Option<int>, r2: Option<int>, r3: Option<int>)
    ensures r1 == Some(20) && r2 == Some(90) && r3 == None
  {
    var b := new Buffer<int, int>();
    b.Add(0, [20]);
    DistinctWithin(b.keys, {0});
    assert b.keys == [0] by { assert 0 in b.keys; }
    r1 := FirstRecord(b);
    SecondPartition(b);
    r2, r3 := ResyncedCalls(b);
  }

  /** The second and third calls of the resynchronised scenario. */
  method ResyncedCalls(b: Buffer<int, int>) returns (r2: Option<int>, r3: Option<int>)
    requires b.Valid() && TwoQueues(b.buffers, 0, 1, [], [90], false, false)
    modifies b
    ensures r2 == Some(90) && r3 == None
  {
    ghost var before := b.buffers;
    r2 := b.NextInStep();
    ResyncedFinds(before, r2, b.buffers, b.currentKey);
    ghost var middle := b.buffers;
    r3 := b.NextInStep();
    assert r3 == None by {
      assert forall k :: k in middle ==> !Ready(middle, k);
    }
  }

  /** Only partition 1 is ready, so a `next` that finds a record whenever one exists takes 90. */
  lemma ResyncedFinds(before: map<int, Queue<int>>, r: Option<int>, after: map<int, Queue<int>>, current: Option<int>)
    requires TwoQueues(before, 0, 1, [], [90], false, false)
    requires r.Some? <==> exists k :: k in before && Ready(before, k)
    requires r.Some? ==> && current.Some? && Ready(before, current.value)
                         && r == Some(Pending(before[current.value])[0]) && RecordsTaken(before, after, current)
    ensures r == Some(90) && current == Some(1)
    ensures forall k :: k in after ==> !Ready(after, k)
  {
    assert Ready(before, 1);
    assert current.value == 1 by { assert current.value in before.Keys; }
    assert 0 in before && 1 in before;
    forall k | k in after ensures !Ready(after, k) {
      assert k in before.Keys;
    }
  }
}
