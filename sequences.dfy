/** Facts about sequences and maps that the buffer model relies on. */
module Sequences {

  /** The records of a list of batches, oldest batch first. */
  function Flatten<T>(batches: seq<seq<T>>): seq<T>
  {
    if batches == [] then [] else batches[0] + Flatten(batches[1..])
  }

  /** Appending batches appends their records. */
  lemma {:induction false} FlattenAppend<T>(a: seq<seq<T>>, b: seq<seq<T>>)
    ensures Flatten(a + b) == Flatten(a) + Flatten(b)
  {
    if a == [] {
      assert a + b == b;
    } else {
      assert (a + b)[1..] == a[1..] + b;
      FlattenAppend(a[1..], b);
    }
  }

  /** A prefix one longer holds one more element. */
  lemma PrefixGrows<T>(s: seq<T>, n: nat)
    requires n < |s|
    ensures forall x :: x in s[..n + 1] <==> x in s[..n] || x == s[n]
  {
    assert s[..n + 1] == s[..n] + [s[n]];
  }

  /** No element occurs twice. */
  predicate Distinct<T(==)>(s: seq<T>)
  {
    s == [] || (s[0] !in s[1..] && Distinct(s[1..]))
  }

  /** No element occurs twice: no two positions hold the same element. */
  lemma {:induction false} DistinctIndices<T>(s: seq<T>)
    ensures Distinct(s) <==> forall i, j :: 0 <= i < j < |s| ==> s[i] != s[j]
  {
    if s != [] {
      DistinctIndices(s[1..]);
      if forall i, j :: 0 <= i < j < |s| ==> s[i] != s[j] {
        assert forall i, j :: 0 <= i < j < |s[1..]| ==> s[1..][i] != s[1..][j] by {
          forall i, j | 0 <= i < j < |s[1..]| ensures s[1..][i] != s[1..][j] {
            assert s[1..][i] == s[i + 1] && s[1..][j] == s[j + 1];
          }
        }
        assert s[0] !in s[1..] by {
          forall k | 0 <= k < |s[1..]| ensures s[1..][k] != s[0] {
            assert s[1..][k] == s[k + 1];
          }
        }
      }
      if Distinct(s) {
        forall i, j | 0 <= i < j < |s| ensures s[i] != s[j] {
          assert s[j] == s[1..][j - 1];
          if i > 0 {
            assert s[i] == s[1..][i - 1];
          }
        }
      }
    }
  }

  /** A suffix of a sequence without repetitions has none, and does not hold what precedes it. */
  lemma {:induction false} DistinctSuffix<T>(s: seq<T>, i: nat)
    requires Distinct(s) && i < |s|
    ensures Distinct(s[i + 1..]) && s[i] !in s[i + 1..]
  {
    if i > 0 {
      DistinctSuffix(s[1..], i - 1);
      assert s[1..][i..] == s[i + 1..];
    }
  }

  /** The position of the first occurrence of `x` in `s`. */
  function IndexOf<T(==)>(s: seq<T>, x: T): (i: nat)
    requires x in s
    ensures i < |s| && s[i] == x
    ensures forall k :: 0 <= k < i ==> s[k] != x
  {
    if s[0] == x then 0 else 1 + IndexOf(s[1..], x)
  }

  /** In a sequence without repetitions, an element's position is the one it is found at. */
  lemma IndexOfDistinct<T>(s: seq<T>, i: nat)
    requires Distinct(s) && i < |s|
    ensures IndexOf(s, s[i]) == i
  {
    DistinctIndices(s);
  }

  /** A sequence without repetitions drawn from a finite set is no longer than the set is large. */
  lemma {:induction false} DistinctWithin<T>(s: seq<T>, known: set<T>)
    requires Distinct(s) && forall x :: x in s ==> x in known
    ensures |s| <= |known|
  {
    if s != [] {
      assert forall x :: x in s[1..] ==> x in s;
      DistinctWithin(s[1..], known - {s[0]});
    }
  }

  /** Rotating a sequence without repetitions to start at position `j` keeps its elements and
      adds no repetition. */
  lemma RotationEnumerates<T>(s: seq<T>, j: nat)
    requires Distinct(s) && j < |s|
    ensures Distinct(s[j..] + s[..j])
    ensures forall x :: x in s[j..] + s[..j] <==> x in s
  {
    var r := s[j..] + s[..j];
    DistinctIndices(s);
    DistinctIndices(r);
    assert s == s[..j] + s[j..];
    forall a, b | 0 <= a < b < |r| ensures r[a] != r[b] {
      var ia := if a < |s| - j then a + j else a - (|s| - j);
      var ib := if b < |s| - j then b + j else b - (|s| - j);
      assert r[a] == s[ia] && r[b] == s[ib];
    }
  }

  /** `s` lists every element of `known`, and nothing else, exactly once. */
  predicate Enumerates<T>(s: seq<T>, known: set<T>)
  {
    Distinct(s) && (forall x :: x in s ==> x in known) && (forall x :: x in known ==> x in s)
  }

  /** Listing a new element last enumerates the larger set. */
  lemma EnumeratesAppend<T>(s: seq<T>, known: set<T>, x: T)
    requires Enumerates(s, known) && x !in known
    ensures Enumerates(s + [x], known + {x})
  {
    DistinctIndices(s);
    DistinctIndices(s + [x]);
  }

  /**
   * Some enumeration of `known`: the model's stand-in for the iteration order of a hash
   * table, which no caller can predict. `example` shows that one exists.
   */
  method HashOrder<T>(known: set<T>, example: seq<T>) returns (order: seq<T>)
    requires Enumerates(example, known)
    ensures Enumerates(order, known)
  {
    order :| Enumerates(order, known);
  }
}
