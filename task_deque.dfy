/**
 * The pending-download deque. `loadImage` adds each task at the tail and the
 * dispatcher removes from the tail with `takeLast`, so the deque behaves as a
 * stack: the newest request is served first.
 */
module TaskDeque {

  /** `takeLast` on a non-empty deque: the tail element and what remains. */
  function TakeLast<T>(q: seq<T>): (r: (T, seq<T>))
    requires q != []
    ensures r.1 + [r.0] == q
  {
    (q[|q| - 1], q[..|q| - 1])
  }

  /** The order in which repeated `takeLast` calls hand out the tasks of `q`. */
  function Drain<T>(q: seq<T>): seq<T>
    decreases |q|
  {
    if q == [] then []
    else
      var (t, rest) := TakeLast(q);
      [t] + Drain(rest)
  }

  /** The reverse of a sequence, defined from its front. */
  function Reversed<T>(s: seq<T>): seq<T>
  {
    if s == [] then [] else Reversed(s[1..]) + [s[0]]
  }

  lemma {:induction false} ReversedSnoc<T>(s: seq<T>, x: T)
    ensures Reversed(s + [x]) == [x] + Reversed(s)
  {
    if s == [] {
      assert [x][1..] == [];
    } else {
      assert (s + [x])[1..] == s[1..] + [x];
      ReversedSnoc(s[1..], x);
    }
  }

  /** Tasks are taken in the reverse of the order they were submitted. */
  lemma {:induction false} DrainIsReversed<T>(q: seq<T>)
    ensures Drain(q) == Reversed(q)
  {
    if q != [] {
      var (t, rest) := TakeLast(q);
      DrainIsReversed(rest);
      ReversedSnoc(rest, t);
    }
  }

  /** Every submitted task is taken exactly once. */
  lemma {:induction false} DrainIsPermutation<T>(q: seq<T>)
    ensures |Drain(q)| == |q|
    ensures multiset(Drain(q)) == multiset(q)
  {
    if q != [] {
      var (t, rest) := TakeLast(q);
      DrainIsPermutation(rest);
    }
  }

  /** Submissions t1, t2, t3 are taken as t3, t2, t1. */
  lemma LastInFirstOut<T>(t1: T, t2: T, t3: T)
    ensures Drain([t1, t2, t3]) == [t3, t2, t1]
  {
    DrainIsReversed([t1, t2, t3]);
    assert [t1, t2, t3][1..] == [t2, t3] && [t2, t3][1..] == [t3] && [t3][1..] == [];
    assert Reversed([t3]) == [t3];
    assert Reversed([t2, t3]) == [t3, t2];
  }
}
