/**
 The session registry's collection, an unbounded FIFO queue (a
 `ConcurrentLinkedQueue`), as a sequence in queue order. `offer` appends;
 `remove(o)` deletes the first element equal to `o`, if any. Sessions are
 compared by identity, as Dafny compares objects.
 */
module Queue {

  /** No element occurs twice. */
  predicate Distinct<T(==)>(q: seq<T>)
  {
    forall i, j :: 0 <= i < j < |q| ==> q[i] != q[j]
  }

  /** Position of the first occurrence of `x` in `q`. */
  function IndexOf<T(==)>(q: seq<T>, x: T): (i: nat)
    requires x in q
    ensures i < |q| && q[i] == x
    ensures x !in q[..i]
  {
    if q[0] == x then 0 else 1 + IndexOf(q[1..], x)
  }

  /** `remove(x)`: the queue without its first occurrence of `x`; unchanged when `x` is absent. */
  function RemoveFirst<T(==)>(q: seq<T>, x: T): (r: seq<T>)
    ensures x !in q ==> r == q
    ensures x in q ==> r == q[..IndexOf(q, x)] + q[IndexOf(q, x) + 1..]
  {
    if q == [] then []
    else if q[0] == x then q[1..]
    else [q[0]] + RemoveFirst(q[1..], x)
  }

  /** Removing takes away exactly one occurrence of `x` when there is one, and nothing else. */
  lemma RemoveFirstMultiset<T>(q: seq<T>, x: T)
    ensures x in q ==> multiset(RemoveFirst(q, x)) == multiset(q) - multiset{x}
    ensures x in q ==> |RemoveFirst(q, x)| == |q| - 1
  {
    if x in q {
      var i := IndexOf(q, x);
      assert q == q[..i] + [x] + q[i + 1..];
      calc {
        multiset(q);
        multiset(q[..i]) + multiset{x} + multiset(q[i + 1..]);
        multiset(RemoveFirst(q, x)) + multiset{x};
      }
    }
  }

  /** Removing from a queue without duplicates keeps it without duplicates and leaves `x` absent. */
  lemma RemoveFirstDistinct<T>(q: seq<T>, x: T)
    requires Distinct(q)
    ensures Distinct(RemoveFirst(q, x))
    ensures x !in RemoveFirst(q, x)
  {
  }

  /** After `offer(x)` the queue is without duplicates exactly when it was and did not hold `x`. */
  lemma AppendDistinct<T>(q: seq<T>, x: T)
    ensures Distinct(q + [x]) <==> Distinct(q) && x !in q
  {
    var r := q + [x];
    if Distinct(r) {
      forall i, j | 0 <= i < j < |q| ensures q[i] != q[j] {
        assert q[i] == r[i] && q[j] == r[j];
      }
      forall k | 0 <= k < |q| ensures q[k] != x {
        assert r[k] == q[k] && r[|q|] == x;
      }
    }
  }

  /** `offer(x)` followed by `remove(x)` restores the queue, when `x` was not already in it. */
  lemma OfferThenRemove<T>(q: seq<T>, x: T)
    requires x !in q
    ensures RemoveFirst(q + [x], x) == q
  {
  }
}
