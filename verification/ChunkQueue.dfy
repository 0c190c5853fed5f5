/** The shared priority queue of (retry_time, chunk index, retries), ordered like Python tuples. */
module ChunkQueue {

  /** The index that tells a worker to leave; real chunk indices are never negative. */
  const STOP_SENTINEL := -1

  datatype Item = Item(due: real, chunk: int, retries: nat)

  predicate AtMost(a: Item, b: Item) {
    || a.due < b.due
    || (a.due == b.due && (a.chunk < b.chunk || (a.chunk == b.chunk && a.retries <= b.retries)))
  }

  predicate Sorted(q: seq<Item>) {
    forall i, j | 0 <= i < j < |q| :: AtMost(q[i], q[j])
  }

  /** Queue.put: the queue is kept in order, so that get takes the head. */
  function Insert(q: seq<Item>, x: Item): (r: seq<Item>)
    ensures |r| == |q| + 1
    ensures forall y :: y in r <==> y == x || y in q
  {
    if q == [] then [x]
    else if AtMost(x, q[0]) then [x] + q
    else [q[0]] + Insert(q[1..], x)
  }

  function InsertMany(q: seq<Item>, x: Item, k: nat): (r: seq<Item>)
    ensures |r| == |q| + k
    ensures forall y :: y in r <==> y in q || (k > 0 && y == x)
  {
    if k == 0 then q else Insert(InsertMany(q, x, k - 1), x)
  }

  lemma SortedCons(x: Item, q: seq<Item>)
    requires Sorted(q) && forall y | y in q :: AtMost(x, y)
    ensures Sorted([x] + q)
  {
  }

  lemma {:induction false} InsertSorted(q: seq<Item>, x: Item)
    requires Sorted(q)
    ensures Sorted(Insert(q, x))
  {
    if q != [] {
      if AtMost(x, q[0]) {
        SortedCons(x, q);
      } else {
        InsertSorted(q[1..], x);
        SortedCons(q[0], Insert(q[1..], x));
      }
    }
  }

  lemma {:induction false} InsertManySorted(q: seq<Item>, x: Item, k: nat)
    requires Sorted(q)
    ensures Sorted(InsertMany(q, x, k))
  {
    if k > 0 {
      InsertManySorted(q, x, k - 1);
      InsertSorted(InsertMany(q, x, k - 1), x);
    }
  }

  /** A put followed by a get of the whole queue loses and invents nothing. */
  lemma {:induction false} InsertKeepsItems(q: seq<Item>, x: Item)
    ensures multiset(Insert(q, x)) == multiset(q) + multiset{x}
  {
    if q != [] && !AtMost(x, q[0]) {
      InsertKeepsItems(q[1..], x);
      assert q == [q[0]] + q[1..];
    }
  }

  /** The sum of f over the queue. */
  function Sum(q: seq<Item>, f: Item -> int): int {
    if q == [] then 0 else f(q[0]) + Sum(q[1..], f)
  }

  lemma {:induction false} SumInsert(q: seq<Item>, x: Item, f: Item -> int)
    ensures Sum(Insert(q, x), f) == Sum(q, f) + f(x)
  {
    if q != [] && !AtMost(x, q[0]) {
      SumInsert(q[1..], x, f);
      assert Insert(q, x)[1..] == Insert(q[1..], x);
    } else if q != [] {
      assert Insert(q, x)[1..] == q;
    }
  }

  lemma {:induction false} SumInsertMany(q: seq<Item>, x: Item, k: nat, f: Item -> int)
    ensures Sum(InsertMany(q, x, k), f) == Sum(q, f) + k * f(x)
  {
    if k > 0 {
      SumInsertMany(q, x, k - 1, f);
      SumInsert(InsertMany(q, x, k - 1), x, f);
      assert k * f(x) == (k - 1) * f(x) + f(x);
    }
  }

  lemma {:induction false} SumAtLeast(q: seq<Item>, x: Item, f: Item -> int)
    requires x in q && forall y :: f(y) >= 0
    ensures Sum(q, f) >= f(x)
  {
    if q[0] == x {
      SumNonNegative(q[1..], f);
    } else {
      SumAtLeast(q[1..], x, f);
    }
  }

  lemma {:induction false} SumNonNegative(q: seq<Item>, f: Item -> int)
    requires forall y :: f(y) >= 0
    ensures Sum(q, f) >= 0
  {
    if q != [] {
      SumNonNegative(q[1..], f);
    }
  }

  /**
   * No due item hides behind one that is not due: when the head of the queue is not due at the
   * instant `now`, nothing in the queue is.
   */
  lemma NothingDueBehind(q: seq<Item>, now: real)
    requires Sorted(q) && q != [] && now < q[0].due
    ensures forall x | x in q :: now < x.due
  {
    forall x | x in q ensures now < x.due {
      var i :| 0 <= i < |q| && q[i] == x;
    }
  }
}
