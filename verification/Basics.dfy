/** Types shared by every module of the model. */
module Basics {

  datatype Option<+T> = None | Some(value: T)

  type Byte = b: int | 0 <= b < 256

  /** Capacity of a read buffer: SVL_SERVICE_MAX_RECV. */
  const MAX_RECV: nat := 65535

  function Front<T>(s: seq<T>): seq<T>
    requires s != []
  {
    s[..|s| - 1]
  }

  function Last<T>(s: seq<T>): T
    requires s != []
  {
    s[|s| - 1]
  }
}

/** Counting arguments over pools of numbered objects. A resource is conserved when the
    multiset sum of all the places it can be in stays equal to `All(n)`. */
module Pools {
  import opened Basics

  /** The objects `0 .. n`, each exactly once. */
  function All(n: nat): multiset<nat> {
    if n == 0 then multiset{} else All(n - 1) + multiset{n - 1}
  }

  lemma {:induction false} AllCounts(n: nat)
    ensures |All(n)| == n
    ensures forall x: nat :: All(n)[x] == if x < n then 1 else 0
  {
    if n > 0 {
      AllCounts(n - 1);
    }
  }

  /** The ids `0 .. n` in order: what every setup loop leaves in a free list. */
  function Upto(n: nat): (r: seq<nat>)
    ensures |r| == n
  {
    if n == 0 then [] else Upto(n - 1) + [n - 1]
  }

  lemma {:induction false} UptoIsAll(n: nat)
    ensures multiset(Upto(n)) == All(n)
  {
    if n > 0 {
      UptoIsAll(n - 1);
      assert multiset(Upto(n - 1) + [n - 1]) == multiset(Upto(n - 1)) + multiset([n - 1]);
    }
  }

  lemma {:induction false} UptoAt(n: nat, k: nat)
    requires k < n
    ensures Upto(n)[k] == k
  {
    if k < n - 1 {
      UptoAt(n - 1, k);
    }
  }

  lemma PopFront<T>(q: seq<T>)
    requires q != []
    ensures multiset(q) == multiset(q[1..]) + multiset{q[0]}
  {
    assert q == [q[0]] + q[1..];
  }

  lemma PopBack<T>(q: seq<T>)
    requires q != []
    ensures multiset(q) == multiset(Front(q)) + multiset{Last(q)}
  {
    assert q == Front(q) + [Last(q)];
  }

  lemma Push<T>(q: seq<T>, x: T)
    ensures multiset(q + [x]) == multiset(q) + multiset{x}
  {
  }

  lemma SwapSum(a: multiset<nat>, b: multiset<nat>, c: multiset<nat>)
    ensures a + b + c == a + c + b
  {
  }

  lemma CancelSum(a: multiset<nat>, b: multiset<nat>, m: multiset<nat>)
    requires a + m == b + m
    ensures a == b
  {
    forall x: nat ensures a[x] == b[x] {
      assert (a + m)[x] == (b + m)[x];
    }
  }

  lemma CountSum(a: multiset<nat>, b: multiset<nat>, c: multiset<nat>, d: multiset<nat>, x: nat)
    ensures (a + b + c + d)[x] == a[x] + b[x] + c[x] + d[x]
    ensures |a + b + c + d| == |a| + |b| + |c| + |d|
  {
  }
}
