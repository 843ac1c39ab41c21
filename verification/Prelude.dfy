/** Result and option types shared by every component of the model. */
module Prelude {

  datatype Option<+T> = None | Some(value: T)

  /** An operation that either returns a value or raises one of the source's errors. */
  datatype Result<+T, +E> = Success(value: T) | Failure(error: E) {
    predicate IsFailure() {
      Failure?
    }

    function PropagateFailure<U>(): Result<U, E>
      requires Failure?
    {
      Failure(error)
    }

    function Extract(): T
      requires Success?
    {
      value
    }
  }

  function Min(a: int, b: int): int {
    if a < b then a else b
  }

  function Max(a: int, b: int): int {
    if a < b then b else a
  }

  /** A set of numbers below a bound and the same set moved by one have as many elements. */
  lemma {:induction false} Shifted(s: set<int>, t: set<int>, n: nat)
    requires forall i :: i in s <==> i + 1 in t
    requires forall i :: i in s ==> 0 <= i < n
    ensures |s| == |t|
  {
    if n == 0 {
      assert forall i :: i !in s;
      forall j ensures j !in t {
        assert (j - 1) + 1 == j && j - 1 !in s;
      }
    } else {
      Shifted(s - {n - 1}, t - {n}, n - 1);
    }
  }

  /** Positions in a sequence from those in its tail, and whether its head is one. */
  lemma Prepended(all: set<int>, tail: set<int>, n: nat, head: bool)
    requires forall i :: i in tail <==> i + 1 in all && i >= 0
    requires forall i :: i in all ==> 0 <= i <= n
    requires 0 in all <==> head
    ensures |all| == |tail| + if head then 1 else 0
  {
    var rest := all - {0};
    forall i ensures i in tail <==> i + 1 in rest {
    }
    Shifted(tail, rest, n);
    assert all == if head then rest + {0} else rest;
  }
}
