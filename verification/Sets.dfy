/** Counting with finite sets. */
module Sets {

  function Range(lo: int, hi: int): (r: set<int>)
    ensures forall i :: i in r <==> lo <= i < hi
    ensures |r| == if lo <= hi then hi - lo else 0
    decreases hi - lo
  {
    if lo >= hi then {} else Range(lo, hi - 1) + {hi - 1}
  }

  lemma SubsetSize<T>(a: set<T>, b: set<T>)
    requires a <= b
    ensures |a| <= |b|
  {
    assert b == a + (b - a);
  }

  function Count(b: bool): int { if b then 1 else 0 }

  /** Sets that differ in one element at most. */
  lemma Toggle<T>(a: set<T>, b: set<T>, x: T)
    requires a - {x} == b - {x}
    ensures |b| == |a| + Count(x in b) - Count(x in a)
  {
    assert a == (a - {x}) + if x in a then {x} else {};
    assert b == (b - {x}) + if x in b then {x} else {};
  }

  /** Numbering a set with distinct numbers below n bounds its size. */
  lemma {:induction false} InjectiveBound(f: set<int>, pos: int -> int, n: nat)
    requires forall i :: i in f ==> 0 <= pos(i) < n
    requires forall i, j :: i in f && j in f && pos(i) == pos(j) ==> i == j
    ensures |f| <= n
  {
    if n == 0 {
      forall i | i in f ensures false {
      }
      assert f == {};
    } else if i :| i in f && pos(i) == n - 1 {
      InjectiveBound(f - {i}, pos, n - 1);
    } else {
      InjectiveBound(f, pos, n - 1);
    }
  }

  /** A set covered by the values of g on b is no larger than b. */
  lemma {:induction false} CoveredSize<T, U>(a: set<T>, b: set<U>, g: U -> T)
    requires forall x :: x in a ==> exists i :: i in b && g(i) == x
    ensures |a| <= |b|
  {
    if i :| i in b {
      forall x | x in a - {g(i)} ensures exists j :: j in b - {i} && g(j) == x {
        var j :| j in b && g(j) == x;
      }
      CoveredSize(a - {g(i)}, b - {i}, g);
      assert a <= (a - {g(i)}) + {g(i)};
      SubsetSize(a, (a - {g(i)}) + {g(i)});
    } else {
      assert b == {};
      assert a == {};
    }
  }
}
