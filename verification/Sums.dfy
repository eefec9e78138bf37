/** Totals over a sequence, one measure per element. */
module Sums {
  import opened Arithmetic

  ghost function SumBy<T(!new)>(s: seq<T>, f: T -> nat): nat {
    if s == [] then 0 else SumBy(s[..|s| - 1], f) + f(s[|s| - 1])
  }

  lemma {:induction false} SumByUpdate<T(!new)>(s: seq<T>, f: T -> nat, i: nat, x: T)
    requires i < |s|
    ensures SumBy(s[i := x], f) == SumBy(s, f) - f(s[i]) + f(x)
  {
    var n := |s| - 1;
    if i == n {
      assert s[i := x][..n] == s[..n];
    } else {
      assert s[i := x][..n] == s[..n][i := x];
      SumByUpdate(s[..n], f, i, x);
    }
  }

  /** If no element exceeds `bound`, the total reaches `|s|` times the bound only when all do. */
  lemma {:induction false} SumByBound<T(!new)>(s: seq<T>, f: T -> nat, bound: nat)
    requires forall i | 0 <= i < |s| :: f(s[i]) <= bound
    ensures SumBy(s, f) <= Times(|s|, bound)
    ensures SumBy(s, f) == Times(|s|, bound) <==> forall i | 0 <= i < |s| :: f(s[i]) == bound
  {
    if s != [] {
      SumByBound(s[..|s| - 1], f, bound);
      assert forall i | 0 <= i < |s| - 1 :: s[..|s| - 1][i] == s[i];
    }
  }

  lemma {:induction false} SumByConstant<T(!new)>(s: seq<T>, f: T -> nat, c: nat)
    requires forall i | 0 <= i < |s| :: f(s[i]) == c
    ensures SumBy(s, f) == Times(|s|, c)
  {
    SumByBound(s, f, c);
  }

  /** Element by element no larger, in total no larger. */
  lemma {:induction false} SumByCompare<S(!new), T(!new)>(s: seq<S>, f: S -> nat, t: seq<T>, g: T -> nat)
    requires |s| == |t| && forall i | 0 <= i < |s| :: f(s[i]) <= g(t[i])
    ensures SumBy(s, f) <= SumBy(t, g)
  {
    if s != [] {
      var n := |s| - 1;
      assert forall i | 0 <= i < n :: f(s[..n][i]) <= g(t[..n][i]);
      SumByCompare(s[..n], f, t[..n], g);
    }
  }

  /** Element by element no larger, and somewhere smaller, in total smaller. */
  lemma {:induction false} SumByLess<S(!new), T(!new)>(s: seq<S>, f: S -> nat, t: seq<T>, g: T -> nat, i: nat)
    requires |s| == |t| && i < |s| && f(s[i]) < g(t[i])
    requires forall i | 0 <= i < |s| :: f(s[i]) <= g(t[i])
    ensures SumBy(s, f) < SumBy(t, g)
  {
    var n := |s| - 1;
    assert forall i | 0 <= i < n :: f(s[..n][i]) <= g(t[..n][i]);
    if i < n {
      SumByLess(s[..n], f, t[..n], g, i);
    } else {
      SumByCompare(s[..n], f, t[..n], g);
    }
  }

  lemma {:induction false} SumByPositive<T(!new)>(s: seq<T>, f: T -> nat, i: nat)
    requires i < |s|
    ensures SumBy(s, f) >= f(s[i])
  {
    if i < |s| - 1 {
      SumByPositive(s[..|s| - 1], f, i);
    }
  }
}
