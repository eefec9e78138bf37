/** The few non-linear facts the address arithmetic rests on, each proved once and on its own. */
module Arithmetic {

  /** `n * d`, as repeated addition: proofs that only need the spacing of chunks and rows use this
      form and stay linear. */
  ghost function Times(n: nat, d: nat): nat {
    if n == 0 then 0 else Times(n - 1, d) + d
  }

  function Pow2(k: nat): nat {
    if k == 0 then 1 else 2 * Pow2(k - 1)
  }

  lemma {:induction false} TimesIsProduct(n: nat, d: nat)
    ensures Times(n, d) == n * d
  {
    if n > 0 {
      TimesIsProduct(n - 1, d);
    }
  }

  /** Chunks of size `d` do not overlap. */
  lemma {:induction false} TimesMonotone(m: nat, n: nat, d: nat)
    requires m <= n
    ensures Times(m, d) <= Times(n, d)
    decreases n
  {
    if m < n {
      TimesMonotone(m, n - 1, d);
    }
  }

  /** Every index below `n` chunks lies in one of them. */
  lemma {:induction false} ChunkOf(i: nat, n: nat, d: nat) returns (p: nat)
    requires i < Times(n, d)
    ensures p < n && Times(p, d) <= i < Times(p + 1, d)
  {
    if Times(n - 1, d) <= i {
      p := n - 1;
    } else {
      p := ChunkOf(i, n - 1, d);
    }
  }

  lemma MulMonotone(a: int, b: int, d: int)
    requires d >= 0
    ensures a <= b ==> a * d <= b * d
  {
    if a <= b {
      assert (b - a) * d >= 0;
    }
  }

  lemma MulDistributes(a: int, b: int, d: int)
    ensures (a + b) * d == a * d + b * d
  {
  }

  /** Quotient and remainder are what they were built from. */
  lemma DivMod(q: int, r: int, d: int)
    requires 0 <= r < d
    ensures (q * d + r) / d == q && (q * d + r) % d == r
  {
    var m := q * d + r;
    assert m == (m / d) * d + m % d;
    MulDistributes(q, -(m / d), d);
    MulMonotone(1, q - m / d, d);
    MulMonotone(q - m / d, -1, d);
  }

  lemma DivModIdentity(k: int, d: int)
    requires d >= 1
    ensures k == (k / d) * d + k % d && 0 <= k % d < d
  {
  }

  lemma DivMonotone(a: int, b: int, d: int)
    requires d >= 1 && a <= b
    ensures a / d <= b / d
  {
    assert (a / d) * d <= a && b < (b / d) * d + d;
    MulDistributes(b / d, 1, d);
    MulMonotone(b / d + 1, a / d, d);
  }

  lemma {:induction false} TimesAdds(m: nat, n: nat, d: nat)
    ensures Times(m + n, d) == Times(m, d) + Times(n, d)
  {
    if n > 0 {
      TimesAdds(m, n - 1, d);
    }
  }

  lemma TimesDivMod(q: nat, d: nat)
    requires d >= 1
    ensures Times(q, d) / d == q && Times(q, d) % d == 0
  {
    TimesIsProduct(q, d);
    DivMod(q, 0, d);
  }

  /** The block an index lies in, without division. */
  lemma BlockOf(k: nat, d: nat)
    requires d >= 1
    ensures Times(k / d, d) <= k < Times(k / d + 1, d)
    ensures k % d == 0 ==> k == Times(k / d, d)
  {
    DivModIdentity(k, d);
    TimesIsProduct(k / d, d);
  }

  /** Between two block boundaries lie whole blocks. */
  lemma WholeBlocks(k: nat, first: nat, end: nat, d: nat)
    requires d >= 1
    ensures Times(first, d) <= k < Times(end, d) <==> first <= k / d < end
  {
    BlockOf(k, d);
    BlockBetween(k, k / d, first, end, d);
  }

  lemma BlockBetween(k: nat, b: nat, first: nat, end: nat, d: nat)
    requires Times(b, d) <= k < Times(b + 1, d)
    ensures Times(first, d) <= k < Times(end, d) <==> first <= b < end
  {
    if first <= b { TimesMonotone(first, b, d); } else { TimesMonotone(b + 1, first, d); }
    if b < end { TimesMonotone(b + 1, end, d); } else { TimesMonotone(end, b, d); }
  }

  /** A multiple of `d` below `end` blocks: the next one opens the next block, within `end`. */
  lemma NextMultiple(k: nat, end: nat, d: nat)
    requires d >= 1 && k % d == 0 && k < Times(end, d)
    ensures (k + d) % d == 0 && (k + d) / d == k / d + 1 && k + d <= Times(end, d)
  {
    BlockOf(k, d);
    NextBlock(k / d, end, d);
  }

  lemma NextBlock(b: nat, end: nat, d: nat)
    requires d >= 1 && Times(b, d) < Times(end, d)
    ensures (Times(b, d) + d) % d == 0 && (Times(b, d) + d) / d == b + 1 && Times(b, d) + d <= Times(end, d)
  {
    assert Times(b + 1, d) == Times(b, d) + d;
    TimesDivMod(b + 1, d);
    if end <= b { TimesMonotone(end, b, d); }
    TimesMonotone(b + 1, if b < end then end else b + 1, d);
  }
}
