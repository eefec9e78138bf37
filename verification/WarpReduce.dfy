/** Maximum over a warp by butterfly shuffles, and over a block by two rounds of them. */
module WarpReduce {
  import opened Arithmetic

  const WARP_SIZE := 32

  // ---- lane numbers as bits ---------------------------------------------------------------------

  /** Bitwise exclusive or. */
  function Xor(a: nat, b: nat): nat {
    if a == 0 && b == 0 then 0 else 2 * Xor(a / 2, b / 2) + (if a % 2 != b % 2 then 1 else 0)
  }

  /** `a` and `b` have the same lowest `j` bits. */
  ghost predicate Agree(a: nat, b: nat, j: nat) {
    j == 0 || (a % 2 == b % 2 && Agree(a / 2, b / 2, j - 1))
  }

  lemma {:induction false} XorZero(a: nat)
    ensures Xor(a, 0) == a
  {
    if a > 0 {
      XorZero(a / 2);
    }
  }

  /** Flipping bit `j` is flipping bit `j - 1` of all bits but the lowest. */
  lemma XorStep(a: nat, j: nat)
    requires j > 0
    ensures Xor(a, Pow2(j)) == 2 * Xor(a / 2, Pow2(j - 1)) + a % 2
  {
    var p := Pow2(j - 1);
    assert Pow2(j) == 2 * p && (2 * p) / 2 == p && (2 * p) % 2 == 0;
  }

  lemma HalfInRange(a: nat, k: nat)
    requires k > 0
    ensures a < Pow2(k) <==> a / 2 < Pow2(k - 1)
  {
    assert Pow2(k) == 2 * Pow2(k - 1);
  }

  lemma LowestBit(half: nat, bit: nat)
    requires bit <= 1
    ensures (2 * half + bit) / 2 == half && (2 * half + bit) % 2 == bit
  {
  }

  /** Flipping bit 0 changes the lowest bit and nothing else. */
  lemma FlipLowest(a: nat)
    ensures Xor(a, Pow2(0)) / 2 == a / 2 && Xor(a, Pow2(0)) % 2 != a % 2
  {
    assert Pow2(0) == 1;
    XorZero(a / 2);
    LowestBit(Xor(a / 2, 1 / 2), if a % 2 != 1 then 1 else 0);
  }

  lemma {:induction false} XorInRange(a: nat, j: nat, k: nat)
    requires a < Pow2(k) && j < k
    ensures Xor(a, Pow2(j)) < Pow2(k)
    decreases j
  {
    hide Xor, Pow2;
    HalfInRange(a, k);
    HalfInRange(Xor(a, Pow2(j)), k);
    if j > 0 {
      XorStep(a, j);
      LowestBit(Xor(a / 2, Pow2(j - 1)), a % 2);
      XorInRange(a / 2, j - 1, k - 1);
    } else {
      FlipLowest(a);
    }
  }

  lemma {:induction false} AgreeWithSelf(a: nat, j: nat)
    ensures Agree(a, a, j)
  {
    if j > 0 {
      AgreeWithSelf(a / 2, j - 1);
    }
  }

  lemma {:induction false} AgreeOnAll(a: nat, b: nat, k: nat)
    requires a < Pow2(k) && b < Pow2(k)
    ensures Agree(a, b, k) <==> a == b
  {
    if k > 0 {
      AgreeOnAll(a / 2, b / 2, k - 1);
    }
  }

  lemma AgreeUnfold(a: nat, b: nat, j: nat)
    ensures Agree(a, b, j + 1) <==> a % 2 == b % 2 && Agree(a / 2, b / 2, j)
  {
  }

  /** The lanes that agree on `j` bits are those that agree on `j + 1` bits with the lane itself or
      with its partner across bit `j`. */
  lemma {:induction false} PartnersCover(a: nat, b: nat, j: nat)
    ensures Agree(a, b, j) <==> Agree(a, b, j + 1) || Agree(Xor(a, Pow2(j)), b, j + 1)
    decreases j
  {
    hide Xor, Pow2;
    var partner := Xor(a, Pow2(j));
    AgreeUnfold(a, b, j);
    AgreeUnfold(partner, b, j);
    if j > 0 {
      XorStep(a, j);
      LowestBit(Xor(a / 2, Pow2(j - 1)), a % 2);
      AgreeUnfold(a, b, j - 1);
      PartnersCover(a / 2, b / 2, j - 1);
    } else {
      FlipLowest(a);
    }
  }

  // ---- one warp -----------------------------------------------------------------------------------

  function Fmaxf(x: real, y: real): real {
    if x < y then y else x
  }

  /** All lanes at once take the maximum with the lane whose number differs by `offset`. */
  function ShuffleMax(lanes: seq<real>, offset: nat): (r: seq<real>)
    requires forall i | 0 <= i < |lanes| :: Xor(i, offset) < |lanes|
    ensures |r| == |lanes|
  {
    seq(|lanes|, i requires 0 <= i < |lanes| => Fmaxf(lanes[i], lanes[Xor(i, offset)]))
  }

  /** `v` is the maximum over the lanes that agree with lane `i` in the lowest `j` bits. */
  ghost predicate GroupMax(lanes: seq<real>, i: nat, j: nat, v: real) {
    && (forall m: nat | m < |lanes| && Agree(i, m, j) :: lanes[m] <= v)
    && (exists m: nat | m < |lanes| :: Agree(i, m, j) && lanes[m] == v)
  }

  /** The lanes after the offsets `2^(k-1)` down to `2^j`. */
  ghost function Butterfly(lanes: seq<real>, k: nat, j: nat): (r: seq<real>)
    requires |lanes| == Pow2(k) && j <= k
    ensures |r| == |lanes|
    decreases k - j
  {
    if j == k then lanes
    else
      PartnersInRange(j, k);
      ShuffleMax(Butterfly(lanes, k, j + 1), Pow2(j))
  }

  lemma PartnersInRange(j: nat, k: nat)
    requires j < k
    ensures forall i: nat | i < Pow2(k) :: Xor(i, Pow2(j)) < Pow2(k)
  {
    forall i: nat | i < Pow2(k) ensures Xor(i, Pow2(j)) < Pow2(k) {
      XorInRange(i, j, k);
    }
  }

  /** Merging the maxima of two partners. */
  lemma PartnersMerge(lanes: seq<real>, i: nat, j: nat, u: real, w: real)
    requires GroupMax(lanes, i, j + 1, u) && GroupMax(lanes, Xor(i, Pow2(j)), j + 1, w)
    ensures GroupMax(lanes, i, j, Fmaxf(u, w))
  {
    hide Agree, Xor, Pow2;
    var partner := Xor(i, Pow2(j));
    forall m: nat | m < |lanes| && Agree(i, m, j) ensures lanes[m] <= Fmaxf(u, w) {
      PartnersCover(i, m, j);
    }
    var m: nat :| m < |lanes| && Agree(if u < w then partner else i, m, j + 1) && lanes[m] == Fmaxf(u, w);
    PartnersCover(i, m, j);
  }

  /** What every lane holds half way down: the maximum over its residue class. */
  lemma {:induction false} ButterflyHolds(lanes: seq<real>, k: nat, j: nat, i: nat)
    requires |lanes| == Pow2(k) && j <= k && i < Pow2(k)
    ensures GroupMax(lanes, i, j, Butterfly(lanes, k, j)[i])
    decreases k - j
  {
    hide Agree, Xor, Pow2;
    if j == k {
      AgreeWithSelf(i, k);
      forall m: nat | m < |lanes| && Agree(i, m, k) ensures m == i {
        AgreeOnAll(i, m, k);
      }
    } else {
      XorInRange(i, j, k);
      PartnersInRange(j, k);
      var partner := Xor(i, Pow2(j));
      var before := Butterfly(lanes, k, j + 1);
      ButterflyHolds(lanes, k, j + 1, i);
      ButterflyHolds(lanes, k, j + 1, partner);
      PartnersMerge(lanes, i, j, before[i], before[partner]);
    }
  }

  /** `v` is the maximum of the values. */
  ghost predicate IsMax(values: seq<real>, v: real) {
    v in values && forall i | 0 <= i < |values| :: values[i] <= v
  }

  lemma MaxUnique(values: seq<real>, v: real, w: real)
    requires IsMax(values, v) && IsMax(values, w)
    ensures v == w
  {
  }

  /** The five shuffles leave the maximum of the warp in every lane. */
  method WarpReduceMax(lanes: seq<real>) returns (maxValue: seq<real>)
    requires |lanes| == WARP_SIZE
    ensures |maxValue| == WARP_SIZE
    ensures forall i | 0 <= i < WARP_SIZE :: IsMax(lanes, maxValue[i])
  {
    assert Pow2(0) == 1 && Pow2(1) == 2 && Pow2(2) == 4 && Pow2(3) == 8 && Pow2(4) == 16 && Pow2(5) == 32;
    maxValue := lanes;
    PartnersInRange(4, 5);
    maxValue := ShuffleMax(maxValue, 16);
    PartnersInRange(3, 5);
    maxValue := ShuffleMax(maxValue, 8);
    PartnersInRange(2, 5);
    maxValue := ShuffleMax(maxValue, 4);
    PartnersInRange(1, 5);
    maxValue := ShuffleMax(maxValue, 2);
    PartnersInRange(0, 5);
    maxValue := ShuffleMax(maxValue, 1);
    FiveShuffles(lanes, maxValue);
  }

  lemma FiveShuffles(lanes: seq<real>, maxValue: seq<real>)
    requires |lanes| == WARP_SIZE == Pow2(5) && maxValue == Butterfly(lanes, 5, 0)
    ensures forall i | 0 <= i < WARP_SIZE :: IsMax(lanes, maxValue[i])
  {
    forall i | 0 <= i < WARP_SIZE ensures IsMax(lanes, maxValue[i]) {
      ButterflyHolds(lanes, 5, 0, i);
      assert GroupMax(lanes, i, 0, maxValue[i]);
      forall m: nat | m < |lanes| ensures lanes[m] <= maxValue[i] {
        assert Agree(i, m, 0);
      }
    }
  }

  // ---- one block ----------------------------------------------------------------------------------

  ghost function Warp(values: seq<real>, w: nat): seq<real>
    requires WARP_SIZE * w + WARP_SIZE <= |values|
  {
    values[WARP_SIZE * w..WARP_SIZE * w + WARP_SIZE]
  }

  /** What `blockReduceMax` returns to the threads of warp 0: the maximum of the block, and of zero
      when some lane of warp 0 has no warp of its own. */
  ghost predicate BlockResult(values: seq<real>, v: real) {
    IsMax(if |values| / WARP_SIZE == WARP_SIZE then values else values + [0.0], v)
  }

  function Below(n: nat): (s: set<nat>)
    ensures forall w: nat :: w in s <==> w < n
  {
    if n == 0 then {} else Below(n - 1) + {n - 1}
  }

  /** Every warp reduces its own lanes and its lane 0 stores the result in the warp's shared cell.
      The warps finish in any order. */
  method ReduceWarps(values: seq<real>, warps: nat, warpLevelMaxs: array<real>)
    requires |values| == WARP_SIZE * warps && warps <= warpLevelMaxs.Length
    modifies warpLevelMaxs
    ensures forall w: nat | w < warps :: IsMax(Warp(values, w), warpLevelMaxs[w])
  {
    hide IsMax;
    var pending := Below(warps);
    while pending != {}
      invariant forall w | w in pending :: 0 <= w < warps
      invariant forall w: nat | w < warps && w !in pending :: IsMax(Warp(values, w), warpLevelMaxs[w])
      decreases |pending|
    {
      var warpId :| warpId in pending;
      var lanes := WarpReduceMax(values[WARP_SIZE * warpId..WARP_SIZE * warpId + WARP_SIZE]);
      warpLevelMaxs[warpId] := lanes[0];
      assert IsMax(Warp(values, warpId), warpLevelMaxs[warpId]);
      pending := pending - {warpId};
    }
  }

  /** Two rounds of warp maxima over shared memory, with a barrier in between; the shared cells
      start out with arbitrary contents. */
  method BlockReduceMax(values: seq<real>, warpLevelMaxs: array<real>) returns (maxValue: seq<real>)
    requires |values| > 0 && |values| % WARP_SIZE == 0 && |values| <= 1024
    requires warpLevelMaxs.Length == WARP_SIZE
    modifies warpLevelMaxs
    ensures |maxValue| == |values|
    ensures forall t | 0 <= t < WARP_SIZE :: BlockResult(values, maxValue[t]) && maxValue[t] == maxValue[0]
    ensures forall t | WARP_SIZE <= t < |values| :: maxValue[t] == 0.0
  {
    hide IsMax, BlockResult;
    var warps := |values| / WARP_SIZE;
    ReduceWarps(values, warps, warpLevelMaxs);
    // __syncthreads()
    var shared := warpLevelMaxs[..];
    maxValue := seq(|values|, threadIdx requires 0 <= threadIdx < |values| =>
      if threadIdx < warps then shared[threadIdx % WARP_SIZE] else 0.0);
    ghost var second := maxValue[..WARP_SIZE];
    var lanes := WarpReduceMax(maxValue[..WARP_SIZE]);
    forall t | 0 <= t < WARP_SIZE ensures BlockResult(values, lanes[t]) {
      MaxOfWarps(values, second, lanes[t]);
    }
    forall t | 0 <= t < WARP_SIZE ensures lanes[t] == lanes[0] {
      MaxUnique(second, lanes[t], lanes[0]);
    }
    maxValue := lanes + maxValue[WARP_SIZE..];
  }

  lemma MaxOfWarps(values: seq<real>, second: seq<real>, v: real)
    requires |values| > 0 && |values| % WARP_SIZE == 0 && |values| <= 1024 && |second| == WARP_SIZE
    requires forall w: nat | w < |values| / WARP_SIZE :: IsMax(Warp(values, w), second[w])
    requires forall w | |values| / WARP_SIZE <= w < WARP_SIZE :: second[w] == 0.0
    requires IsMax(second, v)
    ensures BlockResult(values, v)
  {
    var warps := |values| / WARP_SIZE;
    var all := if warps == WARP_SIZE then values else values + [0.0];
    forall i | 0 <= i < |all| ensures all[i] <= v {
      if i < |values| {
        var w := i / WARP_SIZE;
        assert Warp(values, w)[i - WARP_SIZE * w] == values[i] <= second[w];
      } else {
        assert second[warps] <= v;
      }
    }
    var w :| 0 <= w < WARP_SIZE && second[w] == v;
    if w < warps {
      var i :| 0 <= i < WARP_SIZE && Warp(values, w)[i] == v;
      assert all[WARP_SIZE * w + i] == v;
    } else {
      assert all[|values|] == v;
    }
  }

  /** Warp 0 gets the maximum of the block if and only if there are 32 warps, so that no lane is
      filled with zero, or some value is not negative. */
  lemma BlockMaxExactly(values: seq<real>, v: real)
    requires |values| > 0 && BlockResult(values, v)
    ensures IsMax(values, v)
            <==> (|values| / WARP_SIZE == WARP_SIZE || exists i | 0 <= i < |values| :: values[i] >= 0.0)
  {
    if |values| / WARP_SIZE != WARP_SIZE {
      var all := values + [0.0];
      assert forall i | 0 <= i < |values| :: all[i] == values[i];
      assert all[|values|] == 0.0 <= v;
      assert v in values || v == 0.0;
    }
  }

  /** The failing input: a block of 32 values of -1.0 comes out as zero. */
  lemma NegativeBlockLost(v: real)
    requires BlockResult(seq(WARP_SIZE, _ => -1.0), v)
    ensures v == 0.0 && IsMax(seq(WARP_SIZE, _ => -1.0), -1.0)
  {
    var values := seq(WARP_SIZE, _ => -1.0);
    var all := values + [0.0];
    assert all[|values|] == 0.0 && values[0] == -1.0;
    MaxUnique(all, v, 0.0);
  }
}
