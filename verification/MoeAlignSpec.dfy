/** What block alignment is meant to produce: a stable counting sort of the routed tokens by
    expert, in which the segment of every expert is padded to a multiple of the block size. */
module MoeAlignSpec {
  import opened Arithmetic

  ghost predicate ValidIds(ids: seq<int>, numExperts: nat) {
    forall i | 0 <= i < |ids| :: 0 <= ids[i] < numExperts
  }

  /** Tokens of `ids[lo..hi]` routed to expert `e`. */
  ghost function Count(ids: seq<int>, e: int, lo: nat, hi: nat): nat
    requires lo <= hi <= |ids|
  {
    if lo == hi then 0 else Count(ids, e, lo, hi - 1) + if ids[hi - 1] == e then 1 else 0
  }

  /** Blocks that `count` tokens occupy. */
  ghost function BlocksFor(count: nat, blockSize: nat): nat
    requires blockSize >= 1
  {
    if count == 0 then 0
    else 1 + BlocksFor(if count <= blockSize then 0 else count - blockSize, blockSize)
  }

  /** Where the segment of expert `e` starts, in blocks. */
  ghost function BlockStart(ids: seq<int>, blockSize: nat, e: nat): nat
    requires blockSize >= 1
  {
    if e == 0 then 0
    else BlockStart(ids, blockSize, e - 1) + BlocksFor(Count(ids, e - 1, 0, |ids|), blockSize)
  }

  /** Where the segment of expert `e` starts, in cells. */
  ghost function Offset(ids: seq<int>, blockSize: nat, e: nat): nat
    requires blockSize >= 1
  {
    Times(BlockStart(ids, blockSize, e), blockSize)
  }

  ghost predicate InSegment(ids: seq<int>, blockSize: nat, e: nat, k: int)
    requires blockSize >= 1
  {
    Offset(ids, blockSize, e) <= k < Offset(ids, blockSize, e + 1)
  }

  ghost predicate IsBlockOf(ids: seq<int>, blockSize: nat, e: nat, b: int)
    requires blockSize >= 1
  {
    BlockStart(ids, blockSize, e) <= b < BlockStart(ids, blockSize, e + 1)
  }

  /** The cell of token `i`: its expert's segment, at its rank among that expert's tokens. */
  ghost function Position(ids: seq<int>, blockSize: nat, i: nat): nat
    requires blockSize >= 1 && i < |ids| && ids[i] >= 0
  {
    Offset(ids, blockSize, ids[i]) + Count(ids, ids[i], 0, i)
  }

  /** `after` is `before` with every token index scattered to its position. */
  ghost predicate Scattered(ids: seq<int>, blockSize: nat, before: seq<int>, after: seq<int>)
    requires blockSize >= 1 && forall i | 0 <= i < |ids| :: ids[i] >= 0
  {
    && |after| == |before|
    && (forall i | 0 <= i < |ids| ::
          Position(ids, blockSize, i) < |after| && after[Position(ids, blockSize, i)] == i)
    && (forall k | 0 <= k < |after| && (forall i | 0 <= i < |ids| :: Position(ids, blockSize, i) != k) ::
          after[k] == before[k])
  }

  /** `after` is `before` with every block of every segment labelled by its expert. */
  ghost predicate Labelled(ids: seq<int>, numExperts: nat, blockSize: nat, before: seq<int>, after: seq<int>)
    requires blockSize >= 1
  {
    && |after| == |before|
    && (forall e: nat, b: nat | e < numExperts && IsBlockOf(ids, blockSize, e, b) :: b < |after| && after[b] == e)
    && (forall b | BlockStart(ids, blockSize, numExperts) <= b < |after| :: after[b] == before[b])
  }

  // ---- counting -------------------------------------------------------------------------------

  lemma {:induction false} CountSplit(ids: seq<int>, e: int, lo: nat, mid: nat, hi: nat)
    requires lo <= mid <= hi <= |ids|
    ensures Count(ids, e, lo, hi) == Count(ids, e, lo, mid) + Count(ids, e, mid, hi)
    decreases hi
  {
    if mid < hi {
      CountSplit(ids, e, lo, mid, hi - 1);
    }
  }

  /** Ranks are dense: the segment of `e` has a token at every rank below its count. */
  lemma {:induction false} RankExists(ids: seq<int>, e: int, r: nat, hi: nat) returns (i: nat)
    requires hi <= |ids| && r < Count(ids, e, 0, hi)
    ensures i < hi && ids[i] == e && Count(ids, e, 0, i) == r
    decreases hi
  {
    if r < Count(ids, e, 0, hi - 1) {
      i := RankExists(ids, e, r, hi - 1);
    } else {
      i := hi - 1;
    }
  }

  ghost function CountBelow(ids: seq<int>, e: int, hi: nat): nat
    requires hi <= |ids|
  {
    if hi == 0 then 0 else CountBelow(ids, e, hi - 1) + if ids[hi - 1] < e then 1 else 0
  }

  lemma {:induction false} CountBelowStep(ids: seq<int>, e: int, hi: nat)
    requires hi <= |ids|
    ensures CountBelow(ids, e + 1, hi) == CountBelow(ids, e, hi) + Count(ids, e, 0, hi)
    ensures CountBelow(ids, e, hi) <= hi
  {
    if hi > 0 {
      CountBelowStep(ids, e, hi - 1);
    }
  }

  lemma {:induction false} CountBelowZero(ids: seq<int>, hi: nat)
    requires hi <= |ids| && forall i | 0 <= i < |ids| :: 0 <= ids[i]
    ensures CountBelow(ids, 0, hi) == 0
  {
    if hi > 0 {
      CountBelowZero(ids, hi - 1);
    }
  }

  // ---- blocks and segments ----------------------------------------------------------------------

  /** The blocks of an expert hold its tokens, and the last of them is not empty. */
  lemma {:induction false} BlocksHold(count: nat, blockSize: nat)
    requires blockSize >= 1
    ensures count <= Times(BlocksFor(count, blockSize), blockSize) < count + blockSize
  {
    if count > 0 {
      BlocksHold(if count <= blockSize then 0 else count - blockSize, blockSize);
    }
  }

  lemma {:induction false} BlockStartMonotone(ids: seq<int>, blockSize: nat, e: nat, f: nat)
    requires blockSize >= 1 && e <= f
    ensures BlockStart(ids, blockSize, e) <= BlockStart(ids, blockSize, f)
    ensures Offset(ids, blockSize, e) <= Offset(ids, blockSize, f)
    decreases f
  {
    if e < f {
      BlockStartMonotone(ids, blockSize, e, f - 1);
    }
    TimesMonotone(BlockStart(ids, blockSize, e), BlockStart(ids, blockSize, f), blockSize);
  }

  /** Every segment starts on a block boundary. */
  lemma OffsetAligned(ids: seq<int>, blockSize: nat, e: nat)
    requires blockSize >= 1
    ensures Offset(ids, blockSize, e) % blockSize == 0
    ensures Offset(ids, blockSize, e) / blockSize == BlockStart(ids, blockSize, e)
  {
    TimesDivMod(BlockStart(ids, blockSize, e), blockSize);
  }

  /** A segment is as long as the blocks of its expert, which hold all its tokens. */
  lemma SegmentHolds(ids: seq<int>, blockSize: nat, e: nat)
    requires blockSize >= 1
    ensures Offset(ids, blockSize, e + 1)
            == Offset(ids, blockSize, e) + Times(BlocksFor(Count(ids, e, 0, |ids|), blockSize), blockSize)
    ensures Offset(ids, blockSize, e) + Count(ids, e, 0, |ids|) <= Offset(ids, blockSize, e + 1)
    ensures Offset(ids, blockSize, e + 1) <= Offset(ids, blockSize, e) + Count(ids, e, 0, |ids|) + blockSize - 1
  {
    BlocksHold(Count(ids, e, 0, |ids|), blockSize);
    TimesAdds(BlockStart(ids, blockSize, e), BlocksFor(Count(ids, e, 0, |ids|), blockSize), blockSize);
  }

  /** Segments are disjoint, in cells and in blocks. */
  lemma SegmentsApart(ids: seq<int>, blockSize: nat, e: nat, f: nat)
    requires blockSize >= 1
    ensures forall k | InSegment(ids, blockSize, e, k) && InSegment(ids, blockSize, f, k) :: e == f
    ensures forall b | IsBlockOf(ids, blockSize, e, b) && IsBlockOf(ids, blockSize, f, b) :: e == f
  {
    if e < f {
      BlockStartMonotone(ids, blockSize, e + 1, f);
    } else if f < e {
      BlockStartMonotone(ids, blockSize, f + 1, e);
    }
  }

  /** Every block below the total belongs to an expert. */
  lemma {:induction false} ExpertOfBlock(ids: seq<int>, numExperts: nat, blockSize: nat, b: nat) returns (e: nat)
    requires blockSize >= 1 && b < BlockStart(ids, blockSize, numExperts)
    ensures e < numExperts && IsBlockOf(ids, blockSize, e, b)
    decreases numExperts
  {
    if BlockStart(ids, blockSize, numExperts - 1) <= b {
      e := numExperts - 1;
    } else {
      e := ExpertOfBlock(ids, numExperts - 1, blockSize, b);
    }
  }

  /** The padded total fits the buffers that are allocated for it, in cells and in blocks. */
  lemma TotalFits(ids: seq<int>, numExperts: nat, blockSize: nat)
    requires blockSize >= 1 && ValidIds(ids, numExperts)
    ensures 0 <= numExperts * (blockSize - 1)
    ensures Offset(ids, blockSize, numExperts) <= |ids| + numExperts * (blockSize - 1)
    ensures BlockStart(ids, blockSize, numExperts) <= (|ids| + numExperts * (blockSize - 1)) / blockSize
  {
    OffsetBound(ids, blockSize, numExperts);
    TimesIsProduct(numExperts, blockSize - 1);
    CountBelowZero(ids, |ids|);
    CountBelowStep(ids, numExperts, |ids|);
    OffsetAligned(ids, blockSize, numExperts);
    DivMonotone(Offset(ids, blockSize, numExperts), |ids| + numExperts * (blockSize - 1), blockSize);
  }

  lemma {:induction false} OffsetBound(ids: seq<int>, blockSize: nat, e: nat)
    requires blockSize >= 1 && forall i | 0 <= i < |ids| :: 0 <= ids[i]
    ensures Offset(ids, blockSize, e) <= CountBelow(ids, e, |ids|) + Times(e, blockSize - 1)
  {
    if e > 0 {
      OffsetBound(ids, blockSize, e - 1);
      CountBelowStep(ids, e - 1, |ids|);
      SegmentHolds(ids, blockSize, e - 1);
    }
  }

  // ---- positions ------------------------------------------------------------------------------

  /** Token `i` lands inside the occupied part of its expert's segment. */
  lemma PositionInSegment(ids: seq<int>, blockSize: nat, i: nat)
    requires blockSize >= 1 && i < |ids| && ids[i] >= 0
    ensures InSegment(ids, blockSize, ids[i], Position(ids, blockSize, i))
    ensures Position(ids, blockSize, i) < Offset(ids, blockSize, ids[i]) + Count(ids, ids[i], 0, |ids|)
  {
    CountSplit(ids, ids[i], 0, i, |ids|);
    CountSplit(ids, ids[i], i, i + 1, |ids|);
    assert Count(ids, ids[i], i, i + 1) == Count(ids, ids[i], i, i) + 1;
    SegmentHolds(ids, blockSize, ids[i]);
  }

  /** The sort is by expert first and, within an expert, by token index: it is stable. */
  lemma PositionOrder(ids: seq<int>, blockSize: nat, i: nat, j: nat)
    requires blockSize >= 1 && i < |ids| && j < |ids| && ids[i] >= 0 && ids[j] >= 0
    ensures Position(ids, blockSize, i) < Position(ids, blockSize, j)
            <==> ids[i] < ids[j] || (ids[i] == ids[j] && i < j)
  {
    if i != j {
      PositionBefore(ids, blockSize, i, j);
      PositionBefore(ids, blockSize, j, i);
    }
  }

  lemma PositionBefore(ids: seq<int>, blockSize: nat, i: nat, j: nat)
    requires blockSize >= 1 && i < |ids| && j < |ids| && ids[i] >= 0 && ids[j] >= 0
    ensures ids[i] < ids[j] || (ids[i] == ids[j] && i < j)
            ==> Position(ids, blockSize, i) < Position(ids, blockSize, j)
  {
    if ids[i] < ids[j] {
      PositionInSegment(ids, blockSize, i);
      BlockStartMonotone(ids, blockSize, ids[i] + 1, ids[j]);
    } else if ids[i] == ids[j] && i < j {
      CountSplit(ids, ids[i], 0, i, j);
      CountSplit(ids, ids[i], i, i + 1, j);
      assert Count(ids, ids[i], i, i + 1) == Count(ids, ids[i], i, i) + 1;
    }
  }

  /** No two tokens share a cell. */
  lemma PositionInjective(ids: seq<int>, blockSize: nat)
    requires blockSize >= 1 && forall i | 0 <= i < |ids| :: ids[i] >= 0
    ensures forall i, j | 0 <= i < |ids| && 0 <= j < |ids| && i != j ::
              Position(ids, blockSize, i) != Position(ids, blockSize, j)
  {
    forall i, j | 0 <= i < |ids| && 0 <= j < |ids| && i != j
      ensures Position(ids, blockSize, i) != Position(ids, blockSize, j)
    {
      PositionOrder(ids, blockSize, i, j);
      PositionOrder(ids, blockSize, j, i);
    }
  }

  lemma PositionBelowTotal(ids: seq<int>, numExperts: nat, blockSize: nat, i: nat)
    requires blockSize >= 1 && ValidIds(ids, numExperts) && i < |ids|
    ensures Position(ids, blockSize, i) < Offset(ids, blockSize, numExperts)
  {
    PositionInSegment(ids, blockSize, i);
    BlockStartMonotone(ids, blockSize, ids[i] + 1, numExperts);
  }

  // ---- the result -----------------------------------------------------------------------------

  /** The outcome is a function of the inputs: two runs cannot disagree in any cell. */
  lemma OutcomeUnique(ids: seq<int>, numExperts: nat, blockSize: nat,
                      sorted: seq<int>, sorted1: seq<int>, sorted2: seq<int>,
                      labels: seq<int>, labels1: seq<int>, labels2: seq<int>)
    requires blockSize >= 1 && ValidIds(ids, numExperts)
    requires Scattered(ids, blockSize, sorted, sorted1) && Scattered(ids, blockSize, sorted, sorted2)
    requires Labelled(ids, numExperts, blockSize, labels, labels1)
    requires Labelled(ids, numExperts, blockSize, labels, labels2)
    ensures sorted1 == sorted2 && labels1 == labels2
  {
    forall k | 0 <= k < |sorted1| ensures sorted1[k] == sorted2[k] {
      if i :| 0 <= i < |ids| && Position(ids, blockSize, i) == k {
        assert sorted1[Position(ids, blockSize, i)] == i == sorted2[Position(ids, blockSize, i)];
      }
    }
    forall b | 0 <= b < |labels1| ensures labels1[b] == labels2[b] {
      if b < BlockStart(ids, blockSize, numExperts) {
        var e := ExpertOfBlock(ids, numExperts, blockSize, b);
        assert labels1[b] == e == labels2[b];
      }
    }
  }

  /** Rank `r` of expert `e` holds the r-th smallest token index routed to `e`. */
  lemma SegmentHoldsRanks(ids: seq<int>, numExperts: nat, blockSize: nat, before: seq<int>, after: seq<int>, e: nat, r: nat)
    requires blockSize >= 1 && ValidIds(ids, numExperts) && Scattered(ids, blockSize, before, after)
    requires e < numExperts && r < Count(ids, e, 0, |ids|)
    ensures var k := Offset(ids, blockSize, e) + r;
            && k < |after| && 0 <= after[k] < |ids| && ids[after[k]] == e
            && Count(ids, e, 0, after[k]) == r
  {
    var i := RankExists(ids, e, r, |ids|);
    assert Position(ids, blockSize, i) == Offset(ids, blockSize, e) + r;
  }

  /** In a buffer that was filled with the padding value `|ids|`, every token index occurs in
      exactly one cell, its position, and whatever holds no token is padding. */
  lemma EachTokenOnce(ids: seq<int>, numExperts: nat, blockSize: nat, before: seq<int>, after: seq<int>, k: nat)
    requires blockSize >= 1 && ValidIds(ids, numExperts) && Scattered(ids, blockSize, before, after)
    requires forall k | 0 <= k < |before| :: before[k] == |ids|
    requires k < |after|
    ensures forall i | 0 <= i < |ids| :: after[k] == i <==> k == Position(ids, blockSize, i)
    ensures after[k] == |ids| <==> forall i | 0 <= i < |ids| :: Position(ids, blockSize, i) != k
  {
    PositionInjective(ids, blockSize);
  }

  /** The tail of every segment and everything beyond the total is padding. */
  lemma PaddingUntouched(ids: seq<int>, numExperts: nat, blockSize: nat, before: seq<int>, after: seq<int>, k: nat)
    requires blockSize >= 1 && ValidIds(ids, numExperts) && Scattered(ids, blockSize, before, after)
    requires forall k | 0 <= k < |before| :: before[k] == |ids|
    requires k < |after|
    ensures forall e: nat | e < numExperts && InSegment(ids, blockSize, e, k)
              && Offset(ids, blockSize, e) + Count(ids, e, 0, |ids|) <= k :: after[k] == |ids|
    ensures Offset(ids, blockSize, numExperts) <= k ==> after[k] == |ids|
  {
    if i :| 0 <= i < |ids| && Position(ids, blockSize, i) == k {
      PositionInSegment(ids, blockSize, i);
      PositionBelowTotal(ids, numExperts, blockSize, i);
      forall e: nat | InSegment(ids, blockSize, e, k) ensures e == ids[i] {
        SegmentsApart(ids, blockSize, e, ids[i]);
      }
    }
  }

  /** A block below the total serves one expert: its label is the expert of each token in it. */
  lemma BlockServesOneExpert(ids: seq<int>, numExperts: nat, blockSize: nat,
                             before: seq<int>, after: seq<int>, labelsBefore: seq<int>, labels: seq<int>, k: nat)
    requires blockSize >= 1 && ValidIds(ids, numExperts)
    requires forall k | 0 <= k < |before| :: before[k] == |ids|
    requires Scattered(ids, blockSize, before, after)
    requires Labelled(ids, numExperts, blockSize, labelsBefore, labels)
    requires k < |after| && k < Offset(ids, blockSize, numExperts)
    ensures k / blockSize < |labels| && 0 <= labels[k / blockSize] < numExperts
    ensures after[k] != |ids| ==> 0 <= after[k] < |ids| && ids[after[k]] == labels[k / blockSize]
  {
    var b := k / blockSize;
    WholeBlocks(k, 0, BlockStart(ids, blockSize, numExperts), blockSize);
    var e := ExpertOfBlock(ids, numExperts, blockSize, b);
    WholeBlocks(k, BlockStart(ids, blockSize, e), BlockStart(ids, blockSize, e + 1), blockSize);
    assert InSegment(ids, blockSize, e, k);
    if i :| 0 <= i < |ids| && Position(ids, blockSize, i) == k {
      PositionInSegment(ids, blockSize, i);
      SegmentsApart(ids, blockSize, e, ids[i]);
    }
  }
}
