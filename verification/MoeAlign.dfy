/** The four launches of block alignment. Within a launch the programs run concurrently: the loop
    of each method below is the device scheduler, which picks any unfinished program and lets it
    perform a single load or store, in every possible order. Launches are separated by barriers. */
module MoeAlign {
  import opened Arithmetic
  import opened DeviceMemory
  import opened MoeAlignSpec

  function CeilDiv(a: int, b: int): (r: int)
    requires b >= 1
  {
    (a + b - 1) / b
  }

  /** Rounding up to a multiple of the block size gives the cells of the blocks a segment needs. */
  lemma {:induction false} CeilDivCountsBlocks(count: nat, blockSize: nat)
    requires blockSize >= 1
    ensures CeilDiv(count, blockSize) == BlocksFor(count, blockSize)
    ensures CeilDiv(count, blockSize) * blockSize == Times(BlocksFor(count, blockSize), blockSize)
  {
    TimesIsProduct(BlocksFor(count, blockSize), blockSize);
    if count == 0 {
      DivMod(0, blockSize - 1, blockSize);
    } else if count <= blockSize {
      DivMod(1, count - 1, blockSize);
    } else {
      CeilDivCountsBlocks(count - blockSize, blockSize);
      var k := count - blockSize + blockSize - 1;
      assert k == (k / blockSize) * blockSize + k % blockSize;
      MulDistributes(k / blockSize, 1, blockSize);
      DivMod(k / blockSize + 1, k % blockSize, blockSize);
    }
  }

  function Min(a: int, b: int): int {
    if a <= b then a else b
  }

  /** Tokens of `ids[lo..hi]` per expert. */
  ghost function Histogram(ids: seq<int>, numExperts: nat, lo: nat, hi: nat): seq<int>
    requires lo <= hi <= |ids|
  {
    seq(numExperts, e => Count(ids, e, lo, hi))
  }

  lemma HistogramStep(ids: seq<int>, numExperts: nat, lo: nat, hi: nat)
    requires lo <= hi < |ids| && ValidIds(ids, numExperts)
    ensures Histogram(ids, numExperts, lo, hi + 1)
            == var h := Histogram(ids, numExperts, lo, hi); h[ids[hi] := h[ids[hi]] + 1]
  {
  }

  // ---- stage 1: one histogram per chunk ---------------------------------------------------------

  datatype Stage1Program =
    | NextToken(i: nat)
    | HaveId(i: nat, idx: int)
    | HaveCount(i: nat, idx: int, cnt: int)

  ghost function Fuel1(tokensPerThread: nat, s: Stage1Program): nat {
    if s.i >= tokensPerThread then 0
    else 3 * (tokensPerThread - s.i) - (if s.NextToken? then 0 else if s.HaveId? then 1 else 2)
  }

  ghost predicate Valid1(ids: seq<int>, numExperts: nat, tokensPerThread: nat, p: nat, s: Stage1Program, row: seq<int>)
    requires ValidIds(ids, numExperts)
  {
    var start := Times(p, tokensPerThread);
    && s.i <= tokensPerThread
    && row == Histogram(ids, numExperts, Min(start, |ids|), Min(start + s.i, |ids|))
    && (!s.NextToken? ==> s.i < tokensPerThread && start + s.i < |ids| && s.idx == ids[start + s.i])
    && (s.HaveCount? ==> s.cnt == row[s.idx])
  }

  predicate Finished1(tokensPerThread: nat, s: Stage1Program) {
    s.NextToken? && s.i == tokensPerThread
  }

  /** Row `p + 1` counts the tokens of chunk `p`; row 0 is zero. */
  ghost function ChunkHistograms(ids: seq<int>, numExperts: nat, tokensPerThread: nat): (rows: seq<seq<int>>)
    ensures Matrix(rows, numExperts + 1, numExperts)
  {
    seq(numExperts + 1, r requires 0 <= r => ChunkRow(ids, numExperts, tokensPerThread, r))
  }

  ghost function ChunkRow(ids: seq<int>, numExperts: nat, tokensPerThread: nat, r: nat): (row: seq<int>)
    ensures |row| == numExperts
  {
    if r == 0 then seq(numExperts, _ => 0)
    else
      var start := Times(r - 1, tokensPerThread);
      Histogram(ids, numExperts, Min(start, |ids|), Min(start + tokensPerThread, |ids|))
  }

  /** Row `p + 1` belongs to program `p`. */
  ghost function Owners1(numExperts: nat): seq<seq<int>> {
    seq(numExperts + 1, r => seq(numExperts, _ => r - 1))
  }

  /** One step of program `p`: at most one access to the counts. */
  method Step1(topkIds: seq<int>, tokensCnts: Tensor, numExperts: nat, tokensPerThread: nat,
               p: nat, s: Stage1Program, ghost rows: seq<seq<int>>)
    returns (next: Stage1Program, ghost rows': seq<seq<int>>)
    requires ValidIds(topkIds, numExperts) && p < numExperts
    requires Matrix(rows, numExperts + 1, numExperts) && tokensCnts.data[..] == Flat(rows)
    requires Valid1(topkIds, numExperts, tokensPerThread, p, s, rows[p + 1]) && !Finished1(tokensPerThread, s)
    requires Owned(tokensCnts.accesses, Flat(Owners1(numExperts)))
    modifies tokensCnts.data, tokensCnts`accesses
    ensures Matrix(rows', numExperts + 1, numExperts) && tokensCnts.data[..] == Flat(rows')
    ensures forall r | 0 <= r <= numExperts && r != p + 1 :: rows'[r] == rows[r]
    ensures Valid1(topkIds, numExperts, tokensPerThread, p, next, rows'[p + 1])
    ensures Fuel1(tokensPerThread, next) < Fuel1(tokensPerThread, s)
    ensures Owned(tokensCnts.accesses, Flat(Owners1(numExperts)))
  {
    hide Flat, Owned, Histogram, Count;
    var startIdx, offC := p * tokensPerThread, (p + 1) * numExperts;
    TimesIsProduct(p, tokensPerThread);
    TimesIsProduct(p + 1, numExperts);
    rows' := rows;
    match s
    case NextToken(i) =>
      if startIdx + i < |topkIds| {
        next := HaveId(i, topkIds[startIdx + i]);
      } else {
        next := NextToken(i + 1);
      }
    case HaveId(i, idx) =>
      var tokenCnt := LoadEntry(tokensCnts, p, offC + idx, rows, numExperts + 1, numExperts, p + 1, idx,
                                Owners1(numExperts));
      next := HaveCount(i, idx, tokenCnt);
    case HaveCount(i, idx, tokenCnt) =>
      HistogramStep(topkIds, numExperts, Min(startIdx, |topkIds|), startIdx + i);
      StoreEntry(tokensCnts, p, offC + idx, tokenCnt + 1, rows, numExperts + 1, numExperts, p + 1, idx,
                 Owners1(numExperts));
      rows' := rows[p + 1 := rows[p + 1][idx := tokenCnt + 1]];
      next := NextToken(i + 1);
  }

  /** Everything that holds between two steps of the launch. */
  ghost predicate Invariant1(ids: seq<int>, numExperts: nat, tokensPerThread: nat, programs: seq<Stage1Program>,
                             rows: seq<seq<int>>)
    requires ValidIds(ids, numExperts)
  {
    && |programs| == numExperts && Matrix(rows, numExperts + 1, numExperts)
    && rows[0] == seq(numExperts, _ => 0)
    && (forall p | 0 <= p < numExperts :: Valid1(ids, numExperts, tokensPerThread, p, programs[p], rows[p + 1]))
  }

  lemma Start1(ids: seq<int>, numExperts: nat, tokensPerThread: nat)
    requires ValidIds(ids, numExperts)
    ensures Invariant1(ids, numExperts, tokensPerThread, seq(numExperts, _ => NextToken(0)),
                       Zeros(numExperts + 1, numExperts))
    ensures Owned({}, Flat(Owners1(numExperts)))
  {
    var programs := seq(numExperts, _ => NextToken(0));
    forall p | 0 <= p < numExperts
      ensures Valid1(ids, numExperts, tokensPerThread, p, programs[p], Zeros(numExperts + 1, numExperts)[p + 1])
    {
      var at := Min(Times(p, tokensPerThread), |ids|);
      assert Histogram(ids, numExperts, at, at) == seq(numExperts, _ => 0);
    }
  }

  lemma Undisturbed1(ids: seq<int>, numExperts: nat, tokensPerThread: nat, programs: seq<Stage1Program>,
                     rows: seq<seq<int>>, p: nat, next: Stage1Program, rows': seq<seq<int>>)
    requires ValidIds(ids, numExperts) && p < numExperts
    requires Invariant1(ids, numExperts, tokensPerThread, programs, rows) && Matrix(rows', numExperts + 1, numExperts)
    requires forall r | 0 <= r <= numExperts && r != p + 1 :: rows'[r] == rows[r]
    requires Valid1(ids, numExperts, tokensPerThread, p, next, rows'[p + 1])
    ensures Invariant1(ids, numExperts, tokensPerThread, programs[p := next], rows')
  {
    var programs' := programs[p := next];
    forall q | 0 <= q < numExperts
      ensures Valid1(ids, numExperts, tokensPerThread, q, programs'[q], rows'[q + 1])
    {
      assert Valid1(ids, numExperts, tokensPerThread, q, programs[q], rows[q + 1]);
    }
  }

  method Stage1(topkIds: seq<int>, tokensCnts: Tensor, numExperts: nat, tokensPerThread: nat)
    requires ValidIds(topkIds, numExperts)
    requires tokensCnts.data[..] == Flat(Zeros(numExperts + 1, numExperts))
    modifies tokensCnts.data, tokensCnts`accesses
    ensures tokensCnts.data[..] == Flat(ChunkHistograms(topkIds, numExperts, tokensPerThread))
    ensures RaceFree(tokensCnts.accesses)
  {
    Start1(topkIds, numExperts, tokensPerThread);
    hide Flat, Owned, Valid1, Owners1, ChunkHistograms, RaceFree, Zeros;
    tokensCnts.Barrier();
    var programs := seq(numExperts, _ => NextToken(0));
    ghost var rows := Zeros(numExperts + 1, numExperts);
    ghost var fuel := (_: int, s: Stage1Program) => Fuel1(tokensPerThread, s);
    while exists p | 0 <= p < numExperts :: !Finished1(tokensPerThread, programs[p])
      invariant Invariant1(topkIds, numExperts, tokensPerThread, programs, rows)
      invariant tokensCnts.data[..] == Flat(rows)
      invariant Owned(tokensCnts.accesses, Flat(Owners1(numExperts)))
      decreases Work(programs, fuel)
    {
      var p :| 0 <= p < numExperts && !Finished1(tokensPerThread, programs[p]);
      var next;
      ghost var rows';
      next, rows' := Step1(topkIds, tokensCnts, numExperts, tokensPerThread, p, programs[p], rows);
      Undisturbed1(topkIds, numExperts, tokensPerThread, programs, rows, p, next, rows');
      WorkDecreases(programs, fuel, p, next);
      programs, rows := programs[p := next], rows';
    }
    ChunksCounted(topkIds, numExperts, tokensPerThread, programs, rows);
    OwnedIsRaceFree(tokensCnts.accesses, Flat(Owners1(numExperts)));
  }

  lemma ChunksCounted(ids: seq<int>, numExperts: nat, tokensPerThread: nat, programs: seq<Stage1Program>, rows: seq<seq<int>>)
    requires ValidIds(ids, numExperts) && Invariant1(ids, numExperts, tokensPerThread, programs, rows)
    requires forall p | 0 <= p < numExperts :: Finished1(tokensPerThread, programs[p])
    ensures rows == ChunkHistograms(ids, numExperts, tokensPerThread)
  {
    forall r | 0 <= r <= numExperts ensures rows[r] == ChunkRow(ids, numExperts, tokensPerThread, r) {
      if r > 0 {
        assert Valid1(ids, numExperts, tokensPerThread, r - 1, programs[r - 1], rows[r]);
      }
    }
  }

  // ---- stage 2: prefix sums over the chunks -----------------------------------------------------

  datatype Stage2Program =
    | LoadCount(i: nat, lastCnt: int)
    | StoreSum(i: nat, lastCnt: int)

  ghost function Fuel2(numExperts: nat, s: Stage2Program): nat {
    if s.i > numExperts then 0 else 2 * (numExperts + 1 - s.i) - (if s.LoadCount? then 0 else 1)
  }

  ghost function ColumnSum(rows: seq<seq<int>>, c: nat, r: nat): int
    requires r < |rows| && forall i | 0 <= i < |rows| :: c < |rows[i]|
  {
    if r == 0 then 0 else ColumnSum(rows, c, r - 1) + rows[r][c]
  }

  /** What stage 2 has made of entry `(r, c)` once the program of its column reaches row `i`. */
  ghost function SummedTo(rows: seq<seq<int>>, c: nat, r: nat, i: nat): int
    requires r < |rows| && forall i | 0 <= i < |rows| :: c < |rows[i]|
  {
    if 0 < r < i then ColumnSum(rows, c, r) else rows[r][c]
  }

  /** Column sums from row 1 down; row 0 stays as it was. */
  ghost function ColumnSums(rows: seq<seq<int>>, height: nat, width: nat): seq<seq<int>>
    requires Matrix(rows, height, width)
  {
    seq(height, r requires 0 <= r < height =>
      seq(width, c requires 0 <= c < width => SummedTo(rows, c, r, height)))
  }

  ghost predicate Valid2(rows: seq<seq<int>>, numExperts: nat, c: nat, s: Stage2Program)
    requires Matrix(rows, numExperts + 1, numExperts) && c < numExperts
  {
    && 1 <= s.i <= numExperts + 1
    && (s.LoadCount? ==> s.lastCnt == ColumnSum(rows, c, s.i - 1))
    && (s.StoreSum? ==> s.i <= numExperts && s.lastCnt == ColumnSum(rows, c, s.i))
  }

  predicate Finished2(numExperts: nat, s: Stage2Program) {
    s.LoadCount? && s.i == numExperts + 1
  }

  /** Column `p` belongs to program `p`. */
  ghost function Owners2(numExperts: nat): seq<seq<int>> {
    seq(numExperts + 1, _ => seq(numExperts, c => c))
  }

  /** One step of program `p`: one access to the counts. */
  method Step2(tokensCnts: Tensor, numExperts: nat, p: nat, s: Stage2Program,
               ghost rows: seq<seq<int>>, ghost sums: seq<seq<int>>)
    returns (next: Stage2Program, ghost sums': seq<seq<int>>)
    requires Matrix(rows, numExperts + 1, numExperts) && p < numExperts
    requires Matrix(sums, numExperts + 1, numExperts) && tokensCnts.data[..] == Flat(sums)
    requires Valid2(rows, numExperts, p, s) && !Finished2(numExperts, s)
    requires forall r | 0 <= r <= numExperts :: sums[r][p] == SummedTo(rows, p, r, s.i)
    requires Owned(tokensCnts.accesses, Flat(Owners2(numExperts)))
    modifies tokensCnts.data, tokensCnts`accesses
    ensures Matrix(sums', numExperts + 1, numExperts) && tokensCnts.data[..] == Flat(sums')
    ensures Valid2(rows, numExperts, p, next)
    ensures forall r | 0 <= r <= numExperts :: sums'[r][p] == SummedTo(rows, p, r, next.i)
    ensures forall r, c | 0 <= r <= numExperts && 0 <= c < numExperts && c != p :: sums'[r][c] == sums[r][c]
    ensures Fuel2(numExperts, next) < Fuel2(numExperts, s)
    ensures Owned(tokensCnts.accesses, Flat(Owners2(numExperts)))
  {
    sums' := sums;
    TimesIsProduct(s.i, numExperts);
    match s
    case LoadCount(i, lastCnt) =>
      var tokenCnt := LoadEntry(tokensCnts, p, i * numExperts + p, sums, numExperts + 1, numExperts, i, p,
                                Owners2(numExperts));
      next := StoreSum(i, lastCnt + tokenCnt);
    case StoreSum(i, lastCnt) =>
      StoreEntry(tokensCnts, p, i * numExperts + p, lastCnt, sums, numExperts + 1, numExperts, i, p,
                 Owners2(numExperts));
      sums' := sums[i := sums[i][p := lastCnt]];
      next := LoadCount(i + 1, lastCnt);
  }

  method Stage2(tokensCnts: Tensor, numExperts: nat, ghost rows: seq<seq<int>>)
    requires Matrix(rows, numExperts + 1, numExperts) && tokensCnts.data[..] == Flat(rows)
    modifies tokensCnts.data, tokensCnts`accesses
    ensures tokensCnts.data[..] == Flat(ColumnSums(rows, numExperts + 1, numExperts))
    ensures RaceFree(tokensCnts.accesses)
  {
    hide Flat, Owners2, RaceFree;
    tokensCnts.Barrier();
    var programs := seq(numExperts, _ => LoadCount(1, 0));
    ghost var sums := rows;
    ghost var fuel := (_: int, s: Stage2Program) => Fuel2(numExperts, s);
    while exists p | 0 <= p < numExperts :: !Finished2(numExperts, programs[p])
      invariant |programs| == numExperts
      invariant Matrix(sums, numExperts + 1, numExperts) && tokensCnts.data[..] == Flat(sums)
      invariant forall p | 0 <= p < numExperts :: Valid2(rows, numExperts, p, programs[p])
      invariant forall r, c | 0 <= r <= numExperts && 0 <= c < numExperts ::
                  sums[r][c] == SummedTo(rows, c, r, programs[c].i)
      invariant Owned(tokensCnts.accesses, Flat(Owners2(numExperts)))
      decreases Work(programs, fuel)
    {
      var p :| 0 <= p < numExperts && !Finished2(numExperts, programs[p]);
      var next;
      next, sums := Step2(tokensCnts, numExperts, p, programs[p], rows, sums);
      WorkDecreases(programs, fuel, p, next);
      programs := programs[p := next];
    }
    forall r | 0 <= r <= numExperts ensures sums[r] == ColumnSums(rows, numExperts + 1, numExperts)[r] {
      assert forall c | 0 <= c < numExperts :: sums[r][c] == SummedTo(rows, c, r, programs[c].i);
    }
    assert sums == ColumnSums(rows, numExperts + 1, numExperts);
    OwnedIsRaceFree(tokensCnts.accesses, Flat(Owners2(numExperts)));
  }

  /** Prefix sums of the chunk histograms: row `r` counts the tokens of all chunks below `r`. */
  lemma SumsCountPrefixes(ids: seq<int>, numExperts: nat, tokensPerThread: nat, r: nat)
    requires r < numExperts + 1
    ensures ColumnSums(ChunkHistograms(ids, numExperts, tokensPerThread), numExperts + 1, numExperts)[r]
            == Histogram(ids, numExperts, 0, Min(Times(r, tokensPerThread), |ids|))
  {
    var rows := ChunkHistograms(ids, numExperts, tokensPerThread);
    var sums := ColumnSums(rows, numExperts + 1, numExperts);
    forall c | 0 <= c < numExperts
      ensures sums[r][c] == Count(ids, c, 0, Min(Times(r, tokensPerThread), |ids|))
    {
      ColumnCountsPrefix(ids, numExperts, tokensPerThread, c, r);
      assert sums[r][c] == SummedTo(rows, c, r, numExperts + 1);
    }
  }

  lemma {:induction false} ColumnCountsPrefix(ids: seq<int>, numExperts: nat, tokensPerThread: nat, c: nat, r: nat)
    requires r < numExperts + 1 && c < numExperts
    ensures ColumnSum(ChunkHistograms(ids, numExperts, tokensPerThread), c, r)
            == Count(ids, c, 0, Min(Times(r, tokensPerThread), |ids|))
  {
    if r > 0 {
      ColumnCountsPrefix(ids, numExperts, tokensPerThread, c, r - 1);
      assert ChunkHistograms(ids, numExperts, tokensPerThread)[r] == ChunkRow(ids, numExperts, tokensPerThread, r);
      var lo := Times(r - 1, tokensPerThread);
      CountSplit(ids, c, 0, Min(lo, |ids|), Min(lo + tokensPerThread, |ids|));
    }
  }

  // ---- stage 3: padded segment offsets, a single program ----------------------------------------

  method Stage3(totalTokensPostPad: Tensor, tokensCnts: Tensor, cumsum: Tensor, numExperts: nat, blockSize: nat,
                ghost ids: seq<int>, ghost sums: seq<seq<int>>)
    requires blockSize >= 1
    requires Matrix(sums, numExperts + 1, numExperts) && tokensCnts.data[..] == Flat(sums)
    requires sums[numExperts] == Histogram(ids, numExperts, 0, |ids|)
    requires cumsum.data.Length == numExperts + 1 && cumsum.data[0] == 0 && totalTokensPostPad.data.Length == 1
    requires cumsum.data != tokensCnts.data && totalTokensPostPad.data !in {cumsum.data, tokensCnts.data}
    modifies cumsum.data, cumsum`accesses, totalTokensPostPad.data, totalTokensPostPad`accesses, tokensCnts`accesses
    ensures forall e | 0 <= e <= numExperts :: cumsum.data[e] == Offset(ids, blockSize, e)
    ensures totalTokensPostPad.data[0] == Offset(ids, blockSize, numExperts)
    ensures tokensCnts.data[..] == Flat(sums)
  {
    var lastCumsum := 0;
    var offCnt := numExperts * numExperts;
    TimesIsProduct(numExperts, numExperts);
    for i := 1 to numExperts + 1
      invariant lastCumsum == Offset(ids, blockSize, i - 1)
      invariant tokensCnts.data[..] == Flat(sums)
      invariant forall e | 0 <= e < i :: cumsum.data[e] == Offset(ids, blockSize, e)
    {
      FlatCell(sums, numExperts + 1, numExperts, numExperts, i - 1, 0);
      var tokenCnt := tokensCnts.Load(0, offCnt + i - 1);
      assert tokenCnt == tokensCnts.data[..][Times(numExperts, numExperts) + i - 1] == Count(ids, i - 1, 0, |ids|);
      CeilDivCountsBlocks(tokenCnt, blockSize);
      SegmentHolds(ids, blockSize, i - 1);
      lastCumsum := lastCumsum + CeilDiv(tokenCnt, blockSize) * blockSize;
      ghost var before := cumsum.data[..];
      cumsum.Store(0, i, lastCumsum);
      assert forall e | 0 <= e < i :: cumsum.data[e] == before[e] by {
        assert forall e | 0 <= e < i :: cumsum.data[e] == cumsum.data[..][e];
      }
    }
    totalTokensPostPad.Store(0, 0, lastCumsum);
  }

  // ---- stage 4: labels and scatter --------------------------------------------------------------

  datatype Stage4Program =
    | LoadStart
    | LoadEnd(start: int)
    | Blocks(b: int, end: int)
    | Token(i: nat)
    | HaveExpert(i: nat, e: int)
    | HaveRank(i: nat, e: int, cnt: int)
    | HaveCell(i: nat, e: int, cnt: int, cell: int)
    | Placed(i: nat, e: int, cnt: int)

  predicate Labelling(s: Stage4Program) {
    s.LoadStart? || s.LoadEnd? || s.Blocks?
  }

  ghost function Fuel4(numel: nat, tokensPerThread: nat, total: nat, p: int, s: Stage4Program): nat {
    if s.LoadStart? then 5 * tokensPerThread + total + 4
    else if s.LoadEnd? then 5 * tokensPerThread + total + 3
    else if s.Blocks? then 5 * tokensPerThread + 2 + (if s.b < s.end then s.end - s.b else 0)
    else
      var limit := if p < 0 then 0 else Min(Times(p, tokensPerThread) + tokensPerThread, numel);
      if s.i >= limit then 0
      else 5 * (limit - s.i) - (if s.Token? then 0 else if s.HaveExpert? then 1 else if s.HaveRank? then 2
                                else if s.HaveCell? then 3 else 4)
  }

  predicate Finished4(numel: nat, tokensPerThread: nat, p: nat, s: Stage4Program) {
    s.Token? && s.i >= Min(p * tokensPerThread + tokensPerThread, numel)
  }

  /** The token a program works on; the first of its chunk while it is still labelling blocks. */
  ghost function Current(tokensPerThread: nat, p: nat, s: Stage4Program): nat {
    if Labelling(s) then Times(p, tokensPerThread) else s.i
  }

  /** Row `p` counts, per expert, all tokens before the one program `p` works on. */
  ghost predicate Valid4(ids: seq<int>, numExperts: nat, blockSize: nat, tokensPerThread: nat, p: nat,
                         s: Stage4Program, row: seq<int>)
    requires blockSize >= 1 && ValidIds(ids, numExperts)
  {
    var start := Times(p, tokensPerThread);
    && row == Histogram(ids, numExperts, 0, Min(Current(tokensPerThread, p, s), |ids|))
    && start <= Current(tokensPerThread, p, s) <= start + tokensPerThread
    && (s.LoadEnd? ==> s.start == Offset(ids, blockSize, p))
    && (s.Blocks? ==>
          && s.end == Offset(ids, blockSize, p + 1)
          && Offset(ids, blockSize, p) <= s.b <= s.end && s.b % blockSize == 0)
    && (!Labelling(s) && !s.Token? ==>
          && s.i < start + tokensPerThread && s.i < |ids| && s.e == ids[s.i])
    && (s.HaveRank? || s.HaveCell? || s.Placed? ==> s.cnt == row[s.e])
    && (s.HaveCell? ==> s.cell == Position(ids, blockSize, s.i))
  }

  ghost predicate Covers(done: set<int>, lo: int, hi: int) {
    forall i | lo <= i < hi :: i in done
  }

  /** What program `p` has contributed: its chunk up to the current token, its segment's blocks. */
  ghost predicate Contributed(ids: seq<int>, blockSize: nat, tokensPerThread: nat, p: nat, s: Stage4Program,
                              placed: set<int>, labelled: set<int>)
    requires blockSize >= 1
  {
    var stored := Current(tokensPerThread, p, s) + (if s.Placed? then 1 else 0);
    && Covers(placed, Times(p, tokensPerThread), Min(stored, |ids|))
    && Covers(labelled, BlockStart(ids, blockSize, p),
              if s.LoadStart? || s.LoadEnd? then BlockStart(ids, blockSize, p)
              else if s.Blocks? then s.b / blockSize
              else BlockStart(ids, blockSize, p + 1))
  }

  /** The scatter, as far as it has come. */
  ghost predicate PlacedSoFar(ids: seq<int>, blockSize: nat, before: seq<int>, after: seq<int>, placed: set<int>)
    requires blockSize >= 1 && forall i | 0 <= i < |ids| :: ids[i] >= 0
  {
    && |after| == |before|
    && (forall i | i in placed ::
          0 <= i < |ids| && Position(ids, blockSize, i) < |after| && after[Position(ids, blockSize, i)] == i)
    && (forall k | 0 <= k < |after| && (forall i | i in placed :: 0 <= i < |ids| && Position(ids, blockSize, i) != k) ::
          after[k] == before[k])
  }

  lemma PlaceOne(ids: seq<int>, blockSize: nat, before: seq<int>, after: seq<int>, placed: set<int>, i: nat)
    requires blockSize >= 1 && forall i | 0 <= i < |ids| :: ids[i] >= 0
    requires PlacedSoFar(ids, blockSize, before, after, placed)
    requires i < |ids| && Position(ids, blockSize, i) < |after|
    ensures PlacedSoFar(ids, blockSize, before, after[Position(ids, blockSize, i) := i], placed + {i})
  {
    PositionInjective(ids, blockSize);
    var after' := after[Position(ids, blockSize, i) := i];
    forall k | 0 <= k < |after| && (forall j | j in placed + {i} :: 0 <= j < |ids| && Position(ids, blockSize, j) != k)
      ensures after'[k] == before[k]
    {
      assert i in placed + {i};
      assert forall j | j in placed :: j in placed + {i};
    }
  }

  /** The labelling, as far as it has come. */
  ghost predicate LabelledSoFar(ids: seq<int>, numExperts: nat, blockSize: nat, before: seq<int>, after: seq<int>,
                                labelled: set<int>)
    requires blockSize >= 1
  {
    && |after| == |before|
    && (forall b | b in labelled :: 0 <= b < BlockStart(ids, blockSize, numExperts) && b < |after|)
    && (forall e: nat, b | e < numExperts && b in labelled && IsBlockOf(ids, blockSize, e, b) :: after[b] == e)
    && (forall b | 0 <= b < |after| && b !in labelled :: after[b] == before[b])
  }

  lemma LabelOne(ids: seq<int>, numExperts: nat, blockSize: nat, before: seq<int>, after: seq<int>, labelled: set<int>,
                 p: nat, b: nat)
    requires blockSize >= 1 && p < numExperts
    requires LabelledSoFar(ids, numExperts, blockSize, before, after, labelled)
    requires IsBlockOf(ids, blockSize, p, b) && b < |after|
    ensures LabelledSoFar(ids, numExperts, blockSize, before, after[b := p], labelled + {b})
  {
    BlockStartMonotone(ids, blockSize, p + 1, numExperts);
    forall e: nat | IsBlockOf(ids, blockSize, e, b) ensures e == p {
      SegmentsApart(ids, blockSize, e, p);
    }
  }

  // ---- who may touch what in stage 4

  /** Row `p` of the counts belongs to program `p`. */
  ghost function Owners4(numExperts: nat): seq<seq<int>> {
    seq(numExperts + 1, r => seq(numExperts, _ => r))
  }

  ghost predicate PlacedBy(ids: seq<int>, blockSize: nat, tokensPerThread: nat, p: nat, i: nat, cell: int)
    requires blockSize >= 1 && forall i | 0 <= i < |ids| :: ids[i] >= 0
  {
    && i < |ids| && Times(p, tokensPerThread) <= i < Times(p + 1, tokensPerThread)
    && Position(ids, blockSize, i) == cell
  }

  ghost function Placer(ids: seq<int>, blockSize: nat, tokensPerThread: nat, cell: int): int
    requires blockSize >= 1 && forall i | 0 <= i < |ids| :: ids[i] >= 0
  {
    if exists p: nat, i: nat :: PlacedBy(ids, blockSize, tokensPerThread, p, i, cell) then
      var p: nat, i: nat :| PlacedBy(ids, blockSize, tokensPerThread, p, i, cell); p
    else -1
  }

  /** Only the program whose chunk holds a token writes that token's cell. */
  lemma PlacerIsOwner(ids: seq<int>, blockSize: nat, tokensPerThread: nat, p: nat, i: nat)
    requires blockSize >= 1 && forall i | 0 <= i < |ids| :: ids[i] >= 0
    requires i < |ids| && Times(p, tokensPerThread) <= i < Times(p + 1, tokensPerThread)
    ensures Placer(ids, blockSize, tokensPerThread, Position(ids, blockSize, i)) == p
  {
    var cell := Position(ids, blockSize, i);
    assert PlacedBy(ids, blockSize, tokensPerThread, p, i, cell);
    PositionInjective(ids, blockSize);
    forall q: nat, j: nat | PlacedBy(ids, blockSize, tokensPerThread, q, j, cell) ensures q == p {
      assert j == i;
      if q < p { TimesMonotone(q + 1, p, tokensPerThread); }
      if p < q { TimesMonotone(p + 1, q, tokensPerThread); }
    }
  }

  ghost function Placers(ids: seq<int>, blockSize: nat, tokensPerThread: nat, size: nat): seq<int>
    requires blockSize >= 1 && forall i | 0 <= i < |ids| :: ids[i] >= 0
  {
    seq(size, cell => Placer(ids, blockSize, tokensPerThread, cell))
  }

  /** Only program `e` labels the blocks of expert `e`. */
  ghost function Labellers(ids: seq<int>, blockSize: nat, e: nat): (owner: seq<int>)
    requires blockSize >= 1
    ensures |owner| == BlockStart(ids, blockSize, e)
  {
    if e == 0 then []
    else
      Labellers(ids, blockSize, e - 1)
      + seq(BlockStart(ids, blockSize, e) - BlockStart(ids, blockSize, e - 1), _ => e - 1)
  }

  lemma {:induction false} LabellersAt(ids: seq<int>, blockSize: nat, numExperts: nat, e: nat, b: nat)
    requires blockSize >= 1 && e < numExperts && IsBlockOf(ids, blockSize, e, b)
    ensures b < |Labellers(ids, blockSize, numExperts)| && Labellers(ids, blockSize, numExperts)[b] == e
    decreases numExperts
  {
    BlockStartMonotone(ids, blockSize, e + 1, numExperts);
    if e < numExperts - 1 {
      BlockStartMonotone(ids, blockSize, e + 1, numExperts - 1);
      LabellersAt(ids, blockSize, numExperts - 1, e, b);
    }
  }

  /** Labelling block `b / blockSize`, for a multiple `b` inside the segment of `p`. */
  lemma LabelStep(ids: seq<int>, numExperts: nat, blockSize: nat, tokensPerThread: nat, p: nat, b: int, end: int,
                  row: seq<int>, before: seq<int>, after: seq<int>, placed: set<int>, labelled: set<int>)
    requires blockSize >= 1 && ValidIds(ids, numExperts) && p < numExperts && b < end
    requires BlockStart(ids, blockSize, numExperts) <= |after|
    requires Valid4(ids, numExperts, blockSize, tokensPerThread, p, Blocks(b, end), row)
    requires Contributed(ids, blockSize, tokensPerThread, p, Blocks(b, end), placed, labelled)
    requires LabelledSoFar(ids, numExperts, blockSize, before, after, labelled)
    ensures 0 <= b / blockSize < BlockStart(ids, blockSize, numExperts)
    ensures Labellers(ids, blockSize, numExperts)[b / blockSize] == p
    ensures LabelledSoFar(ids, numExperts, blockSize, before, after[b / blockSize := p], labelled + {b / blockSize})
    ensures Valid4(ids, numExperts, blockSize, tokensPerThread, p, Blocks(b + blockSize, end), row)
    ensures Contributed(ids, blockSize, tokensPerThread, p, Blocks(b + blockSize, end), placed, labelled + {b / blockSize})
  {
    WholeBlocks(b, BlockStart(ids, blockSize, p), BlockStart(ids, blockSize, p + 1), blockSize);
    NextMultiple(b, BlockStart(ids, blockSize, p + 1), blockSize);
    BlockStartMonotone(ids, blockSize, p + 1, numExperts);
    LabelOne(ids, numExperts, blockSize, before, after, labelled, p, b / blockSize);
    LabellersAt(ids, blockSize, numExperts, p, b / blockSize);
  }

  /** One step of program `p` while it labels the blocks of its expert. */
  method Step4Label(expertIds: Tensor, cumsum: Tensor, numExperts: nat, blockSize: nat, tokensPerThread: nat,
                    p: nat, s: Stage4Program, ghost ids: seq<int>, ghost row: seq<int>, ghost before: seq<int>,
                    ghost placed: set<int>, ghost labelled: set<int>)
    returns (next: Stage4Program, ghost labelled': set<int>)
    requires blockSize >= 1 && ValidIds(ids, numExperts) && p < numExperts && Labelling(s)
    requires expertIds.data != cumsum.data && cumsum.data.Length == numExperts + 1
    requires forall e | 0 <= e <= numExperts :: cumsum.data[e] == Offset(ids, blockSize, e)
    requires BlockStart(ids, blockSize, numExperts) <= expertIds.data.Length
    requires Valid4(ids, numExperts, blockSize, tokensPerThread, p, s, row)
    requires Contributed(ids, blockSize, tokensPerThread, p, s, placed, labelled)
    requires LabelledSoFar(ids, numExperts, blockSize, before, expertIds.data[..], labelled)
    requires forall a | a in cumsum.accesses :: !a.write
    requires Owned(expertIds.accesses, Labellers(ids, blockSize, numExperts))
    modifies expertIds.data, expertIds`accesses, cumsum`accesses
    ensures labelled <= labelled'
    ensures Valid4(ids, numExperts, blockSize, tokensPerThread, p, next, row)
    ensures Contributed(ids, blockSize, tokensPerThread, p, next, placed, labelled')
    ensures LabelledSoFar(ids, numExperts, blockSize, before, expertIds.data[..], labelled')
    ensures forall a | a in cumsum.accesses :: !a.write
    ensures Owned(expertIds.accesses, Labellers(ids, blockSize, numExperts))
    ensures Fuel4(|ids|, tokensPerThread, Offset(ids, blockSize, numExperts), p, next)
            < Fuel4(|ids|, tokensPerThread, Offset(ids, blockSize, numExperts), p, s)
  {
    labelled' := labelled;
    match s
    case LoadStart =>
      var start := cumsum.Load(p, p);
      next := LoadEnd(start);
    case LoadEnd(start) =>
      var end := cumsum.Load(p, p + 1);
      OffsetAligned(ids, blockSize, p);
      BlockStartMonotone(ids, blockSize, p, p + 1);
      BlockStartMonotone(ids, blockSize, p + 1, numExperts);
      next := Blocks(start, end);
    case Blocks(b, end) =>
      if b < end {
        LabelStep(ids, numExperts, blockSize, tokensPerThread, p, b, end, row, before, expertIds.data[..], placed, labelled);
        expertIds.Store(p, b / blockSize, p);
        labelled' := labelled + {b / blockSize};
        next := Blocks(b + blockSize, end);
      } else {
        OffsetAligned(ids, blockSize, p + 1);
        TimesIsProduct(p, tokensPerThread);
        next := Token(p * tokensPerThread);
      }
  }

  /** Storing token `i` in its cell. */
  lemma ScatterStep(ids: seq<int>, numExperts: nat, blockSize: nat, tokensPerThread: nat, p: nat, s: Stage4Program,
                    row: seq<int>, before: seq<int>, after: seq<int>, placed: set<int>, labelled: set<int>)
    requires blockSize >= 1 && ValidIds(ids, numExperts) && p < numExperts && s.HaveCell?
    requires Offset(ids, blockSize, numExperts) <= |after|
    requires Valid4(ids, numExperts, blockSize, tokensPerThread, p, s, row)
    requires Contributed(ids, blockSize, tokensPerThread, p, s, placed, labelled)
    requires PlacedSoFar(ids, blockSize, before, after, placed)
    ensures 0 <= s.cell < |after| && Placers(ids, blockSize, tokensPerThread, |after|)[s.cell] == p
    ensures PlacedSoFar(ids, blockSize, before, after[s.cell := s.i], placed + {s.i})
    ensures Valid4(ids, numExperts, blockSize, tokensPerThread, p, Placed(s.i, s.e, s.cnt), row)
    ensures Contributed(ids, blockSize, tokensPerThread, p, Placed(s.i, s.e, s.cnt), placed + {s.i}, labelled)
  {
    PositionBelowTotal(ids, numExperts, blockSize, s.i);
    PlaceOne(ids, blockSize, before, after, placed, s.i);
    PlacerIsOwner(ids, blockSize, tokensPerThread, p, s.i);
  }

  /** Advancing the prefix count in place after token `i`. */
  lemma AdvanceStep(ids: seq<int>, numExperts: nat, blockSize: nat, tokensPerThread: nat, p: nat, s: Stage4Program,
                    row: seq<int>, placed: set<int>, labelled: set<int>)
    requires blockSize >= 1 && ValidIds(ids, numExperts) && p < numExperts && s.Placed?
    requires Valid4(ids, numExperts, blockSize, tokensPerThread, p, s, row)
    requires Contributed(ids, blockSize, tokensPerThread, p, s, placed, labelled)
    ensures 0 <= s.e < |row|
    ensures Valid4(ids, numExperts, blockSize, tokensPerThread, p, Token(s.i + 1), row[s.e := s.cnt + 1])
    ensures Contributed(ids, blockSize, tokensPerThread, p, Token(s.i + 1), placed, labelled)
  {
    HistogramStep(ids, numExperts, 0, s.i);
  }

  /** Looking things up for a token contributes nothing yet. */
  lemma LookUpStep(ids: seq<int>, blockSize: nat, tokensPerThread: nat, p: nat, s: Stage4Program, next: Stage4Program,
                   placed: set<int>, labelled: set<int>)
    requires blockSize >= 1 && Contributed(ids, blockSize, tokensPerThread, p, s, placed, labelled)
    requires !Labelling(s) && !Labelling(next) && !s.Placed? && !next.Placed? && next.i == s.i
    ensures Contributed(ids, blockSize, tokensPerThread, p, next, placed, labelled)
  {
  }

  /** One step of program `p` while it scatters the tokens of its chunk. */
  method Step4Token(topkIds: seq<int>, sortedTokenIds: Tensor, tokensCnts: Tensor, cumsum: Tensor, numExperts: nat,
                    blockSize: nat, tokensPerThread: nat, p: nat, s: Stage4Program,
                    ghost rows: seq<seq<int>>, ghost before: seq<int>, ghost placed: set<int>, ghost labelled: set<int>)
    returns (next: Stage4Program, ghost rows': seq<seq<int>>, ghost placed': set<int>)
    requires blockSize >= 1 && ValidIds(topkIds, numExperts) && p < numExperts
    requires !Labelling(s) && (s.Token? ==> s.i < Times(p, tokensPerThread) + tokensPerThread && s.i < |topkIds|)
    requires cumsum.data.Length == numExperts + 1
    requires sortedTokenIds.data != cumsum.data && tokensCnts.data !in {sortedTokenIds.data, cumsum.data}
    requires forall e | 0 <= e <= numExperts :: cumsum.data[e] == Offset(topkIds, blockSize, e)
    requires Offset(topkIds, blockSize, numExperts) <= sortedTokenIds.data.Length
    requires Matrix(rows, numExperts + 1, numExperts) && tokensCnts.data[..] == Flat(rows)
    requires Valid4(topkIds, numExperts, blockSize, tokensPerThread, p, s, rows[p])
    requires Contributed(topkIds, blockSize, tokensPerThread, p, s, placed, labelled)
    requires PlacedSoFar(topkIds, blockSize, before, sortedTokenIds.data[..], placed)
    requires forall a | a in cumsum.accesses :: !a.write
    requires Owned(tokensCnts.accesses, Flat(Owners4(numExperts)))
    requires Owned(sortedTokenIds.accesses, Placers(topkIds, blockSize, tokensPerThread, sortedTokenIds.data.Length))
    modifies sortedTokenIds.data, sortedTokenIds`accesses, tokensCnts.data, tokensCnts`accesses, cumsum`accesses
    ensures placed <= placed'
    ensures Matrix(rows', numExperts + 1, numExperts) && tokensCnts.data[..] == Flat(rows')
    ensures forall r | 0 <= r <= numExperts && r != p :: rows'[r] == rows[r]
    ensures Valid4(topkIds, numExperts, blockSize, tokensPerThread, p, next, rows'[p])
    ensures Contributed(topkIds, blockSize, tokensPerThread, p, next, placed', labelled)
    ensures PlacedSoFar(topkIds, blockSize, before, sortedTokenIds.data[..], placed')
    ensures forall a | a in cumsum.accesses :: !a.write
    ensures Owned(tokensCnts.accesses, Flat(Owners4(numExperts)))
    ensures Owned(sortedTokenIds.accesses, Placers(topkIds, blockSize, tokensPerThread, sortedTokenIds.data.Length))
    ensures Fuel4(|topkIds|, tokensPerThread, Offset(topkIds, blockSize, numExperts), p, next)
            < Fuel4(|topkIds|, tokensPerThread, Offset(topkIds, blockSize, numExperts), p, s)
  {
    hide Flat, Placer, Count, Owned, PlacedSoFar, Contributed, Offset, BlockStart, Times;
    rows', placed' := rows, placed;
    var offT := p * numExperts;
    TimesIsProduct(p, numExperts);
    match s
    case Token(i) =>
      next := HaveExpert(i, topkIds[i]);
      LookUpStep(topkIds, blockSize, tokensPerThread, p, s, next, placed, labelled);
    case HaveExpert(i, e) =>
      var tokenCnt := LoadEntry(tokensCnts, p, offT + e, rows, numExperts + 1, numExperts, p, e, Owners4(numExperts));
      next := HaveRank(i, e, tokenCnt);
      LookUpStep(topkIds, blockSize, tokensPerThread, p, s, next, placed, labelled);
    case HaveRank(i, e, tokenCnt) =>
      var offset := cumsum.Load(p, e);
      next := HaveCell(i, e, tokenCnt, tokenCnt + offset);
      LookUpStep(topkIds, blockSize, tokensPerThread, p, s, next, placed, labelled);
    case HaveCell(i, e, tokenCnt, rankPostPad) =>
      ScatterStep(topkIds, numExperts, blockSize, tokensPerThread, p, s, rows[p], before, sortedTokenIds.data[..],
                  placed, labelled);
      OwnedAccess(sortedTokenIds.accesses, Placers(topkIds, blockSize, tokensPerThread, sortedTokenIds.data.Length),
                  p, rankPostPad, true);
      sortedTokenIds.Store(p, rankPostPad, i);
      placed' := placed + {i};
      next := Placed(i, e, tokenCnt);
    case Placed(i, e, tokenCnt) =>
      AdvanceStep(topkIds, numExperts, blockSize, tokensPerThread, p, s, rows[p], placed, labelled);
      StoreEntry(tokensCnts, p, offT + e, tokenCnt + 1, rows, numExperts + 1, numExperts, p, e, Owners4(numExperts));
      rows' := rows[p := rows[p][e := tokenCnt + 1]];
      next := Token(i + 1);
  }

  /** Everything that holds between two steps of the launch. */
  ghost predicate Invariant4(ids: seq<int>, numExperts: nat, blockSize: nat, tokensPerThread: nat,
                             programs: seq<Stage4Program>, rows: seq<seq<int>>, placed: set<int>, labelled: set<int>)
    requires blockSize >= 1 && ValidIds(ids, numExperts)
  {
    && |programs| == numExperts && Matrix(rows, numExperts + 1, numExperts)
    && (forall p | 0 <= p < numExperts ::
          && Valid4(ids, numExperts, blockSize, tokensPerThread, p, programs[p], rows[p])
          && Contributed(ids, blockSize, tokensPerThread, p, programs[p], placed, labelled))
  }

  lemma OthersUndisturbed(ids: seq<int>, numExperts: nat, blockSize: nat, tokensPerThread: nat,
                          programs: seq<Stage4Program>, rows: seq<seq<int>>, placed: set<int>, labelled: set<int>,
                          p: nat, next: Stage4Program, rows': seq<seq<int>>, placed': set<int>, labelled': set<int>)
    requires blockSize >= 1 && ValidIds(ids, numExperts) && p < numExperts
    requires Invariant4(ids, numExperts, blockSize, tokensPerThread, programs, rows, placed, labelled)
    requires Matrix(rows', numExperts + 1, numExperts) && placed <= placed' && labelled <= labelled'
    requires forall r | 0 <= r <= numExperts && r != p :: rows'[r] == rows[r]
    requires Valid4(ids, numExperts, blockSize, tokensPerThread, p, next, rows'[p])
    requires Contributed(ids, blockSize, tokensPerThread, p, next, placed', labelled')
    ensures Invariant4(ids, numExperts, blockSize, tokensPerThread, programs[p := next], rows', placed', labelled')
  {
  }

  ghost predicate Distinct4(sortedTokenIds: Tensor, expertIds: Tensor, tokensCnts: Tensor, cumsum: Tensor) {
    && expertIds.data !in {sortedTokenIds.data, tokensCnts.data, cumsum.data}
    && sortedTokenIds.data !in {tokensCnts.data, cumsum.data} && tokensCnts.data != cumsum.data
  }

  /** What the buffers hold between two steps, and that everyone kept to their own cells. */
  ghost predicate Buffers4(ids: seq<int>, numExperts: nat, blockSize: nat, tokensPerThread: nat,
                           sortedTokenIds: Tensor, expertIds: Tensor, tokensCnts: Tensor, cumsum: Tensor,
                           sortedBefore: seq<int>, labelsBefore: seq<int>,
                           rows: seq<seq<int>>, placed: set<int>, labelled: set<int>)
    requires blockSize >= 1 && ValidIds(ids, numExperts)
    reads sortedTokenIds, sortedTokenIds.data, expertIds, expertIds.data, tokensCnts, tokensCnts.data,
          cumsum, cumsum.data
  {
    && tokensCnts.data[..] == Flat(rows)
    && cumsum.data.Length == numExperts + 1
    && (forall e | 0 <= e <= numExperts :: cumsum.data[e] == Offset(ids, blockSize, e))
    && Offset(ids, blockSize, numExperts) <= sortedTokenIds.data.Length
    && BlockStart(ids, blockSize, numExperts) <= expertIds.data.Length
    && PlacedSoFar(ids, blockSize, sortedBefore, sortedTokenIds.data[..], placed)
    && LabelledSoFar(ids, numExperts, blockSize, labelsBefore, expertIds.data[..], labelled)
    && (forall a | a in cumsum.accesses :: !a.write)
    && Owned(expertIds.accesses, Labellers(ids, blockSize, numExperts))
    && Owned(tokensCnts.accesses, Flat(Owners4(numExperts)))
    && Owned(sortedTokenIds.accesses, Placers(ids, blockSize, tokensPerThread, sortedTokenIds.data.Length))
  }

  /** One step of program `p`, whatever it is doing. */
  method Step4(topkIds: seq<int>, sortedTokenIds: Tensor, expertIds: Tensor, tokensCnts: Tensor, cumsum: Tensor,
               numExperts: nat, blockSize: nat, tokensPerThread: nat, p: nat, programs: seq<Stage4Program>,
               ghost sortedBefore: seq<int>, ghost labelsBefore: seq<int>,
               ghost rows: seq<seq<int>>, ghost placed: set<int>, ghost labelled: set<int>)
    returns (next: Stage4Program, ghost rows': seq<seq<int>>, ghost placed': set<int>, ghost labelled': set<int>)
    requires blockSize >= 1 && ValidIds(topkIds, numExperts) && p < numExperts
    requires Distinct4(sortedTokenIds, expertIds, tokensCnts, cumsum)
    requires Invariant4(topkIds, numExperts, blockSize, tokensPerThread, programs, rows, placed, labelled)
    requires !Finished4(|topkIds|, tokensPerThread, p, programs[p])
    requires Buffers4(topkIds, numExperts, blockSize, tokensPerThread, sortedTokenIds, expertIds, tokensCnts, cumsum,
                      sortedBefore, labelsBefore, rows, placed, labelled)
    modifies sortedTokenIds.data, sortedTokenIds`accesses, expertIds.data, expertIds`accesses,
             tokensCnts.data, tokensCnts`accesses, cumsum`accesses
    ensures Invariant4(topkIds, numExperts, blockSize, tokensPerThread, programs[p := next], rows', placed', labelled')
    ensures Buffers4(topkIds, numExperts, blockSize, tokensPerThread, sortedTokenIds, expertIds, tokensCnts, cumsum,
                     sortedBefore, labelsBefore, rows', placed', labelled')
    ensures Fuel4(|topkIds|, tokensPerThread, Offset(topkIds, blockSize, numExperts), p, next)
            < Fuel4(|topkIds|, tokensPerThread, Offset(topkIds, blockSize, numExperts), p, programs[p])
    ensures rows'[numExperts] == rows[numExperts]
  {
    rows', placed', labelled' := rows, placed, labelled;
    TimesIsProduct(p, tokensPerThread);
    if Labelling(programs[p]) {
      next, labelled' := Step4Label(expertIds, cumsum, numExperts, blockSize, tokensPerThread, p, programs[p],
                                    topkIds, rows[p], labelsBefore, placed, labelled);
    } else {
      next, rows', placed' := Step4Token(topkIds, sortedTokenIds, tokensCnts, cumsum, numExperts, blockSize,
                                         tokensPerThread, p, programs[p], rows, sortedBefore, placed, labelled);
    }
    OthersUndisturbed(topkIds, numExperts, blockSize, tokensPerThread, programs, rows, placed, labelled,
                      p, next, rows', placed', labelled');
  }

  method Stage4(topkIds: seq<int>, sortedTokenIds: Tensor, expertIds: Tensor, tokensCnts: Tensor, cumsum: Tensor,
                numExperts: nat, blockSize: nat, tokensPerThread: nat, ghost rows0: seq<seq<int>>)
    requires blockSize >= 1 && ValidIds(topkIds, numExperts) && |topkIds| <= Times(numExperts, tokensPerThread)
    requires Distinct4(sortedTokenIds, expertIds, tokensCnts, cumsum)
    requires cumsum.data.Length == numExperts + 1
    requires Matrix(rows0, numExperts + 1, numExperts) && tokensCnts.data[..] == Flat(rows0)
    requires forall p | 0 <= p < numExperts ::
               rows0[p] == Histogram(topkIds, numExperts, 0, Min(Times(p, tokensPerThread), |topkIds|))
    requires forall e | 0 <= e <= numExperts :: cumsum.data[e] == Offset(topkIds, blockSize, e)
    requires Offset(topkIds, blockSize, numExperts) <= sortedTokenIds.data.Length
    requires BlockStart(topkIds, blockSize, numExperts) <= expertIds.data.Length
    modifies sortedTokenIds.data, sortedTokenIds`accesses, expertIds.data, expertIds`accesses,
             tokensCnts.data, tokensCnts`accesses, cumsum`accesses
    ensures Scattered(topkIds, blockSize, old(sortedTokenIds.data[..]), sortedTokenIds.data[..])
    ensures Labelled(topkIds, numExperts, blockSize, old(expertIds.data[..]), expertIds.data[..])
    ensures tokensCnts.data[..] == Flat(CountsAfter(topkIds, numExperts, tokensPerThread, rows0[numExperts]))
    ensures RaceFree(sortedTokenIds.accesses) && RaceFree(expertIds.accesses)
    ensures RaceFree(tokensCnts.accesses) && RaceFree(cumsum.accesses)
  {
    hide Flat, Histogram, Placer, Labellers, RaceFree, Scattered, Labelled, Offset, BlockStart, Times;
    sortedTokenIds.Barrier();
    expertIds.Barrier();
    tokensCnts.Barrier();
    cumsum.Barrier();
    var programs := seq(numExperts, _ => LoadStart);
    ghost var rows, placed, labelled := rows0, {}, {};
    ghost var sortedBefore, labelsBefore := sortedTokenIds.data[..], expertIds.data[..];
    ghost var total := Offset(topkIds, blockSize, numExperts);
    ghost var fuel := (p: int, s: Stage4Program) => Fuel4(|topkIds|, tokensPerThread, total, p, s);
    while exists p | 0 <= p < numExperts :: !Finished4(|topkIds|, tokensPerThread, p, programs[p])
      invariant Invariant4(topkIds, numExperts, blockSize, tokensPerThread, programs, rows, placed, labelled)
      invariant Buffers4(topkIds, numExperts, blockSize, tokensPerThread, sortedTokenIds, expertIds, tokensCnts, cumsum,
                         sortedBefore, labelsBefore, rows, placed, labelled)
      invariant rows[numExperts] == rows0[numExperts]
      decreases Work(programs, fuel)
    {
      var p :| 0 <= p < numExperts && !Finished4(|topkIds|, tokensPerThread, p, programs[p]);
      var next;
      next, rows, placed, labelled :=
        Step4(topkIds, sortedTokenIds, expertIds, tokensCnts, cumsum, numExperts, blockSize, tokensPerThread,
              p, programs, sortedBefore, labelsBefore, rows, placed, labelled);
      WorkDecreases(programs, fuel, p, next);
      programs := programs[p := next];
    }
    AllPlaced(topkIds, numExperts, blockSize, tokensPerThread, programs, rows, placed, labelled,
              sortedBefore, sortedTokenIds.data[..]);
    AllLabelled(topkIds, numExperts, blockSize, tokensPerThread, programs, rows, placed, labelled,
                labelsBefore, expertIds.data[..]);
    AllCounted(topkIds, numExperts, blockSize, tokensPerThread, programs, rows, placed, labelled);
    OwnedIsRaceFree(sortedTokenIds.accesses, Placers(topkIds, blockSize, tokensPerThread, sortedTokenIds.data.Length));
    OwnedIsRaceFree(expertIds.accesses, Labellers(topkIds, blockSize, numExperts));
    OwnedIsRaceFree(tokensCnts.accesses, Flat(Owners4(numExperts)));
    LoadsAreRaceFree(cumsum.accesses);
  }

  /** The counts once every program has finished: row `p` has moved on to the end of chunk `p`. */
  ghost function CountsAfter(ids: seq<int>, numExperts: nat, tokensPerThread: nat, last: seq<int>): seq<seq<int>>
    requires ValidIds(ids, numExperts)
  {
    seq(numExperts, p requires 0 <= p < numExperts =>
      Histogram(ids, numExperts, 0, Min(Times(p + 1, tokensPerThread), |ids|))) + [last]
  }

  lemma AllCounted(ids: seq<int>, numExperts: nat, blockSize: nat, tokensPerThread: nat, programs: seq<Stage4Program>,
                   rows: seq<seq<int>>, placed: set<int>, labelled: set<int>)
    requires blockSize >= 1 && ValidIds(ids, numExperts)
    requires Invariant4(ids, numExperts, blockSize, tokensPerThread, programs, rows, placed, labelled)
    requires forall p | 0 <= p < numExperts :: Finished4(|ids|, tokensPerThread, p, programs[p])
    ensures rows == CountsAfter(ids, numExperts, tokensPerThread, rows[numExperts])
  {
    hide Histogram, Contributed;
    forall p | 0 <= p < numExperts
      ensures rows[p] == Histogram(ids, numExperts, 0, Min(Times(p + 1, tokensPerThread), |ids|))
    {
      TimesIsProduct(p, tokensPerThread);
      assert Valid4(ids, numExperts, blockSize, tokensPerThread, p, programs[p], rows[p]);
    }
  }

  lemma AllPlaced(ids: seq<int>, numExperts: nat, blockSize: nat, tokensPerThread: nat, programs: seq<Stage4Program>,
                  rows: seq<seq<int>>, placed: set<int>, labelled: set<int>, before: seq<int>, after: seq<int>)
    requires blockSize >= 1 && ValidIds(ids, numExperts) && |ids| <= Times(numExperts, tokensPerThread)
    requires Invariant4(ids, numExperts, blockSize, tokensPerThread, programs, rows, placed, labelled)
    requires forall p | 0 <= p < numExperts :: Finished4(|ids|, tokensPerThread, p, programs[p])
    requires PlacedSoFar(ids, blockSize, before, after, placed)
    ensures Scattered(ids, blockSize, before, after)
  {
    forall i | 0 <= i < |ids| ensures i in placed {
      var p := ChunkOf(i, numExperts, tokensPerThread);
      TimesIsProduct(p, tokensPerThread);
      assert Contributed(ids, blockSize, tokensPerThread, p, programs[p], placed, labelled);
    }
  }

  lemma AllLabelled(ids: seq<int>, numExperts: nat, blockSize: nat, tokensPerThread: nat, programs: seq<Stage4Program>,
                    rows: seq<seq<int>>, placed: set<int>, labelled: set<int>, before: seq<int>, after: seq<int>)
    requires blockSize >= 1 && ValidIds(ids, numExperts)
    requires Invariant4(ids, numExperts, blockSize, tokensPerThread, programs, rows, placed, labelled)
    requires forall p | 0 <= p < numExperts :: Finished4(|ids|, tokensPerThread, p, programs[p])
    requires LabelledSoFar(ids, numExperts, blockSize, before, after, labelled)
    ensures Labelled(ids, numExperts, blockSize, before, after)
  {
    forall e: nat, b: nat | e < numExperts && IsBlockOf(ids, blockSize, e, b) ensures b in labelled {
      assert Contributed(ids, blockSize, tokensPerThread, e, programs[e], placed, labelled);
    }
  }

  // ---- the four launches in sequence ------------------------------------------------------------

  lemma ChunksCoverTokens(numel: nat, numExperts: nat)
    requires numExperts >= 1
    ensures 0 <= CeilDiv(numel, numExperts) && numel <= Times(numExperts, CeilDiv(numel, numExperts))
  {
    CeilDivCountsBlocks(numel, numExperts);
    BlocksHold(numel, numExperts);
    TimesIsProduct(numExperts, CeilDiv(numel, numExperts));
  }

  lemma PrefixRows(ids: seq<int>, numExperts: nat, tokensPerThread: nat)
    requires ValidIds(ids, numExperts)
    ensures var sums := ColumnSums(ChunkHistograms(ids, numExperts, tokensPerThread), numExperts + 1, numExperts);
            && Matrix(sums, numExperts + 1, numExperts)
            && (forall r | 0 <= r <= numExperts ::
                  sums[r] == Histogram(ids, numExperts, 0, Min(Times(r, tokensPerThread), |ids|)))
            && (|ids| <= Times(numExperts, tokensPerThread) ==> sums[numExperts] == Histogram(ids, numExperts, 0, |ids|))
  {
    forall r | 0 <= r <= numExperts
      ensures ColumnSums(ChunkHistograms(ids, numExperts, tokensPerThread), numExperts + 1, numExperts)[r]
              == Histogram(ids, numExperts, 0, Min(Times(r, tokensPerThread), |ids|))
    {
      SumsCountPrefixes(ids, numExperts, tokensPerThread, r);
    }
  }

  /** Sizes as `calculate_diff` allocates them suffice; the outcome is the padded stable sort. */
  method MoeAlignBlockSize(topkIds: seq<int>, numExperts: nat, blockSize: nat,
                           sortedTokenIds: Tensor, expertIds: Tensor, numTokensPostPad: Tensor)
    requires numExperts >= 1 && blockSize >= 1 && ValidIds(topkIds, numExperts)
    requires sortedTokenIds.data.Length >= |topkIds| + numExperts * (blockSize - 1)
    requires expertIds.data.Length >= (|topkIds| + numExperts * (blockSize - 1)) / blockSize
    requires numTokensPostPad.data.Length == 1
    requires sortedTokenIds.data !in {expertIds.data, numTokensPostPad.data} && expertIds.data != numTokensPostPad.data
    modifies sortedTokenIds.data, sortedTokenIds`accesses, expertIds.data, expertIds`accesses,
             numTokensPostPad.data, numTokensPostPad`accesses
    ensures Scattered(topkIds, blockSize, old(sortedTokenIds.data[..]), sortedTokenIds.data[..])
    ensures Labelled(topkIds, numExperts, blockSize, old(expertIds.data[..]), expertIds.data[..])
    ensures numTokensPostPad.data[0] == Offset(topkIds, blockSize, numExperts)
  {
    hide Flat, Zeros, Histogram, ChunkHistograms, ColumnSums, Scattered, Labelled, BlockStart, Offset, RaceFree, Times;
    TotalFits(topkIds, numExperts, blockSize);
    TimesIsProduct(numExperts + 1, numExperts);
    FlatZeros(numExperts + 1, numExperts);
    var tokensCnts := new Tensor((numExperts + 1) * numExperts, 0);
    var cumsum := new Tensor(numExperts + 1, 0);
    var tokensPerThread := CeilDiv(|topkIds|, numExperts);
    ChunksCoverTokens(|topkIds|, numExperts);
    ghost var rows := ChunkHistograms(topkIds, numExperts, tokensPerThread);
    ghost var sums := ColumnSums(rows, numExperts + 1, numExperts);
    PrefixRows(topkIds, numExperts, tokensPerThread);
    assert cumsum.data[..][0] == 0;
    Stage1(topkIds, tokensCnts, numExperts, tokensPerThread);
    Stage2(tokensCnts, numExperts, rows);
    Stage3(numTokensPostPad, tokensCnts, cumsum, numExperts, blockSize, topkIds, sums);
    Stage4(topkIds, sortedTokenIds, expertIds, tokensCnts, cumsum, numExperts, blockSize, tokensPerThread, sums);
  }
}
