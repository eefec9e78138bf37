/** The padded, masked decode kernel and its wrapper
    (sgl-kernel/benchmark/bench_lightning_attention_decode.py), against the naive step. */
module LightningKernel {
  import opened Arithmetic
  import opened DeviceMemory
  import opened LightningSpec
  import opened Wrappers

  // ---- padded buffers ---------------------------------------------------------------------------

  /** Address of entry `(p, i, j)` of a contiguous tensor of shape `(_, height, width)`. */
  ghost function Cell(p: nat, i: nat, j: nat, height: nat, width: nat): nat {
    Times(p, Times(height, width)) + Times(i, width) + j
  }

  lemma CellInRow(i: nat, j: nat, height: nat, width: nat)
    requires i < height && j < width
    ensures Times(i, width) + j < Times(height, width)
  {
    TimesMonotone(i + 1, height, width);
  }

  lemma CellInRange(p: nat, i: nat, j: nat, count: nat, height: nat, width: nat)
    requires p < count && i < height && j < width
    ensures Times(p, Times(height, width)) <= Cell(p, i, j, height, width) < Times(p + 1, Times(height, width))
    ensures Cell(p, i, j, height, width) < Times(count, Times(height, width))
  {
    CellInRow(i, j, height, width);
    TimesMonotone(p + 1, count, Times(height, width));
  }

  /** Different programs have disjoint ranges of cells, and different entries different cells. */
  lemma CellsApart(p: nat, i: nat, j: nat, q: nat, i': nat, j': nat, height: nat, width: nat)
    requires i < height && j < width && i' < height && j' < width
    requires Cell(p, i, j, height, width) == Cell(q, i', j', height, width)
    ensures p == q && i == i' && j == j'
  {
    CellInRow(i, j, height, width);
    CellInRow(i', j', height, width);
    if p < q { TimesMonotone(p + 1, q, Times(height, width)); }
    if q < p { TimesMonotone(q + 1, p, Times(height, width)); }
    if i < i' { TimesMonotone(i + 1, i', width); }
    if i' < i { TimesMonotone(i' + 1, i, width); }
  }

  /** The contents of a buffer as a tensor. */
  ghost function View(s: seq<real>, count: nat, height: nat, width: nat): (t: Heads)
    requires |s| == Times(count, Times(height, width))
    ensures Shape3(t, count, height, width)
    ensures forall p, i, j | 0 <= p < count && 0 <= i < height && 0 <= j < width ::
              Cell(p, i, j, height, width) < |s| && t[p][i][j] == s[Cell(p, i, j, height, width)]
  {
    hide Cell;
    assert forall p, i, j | 0 <= p < count && 0 <= i < height && 0 <= j < width ::
        Cell(p, i, j, height, width) < |s| by
    {
      forall p, i, j | 0 <= p < count && 0 <= i < height && 0 <= j < width
        ensures Cell(p, i, j, height, width) < |s|
      {
        CellInRange(p, i, j, count, height, width);
      }
    }
    seq(count, p requires 0 <= p < count => seq(height, i requires 0 <= i < height =>
      seq(width, j requires 0 <= j < width => s[Cell(p, i, j, height, width)])))
  }

  ghost function Put(t: Heads, p: nat, i: nat, j: nat, x: real): Heads
    requires p < |t| && i < |t[p]| && j < |t[p][i]|
  {
    t[p := t[p][i := t[p][i][j := x]]]
  }

  /** A store to one cell changes that entry and no other. */
  lemma ViewOfStore(s: seq<real>, count: nat, height: nat, width: nat, p: nat, i: nat, j: nat, x: real)
    requires |s| == Times(count, Times(height, width)) && p < count && i < height && j < width
    ensures Cell(p, i, j, height, width) < |s|
    ensures View(s[Cell(p, i, j, height, width) := x], count, height, width)
      == Put(View(s, count, height, width), p, i, j, x)
  {
    hide Cell, View;
    CellInRange(p, i, j, count, height, width);
    var c := Cell(p, i, j, height, width);
    var after, goal := View(s[c := x], count, height, width), Put(View(s, count, height, width), p, i, j, x);
    forall p', i', j' | 0 <= p' < count && 0 <= i' < height && 0 <= j' < width
      ensures after[p'][i'][j'] == goal[p'][i'][j']
    {
      if Cell(p', i', j', height, width) == c {
        CellsApart(p, i, j, p', i', j', height, width);
      }
    }
    SameTensor(after, goal, count, height, width);
  }

  lemma SameTensor(t: Heads, u: Heads, count: nat, height: nat, width: nat)
    requires Shape3(t, count, height, width) && Shape3(u, count, height, width)
    requires forall p, i, j | 0 <= p < count && 0 <= i < height && 0 <= j < width :: t[p][i][j] == u[p][i][j]
    ensures t == u
  {
    forall p | 0 <= p < count ensures t[p] == u[p] {
      forall i | 0 <= i < height ensures t[p][i] == u[p][i] {}
    }
  }

  /** `m` with its leading `rows` by `cols` corner replaced by that of `x`. */
  ghost function Overlay(m: Rows, x: Rows, rows: nat, cols: nat, height: nat, width: nat): (r: Rows)
    requires Shape2(m, height, width) && rows <= height && cols <= width
    requires rows <= |x| && forall i | 0 <= i < rows :: cols <= |x[i]|
    ensures Shape2(r, height, width)
    ensures forall i, j | 0 <= i < height && 0 <= j < width ::
              r[i][j] == if i < rows && j < cols then x[i][j] else m[i][j]
  {
    seq(height, i requires 0 <= i < height => seq(width, j requires 0 <= j < width =>
      if i < rows && j < cols then x[i][j] else m[i][j]))
  }

  /** An overlay under way: rows before `i`, and `j` cells of row `i`. */
  ghost function Partial(m: Rows, x: Rows, i: nat, j: nat, rows: nat, cols: nat, height: nat, width: nat): (r: Rows)
    requires Shape2(m, height, width) && i <= rows <= height && j <= cols <= width && (i == rows ==> j == 0)
    requires rows <= |x| && forall a | 0 <= a < rows :: cols <= |x[a]|
    ensures Shape2(r, height, width)
    ensures forall a, b | 0 <= a < height && 0 <= b < width ::
              r[a][b] == if (a < i && b < cols) || (a == i && b < j) then x[a][b] else m[a][b]
  {
    seq(height, a requires 0 <= a < height => seq(width, b requires 0 <= b < width =>
      if (a < i && b < cols) || (a == i && b < j) then x[a][b] else m[a][b]))
  }

  lemma SameRows(m: Rows, x: Rows, height: nat, width: nat)
    requires Shape2(m, height, width) && Shape2(x, height, width)
    requires forall i, j | 0 <= i < height && 0 <= j < width :: m[i][j] == x[i][j]
    ensures m == x
  {
    forall i | 0 <= i < height ensures m[i] == x[i] {}
  }

  lemma PartialSteps(m: Rows, x: Rows, i: nat, j: nat, rows: nat, cols: nat, height: nat, width: nat)
    requires Shape2(m, height, width) && i <= rows <= height && j <= cols <= width && (i == rows ==> j == 0)
    requires rows <= |x| && forall a | 0 <= a < rows :: cols <= |x[a]|
    ensures i == 0 && j == 0 ==> Partial(m, x, i, j, rows, cols, height, width) == m
    ensures i < rows && j < cols ==>
      var r := Partial(m, x, i, j, rows, cols, height, width);
      r[i := r[i][j := x[i][j]]] == Partial(m, x, i, j + 1, rows, cols, height, width)
    ensures i < rows && j == cols ==>
      Partial(m, x, i, j, rows, cols, height, width) == Partial(m, x, i + 1, 0, rows, cols, height, width)
    ensures i == rows ==>
      Partial(m, x, i, j, rows, cols, height, width) == Overlay(m, x, rows, cols, height, width)
  {
    hide Partial, Overlay;
    var r := Partial(m, x, i, j, rows, cols, height, width);
    if i == 0 && j == 0 {
      SameRows(r, m, height, width);
    }
    if i < rows && j < cols {
      SameRows(r[i := r[i][j := x[i][j]]], Partial(m, x, i, j + 1, rows, cols, height, width), height, width);
    }
    if i < rows && j == cols {
      SameRows(r, Partial(m, x, i + 1, 0, rows, cols, height, width), height, width);
    }
    if i == rows {
      SameRows(r, Overlay(m, x, rows, cols, height, width), height, width);
    }
  }

  /** A masked two-dimensional store at the range of program `p`. */
  method StoreMasked(buf: array<real>, offset: nat, x: Rows, rows: nat, cols: nat,
                     height: nat, width: nat, ghost p: nat, ghost count: nat)
    requires p < count && buf.Length == Times(count, Times(height, width)) && offset == Times(p, Times(height, width))
    requires rows <= height && cols <= width && rows <= |x| && forall i | 0 <= i < rows :: cols <= |x[i]|
    modifies buf
    ensures var before := View(old(buf[..]), count, height, width);
      View(buf[..], count, height, width) == before[p := Overlay(before[p], x, rows, cols, height, width)]
  {
    hide View, Partial, Overlay, Cell;
    ghost var before := View(buf[..], count, height, width);
    ghost var m := before[p];
    PartialSteps(m, x, 0, 0, rows, cols, height, width);
    assert before[p := m] == before;
    for i := 0 to rows
      invariant View(buf[..], count, height, width)
             == before[p := Partial(m, x, i, 0, rows, cols, height, width)]
    {
      for j := 0 to cols
        invariant View(buf[..], count, height, width)
               == before[p := Partial(m, x, i, j, rows, cols, height, width)]
      {
        PartialSteps(m, x, i, j, rows, cols, height, width);
        CellAddress(p, i, j, height, width);
        ViewOfStore(buf[..], count, height, width, p, i, j, x[i][j]);
        ghost var s := buf[..];
        buf[offset + i * width + j] := x[i][j];
        assert buf[..] == s[Cell(p, i, j, height, width) := x[i][j]];
      }
      PartialSteps(m, x, i, cols, rows, cols, height, width);
    }
    PartialSteps(m, x, rows, 0, rows, cols, height, width);
  }

  lemma CellAddress(p: nat, i: nat, j: nat, height: nat, width: nat)
    ensures Cell(p, i, j, height, width) == Times(p, Times(height, width)) + i * width + j
  {
    TimesIsProduct(i, width);
  }

  // ---- one program --------------------------------------------------------------------------------

  /** A masked load: lanes outside the mask read as zero. */
  function MaskedLoad(s: seq<real>, offset: nat, size: nat, live: nat): (r: Row)
    requires offset + live <= |s| && live <= size
    ensures |r| == size
  {
    seq(size, i requires 0 <= i < size => if i < live then s[offset + i] else 0.0)
  }

  function MaskedLoad2(s: seq<real>, offset: nat, height: nat, width: nat, rows: nat, cols: nat): (r: Rows)
    requires offset + Times(height, width) <= |s| && rows <= height && cols <= width
    ensures Shape2(r, height, width)
  {
    seq(height, i requires 0 <= i < height => seq(width, j requires 0 <= j < width =>
      if i < rows && j < cols then
        CellInRow(i, j, height, width);
        TimesIsProduct(i, width);
        s[offset + i * width + j]
      else 0.0))
  }

  ghost function MaskedRow(row: Row, live: nat): (r: Row)
    ensures |r| == |row|
  {
    seq(|row|, i requires 0 <= i < |row| => if i < live then row[i] else 0.0)
  }

  ghost function Masked(m: Rows, height: nat, width: nat, rows: nat, cols: nat): (r: Rows)
    requires Shape2(m, height, width)
    ensures Shape2(r, height, width)
  {
    seq(height, i requires 0 <= i < height => seq(width, j requires 0 <= j < width =>
      if i < rows && j < cols then m[i][j] else 0.0))
  }

  lemma LoadedRow(s: seq<real>, p: nat, count: nat, size: nat, live: nat)
    requires |s| == Times(count, Times(1, size)) && p < count && live <= size
    ensures Times(1, size) == size && Times(p, size) + live <= |s|
    ensures MaskedLoad(s, Times(p, size), size, live) == MaskedRow(View(s, count, 1, size)[p][0], live)
  {
    assert Times(0, size) == 0 && Times(1, size) == size;
    TimesMonotone(p + 1, count, size);
    var row := View(s, count, 1, size)[p][0];
    forall i | 0 <= i < live ensures row[i] == s[Times(p, size) + i] {
      assert Cell(p, 0, i, 1, size) == Times(p, size) + i;
    }
  }

  lemma LoadedRows(s: seq<real>, p: nat, count: nat, height: nat, width: nat, rows: nat, cols: nat)
    requires |s| == Times(count, Times(height, width)) && p < count && rows <= height && cols <= width
    ensures Times(p, Times(height, width)) + Times(height, width) <= |s|
    ensures MaskedLoad2(s, Times(p, Times(height, width)), height, width, rows, cols)
      == Masked(View(s, count, height, width)[p], height, width, rows, cols)
  {
    hide View;
    TimesMonotone(p + 1, count, Times(height, width));
    var m := View(s, count, height, width)[p];
    var loaded := MaskedLoad2(s, Times(p, Times(height, width)), height, width, rows, cols);
    var goal := Masked(m, height, width, rows, cols);
    forall i, j | 0 <= i < height && 0 <= j < width ensures loaded[i][j] == goal[i][j] {
      CellAddress(p, i, j, height, width);
      CellInRange(p, i, j, count, height, width);
    }
    SameRows(loaded, goal, height, width);
  }

  ghost function Corner(m: Rows, rows: nat, cols: nat): (r: Rows)
    requires rows <= |m| && forall i | 0 <= i < rows :: cols <= |m[i]|
    ensures Shape2(r, rows, cols)
    ensures forall i, j | 0 <= i < rows && 0 <= j < cols :: r[i][j] == m[i][j]
  {
    seq(rows, i requires 0 <= i < rows => m[i][..cols])
  }

  /** Masked lanes add nothing to the sum. */
  lemma {:induction false} MaskedSum(q: Row, kv: Rows, small: Row, corner: Rows, d: nat, e: nat, live: nat, cols: nat, j: nat, m: nat)
    requires |q| == d && Shape2(kv, d, e) && live <= d && cols <= e && j < cols && m <= d
    requires |small| == live && Shape2(corner, live, cols)
    requires forall i | 0 <= i < live :: small[i] == q[i] && corner[i][j] == kv[i][j]
    requires forall i | live <= i < d :: q[i] == 0.0
    ensures ColumnSum(q, kv, j, m) == ColumnSum(small, corner, j, if m < live then m else live)
  {
    if m > 0 {
      MaskedSum(q, kv, small, corner, d, e, live, cols, j, m - 1);
      if m > live {
        assert q[m - 1] * kv[m - 1][j] == 0.0;
      }
    }
  }

  /** What a program computes in its padded registers is, inside the mask, the naive step. */
  lemma PaddingIsIgnored(ratio: real, q: Row, k: Row, v: Row, kv: Rows, d: nat, e: nat, live: nat, cols: nat)
    requires |q| == d && |k| == d && |v| == e && Shape2(kv, d, e) && live <= d && cols <= e
    ensures var wide := HeadStep(ratio, Masked(kv, d, e, live, cols), MaskedRow(k, live), MaskedRow(v, cols), d, e);
      var narrow := HeadStep(ratio, Corner(kv, live, cols), k[..live], v[..cols], live, cols);
      Corner(wide, live, cols) == narrow &&
      HeadOut(MaskedRow(q, live), wide, d, e)[..cols] == HeadOut(q[..live], narrow, live, cols)
  {
    var wide := HeadStep(ratio, Masked(kv, d, e, live, cols), MaskedRow(k, live), MaskedRow(v, cols), d, e);
    var narrow := HeadStep(ratio, Corner(kv, live, cols), k[..live], v[..cols], live, cols);
    hide HeadStep;
    forall i, j | 0 <= i < live && 0 <= j < cols ensures wide[i][j] == narrow[i][j] {
      assert wide[i][j] == ratio * kv[i][j] + k[i] * v[j];
    }
    SameRows(Corner(wide, live, cols), narrow, live, cols);
    forall j | 0 <= j < cols
      ensures HeadOut(MaskedRow(q, live), wide, d, e)[j] == HeadOut(q[..live], narrow, live, cols)[j]
    {
      MaskedSum(MaskedRow(q, live), wide, q[..live], narrow, d, e, live, cols, j, d);
    }
  }

  // ---- the launch ---------------------------------------------------------------------------------

  /** One program's progress. `q` and `kv` are its padded registers, `kv` already updated. */
  datatype Program =
    | Ready
    | Loaded(q: Row, kv: Rows)
    | StateStored(q: Row, kv: Rows)
    | Finished

  ghost function Fuel(s: Program): nat {
    match s
    case Ready => 3
    case Loaded(_, _) => 2
    case StateStored(_, _) => 1
    case Finished => 0
  }

  /** Sizes of a launch and the tensors it finds in its buffers. */
  datatype Launch = Launch(count: nat, h: nat, d: nat, e: nat, live: nat, cols: nat, ratio: Row,
                           q: Heads, k: Heads, v: Heads, kv: Heads, out: Heads) {
    ghost predicate Valid() {
      && Shape3(q, count, 1, d) && Shape3(k, count, 1, d) && Shape3(v, count, 1, e)
      && Shape3(kv, count, d, e) && Shape3(out, count, 1, e)
      && live <= d && cols <= e && |ratio| == h && (count > 0 ==> h > 0)
    }

    ghost function QRegister(p: nat): (r: Row)
      requires Valid() && p < count
      ensures |r| == d
    {
      MaskedRow(q[p][0], live)
    }

    ghost function StateRegister(p: nat): (r: Rows)
      requires Valid() && p < count
      ensures Shape2(r, d, e)
    {
      HeadStep(ratio[p % h], Masked(kv[p], d, e, live, cols), MaskedRow(k[p][0], live), MaskedRow(v[p][0], cols), d, e)
    }

    ghost predicate Registers(p: nat, s: Program)
      requires Valid() && p < count
    {
      (s.Loaded? || s.StateStored?) ==> s.q == QRegister(p) && s.kv == StateRegister(p)
    }

    /** What program `p` has made of its part of the state buffer. */
    ghost function StateRange(p: nat, s: Program): (r: Rows)
      requires Valid() && p < count
      ensures Shape2(r, d, e)
    {
      if s.Ready? || s.Loaded? then kv[p] else Overlay(kv[p], StateRegister(p), live, cols, d, e)
    }

    ghost function OutRange(p: nat, s: Program): (r: Rows)
      requires Valid() && p < count
      ensures Shape2(r, 1, e)
    {
      if !s.Finished? then out[p]
      else Overlay(out[p], [HeadOut(QRegister(p), StateRegister(p), d, e)], 1, cols, 1, e)
    }

    ghost predicate Progress(programs: seq<Program>, kvNow: Heads, outNow: Heads)
      requires Valid()
    {
      && |programs| == count && Shape3(kvNow, count, d, e) && Shape3(outNow, count, 1, e)
      && forall p | 0 <= p < count ::
           Registers(p, programs[p]) && kvNow[p] == StateRange(p, programs[p]) && outNow[p] == OutRange(p, programs[p])
    }
  }

  /** One step of program `p`: its masked loads, its state store or its output store. */
  method Step(Q: array<real>, K: array<real>, V: array<real>, KV: array<real>, Out: array<real>, ratio: Row,
              h: nat, n: nat, d: nat, dOriginal: nat, e: nat, eOriginal: nat,
              p: nat, s: Program, ghost launch: Launch)
    returns (next: Program)
    requires launch.Valid() && p < launch.count && n == 1
    requires launch.h == h && launch.d == d && launch.e == e && launch.live == dOriginal && launch.cols == eOriginal
    requires launch.ratio == ratio
    requires Q.Length == K.Length == Times(launch.count, Times(1, d))
    requires V.Length == Out.Length == Times(launch.count, Times(1, e))
    requires KV.Length == Times(launch.count, Times(d, e))
    requires KV != Out
    requires View(Q[..], launch.count, 1, d) == launch.q && View(K[..], launch.count, 1, d) == launch.k
    requires View(V[..], launch.count, 1, e) == launch.v
    requires launch.Registers(p, s) && !s.Finished?
    requires View(KV[..], launch.count, d, e)[p] == launch.StateRange(p, s)
    requires View(Out[..], launch.count, 1, e)[p] == launch.OutRange(p, s)
    modifies KV, Out
    ensures launch.Registers(p, next) && Fuel(next) < Fuel(s)
    ensures View(KV[..], launch.count, d, e) == old(View(KV[..], launch.count, d, e))[p := launch.StateRange(p, next)]
    ensures View(Out[..], launch.count, 1, e) == old(View(Out[..], launch.count, 1, e))[p := launch.OutRange(p, next)]
  {
    hide View, Overlay, HeadStep, HeadOut, Masked, MaskedRow, MaskedLoad, MaskedLoad2;
    var qkOffset, vOffset, oOffset, kvOffset := p * n * d, p * n * e, p * n * e, p * d * e;
    Offset(p, n, d);
    Offset(p, n, e);
    Offset(p, d, e);
    match s
    case Ready =>
      OneRow(p, d);
      OneRow(p, e);
      LoadedRow(Q[..], p, launch.count, d, dOriginal);
      LoadedRow(K[..], p, launch.count, d, dOriginal);
      LoadedRow(V[..], p, launch.count, e, eOriginal);
      LoadedRows(KV[..], p, launch.count, d, e, dOriginal, eOriginal);
      var q := MaskedLoad(Q[..], qkOffset, d, dOriginal);
      var k := MaskedLoad(K[..], qkOffset, d, dOriginal);
      var v := MaskedLoad(V[..], vOffset, e, eOriginal);
      var kv := MaskedLoad2(KV[..], kvOffset, d, e, dOriginal, eOriginal);
      next := Loaded(q, HeadStep(ratio[p % h], kv, k, v, d, e));
    case Loaded(q, kv) =>
      StoreMasked(KV, kvOffset, kv, dOriginal, eOriginal, d, e, p, launch.count);
      next := StateStored(q, kv);
    case StateStored(q, kv) =>
      var o := HeadOut(q, kv, d, e);
      StoreMasked(Out, oOffset, [o], 1, eOriginal, 1, e, p, launch.count);
      next := Finished;
  }

  lemma Offset(p: nat, height: nat, width: nat)
    ensures p * height * width == Times(p, Times(height, width))
  {
    TimesIsProduct(height, width);
    TimesIsProduct(p, height * width);
    Associates(p, height, width);
  }

  lemma OneRow(p: nat, width: nat)
    ensures Times(p, Times(1, width)) == Times(p, width)
  {
    assert Times(0, width) == 0;
  }

  lemma Associates(a: nat, b: nat, c: nat)
    ensures a * b * c == a * (b * c)
  {
  }

  lemma AllReady(launch: Launch)
    requires launch.Valid()
    ensures launch.Progress(seq(launch.count, _ => Ready), launch.kv, launch.out)
  {
  }

  /** A step of one program leaves what the others have done. */
  lemma Undisturbed(launch: Launch, programs: seq<Program>, kvNow: Heads, outNow: Heads, p: nat, next: Program)
    requires launch.Valid() && launch.Progress(programs, kvNow, outNow) && p < launch.count
    requires launch.Registers(p, next)
    ensures launch.Progress(programs[p := next], kvNow[p := launch.StateRange(p, next)],
                            outNow[p := launch.OutRange(p, next)])
  {
    hide Launch.Registers, Launch.StateRange, Launch.OutRange;
  }

  /** The launch: its programs take their steps in any order. */
  method DecodeKernel(Q: array<real>, K: array<real>, V: array<real>, KV: array<real>, Out: array<real>, ratio: Row,
                      b: nat, h: nat, n: nat, d: nat, dOriginal: nat, e: nat, eOriginal: nat, ghost launch: Launch)
    requires launch.Valid() && launch.count == b * h && n == 1
    requires launch.h == h && launch.d == d && launch.e == e && launch.live == dOriginal && launch.cols == eOriginal
    requires launch.ratio == ratio
    requires Q.Length == K.Length == Times(b * h, Times(1, d))
    requires V.Length == Out.Length == Times(b * h, Times(1, e))
    requires KV.Length == Times(b * h, Times(d, e))
    requires KV != Out && KV !in {Q, K, V} && Out !in {Q, K, V}
    requires View(Q[..], b * h, 1, d) == launch.q && View(K[..], b * h, 1, d) == launch.k
    requires View(V[..], b * h, 1, e) == launch.v
    requires View(KV[..], b * h, d, e) == launch.kv && View(Out[..], b * h, 1, e) == launch.out
    modifies KV, Out
    ensures forall p | 0 <= p < b * h :: View(KV[..], b * h, d, e)[p] == launch.StateRange(p, Finished)
    ensures forall p | 0 <= p < b * h :: View(Out[..], b * h, 1, e)[p] == launch.OutRange(p, Finished)
  {
    hide View, Overlay, HeadStep, HeadOut, Launch.Registers, Launch.StateRegister, Launch.QRegister;
    var programs := seq(b * h, _ => Ready);
    AllReady(launch);
    ghost var fuel := (_: int, s: Program) => Fuel(s);
    while exists p | 0 <= p < b * h :: !programs[p].Finished?
      invariant |programs| == b * h
      invariant launch.Progress(programs, View(KV[..], b * h, d, e), View(Out[..], b * h, 1, e))
      decreases Work(programs, fuel)
    {
      var p :| 0 <= p < b * h && !programs[p].Finished?;
      ghost var kvNow, outNow := View(KV[..], b * h, d, e), View(Out[..], b * h, 1, e);
      var next := Step(Q, K, V, KV, Out, ratio, h, n, d, dOriginal, e, eOriginal, p, programs[p], launch);
      Undisturbed(launch, programs, kvNow, outNow, p, next);
      WorkDecreases(programs, fuel, p, next);
      programs := programs[p := next];
    }
  }

  // ---- the wrapper ----------------------------------------------------------------------------------

  function NextPowerOfTwo(n: nat): (r: nat)
    requires n >= 1
    ensures n <= r < 2 * n
    ensures exists k: nat :: r == Pow2(k)
  {
    if n == 1 then
      assert Pow2(0) == 1;
      1
    else
      var half := NextPowerOfTwo((n + 1) / 2);
      assert exists k: nat :: 2 * half == Pow2(k) by {
        var k: nat :| half == Pow2(k);
        assert Pow2(k + 1) == 2 * Pow2(k);
      }
      2 * half
  }

  lemma HeadIndex(p: nat, b: nat, h: nat)
    requires p < b * h
    ensures h > 0 && p / h < b && p % h < h
  {
    MulMonotone(1, h, b);
    if h > 0 {
      DivModIdentity(p, h);
      MulMonotone(b, p / h, h);
    }
  }

  lemma HeadNumber(x: nat, y: nat, b: nat, h: nat)
    requires x < b && y < h
    ensures x * h + y < b * h && (x * h + y) / h == x && (x * h + y) % h == y
  {
    MulMonotone(x + 1, b, h);
    MulDistributes(x, 1, h);
    DivMod(x, y, h);
  }

  function HeadOf(t: Batch, ghost b: nat, h: nat, ghost n: nat, ghost d: nat, p: nat): (r: Rows)
    requires Shape4(t, b, h, n, d) && p < b * h
    ensures Shape2(r, n, d)
  {
    HeadIndex(p, b, h);
    t[p / h][p % h]
  }

  /** Batch and head dimensions of a contiguous tensor run together in the program id. */
  function Flattened(t: Batch, b: nat, h: nat, ghost n: nat, ghost d: nat): (r: Heads)
    requires Shape4(t, b, h, n, d)
    ensures Shape3(r, b * h, n, d)
  {
    seq(b * h, p requires 0 <= p < b * h => HeadOf(t, b, h, n, d, p))
  }

  lemma FlattenedAt(t: Batch, b: nat, h: nat, n: nat, d: nat, x: nat, y: nat)
    requires Shape4(t, b, h, n, d) && x < b && y < h
    ensures x * h + y < b * h && Flattened(t, b, h, n, d)[x * h + y] == t[x][y]
  {
    HeadNumber(x, y, b, h);
  }

  /** Slice assignment into the leading corner of every head; the padding is left alone. */
  method CopyIn(buf: array<real>, src: Heads, count: nat, height: nat, width: nat, rows: nat, cols: nat)
    requires buf.Length == Times(count, Times(height, width)) && rows <= height && cols <= width
    requires Shape3(src, count, rows, cols)
    modifies buf
    ensures forall p | 0 <= p < count :: Corner(View(buf[..], count, height, width)[p], rows, cols) == src[p]
  {
    hide View, Overlay, Corner;
    for p := 0 to count
      invariant forall o | 0 <= o < p :: Corner(View(buf[..], count, height, width)[o], rows, cols) == src[o]
    {
      TimesIsProduct(height, width);
      TimesIsProduct(p, height * width);
      ghost var before := View(buf[..], count, height, width);
      StoreMasked(buf, p * (height * width), src[p], rows, cols, height, width, p, count);
      OverlaidCorner(before[p], src[p], rows, cols, height, width);
    }
  }

  lemma OverlaidCorner(m: Rows, x: Rows, rows: nat, cols: nat, height: nat, width: nat)
    requires Shape2(m, height, width) && rows <= height && cols <= width
    requires rows <= |x| && forall i | 0 <= i < rows :: cols <= |x[i]|
    ensures Corner(Overlay(m, x, rows, cols, height, width), rows, cols) == Corner(x, rows, cols)
    ensures Shape2(x, rows, cols) ==> Corner(x, rows, cols) == x
  {
    hide Overlay, Corner;
    SameRows(Corner(Overlay(m, x, rows, cols, height, width), rows, cols), Corner(x, rows, cols), rows, cols);
    if Shape2(x, rows, cols) {
      SameRows(Corner(x, rows, cols), x, rows, cols);
    }
  }

  /** The leading corner of every head, without the padding. */
  function Slice(s: seq<real>, count: nat, height: nat, width: nat, rows: nat, cols: nat): (t: Heads)
    requires |s| == Times(count, Times(height, width)) && rows <= height && cols <= width
    ensures Shape3(t, count, rows, cols)
  {
    seq(count, p requires 0 <= p < count => seq(rows, i requires 0 <= i < rows => seq(cols, j requires 0 <= j < cols =>
      CellInRange(p, i, j, count, height, width);
      EntryAddress(p, i, j, height, width);
      s[p * (height * width) + i * width + j])))
  }

  lemma EntryAddress(p: nat, i: nat, j: nat, height: nat, width: nat)
    ensures p * (height * width) + i * width + j == Cell(p, i, j, height, width)
  {
    TimesIsProduct(height, width);
    TimesIsProduct(p, height * width);
    TimesIsProduct(i, width);
  }

  lemma SliceIsCorner(s: seq<real>, count: nat, height: nat, width: nat, rows: nat, cols: nat, p: nat)
    requires |s| == Times(count, Times(height, width)) && rows <= height && cols <= width && p < count
    ensures Slice(s, count, height, width, rows, cols)[p] == Corner(View(s, count, height, width)[p], rows, cols)
  {
    hide View;
    var sliced, corner := Slice(s, count, height, width, rows, cols)[p], Corner(View(s, count, height, width)[p], rows, cols);
    forall i, j | 0 <= i < rows && 0 <= j < cols ensures sliced[i][j] == corner[i][j] {
      EntryAddress(p, i, j, height, width);
      CellInRange(p, i, j, count, height, width);
    }
    SameRows(sliced, corner, rows, cols);
  }

  function HeadAt(t: Heads, ghost b: nat, h: nat, ghost n: nat, ghost d: nat, x: nat, y: nat): (r: Rows)
    requires Shape3(t, b * h, n, d) && x < b && y < h
    ensures Shape2(r, n, d)
  {
    HeadNumber(x, y, b, h);
    t[x * h + y]
  }

  function Unflattened(t: Heads, b: nat, h: nat, ghost n: nat, ghost d: nat): (r: Batch)
    requires Shape3(t, b * h, n, d)
    ensures Shape4(r, b, h, n, d)
  {
    seq(b, x requires 0 <= x < b => seq(h, y requires 0 <= y < h => HeadAt(t, b, h, n, d, x, y)))
  }

  /** Inside the mask, a finished program leaves the naive step of its head. */
  lemma FinishedHead(launch: Launch, p: nat)
    requires launch.Valid() && p < launch.count
    ensures var (live, cols) := (launch.live, launch.cols);
      var next := HeadStep(launch.ratio[p % launch.h], Corner(launch.kv[p], live, cols),
                           Corner(launch.k[p], 1, live)[0], Corner(launch.v[p], 1, cols)[0], live, cols);
      Corner(launch.StateRange(p, Finished), live, cols) == next &&
      Corner(launch.OutRange(p, Finished), 1, cols) == [HeadOut(Corner(launch.q[p], 1, live)[0], next, live, cols)]
  {
    hide HeadStep, HeadOut, Masked, MaskedRow, Overlay;
    var (d, e, live, cols) := (launch.d, launch.e, launch.live, launch.cols);
    PaddingIsIgnored(launch.ratio[p % launch.h], launch.q[p][0], launch.k[p][0], launch.v[p][0], launch.kv[p],
                     d, e, live, cols);
    var state := launch.StateRegister(p);
    var out := HeadOut(launch.QRegister(p), state, d, e);
    OverlaidCorner(launch.kv[p], state, live, cols, d, e);
    OverlaidCorner(launch.out[p], [out], 1, cols, 1, e);
    assert Corner([out], 1, cols) == [out[..cols]];
  }

  /** The naive step of one head, on flattened tensors. */
  ghost predicate NaiveHead(q: Heads, k: Heads, v: Heads, kv: Heads, ratio: Row, b: nat, h: nat, d: nat, e: nat,
                            out: Rows, next: Rows, p: nat)
    requires Shape3(q, b * h, 1, d) && Shape3(k, b * h, 1, d) && Shape3(v, b * h, 1, e) && Shape3(kv, b * h, d, e)
    requires |ratio| == h && p < b * h
  {
    HeadIndex(p, b, h);
    next == HeadStep(ratio[p % h], kv[p], k[p][0], v[p][0], d, e) && out == [HeadOut(q[p][0], next, d, e)]
  }

  /** What is read back from a finished launch is the naive step of every head. */
  lemma FinishedIsNaive(launch: Launch, q: Heads, k: Heads, v: Heads, kv: Heads, b: nat, state: seq<real>,
                        out: seq<real>, p: nat)
    requires launch.Valid() && launch.count == b * launch.h && p < launch.count
    requires Shape3(q, launch.count, 1, launch.live) && Shape3(k, launch.count, 1, launch.live)
    requires Shape3(v, launch.count, 1, launch.cols) && Shape3(kv, launch.count, launch.live, launch.cols)
    requires Corner(launch.q[p], 1, launch.live) == q[p] && Corner(launch.k[p], 1, launch.live) == k[p]
    requires Corner(launch.v[p], 1, launch.cols) == v[p] && Corner(launch.kv[p], launch.live, launch.cols) == kv[p]
    requires |state| == Times(launch.count, Times(launch.d, launch.e))
    requires |out| == Times(launch.count, Times(1, launch.e))
    requires View(state, launch.count, launch.d, launch.e)[p] == launch.StateRange(p, Finished)
    requires View(out, launch.count, 1, launch.e)[p] == launch.OutRange(p, Finished)
    ensures NaiveHead(q, k, v, kv, launch.ratio, b, launch.h, launch.live, launch.cols,
                      Slice(out, launch.count, 1, launch.e, 1, launch.cols)[p],
                      Slice(state, launch.count, launch.d, launch.e, launch.live, launch.cols)[p], p)
  {
    hide View, Corner, HeadStep, HeadOut, Slice, Launch.StateRange, Launch.OutRange;
    HeadIndex(p, b, launch.h);
    FinishedHead(launch, p);
    SliceIsCorner(out, launch.count, 1, launch.e, 1, launch.cols, p);
    SliceIsCorner(state, launch.count, launch.d, launch.e, launch.live, launch.cols, p);
  }

  lemma Assembled(q: Batch, k: Batch, v: Batch, kv: Batch, ratio: Row, b: nat, h: nat, d: nat, e: nat,
                  out: Heads, next: Heads)
    requires Inputs(q, k, v, kv, ratio, b, h, 1, d, e) && Shape3(out, b * h, 1, e) && Shape3(next, b * h, d, e)
    requires forall p | 0 <= p < b * h ::
      NaiveHead(Flattened(q, b, h, 1, d), Flattened(k, b, h, 1, d), Flattened(v, b, h, 1, e), Flattened(kv, b, h, d, e),
                ratio, b, h, d, e, out[p], next[p], p)
    ensures Unflattened(next, b, h, d, e) == States(k, v, kv, ratio, 1, b, h, 1, d, e)
    ensures Unflattened(out, b, h, 1, e) == Outputs(q, k, v, kv, ratio, b, h, 1, d, e)
  {
    hide HeadStep, HeadOut, Flattened;
    var states, outs := Unflattened(next, b, h, d, e), Unflattened(out, b, h, 1, e);
    var states', outs' := States(k, v, kv, ratio, 1, b, h, 1, d, e), Outputs(q, k, v, kv, ratio, b, h, 1, d, e);
    forall x, y | 0 <= x < b && 0 <= y < h ensures states[x][y] == states'[x][y] && outs[x][y] == outs'[x][y] {
      HeadNumber(x, y, b, h);
      FlattenedAt(q, b, h, 1, d, x, y);
      FlattenedAt(k, b, h, 1, d, x, y);
      FlattenedAt(v, b, h, 1, e, x, y);
      FlattenedAt(kv, b, h, d, e, x, y);
      assert NaiveHead(Flattened(q, b, h, 1, d), Flattened(k, b, h, 1, d), Flattened(v, b, h, 1, e),
                       Flattened(kv, b, h, d, e), ratio, b, h, d, e, out[x * h + y], next[x * h + y], x * h + y);
      OneToken(ratio[y], kv[x][y], k[x][y], v[x][y], d, e);
      assert outs[x][y] == [outs'[x][y][0]];
    }
    assert forall x | 0 <= x < b :: states[x] == states'[x] && outs[x] == outs'[x];
  }

  lemma OneToken(ratio: real, kv: Rows, ks: Rows, vs: Rows, d: nat, e: nat)
    requires Shape2(kv, d, e) && Shape2(ks, 1, d) && Shape2(vs, 1, e)
    ensures StateAfter(ratio, kv, ks, vs, 1, d, e) == HeadStep(ratio, kv, ks[0], vs[0], d, e)
  {
    assert StateAfter(ratio, kv, ks, vs, 0, d, e) == kv;
  }

  /** The padded kernel returns what one step of the naive form returns, whatever the padding of its
      uninitialised buffers holds; for more than one token the wrapper's assertion fails. */
  method TritonLightningAttnDecode(q: Batch, k: Batch, v: Batch, kv: Batch, ratio: Row,
                                   b: nat, h: nat, n: nat, d: nat, e: nat)
    returns (r: Option<(Batch, Batch)>)
    requires Inputs(q, k, v, kv, ratio, b, h, n, d, e) && d >= 1 && e >= 1
    ensures r.None? <==> n != 1
    ensures n == 1 ==> r == Some((Outputs(q, k, v, kv, ratio, b, h, 1, d, e),
                                  States(k, v, kv, ratio, 1, b, h, 1, d, e)))
    ensures n == 1 ==> IsAttention(r.value.0, q, k, v, kv, ratio, b, h, 1, d, e)
    ensures n == 1 ==> IsDecayedSum(r.value.1, k, v, kv, ratio, b, h, 1, d, e)
  {
    hide View, Overlay, Corner, HeadStep, HeadOut, Slice, Launch.StateRange, Launch.OutRange,
         Flattened, Unflattened, NextPowerOfTwo, States, Outputs, NaiveHead, IsAttention, IsDecayedSum;
    if n != 1 {
      return None;
    }
    OutputsAreAttention(q, k, v, kv, ratio, b, h, 1, d, e);
    StatesAreDecayedSums(k, v, kv, ratio, b, h, 1, d, e);
    var dPadded, ePadded := NextPowerOfTwo(d), NextPowerOfTwo(e);
    var heads := b * h;
    SomeHeads(b, h);
    BufferSizes(heads, dPadded, ePadded);
    var qPadded := new real[heads * n * dPadded];
    var kPadded := new real[heads * n * dPadded];
    var vPadded := new real[heads * n * ePadded];
    var oPadded := new real[heads * n * ePadded];
    var kvPadded := new real[heads * dPadded * ePadded];
    CopyIn(qPadded, Flattened(q, b, h, n, d), heads, n, dPadded, n, d);
    CopyIn(kPadded, Flattened(k, b, h, n, d), heads, n, dPadded, n, d);
    CopyIn(vPadded, Flattened(v, b, h, n, e), heads, n, ePadded, n, e);
    CopyIn(kvPadded, Flattened(kv, b, h, d, e), heads, dPadded, ePadded, d, e);
    ghost var launch := Launch(heads, h, dPadded, ePadded, d, e, ratio,
                               View(qPadded[..], heads, 1, dPadded), View(kPadded[..], heads, 1, dPadded),
                               View(vPadded[..], heads, 1, ePadded), View(kvPadded[..], heads, dPadded, ePadded),
                               View(oPadded[..], heads, 1, ePadded));
    DecodeKernel(qPadded, kPadded, vPadded, kvPadded, oPadded, ratio,
                 b, h, n, dPadded, d, ePadded, e, launch);
    var o := Slice(oPadded[..], heads, n, ePadded, n, e);
    var kvOut := Slice(kvPadded[..], heads, dPadded, ePadded, d, e);
    forall p | 0 <= p < heads
      ensures NaiveHead(Flattened(q, b, h, 1, d), Flattened(k, b, h, 1, d), Flattened(v, b, h, 1, e),
                        Flattened(kv, b, h, d, e), ratio, b, h, d, e, o[p], kvOut[p], p)
    {
      FinishedIsNaive(launch, Flattened(q, b, h, 1, d), Flattened(k, b, h, 1, d), Flattened(v, b, h, 1, e),
                      Flattened(kv, b, h, d, e), b, kvPadded[..], oPadded[..], p);
    }
    Assembled(q, k, v, kv, ratio, b, h, d, e, o, kvOut);
    r := Some((Unflattened(o, b, h, n, e), Unflattened(kvOut, b, h, d, e)));
  }

  lemma SomeHeads(b: nat, h: nat)
    ensures 0 <= b * h && (b * h > 0 ==> h > 0)
  {
  }

  lemma BufferSizes(count: nat, d: nat, e: nat)
    ensures count * 1 * d == Times(count, Times(1, d)) && count * 1 * e == Times(count, Times(1, e))
    ensures count * d * e == Times(count, Times(d, e))
  {
    Offset(count, 1, d);
    Offset(count, 1, e);
    Offset(count, d, e);
  }
}
