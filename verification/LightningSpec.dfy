/** Linear attention over reals, one head at a time: the recurrence, what it adds up to, and its
    attention form (sgl-kernel/benchmark/bench_lightning_attention_decode.py). */
module LightningSpec {

  type Row = seq<real>
  type Rows = seq<Row>
  type Heads = seq<Rows>
  type Batch = seq<Heads>

  predicate Shape2(m: Rows, n: nat, d: nat) {
    |m| == n && forall i | 0 <= i < n :: |m[i]| == d
  }

  predicate Shape3(t: Heads, h: nat, n: nat, d: nat) {
    |t| == h && forall y | 0 <= y < h :: Shape2(t[y], n, d)
  }

  predicate Shape4(t: Batch, b: nat, h: nat, n: nat, d: nat) {
    |t| == b && forall x | 0 <= x < b :: Shape3(t[x], h, n, d)
  }

  /** `ratio * kv` plus the outer product of `k` and `v`. */
  function HeadStep(ratio: real, kv: Rows, k: Row, v: Row, d: nat, e: nat): (next: Rows)
    requires Shape2(kv, d, e) && |k| == d && |v| == e
    ensures Shape2(next, d, e)
    ensures forall i, j | 0 <= i < d && 0 <= j < e :: next[i][j] == ratio * kv[i][j] + k[i] * v[j]
  {
    seq(d, i requires 0 <= i < d => seq(e, j requires 0 <= j < e => ratio * kv[i][j] + k[i] * v[j]))
  }

  /** The first `m` terms of `q` times column `j`. */
  function ColumnSum(q: Row, kv: Rows, j: nat, m: nat): real
    requires m <= |q| && m <= |kv| && forall i | 0 <= i < m :: j < |kv[i]|
  {
    if m == 0 then 0.0 else ColumnSum(q, kv, j, m - 1) + q[m - 1] * kv[m - 1][j]
  }

  function HeadOut(q: Row, kv: Rows, d: nat, e: nat): (out: Row)
    requires |q| == d && Shape2(kv, d, e)
    ensures |out| == e && forall j | 0 <= j < e :: out[j] == ColumnSum(q, kv, j, d)
  {
    seq(e, j requires 0 <= j < e => ColumnSum(q, kv, j, d))
  }

  /** The state of a head after its first `n` tokens. */
  function StateAfter(ratio: real, kv: Rows, ks: Rows, vs: Rows, n: nat, d: nat, e: nat): (state: Rows)
    requires Shape2(kv, d, e) && n <= |ks| && Shape2(ks, |ks|, d) && |vs| == |ks| && Shape2(vs, |vs|, e)
    ensures Shape2(state, d, e)
  {
    if n == 0 then kv
    else HeadStep(ratio, StateAfter(ratio, kv, ks, vs, n - 1, d, e), ks[n - 1], vs[n - 1], d, e)
  }

  function Power(x: real, n: nat): real {
    if n == 0 then 1.0 else x * Power(x, n - 1)
  }

  /** The decayed outer products of the first `m` of `n` tokens, at entry `(i, j)`. */
  function Decayed(ratio: real, ks: Rows, vs: Rows, i: nat, j: nat, n: nat, m: nat): real
    requires m <= n && m <= |ks| && |ks| == |vs|
    requires forall t | 0 <= t < m :: i < |ks[t]| && j < |vs[t]|
  {
    if m == 0 then 0.0
    else Decayed(ratio, ks, vs, i, j, n, m - 1) + Power(ratio, n - m) * (ks[m - 1][i] * vs[m - 1][j])
  }

  lemma {:induction false} DecayedOnce(ratio: real, ks: Rows, vs: Rows, i: nat, j: nat, n: nat, m: nat)
    requires m <= n && m <= |ks| && |ks| == |vs|
    requires forall t | 0 <= t < m :: i < |ks[t]| && j < |vs[t]|
    ensures Decayed(ratio, ks, vs, i, j, n + 1, m) == ratio * Decayed(ratio, ks, vs, i, j, n, m)
  {
    if m > 0 {
      DecayedOnce(ratio, ks, vs, i, j, n, m - 1);
      Regroup(ratio, Power(ratio, n - m), ks[m - 1][i] * vs[m - 1][j]);
      Distribute(ratio, Decayed(ratio, ks, vs, i, j, n, m - 1), Power(ratio, n - m) * (ks[m - 1][i] * vs[m - 1][j]));
    }
  }

  lemma Regroup(a: real, b: real, c: real)
    ensures (a * b) * c == a * (b * c)
  {
  }

  lemma SameProduct(a: real, b: real, c: real)
    requires b == c
    ensures a * b == a * c
  {
  }

  lemma Distribute(a: real, b: real, c: real)
    ensures a * (b + c) == a * b + a * c
  {
  }

  lemma DecayedNext(ratio: real, ks: Rows, vs: Rows, i: nat, j: nat, n: nat)
    requires n < |ks| && |ks| == |vs| && forall t | 0 <= t <= n :: i < |ks[t]| && j < |vs[t]|
    ensures Decayed(ratio, ks, vs, i, j, n + 1, n + 1) == ratio * Decayed(ratio, ks, vs, i, j, n, n) + ks[n][i] * vs[n][j]
  {
    DecayedOnce(ratio, ks, vs, i, j, n, n);
    assert Power(ratio, 0) == 1.0;
  }

  lemma OneStep(ratio: real, n: nat, start: real, rest: real, term: real, before: real)
    requires n > 0 && before == Power(ratio, n - 1) * start + rest
    ensures ratio * before + term == Power(ratio, n) * start + (ratio * rest + term)
  {
    Distribute(ratio, Power(ratio, n - 1) * start, rest);
    Regroup(ratio, Power(ratio, n - 1), start);
  }

  /** The decayed initial state plus the outer products of the first `n` tokens, each decayed by
      the number of tokens after it. */
  function ClosedEntry(ratio: real, start: real, ks: Rows, vs: Rows, i: nat, j: nat, n: nat): real
    requires n <= |ks| && |ks| == |vs| && forall t | 0 <= t < n :: i < |ks[t]| && j < |vs[t]|
  {
    Power(ratio, n) * start + Decayed(ratio, ks, vs, i, j, n, n)
  }

  lemma ClosedStart(ratio: real, start: real, ks: Rows, vs: Rows, i: nat, j: nat)
    requires |ks| == |vs|
    ensures ClosedEntry(ratio, start, ks, vs, i, j, 0) == start
  {
    assert Power(ratio, 0) == 1.0;
  }

  lemma ClosedNext(ratio: real, start: real, ks: Rows, vs: Rows, i: nat, j: nat, n: nat)
    requires n < |ks| && |ks| == |vs| && forall t | 0 <= t <= n :: i < |ks[t]| && j < |vs[t]|
    ensures ClosedEntry(ratio, start, ks, vs, i, j, n + 1)
      == ratio * ClosedEntry(ratio, start, ks, vs, i, j, n) + ks[n][i] * vs[n][j]
  {
    hide Decayed, Power;
    DecayedNext(ratio, ks, vs, i, j, n);
    OneStep(ratio, n + 1, start, Decayed(ratio, ks, vs, i, j, n, n), ks[n][i] * vs[n][j],
            ClosedEntry(ratio, start, ks, vs, i, j, n));
  }

  /** Closed form of the recurrence. */
  lemma {:induction false} ClosedForm(ratio: real, kv: Rows, ks: Rows, vs: Rows, n: nat, d: nat, e: nat, i: nat, j: nat)
    requires Shape2(kv, d, e) && n <= |ks| && Shape2(ks, |ks|, d) && |vs| == |ks| && Shape2(vs, |vs|, e)
    requires i < d && j < e
    ensures StateAfter(ratio, kv, ks, vs, n, d, e)[i][j] == ClosedEntry(ratio, kv[i][j], ks, vs, i, j, n)
  {
    hide HeadStep, ClosedEntry;
    if n == 0 {
      ClosedStart(ratio, kv[i][j], ks, vs, i, j);
    } else {
      ClosedForm(ratio, kv, ks, vs, n - 1, d, e, i, j);
      ClosedNext(ratio, kv[i][j], ks, vs, i, j, n - 1);
      SameProduct(ratio, StateAfter(ratio, kv, ks, vs, n - 1, d, e)[i][j],
                  ClosedEntry(ratio, kv[i][j], ks, vs, i, j, n - 1));
    }
  }

  /** Decoding the first `m` tokens and then the others, from the state reached, is decoding all. */
  lemma {:induction false} StepsChain(ratio: real, kv: Rows, ks: Rows, vs: Rows, m: nat, n: nat, d: nat, e: nat)
    requires Shape2(kv, d, e) && m <= n <= |ks| && Shape2(ks, |ks|, d) && |vs| == |ks| && Shape2(vs, |vs|, e)
    ensures StateAfter(ratio, StateAfter(ratio, kv, ks, vs, m, d, e), ks[m..], vs[m..], n - m, d, e)
      == StateAfter(ratio, kv, ks, vs, n, d, e)
    decreases n
  {
    if m < n {
      StepsChain(ratio, kv, ks, vs, m, n - 1, d, e);
      assert ks[m..][n - 1 - m] == ks[n - 1] && vs[m..][n - 1 - m] == vs[n - 1];
    }
  }

  function Dot(q: Row, k: Row, m: nat): real
    requires m <= |q| && m <= |k|
  {
    if m == 0 then 0.0 else Dot(q, k, m - 1) + q[m - 1] * k[m - 1]
  }

  /** Each earlier token weighs in with its decayed score against the query. */
  function Attended(ratio: real, q: Row, ks: Rows, vs: Rows, j: nat, n: nat, m: nat, d: nat): real
    requires m <= n && m <= |ks| && |ks| == |vs| && |q| == d && Shape2(ks, |ks|, d)
    requires forall t | 0 <= t < m :: j < |vs[t]|
  {
    if m == 0 then 0.0
    else Attended(ratio, q, ks, vs, j, n, m - 1, d) + Power(ratio, n - m) * (Dot(q, ks[m - 1], d) * vs[m - 1][j])
  }

  lemma {:induction false} AttendedOnce(ratio: real, q: Row, ks: Rows, vs: Rows, j: nat, n: nat, m: nat, d: nat)
    requires m <= n && m <= |ks| && |ks| == |vs| && |q| == d && Shape2(ks, |ks|, d)
    requires forall t | 0 <= t < m :: j < |vs[t]|
    ensures Attended(ratio, q, ks, vs, j, n + 1, m, d) == ratio * Attended(ratio, q, ks, vs, j, n, m, d)
  {
    if m > 0 {
      AttendedOnce(ratio, q, ks, vs, j, n, m - 1, d);
      var term := Dot(q, ks[m - 1], d) * vs[m - 1][j];
      Regroup(ratio, Power(ratio, n - m), term);
      Distribute(ratio, Attended(ratio, q, ks, vs, j, n, m - 1, d), Power(ratio, n - m) * term);
    }
  }

  lemma AttendedNext(ratio: real, q: Row, ks: Rows, vs: Rows, j: nat, n: nat, d: nat)
    requires n < |ks| && |ks| == |vs| && |q| == d && Shape2(ks, |ks|, d)
    requires forall t | 0 <= t <= n :: j < |vs[t]|
    ensures Attended(ratio, q, ks, vs, j, n + 1, n + 1, d)
      == ratio * Attended(ratio, q, ks, vs, j, n, n, d) + Dot(q, ks[n], d) * vs[n][j]
  {
    AttendedOnce(ratio, q, ks, vs, j, n, n, d);
    assert Power(ratio, 0) == 1.0;
  }

  /** One step seen through the query. */
  lemma {:induction false} OutAfterStep(ratio: real, q: Row, kv: Rows, k: Row, v: Row, d: nat, e: nat, j: nat, m: nat)
    requires Shape2(kv, d, e) && |k| == d && |v| == e && |q| == d && j < e && m <= d
    ensures ColumnSum(q, HeadStep(ratio, kv, k, v, d, e), j, m) == ratio * ColumnSum(q, kv, j, m) + Dot(q, k, m) * v[j]
  {
    if m > 0 {
      OutAfterStep(ratio, q, kv, k, v, d, e, j, m - 1);
      OutTerm(ratio, q[m - 1], kv[m - 1][j], k[m - 1], v[j], ColumnSum(q, kv, j, m - 1), Dot(q, k, m - 1));
    }
  }

  lemma OutTerm(ratio: real, q: real, kv: real, k: real, v: real, sum: real, dot: real)
    ensures ratio * sum + dot * v + q * (ratio * kv + k * v) == ratio * (sum + q * kv) + (dot + q * k) * v
  {
  }

  lemma OutNext(ratio: real, q: Row, kv: Rows, ks: Rows, vs: Rows, n: nat, d: nat, e: nat, j: nat)
    requires Shape2(kv, d, e) && n < |ks| && Shape2(ks, |ks|, d) && |vs| == |ks| && Shape2(vs, |vs|, e)
    requires |q| == d && j < e
    ensures HeadOut(q, StateAfter(ratio, kv, ks, vs, n + 1, d, e), d, e)[j]
      == ratio * HeadOut(q, StateAfter(ratio, kv, ks, vs, n, d, e), d, e)[j] + Dot(q, ks[n], d) * vs[n][j]
  {
    hide HeadStep, ColumnSum, Dot;
    OutAfterStep(ratio, q, StateAfter(ratio, kv, ks, vs, n, d, e), ks[n], vs[n], d, e, j, d);
  }

  function Column(kv: Rows, j: nat): (column: Row)
    requires forall i | 0 <= i < |kv| :: j < |kv[i]|
    ensures |column| == |kv| && forall i | 0 <= i < |kv| :: column[i] == kv[i][j]
  {
    seq(|kv|, i requires 0 <= i < |kv| => kv[i][j])
  }

  /** The sum the code reduces along an axis is the product of the query with that column. */
  lemma {:induction false} ColumnSumIsDot(q: Row, kv: Rows, j: nat, m: nat)
    requires m <= |q| && m <= |kv| && forall i | 0 <= i < |kv| :: j < |kv[i]|
    ensures ColumnSum(q, kv, j, m) == Dot(q, Column(kv, j), m)
  {
    if m > 0 {
      ColumnSumIsDot(q, kv, j, m - 1);
      SameProduct(q[m - 1], kv[m - 1][j], Column(kv, j)[m - 1]);
    }
  }

  /** Linear attention: the decayed answer of the initial state plus the values of the first `n`
      tokens, weighted by their decayed scores. */
  function Attention(ratio: real, q: Row, kv: Rows, ks: Rows, vs: Rows, n: nat, d: nat, e: nat, j: nat): real
    requires Shape2(kv, d, e) && n <= |ks| && Shape2(ks, |ks|, d) && |vs| == |ks| && Shape2(vs, |vs|, e)
    requires |q| == d && j < e
  {
    Power(ratio, n) * Dot(q, Column(kv, j), d) + Attended(ratio, q, ks, vs, j, n, n, d)
  }

  lemma AttentionStart(ratio: real, q: Row, kv: Rows, ks: Rows, vs: Rows, d: nat, e: nat, j: nat)
    requires Shape2(kv, d, e) && Shape2(ks, |ks|, d) && |vs| == |ks| && Shape2(vs, |vs|, e)
    requires |q| == d && j < e
    ensures Attention(ratio, q, kv, ks, vs, 0, d, e, j) == ColumnSum(q, kv, j, d)
  {
    ColumnSumIsDot(q, kv, j, d);
    hide ColumnSum, Dot, Column;
    assert Power(ratio, 0) == 1.0;
  }

  lemma AttentionNext(ratio: real, q: Row, kv: Rows, ks: Rows, vs: Rows, n: nat, d: nat, e: nat, j: nat)
    requires Shape2(kv, d, e) && n < |ks| && Shape2(ks, |ks|, d) && |vs| == |ks| && Shape2(vs, |vs|, e)
    requires |q| == d && j < e
    ensures Attention(ratio, q, kv, ks, vs, n + 1, d, e, j)
      == ratio * Attention(ratio, q, kv, ks, vs, n, d, e, j) + Dot(q, ks[n], d) * vs[n][j]
  {
    hide Dot, Attended, Power, Column;
    AttendedNext(ratio, q, ks, vs, j, n, d);
    OneStep(ratio, n + 1, Dot(q, Column(kv, j), d), Attended(ratio, q, ks, vs, j, n, n, d),
            Dot(q, ks[n], d) * vs[n][j], Attention(ratio, q, kv, ks, vs, n, d, e, j));
  }

  /** The recurrence computes linear attention. */
  lemma {:induction false} RecurrenceIsAttention(ratio: real, q: Row, kv: Rows, ks: Rows, vs: Rows, n: nat, d: nat, e: nat, j: nat)
    requires Shape2(kv, d, e) && n <= |ks| && Shape2(ks, |ks|, d) && |vs| == |ks| && Shape2(vs, |vs|, e)
    requires |q| == d && j < e
    ensures HeadOut(q, StateAfter(ratio, kv, ks, vs, n, d, e), d, e)[j] == Attention(ratio, q, kv, ks, vs, n, d, e, j)
  {
    hide HeadStep, ColumnSum, Dot, Attention;
    if n == 0 {
      AttentionStart(ratio, q, kv, ks, vs, d, e, j);
    } else {
      RecurrenceIsAttention(ratio, q, kv, ks, vs, n - 1, d, e, j);
      OutNext(ratio, q, kv, ks, vs, n - 1, d, e, j);
      AttentionNext(ratio, q, kv, ks, vs, n - 1, d, e, j);
      SameProduct(ratio, HeadOut(q, StateAfter(ratio, kv, ks, vs, n - 1, d, e), d, e)[j],
                  Attention(ratio, q, kv, ks, vs, n - 1, d, e, j));
    }
  }

  // ---- all heads of a batch ---------------------------------------------------------------------

  predicate Inputs(q: Batch, k: Batch, v: Batch, kv: Batch, ratio: Row, b: nat, h: nat, n: nat, d: nat, e: nat) {
    && Shape4(q, b, h, n, d) && Shape4(k, b, h, n, d) && Shape4(v, b, h, n, e)
    && Shape4(kv, b, h, d, e) && |ratio| == h
  }

  function HeadState(k: Batch, v: Batch, kv: Batch, ratio: Row, x: nat, y: nat, n: nat, ghost b: nat, ghost h: nat,
                     ghost tokens: nat, d: nat, e: nat): (state: Rows)
    requires Shape4(k, b, h, tokens, d) && Shape4(v, b, h, tokens, e) && Shape4(kv, b, h, d, e) && |ratio| == h
    requires x < b && y < h && n <= tokens
    ensures Shape2(state, d, e)
  {
    StateAfter(ratio[y], kv[x][y], k[x][y], v[x][y], n, d, e)
  }

  function States(k: Batch, v: Batch, kv: Batch, ratio: Row, n: nat, b: nat, h: nat, ghost tokens: nat, d: nat, e: nat): (states: Batch)
    requires Shape4(k, b, h, tokens, d) && Shape4(v, b, h, tokens, e) && Shape4(kv, b, h, d, e) && |ratio| == h
    requires n <= tokens
    ensures Shape4(states, b, h, d, e)
  {
    seq(b, x requires 0 <= x < b => seq(h, y requires 0 <= y < h =>
      HeadState(k, v, kv, ratio, x, y, n, b, h, tokens, d, e)))
  }

  function TokenOut(q: Batch, k: Batch, v: Batch, kv: Batch, ratio: Row, x: nat, y: nat, t: nat, ghost b: nat, ghost h: nat,
                    ghost tokens: nat, d: nat, e: nat): (out: Row)
    requires Inputs(q, k, v, kv, ratio, b, h, tokens, d, e) && x < b && y < h && t < tokens
    ensures |out| == e
  {
    HeadOut(q[x][y][t], HeadState(k, v, kv, ratio, x, y, t + 1, b, h, tokens, d, e), d, e)
  }

  function Outputs(q: Batch, k: Batch, v: Batch, kv: Batch, ratio: Row, b: nat, h: nat, n: nat, d: nat, e: nat): (out: Batch)
    requires Inputs(q, k, v, kv, ratio, b, h, n, d, e)
    ensures Shape4(out, b, h, n, e)
  {
    seq(b, x requires 0 <= x < b => seq(h, y requires 0 <= y < h => seq(n, t requires 0 <= t < n =>
      TokenOut(q, k, v, kv, ratio, x, y, t, b, h, n, d, e))))
  }

  function NextStates(k: Batch, v: Batch, kv: Batch, ratio: Row, t: nat, b: nat, h: nat, n: nat, d: nat, e: nat): (next: Batch)
    requires Shape4(k, b, h, n, d) && Shape4(v, b, h, n, e) && Shape4(kv, b, h, d, e) && |ratio| == h && t < n
    ensures Shape4(next, b, h, d, e)
  {
    seq(b, x requires 0 <= x < b => seq(h, y requires 0 <= y < h =>
      HeadStep(ratio[y], kv[x][y], k[x][y][t], v[x][y][t], d, e)))
  }

  function Answers(q: Batch, kv: Batch, t: nat, b: nat, h: nat, n: nat, d: nat, e: nat): (out: Heads)
    requires Shape4(q, b, h, n, d) && Shape4(kv, b, h, d, e) && t < n
    ensures Shape3(out, b, h, e)
  {
    seq(b, x requires 0 <= x < b => seq(h, y requires 0 <= y < h => HeadOut(q[x][y][t], kv[x][y], d, e)))
  }

  /** Every output is linear attention over its own head: the query of its token against the initial
      state and all tokens up to its own. */
  ghost predicate IsAttention(output: Batch, q: Batch, k: Batch, v: Batch, pastKv: Batch, ratio: Row,
                              b: nat, h: nat, n: nat, d: nat, e: nat)
    requires Inputs(q, k, v, pastKv, ratio, b, h, n, d, e)
  {
    && Shape4(output, b, h, n, e)
    && forall x, y, t, j | 0 <= x < b && 0 <= y < h && 0 <= t < n && 0 <= j < e ::
         output[x][y][t][j] == Attention(ratio[y], q[x][y][t], pastKv[x][y], k[x][y], v[x][y], t + 1, d, e, j)
  }

  /** Every state entry is the closed form over all tokens of its own head. */
  ghost predicate IsDecayedSum(kv: Batch, k: Batch, v: Batch, pastKv: Batch, ratio: Row,
                               b: nat, h: nat, n: nat, d: nat, e: nat)
    requires Shape4(k, b, h, n, d) && Shape4(v, b, h, n, e) && Shape4(pastKv, b, h, d, e) && |ratio| == h
  {
    && Shape4(kv, b, h, d, e)
    && forall x, y, i, j | 0 <= x < b && 0 <= y < h && 0 <= i < d && 0 <= j < e ::
         kv[x][y][i][j] == ClosedEntry(ratio[y], pastKv[x][y][i][j], k[x][y], v[x][y], i, j, n)
  }

  lemma OutputsAreAttention(q: Batch, k: Batch, v: Batch, kv: Batch, ratio: Row, b: nat, h: nat, n: nat, d: nat, e: nat)
    requires Inputs(q, k, v, kv, ratio, b, h, n, d, e)
    ensures IsAttention(Outputs(q, k, v, kv, ratio, b, h, n, d, e), q, k, v, kv, ratio, b, h, n, d, e)
  {
    hide StateAfter, HeadOut, Attention;
    var output := Outputs(q, k, v, kv, ratio, b, h, n, d, e);
    forall x, y, t, j | 0 <= x < b && 0 <= y < h && 0 <= t < n && 0 <= j < e
      ensures output[x][y][t][j] == Attention(ratio[y], q[x][y][t], kv[x][y], k[x][y], v[x][y], t + 1, d, e, j)
    {
      RecurrenceIsAttention(ratio[y], q[x][y][t], kv[x][y], k[x][y], v[x][y], t + 1, d, e, j);
    }
  }

  lemma StatesAreDecayedSums(k: Batch, v: Batch, kv: Batch, ratio: Row, b: nat, h: nat, n: nat, d: nat, e: nat)
    requires Shape4(k, b, h, n, d) && Shape4(v, b, h, n, e) && Shape4(kv, b, h, d, e) && |ratio| == h
    ensures IsDecayedSum(States(k, v, kv, ratio, n, b, h, n, d, e), k, v, kv, ratio, b, h, n, d, e)
  {
    hide StateAfter, ClosedEntry;
    var states := States(k, v, kv, ratio, n, b, h, n, d, e);
    forall x, y, i, j | 0 <= x < b && 0 <= y < h && 0 <= i < d && 0 <= j < e
      ensures states[x][y][i][j] == ClosedEntry(ratio[y], kv[x][y][i][j], k[x][y], v[x][y], i, j, n)
    {
      ClosedForm(ratio[y], kv[x][y], k[x][y], v[x][y], n, d, e, i, j);
    }
  }

  /** The token loop of the naive form, and the concatenation of its outputs along the token axis. */
  method NaiveDecode(q: Batch, k: Batch, v: Batch, pastKv: Batch, ratio: Row, b: nat, h: nat, n: nat, d: nat, e: nat)
    returns (output: Batch, kv: Batch)
    requires Inputs(q, k, v, pastKv, ratio, b, h, n, d, e)
    ensures kv == States(k, v, pastKv, ratio, n, b, h, n, d, e)
    ensures output == Outputs(q, k, v, pastKv, ratio, b, h, n, d, e)
    ensures IsAttention(output, q, k, v, pastKv, ratio, b, h, n, d, e)
    ensures IsDecayedSum(kv, k, v, pastKv, ratio, b, h, n, d, e)
  {
    hide HeadStep, HeadOut, IsAttention, IsDecayedSum;
    OutputsAreAttention(q, k, v, pastKv, ratio, b, h, n, d, e);
    StatesAreDecayedSums(k, v, pastKv, ratio, b, h, n, d, e);
    kv := pastKv;
    StatesStart(k, v, pastKv, ratio, b, h, n, d, e);
    var outputs: seq<Heads> := [];
    for i := 0 to n
      invariant kv == States(k, v, pastKv, ratio, i, b, h, n, d, e)
      invariant |outputs| == i && forall t | 0 <= t < i :: Shape3(outputs[t], b, h, e)
      invariant forall t | 0 <= t < i ::
                  outputs[t] == Answers(q, States(k, v, pastKv, ratio, t + 1, b, h, n, d, e), t, b, h, n, d, e)
    {
      StatesStep(k, v, pastKv, ratio, i, b, h, n, d, e);
      kv := NextStates(k, v, kv, ratio, i, b, h, n, d, e);
      var qkv := Answers(q, kv, i, b, h, n, d, e);
      outputs := outputs + [qkv];
    }
    output := seq(b, x requires 0 <= x < b => seq(h, y requires 0 <= y < h =>
      seq(n, t requires 0 <= t < n => outputs[t][x][y])));
    ghost var goal := Outputs(q, k, v, pastKv, ratio, b, h, n, d, e);
    forall x, y | 0 <= x < b && 0 <= y < h ensures output[x][y] == goal[x][y] {
      forall t | 0 <= t < n ensures output[x][y][t] == goal[x][y][t] {}
    }
    assert forall x | 0 <= x < b :: output[x] == goal[x];
  }

  lemma StatesStart(k: Batch, v: Batch, kv: Batch, ratio: Row, b: nat, h: nat, n: nat, d: nat, e: nat)
    requires Shape4(k, b, h, n, d) && Shape4(v, b, h, n, e) && Shape4(kv, b, h, d, e) && |ratio| == h
    ensures States(k, v, kv, ratio, 0, b, h, n, d, e) == kv
  {
    var states := States(k, v, kv, ratio, 0, b, h, n, d, e);
    forall x | 0 <= x < b ensures states[x] == kv[x] {}
  }

  lemma StatesStep(k: Batch, v: Batch, kv: Batch, ratio: Row, t: nat, b: nat, h: nat, n: nat, d: nat, e: nat)
    requires Shape4(k, b, h, n, d) && Shape4(v, b, h, n, e) && Shape4(kv, b, h, d, e) && |ratio| == h && t < n
    ensures NextStates(k, v, States(k, v, kv, ratio, t, b, h, n, d, e), ratio, t, b, h, n, d, e)
      == States(k, v, kv, ratio, t + 1, b, h, n, d, e)
  {
    hide HeadStep;
    var now := States(k, v, kv, ratio, t, b, h, n, d, e);
    var next := NextStates(k, v, now, ratio, t, b, h, n, d, e);
    var goal := States(k, v, kv, ratio, t + 1, b, h, n, d, e);
    forall x | 0 <= x < b ensures next[x] == goal[x] {
      forall y | 0 <= y < h ensures next[x][y] == goal[x][y] {}
    }
  }
}
