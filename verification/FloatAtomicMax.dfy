/** A float maximum made of integer atomics: a signed integer maximum for values that are not below
    zero, an unsigned integer minimum for the others. Whether that works is a question about the
    order of bit patterns in the binary32 format (section 3.4 of IEEE 754-2008). */
module FloatAtomicMax {

  const TWO_23 := 0x80_0000
  const TWO_31 := 0x8000_0000
  const TWO_32 := 0x1_0000_0000

  type Bits = b: int | 0 <= b < TWO_32

  /** The bits of negative zero: the sign bit alone. */
  const NEGATIVE_ZERO: Bits := TWO_31

  // ---- the format -------------------------------------------------------------------------------

  function Magnitude(b: Bits): nat { b % TWO_31 }
  function Exponent(b: Bits): nat { Magnitude(b) / TWO_23 }
  function Fraction(b: Bits): nat { b % TWO_23 }
  predicate SignBit(b: Bits) { b >= TWO_31 }

  predicate IsNaN(b: Bits) {
    Exponent(b) == 255 && Fraction(b) != 0
  }

  /** `m * 2^k` */
  function Scale(m: nat, k: nat): nat {
    if k == 0 then m else 2 * Scale(m, k - 1)
  }

  /** The magnitude with biased exponent `e` and fraction `f`, subnormals included. */
  function Units(e: nat, f: nat): nat {
    if e == 0 then f else Scale(TWO_23 + f, e - 1)
  }

  /** A number, in units of the smallest subnormal, `2^-149`. */
  datatype Number = MinusInfinity | Finite(units: int) | PlusInfinity

  function Value(b: Bits): Number
    requires !IsNaN(b)
  {
    if Exponent(b) == 255 then if SignBit(b) then MinusInfinity else PlusInfinity
    else
      var units: int := Units(Exponent(b), Fraction(b));
      Finite(if SignBit(b) then -units else units)
  }

  predicate Less(x: Number, y: Number) {
    match (x, y)
    case (_, MinusInfinity) => false
    case (MinusInfinity, _) => true
    case (PlusInfinity, _) => false
    case (_, PlusInfinity) => true
    case (Finite(a), Finite(b)) => a < b
  }

  const ZERO := Finite(0)

  function Maximum(x: Number, y: Number): Number {
    if Less(x, y) then y else x
  }

  lemma {:induction false} ScaleMonotone(m: nat, n: nat, k: nat)
    requires m < n
    ensures Scale(m, k) < Scale(n, k)
    ensures Scale(2 * m, k) == Scale(m, k + 1)
  {
    if k > 0 {
      ScaleMonotone(m, n, k - 1);
    }
  }

  lemma {:induction false} ScaleGrows(m: nat, k: nat, l: nat)
    requires k <= l
    ensures Scale(m, k) <= Scale(m, l)
    decreases l
  {
    if k < l {
      ScaleGrows(m, k, l - 1);
    }
  }

  /** Exponent first, then fraction: no magnitude reaches the smallest one of the next exponent. */
  lemma UnitsOrdered(e: nat, f: nat, e': nat, f': nat)
    requires f < TWO_23 && f' < TWO_23 && (e < e' || (e == e' && f < f'))
    ensures Units(e, f) < Units(e', f')
  {
    hide Scale;
    if e == e' {
      if e > 0 { ScaleMonotone(TWO_23 + f, TWO_23 + f', e - 1); }
    } else {
      BelowNextExponent(e, f);
      ScaleGrows(TWO_23, e, e' - 1);
      if f' > 0 { ScaleMonotone(TWO_23, TWO_23 + f', e' - 1); }
    }
  }

  lemma BelowNextExponent(e: nat, f: nat)
    requires f < TWO_23
    ensures Units(e, f) < Scale(TWO_23, e)
  {
    if e > 0 {
      ScaleMonotone(TWO_23 + f, 2 * TWO_23, e - 1);
      ScaleMonotone(TWO_23, TWO_23 + 1, e - 1);
    }
  }

  lemma Parts(b: Bits)
    requires b < TWO_31
    ensures b == Exponent(b) * TWO_23 + Fraction(b) && Fraction(b) < TWO_23 && Exponent(b) <= 255
  {
  }

  /** Without the sign, the larger pattern is the larger number. */
  lemma MagnitudesOrdered(a: Bits, b: Bits)
    requires a < b < TWO_31 && !IsNaN(a) && !IsNaN(b)
    ensures Less(Value(a), Value(b))
  {
    hide Exponent, Fraction, Units;
    Parts(a);
    Parts(b);
    UnitsOrdered(Exponent(a), Fraction(a), Exponent(b), Fraction(b));
  }

  // ---- the order that the integer atomics see -----------------------------------------------------

  /** Non-negative patterns in order, below them the patterns with a sign bit in reverse. */
  function Rank(b: Bits): int {
    if SignBit(b) then TWO_31 - 1 - b else b
  }

  lemma SignFlips(b: Bits)
    requires SignBit(b) && !IsNaN(b)
    ensures !IsNaN(b - TWO_31) && !SignBit(b - TWO_31)
    ensures Value(b) == match Value(b - TWO_31)
              case PlusInfinity => MinusInfinity
              case MinusInfinity => PlusInfinity
              case Finite(units) => Finite(-units)
  {
    assert (b - TWO_31) % TWO_23 == b % TWO_23;
  }

  lemma UnsignedNotNegative(b: Bits)
    requires !SignBit(b) && !IsNaN(b)
    ensures !Less(Value(b), ZERO)
    ensures Value(b) == ZERO <==> b == 0
  {
    if b > 0 {
      MagnitudesOrdered(0, b);
    }
  }

  /** The rank orders numbers; two patterns of one number are the two zeros. */
  lemma RankOrdersNumbers(a: Bits, b: Bits)
    requires !IsNaN(a) && !IsNaN(b) && Rank(a) < Rank(b)
    ensures Less(Value(a), Value(b)) || (a == NEGATIVE_ZERO && b == 0)
  {
    if !SignBit(a) {
      MagnitudesOrdered(a, b);
    } else {
      SignFlips(a);
      UnsignedNotNegative(a - TWO_31);
      if SignBit(b) {
        SignFlips(b);
        MagnitudesOrdered(b - TWO_31, a - TWO_31);
      } else {
        UnsignedNotNegative(b);
      }
    }
  }

  // ---- the operation ------------------------------------------------------------------------------

  function AsSigned(b: Bits): int {
    if b >= TWO_31 then b - TWO_32 else b
  }

  /** `value >= 0` on floats: true of both zeros, false of NaN. */
  predicate NotBelowZero(b: Bits) {
    !IsNaN(b) && !Less(Value(b), ZERO)
  }

  /** The cell after one call. */
  function AfterMax(cell: Bits, value: Bits): Bits {
    if NotBelowZero(value) then if AsSigned(cell) < AsSigned(value) then value else cell
    else if value < cell then value else cell
  }

  class FloatCell {
    var bits: Bits

    /** One atomic operation on the cell, signed or unsigned; returns what was there before. */
    method AtomicMaxFloat(value: Bits) returns (before: Bits)
      modifies this
      ensures before == old(bits)
      ensures bits == AfterMax(old(bits), value)
    {
      before := bits;
      if NotBelowZero(value) {
        bits := if AsSigned(bits) < AsSigned(value) then value else bits;
      } else {
        bits := if value < bits then value else bits;
      }
    }
  }

  /** A call with negative zero does nothing; any other keeps the pattern of higher rank. */
  lemma AfterMaxByRank(cell: Bits, value: Bits)
    requires !IsNaN(value)
    ensures value == NEGATIVE_ZERO ==> AfterMax(cell, value) == cell
    ensures value != NEGATIVE_ZERO ==> AfterMax(cell, value) == if Rank(cell) < Rank(value) then value else cell
  {
    if SignBit(value) {
      SignFlips(value);
      UnsignedNotNegative(value - TWO_31);
    } else {
      UnsignedNotNegative(value);
    }
  }

  /** One call stores the maximum of two numbers, except that negative zero fails to replace a
      negative number. */
  lemma MaxExactly(cell: Bits, value: Bits)
    requires !IsNaN(cell) && !IsNaN(value)
    ensures !IsNaN(AfterMax(cell, value))
    ensures Value(AfterMax(cell, value)) == Maximum(Value(cell), Value(value))
            <==> !(value == NEGATIVE_ZERO && Less(Value(cell), ZERO))
  {
    AfterMaxByRank(cell, value);
    SignFlips(NEGATIVE_ZERO);
    if Rank(cell) < Rank(value) {
      RankOrdersNumbers(cell, value);
    } else if Rank(value) < Rank(cell) {
      RankOrdersNumbers(value, cell);
    }
  }

  /** The exception is real: with -1.0 in the cell, the maximum with -0.0 is still -1.0. */
  lemma NegativeZeroIgnored()
    ensures var minusOne: Bits := 0xBF80_0000;
            && !IsNaN(minusOne) && !IsNaN(NEGATIVE_ZERO)
            && AfterMax(minusOne, NEGATIVE_ZERO) == minusOne
            && Maximum(Value(minusOne), Value(NEGATIVE_ZERO)) == ZERO != Value(minusOne)
  {
    NegativeZeroIsZero();
    MinusOneIsNegative();
    hide Value, AfterMax, Exponent, Fraction;
    AfterMaxByRank(0xBF80_0000, NEGATIVE_ZERO);
  }

  lemma NegativeZeroIsZero()
    ensures !IsNaN(NEGATIVE_ZERO) && Value(NEGATIVE_ZERO) == ZERO
  {
    SignFlips(NEGATIVE_ZERO);
  }

  lemma MinusOneIsNegative()
    ensures !IsNaN(0xBF80_0000) && Less(Value(0xBF80_0000), ZERO)
  {
    SignFlips(0xBF80_0000);
    UnsignedNotNegative(0x3F80_0000);
  }

  // ---- many concurrent calls --------------------------------------------------------------------

  /** The cell after the calls have taken effect, in the order in which the hardware took them. */
  function AfterAll(cell: Bits, values: seq<Bits>): Bits {
    if values == [] then cell
    else AfterMax(AfterAll(cell, values[..|values| - 1]), values[|values| - 1])
  }

  ghost function MaximumOf(cell: Bits, values: seq<Bits>): Number
    requires !IsNaN(cell) && forall v | v in values :: !IsNaN(v)
  {
    if values == [] then Value(cell)
    else Maximum(MaximumOf(cell, values[..|values| - 1]), Value(values[|values| - 1]))
  }

  /** The cell ends as one of the patterns involved, of highest rank among them. */
  lemma {:induction false} AfterAllIsHighest(cell: Bits, values: seq<Bits>)
    requires forall v | v in values :: !IsNaN(v)
    ensures var r := AfterAll(cell, values);
            && (r == cell || (r in values && r != NEGATIVE_ZERO))
            && Rank(cell) <= Rank(r)
            && forall v | v in values && v != NEGATIVE_ZERO :: Rank(v) <= Rank(r)
  {
    if values != [] {
      var init, v := values[..|values| - 1], values[|values| - 1];
      AfterAllIsHighest(cell, init);
      AfterMaxByRank(AfterAll(cell, init), v);
      assert forall w | w in values :: w in init || w == v;
    }
  }

  /** The order of the calls does not matter, down to the last bit; nor do repetitions. */
  lemma OrderIrrelevant(cell: Bits, values: seq<Bits>, others: seq<Bits>)
    requires forall v | v in values :: !IsNaN(v)
    requires forall v :: v in values <==> v in others
    ensures AfterAll(cell, values) == AfterAll(cell, others)
  {
    AfterAllIsHighest(cell, values);
    AfterAllIsHighest(cell, others);
  }

  /** The number in the cell ends as the maximum of all numbers involved, if and only if none of
      the calls is with negative zero, or something else among them is not below zero. */
  lemma MaximumOfAll(cell: Bits, values: seq<Bits>)
    requires !IsNaN(cell) && forall v | v in values :: !IsNaN(v)
    ensures !IsNaN(AfterAll(cell, values))
    ensures Value(AfterAll(cell, values)) == MaximumOf(cell, values)
            <==> (NEGATIVE_ZERO !in values || !Less(Value(cell), ZERO)
                  || exists v | v in values :: v != NEGATIVE_ZERO && !Less(Value(v), ZERO))
  {
    var r := AfterAll(cell, values);
    AfterAllIsHighest(cell, values);
    assert r == cell || r in values;
    SignFlips(NEGATIVE_ZERO);
    MaximumIsLargest(cell, values);
    AtLeast(r, cell);
    forall v | v in values && v != NEGATIVE_ZERO ensures !Less(Value(r), Value(v)) {
      AtLeast(r, v);
    }
  }

  lemma AtLeast(r: Bits, v: Bits)
    requires !IsNaN(r) && !IsNaN(v) && Rank(v) <= Rank(r)
    ensures !Less(Value(r), Value(v))
  {
    SignFlips(NEGATIVE_ZERO);
    if Rank(v) < Rank(r) {
      RankOrdersNumbers(v, r);
    }
  }

  /** `MaximumOf` is the largest of the numbers: one of them, and none is larger. */
  lemma {:induction false} MaximumIsLargest(cell: Bits, values: seq<Bits>)
    requires !IsNaN(cell) && forall v | v in values :: !IsNaN(v)
    ensures MaximumOf(cell, values) == Value(cell) || exists v | v in values :: MaximumOf(cell, values) == Value(v)
    ensures !Less(MaximumOf(cell, values), Value(cell))
    ensures forall v | v in values :: !Less(MaximumOf(cell, values), Value(v))
  {
    if values != [] {
      var init, w := values[..|values| - 1], values[|values| - 1];
      MaximumIsLargest(cell, init);
      assert forall v | v in values :: v in init || v == w;
      assert w in values;
    }
  }
}
