/** Decimal numbers as the program holds them: a sign, a coefficient and an exponent, so that
    one value has many spellings ("0.5", "0.50", "5E-1"). The working precision is 28 digits. */
module Decimals {

  datatype Decimal = Decimal(negative: bool, coefficient: nat, exponent: int)

  const PRECISION: nat := 28

  function Pow10(n: nat): (p: nat)
    ensures p >= 1
  {
    if n == 0 then 1 else 10 * Pow10(n - 1)
  }

  /** 10 to the power e, for either sign of e. */
  function Scale(e: int): (s: real)
    ensures s > 0.0
    decreases if e >= 0 then e else -e
  {
    if e == 0 then 1.0 else if e > 0 then 10.0 * Scale(e - 1) else Scale(e + 1) / 10.0
  }

  function Signed(d: Decimal): int {
    if d.negative then -(d.coefficient as int) else d.coefficient as int
  }

  function Times(m: int, s: real): real {
    (m as real) * s
  }

  function Value(d: Decimal): real {
    Times(Signed(d), Scale(d.exponent))
  }

  predicate IsZero(d: Decimal) {
    d.coefficient == 0
  }

  lemma ScaleStep(e: int)
    ensures Scale(e + 1) == 10.0 * Scale(e)
  {
  }

  lemma TimesTen(m: int, s: real)
    ensures Times(10 * m, s) == 10.0 * Times(m, s)
    ensures Times(10 * m, s) == Times(m, 10.0 * s)
  {
  }

  lemma TimesTimes(m: int, p: int, s: real)
    ensures Times(m, Times(p, s)) == Times(m * p, s)
  {
    assert ((m * p) as real) == (m as real) * (p as real);
  }

  lemma {:induction false} ScaleShift(e: int, k: nat)
    ensures Scale(e + k) == Times(Pow10(k), Scale(e))
    decreases k
  {
    if k > 0 {
      ScaleShift(e, k - 1);
      ScaleStep(e + k - 1);
      TimesTen(Pow10(k - 1), Scale(e));
    }
  }

  // ---- rounding to a coarser exponent ----

  /** n / d rounded to the nearest integer, halves away from zero. */
  function HalfUp(n: nat, d: nat): (q: nat)
    requires d > 0
  {
    (2 * n + d) / (2 * d)
  }

  /** n / d rounded to the nearest integer, halves to the even neighbour. */
  function HalfEven(n: nat, d: nat): (q: nat)
    requires d > 0
  {
    var q, r := n / d, n % d;
    if 2 * r > d || (2 * r == d && q % 2 == 1) then q + 1 else q
  }

  /** The context rounding every arithmetic result goes through: at most 28 digits are kept. */
  function Rounded(d: Decimal): Decimal {
    if d.coefficient < Pow10(PRECISION) then d
    else
      var drop := Excess(d.coefficient);
      var q := HalfEven(d.coefficient, Pow10(drop));
      if q < Pow10(PRECISION) then Decimal(d.negative, q, d.exponent + drop)
      else Decimal(d.negative, q / 10, d.exponent + drop + 1)
  }

  /** How many low digits of c lie beyond the working precision. */
  function Excess(c: nat): nat {
    if c < Pow10(PRECISION) then 0 else 1 + Excess(c / 10)
  }

  // ---- the one canonical spelling ----

  /** Trailing zeros removed; every zero gets exponent 0. The sign of a zero is kept. */
  function Stripped(d: Decimal): Decimal
    decreases d.coefficient
  {
    if d.coefficient == 0 then Decimal(d.negative, 0, 0)
    else if d.coefficient % 10 == 0 then Stripped(Decimal(d.negative, d.coefficient / 10, d.exponent + 1))
    else d
  }

  function Normalized(d: Decimal): Decimal {
    Stripped(Rounded(d))
  }

  predicate Canonical(d: Decimal) {
    if d.coefficient == 0 then d.exponent == 0 else d.coefficient % 10 != 0
  }

  lemma {:induction false} StrippedKeepsValue(d: Decimal)
    ensures Value(Stripped(d)) == Value(d)
    ensures Canonical(Stripped(d))
    ensures Stripped(d).negative == d.negative
    ensures IsZero(Stripped(d)) <==> IsZero(d)
    decreases d.coefficient
  {
    if d.coefficient != 0 && d.coefficient % 10 == 0 {
      var shorter := Decimal(d.negative, d.coefficient / 10, d.exponent + 1);
      StrippedKeepsValue(shorter);
      ScaleStep(d.exponent);
      assert Signed(d) == 10 * Signed(shorter);
      TimesTen(Signed(shorter), Scale(d.exponent));
    }
  }

  /** Canonical spellings of one value are one spelling, up to the sign of zero. */
  lemma CanonicalIsUnique(a: Decimal, b: Decimal)
    requires Canonical(a) && Canonical(b) && Value(a) == Value(b)
    requires IsZero(a) ==> a.negative == b.negative
    ensures a == b
  {
    CanonicalExponents(a, b);
    CanonicalExponents(b, a);
    SameScale(Signed(a), Signed(b), a.exponent);
  }

  lemma Cancel(x: real, y: real, z: real)
    requires x * z == y * z && z > 0.0
    ensures x == y
  {
  }

  lemma SameScale(m: int, n: int, e: int)
    requires Times(m, Scale(e)) == Times(n, Scale(e))
    ensures m == n
  {
    Cancel(m as real, n as real, Scale(e));
  }

  lemma CanonicalExponents(a: Decimal, b: Decimal)
    requires Canonical(a) && Canonical(b) && Value(a) == Value(b)
    ensures a.exponent >= b.exponent
  {
    if a.exponent < b.exponent {
      var k := b.exponent - a.exponent;
      var shorter := Signed(b) * Pow10(k - 1);
      ScaleShift(a.exponent, k);
      TimesTimes(Signed(b), Pow10(k), Scale(a.exponent));
      SameScale(Signed(a), Signed(b) * Pow10(k), a.exponent);
      TenTimes(Signed(b), k);
      assert Signed(a) == 10 * shorter;
      assert a.coefficient % 10 == 0;
      ProductZero(Signed(b), Pow10(k));
    }
  }

  lemma TenTimes(m: int, k: nat)
    requires k > 0
    ensures m * Pow10(k) == 10 * (m * Pow10(k - 1))
  {
  }

  lemma ProductZero(m: int, p: nat)
    requires p > 0 && m * p == 0
    ensures m == 0
  {
  }

  /** Two spellings share a canonical form exactly when they are one value, zeros also agreeing in sign. */
  lemma StrippedEqualIffValueEqual(a: Decimal, b: Decimal)
    ensures Stripped(a) == Stripped(b)
       <==> Value(a) == Value(b) && (IsZero(a) ==> a.negative == b.negative)
  {
    StrippedKeepsValue(a);
    StrippedKeepsValue(b);
    if Value(a) == Value(b) && (IsZero(a) ==> a.negative == b.negative) {
      CanonicalIsUnique(Stripped(a), Stripped(b));
    }
  }

  /** Within the working precision the normalised spelling identifies the value; beyond it, it
      identifies the rounded value. */
  lemma NormalizedEqualIffValueEqual(a: Decimal, b: Decimal)
    ensures Normalized(a) == Normalized(b)
       <==> Value(Rounded(a)) == Value(Rounded(b)) && (IsZero(Rounded(a)) ==> a.negative == b.negative)
    ensures a.coefficient < Pow10(PRECISION) && b.coefficient < Pow10(PRECISION) ==>
              (Normalized(a) == Normalized(b)
               <==> Value(a) == Value(b) && (IsZero(a) ==> a.negative == b.negative))
  {
    StrippedEqualIffValueEqual(Rounded(a), Rounded(b));
  }

  /** The two ways the equivalence stops. First, zeros of opposite sign are one value with two spellings. */
  lemma OppositeZerosDiffer()
    ensures var (a, b) := (Decimal(false, 0, 0), Decimal(true, 0, 0));
            Value(a) == Value(b) && Normalized(a) != Normalized(b)
  {
    assert Pow10(PRECISION) > 0;
  }

  /** Second, a 29th digit is rounded away: every value whose 29 digits end in 1 to 4 shares its
      spelling with the value ending in 0. */
  lemma TwentyNinthDigitIsLost(head: nat, last: nat)
    requires Pow10(PRECISION - 1) <= head < Pow10(PRECISION) && 1 <= last <= 4
    ensures var (a, b) := (Decimal(false, 10 * head, 0), Decimal(false, 10 * head + last, 0));
            Value(a) != Value(b) && Normalized(a) == Normalized(b)
  {
    var a, b := Decimal(false, 10 * head, 0), Decimal(false, 10 * head + last, 0);
    OneExcessDigit(head, 0);
    OneExcessDigit(head, last);
    if Value(a) == Value(b) {
      SameScale(Signed(a), Signed(b), 0);
    }
  }

  lemma OneExcessDigit(head: nat, last: nat)
    requires Pow10(PRECISION - 1) <= head < Pow10(PRECISION) && last <= 4
    ensures Rounded(Decimal(false, 10 * head + last, 0)) == Decimal(false, head, 1)
  {
    var c := 10 * head + last;
    assert Pow10(PRECISION) == 10 * Pow10(PRECISION - 1);
    assert c / 10 == head && c % 10 == last;
    assert Excess(c) == 1 + Excess(head) == 1;
    assert Pow10(1) == 10;
    assert HalfEven(c, 10) == head;
  }
}
