/** router.py, quantise_prices and _validate_instrument: the terms of an order that may be sent. */
module Prices {
  import opened Wrappers
  import opened Decimals
  import opened Events

  // ---- the price grid ----

  /** d on the grid of spacing 10^e, halves away from zero; refused beyond the working precision. */
  function Quantized(d: Decimal, e: int): Option<Decimal> {
    var q := if d.exponent >= e then d.coefficient * Pow10(d.exponent - e)
             else HalfUp(d.coefficient, Pow10(e - d.exponent));
    if q < Pow10(PRECISION) then Some(Decimal(d.negative, q, e)) else None
  }

  /** Zero means "no bracket" and is left alone. */
  function OnGrid(d: Decimal, e: int): Option<Decimal> {
    if IsZero(d) then Some(d) else Quantized(d, e)
  }

  lemma HalfUpBounds(n: nat, d: nat)
    requires d > 0
    ensures var q := HalfUp(n, d); (2 * q - 1) * d <= 2 * n < (2 * q + 1) * d
  {
    var m, w := 2 * n + d, 2 * d;
    var q := m / w;
    assert m == w * q + m % w;
    assert (2 * q - 1) * d == w * q - d;
    assert (2 * q + 1) * d == w * q + d;
  }

  /** The magnitude of a number, in units of Scale(d.exponent). */
  function Magnitude(d: Decimal): real {
    Times(d.coefficient, Scale(d.exponent))
  }

  lemma TimesOrder(m: int, n: int, s: real)
    requires s > 0.0
    ensures m < n <==> Times(m, s) < Times(n, s)
    ensures Times(m + n, s) == Times(m, s) + Times(n, s)
    ensures Times(-m, s) == -Times(m, s)
  {
    assert ((m + n) as real) == (m as real) + (n as real);
    assert ((n - m) as real) * s == Times(n, s) - Times(m, s);
    if m < n {
      assert ((n - m) as real) >= 1.0;
    } else {
      assert ((n - m) as real) <= 0.0;
    }
  }

  /** n source units of size s, with q grid steps of D source units chosen, lie within half a step of q. */
  lemma StepBounds(n: nat, q: nat, D: nat, s: real)
    requires s > 0.0 && (2 * q - 1) * D <= 2 * n < (2 * q + 1) * D
    ensures Times(2 * q - 1, Times(D, s)) <= 2.0 * Times(n, s) < Times(2 * q + 1, Times(D, s))
  {
    var low, high := (2 * q - 1) * D, (2 * q + 1) * D;
    TimesTimes(2 * q - 1, D, s);
    TimesTimes(2 * q + 1, D, s);
    TimesOrder(2 * n, low, s);
    TimesOrder(2 * n, high, s);
    TimesOrder(n, n, s);
  }

  /** The chosen grid point q brackets the magnitude by half a step on either side. */
  lemma GridBounds(d: Decimal, e: int)
    requires Quantized(d, e).Some?
    ensures var q := Quantized(d, e).value.coefficient;
            Times(2 * q - 1, Scale(e)) <= 2.0 * Magnitude(d) < Times(2 * q + 1, Scale(e))
  {
    var q := Quantized(d, e).value.coefficient;
    if d.exponent >= e {
      UnitsMagnitude(d, e);
      StepBounds(q, q, 1, Scale(e));
      assert Times(1, Scale(e)) == Scale(e);
    } else {
      ScaleShift(d.exponent, e - d.exponent);
      HalfUpBounds(d.coefficient, Pow10(e - d.exponent));
      StepBounds(d.coefficient, q, Pow10(e - d.exponent), Scale(d.exponent));
    }
  }

  lemma SignedMagnitude(d: Decimal)
    ensures Value(d) == if d.negative then -Magnitude(d) else Magnitude(d)
    ensures Magnitude(d) >= 0.0
  {
    TimesOrder(d.coefficient, 0, Scale(d.exponent));
    assert Times(0, Scale(d.exponent)) == 0.0;
  }

  /** The grid point sent is within half a step of the source price, and its own grid point. */
  lemma QuantizedIsNearest(d: Decimal, e: int)
    requires Quantized(d, e).Some?
    ensures var r := Quantized(d, e).value;
            && r.exponent == e
            && -Scale(e) / 2.0 <= Value(r) - Value(d) <= Scale(e) / 2.0
            && Quantized(r, e) == Some(r)
  {
    var r := Quantized(d, e).value;
    GridBounds(d, e);
    SignedMagnitude(d);
    SignedMagnitude(r);
    TimesOrder(2 * r.coefficient, 1, Scale(e));
    TimesOrder(2 * r.coefficient, -1, Scale(e));
    TimesOrder(r.coefficient, r.coefficient, Scale(e));
    TimesOrder(1, 0, Scale(e));
    assert Times(1, Scale(e)) == Scale(e);
  }

  /** Rounding never swaps two prices: neither bracket can jump over the entry. */
  lemma QuantizedIsMonotone(a: Decimal, b: Decimal, e: int)
    requires Quantized(a, e).Some? && Quantized(b, e).Some? && Value(a) <= Value(b)
    ensures Value(Quantized(a, e).value) <= Value(Quantized(b, e).value)
  {
    var p, q := Quantized(a, e).value, Quantized(b, e).value;
    SignedMagnitude(a);
    SignedMagnitude(b);
    SignedMagnitude(p);
    SignedMagnitude(q);
    if !a.negative && !b.negative {
      MagnitudeMonotone(a, b, e);
    } else if a.negative && b.negative {
      MagnitudeMonotone(b, a, e);
    } else if b.negative {
      MagnitudeMonotone(a, Decimal(false, 0, e), e);
      MagnitudeMonotone(b, Decimal(false, 0, e), e);
      SignedMagnitude(Decimal(false, 0, e));
    }
  }

  lemma MagnitudeMonotone(a: Decimal, b: Decimal, e: int)
    requires Quantized(a, e).Some? && Quantized(b, e).Some? && Magnitude(a) <= Magnitude(b)
    ensures Magnitude(Quantized(a, e).value) <= Magnitude(Quantized(b, e).value)
  {
    var p, q := Quantized(a, e).value.coefficient, Quantized(b, e).value.coefficient;
    GridBounds(a, e);
    GridBounds(b, e);
    if p > q {
      TimesOrder(2 * q + 1, 2 * p - 1, Scale(e));
    }
    TimesOrder(q, p, Scale(e));
  }

  // ---- lots ----

  /** d in units of 10^e. */
  function Units(d: Decimal, e: int): nat
    requires e <= d.exponent
  {
    d.coefficient * Pow10(d.exponent - e)
  }

  function Finer(a: Decimal, b: Decimal): int {
    if a.exponent <= b.exponent then a.exponent else b.exponent
  }

  /** lots % step == 0, for a positive step; refused when the quotient exceeds the working precision. */
  function OnStep(lots: Decimal, step: Decimal): Option<bool>
    requires Value(step) > 0.0
  {
    var e := Finer(lots, step);
    var n, d := Units(lots, e), Units(step, e);
    if d == 0 || n / d >= Pow10(PRECISION) then None else Some(n % d == 0)
  }

  lemma UnitsMagnitude(d: Decimal, e: int)
    requires e <= d.exponent
    ensures Magnitude(d) == Times(Units(d, e), Scale(e))
  {
    ScaleShift(e, d.exponent - e);
    TimesTimes(d.coefficient, Pow10(d.exponent - e), Scale(e));
  }

  /** The remainder test is exactly "a whole number of steps". */
  lemma OnStepIffWholeSteps(lots: Decimal, step: Decimal)
    requires Value(step) > 0.0 && OnStep(lots, step).Some?
    ensures OnStep(lots, step).value <==> exists k: nat :: Magnitude(lots) == Times(k, Magnitude(step))
  {
    var e := Finer(lots, step);
    var n, d := Units(lots, e), Units(step, e);
    UnitsMagnitude(lots, e);
    UnitsMagnitude(step, e);
    WholeMultiples(n, d, e);
  }

  lemma WholeMultiples(n: nat, d: nat, e: int)
    requires d > 0
    ensures n % d == 0 <==> exists k: nat :: Times(n, Scale(e)) == Times(k, Times(d, Scale(e)))
  {
    if n % d == 0 {
      var k: nat := n / d;
      assert n == k * d;
      TimesTimes(k, d, Scale(e));
      assert Times(n, Scale(e)) == Times(k, Times(d, Scale(e)));
    }
    if k: nat :| Times(n, Scale(e)) == Times(k, Times(d, Scale(e))) {
      TimesTimes(k, d, Scale(e));
      SameScale(n, k * d, e);
      MultipleHasNoRemainder(k, d);
    }
  }

  lemma MultipleHasNoRemainder(k: nat, d: nat)
    requires d > 0
    ensures (k * d) % d == 0
  {
    var n := k * d;
    var q, r := n / d, n % d;
    assert n == d * q + r;
    SmallMultiple(d, k - q, r);
  }

  lemma SmallMultiple(d: nat, m: int, r: nat)
    requires r < d && d * m == r
    ensures r == 0
  {
    if m != 0 {
      AtLeastOnce(d, if m > 0 then m else -m);
    }
  }

  lemma AtLeastOnce(d: nat, m: int)
    requires m >= 1
    ensures d * m >= d
  {
  }

  // ---- the check before every order ----

  function Quantised(info: Instrument, event: Event): Option<Event> {
    if info.pricePrecision.None? then Some(event) else
    var e := -info.pricePrecision.value;
    var price, sl, tp := OnGrid(event.price, e), OnGrid(event.sl, e), OnGrid(event.tp, e);
    if price.None? || sl.None? || tp.None? then None
    else Some(event.(price := price.value, sl := sl.value, tp := tp.value))
  }

  predicate BracketsBeyond(event: Event) {
    if event.side == "BUY" then
      (IsZero(event.sl) || Value(event.sl) < Value(event.price))
      && (IsZero(event.tp) || Value(event.tp) > Value(event.price))
    else if event.side == "SELL" then
      (IsZero(event.sl) || Value(event.sl) > Value(event.price))
      && (IsZero(event.tp) || Value(event.tp) < Value(event.price))
    else true
  }

  predicate LotsAllowed(info: Instrument, lots: Decimal) {
    && info.volumeMin.Some? && info.volumeMax.Some? && info.volumeStep.Some?
    && Value(info.volumeStep.value) > 0.0
    && Value(info.volumeMin.value) <= Value(lots) <= Value(info.volumeMax.value)
    && OnStep(lots, info.volumeStep.value) == Some(true)
  }

  function Validated(instruments: seq<Instrument>, symbol: string, lots: Decimal, event: Event): Result<Event> {
    var found := Named(instruments, symbol);
    if |found| != 1 then Refused("Destination instrument is not uniquely available") else
    var info := found[0];
    var quantised := Quantised(info, event);
    if quantised.None? then Refused("Price exceeds the decimal precision") else
    var onGrid := quantised.value;
    if !LotsAllowed(info, lots) then Refused("Quantity violates destination lot limits/step") else
    if info.closeOnly && onGrid.action == Create then Refused("Destination instrument is close-only") else
    if info.longOnly && onGrid.side == "SELL" && onGrid.action == Create
    then Refused("Destination instrument is long-only") else
    if onGrid.action in {Create, Edit} && onGrid.orderType != "MARKET"
       && (Value(onGrid.price) <= 0.0 || !BracketsBeyond(onGrid))
       then Refused("Brackets are on the wrong side of entry")
    else Ok(onGrid)
  }

  function Named(instruments: seq<Instrument>, symbol: string): seq<Instrument> {
    if instruments == [] then []
    else (if instruments[0].symbol == symbol then [instruments[0]] else []) + Named(instruments[1..], symbol)
  }

  /** What is known of one price that was let through: on the grid and within half a step of the
      source, or a source zero passed on untouched. */
  ghost predicate Sendable(sent: Decimal, source: Decimal, precision: Option<int>) {
    match precision
    case None => sent == source
    case Some(p) =>
      if IsZero(source) then sent == source
      else sent.exponent == -p && -Scale(-p) / 2.0 <= Value(sent) - Value(source) <= Scale(-p) / 2.0
  }

  /** What is known of terms that passed the check against one instrument row. */
  ghost predicate Acceptable(info: Instrument, lots: Decimal, event: Event, sent: Event) {
    && LotsAllowed(info, lots)
    && (exists k: nat :: Magnitude(lots) == Times(k, Magnitude(info.volumeStep.value)))
    && Sendable(sent.price, event.price, info.pricePrecision)
    && Sendable(sent.sl, event.sl, info.pricePrecision)
    && Sendable(sent.tp, event.tp, info.pricePrecision)
    && sent == event.(price := sent.price, sl := sent.sl, tp := sent.tp)
    && (event.action in {Create, Edit} && event.orderType != "MARKET" ==>
          Value(sent.price) > 0.0 && BracketsBeyond(sent))
  }

  lemma ValidatedTerms(instruments: seq<Instrument>, symbol: string, lots: Decimal, event: Event)
    requires Validated(instruments, symbol, lots, event).Ok?
    ensures exists info :: info in instruments && info.symbol == symbol
                        && Acceptable(info, lots, event, Validated(instruments, symbol, lots, event).value)
  {
    var info := Named(instruments, symbol)[0];
    NamedAreListed(instruments, symbol);
    LotsAreWholeSteps(info, lots);
    QuantisedIsSendable(info, event);
    assert Acceptable(info, lots, event, Validated(instruments, symbol, lots, event).value);
  }

  lemma LotsAreWholeSteps(info: Instrument, lots: Decimal)
    requires LotsAllowed(info, lots)
    ensures exists k: nat :: Magnitude(lots) == Times(k, Magnitude(info.volumeStep.value))
  {
    OnStepIffWholeSteps(lots, info.volumeStep.value);
  }

  lemma QuantisedIsSendable(info: Instrument, event: Event)
    requires Quantised(info, event).Some?
    ensures var sent := Quantised(info, event).value;
            && Sendable(sent.price, event.price, info.pricePrecision)
            && Sendable(sent.sl, event.sl, info.pricePrecision)
            && Sendable(sent.tp, event.tp, info.pricePrecision)
  {
    hide OnGrid;
    if info.pricePrecision.Some? {
      hide Sendable;
      OnGridIsSendable(event.price, info.pricePrecision.value);
      OnGridIsSendable(event.sl, info.pricePrecision.value);
      OnGridIsSendable(event.tp, info.pricePrecision.value);
    }
  }

  lemma OnGridIsSendable(d: Decimal, precision: int)
    requires OnGrid(d, -precision).Some?
    ensures Sendable(OnGrid(d, -precision).value, d, Some(precision))
  {
    if !IsZero(d) {
      QuantizedIsNearest(d, -precision);
    }
  }

  lemma {:induction false} NamedAreListed(instruments: seq<Instrument>, symbol: string)
    ensures forall i :: i in Named(instruments, symbol) <==> i in instruments && i.symbol == symbol
  {
    if instruments != [] {
      NamedAreListed(instruments[1..], symbol);
    }
  }
}
