/** Currency arithmetic on exact decimal values. Amounts are `real`;
    rounding to cents is HALF_UP (a tie moves away from zero), which is both
    the backend's `BigDecimal.setScale(2, RoundingMode.HALF_UP)` and the
    rounding `Number.prototype.toFixed(2)` applies to the magnitude of its
    argument. */
module Money {
  import opened Common

  /** The 8.25% service charge, applied to the subtotal by both the checkout
      page and the backend. */
  const ServiceChargeRate: real := 0.0825

  /** The amount `x` rounded HALF_UP to a whole number of cents. */
  function HalfUpCents(x: real): (c: int)
    ensures c as real - 0.5 <= x * 100.0 <= c as real + 0.5
    ensures x >= 0.0 ==> c >= 0 && x * 100.0 < c as real + 0.5
    ensures x <= 0.0 ==> c <= 0 && c as real - 0.5 < x * 100.0
  {
    if x >= 0.0 then (x * 100.0 + 0.5).Floor else -((-x) * 100.0 + 0.5).Floor
  }

  /** `roundCurrency`: HALF_UP to two decimals. Never moves a value by more
      than half a cent. */
  function Round2(x: real): (r: real)
    ensures -0.005 <= r - x <= 0.005
  {
    HalfUpCents(x) as real / 100.0
  }

  /** A value exactly half-way between two cents moves away from zero: a
      non-negative amount never loses a full half cent, a non-positive one
      never gains it. */
  lemma Round2TieDirection(x: real)
    ensures x >= 0.0 ==> x - Round2(x) < 0.005
    ensures x <= 0.0 ==> Round2(x) - x < 0.005
  {
  }

  function Cents(c: int): real { c as real / 100.0 }

  /** A whole number of cents is left alone by rounding. */
  lemma HalfUpCentsOfCents(c: int)
    ensures HalfUpCents(Cents(c)) == c
  {
    if c >= 0 {
      assert Cents(c) * 100.0 + 0.5 == c as real + 0.5;
    } else {
      assert (-Cents(c)) * 100.0 + 0.5 == (-c) as real + 0.5;
    }
  }

  lemma Round2OfCents(c: int)
    ensures Round2(Cents(c)) == Cents(c)
  {
    HalfUpCentsOfCents(c);
  }

  /** Rounding twice is rounding once. */
  lemma Round2Idempotent(x: real)
    ensures Round2(Round2(x)) == Round2(x)
  {
    Round2OfCents(HalfUpCents(x));
  }

  /** A larger amount never rounds to fewer cents. */
  lemma {:induction false} HalfUpCentsMonotone(x: real, y: real)
    requires x <= y
    ensures HalfUpCents(x) <= HalfUpCents(y)
  {
    if 0.0 <= x {
      assert x * 100.0 + 0.5 <= y * 100.0 + 0.5;
    } else if y < 0.0 {
      assert (-y) * 100.0 + 0.5 <= (-x) * 100.0 + 0.5;
    }
  }

  /** Rounding is symmetric about zero (HALF_UP, not HALF_CEILING). */
  lemma HalfUpCentsNegate(x: real)
    ensures HalfUpCents(-x) == -HalfUpCents(x)
  {
    if x == 0.0 {
      assert -x == 0.0;
    }
  }

  lemma Round2Ties()
    ensures Round2(0.125) == 0.13
    ensures Round2(-0.125) == -0.13
    ensures Round2(0.124) == 0.12
  {
    assert (0.125 * 100.0 + 0.5).Floor == 13;
    assert (0.125 * 100.0 + 0.5).Floor == 13;
    assert (0.124 * 100.0 + 0.5).Floor == 12;
  }

  // ------------------------------------------------------- toFixed(2) text

  /** Digits of a non-negative cent count as `units.hh`. */
  function CentsToString(c: nat): (s: string)
  {
    NatToString(c / 100) + "." + [DigitChar(c % 100 / 10), DigitChar(c % 10)]
  }

  /** `x.toFixed(2)`: a minus sign for a negative value, then the magnitude
      rounded HALF_UP to cents. */
  function ToFixed2(x: real): (s: string)
    ensures |s| >= 4
  {
    var magnitude := if x < 0.0 then -x else x;
    (if x < 0.0 then "-" else "") + CentsToString(HalfUpCents(magnitude))
  }

  lemma TwoDigits(c: nat)
    ensures (c % 100 / 10) * 10 + c % 10 == c % 100
  {
    var q, r := c / 100, c % 100;
    assert c == 100 * q + r;
    assert c % 10 == r % 10 by {
      assert c == 10 * (10 * q + r / 10) + r % 10;
    }
  }

  lemma {:induction false} FracValue(c: nat)
    ensures AllDigits([DigitChar(c % 100 / 10), DigitChar(c % 10)])
    ensures DigitsValue([DigitChar(c % 100 / 10), DigitChar(c % 10)]) == c % 100
  {
    var a, b := DigitChar(c % 100 / 10), DigitChar(c % 10);
    var frac: string := [a, b];
    assert frac[..1] == [a];
    assert [a][..0] == [];
    assert DigitsValue([a]) == DigitValue(a);
    assert DigitsValue(frac) == DigitsValue([a]) * 10 + DigitValue(b);
    TwoDigits(c);
  }

  /** The unsigned text `units.hh` reads back as the cent count over one
      hundred. */
  lemma {:induction false} ParseCentsString(c: nat)
    ensures ParseDecimalPrefix(CentsToString(c)) == Some(Cents(c))
  {
    var units := NatToString(c / 100);
    var frac: string := [DigitChar(c % 100 / 10), DigitChar(c % 10)];
    var body := CentsToString(c);
    assert body == units + ("." + frac);
    DigitPrefixOfDigits(units, "." + frac);
    assert body[|units|..] == "." + frac;
    assert ("." + frac)[1..] == frac;
    DigitPrefixOfDigits(frac, []);
    assert frac + [] == frac;
    FracValue(c);
    assert Pow10(2) == 100;
    assert DigitsValue(units) as real + DigitsValue(frac) as real / Pow10(2) as real == Cents(c) by {
      assert c == (c / 100) * 100 + c % 100;
    }
  }

  lemma ParseUnsignedText(body: string)
    requires body != [] && IsDigit(body[0])
    ensures ParseFloat(body) == ParseDecimalPrefix(body)
  {
    assert !IsSpace(body[0]);
    assert TrimStart(body) == body;
    assert body[0] != '-' && body[0] != '+';
  }

  lemma ParseNegatedText(body: string, v: real)
    requires ParseDecimalPrefix(body) == Some(v)
    ensures ParseFloat("-" + body) == Some(-v)
  {
    assert TrimStart("-" + body) == "-" + body;
    assert ("-" + body)[1..] == body;
  }

  /** Rounding a negative amount rounds its magnitude and restores the sign. */
  lemma Round2ByMagnitude(x: real)
    ensures x < 0.0 ==> Round2(x) == -Cents(HalfUpCents(-x))
    ensures x >= 0.0 ==> Round2(x) == Cents(HalfUpCents(x))
  {
    if x < 0.0 {
      HalfUpCentsNegate(-x);
      assert -(-x) == x;
    }
  }

  /** The text `toFixed(2)` writes reads back, through `parseFloat`, as the
      rounded amount. */
  lemma ParseToFixed2(x: real)
    ensures ParseFloat(ToFixed2(x)) == Some(Round2(x))
  {
    if x < 0.0 {
      ParseToFixed2Negative(x);
    } else {
      ParseToFixed2NonNegative(x);
    }
  }

  lemma {:induction false} ParseToFixed2NonNegative(x: real)
    requires x >= 0.0
    ensures ParseFloat(ToFixed2(x)) == Some(Round2(x))
  {
    var c := HalfUpCents(x);
    var body := CentsToString(c);
    assert ToFixed2(x) == body;
    assert body[0] == NatToString(c / 100)[0];
    ParseCentsString(c);
    ParseUnsignedText(body);
    assert ParseFloat(body) == Some(Cents(c));
    assert Round2(x) == Cents(c);
  }

  lemma {:induction false} ParseToFixed2Negative(x: real)
    requires x < 0.0
    ensures ParseFloat(ToFixed2(x)) == Some(Round2(x))
  {
    var c := HalfUpCents(-x);
    var text := "-" + CentsToString(c);
    assert ToFixed2(x) == text;
    ParseMinusCents(c);
    Round2ByMagnitude(x);
    assert Round2(x) == -Cents(c);
  }

  lemma {:induction false} ParseMinusCents(c: nat)
    ensures ParseFloat("-" + CentsToString(c)) == Some(-Cents(c))
  {
    ParseCentsString(c);
    ParseNegatedText(CentsToString(c), Cents(c));
  }
}
