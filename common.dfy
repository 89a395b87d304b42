/** Shared vocabulary: optional values, results, and the small string
    operations that the TypeScript and Java sources take from their
    runtimes (digit tests, `Number(...)`, `parseFloat`, `trim`,
    `toLowerCase`, `split`, `length`). Characters are Unicode scalar
    values; `length` counts UTF-16 code units as JavaScript does. Case
    folding is modelled for ASCII letters only. */
module Common {

  datatype Option<+T> = None | Some(value: T)

  datatype Result<+R, +E> = Success(value: R) | Failure(error: E)

  // ------------------------------------------------------------ sequences

  /** Glue for the append lemmas: a common head in front of an appended
      rest gives the appended whole. */
  lemma ConsAppend<T>(head: seq<T>, whole: seq<T>, restWhole: seq<T>, left: seq<T>, restLeft: seq<T>, right: seq<T>)
    requires whole == head + restWhole && left == head + restLeft && restWhole == restLeft + right
    ensures whole == left + right
  {
  }

  /** A sequence is its prefix, a middle part that starts its suffix, and
      the rest of that suffix. */
  lemma SplitThree<T>(s: seq<T>, t: seq<T>, r: seq<T>)
    requires |t| <= |s| && t == s[|s| - |t|..] && r <= t
    ensures s == s[..|s| - |t|] + r + t[|r|..]
  {
    assert t == r + t[|r|..];
    assert s == s[..|s| - |t|] + t;
  }

  // ---------------------------------------------------------------- digits

  predicate IsDigit(c: char) { '0' <= c <= '9' }

  predicate AllDigits(s: string) { forall i :: 0 <= i < |s| ==> IsDigit(s[i]) }

  function DigitValue(c: char): (d: nat)
    requires IsDigit(c)
    ensures d < 10
  {
    c as int - '0' as int
  }

  function DigitChar(d: nat): (c: char)
    requires d < 10
    ensures IsDigit(c) && DigitValue(c) == d
  {
    (d + '0' as int) as char
  }

  /** Value of a string of decimal digits, most significant first. */
  function DigitsValue(s: string): (n: nat)
    requires AllDigits(s)
  {
    if s == [] then 0 else DigitsValue(s[..|s| - 1]) * 10 + DigitValue(s[|s| - 1])
  }

  /** Ten to the `k`; never zero, so it can divide. */
  function Pow10(k: nat): (p: nat)
    ensures p >= 1
  {
    if k == 0 then 1 else 10 * Pow10(k - 1)
  }

  /** Decimal rendering of a natural number without leading zeros
      (JavaScript's `String(n)` and template interpolation). */
  function NatToString(n: nat): (s: string)
    ensures |s| > 0 && AllDigits(s)
    ensures DigitsValue(s) == n
    decreases n
  {
    if n < 10 then [DigitChar(n)]
    else
      var prefix := NatToString(n / 10);
      var s := prefix + [DigitChar(n % 10)];
      assert s[..|s| - 1] == prefix;
      s
  }

  /** `s.replace(/\D/g, "")`: keep exactly the digits, in order. */
  function StripNonDigits(s: string): (r: string)
    ensures AllDigits(r)
    ensures |r| <= |s|
    ensures AllDigits(s) ==> r == s
  {
    if s == [] then []
    else if IsDigit(s[0]) then [s[0]] + StripNonDigits(s[1..])
    else StripNonDigits(s[1..])
  }

  /** Every digit is kept, as often as it occurs. */
  lemma {:induction false} StripNonDigitsKeepsDigits(s: string)
    ensures forall c :: IsDigit(c) ==> multiset(StripNonDigits(s))[c] == multiset(s)[c]
  {
    if s != [] {
      StripNonDigitsKeepsDigits(s[1..]);
      assert s == [s[0]] + s[1..];
    }
  }

  /** Stripping works piece by piece, so the digits keep their order. */
  lemma {:induction false} StripNonDigitsAppend(a: string, b: string)
    ensures StripNonDigits(a + b) == StripNonDigits(a) + StripNonDigits(b)
  {
    if a != [] {
      var head := if IsDigit(a[0]) then [a[0]] else [];
      assert (a + b)[0] == a[0];
      assert (a + b)[1..] == a[1..] + b;
      StripNonDigitsAppend(a[1..], b);
      ConsAppend(head, StripNonDigits(a + b), StripNonDigits(a[1..] + b), StripNonDigits(a), StripNonDigits(a[1..]),
                 StripNonDigits(b));
    } else {
      assert a + b == b;
    }
  }

  /** `s.length`: the number of UTF-16 code units, two for a character
      outside the Basic Multilingual Plane. */
  function JsLength(s: string): (n: nat)
    ensures |s| <= n <= 2 * |s|
    ensures (forall i :: 0 <= i < |s| ==> s[i] as int < 0x1_0000) ==> n == |s|
  {
    if s == [] then 0
    else
      assert forall i :: 1 <= i < |s| ==> s[1..][i - 1] == s[i];
      (if s[0] as int < 0x1_0000 then 1 else 2) + JsLength(s[1..])
  }

  /** A single character: one code unit inside the Basic Multilingual Plane,
      a surrogate pair (two) outside it. */
  lemma JsLengthOfChar(c: char)
    ensures JsLength([c]) == if c as int < 0x1_0000 then 1 else 2
  {
    assert [c][1..] == [];
  }

  /** Lengths add up over concatenation, so with `JsLengthOfChar` every
      character contributes its own code units. */
  lemma {:induction false} JsLengthAppend(a: string, b: string)
    ensures JsLength(a + b) == JsLength(a) + JsLength(b)
  {
    if a != [] {
      assert (a + b)[0] == a[0];
      assert (a + b)[1..] == a[1..] + b;
      JsLengthAppend(a[1..], b);
    } else {
      assert a + b == b;
    }
  }

  /** Digits are one code unit each. */
  lemma JsLengthOfDigits(s: string)
    requires AllDigits(s)
    ensures JsLength(s) == |s|
  {
    assert forall i :: 0 <= i < |s| ==> s[i] as int < 0x1_0000 by {
      forall i | 0 <= i < |s| ensures s[i] as int < 0x1_0000 {
        assert IsDigit(s[i]);
      }
    }
  }

  /** One emoji is two code units long. */
  lemma JsLengthOfEmoji()
    ensures JsLength("\U{1F600}") == 2
  {
  }

  /** Longest prefix of `s` made of digits. */
  function DigitPrefix(s: string): (p: string)
    ensures AllDigits(p) && p <= s
    ensures |p| < |s| ==> !IsDigit(s[|p|])
  {
    if s == [] || !IsDigit(s[0]) then [] else [s[0]] + DigitPrefix(s[1..])
  }

  lemma {:induction false} DigitPrefixOfDigits(a: string, b: string)
    requires AllDigits(a)
    requires b == [] || !IsDigit(b[0])
    ensures DigitPrefix(a + b) == a
  {
    if a != [] {
      assert (a + b)[1..] == a[1..] + b;
      DigitPrefixOfDigits(a[1..], b);
    }
  }

  // ------------------------------------------------------------ whitespace

  /** The white space and line terminators `String.prototype.trim` and
      `parseFloat` skip: tab, line feed, vertical tab, form feed, carriage
      return, space, no-break space, the byte-order mark, the line and
      paragraph separators and the other space separators of Unicode. */
  predicate IsSpace(c: char)
  {
    || c == '\t' || c == '\n' || c == '\U{B}' || c == '\U{C}' || c == '\r' || c == ' '
    || c == '\U{A0}' || c == '\U{1680}' || '\U{2000}' <= c <= '\U{200A}' || c == '\U{2028}' || c == '\U{2029}'
    || c == '\U{202F}' || c == '\U{205F}' || c == '\U{3000}' || c == '\U{FEFF}'
  }

  function TrimStart(s: string): (r: string)
    ensures |r| <= |s| && r == s[|s| - |r|..]
    ensures r == [] || !IsSpace(r[0])
    ensures s != [] && !IsSpace(s[0]) ==> r == s
  {
    if s != [] && IsSpace(s[0]) then TrimStart(s[1..]) else s
  }

  function TrimEnd(s: string): (r: string)
    ensures r <= s
    ensures r == [] || !IsSpace(r[|r| - 1])
    ensures s != [] && !IsSpace(s[|s| - 1]) ==> r == s
  {
    if s != [] && IsSpace(s[|s| - 1]) then TrimEnd(s[..|s| - 1]) else s
  }

  /** `s.trim()`: drop the white space at both ends and nothing else. */
  function Trim(s: string): (r: string)
    ensures r == [] || (!IsSpace(r[0]) && !IsSpace(r[|r| - 1]))
  {
    TrimEnd(TrimStart(s))
  }

  /** What `trim` drops is white space at the two ends and nothing else. */
  lemma TrimDropsOnlySpace(s: string)
    ensures exists a, b :: s == a + Trim(s) + b && AllSpace(a) && AllSpace(b)
  {
    var t := TrimStart(s);
    var r := TrimEnd(t);
    SplitThree(s, t, r);
    LeadingSpace(s);
    TrailingSpace(t);
    var a, b := s[..|s| - |t|], t[|r|..];
    assert s == a + r + b && AllSpace(a) && AllSpace(b);
  }

  predicate AllSpace(s: string) { forall i :: 0 <= i < |s| ==> IsSpace(s[i]) }

  /** What `TrimStart` drops is white space. */
  lemma {:induction false} LeadingSpace(s: string)
    ensures AllSpace(s[..|s| - |TrimStart(s)|])
  {
    if s != [] && IsSpace(s[0]) {
      LeadingSpace(s[1..]);
      var a := s[..|s| - |TrimStart(s)|];
      forall i | 0 <= i < |a| ensures IsSpace(a[i]) {
        if i > 0 {
          assert a[i] == s[1..][..|s[1..]| - |TrimStart(s[1..])|][i - 1];
        }
      }
    }
  }

  /** What `TrimEnd` drops is white space. */
  lemma {:induction false} TrailingSpace(t: string)
    ensures AllSpace(t[|TrimEnd(t)|..])
  {
    if t != [] && IsSpace(t[|t| - 1]) {
      var u := t[..|t| - 1];
      TrailingSpace(u);
      var b := t[|TrimEnd(t)|..];
      forall i | 0 <= i < |b| ensures IsSpace(b[i]) {
        if i < |b| - 1 {
          assert b[i] == u[|TrimEnd(u)|..][i];
        }
      }
    }
  }

  lemma TrimOfUnpadded(s: string)
    requires s != [] && !IsSpace(s[0]) && !IsSpace(s[|s| - 1])
    ensures Trim(s) == s
  {
  }

  /** Trimming twice is trimming once. */
  lemma TrimIdempotent(s: string)
    ensures Trim(Trim(s)) == Trim(s)
  {
    var r := Trim(s);
    if r != [] {
      TrimOfUnpadded(r);
    }
  }

  // ------------------------------------------------------------ case, tests

  function ToLowerChar(c: char): (d: char)
  {
    if 'A' <= c <= 'Z' then (c as int - 'A' as int + 'a' as int) as char else c
  }

  /** `toLowerCase()` on ASCII letters. */
  function ToLower(s: string): (r: string)
    ensures |r| == |s|
    ensures forall i :: 0 <= i < |s| ==> r[i] == ToLowerChar(s[i])
  {
    seq(|s|, i requires 0 <= i < |s| => ToLowerChar(s[i]))
  }

  /** Java `equalsIgnoreCase` on ASCII letters. */
  predicate EqualsIgnoreCase(a: string, b: string)
  {
    ToLower(a) == ToLower(b)
  }

  predicate StartsWith(s: string, prefix: string)
  {
    |prefix| <= |s| && s[..|prefix|] == prefix
  }

  /** `s.includes(sub)`. */
  predicate Contains(s: string, sub: string)
  {
    StartsWith(s, sub) || (s != [] && Contains(s[1..], sub))
  }

  // ---------------------------------------------------------------- split

  /** Characters of `s` before the first `sep` (all of `s` if none). */
  function BeforeSep(s: string, sep: char): (r: string)
    ensures r <= s && sep !in r
    ensures |r| < |s| ==> s[|r|] == sep
  {
    if s == [] || s[0] == sep then [] else [s[0]] + BeforeSep(s[1..], sep)
  }

  /** `s.split(sep)[k]`, or None where JavaScript gives `undefined`. */
  function Field(s: string, sep: char, k: nat): (r: Option<string>)
    ensures k == 0 ==> r == Some(BeforeSep(s, sep))
    ensures r.Some? ==> sep !in r.value
    ensures k > 0 && r.Some? ==> sep in s
    decreases k
  {
    var head := BeforeSep(s, sep);
    if k == 0 then Some(head)
    else if |head| == |s| then None
    else Field(s[|head| + 1..], sep, k - 1)
  }

  lemma {:induction false} FieldJoin(a: string, b: string, sep: char, k: nat)
    requires sep !in a
    ensures Field(a + [sep] + b, sep, k + 1) == Field(b, sep, k)
  {
    BeforeSepOfFree(a, [sep] + b, sep);
    assert a + [sep] + b == a + ([sep] + b);
    assert (a + [sep] + b)[|a| + 1..] == b;
  }

  lemma {:induction false} BeforeSepOfFree(a: string, b: string, sep: char)
    requires sep !in a
    requires b == [] || b[0] == sep
    ensures BeforeSep(a + b, sep) == a
  {
    if a != [] {
      assert (a + b)[1..] == a[1..] + b;
      BeforeSepOfFree(a[1..], b, sep);
    }
  }

  // ---------------------------------------------------------------- Number

  /** JavaScript `Number(s)` on the strings the model meets: surrounding
      white space is ignored, the empty string is 0, a run of decimal digits
      is its value, anything else is NaN (None). */
  function JsNumber(s: string): (r: Option<nat>)
  {
    var t := Trim(s);
    if t == [] then Some(0)
    else if AllDigits(t) then Some(DigitsValue(t))
    else None
  }

  /** A non-empty run of digits is a number, read as its decimal value. */
  lemma JsNumberOfDigits(s: string)
    requires AllDigits(s) && s != []
    ensures JsNumber(s) == Some(DigitsValue(s))
  {
    assert !IsSpace(s[0]) && !IsSpace(s[|s| - 1]) by {
      assert IsDigit(s[0]) && IsDigit(s[|s| - 1]);
    }
    TrimOfUnpadded(s);
  }

  /** The unsigned part of `parseFloat`: the longest `digits[.digits]`
      prefix of `u`, or None when that prefix holds no digit. */
  function ParseDecimalPrefix(u: string): (r: Option<real>)
    ensures r.Some? ==> r.value >= 0.0
  {
    var ip := DigitPrefix(u);
    var rest := u[|ip|..];
    var fp := if |rest| > 0 && rest[0] == '.' then DigitPrefix(rest[1..]) else [];
    if ip == [] && fp == [] then None
    else Some(DigitsValue(ip) as real + DigitsValue(fp) as real / Pow10(|fp|) as real)
  }

  /** JavaScript `parseFloat(s)`: skip leading white space, read an optional
      sign and the longest `digits[.digits]` prefix; NaN (None) when that
      prefix holds no digit. The rest of the string is ignored. */
  function ParseFloat(s: string): (r: Option<real>)
  {
    var t := TrimStart(s);
    if |t| > 0 && t[0] == '-' then
      match ParseDecimalPrefix(t[1..])
      case None => None
      case Some(v) => Some(-v)
    else if |t| > 0 && t[0] == '+' then ParseDecimalPrefix(t[1..])
    else ParseDecimalPrefix(t)
  }
}
