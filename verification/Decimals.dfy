/** Number text (app/src/equalizer/format.ts): the `NUMBER` pattern, the value `Number` reads from
    it, and the text `toString` prints.

    A number of the language is written as its shortest round-trip decimal, the one `toString`
    prints (section 6.1.6.1.20 of ECMA-262). Reading a literal is exact decimal arithmetic followed
    by `round`, which takes an exact decimal to the number nearest to it. */
module Decimals {
  import opened Rows

  /** `(-1)^neg * mantissa * 10^exp`. */
  datatype Decimal = Decimal(neg: bool, mantissa: nat, exp: int)

  /** No trailing zero in the mantissa; the two zeros have exponent 0. */
  predicate Normal(d: Decimal) {
    if d.mantissa == 0 then d.exp == 0 else d.mantissa % 10 != 0
  }

  function Normalized(neg: bool, mantissa: nat, exp: int): (d: Decimal)
    ensures Normal(d)
  {
    if mantissa == 0 then Decimal(neg, 0, 0)
    else if mantissa % 10 == 0 then Normalized(neg, mantissa / 10, exp + 1)
    else Decimal(neg, mantissa, exp)
  }

  /** `x * 10^e`. */
  function Scaled(x: real, e: int): real
    decreases if e < 0 then -e else e
  {
    if e == 0 then x else if e > 0 then Scaled(x * 10.0, e - 1) else Scaled(x / 10.0, e + 1)
  }

  function Value(d: Decimal): real {
    Scaled(if d.neg then -(d.mantissa as real) else d.mantissa as real, d.exp)
  }

  // ---- digits ----

  predicate Digit(c: char) { '0' <= c <= '9' }

  predicate Digits(s: string) { forall i | 0 <= i < |s| :: Digit(s[i]) }

  function NatOf(s: string): nat
    requires Digits(s)
  {
    if s == "" then 0 else 10 * NatOf(s[..|s| - 1]) + (s[|s| - 1] - '0') as nat
  }

  function DigitsOf(n: nat): (s: string)
    ensures s != "" && Digits(s)
  {
    if n < 10 then ['0' + n as char] else DigitsOf(n / 10) + ['0' + (n % 10) as char]
  }

  lemma {:induction false} DigitsRoundTrip(n: nat)
    ensures NatOf(DigitsOf(n)) == n
  {
    if n < 10 {
    } else {
      DigitsRoundTrip(n / 10);
      assert DigitsOf(n)[..|DigitsOf(n)| - 1] == DigitsOf(n / 10);
    }
  }

  function Zeros(n: nat): (s: string)
    ensures |s| == n && Digits(s) && forall i | 0 <= i < n :: s[i] == '0'
  {
    if n == 0 then "" else Zeros(n - 1) + "0"
  }

  lemma {:induction false} LeadingZeros(n: nat, s: string)
    requires Digits(s)
    ensures NatOf(Zeros(n) + s) == NatOf(s)
  {
    if s != "" {
      LeadingZeros(n, s[..|s| - 1]);
      assert (Zeros(n) + s)[..|Zeros(n) + s| - 1] == Zeros(n) + s[..|s| - 1];
    } else {
      assert Zeros(n) + s == Zeros(n);
      if n > 0 {
        LeadingZeros(n - 1, "");
        assert Zeros(n)[..n - 1] == Zeros(n - 1) == Zeros(n - 1) + "";
      }
    }
  }

  lemma {:induction false} NormalizedTen(neg: bool, m: nat, exp: int)
    requires m > 0
    ensures Normalized(neg, 10 * m, exp) == Normalized(neg, m, exp + 1)
  {
    var t := 10 * m;
    assert t % 10 == 0 && t / 10 == m;
  }

  lemma OneMoreZero(s: string, n: nat)
    requires Digits(s) && n > 0
    ensures NatOf(s + Zeros(n)) == 10 * NatOf(s + Zeros(n - 1))
  {
    assert (s + Zeros(n))[..|s + Zeros(n)| - 1] == s + Zeros(n - 1);
  }

  /** Trailing zeros of the text go to the exponent. */
  lemma {:induction false} TrailingZeros(neg: bool, s: string, n: nat, exp: int)
    requires Digits(s) && NatOf(s) % 10 != 0
    ensures NatOf(s + Zeros(n)) > 0
    ensures Normalized(neg, NatOf(s + Zeros(n)), exp) == Decimal(neg, NatOf(s), exp + n)
  {
    if n == 0 {
      assert s + Zeros(n) == s;
    } else {
      TrailingZeros(neg, s, n - 1, exp + 1);
      OneMoreZero(s, n);
      NormalizedTen(neg, NatOf(s + Zeros(n - 1)), exp);
    }
  }

  // ---- literals ----

  datatype Exponent = Exponent(mark: char, sign: string, digits: string)

  /** The parts of one match of `[+-]?(?:\d+(?:\.\d*)?|\.\d+)(?:[eE][+-]?\d+)?`. */
  datatype Literal = Literal(sign: string, whole: string, fraction: Option<string>, exponent: Option<Exponent>)

  predicate Sign(s: string) { s == "" || s == "+" || s == "-" }

  predicate WellFormedExponent(e: Exponent) {
    (e.mark == 'e' || e.mark == 'E') && Sign(e.sign) && e.digits != "" && Digits(e.digits)
  }

  predicate WellFormed(l: Literal) {
    && Sign(l.sign) && Digits(l.whole)
    && (l.fraction.Some? ==> Digits(l.fraction.value))
    && (l.whole == "" ==> l.fraction.Some? && l.fraction.value != "")
    && (l.exponent.Some? ==> WellFormedExponent(l.exponent.value))
  }

  function FractionText(f: Option<string>): string {
    if f.None? then "" else "." + f.value
  }

  function ExponentText(e: Option<Exponent>): string {
    if e.None? then "" else [e.value.mark] + (e.value.sign + e.value.digits)
  }

  function AfterSign(l: Literal): string {
    l.whole + (FractionText(l.fraction) + ExponentText(l.exponent))
  }

  function Text(l: Literal): string { l.sign + AfterSign(l) }

  /** The text `x` is one match of `NUMBER`. */
  ghost predicate IsNumber(x: string) {
    exists l :: WellFormed(l) && Text(l) == x
  }

  /** How many characters at the start of `s` are digits. */
  function DigitSpan(s: string): (n: nat)
    ensures n <= |s| && Digits(s[..n]) && (n < |s| ==> !Digit(s[n]))
    ensures forall i | 0 <= i < n :: Digit(s[i])
  {
    if s == "" || !Digit(s[0]) then 0
    else
      var n := DigitSpan(s[1..]);
      assert s[..n + 1] == [s[0]] + s[1..][..n];
      n + 1
  }

  lemma {:induction false} DigitSpanIs(d: string, rest: string)
    requires Digits(d) && (rest != "" ==> !Digit(rest[0]))
    ensures DigitSpan(d + rest) == |d| && (d + rest)[..|d|] == d && (d + rest)[|d|..] == rest
  {
    assert forall k | 0 <= k < |d| :: (d + rest)[k] == d[k];
    assert rest != "" ==> (d + rest)[|d|] == rest[0];
  }

  function SignSpan(s: string): (n: nat)
    ensures n <= |s| && Sign(s[..n])
  {
    if s != "" && (s[0] == '+' || s[0] == '-') then 1 else 0
  }

  function ReadExponent(s: string): Option<Exponent> {
    if s == "" || (s[0] != 'e' && s[0] != 'E') then None
    else
      var t := s[1..];
      var n := SignSpan(t);
      if t[n..] != "" && Digits(t[n..]) then Some(Exponent(s[0], t[..n], t[n..])) else None
  }

  function ReadFraction(s: string): (r: (Option<string>, string))
    ensures FractionText(r.0) + r.1 == s && (r.0.Some? ==> Digits(r.0.value))
  {
    if s == "" || s[0] != '.' then (None, s)
    else
      var n := DigitSpan(s[1..]);
      assert s == "." + s[1..][..n] + s[1..][n..];
      (Some(s[1..][..n]), s[1..][n..])
  }

  /** Reads what follows the whole part. */
  function ReadTail(s: string): Option<(Option<string>, Option<Exponent>)> {
    var (fraction, rest) := ReadFraction(s);
    var exponent := ReadExponent(rest);
    if rest != "" && exponent.None? then None else Some((fraction, exponent))
  }

  /** Reads the text after `sign`. */
  function ReadUnsigned(sign: string, t: string): Option<Literal> {
    var whole := t[..DigitSpan(t)];
    var tail := ReadTail(t[DigitSpan(t)..]);
    if tail.None? || (whole == "" && (tail.value.0.None? || tail.value.0.value == "")) then None
    else Some(Literal(sign, whole, tail.value.0, tail.value.1))
  }

  function ReadLiteral(s: string): Option<Literal> {
    ReadUnsigned(s[..SignSpan(s)], s[SignSpan(s)..])
  }

  lemma ExponentIsWellFormed(s: string)
    requires ReadExponent(s).Some?
    ensures ExponentText(ReadExponent(s)) == s && WellFormedExponent(ReadExponent(s).value)
  {
    var t := s[1..];
    Halves(t, SignSpan(t));
    Halves(s, 1);
    assert s[..1] == [s[0]];
  }

  lemma ExponentReads(e: Exponent)
    requires WellFormedExponent(e)
    ensures ReadExponent(ExponentText(Some(e))) == Some(e)
  {
    var s := ExponentText(Some(e));
    var t := e.sign + e.digits;
    assert s[1..] == t;
    assert e.sign == "" ==> t == e.digits;
    assert SignSpan(t) == |e.sign|;
    assert t[|e.sign|..] == e.digits && t[..|e.sign|] == e.sign;
  }

  lemma TailIsText(s: string)
    requires ReadTail(s).Some?
    ensures var (fraction, exponent) := ReadTail(s).value;
            && FractionText(fraction) + ExponentText(exponent) == s
            && (fraction.Some? ==> Digits(fraction.value))
            && (exponent.Some? ==> WellFormedExponent(exponent.value))
  {
    var (fraction, rest) := ReadFraction(s);
    if ReadExponent(rest).Some? {
      ExponentIsWellFormed(rest);
    }
  }

  lemma Halves<T>(s: seq<T>, n: nat)
    requires n <= |s|
    ensures s[..n] + s[n..] == s
  {
  }

  lemma ReadIsWellFormed(sign: string, t: string)
    requires Sign(sign) && ReadUnsigned(sign, t).Some?
    ensures var l := ReadUnsigned(sign, t).value; WellFormed(l) && AfterSign(l) == t && l.sign == sign
  {
    TailIsText(t[DigitSpan(t)..]);
    Halves(t, DigitSpan(t));
  }

  lemma ReadFractionIs(f: Option<string>, rest: string)
    requires f.Some? ==> Digits(f.value)
    requires rest != "" ==> !Digit(rest[0]) && rest[0] != '.'
    ensures ReadFraction(FractionText(f) + rest) == (f, rest)
  {
    if f.Some? {
      DigitSpanIs(f.value, rest);
      assert (FractionText(f) + rest)[1..] == f.value + rest;
    } else {
      assert FractionText(f) + rest == rest;
    }
  }

  lemma AfterSignReads(l: Literal)
    requires WellFormed(l)
    ensures ReadUnsigned(l.sign, AfterSign(l)) == Some(l)
  {
    var rest := ExponentText(l.exponent);
    var after := FractionText(l.fraction) + rest;
    DigitSpanIs(l.whole, after);
    ReadFractionIs(l.fraction, rest);
    if l.exponent.Some? {
      ExponentReads(l.exponent.value);
    }
  }

  lemma StartsUnsigned(l: Literal)
    requires WellFormed(l)
    ensures AfterSign(l) != "" && AfterSign(l)[0] != '+' && AfterSign(l)[0] != '-'
  {
    if l.whole != "" {
      assert AfterSign(l)[0] == l.whole[0];
    } else {
      assert AfterSign(l)[0] == '.';
    }
  }

  lemma TextSplits(l: Literal)
    requires WellFormed(l)
    ensures SignSpan(Text(l)) == |l.sign|
    ensures Text(l)[..|l.sign|] == l.sign && Text(l)[|l.sign|..] == AfterSign(l)
  {
    StartsUnsigned(l);
    assert Text(l)[0] == if l.sign == "" then AfterSign(l)[0] else l.sign[0];
  }

  lemma TextIsRead(l: Literal)
    requires WellFormed(l)
    ensures ReadLiteral(Text(l)) == Some(l)
  {
    AfterSignReads(l);
    TextSplits(l);
  }

  lemma ReadIsText(s: string)
    requires ReadLiteral(s).Some?
    ensures WellFormed(ReadLiteral(s).value) && Text(ReadLiteral(s).value) == s
  {
    ReadIsWellFormed(s[..SignSpan(s)], s[SignSpan(s)..]);
    Halves(s, SignSpan(s));
  }

  /** A text is at most one match of the pattern, and reading finds it. */
  lemma ReadLiteralIs(s: string, l: Literal)
    ensures ReadLiteral(s) == Some(l) <==> WellFormed(l) && Text(l) == s
  {
    if ReadLiteral(s) == Some(l) {
      ReadIsText(s);
    } else if WellFormed(l) && Text(l) == s {
      TextIsRead(l);
    }
  }

  lemma NumbersAreRead(s: string)
    ensures IsNumber(s) <==> ReadLiteral(s).Some?
  {
    if ReadLiteral(s).Some? {
      ReadIsText(s);
    } else if IsNumber(s) {
      var l :| WellFormed(l) && Text(l) == s;
      TextIsRead(l);
    }
  }

  // ---- reading and printing numbers ----

  /** A number, or one of the values that are not finite. */
  datatype Num = Finite(value: Decimal) | NotFinite

  const ZERO := Decimal(false, 0, 0)

  function ExponentValue(e: Option<Exponent>): int
    requires e.Some? ==> WellFormedExponent(e.value)
  {
    if e.None? then 0
    else if e.value.sign == "-" then -(NatOf(e.value.digits) as int)
    else NatOf(e.value.digits)
  }

  /** The exact decimal a literal denotes. */
  function Exact(l: Literal): (d: Decimal)
    requires WellFormed(l)
    ensures Normal(d)
  {
    var fraction := if l.fraction.None? then "" else l.fraction.value;
    Normalized(l.sign == "-", NatOf(l.whole + fraction), ExponentValue(l.exponent) - |fraction|)
  }

  /** The number nearest to a decimal, none when it overflows to an infinity. */
  type Rounding = Decimal -> Option<Decimal>

  /** What any double prints: at most 17 significant digits, in the exponent range of doubles. */
  predicate Short(d: Decimal) {
    Normal(d) && |DigitsOf(d.mantissa)| <= 17 && -400 <= d.exp <= 400
  }

  /** `d` is a number of the language. */
  predicate IsDouble(round: Rounding, d: Decimal) { Short(d) && round(d) == Some(d) }

  /** Rounding yields numbers and leaves numbers alone. */
  ghost predicate Rounds(round: Rounding) {
    && IsDouble(round, ZERO)
    && forall d | Normal(d) && round(d).Some? :: IsDouble(round, round(d).value)
  }

  /** `Number(s)`. */
  function ReadNumber(round: Rounding, s: string): Num {
    var l := ReadLiteral(s);
    if l.None? then NotFinite
    else
      ReadIsText(s);
      var v := round(Exact(l.value));
      if v.None? then NotFinite else Finite(v.value)
  }

  function Unsigned(d: Decimal): Decimal {
    if d.mantissa == 0 then ZERO else d
  }

  /** The literal `toString` prints. Both zeros print as `0`. */
  function Print(d: Decimal): Literal {
    var sign := if d.neg then "-" else "";
    var digits := DigitsOf(d.mantissa);
    var n := |digits| + d.exp;
    if d.mantissa == 0 then Literal("", "0", None, None)
    else if d.exp >= 0 && n <= 21 then Plain(sign, digits, d.exp)
    else if d.exp < 0 && 0 < n <= 21 then Fixed(sign, digits, n)
    else if d.exp < 0 && -6 < n <= 0 then Small(sign, digits, -n)
    else Scientific(sign, digits, n - 1)
  }

  function Plain(sign: string, digits: string, zeros: nat): Literal {
    Literal(sign, digits + Zeros(zeros), None, None)
  }

  function Fixed(sign: string, digits: string, n: nat): Literal
    requires n <= |digits|
  {
    Literal(sign, digits[..n], Some(digits[n..]), None)
  }

  function Small(sign: string, digits: string, zeros: nat): Literal {
    Literal(sign, "0", Some(Zeros(zeros) + digits), None)
  }

  function ExponentOf(e: int): Exponent {
    if e >= 0 then Exponent('e', "+", DigitsOf(e)) else Exponent('e', "-", DigitsOf(-e))
  }

  function Scientific(sign: string, digits: string, e: int): Literal
    requires digits != ""
  {
    Literal(sign, digits[..1], if |digits| == 1 then None else Some(digits[1..]), Some(ExponentOf(e)))
  }

  function ToText(d: Decimal): string { Text(Print(d)) }

  ghost predicate Denotes(l: Literal, d: Decimal) { WellFormed(l) && Exact(l) == d }

  predicate SignOf(sign: string, d: Decimal) { sign == if d.neg then "-" else "" }

  /** Wherever the point goes, the digits and the exponent add up to the same decimal. */
  lemma {:induction false} PointIsExact(l: Literal, d: Decimal, z: nat)
    requires WellFormed(l) && Normal(d) && d.mantissa != 0 && SignOf(l.sign, d)
    requires l.fraction.Some?
    requires l.whole + l.fraction.value == Zeros(z) + DigitsOf(d.mantissa)
    requires ExponentValue(l.exponent) - |l.fraction.value| == d.exp
    ensures Denotes(l, d)
  {
    DigitsRoundTrip(d.mantissa);
    LeadingZeros(z, DigitsOf(d.mantissa));
  }

  lemma WholeIsExact(l: Literal, d: Decimal)
    requires WellFormed(l) && Normal(d) && d.mantissa != 0 && SignOf(l.sign, d)
    requires l.fraction.None? && 0 <= d.exp - ExponentValue(l.exponent)
    requires l.whole == DigitsOf(d.mantissa) + Zeros(d.exp - ExponentValue(l.exponent))
    ensures Denotes(l, d)
  {
    DigitsRoundTrip(d.mantissa);
    TrailingZeros(d.neg, DigitsOf(d.mantissa), d.exp - ExponentValue(l.exponent), ExponentValue(l.exponent));
    assert l.whole + "" == l.whole;
  }

  lemma PlainIsExact(sign: string, d: Decimal)
    requires Normal(d) && d.mantissa != 0 && SignOf(sign, d) && d.exp >= 0
    ensures Denotes(Plain(sign, DigitsOf(d.mantissa), d.exp), d)
  {
    WholeIsExact(Plain(sign, DigitsOf(d.mantissa), d.exp), d);
  }

  lemma FixedIsExact(sign: string, d: Decimal)
    requires Normal(d) && d.mantissa != 0 && SignOf(sign, d)
    requires d.exp < 0 < |DigitsOf(d.mantissa)| + d.exp
    ensures Denotes(Fixed(sign, DigitsOf(d.mantissa), |DigitsOf(d.mantissa)| + d.exp), d)
  {
    var digits := DigitsOf(d.mantissa);
    Halves(digits, |digits| + d.exp);
    assert Zeros(0) + digits == digits;
    PointIsExact(Fixed(sign, digits, |digits| + d.exp), d, 0);
  }

  lemma SmallIsExact(sign: string, d: Decimal)
    requires Normal(d) && d.mantissa != 0 && SignOf(sign, d)
    requires |DigitsOf(d.mantissa)| + d.exp <= 0
    ensures Denotes(Small(sign, DigitsOf(d.mantissa), -(|DigitsOf(d.mantissa)| + d.exp)), d)
  {
    var digits := DigitsOf(d.mantissa);
    var z: nat := -(|digits| + d.exp);
    assert "0" + (Zeros(z) + digits) == Zeros(z + 1) + digits by {
      assert "0" + Zeros(z) == Zeros(z + 1);
      assert "0" + (Zeros(z) + digits) == ("0" + Zeros(z)) + digits;
    }
    PointIsExact(Small(sign, digits, z), d, z + 1);
  }

  lemma ExponentIsExact(e: int)
    ensures WellFormedExponent(ExponentOf(e)) && ExponentValue(Some(ExponentOf(e))) == e
  {
    DigitsRoundTrip(if e >= 0 then e else -e);
  }

  lemma ScientificIsExact(sign: string, d: Decimal)
    requires Normal(d) && d.mantissa != 0 && SignOf(sign, d)
    ensures Denotes(Scientific(sign, DigitsOf(d.mantissa), |DigitsOf(d.mantissa)| + d.exp - 1), d)
  {
    var digits := DigitsOf(d.mantissa);
    var e := |digits| + d.exp - 1;
    var l := Scientific(sign, digits, e);
    ExponentIsExact(e);
    if |digits| == 1 {
      assert l.whole == digits == digits + Zeros(0);
      WholeIsExact(l, d);
    } else {
      assert l.whole + l.fraction.value == Zeros(0) + digits by {
        Halves(digits, 1);
        assert Zeros(0) + digits == digits;
      }
      PointIsExact(l, d, 0);
    }
  }

  lemma ZeroIsExact()
    ensures Denotes(Literal("", "0", None, None), ZERO)
  {
    assert "0" + "" == "0" && NatOf("0") == 0;
  }

  lemma PointedIsExact(sign: string, d: Decimal)
    requires Normal(d) && d.mantissa != 0 && SignOf(sign, d)
    requires d.exp < 0 || |DigitsOf(d.mantissa)| + d.exp > 21
    ensures Denotes(Print(d), d)
  {
    var n := |DigitsOf(d.mantissa)| + d.exp;
    if d.exp < 0 && 0 < n <= 21 {
      FixedIsExact(sign, d);
    } else if d.exp < 0 && -6 < n <= 0 {
      SmallIsExact(sign, d);
    } else {
      ScientificIsExact(sign, d);
    }
  }

  /** Printing loses nothing but the sign of zero. */
  lemma PrintIsExact(d: Decimal)
    requires Normal(d)
    ensures WellFormed(Print(d)) && Exact(Print(d)) == Unsigned(d)
  {
    var sign := if d.neg then "-" else "";
    var n := |DigitsOf(d.mantissa)| + d.exp;
    if d.mantissa == 0 {
      ZeroIsExact();
    } else if d.exp >= 0 && n <= 21 {
      PlainIsExact(sign, d);
    } else {
      PointedIsExact(sign, d);
    }
    assert Denotes(Print(d), Unsigned(d));
  }

  /** Which notation is printed, for a number of `k` digits whose point stands after digit `n`: plain from a
      millionth up to below ten to the 21, with just as many places as there are digits behind the point and
      a single zero before it if there is none; and otherwise one digit, the others behind the point, and the
      signed exponent `n - 1`. */
  lemma NotationIs(d: Decimal)
    requires Normal(d) && d.mantissa != 0
    ensures var l := Print(d);
            var k := |DigitsOf(d.mantissa)|;
            var n := k + d.exp;
            && l.sign == (if d.neg then "-" else "")
            && if -5 <= n <= 21 then
                 && l.exponent == None && (if n >= 1 then |l.whole| == n else l.whole == "0")
                 && (if d.exp >= 0 then l.fraction == None else l.fraction != None && |l.fraction.value| == -d.exp)
               else
                 && l.exponent != None && l.exponent.value.mark == 'e'
                 && l.exponent.value.sign == (if n >= 1 then "+" else "-")
                 && NatOf(l.exponent.value.digits) == (if n >= 1 then n - 1 else 1 - n)
                 && |l.whole| == 1
                 && (if k == 1 then l.fraction == None else l.fraction != None && |l.fraction.value| == k - 1)
  {
    var n := |DigitsOf(d.mantissa)| + d.exp;
    if n >= 1 { DigitsRoundTrip(n - 1); } else { DigitsRoundTrip(1 - n); }
  }

  /** Reading what is printed gives the number back, negative zero as zero. */
  lemma NumberRoundTrip(round: Rounding, d: Decimal)
    requires Rounds(round) && IsDouble(round, d)
    ensures ReadNumber(round, ToText(d)) == Finite(Unsigned(d))
  {
    PrintIsExact(d);
    TextIsRead(Print(d));
  }

  /** The text of a number has at most 25 characters. */
  lemma TextIsShort(d: Decimal)
    requires Short(d)
    ensures |ToText(d)| <= 25
  {
    var n := |DigitsOf(d.mantissa)| + d.exp;
    if n - 1 >= 0 { ThreeDigits(n - 1); } else { ThreeDigits(1 - n); }
  }

  lemma {:induction false} ThreeDigits(n: nat)
    requires n <= 999
    ensures |DigitsOf(n)| <= 3
  {
    assert n >= 10 ==> |DigitsOf(n / 10)| <= 2 by {
      assert n >= 100 ==> |DigitsOf(n / 10 / 10)| == 1;
    }
  }

  /** The hypotheses on rounding can be met. */
  lemma SomeRoundingRounds()
    ensures Rounds(d => if Short(d) then Some(d) else None)
  {
    assert Short(ZERO);
  }

  // ---- the value of a decimal ----

  lemma {:induction false} ScaledTimes(x: real, y: real, e: int, c: real)
    requires y == c * x
    ensures Scaled(y, e) == c * Scaled(x, e)
    decreases if e < 0 then -e else e
  {
    if e == 0 {
    } else if e > 0 {
      TenTimes(x, y, c);
      ScaledTimes(x * 10.0, y * 10.0, e - 1, c);
      assert Scaled(x, e) == Scaled(x * 10.0, e - 1) && Scaled(y, e) == Scaled(y * 10.0, e - 1);
    } else {
      TenTimes(x / 10.0, y / 10.0, c);
      ScaledTimes(x / 10.0, y / 10.0, e + 1, c);
      assert Scaled(x, e) == Scaled(x / 10.0, e + 1) && Scaled(y, e) == Scaled(y / 10.0, e + 1);
    }
  }

  lemma TenTimes(x: real, y: real, c: real)
    ensures y == c * x <==> y * 10.0 == c * (x * 10.0)
  {
    assert (c * x) * 10.0 == c * (x * 10.0);
  }

  /** One more in the exponent is ten times as much. */
  lemma ScaledStep(x: real, e: int)
    ensures Scaled(x, e + 1) == 10.0 * Scaled(x, e)
  {
    if e < 0 {
      ScaledTimes(x / 10.0, x, e + 1, 10.0);
      assert Scaled(x, e) == Scaled(x / 10.0, e + 1);
    } else {
      ScaledTimes(x, x * 10.0, e, 10.0);
      assert Scaled(x, e + 1) == Scaled(x * 10.0, e);
    }
  }

  /** A decimal is its signed mantissa, times ten for each one in its exponent. */
  lemma ValueIs(neg: bool, m: nat, e: int)
    ensures Value(Decimal(neg, m, 0)) == if neg then 0.0 - m as real else m as real
    ensures Value(Decimal(neg, m, e + 1)) == 10.0 * Value(Decimal(neg, m, e))
  {
    ScaledStep(if neg then -(m as real) else m as real, e);
  }

  lemma {:induction false} NormalizedValue(neg: bool, m: nat, e: int)
    ensures Value(Normalized(neg, m, e)) == Value(Decimal(neg, m, e))
  {
    if m == 0 {
      ScaledTimes(0.0, 0.0, e, 0.0);
      ScaledTimes(0.0, 0.0, 0, 0.0);
    } else if m % 10 != 0 {
    } else {
      NormalizedValue(neg, m / 10, e + 1);
      var x := if neg then -((m / 10) as real) else (m / 10) as real;
      ScaledStep(x, e);
      assert m as real == 10.0 * (m / 10) as real;
      ScaledTimes(x, if neg then -(m as real) else m as real, e, 10.0);
    }
  }

  /** The exact value of a literal: its digits, signed, with as many decimal places as the fraction is
      long, moved by the exponent. */
  lemma LiteralValue(l: Literal)
    requires WellFormed(l)
    ensures var fraction := if l.fraction == None then "" else l.fraction.value;
            var shift := if l.exponent == None then 0
                         else (if l.exponent.value.sign == "-" then -1 else 1) * NatOf(l.exponent.value.digits);
            Value(Exact(l)) == Value(Decimal(l.sign == "-", NatOf(l.whole + fraction), shift - |fraction|))
  {
    var fraction := if l.fraction == None then "" else l.fraction.value;
    NormalizedValue(l.sign == "-", NatOf(l.whole + fraction), ExponentValue(l.exponent) - |fraction|);
  }
}
