/** The text of an audio signature (`JSON.stringify` in app/src/equalizer/dsp.ts): distinct arrays are
    written differently, so equal texts mean equal sound. */
module SignatureText {
  import opened Rows
  import N = Decimals
  import opened EqualizerBank

  // ---- numbers ----

  /** A number as the language has them: its shortest round-trip decimal is its exact value. */
  ghost predicate IsDecimal(x: real) {
    exists d :: N.Normal(d) && N.Value(d) == x
  }

  ghost function DecimalOf(x: real): (d: N.Decimal)
    ensures N.Normal(d) && (IsDecimal(x) ==> N.Value(d) == x)
  {
    if IsDecimal(x) then var d :| N.Normal(d) && N.Value(d) == x; d else N.Decimal(false, 0, 0)
  }

  lemma ValueIgnoresZeroSign(d: N.Decimal)
    requires N.Normal(d)
    ensures N.Value(N.Unsigned(d)) == N.Value(d)
  {
  }

  lemma NumberTextIsInjective(x: real, y: real)
    requires IsDecimal(x) && IsDecimal(y) && N.ToText(DecimalOf(x)) == N.ToText(DecimalOf(y))
    ensures x == y
  {
    var a, b := DecimalOf(x), DecimalOf(y);
    N.PrintIsExact(a);
    N.PrintIsExact(b);
    N.TextIsRead(N.Print(a));
    N.TextIsRead(N.Print(b));
    ValueIgnoresZeroSign(a);
    ValueIgnoresZeroSign(b);
  }

  predicate NumberChar(c: char) {
    N.Digit(c) || c in {'+', '-', '.', 'e', 'E'}
  }

  predicate NumberChars(s: string) { forall i | 0 <= i < |s| :: NumberChar(s[i]) }

  lemma CharsJoin(a: string, b: string)
    requires NumberChars(a) && NumberChars(b)
    ensures NumberChars(a + b)
  {
  }

  lemma LiteralChars(l: N.Literal)
    requires N.WellFormed(l)
    ensures N.Text(l) != "" && NumberChars(N.Text(l))
  {
    assert NumberChars(l.sign) && NumberChars(l.whole);
    var fraction, exponent := N.FractionText(l.fraction), N.ExponentText(l.exponent);
    if l.fraction.Some? { CharsJoin(".", l.fraction.value); }
    if l.exponent.Some? {
      CharsJoin(l.exponent.value.sign, l.exponent.value.digits);
      CharsJoin([l.exponent.value.mark], l.exponent.value.sign + l.exponent.value.digits);
    }
    CharsJoin(fraction, exponent);
    CharsJoin(l.whole, fraction + exponent);
    CharsJoin(l.sign, N.AfterSign(l));
  }

  lemma NumberTextIs(d: N.Decimal)
    requires N.Normal(d)
    ensures N.ToText(d) != "" && NumberChars(N.ToText(d))
  {
    N.PrintIsExact(d);
    LiteralChars(N.Print(d));
  }

  // ---- strings ----

  function HexDigit(n: nat): char
    requires n < 16
  {
    if n < 10 then '0' + n as char else 'a' + (n - 10) as char
  }

  /** One character inside a JSON string (section 25.5.2.3 of ECMA-262). */
  function Escaped(c: char): (s: string)
    ensures s != "" && s[0] != '"'
  {
    if c == '"' then ['\\', '"']
    else if c == '\\' then ['\\', '\\']
    else if c == '\U{8}' then ['\\', 'b']
    else if c == '\t' then ['\\', 't']
    else if c == '\n' then ['\\', 'n']
    else if c == '\U{c}' then ['\\', 'f']
    else if c == '\r' then ['\\', 'r']
    else if c < ' ' then ['\\', 'u', '0', '0', HexDigit(c as int / 16), HexDigit(c as int % 16)]
    else [c]
  }

  lemma HexDigitsDiffer(a: nat, b: nat)
    requires a < 32 && b < 32
    requires HexDigit(a / 16) == HexDigit(b / 16) && HexDigit(a % 16) == HexDigit(b % 16)
    ensures a == b
  {
    assert a == 16 * (a / 16) + a % 16 && b == 16 * (b / 16) + b % 16;
  }

  lemma EscapedIsPrefixFree(c: char, d: char, s: string, t: string)
    requires Escaped(c) + s == Escaped(d) + t
    ensures c == d && s == t
  {
    var x, y := Escaped(c) + s, Escaped(d) + t;
    assert x[0] == Escaped(c)[0] && y[0] == Escaped(d)[0];
    if |Escaped(c)| > 1 && |Escaped(d)| > 1 {
      assert x[1] == Escaped(c)[1] && y[1] == Escaped(d)[1];
      assert |Escaped(c)| == |Escaped(d)|;
      if |Escaped(c)| == 6 {
        assert x[4] == Escaped(c)[4] && y[4] == Escaped(d)[4];
        assert x[5] == Escaped(c)[5] && y[5] == Escaped(d)[5];
        HexDigitsDiffer(c as int, d as int);
      }
    }
    assert |Escaped(c)| == |Escaped(d)|;
    assert x[|Escaped(c)|..] == s && y[|Escaped(d)|..] == t;
  }

  function Body(s: string): string {
    if s == "" then "" else Escaped(s[0]) + Body(s[1..])
  }

  lemma {:induction false} BodyStarts(x: string, s: string)
    ensures (Body(x) + (['"'] + s))[0] == '"' <==> x == ""
  {
    if x != "" { assert (Body(x) + (['"'] + s))[0] == Escaped(x[0])[0]; }
  }

  lemma Regroup(a: string, b: string, c: string)
    ensures (a + b) + c == a + (b + c)
  {
  }

  lemma {:induction false} BodyUnfolds(x: string, s: string)
    requires x != ""
    ensures Body(x) + (['"'] + s) == Escaped(x[0]) + (Body(x[1..]) + (['"'] + s))
  {
    Regroup(Escaped(x[0]), Body(x[1..]), ['"'] + s);
  }

  lemma {:induction false} BodyIsInjective(x: string, y: string, s: string, t: string)
    requires Body(x) + (['"'] + s) == Body(y) + (['"'] + t)
    ensures x == y && s == t
  {
    BodyStarts(x, s);
    BodyStarts(y, t);
    if x == "" {
      assert Body(x) + (['"'] + s) == ['"'] + s && Body(y) + (['"'] + t) == ['"'] + t;
      SameTail(['"'], s, t);
    } else {
      BodyUnfolds(x, s);
      BodyUnfolds(y, t);
      EscapedIsPrefixFree(x[0], y[0], Body(x[1..]) + (['"'] + s), Body(y[1..]) + (['"'] + t));
      BodyIsInjective(x[1..], y[1..], s, t);
      Uncons(x);
      Uncons(y);
    }
  }

  lemma Uncons<T>(s: seq<T>)
    requires s != []
    ensures s == [s[0]] + s[1..]
  {
  }

  lemma SameTail(x: string, s: string, t: string)
    requires x + s == x + t
    ensures s == t
  {
    assert (x + s)[|x|..] == s && (x + t)[|x|..] == t;
  }

  // ---- values ----

  ghost predicate Printable(j: Json)
    decreases j
  {
    match j
    case JNum(x) => IsDecimal(x)
    case JArray(items) => forall i | 0 <= i < |items| :: Printable(items[i])
    case _ => true
  }

  ghost function Text(j: Json): string
    decreases j
  {
    match j
    case JNull => "null"
    case JBool(flag) => if flag then "true" else "false"
    case JNum(x) => N.ToText(DecimalOf(x))
    case JText(s) => ['"'] + (Body(s) + ['"'])
    case JArray(items) => ['['] + (ItemsText(items) + [']'])
  }

  ghost function ItemsText(items: seq<Json>): string
    decreases items
  {
    if items == [] then "" else Text(items[0]) + More(items)
  }

  ghost function More(items: seq<Json>): string
    requires items != []
    decreases items, 0
  {
    if |items| == 1 then "" else [','] + ItemsText(items[1..])
  }

  // ---- no two values are written alike ----

  /** What may follow a value: nothing, or a comma or closing bracket. */
  predicate Delimited(s: string) { s == "" || s[0] == ',' || s[0] == ']' }

  /** The first character tells the kinds of value apart. */
  predicate Starts(j: Json, c: char) {
    match j
    case JNull => c == 'n'
    case JBool(flag) => c == if flag then 't' else 'f'
    case JNum(_) => NumberChar(c)
    case JText(_) => c == '"'
    case JArray(_) => c == '['
  }

  lemma {:induction false} TextStarts(j: Json)
    ensures Text(j) != "" && Starts(j, Text(j)[0])
  {
    if j.JNum? { NumberTextIs(DecimalOf(j.value)); }
  }

  lemma NotShorter(x: string, y: string, s: string, t: string)
    requires NumberChars(y) && Delimited(s) && x + s == y + t
    ensures |x| >= |y|
  {
    assert forall k | 0 <= k < |y| :: (y + t)[k] == y[k] && NumberChar(y[k]);
    assert s != "" ==> (x + s)[|x|] == s[0] && !NumberChar(s[0]);
  }

  lemma NumbersEnd(x: string, y: string, s: string, t: string)
    requires NumberChars(x) && NumberChars(y) && Delimited(s) && Delimited(t) && x + s == y + t
    ensures x == y && s == t
  {
    NotShorter(x, y, s, t);
    NotShorter(y, x, t, s);
    assert (x + s)[..|x|] == x && (y + t)[..|y|] == y;
    SameTail(x, s, t);
  }

  lemma {:induction false} TextUnfolds(s: string, rest: string)
    ensures Text(JText(s)) + rest == ['"'] + (Body(s) + (['"'] + rest))
  {
    Regroup(['"'], Body(s) + ['"'], rest);
    Regroup(Body(s), ['"'], rest);
  }

  lemma {:induction false} ArrayUnfolds(items: seq<Json>, rest: string)
    ensures Text(JArray(items)) + rest == ['['] + (ItemsText(items) + ([']'] + rest))
  {
    Regroup(['['], ItemsText(items) + [']'], rest);
    Regroup(ItemsText(items), [']'], rest);
  }

  /** Two values written at the start of one text are the same value. */
  lemma {:induction false} TextIsInjective(a: Json, b: Json, s: string, t: string)
    requires Printable(a) && Printable(b) && Delimited(s) && Delimited(t) && Text(a) + s == Text(b) + t
    ensures a == b && s == t
    decreases a
  {
    SameKind(a, b, s, t);
    match a
    case JNull => SameTail("null", s, t);
    case JBool(_) => SameTail(Text(a), s, t);
    case JNum(_) => NumsAreInjective(a, b, s, t);
    case JText(x) =>
      TextUnfolds(x, s);
      TextUnfolds(b.text, t);
      SameTail(['"'], Body(x) + (['"'] + s), Body(b.text) + (['"'] + t));
      BodyIsInjective(x, b.text, s, t);
    case JArray(items) =>
      ArrayUnfolds(items, s);
      ArrayUnfolds(b.items, t);
      SameTail(['['], ItemsText(items) + ([']'] + s), ItemsText(b.items) + ([']'] + t));
      ItemsAreInjective(items, b.items, s, t);
  }

  lemma {:induction false} NumsAreInjective(a: Json, b: Json, s: string, t: string)
    requires a.JNum? && b.JNum? && Printable(a) && Printable(b) && Delimited(s) && Delimited(t)
    requires Text(a) + s == Text(b) + t
    ensures a == b && s == t
  {
    NumberTextIs(DecimalOf(a.value));
    NumberTextIs(DecimalOf(b.value));
    NumbersEnd(Text(a), Text(b), s, t);
    NumberTextIsInjective(a.value, b.value);
  }

  lemma {:induction false} SameKind(a: Json, b: Json, s: string, t: string)
    requires Text(a) + s == Text(b) + t
    ensures a.JNull? <==> b.JNull?
    ensures a.JBool? <==> b.JBool?
    ensures a.JNum? <==> b.JNum?
    ensures a.JText? <==> b.JText?
    ensures a.JArray? <==> b.JArray?
    ensures a.JBool? && b.JBool? ==> a.flag == b.flag
  {
    TextStarts(a);
    TextStarts(b);
    assert Text(a)[0] == (Text(a) + s)[0] == (Text(b) + t)[0] == Text(b)[0];
  }

  lemma {:induction false} ItemsAreInjective(xs: seq<Json>, ys: seq<Json>, s: string, t: string)
    requires forall i | 0 <= i < |xs| :: Printable(xs[i])
    requires forall i | 0 <= i < |ys| :: Printable(ys[i])
    requires ItemsText(xs) + ([']'] + s) == ItemsText(ys) + ([']'] + t)
    ensures xs == ys && s == t
    decreases xs
  {
    ItemsStart(xs, s);
    ItemsStart(ys, t);
    if xs == [] {
      assert ItemsText(xs) + ([']'] + s) == [']'] + s && ItemsText(ys) + ([']'] + t) == [']'] + t;
      SameTail([']'], s, t);
    } else {
      MoreIs(xs, s);
      MoreIs(ys, t);
      TextIsInjective(xs[0], ys[0], More(xs) + ([']'] + s), More(ys) + ([']'] + t));
      if |xs| == 1 {
        SameTail([']'], s, t);
      } else {
        SameTail([','], ItemsText(xs[1..]) + ([']'] + s), ItemsText(ys[1..]) + ([']'] + t));
        ItemsAreInjective(xs[1..], ys[1..], s, t);
      }
      Uncons(xs);
      Uncons(ys);
    }
  }

  /** What follows the first item. */
  lemma {:induction false} MoreIs(xs: seq<Json>, s: string)
    requires xs != []
    ensures ItemsText(xs) + ([']'] + s) == Text(xs[0]) + (More(xs) + ([']'] + s))
    ensures Delimited(More(xs) + ([']'] + s))
    ensures (More(xs) + ([']'] + s))[0] == ']' <==> |xs| == 1
    ensures |xs| == 1 ==> More(xs) + ([']'] + s) == [']'] + s
    ensures |xs| > 1 ==> More(xs) + ([']'] + s) == [','] + (ItemsText(xs[1..]) + ([']'] + s))
  {
    Regroup(Text(xs[0]), More(xs), [']'] + s);
    if |xs| > 1 { Regroup([','], ItemsText(xs[1..]), [']'] + s); }
  }

  lemma {:induction false} ItemsStart(xs: seq<Json>, s: string)
    ensures (ItemsText(xs) + ([']'] + s))[0] == ']' <==> xs == []
  {
    if xs != [] {
      TextStarts(xs[0]);
      assert (ItemsText(xs) + ([']'] + s))[0] == Text(xs[0])[0];
    }
  }

  // ---- the signature as a text ----

  ghost function SignatureText(s: Signature): string {
    if s.FlatSignature? then "flat" else Text(s.json)
  }

  ghost predicate DecimalNum(n: Num) { n.Finite? ==> IsDecimal(n.value) }

  /** Every number of the profile is a number of the language. */
  ghost predicate DecimalProfile(p: Profile) {
    && DecimalNum(p.formatVersion) && DecimalNum(p.preampDb)
    && forall i | 0 <= i < |p.bands| ::
         var b := p.bands[i];
         DecimalNum(b.position) && DecimalNum(b.frequencyHz) && DecimalNum(b.gainDb) && DecimalNum(b.q)
  }

  lemma WholeIsDecimal(n: nat)
    ensures IsDecimal(n as real)
  {
    N.NormalizedValue(false, n, 0);
    assert N.Value(N.Normalized(false, n, 0)) == n as real;
  }

  lemma BandIsPrintable(b: Band)
    requires DecimalNum(b.position) && DecimalNum(b.frequencyHz) && DecimalNum(b.gainDb) && DecimalNum(b.q)
    ensures Printable(BandJson(b))
  {
  }

  lemma ProfileIsPrintable(p: Profile)
    requires DecimalProfile(p)
    ensures Printable(ProfileJson(p))
  {
    forall i | 0 <= i < |p.bands| ensures Printable(BandsJson(p.bands)[i]) { BandIsPrintable(p.bands[i]); }
    assert Printable(JArray(BandsJson(p.bands)));
  }

  lemma SignatureIsPrintable(r: Request)
    requires r.profile.Some? ==> DecimalProfile(r.profile.value)
    ensures AudioSignature(r).Audible? ==> AudioSignature(r).json.JArray? && Printable(AudioSignature(r).json)
  {
    WholeIsDecimal(Percent(r.bass));
    WholeIsDecimal(Percent(r.treble));
    if r.profile.Some? { ProfileIsPrintable(r.profile.value); }
  }

  /** Two requests have one signature text exactly if they have one signature. */
  lemma SameTextSameSignature(a: Request, b: Request)
    requires a.profile.Some? ==> DecimalProfile(a.profile.value)
    requires b.profile.Some? ==> DecimalProfile(b.profile.value)
    ensures SignatureText(AudioSignature(a)) == SignatureText(AudioSignature(b))
            <==> AudioSignature(a) == AudioSignature(b)
  {
    var s, t := AudioSignature(a), AudioSignature(b);
    SignatureIsPrintable(a);
    SignatureIsPrintable(b);
    if SignatureText(s) == SignatureText(t) {
      if s.Audible? { TextStarts(s.json); }
      if t.Audible? { TextStarts(t.json); }
      assert s.Audible? <==> SignatureText(s)[0] == '[';
      assert t.Audible? <==> SignatureText(t)[0] == '[';
      if s.Audible? {
        assert Text(s.json) + "" == Text(t.json) + "";
        TextIsInjective(s.json, t.json, "", "");
      }
    }
  }

  /** Soundness of the signature as the text it is: normalized requests with one text get one and the
      same plan, on every device. */
  lemma SameTextSamePlan(d: Device, a: Request, b: Request)
    requires a.Normalized() && b.Normalized()
    requires a.profile.Some? ==> DecimalProfile(a.profile.value)
    requires b.profile.Some? ==> DecimalProfile(b.profile.value)
    requires SignatureText(AudioSignature(a)) == SignatureText(AudioSignature(b))
    ensures PlanFor(d, a) == PlanFor(d, b)
  {
    SameTextSameSignature(a, b);
    SignatureIsSound(d, a, b);
  }
}
