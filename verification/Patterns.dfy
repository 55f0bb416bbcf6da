/** The two line patterns of the ParametricEQ parser (app/src/equalizer/format.ts:8-13), as lists of
    pieces, and a scanner for them that never backtracks. */
module Patterns {
  import opened Rows
  import opened Decimals

  /** The white space and line terminators of ECMA-262 (sections 12.2 and 12.3). */
  predicate Space(c: char) {
    var u := c as int;
    || 0x09 <= u <= 0x0D || u == 0x20 || u == 0xA0 || u == 0x1680 || 0x2000 <= u <= 0x200A
    || u == 0x2028 || u == 0x2029 || u == 0x202F || u == 0x205F || u == 0x3000 || u == 0xFEFF
  }

  function Lower(c: char): char {
    if 'A' <= c <= 'Z' then c - 'A' + 'a' else c
  }

  function Upper(c: char): char {
    if 'a' <= c <= 'z' then c - 'a' + 'A' else c
  }

  function Fold(s: string): (f: string)
    ensures |f| == |s| && forall i | 0 <= i < |s| :: f[i] == Lower(s[i])
  {
    seq(|s|, i requires 0 <= i < |s| => Lower(s[i]))
  }

  lemma LowerOf(c: char)
    ensures Space(c) ==> Lower(c) == c
    ensures c == Lower(c) || c == Upper(Lower(c))
  {
  }

  /** A piece of a pattern: a word matched without regard to case, `\s*`, `\s+`, or one of the
      capturing groups `(\d+)`, `(NUMBER)`, `(\S+)` and `(ON|OFF)`. */
  datatype Piece = Word(text: string) | Blank0 | Blank1 | Digits1 | Number1 | Token | Switch {
    predicate Captures() { Digits1? || Number1? || Token? || Switch? }
    predicate Blank() { Blank0? || Blank1? }
  }

  predicate NumberChar(c: char) { Digit(c) || c == '.' || c == 'e' || c == 'E' || c == '+' || c == '-' }

  /** The characters a run of this piece is made of. */
  predicate Alphabet(p: Piece, c: char) {
    match p
    case Word(_) => false
    case Blank0 => Space(c)
    case Blank1 => Space(c)
    case Digits1 => Digit(c)
    case Number1 => NumberChar(c)
    case Token => !Space(c)
    case Switch => !Space(c)
  }

  /** What a piece matches, all by itself. */
  ghost predicate Fits(p: Piece, x: string) {
    match p
    case Word(text) => Fold(x) == text
    case Blank0 => forall i | 0 <= i < |x| :: Space(x[i])
    case Blank1 => x != "" && forall i | 0 <= i < |x| :: Space(x[i])
    case Digits1 => x != "" && Digits(x)
    case Number1 => IsNumber(x)
    case Token => x != "" && forall i | 0 <= i < |x| :: !Space(x[i])
    case Switch => Fold(x) == "on" || Fold(x) == "off"
  }

  ghost predicate FitsAll(ps: seq<Piece>, xs: seq<string>) {
    |xs| == |ps| && forall i | 0 <= i < |ps| :: Fits(ps[i], xs[i])
  }

  function Concat(xs: seq<string>): string {
    if xs == [] then "" else xs[0] + Concat(xs[1..])
  }

  function Captured(ps: seq<Piece>, xs: seq<string>): seq<string>
    requires |xs| == |ps|
  {
    if ps == [] then [] else Group(ps[0], xs[0]) + Captured(ps[1..], xs[1..])
  }

  function Group(p: Piece, x: string): seq<string> {
    if p.Captures() then [x] else []
  }

  /** The pattern matches the whole of `s` with these groups, in some way or other. */
  ghost predicate Matches(ps: seq<Piece>, s: string, groups: seq<string>) {
    exists xs :: FitsAll(ps, xs) && Concat(xs) == s && Captured(ps, xs) == groups
  }

  // ---- the scanner ----

  function Span(p: Piece, s: string): (n: nat)
    ensures n <= |s| && (forall i | 0 <= i < n :: Alphabet(p, s[i])) && (n < |s| ==> !Alphabet(p, s[n]))
  {
    if s == "" || !Alphabet(p, s[0]) then 0 else 1 + Span(p, s[1..])
  }

  /** `Fits` for a run of the piece's own characters. */
  predicate RunFits(p: Piece, x: string) {
    match p
    case Number1 => ReadLiteral(x).Some?
    case Switch => Fold(x) == "on" || Fold(x) == "off"
    case Blank0 => true
    case _ => x != ""
  }

  /** Words by length, every other piece by its longest run. */
  function Scan(ps: seq<Piece>, s: string): Option<seq<string>> {
    if ps == [] then (if s == "" then Some([]) else None)
    else if ps[0].Word? then
      (var n := |ps[0].text|;
       if n <= |s| && Fold(s[..n]) == ps[0].text then Scan(ps[1..], s[n..]) else None)
    else
      var n := Span(ps[0], s);
      var rest := Scan(ps[1..], s[n..]);
      if !RunFits(ps[0], s[..n]) || rest.None? then None
      else Some(Group(ps[0], s[..n]) + rest.value)
  }

  /** The piece `q` cannot begin with a character of `p`. */
  predicate Apart(p: Piece, q: Piece) {
    if q.Word? then q.text != "" && !Alphabet(p, q.text[0]) && !Alphabet(p, Upper(q.text[0]))
    else p.Blank() != q.Blank()
  }

  /** What follows a run never begins with a character of that run, also when an optional blank
      between the two matches nothing. */
  predicate Separated(ps: seq<Piece>) {
    forall i | 0 <= i < |ps| - 1 && !ps[i].Word? ::
      && Apart(ps[i], ps[i + 1])
      && (ps[i + 1].Blank0? && i + 2 < |ps| ==> Apart(ps[i], ps[i + 2]) && !ps[i + 2].Blank0?)
  }

  predicate NumberChars(s: string) { forall i | 0 <= i < |s| :: NumberChar(s[i]) }

  lemma NumberCharsJoin(a: string, b: string)
    requires NumberChars(a) && NumberChars(b)
    ensures NumberChars(a + b)
  {
  }

  lemma NumbersAreNumberChars(x: string)
    requires IsNumber(x)
    ensures x != "" && NumberChars(x)
  {
    var l :| WellFormed(l) && Text(l) == x;
    StartsUnsigned(l);
    var f, e := FractionText(l.fraction), ExponentText(l.exponent);
    if l.fraction.Some? { NumberCharsJoin(".", l.fraction.value); }
    if l.exponent.Some? {
      var v := l.exponent.value;
      NumberCharsJoin(v.sign, v.digits);
      NumberCharsJoin([v.mark], v.sign + v.digits);
    }
    NumberCharsJoin(f, e);
    NumberCharsJoin(l.whole, f + e);
    NumberCharsJoin(l.sign, AfterSign(l));
  }

  lemma SwitchIsRun(x: string)
    requires Fold(x) == "on" || Fold(x) == "off"
    ensures forall i | 0 <= i < |x| :: !Space(x[i])
  {
    forall i | 0 <= i < |x| ensures !Space(x[i]) {
      LowerOf(x[i]);
      assert Fold(x)[i] == Lower(x[i]);
    }
  }

  /** A fitting text is a run of the piece's characters, and the run fits. */
  lemma FitsIsRun(p: Piece, x: string)
    requires !p.Word?
    ensures Fits(p, x) <==> RunFits(p, x) && forall i | 0 <= i < |x| :: Alphabet(p, x[i])
  {
    if p.Number1? {
      NumbersAreRead(x);
      if IsNumber(x) { NumbersAreNumberChars(x); }
    } else if p.Switch? {
      if RunFits(p, x) { SwitchIsRun(x); }
    }
  }

  lemma {:induction false} SpanIs(p: Piece, x: string, t: string)
    requires forall i | 0 <= i < |x| :: Alphabet(p, x[i])
    requires t == "" || !Alphabet(p, t[0])
    ensures Span(p, x + t) == |x|
  {
    var n := Span(p, x + t);
    assert forall i | 0 <= i < |x| :: (x + t)[i] == x[i];
    assert t != "" ==> (x + t)[|x|] == t[0];
  }

  /** A piece apart from `p` fits no text that begins with a character of `p`. */
  lemma ApartStarts(p: Piece, q: Piece, x: string)
    requires !p.Word? && Apart(p, q) && Fits(q, x) && x != ""
    ensures !Alphabet(p, x[0])
  {
    if q.Word? {
      LowerOf(x[0]);
      assert Fold(x)[0] == Lower(x[0]) == q.text[0];
      assert x[0] == q.text[0] || x[0] == Upper(q.text[0]);
    } else {
      FitsIsRun(q, x);
    }
  }

  lemma EmptyFits(q: Piece)
    ensures Fits(q, "") && !(q.Word? && q.text == "") ==> q.Blank0?
  {
    if q.Number1? && IsNumber("") { NumbersAreNumberChars(""); }
  }

  /** The text after a run does not go on with it. */
  lemma RunEnds(ps: seq<Piece>, xs: seq<string>)
    requires ps != [] && !ps[0].Word? && Separated(ps) && FitsAll(ps, xs)
    ensures var t := Concat(xs[1..]); t == "" || !Alphabet(ps[0], t[0])
  {
    if |ps| > 1 {
      assert Apart(ps[0], ps[1]) && Fits(ps[1], xs[1]);
      EmptyFits(ps[1]);
      assert Concat(xs[1..]) == xs[1] + Concat(xs[2..]) by { assert xs[1..][1..] == xs[2..]; }
      if xs[1] != "" {
        ApartStarts(ps[0], ps[1], xs[1]);
      } else if |ps| > 2 {
        assert Apart(ps[0], ps[2]) && Fits(ps[2], xs[2]);
        EmptyFits(ps[2]);
        assert Concat(xs[2..]) == xs[2] + Concat(xs[3..]) by { assert xs[2..][1..] == xs[3..]; }
        ApartStarts(ps[0], ps[2], xs[2]);
      }
    }
  }

  lemma TailSeparated(ps: seq<Piece>)
    requires Separated(ps) && ps != []
    ensures Separated(ps[1..])
  {
    var t := ps[1..];
    forall i | 0 <= i < |t| - 1 && !t[i].Word?
      ensures Apart(t[i], t[i + 1]) && (t[i + 1].Blank0? && i + 2 < |t| ==> Apart(t[i], t[i + 2]) && !t[i + 2].Blank0?)
    {
      assert t[i] == ps[i + 1] && t[i + 1] == ps[i + 2];
      assert i + 2 < |t| ==> t[i + 2] == ps[i + 3];
      assert Apart(ps[i + 1], ps[i + 1 + 1]);
    }
  }

  lemma {:induction false} ScanFinds(ps: seq<Piece>, xs: seq<string>)
    requires Separated(ps) && FitsAll(ps, xs)
    ensures Scan(ps, Concat(xs)) == Some(Captured(ps, xs))
  {
    if ps == [] {
    } else {
      var x, t := xs[0], Concat(xs[1..]);
      assert (x + t)[..|x|] == x && (x + t)[|x|..] == t;
      TailSeparated(ps);
      assert FitsAll(ps[1..], xs[1..]);
      ScanFinds(ps[1..], xs[1..]);
      assert Fits(ps[0], x) && Concat(xs) == x + t;
      if ps[0].Word? {
        assert |ps[0].text| == |x|;
        assert Scan(ps, x + t) == Scan(ps[1..], t);
        assert Captured(ps, xs) == Captured(ps[1..], xs[1..]);
      } else {
        RunEnds(ps, xs);
        FitsIsRun(ps[0], x);
        SpanIs(ps[0], x, t);
      }
    }
  }

  lemma {:induction false} FitsCons(ps: seq<Piece>, x: string, rest: seq<string>)
    requires ps != [] && Fits(ps[0], x) && FitsAll(ps[1..], rest)
    ensures FitsAll(ps, [x] + rest) && Concat([x] + rest) == x + Concat(rest)
    ensures Captured(ps, [x] + rest) == Group(ps[0], x) + Captured(ps[1..], rest)
  {
    assert ([x] + rest)[1..] == rest;
    forall i | 0 <= i < |ps| ensures Fits(ps[i], ([x] + rest)[i]) {
      if i > 0 { assert ps[i] == ps[1..][i - 1]; }
    }
  }

  lemma {:induction false} ScanFits(ps: seq<Piece>, s: string) returns (xs: seq<string>)
    requires Scan(ps, s).Some?
    ensures FitsAll(ps, xs) && Concat(xs) == s && Captured(ps, xs) == Scan(ps, s).value
  {
    if ps == [] {
      xs := [];
    } else {
      var n := if ps[0].Word? then |ps[0].text| else Span(ps[0], s);
      var rest := ScanFits(ps[1..], s[n..]);
      if !ps[0].Word? {
        FitsIsRun(ps[0], s[..n]);
      }
      FitsCons(ps, s[..n], rest);
      xs := [s[..n]] + rest;
      Halves(s, n);
    }
  }

  /** The scanner finds a match exactly when there is one, and its groups are the only ones any
      match has: a backtracking engine can return nothing else. */
  lemma {:induction false} ScanIsMatch(ps: seq<Piece>, s: string, groups: seq<string>)
    requires Separated(ps)
    ensures Scan(ps, s) == Some(groups) <==> Matches(ps, s, groups)
  {
    if Matches(ps, s, groups) {
      var xs :| FitsAll(ps, xs) && Concat(xs) == s && Captured(ps, xs) == groups;
      ScanFinds(ps, xs);
    }
    if Scan(ps, s) == Some(groups) {
      var xs := ScanFits(ps, s);
    }
  }

  // ---- the patterns ----

  const PREAMP: seq<Piece> := [Word("preamp"), Blank0, Word(":"), Blank0] + [Number1, Blank0, Word("db"), Blank0]

  const INDEX: seq<Piece> := [Word("filter"), Blank1, Digits1, Blank0] + [Word(":"), Blank0]

  const KIND: seq<Piece> := [Switch, Blank1, Token, Blank1]

  const FREQUENCY: seq<Piece> := [Word("fc"), Blank1] + [Number1, Blank1, Word("hz"), Blank1]

  const GAIN: seq<Piece> := [Word("gain"), Blank1] + [Number1, Blank1, Word("db"), Blank1]

  const QUALITY: seq<Piece> := [Word("q"), Blank1, Number1, Blank0]

  const FILTER: seq<Piece> := INDEX + (KIND + (FREQUENCY + (GAIN + QUALITY)))

  /** Two separated lists can be joined when the first ends in a blank and the second does not
      begin with one. */
  lemma SeparatedJoin(a: seq<Piece>, b: seq<Piece>)
    requires Separated(a) && Separated(b) && |a| >= 2 && b != []
    requires a[|a| - 1].Blank() && Apart(a[|a| - 1], b[0]) && !b[0].Blank0?
    requires a[|a| - 1].Blank0? && !a[|a| - 2].Word? ==> Apart(a[|a| - 2], b[0])
    ensures Separated(a + b)
  {
    var c := a + b;
    forall i | 0 <= i < |c| - 1 && !c[i].Word?
      ensures Apart(c[i], c[i + 1]) && (c[i + 1].Blank0? && i + 2 < |c| ==> Apart(c[i], c[i + 2]) && !c[i + 2].Blank0?)
    {
      if i >= |a| {
        var j := i - |a|;
        assert c[i] == b[j] && c[i + 1] == b[j + 1];
        assert Apart(b[j], b[j + 1]);
      } else if i < |a| - 1 {
        assert Apart(a[i], a[i + 1]);
      }
    }
  }

  lemma WordsFollowBlanks(w: string)
    requires w != "" && !Space(w[0]) && !Space(Upper(w[0]))
    ensures Apart(Blank0, Word(w)) && Apart(Blank1, Word(w))
  {
  }

  lemma PreampIsSeparated()
    ensures Separated(PREAMP)
  {
    WordsFollowBlanks(":");
    assert Apart(Number1, Word("db")) && Apart(Blank0, Word("db"));
    SeparatedJoin([Word("preamp"), Blank0, Word(":"), Blank0], [Number1, Blank0, Word("db"), Blank0]);
  }

  lemma IndexIsSeparated()
    ensures Separated(INDEX) && INDEX[|INDEX| - 1] == Blank0 && INDEX[|INDEX| - 2] == Word(":")
  {
    assert Apart(Digits1, Word(":")) && Apart(Blank0, Word(":"));
    SeparatedJoin([Word("filter"), Blank1, Digits1, Blank0], [Word(":"), Blank0]);
  }

  lemma FrequencyIsSeparated()
    ensures Separated(FREQUENCY)
  {
    WordsFollowBlanks("hz");
    SeparatedJoin([Word("fc"), Blank1], [Number1, Blank1, Word("hz"), Blank1]);
  }

  lemma GainIsSeparated()
    ensures Separated(GAIN)
  {
    WordsFollowBlanks("db");
    SeparatedJoin([Word("gain"), Blank1], [Number1, Blank1, Word("db"), Blank1]);
  }

  lemma FilterIsSeparated()
    ensures Separated(FILTER)
  {
    IndexIsSeparated();
    FrequencyIsSeparated();
    GainIsSeparated();
    WordsFollowBlanks("fc");
    WordsFollowBlanks("gain");
    WordsFollowBlanks("q");
    SeparatedJoin(GAIN, QUALITY);
    SeparatedJoin(FREQUENCY, GAIN + QUALITY);
    SeparatedJoin(KIND, FREQUENCY + (GAIN + QUALITY));
    SeparatedJoin(INDEX, KIND + (FREQUENCY + (GAIN + QUALITY)));
  }

  // ---- what the patterns capture ----

  lemma {:induction false} ConcatJoin(xs: seq<string>, ys: seq<string>)
    ensures Concat(xs + ys) == Concat(xs) + Concat(ys)
  {
    if xs == [] {
      assert xs + ys == ys;
    } else {
      ConcatJoin(xs[1..], ys);
      assert (xs + ys)[1..] == xs[1..] + ys;
    }
  }

  lemma {:induction false} CapturedJoin(a: seq<Piece>, b: seq<Piece>, xs: seq<string>, ys: seq<string>)
    requires |a| == |xs| && |b| == |ys|
    ensures Captured(a + b, xs + ys) == Captured(a, xs) + Captured(b, ys)
  {
    if a == [] {
      assert a + b == b && xs + ys == ys;
    } else {
      CapturedJoin(a[1..], b, xs[1..], ys);
      assert (a + b)[1..] == a[1..] + b && (xs + ys)[1..] == xs[1..] + ys;
    }
  }

  lemma FitsJoin(a: seq<Piece>, b: seq<Piece>, xs: seq<string>, ys: seq<string>)
    requires |a| == |xs| && FitsAll(a, xs) && FitsAll(b, ys)
    ensures FitsAll(a + b, xs + ys)
  {
  }

  lemma FitsSplit(a: seq<Piece>, b: seq<Piece>, xs: seq<string>)
    requires FitsAll(a + b, xs)
    ensures FitsAll(a, xs[..|a|]) && FitsAll(b, xs[|a|..])
  {
    forall i | 0 <= i < |a| ensures Fits(a[i], xs[i]) {
      assert (a + b)[i] == a[i];
    }
    forall i | 0 <= i < |b| ensures Fits(b[i], xs[|a| + i]) {
      assert (a + b)[|a| + i] == b[i];
    }
  }

  lemma {:induction false} CapturedTwo(ps: seq<Piece>, xs: seq<string>)
    requires |xs| == |ps| == 2
    ensures Captured(ps, xs) == Group(ps[0], xs[0]) + Group(ps[1], xs[1])
    ensures Concat(xs) == xs[0] + xs[1]
  {
    assert Concat(xs[1..]) == xs[1] + Concat(xs[1..][1..]);
    assert Captured(ps[1..], xs[1..]) == Group(ps[1], xs[1]) + Captured(ps[1..][1..], xs[1..][1..]);
  }

  lemma {:induction false} CapturedFour(ps: seq<Piece>, xs: seq<string>)
    requires |xs| == |ps| == 4
    ensures Captured(ps, xs) == Group(ps[0], xs[0]) + Group(ps[1], xs[1]) + (Group(ps[2], xs[2]) + Group(ps[3], xs[3]))
    ensures Concat(xs) == xs[0] + xs[1] + (xs[2] + xs[3])
  {
    CapturedTwo(ps[..2], xs[..2]);
    CapturedTwo(ps[2..], xs[2..]);
    assert ps == ps[..2] + ps[2..] && xs == xs[..2] + xs[2..];
    CapturedJoin(ps[..2], ps[2..], xs[..2], xs[2..]);
    ConcatJoin(xs[..2], xs[2..]);
  }

  lemma {:induction false} CapturedSix(ps: seq<Piece>, xs: seq<string>)
    requires |xs| == |ps| == 6
    ensures Captured(ps, xs) == Group(ps[0], xs[0]) + Group(ps[1], xs[1])
                                + (Group(ps[2], xs[2]) + Group(ps[3], xs[3])
                                   + (Group(ps[4], xs[4]) + Group(ps[5], xs[5])))
    ensures Concat(xs) == xs[0] + xs[1] + (xs[2] + xs[3] + (xs[4] + xs[5]))
  {
    CapturedTwo(ps[..2], xs[..2]);
    CapturedFour(ps[2..], xs[2..]);
    assert ps == ps[..2] + ps[2..] && xs == xs[..2] + xs[2..];
    CapturedJoin(ps[..2], ps[2..], xs[..2], xs[2..]);
    ConcatJoin(xs[..2], xs[2..]);
  }

  /** The texts of one filter line, part by part. */
  datatype FilterParts = FilterParts(index: seq<string>, kind: seq<string>, frequency: seq<string>,
                                     gain: seq<string>, quality: seq<string>) {
    function All(): seq<string> { index + (kind + (frequency + (gain + quality))) }

    ghost predicate Fit() {
      && FitsAll(INDEX, index) && FitsAll(KIND, kind) && FitsAll(FREQUENCY, frequency)
      && FitsAll(GAIN, gain) && FitsAll(QUALITY, quality)
    }

    function Groups(): seq<string>
      requires |index| == 6 && |kind| == 4 && |frequency| == 6 && |gain| == 6 && |quality| == 4
    {
      [index[2], kind[0], kind[2], frequency[2], gain[2], quality[2]]
    }
  }

  lemma PartsFit(p: FilterParts)
    requires p.Fit()
    ensures FitsAll(FILTER, p.All())
    ensures Concat(p.All())
            == Concat(p.index) + (Concat(p.kind) + (Concat(p.frequency) + (Concat(p.gain) + Concat(p.quality))))
  {
    FitsJoin(GAIN, QUALITY, p.gain, p.quality);
    FitsJoin(FREQUENCY, GAIN + QUALITY, p.frequency, p.gain + p.quality);
    FitsJoin(KIND, FREQUENCY + (GAIN + QUALITY), p.kind, p.frequency + (p.gain + p.quality));
    FitsJoin(INDEX, KIND + (FREQUENCY + (GAIN + QUALITY)), p.index, p.kind + (p.frequency + (p.gain + p.quality)));
    ConcatJoin(p.gain, p.quality);
    ConcatJoin(p.frequency, p.gain + p.quality);
    ConcatJoin(p.kind, p.frequency + (p.gain + p.quality));
    ConcatJoin(p.index, p.kind + (p.frequency + (p.gain + p.quality)));
  }

  lemma PartsOf(xs: seq<string>) returns (p: FilterParts)
    requires FitsAll(FILTER, xs)
    ensures p.Fit() && p.All() == xs
  {
    FitsSplit(INDEX, KIND + (FREQUENCY + (GAIN + QUALITY)), xs);
    FitsSplit(KIND, FREQUENCY + (GAIN + QUALITY), xs[6..]);
    FitsSplit(FREQUENCY, GAIN + QUALITY, xs[6..][4..]);
    FitsSplit(GAIN, QUALITY, xs[6..][4..][6..]);
    p := FilterParts(xs[..6], xs[6..][..4], xs[6..][4..][..6], xs[6..][4..][6..][..6], xs[6..][4..][6..][6..]);
    Halves(xs, 6);
    Halves(xs[6..], 4);
    Halves(xs[6..][4..], 6);
    Halves(xs[6..][4..][6..], 6);
  }

  lemma KeyPartsCapture(p: FilterParts)
    requires p.Fit()
    ensures Captured(INDEX, p.index) == [p.index[2]]
    ensures Captured(KIND, p.kind) == [p.kind[0], p.kind[2]]
  {
    CapturedSix(INDEX, p.index);
    CapturedFour(KIND, p.kind);
  }

  lemma ValuePartsCapture(p: FilterParts)
    requires p.Fit()
    ensures Captured(FREQUENCY, p.frequency) == [p.frequency[2]]
    ensures Captured(GAIN, p.gain) == [p.gain[2]]
    ensures Captured(QUALITY, p.quality) == [p.quality[2]]
  {
    CapturedSix(FREQUENCY, p.frequency);
    CapturedSix(GAIN, p.gain);
    CapturedFour(QUALITY, p.quality);
  }

  lemma PartsCapture(p: FilterParts)
    requires p.Fit()
    ensures Captured(FILTER, p.All()) == p.Groups()
  {
    KeyPartsCapture(p);
    ValuePartsCapture(p);
    CapturedJoin(GAIN, QUALITY, p.gain, p.quality);
    CapturedJoin(FREQUENCY, GAIN + QUALITY, p.frequency, p.gain + p.quality);
    CapturedJoin(KIND, FREQUENCY + (GAIN + QUALITY), p.kind, p.frequency + (p.gain + p.quality));
    CapturedJoin(INDEX, KIND + (FREQUENCY + (GAIN + QUALITY)), p.index, p.kind + (p.frequency + (p.gain + p.quality)));
  }

  lemma PartsGroupsFit(p: FilterParts)
    requires p.Fit()
    ensures var g := p.Groups();
            && g[0] != "" && Digits(g[0]) && Fits(Switch, g[1]) && Fits(Token, g[2])
            && IsNumber(g[3]) && IsNumber(g[4]) && IsNumber(g[5])
  {
    assert Fits(INDEX[2], p.index[2]) && Fits(KIND[0], p.kind[0]) && Fits(KIND[2], p.kind[2]);
    assert Fits(FREQUENCY[2], p.frequency[2]) && Fits(GAIN[2], p.gain[2]) && Fits(QUALITY[2], p.quality[2]);
  }

  /** Every match of the filter line has six groups, each fitting its place. */
  lemma {:induction false} FilterGroupsFit(s: string, groups: seq<string>)
    requires Matches(FILTER, s, groups)
    ensures |groups| == 6 && groups[0] != "" && Digits(groups[0]) && Fits(Switch, groups[1]) && Fits(Token, groups[2])
    ensures IsNumber(groups[3]) && IsNumber(groups[4]) && IsNumber(groups[5])
  {
    var xs :| FitsAll(FILTER, xs) && Concat(xs) == s && Captured(FILTER, xs) == groups;
    var p := PartsOf(xs);
    PartsCapture(p);
    PartsGroupsFit(p);
  }

  /** Every match of the preamp line has one group, a number. */
  lemma PreampGroupFits(s: string, groups: seq<string>)
    requires Matches(PREAMP, s, groups)
    ensures |groups| == 1 && IsNumber(groups[0])
  {
    var xs :| FitsAll(PREAMP, xs) && Concat(xs) == s && Captured(PREAMP, xs) == groups;
    CapturedFour(PREAMP[..4], xs[..4]);
    CapturedFour(PREAMP[4..], xs[4..]);
    Halves(PREAMP, 4);
    Halves(xs, 4);
    CapturedJoin(PREAMP[..4], PREAMP[4..], xs[..4], xs[4..]);
    assert Fits(PREAMP[4], xs[4]);
  }
}
