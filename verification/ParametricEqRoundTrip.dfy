/** Printing and parsing ParametricEQ text undo each other. */
module ParametricEqRoundTrip {
  import opened Rows
  import opened Decimals
  import opened Patterns
  import opened ParametricEq
  import opened ParametricEqLaws

  // ---- printed lines match their patterns ----

  lemma NumberTextFits(d: Decimal)
    requires Normal(d)
    ensures IsNumber(ToText(d)) && ToText(d) != "" && NumberChars(ToText(d))
  {
    PrintIsExact(d);
    NumbersAreNumberChars(ToText(d));
  }

  lemma WordsFit()
    ensures Fold("Preamp") == "preamp" && Fold("dB") == "db" && Fold(":") == ":" && Fold("Filter") == "filter"
    ensures Fold("Fc") == "fc" && Fold("Hz") == "hz" && Fold("Gain") == "gain" && Fold("Q") == "q" && Fold("PK") == "pk"
    ensures Fold("ON") == "on" && Fold("OFF") == "off"
  {
  }

  /** The pieces of the preamp line, in two halves. */
  lemma PreampPiecesFit(x: string)
    requires IsNumber(x)
    ensures FitsAll(PREAMP[..4], ["Preamp", "", ":", " "]) && FitsAll(PREAMP[4..], [x, " ", "dB", ""])
  {
    WordsFit();
  }

  lemma PreampPiecesJoin(x: string)
    requires IsNumber(x)
    ensures var xs := ["Preamp", "", ":", " "] + [x, " ", "dB", ""];
            FitsAll(PREAMP, xs) && Captured(PREAMP, xs) == [x]
  {
    var head, tail := ["Preamp", "", ":", " "], [x, " ", "dB", ""];
    PreampPiecesFit(x);
    Halves(PREAMP, 4);
    FitsJoin(PREAMP[..4], PREAMP[4..], head, tail);
    CapturedFour(PREAMP[..4], head);
    CapturedFour(PREAMP[4..], tail);
    CapturedJoin(PREAMP[..4], PREAMP[4..], head, tail);
  }

  lemma PreampPiecesText(x: string)
    ensures Concat(["Preamp", "", ":", " "] + [x, " ", "dB", ""]) == "Preamp: " + x + " dB"
  {
    FourTexts(KIND, "Preamp", "", ":", " ");
    FourTexts(KIND, x, " ", "dB", "");
    ConcatJoin(["Preamp", "", ":", " "], [x, " ", "dB", ""]);
    assert "Preamp" + "" + (":" + " ") == "Preamp: ";
    assert x + " " + ("dB" + "") == x + " dB";
  }

  lemma PreampLineMatches(d: Decimal)
    requires Normal(d)
    ensures PreampText(PreampLine(d)) == Some(ToText(d))
  {
    NumberTextFits(d);
    PreampPiecesJoin(ToText(d));
    PreampPiecesText(ToText(d));
    PreampIsSeparated();
    ScanFinds(PREAMP, ["Preamp", "", ":", " "] + [ToText(d), " ", "dB", ""]);
  }

  function PartsFor(number: nat, b: Band): FilterParts
    requires Printable(b)
  {
    FilterParts(["Filter", " ", DigitsOf(number), "", ":", " "],
                [if b.enabled then "ON" else "OFF", " ", "PK", " "],
                ["Fc", " ", ToText(b.frequency.value), " ", "Hz", " "],
                ["Gain", " ", ToText(b.gain.value), " ", "dB", " "],
                ["Q", " ", ToText(b.q.value), ""])
  }

  ghost predicate NormalBand(b: Band) {
    Printable(b) && Normal(b.frequency.value) && Normal(b.gain.value) && Normal(b.q.value)
  }

  lemma {:induction false} IndexFits(number: nat)
    ensures FitsAll(INDEX, ["Filter", " ", DigitsOf(number), "", ":", " "])
  {
    WordsFit();
    FitsJoin([Word("filter"), Blank1, Digits1, Blank0], [Word(":"), Blank0],
             ["Filter", " ", DigitsOf(number), ""], [":", " "]);
  }

  lemma KindFits(enabled: bool)
    ensures FitsAll(KIND, [if enabled then "ON" else "OFF", " ", "PK", " "])
  {
    WordsFit();
  }

  lemma FrequencyFits(x: string)
    requires IsNumber(x)
    ensures FitsAll(FREQUENCY, ["Fc", " ", x, " ", "Hz", " "])
  {
    WordsFit();
    FitsJoin([Word("fc"), Blank1], [Number1, Blank1, Word("hz"), Blank1], ["Fc", " "], [x, " ", "Hz", " "]);
  }

  lemma GainFits(x: string)
    requires IsNumber(x)
    ensures FitsAll(GAIN, ["Gain", " ", x, " ", "dB", " "])
  {
    WordsFit();
    FitsJoin([Word("gain"), Blank1], [Number1, Blank1, Word("db"), Blank1], ["Gain", " "], [x, " ", "dB", " "]);
  }

  lemma QualityFits(x: string)
    requires IsNumber(x)
    ensures FitsAll(QUALITY, ["Q", " ", x, ""])
  {
    WordsFit();
  }

  lemma PartsForFit(number: nat, b: Band)
    requires NormalBand(b)
    ensures PartsFor(number, b).Fit()
  {
    NumberTextFits(b.frequency.value);
    NumberTextFits(b.gain.value);
    NumberTextFits(b.q.value);
    IndexFits(number);
    KindFits(b.enabled);
    FrequencyFits(ToText(b.frequency.value));
    GainFits(ToText(b.gain.value));
    QualityFits(ToText(b.q.value));
  }

  lemma SixTexts(ps: seq<Piece>, a: string, b: string, c: string, d: string, e: string, f: string)
    requires |ps| == 6
    ensures Concat([a, b, c, d, e, f]) == a + b + (c + d + (e + f))
  {
    CapturedSix(ps, [a, b, c, d, e, f]);
  }

  lemma FourTexts(ps: seq<Piece>, a: string, b: string, c: string, d: string)
    requires |ps| == 4
    ensures Concat([a, b, c, d]) == a + b + (c + d)
  {
    CapturedFour(ps, [a, b, c, d]);
  }

  lemma IndexText(n: string)
    ensures Concat(["Filter", " ", n, "", ":", " "]) == "Filter " + n + ": "
  {
    SixTexts(INDEX, "Filter", " ", n, "", ":", " ");
  }

  lemma KindText(on: string)
    ensures Concat([on, " ", "PK", " "]) == on + " PK "
  {
    FourTexts(KIND, on, " ", "PK", " ");
  }

  lemma FieldTexts(f: string, g: string, q: string)
    ensures Concat(["Fc", " ", f, " ", "Hz", " "]) == "Fc " + f + " Hz "
    ensures Concat(["Gain", " ", g, " ", "dB", " "]) == "Gain " + g + " dB "
    ensures Concat(["Q", " ", q, ""]) == "Q " + q
  {
    SixTexts(FREQUENCY, "Fc", " ", f, " ", "Hz", " ");
    SixTexts(GAIN, "Gain", " ", g, " ", "dB", " ");
    FourTexts(QUALITY, "Q", " ", q, "");
  }

  lemma PartsForJoin(number: nat, b: Band)
    requires NormalBand(b)
    ensures Concat(PartsFor(number, b).All()) == BandLine(number, b)
  {
    var n, on, f, g, q := DigitsOf(number), if b.enabled then "ON" else "OFF",
                          ToText(b.frequency.value), ToText(b.gain.value), ToText(b.q.value);
    PartsForFit(number, b);
    PartsFit(PartsFor(number, b));
    IndexText(n);
    KindText(on);
    FieldTexts(f, g, q);
    LineJoin(n, on, f, g, q);
  }

  lemma LineJoin(n: string, on: string, f: string, g: string, q: string)
    ensures ("Filter " + n + ": ") + ((on + " PK ") + (("Fc " + f + " Hz ") + (("Gain " + g + " dB ") + ("Q " + q))))
            == "Filter " + n + ": " + on + " PK Fc " + f + " Hz Gain " + g + " dB Q " + q
  {
    assert " PK " + "Fc " == " PK Fc " && " Hz " + "Gain " == " Hz Gain " && " dB " + "Q " == " dB Q ";
  }

  lemma {:induction false} BandLineMatches(number: nat, b: Band)
    requires NormalBand(b)
    ensures FilterGroups(BandLine(number, b))
            == Some(FilterText(DigitsOf(number), if b.enabled then "ON" else "OFF", "PK",
                               ToText(b.frequency.value), ToText(b.gain.value), ToText(b.q.value)))
  {
    var p := PartsFor(number, b);
    PartsForFit(number, b);
    PartsForJoin(number, b);
    PartsFit(p);
    PartsCapture(p);
    FilterIsSeparated();
    ScanFinds(FILTER, p.All());
  }

  // ---- printed lines survive splitting and trimming ----

  /** Printable ASCII. */
  predicate Plain(s: string) { forall i | 0 <= i < |s| :: ' ' <= s[i] <= '~' }

  /** A plain line that trimming leaves alone and that is no comment. */
  predicate PlainLine(s: string) {
    && Plain(s) && s != "" && |s| <= 111
    && s[0] != ' ' && s[0] != '#' && s[0] != ';' && s[|s| - 1] != ' '
  }

  lemma NumberCharsArePlain(x: string)
    requires NumberChars(x)
    ensures Plain(x) && forall i | 0 <= i < |x| :: x[i] != ' '
  {
  }

  lemma {:induction false} SplitLine(l: string, rest: string)
    requires Plain(l)
    ensures Lines(l + ("\n" + rest)) == [l] + Lines(rest)
  {
    var s := l + ("\n" + rest);
    if l == "" {
      assert s == "\n" + rest && s[1..] == rest;
    } else {
      assert s[1..] == l[1..] + ("\n" + rest);
      SplitLine(l[1..], rest);
      assert [s[0]] + l[1..] == l;
    }
  }

  lemma {:induction false} SplitLines(ls: seq<string>)
    requires ls != [] && forall i | 0 <= i < |ls| :: Plain(ls[i])
    ensures Lines(Join(ls) + "\n") == ls + [""]
  {
    assert Lines("") == [""];
    if |ls| == 1 {
      SplitLine(ls[0], "");
      assert Join(ls) + "\n" == ls[0] + ("\n" + "");
    } else {
      SplitLines(ls[1..]);
      SplitLine(ls[0], Join(ls[1..]) + "\n");
      assert Join(ls) + "\n" == ls[0] + ("\n" + (Join(ls[1..]) + "\n"));
      assert ls == [ls[0]] + ls[1..];
    }
  }

  lemma TrimmedAlready(s: string)
    requires PlainLine(s)
    ensures Trim(s) == s && !Skipped(s)
  {
  }

  lemma {:induction false} BytesJoin(a: string, b: string)
    ensures ByteLength(a + b) == ByteLength(a) + ByteLength(b)
  {
    if a == "" {
      assert a + b == b;
    } else {
      BytesJoin(a[1..], b);
      assert (a + b)[1..] == a[1..] + b;
    }
  }

  lemma {:induction false} PlainBytes(s: string)
    requires Plain(s)
    ensures ByteLength(s) == |s|
  {
    if s == "" {
    } else {
      PlainBytes(s[1..]);
    }
  }

  lemma {:induction false} BytesOfLines(ls: seq<string>)
    requires forall i | 0 <= i < |ls| :: PlainLine(ls[i])
    ensures ByteLength(Join(ls)) <= 112 * |ls|
  {
    if ls == [] {
    } else {
      PlainBytes(ls[0]);
      if |ls| > 1 {
        BytesOfLines(ls[1..]);
        BytesJoin(ls[0] + "\n", Join(ls[1..]));
        BytesJoin(ls[0], "\n");
        assert "\n"[1..] == "" && ByteLength("\n") == 1;
      }
    }
  }

  ghost predicate ShortBand(b: Band) {
    Printable(b) && Short(b.frequency.value) && Short(b.gain.value) && Short(b.q.value)
  }

  /** The text of a number: short, plain, and not ending in a blank. */
  predicate PlainValue(x: string) {
    Plain(x) && x != "" && x[|x| - 1] != ' ' && |x| <= 25
  }

  lemma PlainNumber(d: Decimal)
    requires Short(d)
    ensures PlainValue(ToText(d))
  {
    NumberTextFits(d);
    NumberCharsArePlain(ToText(d));
    TextIsShort(d);
  }

  lemma PreampLineIsPlain(d: Decimal)
    requires Short(d)
    ensures PlainLine(PreampLine(d))
  {
    PlainNumber(d);
    PreampTextIsPlain(ToText(d));
  }

  lemma PreampTextIsPlain(x: string)
    requires PlainValue(x)
    ensures PlainLine("Preamp: " + x + " dB")
  {
    var s := "Preamp: " + x;
    assert Plain(s) && |s| <= 33 && s[0] == 'P';
  }

  lemma BandLineIsPlain(number: nat, b: Band)
    requires ShortBand(b) && number <= 99
    ensures PlainLine(BandLine(number, b))
  {
    PlainNumber(b.frequency.value);
    PlainNumber(b.gain.value);
    PlainNumber(b.q.value);
    TwoDigits(number);
    BandTextIsPlain(DigitsOf(number), if b.enabled then "ON" else "OFF",
                    ToText(b.frequency.value), ToText(b.gain.value), ToText(b.q.value));
  }

  lemma {:induction false} TwoDigits(n: nat)
    requires n <= 99
    ensures |DigitsOf(n)| <= 2 && Plain(DigitsOf(n))
  {
    assert n >= 10 ==> |DigitsOf(n / 10)| == 1;
  }

  lemma BandTextIsPlain(n: string, on: string, f: string, g: string, q: string)
    requires Plain(n) && |n| <= 2 && (on == "ON" || on == "OFF") && PlainValue(f) && PlainValue(g) && PlainValue(q)
    ensures PlainLine("Filter " + n + ": " + on + " PK Fc " + f + " Hz Gain " + g + " dB Q " + q)
  {
    var a := "Filter " + n + ": " + on;
    var b := a + " PK Fc " + f;
    var c := b + " Hz Gain " + g;
    var d := c + " dB Q " + q;
    assert Plain(a) && |a| <= 14 && a[0] == 'F';
    assert Plain(b) && |b| <= 46 && b[0] == 'F';
    assert Plain(c) && |c| <= 80 && c[0] == 'F';
    assert Plain(d) && |d| <= 111 && d[0] == 'F' && d[|d| - 1] == q[|q| - 1];
  }

  // ---- round trips ----

  ghost predicate InRange(round: Rounding, v: Num, range: Range) {
    v.Finite? && IsDouble(round, v.value) && Within(v.value, range)
  }

  ghost predicate ValidBand(round: Rounding, b: Band) {
    && b.kind == "peaking" && InRange(round, b.frequency, FREQUENCY_HZ)
    && InRange(round, b.gain, GAIN_DB) && InRange(round, b.q, QUALITY_Q)
  }

  /** A profile within all limits. The positions of its bands do not matter. */
  ghost predicate ValidProfile(round: Rounding, preamp: Num, bands: seq<Band>) {
    && InRange(round, preamp, PREAMP_DB) && 1 <= |bands| <= MAX_BANDS
    && forall i | 0 <= i < |bands| :: ValidBand(round, bands[i])
  }

  /** Negative zero becomes zero. */
  function Clean(v: Num): Num {
    if v.Finite? then Finite(Unsigned(v.value)) else v
  }

  function Renumbered(b: Band, position: nat): Band {
    Band(position, b.enabled, b.kind, Clean(b.frequency), Clean(b.gain), Clean(b.q))
  }

  function AllRenumbered(bands: seq<Band>): (r: seq<Band>)
    ensures |r| == |bands| && forall i | 0 <= i < |r| :: r[i] == Renumbered(bands[i], i + 1)
  {
    seq(|bands|, i requires 0 <= i < |bands| => Renumbered(bands[i], i + 1))
  }

  lemma CheckedRoundTrip(round: Rounding, v: Num, range: Range, line: nat)
    requires Rounds(round) && InRange(round, v, range)
    ensures Checked(round, ToText(v.value), range, line) == Ok(Unsigned(v.value))
  {
    NumberRoundTrip(round, v.value);
    ZeroCounts(v.value, range);
  }

  lemma ZeroCounts(d: Decimal, range: Range)
    requires Normal(d)
    ensures Within(Unsigned(d), range) <==> Within(d, range)
  {
  }

  lemma PreampItemIs(round: Rounding, preamp: Num)
    requires Rounds(round) && InRange(round, preamp, PREAMP_DB)
    ensures ItemOf(round, Trim(PreampLine(preamp.value))) == Preamp(Unsigned(preamp.value))
  {
    PreampLineIsPlain(preamp.value);
    TrimmedAlready(PreampLine(preamp.value));
    PreampLineMatches(preamp.value);
    CheckedRoundTrip(round, preamp, PREAMP_DB, 0);
  }

  lemma ReadBandIs(round: Rounding, b: Band, f: FilterText)
    requires Rounds(round) && ValidBand(round, b)
    requires f.frequency == ToText(b.frequency.value) && f.gain == ToText(b.gain.value) && f.q == ToText(b.q.value)
    requires Fold(f.enabled) == "on" <==> b.enabled
    ensures ReadBand(round, 0, f, 0) == Ok(Renumbered(b, 0))
  {
    CheckedRoundTrip(round, b.frequency, FREQUENCY_HZ, 0);
    CheckedRoundTrip(round, b.gain, GAIN_DB, 0);
    CheckedRoundTrip(round, b.q, QUALITY_Q, 0);
  }

  lemma {:induction false} FilterItemIs(round: Rounding, number: nat, b: Band, f: FilterText)
    requires Rounds(round) && ValidBand(round, b) && 1 <= number <= MAX_BANDS
    requires f == FilterText(DigitsOf(number), if b.enabled then "ON" else "OFF", "PK",
                             ToText(b.frequency.value), ToText(b.gain.value), ToText(b.q.value))
    ensures FilterItem(round, f) == Filter(number, Renumbered(b, 0))
  {
    WordsFit();
    ReadBandIs(round, b, f);
    DigitsRoundTrip(number);
  }

  lemma BandItemIs(round: Rounding, number: nat, b: Band)
    requires Rounds(round) && ValidBand(round, b) && 1 <= number <= MAX_BANDS
    ensures ItemOf(round, Trim(BandLine(number, b))) == Filter(number, Renumbered(b, 0))
  {
    var line := BandLine(number, b);
    BandLineIsPlain(number, b);
    TrimmedAlready(line);
    BandLineMatches(number, b);
    KindsAreDisjoint(line);
    FilterItemIs(round, number, b, FilterGroups(line).value);
  }

  lemma {:induction false} LineAt(preamp: Decimal, bands: seq<Band>, n: nat, i: nat)
    requires i <= n <= |bands| && AllPrintable(bands, n)
    ensures SerializedLines(preamp, bands, n)[i] == if i == 0 then PreampLine(preamp) else BandLine(i, bands[i - 1])
  {
    if i >= n {
    } else {
      LineAt(preamp, bands, n - 1, i);
    }
  }

  /** The printed text: its size and its lines. */
  lemma {:induction false} SerializedIs(round: Rounding, preamp: Decimal, bands: seq<Band>)
    requires ValidProfile(round, Finite(preamp), bands) && AllPrintable(bands, |bands|)
    ensures var lines := SerializedLines(preamp, bands, |bands|);
            && Normalize(Serialized(preamp, bands)) == lines + [""]
            && ByteLength(Serialized(preamp, bands)) <= 112 * (|bands| + 1) + 1
  {
    var lines := SerializedLines(preamp, bands, |bands|);
    PreampLineIsPlain(preamp);
    forall i | 0 <= i < |lines| ensures PlainLine(lines[i]) {
      LineAt(preamp, bands, |bands|, i);
      if i > 0 {
        assert ValidBand(round, bands[i - 1]);
        BandLineIsPlain(i, bands[i - 1]);
      }
    }
    SplitLines(lines);
    BytesOfLines(lines);
    BytesJoin(Join(lines), "\n");
    assert "\n"[1..] == "" && ByteLength("\n") == 1;
    StartsPlain(lines);
  }

  lemma {:induction false} StartsPlain(ls: seq<string>)
    requires ls != [] && PlainLine(ls[0])
    ensures Join(ls) + "\n" != "" && (Join(ls) + "\n")[0] != '\U{FEFF}'
  {
    assert (Join(ls) + "\n")[0] == ls[0][0];
  }

  /** What the printed lines say. */
  lemma {:induction false} ItemsOfSerialized(round: Rounding, preamp: Decimal, bands: seq<Band>, i: nat)
    requires Rounds(round) && ValidProfile(round, Finite(preamp), bands) && i <= |bands| + 1
    requires AllPrintable(bands, |bands|)
    ensures Items(round, SerializedLines(preamp, bands, |bands|) + [""])[i]
            == if i == 0 then Preamp(Unsigned(preamp))
               else if i <= |bands| then Filter(i, Renumbered(bands[i - 1], 0))
               else Comment
  {
    if i == 0 {
      LineAt(preamp, bands, |bands|, 0);
      PreampItemIs(round, Finite(preamp));
    } else if i <= |bands| {
      LineAt(preamp, bands, |bands|, i);
      BandItemIs(round, i, bands[i - 1]);
    }
  }

  /** The items of a printed profile. */
  ghost predicate PrintedItems(items: seq<Item>, preamp: Decimal, bands: seq<Band>) {
    && |items| == |bands| + 2 && items[0] == Preamp(Unsigned(preamp)) && items[|bands| + 1] == Comment
    && forall i | 1 <= i <= |bands| :: items[i] == Filter(i, Renumbered(bands[i - 1], 0))
  }

  lemma {:induction false} PrintedBands(items: seq<Item>, preamp: Decimal, bands: seq<Band>, n: nat)
    requires PrintedItems(items, preamp, bands) && n <= |bands|
    ensures |BandsOf(items, n + 1)| == n && PreampOf(items, n + 1) == Some(Unsigned(preamp))
    ensures forall i | 0 <= i < n :: BandsOf(items, n + 1)[i] == Renumbered(bands[i], i + 1)
  {
    if n > 0 {
      PrintedBands(items, preamp, bands, n - 1);
      assert items[n] == Filter(n, Renumbered(bands[n - 1], 0));
    } else {
      assert BandsOf(items, 0) == [];
    }
  }

  lemma PrintedIsGood(items: seq<Item>, preamp: Decimal, bands: seq<Band>)
    requires PrintedItems(items, preamp, bands)
    ensures Good(items, |items|)
  {
    forall i | 0 <= i < |items| ensures items[i].Preamp? ==> i == 0 {
      if 1 <= i <= |bands| { assert items[i] == Filter(i, Renumbered(bands[i - 1], 0)); }
    }
    forall i | 0 <= i < |items| && items[i].Filter? ensures items[i].number == i {
      if 1 <= i <= |bands| { assert items[i] == Filter(i, Renumbered(bands[i - 1], 0)); }
    }
  }

  lemma {:induction false} PrintedSummary(items: seq<Item>, preamp: Decimal, bands: seq<Band>)
    requires PrintedItems(items, preamp, bands)
    ensures BandsOf(items, |items|) == AllRenumbered(bands)
    ensures PreampOf(items, |items|) == Some(Unsigned(preamp))
  {
    PrintedBands(items, preamp, bands, |bands|);
    assert BandsOf(items, |items|) == BandsOf(items, |bands| + 1);
  }

  lemma ValidIsPrintable(round: Rounding, preamp: Num, bands: seq<Band>)
    requires ValidProfile(round, preamp, bands)
    ensures AllPrintable(bands, |bands|)
  {
    forall i | 0 <= i < |bands| ensures Printable(bands[i]) { assert ValidBand(round, bands[i]); }
  }

  lemma {:induction false} SerializedItems(round: Rounding, preamp: Decimal, bands: seq<Band>)
    requires Rounds(round) && ValidProfile(round, Finite(preamp), bands) && AllPrintable(bands, |bands|)
    ensures PrintedItems(Items(round, SerializedLines(preamp, bands, |bands|) + [""]), preamp, bands)
  {
    ItemsOfSerialized(round, preamp, bands, 0);
    ItemsOfSerialized(round, preamp, bands, |bands| + 1);
    forall i | 1 <= i <= |bands|
      ensures Items(round, SerializedLines(preamp, bands, |bands|) + [""])[i] == Filter(i, Renumbered(bands[i - 1], 0))
    {
      ItemsOfSerialized(round, preamp, bands, i);
    }
  }

  /** Printing a valid profile and parsing the text succeeds and gives back its preamp and bands:
      numbered 1..n, a negative zero as zero, and with no warning. */
  lemma SerializeParseRoundTrip(round: Rounding, preamp: Num, bands: seq<Band>)
    requires Rounds(round) && ValidProfile(round, preamp, bands)
    ensures AllPrintable(bands, |bands|)
    ensures Parse(round, Serialized(preamp.value, bands))
            == Ok(Parsed(Clean(preamp), AllRenumbered(bands), false))
  {
    ValidIsPrintable(round, preamp, bands);
    var items := Items(round, SerializedLines(preamp.value, bands, |bands|) + [""]);
    SerializedIs(round, preamp.value, bands);
    SerializedItems(round, preamp.value, bands);
    PrintedIsGood(items, preamp.value, bands);
    PrintedSummary(items, preamp.value, bands);
    AcceptsExactly(round, Serialized(preamp.value, bands));
  }

  /** A value the parser returns: in range, and not a negative zero. */
  ghost predicate Read(round: Rounding, v: Num, range: Range) {
    InRange(round, v, range) && Clean(v) == v
  }

  lemma CheckedIsRead(round: Rounding, source: string, range: Range, line: nat)
    requires Rounds(round) && Checked(round, source, range, line).Ok?
    ensures Read(round, Finite(Checked(round, source, range, line).value), range)
  {
    var l := ReadLiteral(source).value;
    ReadIsText(source);
    var v := round(Exact(l)).value;
    assert IsDouble(round, v);
    ZeroCounts(v, range);
  }

  ghost predicate ReadBandOk(round: Rounding, b: Band) {
    && b.kind == "peaking" && Read(round, b.frequency, FREQUENCY_HZ)
    && Read(round, b.gain, GAIN_DB) && Read(round, b.q, QUALITY_Q)
  }

  lemma FilterItemIsRead(round: Rounding, f: FilterText)
    requires Rounds(round) && Digits(f.number)
    ensures FilterItem(round, f).Filter? ==> ReadBandOk(round, FilterItem(round, f).band)
  {
    if FilterItem(round, f).Filter? {
      CheckedIsRead(round, f.frequency, FREQUENCY_HZ, 0);
      CheckedIsRead(round, f.gain, GAIN_DB, 0);
      CheckedIsRead(round, f.q, QUALITY_Q, 0);
    }
  }

  ghost predicate ReadItem(round: Rounding, item: Item) {
    && (item.Preamp? ==> Read(round, Finite(item.value), PREAMP_DB))
    && (item.Filter? ==> ReadBandOk(round, item.band))
  }

  lemma ItemIsRead(round: Rounding, line: string)
    requires Rounds(round)
    ensures ReadItem(round, ItemOf(round, line))
  {
    if PreampText(line).Some? {
      if ItemOf(round, line).Preamp? { CheckedIsRead(round, PreampText(line).value, PREAMP_DB, 0); }
    } else if FilterGroups(line).Some? {
      FilterItemIsRead(round, FilterGroups(line).value);
    }
  }

  lemma {:induction false} BandsAreRead(round: Rounding, items: seq<Item>, n: nat)
    requires n <= |items| && forall i | 0 <= i < n :: ReadItem(round, items[i])
    ensures forall i | 0 <= i < |BandsOf(items, n)| :: ReadBandOk(round, BandsOf(items, n)[i])
    ensures PreampOf(items, n).Some? ==> Read(round, Finite(PreampOf(items, n).value), PREAMP_DB)
  {
    if n == 0 {
    } else {
      BandsAreRead(round, items, n - 1);
      assert ReadItem(round, items[n - 1]);
    }
  }

  /** What the parser returns: a valid profile of 1 to 32 bands, numbered 1..n, with no negative
      zero. */
  lemma ParsedIsValid(round: Rounding, input: string)
    requires Rounds(round) && Parse(round, input).Ok?
    ensures var p := Parse(round, input).value;
            && ValidProfile(round, p.preamp, p.bands) && Clean(p.preamp) == p.preamp
            && AllRenumbered(p.bands) == p.bands
  {
    var items := Items(round, Normalize(input));
    forall i | 0 <= i < |items| ensures ReadItem(round, items[i]) {
      ItemIsRead(round, Trim(Normalize(input)[i]));
    }
    BandsAreRead(round, items, |items|);
    AcceptsExactly(round, input);
    ZeroIsInRange(round);
    var p := Parse(round, input).value;
    forall i | 0 <= i < |p.bands|
      ensures ValidBand(round, p.bands[i]) && Renumbered(p.bands[i], i + 1) == p.bands[i]
    {
      assert ReadBandOk(round, p.bands[i]);
    }
  }

  lemma ZeroIsInRange(round: Rounding)
    requires Rounds(round)
    ensures Read(round, Finite(ZERO), PREAMP_DB)
  {
    assert Value(PREAMP_DB.min) == -30.0 && Value(PREAMP_DB.max) == 12.0;
  }

  /** For every accepted text, printing what it says and parsing that gives the same profile. */
  lemma ParseSerializeParse(round: Rounding, input: string)
    requires Rounds(round) && Parse(round, input).Ok?
    ensures var p := Parse(round, input).value;
            && p.preamp.Finite? && AllPrintable(p.bands, |p.bands|)
            && Parse(round, Serialized(p.preamp.value, p.bands)) == Ok(p.(missingPreamp := false))
  {
    var p := Parse(round, input).value;
    ParsedIsValid(round, input);
    SerializeParseRoundTrip(round, p.preamp, p.bands);
  }

  lemma {:induction false} SameLines(a: Decimal, xs: seq<Band>, b: Decimal, ys: seq<Band>, n: nat)
    requires n <= |xs| == |ys| && AllPrintable(xs, n) && AllPrintable(ys, n)
    requires Unsigned(a) == Unsigned(b)
    requires forall i | 0 <= i < n :: ys[i] == Renumbered(xs[i], i + 1)
    ensures SerializedLines(a, xs, n) == SerializedLines(b, ys, n)
  {
    if n == 0 {
    } else {
      SameLines(a, xs, b, ys, n - 1);
      assert ys[n - 1] == Renumbered(xs[n - 1], n);
    }
  }

  /** The text is canonical: printing what was parsed from it gives the same text. */
  lemma PrintingIsCanonical(round: Rounding, preamp: Num, bands: seq<Band>)
    requires Rounds(round) && ValidProfile(round, preamp, bands)
    ensures AllPrintable(bands, |bands|)
    ensures var text := Serialized(preamp.value, bands);
            var p := Parse(round, text);
            p.Ok? && AllPrintable(p.value.bands, |p.value.bands|) && p.value.preamp.Finite?
            && Serialized(p.value.preamp.value, p.value.bands) == text
  {
    SerializeParseRoundTrip(round, preamp, bands);
    var p := Parse(round, Serialized(preamp.value, bands)).value;
    ParsedIsValid(round, Serialized(preamp.value, bands));
    ValidIsPrintable(round, p.preamp, p.bands);
    SameLines(preamp.value, bands, p.preamp.value, p.bands, |bands|);
  }
}
