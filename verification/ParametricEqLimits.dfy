/** What the ParametricEQ parser accepts, by the numbers: limits, counts and line grammar written out,
    and the error each other line raises. */
module ParametricEqLimits {
  import opened Rows
  import opened Decimals
  import opened Patterns
  import opened ParametricEq
  import opened ParametricEqLaws

  // ---- the limits ----

  /** The limits of preamp, frequency, gain and quality. */
  predicate PreampFits(p: Decimal) { -30.0 <= Value(p) <= 12.0 }

  predicate BandFits(f: Decimal, g: Decimal, q: Decimal) {
    10.0 <= Value(f) <= 20000.0 && -24.0 <= Value(g) <= 24.0 && 0.1 <= Value(q) <= 30.0
  }

  lemma RangesAre()
    ensures Value(PREAMP_DB.min) == -30.0 && Value(PREAMP_DB.max) == 12.0
    ensures Value(FREQUENCY_HZ.min) == 10.0 && Value(FREQUENCY_HZ.max) == 20000.0
    ensures Value(GAIN_DB.min) == -24.0 && Value(GAIN_DB.max) == 24.0
    ensures Value(QUALITY_Q.min) == 0.1 && Value(QUALITY_Q.max) == 30.0
  {
    assert Scaled(1.0, -1) == Scaled(0.1, 0) == 0.1;
    assert Scaled(2.0, 4) == Scaled(20.0, 3) == Scaled(200.0, 2) == Scaled(2000.0, 1) == Scaled(20000.0, 0);
    assert Scaled(3.0, 1) == Scaled(30.0, 0) && Scaled(-3.0, 1) == Scaled(-30.0, 0);
    assert Scaled(1.0, 1) == Scaled(10.0, 0);
  }

  lemma LimitsAre(d: Decimal)
    ensures Within(d, PREAMP_DB) <==> -30.0 <= Value(d) <= 12.0
    ensures Within(d, FREQUENCY_HZ) <==> 10.0 <= Value(d) <= 20000.0
    ensures Within(d, GAIN_DB) <==> -24.0 <= Value(d) <= 24.0
    ensures Within(d, QUALITY_Q) <==> 0.1 <= Value(d) <= 30.0
  {
    RangesAre();
  }

  // ---- what a line says ----

  /** Nothing, or a comment. */
  predicate SaysNothing(line: string) { |line| == 0 || line[0] in {'#', ';'} }

  ghost predicate SaysPreamp(round: Rounding, line: string, p: Decimal) {
    exists x :: Matches(PREAMP, line, [x]) && ReadNumber(round, x) == Finite(p)
  }

  /** A filter line with these texts. */
  ghost predicate SaysFilter(line: string, number: nat, on: bool, kind: string, f: string, g: string, q: string) {
    exists n, e :: Matches(FILTER, line, [n, e, kind, f, g, q]) && Digits(n) && NatOf(n) == number
                   && on == (Fold(e) == "on")
  }

  /** A preamp line within its limits. */
  ghost predicate GoodPreamp(round: Rounding, line: string, p: Decimal) {
    SaysPreamp(round, line, p) && PreampFits(p)
  }

  /** A peaking filter within its limits, under a number that is safe and not zero. */
  ghost predicate GoodFilter(round: Rounding, line: string, number: nat, on: bool, f: Decimal, g: Decimal, q: Decimal) {
    && 0 < number < 0x20_0000_0000_0000 && BandFits(f, g, q)
    && exists kind, fx, gx, qx ::
         && SaysFilter(line, number, on, kind, fx, gx, qx) && Fold(kind) == "pk"
         && ReadNumber(round, fx) == Finite(f) && ReadNumber(round, gx) == Finite(g)
         && ReadNumber(round, qx) == Finite(q)
  }

  lemma PreampSays(round: Rounding, line: string, p: Decimal)
    ensures SaysPreamp(round, line, p)
            <==> PreampText(line).Some? && ReadNumber(round, PreampText(line).value) == Finite(p)
  {
    ExecIsMatch(line);
    if PreampText(line).Some? {
      assert Matches(PREAMP, line, [PreampText(line).value]);
    }
  }

  lemma FilterSays(line: string, number: nat, on: bool, kind: string, f: string, g: string, q: string)
    ensures SaysFilter(line, number, on, kind, f, g, q)
            <==> var t := FilterGroups(line);
                 && t.Some? && NatOf(t.value.number) == number && on == (Fold(t.value.enabled) == "on")
                 && kind == t.value.kind && f == t.value.frequency && g == t.value.gain && q == t.value.q
  {
    ExecIsMatch(line);
    if FilterGroups(line).Some? {
      var t := FilterGroups(line).value;
      assert Matches(FILTER, line, t.Groups()) && t.Groups() == [t.number, t.enabled, t.kind, t.frequency, t.gain, t.q];
    }
    if SaysFilter(line, number, on, kind, f, g, q) {
      var n, e :| Matches(FILTER, line, [n, e, kind, f, g, q]) && Digits(n) && NatOf(n) == number
                  && on == (Fold(e) == "on");
      assert FilterText(n, e, kind, f, g, q).Groups() == [n, e, kind, f, g, q];
      assert FilterGroups(line) == Some(FilterText(n, e, kind, f, g, q));
    }
  }

  /** A line that says nothing is a comment. */
  lemma CommentItem(round: Rounding, line: string)
    ensures ItemOf(round, line).Comment? <==> SaysNothing(line)
  {
  }

  lemma PreampTaken(round: Rounding, x: string, v: Decimal)
    requires ReadNumber(round, x) == Finite(v)
    ensures PreampItem(round, x) == if PreampFits(v) then Preamp(Unsigned(v)) else Bad
  {
    LimitsAre(v);
  }

  /** A line is taken as a preamp exactly when it says one within the limits. */
  lemma PreampItemIs(round: Rounding, line: string, p: Decimal)
    ensures ItemOf(round, line) == Preamp(p) <==> exists v :: GoodPreamp(round, line, v) && p == Unsigned(v)
  {
    KindsAreDisjoint(line);
    forall v | GoodPreamp(round, line, v) ensures ItemOf(round, line) == Preamp(Unsigned(v)) {
      PreampSays(round, line, v);
      PreampTaken(round, PreampText(line).value, v);
    }
    if ItemOf(round, line) == Preamp(p) {
      var v := ReadNumber(round, PreampText(line).value).value;
      PreampSays(round, line, v);
      PreampTaken(round, PreampText(line).value, v);
    }
  }

  /** What a filter line within its limits gives. */
  function BandOf(on: bool, f: Decimal, g: Decimal, q: Decimal): Band {
    Band(0, on, "peaking", Finite(Unsigned(f)), Finite(Unsigned(g)), Finite(Unsigned(q)))
  }

  lemma GoodFilterSays(round: Rounding, line: string, number: nat, on: bool, f: Decimal, g: Decimal, q: Decimal)
    ensures GoodFilter(round, line, number, on, f, g, q)
            <==> var t := FilterGroups(line);
                 && t.Some? && 0 < NatOf(t.value.number) == number < 0x20_0000_0000_0000
                 && on == (Fold(t.value.enabled) == "on") && Fold(t.value.kind) == "pk" && BandFits(f, g, q)
                 && ReadNumber(round, t.value.frequency) == Finite(f) && ReadNumber(round, t.value.gain) == Finite(g)
                 && ReadNumber(round, t.value.q) == Finite(q)
  {
    if FilterGroups(line).Some? {
      var t := FilterGroups(line).value;
      FilterSays(line, number, on, t.kind, t.frequency, t.gain, t.q);
    }
    if GoodFilter(round, line, number, on, f, g, q) {
      var kind, fx, gx, qx :|
        && SaysFilter(line, number, on, kind, fx, gx, qx) && Fold(kind) == "pk"
        && ReadNumber(round, fx) == Finite(f) && ReadNumber(round, gx) == Finite(g)
        && ReadNumber(round, qx) == Finite(q);
      FilterSays(line, number, on, kind, fx, gx, qx);
    }
  }

  lemma FilterTaken(round: Rounding, t: FilterText, f: Decimal, g: Decimal, q: Decimal)
    requires Digits(t.number) && ReadNumber(round, t.frequency) == Finite(f)
    requires ReadNumber(round, t.gain) == Finite(g) && ReadNumber(round, t.q) == Finite(q)
    ensures FilterItem(round, t)
            == if 0 < NatOf(t.number) < 0x20_0000_0000_0000 && Fold(t.kind) == "pk" && BandFits(f, g, q)
               then Filter(NatOf(t.number), BandOf(Fold(t.enabled) == "on", f, g, q)) else Bad
  {
    LimitsAre(f);
    LimitsAre(g);
    LimitsAre(q);
  }

  /** A line is taken as a filter exactly when it says one within the limits. */
  lemma FilterItemIs(round: Rounding, line: string, number: nat, band: Band)
    ensures ItemOf(round, line) == Filter(number, band)
            <==> exists on, f, g, q :: GoodFilter(round, line, number, on, f, g, q) && band == BandOf(on, f, g, q)
  {
    KindsAreDisjoint(line);
    forall on, f, g, q | GoodFilter(round, line, number, on, f, g, q)
      ensures ItemOf(round, line) == Filter(number, BandOf(on, f, g, q))
    {
      GoodFilterSays(round, line, number, on, f, g, q);
      FilterTaken(round, FilterGroups(line).value, f, g, q);
    }
    if ItemOf(round, line) == Filter(number, band) {
      var t := FilterGroups(line).value;
      var f, g, q := ReadNumber(round, t.frequency), ReadNumber(round, t.gain), ReadNumber(round, t.q);
      assert f.Finite? && g.Finite? && q.Finite?;
      FilterTaken(round, t, f.value, g.value, q.value);
      GoodFilterSays(round, line, number, Fold(t.enabled) == "on", f.value, g.value, q.value);
    }
  }

  // ---- whole texts ----

  ghost predicate IsFilterLine(round: Rounding, line: string) {
    exists number, on, f, g, q :: GoodFilter(round, line, number, on, f, g, q)
  }

  ghost predicate IsPreampLine(round: Rounding, line: string) {
    exists p :: GoodPreamp(round, line, p)
  }

  lemma ItemKinds(round: Rounding, line: string)
    ensures ItemOf(round, line).Comment? <==> SaysNothing(line)
    ensures ItemOf(round, line).Preamp? <==> IsPreampLine(round, line)
    ensures ItemOf(round, line).Filter? <==> IsFilterLine(round, line)
  {
    CommentItem(round, line);
    var item := ItemOf(round, line);
    if item.Preamp? { PreampItemIs(round, line, item.value); }
    if p :| GoodPreamp(round, line, p) { PreampItemIs(round, line, Unsigned(p)); }
    if item.Filter? { FilterItemIs(round, line, item.number, item.band); }
    if number, on, f, g, q :| GoodFilter(round, line, number, on, f, g, q) {
      FilterItemIs(round, line, number, BandOf(on, f, g, q));
    }
  }

  /** The number of a filter line. */
  lemma ItemNumber(round: Rounding, line: string, number: nat)
    requires ItemOf(round, line).Filter?
    ensures ItemOf(round, line).number == number <==> exists on, f, g, q :: GoodFilter(round, line, number, on, f, g, q)
  {
    var item := ItemOf(round, line);
    FilterItemIs(round, line, item.number, item.band);
    forall on, f, g, q | GoodFilter(round, line, number, on, f, g, q) ensures item.number == number {
      FilterItemIs(round, line, number, BandOf(on, f, g, q));
    }
  }

  /** How many of the first `n` lines are filters. */
  ghost function FilterLines(round: Rounding, lines: seq<string>, n: nat): nat
    requires n <= |lines|
  {
    if n == 0 then 0
    else FilterLines(round, lines, n - 1) + if IsFilterLine(round, Trim(lines[n - 1])) then 1 else 0
  }

  lemma {:induction false} BandsAreCounted(round: Rounding, lines: seq<string>, n: nat)
    requires n <= |lines|
    ensures |BandsOf(Items(round, lines), n)| == FilterLines(round, lines, n)
  {
    if n == 0 {
    } else {
      BandsAreCounted(round, lines, n - 1);
      ItemKinds(round, Trim(lines[n - 1]));
    }
  }

  /** Two lines do not give one number twice, nor a preamp twice. */
  ghost predicate Clash(round: Rounding, a: string, b: string) {
    || (IsPreampLine(round, a) && IsPreampLine(round, b))
    || exists number, on, on', f, f', g, g', q, q' ::
         GoodFilter(round, a, number, on, f, g, q) && GoodFilter(round, b, number, on', f', g', q')
  }

  lemma ClashIs(round: Rounding, a: string, b: string)
    ensures var x, y := ItemOf(round, a), ItemOf(round, b);
            Clash(round, a, b)
            <==> (x.Preamp? && y.Preamp?) || (x.Filter? && y.Filter? && x.number == y.number)
  {
    var x, y := ItemOf(round, a), ItemOf(round, b);
    ItemKinds(round, a);
    ItemKinds(round, b);
    if x.Filter? && y.Filter? && x.number == y.number {
      ItemNumber(round, a, x.number);
      ItemNumber(round, b, x.number);
    }
    if number, on, on', f, f', g, g', q, q' :|
      GoodFilter(round, a, number, on, f, g, q) && GoodFilter(round, b, number, on', f', g', q')
    {
      ItemNumber(round, a, number);
      ItemNumber(round, b, number);
    }
  }

  /** Nothing, or a preamp or a filter within its limits. */
  ghost predicate Sayable(round: Rounding, line: string) {
    SaysNothing(line) || IsPreampLine(round, line) || IsFilterLine(round, line)
  }

  lemma GoodIs(round: Rounding, lines: seq<string>)
    ensures Good(Items(round, lines), |lines|)
            <==> && (forall i | 0 <= i < |lines| :: Sayable(round, Trim(lines[i])))
                 && (forall i, j | 0 <= i < j < |lines| :: !Clash(round, Trim(lines[i]), Trim(lines[j])))
  {
    var items := Items(round, lines);
    forall i | 0 <= i < |lines| ensures items[i].Bad? <==> !Sayable(round, Trim(lines[i])) {
      ItemKinds(round, Trim(lines[i]));
    }
    forall i, j | 0 <= i < j < |lines|
      ensures Clash(round, Trim(lines[i]), Trim(lines[j]))
              <==> (items[i].Preamp? && items[j].Preamp?)
                   || (items[i].Filter? && items[j].Filter? && items[i].number == items[j].number)
    {
      ClashIs(round, Trim(lines[i]), Trim(lines[j]));
    }
  }

  /** A text is accepted exactly when it is at most 65536 bytes and 512 lines long, every line says
      nothing or is a preamp or a filter within its limits, no two lines clash, and 1 to 32 of them are
      filters. */
  lemma {:induction false} AcceptsByTheNumbers(round: Rounding, input: string)
    ensures var lines := Normalize(input);
            Parse(round, input).Ok?
            <==> && ByteLength(input) <= 65536 && |lines| <= 512
                 && (forall i | 0 <= i < |lines| :: Sayable(round, Trim(lines[i])))
                 && (forall i, j | 0 <= i < j < |lines| :: !Clash(round, Trim(lines[i]), Trim(lines[j])))
                 && 1 <= FilterLines(round, lines, |lines|) <= 32
  {
    var lines := Normalize(input);
    AcceptsExactly(round, input);
    BandsAreCounted(round, lines, |lines|);
    GoodIs(round, lines);
  }

  // ---- lines that change nothing ----

  predicate Blanks(s: string) { forall i | 0 <= i < |s| :: Space(s[i]) }

  lemma {:induction false} TrimStartSkips(blanks: string, rest: string)
    requires Blanks(blanks) && (rest != "" ==> !Space(rest[0]))
    ensures TrimStart(blanks + rest) == rest
  {
    if blanks == "" {
      assert blanks + rest == rest;
    } else {
      assert (blanks + rest)[1..] == blanks[1..] + rest && (blanks + rest)[0] == blanks[0];
      TrimStartSkips(blanks[1..], rest);
    }
  }

  lemma {:induction false} TrimEndSkips(rest: string, blanks: string)
    requires Blanks(blanks) && (rest != "" ==> !Space(rest[|rest| - 1]))
    ensures TrimEnd(rest + blanks) == rest
  {
    if blanks == "" {
      assert rest + blanks == rest;
    } else {
      var n := |blanks| - 1;
      assert (rest + blanks)[..|rest + blanks| - 1] == rest + blanks[..n] && (rest + blanks)[|rest| + n] == blanks[n];
      TrimEndSkips(rest, blanks[..n]);
    }
  }

  /** Trimming takes away the white space on both sides, and nothing else. */
  lemma TrimIs(before: string, core: string, after: string)
    requires Blanks(before) && Blanks(after)
    requires core != "" ==> !Space(core[0]) && !Space(core[|core| - 1])
    ensures Trim(before + core + after) == core
  {
    if core == "" {
      assert before + core + after == (before + after) + "";
      TrimStartSkips(before + after, "");
    } else {
      assert before + core + after == before + (core + after);
      TrimStartSkips(before, core + after);
      TrimEndSkips(core, after);
    }
  }

  lemma {:induction false} TrimEndKeepsFirst(s: string)
    requires s != "" && !Space(s[0])
    ensures TrimEnd(s) != "" && TrimEnd(s)[0] == s[0]
  {
    if Space(s[|s| - 1]) {
      TrimEndKeepsFirst(s[..|s| - 1]);
    }
  }

  /** Blank lines, and lines whose first character that is not blank is `#` or `;`, change nothing. */
  lemma CommentsChangeNothing(round: Rounding, st: Progress, blanks: string, rest: string, lineNo: nat)
    requires Blanks(blanks) && (rest == "" || rest[0] == '#' || rest[0] == ';')
    ensures Continue(round, Ok(st), blanks + rest, lineNo) == Ok(st)
  {
    TrimStartSkips(blanks, rest);
    if rest != "" { TrimEndKeepsFirst(rest); }
  }

  // ---- the grammar of the two lines ----

  /** The word in any case. */
  predicate IsWord(x: string, word: string) { Fold(x) == word }

  predicate Gap(x: string) { x != "" && Blanks(x) }

  /** The parts of a preamp line: `Preamp`, a colon, a number, `dB`, with or without blanks between and
      after them. */
  ghost predicate PreampReads(xs: seq<string>, x: string) {
    && |xs| == 8 && IsWord(xs[0], "preamp") && Blanks(xs[1]) && xs[2] == ":" && Blanks(xs[3])
    && xs[4] == x && IsNumber(x) && Blanks(xs[5]) && IsWord(xs[6], "db") && Blanks(xs[7])
  }

  /** The parts of a filter line: `Filter` and its number, a colon, `ON` or `OFF`, the kind, and after
      `Fc`, `Gain` and `Q` the three numbers, of which the first has `Hz` and the second `dB` behind it.
      Blanks are needed everywhere but before the colon, after it, and at the end. */
  ghost predicate FilterReads(xs: seq<string>, t: FilterText) {
    && |xs| == 26
    && IsWord(xs[0], "filter") && Gap(xs[1]) && xs[2] == t.number && Blanks(xs[3]) && xs[4] == ":" && Blanks(xs[5])
    && xs[6] == t.enabled && Gap(xs[7]) && xs[8] == t.kind && Gap(xs[9])
    && IsWord(xs[10], "fc") && Gap(xs[11]) && xs[12] == t.frequency && Gap(xs[13])
    && IsWord(xs[14], "hz") && Gap(xs[15])
    && IsWord(xs[16], "gain") && Gap(xs[17]) && xs[18] == t.gain && Gap(xs[19]) && IsWord(xs[20], "db") && Gap(xs[21])
    && IsWord(xs[22], "q") && Gap(xs[23]) && xs[24] == t.q && Blanks(xs[25])
    && t.number != "" && Digits(t.number) && (IsWord(t.enabled, "on") || IsWord(t.enabled, "off"))
    && t.kind != "" && (forall i | 0 <= i < |t.kind| :: !Space(t.kind[i]))
    && IsNumber(t.frequency) && IsNumber(t.gain) && IsNumber(t.q)
  }

  lemma Colon(x: string)
    ensures Fold(x) == ":" <==> x == ":"
  {
    if Fold(x) == ":" { assert Lower(x[0]) == ':'; }
    if x == ":" { assert Fold(x) == ":"; }
  }

  lemma PreampFitsAll(xs: seq<string>)
    requires |xs| == 8
    ensures FitsAll(PREAMP, xs) <==> PreampReads(xs, xs[4])
  {
    Colon(xs[2]);
    assert PREAMP == [Word("preamp"), Blank0, Word(":"), Blank0, Number1, Blank0, Word("db"), Blank0];
    if PreampReads(xs, xs[4]) {
      forall i | 0 <= i < 8 ensures Fits(PREAMP[i], xs[i]) {}
    }
    if FitsAll(PREAMP, xs) {
      assert Fits(PREAMP[0], xs[0]) && Fits(PREAMP[1], xs[1]) && Fits(PREAMP[2], xs[2]) && Fits(PREAMP[3], xs[3]);
      assert Fits(PREAMP[4], xs[4]) && Fits(PREAMP[5], xs[5]) && Fits(PREAMP[6], xs[6]) && Fits(PREAMP[7], xs[7]);
    }
  }

  lemma {:induction false} PreampCaptured(xs: seq<string>)
    requires |xs| == 8
    ensures Captured(PREAMP, xs) == [xs[4]]
  {
    CapturedFour(PREAMP[..4], xs[..4]);
    CapturedFour(PREAMP[4..], xs[4..]);
    Halves(PREAMP, 4);
    Halves(xs, 4);
    CapturedJoin(PREAMP[..4], PREAMP[4..], xs[..4], xs[4..]);
  }

  /** The preamp pattern matches exactly the lines of this grammar, with the number as its group. */
  lemma PreampGrammar(line: string, x: string)
    ensures Matches(PREAMP, line, [x]) <==> exists xs :: PreampReads(xs, x) && Concat(xs) == line
  {
    if Matches(PREAMP, line, [x]) {
      var xs :| FitsAll(PREAMP, xs) && Concat(xs) == line && Captured(PREAMP, xs) == [x];
      PreampFitsAll(xs);
      PreampCaptured(xs);
    }
    if xs :| PreampReads(xs, x) && Concat(xs) == line {
      PreampFitsAll(xs);
      PreampCaptured(xs);
    }
  }

  lemma IndexFits(xs: seq<string>)
    requires |xs| == 6
    ensures FitsAll(INDEX, xs)
            <==> && IsWord(xs[0], "filter") && Gap(xs[1]) && xs[2] != "" && Digits(xs[2]) && Blanks(xs[3])
                 && xs[4] == ":" && Blanks(xs[5])
  {
    Colon(xs[4]);
    assert FitsAll(INDEX, xs) ==> Fits(INDEX[0], xs[0]) && Fits(INDEX[1], xs[1]) && Fits(INDEX[2], xs[2])
                                  && Fits(INDEX[3], xs[3]) && Fits(INDEX[4], xs[4]) && Fits(INDEX[5], xs[5]);
  }

  lemma KindFits(xs: seq<string>)
    requires |xs| == 4
    ensures FitsAll(KIND, xs)
            <==> && (IsWord(xs[0], "on") || IsWord(xs[0], "off")) && Gap(xs[1])
                 && xs[2] != "" && (forall i | 0 <= i < |xs[2]| :: !Space(xs[2][i])) && Gap(xs[3])
  {
    assert FitsAll(KIND, xs) ==> Fits(KIND[0], xs[0]) && Fits(KIND[1], xs[1]) && Fits(KIND[2], xs[2])
                                 && Fits(KIND[3], xs[3]);
  }

  lemma MeasureFits(ps: seq<Piece>, word: string, unit: string, xs: seq<string>)
    requires |xs| == 6 && ps == [Word(word), Blank1, Number1, Blank1, Word(unit), Blank1]
    ensures FitsAll(ps, xs)
            <==> && IsWord(xs[0], word) && Gap(xs[1]) && IsNumber(xs[2]) && Gap(xs[3])
                 && IsWord(xs[4], unit) && Gap(xs[5])
  {
    assert FitsAll(ps, xs) ==> Fits(ps[0], xs[0]) && Fits(ps[1], xs[1]) && Fits(ps[2], xs[2])
                               && Fits(ps[3], xs[3]) && Fits(ps[4], xs[4]) && Fits(ps[5], xs[5]);
  }

  lemma QualityFits(xs: seq<string>)
    requires |xs| == 4
    ensures FitsAll(QUALITY, xs) <==> IsWord(xs[0], "q") && Gap(xs[1]) && IsNumber(xs[2]) && Blanks(xs[3])
  {
    assert FitsAll(QUALITY, xs) ==> Fits(QUALITY[0], xs[0]) && Fits(QUALITY[1], xs[1]) && Fits(QUALITY[2], xs[2])
                                    && Fits(QUALITY[3], xs[3]);
  }

  function PartsAt(xs: seq<string>): FilterParts
    requires |xs| == 26
  {
    FilterParts(xs[..6], xs[6..10], xs[10..16], xs[16..22], xs[22..])
  }

  lemma PartsJoin(xs: seq<string>)
    requires |xs| == 26
    ensures PartsAt(xs).All() == xs
  {
    assert xs[16..] == xs[16..22] + xs[22..];
    assert xs[10..] == xs[10..16] + xs[16..];
    assert xs[6..] == xs[6..10] + xs[10..];
    assert xs == xs[..6] + xs[6..];
  }

  lemma PartsGroups(xs: seq<string>, t: FilterText)
    requires |xs| == 26
    requires t == FilterText(xs[2], xs[6], xs[8], xs[12], xs[18], xs[24])
    ensures PartsAt(xs).Groups() == t.Groups()
  {
  }

  /** The first ten parts, and the others. */
  ghost predicate HeadReads(xs: seq<string>, t: FilterText)
    requires |xs| == 26
  {
    && IsWord(xs[0], "filter") && Gap(xs[1]) && xs[2] == t.number && Blanks(xs[3]) && xs[4] == ":" && Blanks(xs[5])
    && t.number != "" && Digits(t.number)
    && xs[6] == t.enabled && Gap(xs[7]) && xs[8] == t.kind && Gap(xs[9])
    && (IsWord(t.enabled, "on") || IsWord(t.enabled, "off"))
    && t.kind != "" && (forall i | 0 <= i < |t.kind| :: !Space(t.kind[i]))
  }

  ghost predicate TailReads(xs: seq<string>, t: FilterText)
    requires |xs| == 26
  {
    && IsWord(xs[10], "fc") && Gap(xs[11]) && xs[12] == t.frequency && Gap(xs[13])
    && IsWord(xs[14], "hz") && Gap(xs[15])
    && IsWord(xs[16], "gain") && Gap(xs[17]) && xs[18] == t.gain && Gap(xs[19]) && IsWord(xs[20], "db") && Gap(xs[21])
    && IsWord(xs[22], "q") && Gap(xs[23]) && xs[24] == t.q && Blanks(xs[25])
    && IsNumber(t.frequency) && IsNumber(t.gain) && IsNumber(t.q)
  }

  lemma HeadFits(xs: seq<string>, t: FilterText)
    requires |xs| == 26 && t.number == xs[2] && t.enabled == xs[6] && t.kind == xs[8]
    ensures FitsAll(INDEX, xs[..6]) && FitsAll(KIND, xs[6..10]) <==> HeadReads(xs, t)
  {
    IndexFits(xs[..6]);
    KindFits(xs[6..10]);
  }

  lemma TailFits(xs: seq<string>, t: FilterText)
    requires |xs| == 26 && t.frequency == xs[12] && t.gain == xs[18] && t.q == xs[24]
    ensures FitsAll(FREQUENCY, xs[10..16]) && FitsAll(GAIN, xs[16..22]) && FitsAll(QUALITY, xs[22..])
            <==> TailReads(xs, t)
  {
    MeasureFits(FREQUENCY, "fc", "hz", xs[10..16]);
    MeasureFits(GAIN, "gain", "db", xs[16..22]);
    QualityFits(xs[22..]);
  }

  lemma PartsRead(xs: seq<string>, t: FilterText)
    requires |xs| == 26
    requires t == FilterText(xs[2], xs[6], xs[8], xs[12], xs[18], xs[24])
    ensures PartsAt(xs).Fit() <==> FilterReads(xs, t)
    ensures PartsAt(xs).All() == xs && PartsAt(xs).Groups() == t.Groups()
  {
    PartsJoin(xs);
    PartsGroups(xs, t);
    HeadFits(xs, t);
    TailFits(xs, t);
    assert FilterReads(xs, t) <==> HeadReads(xs, t) && TailReads(xs, t);
  }

  /** The filter pattern matches exactly the lines of this grammar, with these groups. */
  lemma FilterGrammar(line: string, t: FilterText)
    ensures Matches(FILTER, line, t.Groups()) <==> exists xs :: FilterReads(xs, t) && Concat(xs) == line
  {
    if Matches(FILTER, line, t.Groups()) {
      var xs :| FitsAll(FILTER, xs) && Concat(xs) == line && Captured(FILTER, xs) == t.Groups();
      var p := PartsOf(xs);
      PartsCapture(p);
      SameParts(xs, p);
      PartsRead(xs, FilterText(xs[2], xs[6], xs[8], xs[12], xs[18], xs[24]));
      assert [xs[2], xs[6], xs[8], xs[12], xs[18], xs[24]] == t.Groups();
      SameGroups(t, FilterText(xs[2], xs[6], xs[8], xs[12], xs[18], xs[24]));
    }
    if xs :| FilterReads(xs, t) && Concat(xs) == line {
      PartsRead(xs, t);
      PartsFit(PartsAt(xs));
      PartsCapture(PartsAt(xs));
    }
  }

  lemma SameParts(xs: seq<string>, p: FilterParts)
    requires p.Fit() && p.All() == xs
    ensures |xs| == 26 && PartsAt(xs) == p
  {
    assert |p.index| == 6 && |p.kind| == 4 && |p.frequency| == 6 && |p.gain| == 6 && |p.quality| == 4;
    assert xs[..6] == p.index && xs[6..] == p.kind + (p.frequency + (p.gain + p.quality));
    assert xs[6..10] == xs[6..][..4] == p.kind && xs[10..] == xs[6..][4..] == p.frequency + (p.gain + p.quality);
    assert xs[10..16] == xs[10..][..6] == p.frequency && xs[16..] == xs[10..][6..] == p.gain + p.quality;
    assert xs[16..22] == xs[16..][..6] == p.gain && xs[22..] == xs[16..][6..] == p.quality;
  }

  lemma SameGroups(t: FilterText, u: FilterText)
    requires t.Groups() == u.Groups()
    ensures t == u
  {
    var a, b := t.Groups(), u.Groups();
    assert a[0] == b[0] && a[1] == b[1] && a[2] == b[2] && a[3] == b[3] && a[4] == b[4] && a[5] == b[5];
  }

  // ---- which error ----

  /** What keeps a number text from its limits, if anything. */
  ghost predicate Faulty(round: Rounding, x: string, low: real, high: real, code: ErrorCode) {
    match ReadNumber(round, x)
    case NotFinite => code == InvalidNumber
    case Finite(v) => code == OutOfRange && !(low <= Value(v) <= high)
  }

  ghost predicate Faultless(round: Rounding, x: string, low: real, high: real) {
    forall code :: !Faulty(round, x, low, high, code)
  }

  lemma CheckedIs(round: Rounding, x: string, range: Range, low: real, high: real, line: nat)
    requires Value(range.min) == low && Value(range.max) == high
    ensures var r := Checked(round, x, range, line);
            && (forall code :: Faulty(round, x, low, high, code) <==> r == Err(code, Some(line)))
            && (Faultless(round, x, low, high) <==> r.Ok?)
  {
    var r := Checked(round, x, range, line);
    if r.Err? { assert Faulty(round, x, low, high, r.code); }
  }

  /** The error of a preamp line: a second one, or its number's. */
  ghost predicate PreampFault(round: Rounding, st: Progress, x: string, code: ErrorCode) {
    if st.preamp != None then code == DuplicatePreamp else Faulty(round, x, -30.0, 12.0, code)
  }

  /** The error of the first of a filter's numbers that has one. */
  ghost predicate NumbersFault(round: Rounding, t: FilterText, code: ErrorCode) {
    || Faulty(round, t.frequency, 10.0, 20000.0, code)
    || (Faultless(round, t.frequency, 10.0, 20000.0)
        && (|| Faulty(round, t.gain, -24.0, 24.0, code)
            || (Faultless(round, t.gain, -24.0, 24.0) && Faulty(round, t.q, 0.1, 30.0, code))))
  }

  /** The error of a filter line: the first that applies of an unsafe number or zero, a number used
      before, a kind other than `PK`, a thirty-third filter, and its numbers from left to right. */
  ghost predicate FilterFaults(round: Rounding, st: Progress, t: FilterText, code: ErrorCode)
    requires Digits(t.number)
  {
    var number := NatOf(t.number);
    if number == 0 || number >= 0x20_0000_0000_0000 then code == InvalidFilterNumber
    else if number in st.numbers then code == DuplicateFilter
    else if Fold(t.kind) != "pk" then code == UnsupportedFilter
    else if |st.bands| > 31 then code == TooManyFilters
    else NumbersFault(round, t, code)
  }

  lemma BandFaults(round: Rounding, position: nat, t: FilterText, lineNo: nat, code: ErrorCode)
    ensures ReadBand(round, position, t, lineNo) == Err(code, Some(lineNo))
            <==> NumbersFault(round, t, code)
    ensures var r := ReadBand(round, position, t, lineNo); r.Err? ==> r.line == Some(lineNo)
  {
    RangesAre();
    CheckedIs(round, t.frequency, FREQUENCY_HZ, 10.0, 20000.0, lineNo);
    CheckedIs(round, t.gain, GAIN_DB, -24.0, 24.0, lineNo);
    CheckedIs(round, t.q, QUALITY_Q, 0.1, 30.0, lineNo);
  }

  lemma FaultIs(round: Rounding, st: Progress, t: FilterText, code: ErrorCode)
    requires Digits(t.number)
    ensures var fault := FilterFault(st, NatOf(t.number), t.kind);
            FilterFaults(round, st, t, code)
            <==> if fault == None then NumbersFault(round, t, code) else fault == Some(code)
  {
  }

  lemma StepFilterFaults(round: Rounding, st: Progress, t: FilterText, lineNo: nat, code: ErrorCode)
    requires Digits(t.number)
    ensures var fault := FilterFault(st, NatOf(t.number), t.kind);
            var band := ReadBand(round, |st.bands| + 1, t, lineNo);
            var r := StepFilter(round, st, t, lineNo);
            && (fault != None ==> r == Err(fault.value, Some(lineNo)))
            && (fault == None && band.Err? ==> r == Err(band.code, band.line))
            && (fault == None && band.Ok? ==> r.Ok?)
  {
  }

  lemma FilterLineFaults(round: Rounding, st: Progress, t: FilterText, lineNo: nat, code: ErrorCode)
    requires Digits(t.number)
    ensures StepFilter(round, st, t, lineNo) == Err(code, Some(lineNo)) <==> FilterFaults(round, st, t, code)
    ensures var r := StepFilter(round, st, t, lineNo); r.Err? ==> r.line == Some(lineNo)
  {
    FaultIs(round, st, t, code);
    StepFilterFaults(round, st, t, lineNo, code);
    BandFaults(round, |st.bands| + 1, t, lineNo, code);
  }

  /** A line that begins with the word `Filter`, whatever follows it. */
  predicate BeginsFilter(line: string) {
    && |line| >= 6 && IsWord(line[..6], "filter")
    && (|line| == 6 || !(line[6] == '_' || '0' <= line[6] <= '9' || 'a' <= line[6] <= 'z' || 'A' <= line[6] <= 'Z'))
  }

  /** Every error names its line, and which one it is. */
  lemma LineFaults(round: Rounding, st: Progress, line: string, lineNo: nat, code: ErrorCode)
    ensures Step(round, st, line, lineNo).Err? ==> Step(round, st, line, lineNo).line == Some(lineNo)
    ensures var r := Step(round, st, line, lineNo);
            var preamp, filter := PreampText(line), FilterGroups(line);
            r.Err? && r.code == code
            <==> if SaysNothing(line) then false
                 else if preamp.Some? then PreampFault(round, st, preamp.value, code)
                 else if filter.Some? then FilterFaults(round, st, filter.value, code)
                 else if BeginsFilter(line) then code == UnsupportedFilter else code == UnknownLine
  {
    if PreampText(line).Some? {
      RangesAre();
      CheckedIs(round, PreampText(line).value, PREAMP_DB, -30.0, 12.0, lineNo);
    } else if FilterGroups(line).Some? {
      FilterLineFaults(round, st, FilterGroups(line).value, lineNo, code);
    }
  }

  /** The error of a text: its size first, then its number of lines, then the first line at fault, and
      last that there is no filter at all. */
  lemma {:induction false} TextFaults(round: Rounding, input: string)
    ensures var r, lines := Parse(round, input), Normalize(input);
            && (r == Err(TooLarge, None) <==> ByteLength(input) > 65536)
            && (r == Err(TooManyLines, None) <==> ByteLength(input) <= 65536 && |lines| > 512)
            && (r == Err(MissingFilters, None)
                <==> && ByteLength(input) <= 65536 && |lines| <= 512 && Run(round, lines, |lines|).Ok?
                     && Run(round, lines, |lines|).value.bands == [])
            && (r.Err? && r.line.Some? ==>
                  && 1 <= r.line.value <= |lines| && Run(round, lines, r.line.value - 1).Ok?
                  && Step(round, Run(round, lines, r.line.value - 1).value, Trim(lines[r.line.value - 1]), r.line.value)
                     == Err(r.code, r.line))
            && (r.Err? && r.line == None ==> r.code in {TooLarge, TooManyLines, MissingFilters})
  {
    var lines := Normalize(input);
    FirstFault(round, lines, |lines|);
  }

  lemma {:induction false} FirstFault(round: Rounding, lines: seq<string>, n: nat)
    requires n <= |lines|
    ensures var r := Run(round, lines, n);
            r.Err? ==> && r.line.Some? && 1 <= r.line.value <= n && Run(round, lines, r.line.value - 1).Ok?
                       && Step(round, Run(round, lines, r.line.value - 1).value, Trim(lines[r.line.value - 1]),
                               r.line.value) == Err(r.code, r.line)
  {
    if n == 0 {
    } else {
      FirstFault(round, lines, n - 1);
      var st := Run(round, lines, n - 1);
      if st.Ok? { LineFaults(round, st.value, Trim(lines[n - 1]), n, UnknownLine); }
    }
  }

  // ---- characters ----

  /** White space: the five controls from the tab on, the spaces, the two separators, and the mark. */
  lemma SpacesAre(c: char)
    ensures Space(c)
            <==> c in {'\t', '\n', '\U{b}', '\U{c}', '\r', ' ',
                       '\U{a0}', '\U{1680}', '\U{2000}', '\U{2001}', '\U{2002}', '\U{2003}',
                       '\U{2004}', '\U{2005}', '\U{2006}', '\U{2007}', '\U{2008}', '\U{2009}',
                       '\U{200a}', '\U{2028}', '\U{2029}', '\U{202f}', '\U{205f}', '\U{3000}',
                       '\U{feff}'}
  {
  }

  /** Case matters for the twenty-six letters only. */
  lemma LettersFold(c: char)
    ensures Lower(c) as int == if 65 <= c as int < 91 then c as int + 32 else c as int
  {
  }

  // ---- lines and bytes ----

  /** `s` with its line ends put back: each is a line feed, or one after a carriage return. */
  function Rejoined(ls: seq<string>, ends: seq<string>): string
    requires |ls| == |ends| + 1
  {
    if ends == [] then ls[0] else ls[0] + ends[0] + Rejoined(ls[1..], ends[1..])
  }

  lemma {:induction false} RejoinedHead(c: char, ls: seq<string>, ends: seq<string>)
    requires |ls| == |ends| + 1
    ensures Rejoined([[c] + ls[0]] + ls[1..], ends) == [c] + Rejoined(ls, ends)
  {
    if ends != [] {
      assert ([[c] + ls[0]] + ls[1..])[1..] == ls[1..];
      var more := Rejoined(ls[1..], ends[1..]);
      assert [c] + ls[0] + ends[0] + more == [c] + (ls[0] + ends[0] + more);
    }
  }

  /** The lines of a text are what lies between its line ends: joined with the right ends they give the
      text; none holds a line feed, and none but the last ends in a carriage return that belongs to the
      line end after it. */
  ghost predicate Split(s: string, ls: seq<string>, ends: seq<string>) {
    && |ls| == |ends| + 1 && Rejoined(ls, ends) == s
    && (forall i | 0 <= i < |ends| :: ends[i] == "\n" || ends[i] == "\r\n")
    && (forall i | 0 <= i < |ls| :: '\n' !in ls[i])
    && (forall i | 0 <= i < |ends| && ends[i] == "\n" :: ls[i] == "" || ls[i][|ls[i]| - 1] != '\r')
  }

  lemma SplitEnd(end: string, s: string, ls: seq<string>, ends: seq<string>)
    requires Split(s, ls, ends) && (end == "\n" || end == "\r\n")
    ensures Split(end + s, [""] + ls, [end] + ends)
  {
    assert ([""] + ls)[1..] == ls && ([end] + ends)[1..] == ends;
    assert "" + end + s == end + s;
  }

  lemma SplitChar(c: char, s: string, ls: seq<string>, ends: seq<string>)
    requires Split(s, ls, ends) && c != '\n' && (c == '\r' && s != "" ==> s[0] != '\n')
    ensures Split([c] + s, [[c] + ls[0]] + ls[1..], ends)
  {
    RejoinedHead(c, ls, ends);
    if ends != [] && ls[0] == "" { assert Rejoined(ls, ends)[0] == ends[0][0]; }
    var first := [c] + ls[0];
    assert ls[0] != "" ==> first[|first| - 1] == ls[0][|ls[0]| - 1];
  }

  lemma {:induction false} LinesAre(s: string) returns (ends: seq<string>)
    ensures Split(s, Lines(s), ends)
  {
    if s == "" {
      ends := [];
    } else if s[0] == '\n' {
      ends := LinesAre(s[1..]);
      SplitEnd("\n", s[1..], Lines(s[1..]), ends);
      ends := ["\n"] + ends;
      assert s == "\n" + s[1..];
    } else if s[0] == '\r' && |s| > 1 && s[1] == '\n' {
      ends := LinesAre(s[2..]);
      SplitEnd("\r\n", s[2..], Lines(s[2..]), ends);
      ends := ["\r\n"] + ends;
      assert s == "\r\n" + s[2..];
    } else {
      ends := LinesAre(s[1..]);
      SplitChar(s[0], s[1..], Lines(s[1..]), ends);
      assert s == [s[0]] + s[1..];
    }
  }

  /** A byte order mark at the start is not part of the first line. */
  lemma {:induction false} MarkIsDropped(s: string)
    ensures Normalize(['\U{FEFF}'] + s) == Lines(s)
    ensures s == "" || s[0] != '\U{FEFF}' ==> Normalize(s) == Lines(s)
  {
    assert (['\U{FEFF}'] + s)[1..] == s;
  }

  /** The bytes of a text are those of its characters: one for 7 bits, two for 11, three for 16, and
      four for more (section 3 of RFC 3629). */
  lemma {:induction false} BytesAre(s: string, c: char, t: string)
    ensures ByteLength(s + t) == ByteLength(s) + ByteLength(t)
    ensures var bits := c as int;
            ByteLength([c]) == if bits < 128 then 1 else if bits < 2048 then 2 else if bits < 65536 then 3 else 4
  {
    assert [c][1..] == "";
    if s == "" {
      assert s + t == t;
    } else {
      BytesAre(s[1..], c, t);
      assert (s + t)[1..] == s[1..] + t;
    }
  }
}
