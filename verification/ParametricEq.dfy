/** ParametricEQ text (app/src/equalizer/format.ts): the strict, atomic parser and the canonical
    printer. */
module ParametricEq {
  import opened Rows
  import opened Decimals
  import opened Patterns

  const IMPORT_BYTES := 65536
  const IMPORT_LINES := 512
  const MAX_BANDS := 32
  const MAX_SAFE_INTEGER := 0x1F_FFFF_FFFF_FFFF

  datatype Range = Range(min: Decimal, max: Decimal)

  const PREAMP_DB := Range(Decimal(true, 3, 1), Decimal(false, 12, 0))
  const FREQUENCY_HZ := Range(Decimal(false, 1, 1), Decimal(false, 2, 4))
  const GAIN_DB := Range(Decimal(true, 24, 0), Decimal(false, 24, 0))
  const QUALITY_Q := Range(Decimal(false, 1, -1), Decimal(false, 3, 1))

  predicate Within(d: Decimal, range: Range) {
    Value(range.min) <= Value(d) <= Value(range.max)
  }

  datatype ErrorCode =
    | TooLarge | TooManyLines | DuplicatePreamp | DuplicateFilter | InvalidFilterNumber | UnsupportedFilter
    | InvalidNumber | OutOfRange | TooManyFilters | MissingFilters | UnknownLine

  /** A value, or the thrown error: its code and the line it names. */
  datatype Result<T> = Ok(value: T) | Err(code: ErrorCode, line: Option<nat>)

  datatype Band = Band(position: nat, enabled: bool, kind: string, frequency: Num, gain: Num, q: Num)

  datatype Parsed = Parsed(preamp: Num, bands: seq<Band>, missingPreamp: bool)

  // ---- text ----

  /** Length in UTF-8. */
  function ByteLength(s: string): nat {
    if s == "" then 0
    else
      var u := s[0] as int;
      (if u < 0x80 then 1 else if u < 0x800 then 2 else if u < 0x1_0000 then 3 else 4) + ByteLength(s[1..])
  }

  /** `split(/\r?\n/)`. */
  function Lines(s: string): (ls: seq<string>)
    ensures ls != []
  {
    if s == "" then [""]
    else if s[0] == '\n' then [""] + Lines(s[1..])
    else if s[0] == '\r' && |s| > 1 && s[1] == '\n' then [""] + Lines(s[2..])
    else var rest := Lines(s[1..]); [[s[0]] + rest[0]] + rest[1..]
  }

  function TrimStart(s: string): string {
    if s != "" && Space(s[0]) then TrimStart(s[1..]) else s
  }

  function TrimEnd(s: string): string {
    if s != "" && Space(s[|s| - 1]) then TrimEnd(s[..|s| - 1]) else s
  }

  function Trim(s: string): string { TrimEnd(TrimStart(s)) }

  function Normalize(input: string): seq<string> {
    Lines(if input != "" && input[0] == '\U{FEFF}' then input[1..] else input)
  }

  /** Blank lines and comments. */
  predicate Skipped(line: string) {
    line == "" || line[0] == '#' || line[0] == ';'
  }

  predicate WordChar(c: char) {
    Digit(c) || 'a' <= c <= 'z' || 'A' <= c <= 'Z' || c == '_'
  }

  /** `/^Filter\b/i`. */
  predicate FilterLike(line: string) {
    |line| >= 6 && Fold(line[..6]) == "filter" && (|line| > 6 ==> !WordChar(line[6]))
  }

  // ---- one line ----

  /** The groups of a filter line. */
  datatype FilterText = FilterText(number: string, enabled: string, kind: string,
                                   frequency: string, gain: string, q: string)
  {
    function Groups(): seq<string> { [number, enabled, kind, frequency, gain, q] }
  }

  lemma {:induction false} ScannedGroups(line: string)
    ensures Scan(PREAMP, line).Some? ==> |Scan(PREAMP, line).value| == 1
    ensures Scan(FILTER, line).Some? ==> var g := Scan(FILTER, line).value;
                                         |g| == 6 && g[0] != "" && Digits(g[0])
  {
    PreampIsSeparated();
    FilterIsSeparated();
    if Scan(PREAMP, line).Some? {
      ScanIsMatch(PREAMP, line, Scan(PREAMP, line).value);
      PreampGroupFits(line, Scan(PREAMP, line).value);
    }
    if Scan(FILTER, line).Some? {
      ScanIsMatch(FILTER, line, Scan(FILTER, line).value);
      FilterGroupsFit(line, Scan(FILTER, line).value);
    }
  }

  /** `PREAMP_RE.exec(line)`: the number's text. */
  function PreampText(line: string): Option<string> {
    var g := Scan(PREAMP, line);
    ScannedGroups(line);
    if g.None? then None else Some(g.value[0])
  }

  /** `FILTER_RE.exec(line)`. */
  function FilterGroups(line: string): (r: Option<FilterText>)
    ensures r.Some? ==> Digits(r.value.number)
  {
    var g := Scan(FILTER, line);
    ScannedGroups(line);
    if g.None? then None
    else Some(FilterText(g.value[0], g.value[1], g.value[2], g.value[3], g.value[4], g.value[5]))
  }

  /** The two `exec` calls return exactly what the patterns match. */
  lemma ExecIsMatch(line: string)
    ensures forall x :: PreampText(line) == Some(x) <==> Matches(PREAMP, line, [x])
    ensures PreampText(line).None? ==> forall g :: !Matches(PREAMP, line, g)
    ensures forall f: FilterText :: FilterGroups(line) == Some(f) <==> Matches(FILTER, line, f.Groups())
    ensures FilterGroups(line).None? ==> forall g :: !Matches(FILTER, line, g)
  {
    PreampIsSeparated();
    FilterIsSeparated();
    ScannedGroups(line);
    forall g ensures Scan(PREAMP, line) == Some(g) <==> Matches(PREAMP, line, g) {
      ScanIsMatch(PREAMP, line, g);
    }
    forall g ensures Scan(FILTER, line) == Some(g) <==> Matches(FILTER, line, g) {
      ScanIsMatch(FILTER, line, g);
    }
    forall f: FilterText ensures FilterGroups(line) == Some(f) <==> Matches(FILTER, line, f.Groups()) {
      assert FilterGroups(line) == Some(f) <==> Scan(FILTER, line) == Some(f.Groups());
    }
    forall x ensures PreampText(line) == Some(x) <==> Matches(PREAMP, line, [x]) {
      assert PreampText(line) == Some(x) <==> Scan(PREAMP, line) == Some([x]);
    }
  }

  lemma {:induction false} FirstLetter(ps: seq<Piece>, line: string)
    requires ps != [] && ps[0].Word? && ps[0].text != "" && Scan(ps, line).Some?
    ensures line != "" && Lower(line[0]) == ps[0].text[0]
  {
    var n := |ps[0].text|;
    assert Fold(line[..n])[0] == Lower(line[..n][0]);
  }

  /** Comments, preamps and filters are told apart by their first letter. */
  lemma KindsAreDisjoint(line: string)
    ensures PreampText(line).Some? ==> !Skipped(line) && FilterGroups(line).None?
    ensures FilterGroups(line).Some? ==> !Skipped(line)
  {
    if PreampText(line).Some? { FirstLetter(PREAMP, line); }
    if FilterGroups(line).Some? { FirstLetter(FILTER, line); }
  }

  /** `checkedNumber`. */
  function Checked(round: Rounding, source: string, range: Range, line: nat): Result<Decimal> {
    match ReadNumber(round, source)
    case NotFinite => Err(InvalidNumber, Some(line))
    case Finite(v) => if !Within(v, range) then Err(OutOfRange, Some(line)) else Ok(Unsigned(v))
  }

  // ---- the parser, as a fold over the lines ----

  datatype Progress = Progress(preamp: Option<Decimal>, numbers: set<nat>, bands: seq<Band>)

  const START := Progress(None, {}, [])

  function ReadBand(round: Rounding, position: nat, f: FilterText, line: nat): Result<Band> {
    var frequency := Checked(round, f.frequency, FREQUENCY_HZ, line);
    var gain := Checked(round, f.gain, GAIN_DB, line);
    var q := Checked(round, f.q, QUALITY_Q, line);
    if frequency.Err? then Err(frequency.code, frequency.line)
    else if gain.Err? then Err(gain.code, gain.line)
    else if q.Err? then Err(q.code, q.line)
    else Ok(Band(position, Fold(f.enabled) == "on", "peaking",
                 Finite(frequency.value), Finite(gain.value), Finite(q.value)))
  }

  /** What is wrong with a filter line before its numbers are read. */
  function FilterFault(st: Progress, number: nat, kind: string): Option<ErrorCode> {
    if number > MAX_SAFE_INTEGER || number == 0 then Some(InvalidFilterNumber)
    else if number in st.numbers then Some(DuplicateFilter)
    else if Fold(kind) != "pk" then Some(UnsupportedFilter)
    else if |st.bands| >= MAX_BANDS then Some(TooManyFilters)
    else None
  }

  function StepFilter(round: Rounding, st: Progress, f: FilterText, line: nat): Result<Progress>
    requires Digits(f.number)
  {
    var number := NatOf(f.number);
    var fault := FilterFault(st, number, f.kind);
    var band := ReadBand(round, |st.bands| + 1, f, line);
    if fault.Some? then Err(fault.value, Some(line))
    else if band.Err? then Err(band.code, band.line)
    else Ok(st.(numbers := st.numbers + {number}, bands := st.bands + [band.value]))
  }

  function Step(round: Rounding, st: Progress, line: string, lineNo: nat): Result<Progress> {
    if Skipped(line) then Ok(st)
    else if PreampText(line).Some? then
      (if st.preamp.Some? then Err(DuplicatePreamp, Some(lineNo))
       else
         var v := Checked(round, PreampText(line).value, PREAMP_DB, lineNo);
         if v.Err? then Err(v.code, v.line) else Ok(st.(preamp := Some(v.value))))
    else if FilterGroups(line).Some? then StepFilter(round, st, FilterGroups(line).value, lineNo)
    else if FilterLike(line) then Err(UnsupportedFilter, Some(lineNo))
    else Err(UnknownLine, Some(lineNo))
  }

  /** The first `n` lines; the first error ends the run. */
  function Run(round: Rounding, lines: seq<string>, n: nat): Result<Progress>
    requires n <= |lines|
  {
    if n == 0 then Ok(START)
    else Continue(round, Run(round, lines, n - 1), lines[n - 1], n)
  }

  function Parse(round: Rounding, input: string): Result<Parsed> {
    var lines := Normalize(input);
    if ByteLength(input) > IMPORT_BYTES then Err(TooLarge, None)
    else if |lines| > IMPORT_LINES then Err(TooManyLines, None)
    else Finish(Run(round, lines, |lines|))
  }

  function Finish(st: Result<Progress>): Result<Parsed> {
    if st.Err? then Err(st.code, st.line)
    else if st.value.bands == [] then Err(MissingFilters, None)
    else
      var preamp := st.value.preamp;
      Ok(Parsed(Finite(if preamp.Some? then preamp.value else ZERO), st.value.bands, preamp.None?))
  }

  /** One line after what the lines before it gave. */
  function Continue(round: Rounding, st: Result<Progress>, line: string, lineNo: nat): Result<Progress> {
    if st.Err? then st else Step(round, st.value, Trim(line), lineNo)
  }

  lemma ErrorStays(round: Rounding, st: Result<Progress>, line: string, lineNo: nat)
    requires st.Err?
    ensures Continue(round, st, line, lineNo) == st
  {
  }

  /** Nothing after the first error matters. */
  lemma {:induction false} ErrorsEndTheRun(round: Rounding, lines: seq<string>, i: nat, n: nat)
    requires i <= n <= |lines| && Run(round, lines, i).Err?
    ensures Run(round, lines, n) == Run(round, lines, i)
  {
    if i >= n {
    } else {
      ErrorsEndTheRun(round, lines, i, n - 1);
      ErrorStays(round, Run(round, lines, n - 1), lines[n - 1], n);
    }
  }

  lemma {:induction false} ErrorIsFinal(round: Rounding, input: string, line: nat)
    requires ByteLength(input) <= IMPORT_BYTES && |Normalize(input)| <= IMPORT_LINES && line <= |Normalize(input)|
    requires Run(round, Normalize(input), line).Err?
    ensures var e := Run(round, Normalize(input), line); Parse(round, input) == Err(e.code, e.line)
  {
    ErrorsEndTheRun(round, Normalize(input), line, |Normalize(input)|);
  }

  /** The body of the loop: what one trimmed line does to the state. */
  method ParseLine(round: Rounding, st: Progress, line: string, lineNo: nat) returns (r: Result<Progress>)
    ensures r == Step(round, st, line, lineNo)
  {
    if Skipped(line) { return Ok(st); }
    var preampMatch := PreampText(line);
    if preampMatch.Some? {
      if st.preamp.Some? { return Err(DuplicatePreamp, Some(lineNo)); }
      var value := Checked(round, preampMatch.value, PREAMP_DB, lineNo);
      if value.Err? { return Err(value.code, value.line); }
      return Ok(st.(preamp := Some(value.value)));
    }
    var filterMatch := FilterGroups(line);
    if filterMatch.Some? {
      var number := NatOf(filterMatch.value.number);
      var fault := FilterFault(st, number, filterMatch.value.kind);
      if fault.Some? { return Err(fault.value, Some(lineNo)); }
      var band := ReadBand(round, |st.bands| + 1, filterMatch.value, lineNo);
      if band.Err? { return Err(band.code, band.line); }
      return Ok(st.(numbers := st.numbers + {number}, bands := st.bands + [band.value]));
    }
    return Err(if FilterLike(line) then UnsupportedFilter else UnknownLine, Some(lineNo));
  }

  /** `parseEqualizerText`. */
  method ParseEqualizerText(round: Rounding, input: string) returns (r: Result<Parsed>)
    ensures r == Parse(round, input)
  {
    if ByteLength(input) > IMPORT_BYTES { return Err(TooLarge, None); }
    var lines := Normalize(input);
    if |lines| > IMPORT_LINES { return Err(TooManyLines, None); }
    var st := START;
    for index := 0 to |lines|
      invariant Run(round, lines, index) == Ok(st)
    {
      var next := ParseLine(round, st, Trim(lines[index]), index + 1);
      assert Run(round, lines, index + 1) == Continue(round, Ok(st), lines[index], index + 1) == next;
      if next.Err? {
        ErrorIsFinal(round, input, index + 1);
        return Err(next.code, next.line);
      }
      st := next.value;
    }
    if |st.bands| == 0 { return Err(MissingFilters, None); }
    r := Ok(Parsed(Finite(if st.preamp.Some? then st.preamp.value else ZERO), st.bands, st.preamp.None?));
  }

  // ---- the printer ----

  /** The text, or the thrown TypeError. */
  datatype Printed = Written(text: string) | NotFiniteValue | UnsupportedKind

  function PreampLine(preamp: Decimal): string {
    "Preamp: " + ToText(preamp) + " dB"
  }

  function BandLine(number: nat, b: Band): string
    requires Printable(b)
  {
    "Filter " + DigitsOf(number) + ": " + (if b.enabled then "ON" else "OFF")
    + " PK Fc " + ToText(b.frequency.value) + " Hz Gain " + ToText(b.gain.value) + " dB Q " + ToText(b.q.value)
  }

  predicate Printable(b: Band) {
    b.kind == "peaking" && b.frequency.Finite? && b.gain.Finite? && b.q.Finite?
  }

  /** The first `n` bands can be printed. */
  predicate AllPrintable(bands: seq<Band>, n: nat)
    requires n <= |bands|
  {
    forall i | 0 <= i < n :: Printable(bands[i])
  }

  /** The preamp line and one line for each of the first `n` bands. */
  function SerializedLines(preamp: Decimal, bands: seq<Band>, n: nat): (ls: seq<string>)
    requires n <= |bands| && AllPrintable(bands, n)
    ensures |ls| == n + 1
  {
    if n == 0 then [PreampLine(preamp)]
    else SerializedLines(preamp, bands, n - 1) + [BandLine(n, bands[n - 1])]
  }

  function Join(ls: seq<string>): string {
    if ls == [] then "" else if |ls| == 1 then ls[0] else ls[0] + "\n" + Join(ls[1..])
  }

  function Serialized(preamp: Decimal, bands: seq<Band>): string
    requires AllPrintable(bands, |bands|)
  {
    Join(SerializedLines(preamp, bands, |bands|)) + "\n"
  }

  /** `serializeEqualizerText`: a text exactly when every value is finite and every band a peaking
      filter; otherwise the error names what is wrong with the first offending value. */
  method SerializeEqualizerText(preamp: Num, bands: seq<Band>) returns (r: Printed)
    ensures r.Written? <==> preamp.Finite? && AllPrintable(bands, |bands|)
    ensures r.Written? ==> r.text == Serialized(preamp.value, bands)
    ensures r.UnsupportedKind? ==>
      exists i :: 0 <= i < |bands| && AllPrintable(bands, i) && bands[i].kind != "peaking"
    ensures r.NotFiniteValue? ==>
      preamp.NotFinite?
      || exists i :: 0 <= i < |bands| && AllPrintable(bands, i) && bands[i].kind == "peaking" && !Printable(bands[i])
  {
    if preamp.NotFinite? { return NotFiniteValue; }
    var lines := [PreampLine(preamp.value)];
    for index := 0 to |bands|
      invariant AllPrintable(bands, index)
      invariant lines == SerializedLines(preamp.value, bands, index)
    {
      var band := bands[index];
      if band.kind != "peaking" { return UnsupportedKind; }
      if band.frequency.NotFinite? || band.gain.NotFinite? || band.q.NotFinite? { return NotFiniteValue; }
      lines := lines + [BandLine(index + 1, band)];
    }
    r := Written(Join(lines) + "\n");
  }
}
