/** Laws of ParametricEQ text: what the parser accepts, and that the parser and the printer undo
    each other. */
module ParametricEqLaws {
  import opened Rows
  import opened Decimals
  import opened Patterns
  import opened ParametricEq

  // ---- acceptance ----

  /** What a trimmed line says, apart from the lines before it. A filter's band is not yet
      numbered. */
  datatype Item = Comment | Preamp(value: Decimal) | Filter(number: nat, band: Band) | Bad

  function PreampItem(round: Rounding, source: string): Item {
    var v := Checked(round, source, PREAMP_DB, 0);
    if v.Ok? then Preamp(v.value) else Bad
  }

  function FilterItem(round: Rounding, f: FilterText): Item
    requires Digits(f.number)
  {
    var band := ReadBand(round, 0, f, 0);
    if 1 <= NatOf(f.number) <= MAX_SAFE_INTEGER && Fold(f.kind) == "pk" && band.Ok?
    then Filter(NatOf(f.number), band.value) else Bad
  }

  function ItemOf(round: Rounding, line: string): Item {
    if Skipped(line) then Comment
    else if PreampText(line).Some? then PreampItem(round, PreampText(line).value)
    else if FilterGroups(line).Some? then FilterItem(round, FilterGroups(line).value)
    else Bad
  }

  function Items(round: Rounding, lines: seq<string>): (items: seq<Item>)
    ensures |items| == |lines|
  {
    seq(|lines|, i requires 0 <= i < |lines| => ItemOf(round, Trim(lines[i])))
  }

  /** The bands of the first `n` items, numbered in line order. */
  function BandsOf(items: seq<Item>, n: nat): (bands: seq<Band>)
    requires n <= |items|
    ensures |bands| <= n
    ensures forall i | 0 <= i < |bands| :: bands[i].position == i + 1
  {
    if n == 0 then []
    else
      var before := BandsOf(items, n - 1);
      if items[n - 1].Filter? then before + [items[n - 1].band.(position := |before| + 1)] else before
  }

  function NumbersOf(items: seq<Item>, n: nat): set<nat>
    requires n <= |items|
  {
    set i | 0 <= i < n && items[i].Filter? :: items[i].number
  }

  /** The preamp set last in the first `n` items. */
  function PreampOf(items: seq<Item>, n: nat): Option<Decimal>
    requires n <= |items|
  {
    if n == 0 then None
    else if items[n - 1].Preamp? then Some(items[n - 1].value)
    else PreampOf(items, n - 1)
  }

  /** Every line is a comment, a preamp or a filter; at most one preamp; no number twice. */
  ghost predicate Good(items: seq<Item>, n: nat)
    requires n <= |items|
  {
    && (forall i | 0 <= i < n :: !items[i].Bad?)
    && (forall i, j | 0 <= i < j < n :: !(items[i].Preamp? && items[j].Preamp?))
    && (forall i, j | 0 <= i < j < n && items[i].Filter? && items[j].Filter? :: items[i].number != items[j].number)
  }

  /** The texts the parser is for. */
  ghost predicate Acceptable(round: Rounding, input: string) {
    var lines := Normalize(input);
    var items := Items(round, lines);
    && ByteLength(input) <= IMPORT_BYTES && |lines| <= IMPORT_LINES
    && Good(items, |items|) && 1 <= |BandsOf(items, |items|)| <= MAX_BANDS
  }

  predicate Admits(st: Progress, item: Item) {
    match item
    case Comment => true
    case Preamp(_) => st.preamp.None?
    case Filter(number, _) => number !in st.numbers && |st.bands| < MAX_BANDS
    case Bad => false
  }

  function Added(st: Progress, item: Item): Progress {
    match item
    case Preamp(v) => st.(preamp := Some(v))
    case Filter(number, band) =>
      st.(numbers := st.numbers + {number}, bands := st.bands + [band.(position := |st.bands| + 1)])
    case _ => st
  }

  lemma CheckedAnyLine(round: Rounding, source: string, range: Range, a: nat)
    ensures var r, s := Checked(round, source, range, a), Checked(round, source, range, 0);
            (r.Ok? <==> s.Ok?) && (r.Ok? ==> r == s)
  {
  }

  lemma ReadBandAnyLine(round: Rounding, f: FilterText, p: nat, a: nat)
    ensures var r, s := ReadBand(round, p, f, a), ReadBand(round, 0, f, 0);
            (r.Ok? <==> s.Ok?) && (r.Ok? ==> r.value == s.value.(position := p))
  {
    CheckedAnyLine(round, f.frequency, FREQUENCY_HZ, a);
    CheckedAnyLine(round, f.gain, GAIN_DB, a);
    CheckedAnyLine(round, f.q, QUALITY_Q, a);
  }

  lemma StepFilterIs(round: Rounding, st: Progress, f: FilterText, n: nat)
    requires Digits(f.number)
    ensures var item, next := FilterItem(round, f), StepFilter(round, st, f, n);
            (next.Ok? <==> Admits(st, item)) && (next.Ok? ==> next.value == Added(st, item))
  {
    ReadBandAnyLine(round, f, |st.bands| + 1, n);
  }

  /** A line is taken exactly when its item is admitted. */
  lemma StepIs(round: Rounding, st: Progress, line: string, n: nat)
    ensures var item, next := ItemOf(round, line), Step(round, st, line, n);
            (next.Ok? <==> Admits(st, item)) && (next.Ok? ==> next.value == Added(st, item))
  {
    if PreampText(line).Some? {
      CheckedAnyLine(round, PreampText(line).value, PREAMP_DB, n);
    } else if FilterGroups(line).Some? {
      StepFilterIs(round, st, FilterGroups(line).value, n);
    }
  }

  lemma {:induction false} PreampOfIs(items: seq<Item>, n: nat)
    requires n <= |items|
    ensures PreampOf(items, n).None? <==> forall i | 0 <= i < n :: !items[i].Preamp?
  {
    if n == 0 {
    } else {
      PreampOfIs(items, n - 1);
    }
  }

  function Summary(items: seq<Item>, n: nat): Progress
    requires n <= |items|
  {
    Progress(PreampOf(items, n), NumbersOf(items, n), BandsOf(items, n))
  }

  lemma Extend(items: seq<Item>, n: nat)
    requires 0 < n <= |items|
    ensures Summary(items, n) == Added(Summary(items, n - 1), items[n - 1])
    ensures Good(items, n) && |BandsOf(items, n)| <= MAX_BANDS
            <==> && Good(items, n - 1) && |BandsOf(items, n - 1)| <= MAX_BANDS
                 && Admits(Summary(items, n - 1), items[n - 1])
  {
    var item := items[n - 1];
    PreampOfIs(items, n - 1);
    assert NumbersOf(items, n) == NumbersOf(items, n - 1) + if item.Filter? then {item.number} else {};
    assert item.Filter? ==> (item.number in NumbersOf(items, n - 1)
                             <==> exists i :: 0 <= i < n - 1 && items[i].Filter? && items[i].number == item.number);
  }

  lemma ContinueIs(round: Rounding, st: Result<Progress>, line: string, n: nat)
    ensures var item, next := ItemOf(round, Trim(line)), Continue(round, st, line, n);
            (next.Ok? <==> st.Ok? && Admits(st.value, item)) && (next.Ok? ==> next.value == Added(st.value, item))
  {
    if st.Ok? { StepIs(round, st.value, Trim(line), n); }
  }

  lemma NothingRead(items: seq<Item>)
    ensures Summary(items, 0) == START && Good(items, 0)
  {
    assert NumbersOf(items, 0) == {};
  }

  /** The same fold on items: none once an item has not been admitted. */
  function Take(items: seq<Item>, n: nat): Option<Progress>
    requires n <= |items|
  {
    if n == 0 then Some(START)
    else
      var st := Take(items, n - 1);
      if st.None? || !Admits(st.value, items[n - 1]) then None else Some(Added(st.value, items[n - 1]))
  }

  /** The items taken are summed up, and are refused exactly when they are not good or too many. */
  lemma {:induction false} TakeIs(items: seq<Item>, n: nat)
    requires n <= |items|
    ensures Take(items, n).Some? <==> Good(items, n) && |BandsOf(items, n)| <= MAX_BANDS
    ensures Take(items, n).Some? ==> Take(items, n).value == Summary(items, n)
  {
    if n == 0 {
      NothingRead(items);
    } else {
      TakeIs(items, n - 1);
      Extend(items, n);
    }
  }

  lemma {:induction false} RunIsTake(round: Rounding, lines: seq<string>, n: nat)
    requires n <= |lines|
    ensures var st, taken := Run(round, lines, n), Take(Items(round, lines), n);
            (st.Ok? <==> taken.Some?) && (st.Ok? ==> st.value == taken.value)
  {
    if n == 0 {
    } else {
      RunIsTake(round, lines, n - 1);
      ContinueIs(round, Run(round, lines, n - 1), lines[n - 1], n);
    }
  }

  /** After `n` lines the parser has taken exactly their preamp, numbers and bands, or has failed
      because the lines are not good or hold too many bands. */
  lemma {:induction false} RunIs(round: Rounding, lines: seq<string>, n: nat)
    requires n <= |lines|
    ensures var items, st := Items(round, lines), Run(round, lines, n);
            && (st.Ok? <==> Good(items, n) && |BandsOf(items, n)| <= MAX_BANDS)
            && (st.Ok? ==> st.value == Summary(items, n))
  {
    RunIsTake(round, lines, n);
    TakeIs(Items(round, lines), n);
  }

  /** The parser accepts exactly the acceptable texts, and returns their preamp, or 0 dB and a
      warning when there is none, and their bands in line order. */
  lemma AcceptsExactly(round: Rounding, input: string)
    ensures Parse(round, input).Ok? <==> Acceptable(round, input)
    ensures Parse(round, input).Ok? ==>
              var items := Items(round, Normalize(input));
              var preamp := PreampOf(items, |items|);
              Parse(round, input).value
              == Parsed(Finite(if preamp.Some? then preamp.value else ZERO), BandsOf(items, |items|), preamp.None?)
  {
    RunIs(round, Normalize(input), |Normalize(input)|);
  }
}
