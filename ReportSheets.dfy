/** The decisions the dashboard sheets make about their rows: which side
    wins a comparison, which cell is highlighted, in which order the
    business units and the rows of a block are listed, and which product
    rows are hidden. Fonts, fills, widths and row positions are layout and
    are not modelled. */
module ReportSheets {
  import opened Wrappers
  import opened Text
  import opened Tables
  import opened Sorting
  import opened Dashboards

  // ---------------------------------------------------------------------
  // The winner of a comparison

  /** "closest_to_one" (accuracy), "lower" (WAPE) or "higher". */
  datatype Mode = ClosestToOne | LowerIsBetter | HigherIsBetter

  /** winner_label's results: "", "Tie", "Stats Model", "Marketing". */
  datatype Winner = NoWinner | Tie | StatsModel | MarketingSide

  function WinnerText(w: Winner): string {
    match w
    case NoWinner => ""
    case Tie => "Tie"
    case StatsModel => "Stats Model"
    case MarketingSide => "Marketing"
  }

  function Abs(x: real): real {
    if x < 0.0 then -x else x
  }

  /** winner_label. */
  function WinnerLabel(stats: Option<real>, marketing: Option<real>, mode: Mode): Winner {
    if stats.None? || marketing.None? then NoWinner
    else
      var s := stats.value;
      var m := marketing.value;
      if s == m then Tie
      else match mode
        case HigherIsBetter => if s > m then StatsModel else MarketingSide
        case LowerIsBetter => if s < m then StatsModel else MarketingSide
        case ClosestToOne =>
          if Abs(s - 1.0) == Abs(m - 1.0) then Tie
          else if Abs(s - 1.0) < Abs(m - 1.0) then StatsModel else MarketingSide
  }

  /** No winner exactly when a value is missing; a tie exactly when the
      values are equal or, for accuracy, equally far from 1; otherwise the
      side closer to 1, lower, or higher, as the mode asks. */
  lemma WinnerLabelSpec(stats: Option<real>, marketing: Option<real>, mode: Mode)
    ensures var w := WinnerLabel(stats, marketing, mode);
      && (w == NoWinner <==> stats.None? || marketing.None?)
      && (stats.Some? && marketing.Some? ==>
            var s, m := stats.value, marketing.value;
            && (w == Tie <==> s == m || (mode == ClosestToOne && Abs(s - 1.0) == Abs(m - 1.0)))
            && (mode == ClosestToOne ==> (w == StatsModel <==> Abs(s - 1.0) < Abs(m - 1.0)))
            && (mode == ClosestToOne ==> (w == MarketingSide <==> Abs(m - 1.0) < Abs(s - 1.0)))
            && (mode == LowerIsBetter ==> (w == StatsModel <==> s < m) && (w == MarketingSide <==> m < s))
            && (mode == HigherIsBetter ==> (w == StatsModel <==> s > m) && (w == MarketingSide <==> m > s)))
  {
    if stats.Some? && marketing.Some? && mode == ClosestToOne && stats.value == marketing.value {
      assert Abs(stats.value - 1.0) == Abs(marketing.value - 1.0);
    }
  }

  function SwapSides(w: Winner): Winner {
    match w
    case StatsModel => MarketingSide
    case MarketingSide => StatsModel
    case other => other
  }

  /** The comparison is fair: exchanging the two values exchanges the winner. */
  lemma WinnerSymmetric(stats: Option<real>, marketing: Option<real>, mode: Mode)
    ensures WinnerLabel(marketing, stats, mode) == SwapSides(WinnerLabel(stats, marketing, mode))
  {
  }

  /** Where the highlight fill goes. */
  datatype Highlight = NoHighlight | HighlightStats | HighlightMarketing

  /** A value of a dashboard frame as a sheet reads it back from its cell:
      `DataFrame.from_records` stores a missing ratio as NaN in a column
      that also holds a number, and keeps it as None in a column that holds
      none. */
  datatype CellValue = Blank | NaN | Value(v: real)

  /** Which of the frame's "Stats Model" and "Marketing" columns hold at
      least one number. */
  datatype Columns = Columns(statsNumeric: bool, marketingNumeric: bool)

  function FrameColumns(records: seq<DashRow>): (c: Columns)
    ensures c.statsNumeric <==> exists d :: d in records && d.stats.Some?
    ensures c.marketingNumeric <==> exists d :: d in records && d.marketing.Some?
  {
    Columns(exists d :: d in records && d.stats.Some?, exists d :: d in records && d.marketing.Some?)
  }

  /** The value a record's ratio becomes in a column of the frame. */
  function Stored(x: Option<real>, numeric: bool): CellValue {
    if x.Some? then Value(x.value) else if numeric then NaN else Blank
  }

  /** highlight_winner, on the values written to the two cells. It returns
      only on None; NaN passes `float()`, equals nothing and compares false
      with everything, so every branch falls through to the Marketing cell. */
  function HighlightWinner(stats: CellValue, marketing: CellValue, mode: Mode): Highlight {
    if stats.Blank? || marketing.Blank? then NoHighlight
    else if stats.NaN? || marketing.NaN? then HighlightMarketing
    else
      var s := stats.v;
      var m := marketing.v;
      if s == m then NoHighlight
      else match mode
        case HigherIsBetter => if s > m then HighlightStats else HighlightMarketing
        case LowerIsBetter => if s < m then HighlightStats else HighlightMarketing
        case ClosestToOne =>
          var sd := Abs(s - 1.0);
          var md := Abs(m - 1.0);
          if sd == md then NoHighlight
          else if sd < md then HighlightStats else HighlightMarketing
  }

  /** With both values present the highlighted cell is the winner's and a
      tie is not highlighted. With a value missing there is no winner, yet
      the Marketing cell is highlighted whenever neither value is read back
      as None, that is, whenever each missing value's column holds a
      number; the Stats Model cell never is. */
  lemma HighlightMatchesWinner(stats: Option<real>, marketing: Option<real>, mode: Mode, cols: Columns)
    ensures var h := HighlightWinner(Stored(stats, cols.statsNumeric), Stored(marketing, cols.marketingNumeric), mode);
      var w := WinnerLabel(stats, marketing, mode);
      && (stats.Some? && marketing.Some? ==>
            && (h == HighlightStats <==> w == StatsModel)
            && (h == HighlightMarketing <==> w == MarketingSide)
            && (h == NoHighlight <==> w == Tie))
      && (stats.None? || marketing.None? ==>
            && w == NoWinner
            && h != HighlightStats
            && (h == HighlightMarketing <==>
                  (stats.Some? || cols.statsNumeric) && (marketing.Some? || cols.marketingNumeric)))
  {
  }

  /** The rank rows are sorted on: Stats Model wins first, then Marketing,
      then ties and rows without a winner. */
  function WinnerRank(w: Winner): (r: int)
    ensures 0 <= r <= 2
    ensures r == 0 <==> w == StatsModel
    ensures r == 1 <==> w == MarketingSide
  {
    if w == StatsModel then 0 else if w == MarketingSide then 1 else 2
  }

  // ---------------------------------------------------------------------
  // Business-unit sections

  /** `==` between dataframe values: a missing value equals nothing. */
  predicate CellEq(a: Cell, b: Cell) {
    a.Text? && b.Text? && a.s == b.s
  }

  /** Column i of a dashboard record's group key (BU Code, BU Name, then
      the grain's own columns); missing for a total record. */
  function Column(d: DashRow, i: nat): Cell {
    if d.scope.Group? && i < |d.scope.key| then d.scope.key[i] else Null
  }

  /** bu_order: D100, D200 and D300 first, in that order, any other code after. */
  function BuOrder(code: Cell): (r: int)
    ensures r == 99 <==> code !in {Text("D100"), Text("D200"), Text("D300")}
  {
    if code == Text("D100") then 0
    else if code == Text("D200") then 1
    else if code == Text("D300") then 2
    else 99
  }

  function BuPair(d: DashRow): (Cell, Cell) {
    (Column(d, 0), Column(d, 1))
  }

  function BuSortKey(p: (Cell, Cell)): seq<Atom> {
    [Num(BuOrder(p.0) as real), Str(CellText(p.0))]
  }

  function BuPairs(records: seq<DashRow>): (r: seq<(Cell, Cell)>)
    ensures |r| == |records|
  {
    seq(|records|, i requires 0 <= i < |records| => BuPair(records[i]))
  }

  /** The BU sections of a sheet: the distinct (BU Code, BU Name) pairs,
      sorted by bu_order and then by code. */
  function BuSections(records: seq<DashRow>): seq<(Cell, Cell)> {
    SortBy(Distinct(BuPairs(records)), BuSortKey)
  }

  /** Every BU of the records has exactly one section... */
  lemma BuSectionsCover(records: seq<DashRow>)
    ensures var secs := BuSections(records);
      && (forall i :: 0 <= i < |records| ==> BuPair(records[i]) in secs)
      && (forall p :: p in secs ==> p in BuPairs(records))
      && NoDup(secs)
  {
    var d := Distinct(BuPairs(records));
    var secs := BuSections(records);
    SortByPermutes(d, BuSortKey);
    forall p | p in secs
      ensures p in BuPairs(records)
    {
      assert p in multiset(secs);
    }
    forall i | 0 <= i < |records|
      ensures BuPair(records[i]) in secs
    {
      assert BuPairs(records)[i] == BuPair(records[i]);
      assert BuPair(records[i]) in multiset(d);
    }
    SortByNoDup(d, BuSortKey);
  }

  /** `bu_df`, the records of one entry of bu_groups selected with `==` on
      the BU code and name, is not empty, so the entry's section is
      written. */
  predicate SectionWritten(records: seq<DashRow>, p: (Cell, Cell)) {
    exists i :: 0 <= i < |records| && CellEq(Column(records[i], 0), p.0) && CellEq(Column(records[i], 1), p.1)
  }

  /** An entry of bu_groups gets a section exactly when neither its BU code
      nor its name is missing: `==` never matches a missing value, so a BU
      with a missing code or name is listed but has no section. */
  lemma SectionWrittenSpec(records: seq<DashRow>, p: (Cell, Cell))
    ensures p in BuSections(records) ==> (SectionWritten(records, p) <==> p.0.Text? && p.1.Text?)
  {
    if p in BuSections(records) {
      BuSectionsCover(records);
      PairSectionWritten(records, p);
    }
  }

  lemma PairSectionWritten(records: seq<DashRow>, p: (Cell, Cell))
    requires p in BuPairs(records)
    ensures SectionWritten(records, p) <==> p.0.Text? && p.1.Text?
  {
    var pairs := BuPairs(records);
    var i :| 0 <= i < |pairs| && pairs[i] == p;
    assert Column(records[i], 0) == p.0 && Column(records[i], 1) == p.1;
  }

  /** ...and the sections run D100, D200, D300, then the other codes in
      code order. */
  lemma BuSectionsOrdered(records: seq<DashRow>)
    ensures var secs := BuSections(records);
      && (forall i, j :: 0 <= i < j < |secs| ==> BuOrder(secs[i].0) <= BuOrder(secs[j].0))
      && (forall i, j :: 0 <= i < j < |secs| && BuOrder(secs[i].0) == BuOrder(secs[j].0) ==>
            LexLe(CellText(secs[i].0), CellText(secs[j].0)))
  {
    var secs := BuSections(records);
    SortBySorted(Distinct(BuPairs(records)), BuSortKey);
    forall i, j | 0 <= i < j < |secs|
      ensures BuOrder(secs[i].0) <= BuOrder(secs[j].0)
      ensures BuOrder(secs[i].0) == BuOrder(secs[j].0) ==> LexLe(CellText(secs[i].0), CellText(secs[j].0))
    {
      KeyLeNumStr(BuOrder(secs[i].0) as real, CellText(secs[i].0), BuOrder(secs[j].0) as real, CellText(secs[j].0));
    }
  }

  /** A number-then-text sort key orders by the number first, then by the text. */
  lemma KeyLeNumStr(a: real, s: string, b: real, t: string)
    requires KeyLe([Num(a), Str(s)], [Num(b), Str(t)])
    ensures a <= b
    ensures a == b ==> LexLe(s, t)
  {
    assert [Num(a), Str(s)][1..] == [Str(s)];
    assert [Num(b), Str(t)][1..] == [Str(t)];
    LexLeTotal(s, s);
  }

  // ---------------------------------------------------------------------
  // The rows of one block (one BU, one unit of measure)

  datatype SheetKind = ProdFamSheet | ProdFamWapeSheet | ManagerSheet | ProductSheet

  function SheetMetric(kind: SheetKind): Metric {
    if kind == ProdFamWapeSheet then Wape else Accuracy
  }

  function SheetMode(kind: SheetKind): Mode {
    if kind == ProdFamWapeSheet then LowerIsBetter else ClosestToOne
  }

  /** The non-missing labels (product family, manager or product) of the
      records, with repeats. */
  function PresentLabels(recs: seq<DashRow>): seq<Cell>
    decreases |recs|
  {
    if |recs| == 0 then []
    else (if Column(recs[0], 2).Null? then [] else [Column(recs[0], 2)]) + PresentLabels(recs[1..])
  }

  /** `dropna().unique().tolist()`. */
  function Labels(recs: seq<DashRow>): seq<Cell> {
    Distinct(PresentLabels(recs))
  }

  /** The first record of a label and metric (`.iloc[0]`), if any. */
  function FirstWith(recs: seq<DashRow>, name: Cell, m: Metric): (r: Option<DashRow>)
    ensures r.Some? ==> r.value in recs && CellEq(Column(r.value, 2), name) && r.value.metric == m
    ensures r.None? <==> forall d :: d in recs ==> !(CellEq(Column(d, 2), name) && d.metric == m)
    decreases |recs|
  {
    if |recs| == 0 then None
    else if CellEq(Column(recs[0], 2), name) && recs[0].metric == m then Some(recs[0])
    else
      assert forall d :: d in recs <==> d == recs[0] || d in recs[1..];
      FirstWith(recs[1..], name, m)
  }

  /** The product-row hiding rule: a blank product or manager, a missing
      value on either side, or both values zero. */
  predicate IsHidden(product: Cell, manager: Cell, stats: Option<real>, marketing: Option<real>) {
    IsBlank(product) || IsBlank(manager) || stats.None? || marketing.None?
    || (stats == Some(0.0) && marketing == Some(0.0))
  }

  /** The stand-in that sorts blank products and managers last. */
  const BlankSortText := "ZZZZZZ"

  function BlankLast(c: Cell): string {
    if IsBlank(c) then BlankSortText else Trim(c.s)
  }

  /** The key after the winner rank: the trimmed lower-case family, the
      family or manager as text, or (manager, product) with blanks last. */
  function SecondaryKey(kind: SheetKind, name: Cell, manager: Cell): seq<Atom> {
    match kind
    case ProdFamSheet => [Str(Lower(Trim(CellText(name))))]
    case ProdFamWapeSheet => [Str(CellText(name))]
    case ManagerSheet => [Str(CellText(name))]
    case ProductSheet => [Str(BlankLast(manager)), Str(BlankLast(name))]
  }

  /** An entry of `sort_rows`. */
  datatype SortRow = SortRow(key: seq<Atom>, name: Cell, manager: Cell, stats: Option<real>, marketing: Option<real>, hidden: bool)

  function SortRowKey(r: SortRow): seq<Atom> {
    r.key
  }

  function SortRowOf(kind: SheetKind, d: DashRow): SortRow {
    var name := Column(d, 2);
    var manager := if kind == ProductSheet then Column(d, 3) else Null;
    var w := WinnerLabel(d.stats, d.marketing, SheetMode(kind));
    SortRow([Num(WinnerRank(w) as real)] + SecondaryKey(kind, name, manager), name, manager, d.stats, d.marketing,
            kind == ProductSheet && IsHidden(name, manager, d.stats, d.marketing))
  }

  /** `sort_rows` after the loop over the given labels. */
  function SortRows(recs: seq<DashRow>, kind: SheetKind, labels: seq<Cell>): seq<SortRow>
    decreases |labels|
  {
    if |labels| == 0 then []
    else
      SortRows(recs, kind, labels[..|labels| - 1])
      + match FirstWith(recs, labels[|labels| - 1], SheetMetric(kind))
        case None => []
        case Some(d) => [SortRowOf(kind, d)]
  }

  /** A written row of a block. */
  datatype SheetLine = SheetLine(name: Cell, manager: Cell, stats: Option<real>, marketing: Option<real>, highlight: Highlight, hidden: bool)

  /** A hidden product row is hidden instead of highlighted; cols are the
      numeric columns of the whole dashboard frame. */
  function Render(kind: SheetKind, cols: Columns, r: SortRow): SheetLine {
    SheetLine(r.name, r.manager, r.stats, r.marketing,
              if r.hidden then NoHighlight
              else HighlightWinner(Stored(r.stats, cols.statsNumeric), Stored(r.marketing, cols.marketingNumeric), SheetMode(kind)),
              r.hidden)
  }

  function RenderAll(kind: SheetKind, cols: Columns, rows: seq<SortRow>): (r: seq<SheetLine>)
    ensures |r| == |rows|
  {
    seq(|rows|, i requires 0 <= i < |rows| => Render(kind, cols, rows[i]))
  }

  /** The rows a block writes, top to bottom. */
  function BlockLines(recs: seq<DashRow>, kind: SheetKind, cols: Columns): seq<SheetLine> {
    RenderAll(kind, cols, SortBy(SortRows(recs, kind, Labels(recs)), SortRowKey))
  }

  /** The loop that fills `sort_rows`, one name at a time; a name without
      a record of the sheet's metric is skipped. */
  method CollectSortRows(recs: seq<DashRow>, kind: SheetKind) returns (sortRows: seq<SortRow>)
    ensures sortRows == SortRows(recs, kind, Labels(recs))
  {
    sortRows := CollectOver(recs, kind, Labels(recs));
  }

  method CollectOver(recs: seq<DashRow>, kind: SheetKind, names: seq<Cell>) returns (sortRows: seq<SortRow>)
    ensures sortRows == SortRows(recs, kind, names)
  {
    sortRows := [];
    for i := 0 to |names|
      invariant sortRows == SortRows(recs, kind, names[..i])
    {
      SortRowsStep(recs, kind, names, i);
      var found := FirstWith(recs, names[i], SheetMetric(kind));
      if found.Some? {
        sortRows := sortRows + [SortRowOf(kind, found.value)];
      }
    }
    assert names[..|names|] == names;
  }

  lemma SortRowsStep(recs: seq<DashRow>, kind: SheetKind, names: seq<Cell>, i: int)
    requires 0 <= i < |names|
    ensures var found := FirstWith(recs, names[i], SheetMetric(kind));
      SortRows(recs, kind, names[..i + 1])
        == SortRows(recs, kind, names[..i]) + (if found.Some? then [SortRowOf(kind, found.value)] else [])
  {
    assert names[..i + 1][..i] == names[..i];
    assert names[..i + 1][i] == names[i];
  }

  /** The loop that writes the sorted rows, top to bottom. */
  method WriteRows(sorted: seq<SortRow>, kind: SheetKind, cols: Columns) returns (lines: seq<SheetLine>)
    ensures lines == RenderAll(kind, cols, sorted)
  {
    lines := [];
    for i := 0 to |sorted|
      invariant lines == RenderAll(kind, cols, sorted[..i])
    {
      lines := lines + [Render(kind, cols, sorted[i])];
    }
    assert sorted[..|sorted|] == sorted;
  }

  /** The body of a sheet builder's units loop: build `sort_rows`, sort it
      on (rank, secondary key), and write the rows. */
  method BuildBlock(recs: seq<DashRow>, kind: SheetKind, cols: Columns) returns (lines: seq<SheetLine>)
    ensures lines == BlockLines(recs, kind, cols)
  {
    var sortRows := CollectSortRows(recs, kind);
    lines := WriteRows(SortBy(sortRows, SortRowKey), kind, cols);
  }

  /** The rank a written row is sorted on, recomputed from its values. */
  function LineRank(kind: SheetKind, l: SheetLine): int {
    WinnerRank(WinnerLabel(l.stats, l.marketing, SheetMode(kind)))
  }

  lemma KeyLeHead(a: real, x: seq<Atom>, b: real, y: seq<Atom>)
    requires KeyLe([Num(a)] + x, [Num(b)] + y)
    ensures a <= b
    ensures a == b ==> KeyLe(x, y)
  {
    assert ([Num(a)] + x)[1..] == x;
    assert ([Num(b)] + y)[1..] == y;
  }

  /** The rows of a block are listed Stats Model wins first, then
      Marketing wins, then ties and rows without a winner; within one rank
      by the sheet's secondary key. */
  lemma BlockLinesOrdered(recs: seq<DashRow>, kind: SheetKind, cols: Columns)
    ensures var lines := BlockLines(recs, kind, cols);
      forall i, j :: 0 <= i < j < |lines| ==>
        && LineRank(kind, lines[i]) <= LineRank(kind, lines[j])
        && (LineRank(kind, lines[i]) == LineRank(kind, lines[j]) ==>
              KeyLe(SecondaryKey(kind, lines[i].name, lines[i].manager), SecondaryKey(kind, lines[j].name, lines[j].manager)))
  {
    var rows := SortRows(recs, kind, Labels(recs));
    var sorted := SortBy(rows, SortRowKey);
    var lines := BlockLines(recs, kind, cols);
    SortBySorted(rows, SortRowKey);
    SortByPermutes(rows, SortRowKey);
    forall i, j | 0 <= i < j < |lines|
      ensures LineRank(kind, lines[i]) <= LineRank(kind, lines[j])
      ensures LineRank(kind, lines[i]) == LineRank(kind, lines[j]) ==>
        KeyLe(SecondaryKey(kind, lines[i].name, lines[i].manager), SecondaryKey(kind, lines[j].name, lines[j].manager))
    {
      assert sorted[i] in multiset(rows) && sorted[j] in multiset(rows);
      SortRowShape(recs, kind, Labels(recs), sorted[i]);
      SortRowShape(recs, kind, Labels(recs), sorted[j]);
      KeyLeHead(LineRank(kind, lines[i]) as real, SecondaryKey(kind, lines[i].name, lines[i].manager),
                LineRank(kind, lines[j]) as real, SecondaryKey(kind, lines[j].name, lines[j].manager));
    }
  }

  /** Every entry of `sort_rows` is built from a record of the block with
      the sheet's metric. */
  lemma {:induction false} SortRowShape(recs: seq<DashRow>, kind: SheetKind, labels: seq<Cell>, r: SortRow)
    requires r in SortRows(recs, kind, labels)
    ensures exists d :: d in recs && d.metric == SheetMetric(kind) && r == SortRowOf(kind, d)
    decreases |labels|
  {
    var init := labels[..|labels| - 1];
    if r in SortRows(recs, kind, init) {
      SortRowShape(recs, kind, init, r);
    } else {
      var d := FirstWith(recs, labels[|labels| - 1], SheetMetric(kind)).value;
      assert r == SortRowOf(kind, d);
    }
  }

  /** Every label of the block gets exactly one row, holding the values of
      its first record with the sheet's metric, unless it has no such record. */
  lemma {:induction false} SortRowsPerLabel(recs: seq<DashRow>, kind: SheetKind, labels: seq<Cell>)
    ensures |SortRows(recs, kind, labels)| <= |labels|
    ensures forall l :: l in labels && FirstWith(recs, l, SheetMetric(kind)).Some? ==>
      SortRowOf(kind, FirstWith(recs, l, SheetMetric(kind)).value) in SortRows(recs, kind, labels)
    decreases |labels|
  {
    if |labels| > 0 {
      var init := labels[..|labels| - 1];
      SortRowsPerLabel(recs, kind, init);
      assert forall l :: l in labels <==> l in init || l == labels[|labels| - 1];
    }
  }

  /** The block writes the rows of `sort_rows`, each once, only reordered. */
  lemma BlockLinesPermute(recs: seq<DashRow>, kind: SheetKind, cols: Columns)
    ensures multiset(BlockLines(recs, kind, cols)) == multiset(RenderAll(kind, cols, SortRows(recs, kind, Labels(recs))))
  {
    var rows := SortRows(recs, kind, Labels(recs));
    var sorted := SortBy(rows, SortRowKey);
    SortByPermutes(rows, SortRowKey);
    RenderPermutes(kind, cols, rows, sorted);
  }

  lemma {:induction false} RenderPermutes(kind: SheetKind, cols: Columns, a: seq<SortRow>, b: seq<SortRow>)
    requires multiset(a) == multiset(b)
    ensures multiset(RenderAll(kind, cols, a)) == multiset(RenderAll(kind, cols, b))
    decreases |a|
  {
    if |a| > 0 {
      var x := a[|a| - 1];
      assert x in multiset(b);
      var k :| 0 <= k < |b| && b[k] == x;
      var a', p, q := a[..|a| - 1], b[..k], b[k + 1..];
      assert a == a' + [x];
      assert b == p + [x] + q;
      RemoveOne(a', p, q, x);
      RenderPermutes(kind, cols, a', p + q);
      RenderAllAppend(kind, cols, a', [x]);
      RenderAllAppend(kind, cols, p + [x], q);
      RenderAllAppend(kind, cols, p, [x]);
      RenderAllAppend(kind, cols, p, q);
    }
  }

  lemma RemoveOne<T>(a: seq<T>, p: seq<T>, q: seq<T>, x: T)
    requires multiset(a + [x]) == multiset(p + [x] + q)
    ensures multiset(a) == multiset(p + q)
  {
    calc {
      multiset(a);
      multiset(a + [x]) - multiset{x};
      multiset(p + [x] + q) - multiset{x};
      multiset(p) + multiset{x} + multiset(q) - multiset{x};
      multiset(p) + multiset(q);
      multiset(p + q);
    }
  }

  lemma RenderAllAppend(kind: SheetKind, cols: Columns, s: seq<SortRow>, t: seq<SortRow>)
    ensures RenderAll(kind, cols, s + t) == RenderAll(kind, cols, s) + RenderAll(kind, cols, t)
  {
  }

  /** Only product rows are ever hidden, exactly under the hiding rule
      (which tests `pd.isna`, so a missing value hides the row), and a
      hidden row gets no highlight; any other row goes through
      highlight_winner. So on the product sheet a missing value is never
      highlighted, while on the other sheets it can be. */
  lemma LineHiddenSpec(kind: SheetKind, cols: Columns, d: DashRow)
    ensures var l := Render(kind, cols, SortRowOf(kind, d));
      && (l.hidden <==> kind == ProductSheet && IsHidden(Column(d, 2), Column(d, 3), d.stats, d.marketing))
      && (l.hidden ==> l.highlight == NoHighlight)
      && (!l.hidden ==> l.highlight == HighlightWinner(Stored(d.stats, cols.statsNumeric), Stored(d.marketing, cols.marketingNumeric), SheetMode(kind)))
      && (kind == ProductSheet && d.stats == Some(0.0) && d.marketing == Some(0.0) ==> l.hidden)
      && (kind == ProductSheet && (d.stats.None? || d.marketing.None?) ==> l.hidden && l.highlight == NoHighlight)
  {
  }

  // ---------------------------------------------------------------------
  // The totals sheet

  /** A metric row of the totals sheet: WAPE rows are compared lower-is-
      better and hidden; accuracy rows are compared closest-to-one. A
      missing ratio read back as NaN highlights the Marketing cell. */
  function TotalsLine(d: DashRow, cols: Columns): (l: SheetLine)
    ensures l.hidden <==> d.metric == Wape
    ensures l.highlight == HighlightStats ==> d.stats.Some? && d.marketing.Some? && d.stats != d.marketing
    ensures d.stats.Some? && d.marketing.Some? && d.stats == d.marketing ==> l.highlight == NoHighlight
    ensures d.stats.None? || d.marketing.None? ==>
      (l.highlight == HighlightMarketing <==>
         (d.stats.Some? || cols.statsNumeric) && (d.marketing.Some? || cols.marketingNumeric))
      && (l.highlight != HighlightStats)
    ensures d.metric == Wape && d.stats.Some? && d.marketing.Some? ==>
      (l.highlight == HighlightStats <==> d.stats.value < d.marketing.value) &&
      (l.highlight == HighlightMarketing <==> d.marketing.value < d.stats.value)
    ensures d.metric != Wape && d.stats.Some? && d.marketing.Some? ==>
      (l.highlight == HighlightStats <==> Abs(d.stats.value - 1.0) < Abs(d.marketing.value - 1.0)) &&
      (l.highlight == HighlightMarketing <==> Abs(d.marketing.value - 1.0) < Abs(d.stats.value - 1.0))
  {
    SheetLine(Column(d, 1), Null, d.stats, d.marketing,
              HighlightWinner(Stored(d.stats, cols.statsNumeric), Stored(d.marketing, cols.marketingNumeric),
                              if d.metric == Wape then LowerIsBetter else ClosestToOne),
              d.metric == Wape)
  }
}
