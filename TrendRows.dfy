/** The rolling trend report, month by month: the window of months it
    covers (resolve_window, month_sequence) and the long-form metric rows of
    one month (_view_rows, build_month_trend_rows). The trend's accuracy is
    actuals over forecast, the inverse of the dashboards' ratio. */
module TrendRows {
  import opened Wrappers
  import opened Dates
  import opened Tables
  import opened Sums
  import opened Reconcile
  import opened Dashboards

  // ---------------------------------------------------------------------
  // The window of months

  /** `+ pd.offsets.MonthBegin(1)`: the first day of the next month. */
  function NextMonthStart(d: Date): (r: Date)
    ensures r.day == 1 && MonthIndex(r) == MonthIndex(d) + 1
  {
    FirstOfIndex(MonthIndex(d) + 1)
  }

  /** The i-th entry of the window starting at `start`: start itself, then
      the first days of the following months. */
  function WindowEntry(start: Date, i: nat): Date {
    if i == 0 then start else FirstOfIndex(MonthIndex(start) + i)
  }

  /** The months from start to end inclusive. */
  function MonthRange(start: Date, end: Date): seq<Date> {
    if !DateLe(start, end) then []
    else
      DateLeMonthIndex(start, end);
      seq(MonthIndex(end) - MonthIndex(start) + 1, i requires 0 <= i => WindowEntry(start, i))
  }

  /** The range is empty when start is after end; otherwise it starts at
      start and holds one date per calendar month up to end's month, the
      later ones on day 1, in increasing order and none after end. */
  lemma MonthRangeSpec(start: Date, end: Date)
    ensures var r := MonthRange(start, end);
      && (r == [] <==> !DateLe(start, end))
      && (DateLe(start, end) ==> |r| == MonthIndex(end) - MonthIndex(start) + 1 && r[0] == start)
      && (forall i :: 0 <= i < |r| ==> MonthIndex(r[i]) == MonthIndex(start) + i && DateLe(r[i], end))
      && (forall i :: 0 < i < |r| ==> r[i].day == 1)
      && (forall i, j :: 0 <= i < j < |r| ==> DateLe(r[i], r[j]) && r[i] != r[j])
  {
    var r := MonthRange(start, end);
    forall i | 0 <= i < |r|
      ensures MonthIndex(r[i]) == MonthIndex(start) + i && DateLe(r[i], end)
      ensures i > 0 ==> r[i].day == 1
    {
      WindowEntrySpec(start, i);
      DateLeMonthIndex(r[i], end);
      MonthIndexSameMonth(r[i], end);
    }
    forall i, j | 0 <= i < j < |r|
      ensures DateLe(r[i], r[j]) && r[i] != r[j]
    {
      DateLeMonthIndex(r[i], r[j]);
    }
  }

  /** month_sequence. */
  method MonthSequence(start: Date, end: Date) returns (months: seq<Date>)
    ensures months == MonthRange(start, end)
  {
    months := [];
    var current := start;
    while DateLe(current, end)
      invariant current == WindowEntry(start, |months|)
      invariant forall i :: 0 <= i < |months| ==> months[i] == WindowEntry(start, i)
      invariant forall i :: 0 <= i < |months| ==> DateLe(months[i], end)
      invariant |months| > 0 ==> |months| <= MonthIndex(end) - MonthIndex(start) + 1
      invariant |months| > 0 ==> MonthIndex(current) == MonthIndex(start) + |months|
      decreases MonthIndex(end) - MonthIndex(current) + 1
    {
      DateLeMonthIndex(current, end);
      months := months + [current];
      current := NextMonthStart(current);
    }
    if |months| > 0 {
      WindowEnds(start, end, |months|, current);
      assert |months| == |MonthRange(start, end)|;
    }
  }

  lemma WindowEnds(start: Date, end: Date, n: nat, current: Date)
    requires n > 0 && current == WindowEntry(start, n) && MonthIndex(current) == MonthIndex(start) + n
    requires n <= MonthIndex(end) - MonthIndex(start) + 1
    requires !DateLe(current, end)
    ensures n == MonthIndex(end) - MonthIndex(start) + 1
  {
    DateLeMonthIndex(current, end);
  }

  /** The entries of the window are strictly increasing first days (apart
      from the start, which keeps its day), one per calendar month. */
  lemma WindowEntrySpec(start: Date, i: nat)
    ensures MonthIndex(WindowEntry(start, i)) == MonthIndex(start) + i
    ensures i > 0 ==> WindowEntry(start, i).day == 1
    ensures start.day == 1 ==> WindowEntry(start, i) == FirstOfIndex(MonthIndex(start) + i)
  {
    if i == 0 && start.day == 1 {
      FirstOfIndexOfMonth(start);
    }
  }

  /** resolve_window for an anchor on the first of a month (the only kind
      the report month resolution produces): the window ends at the anchor
      and starts `window - 1` months earlier. */
  function ResolveWindow(anchor: Date, window: int): (r: Result<(Date, Date)>)
    requires anchor.day == 1
    ensures r.Err? <==> window <= 0
    ensures r.Ok? ==> (r.value.1 == anchor && r.value.0.day == 1
                       && MonthIndex(r.value.0) == MonthIndex(anchor) - (window - 1))
  {
    if window <= 0 then Err("--window-months must be >= 1")
    else Ok((FirstOfIndex(MonthIndex(anchor) - (window - 1)), anchor))
  }

  /** The window of a valid request holds exactly `window` months, all on
      day 1, the last of them the anchor. */
  lemma ResolvedWindowLength(anchor: Date, window: int)
    requires anchor.day == 1 && window >= 1
    ensures var (s, e) := ResolveWindow(anchor, window).value;
      && |MonthRange(s, e)| == window
      && MonthRange(s, e)[window - 1] == anchor
      && forall i :: 0 <= i < window ==> MonthRange(s, e)[i].day == 1
  {
    var (s, e) := ResolveWindow(anchor, window).value;
    DateLeMonthIndex(s, e);
    MonthRangeSpec(s, e);
    FirstOfIndexOfMonth(anchor);
    WindowEntrySpec(s, window - 1);
  }

  // ---------------------------------------------------------------------
  // The rows of one month

  datatype ViewLevel = TotalView | BuView | ProdFamView | ProductView

  datatype ModelSide = StatsModelSide | MarketingModelSide

  /** The label columns of a row: bu_code, bu_name, prod_fam, product,
      marketing_manager (`str()` of the group keys). */
  datatype Labels = Labels(buCode: string, buName: string, prodFam: string, product: string, manager: string)

  /** A long-form trend row (metric "midmark_fcast_acc"). */
  datatype TrendRow = TrendRow(
    month: Date, units: string, level: ViewLevel, labels: Labels,
    actualsSum: real, side: ModelSide, metric: Option<real>,
    forecastSum: real, absErrorSum: real)

  /** The trend's accuracy: actuals over forecast, no value for a zero forecast. */
  function TrendAccuracy(actuals: real, forecast: real): (r: Option<real>)
    ensures r.None? <==> forecast == 0.0
    ensures r.Some? ==> r.value * forecast == actuals
  {
    SafeRatio(actuals, forecast)
  }

  /** _view_rows: the stats-model row and the marketing row of one group. */
  function ViewRows(s: ColumnSums, month: Date, units: string, level: ViewLevel, l: Labels): (r: seq<TrendRow>)
    ensures |r| == 2
  {
    [TrendRow(month, units, level, l, s.actuals, StatsModelSide, TrendAccuracy(s.actuals, s.stats), s.stats, s.statsAbs),
     TrendRow(month, units, level, l, s.actuals, MarketingModelSide, TrendAccuracy(s.actuals, s.marketing), s.marketing, s.marketingAbs)]
  }

  /** `str(key)` of the i-th group-by column. */
  function KeyText(k: seq<Cell>, i: nat): string {
    if i < |k| then CellText(k[i]) else ""
  }

  /** The first row of a group, in row order. */
  function FirstOfGroup(ur: seq<RawRow>, key: RawRow -> seq<Cell>, k: seq<Cell>): (r: Option<RawRow>)
    ensures r.Some? ==> r.value in ur && key(r.value) == k
    ensures r.None? ==> forall i :: 0 <= i < |ur| ==> key(ur[i]) != k
    decreases |ur|
  {
    if |ur| == 0 then None
    else if key(ur[0]) == k then Some(ur[0])
    else FirstOfGroup(ur[1..], key, k)
  }

  function LevelKey(level: ViewLevel): RawRow -> seq<Cell> {
    match level
    case TotalView => BuKey
    case BuView => BuKey
    case ProdFamView => ProdFamKey
    case ProductView => ProductKey
  }

  /** The labels of a group: the product rows take the family of the
      group's first row. */
  function GroupLabels(ur: seq<RawRow>, level: ViewLevel, k: seq<Cell>): Labels {
    match level
    case TotalView => Labels("ALL", "Total", "", "", "")
    case BuView => Labels(KeyText(k, 0), KeyText(k, 1), "", "", "")
    case ProdFamView => Labels(KeyText(k, 0), KeyText(k, 1), KeyText(k, 2), "", "")
    case ProductView =>
      var fam := match FirstOfGroup(ur, ProductKey, k) case Some(r) => CellText(r.prodFam) case None => "";
      Labels(KeyText(k, 0), KeyText(k, 1), fam, KeyText(k, 2), KeyText(k, 3))
  }

  /** The rows of the groups ks of one level, group by group. */
  function LevelRows(ur: seq<RawRow>, month: Date, units: string, level: ViewLevel, ks: seq<seq<Cell>>): (r: seq<TrendRow>)
    ensures |r| == 2 * |ks|
    decreases |ks|
  {
    if |ks| == 0 then []
    else
      var k := ks[|ks| - 1];
      LevelRows(ur, month, units, level, ks[..|ks| - 1])
      + ViewRows(GroupSums(ur, LevelKey(level), k), month, units, level, GroupLabels(ur, level, k))
  }

  /** The total rows of one unit: all BUs together, labelled "ALL" / "Total". */
  function TotalRows(ur: seq<RawRow>, month: Date, units: string): seq<TrendRow> {
    ViewRows(SumsOf(ur), month, units, TotalView, GroupLabels(ur, TotalView, []))
  }

  /** The rows of a unit with raw rows ur: the total, then the groups bus,
      fams and prods of the BU, (BU, family) and (BU, product, manager)
      levels. */
  function UnitBody(ur: seq<RawRow>, month: Date, units: string, bus: seq<seq<Cell>>, fams: seq<seq<Cell>>, prods: seq<seq<Cell>>): seq<TrendRow> {
    TotalRows(ur, month, units)
    + LevelRows(ur, month, units, BuView, bus)
    + LevelRows(ur, month, units, ProdFamView, fams)
    + LevelRows(ur, month, units, ProductView, prods)
  }

  /** The rows of one unit of measure: none when it has no raw rows. */
  function UnitTrendRows(raw: seq<RawRow>, month: Date, units: string): seq<TrendRow> {
    var ur := UnitRows(raw, units);
    if |ur| == 0 then [] else UnitBody(ur, month, units, Groups(ur, BuKey), Groups(ur, ProdFamKey), Groups(ur, ProductKey))
  }

  /** The rows of one month, as a function of the unit. */
  function UnitTrendFn(raw: seq<RawRow>, month: Date): string -> seq<TrendRow> {
    u => UnitTrendRows(raw, month, u)
  }

  /** The rows of the units us, one after the other. */
  function TrendSections(raw: seq<RawRow>, month: Date, us: seq<string>): seq<TrendRow> {
    Concat(us, UnitTrendFn(raw, month))
  }

  /** The rows build_month_trend_rows returns. */
  function MonthTrendRows(raw: seq<RawRow>, month: Date): seq<TrendRow> {
    TrendSections(raw, month, UnitsOrder)
  }

  /** `records.extend(_view_rows(...))` for every group of one level. */
  method ExtendLevel(records: seq<TrendRow>, ur: seq<RawRow>, month: Date, units: string, level: ViewLevel, ks: seq<seq<Cell>>)
    returns (out: seq<TrendRow>)
    ensures out == records + LevelRows(ur, month, units, level, ks)
  {
    out := records;
    for gi := 0 to |ks|
      invariant out == records + LevelRows(ur, month, units, level, ks[..gi])
    {
      assert ks[..gi + 1][..gi] == ks[..gi] && ks[..gi + 1][gi] == ks[gi];
      out := out + ViewRows(GroupSums(ur, LevelKey(level), ks[gi]), month, units, level, GroupLabels(ur, level, ks[gi]));
    }
    assert ks[..|ks|] == ks;
  }

  /** The body of the loop over units, for a unit with raw rows. */
  method ExtendBody(records: seq<TrendRow>, ur: seq<RawRow>, month: Date, units: string,
                    bus: seq<seq<Cell>>, fams: seq<seq<Cell>>, prods: seq<seq<Cell>>)
    returns (out: seq<TrendRow>)
    ensures out == records + UnitBody(ur, month, units, bus, fams, prods)
  {
    ghost var total := TotalRows(ur, month, units);
    out := records + ViewRows(SumsOf(ur), month, units, TotalView, Labels("ALL", "Total", "", "", ""));
    assert out == records + total;
    out := ExtendLevel(out, ur, month, units, BuView, bus);
    out := ExtendLevel(out, ur, month, units, ProdFamView, fams);
    out := ExtendLevel(out, ur, month, units, ProductView, prods);
    assert out == records + (total + LevelRows(ur, month, units, BuView, bus)
      + LevelRows(ur, month, units, ProdFamView, fams) + LevelRows(ur, month, units, ProductView, prods));
  }

  /** The body of the loop over units. */
  method ExtendUnit(records: seq<TrendRow>, raw: seq<RawRow>, month: Date, units: string) returns (out: seq<TrendRow>)
    ensures out == records + UnitTrendRows(raw, month, units)
  {
    var ur := UnitRows(raw, units);
    if |ur| == 0 {
      return records;
    }
    out := ExtendBody(records, ur, month, units, Groups(ur, BuKey), Groups(ur, ProdFamKey), Groups(ur, ProductKey));
  }

  /** build_month_trend_rows. */
  method BuildMonthTrendRows(raw: seq<RawRow>, month: Date) returns (records: seq<TrendRow>)
    ensures records == MonthTrendRows(raw, month)
  {
    records := [];
    for ui := 0 to |UnitsOrder|
      invariant records == TrendSections(raw, month, UnitsOrder[..ui])
    {
      ConcatSnoc(UnitsOrder, ui, UnitTrendFn(raw, month));
      records := ExtendUnit(records, raw, month, UnitsOrder[ui]);
    }
    assert UnitsOrder[..|UnitsOrder|] == UnitsOrder;
  }

  // ---------------------------------------------------------------------
  // What the rows mean

  /** A row's metric is its actuals over its forecast, with no value
      exactly when the forecast sums to zero. */
  predicate RatioConsistent(r: TrendRow) {
    && (r.metric.None? <==> r.forecastSum == 0.0)
    && (r.metric.Some? ==> r.metric.value * r.forecastSum == r.actualsSum)
  }

  /** The rows come in pairs: a stats-model row followed by the marketing
      row of the same group, with the same actuals. */
  predicate InPairs(s: seq<TrendRow>) {
    && |s| % 2 == 0
    && forall i :: 0 <= i < |s| / 2 ==>
         && s[2 * i].side == StatsModelSide && s[2 * i + 1].side == MarketingModelSide
         && s[2 * i].month == s[2 * i + 1].month && s[2 * i].units == s[2 * i + 1].units
         && s[2 * i].level == s[2 * i + 1].level && s[2 * i].labels == s[2 * i + 1].labels
         && s[2 * i].actualsSum == s[2 * i + 1].actualsSum
  }

  /** Every row of a well-formed month belongs to that month, to a unit that
      has raw rows, and has a consistent ratio. */
  predicate WellFormed(s: seq<TrendRow>, raw: seq<RawRow>, month: Date) {
    forall i :: 0 <= i < |s| ==>
      s[i].month == month && RatioConsistent(s[i]) && |UnitRows(raw, s[i].units)| > 0
  }

  lemma InPairsAppend(a: seq<TrendRow>, b: seq<TrendRow>)
    requires InPairs(a) && InPairs(b)
    ensures InPairs(a + b)
  {
    var s := a + b;
    forall i | 0 <= i < |s| / 2
      ensures s[2 * i].side == StatsModelSide && s[2 * i + 1].side == MarketingModelSide
      ensures s[2 * i].month == s[2 * i + 1].month && s[2 * i].units == s[2 * i + 1].units
      ensures s[2 * i].level == s[2 * i + 1].level && s[2 * i].labels == s[2 * i + 1].labels
      ensures s[2 * i].actualsSum == s[2 * i + 1].actualsSum
    {
      if i < |a| / 2 {
        assert s[2 * i] == a[2 * i] && s[2 * i + 1] == a[2 * i + 1];
      } else {
        var j := i - |a| / 2;
        assert s[2 * i] == b[2 * j] && s[2 * i + 1] == b[2 * j + 1];
      }
    }
  }

  lemma WellFormedAppend(a: seq<TrendRow>, b: seq<TrendRow>, raw: seq<RawRow>, month: Date)
    requires WellFormed(a, raw, month) && WellFormed(b, raw, month)
    ensures WellFormed(a + b, raw, month)
  {
    assert forall i :: |a| <= i < |a + b| ==> (a + b)[i] == b[i - |a|];
  }

  /** _view_rows gives a stats-model row and a marketing row of one group,
      each with the matching forecast and absolute-error sums. */
  lemma ViewRowsSpec(s: ColumnSums, month: Date, units: string, level: ViewLevel, l: Labels)
    ensures var r := ViewRows(s, month, units, level, l);
      && InPairs(r)
      && RatioConsistent(r[0]) && RatioConsistent(r[1])
      && r[0].forecastSum == s.stats && r[0].absErrorSum == s.statsAbs
      && r[1].forecastSum == s.marketing && r[1].absErrorSum == s.marketingAbs
      && r[0].actualsSum == s.actuals
      && r[0].month == month && r[1].month == month
  {
  }

  lemma {:induction false} LevelRowsShape(ur: seq<RawRow>, raw: seq<RawRow>, month: Date, units: string, level: ViewLevel, ks: seq<seq<Cell>>)
    requires |UnitRows(raw, units)| > 0
    ensures InPairs(LevelRows(ur, month, units, level, ks))
    ensures WellFormed(LevelRows(ur, month, units, level, ks), raw, month)
    ensures forall i :: 0 <= i < |LevelRows(ur, month, units, level, ks)| ==>
      LevelRows(ur, month, units, level, ks)[i].level == level && LevelRows(ur, month, units, level, ks)[i].units == units
    decreases |ks|
  {
    if |ks| > 0 {
      var k := ks[|ks| - 1];
      var init := LevelRows(ur, month, units, level, ks[..|ks| - 1]);
      var last := ViewRows(GroupSums(ur, LevelKey(level), k), month, units, level, GroupLabels(ur, level, k));
      LevelRowsShape(ur, raw, month, units, level, ks[..|ks| - 1]);
      ViewRowsSpec(GroupSums(ur, LevelKey(level), k), month, units, level, GroupLabels(ur, level, k));
      InPairsAppend(init, last);
      WellFormedAppend(init, last, raw, month);
    }
  }

  lemma UnitBodyShape(ur: seq<RawRow>, raw: seq<RawRow>, month: Date, units: string,
                      bus: seq<seq<Cell>>, fams: seq<seq<Cell>>, prods: seq<seq<Cell>>)
    requires |UnitRows(raw, units)| > 0
    ensures |UnitBody(ur, month, units, bus, fams, prods)| == 2 * (1 + |bus| + |fams| + |prods|)
    ensures InPairs(UnitBody(ur, month, units, bus, fams, prods))
    ensures WellFormed(UnitBody(ur, month, units, bus, fams, prods), raw, month)
  {
    var total := TotalRows(ur, month, units);
    TotalRowsShape(ur, raw, month, units);
    var b := LevelRows(ur, month, units, BuView, bus);
    var f := LevelRows(ur, month, units, ProdFamView, fams);
    var p := LevelRows(ur, month, units, ProductView, prods);
    LevelRowsShape(ur, raw, month, units, BuView, bus);
    LevelRowsShape(ur, raw, month, units, ProdFamView, fams);
    LevelRowsShape(ur, raw, month, units, ProductView, prods);
    AppendThree(total, b, f, p, raw, month);
  }

  lemma TotalRowsShape(ur: seq<RawRow>, raw: seq<RawRow>, month: Date, units: string)
    requires |UnitRows(raw, units)| > 0
    ensures |TotalRows(ur, month, units)| == 2
    ensures InPairs(TotalRows(ur, month, units))
    ensures WellFormed(TotalRows(ur, month, units), raw, month)
  {
    ViewRowsSpec(SumsOf(ur), month, units, TotalView, GroupLabels(ur, TotalView, []));
  }

  lemma AppendThree(a: seq<TrendRow>, b: seq<TrendRow>, c: seq<TrendRow>, d: seq<TrendRow>, raw: seq<RawRow>, month: Date)
    requires InPairs(a) && InPairs(b) && InPairs(c) && InPairs(d)
    requires WellFormed(a, raw, month) && WellFormed(b, raw, month) && WellFormed(c, raw, month) && WellFormed(d, raw, month)
    ensures InPairs(a + b + c + d) && WellFormed(a + b + c + d, raw, month)
  {
    InPairsAppend(a, b);
    InPairsAppend(a + b, c);
    InPairsAppend(a + b + c, d);
    WellFormedAppend(a, b, raw, month);
    WellFormedAppend(a + b, c, raw, month);
    WellFormedAppend(a + b + c, d, raw, month);
  }

  /** The rows of one unit: nothing without raw rows, otherwise two rows
      for the total and two per BU, per (BU, family) and per (BU, product,
      manager) group, in pairs, all well formed. */
  lemma UnitTrendRowsSpec(raw: seq<RawRow>, month: Date, units: string)
    ensures var ur := UnitRows(raw, units);
      && |UnitTrendRows(raw, month, units)| ==
           (if |ur| == 0 then 0
            else 2 * (1 + |Groups(ur, BuKey)| + |Groups(ur, ProdFamKey)| + |Groups(ur, ProductKey)|))
      && InPairs(UnitTrendRows(raw, month, units))
      && WellFormed(UnitTrendRows(raw, month, units), raw, month)
  {
    var ur := UnitRows(raw, units);
    if |ur| > 0 {
      UnitBodyShape(ur, raw, month, units, Groups(ur, BuKey), Groups(ur, ProdFamKey), Groups(ur, ProductKey));
    }
  }

  /** Rows j and j + 1 of s are the pair of one group: the stats-model row
      and then the marketing row, of the month, units and level, with labels
      l, both carrying the group's actuals sum g.actuals, each its own
      forecast and absolute-error sums, and actuals over that forecast. */
  predicate PairOf(s: seq<TrendRow>, j: int, month: Date, units: string, level: ViewLevel, l: Labels, g: ColumnSums) {
    && 0 <= j && j + 1 < |s|
    && s[j].month == month && s[j + 1].month == month
    && s[j].units == units && s[j + 1].units == units
    && s[j].level == level && s[j + 1].level == level
    && s[j].labels == l && s[j + 1].labels == l
    && s[j].side == StatsModelSide && s[j + 1].side == MarketingModelSide
    && s[j].actualsSum == g.actuals && s[j + 1].actualsSum == g.actuals
    && s[j].forecastSum == g.stats && s[j].absErrorSum == g.statsAbs
    && s[j + 1].forecastSum == g.marketing && s[j + 1].absErrorSum == g.marketingAbs
    && s[j].metric == TrendAccuracy(g.actuals, g.stats)
    && s[j + 1].metric == TrendAccuracy(g.actuals, g.marketing)
  }

  /** A pair keeps its shape when other rows are written before and after it. */
  lemma PairIn(s: seq<TrendRow>, a: seq<TrendRow>, b: seq<TrendRow>, c: seq<TrendRow>, j: int,
               month: Date, units: string, level: ViewLevel, l: Labels, g: ColumnSums)
    requires s == a + b + c
    requires PairOf(b, j, month, units, level, l, g)
    ensures PairOf(s, |a| + j, month, units, level, l, g)
  {
    assert s[|a| + j] == b[j] && s[|a| + j + 1] == b[j + 1];
  }

  /** The i-th pair of a level's rows is the pair of its i-th group: the
      group's labels and the sums over the raw rows with that group key. */
  lemma {:induction false} LevelRowsAt(ur: seq<RawRow>, month: Date, units: string, level: ViewLevel, ks: seq<seq<Cell>>, i: int)
    requires 0 <= i < |ks|
    ensures PairOf(LevelRows(ur, month, units, level, ks), 2 * i, month, units, level,
                   GroupLabels(ur, level, ks[i]), GroupSums(ur, LevelKey(level), ks[i]))
    decreases |ks|
  {
    var init := LevelRows(ur, month, units, level, ks[..|ks| - 1]);
    var k := ks[|ks| - 1];
    var last := ViewRows(GroupSums(ur, LevelKey(level), k), month, units, level, GroupLabels(ur, level, k));
    if i < |ks| - 1 {
      LevelRowsAt(ur, month, units, level, ks[..|ks| - 1], i);
      PairIn(init + last, [], init, last, 2 * i, month, units, level,
             GroupLabels(ur, level, ks[i]), GroupSums(ur, LevelKey(level), ks[i]));
    } else {
      assert PairOf(last, 0, month, units, level, GroupLabels(ur, level, k), GroupSums(ur, LevelKey(level), k));
      PairIn(init + last, init, last, [], 0, month, units, level, GroupLabels(ur, level, k), GroupSums(ur, LevelKey(level), k));
    }
  }

  /** The layout of a unit's rows, position by position: the pair of the
      unit's totals first, then one pair per BU group, per (BU, family)
      group and per (BU, product, manager) group, in the order of bus, fams
      and prods, each with its group's labels and the sums over the raw rows
      of that group. */
  predicate UnitLayout(rows: seq<TrendRow>, ur: seq<RawRow>, month: Date, units: string,
                       bus: seq<seq<Cell>>, fams: seq<seq<Cell>>, prods: seq<seq<Cell>>) {
    && PairOf(rows, 0, month, units, TotalView, Labels("ALL", "Total", "", "", ""), SumsOf(ur))
    && LevelLayout(rows, 2, ur, month, units, BuView, bus)
    && LevelLayout(rows, 2 + 2 * |bus|, ur, month, units, ProdFamView, fams)
    && LevelLayout(rows, 2 + 2 * |bus| + 2 * |fams|, ur, month, units, ProductView, prods)
  }

  /** From position off on, rows holds one pair per group of ks at the
      given level, in the order of ks: the group's labels, and the sums over
      the raw rows whose key at that level is the group's. */
  predicate LevelLayout(rows: seq<TrendRow>, off: int, ur: seq<RawRow>, month: Date, units: string,
                        level: ViewLevel, ks: seq<seq<Cell>>) {
    forall i :: 0 <= i < |ks| ==>
      PairOf(rows, off + 2 * i, month, units, level, GroupLabels(ur, level, ks[i]), GroupSums(ur, LevelKey(level), ks[i]))
  }

  /** The totals rows are the pair of the whole unit. */
  lemma TotalRowsPair(ur: seq<RawRow>, month: Date, units: string)
    ensures PairOf(TotalRows(ur, month, units), 0, month, units, TotalView, Labels("ALL", "Total", "", "", ""), SumsOf(ur))
  {
  }

  /** A level's rows are laid out from position 0 in the order of its groups. */
  lemma LevelRowsLayout(ur: seq<RawRow>, month: Date, units: string, level: ViewLevel, ks: seq<seq<Cell>>)
    ensures LevelLayout(LevelRows(ur, month, units, level, ks), 0, ur, month, units, level, ks)
  {
    forall i | 0 <= i < |ks|
      ensures PairOf(LevelRows(ur, month, units, level, ks), 0 + 2 * i, month, units, level,
                     GroupLabels(ur, level, ks[i]), GroupSums(ur, LevelKey(level), ks[i]))
    {
      LevelRowsAt(ur, month, units, level, ks, i);
    }
  }

  /** A layout keeps its shape when its rows are copied to position off of
      a longer sequence. */
  lemma LevelShift(rows: seq<TrendRow>, b: seq<TrendRow>, off: int,
                   ur: seq<RawRow>, month: Date, units: string, level: ViewLevel, ks: seq<seq<Cell>>)
    requires 0 <= off && off + 2 * |ks| <= |rows| && |b| == 2 * |ks|
    requires rows[off..off + 2 * |ks|] == b
    requires LevelLayout(b, 0, ur, month, units, level, ks)
    ensures LevelLayout(rows, off, ur, month, units, level, ks)
  {
    forall i | 0 <= i < |ks|
      ensures PairOf(rows, off + 2 * i, month, units, level, GroupLabels(ur, level, ks[i]), GroupSums(ur, LevelKey(level), ks[i]))
    {
      assert PairOf(b, 0 + 2 * i, month, units, level, GroupLabels(ur, level, ks[i]), GroupSums(ur, LevelKey(level), ks[i]));
      assert rows[off + 2 * i] == b[2 * i] && rows[off + 2 * i + 1] == b[2 * i + 1];
    }
  }

  /** Where each of four parts lands in their concatenation, the first of
      length 2 and the next two of lengths n1 and n2. */
  lemma AppendFourSlices<T>(rows: seq<T>, t: seq<T>, b: seq<T>, f: seq<T>, p: seq<T>, n1: int, n2: int, n3: int)
    requires rows == t + b + f + p && |t| == 2 && |b| == n1 && |f| == n2 && |p| == n3
    ensures rows[0] == t[0] && rows[1] == t[1]
    ensures 2 + n1 + n2 + n3 == |rows|
    ensures rows[2..2 + n1] == b
    ensures rows[2 + n1..2 + n1 + n2] == f
    ensures rows[2 + n1 + n2..2 + n1 + n2 + n3] == p
  {
    assert rows[2..2 + n1] == (t + b)[2..];
    assert rows[2 + n1..2 + n1 + n2] == (t + b + f)[2 + n1..];
    assert rows[2 + n1 + n2..] == p;
  }

  /** The totals pair keeps its shape at the head of a longer sequence. */
  lemma PairAtHead(rows: seq<TrendRow>, t: seq<TrendRow>, month: Date, units: string, ur: seq<RawRow>)
    requires |rows| >= 2 && |t| == 2 && rows[0] == t[0] && rows[1] == t[1]
    requires PairOf(t, 0, month, units, TotalView, Labels("ALL", "Total", "", "", ""), SumsOf(ur))
    ensures PairOf(rows, 0, month, units, TotalView, Labels("ALL", "Total", "", "", ""), SumsOf(ur))
  {
  }

  /** Four parts laid out one by one make a unit layout. */
  lemma LayoutOfParts(rows: seq<TrendRow>, t: seq<TrendRow>, b: seq<TrendRow>, f: seq<TrendRow>, p: seq<TrendRow>,
                      ur: seq<RawRow>, month: Date, units: string,
                      bus: seq<seq<Cell>>, fams: seq<seq<Cell>>, prods: seq<seq<Cell>>)
    requires rows == t + b + f + p
    requires |t| == 2 && |b| == 2 * |bus| && |f| == 2 * |fams| && |p| == 2 * |prods|
    requires PairOf(t, 0, month, units, TotalView, Labels("ALL", "Total", "", "", ""), SumsOf(ur))
    requires LevelLayout(b, 0, ur, month, units, BuView, bus)
    requires LevelLayout(f, 0, ur, month, units, ProdFamView, fams)
    requires LevelLayout(p, 0, ur, month, units, ProductView, prods)
    ensures UnitLayout(rows, ur, month, units, bus, fams, prods)
  {
    AppendFourSlices(rows, t, b, f, p, 2 * |bus|, 2 * |fams|, 2 * |prods|);
    PairAtHead(rows, t, month, units, ur);
    LevelShift(rows, b, 2, ur, month, units, BuView, bus);
    LevelShift(rows, f, 2 + 2 * |bus|, ur, month, units, ProdFamView, fams);
    LevelShift(rows, p, 2 + 2 * |bus| + 2 * |fams|, ur, month, units, ProductView, prods);
  }

  /** A unit's body is laid out as UnitLayout says. */
  lemma UnitBodyMembers(ur: seq<RawRow>, month: Date, units: string,
                        bus: seq<seq<Cell>>, fams: seq<seq<Cell>>, prods: seq<seq<Cell>>)
    ensures UnitLayout(UnitBody(ur, month, units, bus, fams, prods), ur, month, units, bus, fams, prods)
  {
    TotalRowsPair(ur, month, units);
    LevelRowsLayout(ur, month, units, BuView, bus);
    LevelRowsLayout(ur, month, units, ProdFamView, fams);
    LevelRowsLayout(ur, month, units, ProductView, prods);
    LayoutOfParts(UnitBody(ur, month, units, bus, fams, prods), TotalRows(ur, month, units),
                  LevelRows(ur, month, units, BuView, bus), LevelRows(ur, month, units, ProdFamView, fams),
                  LevelRows(ur, month, units, ProductView, prods), ur, month, units, bus, fams, prods);
  }

  /** build_month_trend_rows for one unit with raw rows ur: the totals pair,
      then for every group of each level, in first-appearance order, the
      pair of that group with its labels and its sums. */
  lemma UnitTrendRowsMembers(raw: seq<RawRow>, month: Date, units: string)
    requires |UnitRows(raw, units)| > 0
    ensures var ur := UnitRows(raw, units);
      UnitLayout(UnitTrendRows(raw, month, units), ur, month, units,
                 Groups(ur, BuKey), Groups(ur, ProdFamKey), Groups(ur, ProductKey))
  {
    var ur := UnitRows(raw, units);
    UnitBodyMembers(ur, month, units, Groups(ur, BuKey), Groups(ur, ProdFamKey), Groups(ur, ProductKey));
  }

  /** All rows of a month come in stats/marketing pairs, belong to the month
      and to a unit with raw rows, and carry actuals over forecast. */
  lemma {:induction false} TrendSectionsSpec(raw: seq<RawRow>, month: Date, us: seq<string>)
    ensures InPairs(TrendSections(raw, month, us))
    ensures WellFormed(TrendSections(raw, month, us), raw, month)
    decreases |us|
  {
    if |us| > 0 {
      TrendSectionsSpec(raw, month, us[..|us| - 1]);
      UnitTrendRowsSpec(raw, month, us[|us| - 1]);
      InPairsAppend(TrendSections(raw, month, us[..|us| - 1]), UnitTrendRows(raw, month, us[|us| - 1]));
      WellFormedAppend(TrendSections(raw, month, us[..|us| - 1]), UnitTrendRows(raw, month, us[|us| - 1]), raw, month);
    }
  }

  lemma NoUnitRows(raw: seq<RawRow>, month: Date, u: string)
    requires forall i :: 0 <= i < |raw| ==> raw[i].units != u
    ensures UnitTrendRows(raw, month, u) == []
  {
    if |UnitRows(raw, u)| > 0 {
      var x := UnitRows(raw, u)[0];
      UnitRowsMembers(raw, u, x);
    }
  }

  /** A raw table with no "quantity" and no "dollars" rows yields no rows. */
  lemma NoUnitsNoRows(raw: seq<RawRow>, month: Date)
    requires forall i :: 0 <= i < |raw| ==> raw[i].units !in UnitsOrder
    ensures MonthTrendRows(raw, month) == []
  {
    NoUnitRows(raw, month, "quantity");
    NoUnitRows(raw, month, "dollars");
    assert UnitsOrder[..1] == ["quantity"] && UnitsOrder[1] == "dollars";
    assert ["quantity"][..0] == [];
    assert TrendSections(raw, month, ["quantity"]) == [];
  }

  lemma UnitBodyStartsWithTotal(ur: seq<RawRow>, month: Date, units: string,
                                bus: seq<seq<Cell>>, fams: seq<seq<Cell>>, prods: seq<seq<Cell>>)
    ensures UnitBody(ur, month, units, bus, fams, prods)[0] == TotalRows(ur, month, units)[0]
    ensures UnitBody(ur, month, units, bus, fams, prods)[1] == TotalRows(ur, month, units)[1]
  {
  }

  /** The total row's sums are the sums over the unit's BU groups: the BU
      rows add up to the total row. */
  lemma TotalRowIsSumOfBus(raw: seq<RawRow>, month: Date, units: string)
    requires |UnitRows(raw, units)| > 0
    ensures var ur := UnitRows(raw, units);
      && UnitTrendRows(raw, month, units)[0].actualsSum == TotalOverGroups(ur, BuKey, Groups(ur, BuKey), ActualsCol)
      && UnitTrendRows(raw, month, units)[0].forecastSum == TotalOverGroups(ur, BuKey, Groups(ur, BuKey), StatsCol)
      && UnitTrendRows(raw, month, units)[1].forecastSum == TotalOverGroups(ur, BuKey, Groups(ur, BuKey), MarketingCol)
  {
    var ur := UnitRows(raw, units);
    UnitBodyStartsWithTotal(ur, month, units, Groups(ur, BuKey), Groups(ur, ProdFamKey), Groups(ur, ProductKey));
    TotalIsSumOfBus(ur);
  }
}
