/** The trend report's driver: the month-by-month loop of main, which loads
    each month of the window, skips months without data and collects the
    long rows, and the trend data-quality checks (run_dq_checks) with the
    fail-mode gate. */
module TrendReport {
  import opened Wrappers
  import opened Dates
  import opened Tables
  import opened Reconcile
  import opened Dashboards
  import opened ReportDb
  import opened TrendRows
  import opened TrendViews

  // ---------------------------------------------------------------------
  // The trend checks

  /** An entry of source_counts (catalog rows are counted, never checked). */
  datatype SourceCount = SourceCount(month: Date, marketingRows: nat, catalogRows: nat, statsRows: nat, actualsRows: nat)

  function CountOf(month: Date, f: Frames): SourceCount {
    SourceCount(month, |f.marketing|, |f.catalog|, |f.stats|, |f.actuals|)
  }

  /** The months that have at least one trend row. */
  function AvailableMonths(rows: seq<TrendRow>): set<Date> {
    set r | r in rows :: r.month
  }

  /** `expected_set - available_set`. */
  function MissingMonths(expected: seq<Date>, rows: seq<TrendRow>): set<Date> {
    set m | m in expected && m !in AvailableMonths(rows)
  }

  predicate CoverageIssue(c: SourceCount) {
    c.marketingRows == 0 || c.statsRows == 0 || c.actualsRows == 0
  }

  /** The grain of a trend row: month, units, view level, the five label
      columns and the model side. */
  function GrainKey(r: TrendRow): (Date, string, ViewLevel, Labels, ModelSide) {
    (r.month, r.units, r.level, r.labels, r.side)
  }

  function GrainKeys(rows: seq<TrendRow>): (ks: seq<(Date, string, ViewLevel, Labels, ModelSide)>)
    ensures |ks| == |rows|
    ensures forall i :: 0 <= i < |rows| ==> ks[i] == GrainKey(rows[i])
    decreases |rows|
  {
    if |rows| == 0 then [] else GrainKeys(rows[..|rows| - 1]) + [GrainKey(rows[|rows| - 1])]
  }

  predicate InvalidDenominator(r: TrendRow) {
    r.forecastSum <= 0.0 && r.metric.Some?
  }

  /** The units whose top view lists more than n distinct products. */
  function OverLimit(top: seq<WideRow<ProductIndex>>, n: int): set<string> {
    set w | w in top && |TopProducts(top, w.key.1)| > n :: w.key.1
  }

  function CompletenessCheck(expected: seq<Date>, rows: seq<TrendRow>): Check {
    var missing := MissingMonths(expected, rows);
    Check("rolling_window_completeness", Warning, |missing| == 0, |missing|)
  }

  function CoverageCheck(counts: seq<SourceCount>): Check {
    var issues := Count(counts, CoverageIssue);
    Check("source_coverage_by_month", Critical, issues == 0, issues)
  }

  function GrainCheck(rows: seq<TrendRow>): Check {
    var dupes := DuplicateCount(GrainKeys(rows));
    Check("trend_grain_uniqueness", Critical, dupes == 0, dupes)
  }

  function DenominatorCheck(rows: seq<TrendRow>): Check {
    var invalid := Count(rows, InvalidDenominator);
    Check("denominator_validity", Critical, invalid == 0, invalid)
  }

  function TopNCheck(top: seq<WideRow<ProductIndex>>, n: int): Check {
    var over := OverLimit(top, n);
    Check("topn_rank_integrity", Critical, |over| == 0, |over|)
  }

  /** The check list of run_dq_checks, in order. */
  function TrendChecks(rows: seq<TrendRow>, expected: seq<Date>, counts: seq<SourceCount>,
                       top: seq<WideRow<ProductIndex>>, n: int): seq<Check> {
    [CompletenessCheck(expected, rows), CoverageCheck(counts), GrainCheck(rows),
     DenominatorCheck(rows), TopNCheck(top, n)]
  }

  datatype TrendDq = TrendDq(checksTotal: nat, checksFailed: nat, criticalFailed: nat, warningFailed: nat, checks: seq<Check>)

  function TrendSummary(cs: seq<Check>): TrendDq {
    TrendDq(|cs|, FailedCount(cs), FailedWith(cs, Critical), FailedWith(cs, Warning), cs)
  }

  /** run_dq_checks: the five `add_check` calls, then the failure counts. */
  method RunTrendDqChecks(rows: seq<TrendRow>, expected: seq<Date>, counts: seq<SourceCount>,
                          top: seq<WideRow<ProductIndex>>, n: int) returns (s: TrendDq)
    ensures s == TrendSummary(TrendChecks(rows, expected, counts, top, n))
    ensures s.checksTotal == 5 && s.checksFailed == s.criticalFailed + s.warningFailed
  {
    var checks: seq<Check> := [];
    checks := checks + [CompletenessCheck(expected, rows)];
    checks := checks + [CoverageCheck(counts)];
    checks := checks + [GrainCheck(rows)];
    checks := checks + [DenominatorCheck(rows)];
    checks := checks + [TopNCheck(top, n)];
    assert checks == TrendChecks(rows, expected, counts, top, n);
    var failed, critical, warning := FoldFailures(checks);
    s := TrendDq(|checks|, failed, critical, warning, checks);
    FailedSplit(checks);
  }

  // ---------------------------------------------------------------------
  // What the checks mean

  /** rolling_window_completeness passes exactly when every expected month
      has a trend row. */
  lemma CompletenessCheckSpec(expected: seq<Date>, rows: seq<TrendRow>)
    ensures CompletenessCheck(expected, rows).passed <==>
      forall m :: m in expected ==> exists r :: r in rows && r.month == m
  {
    if !CompletenessCheck(expected, rows).passed {
      var m :| m in MissingMonths(expected, rows);
      assert m !in AvailableMonths(rows);
    } else {
      forall m | m in expected
        ensures exists r :: r in rows && r.month == m
      {
        assert m !in MissingMonths(expected, rows);
      }
    }
  }

  /** source_coverage_by_month passes exactly when every loaded month had
      marketing, stats and actuals rows. */
  lemma CoverageCheckSpec(counts: seq<SourceCount>)
    ensures CoverageCheck(counts).passed <==>
      forall i :: 0 <= i < |counts| ==> counts[i].marketingRows > 0 && counts[i].statsRows > 0 && counts[i].actualsRows > 0
  {
    CountZero(counts, CoverageIssue);
  }

  /** trend_grain_uniqueness passes exactly when no two rows share a grain. */
  lemma GrainCheckSpec(rows: seq<TrendRow>)
    ensures GrainCheck(rows).passed <==> NoDup(GrainKeys(rows))
  {
    DuplicateCountSpec(GrainKeys(rows));
  }

  /** denominator_validity fails exactly when a row with a forecast sum of
      zero or less carries a metric; on rows whose metric is actuals over
      forecast that means exactly a negative forecast sum. */
  lemma DenominatorCheckSpec(rows: seq<TrendRow>)
    ensures !DenominatorCheck(rows).passed <==>
      exists i :: 0 <= i < |rows| && rows[i].forecastSum <= 0.0 && rows[i].metric.Some?
    ensures (forall i :: 0 <= i < |rows| ==> RatioConsistent(rows[i])) ==>
      (!DenominatorCheck(rows).passed <==> exists i :: 0 <= i < |rows| && rows[i].forecastSum < 0.0)
  {
    CountZero(rows, InvalidDenominator);
    if forall i :: 0 <= i < |rows| ==> RatioConsistent(rows[i]) {
      if exists i :: 0 <= i < |rows| && rows[i].forecastSum < 0.0 {
        var i :| 0 <= i < |rows| && rows[i].forecastSum < 0.0;
        assert InvalidDenominator(rows[i]);
      }
    }
  }

  /** topn_rank_integrity never fails on the product view build_views
      returns. */
  lemma TopNCheckPasses(rows: seq<TrendRow>, anchor: Date, n: int)
    ensures TopNCheck(BuildViews(rows, anchor, n).productTop, n).passed
  {
    var top := BuildViews(rows, anchor, n).productTop;
    if OverLimit(top, n) != {} {
      var u :| u in OverLimit(top, n);
      var w :| w in top && |TopProducts(top, w.key.1)| > n && w.key.1 == u;
      assert w.key.5 in TopProducts(top, u);
      TopNWithinLimit(rows, anchor, n, u);
    }
  }

  /** Each failed check is critical or a warning; the gate of fail mode
      trips exactly when a critical check failed. */
  lemma TrendSummarySpec(cs: seq<Check>)
    ensures TrendSummary(cs).checksFailed == TrendSummary(cs).criticalFailed + TrendSummary(cs).warningFailed
    ensures TrendSummary(cs).criticalFailed > 0 <==> exists i :: 0 <= i < |cs| && cs[i].severity == Critical && !cs[i].passed
  {
    FailedSplit(cs);
    FailedWithPositive(cs, Critical);
  }

  // ---------------------------------------------------------------------
  // The loop over the window

  /** A month yields trend rows only when its marketing, stats and actuals
      tables and its reconciled raw table are all non-empty. */
  predicate Contributes(f: Frames, month: Date) {
    |f.marketing| > 0 && |f.stats| > 0 && |f.actuals| > 0 && |BuildRawData(f, month).raw| > 0
  }

  function MonthRowsOf(f: Frames, month: Date): seq<TrendRow> {
    if Contributes(f, month) then MonthTrendRows(BuildRawData(f, month).raw, month) else []
  }

  function CountsOver(months: seq<Date>, load: Date -> Frames): (r: seq<SourceCount>)
    ensures |r| == |months|
    decreases |months|
  {
    if |months| == 0 then [] else CountsOver(months[..|months| - 1], load) + [CountOf(months[|months| - 1], load(months[|months| - 1]))]
  }

  function RowsOver(months: seq<Date>, load: Date -> Frames): seq<TrendRow>
    decreases |months|
  {
    if |months| == 0 then [] else RowsOver(months[..|months| - 1], load) + MonthRowsOf(load(months[|months| - 1]), months[|months| - 1])
  }

  /** Some element satisfies p. */
  function Any<T>(s: seq<T>, p: T -> bool): bool
    decreases |s|
  {
    |s| > 0 && (Any(s[..|s| - 1], p) || p(s[|s| - 1]))
  }

  lemma {:induction false} AnySpec<T>(s: seq<T>, p: T -> bool)
    ensures Any(s, p) <==> exists i :: 0 <= i < |s| && p(s[i])
    decreases |s|
  {
    if |s| > 0 {
      var init := s[..|s| - 1];
      AnySpec(init, p);
      assert forall i :: 0 <= i < |init| ==> init[i] == s[i];
    }
  }

  /** `trend_frames` is non-empty. */
  function AnyContributes(months: seq<Date>, load: Date -> Frames): bool {
    Any(months, (m: Date) => Contributes(load(m), m))
  }

  /** What main writes once some month had data: the window, the source
      counts, the trend rows, the views and the checks, all of which reach
      the DQ log and the workbook; `aborted` says that main then exits with
      "[DQ-FAIL] Critical checks failed" instead of finishing. */
  datatype TrendOutcome = TrendOutcome(
    months: seq<Date>, counts: seq<SourceCount>, rows: seq<TrendRow>, views: Views, dq: TrendDq, aborted: bool)

  /** The views, the checks and the gate, once some month had data. A view
      missing a side's column stops main with a KeyError before anything is
      written. */
  function Conclude(anchor: Date, months: seq<Date>, rows: seq<TrendRow>, counts: seq<SourceCount>, n: int, mode: DqMode): Result<TrendOutcome> {
    var views := BuildViews(rows, anchor, n);
    if !ViewsComplete(views) then Err(MissingColumn)
    else
      var dq := TrendSummary(TrendChecks(rows, months, counts, views.productTop, n));
      Ok(TrendOutcome(months, counts, rows, views, dq, mode == Fail && dq.criticalFailed > 0))
  }

  /** The failure of a delta column whose model-side column pivot_table dropped. */
  const MissingColumn := "KeyError: model_side column missing from a pivoted view"

  /** What main produces for an anchor month (day 1), a window length, a
      top-N size and a gate mode, with `load` standing for load_from_db. */
  function Trend(anchor: Date, window: int, n: int, mode: DqMode, load: Date -> Frames): Result<TrendOutcome>
    requires anchor.day == 1
  {
    match ResolveWindow(anchor, window)
    case Err(e) => Err(e)
    case Ok((start, end)) =>
      var months := MonthRange(start, end);
      if !AnyContributes(months, load) then Err("No trend data rows were generated for the selected rolling window.")
      else Conclude(anchor, months, RowsOver(months, load), CountsOver(months, load), n, mode)
  }

  /** The body of the loop over the months of the window. */
  method LoadMonth(rows: seq<TrendRow>, counts: seq<SourceCount>, any: bool, month: Date, f: Frames)
    returns (rows': seq<TrendRow>, counts': seq<SourceCount>, any': bool)
    ensures rows' == rows + MonthRowsOf(f, month)
    ensures counts' == counts + [CountOf(month, f)]
    ensures any' == (any || Contributes(f, month))
  {
    counts' := counts + [CountOf(month, f)];
    rows', any' := rows, any;
    if |f.marketing| == 0 || |f.stats| == 0 || |f.actuals| == 0 {
      return;
    }
    var raw := BuildRawData(f, month).raw;
    if |raw| == 0 {
      return;
    }
    var monthRows := BuildMonthTrendRows(raw, month);
    rows', any' := rows + monthRows, true;
  }

  /** The loop over the months: source_counts, the trend rows, and whether
      any month had data. */
  method CollectMonths(months: seq<Date>, load: Date -> Frames)
    returns (rows: seq<TrendRow>, counts: seq<SourceCount>, any: bool)
    ensures rows == RowsOver(months, load)
    ensures counts == CountsOver(months, load)
    ensures any == AnyContributes(months, load)
  {
    counts, rows, any := [], [], false;
    for i := 0 to |months|
      invariant rows == RowsOver(months[..i], load)
      invariant counts == CountsOver(months[..i], load)
      invariant any == AnyContributes(months[..i], load)
    {
      OverStep(months, i, load);
      rows, counts, any := LoadMonth(rows, counts, any, months[i], load(months[i]));
    }
    assert months[..|months|] == months;
  }

  /** One more month extends the counts, the rows and the flag by that
      month's contribution. */
  lemma OverStep(months: seq<Date>, i: int, load: Date -> Frames)
    requires 0 <= i < |months|
    ensures RowsOver(months[..i + 1], load) == RowsOver(months[..i], load) + MonthRowsOf(load(months[i]), months[i])
    ensures CountsOver(months[..i + 1], load) == CountsOver(months[..i], load) + [CountOf(months[i], load(months[i]))]
    ensures AnyContributes(months[..i + 1], load) == (AnyContributes(months[..i], load) || Contributes(load(months[i]), months[i]))
  {
    assert months[..i + 1][..i] == months[..i];
    assert months[..i + 1][i] == months[i];
  }

  method ConcludeTrend(anchor: Date, months: seq<Date>, rows: seq<TrendRow>, counts: seq<SourceCount>, n: int, mode: DqMode)
    returns (r: Result<TrendOutcome>)
    ensures r == Conclude(anchor, months, rows, counts, n, mode)
  {
    var views := BuildViews(rows, anchor, n);
    if !ViewsComplete(views) {
      return Err(MissingColumn);
    }
    var dq := RunTrendDqChecks(rows, months, counts, views.productTop, n);
    var aborted := false;
    if mode == Fail && dq.criticalFailed > 0 {
      aborted := true;
    }
    r := Ok(TrendOutcome(months, counts, rows, views, dq, aborted));
  }

  /** main, from the window to the gate. */
  method RunTrend(anchor: Date, window: int, n: int, mode: DqMode, load: Date -> Frames) returns (r: Result<TrendOutcome>)
    requires anchor.day == 1
    ensures r == Trend(anchor, window, n, mode, load)
  {
    var w := ResolveWindow(anchor, window);
    if w.Err? {
      return Err(w.message);
    }
    var (start, end) := w.value;
    var months := MonthSequence(start, end);
    var rows, counts, any := CollectMonths(months, load);
    if !any {
      return Err("No trend data rows were generated for the selected rolling window.");
    }
    r := ConcludeTrend(anchor, months, rows, counts, n, mode);
  }

  // ---------------------------------------------------------------------
  // What the loop means

  lemma {:induction false} CountsOverSpec(months: seq<Date>, load: Date -> Frames)
    ensures forall i :: 0 <= i < |months| ==> CountsOver(months, load)[i] == CountOf(months[i], load(months[i]))
    decreases |months|
  {
    if |months| > 0 {
      CountsOverSpec(months[..|months| - 1], load);
    }
  }

  /** Every collected row belongs to a month of the list whose tables and
      raw table were non-empty, and carries actuals over forecast. */
  lemma {:induction false} RowsOverSpec(months: seq<Date>, load: Date -> Frames)
    ensures forall r :: r in RowsOver(months, load) ==>
      r.month in months && Contributes(load(r.month), r.month) && RatioConsistent(r)
    decreases |months|
  {
    if |months| > 0 {
      var init := months[..|months| - 1];
      var m := months[|months| - 1];
      RowsOverSpec(init, load);
      MonthRowsOfSpec(load(m), m);
    }
  }

  /** The rows of one month are dated in that month, which contributed, and
      carry actuals over forecast. */
  lemma MonthRowsOfSpec(f: Frames, month: Date)
    ensures forall r :: r in MonthRowsOf(f, month) ==> r.month == month && Contributes(f, month) && RatioConsistent(r)
  {
    if Contributes(f, month) {
      TrendSectionsSpec(BuildRawData(f, month).raw, month, UnitsOrder);
    }
  }

  lemma AnyContributesSpec(months: seq<Date>, load: Date -> Frames)
    ensures AnyContributes(months, load) <==> exists i :: 0 <= i < |months| && Contributes(load(months[i]), months[i])
  {
    AnySpec(months, (m: Date) => Contributes(load(m), m));
  }

  /** The views fail exactly when one of them lacks a side's column; the
      gate comes after the writing: an outcome carries the window, the
      counts and the rows it was given and the five checks, and it is
      aborted exactly when fail mode saw a critical failure. */
  lemma ConcludeSpec(anchor: Date, months: seq<Date>, rows: seq<TrendRow>, counts: seq<SourceCount>, n: int, mode: DqMode)
    ensures Conclude(anchor, months, rows, counts, n, mode).Ok? <==> ViewsComplete(BuildViews(rows, anchor, n))
    ensures var r := Conclude(anchor, months, rows, counts, n, mode);
      r.Ok? ==>
      && r.value.months == months && r.value.counts == counts && r.value.rows == rows
      && r.value.views == BuildViews(rows, anchor, n)
      && r.value.dq.checksTotal == 5
      && (r.value.aborted <==> mode == Fail && r.value.dq.criticalFailed > 0)
      && (mode != Fail ==> !r.value.aborted)
  {
  }

  /** An outcome of main covers the `window` months ending at the anchor,
      at least one of which had data, counts the source rows of each month
      in order, keeps only rows of months that had data, each carrying
      actuals over forecast, has every view with both side columns, runs
      the five checks, and is aborted exactly
      when its mode is "fail" and a critical check failed. */
  predicate CoversWindow(o: TrendOutcome, anchor: Date, window: int, mode: DqMode, load: Date -> Frames) {
    && |o.months| == window && window >= 1 && o.months[window - 1] == anchor
    && (exists i :: 0 <= i < |o.months| && Contributes(load(o.months[i]), o.months[i]))
    && |o.counts| == window
    && (forall i :: 0 <= i < |o.counts| ==> o.counts[i] == CountOf(o.months[i], load(o.months[i])))
    && (forall r :: r in o.rows ==> r.month in o.months && Contributes(load(r.month), r.month) && RatioConsistent(r))
    && ViewsComplete(o.views)
    && (o.aborted <==> mode == Fail && o.dq.criticalFailed > 0)
    && o.dq.checksTotal == 5
  }

  /** main stops with no output when the window is not positive or holds no
      data; otherwise it writes an outcome that covers the `window` months
      ending at the anchor, counts the source rows of each month in order,
      and keeps only rows of months that had data, and it then exits in
      error exactly when fail mode saw a critical failure. */
  lemma TrendSpec(anchor: Date, window: int, n: int, mode: DqMode, load: Date -> Frames)
    requires anchor.day == 1
    ensures window <= 0 ==> Trend(anchor, window, n, mode, load).Err?
    ensures Trend(anchor, window, n, mode, load).Ok? ==>
      CoversWindow(Trend(anchor, window, n, mode, load).value, anchor, window, mode, load)
  {
    if window >= 1 {
      var (start, end) := ResolveWindow(anchor, window).value;
      var months := MonthRange(start, end);
      ResolvedWindowLength(anchor, window);
      CountsOverSpec(months, load);
      RowsOverSpec(months, load);
      AnyContributesSpec(months, load);
      ConcludeSpec(anchor, months, RowsOver(months, load), CountsOver(months, load), n, mode);
    }
  }

  /** With a top-N size that is not positive the product view is empty and
      its delta column fails: main never gets to write anything. */
  lemma TrendNeedsTopN(anchor: Date, window: int, n: int, mode: DqMode, load: Date -> Frames)
    requires anchor.day == 1
    ensures n <= 0 ==> Trend(anchor, window, n, mode, load).Err?
  {
    if n <= 0 && ResolveWindow(anchor, window).Ok? {
      var (start, end) := ResolveWindow(anchor, window).value;
      var months := MonthRange(start, end);
      NoTopKeysNoView(RowsOver(months, load), anchor, n);
    }
  }
}
