/** The database-era front end of the monthly report: choosing the input
    tables (load_frames), the data-quality checks run on them
    (run_dq_checks), the gate that stops the report on critical failures,
    and the delta columns of the dual-run comparison (compare_df). */
module ReportDb {
  import opened Wrappers
  import opened Text
  import opened Dates
  import opened Tables
  import opened Sums
  import opened Catalog
  import opened Reconcile
  import opened Dashboards
  import opened MarketingCopy

  // ---------------------------------------------------------------------
  // Counting rows

  /** The number of rows satisfying p: `mask.sum()`. */
  function Count<T>(s: seq<T>, p: T -> bool): nat
    decreases |s|
  {
    if |s| == 0 then 0 else Count(s[..|s| - 1], p) + (if p(s[|s| - 1]) then 1 else 0)
  }

  lemma {:induction false} CountZero<T>(s: seq<T>, p: T -> bool)
    ensures Count(s, p) == 0 <==> forall i :: 0 <= i < |s| ==> !p(s[i])
    ensures Count(s, p) <= |s|
    decreases |s|
  {
    if |s| > 0 {
      CountZero(s[..|s| - 1], p);
      assert forall i :: 0 <= i < |s| - 1 ==> s[..|s| - 1][i] == s[i];
    }
  }

  /** `duplicated(subset=...).sum()`: the rows whose key already occurred
      in an earlier row. */
  function DuplicateCount<K(==)>(keys: seq<K>): nat
    decreases |keys|
  {
    if |keys| == 0 then 0
    else DuplicateCount(keys[..|keys| - 1]) + (if keys[|keys| - 1] in keys[..|keys| - 1] then 1 else 0)
  }

  /** Every row is either the first of its key or a duplicate, so the
      duplicates are the rows beyond the distinct keys; there are none
      exactly when no key repeats. */
  lemma {:induction false} DuplicateCountSpec<K>(keys: seq<K>)
    ensures DuplicateCount(keys) == |keys| - |Distinct(keys)|
    ensures DuplicateCount(keys) == 0 <==> NoDup(keys)
    decreases |keys|
  {
    if |keys| > 0 {
      var init := keys[..|keys| - 1];
      var x := keys[|keys| - 1];
      DuplicateCountSpec(init);
      assert x in Distinct(init) <==> x in init;
      NoDupSnoc(keys);
    }
  }

  /** A sequence has no repeats exactly when its front has none and its
      last element is not in the front. */
  lemma NoDupSnoc<K>(keys: seq<K>)
    requires |keys| > 0
    ensures NoDup(keys) <==> NoDup(keys[..|keys| - 1]) && keys[|keys| - 1] !in keys[..|keys| - 1]
  {
    var init := keys[..|keys| - 1];
    var x := keys[|keys| - 1];
    assert forall i :: 0 <= i < |init| ==> init[i] == keys[i];
    if NoDup(keys) {
      assert x !in init by {
        forall i | 0 <= i < |init|
          ensures init[i] != x
        {
          assert init[i] == keys[i];
        }
      }
    }
    if NoDup(init) && x !in init {
      forall i, j | 0 <= i < j < |keys|
        ensures keys[i] != keys[j]
      {
        if j < |keys| - 1 {
          assert keys[i] == init[i] && keys[j] == init[j];
        } else {
          assert keys[i] == init[i];
        }
      }
    }
  }

  // ---------------------------------------------------------------------
  // The checks

  datatype Severity = Critical | Warning

  /** One entry of the check list; `count` is the figure its details
      report (the row count of a presence check, otherwise the number of
      offending rows or keys). */
  datatype Check = Check(name: string, severity: Severity, passed: bool, count: nat)

  predicate MarketingKeyNull(m: MarketingRow) {
    m.bu.Null? || m.location.Null? || m.product.Null? || m.date.None?
  }

  function MarketingDupKey(m: MarketingRow): (Cell, Cell, Cell, Cell, Option<Date>) {
    (m.bu, m.location, m.geography, m.product, m.date)
  }

  /** The geography test of the check: upper-cased, then stripped. */
  predicate NonAmericas(m: MarketingRow) {
    Trim(Upper(CellText(m.geography))) != "AMERICAS"
  }

  predicate ActualsKeyNull(a: ActualsRow) {
    a.product.Null? || a.division.Null? || a.month.None?
  }

  function ActualsDupKey(a: ActualsRow): (Cell, Cell, Option<Date>) {
    (a.product, a.division, a.month)
  }

  predicate StatsKeyNull(s: StatsRow) {
    s.productId.Null? || s.buId.Null? || s.forecastMonth.None? || s.modelType.Null?
  }

  function StatsDupKey(s: StatsRow): (Cell, Cell, Option<Date>, Cell, Cell) {
    (s.productId, s.buId, s.forecastMonth, s.modelType, s.runId)
  }

  predicate CatalogKeyNull(c: CatalogEntry) {
    c.groupKey.Null? || c.buCode.Null? || c.skuList.Null?
  }

  /** The grouping of the 12-month completeness check (missing values form
      their own group, as with `dropna=False`). */
  function CompletenessKey(m: MarketingRow): (Cell, Cell, Cell, Cell) {
    (m.bu, m.location, m.geography, m.product)
  }

  function RowsOfKey(ms: seq<MarketingRow>, k: (Cell, Cell, Cell, Cell)): seq<MarketingRow>
    decreases |ms|
  {
    if |ms| == 0 then []
    else RowsOfKey(ms[..|ms| - 1], k) + (if CompletenessKey(ms[|ms| - 1]) == k then [ms[|ms| - 1]] else [])
  }

  /** Whether the rows of key k miss some of the 12 months. */
  function Incomplete(ms: seq<MarketingRow>): ((Cell, Cell, Cell, Cell)) -> bool {
    k => |PresentMonths(RowsOfKey(ms, k))| != 12
  }

  /** The number of marketing keys whose rows do not cover 12 distinct months. */
  function IncompleteKeys(ms: seq<MarketingRow>): nat {
    Count(Groups(ms, CompletenessKey), Incomplete(ms))
  }

  function PresenceChecks(f: Frames): seq<Check> {
    [Check("marketing_rows_present", Critical, |f.marketing| > 0, |f.marketing|),
     Check("catalog_rows_present", Critical, |f.catalog| > 0, |f.catalog|),
     Check("stats_rows_present_for_month", Critical, |f.stats| > 0, |f.stats|),
     Check("actuals_rows_present_for_month", Critical, |f.actuals| > 0, |f.actuals|)]
  }

  function MarketingChecks(ms: seq<MarketingRow>): seq<Check> {
    var nulls := Count(ms, MarketingKeyNull);
    var dupes := DuplicateCount(KeysOf(ms, MarketingDupKey));
    var nonAmer := Count(ms, NonAmericas);
    [Check("marketing_key_nulls", Critical, nulls == 0, nulls),
     Check("marketing_duplicate_keys", Warning, dupes == 0, dupes),
     Check("marketing_geography_filter_behavior", Warning, nonAmer == 0, nonAmer)]
  }

  function ActualsChecks(acts: seq<ActualsRow>): seq<Check> {
    var nulls := Count(acts, ActualsKeyNull);
    var dupes := DuplicateCount(KeysOf(acts, ActualsDupKey));
    [Check("actuals_key_nulls", Critical, nulls == 0, nulls),
     Check("actuals_duplicate_keys", Warning, dupes == 0, dupes)]
  }

  function StatsChecks(st: seq<StatsRow>): seq<Check> {
    var nulls := Count(st, StatsKeyNull);
    var dupes := DuplicateCount(KeysOf(st, StatsDupKey));
    [Check("stats_key_nulls", Critical, nulls == 0, nulls),
     Check("stats_duplicate_keys", Warning, dupes == 0, dupes)]
  }

  function CatalogChecks(cat: seq<CatalogEntry>): seq<Check> {
    var nulls := Count(cat, CatalogKeyNull);
    [Check("catalog_key_nulls", Critical, nulls == 0, nulls)]
  }

  function CompletenessChecks(ms: seq<MarketingRow>): seq<Check> {
    var incomplete := IncompleteKeys(ms);
    [Check("marketing_12_month_completeness_per_key", Warning, incomplete == 0, incomplete)]
  }

  /** The check list run_dq_checks builds, in order: the four presence
      checks always, each table's key checks only when it has rows, and the
      completeness check only for the "copy2026" source. */
  function DqChecks(source: string, f: Frames): seq<Check> {
    TableChecks(f) + (if source == "copy2026" then CompletenessChecks(f.marketing) else [])
  }

  /** The checks every source gets. */
  function TableChecks(f: Frames): seq<Check> {
    PresenceChecks(f)
    + (if |f.marketing| > 0 then MarketingChecks(f.marketing) else [])
    + (if |f.actuals| > 0 then ActualsChecks(f.actuals) else [])
    + (if |f.stats| > 0 then StatsChecks(f.stats) else [])
    + (if |f.catalog| > 0 then CatalogChecks(f.catalog) else [])
  }

  /** The number of failed checks, in all or of one severity. */
  function FailedCount(cs: seq<Check>): nat
    decreases |cs|
  {
    if |cs| == 0 then 0 else FailedCount(cs[..|cs| - 1]) + (if cs[|cs| - 1].passed then 0 else 1)
  }

  function FailedWith(cs: seq<Check>, sev: Severity): nat
    decreases |cs|
  {
    if |cs| == 0 then 0
    else FailedWith(cs[..|cs| - 1], sev) + (if cs[|cs| - 1].passed || cs[|cs| - 1].severity != sev then 0 else 1)
  }

  datatype DqSummary = DqSummary(
    reportMonth: Date, source: string,
    checksTotal: nat, checksFailed: nat, criticalFailed: nat, warningFailed: nat,
    checks: seq<Check>)

  /** The summary of a check list. */
  function Summarize(month: Date, source: string, cs: seq<Check>): DqSummary {
    DqSummary(FirstDayOfMonth(month), source, |cs|, FailedCount(cs),
              FailedWith(cs, Critical), FailedWith(cs, Warning), cs)
  }

  /** run_dq_checks: `add_check` appends to the check list, then the failure
      counts are folded over it. */
  method RunDqChecks(month: Date, source: string, f: Frames) returns (s: DqSummary)
    ensures s == Summarize(month, source, DqChecks(source, f))
    ensures s.checksFailed == s.criticalFailed + s.warningFailed
    ensures s.checksTotal == |s.checks|
  {
    var checks := AddTableChecks(f);
    if source == "copy2026" {
      checks := checks + CompletenessChecks(f.marketing);
    }
    assert checks == DqChecks(source, f);
    var failed, critical, warning := FoldFailures(checks);
    s := DqSummary(FirstDayOfMonth(month), source, |checks|, failed, critical, warning, checks);
    FailedSplit(checks);
  }

  /** The `add_check` calls of run_dq_checks before the completeness check. */
  method AddTableChecks(f: Frames) returns (checks: seq<Check>)
    ensures checks == TableChecks(f)
  {
    checks := [];
    checks := checks + [Check("marketing_rows_present", Critical, |f.marketing| > 0, |f.marketing|)];
    checks := checks + [Check("catalog_rows_present", Critical, |f.catalog| > 0, |f.catalog|)];
    checks := checks + [Check("stats_rows_present_for_month", Critical, |f.stats| > 0, |f.stats|)];
    checks := checks + [Check("actuals_rows_present_for_month", Critical, |f.actuals| > 0, |f.actuals|)];
    assert checks == PresenceChecks(f);
    ghost var present := checks;
    ghost var mk := if |f.marketing| > 0 then MarketingChecks(f.marketing) else [];
    ghost var ac := if |f.actuals| > 0 then ActualsChecks(f.actuals) else [];
    ghost var st := if |f.stats| > 0 then StatsChecks(f.stats) else [];
    if |f.marketing| > 0 {
      checks := checks + MarketingChecks(f.marketing);
    }
    assert checks == present + mk;
    if |f.actuals| > 0 {
      checks := checks + ActualsChecks(f.actuals);
    }
    assert checks == present + mk + ac;
    if |f.stats| > 0 {
      checks := checks + StatsChecks(f.stats);
    }
    assert checks == present + mk + ac + st;
    if |f.catalog| > 0 {
      checks := checks + CatalogChecks(f.catalog);
    }
  }

  /** The three `sum(...)` folds of the summary. */
  method FoldFailures(checks: seq<Check>) returns (failed: nat, critical: nat, warning: nat)
    ensures failed == FailedCount(checks)
    ensures critical == FailedWith(checks, Critical)
    ensures warning == FailedWith(checks, Warning)
  {
    failed, critical, warning := 0, 0, 0;
    for i := 0 to |checks|
      invariant failed == FailedCount(checks[..i])
      invariant critical == FailedWith(checks[..i], Critical)
      invariant warning == FailedWith(checks[..i], Warning)
    {
      assert checks[..i + 1][..i] == checks[..i];
      var c := checks[i];
      if !c.passed {
        failed := failed + 1;
        if c.severity == Critical {
          critical := critical + 1;
        }
        if c.severity == Warning {
          warning := warning + 1;
        }
      }
    }
    assert checks[..|checks|] == checks;
  }

  // ---------------------------------------------------------------------
  // What the checks mean

  /** Every check is critical or a warning, so each failure is counted in
      exactly one of the two severity counts. */
  lemma {:induction false} FailedSplit(cs: seq<Check>)
    ensures FailedCount(cs) == FailedWith(cs, Critical) + FailedWith(cs, Warning)
    decreases |cs|
  {
    if |cs| > 0 {
      FailedSplit(cs[..|cs| - 1]);
    }
  }

  /** A severity's failure count is positive exactly when some check of
      that severity failed. */
  lemma {:induction false} FailedWithPositive(cs: seq<Check>, sev: Severity)
    ensures FailedWith(cs, sev) > 0 <==> exists i :: 0 <= i < |cs| && cs[i].severity == sev && !cs[i].passed
    decreases |cs|
  {
    if |cs| > 0 {
      var init := cs[..|cs| - 1];
      FailedWithPositive(init, sev);
      assert forall i :: 0 <= i < |init| ==> init[i] == cs[i];
    }
  }

  /** The four presence checks come first, are critical, report the row
      count of their table and pass exactly when it has rows. */
  lemma DqChecksPresence(source: string, f: Frames)
    ensures var cs := DqChecks(source, f);
      && |cs| >= 4
      && cs[0] == Check("marketing_rows_present", Critical, |f.marketing| > 0, |f.marketing|)
      && cs[1] == Check("catalog_rows_present", Critical, |f.catalog| > 0, |f.catalog|)
      && cs[2] == Check("stats_rows_present_for_month", Critical, |f.stats| > 0, |f.stats|)
      && cs[3] == Check("actuals_rows_present_for_month", Critical, |f.actuals| > 0, |f.actuals|)
  {
  }

  /** The length of the check list: four, plus three for marketing, two
      for actuals, two for stats and one for the catalog when that table has
      rows, plus one for the "copy2026" source. */
  lemma DqChecksCount(source: string, f: Frames)
    ensures |DqChecks(source, f)| ==
      4 + (if |f.marketing| > 0 then 3 else 0) + (if |f.actuals| > 0 then 2 else 0)
        + (if |f.stats| > 0 then 2 else 0) + (if |f.catalog| > 0 then 1 else 0)
        + (if source == "copy2026" then 1 else 0)
  {
  }

  /** Each key-null check passes exactly when no row of its table misses a
      key column. */
  lemma KeyNullChecksSpec(f: Frames)
    ensures |f.marketing| > 0 ==> (MarketingChecks(f.marketing)[0].passed <==> forall i :: 0 <= i < |f.marketing| ==> !MarketingKeyNull(f.marketing[i]))
    ensures |f.actuals| > 0 ==> (ActualsChecks(f.actuals)[0].passed <==> forall i :: 0 <= i < |f.actuals| ==> !ActualsKeyNull(f.actuals[i]))
    ensures |f.stats| > 0 ==> (StatsChecks(f.stats)[0].passed <==> forall i :: 0 <= i < |f.stats| ==> !StatsKeyNull(f.stats[i]))
    ensures |f.catalog| > 0 ==> (CatalogChecks(f.catalog)[0].passed <==> forall i :: 0 <= i < |f.catalog| ==> !CatalogKeyNull(f.catalog[i]))
  {
    CountZero(f.marketing, MarketingKeyNull);
    CountZero(f.actuals, ActualsKeyNull);
    CountZero(f.stats, StatsKeyNull);
    CountZero(f.catalog, CatalogKeyNull);
  }

  /** Each duplicate check passes exactly when no key repeats. */
  lemma DuplicateChecksSpec(f: Frames)
    ensures |f.marketing| > 0 ==> (MarketingChecks(f.marketing)[1].passed <==> NoDup(KeysOf(f.marketing, MarketingDupKey)))
    ensures |f.actuals| > 0 ==> (ActualsChecks(f.actuals)[1].passed <==> NoDup(KeysOf(f.actuals, ActualsDupKey)))
    ensures |f.stats| > 0 ==> (StatsChecks(f.stats)[1].passed <==> NoDup(KeysOf(f.stats, StatsDupKey)))
  {
    DuplicateCountSpec(KeysOf(f.marketing, MarketingDupKey));
    DuplicateCountSpec(KeysOf(f.actuals, ActualsDupKey));
    DuplicateCountSpec(KeysOf(f.stats, StatsDupKey));
  }

  /** No group is counted exactly when no row's key is. */
  lemma CountGroupsZero<T, K>(s: seq<T>, key: T -> K, p: K -> bool)
    ensures Count(Groups(s, key), p) == 0 <==> forall i :: 0 <= i < |s| ==> !p(key(s[i]))
  {
    var gs := Groups(s, key);
    CountZero(gs, p);
    if Count(gs, p) != 0 {
      var j :| 0 <= j < |gs| && p(gs[j]);
      var i :| 0 <= i < |s| && key(s[i]) == gs[j];
    }
  }

  /** The completeness check passes exactly when the rows of every
      (BU, Location, Geography, Product) key cover twelve distinct months. */
  lemma CompletenessCheckSpec(ms: seq<MarketingRow>)
    ensures CompletenessChecks(ms)[0].passed <==>
      forall i :: 0 <= i < |ms| ==> |PresentMonths(RowsOfKey(ms, CompletenessKey(ms[i])))| == 12
  {
    CountGroupsZero(ms, CompletenessKey, Incomplete(ms));
    assert forall i :: 0 <= i < |ms| ==>
      (Incomplete(ms)(CompletenessKey(ms[i])) <==> |PresentMonths(RowsOfKey(ms, CompletenessKey(ms[i])))| != 12);
  }

  /** The geography check strips the value, the report's own filter does
      not: they agree on values without surrounding blanks, but a padded
      " AMERICAS" passes the check while the report drops the row. */
  lemma GeographyCheckVsFilter(m: MarketingRow, month: Date)
    ensures Trim(CellText(m.geography)) == CellText(m.geography) ==> (NonAmericas(m) <==> !IsAmericas(m))
    ensures m.geography == Text(" AMERICAS") ==> !NonAmericas(m) && !InScope(m, month)
  {
    TrimUpperCommute(CellText(m.geography));
    if m.geography == Text(" AMERICAS") {
      assert Upper(" AMERICAS") == " AMERICAS";
      assert Trim(" AMERICAS") == "AMERICAS" by {
        assert IsSpace(' ');
        assert TrimLeft(" AMERICAS") == TrimLeft("AMERICAS");
        assert !IsSpace('A') && !IsSpace('S');
      }
    }
  }

  // ---------------------------------------------------------------------
  // The gate in main

  datatype DqMode = Off | Warn | Fail

  /** `args.dq_mode == "fail" and dq_results["critical_failed"] > 0`. */
  predicate Aborts(mode: DqMode, s: DqSummary) {
    mode == Fail && s.criticalFailed > 0
  }

  /** The report is aborted exactly in "fail" mode when some critical check
      failed; failed warnings alone never abort it, and an empty input
      table always does in "fail" mode. */
  lemma AbortsSpec(mode: DqMode, month: Date, source: string, f: Frames)
    ensures var cs := DqChecks(source, f);
      Aborts(mode, Summarize(month, source, cs)) <==>
        mode == Fail && exists i :: 0 <= i < |cs| && cs[i].severity == Critical && !cs[i].passed
    ensures mode == Fail && (|f.marketing| == 0 || |f.catalog| == 0 || |f.stats| == 0 || |f.actuals| == 0) ==>
      Aborts(mode, Summarize(month, source, DqChecks(source, f)))
  {
    var cs := DqChecks(source, f);
    FailedWithPositive(cs, Critical);
    DqChecksPresence(source, f);
  }

  // ---------------------------------------------------------------------
  // Choosing the input tables

  /** What the three input paths read: the legacy workbooks, the "2026
      Data" sheet, and the database. The catalog, stats and actuals
      workbooks are shared by the legacy and "copy2026" paths. */
  datatype Inputs = Inputs(
    legacyMarketing: seq<MarketingRow>, catalogRows: seq<CatalogEntry>,
    statsRows: seq<StatsRow>, actualsRows: seq<ActualsRow>,
    copySheet: Sheet, startRow: int, num: string -> Option<real>,
    db: Frames)

  function MarketingOf(recs: seq<CopyRecord>): (r: seq<MarketingRow>)
    ensures |r| == |recs| && forall i :: 0 <= i < |recs| ==> r[i] == recs[i].marketing
  {
    seq(|recs|, i requires 0 <= i < |recs| => recs[i].marketing)
  }

  /** load_frames. */
  function LoadFrames(source: string, inp: Inputs): Result<Frames> {
    if source == "legacy" then
      Ok(Frames(inp.legacyMarketing, LoadCatalog(inp.catalogRows), inp.statsRows, inp.actualsRows))
    else if source == "copy2026" then
      match ParseCopy(inp.copySheet, inp.startRow, inp.num)
      case Err(e) => Err(e)
      case Ok(recs) =>
        var mk := MarketingOf(recs);
        match ValidateCopy(mk)
        case Err(e) => Err(e)
        case Ok(_) => Ok(Frames(mk, LoadCatalog(inp.catalogRows), inp.statsRows, inp.actualsRows))
    else if source == "db" then Ok(inp.db)
    else Err("Unsupported source: " + source)
  }

  /** Only the three known sources load; "legacy" and "db" always do, and
      "copy2026" does exactly when the sheet parses and covers all twelve
      months, in which case every marketing row is dated day 1. The two
      workbook paths share the cleaned catalog. */
  lemma LoadFramesSpec(source: string, inp: Inputs)
    ensures source !in {"legacy", "copy2026", "db"} ==> LoadFrames(source, inp).Err?
    ensures source == "legacy" || source == "db" ==> LoadFrames(source, inp).Ok?
    ensures source == "copy2026" ==>
      (LoadFrames(source, inp).Ok? <==>
        ParseCopy(inp.copySheet, inp.startRow, inp.num).Ok?
        && ValidateCopy(MarketingOf(ParseCopy(inp.copySheet, inp.startRow, inp.num).value)).Ok?)
    ensures source in {"legacy", "copy2026"} && LoadFrames(source, inp).Ok? ==>
      LoadFrames(source, inp).value.catalog == LoadCatalog(inp.catalogRows)
      && LoadFrames(source, inp).value.stats == inp.statsRows
      && LoadFrames(source, inp).value.actuals == inp.actualsRows
  {
  }

  /** Frames loaded from the "2026 Data" sheet have every month present and
      every marketing row dated on day 1. */
  lemma CopyFramesDated(inp: Inputs, i: int)
    requires LoadFrames("copy2026", inp).Ok?
    requires 0 <= i < |LoadFrames("copy2026", inp).value.marketing|
    ensures var m := LoadFrames("copy2026", inp).value.marketing;
      m[i].date.Some? && m[i].date.value.day == 1
    ensures forall mo :: 1 <= mo <= 12 ==> HasMonth(LoadFrames("copy2026", inp).value.marketing, mo)
  {
    var recs := ParseCopy(inp.copySheet, inp.startRow, inp.num).value;
    var mk := MarketingOf(recs);
    assert recs[i] in recs;
    ParseCopyDates(inp.copySheet, inp.startRow, inp.num, recs[i]);
    ValidateCopyMonths(mk);
  }

  // ---------------------------------------------------------------------
  // The dual-run comparison

  datatype MergeSide = Both | LeftOnly | RightOnly

  /** A row of a comparison sheet: the key columns, both sides' values, the
      deltas and the `_merge` indicator. */
  datatype CompareRow = CompareRow(
    units: string, scope: Scope, metric: Metric,
    statsLeft: Option<real>, statsRight: Option<real>,
    marketingLeft: Option<real>, marketingRight: Option<real>,
    statsDelta: Option<real>, marketingDelta: Option<real>, merge: MergeSide)

  /** `to_numeric(left) - to_numeric(right)`: missing when either is. */
  function Delta(a: Option<real>, b: Option<real>): (r: Option<real>)
    ensures r.Some? <==> a.Some? && b.Some?
    ensures r.Some? ==> r.value + b.value == a.value
  {
    if a.Some? && b.Some? then Some(a.value - b.value) else None
  }

  /** Two records share every key column (everything but the two values). */
  predicate SameKey(a: DashRow, b: DashRow) {
    a.units == b.units && a.scope == b.scope && a.metric == b.metric
  }

  function Paired(l: DashRow, r: DashRow): CompareRow {
    CompareRow(l.units, l.scope, l.metric, l.stats, r.stats, l.marketing, r.marketing,
               Delta(l.stats, r.stats), Delta(l.marketing, r.marketing), Both)
  }

  function LeftAlone(l: DashRow): CompareRow {
    CompareRow(l.units, l.scope, l.metric, l.stats, None, l.marketing, None, None, None, LeftOnly)
  }

  function RightAlone(r: DashRow): CompareRow {
    CompareRow(r.units, r.scope, r.metric, None, r.stats, None, r.marketing, None, None, RightOnly)
  }

  predicate HasKey(rows: seq<DashRow>, x: DashRow) {
    exists j :: 0 <= j < |rows| && SameKey(rows[j], x)
  }

  /** One merged row per right record with the same key as l. */
  function PairsWith(l: DashRow, right: seq<DashRow>): seq<CompareRow>
    decreases |right|
  {
    if |right| == 0 then []
    else (if SameKey(l, right[0]) then [Paired(l, right[0])] else []) + PairsWith(l, right[1..])
  }

  function LeftPart(left: seq<DashRow>, right: seq<DashRow>): seq<CompareRow>
    decreases |left|
  {
    if |left| == 0 then []
    else (if HasKey(right, left[0]) then PairsWith(left[0], right) else [LeftAlone(left[0])])
         + LeftPart(left[1..], right)
  }

  function RightPart(left: seq<DashRow>, right: seq<DashRow>): seq<CompareRow>
    decreases |right|
  {
    if |right| == 0 then []
    else (if HasKey(left, right[0]) then [] else [RightAlone(right[0])]) + RightPart(left, right[1..])
  }

  /** compare_df: an outer merge on the key columns with the two deltas. */
  function CompareDf(left: seq<DashRow>, right: seq<DashRow>): seq<CompareRow> {
    LeftPart(left, right) + RightPart(left, right)
  }

  lemma {:induction false} PairsWithMembers(l: DashRow, right: seq<DashRow>, x: CompareRow)
    ensures x in PairsWith(l, right) <==> exists j :: 0 <= j < |right| && SameKey(l, right[j]) && x == Paired(l, right[j])
    decreases |right|
  {
    if |right| > 0 {
      PairsWithMembers(l, right[1..], x);
      assert forall j :: 1 <= j < |right| ==> right[j] == right[1..][j - 1];
      if x in PairsWith(l, right[1..]) {
        var j :| 0 <= j < |right[1..]| && SameKey(l, right[1..][j]) && x == Paired(l, right[1..][j]);
        assert right[j + 1] == right[1..][j];
      }
    }
  }

  lemma {:induction false} LeftPartMembers(left: seq<DashRow>, right: seq<DashRow>, x: CompareRow)
    ensures x in LeftPart(left, right) <==>
      exists i :: 0 <= i < |left| &&
        ((HasKey(right, left[i]) && x in PairsWith(left[i], right)) || (!HasKey(right, left[i]) && x == LeftAlone(left[i])))
    decreases |left|
  {
    if |left| > 0 {
      LeftPartMembers(left[1..], right, x);
      assert forall i :: 1 <= i < |left| ==> left[i] == left[1..][i - 1];
      if x in LeftPart(left[1..], right) {
        var i :| 0 <= i < |left[1..]| &&
          ((HasKey(right, left[1..][i]) && x in PairsWith(left[1..][i], right)) || (!HasKey(right, left[1..][i]) && x == LeftAlone(left[1..][i])));
        assert left[i + 1] == left[1..][i];
      }
    }
  }

  lemma {:induction false} RightPartMembers(left: seq<DashRow>, right: seq<DashRow>, x: CompareRow)
    ensures x in RightPart(left, right) <==> exists j :: 0 <= j < |right| && !HasKey(left, right[j]) && x == RightAlone(right[j])
    decreases |right|
  {
    if |right| > 0 {
      RightPartMembers(left, right[1..], x);
      assert forall j :: 1 <= j < |right| ==> right[j] == right[1..][j - 1];
      if x in RightPart(left, right[1..]) {
        var j :| 0 <= j < |right[1..]| && !HasKey(left, right[1..][j]) && x == RightAlone(right[1..][j]);
        assert right[j + 1] == right[1..][j];
      }
    }
  }

  /** Every comparison row is a matched pair, with both deltas taken left
      minus right, or an unmatched record of one side without deltas. */
  lemma CompareDfRows(left: seq<DashRow>, right: seq<DashRow>, x: CompareRow)
    requires x in CompareDf(left, right)
    ensures x.merge == Both ==> exists i, j :: 0 <= i < |left| && 0 <= j < |right| && SameKey(left[i], right[j]) && x == Paired(left[i], right[j])
    ensures x.merge == LeftOnly ==> exists i :: 0 <= i < |left| && !HasKey(right, left[i]) && x == LeftAlone(left[i])
    ensures x.merge == RightOnly ==> exists j :: 0 <= j < |right| && !HasKey(left, right[j]) && x == RightAlone(right[j])
    ensures x.statsDelta.Some? <==> x.merge == Both && x.statsLeft.Some? && x.statsRight.Some?
    ensures x.marketingDelta.Some? <==> x.merge == Both && x.marketingLeft.Some? && x.marketingRight.Some?
    ensures x.statsDelta.Some? ==> x.statsDelta.value == x.statsLeft.value - x.statsRight.value
    ensures x.marketingDelta.Some? ==> x.marketingDelta.value == x.marketingLeft.value - x.marketingRight.value
  {
    LeftPartMembers(left, right, x);
    RightPartMembers(left, right, x);
    if x in LeftPart(left, right) {
      var i :| 0 <= i < |left| &&
        ((HasKey(right, left[i]) && x in PairsWith(left[i], right)) || (!HasKey(right, left[i]) && x == LeftAlone(left[i])));
      if HasKey(right, left[i]) {
        PairsWithMembers(left[i], right, x);
      }
    }
  }

  /** No record is lost: each left record appears with its values, paired
      with every right record of its key or alone, and each right record
      likewise. */
  lemma CompareDfCovers(left: seq<DashRow>, right: seq<DashRow>)
    ensures forall i :: 0 <= i < |left| && !HasKey(right, left[i]) ==> LeftAlone(left[i]) in CompareDf(left, right)
    ensures forall i, j :: 0 <= i < |left| && 0 <= j < |right| && SameKey(left[i], right[j]) ==>
      Paired(left[i], right[j]) in CompareDf(left, right)
    ensures forall j :: 0 <= j < |right| && !HasKey(left, right[j]) ==> RightAlone(right[j]) in CompareDf(left, right)
  {
    forall i | 0 <= i < |left| && !HasKey(right, left[i])
      ensures LeftAlone(left[i]) in CompareDf(left, right)
    {
      LeftPartMembers(left, right, LeftAlone(left[i]));
    }
    forall i, j | 0 <= i < |left| && 0 <= j < |right| && SameKey(left[i], right[j])
      ensures Paired(left[i], right[j]) in CompareDf(left, right)
    {
      PairsWithMembers(left[i], right, Paired(left[i], right[j]));
      LeftPartMembers(left, right, Paired(left[i], right[j]));
    }
    forall j | 0 <= j < |right| && !HasKey(left, right[j])
      ensures RightAlone(right[j]) in CompareDf(left, right)
    {
      RightPartMembers(left, right, RightAlone(right[j]));
    }
  }

  /** Comparing a dashboard whose keys are distinct with itself pairs every
      record with itself: nothing is one-sided and every delta is zero. */
  lemma CompareDfSelf(d: seq<DashRow>, x: CompareRow)
    requires forall i, j :: 0 <= i < j < |d| ==> !SameKey(d[i], d[j])
    requires x in CompareDf(d, d)
    ensures x.merge == Both
    ensures x.statsDelta.Some? ==> x.statsDelta.value == 0.0
    ensures x.marketingDelta.Some? ==> x.marketingDelta.value == 0.0
  {
    CompareDfRows(d, d, x);
    assert forall i :: 0 <= i < |d| ==> SameKey(d[i], d[i]);
    assert forall a, b :: 0 <= a < |d| && 0 <= b < |d| && a != b ==> !SameKey(d[a], d[b]);
    if x.merge == Both {
      var i, j :| 0 <= i < |d| && 0 <= j < |d| && SameKey(d[i], d[j]) && x == Paired(d[i], d[j]);
      assert i == j;
    }
  }

  /** The five dashboards compared, in sheet order. */
  function Summaries(raw: seq<RawRow>): (r: seq<seq<DashRow>>)
    ensures |r| == 5
  {
    seq(5, k requires 0 <= k < 5 => Dashboard(raw, SummaryKinds[k].0, SummaryKinds[k].1, SummaryKinds[k].2))
  }

  /** Grain, metrics and totals of each compared dashboard: totals, product
      family, product family WAPE, marketing manager and product. */
  const SummaryKinds: seq<(Grain, seq<Metric>, bool)> :=
    [(ByBu, [Accuracy, Wape], true),
     (ByProdFam, [Accuracy], false),
     (ByProdFam, [Wape], false),
     (ByManager, [Accuracy, Wape], false),
     (ByProduct, [Accuracy], false)]

  /** compare_df merges on the key columns the two dashboards share. A
      dashboard without records has no columns at all, so the key list is
      empty and the merge raises. */
  const EmptyComparison := "merge on an empty key list: a compared dashboard has no records"

  /** build_comparison_workbook, without the writing: one comparison per
      dashboard, in sheet order, which fails when a dashboard of either
      side is empty. */
  function Comparison(source: seq<RawRow>, baseline: seq<RawRow>): (r: Result<seq<seq<CompareRow>>>)
    ensures r.Ok? <==> forall k :: 0 <= k < 5 ==> |Summaries(source)[k]| > 0 && |Summaries(baseline)[k]| > 0
    ensures r.Err? ==> r.message == EmptyComparison
    ensures r.Ok? ==> |r.value| == 5
    ensures r.Ok? ==> forall k :: 0 <= k < 5 ==> r.value[k] == CompareDf(Summaries(source)[k], Summaries(baseline)[k])
  {
    var s := Summaries(source);
    var b := Summaries(baseline);
    if forall k :: 0 <= k < 5 ==> |s[k]| > 0 && |b[k]| > 0 then
      Ok(seq(5, k requires 0 <= k < 5 => CompareDf(s[k], b[k])))
    else Err(EmptyComparison)
  }

  /** A raw table with no row in "quantity" or "dollars". */
  predicate NoUnitRows(raw: seq<RawRow>) {
    forall r :: r in raw ==> r.units !in UnitsOrder
  }

  /** The five dashboards of a raw table are empty together, so the
      comparison fails exactly when one of the two raw tables has no row
      in "quantity" or "dollars". */
  lemma ComparisonFails(source: seq<RawRow>, baseline: seq<RawRow>)
    ensures Comparison(source, baseline).Err? <==> NoUnitRows(source) || NoUnitRows(baseline)
  {
    forall k | 0 <= k < 5
      ensures (|Summaries(source)[k]| == 0 <==> NoUnitRows(source))
           && (|Summaries(baseline)[k]| == 0 <==> NoUnitRows(baseline))
    {
      SummaryEmpty(source, k);
      SummaryEmpty(baseline, k);
    }
    assert NoUnitRows(source) || NoUnitRows(baseline) ==>
      |Summaries(source)[0]| == 0 || |Summaries(baseline)[0]| == 0;
  }

  /** Each of the five dashboards is empty exactly when the raw table has
      no row in "quantity" or "dollars". */
  lemma SummaryEmpty(raw: seq<RawRow>, k: int)
    requires 0 <= k < 5
    ensures |Summaries(raw)[k]| == 0 <==> NoUnitRows(raw)
  {
    var kind := SummaryKinds[k];
    DashboardEmptyWith(raw, kind.0, kind.1, kind.2);
  }

  lemma DashboardEmptyWith(raw: seq<RawRow>, grain: Grain, metrics: seq<Metric>, withTotal: bool)
    requires |metrics| > 0
    ensures |Dashboard(raw, grain, metrics, withTotal)| == 0 <==> NoUnitRows(raw)
  {
    DashboardEmpty(raw, grain, metrics, withTotal);
  }

  // ---------------------------------------------------------------------
  // main

  /** One marketing row through a temporary workbook: its text cells read
      back, its dates and numbers as they were. */
  function ReadMarketingRow(m: MarketingRow): MarketingRow {
    m.(bu := ReadBack(m.bu), location := ReadBack(m.location),
       geography := ReadBack(m.geography), product := ReadBack(m.product))
  }

  function ReadCatalogEntry(e: CatalogEntry): CatalogEntry {
    e.(groupKey := ReadBack(e.groupKey), buCode := ReadBack(e.buCode), buName := ReadBack(e.buName),
       skuList := ReadBack(e.skuList), productFamily := ReadBack(e.productFamily),
       manager := ReadBack(e.manager), featureMode := ReadBack(e.featureMode))
  }

  function ReadStatsRow(r: StatsRow): StatsRow {
    r.(productId := ReadBack(r.productId), buId := ReadBack(r.buId),
       modelType := ReadBack(r.modelType), runId := ReadBack(r.runId))
  }

  function ReadActualsRow(a: ActualsRow): ActualsRow {
    a.(product := ReadBack(a.product), division := ReadBack(a.division))
  }

  predicate MarketingRowNaFree(m: MarketingRow) {
    NaFree(m.bu) && NaFree(m.location) && NaFree(m.geography) && NaFree(m.product)
  }

  predicate CatalogEntryNaFree(e: CatalogEntry) {
    && NaFree(e.groupKey) && NaFree(e.buCode) && NaFree(e.buName) && NaFree(e.skuList)
    && NaFree(e.productFamily) && NaFree(e.manager) && NaFree(e.featureMode)
  }

  predicate StatsRowNaFree(r: StatsRow) {
    NaFree(r.productId) && NaFree(r.buId) && NaFree(r.modelType) && NaFree(r.runId)
  }

  predicate ActualsRowNaFree(a: ActualsRow) {
    NaFree(a.product) && NaFree(a.division)
  }

  /** No text cell of the four tables is an NA token. */
  predicate FramesNaFree(f: Frames) {
    && (forall i :: 0 <= i < |f.marketing| ==> MarketingRowNaFree(f.marketing[i]))
    && (forall i :: 0 <= i < |f.catalog| ==> CatalogEntryNaFree(f.catalog[i]))
    && (forall i :: 0 <= i < |f.stats| ==> StatsRowNaFree(f.stats[i]))
    && (forall i :: 0 <= i < |f.actuals| ==> ActualsRowNaFree(f.actuals[i]))
  }

  /** The four tables written to temporary workbooks and read back with
      `read_excel`, row by row. */
  function ReadFrames(f: Frames): (r: Frames)
    ensures |r.marketing| == |f.marketing| && |r.catalog| == |f.catalog|
    ensures |r.stats| == |f.stats| && |r.actuals| == |f.actuals|
    ensures forall i :: 0 <= i < |f.marketing| ==> r.marketing[i] == ReadMarketingRow(f.marketing[i])
    ensures forall i :: 0 <= i < |f.catalog| ==> r.catalog[i] == ReadCatalogEntry(f.catalog[i])
    ensures forall i :: 0 <= i < |f.stats| ==> r.stats[i] == ReadStatsRow(f.stats[i])
    ensures forall i :: 0 <= i < |f.actuals| ==> r.actuals[i] == ReadActualsRow(f.actuals[i])
  {
    Frames(seq(|f.marketing|, i requires 0 <= i < |f.marketing| => ReadMarketingRow(f.marketing[i])),
           seq(|f.catalog|, i requires 0 <= i < |f.catalog| => ReadCatalogEntry(f.catalog[i])),
           seq(|f.stats|, i requires 0 <= i < |f.stats| => ReadStatsRow(f.stats[i])),
           seq(|f.actuals|, i requires 0 <= i < |f.actuals| => ReadActualsRow(f.actuals[i])))
  }

  /** Reading back leaves no NA token, and changes the tables exactly when
      they hold one. */
  lemma ReadFramesSpec(f: Frames)
    ensures FramesNaFree(ReadFrames(f))
    ensures FramesNaFree(f) <==> ReadFrames(f) == f
  {
    var r := ReadFrames(f);
    forall c: Cell ensures NaFree(ReadBack(c)) && (NaFree(c) <==> ReadBack(c) == c) {
      ReadBackSpec(c);
    }
    if r == f {
      forall i | 0 <= i < |f.marketing| ensures MarketingRowNaFree(f.marketing[i]) {
        assert r.marketing[i] == f.marketing[i];
      }
      forall i | 0 <= i < |f.catalog| ensures CatalogEntryNaFree(f.catalog[i]) {
        assert r.catalog[i] == f.catalog[i];
      }
      forall i | 0 <= i < |f.stats| ensures StatsRowNaFree(f.stats[i]) {
        assert r.stats[i] == f.stats[i];
      }
      forall i | 0 <= i < |f.actuals| ensures ActualsRowNaFree(f.actuals[i]) {
        assert r.actuals[i] == f.actuals[i];
      }
    }
    if FramesNaFree(f) {
      assert r.marketing == f.marketing;
      assert r.catalog == f.catalog;
      assert r.stats == f.stats;
      assert r.actuals == f.actuals;
    }
  }

  /** build_report_from_frames hands the frames to the workbook report
      through temporary workbooks, which write_report reads back with its
      own loaders: every text cell that is an NA token comes back missing,
      and the catalog passes through load_product_catalog's clean-up once
      more. */
  function ReportFrames(f: Frames): Frames {
    var r := ReadFrames(f);
    Frames(r.marketing, LoadCatalog(r.catalog), r.stats, r.actuals)
  }

  /** The clean-up keeps a catalog free of NA tokens and is idempotent. */
  lemma LoadCatalogTwice(rows: seq<CatalogEntry>)
    ensures LoadCatalog(LoadCatalog(rows)) == LoadCatalog(rows)
    ensures (forall i :: 0 <= i < |rows| ==> CatalogEntryNaFree(rows[i])) ==>
      forall i :: 0 <= i < |rows| ==> CatalogEntryNaFree(LoadCatalog(rows)[i])
  {
    forall i | 0 <= i < |rows| ensures RewriteDivision(RewriteDivision(rows[i])) == RewriteDivision(rows[i]) {
      RewriteDivisionSpec(rows[i]);
    }
    assert "D200" !in NaTokens;
  }

  /** What reaches the report: no NA token and no BU code or name
      "Division"; a second round trip would change nothing. Frames without
      NA tokens come back as they went in, except that database frames get
      the "Division" clean-up here; frames from the two workbook paths have
      had it already. */
  lemma ReportFramesSpec(source: string, inp: Inputs)
    requires LoadFrames(source, inp).Ok?
    ensures var f := LoadFrames(source, inp).value;
      && FramesNaFree(ReportFrames(f))
      && (forall i :: 0 <= i < |ReportFrames(f).catalog| ==>
            ReportFrames(f).catalog[i].buCode != Text("Division") && ReportFrames(f).catalog[i].buName != Text("Division"))
      && ReportFrames(ReportFrames(f)) == ReportFrames(f)
      && (FramesNaFree(f) ==> ReportFrames(f) == Frames(f.marketing, LoadCatalog(f.catalog), f.stats, f.actuals))
      && (source in {"legacy", "copy2026"} ==> LoadCatalog(f.catalog) == f.catalog)
  {
    var f := LoadFrames(source, inp).value;
    var r := ReadFrames(f);
    var g := ReportFrames(f);
    ReadFramesSpec(f);
    LoadCatalogTwice(r.catalog);
    forall i | 0 <= i < |g.catalog|
      ensures g.catalog[i].buCode != Text("Division") && g.catalog[i].buName != Text("Division")
    {
      RewriteDivisionSpec(r.catalog[i]);
    }
    assert FramesNaFree(g);
    ReadFramesSpec(g);
    assert ReportFrames(g) == g;
    if source in {"legacy", "copy2026"} {
      LoadCatalogTwice(inp.catalogRows);
    }
  }

  /** What a run of main produces once the tables have loaded: the check
      results, which are logged in every case, then either nothing more
      (report None: main stopped at the gate, exiting with "Critical DQ
      checks failed. Report generation aborted.") or the
      report's raw table and, when a different baseline was asked for, the
      comparison. */
  datatype Outcome = Outcome(dq: DqSummary, report: Option<RawData>, comparison: Option<seq<seq<CompareRow>>>)

  /** The records of the totals dashboard, the first summary sheet the
      report writes. */
  function TotalsDashboard(raw: seq<RawRow>): seq<DashRow> {
    Summaries(raw)[0]
  }

  /** With no record, the totals frame has no "Scope" column and the
      report stops while it writes its dashboards. */
  const EmptyDashboard := "KeyError: 'Scope' (the totals dashboard has no records)"

  /** main, from loading the tables to the comparison (the writing of the
      log, the report and the comparison workbook left out). The report is
      built from the frames after their round trip through the workbooks;
      the comparison is built from the frames as loaded. */
  function RunReport(month: Date, source: string, baseline: string, mode: DqMode, inp: Inputs): Result<Outcome> {
    match LoadFrames(source, inp)
    case Err(e) => Err(e)
    case Ok(f) =>
      var dq := Summarize(month, source, DqChecks(source, f));
      if Aborts(mode, dq) then Ok(Outcome(dq, None, None))
      else PastGate(month, source, baseline, inp, f, dq)
  }

  /** main after the gate: the report, then the comparison if one was
      asked for. */
  function PastGate(month: Date, source: string, baseline: string, inp: Inputs, f: Frames, dq: DqSummary): Result<Outcome> {
    var report := BuildRawData(ReportFrames(f), month);
    if |TotalsDashboard(report.raw)| == 0 then Err(EmptyDashboard)
    else if baseline != "none" && baseline != source then
      match LoadFrames(baseline, inp)
      case Err(e) => Err(e)
      case Ok(bf) =>
        match CompareFrames(month, f, bf)
        case Err(e) => Err(e)
        case Ok(c) => Ok(Outcome(dq, Some(report), Some(c)))
    else Ok(Outcome(dq, Some(report), None))
  }

  /** The comparison main builds: the source and baseline frames as loaded,
      each through build_raw_data. */
  function CompareFrames(month: Date, f: Frames, bf: Frames): Result<seq<seq<CompareRow>>> {
    Comparison(BuildRawData(f, month).raw, BuildRawData(bf, month).raw)
  }

  /** A run that gets past loading logs the checks of the loaded frames; it
      stops at the gate exactly when "fail" mode meets a critical failure;
      otherwise it reports on the frames after their round trip, and it
      compares exactly when a baseline other than "none" and the source
      itself was asked for, then on the frames as loaded. Past the gate a
      run fails, before any comparison, exactly when its totals dashboard
      is empty, and after writing the report exactly when the baseline
      does not load or the comparison fails; otherwise it succeeds. */
  lemma RunReportSpec(month: Date, source: string, baseline: string, mode: DqMode, inp: Inputs)
    ensures LoadFrames(source, inp).Err? ==> RunReport(month, source, baseline, mode, inp).Err?
    ensures RunReport(month, source, baseline, mode, inp).Ok? ==>
      var o := RunReport(month, source, baseline, mode, inp).value;
      var f := LoadFrames(source, inp).value;
      && LoadFrames(source, inp).Ok?
      && o.dq == Summarize(month, source, DqChecks(source, f))
      && (o.report.None? <==> mode == Fail && o.dq.criticalFailed > 0)
      && (o.report.Some? ==> o.report.value == BuildRawData(ReportFrames(f), month))
      && (o.report.Some? ==> |TotalsDashboard(o.report.value.raw)| > 0)
      && (o.comparison.Some? <==> o.report.Some? && baseline != "none" && baseline != source)
      && (o.comparison.Some? ==>
            && LoadFrames(baseline, inp).Ok?
            && CompareFrames(month, f, LoadFrames(baseline, inp).value) == Ok(o.comparison.value))
    ensures (LoadFrames(source, inp).Ok? && mode == Fail
             && Summarize(month, source, DqChecks(source, LoadFrames(source, inp).value)).criticalFailed > 0)
            ==> RunReport(month, source, baseline, mode, inp) == Ok(Outcome(Summarize(month, source, DqChecks(source, LoadFrames(source, inp).value)), None, None))
    ensures (LoadFrames(source, inp).Ok?
             && !Aborts(mode, Summarize(month, source, DqChecks(source, LoadFrames(source, inp).value)))
             && |TotalsDashboard(BuildRawData(ReportFrames(LoadFrames(source, inp).value), month).raw)| == 0)
            ==> RunReport(month, source, baseline, mode, inp) == Err(EmptyDashboard)
    ensures (LoadFrames(source, inp).Ok?
             && !Aborts(mode, Summarize(month, source, DqChecks(source, LoadFrames(source, inp).value)))
             && |TotalsDashboard(BuildRawData(ReportFrames(LoadFrames(source, inp).value), month).raw)| > 0
             && baseline != "none" && baseline != source && LoadFrames(baseline, inp).Ok?
             && CompareFrames(month, LoadFrames(source, inp).value, LoadFrames(baseline, inp).value).Err?)
            ==> RunReport(month, source, baseline, mode, inp) == Err(EmptyComparison)
    ensures (mode != Fail && LoadFrames(source, inp).Ok?
             && |TotalsDashboard(BuildRawData(ReportFrames(LoadFrames(source, inp).value), month).raw)| > 0
             && (|| baseline == "none" || baseline == source
                 || (LoadFrames(baseline, inp).Ok?
                     && CompareFrames(month, LoadFrames(source, inp).value, LoadFrames(baseline, inp).value).Ok?)))
            ==> RunReport(month, source, baseline, mode, inp).Ok?
  {
    RunReportOutcome(month, source, baseline, mode, inp);
    RunReportStops(month, source, baseline, mode, inp);
  }

  /** What a successful run returns. */
  lemma RunReportOutcome(month: Date, source: string, baseline: string, mode: DqMode, inp: Inputs)
    ensures LoadFrames(source, inp).Err? ==> RunReport(month, source, baseline, mode, inp).Err?
    ensures RunReport(month, source, baseline, mode, inp).Ok? ==>
      var o := RunReport(month, source, baseline, mode, inp).value;
      var f := LoadFrames(source, inp).value;
      && LoadFrames(source, inp).Ok?
      && o.dq == Summarize(month, source, DqChecks(source, f))
      && (o.report.None? <==> mode == Fail && o.dq.criticalFailed > 0)
      && (o.report.Some? ==> o.report.value == BuildRawData(ReportFrames(f), month))
      && (o.report.Some? ==> |TotalsDashboard(o.report.value.raw)| > 0)
      && (o.comparison.Some? <==> o.report.Some? && baseline != "none" && baseline != source)
      && (o.comparison.Some? ==>
            && LoadFrames(baseline, inp).Ok?
            && CompareFrames(month, f, LoadFrames(baseline, inp).value) == Ok(o.comparison.value))
  {
    if LoadFrames(source, inp).Ok? {
      var f := LoadFrames(source, inp).value;
      var dq := Summarize(month, source, DqChecks(source, f));
      if !Aborts(mode, dq) {
        PastGateSpec(month, source, baseline, inp, f, dq);
      }
    }
  }

  /** Where a run stops, and when it succeeds. */
  lemma RunReportStops(month: Date, source: string, baseline: string, mode: DqMode, inp: Inputs)
    ensures (LoadFrames(source, inp).Ok? && mode == Fail
             && Summarize(month, source, DqChecks(source, LoadFrames(source, inp).value)).criticalFailed > 0)
            ==> RunReport(month, source, baseline, mode, inp) == Ok(Outcome(Summarize(month, source, DqChecks(source, LoadFrames(source, inp).value)), None, None))
    ensures (LoadFrames(source, inp).Ok?
             && !Aborts(mode, Summarize(month, source, DqChecks(source, LoadFrames(source, inp).value)))
             && |TotalsDashboard(BuildRawData(ReportFrames(LoadFrames(source, inp).value), month).raw)| == 0)
            ==> RunReport(month, source, baseline, mode, inp) == Err(EmptyDashboard)
    ensures (LoadFrames(source, inp).Ok?
             && !Aborts(mode, Summarize(month, source, DqChecks(source, LoadFrames(source, inp).value)))
             && |TotalsDashboard(BuildRawData(ReportFrames(LoadFrames(source, inp).value), month).raw)| > 0
             && baseline != "none" && baseline != source && LoadFrames(baseline, inp).Ok?
             && CompareFrames(month, LoadFrames(source, inp).value, LoadFrames(baseline, inp).value).Err?)
            ==> RunReport(month, source, baseline, mode, inp) == Err(EmptyComparison)
    ensures (mode != Fail && LoadFrames(source, inp).Ok?
             && |TotalsDashboard(BuildRawData(ReportFrames(LoadFrames(source, inp).value), month).raw)| > 0
             && (|| baseline == "none" || baseline == source
                 || (LoadFrames(baseline, inp).Ok?
                     && CompareFrames(month, LoadFrames(source, inp).value, LoadFrames(baseline, inp).value).Ok?)))
            ==> RunReport(month, source, baseline, mode, inp).Ok?
  {
    if LoadFrames(source, inp).Ok? {
      var f := LoadFrames(source, inp).value;
      var dq := Summarize(month, source, DqChecks(source, f));
      if !Aborts(mode, dq) {
        PastGateSpec(month, source, baseline, inp, f, dq);
      }
    }
  }

  /** After the gate a run fails on an empty totals dashboard, then on a
      baseline that does not load or a comparison that fails; otherwise it
      returns the report and, exactly when a different baseline was asked
      for, the comparison. */
  lemma PastGateSpec(month: Date, source: string, baseline: string, inp: Inputs, f: Frames, dq: DqSummary)
    ensures var r := PastGate(month, source, baseline, inp, f, dq);
      var report := BuildRawData(ReportFrames(f), month);
      var compare := baseline != "none" && baseline != source;
      && (|TotalsDashboard(report.raw)| == 0 ==> r == Err(EmptyDashboard))
      && (|TotalsDashboard(report.raw)| > 0 && !compare ==> r == Ok(Outcome(dq, Some(report), None)))
      && (|TotalsDashboard(report.raw)| > 0 && compare && LoadFrames(baseline, inp).Err? ==> r.Err?)
      && (|TotalsDashboard(report.raw)| > 0 && compare && LoadFrames(baseline, inp).Ok? ==>
            var c := CompareFrames(month, f, LoadFrames(baseline, inp).value);
            && (c.Err? ==> r == Err(EmptyComparison))
            && (c.Ok? ==> r == Ok(Outcome(dq, Some(report), Some(c.value)))))
  {
  }

  /** The totals dashboard is empty exactly when no row of the report's
      raw table is in "quantity" or "dollars". */
  lemma TotalsDashboardEmpty(raw: seq<RawRow>)
    ensures |TotalsDashboard(raw)| == 0 <==> forall r :: r in raw ==> r.units != "quantity" && r.units != "dollars"
  {
    DashboardEmpty(raw, ByBu, [Accuracy, Wape], true);
  }
}
