/** The dashboard sheets built from the raw rows: per unit of measure
    ("quantity", then "dollars"), one block of rows per group of a grain
    (BU, product family, marketing manager, product), each row holding a
    metric for the statistical model and for marketing, and for the totals
    dashboard a "Total" block per unit. */
module Dashboards {
  import opened Wrappers
  import opened Tables
  import opened Sums
  import opened Reconcile

  /** safe_ratio: no value when the denominator is zero. */
  function SafeRatio(n: real, d: real): (r: Option<real>)
    ensures r.None? <==> d == 0.0
    ensures r.Some? ==> r.value * d == n
  {
    if d == 0.0 then None else Some(n / d)
  }

  /** The units a dashboard reports, in the order it lists them; raw rows
      with any other units appear in no dashboard. */
  const UnitsOrder: seq<string> := ["quantity", "dollars"]

  /** The group-by columns of each dashboard. */
  datatype Grain = ByBu | ByProdFam | ByManager | ByProduct

  function BuKey(r: RawRow): seq<Cell> { [r.division, r.buName] }
  function ProdFamKey(r: RawRow): seq<Cell> { [r.division, r.buName, r.prodFam] }
  function ManagerKey(r: RawRow): seq<Cell> { [r.division, r.buName, r.manager] }
  function ProductKey(r: RawRow): seq<Cell> { [r.division, r.buName, r.product, r.manager] }

  function KeyFn(g: Grain): RawRow -> seq<Cell> {
    match g
    case ByBu => BuKey
    case ByProdFam => ProdFamKey
    case ByManager => ManagerKey
    case ByProduct => ProductKey
  }

  /** "Midmark Fcast Acc." (forecast over actuals) or "WAPE" (absolute error over actuals). */
  datatype Metric = Accuracy | Wape

  /** A BU-level (group) row, or the totals dashboard's "ALL" / "Total" row. */
  datatype Scope = Group(key: seq<Cell>) | AllBus

  datatype DashRow = DashRow(units: string, scope: Scope, metric: Metric, stats: Option<real>, marketing: Option<real>)

  /** The five column sums of a block of raw rows. */
  datatype ColumnSums = ColumnSums(actuals: real, stats: real, marketing: real, statsAbs: real, marketingAbs: real)

  function ActualsCol(r: RawRow): real { r.actuals }
  function StatsCol(r: RawRow): real { r.statsFcast }
  function MarketingCol(r: RawRow): real { r.mktFcast }
  function StatsAbsCol(r: RawRow): real { r.statsAbsError }
  function MarketingAbsCol(r: RawRow): real { r.mktAbsError }

  function SumsOf(rows: seq<RawRow>): ColumnSums {
    ColumnSums(Total(rows, ActualsCol), Total(rows, StatsCol), Total(rows, MarketingCol),
               Total(rows, StatsAbsCol), Total(rows, MarketingAbsCol))
  }

  function GroupSums(rows: seq<RawRow>, key: RawRow -> seq<Cell>, k: seq<Cell>): ColumnSums {
    ColumnSums(GroupTotal(rows, key, k, ActualsCol), GroupTotal(rows, key, k, StatsCol),
               GroupTotal(rows, key, k, MarketingCol), GroupTotal(rows, key, k, StatsAbsCol),
               GroupTotal(rows, key, k, MarketingAbsCol))
  }

  /** One record of a dashboard: the metric of both forecasts over one block's sums. */
  function MetricRow(units: string, scope: Scope, m: Metric, s: ColumnSums): DashRow {
    match m
    case Accuracy => DashRow(units, scope, m, SafeRatio(s.stats, s.actuals), SafeRatio(s.marketing, s.actuals))
    case Wape => DashRow(units, scope, m, SafeRatio(s.statsAbs, s.actuals), SafeRatio(s.marketingAbs, s.actuals))
  }

  function MetricRows(units: string, scope: Scope, metrics: seq<Metric>, s: ColumnSums): (r: seq<DashRow>)
    ensures |r| == |metrics|
  {
    seq(|metrics|, i requires 0 <= i < |metrics| => MetricRow(units, scope, metrics[i], s))
  }

  /** `raw[raw["Units"] == units]`. */
  function UnitRows(raw: seq<RawRow>, units: string): seq<RawRow>
    decreases |raw|
  {
    if |raw| == 0 then []
    else (if raw[0].units == units then [raw[0]] else []) + UnitRows(raw[1..], units)
  }

  /** The rows of one unit are exactly the raw rows with those units. */
  lemma {:induction false} UnitRowsMembers(raw: seq<RawRow>, units: string, x: RawRow)
    ensures x in UnitRows(raw, units) <==> x in raw && x.units == units
    decreases |raw|
  {
    if |raw| > 0 {
      UnitRowsMembers(raw[1..], units, x);
      assert x in raw <==> x == raw[0] || x in raw[1..];
    }
  }

  /** The records of the groups ks, group by group. */
  function GroupSection(ur: seq<RawRow>, units: string, grain: Grain, ks: seq<seq<Cell>>, metrics: seq<Metric>): seq<DashRow>
    decreases |ks|
  {
    if |ks| == 0 then []
    else GroupSection(ur, units, grain, ks[..|ks| - 1], metrics)
         + MetricRows(units, Group(ks[|ks| - 1]), metrics, GroupSums(ur, KeyFn(grain), ks[|ks| - 1]))
  }

  /** The records of one unit of measure: nothing when it has no raw rows,
      otherwise its groups and, on the totals dashboard, its total. */
  function UnitSection(raw: seq<RawRow>, units: string, grain: Grain, metrics: seq<Metric>, withTotal: bool): seq<DashRow> {
    var ur := UnitRows(raw, units);
    if |ur| == 0 then []
    else GroupSection(ur, units, grain, Groups(ur, KeyFn(grain)), metrics)
         + (if withTotal then MetricRows(units, AllBus, metrics, SumsOf(ur)) else [])
  }

  /** The section builder of one dashboard, as a function of the unit. */
  function UnitFn(raw: seq<RawRow>, grain: Grain, metrics: seq<Metric>, withTotal: bool): string -> seq<DashRow> {
    u => UnitSection(raw, u, grain, metrics, withTotal)
  }

  /** The sections of the units us, one after the other. */
  function Sections(raw: seq<RawRow>, us: seq<string>, grain: Grain, metrics: seq<Metric>, withTotal: bool): seq<DashRow> {
    Concat(us, UnitFn(raw, grain, metrics, withTotal))
  }

  /** The records a dashboard builder returns. */
  function Dashboard(raw: seq<RawRow>, grain: Grain, metrics: seq<Metric>, withTotal: bool): seq<DashRow> {
    Sections(raw, UnitsOrder, grain, metrics, withTotal)
  }

  /** `records.append(...)` once per metric, for one block of rows. */
  method AppendMetricRows(records: seq<DashRow>, units: string, scope: Scope, metrics: seq<Metric>, s: ColumnSums)
    returns (out: seq<DashRow>)
    ensures out == records + MetricRows(units, scope, metrics, s)
  {
    out := records;
    for mi := 0 to |metrics|
      invariant out == records + MetricRows(units, scope, metrics[..mi], s)
    {
      out := out + [MetricRow(units, scope, metrics[mi], s)];
    }
    assert metrics[..|metrics|] == metrics;
  }

  /** The loop over the groups of one unit: one block of records per group. */
  method AppendGroupBlocks(records: seq<DashRow>, ur: seq<RawRow>, units: string, grain: Grain, metrics: seq<Metric>, ks: seq<seq<Cell>>)
    returns (out: seq<DashRow>)
    ensures out == records + GroupSection(ur, units, grain, ks, metrics)
  {
    out := records;
    for gi := 0 to |ks|
      invariant out == records + GroupSection(ur, units, grain, ks[..gi], metrics)
    {
      assert ks[..gi + 1][..gi] == ks[..gi] && ks[..gi + 1][gi] == ks[gi];
      out := AppendMetricRows(out, units, Group(ks[gi]), metrics, GroupSums(ur, KeyFn(grain), ks[gi]));
    }
    assert ks[..|ks|] == ks;
  }

  /** The body of the loop over units: skip a unit without rows, otherwise
      one block per group and then, on the totals dashboard, the total. */
  method AppendUnitSection(records: seq<DashRow>, raw: seq<RawRow>, units: string, grain: Grain, metrics: seq<Metric>, withTotal: bool)
    returns (out: seq<DashRow>)
    ensures out == records + UnitSection(raw, units, grain, metrics, withTotal)
  {
    var ur := UnitRows(raw, units);
    if |ur| == 0 {
      return records;
    }
    out := AppendUnitBody(records, ur, units, grain, metrics, withTotal, Groups(ur, KeyFn(grain)));
  }

  /** The blocks of the groups ks and, on the totals dashboard, the total. */
  method AppendUnitBody(records: seq<DashRow>, ur: seq<RawRow>, units: string, grain: Grain, metrics: seq<Metric>, withTotal: bool, ks: seq<seq<Cell>>)
    returns (out: seq<DashRow>)
    ensures out == records + (GroupSection(ur, units, grain, ks, metrics)
                              + (if withTotal then MetricRows(units, AllBus, metrics, SumsOf(ur)) else []))
  {
    var groups := GroupSection(ur, units, grain, ks, metrics);
    out := AppendGroupBlocks(records, ur, units, grain, metrics, ks);
    if withTotal {
      var total := MetricRows(units, AllBus, metrics, SumsOf(ur));
      out := AppendMetricRows(out, units, AllBus, metrics, SumsOf(ur));
      assert out == records + (groups + total);
    } else {
      assert out == records + (groups + []);
    }
  }

  /** The loop every dashboard builder runs, over "quantity" then "dollars". */
  method BuildDashboard(raw: seq<RawRow>, grain: Grain, metrics: seq<Metric>, withTotal: bool) returns (records: seq<DashRow>)
    ensures records == Dashboard(raw, grain, metrics, withTotal)
  {
    records := [];
    for ui := 0 to |UnitsOrder|
      invariant records == Sections(raw, UnitsOrder[..ui], grain, metrics, withTotal)
    {
      ConcatSnoc(UnitsOrder, ui, UnitFn(raw, grain, metrics, withTotal));
      records := AppendUnitSection(records, raw, UnitsOrder[ui], grain, metrics, withTotal);
    }
    assert UnitsOrder[..|UnitsOrder|] == UnitsOrder;
  }

  /** build_totals_dashboard. */
  method BuildTotalsDashboard(raw: seq<RawRow>) returns (records: seq<DashRow>)
    ensures records == Dashboard(raw, ByBu, [Accuracy, Wape], true)
  {
    records := BuildDashboard(raw, ByBu, [Accuracy, Wape], true);
  }

  /** build_prod_fam_dashboard. */
  method BuildProdFamDashboard(raw: seq<RawRow>) returns (records: seq<DashRow>)
    ensures records == Dashboard(raw, ByProdFam, [Accuracy], false)
  {
    records := BuildDashboard(raw, ByProdFam, [Accuracy], false);
  }

  /** build_prod_fam_wape_dashboard. */
  method BuildProdFamWapeDashboard(raw: seq<RawRow>) returns (records: seq<DashRow>)
    ensures records == Dashboard(raw, ByProdFam, [Wape], false)
  {
    records := BuildDashboard(raw, ByProdFam, [Wape], false);
  }

  /** build_marketing_manager_dashboard. */
  method BuildManagerDashboard(raw: seq<RawRow>) returns (records: seq<DashRow>)
    ensures records == Dashboard(raw, ByManager, [Accuracy, Wape], false)
  {
    records := BuildDashboard(raw, ByManager, [Accuracy, Wape], false);
  }

  /** build_product_dashboard. */
  method BuildProductDashboard(raw: seq<RawRow>) returns (records: seq<DashRow>)
    ensures records == Dashboard(raw, ByProduct, [Accuracy], false)
  {
    records := BuildDashboard(raw, ByProduct, [Accuracy], false);
  }

  // ---------------------------------------------------------------------
  // What the records mean

  /** Accuracy is the forecast sum over the actuals sum, so it is exactly 1
      when the two sums agree; WAPE is the absolute-error sum over the
      actuals sum. Neither has a value when the actuals sum to zero. */
  lemma MetricRowSpec(units: string, scope: Scope, m: Metric, s: ColumnSums)
    ensures var d := MetricRow(units, scope, m, s);
      && d.units == units && d.scope == scope && d.metric == m
      && (s.actuals == 0.0 <==> d.stats.None? && d.marketing.None?)
      && (s.actuals != 0.0 && m == Accuracy ==>
            d.stats == Some(s.stats / s.actuals) && d.marketing == Some(s.marketing / s.actuals)
            && (d.stats == Some(1.0) <==> s.stats == s.actuals)
            && (d.marketing == Some(1.0) <==> s.marketing == s.actuals))
      && (s.actuals != 0.0 && m == Wape ==>
            d.stats == Some(s.statsAbs / s.actuals) && d.marketing == Some(s.marketingAbs / s.actuals))
  {
    if s.actuals != 0.0 && m == Accuracy {
      if s.stats / s.actuals == 1.0 {
        assert s.stats == (s.stats / s.actuals) * s.actuals;
      }
      if s.marketing / s.actuals == 1.0 {
        assert s.marketing == (s.marketing / s.actuals) * s.actuals;
      }
    }
  }

  /** With non-negative absolute errors (as build_raw_data produces) and
      positive actuals, a group's WAPE is never negative. */
  lemma WapeNonNegative(ur: seq<RawRow>, key: RawRow -> seq<Cell>, k: seq<Cell>, units: string)
    requires forall i :: 0 <= i < |ur| ==> ur[i].statsAbsError >= 0.0 && ur[i].mktAbsError >= 0.0
    requires GroupSums(ur, key, k).actuals > 0.0
    ensures var d := MetricRow(units, Group(k), Wape, GroupSums(ur, key, k));
      d.stats.Some? && d.stats.value >= 0.0 && d.marketing.Some? && d.marketing.value >= 0.0
  {
    GroupTotalNonNegative(ur, key, k, StatsAbsCol);
    GroupTotalNonNegative(ur, key, k, MarketingAbsCol);
  }

  lemma {:induction false} GroupTotalNonNegative(s: seq<RawRow>, key: RawRow -> seq<Cell>, k: seq<Cell>, v: RawRow -> real)
    requires forall i :: 0 <= i < |s| ==> v(s[i]) >= 0.0
    ensures GroupTotal(s, key, k, v) >= 0.0
    decreases |s|
  {
    if |s| > 0 {
      GroupTotalNonNegative(s[..|s| - 1], key, k, v);
    }
  }

  /** Each column of a unit's Total record is the sum of that column over
      its BU records: the total neither drops nor double-counts a BU. */
  lemma TotalIsSumOfBus(ur: seq<RawRow>)
    ensures var ks := Groups(ur, BuKey);
      && SumsOf(ur).actuals == TotalOverGroups(ur, BuKey, ks, ActualsCol)
      && SumsOf(ur).stats == TotalOverGroups(ur, BuKey, ks, StatsCol)
      && SumsOf(ur).marketing == TotalOverGroups(ur, BuKey, ks, MarketingCol)
      && SumsOf(ur).statsAbs == TotalOverGroups(ur, BuKey, ks, StatsAbsCol)
      && SumsOf(ur).marketingAbs == TotalOverGroups(ur, BuKey, ks, MarketingAbsCol)
  {
    var ks := Groups(ur, BuKey);
    GroupTotalsPartition(ur, BuKey, ks, ActualsCol);
    GroupTotalsPartition(ur, BuKey, ks, StatsCol);
    GroupTotalsPartition(ur, BuKey, ks, MarketingCol);
    GroupTotalsPartition(ur, BuKey, ks, StatsAbsCol);
    GroupTotalsPartition(ur, BuKey, ks, MarketingAbsCol);
  }

  // ---------------------------------------------------------------------
  // Which records a dashboard holds

  lemma {:induction false} GroupSectionCount(ur: seq<RawRow>, units: string, grain: Grain, ks: seq<seq<Cell>>, metrics: seq<Metric>)
    ensures |GroupSection(ur, units, grain, ks, metrics)| == |ks| * |metrics|
    decreases |ks|
  {
    if |ks| > 0 {
      GroupSectionCount(ur, units, grain, ks[..|ks| - 1], metrics);
    }
  }

  /** A unit with raw rows gets one record per group and metric, plus one
      per metric for its total on the totals dashboard; a unit without raw
      rows gets none. */
  lemma UnitSectionCount(raw: seq<RawRow>, units: string, grain: Grain, metrics: seq<Metric>, withTotal: bool)
    ensures var ur := UnitRows(raw, units);
      |UnitSection(raw, units, grain, metrics, withTotal)|
        == if |ur| == 0 then 0
           else |Groups(ur, KeyFn(grain))| * |metrics| + (if withTotal then |metrics| else 0)
  {
    var ur := UnitRows(raw, units);
    if |ur| > 0 {
      GroupSectionCount(ur, units, grain, Groups(ur, KeyFn(grain)), metrics);
    }
  }

  lemma {:induction false} GroupSectionMembers(ur: seq<RawRow>, units: string, grain: Grain, ks: seq<seq<Cell>>, metrics: seq<Metric>, d: DashRow)
    ensures d in GroupSection(ur, units, grain, ks, metrics) <==>
      exists k, m :: k in ks && m in metrics && d == MetricRow(units, Group(k), m, GroupSums(ur, KeyFn(grain), k))
    decreases |ks|
  {
    if |ks| > 0 {
      var init := ks[..|ks| - 1];
      var last := ks[|ks| - 1];
      GroupSectionMembers(ur, units, grain, init, metrics, d);
      assert forall k :: k in ks <==> k in init || k == last;
      var tail := MetricRows(units, Group(last), metrics, GroupSums(ur, KeyFn(grain), last));
      assert d in tail <==> exists m :: m in metrics && d == MetricRow(units, Group(last), m, GroupSums(ur, KeyFn(grain), last)) by {
        if d in tail {
          var i :| 0 <= i < |tail| && tail[i] == d;
          assert metrics[i] in metrics;
        }
        if exists m :: m in metrics && d == MetricRow(units, Group(last), m, GroupSums(ur, KeyFn(grain), last)) {
          var m :| m in metrics && d == MetricRow(units, Group(last), m, GroupSums(ur, KeyFn(grain), last));
          var i :| 0 <= i < |metrics| && metrics[i] == m;
          assert tail[i] == d;
        }
      }
    }
  }

  lemma MetricRowsMembers(units: string, scope: Scope, metrics: seq<Metric>, s: ColumnSums, d: DashRow)
    ensures d in MetricRows(units, scope, metrics, s) <==> exists m :: m in metrics && d == MetricRow(units, scope, m, s)
  {
    var rs := MetricRows(units, scope, metrics, s);
    if d in rs {
      var i :| 0 <= i < |rs| && rs[i] == d;
      assert metrics[i] in metrics;
    }
    if exists m :: m in metrics && d == MetricRow(units, scope, m, s) {
      var m :| m in metrics && d == MetricRow(units, scope, m, s);
      var i :| 0 <= i < |metrics| && metrics[i] == m;
      assert rs[i] == d;
    }
  }

  /** The records of one unit are exactly: for every group of its raw rows
      and every metric, the metric over that group's sums; and, on the
      totals dashboard, every metric over all its rows' sums. */
  lemma UnitSectionMembers(raw: seq<RawRow>, units: string, grain: Grain, metrics: seq<Metric>, withTotal: bool, d: DashRow)
    ensures var ur := UnitRows(raw, units);
      d in UnitSection(raw, units, grain, metrics, withTotal) <==>
        || (exists r, m :: r in ur && m in metrics
              && d == MetricRow(units, Group(KeyFn(grain)(r)), m, GroupSums(ur, KeyFn(grain), KeyFn(grain)(r))))
        || (withTotal && |ur| > 0 && exists m :: m in metrics && d == MetricRow(units, AllBus, m, SumsOf(ur)))
  {
    var ur := UnitRows(raw, units);
    var key := KeyFn(grain);
    var ks := Groups(ur, key);
    GroupSectionMembers(ur, units, grain, ks, metrics, d);
    MetricRowsMembers(units, AllBus, metrics, SumsOf(ur), d);
    forall k | k in ks
      ensures exists r :: r in ur && key(r) == k
    {
      var j :| 0 <= j < |ks| && ks[j] == k;
      var i :| 0 <= i < |ur| && key(ur[i]) == ks[j];
      assert ur[i] in ur;
    }
    forall r | r in ur
      ensures key(r) in ks
    {
      var i :| 0 <= i < |ur| && ur[i] == r;
    }
  }

  lemma SectionsMembers(raw: seq<RawRow>, us: seq<string>, grain: Grain, metrics: seq<Metric>, withTotal: bool, d: DashRow)
    ensures d in Sections(raw, us, grain, metrics, withTotal) <==>
      exists u :: u in us && d in UnitSection(raw, u, grain, metrics, withTotal)
  {
    ConcatMembers(us, UnitFn(raw, grain, metrics, withTotal), d);
  }

  lemma {:induction false} GroupSectionUnits(ur: seq<RawRow>, units: string, grain: Grain, ks: seq<seq<Cell>>, metrics: seq<Metric>)
    ensures forall d :: d in GroupSection(ur, units, grain, ks, metrics) ==> d.units == units
    decreases |ks|
  {
    if |ks| > 0 {
      GroupSectionUnits(ur, units, grain, ks[..|ks| - 1], metrics);
    }
  }

  /** Every record of a unit's section carries that unit. */
  lemma UnitSectionUnits(raw: seq<RawRow>, units: string, grain: Grain, metrics: seq<Metric>, withTotal: bool, d: DashRow)
    requires d in UnitSection(raw, units, grain, metrics, withTotal)
    ensures d.units == units
  {
    var ur := UnitRows(raw, units);
    GroupSectionUnits(ur, units, grain, Groups(ur, KeyFn(grain)), metrics);
  }

  /** A dashboard holds, for each of "quantity" and "dollars", a record per
      metric for every group of that unit's raw rows (the metric over the
      group's sums) and, on the totals dashboard, a record per metric over
      the unit's whole sums; and nothing else. */
  lemma DashboardMembers(raw: seq<RawRow>, grain: Grain, metrics: seq<Metric>, withTotal: bool, d: DashRow)
    ensures d in Dashboard(raw, grain, metrics, withTotal) <==>
      && d.units in UnitsOrder
      && var ur := UnitRows(raw, d.units);
        || (exists r, m :: r in ur && m in metrics
              && d == MetricRow(d.units, Group(KeyFn(grain)(r)), m, GroupSums(ur, KeyFn(grain), KeyFn(grain)(r))))
        || (withTotal && |ur| > 0 && exists m :: m in metrics && d == MetricRow(d.units, AllBus, m, SumsOf(ur)))
  {
    SectionsMembers(raw, UnitsOrder, grain, metrics, withTotal, d);
    if d in Dashboard(raw, grain, metrics, withTotal) {
      var u :| u in UnitsOrder && d in UnitSection(raw, u, grain, metrics, withTotal);
      UnitSectionUnits(raw, u, grain, metrics, withTotal, d);
    }
    UnitSectionMembers(raw, d.units, grain, metrics, withTotal, d);
  }

  /** A raw row in "quantity" or "dollars" puts at least one record, its
      group's first metric, on every dashboard with metrics. */
  lemma DashboardHasRecord(raw: seq<RawRow>, grain: Grain, metrics: seq<Metric>, withTotal: bool, r: RawRow)
    requires r in raw && r.units in UnitsOrder && |metrics| > 0
    ensures |Dashboard(raw, grain, metrics, withTotal)| > 0
  {
    var ur := UnitRows(raw, r.units);
    var key := KeyFn(grain);
    UnitRowsMembers(raw, r.units, r);
    var d := MetricRow(r.units, Group(key(r)), metrics[0], GroupSums(ur, key, key(r)));
    assert metrics[0] in metrics;
    DashboardMembers(raw, grain, metrics, withTotal, d);
  }

  /** Every record of a dashboard comes from a metric and a raw row in its
      units. */
  lemma DashboardRecordSource(raw: seq<RawRow>, grain: Grain, metrics: seq<Metric>, withTotal: bool, d: DashRow)
    ensures d in Dashboard(raw, grain, metrics, withTotal) ==>
      |metrics| > 0 && d.units in UnitsOrder && exists r :: r in raw && r.units == d.units
  {
    DashboardMembers(raw, grain, metrics, withTotal, d);
    if d !in Dashboard(raw, grain, metrics, withTotal) {
      return;
    }
    var ur := UnitRows(raw, d.units);
    assert |ur| > 0 && |metrics| > 0 by {
      if exists r, m :: r in ur && m in metrics
           && d == MetricRow(d.units, Group(KeyFn(grain)(r)), m, GroupSums(ur, KeyFn(grain), KeyFn(grain)(r))) {
        var r, m :| r in ur && m in metrics
           && d == MetricRow(d.units, Group(KeyFn(grain)(r)), m, GroupSums(ur, KeyFn(grain), KeyFn(grain)(r)));
      }
    }
    UnitRowsMembers(raw, d.units, ur[0]);
    assert ur[0] in ur;
  }

  /** A dashboard has no records exactly when it has no metrics or no raw
      row is in "quantity" or "dollars": every unit with rows contributes
      at least one group, hence one record per metric. */
  lemma DashboardEmpty(raw: seq<RawRow>, grain: Grain, metrics: seq<Metric>, withTotal: bool)
    ensures |Dashboard(raw, grain, metrics, withTotal)| == 0 <==>
      |metrics| == 0 || forall r :: r in raw ==> r.units !in UnitsOrder
  {
    var dash := Dashboard(raw, grain, metrics, withTotal);
    if |metrics| > 0 && exists r :: r in raw && r.units in UnitsOrder {
      var r :| r in raw && r.units in UnitsOrder;
      DashboardHasRecord(raw, grain, metrics, withTotal, r);
    }
    if |dash| > 0 {
      DashboardRecordSource(raw, grain, metrics, withTotal, dash[0]);
    }
  }
}
