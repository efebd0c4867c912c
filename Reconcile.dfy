/** build_raw_data: the reconciliation of the marketing forecast with the
    product catalog, the statistical-model forecast and the actuals for one
    report month, down to one raw row per catalog group and unit of measure. */
module Reconcile {
  import opened Wrappers
  import opened Text
  import opened Dates
  import opened Tables
  import opened Catalog
  import opened Sums

  // ---------------------------------------------------------------------
  // Marketing rows in scope

  /** The geography filter: upper-cased, but NOT stripped. */
  predicate IsAmericas(m: MarketingRow) {
    Upper(CellText(m.geography)) == "AMERICAS"
  }

  predicate InScope(m: MarketingRow, month: Date) {
    InMonth(m.date, month) && IsAmericas(m)
  }

  /** The marketing rows of the report month in the Americas, in order. */
  function ScopeMarketing(rows: seq<MarketingRow>, month: Date): (r: seq<MarketingRow>)
    ensures |r| <= |rows|
    ensures forall m :: m in r <==> m in rows && InScope(m, month)
    decreases |rows|
  {
    if |rows| == 0 then []
    else (if InScope(rows[0], month) then [rows[0]] else []) + ScopeMarketing(rows[1..], month)
  }

  /** A geography padded with white space is filtered out, whatever its case. */
  lemma PaddedGeographyDropped(m: MarketingRow, month: Date, s: string)
    requires m.geography == Text(" " + s)
    ensures !InScope(m, month)
  {
    assert Upper(CellText(m.geography))[0] == ' ';
  }

  // ---------------------------------------------------------------------
  // The inner join with the expanded catalog

  /** The join keys agree after normalize_key: product with SKU, BU with BU code. */
  predicate Matches(m: MarketingRow, c: CatalogEntry) {
    NormalizeKey(m.product) == NormalizeKey(c.skuList) && NormalizeKey(m.bu) == NormalizeKey(c.buCode)
  }

  /** A row of `merged`: a marketing row with the catalog row it matched. */
  datatype Joined = Joined(m: MarketingRow, c: CatalogEntry)

  /** The catalog rows one marketing row matches, in catalog order. */
  function MatchesOf(m: MarketingRow, cmap: seq<CatalogEntry>): (r: seq<Joined>)
    ensures forall j :: j in r <==> j.m == m && j.c in cmap && Matches(m, j.c)
    decreases |cmap|
  {
    if |cmap| == 0 then []
    else
      assert forall c :: c in cmap <==> c == cmap[0] || c in cmap[1..];
      (if Matches(m, cmap[0]) then [Joined(m, cmap[0])] else []) + MatchesOf(m, cmap[1..])
  }

  /** `marketing_df.merge(catalog_map, how="inner")`: every matching pair,
      marketing rows in order. */
  function InnerJoin(mkt: seq<MarketingRow>, cmap: seq<CatalogEntry>): (r: seq<Joined>)
    ensures forall j :: j in r <==> j.m in mkt && j.c in cmap && Matches(j.m, j.c)
    decreases |mkt|
  {
    if |mkt| == 0 then []
    else
      assert forall m :: m in mkt <==> m == mkt[0] || m in mkt[1..];
      MatchesOf(mkt[0], cmap) + InnerJoin(mkt[1..], cmap)
  }

  // ---------------------------------------------------------------------
  // The casework split of D200

  /** The locations whose total-casework forecast belongs to one catalog group. */
  const CaseworkGroups: map<string, string> :=
    map["LOC1020" := "ARTISAN CASEWORK", "LOC1080" := "SYNTHESIS CASEWORK"]

  /** casework_mask. */
  predicate IsCaseworkRow(j: Joined) {
    && NormalizeKey(j.m.bu) == "D200"
    && NormalizeKey(j.m.product) == "TOTAL CASEWORK"
    && NormalizeKey(j.m.location) in CaseworkGroups
  }

  /** `~casework_mask | (_group_key_norm == mapped_group)`. */
  predicate KeptByCasework(j: Joined) {
    !IsCaseworkRow(j) || NormalizeKey(j.c.groupKey) == CaseworkGroups[NormalizeKey(j.m.location)]
  }

  function KeepCasework(js: seq<Joined>): (r: seq<Joined>)
    ensures forall j :: j in r <==> j in js && KeptByCasework(j)
    decreases |js|
  {
    if |js| == 0 then []
    else
      assert forall j :: j in js <==> j == js[0] || j in js[1..];
      (if KeptByCasework(js[0]) then [js[0]] else []) + KeepCasework(js[1..])
  }

  /** The casework step as written: the filter runs only when some row is masked. */
  function CaseworkSplit(js: seq<Joined>): seq<Joined> {
    if exists i :: 0 <= i < |js| && IsCaseworkRow(js[i]) then KeepCasework(js) else js
  }

  lemma {:induction false} KeepCaseworkNoMask(js: seq<Joined>)
    requires forall i :: 0 <= i < |js| ==> !IsCaseworkRow(js[i])
    ensures KeepCasework(js) == js
    decreases |js|
  {
    if |js| > 0 {
      KeepCaseworkNoMask(js[1..]);
      assert js == [js[0]] + js[1..];
    }
  }

  /** The `any()` guard changes nothing: the step is the plain filter, so a
      total-casework row at a mapped location survives only joined with the
      group of its location, and every other row survives unchanged. */
  lemma CaseworkSplitSpec(js: seq<Joined>)
    ensures CaseworkSplit(js) == KeepCasework(js)
    ensures forall j :: j in CaseworkSplit(js) <==>
      j in js && (IsCaseworkRow(j) ==> NormalizeKey(j.c.groupKey) == CaseworkGroups[NormalizeKey(j.m.location)])
  {
    if !(exists i :: 0 <= i < |js| && IsCaseworkRow(js[i])) {
      KeepCaseworkNoMask(js);
    }
  }

  // ---------------------------------------------------------------------
  // Rows without a catalog match

  datatype SkippedRow = SkippedRow(bu: Cell, product: Cell, date: Option<Date>, reason: string)

  const NotInCatalog := "Not in product catalog master"

  predicate HasMatch(m: MarketingRow, cmap: seq<CatalogEntry>) {
    exists i :: 0 <= i < |cmap| && Matches(m, cmap[i])
  }

  /** The left-anti join: marketing rows matching no catalog row, in order. */
  function Unmatched(mkt: seq<MarketingRow>, cmap: seq<CatalogEntry>): (r: seq<MarketingRow>)
    ensures forall m :: m in r <==> m in mkt && !HasMatch(m, cmap)
    decreases |mkt|
  {
    if |mkt| == 0 then []
    else
      assert forall m :: m in mkt <==> m == mkt[0] || m in mkt[1..];
      (if HasMatch(mkt[0], cmap) then [] else [mkt[0]]) + Unmatched(mkt[1..], cmap)
  }

  function SkippedOf(m: MarketingRow): SkippedRow {
    SkippedRow(m.bu, m.product, m.date, NotInCatalog)
  }

  function SkippedRows(mkt: seq<MarketingRow>, cmap: seq<CatalogEntry>): (r: seq<SkippedRow>)
    ensures |r| == |Unmatched(mkt, cmap)|
    ensures forall i :: 0 <= i < |r| ==> r[i] == SkippedOf(Unmatched(mkt, cmap)[i])
  {
    var u := Unmatched(mkt, cmap);
    seq(|u|, i requires 0 <= i < |u| => SkippedOf(u[i]))
  }

  /** Every marketing row in scope is either joined to the catalog or
      reported as skipped, never both. */
  lemma JoinOrSkipped(mkt: seq<MarketingRow>, cmap: seq<CatalogEntry>, m: MarketingRow)
    requires m in mkt
    ensures (exists c :: Joined(m, c) in InnerJoin(mkt, cmap)) <==> m !in Unmatched(mkt, cmap)
  {
    if HasMatch(m, cmap) {
      var i :| 0 <= i < |cmap| && Matches(m, cmap[i]);
      assert Joined(m, cmap[i]) in InnerJoin(mkt, cmap);
    }
  }

  // ---------------------------------------------------------------------
  // Units and the marketing forecast of a joined row

  /** `salesforce_feature_mode.astype(str).str.lower().str.strip()`. */
  function UnitsOf(c: CatalogEntry): string {
    Trim(Lower(CellText(c.featureMode)))
  }

  /** The quantity forecast for quantity-mode groups, the dollar forecast
      otherwise, a missing or non-numeric one counting as zero. */
  function MarketingFcast(j: Joined): real {
    CoerceOrZero(if UnitsOf(j.c) == "quantity" then j.m.forecastQuantity else j.m.forecastDollars)
  }

  lemma MarketingFcastSpec(j: Joined)
    ensures UnitsOf(j.c) == "quantity" && j.m.forecastQuantity.Some? ==> MarketingFcast(j) == j.m.forecastQuantity.value
    ensures UnitsOf(j.c) != "quantity" && j.m.forecastDollars.Some? ==> MarketingFcast(j) == j.m.forecastDollars.value
    ensures (if UnitsOf(j.c) == "quantity" then j.m.forecastQuantity else j.m.forecastDollars).None? ==> MarketingFcast(j) == 0.0
  {
  }

  /** The feature mode is matched regardless of surrounding white space. */
  lemma UnitsIgnorePadding(c: CatalogEntry, p: string, s: string, q: string)
    requires AllSpace(p) && AllSpace(q)
    requires c.featureMode == Text(p + s + q)
    ensures UnitsOf(c) == Trim(Lower(s))
  {
    LowerSpaces(p);
    LowerSpaces(q);
    assert Lower(p + s + q) == Lower(p) + Lower(s) + Lower(q);
    TrimPadded(Lower(p), Lower(s), Lower(q));
  }

  lemma LowerSpaces(p: string)
    requires AllSpace(p)
    ensures AllSpace(Lower(p))
  {
    forall i | 0 <= i < |p|
      ensures IsSpace(Lower(p)[i])
    {
      assert IsSpace(p[i]);
    }
  }

  // ---------------------------------------------------------------------
  // The marketing rollup

  /** The group-by columns of `agg`. */
  datatype MktGroup = MktGroup(
    groupKey: Cell, buCode: Cell, buName: Cell, productFamily: Cell, manager: Cell, units: string)

  function GroupOf(j: Joined): MktGroup {
    MktGroup(j.c.groupKey, j.c.buCode, j.c.buName, j.c.productFamily, j.c.manager, UnitsOf(j.c))
  }

  datatype MktRollupRow = MktRollupRow(group: MktGroup, fcast: real)

  function RollupFcast(r: MktRollupRow): real {
    r.fcast
  }

  /** `merged.groupby([...], dropna=False).agg(Marketing_Fcast=sum)`. */
  function MarketingRollup(js: seq<Joined>): (r: seq<MktRollupRow>)
    ensures |r| == |Groups(js, GroupOf)|
  {
    var gs := Groups(js, GroupOf);
    seq(|gs|, i requires 0 <= i < |gs| => MktRollupRow(gs[i], GroupTotal(js, GroupOf, gs[i], MarketingFcast)))
  }

  lemma {:induction false} RollupTotal(js: seq<Joined>, gs: seq<MktGroup>, r: seq<MktRollupRow>)
    requires |r| == |gs|
    requires forall i :: 0 <= i < |r| ==> r[i].fcast == GroupTotal(js, GroupOf, gs[i], MarketingFcast)
    ensures Total(r, RollupFcast) == TotalOverGroups(js, GroupOf, gs, MarketingFcast)
    decreases |r|
  {
    if |r| > 0 {
      RollupTotal(js, gs[..|gs| - 1], r[..|r| - 1]);
    }
  }

  /** Row i of the rollup is the i-th distinct group with its summed forecast. */
  lemma MarketingRollupRows(js: seq<Joined>, i: int)
    requires 0 <= i < |MarketingRollup(js)|
    ensures MarketingRollup(js)[i] == MktRollupRow(Groups(js, GroupOf)[i], GroupTotal(js, GroupOf, Groups(js, GroupOf)[i], MarketingFcast))
  {
  }

  /** The rollup has one row per group: no group appears twice... */
  lemma RollupGroupsDistinct(js: seq<Joined>)
    ensures var r := MarketingRollup(js);
      forall a, b :: 0 <= a < b < |r| ==> r[a].group != r[b].group
  {
    var gs := Groups(js, GroupOf);
    var r := MarketingRollup(js);
    forall k | 0 <= k < |r|
      ensures r[k].group == gs[k]
    {
      MarketingRollupRows(js, k);
    }
  }

  /** ...every joined row's group has a row... */
  lemma RollupCoversJoined(js: seq<Joined>)
    ensures var r := MarketingRollup(js);
      forall i :: 0 <= i < |js| ==> exists k :: 0 <= k < |r| && r[k].group == GroupOf(js[i])
  {
    var gs := Groups(js, GroupOf);
    var r := MarketingRollup(js);
    forall i | 0 <= i < |js|
      ensures exists k :: 0 <= k < |r| && r[k].group == GroupOf(js[i])
    {
      var k :| 0 <= k < |gs| && gs[k] == GroupOf(js[i]);
      MarketingRollupRows(js, k);
    }
  }

  /** ...and no row stands for a group without joined rows. */
  lemma RollupGroupsOccur(js: seq<Joined>)
    ensures var r := MarketingRollup(js);
      forall k :: 0 <= k < |r| ==> exists i :: 0 <= i < |js| && GroupOf(js[i]) == r[k].group
  {
    var r := MarketingRollup(js);
    forall k | 0 <= k < |r|
      ensures exists i :: 0 <= i < |js| && GroupOf(js[i]) == r[k].group
    {
      MarketingRollupRows(js, k);
    }
  }

  /** Each rollup row carries the sum of its group's forecasts, and together
      they hold the whole marketing forecast: nothing lost, nothing counted
      twice. */
  lemma MarketingRollupTotals(js: seq<Joined>)
    ensures var r := MarketingRollup(js);
      && (forall k :: 0 <= k < |r| ==> r[k].fcast == GroupTotal(js, GroupOf, r[k].group, MarketingFcast))
      && Total(r, RollupFcast) == Total(js, MarketingFcast)
  {
    var gs := Groups(js, GroupOf);
    var r := MarketingRollup(js);
    assert forall k :: 0 <= k < |r| ==> r[k].group == gs[k];
    RollupTotal(js, gs, r);
    GroupTotalsPartition(js, GroupOf, gs, MarketingFcast);
  }

  // ---------------------------------------------------------------------
  // The actuals rollup

  type Key = (string, string)

  function ActualsKey(a: ActualsRow): Key {
    (NormalizeKey(a.product), NormalizeKey(a.division))
  }

  /** The actuals amount as `groupby().sum()` counts it: a missing one adds nothing. */
  function ActualsAmount(a: ActualsRow): real {
    CoerceOrZero(a.actuals)
  }

  function ActualsOfMonth(rows: seq<ActualsRow>, month: Date): (r: seq<ActualsRow>)
    ensures forall a :: a in r <==> a in rows && InMonth(a.month, month)
    decreases |rows|
  {
    if |rows| == 0 then []
    else
      assert forall a :: a in rows <==> a == rows[0] || a in rows[1..];
      (if InMonth(rows[0].month, month) then [rows[0]] else []) + ActualsOfMonth(rows[1..], month)
  }

  /** actuals_rollup: the month's actuals summed per normalised (Product, Division). */
  function ActualsRollup(rows: seq<ActualsRow>, month: Date): map<Key, real> {
    var ms := ActualsOfMonth(rows, month);
    map k | k in Groups(ms, ActualsKey) :: GroupTotal(ms, ActualsKey, k, ActualsAmount)
  }

  /** A key is in the rollup exactly when some actuals row of the month
      normalises to it, and its value is the sum over those rows. */
  lemma ActualsRollupSpec(rows: seq<ActualsRow>, month: Date, k: Key)
    ensures var ms := ActualsOfMonth(rows, month);
      && (k in ActualsRollup(rows, month) <==> exists a :: a in ms && ActualsKey(a) == k)
      && (k in ActualsRollup(rows, month) ==> ActualsRollup(rows, month)[k] == GroupTotal(ms, ActualsKey, k, ActualsAmount))
  {
    var ms := ActualsOfMonth(rows, month);
    if exists a :: a in ms && ActualsKey(a) == k {
      var a :| a in ms && ActualsKey(a) == k;
      var i :| 0 <= i < |ms| && ms[i] == a;
      assert k in Groups(ms, ActualsKey);
    }
  }

  // ---------------------------------------------------------------------
  // The statistical-model rollup

  function StatsKey(s: StatsRow): Key {
    (NormalizeKey(s.productId), NormalizeKey(s.buId))
  }

  function StatsAmount(s: StatsRow): real {
    CoerceOrZero(s.forecastValue)
  }

  /** `model_type.astype(str).str.upper().str.strip() == "BLEND"`. */
  predicate IsBlend(s: StatsRow) {
    Trim(Upper(CellText(s.modelType))) == "BLEND"
  }

  function StatsOfMonth(rows: seq<StatsRow>, month: Date): (r: seq<StatsRow>)
    ensures forall s :: s in r <==> s in rows && InMonth(s.forecastMonth, month)
    decreases |rows|
  {
    if |rows| == 0 then []
    else
      assert forall s :: s in rows <==> s == rows[0] || s in rows[1..];
      (if InMonth(rows[0].forecastMonth, month) then [rows[0]] else []) + StatsOfMonth(rows[1..], month)
  }

  function BlendRows(rows: seq<StatsRow>): (r: seq<StatsRow>)
    ensures forall s :: s in r <==> s in rows && IsBlend(s)
    decreases |rows|
  {
    if |rows| == 0 then []
    else
      assert forall s :: s in rows <==> s == rows[0] || s in rows[1..];
      (if IsBlend(rows[0]) then [rows[0]] else []) + BlendRows(rows[1..])
  }

  function RecommendedRows(rows: seq<StatsRow>): (r: seq<StatsRow>)
    ensures forall s :: s in r <==> s in rows && s.recommended
    decreases |rows|
  {
    if |rows| == 0 then []
    else
      assert forall s :: s in rows <==> s == rows[0] || s in rows[1..];
      (if rows[0].recommended then [rows[0]] else []) + RecommendedRows(rows[1..])
  }

  function SumByKey(rows: seq<StatsRow>): map<Key, real> {
    map k | k in Groups(rows, StatsKey) :: GroupTotal(rows, StatsKey, k, StatsAmount)
  }

  /** stats_rollup: per key, the BLEND sum when the key has a BLEND row,
      otherwise the sum over the recommended rows. */
  function StatsRollup(rows: seq<StatsRow>, month: Date): map<Key, real> {
    var ms := StatsOfMonth(rows, month);
    var blend := SumByKey(BlendRows(ms));
    var fallback := SumByKey(RecommendedRows(ms));
    map k | k in blend.Keys + fallback.Keys :: if k in blend then blend[k] else fallback[k]
  }

  lemma SumByKeySpec(rows: seq<StatsRow>, k: Key)
    ensures k in SumByKey(rows) <==> exists s :: s in rows && StatsKey(s) == k
    ensures k in SumByKey(rows) ==> SumByKey(rows)[k] == GroupTotal(rows, StatsKey, k, StatsAmount)
  {
    if exists s :: s in rows && StatsKey(s) == k {
      var s :| s in rows && StatsKey(s) == k;
      var i :| 0 <= i < |rows| && rows[i] == s;
      assert k in Groups(rows, StatsKey);
    }
  }

  /** BLEND is preferred: a key with a BLEND row of the month gets the BLEND
      sum even when it also has recommended rows; otherwise a key with a
      recommended row gets their sum; a key with neither is absent. */
  lemma StatsRollupSpec(rows: seq<StatsRow>, month: Date, k: Key)
    ensures var ms := StatsOfMonth(rows, month);
      && ((exists s :: s in rows && InMonth(s.forecastMonth, month) && IsBlend(s) && StatsKey(s) == k) ==>
            k in StatsRollup(rows, month)
            && StatsRollup(rows, month)[k] == GroupTotal(BlendRows(ms), StatsKey, k, StatsAmount))
      && ((!exists s :: s in rows && InMonth(s.forecastMonth, month) && IsBlend(s) && StatsKey(s) == k)
          && (exists s :: s in rows && InMonth(s.forecastMonth, month) && s.recommended && StatsKey(s) == k) ==>
            k in StatsRollup(rows, month)
            && StatsRollup(rows, month)[k] == GroupTotal(RecommendedRows(ms), StatsKey, k, StatsAmount))
      && (k in StatsRollup(rows, month) <==>
            exists s :: s in rows && InMonth(s.forecastMonth, month) && (IsBlend(s) || s.recommended) && StatsKey(s) == k)
  {
    var ms := StatsOfMonth(rows, month);
    SumByKeySpec(BlendRows(ms), k);
    SumByKeySpec(RecommendedRows(ms), k);
  }

  // ---------------------------------------------------------------------
  // The raw rows

  /** A row of the "Raw Data" sheet (the constant empty "sku" column is left out). */
  datatype RawRow = RawRow(
    product: Cell, division: Cell, month: Date, prodFam: Cell, units: string,
    actuals: real, statsFcast: real, mktFcast: real,
    statsAbsError: real, mktAbsError: real,
    buName: Cell, manager: Cell)

  function Abs(x: real): real {
    if x < 0.0 then -x else x
  }

  /** A left join on a rollup, a missing key filled with zero. */
  function LookupOrZero(m: map<Key, real>, k: Key): real {
    if k in m then m[k] else 0.0
  }

  /** The key the rollup row joins actuals and statistics on: its catalog
      group key and BU code, normalised. */
  function RollupKey(g: MktGroup): Key {
    (NormalizeKey(g.groupKey), NormalizeKey(g.buCode))
  }

  function RawRowOf(r: MktRollupRow, actuals: map<Key, real>, stats: map<Key, real>, month: Date): (row: RawRow)
    ensures && row.product == r.group.groupKey && row.division == r.group.buCode && row.buName == r.group.buName
            && row.prodFam == r.group.productFamily && row.manager == r.group.manager && row.units == r.group.units
            && row.month == month && row.mktFcast == r.fcast
    ensures RollupKey(r.group) in actuals ==> row.actuals == actuals[RollupKey(r.group)]
    ensures RollupKey(r.group) !in actuals ==> row.actuals == 0.0
    ensures RollupKey(r.group) in stats ==> row.statsFcast == stats[RollupKey(r.group)]
    ensures RollupKey(r.group) !in stats ==> row.statsFcast == 0.0
    ensures row.statsAbsError >= 0.0 && row.mktAbsError >= 0.0
    ensures row.statsAbsError == 0.0 <==> row.statsFcast == row.actuals
    ensures row.mktAbsError == 0.0 <==> row.mktFcast == row.actuals
    ensures row.actuals >= row.statsFcast ==> row.statsAbsError == row.actuals - row.statsFcast
    ensures row.actuals < row.statsFcast ==> row.statsAbsError == row.statsFcast - row.actuals
    ensures row.actuals >= row.mktFcast ==> row.mktAbsError == row.actuals - row.mktFcast
    ensures row.actuals < row.mktFcast ==> row.mktAbsError == row.mktFcast - row.actuals
  {
    var a := LookupOrZero(actuals, RollupKey(r.group));
    var s := LookupOrZero(stats, RollupKey(r.group));
    RawRow(r.group.groupKey, r.group.buCode, month, r.group.productFamily, r.group.units,
           a, s, r.fcast, Abs(a - s), Abs(a - r.fcast), r.group.buName, r.group.manager)
  }

  /** A row of the marketing detail sheet. */
  datatype DetailRow = DetailRow(
    bu: Cell, product: Cell, date: Option<Date>, groupKey: Cell, buCode: Cell,
    buName: Cell, productFamily: Cell, manager: Cell, units: string, fcast: real)

  function DetailOf(j: Joined): DetailRow {
    DetailRow(j.m.bu, j.m.product, j.m.date, j.c.groupKey, j.c.buCode,
              j.c.buName, j.c.productFamily, j.c.manager, UnitsOf(j.c), MarketingFcast(j))
  }

  datatype RawData = RawData(
    raw: seq<RawRow>, skipped: seq<SkippedRow>, detail: seq<DetailRow>,
    statsRollup: map<Key, real>, actualsRollup: map<Key, real>)

  /** The joined marketing rows of the month that survive the casework split. */
  function JoinedRows(f: Frames, month: Date): seq<Joined> {
    CaseworkSplit(InnerJoin(ScopeMarketing(f.marketing, month), ExpandCatalog(f.catalog)))
  }

  /** build_raw_data. */
  function BuildRawData(f: Frames, month: Date): (d: RawData)
    ensures |d.raw| == |MarketingRollup(JoinedRows(f, month))|
    ensures |d.detail| == |JoinedRows(f, month)|
    ensures d.actualsRollup == ActualsRollup(f.actuals, month)
    ensures d.statsRollup == StatsRollup(f.stats, month)
  {
    var mkt := ScopeMarketing(f.marketing, month);
    var cmap := ExpandCatalog(f.catalog);
    var js := JoinedRows(f, month);
    var agg := MarketingRollup(js);
    var actuals := ActualsRollup(f.actuals, month);
    var stats := StatsRollup(f.stats, month);
    RawData(
      seq(|agg|, i requires 0 <= i < |agg| => RawRowOf(agg[i], actuals, stats, month)),
      SkippedRows(mkt, cmap),
      seq(|js|, i requires 0 <= i < |js| => DetailOf(js[i])),
      stats, actuals)
  }

  /** A raw row of group g with marketing forecast fcast: it carries the
      group's catalog columns, the actuals and statistical forecast of the
      group's key (zero where the key has none), and the absolute gap
      between each forecast and the actuals. */
  predicate RawRowFor(row: RawRow, g: MktGroup, fcast: real, actuals: map<Key, real>, stats: map<Key, real>, month: Date) {
    && row.product == g.groupKey && row.division == g.buCode && row.buName == g.buName
    && row.prodFam == g.productFamily && row.manager == g.manager && row.units == g.units
    && row.month == month && row.mktFcast == fcast
    && (RollupKey(g) in actuals ==> row.actuals == actuals[RollupKey(g)])
    && (RollupKey(g) !in actuals ==> row.actuals == 0.0)
    && (RollupKey(g) in stats ==> row.statsFcast == stats[RollupKey(g)])
    && (RollupKey(g) !in stats ==> row.statsFcast == 0.0)
    && row.statsAbsError >= 0.0 && row.mktAbsError >= 0.0
    && (row.statsAbsError == 0.0 <==> row.statsFcast == row.actuals)
    && (row.mktAbsError == 0.0 <==> row.mktFcast == row.actuals)
    && (row.actuals >= row.statsFcast ==> row.statsAbsError == row.actuals - row.statsFcast)
    && (row.actuals < row.statsFcast ==> row.statsAbsError == row.statsFcast - row.actuals)
    && (row.actuals >= row.mktFcast ==> row.mktAbsError == row.actuals - row.mktFcast)
    && (row.actuals < row.mktFcast ==> row.mktAbsError == row.mktFcast - row.actuals)
  }

  /** Every raw row is one marketing rollup group of the month: it carries
      that group's catalog columns and summed marketing forecast, the
      actuals and statistical forecast of its normalised (group key, BU
      code), zero where that key has none, and the absolute errors of both
      forecasts against those actuals, which are never negative and vanish
      exactly when the forecast equals the actuals. */
  lemma RawRowSpec(f: Frames, month: Date, i: int)
    requires 0 <= i < |BuildRawData(f, month).raw|
    ensures var d := BuildRawData(f, month);
      var js := JoinedRows(f, month);
      var g := MarketingRollup(js)[i].group;
      && (exists j :: j in js && GroupOf(j) == g)
      && RawRowFor(d.raw[i], g, GroupTotal(js, GroupOf, g, MarketingFcast), d.actualsRollup, d.statsRollup, month)
  {
    var d := BuildRawData(f, month);
    var js := JoinedRows(f, month);
    assert d.raw[i] == RawRowOf(MarketingRollup(js)[i], d.actualsRollup, d.statsRollup, month);
    MarketingRollupRows(js, i);
    var g := Groups(js, GroupOf)[i];
    assert exists j :: j in js && GroupOf(j) == g by {
      var k :| 0 <= k < |js| && GroupOf(js[k]) == g;
      assert js[k] in js;
    }
  }

  /** The skipped rows are exactly the in-scope marketing rows without a
      catalog match, each with the fixed reason. */
  lemma SkippedSpec(f: Frames, month: Date)
    ensures var d := BuildRawData(f, month);
      var u := Unmatched(ScopeMarketing(f.marketing, month), ExpandCatalog(f.catalog));
      && |d.skipped| == |u|
      && (forall i :: 0 <= i < |u| ==>
            InScope(u[i], month) && !HasMatch(u[i], ExpandCatalog(f.catalog))
            && d.skipped[i] == SkippedRow(u[i].bu, u[i].product, u[i].date, "Not in product catalog master"))
  {
    var u := Unmatched(ScopeMarketing(f.marketing, month), ExpandCatalog(f.catalog));
    forall i | 0 <= i < |u|
      ensures InScope(u[i], month) && !HasMatch(u[i], ExpandCatalog(f.catalog))
    {
      assert u[i] in u;
    }
  }
}
