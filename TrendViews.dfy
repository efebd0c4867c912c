/** The wide views of the trend report (build_views): the long rows of each
    view level pivoted to one row per group with the stats-model and the
    marketing accuracy side by side, and the product view cut down to the
    top products of the anchor month. */
module TrendViews {
  import opened Wrappers
  import opened Dates
  import opened Tables
  import opened Sums
  import opened Sorting
  import opened ReportDb
  import opened TrendRows

  // ---------------------------------------------------------------------
  // Row filters

  /** `df[mask]`: the rows satisfying p, in order. */
  function Where<T>(s: seq<T>, p: T -> bool): seq<T>
    decreases |s|
  {
    if |s| == 0 then [] else Where(s[..|s| - 1], p) + (if p(s[|s| - 1]) then [s[|s| - 1]] else [])
  }

  lemma {:induction false} WhereMembers<T>(s: seq<T>, p: T -> bool, x: T)
    ensures x in Where(s, p) <==> x in s && p(x)
    decreases |s|
  {
    if |s| > 0 {
      WhereMembers(s[..|s| - 1], p, x);
      assert x in s <==> x in s[..|s| - 1] || x == s[|s| - 1];
    }
  }

  /** `trend_df[trend_df["view_level"] == level]`. */
  function AtLevel(rows: seq<TrendRow>, level: ViewLevel): seq<TrendRow> {
    Where(rows, (r: TrendRow) => r.level == level)
  }

  lemma AtLevelMembers(rows: seq<TrendRow>, level: ViewLevel, x: TrendRow)
    ensures x in AtLevel(rows, level) <==> x in rows && x.level == level
  {
    WhereMembers(rows, (r: TrendRow) => r.level == level, x);
  }

  // ---------------------------------------------------------------------
  // The pivot

  /** A row of a wide view: the group's index columns, stats_model_acc,
      marketing_acc and delta_stats_minus_marketing. */
  datatype WideRow<K> = WideRow(key: K, stats: Option<real>, marketing: Option<real>, delta: Option<real>)

  /** `aggfunc="first"`: the first non-null metric of the group on one side. */
  function FirstMetric<K(==)>(rows: seq<TrendRow>, key: TrendRow -> K, k: K, side: ModelSide): Option<real>
    decreases |rows|
  {
    if |rows| == 0 then None
    else if key(rows[0]) == k && rows[0].side == side && rows[0].metric.Some? then rows[0].metric
    else FirstMetric(rows[1..], key, k, side)
  }

  /** A row that can feed the pivot cell (k, side). */
  predicate Feeds<K(==)>(r: TrendRow, key: TrendRow -> K, k: K, side: ModelSide) {
    key(r) == k && r.side == side && r.metric.Some?
  }

  /** The pivot cell holds the metric of the first feeding row, and is empty
      exactly when no row feeds it. */
  lemma {:induction false} FirstMetricSpec<K>(rows: seq<TrendRow>, key: TrendRow -> K, k: K, side: ModelSide)
    ensures FirstMetric(rows, key, k, side).None? <==> forall i :: 0 <= i < |rows| ==> !Feeds(rows[i], key, k, side)
    ensures FirstMetric(rows, key, k, side).Some? ==>
      exists i :: 0 <= i < |rows| && Feeds(rows[i], key, k, side) && rows[i].metric == FirstMetric(rows, key, k, side)
        && forall j :: 0 <= j < i ==> !Feeds(rows[j], key, k, side)
    decreases |rows|
  {
    if |rows| > 0 && !Feeds(rows[0], key, k, side) {
      var t := rows[1..];
      FirstMetricSpec(t, key, k, side);
      assert forall i :: 1 <= i < |rows| ==> rows[i] == t[i - 1];
      if FirstMetric(t, key, k, side).Some? {
        var i :| 0 <= i < |t| && Feeds(t[i], key, k, side) && t[i].metric == FirstMetric(t, key, k, side)
          && forall j :: 0 <= j < i ==> !Feeds(t[j], key, k, side);
        assert rows[i + 1] == t[i];
        assert forall j :: 1 <= j < i + 1 ==> rows[j] == t[j - 1];
      }
    }
  }

  /** The wide row of group k, if the group has a metric on either side
      (`pivot_table` drops the groups whose cells are all empty). */
  function WideOf<K(==)>(rows: seq<TrendRow>, key: TrendRow -> K, k: K): seq<WideRow<K>> {
    var s := FirstMetric(rows, key, k, StatsModelSide);
    var m := FirstMetric(rows, key, k, MarketingModelSide);
    if s.None? && m.None? then [] else [WideRow(k, s, m, Delta(s, m))]
  }

  function PivotOver<K(==)>(rows: seq<TrendRow>, key: TrendRow -> K, ks: seq<K>): seq<WideRow<K>>
    decreases |ks|
  {
    if |ks| == 0 then [] else PivotOver(rows, key, ks[..|ks| - 1]) + WideOf(rows, key, ks[|ks| - 1])
  }

  /** `pivot_table(index=..., columns="model_side", values="metric_value",
      aggfunc="first")` followed by the delta column. */
  function Pivot<K(==)>(rows: seq<TrendRow>, key: TrendRow -> K): seq<WideRow<K>> {
    PivotOver(rows, key, Groups(rows, key))
  }

  /** What a wide row holds: the first metric of each side of its group,
      never both empty, and their difference when both are present. */
  predicate WideRowOf<K(==)>(w: WideRow<K>, rows: seq<TrendRow>, key: TrendRow -> K) {
    && w.stats == FirstMetric(rows, key, w.key, StatsModelSide)
    && w.marketing == FirstMetric(rows, key, w.key, MarketingModelSide)
    && w.delta == Delta(w.stats, w.marketing)
    && !(w.stats.None? && w.marketing.None?)
  }

  lemma {:induction false} PivotOverMembers<K>(rows: seq<TrendRow>, key: TrendRow -> K, ks: seq<K>, w: WideRow<K>)
    ensures w in PivotOver(rows, key, ks) <==> w.key in ks && WideRowOf(w, rows, key)
    decreases |ks|
  {
    if |ks| > 0 {
      PivotOverMembers(rows, key, ks[..|ks| - 1], w);
      assert w.key in ks <==> w.key in ks[..|ks| - 1] || w.key == ks[|ks| - 1];
    }
  }

  function WideKeys<K>(p: seq<WideRow<K>>): seq<K>
    ensures |WideKeys(p)| == |p|
    decreases |p|
  {
    if |p| == 0 then [] else WideKeys(p[..|p| - 1]) + [p[|p| - 1].key]
  }

  lemma {:induction false} WideKeysIndex<K>(p: seq<WideRow<K>>, i: int)
    requires 0 <= i < |p|
    ensures WideKeys(p)[i] == p[i].key
    decreases |p|
  {
    if i < |p| - 1 {
      WideKeysIndex(p[..|p| - 1], i);
    }
  }

  lemma {:induction false} PivotOverKeys<K>(rows: seq<TrendRow>, key: TrendRow -> K, ks: seq<K>)
    requires NoDup(ks)
    ensures NoDup(WideKeys(PivotOver(rows, key, ks)))
    ensures forall w :: w in PivotOver(rows, key, ks) ==> w.key in ks
    decreases |ks|
  {
    if |ks| > 0 {
      var init := ks[..|ks| - 1];
      var k := ks[|ks| - 1];
      var p := PivotOver(rows, key, init);
      PivotOverKeys(rows, key, init);
      assert forall w :: w in p ==> w.key != k;
      var q := p + WideOf(rows, key, k);
      forall i | 0 <= i < |q|
        ensures WideKeys(q)[i] == q[i].key
      {
        WideKeysIndex(q, i);
      }
      forall i | 0 <= i < |p|
        ensures WideKeys(p)[i] == p[i].key
      {
        WideKeysIndex(p, i);
      }
      assert forall i :: 0 <= i < |p| ==> q[i] == p[i];
    }
  }

  /** A pivot has one row per group that has a metric on some side, no two
      rows for one group, and every row pairs the sides' first metrics with
      their difference. */
  lemma PivotSpec<K>(rows: seq<TrendRow>, key: TrendRow -> K)
    ensures NoDup(WideKeys(Pivot(rows, key)))
    ensures forall w :: w in Pivot(rows, key) ==> WideRowOf(w, rows, key)
    ensures forall i :: 0 <= i < |rows| && rows[i].metric.Some? ==>
      exists w :: w in Pivot(rows, key) && w.key == key(rows[i])
  {
    var ks := Groups(rows, key);
    PivotOverKeys(rows, key, ks);
    forall w | w in Pivot(rows, key)
      ensures WideRowOf(w, rows, key)
    {
      PivotOverMembers(rows, key, ks, w);
    }
    forall i | 0 <= i < |rows| && rows[i].metric.Some?
      ensures exists w :: w in Pivot(rows, key) && w.key == key(rows[i])
    {
      var k := key(rows[i]);
      assert Feeds(rows[i], key, k, rows[i].side);
      FirstMetricSpec(rows, key, k, StatsModelSide);
      FirstMetricSpec(rows, key, k, MarketingModelSide);
      var s := FirstMetric(rows, key, k, StatsModelSide);
      var m := FirstMetric(rows, key, k, MarketingModelSide);
      var w := WideRow(k, s, m, Delta(s, m));
      PivotOverMembers(rows, key, ks, w);
    }
  }

  /** delta_stats_minus_marketing is stats_model minus marketing, and empty
      when either side is. */
  lemma DeltaSpec<K>(w: WideRow<K>, rows: seq<TrendRow>, key: TrendRow -> K)
    requires WideRowOf(w, rows, key)
    ensures w.delta.Some? <==> w.stats.Some? && w.marketing.Some?
    ensures w.delta.Some? ==> w.delta.value == w.stats.value - w.marketing.value
  {
  }

  // ---------------------------------------------------------------------
  // The index columns of the views

  function TotalsKey(r: TrendRow): (Date, string) {
    (r.month, r.units)
  }

  function BuWideKey(r: TrendRow): (Date, string, string, string) {
    (r.month, r.units, r.labels.buCode, r.labels.buName)
  }

  function FamWideKey(r: TrendRow): (Date, string, string, string, string) {
    (r.month, r.units, r.labels.buCode, r.labels.buName, r.labels.prodFam)
  }

  type ProductIndex = (Date, string, string, string, string, string, string, real)

  function ProductWideKey(r: TrendRow): ProductIndex {
    (r.month, r.units, r.labels.buCode, r.labels.buName, r.labels.prodFam, r.labels.product, r.labels.manager, r.actualsSum)
  }

  // ---------------------------------------------------------------------
  // The top products of the anchor month

  /** A row of `latest[["units", "product", "actuals_sum"]]`. */
  datatype RankEntry = RankEntry(units: string, product: string, actuals: real)

  function EntriesOf(rows: seq<TrendRow>): (r: seq<RankEntry>)
    ensures |r| == |rows|
    ensures forall i :: 0 <= i < |rows| ==> r[i] == RankEntry(rows[i].units, rows[i].labels.product, rows[i].actualsSum)
    decreases |rows|
  {
    if |rows| == 0 then []
    else EntriesOf(rows[..|rows| - 1]) + [RankEntry(rows[|rows| - 1].units, rows[|rows| - 1].labels.product, rows[|rows| - 1].actualsSum)]
  }

  /** `sort_values(["units", "actuals_sum", "product"], ascending=[True, False, True])`. */
  function RankKey(e: RankEntry): seq<Atom> {
    [Str(e.units), Num(-e.actuals), Str(e.product)]
  }

  /** The product rows of the anchor month. */
  function Latest(rows: seq<TrendRow>, anchor: Date): seq<TrendRow> {
    Where(AtLevel(rows, ProductView), (r: TrendRow) => r.month == anchor)
  }

  /** latest_rank: the distinct entries of the anchor month, sorted. */
  function LatestRank(rows: seq<TrendRow>, anchor: Date): seq<RankEntry> {
    SortBy(Distinct(EntriesOf(Latest(rows, anchor))), RankKey)
  }

  /** The entries of s in units u. */
  function UnitCount(s: seq<RankEntry>, u: string): nat
    decreases |s|
  {
    if |s| == 0 then 0 else UnitCount(s[..|s| - 1], u) + (if s[|s| - 1].units == u then 1 else 0)
  }

  /** `groupby("units").cumcount() + 1`. */
  function Rank(s: seq<RankEntry>, i: int): nat
    requires 0 <= i < |s|
  {
    1 + UnitCount(s[..i], s[i].units)
  }

  /** top_keys: (units, product) of the entries ranked within the first n. */
  function TopOf(s: seq<RankEntry>, n: int): seq<(string, string)>
    decreases |s|
  {
    if |s| == 0 then []
    else TopOf(s[..|s| - 1], n) + (if Rank(s, |s| - 1) <= n then [(s[|s| - 1].units, s[|s| - 1].product)] else [])
  }

  function TopKeys(rows: seq<TrendRow>, anchor: Date, n: int): seq<(string, string)> {
    TopOf(LatestRank(rows, anchor), n)
  }

  /** product_top: the product rows of every month whose (units, product)
      is a top key (the inner merge; the rows it repeats for a key listed
      twice collapse again in the pivot). */
  function ProductTop(rows: seq<TrendRow>, anchor: Date, n: int): seq<TrendRow> {
    var keys := TopKeys(rows, anchor, n);
    Where(AtLevel(rows, ProductView), (r: TrendRow) => (r.units, r.labels.product) in keys)
  }

  /** The four views build_views returns. */
  datatype Views = Views(
    totals: seq<WideRow<(Date, string)>>,
    bu: seq<WideRow<(Date, string, string, string)>>,
    prodFam: seq<WideRow<(Date, string, string, string, string)>>,
    productTop: seq<WideRow<ProductIndex>>)

  function BuildViews(rows: seq<TrendRow>, anchor: Date, n: int): Views {
    Views(
      Pivot(AtLevel(rows, TotalView), TotalsKey),
      Pivot(AtLevel(rows, BuView), BuWideKey),
      Pivot(AtLevel(rows, ProdFamView), FamWideKey),
      Pivot(ProductTop(rows, anchor, n), ProductWideKey))
  }

  /** The cell of one side in a wide row. */
  function SideCell<K>(w: WideRow<K>, side: ModelSide): Option<real> {
    if side == StatsModelSide then w.stats else w.marketing
  }

  /** `pivot_table` drops the column of a side whose cells are all empty
      (dropna), and the delta column then reads a column that is not there:
      a view can be finished only when each side has a value somewhere. */
  predicate HasColumn<K>(view: seq<WideRow<K>>, side: ModelSide) {
    exists i :: 0 <= i < |view| && SideCell(view[i], side).Some?
  }

  predicate HasBothColumns<K>(view: seq<WideRow<K>>) {
    HasColumn(view, StatsModelSide) && HasColumn(view, MarketingModelSide)
  }

  /** build_views gets past all four delta columns. */
  predicate ViewsComplete(v: Views) {
    HasBothColumns(v.totals) && HasBothColumns(v.bu) && HasBothColumns(v.prodFam) && HasBothColumns(v.productTop)
  }

  /** A pivot has the column of a side exactly when some long row of that
      side carries a metric; in particular an empty input has no column. */
  lemma PivotColumn<K>(rows: seq<TrendRow>, key: TrendRow -> K, side: ModelSide)
    ensures HasColumn(Pivot(rows, key), side) <==> exists j :: 0 <= j < |rows| && rows[j].side == side && rows[j].metric.Some?
  {
    var p := Pivot(rows, key);
    var ks := Groups(rows, key);
    if j :| 0 <= j < |rows| && rows[j].side == side && rows[j].metric.Some? {
      var k := key(rows[j]);
      assert Feeds(rows[j], key, k, side);
      FirstMetricSpec(rows, key, k, side);
      var w := WideOf(rows, key, k)[0];
      assert WideRowOf(w, rows, key);
      PivotOverMembers(rows, key, ks, w);
      var i :| 0 <= i < |p| && p[i] == w;
      assert SideCell(p[i], side).Some?;
    }
    if i :| 0 <= i < |p| && SideCell(p[i], side).Some? {
      var w := p[i];
      PivotOverMembers(rows, key, ks, w);
      FirstMetricSpec(rows, key, w.key, side);
    }
  }

  // ---------------------------------------------------------------------
  // What the top-N selection means

  /** The same key set filters every month: a product row is kept exactly
      when its (units, product) is a top key, whatever its month. */
  lemma ProductTopMembers(rows: seq<TrendRow>, anchor: Date, n: int, x: TrendRow)
    ensures x in ProductTop(rows, anchor, n) <==>
      x in rows && x.level == ProductView && (x.units, x.labels.product) in TopKeys(rows, anchor, n)
  {
    var keys := TopKeys(rows, anchor, n);
    WhereMembers(AtLevel(rows, ProductView), (r: TrendRow) => (r.units, r.labels.product) in keys, x);
    AtLevelMembers(rows, ProductView, x);
  }

  lemma {:induction false} TopOfMembers(s: seq<RankEntry>, n: int, k: (string, string))
    ensures k in TopOf(s, n) ==> exists i :: 0 <= i < |s| && (s[i].units, s[i].product) == k && Rank(s, i) <= n
    decreases |s|
  {
    if |s| > 0 {
      var init := s[..|s| - 1];
      TopOfMembers(init, n, k);
      if k in TopOf(init, n) {
        var i :| 0 <= i < |init| && (init[i].units, init[i].product) == k && Rank(init, i) <= n;
        assert init[..i] == s[..i] && init[i] == s[i];
      }
    }
  }

  lemma LatestEntryFrom(rows: seq<TrendRow>, anchor: Date, e: RankEntry)
    requires e in Distinct(EntriesOf(Latest(rows, anchor)))
    ensures exists r :: r in rows && r.level == ProductView && r.month == anchor && RankEntry(r.units, r.labels.product, r.actualsSum) == e
  {
    var latest := Latest(rows, anchor);
    var j :| 0 <= j < |latest| && EntriesOf(latest)[j] == e;
    var r := latest[j];
    WhereMembers(AtLevel(rows, ProductView), (r: TrendRow) => r.month == anchor, r);
    AtLevelMembers(rows, ProductView, r);
  }

  /** Every top key is a product of the anchor month. */
  lemma TopKeysFromAnchor(rows: seq<TrendRow>, anchor: Date, n: int, k: (string, string))
    requires k in TopKeys(rows, anchor, n)
    ensures exists r :: r in rows && r.level == ProductView && r.month == anchor && (r.units, r.labels.product) == k
  {
    var d := Distinct(EntriesOf(Latest(rows, anchor)));
    var s := LatestRank(rows, anchor);
    TopOfMembers(s, n, k);
    var i :| 0 <= i < |s| && (s[i].units, s[i].product) == k && Rank(s, i) <= n;
    SortByPermutes(d, RankKey);
    assert s[i] in multiset(d);
    LatestEntryFrom(rows, anchor, s[i]);
  }

  /** With a top-N size of zero or less, or without product rows in the
      anchor month, no product is a top key, product_top is empty, and its
      view has neither column: build_views cannot finish. */
  lemma NoTopKeysNoView(rows: seq<TrendRow>, anchor: Date, n: int)
    requires n <= 0 || forall r :: r in rows && r.level == ProductView ==> r.month != anchor
    ensures |ProductTop(rows, anchor, n)| == 0
    ensures !HasColumn(BuildViews(rows, anchor, n).productTop, StatsModelSide)
    ensures !HasColumn(BuildViews(rows, anchor, n).productTop, MarketingModelSide)
    ensures !ViewsComplete(BuildViews(rows, anchor, n))
  {
    var top := ProductTop(rows, anchor, n);
    if |top| > 0 {
      var x := top[0];
      ProductTopMembers(rows, anchor, n, x);
      var k := (x.units, x.labels.product);
      if n <= 0 {
        TopOfMembers(LatestRank(rows, anchor), n, k);
      } else {
        TopKeysFromAnchor(rows, anchor, n, k);
      }
      assert false;
    }
    PivotColumn(top, ProductWideKey, StatsModelSide);
    PivotColumn(top, ProductWideKey, MarketingModelSide);
  }

  function KeyUnitCount(t: seq<(string, string)>, u: string): nat
    decreases |t|
  {
    if |t| == 0 then 0 else KeyUnitCount(t[..|t| - 1], u) + (if t[|t| - 1].0 == u then 1 else 0)
  }

  function Min(a: int, b: int): int {
    if a <= b then a else b
  }

  /** At most n keys per unit: exactly the first n entries of that unit
      are kept, or all of them when there are fewer. */
  lemma {:induction false} TopOfCount(s: seq<RankEntry>, n: int, u: string)
    ensures KeyUnitCount(TopOf(s, n), u) == (if n <= 0 then 0 else Min(n, UnitCount(s, u)))
    decreases |s|
  {
    if |s| > 0 {
      var init := s[..|s| - 1];
      TopOfCount(init, n, u);
      assert s[..|s| - 1] == init;
      var t := TopOf(s, n);
      if Rank(s, |s| - 1) <= n {
        assert t[..|t| - 1] == TopOf(init, n);
      } else {
        assert t == TopOf(init, n);
      }
    }
  }

  /** The products the keys of one unit name. */
  function KeyProducts(t: seq<(string, string)>, u: string): set<string>
    decreases |t|
  {
    if |t| == 0 then {} else KeyProducts(t[..|t| - 1], u) + (if t[|t| - 1].0 == u then {t[|t| - 1].1} else {})
  }

  lemma {:induction false} KeyProductsSpec(t: seq<(string, string)>, u: string)
    ensures |KeyProducts(t, u)| <= KeyUnitCount(t, u)
    ensures forall p :: p in KeyProducts(t, u) <==> (u, p) in t
    decreases |t|
  {
    if |t| > 0 {
      var init := t[..|t| - 1];
      KeyProductsSpec(init, u);
      assert forall k :: k in t <==> k in init || k == t[|t| - 1];
    }
  }

  lemma {:induction false} SubsetCard<T>(a: set<T>, b: set<T>)
    requires a <= b
    ensures |a| <= |b|
    decreases |b|
  {
    if a != {} {
      var x :| x in a;
      SubsetCard(a - {x}, b - {x});
    }
  }

  /** The products of one unit in a wide product view. */
  function TopProducts(wide: seq<WideRow<ProductIndex>>, u: string): set<string> {
    set w | w in wide && w.key.1 == u :: w.key.5
  }

  /** topn_rank_integrity holds for the product view of build_views: in
      every unit it lists at most n distinct products. */
  lemma TopNWithinLimit(rows: seq<TrendRow>, anchor: Date, n: int, u: string)
    ensures |TopProducts(BuildViews(rows, anchor, n).productTop, u)| <= (if n <= 0 then 0 else n)
  {
    var top := ProductTop(rows, anchor, n);
    var keys := TopKeys(rows, anchor, n);
    var wide := Pivot(top, ProductWideKey);
    forall p | p in TopProducts(wide, u)
      ensures p in KeyProducts(keys, u)
    {
      var w :| w in wide && w.key.1 == u && w.key.5 == p;
      PivotOverMembers(top, ProductWideKey, Groups(top, ProductWideKey), w);
      var i :| 0 <= i < |top| && ProductWideKey(top[i]) == w.key;
      ProductTopMembers(rows, anchor, n, top[i]);
      KeyProductsSpec(keys, u);
    }
    KeyProductsSpec(keys, u);
    SubsetCard(TopProducts(wide, u), KeyProducts(keys, u));
    TopOfCount(LatestRank(rows, anchor), n, u);
  }

  lemma {:induction false} UnitCountPrefix(s: seq<RankEntry>, i: int, j: int, u: string)
    requires 0 <= i < j <= |s| && s[i].units == u
    ensures UnitCount(s[..i], u) < UnitCount(s[..j], u)
    decreases j
  {
    assert s[..j][..j - 1] == s[..j - 1];
    if i < j - 1 {
      UnitCountPrefix(s, i, j - 1, u);
    } else {
      assert s[..j - 1] == s[..i];
    }
  }

  /** Within a unit, the ranks grow along the sorted list. */
  lemma RankGrows(s: seq<RankEntry>, i: int, j: int)
    requires 0 <= i < j < |s| && s[i].units == s[j].units
    ensures Rank(s, i) < Rank(s, j)
  {
    UnitCountPrefix(s, i, j, s[i].units);
  }

  /** In a list sorted by RankKey, entries of one unit come in descending
      order of actuals. */
  lemma SortedActualsDescend(s: seq<RankEntry>, i: int, j: int)
    requires SortedBy(s, RankKey)
    requires 0 <= i < j < |s| && s[i].units == s[j].units
    ensures s[i].actuals >= s[j].actuals
  {
    var a, b := RankKey(s[i]), RankKey(s[j]);
    assert KeyLe(a, b);
    assert a[0] == b[0];
    assert a[1..] == [Num(-s[i].actuals), Str(s[i].product)];
    assert b[1..] == [Num(-s[j].actuals), Str(s[j].product)];
    assert KeyLe(a[1..], b[1..]);
    if a[1] != b[1] {
      assert AtomLe(a[1], b[1]);
    }
  }

  /** A kept entry sold at least as much as any dropped entry of its unit
      in the anchor month. */
  lemma TopSellsMost(rows: seq<TrendRow>, anchor: Date, n: int, i: int, j: int)
    requires var s := LatestRank(rows, anchor);
      0 <= i < |s| && 0 <= j < |s| && s[i].units == s[j].units && Rank(s, i) <= n < Rank(s, j)
    ensures LatestRank(rows, anchor)[i].actuals >= LatestRank(rows, anchor)[j].actuals
  {
    SortBySorted(Distinct(EntriesOf(Latest(rows, anchor))), RankKey);
    RankedSellsMost(LatestRank(rows, anchor), n, i, j);
  }

  /** In a list sorted by RankKey, an entry ranked within the first n has
      actuals at least those of any entry of its unit ranked after n. */
  lemma RankedSellsMost(s: seq<RankEntry>, n: int, i: int, j: int)
    requires SortedBy(s, RankKey)
    requires 0 <= i < |s| && 0 <= j < |s| && s[i].units == s[j].units && Rank(s, i) <= n < Rank(s, j)
    ensures s[i].actuals >= s[j].actuals
  {
    if j < i {
      RankGrows(s, j, i);
    } else {
      SortedActualsDescend(s, i, j);
    }
  }
}
