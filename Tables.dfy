/** The four source tables as sequences of rows, the cell values they hold,
    and the key normalisation used by every join. */
module Tables {
  import opened Wrappers
  import opened Text
  import opened Dates

  /** A text cell of a source table; Null is pandas' NaN / None. */
  datatype Cell = Null | Text(s: string)

  /** `astype(str)`: a missing value prints as "nan". */
  function CellText(c: Cell): string {
    match c
    case Null => "nan"
    case Text(s) => s
  }

  /** `pd.isna(c) or str(c).strip() == ""`. */
  predicate IsBlank(c: Cell) {
    c.Null? || Trim(c.s) == ""
  }

  /** normalize_key: `astype(str).str.strip().str.upper()`. */
  function NormalizeKey(c: Cell): string {
    Upper(Trim(CellText(c)))
  }

  /** `pd.to_numeric(..., errors="coerce").fillna(0)`: a missing or
      non-numeric value counts as zero. */
  function CoerceOrZero(v: Option<real>): real {
    v.GetOr(0.0)
  }

  /** The texts pandas' `read_excel` reads as a missing value by default
      (its `na_values` list, pandas 2). */
  const NaTokens: set<string> :=
    {"", "#N/A", "#N/A N/A", "#NA", "-1.#IND", "-1.#QNAN", "-NaN", "-nan",
     "1.#IND", "1.#QNAN", "<NA>", "N/A", "NA", "NULL", "NaN", "None",
     "n/a", "nan", "null"}

  /** A cell that reads back as itself. */
  predicate NaFree(c: Cell) {
    c.Null? || c.s !in NaTokens
  }

  /** A cell written to a workbook and read back with `read_excel`: a text
      that is one of the NA tokens comes back missing. */
  function ReadBack(c: Cell): Cell {
    if c.Text? && c.s in NaTokens then Null else c
  }

  /** A cell read back is missing exactly when it was missing or an NA
      token; every other cell comes back as it was, reading back again
      changes nothing, and a cell that changed has the key "NAN". */
  lemma ReadBackSpec(c: Cell)
    ensures ReadBack(c).Null? <==> c.Null? || c.s in NaTokens
    ensures NaFree(c) <==> ReadBack(c) == c
    ensures NaFree(ReadBack(c)) && ReadBack(ReadBack(c)) == ReadBack(c)
    ensures ReadBack(c) != c ==> NormalizeKey(ReadBack(c)) == "NAN"
  {
    NormalizeNull();
  }

  /** The read-back changes keys: an empty text, which keys as the empty
      string, and "N/A" come back with the key "NAN" of a missing cell. */
  lemma ReadBackChangesKeys()
    ensures NormalizeKey(Text("")) == "" && NormalizeKey(ReadBack(Text(""))) == "NAN"
    ensures NormalizeKey(Text("N/A")) == "N/A" && NormalizeKey(ReadBack(Text("N/A"))) == "NAN"
  {
    NormalizeNull();
    assert "" in NaTokens && "N/A" in NaTokens;
    assert TrimLeft("N/A") == "N/A";
    assert TrimRight("N/A") == "N/A";
  }

  /** A row of the marketing forecast ("Tableau Data Pull" or "2026 Data"). */
  datatype MarketingRow = MarketingRow(
    bu: Cell, location: Cell, geography: Cell, product: Cell,
    date: Option<Date>, forecastDollars: Option<real>, forecastQuantity: Option<real>)

  /** A row of the product catalog master. */
  datatype CatalogEntry = CatalogEntry(
    groupKey: Cell, buCode: Cell, buName: Cell, skuList: Cell,
    productFamily: Cell, manager: Cell, featureMode: Cell)

  /** A row of the statistical-model forecast library. */
  datatype StatsRow = StatsRow(
    productId: Cell, buId: Cell, forecastMonth: Option<Date>, modelType: Cell,
    forecastValue: Option<real>, recommended: bool, runId: Cell)

  /** A row of the actuals and bookings table. */
  datatype ActualsRow = ActualsRow(
    product: Cell, division: Cell, month: Option<Date>,
    actuals: Option<real>, bookings: Option<real>)

  /** The four tables the pipeline starts from. */
  datatype Frames = Frames(
    marketing: seq<MarketingRow>, catalog: seq<CatalogEntry>,
    stats: seq<StatsRow>, actuals: seq<ActualsRow>)

  /** `dt.to_period("M") == month.to_period("M")`; a missing date never matches. */
  predicate InMonth(d: Option<Date>, month: Date) {
    d.Some? && SameMonth(d.value, month)
  }

  predicate NoDup<T(==)>(s: seq<T>) {
    forall i, j :: 0 <= i < j < |s| ==> s[i] != s[j]
  }

  /** The distinct values of s in order of first appearance (the groups of a
      group-by; pandas lists them sorted, which no consumer here relies on). */
  function Distinct<T(==)>(s: seq<T>): (r: seq<T>)
    ensures forall i :: 0 <= i < |r| ==> r[i] in s
    ensures forall i :: 0 <= i < |s| ==> s[i] in r
    ensures NoDup(r)
    ensures |r| <= |s|
    decreases |s|
  {
    if |s| == 0 then []
    else
      var d := Distinct(s[..|s| - 1]);
      assert forall i :: 0 <= i < |s| - 1 ==> s[i] == s[..|s| - 1][i];
      if s[|s| - 1] in d then d else d + [s[|s| - 1]]
  }

  // ---------------------------------------------------------------------
  // Properties of normalize_key

  /** A null key becomes the literal "NAN". */
  lemma NormalizeNull()
    ensures NormalizeKey(Null) == "NAN"
  {
    assert TrimLeft("nan") == "nan";
    assert TrimRight("nan") == "nan";
  }

  /** Null keys join with each other and with the text "nan" in any case
      and padding: they all normalise to one key. */
  lemma NullKeysCollide(s: string)
    requires Upper(Trim(s)) == "NAN"
    ensures NormalizeKey(Text(s)) == NormalizeKey(Null)
  {
    NormalizeNull();
  }

  /** A normalised key is stripped and upper-case. */
  lemma NormalizedShape(c: Cell)
    ensures Stripped(NormalizeKey(c))
    ensures Upper(NormalizeKey(c)) == NormalizeKey(c)
  {
    var t := Trim(CellText(c));
    TrimIsStripped(CellText(c));
    TrimUpperCommute(t);
    TrimOfStripped(t);
    TrimIsStripped(Upper(t));
    UpperIdempotent(t);
  }

  /** normalize_key is idempotent. */
  lemma NormalizeIdempotent(c: Cell)
    ensures NormalizeKey(Text(NormalizeKey(c))) == NormalizeKey(c)
  {
    var n := NormalizeKey(c);
    NormalizedShape(c);
    TrimOfStripped(n);
  }

  /** Keys that differ only in ASCII case normalise to the same key. */
  lemma NormalizeIgnoresCase(s: string, t: string)
    requires Upper(s) == Upper(t)
    ensures NormalizeKey(Text(s)) == NormalizeKey(Text(t))
  {
    TrimUpperCommute(s);
    TrimUpperCommute(t);
  }

  /** Keys that differ only in surrounding white space normalise to the same key. */
  lemma NormalizeIgnoresPadding(p: string, s: string, q: string)
    requires AllSpace(p) && AllSpace(q)
    ensures NormalizeKey(Text(p + s + q)) == NormalizeKey(Text(s))
  {
    TrimPadded(p, s, q);
  }

  /** f(u) for every u of us, concatenated in order. */
  function Concat<U, R>(us: seq<U>, f: U -> seq<R>): seq<R>
    decreases |us|
  {
    if |us| == 0 then [] else Concat(us[..|us| - 1], f) + f(us[|us| - 1])
  }

  /** Extending the list of parts by its next element appends that part. */
  lemma ConcatSnoc<U, R>(us: seq<U>, i: int, f: U -> seq<R>)
    requires 0 <= i < |us|
    ensures Concat(us[..i + 1], f) == Concat(us[..i], f) + f(us[i])
  {
    assert us[..i + 1][..i] == us[..i];
  }

  /** An element of a concatenation comes from one of its parts. */
  lemma {:induction false} ConcatMembers<U, R>(us: seq<U>, f: U -> seq<R>, d: R)
    ensures d in Concat(us, f) <==> exists u :: u in us && d in f(u)
    decreases |us|
  {
    if |us| > 0 {
      ConcatMembers(us[..|us| - 1], f, d);
      assert forall u :: u in us <==> u in us[..|us| - 1] || u == us[|us| - 1];
    }
  }
}
