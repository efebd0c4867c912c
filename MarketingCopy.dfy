/** The "2026 Data" sheet of the marketing forecast copy: reading it from a
    header-less sheet (parse_marketing_copy_2026) and the month-coverage
    validation that follows (validate_marketing_copy_2026). */
module MarketingCopy {
  import opened Wrappers
  import opened Text
  import opened Dates
  import opened Tables
  import opened Sorting

  /** A sheet read with `header=None`: `width` columns, rows top to bottom;
      a row shorter than the sheet is padded with missing cells. A cell
      holds the text it prints as. */
  datatype Sheet = Sheet(width: nat, rows: seq<seq<Cell>>)

  function At(row: seq<Cell>, j: nat): Cell {
    if j < |row| then row[j] else Null
  }

  /** `pd.to_numeric(..., errors="coerce")` on one cell: a missing cell is
      NaN, a text cell is parsed by `num` (None when it is not a number). */
  function Numeric(c: Cell, num: string -> Option<real>): Option<real> {
    if c.Null? then None else num(c.s)
  }

  /** `raw.iloc[i:]`, where a negative i counts from the end as in Python. */
  function RowsFrom<T>(s: seq<T>, i: int): (r: seq<T>)
    ensures |r| <= |s|
    ensures forall k :: 0 <= k < |r| ==> r[k] == s[|s| - |r| + k]
    ensures 0 <= i <= |s| ==> |r| == |s| - i
    ensures i < 0 ==> |r| == (if -i < |s| then -i else |s|)
  {
    if i >= |s| then []
    else if i >= 0 then s[i..]
    else if |s| + i >= 0 then s[|s| + i..]
    else s
  }

  // ---------------------------------------------------------------------
  // Month abbreviations and the fiscal-year token

  const MonthAbbrevs: seq<string> :=
    ["JAN", "FEB", "MAR", "APR", "MAY", "JUN", "JUL", "AUG", "SEP", "OCT", "NOV", "DEC"]

  /** month_map: the month number of an (upper-cased) period label. */
  function MonthOf(p: string): (r: Option<MonthNum>)
    ensures r.Some? <==> p in MonthAbbrevs
    ensures r.Some? ==> MonthAbbrevs[r.value - 1] == p
  {
    if p == "JAN" then Some(1) else if p == "FEB" then Some(2)
    else if p == "MAR" then Some(3) else if p == "APR" then Some(4)
    else if p == "MAY" then Some(5) else if p == "JUN" then Some(6)
    else if p == "JUL" then Some(7) else if p == "AUG" then Some(8)
    else if p == "SEP" then Some(9) else if p == "OCT" then Some(10)
    else if p == "NOV" then Some(11) else if p == "DEC" then Some(12)
    else None
  }

  predicate IsDigit(c: char) {
    '0' <= c <= '9'
  }

  /** The pattern `FY(\d{2})` matches at position i. */
  predicate FyAt(s: string, i: int) {
    0 <= i && i + 4 <= |s| && s[i] == 'F' && s[i + 1] == 'Y' && IsDigit(s[i + 2]) && IsDigit(s[i + 3])
  }

  function FyDigits(s: string, i: int): (n: nat)
    requires FyAt(s, i)
    ensures n < 100
  {
    10 * ((s[i + 2] as int) - ('0' as int)) + ((s[i + 3] as int) - ('0' as int))
  }

  /** `str.extract(r"FY(\d{2})")`: the leftmost match at or after `from`. */
  function FindFy(s: string, from: nat): (r: Option<nat>)
    ensures r.Some? ==> from <= r.value && FyAt(s, r.value)
    ensures r.Some? ==> forall j :: from <= j < r.value ==> !FyAt(s, j)
    ensures r.None? ==> forall j :: from <= j ==> !FyAt(s, j)
    decreases |s| - from
  {
    if from + 4 > |s| then None
    else if FyAt(s, from) then Some(from)
    else FindFy(s, from + 1)
  }

  /** The year of every row: 2000 plus the two digits after the first "FY"
      of the upper-cased fiscal_year text, or 2026 when there is none. */
  function FiscalYear(fy: string): (y: int)
    ensures 2000 <= y <= 2099
  {
    var s := Upper(fy);
    match FindFy(s, 0)
    case None => 2026
    case Some(i) => 2000 + FyDigits(s, i)
  }

  /** The leftmost match decides, and a four-digit year is read from its
      first two digits: "FY2026" gives 2020. */
  lemma FiscalYearExamples()
    ensures FiscalYear("FY26") == 2026
    ensures FiscalYear("fy27 plan") == 2027
    ensures FiscalYear("2026") == 2026
    ensures FiscalYear("FY2026") == 2020
  {
    assert Upper("FY26") == "FY26";
    assert FyAt("FY26", 0);
    assert Upper("fy27 plan") == "FY27 PLAN";
    assert FyAt("FY27 PLAN", 0);
    assert Upper("2026") == "2026";
    assert Upper("FY2026") == "FY2026";
    assert FyAt("FY2026", 0);
  }

  // ---------------------------------------------------------------------
  // Parsing

  /** One data row after naming the first eleven columns and dropping the
      ninth (`_blank`): text columns `astype(str).str.strip()`, amount
      columns coerced to numbers. */
  datatype CopyRow = CopyRow(
    fiscalYear: string, bu: string, location: string, geography: string,
    product: string, period: string,
    budgetDollars: Option<real>, forecastDollars: Option<real>,
    budgetQuantity: Option<real>, forecastQuantity: Option<real>)

  function StrippedText(c: Cell): (s: string)
    ensures Stripped(s) || s == ""
  {
    TrimIsStripped(CellText(c));
    Trim(CellText(c))
  }

  function ReadRow(row: seq<Cell>, num: string -> Option<real>): CopyRow {
    CopyRow(StrippedText(At(row, 0)), StrippedText(At(row, 1)), StrippedText(At(row, 2)),
            StrippedText(At(row, 3)), StrippedText(At(row, 4)), StrippedText(At(row, 5)),
            Numeric(At(row, 6), num), Numeric(At(row, 7), num),
            Numeric(At(row, 9), num), Numeric(At(row, 10), num))
  }

  /** `data["Period"].str.upper().isin(month_map.keys())`. */
  predicate IsMonthRow(r: CopyRow) {
    Upper(r.period) in MonthAbbrevs
  }

  /** A row of the parsed frame: the marketing columns the pipeline reads,
      plus the two budget columns it carries along. */
  datatype CopyRecord = CopyRecord(marketing: MarketingRow, budgetDollars: Option<real>, budgetQuantity: Option<real>)

  /** The Date of a month row: day 1 of its month in its fiscal year. */
  function RecordOf(r: CopyRow): CopyRecord
    requires IsMonthRow(r)
  {
    var m := MonthOf(Upper(r.period)).value;
    CopyRecord(
      MarketingRow(Text(r.bu), Text(r.location), Text(r.geography), Text(r.product),
                   Some(Date(FiscalYear(r.fiscalYear), m, 1)), r.forecastDollars, r.forecastQuantity),
      r.budgetDollars, r.budgetQuantity)
  }

  /** The month rows, in order, turned into records. */
  function MonthRecords(rows: seq<CopyRow>): (r: seq<CopyRecord>)
    decreases |rows|
  {
    if |rows| == 0 then []
    else if IsMonthRow(rows[0]) then [RecordOf(rows[0])] + MonthRecords(rows[1..])
    else MonthRecords(rows[1..])
  }

  /** The rows of the sheet from 1-based row `startRow` on. */
  function DataRows(sheet: Sheet, startRow: int, num: string -> Option<real>): seq<CopyRow> {
    var raw := RowsFrom(sheet.rows, startRow - 1);
    seq(|raw|, i requires 0 <= i < |raw| => ReadRow(raw[i], num))
  }

  /** parse_marketing_copy_2026. */
  function ParseCopy(sheet: Sheet, startRow: int, num: string -> Option<real>): Result<seq<CopyRecord>> {
    if |sheet.rows| <= startRow - 1 then Err("no data at the start row")
    else if sheet.width < 11 then Err("expected at least 11 columns from the start row")
    else
      var recs := MonthRecords(DataRows(sheet, startRow, num));
      if |recs| == 0 then Err("No month rows found in marketing 2026 data after parsing.")
      else Ok(recs)
  }

  lemma {:induction false} MonthRecordsMembers(rows: seq<CopyRow>, x: CopyRecord)
    ensures x in MonthRecords(rows) <==> exists r :: r in rows && IsMonthRow(r) && RecordOf(r) == x
    decreases |rows|
  {
    if |rows| > 0 {
      MonthRecordsMembers(rows[1..], x);
      assert forall r :: r in rows <==> r == rows[0] || r in rows[1..];
    }
  }

  lemma {:induction false} MonthRecordsEmpty(rows: seq<CopyRow>)
    ensures MonthRecords(rows) == [] <==> forall i :: 0 <= i < |rows| ==> !IsMonthRow(rows[i])
    decreases |rows|
  {
    if |rows| > 0 {
      MonthRecordsEmpty(rows[1..]);
      assert forall i :: 1 <= i < |rows| ==> rows[i] == rows[1..][i - 1];
    }
  }

  /** The parser fails exactly when the sheet has no row at the start row,
      has fewer than 11 columns, or has no row whose period is a month. */
  lemma ParseCopyErrors(sheet: Sheet, startRow: int, num: string -> Option<real>)
    ensures ParseCopy(sheet, startRow, num).Err? <==>
      || |sheet.rows| < startRow
      || sheet.width < 11
      || forall r :: r in DataRows(sheet, startRow, num) ==> !IsMonthRow(r)
  {
    var rows := DataRows(sheet, startRow, num);
    MonthRecordsEmpty(rows);
    assert (forall i :: 0 <= i < |rows| ==> !IsMonthRow(rows[i])) <==> (forall r :: r in rows ==> !IsMonthRow(r));
  }

  /** A successful parse holds exactly one record per month row of the
      data rows, in order. */
  lemma ParseCopyMembers(sheet: Sheet, startRow: int, num: string -> Option<real>, x: CopyRecord)
    requires ParseCopy(sheet, startRow, num).Ok?
    ensures x in ParseCopy(sheet, startRow, num).value <==>
      exists r :: r in DataRows(sheet, startRow, num) && IsMonthRow(r) && RecordOf(r) == x
  {
    MonthRecordsMembers(DataRows(sheet, startRow, num), x);
  }

  /** Every data row has its text columns stripped. */
  lemma DataRowsStripped(sheet: Sheet, startRow: int, num: string -> Option<real>, r: CopyRow)
    requires r in DataRows(sheet, startRow, num)
    ensures Trim(r.bu) == r.bu && Trim(r.location) == r.location && Trim(r.product) == r.product
  {
    var rows := DataRows(sheet, startRow, num);
    var k :| 0 <= k < |rows| && rows[k] == r;
    var raw := RowsFrom(sheet.rows, startRow - 1);
    TrimIdempotent(CellText(At(raw[k], 1)));
    TrimIdempotent(CellText(At(raw[k], 2)));
    TrimIdempotent(CellText(At(raw[k], 4)));
  }

  /** Every parsed record is dated day 1 of its period's month, in a year
      from 2000 to 2099, and carries its row's stripped text. */
  lemma ParseCopyDates(sheet: Sheet, startRow: int, num: string -> Option<real>, x: CopyRecord)
    requires ParseCopy(sheet, startRow, num).Ok?
    requires x in ParseCopy(sheet, startRow, num).value
    ensures x.marketing.date.Some?
    ensures x.marketing.date.value.day == 1
    ensures 2000 <= x.marketing.date.value.year <= 2099
    ensures x.marketing.bu.Text? && Trim(x.marketing.bu.s) == x.marketing.bu.s
    ensures x.marketing.location.Text? && Trim(x.marketing.location.s) == x.marketing.location.s
    ensures x.marketing.product.Text? && Trim(x.marketing.product.s) == x.marketing.product.s
  {
    ParseCopyMembers(sheet, startRow, num, x);
    var r :| r in DataRows(sheet, startRow, num) && IsMonthRow(r) && RecordOf(r) == x;
    DataRowsStripped(sheet, startRow, num, r);
  }

  // ---------------------------------------------------------------------
  // Validation

  /** Some row is dated in month m. */
  predicate HasMonth(df: seq<MarketingRow>, m: int) {
    exists i :: 0 <= i < |df| && df[i].date.Some? && df[i].date.value.month == m
  }

  /** The months from m to 12 that some row is dated in, ascending. */
  function MonthsFrom(df: seq<MarketingRow>, m: int): seq<int>
    requires 1 <= m <= 13
    decreases 13 - m
  {
    if m == 13 then []
    else (if HasMonth(df, m) then [m] else []) + MonthsFrom(df, m + 1)
  }

  /** `sorted(df["Date"].dt.month.unique())`. */
  function PresentMonths(df: seq<MarketingRow>): seq<int> {
    MonthsFrom(df, 1)
  }

  lemma {:induction false} MonthsFromMembers(df: seq<MarketingRow>, m: int, x: int)
    requires 1 <= m <= 13
    ensures x in MonthsFrom(df, m) <==> m <= x <= 12 && HasMonth(df, x)
    decreases 13 - m
  {
    if m < 13 {
      MonthsFromMembers(df, m + 1, x);
    }
  }

  lemma {:induction false} MonthsFromIncreasing(df: seq<MarketingRow>, m: int)
    requires 1 <= m <= 13
    ensures forall i, j :: 0 <= i < j < |MonthsFrom(df, m)| ==> MonthsFrom(df, m)[i] < MonthsFrom(df, m)[j]
    decreases 13 - m
  {
    if m < 13 {
      MonthsFromIncreasing(df, m + 1);
      var rest := MonthsFrom(df, m + 1);
      forall k | 0 <= k < |rest|
        ensures m < rest[k]
      {
        MonthsFromMembers(df, m + 1, rest[k]);
      }
    }
  }

  lemma {:induction false} MonthsFromLength(df: seq<MarketingRow>, m: int)
    requires 1 <= m <= 13
    ensures |MonthsFrom(df, m)| <= 13 - m
    ensures |MonthsFrom(df, m)| == 13 - m <==> forall x :: m <= x <= 12 ==> HasMonth(df, x)
    decreases 13 - m
  {
    if m < 13 {
      MonthsFromLength(df, m + 1);
    }
  }

  /** The month column's distinct values are exactly the months some row is
      dated in, listed ascending, so `nunique()` is the length of this list. */
  lemma PresentMonthsSpec(df: seq<MarketingRow>)
    ensures forall x :: x in PresentMonths(df) <==> 1 <= x <= 12 && HasMonth(df, x)
    ensures forall i, j :: 0 <= i < j < |PresentMonths(df)| ==> PresentMonths(df)[i] < PresentMonths(df)[j]
    ensures |PresentMonths(df)| == 12 <==> forall x :: 1 <= x <= 12 ==> HasMonth(df, x)
  {
    forall x
      ensures x in PresentMonths(df) <==> 1 <= x <= 12 && HasMonth(df, x)
    {
      MonthsFromMembers(df, 1, x);
    }
    MonthsFromIncreasing(df, 1);
    MonthsFromLength(df, 1);
  }

  /** The key of a text column: `dropna().astype(str).str.strip().str.upper()`. */
  function PresentKeys(cs: seq<Cell>): (r: seq<string>)
    decreases |cs|
  {
    if |cs| == 0 then []
    else (if cs[0].Null? then [] else [NormalizeKey(cs[0])]) + PresentKeys(cs[1..])
  }

  lemma {:induction false} PresentKeysMembers(cs: seq<Cell>, k: string)
    ensures k in PresentKeys(cs) <==> exists c :: c in cs && c.Text? && NormalizeKey(c) == k
    decreases |cs|
  {
    if |cs| > 0 {
      PresentKeysMembers(cs[1..], k);
      assert forall c :: c in cs <==> c == cs[0] || c in cs[1..];
    }
  }

  function StrKey(s: string): seq<Atom> {
    [Str(s)]
  }

  /** `sorted(... .unique().tolist())` on strings. */
  function SortedDistinct(xs: seq<string>): seq<string> {
    SortBy(Distinct(xs), StrKey)
  }

  lemma SortedDistinctSpec(xs: seq<string>)
    ensures forall x :: x in SortedDistinct(xs) <==> x in xs
    ensures forall i, j :: 0 <= i < j < |SortedDistinct(xs)| ==> LexLe(SortedDistinct(xs)[i], SortedDistinct(xs)[j])
    ensures NoDup(SortedDistinct(xs))
  {
    var d := Distinct(xs);
    var r := SortBy(d, StrKey);
    SortBySorted(d, StrKey);
    SortByPermutes(d, StrKey);
    forall x
      ensures x in r <==> x in xs
    {
      assert x in r <==> x in multiset(r);
      assert x in d <==> x in multiset(d);
    }
    forall i, j | 0 <= i < j < |r|
      ensures LexLe(r[i], r[j])
    {
      assert KeyLe(StrKey(r[i]), StrKey(r[j]));
      if r[i] != r[j] {
        assert StrKey(r[i])[0] != StrKey(r[j])[0];
      }
      LexLeRefl(r[i]);
    }
    SortByNoDup(d, StrKey);
  }

  lemma {:induction false} LexLeRefl(s: string)
    ensures LexLe(s, s)
    decreases |s|
  {
    if |s| > 0 {
      LexLeRefl(s[1..]);
    }
  }

  /** The summary a successful validation returns. */
  datatype CopySummary = CopySummary(rows: nat, months: seq<int>, distinctBu: seq<string>, distinctLocation: seq<string>)

  function BuCells(df: seq<MarketingRow>): (r: seq<Cell>)
    ensures |r| == |df| && forall i :: 0 <= i < |df| ==> r[i] == df[i].bu
  {
    seq(|df|, i requires 0 <= i < |df| => df[i].bu)
  }

  function LocationCells(df: seq<MarketingRow>): (r: seq<Cell>)
    ensures |r| == |df| && forall i :: 0 <= i < |df| ==> r[i] == df[i].location
  {
    seq(|df|, i requires 0 <= i < |df| => df[i].location)
  }

  /** validate_marketing_copy_2026. */
  function ValidateCopy(df: seq<MarketingRow>): Result<CopySummary> {
    var months := PresentMonths(df);
    if |months| != 12 then Err("Expected 12 months in parsed marketing data")
    else Ok(CopySummary(|df|, months,
                        SortedDistinct(PresentKeys(BuCells(df))),
                        SortedDistinct(PresentKeys(LocationCells(df)))))
  }

  /** Validation succeeds exactly when every calendar month is present, and
      then reports the months 1 to 12 in order. */
  lemma ValidateCopyMonths(df: seq<MarketingRow>)
    ensures ValidateCopy(df).Ok? <==> forall m :: 1 <= m <= 12 ==> HasMonth(df, m)
    ensures ValidateCopy(df).Ok? ==> ValidateCopy(df).value.months == [1, 2, 3, 4, 5, 6, 7, 8, 9, 10, 11, 12]
    ensures ValidateCopy(df).Ok? ==> ValidateCopy(df).value.rows == |df|
  {
    PresentMonthsSpec(df);
    var ms := PresentMonths(df);
    if |ms| == 12 {
      TwelveMonths(ms);
    }
  }

  lemma TwelveMonths(ms: seq<int>)
    requires |ms| == 12
    requires forall x :: x in ms ==> 1 <= x <= 12
    requires forall a, b :: 0 <= a < b < |ms| ==> ms[a] < ms[b]
    ensures ms == [1, 2, 3, 4, 5, 6, 7, 8, 9, 10, 11, 12]
  {
    forall i | 0 <= i < 12
      ensures ms[i] == i + 1
    {
      StrictlyIncreasingFill(ms, i);
    }
  }

  /** Twelve strictly increasing months from 1 to 12 are 1, 2, ..., 12. */
  lemma StrictlyIncreasingFill(ms: seq<int>, i: int)
    requires |ms| == 12 && 0 <= i < 12
    requires forall x :: x in ms ==> 1 <= x <= 12
    requires forall a, b :: 0 <= a < b < |ms| ==> ms[a] < ms[b]
    ensures ms[i] == i + 1
  {
    LowerBound(ms, i);
    UpperBound(ms, i);
  }

  lemma {:induction false} LowerBound(ms: seq<int>, i: int)
    requires 0 <= i < |ms|
    requires forall x :: x in ms ==> 1 <= x <= 12
    requires forall a, b :: 0 <= a < b < |ms| ==> ms[a] < ms[b]
    ensures ms[i] >= i + 1
    decreases i
  {
    if i > 0 {
      LowerBound(ms, i - 1);
    } else {
      assert ms[0] in ms;
    }
  }

  lemma {:induction false} UpperBound(ms: seq<int>, i: int)
    requires |ms| == 12 && 0 <= i < 12
    requires forall x :: x in ms ==> 1 <= x <= 12
    requires forall a, b :: 0 <= a < b < |ms| ==> ms[a] < ms[b]
    ensures ms[i] <= i + 1
    decreases 12 - i
  {
    if i < 11 {
      UpperBound(ms, i + 1);
    } else {
      assert ms[11] in ms;
    }
  }

  /** The BU and location lists hold each present value's key once, in
      code-point order; a missing cell contributes nothing. */
  lemma ValidateCopyKeys(df: seq<MarketingRow>, k: string)
    requires ValidateCopy(df).Ok?
    ensures var s := ValidateCopy(df).value;
      && (k in s.distinctBu <==> exists i :: 0 <= i < |df| && df[i].bu.Text? && NormalizeKey(df[i].bu) == k)
      && (k in s.distinctLocation <==> exists i :: 0 <= i < |df| && df[i].location.Text? && NormalizeKey(df[i].location) == k)
      && NoDup(s.distinctBu) && NoDup(s.distinctLocation)
      && (forall i, j :: 0 <= i < j < |s.distinctBu| ==> LexLe(s.distinctBu[i], s.distinctBu[j]))
      && (forall i, j :: 0 <= i < j < |s.distinctLocation| ==> LexLe(s.distinctLocation[i], s.distinctLocation[j]))
  {
    var bus := BuCells(df);
    var locs := LocationCells(df);
    SortedDistinctSpec(PresentKeys(bus));
    SortedDistinctSpec(PresentKeys(locs));
    PresentKeysMembers(bus, k);
    PresentKeysMembers(locs, k);
    assert (exists c :: c in bus && c.Text? && NormalizeKey(c) == k)
       <==> (exists i :: 0 <= i < |df| && df[i].bu.Text? && NormalizeKey(df[i].bu) == k);
    assert (exists c :: c in locs && c.Text? && NormalizeKey(c) == k)
       <==> (exists i :: 0 <= i < |df| && df[i].location.Text? && NormalizeKey(df[i].location) == k);
  }

  /** A blank BU cell is read as the text "nan", not as a missing value,
      so it reaches the BU list as "NAN" instead of being dropped. */
  lemma BlankBuListed(row: seq<Cell>, num: string -> Option<real>)
    requires At(row, 1).Null? && IsMonthRow(ReadRow(row, num))
    ensures RecordOf(ReadRow(row, num)).marketing.bu.Text?
    ensures NormalizeKey(RecordOf(ReadRow(row, num)).marketing.bu) == "NAN"
  {
    assert Trim("nan") == "nan" by { assert !IsSpace('n'); }
  }
}
