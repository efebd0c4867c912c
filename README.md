# Forecast accuracy report, modelled in Dafny

This project models the forecast-accuracy pipeline. The pipeline compares
two forecasts of one month's sales against that month's actuals:

- the statistical model's forecast, with the BLEND model preferred and the
  recommended model as a fallback;
- the marketing team's forecast, from the Tableau pull, the 2026 marketing
  copy or the database.

The model covers three programs.

- **The monthly report** (`build_forecast_accuracy_report.py`):
  - loads the catalog, rewriting the placeholder BU `Division` to `D200`;
  - normalises keys (`strip().upper()`, where a missing cell becomes `NAN`);
  - keeps the month's Americas marketing rows and expands the catalog's
    `|`-separated SKU lists;
  - joins marketing rows to the catalog, applying the casework split, and
    lists unmatched rows as skipped;
  - rolls marketing, actuals and stats up per group and builds the raw
    frame with its absolute errors;
  - builds five dashboards (totals, product family, product family WAPE,
    marketing manager, product), each giving accuracy = forecast / actuals
    and WAPE = |error| / actuals per group;
  - decides, per sheet, the winner of each comparison, the highlighted
    cell, the order of BU sections and of the rows in a block, and which
    product rows are hidden.
- **The database front end** (`build_forecast_accuracy_report_db.py`):
  - parses and validates the 2026 marketing copy;
  - chooses the source frames;
  - runs the data-quality (DQ) checks and applies the `off` / `warn` /
    `fail` gate;
  - compares each dashboard of a source with the same dashboard of a
    baseline.
- **The rolling trend report** (`build_forecast_accuracy_trend_report_db.py`):
  - resolves the window of months ending at the anchor month;
  - builds the per-month trend rows at four levels (total, BU, product
    family, product), each level for both model sides;
  - pivots those rows into the executive, BU, product family and top-N
    product views;
  - runs the five trend DQ checks and gates on critical failures.

Modules, in dependency order:

- Helpers: `Wrappers`, `Text`, `Dates`, `Tables`, `Sums`, `Sorting`.
- The monthly report: `Catalog`, `Reconcile`, `Dashboards`, `ReportSheets`.
- The database front end: `MarketingCopy`, `ReportDb`.
- The trend report: `TrendRows`, `TrendViews`, `TrendReport`.

Pure transformations are functions with lemmas about them. The loops that
append records (the dashboard builders, the sheet blocks, the month
sequence, the DQ failure tally, the trend row builder and the trend
report's loop over months) are methods. Each method is proved equal to a
specification function, and the properties are proved about that function.

## Model

| member | source | states |
|---|---|---|
| Text.TrimIdempotent | build_forecast_accuracy_report.py:105-106 | stripping an already stripped key changes nothing |
| Text.TrimUpperCommute | build_forecast_accuracy_report.py:105-106 | stripping then upper-casing gives the same key as upper-casing then stripping |
| Text.TrimPadded | build_forecast_accuracy_report.py:105-106 | whitespace padded on either side of a value is removed by strip |
| Text.SplitJoin | build_forecast_accuracy_report.py:125-128 | joining the pieces of a `|` split with `|` gives back the original SKU list |
| Text.SplitCount | build_forecast_accuracy_report.py:125-128 | a SKU list with k separators explodes into k + 1 tokens |
| Dates.FirstDayOfMonthSpec | build_forecast_accuracy_report.py:31-32 | the result is day 1 of the same month and not after the date |
| Dates.PreviousMonthSpec | build_forecast_accuracy_report.py:35-38 | the result is day 1 of the month before, wrapping from January to December of the previous year |
| Tables.NormalizeNull | build_forecast_accuracy_report.py:105-106 | a missing key cell normalises to "NAN" |
| Tables.NullKeysCollide | build_forecast_accuracy_report.py:105-106 | a text key that strips and upper-cases to "NAN" joins with missing keys |
| Tables.NormalizeIdempotent | build_forecast_accuracy_report.py:105-106 | normalising a normalised key changes nothing |
| Tables.NormalizeIgnoresCase | build_forecast_accuracy_report.py:105-106 | keys equal up to letter case normalise to the same key |
| Tables.NormalizeIgnoresPadding | build_forecast_accuracy_report.py:105-106 | surrounding whitespace does not affect the normalised key |
| Tables.Distinct | build_forecast_accuracy_report.py:177-193 | distinct keys: no duplicates, every input key present, nothing else |
| Sums.Groups | build_forecast_accuracy_report.py:177-193 | the group keys of a group-by: duplicate free, covering every row, each from some row |
| Sums.GroupTotalsPartition | build_forecast_accuracy_report.py:177-193 | the group sums over all groups add up to the column total |
| Sorting.SortBySorted | build_forecast_accuracy_report.py:771-773 | sorting on a tuple key leaves the rows in non-decreasing key order |
| Sorting.SortByPermutes | build_forecast_accuracy_report.py:771-773 | sorting only reorders: the multiset of rows is unchanged |
| Sorting.SortByNoDup | build_forecast_accuracy_report.py:674-681 | sorting distinct rows keeps them distinct |
| Catalog.LoadCatalog | build_forecast_accuracy_report.py:89-95 | every catalog row is kept, in order, with the Division placeholder rewritten |
| Catalog.RewriteDivisionSpec | build_forecast_accuracy_report.py:93-94 | "Division" in BU code or name becomes "D200", nothing else changes, and the rewrite is idempotent |
| Catalog.ExpandEntrySpec | build_forecast_accuracy_report.py:125-128 | one row per `|` token of the SKU list, each stripped and separator free, all other fields copied |
| Catalog.ExpandSingleToken | build_forecast_accuracy_report.py:125-128 | a SKU list without separator yields exactly the row with its SKU stripped |
| Catalog.ExpandCatalogMembers | build_forecast_accuracy_report.py:125-128 | an expanded row comes from exactly the catalog entries it is a token row of |
| Reconcile.ScopeMarketing | build_forecast_accuracy_report.py:119-120 | a row is kept exactly when it is dated in the report month and its geography is AMERICAS |
| Reconcile.PaddedGeographyDropped | build_forecast_accuracy_report.py:119-120 | a geography with leading whitespace is filtered out (the filter does not strip) |
| Reconcile.InnerJoin | build_forecast_accuracy_report.py:130-141 | a joined row pairs exactly a marketing row and a catalog row whose normalised BU and SKU keys agree |
| Reconcile.CaseworkSplitSpec | build_forecast_accuracy_report.py:143-157 | casework rows survive only when the catalog group matches the location's casework group; other rows all survive |
| Reconcile.JoinOrSkipped | build_forecast_accuracy_report.py:159-166 | an in-scope marketing row either joins some catalog row or is listed as skipped, never both |
| Reconcile.SkippedSpec | build_forecast_accuracy_report.py:159-166 | the skipped list holds each unmatched in-scope row with reason "Not in product catalog master" (the sheet's column selection at lines 279-280 keeps those fields) |
| Reconcile.MarketingFcastSpec | build_forecast_accuracy_report.py:168-175 | the marketing forecast is the quantity forecast for quantity units, the dollar forecast otherwise, 0 when missing |
| Reconcile.UnitsIgnorePadding | build_forecast_accuracy_report.py:168 | the units of a catalog row are its feature mode lower-cased and stripped |
| Reconcile.RollupGroupsDistinct | build_forecast_accuracy_report.py:177-193 | the marketing rollup has one row per group |
| Reconcile.RollupCoversJoined | build_forecast_accuracy_report.py:177-193 | every joined row's group appears in the rollup |
| Reconcile.RollupGroupsOccur | build_forecast_accuracy_report.py:177-193 | every rollup group comes from some joined row |
| Reconcile.MarketingRollupTotals | build_forecast_accuracy_report.py:177-193 | each rollup row holds its group's forecast sum, and the rollup total equals the joined total |
| Reconcile.ActualsRollupSpec | build_forecast_accuracy_report.py:196-204 | a key has actuals exactly when a row of the month has that key, and then holds their sum |
| Reconcile.StatsRollupSpec | build_forecast_accuracy_report.py:206-237 | a key uses the BLEND rows when any exist, otherwise the recommended rows; a key without either has no stats |
| Reconcile.BuildRawData | build_forecast_accuracy_report.py:109-297 | one raw row per rollup group, one detail row per joined row, and the month's actuals and stats rollups |
| Reconcile.RawRowOf | build_forecast_accuracy_report.py:252-276 | a rollup row becomes a raw row with its group's labels and marketing sum, the actuals and stats looked up by its key (0 when absent), and absolute errors that are never negative, equal the gap between forecast and actuals, and vanish exactly on a perfect forecast |
| Reconcile.RawRowSpec | build_forecast_accuracy_report.py:239-277 | a raw row carries its group's labels and marketing sum, the looked-up actuals and stats (0 when absent) and non-negative absolute errors that vanish exactly on a perfect forecast |
| Dashboards.SafeRatio | build_forecast_accuracy_report.py:300-303 | no value exactly for a zero denominator; otherwise the quotient |
| Dashboards.MetricRowSpec | build_forecast_accuracy_report.py:306-386 | zero actuals gives empty metrics; accuracy is forecast over actuals, 100% exactly on a perfect forecast; WAPE is absolute error over actuals |
| Dashboards.WapeNonNegative | build_forecast_accuracy_report.py:423-452 | with positive actuals, WAPE is defined and non-negative on both sides |
| Dashboards.TotalIsSumOfBus | build_forecast_accuracy_report.py:306-386 | every column of the Total row is the sum of that column over the BU groups |
| Dashboards.UnitSectionCount | build_forecast_accuracy_report.py:306-386 | a unit section has one row per group and metric, plus the total rows, or none without rows of that unit |
| Dashboards.UnitSectionMembers | build_forecast_accuracy_report.py:306-386 | a section's records are exactly the metric rows of the unit's groups, plus the totals where asked |
| Dashboards.DashboardMembers | build_forecast_accuracy_report.py:389-533 | a dashboard's records are exactly the section records of quantity and dollars |
| Dashboards.BuildTotalsDashboard | build_forecast_accuracy_report.py:306-386 | the loop builds the totals dashboard: totals and BU rows, accuracy and WAPE |
| Dashboards.BuildProdFamDashboard | build_forecast_accuracy_report.py:389-420 | the loop builds the product family accuracy dashboard |
| Dashboards.BuildProdFamWapeDashboard | build_forecast_accuracy_report.py:423-452 | the loop builds the product family WAPE dashboard |
| Dashboards.BuildManagerDashboard | build_forecast_accuracy_report.py:455-499 | the loop builds the marketing manager dashboard |
| Dashboards.BuildProductDashboard | build_forecast_accuracy_report.py:502-533 | the loop builds the product dashboard |
| ReportSheets.WinnerLabelSpec | build_forecast_accuracy_report.py:626-646 | no winner exactly when a value is missing; a tie exactly on equal values or equal distance from 1; otherwise the better side for the mode |
| ReportSheets.WinnerSymmetric | build_forecast_accuracy_report.py:626-646 | swapping the two values swaps the winner |
| ReportSheets.HighlightMatchesWinner | build_forecast_accuracy_report.py:594-624 | with both values present the highlighted cell is the winner's and ties are not highlighted; with a value missing there is no winner, Stats Model is never highlighted, and Marketing is highlighted exactly when both cells hold numbers (a NaN fails every comparison) |
| ReportSheets.WinnerRank | build_forecast_accuracy_report.py:762-767 | Stats Model wins rank 0, Marketing wins 1, the rest 2 |
| ReportSheets.BuOrder | build_forecast_accuracy_report.py:674 | D100, D200 and D300 keep their places; any other code sorts last |
| ReportSheets.BuSectionsCover | build_forecast_accuracy_report.py:672-690 | every BU pair of the records has exactly one entry in bu_groups, and every entry comes from a record |
| ReportSheets.SectionWrittenSpec | build_forecast_accuracy_report.py:684-687 | an entry of bu_groups gets a section exactly when neither its BU code nor its name is missing, because `==` never matches a missing value |
| ReportSheets.PairSectionWritten | build_forecast_accuracy_report.py:684-687 | the `==` selection of a record's own BU pair is non-empty exactly when both cells are present |
| ReportSheets.BuSectionsOrdered | build_forecast_accuracy_report.py:674-681 | sections are ordered by bu_order, then by BU code |
| ReportSheets.BuildBlock | build_forecast_accuracy_report.py:754-781 | the block loop writes the rows of the block specification |
| ReportSheets.BlockLinesOrdered | build_forecast_accuracy_report.py:755-773 | block rows list Stats Model wins, then Marketing wins, then the rest, each rank ordered by the sheet's secondary key (the key chosen at lines 1001-1003) |
| ReportSheets.SortRowsPerLabel | build_forecast_accuracy_report.py:754-769 | each label of a block gives at most one row, the values of its first record with the sheet's metric |
| ReportSheets.BlockLinesPermute | build_forecast_accuracy_report.py:771-781 | the written rows are the collected rows, each once, only reordered |
| ReportSheets.LineHiddenSpec | build_forecast_accuracy_report.py:976-1013 | only product rows are hidden, exactly under the blank-or-zero rule; a hidden row, which includes every product row missing a value, is not highlighted |
| ReportSheets.TotalsLine | build_forecast_accuracy_report.py:697-708 | WAPE rows are hidden; with both values, a highlight marks the lower WAPE or the accuracy closer to 1; with a value missing, Marketing is highlighted exactly when both cells hold numbers |
| MarketingCopy.RowsFrom | build_forecast_accuracy_report_db.py:89 | the rows from the start row on, with Python's negative-index behaviour |
| MarketingCopy.MonthOf | build_forecast_accuracy_report_db.py:112-127 | a period is a month exactly when it is one of the twelve abbreviations, mapped to its position |
| MarketingCopy.FindFy | build_forecast_accuracy_report_db.py:131-133 | the first position where "FY" and two digits occur |
| MarketingCopy.FiscalYear | build_forecast_accuracy_report_db.py:131-133 | the year is 2000 plus the two digits after FY, 2026 when absent, always in 2000..2099 |
| MarketingCopy.FiscalYearExamples | build_forecast_accuracy_report_db.py:131-133 | FY26 is 2026, fy27 is 2027, no FY gives 2026, and FY2026 reads as 2020 |
| MarketingCopy.ParseCopyErrors | build_forecast_accuracy_report_db.py:83-156 | parsing fails exactly when the sheet is too short or too narrow, or has no month row |
| MarketingCopy.ParseCopyMembers | build_forecast_accuracy_report_db.py:125-156 | parsed records are exactly the data rows whose period is a month |
| MarketingCopy.DataRowsStripped | build_forecast_accuracy_report_db.py:107-108 | text fields are stripped |
| MarketingCopy.ParseCopyDates | build_forecast_accuracy_report_db.py:131-142 | every parsed record has a date on day 1 of a year in 2000..2099, and stripped text keys |
| MarketingCopy.BlankBuListed | build_forecast_accuracy_report_db.py:107-108 | a blank BU cell becomes the text "nan" and normalises to "NAN" |
| MarketingCopy.PresentMonthsSpec | build_forecast_accuracy_report_db.py:158-163 | the months present, increasing; there are 12 exactly when every month occurs |
| MarketingCopy.ValidateCopyMonths | build_forecast_accuracy_report_db.py:158-168 | validation passes exactly when all twelve months occur, listing months 1..12 and the row count |
| MarketingCopy.ValidateCopyKeys | build_forecast_accuracy_report_db.py:164-167 | distinct BU and location lists: sorted, duplicate free, exactly the normalised non-missing keys |
| ReportDb.DuplicateCountSpec | build_forecast_accuracy_report_db.py:230-236 | the duplicate count is rows minus distinct keys, and zero exactly when keys are unique |
| ReportDb.RunDqChecks | build_forecast_accuracy_report_db.py:176-313 | the summary of the check list: failed = critical + warning, total = number of checks |
| ReportDb.FoldFailures | build_forecast_accuracy_report_db.py:303-313 | the tally loop counts the failed, critical-failed and warning-failed checks |
| ReportDb.FailedWithPositive | build_forecast_accuracy_report_db.py:308 | some critical check failed exactly when the critical-failed count is positive |
| ReportDb.DqChecksPresence | build_forecast_accuracy_report_db.py:197-220 | the first four checks are the critical row-presence checks of the four frames |
| ReportDb.DqChecksCount | build_forecast_accuracy_report_db.py:176-301 | the number of checks depends on which frames are non-empty and on the copy2026 source |
| ReportDb.KeyNullChecksSpec | build_forecast_accuracy_report_db.py:223-285 | a key-null check passes exactly when no row misses a key column |
| ReportDb.DuplicateChecksSpec | build_forecast_accuracy_report_db.py:230-276 | a duplicate-key check passes exactly when the key tuples are unique |
| ReportDb.CompletenessCheckSpec | build_forecast_accuracy_report_db.py:287-301 | the 12-month completeness check passes exactly when every key has all twelve months |
| ReportDb.GeographyCheckVsFilter | build_forecast_accuracy_report_db.py:237-244 | the DQ geography check strips, the report filter (build_forecast_accuracy_report.py lines 119-120) does not: on padded AMERICAS they disagree |
| ReportDb.AbortsSpec | build_forecast_accuracy_report_db.py:539-545 | fail mode aborts exactly when a critical check failed; an empty frame always aborts it |
| ReportDb.LoadFramesSpec | build_forecast_accuracy_report_db.py:407-434 | unknown sources fail; legacy and db load; copy2026 loads exactly when parsing and validation pass |
| ReportDb.CopyFramesDated | build_forecast_accuracy_report_db.py:415-423 | copy2026 frames are dated on day 1 and cover all twelve months |
| ReportDb.Delta | build_forecast_accuracy_report_db.py:498-501 | a delta exists exactly when both sides have a value, and is their difference |
| ReportDb.CompareDfRows | build_forecast_accuracy_report_db.py:491-502 | each compared row is a matched pair or a one-sided row, with deltas only on matched pairs with both values |
| ReportDb.CompareDfCovers | build_forecast_accuracy_report_db.py:491-502 | the outer merge keeps every matched pair and every unmatched row of either side |
| ReportDb.CompareDfSelf | build_forecast_accuracy_report_db.py:491-502 | comparing a key-unique dashboard with itself matches every row, with zero deltas |
| ReportDb.Comparison | build_forecast_accuracy_report_db.py:474-515 | the workbook compares each of the five dashboards of source and baseline, and fails with the merge error exactly when a dashboard of either side is empty |
| ReportDb.ComparisonFails | build_forecast_accuracy_report_db.py:491-493 | the comparison fails exactly when the source or the baseline raw table has no row in quantity or dollars units |
| ReportDb.SummaryEmpty | build_forecast_accuracy_report_db.py:482-489 | each of the five compared dashboards is empty exactly when the raw table has no row in quantity or dollars units |
| ReportDb.ReportFramesSpec | build_forecast_accuracy_report_db.py:437-471 | what reaches the report holds no NA token and no Division BU, and a second round trip changes nothing; frames without NA tokens come back unchanged except for the Division clean-up, which workbook-path frames already had |
| ReportDb.ReadFramesSpec | build_forecast_accuracy_report.py:76-102 | the loaders' read_excel leaves no NA token in the four tables and changes them exactly when they hold one |
| ReportDb.LoadCatalogTwice | build_forecast_accuracy_report.py:89-95 | the Division clean-up is idempotent and keeps a catalog free of NA tokens |
| Tables.ReadBackSpec | build_forecast_accuracy_report.py:76-102 | a cell read back is missing exactly when it was missing or an NA token, is otherwise unchanged, reads back to itself, and if changed keys as "NAN" |
| Tables.ReadBackChangesKeys | build_forecast_accuracy_report.py:76-102 | an empty text and "N/A" come back missing, so their keys change from "" and "N/A" to "NAN" |
| ReportDb.RunReportSpec | build_forecast_accuracy_report_db.py:517-563 | a loaded run always logs its checks; it stops at the gate exactly when fail mode meets a critical failure; otherwise it fails with the KeyError exactly when the totals dashboard of the round-tripped frames is empty, and else reports on those frames; exactly when a different baseline is asked for it compares the frames as loaded, failing when the baseline does not load or the comparison fails; a run in warn or off mode whose totals dashboard is non-empty and whose comparison, if asked for, succeeds, succeeds |
| ReportDb.PastGateSpec | build_forecast_accuracy_report_db.py:547-563 | after the gate a run fails on an empty totals dashboard, then on a baseline that does not load or a failed comparison; otherwise it returns the report and, exactly when a different baseline was asked for, the comparison |
| ReportDb.TotalsDashboardEmpty | build_forecast_accuracy_report.py:306-312 | the totals dashboard has no records exactly when no raw row is in quantity or dollars units |
| Dashboards.DashboardEmpty | build_forecast_accuracy_report.py:306-312 | a dashboard has no records exactly when it has no metrics or no raw row is in quantity or dollars units |
| Dashboards.DashboardHasRecord | build_forecast_accuracy_report.py:306-312 | a raw row in quantity or dollars units gives every dashboard with metrics at least one record |
| Dashboards.DashboardRecordSource | build_forecast_accuracy_report.py:306-312 | every dashboard record has a metric and comes from raw rows in its own units, which are quantity or dollars |
| TrendRows.NextMonthStart | build_forecast_accuracy_trend_report_db.py:47 | the next month start is day 1 of the following month |
| TrendRows.MonthRangeSpec | build_forecast_accuracy_trend_report_db.py:42-49 | the window is empty exactly when start is after end; otherwise one strictly increasing entry per month up to end |
| TrendRows.MonthSequence | build_forecast_accuracy_trend_report_db.py:42-49 | the loop produces the month range |
| TrendRows.ResolveWindow | build_forecast_accuracy_trend_report_db.py:52-57 | an error exactly for a window below 1; otherwise the window ends at the anchor and starts window - 1 months before |
| TrendRows.ResolvedWindowLength | build_forecast_accuracy_trend_report_db.py:52-57 | a valid window holds exactly `window` first-of-month dates, ending at the anchor (the month list of lines 42-49) |
| TrendRows.TrendAccuracy | build_forecast_accuracy_trend_report_db.py:60-63 | no metric exactly on a zero forecast; otherwise actuals over forecast |
| TrendRows.ViewRowsSpec | build_forecast_accuracy_trend_report_db.py:66-114 | a view gives a stats row and a marketing row with their own sums and metrics |
| TrendRows.BuildMonthTrendRows | build_forecast_accuracy_trend_report_db.py:117-187 | the loop produces the month's trend rows |
| TrendRows.UnitTrendRowsSpec | build_forecast_accuracy_trend_report_db.py:119-185 | a unit gives two rows per total, BU, family and product group, or none; rows come in side pairs, dated in the month, with consistent metrics |
| TrendRows.TrendSectionsSpec | build_forecast_accuracy_trend_report_db.py:119-187 | the rows of all units are well formed and paired |
| TrendRows.NoUnitsNoRows | build_forecast_accuracy_trend_report_db.py:119-187 | raw rows of no known unit give no trend rows |
| TrendRows.LevelRowsAt | build_forecast_accuracy_trend_report_db.py:66-114 | the i-th pair of a level is the stats and marketing row of its i-th group, with its labels and its sums |
| TrendRows.UnitTrendRowsMembers | build_forecast_accuracy_trend_report_db.py:119-185 | a unit's rows are, position by position, its totals pair and one pair per BU, family and product group, each with the level, labels and actuals, forecast and absolute-error sums of that group |
| TrendRows.TotalRowIsSumOfBus | build_forecast_accuracy_trend_report_db.py:124-151 | the total trend row's actuals and forecast sums equal the sums over the BU groups |
| TrendViews.AtLevelMembers | build_forecast_accuracy_trend_report_db.py:298-338 | a view filter keeps exactly the rows of its level |
| TrendViews.FirstMetricSpec | build_forecast_accuracy_trend_report_db.py:298-304 | the pivot cell is missing exactly when no row feeds it, else the first feeding row's metric |
| TrendViews.PivotSpec | build_forecast_accuracy_trend_report_db.py:298-324 | pivot keys are unique, each wide row comes from its rows, and every row with a metric has a wide row |
| TrendViews.PivotColumn | build_forecast_accuracy_trend_report_db.py:298-304 | a pivoted view has a side's column exactly when some row of that side carries a metric |
| TrendViews.DeltaSpec | build_forecast_accuracy_trend_report_db.py:303 | the delta is stats minus marketing when both exist |
| TrendViews.TopKeysFromAnchor | build_forecast_accuracy_trend_report_db.py:326-334 | top-N products are ranked on the anchor month's product rows only |
| TrendViews.TopOfCount | build_forecast_accuracy_trend_report_db.py:328-334 | each unit keeps min(n, its ranked products), none when n is not positive |
| TrendViews.TopNWithinLimit | build_forecast_accuracy_trend_report_db.py:326-353 | the product view has at most n products per unit |
| TrendViews.ProductTopMembers | build_forecast_accuracy_trend_report_db.py:336 | the product view keeps exactly the product rows of the selected (unit, product) pairs |
| TrendViews.NoTopKeysNoView | build_forecast_accuracy_trend_report_db.py:326-352 | with a top-N size below 1 or no product row in the anchor month, the product view is empty and lacks both columns |
| TrendViews.RankGrows | build_forecast_accuracy_trend_report_db.py:333 | within a unit, later entries have higher ranks |
| TrendViews.TopSellsMost | build_forecast_accuracy_trend_report_db.py:328-334 | within a unit, a higher-ranked product sold at least as much in the anchor month |
| TrendViews.RankedSellsMost | build_forecast_accuracy_trend_report_db.py:328-334 | in any list sorted by unit then descending actuals, an entry ranked within the first n sold at least as much as any entry of its unit ranked after n |
| TrendReport.CompletenessCheckSpec | build_forecast_accuracy_trend_report_db.py:209-224 | window completeness passes exactly when every expected month has a row |
| TrendReport.CoverageCheckSpec | build_forecast_accuracy_trend_report_db.py:226-235 | coverage passes exactly when every month loaded marketing, stats and actuals rows |
| TrendReport.GrainCheckSpec | build_forecast_accuracy_trend_report_db.py:237-255 | grain uniqueness passes exactly when no two rows share a grain |
| TrendReport.DenominatorCheckSpec | build_forecast_accuracy_trend_report_db.py:258-266 | the denominator check fails exactly on a row with non-positive forecast and a metric, i.e. a negative forecast on consistent rows |
| TrendReport.TopNCheckPasses | build_forecast_accuracy_trend_report_db.py:268-285 | the top-N integrity check always passes on the view the report builds |
| TrendReport.RunTrendDqChecks | build_forecast_accuracy_trend_report_db.py:190-294 | five checks are summarised; failed = critical + warning |
| TrendReport.TrendSummarySpec | build_forecast_accuracy_trend_report_db.py:287-294 | the critical-failed count is positive exactly when a critical check failed |
| TrendReport.CountsOverSpec | build_forecast_accuracy_trend_report_db.py:465-476 | one source count per month of the window |
| TrendReport.RowsOverSpec | build_forecast_accuracy_trend_report_db.py:465-489 | every trend row belongs to a window month that had all sources and raw rows, and has a consistent metric |
| TrendReport.AnyContributesSpec | build_forecast_accuracy_trend_report_db.py:477-492 | some month contributes exactly when some month passes the skip rules |
| TrendReport.ConcludeSpec | build_forecast_accuracy_trend_report_db.py:494-537 | a KeyError exactly when a view lacks a side's column; otherwise the written outcome keeps the window and rows, runs five checks, and is aborted exactly under the fail-mode gate |
| TrendReport.RunTrend | build_forecast_accuracy_trend_report_db.py:449-538 | the method computes the trend specification |
| TrendReport.TrendSpec | build_forecast_accuracy_trend_report_db.py:449-538 | an invalid window is an error; an outcome covers exactly `window` months ending at the anchor, with the per-month counts, some contributing month, complete views, and is aborted exactly when fail mode meets a critical failure |
| TrendReport.TrendNeedsTopN | build_forecast_accuracy_trend_report_db.py:326-352 | a top-N size below 1 makes the run fail |

## Left out

- Spreadsheet and database I/O is not modelled: Excel reads and writes,
  openpyxl formatting, the SQL queries of `load_from_db`, JSON DQ logs,
  argument parsing and console output. Input frames are parameters, and
  the trend report's per-month loader is the function parameter `load`.
- `apply_workbook_formatting`, `write_outputs`, `month_label` and
  `stats_model_filename` only format output and are not modelled.
- The row order of pandas `groupby`, `pivot_table`, `merge` and
  `drop_duplicates` results is not modelled. Groups appear in
  first-appearance order rather than sorted order.
- TrendViews.Pivot: the merge can repeat a product row when a top key is
  listed twice; the model does not repeat it. Both agree after the pivot,
  because `aggfunc="first"` collapses repeats into one cell.
- TrendRows.ResolveWindow: requires the anchor to be day 1 of a month,
  which `resolve_report_month` always returns.
- Text: upper- and lower-casing is ASCII only, and `\d` is read as an ASCII
  digit.
- Numbers are exact reals: floating-point rounding is not modelled.
- Dashboards.BuildManagerDashboard: the manager dashboard computes a WAPE
  accuracy column it never uses, and the model leaves it out.
- Reconcile.StatsRollupSpec: `recommended_model` is modelled as a boolean
  flag.
- The display order of the skipped-rows sheet is not modelled.
- The workbook sheets' cell positions, fonts, fills and column widths are
  layout and are not modelled.
- ReportDb.RunReportSpec: the Python writes the report before it reaches
  the comparison. An error after that point leaves files behind, which the
  model does not capture. This includes the data sheets written before the
  empty totals dashboard raises its KeyError.
- ReportSheets.BuildBlock: takes a block's dashboard records as given. The
  selection of one BU's and one unit's records from the dashboard frame,
  with dataframe `==` on the BU pair, is not modelled beyond
  `SectionWrittenSpec`: a BU whose code or name is missing is listed in
  bu_groups but gets no section, since `==` never matches a missing value.
- ReportDb.ReportFramesSpec: the read-back models only the NA tokens of
  `read_excel`, not its type inference. A text column whose every value
  looks numeric can come back as numbers, so "0123" reads as 123, or as
  123.0 when the column also has a missing value.
- ReportDb.Comparison: the comparison workbook's Summary sheet is written
  before the first dashboard is merged. The file left behind when the
  merge fails is not modelled.
- TrendReport.GrainCheckSpec: the model does not prove that trend grains
  are always unique. Labels come from `astype(str)`, and distinct missing
  values can collide as "nan".
- TrendReport.TrendSpec: a contributing month whose raw rows have neither
  quantity nor dollars units yields no trend rows, yet it still counts as
  having produced a frame.
