# ops_dashboard reconciliation pipeline in Dafny

This project models the reconciliation core of `ops_dashboard`, which has three layers.

- **Field normalisation**:
  - `normalize_lot_id` turns assorted lot spellings into `LOT-YYYYMMDD-XXX`, or gives a reason.
  - `parse_mixed_date` gives a day or a reason.
  - `truthy_issue_flag` reads a yes/no indicator.
- **Consolidation** (`consolidate_logs`) does the following:
  - coalesces aliased columns;
  - prepares the production and shipping logs row by row, including the review flags;
  - keeps the latest shipping row per canonical lot;
  - left-joins production onto it;
  - sets the match, review, problematic-but-shipped and conflict flags;
  - detects per-lot conflicts;
  - splits off the flagged rows;
  - attaches the raw-lot aliases.
- **Weekly reporting** (`ReportingService`) covers:
  - Monday-to-Sunday week bounds and a comparison window;
  - the per-line ranking;
  - the per-category trend;
  - the two drill-down views.

How the model represents the data:

- A table is a `seq` of records.
- A nullable cell is an `Option`.
- A raw spreadsheet cell is `Cell` (`Missing | Bool | Int | Text`).
- A date is a day number counted from 1970-01-01, which was a Thursday.

The three files are modelled as follows:

- **normalization.py** is pure, so it becomes functions and lemmas.
- **consolidation.py** is mixed:
  - The append loops of `_prepare_production` and `_prepare_shipping`, the record loop of `_detect_conflicts` and the alias-collecting nested loop of `consolidate_logs` are methods with loop invariants.
  - Each method is proved equal to a specification function.
  - The properties are proved as lemmas about those functions.
- **reporting.py** filters and sorts freshly copied frames, so it becomes functions over sequences.

Files, one module each:

- `text.dfy`: Python's `str.strip` whitespace set, ASCII case mapping, decimal rendering, `repr` of a `str` and string order.
- `collections.dfy`: filtering, de-duplication, a stable sort by a total preorder, sorted sets, counting and sums.
- `calendar.dfy`: proleptic Gregorian day numbers and the weekday.
- `normalization.dfy`, `preparation.dfy`, `matching.dfy`, `consolidation.dfy` and `reporting.dfy`: the pipeline itself.

## Model

| member | source | states |
|---|---|---|
| Normalization.ParseMixedDate | src/ops_dashboard/normalization.py:34-52 | Exactly one of date and reason is present. A missing cell gives "Date is empty". An unparseable value gives "Unparseable date value: " followed by its repr. Any value that is not missing gets exactly the date that `pd.to_datetime` gives it (`ToDatetime`). |
| Normalization.ToDatetime | src/ops_dashboard/normalization.py:49 | A parsed day lies inside the pandas `Timestamp` range. |
| Normalization.DateLayoutsRoundTrip | src/ops_dashboard/normalization.py:49-52 | A real date written as `YYYY-MM-DD`, `YYYY/MM/DD` or `MM/DD/YYYY` parses back to its own day number when it is inside the `Timestamp` range, and to nothing otherwise. |
| Normalization.NormalizeLotId | src/ops_dashboard/normalization.py:55-89 | The canonical id is present iff the status is ok, and the reason is absent iff the status is ok. An accepted id has the exact shape `LOT-` + 8 digits + `-` + 3 digits. Missing gives "Lot ID is empty", blank gives "Lot ID is blank", and any other rejection gives the pattern message with the raw value's repr. |
| Normalization.LotAcceptanceRule | src/ops_dashboard/normalization.py:74-88 | A non-blank lot is accepted iff its trimmed, upper-cased, `L0T`-corrected, separator-free text contains `LOT` followed by 11 digits anywhere (a search, not a full match). The id is built from the leftmost such place. |
| Normalization.StructuredSearch | src/ops_dashboard/normalization.py:83-84 | On separator-free text, the restructuring substitution followed by the pattern search finds a match iff `LOT` + 11 digits occurs, and returns the groups of the leftmost occurrence. |
| Normalization.LotSpellingVariants | src/ops_dashboard/normalization.py:74-89 | Spellings that differ only in case, the `L0T` typo, `-`/`_`/whitespace separators and surrounding whitespace all normalise to the same canonical id. This covers ` LOT_20260202-001 `, `L0T-20260203-001` and `LOT20260204001`. |
| Normalization.NormalizeCanonicalLot | src/ops_dashboard/normalization.py:79-89 | A canonical id normalises to itself with status ok. |
| Normalization.NormalizeLotIdIdempotent | src/ops_dashboard/normalization.py:79-89 | Normalising the canonical id of an accepted lot gives the same result again. |
| Normalization.TruthyIssueFlag | src/ops_dashboard/normalization.py:92-107 | A bool is returned unchanged and a missing cell is false. Text is true iff its stripped, lower-cased form is one of yes, y, true, t, 1. |
| Normalization.TruthyIntegers | src/ops_dashboard/normalization.py:106-107 | An integer cell is truthy iff it is 1. |
| Preparation.FirstPresent | src/ops_dashboard/consolidation.py:27-29 | Returns the first candidate that is a column, and none iff no candidate is a column. |
| Preparation.CoalesceColumn | src/ops_dashboard/consolidation.py:19-30 | One cell per row. The cells come from the first existing candidate column, or are all the default when no candidate exists. |
| Preparation.Label | src/ops_dashboard/consolidation.py:43-44 | A text cell keeps its text, and a missing cell stays missing. |
| Preparation.ReviewRule | src/ops_dashboard/consolidation.py:71-77 | A row needs review iff its date failed, its lot failed, or a provided normalised id disagrees with the computed one. The reason is the date reason followed directly by the lot reason, or the fixed "Ambiguous lot match" text on a disagreement. The reason is non-empty iff the row needs review. |
| Preparation.ParseDates | src/ops_dashboard/consolidation.py:55-58 | The loop yields, position by position, the date and reason of `parse_mixed_date`, exactly one of them present. |
| Preparation.NormalizeLots | src/ops_dashboard/consolidation.py:60-64 | The loop yields, position by position, the fields of `normalize_lot_id`. |
| Preparation.ReviewColumns | src/ops_dashboard/consolidation.py:71-77 | The review flag and reason of every row follow the review rule, including the masked overwrite. |
| Preparation.PrepareProductionRow | src/ops_dashboard/consolidation.py:33-79 | A prepared production row keeps its source and coalesced raw lot. Its date and date reason are what `ParseMixedDate` gives the coalesced production-date cell. Its id, status and lot reason are what `NormalizeLotId` gives the raw lot. The provided id is the coalesced provided-id cell. Its review flag and reason are what `ReviewOf` gives for those parts. The line and issue are the `Label`s of their coalesced cells, and the flag is the `TruthyIssueFlag` of the coalesced flag cell. The date is present iff there is no date reason, and the id is present iff the status is ok. The row needs review iff the date or lot failed or the ids disagree, and its reason is non-empty iff it needs review. |
| Preparation.PrepareProduction | src/ops_dashboard/consolidation.py:33-79 | The method yields one prepared row per input row, equal to the row-wise specification. |
| Preparation.ShipStatusOf | src/ops_dashboard/consolidation.py:92 | A missing status becomes "On Hold". Any other value is kept as text. |
| Preparation.PrepareShippingRow | src/ops_dashboard/consolidation.py:82-125 | A shipping row follows the production-row rules, with the ship-date cell parsed by `ParseMixedDate`. Its status is `ShipStatusOf` the coalesced status cell. |
| Preparation.PrepareShipping | src/ops_dashboard/consolidation.py:82-125 | The method yields one prepared row per input row, equal to the row-wise specification. |
| Matching.LatestShippingByLot | src/ops_dashboard/consolidation.py:128-139 | The lots kept are exactly those of rows with a canonical lot, each kept once. The kept row has that lot and no later ship date than it exists; a missing date loses to any date. Ties go to the first row in input order. |
| Matching.KeepLatestStep | src/ops_dashboard/consolidation.py:137-138 | Taking one more shipping row into account preserves the latest-row invariant. |
| Matching.ProductionSources | src/ops_dashboard/consolidation.py:170-172 | The de-duplicated (file, sheet, row) triples of the lot's production rows, each once. |
| Matching.ShippingSources | src/ops_dashboard/consolidation.py:173-175 | The de-duplicated (file, sheet, row) triples of the lot's shipping rows, each once. |
| Matching.ConflictRecordContents | src/ops_dashboard/consolidation.py:165-177 | A record carries its lot and the sorted, distinct lines and statuses of that lot. Its source lists are free of duplicates and hold exactly the sources of the lot's rows. |
| Matching.ConflictsSpec | src/ops_dashboard/consolidation.py:153-178 | Records come in strictly ascending lot order. A lot is reported iff it occurs in either table and has more than one non-null production line or more than one shipping status. Each record is that lot's record. |
| Matching.ConflictsAmongSnoc | src/ops_dashboard/consolidation.py:158-177 | One more loop step appends the lot's record exactly when the lot is conflicted. |
| Matching.DetectConflicts | src/ops_dashboard/consolidation.py:142-178 | The loop over the sorted lots yields exactly the conflict table of the specification. |
| Matching.ConflictsAmongAsWrittenRaises | src/ops_dashboard/consolidation.py:159-175 | The code as written raises `KeyError` iff some conflicted lot has no rows in one of the two tables. |
| Matching.ConflictsAmongAsWrittenReturns | src/ops_dashboard/consolidation.py:153-178 | When the code as written returns, it returns the specified table. |
| Matching.ShippingOnlyConflict | src/ops_dashboard/consolidation.py:170-172 | Two shipping rows of one lot with different statuses and no production row make the code as written raise. The corrected table reports that lot with an empty production source list and both statuses. |
| Consolidation.Joined | src/ops_dashboard/consolidation.py:200-221 | The left join yields exactly one row per production row, in production order, carrying that row. |
| Consolidation.MatchRule | src/ops_dashboard/consolidation.py:200-224 | A row is matched iff it has shipping columns, iff its canonical lot occurs among the canonical shipping rows. The columns come from a row of that lot with the latest ship date, the first such row in input order. |
| Consolidation.ReviewFinalisation | src/ops_dashboard/consolidation.py:225-229 | A row needs review iff it did before or it is unmatched. A non-empty reason is kept and every empty reason becomes "No matching shipping lot found", so no reason is empty. |
| Consolidation.CleanMatchedRowReason | src/ops_dashboard/consolidation.py:226-229 | A matched row that needs no review still gets "No matching shipping lot found" as its reason. |
| Consolidation.PreparedRowsConsistent | src/ops_dashboard/consolidation.py:71-77 | Every prepared production row has a non-empty reason iff it needs review. |
| Consolidation.ProblematicRule | src/ops_dashboard/consolidation.py:230 | Problematic-but-shipped iff the row is an issue row, matched, and its status is Shipped or Partial. |
| Consolidation.ConflictFlag | src/ops_dashboard/consolidation.py:232-237 | `has_conflict` holds iff the row's canonical lot is present and conflicted. |
| Consolidation.Partition | src/ops_dashboard/consolidation.py:239-241 | The flagged rows are exactly the joined rows that need review. With `include_flagged` the consolidated rows are all joined rows. Without it they are exactly the rows that need no review, and together with the flagged rows they make up the joined rows as a multiset. |
| Consolidation.AliasFoldContents | src/ops_dashboard/consolidation.py:244-247 | The lookup holds a lot iff some alias names it, and a raw text under a lot iff that exact pair occurs. |
| Consolidation.BuildAliasLookup | src/ops_dashboard/consolidation.py:244-247 | The nested loop over both prepared tables builds exactly the specified lookup. |
| Consolidation.AliasLookupContents | src/ops_dashboard/consolidation.py:244-247 | A lot is in the lookup iff either table has a row of it. Its raw texts are exactly the `str` of the raw lot ids of those rows. |
| Consolidation.AliasRule | src/ops_dashboard/consolidation.py:248 | Every consolidated row's aliases are strictly ascending. They are empty without a canonical lot, and otherwise exactly the `str` of the raw lot ids of that lot's rows in both prepared tables. |
| Consolidation.WithAliases | src/ops_dashboard/consolidation.py:248 | Attaching aliases keeps every row, in order. |
| Consolidation.ConsolidateLogs | src/ops_dashboard/consolidation.py:181-256 | The imperative pipeline returns exactly the specified consolidation result (`Consolidate`). That result uses the corrected conflict table `Matching.Conflicts`. Take a conflicted lot that has rows in only one of the two tables: the code as written raises `KeyError` (see "## Findings"), while this method returns. |
| Reporting.WeekBoundsSpec | src/ops_dashboard/reporting.py:13-24 | The week starts on a Monday, holds the anchor and ends six days later. It is the only such Monday-to-Sunday week. |
| Reporting.WeekBoundsExample | src/ops_dashboard/reporting.py:21-24 | 2026-02-04 gives the week 2026-02-02 to 2026-02-08. |
| Reporting.Window | src/ops_dashboard/reporting.py:50-55 | A row is in a window iff it has a date between the bounds, both ends included. A row without a date is in no window. |
| Reporting.CurrentWindow | src/ops_dashboard/reporting.py:50-52 | The current window holds the rows dated inside the anchor's week. |
| Reporting.ComparisonWindow | src/ops_dashboard/reporting.py:47-55 | The comparison window holds the rows dated inside the anchor's week moved back by `comparison_period_days`. |
| Reporting.SummaryWeek | src/ops_dashboard/reporting.py:46 | The summary's week runs Monday to Sunday and holds the anchor. |
| Reporting.SummaryRankingCounts | src/ops_dashboard/reporting.py:57-64 | The summary ranks the current window: each line's counts are taken over that week. |
| Reporting.SummaryTrendingCounts | src/ops_dashboard/reporting.py:68-82 | The summary's trend counts each category in the current window and in the comparison window. |
| Reporting.NoneLastLeTotalPreorder | src/ops_dashboard/reporting.py:65 | Ascending order with missing values last is total, transitive and antisymmetric. |
| Reporting.RankingLeTotalPreorder | src/ops_dashboard/reporting.py:65 | The three-key ranking order is a total preorder. |
| Reporting.LinesContents | src/ops_dashboard/reporting.py:58 | The groups are the distinct lines of the window, a missing line counting as its own group. |
| Reporting.RankingOrder | src/ops_dashboard/reporting.py:65 | The ranking is sorted by issue count descending, then total rows descending, then line ascending with a missing line last. |
| Reporting.RankingCounts | src/ops_dashboard/reporting.py:57-64 | Each ranking row counts the window's rows of its line (at least one), its issue rows (at most that many) and its distinct non-null lots (at most that many). |
| Reporting.RankingRowsOwnLine | src/ops_dashboard/reporting.py:57-64 | Every ranking row is the aggregate of its own line, and that line is a group of the window. |
| Reporting.RankingGroups | src/ops_dashboard/reporting.py:57-64 | The ranking has one row per distinct line of the window, and no other rows. |
| Reporting.RankingTotals | src/ops_dashboard/reporting.py:57-64 | The total rows of the ranking add up to the size of the window. |
| Reporting.TrendingLeTotalPreorder | src/ops_dashboard/reporting.py:85 | The three-key trend order is a total preorder. |
| Reporting.TrendingOrder | src/ops_dashboard/reporting.py:85 | The trend is sorted by current count descending, then delta descending, then category ascending. |
| Reporting.TrendingCounts | src/ops_dashboard/reporting.py:68-84 | Each trend line counts its category's issue rows in each window, reading absence as 0, and at least one count is non-zero. Delta is current minus previous. Direction is up, down or flat iff delta is positive, negative or zero. |
| Reporting.TrendingRowOwnCategory | src/ops_dashboard/reporting.py:68-84 | Every trend line is the line of its own category, and that category occurs among the issue rows of one of the two windows. |
| Reporting.TrendingCategories | src/ops_dashboard/reporting.py:68-82 | The trend lists each category of an issue row of either window once and no other category. A missing category is read as "Unspecified". |
| Reporting.CategoriesAfterPermutation | src/ops_dashboard/reporting.py:82-85 | Sorting the outer union keeps its categories distinct and unchanged. |
| Reporting.TrendingTotals | src/ops_dashboard/reporting.py:68-82 | The current counts add up to the number of issue rows in the current window, and the previous counts to those in the comparison window. |
| Reporting.DrillLeTotalPreorder | src/ops_dashboard/reporting.py:106 | Date descending, then lot ascending, each with missing values last, is a total preorder. |
| Reporting.LineSelection | src/ops_dashboard/reporting.py:97-103 | The line drill-down selects exactly the rows with that line, dated in the anchor's week, that are issue rows. |
| Reporting.LineDrillContents | src/ops_dashboard/reporting.py:97-106 | The line drill-down shows exactly the selected rows, each as often as it occurs. |
| Reporting.LineDrillOrder | src/ops_dashboard/reporting.py:106 | The line drill-down is newest first, then by lot. |
| Reporting.LineDrillDisplay | src/ops_dashboard/reporting.py:104-105 | A matched row shows its ship status and ship date. An unmatched row shows the configured not-found label and no date. |
| Reporting.CategorySelection | src/ops_dashboard/reporting.py:122-140 | The category drill-down selects the issue rows whose category, with missing read as "Unspecified", is the target. The window is the anchor's week, starting `comparison_period_days` earlier when the previous period is included. |
| Reporting.CategoryDrillContents | src/ops_dashboard/reporting.py:122-143 | The category drill-down shows exactly the selected rows, each as often as it occurs. |
| Reporting.CategoryDrillOrder | src/ops_dashboard/reporting.py:143 | The category drill-down is newest first, then by lot. |
| Reporting.CategoryDrillDisplay | src/ops_dashboard/reporting.py:141-142 | A row shows its ship status or the not-found label. Its flag is recomputed as the status shown being Shipped or Partial. |
| Reporting.CategoryDrillFlagAgrees | src/ops_dashboard/reporting.py:141-142 | When the not-found label is neither Shipped nor Partial, the recomputed flag equals the consolidation's flag on every row. |
| Reporting.DefaultLabelNotShipped | src/ops_dashboard/config.py:20-24 | The default not-found label is not a shipped status, and the default comparison period is 7 days. |

## Left out

- I/O: reading CSV or XLSX files (`io.py`), exporting (`exporting.py`) and the Streamlit UI are outside the model. A row's source triple (file, sheet, row) is given as input.
- The `dataset` column and columns other than the modelled ones are not carried. The model also does not show what a merge does to colliding column names.
- Text handling covers ASCII only:
  - case mapping is ASCII;
  - digits are ASCII digits;
  - the repr of a non-ASCII character is not modelled in detail.
- Cells are None/NaN, bool, int or str only. Float and datetime cells are left out.
- Preparation.Label: a bool or int line or issue cell is carried as its `str()` text, not as the raw value pandas keeps. So such labels are compared as text: "10" sorts before "2", and `Int(1)` and `Text("1")` count as one value when production lines are checked for conflicts. The `TypeError` raised when sorting a mix of int and str labels is not modelled.
- Preparation.ShipStatusOf: a bool or int status cell is carried as its `str()` text, with the same consequences as for `Label`. Statuses are compared as text when checked for conflicts.
- Normalization.ToDatetime: models `pd.to_datetime` only for three text layouts (`YYYY-MM-DD`, `YYYY/MM/DD` and `MM/DD/YYYY`, with exact digit widths) and for integers read as nanoseconds since the epoch. Timezones, times of day, locale guessing and the rest of the pandas parser are not modelled, and a bool cell is treated as unparseable.
- The row order of the latest-shipping frame is left out: it is keyed by lot, and only its lookup is used by the join.
- The order of drill-down rows that tie on both date and lot follows a stable sort. pandas' own tie order is not modelled.
- Before its final sort, the trend is an index union, and its row order is not modelled. The final sort breaks every tie, because categories are distinct.
- `issue_rule_text` is carried by `AppConfig` but no computation reads it.
- `comparison_period_days` is an unbounded integer. pandas `Timedelta` limits are not modelled.

## Findings

| source | as written | input that shows it | evidently intended | confidence | as-written member | corrected member |
|---|---|---|---|---|---|---|
| src/ops_dashboard/consolidation.py:159-175 | A lot missing from one table gets `pd.DataFrame()` as its group. Selecting `source_file`, `source_sheet` and `source_row` from that empty frame raises `KeyError` as soon as the lot is conflicted. | Two shipping rows for `LOT-20260209-001` with statuses Shipped and On Hold, and no production row of that lot. | The lot is reported with an empty production source list. | not executed | Matching.ShippingOnlyConflict | Matching.DetectConflicts |
