/** `ReportingService`: weekly ranking and trend over the consolidated rows,
    and the two drill-down views. Dates are day numbers, so `normalize()`
    has nothing left to do. */
module Reporting {
  import opened Text
  import opened Collections
  import opened Calendar
  import opened Normalization
  import opened Preparation
  import opened Consolidation

  /** `AppConfig`. */
  datatype AppConfig = AppConfig(issueRuleText: string, notFoundShippingLabel: string, comparisonPeriodDays: int)

  const DefaultConfig := AppConfig(
    "Count row as issue when line_issue is truthy (Yes/True/1).",
    "Not Found / Not Shipped Yet",
    7)

  const UnspecifiedCategory := "Unspecified"

  // ---------------------------------------------------------------------
  // Weeks and windows

  /** `week_bounds`: the Monday on or before the anchor and the Sunday after
      it. */
  function WeekBounds(anchor: Day): (Day, Day) {
    var start := anchor - Weekday(anchor);
    (start, start + 6)
  }

  /** The week runs Monday to Sunday and holds the anchor, and it is the
      only such week. */
  lemma WeekBoundsSpec(anchor: Day)
    ensures var (start, end) := WeekBounds(anchor);
      && Weekday(start) == 0
      && start <= anchor <= end
      && end == start + 6
      && forall monday :: Weekday(monday) == 0 && monday <= anchor <= monday + 6 ==> monday == start
  {
    var start := anchor - Weekday(anchor);
    assert (start + 3) % 7 == 0;
    forall monday | Weekday(monday) == 0 && monday <= anchor <= monday + 6 ensures monday == start {
      var d := anchor - monday;
      assert (monday + d + 3) % 7 == d % 7;
      assert Weekday(anchor) == d;
    }
  }

  /** 2026-02-04 lies in the week 2026-02-02 to 2026-02-08. */
  lemma WeekBoundsExample()
    ensures DaysFromCivil(2026, 2, 4) == 20488
    ensures WeekBounds(20488) == (DaysFromCivil(2026, 2, 2), DaysFromCivil(2026, 2, 8))
  {
  }

  predicate InWindow(date: Option<Day>, start: Day, end: Day) {
    date.Some? && start <= date.value <= end
  }

  function DateOf(c: ConsolidatedRow): Option<Day> {
    c.row.production.productionDate
  }

  function LineOf(c: ConsolidatedRow): Option<string> {
    c.row.production.productionLine
  }

  function LotOf(c: ConsolidatedRow): Option<string> {
    c.row.production.canonicalLotId
  }

  predicate IsIssue(c: ConsolidatedRow) {
    c.row.production.lineIssue
  }

  /** `primary_issue` with a missing value read as "Unspecified". */
  function CategoryOf(c: ConsolidatedRow): string {
    var issue := c.row.production.primaryIssue;
    if issue.Some? then issue.value else UnspecifiedCategory
  }

  /** `ship_status.fillna(label)`. */
  function StatusDisplay(c: ConsolidatedRow, notFound: string): string {
    if c.row.shipping.Some? then c.row.shipping.value.shipStatus else notFound
  }

  /** The rows dated inside `start..end`, both ends included. */
  function Window(rows: seq<ConsolidatedRow>, start: Day, end: Day): (r: seq<ConsolidatedRow>)
    ensures forall c :: c in r <==> c in rows && InWindow(DateOf(c), start, end)
  {
    Filter(rows, (c: ConsolidatedRow) => InWindow(DateOf(c), start, end))
  }

  // ---------------------------------------------------------------------
  // Orders

  /** Ascending with missing values last. */
  predicate NoneLastLe(a: Option<string>, b: Option<string>) {
    b.None? || (a.Some? && LexLe(a.value, b.value))
  }

  lemma NoneLastLeTotalPreorder()
    ensures forall a, b :: NoneLastLe(a, b) || NoneLastLe(b, a)
    ensures forall a, b, c :: NoneLastLe(a, b) && NoneLastLe(b, c) ==> NoneLastLe(a, c)
    ensures forall a, b :: NoneLastLe(a, b) && NoneLastLe(b, a) ==> a == b
  {
    LexLeIsTotalOrder();
  }

  /** Descending with missing values last. */
  predicate DateDescLe(a: Option<Day>, b: Option<Day>) {
    b.None? || (a.Some? && a.value >= b.value)
  }

  // ---------------------------------------------------------------------
  // Ranking

  /** One line of the ranking: `issue_count`, `total_rows`, `unique_lots`. */
  datatype RankingRow = RankingRow(productionLine: Option<string>, issueCount: nat, totalRows: nat, uniqueLots: nat)

  /** `issue_count` descending, `total_rows` descending, line ascending with
      the missing line last. */
  predicate RankingLe(a: RankingRow, b: RankingRow) {
    a.issueCount > b.issueCount
    || (a.issueCount == b.issueCount
        && (a.totalRows > b.totalRows
            || (a.totalRows == b.totalRows && NoneLastLe(a.productionLine, b.productionLine))))
  }

  lemma RankingLeTotalPreorder()
    ensures TotalPreorder(RankingLe)
  {
    NoneLastLeTotalPreorder();
  }

  /** The distinct lines of the rows, the missing line included, in first
      occurrence order (`groupby(..., dropna=False)`). */
  function Lines(rows: seq<ConsolidatedRow>): seq<Option<string>> {
    Dedup(seq(|rows|, k requires 0 <= k < |rows| => LineOf(rows[k])))
  }

  lemma LinesContents(rows: seq<ConsolidatedRow>)
    ensures NoDuplicates(Lines(rows))
    ensures forall line :: line in Lines(rows) <==> exists c :: c in rows && LineOf(c) == line
  {
    var all := seq(|rows|, k requires 0 <= k < |rows| => LineOf(rows[k]));
    forall line ensures line in all <==> exists c :: c in rows && LineOf(c) == line {
      if exists c :: c in rows && LineOf(c) == line {
        var c :| c in rows && LineOf(c) == line;
        var k :| 0 <= k < |rows| && rows[k] == c;
        assert all[k] == line;
      }
    }
  }

  /** The distinct non-missing lots of a line's rows. */
  function LotsOfLine(rows: seq<ConsolidatedRow>, line: Option<string>): set<string> {
    set c | c in rows && LineOf(c) == line && LotOf(c).Some? :: LotOf(c).value
  }

  /** The aggregates of one line's group. */
  function RankingFor(rows: seq<ConsolidatedRow>, line: Option<string>): RankingRow {
    RankingRow(line, CountKey(Filter(rows, IsIssue), LineOf, line), CountKey(rows, LineOf, line), |LotsOfLine(rows, line)|)
  }

  function RankingRows(rows: seq<ConsolidatedRow>, lines: seq<Option<string>>): (r: seq<RankingRow>)
    ensures |r| == |lines|
  {
    seq(|lines|, k requires 0 <= k < |lines| => RankingFor(rows, lines[k]))
  }

  /** The `ranking` table of the rows of the current week. */
  function Ranking(current: seq<ConsolidatedRow>): seq<RankingRow> {
    SortBy(RankingRows(current, Lines(current)), RankingLe)
  }

  /** The ranking is in ranking order. */
  lemma RankingOrder(current: seq<ConsolidatedRow>)
    ensures SortedBy(Ranking(current), RankingLe)
  {
    RankingLeTotalPreorder();
    SortBySorted(RankingRows(current, Lines(current)), RankingLe);
  }

  /** Each ranking row aggregates the rows of its line: the group is not
      empty, its issue rows are among its rows, and the lot count is the
      number of distinct lots of the group. */
  lemma RankingCounts(current: seq<ConsolidatedRow>, k: nat)
    requires k < |Ranking(current)|
    ensures var r := Ranking(current)[k];
      && r.totalRows == CountKey(current, LineOf, r.productionLine)
      && r.totalRows >= 1
      && r.issueCount == CountKey(Filter(current, IsIssue), LineOf, r.productionLine)
      && r.issueCount <= r.totalRows
      && r.uniqueLots == |LotsOfLine(current, r.productionLine)|
      && r.uniqueLots <= r.totalRows
  {
    var lines := Lines(current);
    var rows := RankingRows(current, lines);
    var r := Ranking(current)[k];
    assert r in multiset(rows);
    var i :| 0 <= i < |rows| && rows[i] == r;
    LinesContents(current);
    assert lines[i] in lines;
    var c :| c in current && LineOf(c) == lines[i];
    CountKeyFilter(current, IsIssue, LineOf, lines[i]);
    LotsOfLineBound(current, lines[i]);
  }

  /** A group has at least as many rows as distinct lots. */
  lemma {:induction false} LotsOfLineBound(rows: seq<ConsolidatedRow>, line: Option<string>)
    ensures |LotsOfLine(rows, line)| <= CountKey(rows, LineOf, line)
  {
    if rows != [] {
      var n := |rows| - 1;
      var init, last := rows[..n], rows[n];
      LotsOfLineBound(init, line);
      LotsOfLineSnoc(rows, line);
      assert CountKey(rows, LineOf, line) == CountKey(init, LineOf, line) + (if LineOf(last) == line then 1 else 0);
      if LineOf(last) == line && LotOf(last).Some? {
        assert |LotsOfLine(init, line) + {LotOf(last).value}| <= |LotsOfLine(init, line)| + 1;
      }
    }
  }

  /** One more row adds at most its own lot to its line's lots. */
  lemma LotsOfLineSnoc(rows: seq<ConsolidatedRow>, line: Option<string>)
    requires rows != []
    ensures var last := rows[|rows| - 1];
      LotsOfLine(rows, line)
      == LotsOfLine(rows[..|rows| - 1], line) + (if LineOf(last) == line && LotOf(last).Some? then {LotOf(last).value} else {})
  {
    var n := |rows| - 1;
    assert forall c :: c in rows <==> c in rows[..n] || c == rows[n];
  }

  /** The lines of the ranking rows, in ranking order. */
  function RankedLines(ranking: seq<RankingRow>): (r: seq<Option<string>>)
    ensures |r| == |ranking|
  {
    seq(|ranking|, k requires 0 <= k < |ranking| => ranking[k].productionLine)
  }

  /** Every ranking row is the aggregate of its own line. */
  lemma RankingRowsOwnLine(current: seq<ConsolidatedRow>, k: nat)
    requires k < |Ranking(current)|
    ensures Ranking(current)[k] == RankingFor(current, Ranking(current)[k].productionLine)
    ensures Ranking(current)[k].productionLine in Lines(current)
  {
    var lines := Lines(current);
    var rows := RankingRows(current, lines);
    var r := Ranking(current)[k];
    assert r in multiset(rows);
    var i :| 0 <= i < |rows| && rows[i] == r;
    assert r == RankingFor(current, lines[i]);
    assert lines[i] in lines;
  }

  /** The ranking lists the distinct lines of the week, each once. */
  lemma RankingGroups(current: seq<ConsolidatedRow>)
    ensures var ranked := RankedLines(Ranking(current));
      && NoDuplicates(ranked)
      && (forall line :: line in ranked <==> exists c :: c in current && LineOf(c) == line)
  {
    LinesContents(current);
    RankedLinesDistinct(current);
    RankedLinesSame(current);
  }

  lemma RankedLinesDistinct(current: seq<ConsolidatedRow>)
    ensures NoDuplicates(RankedLines(Ranking(current)))
  {
    var lines := Lines(current);
    var rows := RankingRows(current, lines);
    var ranking := Ranking(current);
    var ranked := RankedLines(ranking);
    assert NoDuplicates(rows) by {
      LinesContents(current);
      forall p, q | 0 <= p < q < |rows| ensures rows[p] != rows[q] {
        assert rows[p].productionLine == lines[p] && rows[q].productionLine == lines[q];
      }
    }
    DistinctAfterPermutation(rows, ranking);
    forall i, j | 0 <= i < j < |ranked| ensures ranked[i] != ranked[j] {
      RankingRowsOwnLine(current, i);
      RankingRowsOwnLine(current, j);
    }
  }

  lemma RankedLinesSame(current: seq<ConsolidatedRow>)
    ensures forall line :: line in RankedLines(Ranking(current)) <==> line in Lines(current)
  {
    var lines := Lines(current);
    var ranked := RankedLines(Ranking(current));
    forall line ensures line in ranked <==> line in lines {
      if line in ranked {
        var k :| 0 <= k < |ranked| && ranked[k] == line;
        RankingRowsOwnLine(current, k);
      }
      if line in lines {
        var i :| 0 <= i < |lines| && lines[i] == line;
        LineRanked(current, i);
      }
    }
  }

  lemma LineRanked(current: seq<ConsolidatedRow>, i: nat)
    requires i < |Lines(current)|
    ensures Lines(current)[i] in RankedLines(Ranking(current))
  {
    var rows := RankingRows(current, Lines(current));
    var ranking := Ranking(current);
    assert rows[i] in multiset(ranking);
    var k :| 0 <= k < |ranking| && ranking[k] == rows[i];
    assert RankedLines(ranking)[k] == Lines(current)[i];
  }

  function TotalRowsOf(r: RankingRow): int {
    r.totalRows
  }

  lemma {:induction false} RankingRowsTotal(rows: seq<ConsolidatedRow>, lines: seq<Option<string>>)
    ensures SumBy(RankingRows(rows, lines), TotalRowsOf) == SumCounts(rows, LineOf, lines)
  {
    if lines != [] {
      RankingRowsTotal(rows, lines[1..]);
      assert RankingRows(rows, lines)[1..] == RankingRows(rows, lines[1..]);
    }
  }

  /** Every row of the week is counted in exactly one group. */
  lemma RankingTotals(current: seq<ConsolidatedRow>)
    ensures SumBy(Ranking(current), TotalRowsOf) == |current|
  {
    var lines := Lines(current);
    LinesContents(current);
    RankingRowsTotal(current, lines);
    SumCountsCovers(current, LineOf, lines);
    SumByPermutation(Ranking(current), RankingRows(current, lines), TotalRowsOf);
  }

  // ---------------------------------------------------------------------
  // Trending

  /** One line of the trend table. */
  datatype TrendingRow = TrendingRow(issueCategory: string, currentCount: nat, previousCount: nat, delta: int, direction: string)

  /** `current_count` descending, `delta` descending, category ascending. */
  predicate TrendingLe(a: TrendingRow, b: TrendingRow) {
    a.currentCount > b.currentCount
    || (a.currentCount == b.currentCount
        && (a.delta > b.delta || (a.delta == b.delta && LexLe(a.issueCategory, b.issueCategory))))
  }

  lemma TrendingLeTotalPreorder()
    ensures TotalPreorder(TrendingLe)
  {
    LexLeIsTotalOrder();
  }

  /** The categories of some rows, in order. */
  function CategorySeq(rows: seq<ConsolidatedRow>): (r: seq<string>)
    ensures forall c :: c in rows ==> CategoryOf(c) in r
    ensures forall cat :: cat in r ==> exists c :: c in rows && CategoryOf(c) == cat
  {
    var r := seq(|rows|, k requires 0 <= k < |rows| => CategoryOf(rows[k]));
    assert forall k :: 0 <= k < |rows| ==> r[k] == CategoryOf(rows[k]);
    r
  }

  /** `up`, `down` or `flat` by the sign of the change. */
  function Direction(delta: int): string {
    if delta > 0 then "up" else if delta < 0 then "down" else "flat"
  }

  /** The trend line of one category, from the issue rows of both windows. */
  function TrendingFor(currentIssues: seq<ConsolidatedRow>, previousIssues: seq<ConsolidatedRow>, category: string): TrendingRow {
    var cur := CountKey(currentIssues, CategoryOf, category);
    var prev := CountKey(previousIssues, CategoryOf, category);
    TrendingRow(category, cur, prev, cur - prev, Direction(cur - prev))
  }

  /** The categories of either window's issue rows, each once (the outer
      union of the two group indexes). */
  function TrendCategories(currentIssues: seq<ConsolidatedRow>, previousIssues: seq<ConsolidatedRow>): seq<string> {
    Dedup(CategorySeq(currentIssues) + CategorySeq(previousIssues))
  }

  function TrendingRows(currentIssues: seq<ConsolidatedRow>, previousIssues: seq<ConsolidatedRow>, categories: seq<string>)
    : (r: seq<TrendingRow>)
    ensures |r| == |categories|
  {
    seq(|categories|, k requires 0 <= k < |categories| => TrendingFor(currentIssues, previousIssues, categories[k]))
  }

  /** The `trending` table of the two windows. */
  function Trending(current: seq<ConsolidatedRow>, previous: seq<ConsolidatedRow>): seq<TrendingRow> {
    var currentIssues := Filter(current, IsIssue);
    var previousIssues := Filter(previous, IsIssue);
    SortBy(TrendingRows(currentIssues, previousIssues, TrendCategories(currentIssues, previousIssues)), TrendingLe)
  }

  /** The trend table is in trend order. */
  lemma TrendingOrder(current: seq<ConsolidatedRow>, previous: seq<ConsolidatedRow>)
    ensures SortedBy(Trending(current, previous), TrendingLe)
  {
    var currentIssues := Filter(current, IsIssue);
    var previousIssues := Filter(previous, IsIssue);
    TrendingLeTotalPreorder();
    SortBySorted(TrendingRows(currentIssues, previousIssues, TrendCategories(currentIssues, previousIssues)), TrendingLe);
  }

  /** Each trend line counts the issue rows of its category in each window
      (0 where the category is absent from a window), and its delta and
      direction follow from the two counts. */
  lemma TrendingCounts(current: seq<ConsolidatedRow>, previous: seq<ConsolidatedRow>, k: nat)
    requires k < |Trending(current, previous)|
    ensures var r := Trending(current, previous)[k];
      && r.currentCount == CountKey(Filter(current, IsIssue), CategoryOf, r.issueCategory)
      && r.previousCount == CountKey(Filter(previous, IsIssue), CategoryOf, r.issueCategory)
      && r.currentCount + r.previousCount >= 1
      && r.delta == r.currentCount - r.previousCount
      && (r.direction == "up" <==> r.delta > 0)
      && (r.direction == "down" <==> r.delta < 0)
      && (r.direction == "flat" <==> r.delta == 0)
  {
    var r := Trending(current, previous)[k];
    TrendingRowOwnCategory(current, previous, k);
    TrendedCategoryCounted(Filter(current, IsIssue), Filter(previous, IsIssue), r.issueCategory);
  }

  /** Every trend line is the line of its own category, a category of one of
      the two windows. */
  lemma TrendingRowOwnCategory(current: seq<ConsolidatedRow>, previous: seq<ConsolidatedRow>, k: nat)
    requires k < |Trending(current, previous)|
    ensures var r := Trending(current, previous)[k];
      var currentIssues := Filter(current, IsIssue);
      var previousIssues := Filter(previous, IsIssue);
      && r == TrendingFor(currentIssues, previousIssues, r.issueCategory)
      && r.issueCategory in CategorySeq(currentIssues) + CategorySeq(previousIssues)
  {
    var currentIssues := Filter(current, IsIssue);
    var previousIssues := Filter(previous, IsIssue);
    var categories := TrendCategories(currentIssues, previousIssues);
    var rows := TrendingRows(currentIssues, previousIssues, categories);
    var r := Trending(current, previous)[k];
    assert r in multiset(rows);
    var i :| 0 <= i < |rows| && rows[i] == r;
    assert r == TrendingFor(currentIssues, previousIssues, categories[i]);
    assert categories[i] in categories;
  }

  /** A category seen in either window has at least one issue row. */
  lemma TrendedCategoryCounted(currentIssues: seq<ConsolidatedRow>, previousIssues: seq<ConsolidatedRow>, cat: string)
    requires cat in CategorySeq(currentIssues) + CategorySeq(previousIssues)
    ensures CountKey(currentIssues, CategoryOf, cat) + CountKey(previousIssues, CategoryOf, cat) >= 1
  {
    if cat in CategorySeq(currentIssues) {
      var c :| c in currentIssues && CategoryOf(c) == cat;
    } else {
      var c :| c in previousIssues && CategoryOf(c) == cat;
    }
  }

  /** The categories of the trend table, in table order. */
  function TrendedCategories(trending: seq<TrendingRow>): (r: seq<string>)
    ensures |r| == |trending|
  {
    seq(|trending|, k requires 0 <= k < |trending| => trending[k].issueCategory)
  }

  /** Reordering trend lines keeps their categories distinct and the same. */
  lemma CategoriesAfterPermutation(a: seq<TrendingRow>, b: seq<TrendingRow>)
    requires multiset(a) == multiset(b)
    requires NoDuplicates(TrendedCategories(a))
    ensures NoDuplicates(TrendedCategories(b))
    ensures forall cat :: cat in TrendedCategories(b) <==> cat in TrendedCategories(a)
  {
    var ca := TrendedCategories(a);
    var cb := TrendedCategories(b);
    DistinctRows(a);
    DistinctAfterPermutation(a, b);
    forall i, j | 0 <= i < j < |cb| ensures cb[i] != cb[j] {
      assert b[i] in multiset(a) && b[j] in multiset(a);
      var p :| 0 <= p < |a| && a[p] == b[i];
      var q :| 0 <= q < |a| && a[q] == b[j];
      assert ca[p] != ca[q];
    }
    forall cat ensures cat in cb <==> cat in ca {
      if cat in cb {
        var k :| 0 <= k < |cb| && cb[k] == cat;
        assert b[k] in multiset(a);
        var i :| 0 <= i < |a| && a[i] == b[k];
        assert ca[i] == cat;
      }
      if cat in ca {
        var i :| 0 <= i < |ca| && ca[i] == cat;
        assert a[i] in multiset(b);
        var k :| 0 <= k < |b| && b[k] == a[i];
        assert cb[k] == cat;
      }
    }
  }

  /** Trend lines with distinct categories are distinct. */
  lemma DistinctRows(a: seq<TrendingRow>)
    requires NoDuplicates(TrendedCategories(a))
    ensures NoDuplicates(a)
  {
    var ca := TrendedCategories(a);
    forall i, j | 0 <= i < j < |a| ensures a[i] != a[j] {
      assert ca[i] != ca[j];
    }
  }

  /** The trend table lists each category of an issue row of either window
      once, with a missing category read as "Unspecified". */
  lemma TrendingCategories(current: seq<ConsolidatedRow>, previous: seq<ConsolidatedRow>)
    ensures var listed := TrendedCategories(Trending(current, previous));
      && NoDuplicates(listed)
      && (forall cat :: cat in listed <==>
            (exists c :: c in current && IsIssue(c) && CategoryOf(c) == cat)
            || (exists c :: c in previous && IsIssue(c) && CategoryOf(c) == cat))
  {
    var currentIssues := Filter(current, IsIssue);
    var previousIssues := Filter(previous, IsIssue);
    var categories := TrendCategories(currentIssues, previousIssues);
    var rows := TrendingRows(currentIssues, previousIssues, categories);
    assert TrendedCategories(rows) == categories;
    CategoriesAfterPermutation(rows, Trending(current, previous));
    forall cat ensures cat in categories <==>
            (exists c :: c in current && IsIssue(c) && CategoryOf(c) == cat)
            || (exists c :: c in previous && IsIssue(c) && CategoryOf(c) == cat)
    {
      assert cat in categories <==> cat in CategorySeq(currentIssues) || cat in CategorySeq(previousIssues);
    }
  }

  function CurrentCountOf(r: TrendingRow): int {
    r.currentCount
  }

  function PreviousCountOf(r: TrendingRow): int {
    r.previousCount
  }

  lemma {:induction false} TrendingRowsTotals(currentIssues: seq<ConsolidatedRow>, previousIssues: seq<ConsolidatedRow>,
                                              categories: seq<string>)
    ensures SumBy(TrendingRows(currentIssues, previousIssues, categories), CurrentCountOf)
            == SumCounts(currentIssues, CategoryOf, categories)
    ensures SumBy(TrendingRows(currentIssues, previousIssues, categories), PreviousCountOf)
            == SumCounts(previousIssues, CategoryOf, categories)
  {
    if categories != [] {
      TrendingRowsTotals(currentIssues, previousIssues, categories[1..]);
      assert TrendingRows(currentIssues, previousIssues, categories)[1..]
             == TrendingRows(currentIssues, previousIssues, categories[1..]);
    }
  }

  /** The current counts add up to the number of issue rows of the current
      week, and the previous counts to those of the comparison window. */
  lemma TrendingTotals(current: seq<ConsolidatedRow>, previous: seq<ConsolidatedRow>)
    ensures SumBy(Trending(current, previous), CurrentCountOf) == |Filter(current, IsIssue)|
    ensures SumBy(Trending(current, previous), PreviousCountOf) == |Filter(previous, IsIssue)|
  {
    var currentIssues := Filter(current, IsIssue);
    var previousIssues := Filter(previous, IsIssue);
    var categories := TrendCategories(currentIssues, previousIssues);
    var rows := TrendingRows(currentIssues, previousIssues, categories);
    TrendingRowsTotals(currentIssues, previousIssues, categories);
    SumCountsCovers(currentIssues, CategoryOf, categories);
    SumCountsCovers(previousIssues, CategoryOf, categories);
    SumByPermutation(Trending(current, previous), rows, CurrentCountOf);
    SumByPermutation(Trending(current, previous), rows, PreviousCountOf);
  }

  // ---------------------------------------------------------------------
  // Weekly summary

  /** `WeeklySummaryResult`. */
  datatype WeeklySummaryResult = WeeklySummaryResult(weekStart: Day, weekEnd: Day, ranking: seq<RankingRow>,
                                                     trending: seq<TrendingRow>)

  /** The rows of the anchor's week. */
  function CurrentWindow(consolidated: seq<ConsolidatedRow>, anchor: Day): (r: seq<ConsolidatedRow>)
    ensures forall c :: c in r <==>
      c in consolidated && DateOf(c).Some? && WeekBounds(anchor).0 <= DateOf(c).value <= WeekBounds(anchor).1
  {
    Window(consolidated, WeekBounds(anchor).0, WeekBounds(anchor).1)
  }

  /** The rows of the comparison window: the anchor's week moved back by
      the comparison period. */
  function ComparisonWindow(config: AppConfig, consolidated: seq<ConsolidatedRow>, anchor: Day): (r: seq<ConsolidatedRow>)
    ensures forall c :: c in r <==>
      c in consolidated && DateOf(c).Some?
      && WeekBounds(anchor).0 - config.comparisonPeriodDays <= DateOf(c).value <= WeekBounds(anchor).1 - config.comparisonPeriodDays
  {
    Window(consolidated, WeekBounds(anchor).0 - config.comparisonPeriodDays, WeekBounds(anchor).1 - config.comparisonPeriodDays)
  }

  /** `weekly_summary`: rank the lines of the current week and compare its
      categories with the comparison window. */
  function WeeklySummary(config: AppConfig, consolidated: seq<ConsolidatedRow>, anchor: Day): WeeklySummaryResult {
    var current := CurrentWindow(consolidated, anchor);
    WeeklySummaryResult(WeekBounds(anchor).0, WeekBounds(anchor).1, Ranking(current),
                        Trending(current, ComparisonWindow(config, consolidated, anchor)))
  }

  /** The summary's week runs Monday to Sunday and holds the anchor. */
  lemma SummaryWeek(config: AppConfig, consolidated: seq<ConsolidatedRow>, anchor: Day)
    ensures var result := WeeklySummary(config, consolidated, anchor);
      && Weekday(result.weekStart) == 0
      && result.weekStart <= anchor <= result.weekEnd
      && result.weekEnd == result.weekStart + 6
  {
    WeekBoundsSpec(anchor);
  }

  /** Each ranked line of the summary counts the week's rows of that line. */
  lemma SummaryRankingCounts(config: AppConfig, consolidated: seq<ConsolidatedRow>, anchor: Day, k: nat)
    requires k < |WeeklySummary(config, consolidated, anchor).ranking|
    ensures var r := WeeklySummary(config, consolidated, anchor).ranking[k];
      var current := CurrentWindow(consolidated, anchor);
      && r.totalRows == CountKey(current, LineOf, r.productionLine)
      && r.issueCount == CountKey(Filter(current, IsIssue), LineOf, r.productionLine)
  {
    RankingCounts(CurrentWindow(consolidated, anchor), k);
  }

  /** Each trend line of the summary counts the issue rows of its category
      in the week and in the comparison window. */
  lemma SummaryTrendingCounts(config: AppConfig, consolidated: seq<ConsolidatedRow>, anchor: Day, k: nat)
    requires k < |WeeklySummary(config, consolidated, anchor).trending|
    ensures var r := WeeklySummary(config, consolidated, anchor).trending[k];
      && r.currentCount == CountKey(Filter(CurrentWindow(consolidated, anchor), IsIssue), CategoryOf, r.issueCategory)
      && r.previousCount == CountKey(Filter(ComparisonWindow(config, consolidated, anchor), IsIssue), CategoryOf, r.issueCategory)
  {
    TrendingCounts(CurrentWindow(consolidated, anchor), ComparisonWindow(config, consolidated, anchor), k);
  }

  // ---------------------------------------------------------------------
  // Drill-downs

  /** `production_date` descending, then lot ascending, missing values last
      on both keys. */
  predicate DrillLe(a: ConsolidatedRow, b: ConsolidatedRow) {
    (DateOf(a) != DateOf(b) && DateDescLe(DateOf(a), DateOf(b)))
    || (DateOf(a) == DateOf(b) && NoneLastLe(LotOf(a), LotOf(b)))
  }

  lemma DrillLeTotalPreorder()
    ensures TotalPreorder(DrillLe)
  {
    NoneLastLeTotalPreorder();
  }

  /** A row of the line drill-down with its two display columns. */
  datatype LineDrillRow = LineDrillRow(row: ConsolidatedRow, shippingStatusDisplay: string, latestShipDateDisplay: Option<Day>)

  function ShipDateOf(c: ConsolidatedRow): Option<Day> {
    if c.row.shipping.Some? then c.row.shipping.value.shipDate else None
  }

  /** The issue rows of `line` in the anchor's week. */
  function LineSelection(rows: seq<ConsolidatedRow>, line: string, anchor: Day): (r: seq<ConsolidatedRow>)
    ensures forall c :: c in r <==>
      c in rows && LineOf(c) == Some(line) && InWindow(DateOf(c), WeekBounds(anchor).0, WeekBounds(anchor).1) && IsIssue(c)
  {
    Filter(rows, (c: ConsolidatedRow) =>
      LineOf(c) == Some(line) && InWindow(DateOf(c), WeekBounds(anchor).0, WeekBounds(anchor).1) && IsIssue(c))
  }

  /** `drill_down_by_line`. The display columns depend on the row alone, so
      they are added after the sort. */
  function DrillDownByLine(config: AppConfig, rows: seq<ConsolidatedRow>, line: string, anchor: Day): (r: seq<LineDrillRow>) {
    var sorted := SortBy(LineSelection(rows, line, anchor), DrillLe);
    seq(|sorted|, k requires 0 <= k < |sorted| =>
      LineDrillRow(sorted[k], StatusDisplay(sorted[k], config.notFoundShippingLabel), ShipDateOf(sorted[k])))
  }

  /** The consolidated rows a line drill-down shows, in its order. */
  function LineRowsShown(d: seq<LineDrillRow>): (r: seq<ConsolidatedRow>)
    ensures |r| == |d|
  {
    seq(|d|, k requires 0 <= k < |d| => d[k].row)
  }

  /** The line drill-down shows exactly the week's issue rows of the line,
      as often as they occur. */
  lemma LineDrillContents(config: AppConfig, rows: seq<ConsolidatedRow>, line: string, anchor: Day)
    ensures var shown := LineRowsShown(DrillDownByLine(config, rows, line, anchor));
      && multiset(shown) == multiset(LineSelection(rows, line, anchor))
      && (forall c :: c in shown <==>
            c in rows && LineOf(c) == Some(line) && InWindow(DateOf(c), WeekBounds(anchor).0, WeekBounds(anchor).1) && IsIssue(c))
  {
    var selected := LineSelection(rows, line, anchor);
    var shown := LineRowsShown(DrillDownByLine(config, rows, line, anchor));
    assert shown == SortBy(selected, DrillLe);
    SameMembers(shown, selected);
  }

  /** The line drill-down is newest first, then by lot. */
  lemma LineDrillOrder(config: AppConfig, rows: seq<ConsolidatedRow>, line: string, anchor: Day)
    ensures var d := DrillDownByLine(config, rows, line, anchor);
      forall i, j :: 0 <= i < j < |d| ==> DrillLe(d[i].row, d[j].row)
  {
    DrillLeTotalPreorder();
    SortBySorted(LineSelection(rows, line, anchor), DrillLe);
  }

  /** A matched row shows its shipping status and ship date; an unmatched
      row shows the configured label and no date. */
  lemma LineDrillDisplay(config: AppConfig, rows: seq<ConsolidatedRow>, line: string, anchor: Day, k: nat)
    requires k < |DrillDownByLine(config, rows, line, anchor)|
    ensures var e := DrillDownByLine(config, rows, line, anchor)[k];
      && (e.row.row.shipping.Some? ==>
            e.shippingStatusDisplay == e.row.row.shipping.value.shipStatus
            && e.latestShipDateDisplay == e.row.row.shipping.value.shipDate)
      && (e.row.row.shipping.None? ==>
            e.shippingStatusDisplay == config.notFoundShippingLabel && e.latestShipDateDisplay == None)
  {
  }

  /** A row of the category drill-down. */
  datatype CategoryDrillRow = CategoryDrillRow(row: ConsolidatedRow, shippingStatusDisplay: string, isProblematicButShipped: bool)

  /** The first day of the category drill-down's window: the anchor's
      Monday, moved back by the period when the previous period is
      included. The window ends on the anchor's Sunday. */
  function CategoryWindowStart(config: AppConfig, anchor: Day, includePreviousPeriod: bool): Day {
    if includePreviousPeriod then WeekBounds(anchor).0 - config.comparisonPeriodDays else WeekBounds(anchor).0
  }

  /** The issue rows of `category` in the drill-down's window. */
  function CategorySelection(config: AppConfig, rows: seq<ConsolidatedRow>, category: string, anchor: Day,
                             includePreviousPeriod: bool): (r: seq<ConsolidatedRow>)
    ensures forall c :: c in r <==>
      c in rows && InWindow(DateOf(c), CategoryWindowStart(config, anchor, includePreviousPeriod), WeekBounds(anchor).1)
      && IsIssue(c) && CategoryOf(c) == category
  {
    Filter(Window(rows, CategoryWindowStart(config, anchor, includePreviousPeriod), WeekBounds(anchor).1),
           (c: ConsolidatedRow) => IsIssue(c) && CategoryOf(c) == category)
  }

  /** `drill_down_by_category`; the problematic flag is recomputed from the
      displayed status. */
  function DrillDownByCategory(config: AppConfig, rows: seq<ConsolidatedRow>, category: string, anchor: Day,
                               includePreviousPeriod: bool): seq<CategoryDrillRow> {
    var sorted := SortBy(CategorySelection(config, rows, category, anchor, includePreviousPeriod), DrillLe);
    seq(|sorted|, k requires 0 <= k < |sorted| =>
      var display := StatusDisplay(sorted[k], config.notFoundShippingLabel);
      CategoryDrillRow(sorted[k], display, display in ShippedStatuses))
  }

  /** The consolidated rows a category drill-down shows, in its order. */
  function CategoryRowsShown(d: seq<CategoryDrillRow>): (r: seq<ConsolidatedRow>)
    ensures |r| == |d|
  {
    seq(|d|, k requires 0 <= k < |d| => d[k].row)
  }

  /** The category drill-down shows exactly the issue rows of the category
      in its window, as often as they occur. */
  lemma CategoryDrillContents(config: AppConfig, rows: seq<ConsolidatedRow>, category: string, anchor: Day,
                              includePreviousPeriod: bool)
    ensures var shown := CategoryRowsShown(DrillDownByCategory(config, rows, category, anchor, includePreviousPeriod));
      && multiset(shown) == multiset(CategorySelection(config, rows, category, anchor, includePreviousPeriod))
      && (forall c :: c in shown <==>
            c in rows && InWindow(DateOf(c), CategoryWindowStart(config, anchor, includePreviousPeriod), WeekBounds(anchor).1)
            && IsIssue(c) && CategoryOf(c) == category)
  {
    var selected := CategorySelection(config, rows, category, anchor, includePreviousPeriod);
    var shown := CategoryRowsShown(DrillDownByCategory(config, rows, category, anchor, includePreviousPeriod));
    assert shown == SortBy(selected, DrillLe);
    SameMembers(shown, selected);
  }

  /** The category drill-down is newest first, then by lot. */
  lemma CategoryDrillOrder(config: AppConfig, rows: seq<ConsolidatedRow>, category: string, anchor: Day,
                           includePreviousPeriod: bool)
    ensures var d := DrillDownByCategory(config, rows, category, anchor, includePreviousPeriod);
      forall i, j :: 0 <= i < j < |d| ==> DrillLe(d[i].row, d[j].row)
  {
    DrillLeTotalPreorder();
    SortBySorted(CategorySelection(config, rows, category, anchor, includePreviousPeriod), DrillLe);
  }

  /** A row shows its shipping status, or the configured label when
      unmatched, and is flagged exactly when the status shown is Shipped or
      Partial. */
  lemma CategoryDrillDisplay(config: AppConfig, rows: seq<ConsolidatedRow>, category: string, anchor: Day,
                             includePreviousPeriod: bool, k: nat)
    requires k < |DrillDownByCategory(config, rows, category, anchor, includePreviousPeriod)|
    ensures var e := DrillDownByCategory(config, rows, category, anchor, includePreviousPeriod)[k];
      && (e.row.row.shipping.Some? ==> e.shippingStatusDisplay == e.row.row.shipping.value.shipStatus)
      && (e.row.row.shipping.None? ==> e.shippingStatusDisplay == config.notFoundShippingLabel)
      && (e.isProblematicButShipped <==> e.shippingStatusDisplay in ShippedStatuses)
  {
  }

  /** The consolidation's own flag on a row: an issue row whose matched
      status is Shipped or Partial. */
  predicate FlagAsConsolidated(c: ConsolidatedRow) {
    c.row.isProblematicButShipped <==>
      IsIssue(c) && c.row.shipping.Some? && c.row.shipping.value.shipStatus in ShippedStatuses
  }

  /** When the not-found label is neither Shipped nor Partial (as with the
      default label), the recomputed flag agrees with the consolidation's on
      every row of the category drill-down. */
  lemma CategoryDrillFlagAgrees(config: AppConfig, rows: seq<ConsolidatedRow>, category: string, anchor: Day,
                                includePreviousPeriod: bool, k: nat)
    requires config.notFoundShippingLabel !in ShippedStatuses
    requires forall c :: c in rows ==> FlagAsConsolidated(c)
    requires k < |DrillDownByCategory(config, rows, category, anchor, includePreviousPeriod)|
    ensures var d := DrillDownByCategory(config, rows, category, anchor, includePreviousPeriod);
      d[k].isProblematicButShipped == d[k].row.row.isProblematicButShipped
  {
    var selected := CategorySelection(config, rows, category, anchor, includePreviousPeriod);
    var sorted := SortBy(selected, DrillLe);
    assert sorted[k] in multiset(selected);
  }

  /** With the default configuration the label shown for an unmatched row
      is "Not Found / Not Shipped Yet", which is not a shipped status. */
  lemma DefaultLabelNotShipped()
    ensures DefaultConfig.notFoundShippingLabel !in ShippedStatuses
    ensures DefaultConfig.comparisonPeriodDays == 7
  {
  }
}
