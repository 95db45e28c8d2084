/** Preparation of the two input tables: each field is read from the first of
    its alias columns that the table has, dates and lot ids are normalised
    column by column, and every row gets its review flag and reason. */
module Preparation {
  import opened Text
  import opened Collections
  import opened Calendar
  import opened Normalization

  /** Where a row came from, as the loader records it. */
  datatype SourceRef = SourceRef(file: string, sheet: string, row: int)

  /** A spreadsheet row: its cells by column name and its source reference. */
  datatype RawRow = RawRow(cells: map<string, Cell>, source: SourceRef)

  /** A loaded table: its column names and its rows. */
  datatype RawTable = RawTable(columns: set<string>, rows: seq<RawRow>)

  /** The cell of `row` in `column`; a row without the key reads as missing. */
  function Get(row: RawRow, column: string): Cell {
    if column in row.cells then row.cells[column] else Missing
  }

  // ---------------------------------------------------------------------
  // Column aliases

  const LotColumns: seq<string> := ["raw_lot_id", "lot_id", "lot", "lot_number"]
  const LineColumns: seq<string> := ["production_line", "line_name", "line"]
  const IssueColumns: seq<string> := ["primary_issue", "issue_category", "defect_category"]
  const FlagColumns: seq<string> := ["line_issue", "line_issue_flag", "issue"]
  const ProductionDateColumns: seq<string> := ["production_date", "run_date", "date"]
  const ProvidedLotColumns: seq<string> := ["normalized_lot_id"]
  const ShipStatusColumns: seq<string> := ["ship_status", "shipping_status"]
  const ShipDateColumns: seq<string> := ["ship_date", "shipping_date", "date"]

  /** The first candidate column that the table has, if any. */
  function FirstPresent(columns: set<string>, candidates: seq<string>): (r: Option<string>)
    ensures r.Some? ==> r.value in columns
    ensures r.Some? ==> exists k :: 0 <= k < |candidates| && candidates[k] == r.value
                                     && forall j :: 0 <= j < k ==> candidates[j] !in columns
    ensures r.None? <==> forall k :: 0 <= k < |candidates| ==> candidates[k] !in columns
  {
    if candidates == [] then None
    else if candidates[0] in columns then
      assert candidates[0] == candidates[0];
      Some(candidates[0])
    else
      var r := FirstPresent(columns, candidates[1..]);
      if r.Some? then
        var k :| 0 <= k < |candidates[1..]| && candidates[1..][k] == r.value
                 && forall j :: 0 <= j < k ==> candidates[1..][j] !in columns;
        assert candidates[k + 1] == r.value;
        assert forall j :: 0 <= j < k + 1 ==> candidates[j] !in columns by {
          forall j | 0 <= j < k + 1 ensures candidates[j] !in columns {
            if j > 0 { assert candidates[j] == candidates[1..][j - 1]; }
          }
        }
        r
      else
        assert forall k :: 0 <= k < |candidates| ==> candidates[k] !in columns by {
          forall k | 0 <= k < |candidates| ensures candidates[k] !in columns {
            if k > 0 { assert candidates[k] == candidates[1..][k - 1]; }
          }
        }
        r
  }

  /** The cell a coalesced column holds for one row. */
  function CoalescedCell(columns: set<string>, row: RawRow, candidates: seq<string>, default: Cell): Cell {
    match FirstPresent(columns, candidates)
    case Some(c) => Get(row, c)
    case None => default
  }

  /** `_coalesce_column`: the first existing candidate column, or a column of
      `default` as long as the table. */
  function CoalesceColumn(table: RawTable, candidates: seq<string>, default: Cell): (r: seq<Cell>)
    ensures |r| == |table.rows|
    ensures forall k :: 0 <= k < |candidates| && candidates[k] in table.columns
                        && (forall j :: 0 <= j < k ==> candidates[j] !in table.columns) ==>
              forall i :: 0 <= i < |r| ==> r[i] == Get(table.rows[i], candidates[k])
    ensures (forall k :: 0 <= k < |candidates| ==> candidates[k] !in table.columns) ==>
              forall i :: 0 <= i < |r| ==> r[i] == default
  {
    seq(|table.rows|, i requires 0 <= i < |table.rows| => CoalescedCell(table.columns, table.rows[i], candidates, default))
  }

  /** A business label as pandas holds it: absent for a missing cell, otherwise
      the cell's `str()` text. */
  function Label(value: Cell): (r: Option<string>)
    ensures r.None? <==> value.Missing?
    ensures value.Text? ==> r == Some(value.s)
  {
    if value.Missing? then None else Some(PyStr(value))
  }

  // ---------------------------------------------------------------------
  // Review rule shared by both tables

  const AmbiguousLotReason := "Ambiguous lot match: provided normalized_lot_id conflicts with raw lot normalization"

  function OrEmpty(s: Option<string>): string {
    if s.Some? then s.value else ""
  }

  /** The canonical id of a provided `normalized_lot_id`; absent when the cell
      is missing or does not normalise. */
  function ProvidedCanonical(provided: Cell): (r: Option<string>)
    ensures r.Some? ==> IsCanonicalLot(r.value)
  {
    if provided.Missing? then None else NormalizeLotId(provided).canonicalLotId
  }

  /** Both the provided and the computed canonical ids are present and differ. */
  predicate Mismatch(provided: Cell, canonical: Option<string>) {
    ProvidedCanonical(provided).Some? && canonical.Some? && ProvidedCanonical(provided).value != canonical.value
  }

  /** The review flag and reason of one prepared row. */
  datatype Review = Review(needsReview: bool, reviewReason: string)

  function ReviewOf(dateError: Option<string>, lot: LotNormalization, provided: Cell): Review {
    if Mismatch(provided, lot.canonicalLotId) then Review(true, AmbiguousLotReason)
    else Review(dateError.Some? || lot.status != Ok, OrEmpty(dateError) + OrEmpty(lot.reason))
  }

  /** The review rule in terms of the parsed cells: a row needs review exactly
      when its date or lot did not parse or the provided id disagrees, and it
      then carries a non-empty reason, and an empty one otherwise. */
  lemma ReviewRule(rawDate: Cell, rawLot: Cell, provided: Cell)
    ensures var lot := NormalizeLotId(rawLot);
      var r := ReviewOf(ParseMixedDate(rawDate).reason, lot, provided);
      && (r.needsReview <==> ParseMixedDate(rawDate).date.None? || lot.canonicalLotId.None?
                             || Mismatch(provided, lot.canonicalLotId))
      && (r.reviewReason != "" <==> r.needsReview)
      && (Mismatch(provided, lot.canonicalLotId) ==> r.reviewReason == AmbiguousLotReason)
      && (!Mismatch(provided, lot.canonicalLotId) ==>
            r.reviewReason == OrEmpty(ParseMixedDate(rawDate).reason) + OrEmpty(lot.reason))
  {
    var d := ParseMixedDate(rawDate);
    var lot := NormalizeLotId(rawLot);
    if d.reason.Some? {
      assert d.reason.value != [] by {
        if rawDate.Missing? { assert d.reason.value[0] == 'D'; }
        else { assert d.reason.value[0] == 'U'; }
      }
    }
    if lot.reason.Some? {
      assert lot.reason.value[0] == 'L';
    }
  }

  // ---------------------------------------------------------------------
  // Row-wise loops

  /** The date loop: one `parse_mixed_date` per value, results in two lists. */
  method ParseDates(values: seq<Cell>) returns (parsedDates: seq<Option<Day>>, dateErrors: seq<Option<string>>)
    ensures |parsedDates| == |values| && |dateErrors| == |values|
    ensures forall i :: 0 <= i < |values| ==>
              parsedDates[i] == ParseMixedDate(values[i]).date && dateErrors[i] == ParseMixedDate(values[i]).reason
    ensures forall i :: 0 <= i < |values| ==> (parsedDates[i].Some? <==> dateErrors[i].None?)
  {
    parsedDates, dateErrors := [], [];
    for i := 0 to |values|
      invariant |parsedDates| == i && |dateErrors| == i
      invariant forall k :: 0 <= k < i ==>
                  parsedDates[k] == ParseMixedDate(values[k]).date && dateErrors[k] == ParseMixedDate(values[k]).reason
    {
      var parsed := ParseMixedDate(values[i]);
      parsedDates := parsedDates + [parsed.date];
      dateErrors := dateErrors + [parsed.reason];
    }
  }

  /** The lot loop: one `normalize_lot_id` per value, results in three lists. */
  method NormalizeLots(values: seq<Cell>) returns (canonicalIds: seq<Option<string>>, statuses: seq<LotStatus>,
                                                    reasons: seq<Option<string>>)
    ensures |canonicalIds| == |values| && |statuses| == |values| && |reasons| == |values|
    ensures forall i :: 0 <= i < |values| ==>
              NormalizeLotId(values[i]) == LotNormalization(canonicalIds[i], statuses[i], reasons[i])
    ensures forall i :: 0 <= i < |values| ==> (canonicalIds[i].Some? <==> statuses[i] == Ok)
  {
    canonicalIds, statuses, reasons := [], [], [];
    for i := 0 to |values|
      invariant |canonicalIds| == i && |statuses| == i && |reasons| == i
      invariant forall k :: 0 <= k < i ==>
                  NormalizeLotId(values[k]) == LotNormalization(canonicalIds[k], statuses[k], reasons[k])
    {
      var normalized := NormalizeLotId(values[i]);
      canonicalIds := canonicalIds + [normalized.canonicalLotId];
      statuses := statuses + [normalized.status];
      reasons := reasons + [normalized.reason];
      assert normalized == LotNormalization(canonicalIds[i], statuses[i], reasons[i]);
    }
  }

  /** The review columns: the flag and the concatenated reasons, then the
      masked overwrite of the rows whose provided id disagrees. */
  method ReviewColumns(dateErrors: seq<Option<string>>, canonicalIds: seq<Option<string>>, statuses: seq<LotStatus>,
                       lotReasons: seq<Option<string>>, provided: seq<Cell>)
    returns (needsReview: seq<bool>, reviewReasons: seq<string>)
    requires |canonicalIds| == |dateErrors| && |statuses| == |dateErrors|
    requires |lotReasons| == |dateErrors| && |provided| == |dateErrors|
    ensures |needsReview| == |dateErrors| && |reviewReasons| == |dateErrors|
    ensures forall i :: 0 <= i < |dateErrors| ==>
              Review(needsReview[i], reviewReasons[i])
              == ReviewOf(dateErrors[i], LotNormalization(canonicalIds[i], statuses[i], lotReasons[i]), provided[i])
  {
    var n := |dateErrors|;
    needsReview := seq(n, i requires 0 <= i < n => dateErrors[i].Some? || statuses[i] != Ok);
    reviewReasons := seq(n, i requires 0 <= i < n => OrEmpty(dateErrors[i]) + OrEmpty(lotReasons[i]));
    var mismatch := seq(n, i requires 0 <= i < n => Mismatch(provided[i], canonicalIds[i]));
    needsReview := seq(n, i requires 0 <= i < n => if mismatch[i] then true else needsReview[i]);
    reviewReasons := seq(n, i requires 0 <= i < n => if mismatch[i] then AmbiguousLotReason else reviewReasons[i]);
  }

  // ---------------------------------------------------------------------
  // Production

  /** A prepared production row. */
  datatype ProductionRow = ProductionRow(
    source: SourceRef,
    rawLotId: Cell,
    productionLine: Option<string>,
    primaryIssue: Option<string>,
    lineIssue: bool,
    productionDate: Option<Day>,
    dateErrorReason: Option<string>,
    canonicalLotId: Option<string>,
    lotStatus: LotStatus,
    lotErrorReason: Option<string>,
    providedNormalizedLotId: Cell,
    needsReview: bool,
    reviewReason: string)

  /** One row of `_prepare_production`. */
  function PrepareProductionRow(columns: set<string>, raw: RawRow): (r: ProductionRow)
    ensures r.source == raw.source
    ensures r.rawLotId == CoalescedCell(columns, raw, LotColumns, Missing)
    ensures r.productionDate.Some? <==> r.dateErrorReason.None?
    ensures r.canonicalLotId.Some? <==> r.lotStatus == Ok
    ensures r.needsReview <==> r.productionDate.None? || r.canonicalLotId.None?
                               || Mismatch(r.providedNormalizedLotId, r.canonicalLotId)
    ensures r.reviewReason != "" <==> r.needsReview
    ensures ParsedDate(r.productionDate, r.dateErrorReason)
            == ParseMixedDate(CoalescedCell(columns, raw, ProductionDateColumns, Missing))
    ensures LotNormalization(r.canonicalLotId, r.lotStatus, r.lotErrorReason) == NormalizeLotId(r.rawLotId)
    ensures r.providedNormalizedLotId == CoalescedCell(columns, raw, ProvidedLotColumns, Missing)
    ensures Review(r.needsReview, r.reviewReason)
            == ReviewOf(r.dateErrorReason, LotNormalization(r.canonicalLotId, r.lotStatus, r.lotErrorReason),
                        r.providedNormalizedLotId)
    ensures r.productionLine == Label(CoalescedCell(columns, raw, LineColumns, Missing))
    ensures r.primaryIssue == Label(CoalescedCell(columns, raw, IssueColumns, Missing))
    ensures r.lineIssue == TruthyIssueFlag(CoalescedCell(columns, raw, FlagColumns, Missing))
  {
    var rawLot := CoalescedCell(columns, raw, LotColumns, Missing);
    var rawDate := CoalescedCell(columns, raw, ProductionDateColumns, Missing);
    var provided := CoalescedCell(columns, raw, ProvidedLotColumns, Missing);
    var date := ParseMixedDate(rawDate);
    var lot := NormalizeLotId(rawLot);
    var review := ReviewOf(date.reason, lot, provided);
    ReviewRule(rawDate, rawLot, provided);
    ProductionRow(
      raw.source,
      rawLot,
      Label(CoalescedCell(columns, raw, LineColumns, Missing)),
      Label(CoalescedCell(columns, raw, IssueColumns, Missing)),
      TruthyIssueFlag(CoalescedCell(columns, raw, FlagColumns, Missing)),
      date.date,
      date.reason,
      lot.canonicalLotId,
      lot.status,
      lot.reason,
      provided,
      review.needsReview,
      review.reviewReason)
  }

  /** `_prepare_production` as a whole: one prepared row per input row. */
  function PreparedProduction(table: RawTable): (rows: seq<ProductionRow>)
    ensures |rows| == |table.rows|
    ensures forall i :: 0 <= i < |rows| ==> rows[i].source == table.rows[i].source
  {
    seq(|table.rows|, i requires 0 <= i < |table.rows| => PrepareProductionRow(table.columns, table.rows[i]))
  }

  /** `_prepare_production`: coalesce the columns, run the date and lot loops,
      then derive the review columns. */
  method PrepareProduction(table: RawTable) returns (rows: seq<ProductionRow>)
    ensures rows == PreparedProduction(table)
  {
    var n := |table.rows|;
    var rawLots := CoalesceColumn(table, LotColumns, Missing);
    var lines := CoalesceColumn(table, LineColumns, Missing);
    var issues := CoalesceColumn(table, IssueColumns, Missing);
    var flags := CoalesceColumn(table, FlagColumns, Missing);
    var rawDates := CoalesceColumn(table, ProductionDateColumns, Missing);
    var provided := CoalesceColumn(table, ProvidedLotColumns, Missing);
    var parsedDates, dateErrors := ParseDates(rawDates);
    var canonicalIds, statuses, lotReasons := NormalizeLots(rawLots);
    var needsReview, reviewReasons := ReviewColumns(dateErrors, canonicalIds, statuses, lotReasons, provided);
    rows := seq(n, i requires 0 <= i < n =>
      ProductionRow(table.rows[i].source, rawLots[i], Label(lines[i]), Label(issues[i]), TruthyIssueFlag(flags[i]),
                    parsedDates[i], dateErrors[i], canonicalIds[i], statuses[i], lotReasons[i], provided[i],
                    needsReview[i], reviewReasons[i]));
    forall i | 0 <= i < n ensures rows[i] == PreparedProduction(table)[i] {
      assert NormalizeLotId(rawLots[i]) == LotNormalization(canonicalIds[i], statuses[i], lotReasons[i]);
    }
  }

  // ---------------------------------------------------------------------
  // Shipping

  const DefaultShipStatus := "On Hold"

  /** A prepared shipping row. */
  datatype ShippingRow = ShippingRow(
    source: SourceRef,
    rawLotId: Cell,
    shipStatus: string,
    shipDate: Option<Day>,
    dateErrorReason: Option<string>,
    canonicalLotId: Option<string>,
    lotStatus: LotStatus,
    lotErrorReason: Option<string>,
    providedNormalizedLotId: Cell,
    needsReview: bool,
    reviewReason: string)

  /** `fillna("On Hold")` on the status column. */
  function ShipStatusOf(value: Cell): (status: string)
    ensures value.Missing? ==> status == DefaultShipStatus
    ensures !value.Missing? ==> Some(status) == Label(value)
  {
    if value.Missing? then DefaultShipStatus else PyStr(value)
  }

  /** One row of `_prepare_shipping`. */
  function PrepareShippingRow(columns: set<string>, raw: RawRow): (r: ShippingRow)
    ensures r.source == raw.source
    ensures r.rawLotId == CoalescedCell(columns, raw, LotColumns, Missing)
    ensures r.shipDate.Some? <==> r.dateErrorReason.None?
    ensures r.canonicalLotId.Some? <==> r.lotStatus == Ok
    ensures r.needsReview <==> r.shipDate.None? || r.canonicalLotId.None?
                               || Mismatch(r.providedNormalizedLotId, r.canonicalLotId)
    ensures r.reviewReason != "" <==> r.needsReview
    ensures ParsedDate(r.shipDate, r.dateErrorReason)
            == ParseMixedDate(CoalescedCell(columns, raw, ShipDateColumns, Missing))
    ensures LotNormalization(r.canonicalLotId, r.lotStatus, r.lotErrorReason) == NormalizeLotId(r.rawLotId)
    ensures r.providedNormalizedLotId == CoalescedCell(columns, raw, ProvidedLotColumns, Missing)
    ensures Review(r.needsReview, r.reviewReason)
            == ReviewOf(r.dateErrorReason, LotNormalization(r.canonicalLotId, r.lotStatus, r.lotErrorReason),
                        r.providedNormalizedLotId)
    ensures r.shipStatus == ShipStatusOf(CoalescedCell(columns, raw, ShipStatusColumns, Missing))
  {
    var rawLot := CoalescedCell(columns, raw, LotColumns, Missing);
    var rawDate := CoalescedCell(columns, raw, ShipDateColumns, Missing);
    var provided := CoalescedCell(columns, raw, ProvidedLotColumns, Missing);
    var date := ParseMixedDate(rawDate);
    var lot := NormalizeLotId(rawLot);
    var review := ReviewOf(date.reason, lot, provided);
    ReviewRule(rawDate, rawLot, provided);
    ShippingRow(
      raw.source,
      rawLot,
      ShipStatusOf(CoalescedCell(columns, raw, ShipStatusColumns, Missing)),
      date.date,
      date.reason,
      lot.canonicalLotId,
      lot.status,
      lot.reason,
      provided,
      review.needsReview,
      review.reviewReason)
  }

  /** `_prepare_shipping` as a whole: one prepared row per input row. */
  function PreparedShipping(table: RawTable): (rows: seq<ShippingRow>)
    ensures |rows| == |table.rows|
    ensures forall i :: 0 <= i < |rows| ==> rows[i].source == table.rows[i].source
  {
    seq(|table.rows|, i requires 0 <= i < |table.rows| => PrepareShippingRow(table.columns, table.rows[i]))
  }

  /** `_prepare_shipping`: coalesce the columns, default the status, run the
      date and lot loops, then derive the review columns. */
  method PrepareShipping(table: RawTable) returns (rows: seq<ShippingRow>)
    ensures rows == PreparedShipping(table)
  {
    var n := |table.rows|;
    var rawLots := CoalesceColumn(table, LotColumns, Missing);
    var rawStatuses := CoalesceColumn(table, ShipStatusColumns, Missing);
    var statusesShown := seq(n, i requires 0 <= i < n => ShipStatusOf(rawStatuses[i]));
    var rawDates := CoalesceColumn(table, ShipDateColumns, Missing);
    var provided := CoalesceColumn(table, ProvidedLotColumns, Missing);
    var parsedDates, dateErrors := ParseDates(rawDates);
    var canonicalIds, statuses, lotReasons := NormalizeLots(rawLots);
    var needsReview, reviewReasons := ReviewColumns(dateErrors, canonicalIds, statuses, lotReasons, provided);
    rows := seq(n, i requires 0 <= i < n =>
      ShippingRow(table.rows[i].source, rawLots[i], statusesShown[i], parsedDates[i], dateErrors[i],
                  canonicalIds[i], statuses[i], lotReasons[i], provided[i], needsReview[i], reviewReasons[i]));
    forall i | 0 <= i < n ensures rows[i] == PreparedShipping(table)[i] {
      assert NormalizeLotId(rawLots[i]) == LotNormalization(canonicalIds[i], statuses[i], lotReasons[i]);
    }
  }
}
