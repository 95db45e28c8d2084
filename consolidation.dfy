/** `consolidate_logs`: the prepared production rows left-joined onto the
    latest shipping row of their lot, the review columns finalised, the
    conflict flag set, the rows split into flagged and consolidated, and the
    raw lot aliases of each lot attached. */
module Consolidation {
  import opened Text
  import opened Collections
  import opened Calendar
  import opened Normalization
  import opened Preparation
  import opened Matching

  datatype MatchStatus = Matched | Unmatched

  /** The columns the join carries over from the latest shipping row:
      `ship_status`, `ship_date`, the `shipping_source_*` triple and
      `shipping_raw_lot_id`. */
  datatype ShippingMatch = ShippingMatch(
    shipStatus: string,
    shipDate: Option<Day>,
    shippingSource: SourceRef,
    shippingRawLotId: Cell)

  /** A production row after the join and the finalisation of its flags. */
  datatype JoinedRow = JoinedRow(
    production: ProductionRow,
    shipping: Option<ShippingMatch>,
    shippingMatchStatus: MatchStatus,
    needsReview: bool,
    reviewReason: string,
    isProblematicButShipped: bool,
    hasConflict: bool)

  /** A row of the `consolidated` output: a joined row with its aliases. */
  datatype ConsolidatedRow = ConsolidatedRow(row: JoinedRow, rawLotAliases: seq<string>)

  /** `ConsolidationResult`. The flagged rows are split off before the
      aliases are attached, so they carry none. */
  datatype ConsolidationResult = ConsolidationResult(
    production: seq<ProductionRow>,
    shipping: seq<ShippingRow>,
    consolidated: seq<ConsolidatedRow>,
    flaggedRows: seq<JoinedRow>,
    conflictRows: seq<ConflictRecord>)

  const NoMatchReason := "No matching shipping lot found"

  /** The statuses under which an issue row counts as shipped anyway. */
  const ShippedStatuses: set<string> := {"Shipped", "Partial"}

  // ---------------------------------------------------------------------
  // The join

  function MatchOf(row: ShippingRow): ShippingMatch {
    ShippingMatch(row.shipStatus, row.shipDate, row.source, row.rawLotId)
  }

  /** The latest shipping row of a lot, if the lot has shipping rows; a row
      without a lot matches nothing. */
  function LatestMatch(lot: Option<string>, shipping: seq<ShippingRow>, latest: map<string, nat>): Option<ShippingMatch>
    requires PositionsIn(latest, shipping)
  {
    if lot.Some? && lot.value in latest then Some(MatchOf(shipping[latest[lot.value]])) else None
  }

  /** One production row through the merge and the column updates that
      follow it. */
  function JoinRow(p: ProductionRow, shipping: seq<ShippingRow>, latest: map<string, nat>, conflictLots: set<string>): JoinedRow
    requires PositionsIn(latest, shipping)
  {
    var m := LatestMatch(p.canonicalLotId, shipping, latest);
    var status := if m.Some? then Matched else Unmatched;
    JoinedRow(
      p,
      m,
      status,
      p.needsReview || status == Unmatched,
      if |p.reviewReason| > 0 then p.reviewReason else NoMatchReason,
      p.lineIssue && m.Some? && m.value.shipStatus in ShippedStatuses,
      p.canonicalLotId.Some? && p.canonicalLotId.value in conflictLots)
  }

  function Joined(production: seq<ProductionRow>, shipping: seq<ShippingRow>, latest: map<string, nat>,
                  conflictLots: set<string>): (r: seq<JoinedRow>)
    requires PositionsIn(latest, shipping)
    ensures |r| == |production|
    ensures forall k :: 0 <= k < |r| ==> r[k].production == production[k]
  {
    seq(|production|, k requires 0 <= k < |production| => JoinRow(production[k], shipping, latest, conflictLots))
  }

  /** The lots named by a conflict report. */
  function ConflictLots(records: seq<ConflictRecord>): set<string> {
    set lot | lot in ReportLots(records)
  }

  lemma LatestPositions(shipping: seq<ShippingRow>)
    ensures PositionsIn(LatestShippingByLot(shipping), shipping)
  {
  }

  /** The joined table before the split: one row per production row, in
      production order. */
  function JoinedView(production: seq<ProductionRow>, shipping: seq<ShippingRow>): seq<JoinedRow> {
    LatestPositions(shipping);
    Joined(production, shipping, LatestShippingByLot(shipping), ConflictLots(Conflicts(production, shipping)))
  }

  // ---------------------------------------------------------------------
  // Aliases

  /** A (canonical lot, `str(raw_lot_id)`) pair of a prepared row. */
  datatype Alias = Alias(lot: Option<string>, raw: string)

  function ProductionAliases(production: seq<ProductionRow>): seq<Alias> {
    seq(|production|, i requires 0 <= i < |production| =>
      Alias(production[i].canonicalLotId, PyStr(production[i].rawLotId)))
  }

  function ShippingAliases(shipping: seq<ShippingRow>): seq<Alias> {
    seq(|shipping|, i requires 0 <= i < |shipping| =>
      Alias(shipping[i].canonicalLotId, PyStr(shipping[i].rawLotId)))
  }

  /** Adding one pair to the `defaultdict(set)`; a row without a lot is
      skipped. */
  function AddAlias(lookup: map<string, set<string>>, alias: Alias): map<string, set<string>> {
    if alias.lot.None? then lookup
    else
      var lot := alias.lot.value;
      lookup[lot := (if lot in lookup then lookup[lot] else {}) + {alias.raw}]
  }

  function AliasFold(aliases: seq<Alias>): map<string, set<string>> {
    if aliases == [] then map[]
    else AddAlias(AliasFold(aliases[..|aliases| - 1]), aliases[|aliases| - 1])
  }

  /** The alias map has a key for each lot of the pairs, and holds under it
      exactly the raw strings paired with that lot. */
  lemma AliasFoldContents(aliases: seq<Alias>)
    ensures forall lot :: lot in AliasFold(aliases) <==> HasLot(aliases, lot)
    ensures forall lot, raw :: lot in AliasFold(aliases) ==> (raw in AliasFold(aliases)[lot] <==> HasPair(aliases, lot, raw))
  {
    AliasFoldKeys(aliases);
    AliasFoldValues(aliases);
  }

  lemma {:induction false} AliasFoldKeys(aliases: seq<Alias>)
    ensures forall lot :: lot in AliasFold(aliases) <==> HasLot(aliases, lot)
  {
    if aliases != [] {
      var n := |aliases| - 1;
      var init, last := aliases[..n], aliases[n];
      assert aliases == init + [last];
      AliasFoldKeys(init);
      forall lot ensures lot in AliasFold(aliases) <==> HasLot(aliases, lot) {
        AliasesConcat(init, [last], lot, "");
        assert HasLot([last], lot) <==> last.lot == Some(lot) by {
          assert [last][0] == last;
        }
      }
    }
  }

  lemma {:induction false} AliasFoldValues(aliases: seq<Alias>)
    ensures forall lot, raw :: lot in AliasFold(aliases) ==> (raw in AliasFold(aliases)[lot] <==> HasPair(aliases, lot, raw))
  {
    if aliases != [] {
      var n := |aliases| - 1;
      var init, last := aliases[..n], aliases[n];
      assert aliases == init + [last];
      AliasFoldValues(init);
      AliasFoldKeys(init);
      forall lot, raw | lot in AliasFold(aliases)
        ensures raw in AliasFold(aliases)[lot] <==> HasPair(aliases, lot, raw)
      {
        AliasesConcat(init, [last], lot, raw);
        assert HasPair([last], lot, raw) <==> last == Alias(Some(lot), raw) by {
          assert [last][0] == last;
        }
        if HasPair(init, lot, raw) {
          PairHasLot(init, lot, raw);
        }
      }
    }
  }

  lemma PairHasLot(aliases: seq<Alias>, lot: string, raw: string)
    requires HasPair(aliases, lot, raw)
    ensures HasLot(aliases, lot)
  {
    var i :| 0 <= i < |aliases| && aliases[i] == Alias(Some(lot), raw);
    assert aliases[i].lot == Some(lot);
  }

  /** Concatenation of a list of frames, in order. */
  function Flatten(frames: seq<seq<Alias>>): seq<Alias> {
    if frames == [] then [] else Flatten(frames[..|frames| - 1]) + frames[|frames| - 1]
  }

  /** The alias map of both prepared tables: production rows first, then
      shipping rows. */
  function AliasLookup(production: seq<ProductionRow>, shipping: seq<ShippingRow>): map<string, set<string>> {
    AliasFold(ProductionAliases(production) + ShippingAliases(shipping))
  }

  /** One more pair of a frame is one more `AddAlias`. */
  lemma AliasFoldStep(done: seq<Alias>, frame: seq<Alias>, i: nat)
    requires i < |frame|
    ensures AliasFold(done + frame[..i + 1]) == AddAlias(AliasFold(done + frame[..i]), frame[i])
  {
    var before := done + frame[..i];
    assert done + frame[..i + 1] == before + [frame[i]];
    assert (before + [frame[i]])[..|before|] == before;
  }

  lemma FlattenSnoc(frames: seq<seq<Alias>>, f: nat)
    requires f < |frames|
    ensures Flatten(frames[..f + 1]) == Flatten(frames[..f]) + frames[f]
  {
    assert frames[..f + 1][..f] == frames[..f];
  }

  lemma FlattenPair(frames: seq<seq<Alias>>)
    requires |frames| == 2
    ensures Flatten(frames[..|frames|]) == frames[0] + frames[1]
  {
    FlattenSnoc(frames, 0);
    FlattenSnoc(frames, 1);
    assert Flatten(frames[..0]) == [];
    assert Flatten(frames[..1]) == frames[0];
  }

  /** The nested loop over the two frames that fills `alias_lookup`. */
  method BuildAliasLookup(production: seq<ProductionRow>, shipping: seq<ShippingRow>) returns (lookup: map<string, set<string>>)
    ensures lookup == AliasLookup(production, shipping)
  {
    lookup := map[];
    var frames := [ProductionAliases(production), ShippingAliases(shipping)];
    for f := 0 to |frames|
      invariant lookup == AliasFold(Flatten(frames[..f]))
    {
      var frame := frames[f];
      ghost var done := Flatten(frames[..f]);
      assert done + frame[..0] == done;
      for i := 0 to |frame|
        invariant lookup == AliasFold(done + frame[..i])
      {
        var alias := frame[i];
        if alias.lot.Some? {
          var lot := alias.lot.value;
          var seen := if lot in lookup then lookup[lot] else {};
          lookup := lookup[lot := seen + {alias.raw}];
        }
        AliasFoldStep(done, frame, i);
      }
      assert frame[..|frame|] == frame;
      FlattenSnoc(frames, f);
    }
    FlattenPair(frames);
  }

  /** `sorted(alias_lookup.get(lot, set()))`. */
  function RawLotAliases(lookup: map<string, set<string>>, lot: Option<string>): seq<string> {
    if lot.Some? && lot.value in lookup then SortedElements(lookup[lot.value]) else []
  }

  function WithAliases(rows: seq<JoinedRow>, lookup: map<string, set<string>>): (r: seq<ConsolidatedRow>)
    ensures |r| == |rows|
    ensures forall k :: 0 <= k < |r| ==> r[k].row == rows[k]
  {
    seq(|rows|, k requires 0 <= k < |rows| =>
      ConsolidatedRow(rows[k], RawLotAliases(lookup, rows[k].production.canonicalLotId)))
  }

  // ---------------------------------------------------------------------
  // The pipeline

  predicate Flagged(r: JoinedRow) {
    r.needsReview
  }

  /** Everything after preparation: join, flags, conflicts, split and
      aliases. */
  function Reconcile(production: seq<ProductionRow>, shipping: seq<ShippingRow>, includeFlagged: bool): ConsolidationResult {
    var joined := JoinedView(production, shipping);
    var kept := if includeFlagged then joined else Filter(joined, Negate(Flagged));
    ConsolidationResult(production, shipping, WithAliases(kept, AliasLookup(production, shipping)),
                        Filter(joined, Flagged), Conflicts(production, shipping))
  }

  /** `consolidate_logs` on two raw tables. */
  function Consolidate(productionTable: RawTable, shippingTable: RawTable, includeFlagged: bool): ConsolidationResult {
    Reconcile(PreparedProduction(productionTable), PreparedShipping(shippingTable), includeFlagged)
  }

  /** `consolidate_logs`: prepare both tables, detect conflicts with the
      loop, fill the alias map with the nested loop, and assemble. */
  method ConsolidateLogs(productionTable: RawTable, shippingTable: RawTable, includeFlagged: bool)
    returns (result: ConsolidationResult)
    ensures result == Consolidate(productionTable, shippingTable, includeFlagged)
  {
    var production := PrepareProduction(productionTable);
    var shipping := PrepareShipping(shippingTable);
    var latest := LatestShippingByLot(shipping);
    LatestPositions(shipping);
    var conflictRows := DetectConflicts(production, shipping);
    var consolidated := Joined(production, shipping, latest, ConflictLots(conflictRows));
    var flaggedRows := Filter(consolidated, Flagged);
    if !includeFlagged {
      consolidated := Filter(consolidated, Negate(Flagged));
    }
    var lookup := BuildAliasLookup(production, shipping);
    result := ConsolidationResult(production, shipping, WithAliases(consolidated, lookup), flaggedRows, conflictRows);
  }

  // ---------------------------------------------------------------------
  // What the pipeline promises

  /** A row is matched exactly when its lot has shipping rows, and then it
      carries the columns of a row of that lot with the latest ship date,
      the first such row in input order. */
  lemma MatchRule(production: seq<ProductionRow>, shipping: seq<ShippingRow>, k: nat)
    requires k < |production|
    ensures var r := JoinedView(production, shipping)[k];
      var lot := production[k].canonicalLotId;
      && (r.shippingMatchStatus == Matched <==> r.shipping.Some?)
      && (r.shipping.Some? <==> lot.Some? && lot.value in ShippingLots(shipping))
      && (r.shipping.Some? ==>
            exists j :: 0 <= j < |shipping| && shipping[j].canonicalLotId == lot && r.shipping.value == MatchOf(shipping[j])
                        && (forall i :: 0 <= i < |shipping| && shipping[i].canonicalLotId == lot ==>
                              !LaterDate(shipping[i].shipDate, shipping[j].shipDate))
                        && (forall i :: 0 <= i < j && shipping[i].canonicalLotId == lot ==>
                              LaterDate(shipping[j].shipDate, shipping[i].shipDate)))
  {
    var latest := LatestShippingByLot(shipping);
    var lot := production[k].canonicalLotId;
    assert JoinedView(production, shipping)[k].shipping == LatestMatch(lot, shipping, latest) by {
      JoinedViewRow(production, shipping, k);
    }
    LatestMatchRule(lot, shipping, latest);
  }

  /** A row of the joined view is its production row through `JoinRow`. */
  lemma JoinedViewRow(production: seq<ProductionRow>, shipping: seq<ShippingRow>, k: nat)
    requires k < |production|
    ensures PositionsIn(LatestShippingByLot(shipping), shipping)
    ensures JoinedView(production, shipping)[k]
            == JoinRow(production[k], shipping, LatestShippingByLot(shipping), ConflictLots(Conflicts(production, shipping)))
  {
    LatestPositions(shipping);
  }

  /** The match of a lot under a latest-row map: present exactly when the lot
      has shipping rows, and then taken from a latest row of the lot. */
  lemma LatestMatchRule(lot: Option<string>, shipping: seq<ShippingRow>, latest: map<string, nat>)
    requires IsLatestByLot(latest, shipping)
    ensures PositionsIn(latest, shipping)
    ensures LatestMatch(lot, shipping, latest).Some? <==> lot.Some? && lot.value in ShippingLots(shipping)
    ensures LatestMatch(lot, shipping, latest).Some? ==>
              exists j :: 0 <= j < |shipping| && shipping[j].canonicalLotId == lot
                          && LatestMatch(lot, shipping, latest).value == MatchOf(shipping[j])
                          && (forall i :: 0 <= i < |shipping| && shipping[i].canonicalLotId == lot ==>
                                !LaterDate(shipping[i].shipDate, shipping[j].shipDate))
                          && (forall i :: 0 <= i < j && shipping[i].canonicalLotId == lot ==>
                                LaterDate(shipping[j].shipDate, shipping[i].shipDate))
  {
    if lot.Some? && lot.value in latest {
      var j := latest[lot.value];
      assert shipping[j].canonicalLotId == lot;
    }
  }

  /** Review finalisation: an unmatched row needs review, a row keeps its
      own reason when it has one and otherwise gets the no-match default,
      so no joined row has an empty reason. */
  lemma ReviewFinalisation(production: seq<ProductionRow>, shipping: seq<ShippingRow>, k: nat)
    requires k < |production|
    ensures var r := JoinedView(production, shipping)[k];
      && (r.needsReview <==> production[k].needsReview || r.shippingMatchStatus == Unmatched)
      && (production[k].reviewReason != "" ==> r.reviewReason == production[k].reviewReason)
      && (production[k].reviewReason == "" ==> r.reviewReason == NoMatchReason)
      && r.reviewReason != ""
  {
  }

  /** The default reason is written into every empty reason, so a matched
      row that needs no review still reads "No matching shipping lot
      found". */
  lemma CleanMatchedRowReason(production: seq<ProductionRow>, shipping: seq<ShippingRow>, k: nat)
    requires k < |production|
    requires PreparedRowConsistent(production[k])
    requires !production[k].needsReview
    requires JoinedView(production, shipping)[k].shippingMatchStatus == Matched
    ensures !JoinedView(production, shipping)[k].needsReview
    ensures JoinedView(production, shipping)[k].reviewReason == NoMatchReason
  {
  }

  /** What preparation guarantees of every prepared row: a reason exactly
      when the row needs review. */
  predicate PreparedRowConsistent(p: ProductionRow) {
    p.reviewReason != "" <==> p.needsReview
  }

  lemma PreparedRowsConsistent(productionTable: RawTable)
    ensures forall k :: 0 <= k < |PreparedProduction(productionTable)| ==>
              PreparedRowConsistent(PreparedProduction(productionTable)[k])
  {
  }

  /** A row is problematic but shipped exactly when it has a line issue and
      it matched a shipping row whose status is Shipped or Partial. */
  lemma ProblematicRule(production: seq<ProductionRow>, shipping: seq<ShippingRow>, k: nat)
    requires k < |production|
    ensures var r := JoinedView(production, shipping)[k];
      r.isProblematicButShipped <==>
        production[k].lineIssue && r.shippingMatchStatus == Matched && r.shipping.value.shipStatus in ShippedStatuses
  {
  }

  /** A row has a conflict exactly when its lot is one the conflict report
      lists, that is, a conflicted lot. */
  lemma ConflictFlag(production: seq<ProductionRow>, shipping: seq<ShippingRow>, k: nat)
    requires k < |production|
    ensures var lot := production[k].canonicalLotId;
      JoinedView(production, shipping)[k].hasConflict <==> lot.Some? && IsConflicted(production, shipping, lot.value)
  {
    ConflictsSpec(production, shipping);
    var lot := production[k].canonicalLotId;
    if lot.Some? {
      assert lot.value in AllLots(production, shipping) by {
        assert production[k].canonicalLotId.Some?;
      }
    }
  }

  /** The flagged rows are exactly the joined rows that need review; with
      `include_flagged` off the consolidated rows are the others, so the two
      outputs split the joined rows, and with it on they are all of them. */
  lemma Partition(production: seq<ProductionRow>, shipping: seq<ShippingRow>, includeFlagged: bool)
    ensures var result := Reconcile(production, shipping, includeFlagged);
      var joined := JoinedView(production, shipping);
      var kept := RowsOf(result.consolidated);
      && (forall r :: r in result.flaggedRows <==> r in joined && r.needsReview)
      && (includeFlagged ==> kept == joined)
      && (!includeFlagged ==> (forall r :: r in kept <==> r in joined && !r.needsReview)
                              && multiset(kept) + multiset(result.flaggedRows) == multiset(joined))
  {
    var joined := JoinedView(production, shipping);
    var kept := if includeFlagged then joined else Filter(joined, Negate(Flagged));
    assert RowsOf(Reconcile(production, shipping, includeFlagged).consolidated) == kept by {
      RowsOfWithAliases(kept, AliasLookup(production, shipping));
    }
    assert Reconcile(production, shipping, includeFlagged).flaggedRows == Filter(joined, Flagged);
    if !includeFlagged {
      FilterPartition(joined, Flagged);
    }
  }

  /** The joined rows under the consolidated rows, in order. */
  function RowsOf(consolidated: seq<ConsolidatedRow>): (r: seq<JoinedRow>)
    ensures |r| == |consolidated|
  {
    seq(|consolidated|, k requires 0 <= k < |consolidated| => consolidated[k].row)
  }

  lemma RowsOfWithAliases(rows: seq<JoinedRow>, lookup: map<string, set<string>>)
    ensures RowsOf(WithAliases(rows, lookup)) == rows
  {
  }

  /** Some pair of `aliases` has lot `lot` (and raw string `raw`). */
  predicate HasLot(aliases: seq<Alias>, lot: string) {
    exists i :: 0 <= i < |aliases| && aliases[i].lot == Some(lot)
  }

  predicate HasPair(aliases: seq<Alias>, lot: string, raw: string) {
    exists i :: 0 <= i < |aliases| && aliases[i] == Alias(Some(lot), raw)
  }

  lemma AliasesConcat(a: seq<Alias>, b: seq<Alias>, lot: string, raw: string)
    ensures HasLot(a + b, lot) <==> HasLot(a, lot) || HasLot(b, lot)
    ensures HasPair(a + b, lot, raw) <==> HasPair(a, lot, raw) || HasPair(b, lot, raw)
  {
    var c := a + b;
    if HasLot(c, lot) {
      var i :| 0 <= i < |c| && c[i].lot == Some(lot);
      if i >= |a| {
        assert b[i - |a|].lot == Some(lot);
      }
    }
    if HasLot(a, lot) {
      var i :| 0 <= i < |a| && a[i].lot == Some(lot);
      assert c[i].lot == Some(lot);
    }
    if HasLot(b, lot) {
      var i :| 0 <= i < |b| && b[i].lot == Some(lot);
      assert c[|a| + i].lot == Some(lot);
    }
    if HasPair(c, lot, raw) {
      var i :| 0 <= i < |c| && c[i] == Alias(Some(lot), raw);
      if i >= |a| {
        assert b[i - |a|] == Alias(Some(lot), raw);
      }
    }
    if HasPair(a, lot, raw) {
      var i :| 0 <= i < |a| && a[i] == Alias(Some(lot), raw);
      assert c[i] == Alias(Some(lot), raw);
    }
    if HasPair(b, lot, raw) {
      var i :| 0 <= i < |b| && b[i] == Alias(Some(lot), raw);
      assert c[|a| + i] == Alias(Some(lot), raw);
    }
  }

  /** Some production row of `lot` exists (with raw lot text `raw`). */
  predicate Produced(production: seq<ProductionRow>, lot: string) {
    exists i :: 0 <= i < |production| && production[i].canonicalLotId == Some(lot)
  }

  predicate ProducedAs(production: seq<ProductionRow>, lot: string, raw: string) {
    exists i :: 0 <= i < |production| && production[i].canonicalLotId == Some(lot) && PyStr(production[i].rawLotId) == raw
  }

  /** Some shipping row of `lot` exists (with raw lot text `raw`). */
  predicate Shipped(shipping: seq<ShippingRow>, lot: string) {
    exists j :: 0 <= j < |shipping| && shipping[j].canonicalLotId == Some(lot)
  }

  predicate ShippedAs(shipping: seq<ShippingRow>, lot: string, raw: string) {
    exists j :: 0 <= j < |shipping| && shipping[j].canonicalLotId == Some(lot) && PyStr(shipping[j].rawLotId) == raw
  }

  lemma ProductionAliasesOf(production: seq<ProductionRow>, lot: string, raw: string)
    ensures HasLot(ProductionAliases(production), lot) <==> Produced(production, lot)
    ensures HasPair(ProductionAliases(production), lot, raw) <==> ProducedAs(production, lot, raw)
  {
    var pa := ProductionAliases(production);
    if Produced(production, lot) {
      var i :| 0 <= i < |production| && production[i].canonicalLotId == Some(lot);
      assert pa[i].lot == Some(lot);
    }
    if ProducedAs(production, lot, raw) {
      var i :| 0 <= i < |production| && production[i].canonicalLotId == Some(lot) && PyStr(production[i].rawLotId) == raw;
      assert pa[i] == Alias(Some(lot), raw);
    }
  }

  lemma ShippingAliasesOf(shipping: seq<ShippingRow>, lot: string, raw: string)
    ensures HasLot(ShippingAliases(shipping), lot) <==> Shipped(shipping, lot)
    ensures HasPair(ShippingAliases(shipping), lot, raw) <==> ShippedAs(shipping, lot, raw)
  {
    var sa := ShippingAliases(shipping);
    if Shipped(shipping, lot) {
      var j :| 0 <= j < |shipping| && shipping[j].canonicalLotId == Some(lot);
      assert sa[j].lot == Some(lot);
    }
    if ShippedAs(shipping, lot, raw) {
      var j :| 0 <= j < |shipping| && shipping[j].canonicalLotId == Some(lot) && PyStr(shipping[j].rawLotId) == raw;
      assert sa[j] == Alias(Some(lot), raw);
    }
  }

  /** The alias map has a key for each lot seen in either table, and holds
      under it exactly the raw strings of that lot's rows in both tables. */
  lemma AliasLookupContents(production: seq<ProductionRow>, shipping: seq<ShippingRow>, lot: string)
    ensures var lookup := AliasLookup(production, shipping);
      && (lot in lookup <==> Produced(production, lot) || Shipped(shipping, lot))
      && (lot in lookup ==> forall raw :: raw in lookup[lot] <==> ProducedAs(production, lot, raw) || ShippedAs(shipping, lot, raw))
  {
    var pa := ProductionAliases(production);
    var sa := ShippingAliases(shipping);
    AliasFoldContents(pa + sa);
    forall raw ensures lot in AliasFold(pa + sa) ==>
                         (raw in AliasFold(pa + sa)[lot] <==> ProducedAs(production, lot, raw) || ShippedAs(shipping, lot, raw))
    {
      AliasesConcat(pa, sa, lot, raw);
      ProductionAliasesOf(production, lot, raw);
      ShippingAliasesOf(shipping, lot, raw);
    }
    AliasesConcat(pa, sa, lot, "");
    ProductionAliasesOf(production, lot, "");
    ShippingAliasesOf(shipping, lot, "");
  }

  /** The aliases of a consolidated row are the distinct raw lot strings of
      every production or shipping row of its lot, sorted; a row without a
      lot has none. */
  lemma AliasRule(production: seq<ProductionRow>, shipping: seq<ShippingRow>, includeFlagged: bool, k: nat)
    requires k < |Reconcile(production, shipping, includeFlagged).consolidated|
    ensures var c := Reconcile(production, shipping, includeFlagged).consolidated[k];
      var lot := c.row.production.canonicalLotId;
      && StrictlyAscending(c.rawLotAliases)
      && (lot.None? ==> c.rawLotAliases == [])
      && (lot.Some? ==> forall raw :: raw in c.rawLotAliases <==>
                          ProducedAs(production, lot.value, raw) || ShippedAs(shipping, lot.value, raw))
  {
    var result := Reconcile(production, shipping, includeFlagged);
    var lookup := AliasLookup(production, shipping);
    var c := result.consolidated[k];
    assert c.rawLotAliases == RawLotAliases(lookup, c.row.production.canonicalLotId);
    var lot := c.row.production.canonicalLotId;
    if lot.Some? {
      AliasLookupContents(production, shipping, lot.value);
      if lot.value !in lookup {
        forall raw ensures !ProducedAs(production, lot.value, raw) && !ShippedAs(shipping, lot.value, raw) {
        }
      }
    }
  }
}
