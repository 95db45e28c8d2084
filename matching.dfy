/** Lot-level views of the prepared tables: the latest shipping row of each
    lot, which the join looks up, and the per-lot conflict report. */
module Matching {
  import opened Text
  import opened Collections
  import opened Calendar
  import opened Preparation

  // ---------------------------------------------------------------------
  // Latest shipping row per lot

  /** `a` sorts before `b` under ship date descending with missing dates
      last, and is not tied with it. */
  predicate LaterDate(a: Option<Day>, b: Option<Day>) {
    a.Some? && (b.None? || a.value > b.value)
  }

  /** The lots of the shipping rows that have one. */
  function ShippingLots(shipping: seq<ShippingRow>): set<string> {
    set i | 0 <= i < |shipping| && shipping[i].canonicalLotId.Some? :: shipping[i].canonicalLotId.value
  }

  /** What the kept rows satisfy: exactly the lots of the shipping rows are
      present, each position holds a row of that lot with the latest date (a
      missing date only when no row of the lot has one), and every earlier
      row of the lot has a strictly earlier or missing date, so ties go to
      the first row in input order. */
  ghost predicate IsLatestByLot(m: map<string, nat>, shipping: seq<ShippingRow>) {
    && (forall lot :: lot in m <==> lot in ShippingLots(shipping))
    && (forall lot :: lot in m ==> m[lot] < |shipping| && shipping[m[lot]].canonicalLotId == Some(lot))
    && (forall lot, i :: lot in m && 0 <= i < |shipping| && shipping[i].canonicalLotId == Some(lot) ==>
          !LaterDate(shipping[i].shipDate, shipping[m[lot]].shipDate))
    && (forall lot, i :: lot in m && 0 <= i < m[lot] && shipping[i].canonicalLotId == Some(lot) ==>
          LaterDate(shipping[m[lot]].shipDate, shipping[i].shipDate))
  }

  /** The update for one more shipping row at position `n`. */
  function KeepLatest(m: map<string, nat>, shipping: seq<ShippingRow>, n: nat): map<string, nat>
    requires n < |shipping| && forall lot :: lot in m ==> m[lot] < |shipping|
  {
    var row := shipping[n];
    if row.canonicalLotId.None? then m
    else
      var lot := row.canonicalLotId.value;
      if lot !in m || LaterDate(row.shipDate, shipping[m[lot]].shipDate) then m[lot := n] else m
  }

  lemma ShippingLotsSnoc(shipping: seq<ShippingRow>)
    requires shipping != []
    ensures var n := |shipping| - 1;
      ShippingLots(shipping) == ShippingLots(shipping[..n])
        + (if shipping[n].canonicalLotId.Some? then {shipping[n].canonicalLotId.value} else {})
  {
    var n := |shipping| - 1;
    var init := shipping[..n];
    forall lot | lot in ShippingLots(shipping)
      ensures lot in ShippingLots(init) || shipping[n].canonicalLotId == Some(lot)
    {
      var i :| 0 <= i < |shipping| && shipping[i].canonicalLotId.Some? && shipping[i].canonicalLotId.value == lot;
      if i < n { assert init[i] == shipping[i]; }
    }
    forall lot | lot in ShippingLots(init) ensures lot in ShippingLots(shipping) {
      var i :| 0 <= i < |init| && init[i].canonicalLotId.Some? && init[i].canonicalLotId.value == lot;
      assert shipping[i] == init[i];
    }
  }

  /** Taking one more row keeps the latest-row property. */
  lemma KeepLatestStep(m: map<string, nat>, shipping: seq<ShippingRow>)
    requires shipping != [] && IsLatestByLot(m, shipping[..|shipping| - 1])
    ensures IsLatestByLot(KeepLatest(m, shipping, |shipping| - 1), shipping)
  {
    KeepLatestKeys(m, shipping);
    KeepLatestPositions(m, shipping);
    KeepLatestNoLater(m, shipping);
    KeepLatestEarlierStrict(m, shipping);
  }

  lemma KeepLatestKeys(m: map<string, nat>, shipping: seq<ShippingRow>)
    requires shipping != [] && IsLatestByLot(m, shipping[..|shipping| - 1])
    ensures var m' := KeepLatest(m, shipping, |shipping| - 1);
      forall lot :: lot in m' <==> lot in ShippingLots(shipping)
  {
    ShippingLotsSnoc(shipping);
  }

  lemma KeepLatestPositions(m: map<string, nat>, shipping: seq<ShippingRow>)
    requires shipping != [] && IsLatestByLot(m, shipping[..|shipping| - 1])
    ensures var m' := KeepLatest(m, shipping, |shipping| - 1);
      forall lot :: lot in m' ==> m'[lot] < |shipping| && shipping[m'[lot]].canonicalLotId == Some(lot)
  {
    var n := |shipping| - 1;
    var init := shipping[..n];
    var m' := KeepLatest(m, shipping, n);
    forall lot | lot in m'
      ensures m'[lot] < |shipping| && shipping[m'[lot]].canonicalLotId == Some(lot)
    {
      if lot in m && m'[lot] == m[lot] {
        assert init[m[lot]] == shipping[m[lot]];
      }
    }
  }

  lemma KeepLatestNoLater(m: map<string, nat>, shipping: seq<ShippingRow>)
    requires shipping != [] && IsLatestByLot(m, shipping[..|shipping| - 1])
    ensures var m' := KeepLatest(m, shipping, |shipping| - 1);
      forall lot, i :: lot in m' && 0 <= i < |shipping| && shipping[i].canonicalLotId == Some(lot) ==>
        !LaterDate(shipping[i].shipDate, shipping[m'[lot]].shipDate)
  {
    var n := |shipping| - 1;
    var init := shipping[..n];
    var m' := KeepLatest(m, shipping, n);
    forall lot, i | lot in m' && 0 <= i < |shipping| && shipping[i].canonicalLotId == Some(lot)
      ensures !LaterDate(shipping[i].shipDate, shipping[m'[lot]].shipDate)
    {
      if i < n {
        assert init[i] == shipping[i];
        assert lot in m;
        assert init[m[lot]] == shipping[m[lot]];
        assert !LaterDate(init[i].shipDate, init[m[lot]].shipDate);
      }
    }
  }

  lemma KeepLatestEarlierStrict(m: map<string, nat>, shipping: seq<ShippingRow>)
    requires shipping != [] && IsLatestByLot(m, shipping[..|shipping| - 1])
    ensures var m' := KeepLatest(m, shipping, |shipping| - 1);
      forall lot, i :: lot in m' && 0 <= i < m'[lot] && shipping[i].canonicalLotId == Some(lot) ==>
        LaterDate(shipping[m'[lot]].shipDate, shipping[i].shipDate)
  {
    var n := |shipping| - 1;
    var init := shipping[..n];
    var m' := KeepLatest(m, shipping, n);
    forall lot, i | lot in m' && 0 <= i < m'[lot] && shipping[i].canonicalLotId == Some(lot)
      ensures LaterDate(shipping[m'[lot]].shipDate, shipping[i].shipDate)
    {
      KeepLatestPositions(m, shipping);
      assert init[i] == shipping[i];
      assert lot in m;
      assert init[m[lot]] == shipping[m[lot]];
      if m'[lot] == n {
        assert !LaterDate(init[i].shipDate, init[m[lot]].shipDate);
      } else {
        assert m'[lot] == m[lot];
        assert LaterDate(init[m[lot]].shipDate, init[i].shipDate);
      }
    }
  }

  /** `_latest_shipping_by_lot`, as the position of the kept row of each lot;
      the rows are taken in input order. */
  function LatestShippingByLot(shipping: seq<ShippingRow>): (m: map<string, nat>)
    ensures IsLatestByLot(m, shipping)
  {
    if shipping == [] then map[]
    else
      var m := LatestShippingByLot(shipping[..|shipping| - 1]);
      KeepLatestStep(m, shipping);
      KeepLatest(m, shipping, |shipping| - 1)
  }

  /** A latest-row map for `shipping`: every position is a row of it. */
  predicate PositionsIn(latest: map<string, nat>, shipping: seq<ShippingRow>) {
    forall lot :: lot in latest ==> latest[lot] < |shipping|
  }

  // ---------------------------------------------------------------------
  // Conflicts

  /** One line of the conflict report. */
  datatype ConflictRecord = ConflictRecord(
    canonicalLotId: string,
    conflictProductionLines: seq<string>,
    conflictShipStatuses: seq<string>,
    productionSources: seq<SourceRef>,
    shippingSources: seq<SourceRef>)

  /** Every lot that occurs in either prepared table. */
  function AllLots(production: seq<ProductionRow>, shipping: seq<ShippingRow>): set<string> {
    (set i | 0 <= i < |production| && production[i].canonicalLotId.Some? :: production[i].canonicalLotId.value)
    + ShippingLots(shipping)
  }

  /** The distinct non-missing production lines of a lot. */
  function ProductionLines(production: seq<ProductionRow>, lot: string): set<string> {
    set i | 0 <= i < |production| && production[i].canonicalLotId == Some(lot) && production[i].productionLine.Some?
      :: production[i].productionLine.value
  }

  /** The distinct ship statuses of a lot. */
  function ShipStatuses(shipping: seq<ShippingRow>, lot: string): set<string> {
    set i | 0 <= i < |shipping| && shipping[i].canonicalLotId == Some(lot) :: shipping[i].shipStatus
  }

  /** A lot conflicts when it has more than one line or more than one status. */
  predicate IsConflicted(production: seq<ProductionRow>, shipping: seq<ShippingRow>, lot: string) {
    |ProductionLines(production, lot)| > 1 || |ShipStatuses(shipping, lot)| > 1
  }

  /** The production group of a lot, in input order. */
  function ProductionGroup(production: seq<ProductionRow>, lot: string): seq<ProductionRow> {
    Filter(production, (r: ProductionRow) => r.canonicalLotId == Some(lot))
  }

  function ShippingGroup(shipping: seq<ShippingRow>, lot: string): seq<ShippingRow> {
    Filter(shipping, (r: ShippingRow) => r.canonicalLotId == Some(lot))
  }

  function SourcesOf<T>(group: seq<T>, source: T -> SourceRef): (r: seq<SourceRef>)
    ensures |r| == |group|
    ensures forall k :: 0 <= k < |group| ==> r[k] == source(group[k])
  {
    seq(|group|, k requires 0 <= k < |group| => source(group[k]))
  }

  /** The (file, sheet, row) triples of a lot's production rows without
      repeats, in first occurrence order. */
  function ProductionSources(production: seq<ProductionRow>, lot: string): (r: seq<SourceRef>)
    ensures NoDuplicates(r)
    ensures forall s :: s in r <==> exists i :: 0 <= i < |production| && production[i].canonicalLotId == Some(lot)
                                                 && production[i].source == s
  {
    var sources := SourcesOf(ProductionGroup(production, lot), (r: ProductionRow) => r.source);
    ProductionSourcesMembership(production, lot);
    Dedup(sources)
  }

  function ShippingSources(shipping: seq<ShippingRow>, lot: string): (r: seq<SourceRef>)
    ensures NoDuplicates(r)
    ensures forall s :: s in r <==> exists i :: 0 <= i < |shipping| && shipping[i].canonicalLotId == Some(lot)
                                                 && shipping[i].source == s
  {
    var sources := SourcesOf(ShippingGroup(shipping, lot), (r: ShippingRow) => r.source);
    ShippingSourcesMembership(shipping, lot);
    Dedup(sources)
  }

  lemma ProductionSourcesMembership(production: seq<ProductionRow>, lot: string)
    ensures var sources := SourcesOf(ProductionGroup(production, lot), (r: ProductionRow) => r.source);
      forall s :: s in sources <==> exists i :: 0 <= i < |production| && production[i].canonicalLotId == Some(lot)
                                                && production[i].source == s
  {
    var group := ProductionGroup(production, lot);
    var sources := SourcesOf(group, (r: ProductionRow) => r.source);
    forall s ensures s in sources <==> exists i :: 0 <= i < |production| && production[i].canonicalLotId == Some(lot)
                                                   && production[i].source == s
    {
      if s in sources {
        var k :| 0 <= k < |sources| && sources[k] == s;
        assert group[k] in group;
        var i :| 0 <= i < |production| && production[i] == group[k];
      }
      if exists i :: 0 <= i < |production| && production[i].canonicalLotId == Some(lot) && production[i].source == s {
        var i :| 0 <= i < |production| && production[i].canonicalLotId == Some(lot) && production[i].source == s;
        assert production[i] in group;
        var k :| 0 <= k < |group| && group[k] == production[i];
        assert sources[k] == s;
      }
    }
  }

  lemma ShippingSourcesMembership(shipping: seq<ShippingRow>, lot: string)
    ensures var sources := SourcesOf(ShippingGroup(shipping, lot), (r: ShippingRow) => r.source);
      forall s :: s in sources <==> exists i :: 0 <= i < |shipping| && shipping[i].canonicalLotId == Some(lot)
                                                && shipping[i].source == s
  {
    var group := ShippingGroup(shipping, lot);
    var sources := SourcesOf(group, (r: ShippingRow) => r.source);
    forall s ensures s in sources <==> exists i :: 0 <= i < |shipping| && shipping[i].canonicalLotId == Some(lot)
                                                   && shipping[i].source == s
    {
      if s in sources {
        var k :| 0 <= k < |sources| && sources[k] == s;
        assert group[k] in group;
        var i :| 0 <= i < |shipping| && shipping[i] == group[k];
      }
      if exists i :: 0 <= i < |shipping| && shipping[i].canonicalLotId == Some(lot) && shipping[i].source == s {
        var i :| 0 <= i < |shipping| && shipping[i].canonicalLotId == Some(lot) && shipping[i].source == s;
        assert shipping[i] in group;
        var k :| 0 <= k < |group| && group[k] == shipping[i];
        assert sources[k] == s;
      }
    }
  }

  /** The report line of a lot: its sorted lines and statuses and its source
      triples on both sides. */
  function ConflictRecordFor(production: seq<ProductionRow>, shipping: seq<ShippingRow>, lot: string): ConflictRecord {
    ConflictRecord(lot, SortedElements(ProductionLines(production, lot)), SortedElements(ShipStatuses(shipping, lot)),
                   ProductionSources(production, lot), ShippingSources(shipping, lot))
  }

  /** A record lists its lot's lines and statuses sorted and without
      repeats, and the distinct source triples of its rows on each side. */
  lemma ConflictRecordContents(production: seq<ProductionRow>, shipping: seq<ShippingRow>, lot: string)
    ensures var r := ConflictRecordFor(production, shipping, lot);
      && r.canonicalLotId == lot
      && StrictlyAscending(r.conflictProductionLines)
      && (forall x :: x in r.conflictProductionLines <==> x in ProductionLines(production, lot))
      && StrictlyAscending(r.conflictShipStatuses)
      && (forall x :: x in r.conflictShipStatuses <==> x in ShipStatuses(shipping, lot))
      && NoDuplicates(r.productionSources)
      && (forall s :: s in r.productionSources <==>
            exists i :: 0 <= i < |production| && production[i].canonicalLotId == Some(lot) && production[i].source == s)
      && NoDuplicates(r.shippingSources)
      && (forall s :: s in r.shippingSources <==>
            exists i :: 0 <= i < |shipping| && shipping[i].canonicalLotId == Some(lot) && shipping[i].source == s)
  {
  }

  /** The conflicted lots among `lots`, in that order. */
  function ConflictedLots(production: seq<ProductionRow>, shipping: seq<ShippingRow>, lots: seq<string>): seq<string> {
    Filter(lots, (lot: string) => IsConflicted(production, shipping, lot))
  }

  /** The report lines of `lots`, one per lot. */
  function RecordsFor(production: seq<ProductionRow>, shipping: seq<ShippingRow>, lots: seq<string>): (r: seq<ConflictRecord>)
    ensures |r| == |lots|
  {
    seq(|lots|, k requires 0 <= k < |lots| => ConflictRecordFor(production, shipping, lots[k]))
  }

  /** The report lines of the conflicted lots among `lots`, in that order. */
  function ConflictsAmong(production: seq<ProductionRow>, shipping: seq<ShippingRow>, lots: seq<string>): seq<ConflictRecord> {
    RecordsFor(production, shipping, ConflictedLots(production, shipping, lots))
  }

  /** The lots of a report, in report order. */
  function ReportLots(records: seq<ConflictRecord>): seq<string> {
    seq(|records|, k requires 0 <= k < |records| => records[k].canonicalLotId)
  }

  lemma ReportLotsOfRecords(production: seq<ProductionRow>, shipping: seq<ShippingRow>, lots: seq<string>)
    ensures ReportLots(RecordsFor(production, shipping, lots)) == lots
  {
    var r := RecordsFor(production, shipping, lots);
    forall k | 0 <= k < |lots| ensures ReportLots(r)[k] == lots[k] {
      ConflictRecordContents(production, shipping, lots[k]);
    }
  }

  /** `_detect_conflicts` as specified: the report over all lots in ascending
      order, with empty source lists for a side where the lot has no rows. */
  function Conflicts(production: seq<ProductionRow>, shipping: seq<ShippingRow>): seq<ConflictRecord> {
    ConflictsAmong(production, shipping, SortedElements(AllLots(production, shipping)))
  }

  /** The conflict report lists each conflicted lot once, in ascending order,
      and no other lot; each line is the record of its lot. */
  lemma ConflictsSpec(production: seq<ProductionRow>, shipping: seq<ShippingRow>)
    ensures var r := Conflicts(production, shipping);
      && StrictlyAscending(ReportLots(r))
      && (forall lot :: lot in ReportLots(r) <==> lot in AllLots(production, shipping) && IsConflicted(production, shipping, lot))
      && (forall k :: 0 <= k < |r| ==> r[k] == ConflictRecordFor(production, shipping, ReportLots(r)[k]))
  {
    var lots := SortedElements(AllLots(production, shipping));
    var conflicted := ConflictedLots(production, shipping, lots);
    FilterAscending(lots, (lot: string) => IsConflicted(production, shipping, lot));
    ReportLotsOfRecords(production, shipping, conflicted);
  }

  /** One more lot adds its record to the report when it is conflicted. */
  lemma ConflictsAmongSnoc(production: seq<ProductionRow>, shipping: seq<ShippingRow>, lots: seq<string>, lot: string)
    ensures ConflictsAmong(production, shipping, lots + [lot])
            == if IsConflicted(production, shipping, lot)
               then ConflictsAmong(production, shipping, lots) + [ConflictRecordFor(production, shipping, lot)]
               else ConflictsAmong(production, shipping, lots)
  {
    var all := lots + [lot];
    assert all[..|all| - 1] == lots;
    var before := ConflictedLots(production, shipping, lots);
    if IsConflicted(production, shipping, lot) {
      assert ConflictedLots(production, shipping, all) == before + [lot];
      RecordsForSnoc(production, shipping, before, lot);
    } else {
      assert ConflictedLots(production, shipping, all) == before;
    }
  }

  /** `_detect_conflicts`: loop over the sorted lots, appending a record for
      each lot with competing values. */
  method DetectConflicts(production: seq<ProductionRow>, shipping: seq<ShippingRow>) returns (records: seq<ConflictRecord>)
    ensures records == Conflicts(production, shipping)
  {
    records := [];
    var lotIds := SortedElements(AllLots(production, shipping));
    for i := 0 to |lotIds|
      invariant records == ConflictsAmong(production, shipping, lotIds[..i])
    {
      var lot := lotIds[i];
      var prodLines := ProductionLines(production, lot);
      var shipStatuses := ShipStatuses(shipping, lot);
      ConflictsAmongStep(production, shipping, lotIds, i);
      if |prodLines| > 1 || |shipStatuses| > 1 {
        records := records + [ConflictRecord(lot, SortedElements(prodLines), SortedElements(shipStatuses),
                                             ProductionSources(production, lot), ShippingSources(shipping, lot))];
      }
    }
    assert lotIds[..|lotIds|] == lotIds;
  }

  /** The loop step of `DetectConflicts`: the prefix grows by one lot. */
  lemma ConflictsAmongStep(production: seq<ProductionRow>, shipping: seq<ShippingRow>, lots: seq<string>, i: nat)
    requires i < |lots|
    ensures ConflictsAmong(production, shipping, lots[..i + 1])
            == if IsConflicted(production, shipping, lots[i])
               then ConflictsAmong(production, shipping, lots[..i]) + [ConflictRecordFor(production, shipping, lots[i])]
               else ConflictsAmong(production, shipping, lots[..i])
  {
    assert lots[..i + 1] == lots[..i] + [lots[i]];
    ConflictsAmongSnoc(production, shipping, lots[..i], lots[i]);
  }

  // ---------------------------------------------------------------------
  // The code as written

  /** The outcome of code that may raise. */
  datatype Raised<T> = Returned(value: T) | KeyErrorRaised

  /** `_detect_conflicts` as written: for a lot with no rows on one side the
      group is an empty `pd.DataFrame()`, and selecting the source columns of
      it raises `KeyError`. */
  function ConflictsAmongAsWritten(production: seq<ProductionRow>, shipping: seq<ShippingRow>, lots: seq<string>)
    : Raised<seq<ConflictRecord>>
  {
    if lots == [] then Returned([])
    else
      var n := |lots| - 1;
      match ConflictsAmongAsWritten(production, shipping, lots[..n])
      case KeyErrorRaised => KeyErrorRaised
      case Returned(init) =>
        var lot := lots[n];
        if !IsConflicted(production, shipping, lot) then Returned(init)
        else if ProductionGroup(production, lot) == [] || ShippingGroup(shipping, lot) == [] then KeyErrorRaised
        else Returned(init + [ConflictRecordFor(production, shipping, lot)])
  }

  function ConflictsAsWritten(production: seq<ProductionRow>, shipping: seq<ShippingRow>): Raised<seq<ConflictRecord>> {
    ConflictsAmongAsWritten(production, shipping, SortedElements(AllLots(production, shipping)))
  }

  /** A lot that is on one side only. */
  predicate OneSided(production: seq<ProductionRow>, shipping: seq<ShippingRow>, lot: string) {
    ProductionGroup(production, lot) == [] || ShippingGroup(shipping, lot) == []
  }

  lemma RecordsForSnoc(production: seq<ProductionRow>, shipping: seq<ShippingRow>, lots: seq<string>, lot: string)
    ensures RecordsFor(production, shipping, lots + [lot])
            == RecordsFor(production, shipping, lots) + [ConflictRecordFor(production, shipping, lot)]
  {
  }

  /** A conflicted lot on one side only: the lot the code as written fails on. */
  predicate RaisesFor(production: seq<ProductionRow>, shipping: seq<ShippingRow>, lot: string) {
    IsConflicted(production, shipping, lot) && OneSided(production, shipping, lot)
  }

  predicate SomeLotRaises(production: seq<ProductionRow>, shipping: seq<ShippingRow>, lots: seq<string>) {
    exists k :: 0 <= k < |lots| && RaisesFor(production, shipping, lots[k])
  }

  /** The code as written raises exactly when some conflicted lot is on one
      side only. */
  lemma {:induction false} ConflictsAmongAsWrittenRaises(production: seq<ProductionRow>, shipping: seq<ShippingRow>, lots: seq<string>)
    ensures ConflictsAmongAsWritten(production, shipping, lots).KeyErrorRaised? <==> SomeLotRaises(production, shipping, lots)
  {
    if lots != [] {
      var n := |lots| - 1;
      ConflictsAmongAsWrittenRaises(production, shipping, lots[..n]);
      RaisingLotSnoc(production, shipping, lots);
    }
  }

  /** A raising lot of `lots` is a raising lot of all but the last, or the last. */
  lemma RaisingLotSnoc(production: seq<ProductionRow>, shipping: seq<ShippingRow>, lots: seq<string>)
    requires lots != []
    ensures SomeLotRaises(production, shipping, lots)
            <==> SomeLotRaises(production, shipping, lots[..|lots| - 1]) || RaisesFor(production, shipping, lots[|lots| - 1])
  {
    var n := |lots| - 1;
    var init := lots[..n];
    if SomeLotRaises(production, shipping, lots) {
      var k :| 0 <= k < |lots| && RaisesFor(production, shipping, lots[k]);
      if k < n {
        assert init[k] == lots[k];
      }
    }
    if SomeLotRaises(production, shipping, init) {
      var k :| 0 <= k < n && RaisesFor(production, shipping, init[k]);
      assert init[k] == lots[k];
    }
  }

  /** When the code as written returns, it returns the specified report. */
  lemma {:induction false} ConflictsAmongAsWrittenReturns(production: seq<ProductionRow>, shipping: seq<ShippingRow>, lots: seq<string>)
    ensures ConflictsAmongAsWritten(production, shipping, lots).Returned? ==>
              ConflictsAmongAsWritten(production, shipping, lots).value == ConflictsAmong(production, shipping, lots)
  {
    if lots != [] {
      var n := |lots| - 1;
      var lot := lots[n];
      ConflictsAmongAsWrittenReturns(production, shipping, lots[..n]);
      var before := ConflictedLots(production, shipping, lots[..n]);
      if IsConflicted(production, shipping, lot) {
        assert ConflictedLots(production, shipping, lots) == before + [lot];
        RecordsForSnoc(production, shipping, before, lot);
      } else {
        assert ConflictedLots(production, shipping, lots) == before;
      }
    }
  }

  /** The lots of a shipping table whose rows all carry `lot`. */
  lemma SingleLotTable(a: ShippingRow, b: ShippingRow, lot: string)
    requires a.canonicalLotId == Some(lot) && b.canonicalLotId == Some(lot)
    ensures AllLots([], [a, b]) == {lot}
    ensures SortedElements(AllLots([], [a, b])) == [lot]
  {
    var shipping := [a, b];
    assert shipping[0].canonicalLotId.value == lot;
    assert AllLots([], shipping) == {lot};
    var r := SortedElements({lot});
    assert lot in r;
  }

  /** A lot shipped under two statuses is conflicted. */
  lemma TwoStatuses(a: ShippingRow, b: ShippingRow, lot: string)
    requires a.canonicalLotId == Some(lot) && b.canonicalLotId == Some(lot) && a.shipStatus != b.shipStatus
    ensures ShipStatuses([a, b], lot) == {a.shipStatus, b.shipStatus}
    ensures IsConflicted([], [a, b], lot)
  {
    var shipping := [a, b];
    assert shipping[0].shipStatus == a.shipStatus && shipping[1].shipStatus == b.shipStatus;
    assert ShipStatuses(shipping, lot) == {a.shipStatus, b.shipStatus};
  }

  /** A lot shipped twice under different statuses and never produced (for
      instance two rows for LOT-20260209-001, one "Shipped" and one
      "On Hold"): the code as written raises, the specified report lists the
      lot with no production sources. */
  lemma ShippingOnlyConflict(a: ShippingRow, b: ShippingRow, lot: string)
    requires a.canonicalLotId == Some(lot) && b.canonicalLotId == Some(lot) && a.shipStatus != b.shipStatus
    ensures ConflictsAsWritten([], [a, b]) == KeyErrorRaised
    ensures ReportLots(Conflicts([], [a, b])) == [lot]
    ensures Conflicts([], [a, b])[0].productionSources == []
    ensures Conflicts([], [a, b])[0].conflictShipStatuses == SortedElements({a.shipStatus, b.shipStatus})
  {
    var shipping := [a, b];
    SingleLotTable(a, b, lot);
    TwoStatuses(a, b, lot);
    assert OneSided([], shipping, lot);
    ConflictsAmongAsWrittenRaises([], shipping, [lot]);
    assert [lot][0] == lot;
    ConflictsSpec([], shipping);
    var r := Conflicts([], shipping);
    assert ReportLots(r)[0] == lot;
  }
}
