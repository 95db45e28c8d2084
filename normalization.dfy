/** Normalisation of raw spreadsheet fields: dates with mixed layouts, lot
    identifiers in assorted spellings, and yes/no issue indicators. Each
    function is total: failures come back as reason strings. */
module Normalization {
  import opened Text
  import opened Collections
  import opened Calendar

  /** A scalar spreadsheet cell. `Missing` stands for both `None` and a float
      `NaN`; `Int` is a Python `int`, `Text` a `str`. */
  datatype Cell = Missing | Bool(b: bool) | Int(i: int) | Text(s: string)

  /** Python's `str(value)` for a non-missing cell. */
  function PyStr(value: Cell): string {
    match value
    case Missing => "None"
    case Bool(b) => if b then "True" else "False"
    case Int(i) => IntToDecimal(i)
    case Text(s) => s
  }

  /** Python's `repr(value)`. */
  function PyRepr(value: Cell): string {
    match value
    case Text(s) => ReprString(s)
    case _ => PyStr(value)
  }

  // ---------------------------------------------------------------------
  // Dates

  /** The outcome of `parse_mixed_date`: a date or the reason there is none. */
  datatype ParsedDate = ParsedDate(date: Option<Day>, reason: Option<string>)

  const DateEmptyReason := "Date is empty"
  const UnparseableDatePrefix := "Unparseable date value: "

  function FieldValue(s: string, lo: nat, hi: nat): Option<nat>
    requires lo <= hi <= |s|
  {
    if AllDigits(s[lo..hi]) then Some(DigitsValue(s[lo..hi])) else None
  }

  /** Year, month and day read from the given positions (widths 4, 2, 2). */
  function FieldsAt(s: string, y: nat, m: nat, d: nat): Option<(nat, nat, nat)>
    requires y + 4 <= |s| && m + 2 <= |s| && d + 2 <= |s|
  {
    match (FieldValue(s, y, y + 4), FieldValue(s, m, m + 2), FieldValue(s, d, d + 2))
    case (Some(yv), Some(mv), Some(dv)) => Some((yv, mv, dv))
    case _ => None
  }

  /** Year, month and day of text laid out as `YYYY-MM-DD`, `YYYY/MM/DD` or
      `MM/DD/YYYY` (digits in exactly those widths). */
  function DateFields(s: string): Option<(nat, nat, nat)> {
    if |s| != 10 then None
    else if (s[4] == '-' && s[7] == '-') || (s[4] == '/' && s[7] == '/') then FieldsAt(s, 0, 5, 8)
    else if s[2] == '/' && s[5] == '/' then FieldsAt(s, 6, 0, 3)
    else None
  }

  /** The part of `pd.to_datetime(value, errors="coerce")` that the model
      covers: text in one of the three layouts naming a real date inside the
      `Timestamp` range, or an `int`, read as nanoseconds since the epoch. */
  function ToDatetime(value: Cell): (r: Option<Day>)
    ensures r.Some? ==> FirstTimestampDay - 1 <= r.value <= LastTimestampDay
  {
    match value
    case Text(s) =>
      (match DateFields(s)
       case Some((y, m, d)) =>
         if ValidDate(y, m, d) && FirstTimestampDay <= DaysFromCivil(y, m, d) <= LastTimestampDay
         then Some(DaysFromCivil(y, m, d)) else None
       case None => None)
    case Int(i) =>
      if MinTimestampNanos <= i <= MaxTimestampNanos then Some(i / NanosPerDay) else None
    case _ => None
  }

  /** `parse_mixed_date`: never fails; exactly one of date and reason is
      present. */
  function ParseMixedDate(value: Cell): (r: ParsedDate)
    ensures r.date.Some? <==> r.reason.None?
    ensures value.Missing? ==> r == ParsedDate(None, Some(DateEmptyReason))
    ensures !value.Missing? && r.date.None? ==> r.reason == Some(UnparseableDatePrefix + PyRepr(value))
    ensures !value.Missing? ==> r.date == ToDatetime(value)
  {
    if value.Missing? then ParsedDate(None, Some(DateEmptyReason))
    else
      match ToDatetime(value)
      case Some(day) => ParsedDate(Some(day), None)
      case None => ParsedDate(None, Some(UnparseableDatePrefix + PyRepr(value)))
  }

  function FormatIso(y: nat, m: nat, d: nat): string {
    PadDecimal(y, 4) + "-" + PadDecimal(m, 2) + "-" + PadDecimal(d, 2)
  }

  function FormatYearSlash(y: nat, m: nat, d: nat): string {
    PadDecimal(y, 4) + "/" + PadDecimal(m, 2) + "/" + PadDecimal(d, 2)
  }

  function FormatUs(y: nat, m: nat, d: nat): string {
    PadDecimal(m, 2) + "/" + PadDecimal(d, 2) + "/" + PadDecimal(y, 4)
  }

  lemma {:induction false} FieldRoundTrip(s: string, lo: nat, n: nat, width: nat)
    requires lo + width <= |s| && n < Pow10(width)
    requires s[lo..lo + width] == PadDecimal(n, width)
    ensures FieldValue(s, lo, lo + width) == Some(n)
  {
    PadDecimalValue(n, width);
  }

  lemma IsoFields(y: nat, m: nat, d: nat)
    requires y < 10000 && m < 100 && d < 100
    ensures DateFields(FormatIso(y, m, d)) == Some((y, m, d))
  {
    var s := FormatIso(y, m, d);
    assert s[0..4] == PadDecimal(y, 4) && s[5..7] == PadDecimal(m, 2) && s[8..10] == PadDecimal(d, 2);
    FieldRoundTrip(s, 0, y, 4);
    FieldRoundTrip(s, 5, m, 2);
    FieldRoundTrip(s, 8, d, 2);
  }

  lemma YearSlashFields(y: nat, m: nat, d: nat)
    requires y < 10000 && m < 100 && d < 100
    ensures DateFields(FormatYearSlash(y, m, d)) == Some((y, m, d))
  {
    var s := FormatYearSlash(y, m, d);
    assert s[0..4] == PadDecimal(y, 4) && s[5..7] == PadDecimal(m, 2) && s[8..10] == PadDecimal(d, 2);
    FieldRoundTrip(s, 0, y, 4);
    FieldRoundTrip(s, 5, m, 2);
    FieldRoundTrip(s, 8, d, 2);
  }

  lemma UsFields(y: nat, m: nat, d: nat)
    requires y < 10000 && m < 100 && d < 100
    ensures DateFields(FormatUs(y, m, d)) == Some((y, m, d))
  {
    var s := FormatUs(y, m, d);
    assert s[6..10] == PadDecimal(y, 4) && s[0..2] == PadDecimal(m, 2) && s[3..5] == PadDecimal(d, 2);
    assert IsDigit(s[4]) by {
      assert s[4] == PadDecimal(d, 2)[1];
    }
    FieldRoundTrip(s, 6, y, 4);
    FieldRoundTrip(s, 0, m, 2);
    FieldRoundTrip(s, 3, d, 2);
  }

  /** A date written in any of the three layouts parses back to its own day
      number when it lies in the `Timestamp` range, and to nothing otherwise. */
  lemma DateLayoutsRoundTrip(y: nat, m: nat, d: nat)
    requires y < 10000 && ValidDate(y, m, d)
    ensures var parsed := if FirstTimestampDay <= DaysFromCivil(y, m, d) <= LastTimestampDay
                          then Some(DaysFromCivil(y, m, d)) else None;
      && ToDatetime(Text(FormatIso(y, m, d))) == parsed
      && ToDatetime(Text(FormatYearSlash(y, m, d))) == parsed
      && ToDatetime(Text(FormatUs(y, m, d))) == parsed
  {
    IsoFields(y, m, d);
    YearSlashFields(y, m, d);
    UsFields(y, m, d);
  }

  // ---------------------------------------------------------------------
  // Lot identifiers

  datatype LotStatus = Ok | NeedsReview

  /** `LotNormalization`: the canonical id, the status and the failure reason. */
  datatype LotNormalization = LotNormalization(canonicalLotId: Option<string>, status: LotStatus, reason: Option<string>)

  const LotEmptyReason := "Lot ID is empty"
  const LotBlankReason := "Lot ID is blank"
  const LotPatternReasonPrefix := "Lot ID does not match expected pattern: "

  /** `LOT-` + eight digits + `-` + three digits. */
  predicate IsCanonicalLot(s: string) {
    |s| == 16 && s[..4] == "LOT-" && AllDigits(s[4..12]) && s[12] == '-' && AllDigits(s[13..])
  }

  /** `str.replace("L0T", "LOT")`: non-overlapping occurrences, left to right. */
  function ReplaceTypo(s: string): (r: string)
    ensures |r| == |s|
  {
    if |s| >= 3 && s[..3] == "L0T" then "LOT" + ReplaceTypo(s[3..])
    else if s == [] then []
    else [s[0]] + ReplaceTypo(s[1..])
  }

  /** The class `[\s\-_]` that separator removal deletes. */
  predicate IsSeparator(c: char) {
    IsWhitespace(c) || c == '-' || c == '_'
  }

  predicate AllSeparators(s: string) {
    forall i :: 0 <= i < |s| ==> IsSeparator(s[i])
  }

  predicate NoSeparators(s: string) {
    forall i :: 0 <= i < |s| ==> !IsSeparator(s[i])
  }

  /** `re.sub(r"[\s\-_]+", "", s)`. */
  function RemoveSeparators(s: string): (r: string)
    ensures |r| <= |s|
    ensures NoSeparators(r)
  {
    if s == [] then []
    else (if IsSeparator(s[0]) then [] else [s[0]]) + RemoveSeparators(s[1..])
  }

  /** `re.sub(r"^LOT(\d{8})(\d{3})$", r"LOT-\1-\2", compact)`. */
  function Structure(compact: string): string {
    if |compact| == 14 && compact[..3] == "LOT" && AllDigits(compact[3..])
    then "LOT-" + compact[3..11] + "-" + compact[11..]
    else compact
  }

  /** The class `[-_ ]` of the optional separators in `LOT_PATTERN`. */
  predicate IsPatternSeparator(c: char) {
    c == '-' || c == '_' || c == ' '
  }

  function SkipOptionalSeparator(s: string, j: nat): (k: nat)
    ensures j <= k <= j + 1
    ensures k == j + 1 ==> j < |s|
  {
    if j < |s| && IsPatternSeparator(s[j]) then j + 1 else j
  }

  /** `LOT_PATTERN = LOT[-_ ]?(\d{8})[-_ ]?(\d{3})` tried at position `i`;
      the two groups when it matches. A separator is always taken when
      present, since a digit cannot match it. */
  function MatchAt(s: string, i: nat): (g: Option<(string, string)>)
    ensures g.Some? ==> |g.value.0| == 8 && AllDigits(g.value.0) && |g.value.1| == 3 && AllDigits(g.value.1)
  {
    if i + 3 <= |s| && s[i..i + 3] == "LOT" then
      var j := SkipOptionalSeparator(s, i + 3);
      if j + 8 <= |s| && AllDigits(s[j..j + 8]) then
        var k := SkipOptionalSeparator(s, j + 8);
        if k + 3 <= |s| && AllDigits(s[k..k + 3]) then Some((s[j..j + 8], s[k..k + 3])) else None
      else None
    else None
  }

  /** `LOT_PATTERN.search(s)` from position `i`: the leftmost match. */
  function Search(s: string, i: nat): (g: Option<(string, string)>)
    requires i <= |s|
    ensures g.Some? ==> |g.value.0| == 8 && AllDigits(g.value.0) && |g.value.1| == 3 && AllDigits(g.value.1)
    decreases |s| - i
  {
    if i == |s| then None
    else if MatchAt(s, i).Some? then MatchAt(s, i)
    else Search(s, i + 1)
  }

  /** `str(raw_lot_id).strip().upper()`. */
  function LotText(raw: Cell): string {
    UpperAscii(Strip(PyStr(raw)))
  }

  /** The lot text after the `L0T` correction and separator removal. */
  function CompactLot(raw: Cell): string {
    RemoveSeparators(ReplaceTypo(LotText(raw)))
  }

  /** `normalize_lot_id`. */
  function NormalizeLotId(raw: Cell): (r: LotNormalization)
    ensures r.canonicalLotId.Some? <==> r.status == Ok
    ensures r.reason.None? <==> r.status == Ok
    ensures r.canonicalLotId.Some? ==> IsCanonicalLot(r.canonicalLotId.value)
    ensures raw.Missing? ==> r == LotNormalization(None, NeedsReview, Some(LotEmptyReason))
    ensures !raw.Missing? && AllWhitespace(PyStr(raw)) ==> r == LotNormalization(None, NeedsReview, Some(LotBlankReason))
    ensures !raw.Missing? && !AllWhitespace(PyStr(raw)) && r.status == NeedsReview ==>
              r.reason == Some(LotPatternReasonPrefix + PyRepr(raw))
  {
    if raw.Missing? then LotNormalization(None, NeedsReview, Some(LotEmptyReason))
    else
      var rawText := LotText(raw);
      if rawText == [] then LotNormalization(None, NeedsReview, Some(LotBlankReason))
      else
        match Search(Structure(CompactLot(raw)), 0)
        case None => LotNormalization(None, NeedsReview, Some(LotPatternReasonPrefix + PyRepr(raw)))
        case Some((date, sequence)) =>
          CanonicalShape(date, sequence);
          LotNormalization(Some("LOT-" + date + "-" + sequence), Ok, None)
  }

  /** The id built from the two matched groups has the canonical shape. */
  lemma CanonicalShape(date: string, sequence: string)
    requires |date| == 8 && AllDigits(date) && |sequence| == 3 && AllDigits(sequence)
    ensures IsCanonicalLot("LOT-" + date + "-" + sequence)
  {
    var canonical := "LOT-" + date + "-" + sequence;
    assert canonical[4..12] == date && canonical[13..] == sequence;
  }

  /** `LOT` followed by eleven digits at position `i`. */
  predicate Lot11At(s: string, i: int) {
    0 <= i && i + 14 <= |s| && s[i..i + 3] == "LOT" && AllDigits(s[i + 3..i + 14])
  }

  function Lot11Id(s: string, i: int): string
    requires Lot11At(s, i)
  {
    "LOT-" + s[i + 3..i + 11] + "-" + s[i + 11..i + 14]
  }

  lemma MatchAtSeparatorFree(s: string, i: nat)
    requires forall k :: 0 <= k < |s| ==> !IsPatternSeparator(s[k])
    ensures MatchAt(s, i) == if Lot11At(s, i) then Some((s[i + 3..i + 11], s[i + 11..i + 14])) else None
  {
    if Lot11At(s, i) {
      assert s[i + 3..i + 11] == s[i + 3..i + 14][..8];
      assert s[i + 11..i + 14] == s[i + 3..i + 14][8..];
    } else if i + 3 <= |s| && s[i..i + 3] == "LOT" && i + 11 <= |s| && AllDigits(s[i + 3..i + 11]) && i + 14 <= |s| {
      assert s[i + 3..i + 14] == s[i + 3..i + 11] + s[i + 11..i + 14];
    }
  }

  /** On separator-free text the pattern search finds the leftmost `LOT`
      followed by eleven digits. */
  lemma SearchSeparatorFree(s: string, i: nat)
    requires i <= |s|
    requires forall k :: 0 <= k < |s| ==> !IsPatternSeparator(s[k])
    ensures Search(s, i).Some? <==> exists j :: i <= j && Lot11At(s, j)
    ensures forall j :: i <= j && Lot11At(s, j) && (forall k :: i <= k < j ==> !Lot11At(s, k)) ==>
              Search(s, i) == Some((s[j + 3..j + 11], s[j + 11..j + 14]))
  {
    SearchFinds(s, i);
    forall j | i <= j && Lot11At(s, j) && (forall k :: i <= k < j ==> !Lot11At(s, k))
      ensures Search(s, i) == Some((s[j + 3..j + 11], s[j + 11..j + 14]))
    {
      SearchLeftmost(s, i, j);
    }
  }

  lemma {:induction false} SearchFinds(s: string, i: nat)
    requires i <= |s|
    requires forall k :: 0 <= k < |s| ==> !IsPatternSeparator(s[k])
    ensures Search(s, i).Some? <==> exists j :: i <= j && Lot11At(s, j)
    decreases |s| - i
  {
    if i < |s| {
      MatchAtSeparatorFree(s, i);
      SearchFinds(s, i + 1);
      if !Lot11At(s, i) && exists j :: i <= j && Lot11At(s, j) {
        var j :| i <= j && Lot11At(s, j);
        assert i + 1 <= j;
      }
    }
  }

  lemma {:induction false} SearchLeftmost(s: string, i: nat, j: nat)
    requires i <= j && Lot11At(s, j) && (forall k :: i <= k < j ==> !Lot11At(s, k))
    requires forall k :: 0 <= k < |s| ==> !IsPatternSeparator(s[k])
    ensures Search(s, i) == Some((s[j + 3..j + 11], s[j + 11..j + 14]))
    decreases j - i
  {
    MatchAtSeparatorFree(s, i);
    if i < j {
      SearchLeftmost(s, i + 1, j);
    }
  }

  /** Structuring leaves the leftmost `LOT` + eleven digits where the search
      finds it. */
  lemma StructuredSearch(c: string)
    requires NoSeparators(c)
    ensures Search(Structure(c), 0).Some? <==> exists i :: Lot11At(c, i)
    ensures forall i :: Lot11At(c, i) && (forall j :: 0 <= j < i ==> !Lot11At(c, j)) ==>
              Search(Structure(c), 0) == Some((c[i + 3..i + 11], c[i + 11..i + 14]))
  {
    if |c| == 14 && c[..3] == "LOT" && AllDigits(c[3..]) {
      var st := Structure(c);
      assert st[0..3] == "LOT" && st[3] == '-' && st[4..12] == c[3..11] && st[12] == '-' && st[13..16] == c[11..14];
      assert c[3..11] == c[3..][..8] && c[11..14] == c[3..][8..];
      assert MatchAt(st, 0) == Some((c[3..11], c[11..14]));
      assert Lot11At(c, 0);
    } else {
      SearchSeparatorFree(c, 0);
    }
  }

  /** The acceptance rule: a non-blank lot is accepted exactly when its compact
      text holds `LOT` followed by eleven digits anywhere, and the canonical id
      is built from the leftmost such place. */
  lemma LotAcceptanceRule(raw: Cell)
    requires !raw.Missing? && !AllWhitespace(PyStr(raw))
    ensures NormalizeLotId(raw).status == Ok <==> exists i :: Lot11At(CompactLot(raw), i)
    ensures forall i :: Lot11At(CompactLot(raw), i) && (forall j :: 0 <= j < i ==> !Lot11At(CompactLot(raw), j)) ==>
              NormalizeLotId(raw).canonicalLotId == Some(Lot11Id(CompactLot(raw), i))
  {
    assert LotText(raw) != [];
    StructuredSearch(CompactLot(raw));
  }

  predicate IsLotPrefixSpelling(p: string) {
    |p| == 3 && (UpperAscii(p) == "LOT" || UpperAscii(p) == "L0T")
  }

  lemma {:induction false} ReplaceTypoNoL(s: string)
    requires forall k :: 0 <= k < |s| ==> s[k] != 'L'
    ensures ReplaceTypo(s) == s
  {
    if s != [] {
      assert s[1..] == s[1..];
      ReplaceTypoNoL(s[1..]);
      ReplaceTypoCons(s[0], s[1..]);
      assert s == [s[0]] + s[1..];
    }
  }

  lemma ReplaceTypoCons(c: char, rest: string)
    requires c != 'L'
    ensures ReplaceTypo([c] + rest) == [c] + ReplaceTypo(rest)
  {
    var s := [c] + rest;
    assert s[0] == c && s[1..] == rest;
    assert |s| >= 3 ==> s[..3][0] == c;
  }

  lemma ReplaceTypoPrefix(p: string, rest: string)
    requires p == "LOT" || p == "L0T"
    ensures ReplaceTypo(p + rest) == "LOT" + ReplaceTypo(rest)
  {
    var s := p + rest;
    assert s[..3] == p;
    if p == "LOT" {
      assert s[..3][1] != "L0T"[1];
      assert s[1..] == ['O'] + (['T'] + rest);
      ReplaceTypoCons('O', ['T'] + rest);
      ReplaceTypoCons('T', rest);
    } else {
      assert s[3..] == rest;
    }
  }

  lemma {:induction false} RemoveSeparatorsConcat(a: string, b: string)
    ensures RemoveSeparators(a + b) == RemoveSeparators(a) + RemoveSeparators(b)
  {
    if a == [] {
      assert a + b == b;
    } else {
      var head: string := if IsSeparator(a[0]) then [] else [a[0]];
      assert (a + b)[0] == a[0] && (a + b)[1..] == a[1..] + b;
      assert RemoveSeparators(a + b) == head + RemoveSeparators(a[1..] + b);
      RemoveSeparatorsConcat(a[1..], b);
      assert head + (RemoveSeparators(a[1..]) + RemoveSeparators(b)) == (head + RemoveSeparators(a[1..])) + RemoveSeparators(b);
    }
  }

  lemma {:induction false} RemoveSeparatorsAll(s: string)
    requires AllSeparators(s)
    ensures RemoveSeparators(s) == []
  {
    if s != [] {
      RemoveSeparatorsAll(s[1..]);
    }
  }

  lemma {:induction false} RemoveSeparatorsNone(s: string)
    requires NoSeparators(s)
    ensures RemoveSeparators(s) == s
  {
    if s != [] {
      RemoveSeparatorsNone(s[1..]);
      assert s == [s[0]] + s[1..];
    }
  }

  /** Text that upper-casing and the `L0T` correction leave alone. */
  predicate NoLowerNoL(s: string) {
    forall k :: 0 <= k < |s| ==> !('a' <= s[k] <= 'z') && s[k] != 'L'
  }

  lemma NoLowerInBody(sep1: string, date: string, sep2: string, sequence: string)
    requires AllSeparators(sep1) && AllSeparators(sep2) && AllDigits(date) && AllDigits(sequence)
    ensures NoLowerNoL(sep1 + date + sep2 + sequence)
  {
    var rest := sep1 + date + sep2 + sequence;
    forall k | 0 <= k < |rest| ensures !('a' <= rest[k] <= 'z') && rest[k] != 'L' {
      if k < |sep1| { assert rest[k] == sep1[k]; }
      else if k < |sep1| + |date| { assert rest[k] == date[k - |sep1|]; }
      else if k < |sep1| + |date| + |sep2| { assert rest[k] == sep2[k - |sep1| - |date|]; }
      else { assert rest[k] == sequence[k - |sep1| - |date| - |sep2|]; }
    }
  }

  lemma VariantText(lead: string, prefix: string, rest: string, trail: string)
    requires AllWhitespace(lead) && AllWhitespace(trail)
    requires IsLotPrefixSpelling(prefix)
    requires NoLowerNoL(rest)
    requires rest != [] && !IsWhitespace(rest[|rest| - 1])
    ensures LotText(Text(lead + prefix + rest + trail)) == UpperAscii(prefix) + rest
  {
    var core := prefix + rest;
    assert lead + prefix + rest + trail == lead + core + trail;
    assert prefix[0] == 'L' || prefix[0] == 'l' by {
      assert UpperAscii(prefix)[0] == 'L';
    }
    assert core[0] == prefix[0] && core[|core| - 1] == rest[|rest| - 1];
    StripAround(lead, core, trail);
    UpperAsciiConcat(prefix, rest);
    UpperAsciiNoLower(rest);
  }

  lemma VariantCompact(lead: string, prefix: string, sep1: string, date: string,
                       sep2: string, sequence: string, trail: string)
    requires AllWhitespace(lead) && AllWhitespace(trail)
    requires IsLotPrefixSpelling(prefix)
    requires AllSeparators(sep1) && AllSeparators(sep2)
    requires |date| == 8 && AllDigits(date) && |sequence| == 3 && AllDigits(sequence)
    ensures LotText(Text(lead + prefix + sep1 + date + sep2 + sequence + trail)) != []
    ensures CompactLot(Text(lead + prefix + sep1 + date + sep2 + sequence + trail)) == "LOT" + (date + sequence)
  {
    var rest := sep1 + date + sep2 + sequence;
    var raw := Text(lead + prefix + sep1 + date + sep2 + sequence + trail);
    assert raw.s == lead + prefix + rest + trail;
    NoLowerInBody(sep1, date, sep2, sequence);
    assert rest[|rest| - 1] == sequence[2];
    VariantText(lead, prefix, rest, trail);
    var text := LotText(raw);
    ReplaceTypoPrefix(UpperAscii(prefix), rest);
    ReplaceTypoNoL(rest);
    var lot: string := "LOT";
    assert ReplaceTypo(text) == lot + rest;
    CompactBody(sep1, date, sep2, sequence);
  }

  lemma DigitsKept(s: string)
    requires AllDigits(s)
    ensures RemoveSeparators(s) == s
  {
    assert NoSeparators(s) by {
      forall i | 0 <= i < |s| ensures !IsSeparator(s[i]) {
        assert IsDigit(s[i]);
      }
    }
    RemoveSeparatorsNone(s);
  }

  lemma CompactBody(sep1: string, date: string, sep2: string, sequence: string)
    requires AllSeparators(sep1) && AllSeparators(sep2)
    requires AllDigits(date) && AllDigits(sequence)
    ensures RemoveSeparators("LOT" + (sep1 + date + sep2 + sequence)) == "LOT" + (date + sequence)
  {
    var lot: string := "LOT";
    assert RemoveSeparators(lot) == lot by {
      assert NoSeparators(lot);
      RemoveSeparatorsNone(lot);
    }
    assert RemoveSeparators(sep1 + date + sep2 + sequence) == date + sequence by {
      SeparatedDigits(sep1, date, sep2, sequence);
    }
    RemoveSeparatorsConcat(lot, sep1 + date + sep2 + sequence);
  }

  lemma SeparatedDigits(sep1: string, date: string, sep2: string, sequence: string)
    requires AllSeparators(sep1) && AllSeparators(sep2)
    requires AllDigits(date) && AllDigits(sequence)
    ensures RemoveSeparators(sep1 + date + sep2 + sequence) == date + sequence
  {
    assert RemoveSeparators(sep1 + date) == date by {
      RemoveSeparatorsAll(sep1);
      DigitsKept(date);
      RemoveSeparatorsConcat(sep1, date);
    }
    assert RemoveSeparators(sep1 + date + sep2) == date by {
      RemoveSeparatorsAll(sep2);
      RemoveSeparatorsConcat(sep1 + date, sep2);
    }
    assert RemoveSeparators(sequence) == sequence by {
      DigitsKept(sequence);
    }
    RemoveSeparatorsConcat(sep1 + date + sep2, sequence);
  }

  lemma Lot11AtStart(date: string, sequence: string)
    requires |date| == 8 && AllDigits(date) && |sequence| == 3 && AllDigits(sequence)
    ensures var c := "LOT" + (date + sequence);
      Lot11At(c, 0) && c[3..11] == date && c[11..14] == sequence
  {
    var c := "LOT" + (date + sequence);
    assert c[3..14] == date + sequence;
    assert AllDigits(date + sequence) by {
      forall i | 0 <= i < |date + sequence| ensures IsDigit((date + sequence)[i]) {
        if i < 8 { assert (date + sequence)[i] == date[i]; }
        else { assert (date + sequence)[i] == sequence[i - 8]; }
      }
    }
  }

  /** A non-blank lot whose structured compact text holds a match is
      accepted with the matched groups. */
  lemma NormalizeAccepted(raw: Cell, date: string, sequence: string)
    requires !raw.Missing? && LotText(raw) != []
    requires Search(Structure(CompactLot(raw)), 0) == Some((date, sequence))
    ensures NormalizeLotId(raw) == LotNormalization(Some("LOT-" + date + "-" + sequence), Ok, None)
  {
  }

  /** Spellings that differ only in case, in the `L0T` typo, in the `-`, `_`
      or whitespace separators and in surrounding whitespace all normalise to
      the same canonical id. */
  lemma LotSpellingVariants(lead: string, prefix: string, sep1: string, date: string,
                            sep2: string, sequence: string, trail: string)
    requires AllWhitespace(lead) && AllWhitespace(trail)
    requires IsLotPrefixSpelling(prefix)
    requires AllSeparators(sep1) && AllSeparators(sep2)
    requires |date| == 8 && AllDigits(date) && |sequence| == 3 && AllDigits(sequence)
    ensures NormalizeLotId(Text(lead + prefix + sep1 + date + sep2 + sequence + trail))
            == LotNormalization(Some("LOT-" + date + "-" + sequence), Ok, None)
  {
    var raw := Text(lead + prefix + sep1 + date + sep2 + sequence + trail);
    VariantCompact(lead, prefix, sep1, date, sep2, sequence, trail);
    var c := CompactLot(raw);
    Lot11AtStart(date, sequence);
    StructuredSearch(c);
    assert Search(Structure(c), 0) == Some((date, sequence));
    NormalizeAccepted(raw, date, sequence);
  }

  /** Normalising a canonical id gives that id back. */
  lemma CanonicalLotParts(id: string)
    requires IsCanonicalLot(id)
    ensures id == [] + "LOT" + "-" + id[4..12] + "-" + id[13..] + []
    ensures id == "LOT-" + id[4..12] + "-" + id[13..]
  {
    assert id == id[..4] + id[4..12] + id[12..13] + id[13..];
    assert id[..4] == "LOT" + "-";
  }

  lemma NormalizeCanonicalLot(id: string)
    requires IsCanonicalLot(id)
    ensures NormalizeLotId(Text(id)) == LotNormalization(Some(id), Ok, None)
  {
    CanonicalLotParts(id);
    assert IsLotPrefixSpelling("LOT") by {
      UpperAsciiNoLower("LOT");
    }
    assert AllSeparators("-") && AllWhitespace([]);
    LotSpellingVariants([], "LOT", "-", id[4..12], "-", id[13..], []);
  }

  /** Idempotence: whatever a lot normalises to normalises to itself. */
  lemma NormalizeLotIdIdempotent(raw: Cell)
    requires NormalizeLotId(raw).status == Ok
    ensures NormalizeLotId(Text(NormalizeLotId(raw).canonicalLotId.value)) == NormalizeLotId(raw)
  {
    NormalizeCanonicalLot(NormalizeLotId(raw).canonicalLotId.value);
  }

  // ---------------------------------------------------------------------
  // Issue indicators

  const TruthyTokens: set<string> := {"yes", "y", "true", "t", "1"}

  /** `truthy_issue_flag`. */
  function TruthyIssueFlag(value: Cell): (flag: bool)
    ensures value.Bool? ==> flag == value.b
    ensures value.Missing? ==> !flag
    ensures value.Text? ==> (flag <==> LowerAscii(Strip(value.s)) in TruthyTokens)
  {
    match value
    case Bool(b) => b
    case Missing => false
    case _ => LowerAscii(Strip(PyStr(value))) in TruthyTokens
  }

  lemma StripUnchanged(s: string)
    requires s != [] && !IsWhitespace(s[0]) && !IsWhitespace(s[|s| - 1])
    ensures Strip(s) == s
  {
    StripAround([], s, []);
    assert [] + s + [] == s;
  }

  lemma LowerDigits(s: string)
    requires AllDigits(s)
    ensures LowerAscii(s) == s
  {
  }

  /** No truthy token starts with a digit other than the token `1`, nor with
      a minus sign. */
  lemma TokenHeads(x: string)
    requires x != [] && (IsDigit(x[0]) || x[0] == '-')
    ensures x in TruthyTokens <==> x == "1"
  {
    if x in TruthyTokens {
      assert x == "yes" || x == "y" || x == "true" || x == "t" || x == "1";
      assert x[0] != 'y' && x[0] != 't';
    }
  }

  /** An integer cell is an issue exactly when it is 1. */
  lemma TruthyIntegers(i: int)
    ensures TruthyIssueFlag(Int(i)) <==> i == 1
  {
    var text := IntToDecimal(i);
    if i >= 0 {
      assert AllDigits(text) && text != [];
      StripUnchanged(text);
      LowerDigits(text);
      TokenHeads(text);
      if i < 10 {
        assert text == [DigitChar(i)];
      } else {
        assert text == NatToDecimal(i / 10) + [DigitChar(i % 10)];
        assert |text| >= 2;
      }
    } else {
      assert text == "-" + NatToDecimal(-i);
      StripUnchanged(text);
      assert LowerAscii(text)[0] == '-';
      TokenHeads(LowerAscii(text));
    }
  }
}
