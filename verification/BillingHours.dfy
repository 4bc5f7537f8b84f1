/** Reading closed hourly billing history for one Pod or one Serverless endpoint
    (kestrel_cloud_runpod/pod_billing.py and the hour readers of
    kestrel_cloud_runpod/serverless_capacity_provider.py).

    Times are integer microseconds from a UTC hour boundary. A provider page is what the
    two readers inspect of the decoded response. */
module BillingHours {
  import opened Results
  import opened Decimals
  import opened DecimalValues
  import opened CanonicalAmounts
  import opened BillingAmounts
  import opened Sequences

  type Time = int

  const HOUR: int := 3_600_000_000
  const SECOND: int := 1_000_000

  function FloorHour(t: Time): Time { t - t % HOUR }

  datatype Bounds = Bounds(first: Time, until: Time)

  /** `billing_hour_bounds`; None stands for the ValueError on an empty interval. */
  function BillingHourBounds(start: Time, end: Time): Option<Bounds> {
    if end <= start then None
    else Some(Bounds(FloorHour(start), if end == FloorHour(end) then end else FloorHour(end) + HOUR))
  }

  /** The bounds are the smallest whole-hour window around the interval. */
  lemma HourBoundsAreTight(start: Time, end: Time)
    ensures BillingHourBounds(start, end).Some? <==> start < end
    ensures start < end ==>
              var b := BillingHourBounds(start, end).value;
              && b.first % HOUR == 0 && b.until % HOUR == 0 && b.first < b.until
              && b.first <= start < b.first + HOUR && b.until - HOUR < end <= b.until
              && (forall f, u :: f % HOUR == 0 && u % HOUR == 0 && f <= start && end <= u
                                 ==> f <= b.first && b.until <= u)
  {}

  // ---- pages ----

  datatype RawRecord = RawRecord(keysExact: bool, owner: string, start: Option<Time>, end: Option<Time>,
                                 amounts: RawAmounts)

  datatype Page = Page(
    keysExact: bool, queryOwner: string, queryHourly: bool,
    queryStart: Option<Time>, queryEnd: Option<Time>,
    recordCount: Option<int>, uniqueOwners: Option<int>,
    totals: RawAmounts, records: seq<RawRecord>)

  datatype Row = Row(start: Time, end: Time, amounts: Amounts)

  datatype Observation<T> = Complete(value: T) | Pending | Malformed

  predicate RecordOk(r: RawRecord, owner: string, arity: nat) {
    r.keysExact && r.owner == owner && r.start.Some? && r.end.Some?
    && |r.amounts.parts| == arity && AmountsOf(r.amounts).Some?
  }

  function ParsedRow(r: RawRecord, owner: string, arity: nat): Row
    requires RecordOk(r, owner, arity)
  {
    Row(r.start.value, r.end.value, AmountsOf(r.amounts).value)
  }

  predicate RecordsOk(records: seq<RawRecord>, owner: string, arity: nat) {
    forall i :: 0 <= i < |records| ==> RecordOk(records[i], owner, arity)
  }

  function ParsedRows(records: seq<RawRecord>, owner: string, arity: nat): (rows: seq<Row>)
    requires RecordsOk(records, owner, arity)
    ensures |rows| == |records|
    ensures forall i :: 0 <= i < |rows| ==> rows[i] == ParsedRow(records[i], owner, arity)
  {
    seq(|records|, i requires 0 <= i < |records| => ParsedRow(records[i], owner, arity))
  }

  /** Column 0 is the total; column k + 1 is component k. */
  function AmountAt(a: Amounts, column: nat): Decimal {
    if column == 0 then a.total
    else if column - 1 < |a.parts| then a.parts[column - 1] else ZERO
  }

  function Column(rows: seq<Row>, column: nat): (c: seq<Decimal>)
    ensures |c| == |rows| && forall i :: 0 <= i < |rows| ==> c[i] == AmountAt(rows[i].amounts, column)
  {
    seq(|rows|, i requires 0 <= i < |rows| => AmountAt(rows[i].amounts, column))
  }

  predicate ColumnMatches(rows: seq<Row>, totals: Amounts, column: nat) {
    NumericallyEqual(ExactTotal(Column(rows, column)), AmountAt(totals, column))
  }

  predicate TotalsMatch(rows: seq<Row>, totals: Amounts, arity: nat) {
    forall column: nat :: column <= arity ==> ColumnMatches(rows, totals, column)
  }

  method TotalsAgree(rows: seq<Row>, totals: Amounts, arity: nat) returns (ok: bool)
    ensures ok == TotalsMatch(rows, totals, arity)
  {
    var matches := (column: nat) => ColumnMatches(rows, totals, column);
    ok := AllHold(arity + 1, matches);
    assert forall column: nat :: column <= arity ==> matches(column) == ColumnMatches(rows, totals, column);
  }

  /** The record is well formed and reads as the row. */
  predicate ReadsAs(r: RawRecord, owner: string, arity: nat, row: Row) {
    RecordOk(r, owner, arity) && row == ParsedRow(r, owner, arity)
  }

  method ParseRecord(record: RawRecord, owner: string, arity: nat) returns (r: Option<Row>)
    ensures r.Some? ==> ReadsAs(record, owner, arity, r.value)
    ensures r.None? ==> !RecordOk(record, owner, arity)
  {
    if !(record.keysExact && record.owner == owner && record.start.Some? && record.end.Some?
         && |record.amounts.parts| == arity) { return None; }
    var amounts := ValidatedAmounts(record.amounts);
    if amounts.None? { return None; }
    return Some(Row(record.start.value, record.end.value, amounts.value));
  }

  lemma AllRead(records: seq<RawRecord>, owner: string, arity: nat, rows: seq<Row>)
    requires |rows| == |records| && forall i :: 0 <= i < |records| ==> ReadsAs(records[i], owner, arity, rows[i])
    ensures RecordsOk(records, owner, arity) && rows == ParsedRows(records, owner, arity)
  {}

  method ParseRecords(records: seq<RawRecord>, owner: string, arity: nat) returns (r: Option<seq<Row>>)
    ensures r.Some? <==> RecordsOk(records, owner, arity)
    ensures r.Some? ==> r.value == ParsedRows(records, owner, arity)
  {
    var rows: seq<Row>, bad: Option<nat> := ParseEach(records, owner, arity);
    if bad.Some? { return None; }
    AllRead(records, owner, arity, rows);
    return Some(rows);
  }

  /** Parses up to the first malformed record. */
  method ParseEach(records: seq<RawRecord>, owner: string, arity: nat) returns (rows: seq<Row>, bad: Option<nat>)
    ensures bad.Some? ==> bad.value < |records| && !RecordOk(records[bad.value], owner, arity)
    ensures bad.None? ==>
      |rows| == |records| && forall i :: 0 <= i < |records| ==> ReadsAs(records[i], owner, arity, rows[i])
  {
    ghost var readable := (r: RawRecord, row: Row) => ReadsAs(r, owner, arity, row);
    rows := [];
    for i := 0 to |records|
      invariant |rows| == i && Matched(readable, records, rows)
    {
      var row := ParseRecord(records[i], owner, arity);
      if row.None? { return rows, Some(i); }
      MatchedNext(readable, records, rows, row.value);
      rows := rows + [row.value];
    }
    assert forall j :: 0 <= j < |rows| ==> readable(records[j], rows[j]);
    return rows, None;
  }

  // ---- sorting by start, stably ----

  predicate Sorted(s: seq<Row>) { forall i, j :: 0 <= i < j < |s| ==> s[i].start <= s[j].start }

  lemma SortedAppend(s: seq<Row>, r: Row)
    requires Sorted(s) && (s != [] ==> s[|s| - 1].start <= r.start)
    ensures Sorted(s + [r]) && multiset(s + [r]) == multiset(s) + multiset{r}
  {}

  lemma SortedFront(s: seq<Row>)
    requires Sorted(s) && s != []
    ensures Sorted(s[..|s| - 1]) && multiset(s) == multiset(s[..|s| - 1]) + multiset{s[|s| - 1]}
    ensures |s| > 1 ==> s[..|s| - 1][|s| - 2].start <= s[|s| - 1].start
  {
    assert s == s[..|s| - 1] + [s[|s| - 1]];
  }

  function InsertRow(s: seq<Row>, r: Row): (t: seq<Row>)
    ensures t != [] && t[|t| - 1] == if s == [] || s[|s| - 1].start <= r.start then r else s[|s| - 1]
  {
    if s == [] || s[|s| - 1].start <= r.start then s + [r] else InsertRow(s[..|s| - 1], r) + [s[|s| - 1]]
  }

  lemma {:induction false} InsertRowSorts(s: seq<Row>, r: Row)
    requires Sorted(s)
    ensures Sorted(InsertRow(s, r)) && multiset(InsertRow(s, r)) == multiset(s) + multiset{r}
  {
    if s == [] || s[|s| - 1].start <= r.start {
      SortedAppend(s, r);
    } else {
      var front, last := s[..|s| - 1], s[|s| - 1];
      SortedFront(s);
      InsertRowSorts(front, r);
      SortedAppend(InsertRow(front, r), last);
    }
  }

  function SortByStart(s: seq<Row>): (t: seq<Row>)
    ensures Sorted(t) && multiset(t) == multiset(s)
  {
    if s == [] then []
    else
      assert s == s[..|s| - 1] + [s[|s| - 1]];
      InsertRowSorts(SortByStart(s[..|s| - 1]), s[|s| - 1]);
      InsertRow(SortByStart(s[..|s| - 1]), s[|s| - 1])
  }

  /** Two sorted arrangements of rows with distinct starts are the same sequence. */
  lemma {:induction false} SortedUnique(a: seq<Row>, b: seq<Row>)
    requires Sorted(a) && Sorted(b) && multiset(a) == multiset(b)
    requires forall i, j :: 0 <= i < j < |a| ==> a[i].start < a[j].start
    ensures a == b
  {
    SameLength(a, b);
    if a != [] {
      var n := |a| - 1;
      SameLastRow(a, b);
      RemoveBoth(a, n, b, n);
      WithoutLast(a);
      WithoutLast(b);
      SortedUnique(a[..n], b[..n]);
      assert a == a[..n] + [a[n]] && b == b[..n] + [b[n]];
    }
  }

  lemma SameLastRow(a: seq<Row>, b: seq<Row>)
    requires Sorted(b) && multiset(a) == multiset(b) && a != [] && |a| == |b|
    requires forall i, j :: 0 <= i < j < |a| ==> a[i].start < a[j].start
    ensures a[|a| - 1] == b[|b| - 1]
  {
    var n := |a| - 1;
    var j := SameElements(a, b, n);
    var i := SameElements(b, a, n);
    assert b[j].start <= b[n].start;
    assert i == n;
  }

  // ---- what counts as complete history ----

  predicate ExactHour(r: Row, first: Time, until: Time) {
    first <= r.start && r.end == r.start + HOUR && r.end <= until && (r.start - first) % HOUR == 0
  }

  /** One row for every UTC hour of the window and nothing else, in any order. */
  predicate Tiles(rows: seq<Row>, first: Time, until: Time) {
    && rows != [] && first % HOUR == 0
    && |rows| * HOUR == until - first
    && (forall i :: 0 <= i < |rows| ==> ExactHour(rows[i], first, until))
    && (forall i, j :: 0 <= i < j < |rows| ==> rows[i].start != rows[j].start)
  }

  predicate Contiguous(s: seq<Row>, first: Time) {
    forall k :: 0 <= k < |s| ==> s[k].start == first + k * HOUR && s[k].end == s[k].start + HOUR
  }

  lemma GridStep(a: int, b: int, first: int)
    requires a < b && (a - first) % HOUR == 0 && (b - first) % HOUR == 0
    ensures a + HOUR <= b
  {}

  lemma {:induction false} GridFromBelow(s: seq<Row>, first: Time, until: Time, k: nat)
    requires k < |s|
    requires forall i :: 0 <= i < |s| ==> ExactHour(s[i], first, until)
    requires forall i, j :: 0 <= i < j < |s| ==> s[i].start < s[j].start
    ensures s[k].start >= first + k * HOUR
  {
    if k > 0 {
      GridFromBelow(s, first, until, k - 1);
      GridStep(s[k - 1].start, s[k].start, first);
    }
  }

  lemma {:induction false} GridFromAbove(s: seq<Row>, first: Time, until: Time, k: nat)
    requires k < |s|
    requires forall i :: 0 <= i < |s| ==> ExactHour(s[i], first, until)
    requires forall i, j :: 0 <= i < j < |s| ==> s[i].start < s[j].start
    ensures s[k].start + (|s| - k) * HOUR <= until
    decreases |s| - k
  {
    if k < |s| - 1 {
      GridFromAbove(s, first, until, k + 1);
      GridStep(s[k].start, s[k + 1].start, first);
    }
  }

  lemma TwiceInMultiset<T>(s: seq<T>, i: nat, j: nat)
    requires i < j < |s| && s[i] == s[j]
    ensures multiset(s)[s[i]] >= 2
  {
    assert s == s[..j] + s[j..];
    assert s[i] in multiset(s[..j]) by { assert s[i] in s[..j]; }
    assert s[j] in multiset(s[j..]) by { assert s[j..][0] == s[j]; }
  }

  lemma {:induction false} OnceInMultiset(s: seq<Row>, r: Row)
    requires forall i, j :: 0 <= i < j < |s| ==> s[i].start != s[j].start
    ensures multiset(s)[r] <= 1
  {
    if s != [] {
      var n := |s| - 1;
      assert s == s[..n] + [s[n]];
      OnceInMultiset(s[..n], r);
      if s[n] == r { assert r !in s[..n]; }
    }
  }

  /** Distinct starts survive any rearrangement. */
  lemma DistinctStartsPermute(a: seq<Row>, b: seq<Row>)
    requires multiset(a) == multiset(b)
    requires forall i, j :: 0 <= i < j < |a| ==> a[i].start != a[j].start
    ensures forall i, j :: 0 <= i < j < |b| ==> b[i].start != b[j].start
  {
    forall i, j | 0 <= i < j < |b| ensures b[i].start != b[j].start {
      if b[i].start == b[j].start {
        var x := SameElements(b, a, i);
        var y := SameElements(b, a, j);
        assert x == y;
        TwiceInMultiset(b, i, j);
        OnceInMultiset(a, b[i]);
      }
    }
  }

  /** Tiling, stated without an order, is contiguity of the sorted rows. */
  lemma TilesIffContiguous(rows: seq<Row>, s: seq<Row>, first: Time, until: Time)
    requires Sorted(s) && multiset(s) == multiset(rows)
    ensures Tiles(rows, first, until)
            <==> s != [] && first % HOUR == 0 && |s| * HOUR == until - first && Contiguous(s, first)
  {
    SameLength(rows, s);
    if Tiles(rows, first, until) {
      DistinctStartsPermute(rows, s);
      forall i | 0 <= i < |s| ensures ExactHour(s[i], first, until) {
        var j := SameElements(s, rows, i);
      }
      forall k | 0 <= k < |s| ensures s[k].start == first + k * HOUR && s[k].end == s[k].start + HOUR {
        GridFromBelow(s, first, until, k);
        GridFromAbove(s, first, until, k);
      }
    }
    if s != [] && first % HOUR == 0 && |s| * HOUR == until - first && Contiguous(s, first) {
      forall i | 0 <= i < |rows| ensures ExactHour(rows[i], first, until) {
        var k := SameElements(rows, s, i);
      }
      DistinctStartsPermute(s, rows);
    }
  }

  // ---- the Pod reader ----

  datatype Verdict = Bad | Partial | Whole

  const POD_COMPONENTS: nat := 3

  predicate PodPageOk(page: Page, podId: string, first: Time, until: Time) {
    && page.keysExact && page.queryOwner == podId && page.queryHourly
    && page.queryStart == Some(first) && page.queryEnd == Some(until)
    && page.recordCount == Some(|page.records|)
    && page.uniqueOwners == Some(if page.records == [] then 0 else 1)
    && |page.totals.parts| == POD_COMPONENTS && AmountsOf(page.totals).Some?
    && RecordsOk(page.records, podId, POD_COMPONENTS)
    && TotalsMatch(ParsedRows(page.records, podId, POD_COMPONENTS), AmountsOf(page.totals).value, POD_COMPONENTS)
  }

  /** The scan of the sorted rows from a cursor. */
  function PodScan(s: seq<Row>, cursor: Time, incomplete: bool, first: Time, until: Time): Verdict {
    if s == [] then (if incomplete || cursor < until then Partial else Whole)
    else
      var r := s[0];
      if r.start < cursor || r.start < first || r.end <= r.start || r.end > until then Bad
      else if r.start != FloorHour(r.start) then Bad
      else if r.end > r.start + HOUR then Bad
      else PodScan(s[1..], r.end, incomplete || r.start > cursor || r.end < r.start + HOUR, first, until)
  }

  datatype HourRow = HourRow(owner: string, start: Time, end: Time, total: Text, parts: seq<Text>)

  function NormalizedRow(owner: string, r: Row): HourRow {
    HourRow(owner, r.start, r.end, IdentityAmount(r.amounts.total),
            seq(|r.amounts.parts|, i requires 0 <= i < |r.amounts.parts| => IdentityAmount(r.amounts.parts[i])))
  }

  function NormalizedRows(owner: string, s: seq<Row>): (rows: seq<HourRow>)
    ensures |rows| == |s| && forall i :: 0 <= i < |s| ==> rows[i] == NormalizedRow(owner, s[i])
  {
    seq(|s|, i requires 0 <= i < |s| => NormalizedRow(owner, s[i]))
  }

  /** What the sorted rows of a well-formed page amount to. */
  function RowsOutcome(podId: string, s: seq<Row>, first: Time, until: Time): Observation<seq<HourRow>> {
    match PodScan(s, first, s == [], first, until)
    case Bad => Malformed
    case Partial => Pending
    case Whole => Complete(NormalizedRows(podId, s))
  }

  function PodOutcome(page: Page, podId: string, first: Time, until: Time): Observation<seq<HourRow>> {
    if !PodPageOk(page, podId, first, until) then Malformed
    else RowsOutcome(podId, SortByStart(ParsedRows(page.records, podId, POD_COMPONENTS)), first, until)
  }

  method ExactHours(page: Page, podId: string, first: Time, until: Time)
    returns (r: Observation<seq<HourRow>>)
    ensures r == PodOutcome(page, podId, first, until)
  {
    if !(page.keysExact && page.queryOwner == podId && page.queryHourly
         && page.queryStart == Some(first) && page.queryEnd == Some(until)) { return Malformed; }
    if page.recordCount != Some(|page.records|) { return Malformed; }
    if page.uniqueOwners != Some(if page.records == [] then 0 else 1) { return Malformed; }
    if |page.totals.parts| != POD_COMPONENTS { return Malformed; }
    var expected := ValidatedAmounts(page.totals);
    if expected.None? { return Malformed; }
    var parsed := ParseRecords(page.records, podId, POD_COMPONENTS);
    if parsed.None? { return Malformed; }
    var agree := TotalsAgree(parsed.value, expected.value, POD_COMPONENTS);
    if !agree { return Malformed; }
    var sorted := SortByStart(parsed.value);
    var verdict, rows := ScanPodHours(sorted, podId, first, until);
    match verdict {
      case Bad => return Malformed;
      case Partial => return Pending;
      case Whole => return Complete(rows);
    }
  }

  method ScanPodHours(sorted: seq<Row>, podId: string, first: Time, until: Time)
    returns (verdict: Verdict, normalized: seq<HourRow>)
    ensures verdict == PodScan(sorted, first, sorted == [], first, until)
    ensures verdict != Bad ==> normalized == NormalizedRows(podId, sorted)
  {
    var cursor, incomplete := first, sorted == [];
    normalized := [];
    for i := 0 to |sorted|
      invariant PodScan(sorted, first, sorted == [], first, until)
             == PodScan(sorted[i..], cursor, incomplete, first, until)
      invariant normalized == NormalizedRows(podId, sorted[..i])
    {
      var start, end := sorted[i].start, sorted[i].end;
      assert sorted[i..][0] == sorted[i] && sorted[i..][1..] == sorted[i + 1..];
      if start < cursor || start < first || end <= start || end > until { return Bad, normalized; }
      if start != FloorHour(start) { return Bad, normalized; }
      if start > cursor || end < start + HOUR { incomplete := true; }
      if end > start + HOUR { return Bad, normalized; }
      normalized := normalized + [NormalizedRow(podId, sorted[i])];
      assert sorted[..i + 1] == sorted[..i] + [sorted[i]];
      cursor := end;
    }
    assert sorted[..|sorted|] == sorted;
    verdict := if incomplete || cursor < until then Partial else Whole;
  }

  lemma {:induction false} PodScanWhole(s: seq<Row>, cursor: Time, incomplete: bool, first: Time, until: Time)
    requires first <= cursor <= until
    ensures PodScan(s, cursor, incomplete, first, until) == Whole
            <==> !incomplete && Contiguous(s, cursor) && cursor + |s| * HOUR == until
                 && (s != [] ==> cursor % HOUR == 0)
  {
    if s != [] {
      var r := s[0];
      assert Contiguous(s, cursor) ==> r.start == cursor + 0 * HOUR && r.end == cursor + HOUR;
      ContiguousTail(s, cursor);
      if cursor <= r.end <= until {
        PodScanWhole(s[1..], r.end, incomplete || r.start > cursor || r.end < r.start + HOUR, first, until);
      }
    }
  }

  lemma ContiguousTail(s: seq<Row>, cursor: Time)
    requires s != []
    ensures Contiguous(s, cursor)
            <==> s[0].start == cursor && s[0].end == cursor + HOUR && Contiguous(s[1..], cursor + HOUR)
  {
    if Contiguous(s, cursor) {
      assert s[0].start == cursor + 0 * HOUR;
      forall k | 0 <= k < |s[1..]|
        ensures s[1..][k].start == cursor + HOUR + k * HOUR && s[1..][k].end == s[1..][k].start + HOUR
      {
        assert s[1..][k] == s[k + 1];
      }
    }
    if s[0].start == cursor && s[0].end == cursor + HOUR && Contiguous(s[1..], cursor + HOUR) {
      forall k | 0 <= k < |s| ensures s[k].start == cursor + k * HOUR && s[k].end == s[k].start + HOUR {
        if k > 0 { assert s[k] == s[1..][k - 1]; }
      }
    }
  }

  lemma PodRowsAreTiling(podId: string, parsed: seq<Row>, first: Time, until: Time)
    requires first < until
    ensures var s := SortByStart(parsed);
            RowsOutcome(podId, s, first, until).Complete? <==> Tiles(parsed, first, until)
    ensures Tiles(parsed, first, until) ==>
              HourByHour(RowsOutcome(podId, SortByStart(parsed), first, until).value, first, until)
  {
    var s := SortByStart(parsed);
    TilesIffContiguous(parsed, s, first, until);
    PodScanWhole(s, first, s == [], first, until);
    if Tiles(parsed, first, until) { ContiguousRows(podId, s, first); }
  }

  /** One row for each hour of the window, in order. */
  predicate HourByHour(rows: seq<HourRow>, first: Time, until: Time) {
    && |rows| * HOUR == until - first
    && forall k :: 0 <= k < |rows| ==> rows[k].start == first + k * HOUR && rows[k].end == first + (k + 1) * HOUR
  }

  lemma ContiguousRows(podId: string, s: seq<Row>, first: Time)
    requires Contiguous(s, first)
    ensures var rows := NormalizedRows(podId, s);
            forall k :: 0 <= k < |rows| ==> rows[k].start == first + k * HOUR && rows[k].end == first + (k + 1) * HOUR
  {}

  /** A well-formed page yields rows exactly when its records, in any order, tile the
      window; the rows come back hour by hour. */
  lemma PodHoursAreComplete(page: Page, podId: string, first: Time, until: Time)
    requires first < until
    ensures PodOutcome(page, podId, first, until).Complete?
            <==> PodPageOk(page, podId, first, until)
                 && Tiles(ParsedRows(page.records, podId, POD_COMPONENTS), first, until)
    ensures PodOutcome(page, podId, first, until).Complete? ==>
              HourByHour(PodOutcome(page, podId, first, until).value, first, until)
  {
    if PodPageOk(page, podId, first, until) {
      PodRowsAreTiling(podId, ParsedRows(page.records, podId, POD_COMPONENTS), first, until);
    }
  }

  /** A record as it is reported: its own hour and the canonical texts of its own amounts. */
  function ReportedRow(podId: string, r: RawRecord): HourRow
    requires RecordOk(r, podId, POD_COMPONENTS) && AllUsable(r.amounts)
  {
    HourRow(podId, r.start.value, r.end.value, IdentityAmount(RawValue(r.amounts.total)),
            [IdentityAmount(RawValue(r.amounts.parts[0])), IdentityAmount(RawValue(r.amounts.parts[1])),
             IdentityAmount(RawValue(r.amounts.parts[2]))])
  }

  lemma PartsOfRecord(podId: string, r: RawRecord, i: nat)
    requires RecordOk(r, podId, POD_COMPONENTS) && i < POD_COMPONENTS
    ensures AllUsable(r.amounts)
    ensures var row := NormalizedRow(podId, ParsedRow(r, podId, POD_COMPONENTS));
            |row.parts| == POD_COMPONENTS && row.parts[i] == IdentityAmount(RawValue(r.amounts.parts[i]))
  {
    AcceptedSpelling(r.amounts);
    TextOfCanonical(RawValue(r.amounts.parts[i]));
  }

  lemma RowOfRecord(podId: string, r: RawRecord)
    requires RecordOk(r, podId, POD_COMPONENTS)
    ensures AllUsable(r.amounts)
    ensures NormalizedRow(podId, ParsedRow(r, podId, POD_COMPONENTS)) == ReportedRow(podId, r)
  {
    AcceptedSpelling(r.amounts);
    TextOfCanonical(RawValue(r.amounts.total));
    PartsOfRecord(podId, r, 0);
    PartsOfRecord(podId, r, 1);
    PartsOfRecord(podId, r, 2);
  }

  lemma NormalizedPermute(podId: string, a: seq<Row>, b: seq<Row>)
    requires multiset(a) == multiset(b)
    ensures multiset(NormalizedRows(podId, a)) == multiset(NormalizedRows(podId, b))
  {
    var normalize := (r: Row) => NormalizedRow(podId, r);
    MappedPermutes(a, b, normalize);
    assert NormalizedRows(podId, a) == Mapped(a, normalize) && NormalizedRows(podId, b) == Mapped(b, normalize);
  }

  /** What comes back of an accepted page: each record exactly once, with its own amounts. */
  lemma PodRowsAreTheRecords(page: Page, podId: string, first: Time, until: Time) returns (reported: seq<HourRow>)
    requires first < until && PodOutcome(page, podId, first, until).Complete?
    ensures |reported| == |page.records|
    ensures forall i :: 0 <= i < |reported| ==>
              && RecordOk(page.records[i], podId, POD_COMPONENTS) && AllUsable(page.records[i].amounts)
              && reported[i] == ReportedRow(podId, page.records[i])
    ensures multiset(PodOutcome(page, podId, first, until).value) == multiset(reported)
  {
    var parsed := ParsedRows(page.records, podId, POD_COMPONENTS);
    reported := NormalizedRows(podId, parsed);
    forall i | 0 <= i < |reported|
      ensures AllUsable(page.records[i].amounts) && reported[i] == ReportedRow(podId, page.records[i])
    {
      RowOfRecord(podId, page.records[i]);
    }
    NormalizedPermute(podId, SortByStart(parsed), parsed);
  }

  /** Rows that lie in the window one after the other, each on an hour and at most an hour long. */
  predicate Laid(s: seq<Row>, from: Time, first: Time, until: Time) {
    && (forall i :: 0 <= i < |s| ==>
          && first <= s[i].start < s[i].end <= until && s[i].start % HOUR == 0 && s[i].end <= s[i].start + HOUR)
    && (s != [] ==> from <= s[0].start)
    && (forall i :: 0 < i < |s| ==> s[i - 1].end <= s[i].start)
  }

  lemma LaidTail(s: seq<Row>, from: Time, first: Time, until: Time)
    requires s != []
    ensures Laid(s, from, first, until)
            <==> && from <= s[0].start && first <= s[0].start < s[0].end <= until && s[0].start % HOUR == 0
                 && s[0].end <= s[0].start + HOUR && Laid(s[1..], s[0].end, first, until)
  {
    var t := s[1..];
    if Laid(s, from, first, until) {
      assert forall i :: 0 <= i < |t| ==> t[i] == s[i + 1];
    }
    if from <= s[0].start && first <= s[0].start < s[0].end <= until && s[0].start % HOUR == 0
       && s[0].end <= s[0].start + HOUR && Laid(t, s[0].end, first, until) {
      assert forall i :: 0 < i < |s| ==> s[i] == t[i - 1];
    }
  }

  lemma {:induction false} PodScanBad(s: seq<Row>, cursor: Time, incomplete: bool, first: Time, until: Time)
    ensures PodScan(s, cursor, incomplete, first, until) != Bad <==> Laid(s, cursor, first, until)
  {
    if s != [] {
      var r := s[0];
      LaidTail(s, cursor, first, until);
      PodScanBad(s[1..], r.end, incomplete || r.start > cursor || r.end < r.start + HOUR, first, until);
    }
  }

  /** What else a page can amount to: it is malformed exactly if its metadata, amounts or totals
      are, or if its hours overlap, escape the window or are no hours; a page that is well formed
      and does not tile the window is waited for. */
  lemma PodPagesAreJudged(page: Page, podId: string, first: Time, until: Time)
    requires first < until
    ensures PodOutcome(page, podId, first, until).Malformed?
            <==> !PodPageOk(page, podId, first, until)
                 || !Laid(SortByStart(ParsedRows(page.records, podId, POD_COMPONENTS)), first, first, until)
    ensures PodOutcome(page, podId, first, until).Pending?
            <==> PodPageOk(page, podId, first, until)
                 && Laid(SortByStart(ParsedRows(page.records, podId, POD_COMPONENTS)), first, first, until)
                 && !Tiles(ParsedRows(page.records, podId, POD_COMPONENTS), first, until)
  {
    if PodPageOk(page, podId, first, until) {
      var parsed := ParsedRows(page.records, podId, POD_COMPONENTS);
      var s := SortByStart(parsed);
      PodScanBad(s, first, s == [], first, until);
      PodRowsAreTiling(podId, parsed, first, until);
    }
  }

  lemma ParsedPermute(a: seq<RawRecord>, b: seq<RawRecord>, owner: string, arity: nat)
    requires multiset(a) == multiset(b) && RecordsOk(a, owner, arity)
    ensures RecordsOk(b, owner, arity)
    ensures multiset(ParsedRows(a, owner, arity)) == multiset(ParsedRows(b, owner, arity))
  {
    forall i | 0 <= i < |b| ensures RecordOk(b[i], owner, arity) { var j := SameElements(b, a, i); }
    var parse := (r: RawRecord) =>
      if RecordOk(r, owner, arity) then ParsedRow(r, owner, arity) else Row(0, 0, Amounts(ZERO, []));
    MappedPermutes(a, b, parse);
    assert ParsedRows(a, owner, arity) == Mapped(a, parse);
    assert ParsedRows(b, owner, arity) == Mapped(b, parse);
  }

  lemma ColumnPermutes(a: seq<Row>, b: seq<Row>, column: nat)
    requires multiset(a) == multiset(b)
    ensures multiset(Column(a, column)) == multiset(Column(b, column))
  {
    var pick := (r: Row) => AmountAt(r.amounts, column);
    MappedPermutes(a, b, pick);
    assert Column(a, column) == Mapped(a, pick) && Column(b, column) == Mapped(b, pick);
  }

  lemma TotalsPermute(a: seq<Row>, b: seq<Row>, totals: Amounts, arity: nat)
    requires multiset(a) == multiset(b) && TotalsMatch(a, totals, arity)
    ensures TotalsMatch(b, totals, arity)
  {
    forall column: nat | column <= arity ensures ColumnMatches(b, totals, column) {
      assert ColumnMatches(a, totals, column);
      ColumnPermutes(a, b, column);
      ExactTotalPermutes(Column(a, column), Column(b, column));
      EqualTransitive(ExactTotal(Column(b, column)), ExactTotal(Column(a, column)), AmountAt(totals, column))
        by {
          EqualTransitive(ExactTotal(Column(a, column)), ExactTotal(Column(b, column)), ExactTotal(Column(b, column)));
        }
    }
  }

  /** Rows that tile a window sort to the same sequence in whatever order they came. */
  lemma TilingSortsUniquely(a: seq<Row>, b: seq<Row>, first: Time, until: Time)
    requires multiset(a) == multiset(b) && Tiles(a, first, until)
    ensures SortByStart(a) == SortByStart(b)
  {
    TilesIffContiguous(a, SortByStart(a), first, until);
    SortedUnique(SortByStart(a), SortByStart(b));
  }

  lemma ShuffledPageOk(page: Page, records: seq<RawRecord>, podId: string, first: Time, until: Time)
    requires PodPageOk(page, podId, first, until) && multiset(records) == multiset(page.records)
    ensures PodPageOk(page.(records := records), podId, first, until)
    ensures multiset(ParsedRows(page.records, podId, POD_COMPONENTS))
         == multiset(ParsedRows(records, podId, POD_COMPONENTS))
  {
    SameLength(page.records, records);
    ParsedPermute(page.records, records, podId, POD_COMPONENTS);
    TotalsPermute(ParsedRows(page.records, podId, POD_COMPONENTS), ParsedRows(records, podId, POD_COMPONENTS),
                  AmountsOf(page.totals).value, POD_COMPONENTS);
  }

  /** Shuffling the records of an accepted page changes nothing that is reported. */
  lemma PodRowsIgnoreRecordOrder(page: Page, records: seq<RawRecord>, podId: string, first: Time, until: Time)
    requires first < until && multiset(records) == multiset(page.records)
    requires PodOutcome(page, podId, first, until).Complete?
    ensures PodOutcome(page.(records := records), podId, first, until) == PodOutcome(page, podId, first, until)
  {
    PodHoursAreComplete(page, podId, first, until);
    ShuffledPageOk(page, records, podId, first, until);
    TilingSortsUniquely(ParsedRows(page.records, podId, POD_COMPONENTS),
                        ParsedRows(records, podId, POD_COMPONENTS), first, until);
  }

  // ---- what accepted amounts add up to ----

  function AllParts(rows: seq<Row>): seq<Decimal> {
    if rows == [] then [] else AllParts(rows[..|rows| - 1]) + rows[|rows| - 1].amounts.parts
  }

  /** Low enough to write every amount of the rows, and their exact subtotals. */
  predicate FineFor(rows: seq<Row>, e: int) {
    forall i :: 0 <= i < |rows| ==>
      && e <= rows[i].amounts.total.exponent
      && LowEnough(rows[i].amounts.parts, e)
      && e <= ExactTotal(rows[i].amounts.parts).exponent
  }

  predicate AllBalanced(rows: seq<Row>) {
    forall i :: 0 <= i < |rows| ==> Balanced(rows[i].amounts)
  }

  lemma {:induction false} PartsTotal(rows: seq<Row>, e: int)
    requires FineFor(rows, e) && AllBalanced(rows)
    ensures LowEnough(AllParts(rows), e) && LowEnough(Column(rows, 0), e)
    ensures TotalAt(Column(rows, 0), e) == TotalAt(AllParts(rows), e)
  {
    if rows != [] {
      var n := |rows| - 1;
      PartsTotal(rows[..n], e);
      var a := rows[n].amounts;
      assert Column(rows, 0)[..n] == Column(rows[..n], 0);
      TotalAppend(AllParts(rows[..n]), a.parts, e);
      BalancedAt(a, e);
    }
  }

  lemma BalancedAt(a: Amounts, e: int)
    requires Balanced(a) && e <= a.total.exponent && LowEnough(a.parts, e) && e <= ExactTotal(a.parts).exponent
    ensures ScaledTo(a.total, e) == TotalAt(a.parts, e)
  {
    EqualAtAnyExponent(a.total, ExactTotal(a.parts), e);
    ExactTotalValue(a.parts, e);
  }

  lemma AcceptedAmountsBalance(r: RawRecord, owner: string, arity: nat)
    requires RecordOk(r, owner, arity)
    ensures Balanced(ParsedRow(r, owner, arity).amounts)
  {
    AmountsOfMeans(r.amounts);
  }

  lemma AcceptedRowsBalance(records: seq<RawRecord>, owner: string, arity: nat)
    requires RecordsOk(records, owner, arity)
    ensures AllBalanced(SortByStart(ParsedRows(records, owner, arity)))
  {
    var parsed := ParsedRows(records, owner, arity);
    var s := SortByStart(parsed);
    forall i | 0 <= i < |s| ensures Balanced(s[i].amounts) {
      var j := SameElements(s, parsed, i);
      AcceptedAmountsBalance(records[j], owner, arity);
    }
  }

  /** The totals of balanced rows add up to all their components. */
  lemma {:induction false} TotalsAreComponents(rows: seq<Row>)
    requires AllBalanced(rows)
    ensures TotalValue(Column(rows, 0)) == TotalValue(AllParts(rows))
  {
    if rows != [] {
      var n := |rows| - 1;
      var a := rows[n].amounts;
      TotalsAreComponents(rows[..n]);
      assert Column(rows, 0)[..n] == Column(rows[..n], 0);
      TotalValueAppend(AllParts(rows[..n]), a.parts);
      ExactTotalIsTheSum(a.parts);
      EqualByValue(a.total, ExactTotal(a.parts));
    }
  }
}
