/** The Serverless hour reader and its batching
    (`_authoritative_hour_costs` and `read_exact_serverless_billing`,
    kestrel_cloud_runpod/serverless_capacity_provider.py). */
module EndpointHours {
  import opened Results
  import opened Decimals
  import opened DecimalValues
  import opened CanonicalAmounts
  import opened BillingAmounts
  import opened BillingHours
  import opened Sequences

  const ENDPOINT_COMPONENTS: nat := 4

  datatype HourCost = HourCost(endpointId: string, start: Time, end: Time, amounts: Amounts)

  function HourCosts(endpointId: string, s: seq<Row>): (c: seq<HourCost>)
    ensures |c| == |s| && forall i :: 0 <= i < |s| ==> c[i] == HourCost(endpointId, s[i].start, s[i].end, s[i].amounts)
  {
    Mapped(s, (r: Row) => HourCost(endpointId, r.start, r.end, r.amounts))
  }

  predicate EndpointMetadataOk(page: Page, endpointId: string, from: Time, until: Time) {
    && page.keysExact && page.queryOwner == endpointId && page.queryHourly
    && page.queryStart == Some(from) && page.queryEnd == Some(until)
    && page.recordCount == Some(|page.records|)
    && page.uniqueOwners.Some?
    && (if page.records == [] then page.uniqueOwners.value in {0, 1} else page.uniqueOwners.value == 1)
  }

  /** The scan of the sorted rows: the first row that is not the next exact hour decides. */
  function EndpointScan(s: seq<Row>, cursor: Time, until: Time): Verdict {
    if s == [] then (if cursor < until then Partial else Whole)
    else
      var r := s[0];
      if r.end <= r.start then Bad
      else if r.start > cursor && r.start < until then Partial
      else if r.start != cursor then Bad
      else if r.end > until then Bad
      else if r.end < r.start + HOUR then Partial
      else if r.end != r.start + HOUR then Bad
      else if r.start % HOUR != 0 then Bad
      else EndpointScan(s[1..], r.end, until)
  }

  predicate TotalsAccepted(page: Page, s: seq<Row>) {
    |page.totals.parts| == ENDPOINT_COMPONENTS && AmountsOf(page.totals).Some?
    && TotalsMatch(s, AmountsOf(page.totals).value, ENDPOINT_COMPONENTS)
  }

  function EndpointOutcome(page: Page, endpointId: string, from: Time, until: Time): Observation<seq<HourCost>> {
    if !EndpointMetadataOk(page, endpointId, from, until) then Malformed
    else if page.records == [] then Pending
    else if !RecordsOk(page.records, endpointId, ENDPOINT_COMPONENTS) then Malformed
    else
      var s := SortByStart(ParsedRows(page.records, endpointId, ENDPOINT_COMPONENTS));
      match EndpointScan(s, from, until)
      case Bad => Malformed
      case Partial => Pending
      case Whole => if TotalsAccepted(page, s) then Complete(HourCosts(endpointId, s)) else Malformed
  }

  method AuthoritativeHourCosts(page: Page, endpointId: string, from: Time, until: Time)
    returns (r: Observation<seq<HourCost>>)
    ensures r == EndpointOutcome(page, endpointId, from, until)
  {
    if !(page.keysExact && page.queryOwner == endpointId && page.queryHourly
         && page.queryStart == Some(from) && page.queryEnd == Some(until)) { return Malformed; }
    if page.recordCount != Some(|page.records|) || page.uniqueOwners.None? { return Malformed; }
    if page.records == [] {
      if page.uniqueOwners.value !in {0, 1} { return Malformed; }
      return Pending;
    }
    if page.uniqueOwners.value != 1 { return Malformed; }
    var parsed := ParseRecords(page.records, endpointId, ENDPOINT_COMPONENTS);
    if parsed.None? { return Malformed; }
    var sorted := SortByStart(parsed.value);
    var verdict, costs := ScanEndpointHours(sorted, endpointId, from, until);
    if verdict == Partial { return Pending; }
    if verdict == Bad { return Malformed; }
    var accepted := AcceptTotals(page, sorted);
    r := if accepted then Complete(costs) else Malformed;
  }

  method AcceptTotals(page: Page, sorted: seq<Row>) returns (ok: bool)
    ensures ok == TotalsAccepted(page, sorted)
  {
    if |page.totals.parts| != ENDPOINT_COMPONENTS { return false; }
    var expected := ValidatedAmounts(page.totals);
    if expected.None? { return false; }
    ok := TotalsAgree(sorted, expected.value, ENDPOINT_COMPONENTS);
  }

  method ScanEndpointHours(sorted: seq<Row>, endpointId: string, from: Time, until: Time)
    returns (verdict: Verdict, costs: seq<HourCost>)
    ensures verdict == EndpointScan(sorted, from, until)
    ensures verdict == Whole ==> costs == HourCosts(endpointId, sorted)
  {
    var cursor := from;
    costs := [];
    for i := 0 to |sorted|
      invariant EndpointScan(sorted, from, until) == EndpointScan(sorted[i..], cursor, until)
      invariant costs == HourCosts(endpointId, sorted[..i])
    {
      var start, end := sorted[i].start, sorted[i].end;
      assert sorted[i..][0] == sorted[i] && sorted[i..][1..] == sorted[i + 1..];
      if end <= start { return Bad, costs; }
      if start > cursor && start < until { return Partial, costs; }
      if start != cursor { return Bad, costs; }
      if end > until { return Bad, costs; }
      if end < start + HOUR { return Partial, costs; }
      if end != start + HOUR { return Bad, costs; }
      if start % HOUR != 0 { return Bad, costs; }
      costs := costs + [HourCost(endpointId, start, end, sorted[i].amounts)];
      assert sorted[..i + 1] == sorted[..i] + [sorted[i]];
      cursor := end;
    }
    assert sorted[..|sorted|] == sorted;
    verdict := if cursor < until then Partial else Whole;
  }

  lemma {:induction false} EndpointScanWhole(s: seq<Row>, cursor: Time, until: Time)
    requires cursor <= until
    ensures EndpointScan(s, cursor, until) == Whole
            <==> Contiguous(s, cursor) && cursor + |s| * HOUR == until && (s != [] ==> cursor % HOUR == 0)
  {
    if s != [] {
      ContiguousTail(s, cursor);
      if s[0].end <= until { EndpointScanWhole(s[1..], s[0].end, until); }
    }
  }

  lemma OutcomeIsScan(page: Page, endpointId: string, from: Time, until: Time)
    requires from < until && EndpointMetadataOk(page, endpointId, from, until)
    requires RecordsOk(page.records, endpointId, ENDPOINT_COMPONENTS)
    ensures var s := SortByStart(ParsedRows(page.records, endpointId, ENDPOINT_COMPONENTS));
            EndpointOutcome(page, endpointId, from, until).Complete?
            <==> page.records != [] && EndpointScan(s, from, until) == Whole && TotalsAccepted(page, s)
  {}

  lemma ScanIsTiling(parsed: seq<Row>, from: Time, until: Time)
    requires from < until
    ensures EndpointScan(SortByStart(parsed), from, until) == Whole <==> Tiles(parsed, from, until)
    ensures Tiles(parsed, from, until) ==> parsed != []
  {
    TilesIffContiguous(parsed, SortByStart(parsed), from, until);
    EndpointScanWhole(SortByStart(parsed), from, until);
  }

  /** An endpoint page yields costs exactly when it is well formed, its records tile the window
      and its totals are the exact column sums. */
  lemma EndpointHoursAreComplete(page: Page, endpointId: string, from: Time, until: Time)
    requires from < until
    ensures EndpointOutcome(page, endpointId, from, until).Complete?
            <==> && EndpointMetadataOk(page, endpointId, from, until)
                 && RecordsOk(page.records, endpointId, ENDPOINT_COMPONENTS)
                 && Tiles(ParsedRows(page.records, endpointId, ENDPOINT_COMPONENTS), from, until)
                 && TotalsAccepted(page, SortByStart(ParsedRows(page.records, endpointId, ENDPOINT_COMPONENTS)))
  {
    if EndpointMetadataOk(page, endpointId, from, until) && RecordsOk(page.records, endpointId, ENDPOINT_COMPONENTS) {
      OutcomeIsScan(page, endpointId, from, until);
      ScanIsTiling(ParsedRows(page.records, endpointId, ENDPOINT_COMPONENTS), from, until);
    }
  }

  /** The first k rows are the first k whole hours. */
  predicate WholeUpTo(s: seq<Row>, k: nat, from: Time, until: Time) {
    && k <= |s| && (k > 0 ==> from % HOUR == 0 && from + k * HOUR <= until)
    && forall i :: 0 <= i < k ==> s[i].start == from + i * HOUR && s[i].end == s[i].start + HOUR
  }

  /** At the cursor the history is missing or its hour is not over. */
  predicate StillOpen(s: seq<Row>, k: nat, cursor: Time, until: Time)
    requires k <= |s|
  {
    if k == |s| then cursor < until
    else
      && s[k].start < s[k].end
      && (cursor < s[k].start < until || (cursor == s[k].start && s[k].end <= until && s[k].end < cursor + HOUR))
  }

  /** After some whole hours the history stops short. */
  predicate StopsShort(s: seq<Row>, from: Time, until: Time) {
    exists k: nat :: k <= |s| && WholeUpTo(s, k, from, until) && StillOpen(s, k, from + k * HOUR, until)
  }

  lemma ShortTail(s: seq<Row>, from: Time, until: Time, k: nat)
    requires s != [] && from % HOUR == 0 && s[0].start == from && s[0].end == from + HOUR <= until
    ensures WholeUpTo(s, k + 1, from, until) <==> WholeUpTo(s[1..], k, from + HOUR, until)
    ensures k + 1 <= |s| ==>
              (StillOpen(s, k + 1, from + (k + 1) * HOUR, until)
               <==> StillOpen(s[1..], k, from + HOUR + k * HOUR, until))
  {
    var t := s[1..];
    if WholeUpTo(t, k, from + HOUR, until) {
      forall i | 0 <= i < k + 1 ensures s[i].start == from + i * HOUR && s[i].end == s[i].start + HOUR {
        if i > 0 { assert s[i] == t[i - 1]; }
      }
    }
    if WholeUpTo(s, k + 1, from, until) {
      assert forall i :: 0 <= i < k ==> t[i] == s[i + 1];
    }
  }

  /** A first whole hour does not change whether the history stops short. */
  lemma ShortAfterHour(s: seq<Row>, from: Time, until: Time)
    requires s != [] && from % HOUR == 0 && s[0].start == from && s[0].end == from + HOUR <= until
    ensures StopsShort(s, from, until) <==> StopsShort(s[1..], from + HOUR, until)
  {
    var t := s[1..];
    if StopsShort(s, from, until) {
      var k: nat :| k <= |s| && WholeUpTo(s, k, from, until) && StillOpen(s, k, from + k * HOUR, until);
      assert k > 0;
      ShortTail(s, from, until, k - 1);
    }
    if StopsShort(t, from + HOUR, until) {
      var k: nat :| k <= |t| && WholeUpTo(t, k, from + HOUR, until) && StillOpen(t, k, from + HOUR + k * HOUR, until);
      ShortTail(s, from, until, k);
    }
  }

  lemma ShortAtOnce(s: seq<Row>, from: Time, until: Time)
    requires s == [] || from % HOUR != 0 || s[0].start != from || s[0].end != from + HOUR || s[0].end > until
    ensures StopsShort(s, from, until) <==> StillOpen(s, 0, from, until)
  {
    assert WholeUpTo(s, 0, from, until);
    if StopsShort(s, from, until) {
      var k: nat :| k <= |s| && WholeUpTo(s, k, from, until) && StillOpen(s, k, from + k * HOUR, until);
      assert k == 0;
    }
  }

  lemma {:induction false} ScanStopsShort(s: seq<Row>, from: Time, until: Time)
    ensures EndpointScan(s, from, until) == Partial <==> StopsShort(s, from, until)
  {
    if s != [] && from % HOUR == 0 && s[0].start == from && s[0].end == from + HOUR <= until {
      ScanStopsShort(s[1..], from + HOUR, until);
      ShortAfterHour(s, from, until);
    } else {
      ShortAtOnce(s, from, until);
    }
  }

  /** What else a page can amount to: it is waited for exactly if its metadata is right and it has
      no records, or readable ones of which the first that is not the next whole hour leaves a gap
      or has not ended; any other page without costs is malformed. */
  lemma EndpointPagesAreJudged(page: Page, endpointId: string, from: Time, until: Time)
    ensures EndpointOutcome(page, endpointId, from, until).Pending?
            <==> && EndpointMetadataOk(page, endpointId, from, until)
                 && (page.records == []
                     || (&& RecordsOk(page.records, endpointId, ENDPOINT_COMPONENTS)
                         && var parsed := ParsedRows(page.records, endpointId, ENDPOINT_COMPONENTS);
                         StopsShort(SortByStart(parsed), from, until)))
  {
    if page.records != [] && RecordsOk(page.records, endpointId, ENDPOINT_COMPONENTS) {
      ScanStopsShort(SortByStart(ParsedRows(page.records, endpointId, ENDPOINT_COMPONENTS)), from, until);
    }
  }

  /** The readable records of an accepted page, in the order of their hours. */
  function AcceptedRows(page: Page, endpointId: string, from: Time, until: Time): (s: seq<Row>)
    requires EndpointOutcome(page, endpointId, from, until).Complete?
    ensures EndpointOutcome(page, endpointId, from, until).value == HourCosts(endpointId, s)
    ensures RecordsOk(page.records, endpointId, ENDPOINT_COMPONENTS)
    ensures multiset(s) == multiset(ParsedRows(page.records, endpointId, ENDPOINT_COMPONENTS))
  {
    SortByStart(ParsedRows(page.records, endpointId, ENDPOINT_COMPONENTS))
  }

  /** One cost for each hour of the window, in order. */
  predicate CostsHourByHour(costs: seq<HourCost>, endpointId: string, from: Time, until: Time) {
    && |costs| * HOUR == until - from
    && forall k :: 0 <= k < |costs| ==>
         costs[k].endpointId == endpointId && costs[k].start == from + k * HOUR && costs[k].end == from + (k + 1) * HOUR
  }

  lemma HourCostsPermute(endpointId: string, a: seq<Row>, b: seq<Row>)
    requires multiset(a) == multiset(b)
    ensures multiset(HourCosts(endpointId, a)) == multiset(HourCosts(endpointId, b))
  {
    var cost := (r: Row) => HourCost(endpointId, r.start, r.end, r.amounts);
    MappedPermutes(a, b, cost);
    assert HourCosts(endpointId, a) == Mapped(a, cost) && HourCosts(endpointId, b) == Mapped(b, cost);
  }

  lemma AcceptedValue(page: Page, endpointId: string, from: Time, until: Time)
    requires EndpointOutcome(page, endpointId, from, until).Complete?
    ensures RecordsOk(page.records, endpointId, ENDPOINT_COMPONENTS)
    ensures EndpointOutcome(page, endpointId, from, until).value
         == HourCosts(endpointId, SortByStart(ParsedRows(page.records, endpointId, ENDPOINT_COMPONENTS)))
  {}

  /** What comes back of an accepted page: one cost for each hour, each record's exactly once. */
  lemma EndpointCostsAreTheRecords(page: Page, endpointId: string, from: Time, until: Time)
    requires from < until && EndpointOutcome(page, endpointId, from, until).Complete?
    ensures RecordsOk(page.records, endpointId, ENDPOINT_COMPONENTS)
    ensures CostsHourByHour(EndpointOutcome(page, endpointId, from, until).value, endpointId, from, until)
    ensures multiset(EndpointOutcome(page, endpointId, from, until).value)
         == multiset(HourCosts(endpointId, ParsedRows(page.records, endpointId, ENDPOINT_COMPONENTS)))
  {
    AcceptedValue(page, endpointId, from, until);
    EndpointHoursAreComplete(page, endpointId, from, until);
    var parsed := ParsedRows(page.records, endpointId, ENDPOINT_COMPONENTS);
    TilingCosts(endpointId, parsed, from, until);
  }

  lemma TilingCosts(endpointId: string, parsed: seq<Row>, from: Time, until: Time)
    requires from < until && Tiles(parsed, from, until)
    ensures CostsHourByHour(HourCosts(endpointId, SortByStart(parsed)), endpointId, from, until)
    ensures multiset(HourCosts(endpointId, SortByStart(parsed))) == multiset(HourCosts(endpointId, parsed))
  {
    TilesIffContiguous(parsed, SortByStart(parsed), from, until);
    HourCostsPermute(endpointId, SortByStart(parsed), parsed);
  }

  /** Shuffling the records of an accepted page changes nothing that is reported. */
  lemma EndpointRowsIgnoreRecordOrder(page: Page, records: seq<RawRecord>, endpointId: string, from: Time, until: Time)
    requires from < until && multiset(records) == multiset(page.records)
    requires EndpointOutcome(page, endpointId, from, until).Complete?
    ensures EndpointOutcome(page.(records := records), endpointId, from, until)
         == EndpointOutcome(page, endpointId, from, until)
  {
    SameLength(page.records, records);
    ParsedPermute(page.records, records, endpointId, ENDPOINT_COMPONENTS);
    EndpointHoursAreComplete(page, endpointId, from, until);
    TilingSortsUniquely(ParsedRows(page.records, endpointId, ENDPOINT_COMPONENTS),
                        ParsedRows(records, endpointId, ENDPOINT_COMPONENTS), from, until);
  }

  function CostTotals(costs: seq<HourCost>): (c: seq<Decimal>)
    ensures |c| == |costs| && forall i :: 0 <= i < |costs| ==> c[i] == costs[i].amounts.total
  {
    Mapped(costs, (c: HourCost) => c.amounts.total)
  }

  lemma CostsAddUp(endpointId: string, s: seq<Row>, totals: Amounts, e: int)
    requires AllBalanced(s)
    requires FineFor(s, e) && e <= ExactTotal(Column(s, 0)).exponent && e <= totals.total.exponent
    requires ColumnMatches(s, totals, 0)
    ensures LowEnough(AllParts(s), e) && TotalAt(CostTotals(HourCosts(endpointId, s)), e) == TotalAt(AllParts(s), e)
    ensures ScaledTo(totals.total, e) == TotalAt(AllParts(s), e)
  {
    PartsTotal(s, e);
    assert CostTotals(HourCosts(endpointId, s)) == Column(s, 0);
    ExactTotalValue(Column(s, 0), e);
    EqualAtAnyExponent(ExactTotal(Column(s, 0)), totals.total, e);
  }

  lemma AcceptedTotalsMatch(page: Page, endpointId: string, from: Time, until: Time)
    requires EndpointOutcome(page, endpointId, from, until).Complete?
    ensures AmountsOf(page.totals).Some?
    ensures ColumnMatches(AcceptedRows(page, endpointId, from, until), AmountsOf(page.totals).value, 0)
  {}

  lemma AcceptedCostsBalance(page: Page, endpointId: string, from: Time, until: Time)
    requires EndpointOutcome(page, endpointId, from, until).Complete?
    ensures AllBalanced(AcceptedRows(page, endpointId, from, until))
  {
    AcceptedRowsBalance(page.records, endpointId, ENDPOINT_COMPONENTS);
  }

  /** The reported costs add up to every component of every hour, and to the total that the
      page declares. */
  lemma EndpointCostsAreAllComponents(page: Page, endpointId: string, from: Time, until: Time, e: int)
    requires EndpointOutcome(page, endpointId, from, until).Complete?
    requires var s := AcceptedRows(page, endpointId, from, until);
             FineFor(s, e) && e <= ExactTotal(Column(s, 0)).exponent
    requires AmountsOf(page.totals).Some? ==> e <= AmountsOf(page.totals).value.total.exponent
    ensures var s := AcceptedRows(page, endpointId, from, until);
            var total := TotalAt(CostTotals(EndpointOutcome(page, endpointId, from, until).value), e);
            && LowEnough(AllParts(s), e) && total == TotalAt(AllParts(s), e)
            && AmountsOf(page.totals).Some? && ScaledTo(AmountsOf(page.totals).value.total, e) == total
  {
    AcceptedCostsBalance(page, endpointId, from, until);
    AcceptedTotalsMatch(page, endpointId, from, until);
    var s, totals := AcceptedRows(page, endpointId, from, until), AmountsOf(page.totals).value;
    CostsAddUp(endpointId, s, totals, e);
  }

  lemma CostsSumUp(endpointId: string, s: seq<Row>, totals: Amounts)
    requires AllBalanced(s) && ColumnMatches(s, totals, 0)
    ensures TotalValue(CostTotals(HourCosts(endpointId, s))) == TotalValue(AllParts(s)) == Value(totals.total)
  {
    TotalsAreComponents(s);
    assert CostTotals(HourCosts(endpointId, s)) == Column(s, 0);
    ExactTotalIsTheSum(Column(s, 0));
    EqualByValue(ExactTotal(Column(s, 0)), totals.total);
  }

  /** The reported costs add up to every component of every hour, and to the total that the
      page declares, as numbers. */
  lemma EndpointCostsAreTheSum(page: Page, endpointId: string, from: Time, until: Time)
    requires EndpointOutcome(page, endpointId, from, until).Complete?
    ensures AmountsOf(page.totals).Some?
    ensures TotalValue(CostTotals(EndpointOutcome(page, endpointId, from, until).value))
         == TotalValue(AllParts(AcceptedRows(page, endpointId, from, until)))
         == Value(AmountsOf(page.totals).value.total)
  {
    AcceptedCostsBalance(page, endpointId, from, until);
    AcceptedTotalsMatch(page, endpointId, from, until);
    CostsSumUp(endpointId, AcceptedRows(page, endpointId, from, until), AmountsOf(page.totals).value);
  }

  // ---- a consistent history ----

  /** Authoritative amounts per closed UTC hour, keyed by the start of the hour. */
  type History = map<Time, Amounts>

  function HistoryRows(h: History, from: Time, until: Time): (rows: seq<Row>)
    decreases until - from
  {
    if from >= until then []
    else (if from in h then [Row(from, from + HOUR, h[from])] else []) + HistoryRows(h, from + HOUR, until)
  }

  predicate AllHours(h: History, from: Time, until: Time)
    decreases until - from
  {
    from >= until || (from in h && AllHours(h, from + HOUR, until))
  }

  /** The page a truthful provider returns for a window, its records in any order. */
  predicate TruthfulPage(page: Page, h: History, endpointId: string, from: Time, until: Time) {
    && EndpointMetadataOk(page, endpointId, from, until)
    && RecordsOk(page.records, endpointId, ENDPOINT_COMPONENTS)
    && multiset(ParsedRows(page.records, endpointId, ENDPOINT_COMPONENTS)) == multiset(HistoryRows(h, from, until))
    && TotalsAccepted(page, ParsedRows(page.records, endpointId, ENDPOINT_COMPONENTS))
  }

  /** The answer that depends on the history alone. */
  function HistoryOutcome(h: History, endpointId: string, from: Time, until: Time): Observation<seq<HourCost>> {
    if AllHours(h, from, until) then Complete(HourCosts(endpointId, HistoryRows(h, from, until))) else Pending
  }

  lemma {:induction false} HistoryRowsOrdered(h: History, from: Time, until: Time)
    ensures forall i :: 0 <= i < |HistoryRows(h, from, until)| ==> from <= HistoryRows(h, from, until)[i].start < until
    ensures forall i, j :: 0 <= i < j < |HistoryRows(h, from, until)|
                           ==> HistoryRows(h, from, until)[i].start < HistoryRows(h, from, until)[j].start
    decreases until - from
  {
    if from < until {
      HistoryRowsOrdered(h, from + HOUR, until);
      var rest := HistoryRows(h, from + HOUR, until);
      assert from in h ==> forall j :: 1 <= j < |HistoryRows(h, from, until)| ==>
        HistoryRows(h, from, until)[j] == rest[j - 1];
    }
  }

  lemma {:induction false} ScanOfHistory(h: History, from: Time, until: Time)
    requires from % HOUR == 0 && until % HOUR == 0 && from <= until
    ensures EndpointScan(HistoryRows(h, from, until), from, until)
            == if AllHours(h, from, until) then Whole else Partial
    decreases until - from
  {
    if from < until {
      var rows := HistoryRows(h, from, until);
      if from in h {
        ScanOfHistory(h, from + HOUR, until);
        assert rows[0] == Row(from, from + HOUR, h[from]);
        assert rows[1..] == HistoryRows(h, from + HOUR, until);
      } else {
        HistoryRowsOrdered(h, from + HOUR, until);
        assert rows == HistoryRows(h, from + HOUR, until);
        ExactRows(h, from + HOUR, until);
      }
    }
  }

  lemma {:induction false} ExactRows(h: History, from: Time, until: Time)
    ensures forall i :: 0 <= i < |HistoryRows(h, from, until)| ==>
              HistoryRows(h, from, until)[i].end == HistoryRows(h, from, until)[i].start + HOUR
    decreases until - from
  {
    if from < until { ExactRows(h, from + HOUR, until); }
  }

  lemma EmptyHistoryIsIncomplete(h: History, from: Time, until: Time)
    requires from < until && HistoryRows(h, from, until) == []
    ensures !AllHours(h, from, until)
  {}

  lemma TruthfulRowsSort(parsed: seq<Row>, h: History, from: Time, until: Time)
    requires multiset(parsed) == multiset(HistoryRows(h, from, until))
    ensures SortByStart(parsed) == HistoryRows(h, from, until)
  {
    HistoryRowsOrdered(h, from, until);
    SortedUnique(HistoryRows(h, from, until), SortByStart(parsed));
  }

  lemma TruthfulTotals(page: Page, parsed: seq<Row>, rows: seq<Row>)
    requires TotalsAccepted(page, parsed) && multiset(parsed) == multiset(rows)
    ensures TotalsAccepted(page, rows)
  {
    TotalsPermute(parsed, rows, AmountsOf(page.totals).value, ENDPOINT_COMPONENTS);
  }

  /** Rows sorted like the history are read as the history. */
  lemma SortedHistoryRead(page: Page, h: History, endpointId: string, from: Time, until: Time)
    requires from % HOUR == 0 && until % HOUR == 0 && from < until && page.records != []
    requires EndpointMetadataOk(page, endpointId, from, until)
    requires RecordsOk(page.records, endpointId, ENDPOINT_COMPONENTS)
    requires SortByStart(ParsedRows(page.records, endpointId, ENDPOINT_COMPONENTS)) == HistoryRows(h, from, until)
    requires TotalsAccepted(page, HistoryRows(h, from, until))
    ensures EndpointOutcome(page, endpointId, from, until) == HistoryOutcome(h, endpointId, from, until)
  {
    ScanOfHistory(h, from, until);
  }

  /** A truthful page is read as the history it came from. */
  lemma TruthfulPageRead(page: Page, h: History, endpointId: string, from: Time, until: Time)
    requires from % HOUR == 0 && until % HOUR == 0 && from < until
    requires TruthfulPage(page, h, endpointId, from, until)
    ensures EndpointOutcome(page, endpointId, from, until) == HistoryOutcome(h, endpointId, from, until)
  {
    var parsed, rows := ParsedRows(page.records, endpointId, ENDPOINT_COMPONENTS), HistoryRows(h, from, until);
    SameLength(parsed, rows);
    if page.records == [] {
      EmptyHistoryIsIncomplete(h, from, until);
    } else {
      TruthfulRowsSort(parsed, h, from, until);
      TruthfulTotals(page, parsed, rows);
      SortedHistoryRead(page, h, endpointId, from, until);
    }
  }

  // ---- batching ----

  /** What the provider answers for each requested window. */
  type Client = (Time, Time) -> Page

  datatype BatchReading = Costs(costs: seq<HourCost>) | NotYet | Refused

  function Lesser(a: int, b: int): int { if a <= b then a else b }

  /** Consecutive windows from `first` that end at `last`. */
  predicate Chain(windows: seq<Bounds>, first: Time, last: Time) {
    && (windows == [] ==> last == first)
    && (windows != [] ==> windows[0].first == first && windows[|windows| - 1].until == last)
    && (forall i :: 0 <= i < |windows| ==> windows[i].first < windows[i].until)
    && (forall i :: 0 <= i < |windows| - 1 ==> windows[i].until == windows[i + 1].first)
  }

  /** What reading each window gives. */
  type Reader = Bounds -> Observation<seq<HourCost>>

  function Concatenated(read: Reader, windows: seq<Bounds>): seq<HourCost> {
    if windows == [] then []
    else Concatenated(read, windows[..|windows| - 1]) + Accepted(read(windows[|windows| - 1]))
  }

  function Accepted(o: Observation<seq<HourCost>>): seq<HourCost> {
    if o.Complete? then o.value else []
  }

  ghost predicate Truthful(client: Client, h: History, endpointId: string, b: Bounds) {
    forall w :: AlignedWithin(w, b) ==> TruthfulPage(client(w.first, w.until), h, endpointId, w.first, w.until)
  }

  /** A run of windows that were all complete, except that the last one decides. */
  predicate ReadRun(read: Reader, windows: seq<Bounds>, b: Bounds, batchHours: int, r: BatchReading) {
    && (forall i :: 0 <= i < |windows| ==> WindowOk(windows[i], b, batchHours))
    && (forall i :: 0 <= i < |windows| - 1 ==> read(windows[i]).Complete?)
    && windows != []
    && var last := windows[|windows| - 1];
    && Chain(windows, b.first, last.until)
    && match r
       case Costs(costs) => last.until == b.until && costs == Concatenated(read, windows) && read(last).Complete?
       case NotYet => read(last).Pending?
       case Refused => read(last).Malformed?
  }

  function WindowOutcome(client: Client, endpointId: string, w: Bounds): Observation<seq<HourCost>> {
    EndpointOutcome(client(w.first, w.until), endpointId, w.first, w.until)
  }

  function ReaderOf(client: Client, endpointId: string): Reader {
    w => WindowOutcome(client, endpointId, w)
  }

  /** `read` is the reader of this client. */
  ghost predicate Reads(read: Reader, client: Client, endpointId: string) {
    forall w {:trigger client(w.first, w.until)} :: read(w) == WindowOutcome(client, endpointId, w)
  }

  predicate WindowOk(w: Bounds, b: Bounds, batchHours: int) {
    AlignedWithin(w, b) && w.until - w.first <= batchHours * HOUR
  }

  predicate AlignedWithin(w: Bounds, b: Bounds) {
    b.first <= w.first < w.until <= b.until && w.first % HOUR == 0 && w.until % HOUR == 0
  }

  method ReadExactServerlessBilling(client: Client, endpointId: string, createdAt: Time, absentAt: Time,
                                    now: Time, batchHours: int)
    returns (r: BatchReading, windows: seq<Bounds>)
    ensures batchHours < 1 || createdAt >= absentAt ==> r.Refused? && windows == []
    ensures batchHours >= 1 && createdAt < absentAt ==>
              var b := BillingHourBounds(createdAt, absentAt).value;
              if now < b.until then r.NotYet? && windows == []
              else ReadRun(ReaderOf(client, endpointId), windows, b, batchHours, r)
    ensures batchHours >= 1 && createdAt < absentAt ==>
              var b := BillingHourBounds(createdAt, absentAt).value;
              (forall h :: now >= b.until && Truthful(client, h, endpointId, b)
                           ==> r == AsReading(WindowOutcome(client, endpointId, b)))
  {
    windows := [];
    if batchHours < 1 { return Refused, windows; }
    var bounds := BillingHourBounds(createdAt, absentAt);
    if bounds.None? { return Refused, windows; }
    var b := bounds.value;
    HourBoundsAreTight(createdAt, absentAt);
    if now < b.until { return NotYet, windows; }
    r, windows := ReadBatches(client, endpointId, b, batchHours, ReaderOf(client, endpointId));
    forall h | Truthful(client, h, endpointId, b)
      ensures r == AsReading(WindowOutcome(client, endpointId, b))
    {
      TruthfulReader(client, h, endpointId, b);
      BatchingRefinesOneQuery(ReaderOf(client, endpointId), h, endpointId, windows, b, batchHours, r);
    }
  }

  method ReadWindow(client: Client, endpointId: string, w: Bounds, ghost read: Reader)
    returns (o: Observation<seq<HourCost>>)
    requires Reads(read, client, endpointId)
    ensures o == read(w)
  {
    var page := client(w.first, w.until);
    o := AuthoritativeHourCosts(page, endpointId, w.first, w.until);
  }

  /** A full batch, or what is left of the interval; always at least one hour. */
  method NextBounds(cursor: Time, b: Bounds, batchHours: int) returns (w: Bounds)
    requires b.first <= cursor < b.until && cursor % HOUR == 0 && b.until % HOUR == 0 && batchHours >= 1
    ensures w.first == cursor && WindowOk(w, b, batchHours)
    ensures w.until == b.until || w.until == cursor + batchHours * HOUR
  {
    var hours := Lesser(batchHours, (b.until - cursor) / HOUR);
    return Bounds(cursor, Lesser(b.until, cursor + hours * HOUR));
  }

  method ReadBatches(client: Client, endpointId: string, b: Bounds, batchHours: int, ghost read: Reader)
    returns (r: BatchReading, windows: seq<Bounds>)
    requires b.first % HOUR == 0 && b.until % HOUR == 0 && b.first < b.until && batchHours >= 1
    requires Reads(read, client, endpointId)
    ensures ReadRun(read, windows, b, batchHours, r)
  {
    var cursor := b.first;
    var costs: seq<HourCost> := [];
    windows := [];
    while cursor < b.until
      invariant BatchesSo(read, windows, b, batchHours, cursor) && costs == Concatenated(read, windows)
      decreases b.until - cursor
    {
      var w, observed := ReadBatch(client, endpointId, b, batchHours, cursor, read, windows);
      windows := windows + [w];
      if observed.Pending? { return NotYet, windows; }
      if observed.Malformed? { return Refused, windows; }
      costs := costs + observed.value;
      cursor := w.until;
    }
    return Costs(costs), windows;
  }

  /** Every window so far was read completely, and they chain up to the cursor. */
  ghost predicate BatchesSo(read: Reader, windows: seq<Bounds>, b: Bounds, batchHours: int, cursor: Time) {
    && b.first <= cursor <= b.until && cursor % HOUR == 0 && (windows == [] <==> cursor == b.first)
    && Chain(windows, b.first, cursor)
    && (forall i :: 0 <= i < |windows| ==> WindowOk(windows[i], b, batchHours))
    && (forall i :: 0 <= i < |windows| ==> read(windows[i]).Complete?)
  }

  method ReadBatch(client: Client, endpointId: string, b: Bounds, batchHours: int, cursor: Time, ghost read: Reader,
    ghost windows: seq<Bounds>) returns (w: Bounds, o: Observation<seq<HourCost>>)
    requires b.until % HOUR == 0 && batchHours >= 1 && cursor < b.until && Reads(read, client, endpointId)
    requires BatchesSo(read, windows, b, batchHours, cursor)
    ensures o == read(w) && cursor < w.until && WindowOk(w, b, batchHours)
    ensures Chain(windows + [w], b.first, w.until)
    ensures Concatenated(read, windows + [w]) == Concatenated(read, windows) + Accepted(o)
    ensures o.Complete? ==> BatchesSo(read, windows + [w], b, batchHours, w.until)
  {
    w := NextBounds(cursor, b, batchHours);
    o := ReadWindow(client, endpointId, w, read);
    NextWindow(read, windows, b.first, w);
  }

  function AsReading(o: Observation<seq<HourCost>>): BatchReading {
    match o case Complete(costs) => Costs(costs) case Pending => NotYet case Malformed => Refused
  }

  /** The costs gathered so far are those of the complete history up to the cursor. */
  predicate Prefix(h: History, endpointId: string, first: Time, cursor: Time, costs: seq<HourCost>) {
    AllHours(h, first, cursor) && costs == HourCosts(endpointId, HistoryRows(h, first, cursor))
  }

  lemma HourCostsAppend(endpointId: string, a: seq<Row>, b: seq<Row>)
    ensures HourCosts(endpointId, a + b) == HourCosts(endpointId, a) + HourCosts(endpointId, b)
  {}

  lemma NextBatch(h: History, endpointId: string, first: Time, cursor: Time, next: Time, until: Time,
                  costs: seq<HourCost>, o: Observation<seq<HourCost>>)
    requires first % HOUR == 0 && cursor % HOUR == 0 && next % HOUR == 0 && until % HOUR == 0
    requires first <= cursor < next <= until
    requires Prefix(h, endpointId, first, cursor, costs) && o == HistoryOutcome(h, endpointId, cursor, next)
    ensures o.Pending? ==> !AllHours(h, first, until)
    ensures o.Complete? ==> Prefix(h, endpointId, first, next, costs + o.value)
  {
    HistorySplits(h, first, cursor, next);
    HistorySplits(h, first, next, until);
    HourCostsAppend(endpointId, HistoryRows(h, first, cursor), HistoryRows(h, cursor, next));
  }

  /** A reader that answers every aligned window from the history. */
  ghost predicate ReadsHistory(read: Reader, h: History, endpointId: string, b: Bounds) {
    forall w :: AlignedWithin(w, b) ==> read(w) == HistoryOutcome(h, endpointId, w.first, w.until)
  }

  lemma TruthfulReader(client: Client, h: History, endpointId: string, b: Bounds)
    requires Truthful(client, h, endpointId, b)
    ensures ReadsHistory(ReaderOf(client, endpointId), h, endpointId, b)
  {
    forall w | AlignedWithin(w, b)
      ensures ReaderOf(client, endpointId)(w) == HistoryOutcome(h, endpointId, w.first, w.until)
    {
      TruthfulPageRead(client(w.first, w.until), h, endpointId, w.first, w.until);
    }
  }

  /** Complete windows gather exactly the history they span. */
  lemma {:induction false} CompleteWindows(read: Reader, h: History, endpointId: string, windows: seq<Bounds>,
                                           b: Bounds, cursor: Time, batchHours: int)
    requires b.first % HOUR == 0 && b.until % HOUR == 0 && b.first <= cursor <= b.until
    requires ReadsHistory(read, h, endpointId, b) && Chain(windows, b.first, cursor)
    requires forall i :: 0 <= i < |windows| ==> WindowOk(windows[i], b, batchHours)
    requires forall i :: 0 <= i < |windows| ==> read(windows[i]).Complete?
    ensures Prefix(h, endpointId, b.first, cursor, Concatenated(read, windows))
  {
    if windows == [] {
      assert HistoryRows(h, b.first, b.first) == [];
    } else {
      var n := |windows| - 1;
      var w := windows[n];
      CompleteWindows(read, h, endpointId, windows[..n], b, w.first, batchHours);
      NextBatch(h, endpointId, b.first, w.first, w.until, b.until, Concatenated(read, windows[..n]), read(w));
    }
  }

  /** Whatever the batch size, reading a truthful history in batches gives the answer
      that one query over the whole interval gives. */
  lemma BatchingRefinesOneQuery(read: Reader, h: History, endpointId: string, windows: seq<Bounds>, b: Bounds,
                                batchHours: int, r: BatchReading)
    requires b.first % HOUR == 0 && b.until % HOUR == 0 && b.first < b.until
    requires ReadsHistory(read, h, endpointId, b) && ReadRun(read, windows, b, batchHours, r)
    ensures r == AsReading(read(b))
  {
    var n := |windows| - 1;
    var w, before := windows[n], windows[..n];
    assert AlignedWithin(b, b) && WindowOk(w, b, batchHours);
    CompleteWindows(read, h, endpointId, before, b, w.first, batchHours);
    NextBatch(h, endpointId, b.first, w.first, w.until, b.until, Concatenated(read, before), read(w));
  }

  lemma NextWindow(read: Reader, windows: seq<Bounds>, first: Time, w: Bounds)
    requires Chain(windows, first, w.first) && w.first < w.until
    ensures Chain(windows + [w], first, w.until)
    ensures Concatenated(read, windows + [w]) == Concatenated(read, windows) + Accepted(read(w))
  {
    assert (windows + [w])[..|windows|] == windows;
  }

  lemma {:induction false} HistorySplits(h: History, a: Time, b: Time, c: Time)
    requires a % HOUR == 0 && b % HOUR == 0 && c % HOUR == 0 && a <= b <= c
    ensures HistoryRows(h, a, c) == HistoryRows(h, a, b) + HistoryRows(h, b, c)
    ensures AllHours(h, a, c) <==> AllHours(h, a, b) && AllHours(h, b, c)
    decreases b - a
  {
    if a < b { HistorySplits(h, a + HOUR, b, c); }
  }
}
