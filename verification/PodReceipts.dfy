/** The cost observation for one terminated Pod (`read_exact_pod_billing`,
    kestrel_cloud_runpod/pod_billing.py) and the receipt it constructs. */
module PodReceipts {
  import opened Results
  import opened Decimals
  import opened DecimalValues
  import opened CanonicalAmounts
  import opened BillingAmounts
  import opened BillingHours
  import opened Sequences

  /** The digest of the observed identity, kept as the identity itself. */
  datatype BillingId = BillingId(podId: string, hourlyPrice: Text, hours: seq<HourRow>)

  datatype Receipt = Receipt(id: BillingId, podId: string, billedFrom: Time, billedUntil: Time,
                             billedSeconds: int, hourlyPrice: Decimal, actualCost: Decimal, reconciledAt: Time)

  datatype Reading = Observed(receipt: Receipt) | NotYet | Refused

  function ReportedCost(rows: seq<HourRow>): Decimal {
    ExactTotal(Mapped(rows, (r: HourRow) => ReadAmount(r.total)))
  }

  function ReceiptOf(podId: string, rate: Decimal, rows: seq<HourRow>, b: Bounds, reconciledAt: Time): Receipt {
    Receipt(BillingId(podId, IdentityAmount(rate), rows), podId, b.first, b.until,
            (b.until - b.first) / SECOND, rate, ReportedCost(rows), reconciledAt)
  }

  // ---- what the reported cost is ----

  lemma {:induction false} ReadBackTotals(rows: seq<Row>, texts: seq<Decimal>, e: int)
    requires |rows| == |texts| && LowEnough(texts, e)
    requires forall i :: 0 <= i < |rows| ==> e <= rows[i].amounts.total.exponent
    requires forall i :: 0 <= i < |rows| ==> texts[i] == ReadAmount(IdentityAmount(rows[i].amounts.total))
    ensures LowEnough(Column(rows, 0), e) && TotalAt(texts, e) == TotalAt(Column(rows, 0), e)
  {
    if rows != [] {
      var n := |rows| - 1;
      ReadBackTotals(rows[..n], texts[..n], e);
      assert Column(rows, 0)[..n] == Column(rows[..n], 0);
      IdentityTextRoundTrip(rows[n].amounts.total);
      EqualAtAnyExponent(texts[n], rows[n].amounts.total, e);
    }
  }

  lemma CostOfRows(s: seq<Row>, texts: seq<Decimal>, e: int)
    requires FineFor(s, e) && LowEnough(texts, e) && |s| == |texts| && e <= ExactTotal(texts).exponent
    requires AllBalanced(s)
    requires forall i :: 0 <= i < |s| ==> texts[i] == ReadAmount(IdentityAmount(s[i].amounts.total))
    ensures LowEnough(AllParts(s), e) && ScaledTo(ExactTotal(texts), e) == TotalAt(AllParts(s), e)
  {
    PartsTotal(s, e);
    ReadBackTotals(s, texts, e);
    ExactTotalValue(texts, e);
  }

  /** The texts that the reported cost is summed from. */
  function TotalsReadBack(podId: string, s: seq<Row>): (texts: seq<Decimal>)
    ensures |texts| == |s| && forall i :: 0 <= i < |s| ==> texts[i] == ReadAmount(IdentityAmount(s[i].amounts.total))
  {
    Mapped(NormalizedRows(podId, s), (r: HourRow) => ReadAmount(r.total))
  }

  /** The reported cost is the sum of every component of every hour. */
  lemma CostIsAllComponents(page: Page, podId: string, first: Time, until: Time, e: int)
    requires first < until && PodOutcome(page, podId, first, until).Complete?
    requires var s := SortByStart(ParsedRows(page.records, podId, POD_COMPONENTS));
             FineFor(s, e) && LowEnough(TotalsReadBack(podId, s), e)
    requires e <= ReportedCost(PodOutcome(page, podId, first, until).value).exponent
    ensures var s := SortByStart(ParsedRows(page.records, podId, POD_COMPONENTS));
            LowEnough(AllParts(s), e)
            && ScaledTo(ReportedCost(PodOutcome(page, podId, first, until).value), e) == TotalAt(AllParts(s), e)
  {
    var s := SortByStart(ParsedRows(page.records, podId, POD_COMPONENTS));
    AcceptedRowsBalance(page.records, podId, POD_COMPONENTS);
    CostOfRows(s, TotalsReadBack(podId, s), e);
  }

  lemma WholeHours(span: int)
    requires span % HOUR == 0
    ensures (span / SECOND) * SECOND == span && (span / SECOND) % 3600 == 0
  {
    var hours := span / HOUR;
    assert span == hours * 3600 * SECOND;
    assert span / SECOND == hours * 3600;
  }

  /** The billed window covers the Pod's whole life and names its whole seconds. */
  lemma ReceiptCoversLife(podId: string, rate: Decimal, rows: seq<HourRow>, createdAt: Time, terminatedAt: Time,
    at: Time)
    requires createdAt < terminatedAt
    ensures var r := ReceiptOf(podId, rate, rows, BillingHourBounds(createdAt, terminatedAt).value, at);
            && r.billedFrom <= createdAt && terminatedAt <= r.billedUntil
            && r.billedSeconds * SECOND == r.billedUntil - r.billedFrom && r.billedSeconds % 3600 == 0
  {
    HourBoundsAreTight(createdAt, terminatedAt);
    var b := BillingHourBounds(createdAt, terminatedAt).value;
    WholeHours(b.until - b.first);
  }

  lemma {:induction false} ReadBackIsTheTotal(rows: seq<Row>, texts: seq<Decimal>)
    requires |rows| == |texts|
    requires forall i :: 0 <= i < |rows| ==> texts[i] == ReadAmount(IdentityAmount(rows[i].amounts.total))
    ensures TotalValue(texts) == TotalValue(Column(rows, 0))
  {
    if rows != [] {
      var n := |rows| - 1;
      ReadBackIsTheTotal(rows[..n], texts[..n]);
      assert Column(rows, 0)[..n] == Column(rows[..n], 0);
      IdentityTextRoundTrip(rows[n].amounts.total);
      EqualByValue(texts[n], rows[n].amounts.total);
    }
  }

  lemma CostOfBalancedRows(podId: string, s: seq<Row>)
    requires AllBalanced(s)
    ensures Value(ReportedCost(NormalizedRows(podId, s))) == TotalValue(AllParts(s))
  {
    var texts := TotalsReadBack(podId, s);
    TotalsAreComponents(s);
    ReadBackIsTheTotal(s, texts);
    ExactTotalIsTheSum(texts);
  }

  /** The reported cost is the sum of every component of every hour, as a number. */
  lemma CostIsTheSumOfComponents(page: Page, podId: string, first: Time, until: Time)
    requires PodOutcome(page, podId, first, until).Complete?
    ensures Value(ReportedCost(PodOutcome(page, podId, first, until).value))
         == TotalValue(AllParts(SortByStart(ParsedRows(page.records, podId, POD_COMPONENTS))))
  {
    AcceptedRowsBalance(page.records, podId, POD_COMPONENTS);
    CostOfBalancedRows(podId, SortByStart(ParsedRows(page.records, podId, POD_COMPONENTS)));
  }

  // ---- the cost, from the records as they came ----

  /** The sum of every component of every record of a page, as numbers. */
  function RecordedCost(records: seq<RawRecord>): real
    requires forall i :: 0 <= i < |records| ==> PartsUsable(records[i].amounts.parts)
  {
    if records == [] then 0.0
    else RecordedCost(records[..|records| - 1]) + RawTotalValue(records[|records| - 1].amounts.parts)
  }

  /** The receipt's cost is the sum of every component of every record, and not negative. */
  predicate CostsWhatWasRecorded(receipt: Receipt, records: seq<RawRecord>) {
    && (forall i :: 0 <= i < |records| ==> PartsUsable(records[i].amounts.parts))
    && Value(receipt.actualCost) == RecordedCost(records) >= 0.0
  }

  lemma AcceptedParts(r: RawRecord, owner: string, arity: nat)
    requires RecordOk(r, owner, arity)
    ensures PartsUsable(r.amounts.parts)
    ensures TotalValue(ParsedRow(r, owner, arity).amounts.parts) == RawTotalValue(r.amounts.parts)
  {
    AmountsOfMeans(r.amounts);
    CleanPartsKeepTotal(r.amounts.parts);
  }

  lemma AllAcceptedParts(records: seq<RawRecord>, owner: string, arity: nat)
    requires RecordsOk(records, owner, arity)
    ensures forall i :: 0 <= i < |records| ==> PartsUsable(records[i].amounts.parts)
  {
    forall i | 0 <= i < |records| ensures PartsUsable(records[i].amounts.parts) {
      AcceptedParts(records[i], owner, arity);
    }
  }

  lemma {:induction false} PartsOfRecords(records: seq<RawRecord>, owner: string, arity: nat)
    requires RecordsOk(records, owner, arity)
    requires forall i :: 0 <= i < |records| ==> PartsUsable(records[i].amounts.parts)
    ensures TotalValue(AllParts(ParsedRows(records, owner, arity))) == RecordedCost(records)
  {
    if records != [] {
      var n := |records| - 1;
      var rows := ParsedRows(records, owner, arity);
      PartsOfRecords(records[..n], owner, arity);
      assert rows[..n] == ParsedRows(records[..n], owner, arity);
      AcceptedParts(records[n], owner, arity);
      TotalValueAppend(AllParts(rows[..n]), rows[n].amounts.parts);
    }
  }

  function PartsValue(r: Row): real { TotalValue(r.amounts.parts) }

  lemma {:induction false} PartsByRow(rows: seq<Row>)
    ensures TotalValue(AllParts(rows)) == Sum(Mapped(rows, PartsValue))
  {
    if rows != [] {
      var n := |rows| - 1;
      PartsByRow(rows[..n]);
      assert Mapped(rows, PartsValue)[..n] == Mapped(rows[..n], PartsValue);
      TotalValueAppend(AllParts(rows[..n]), rows[n].amounts.parts);
    }
  }

  /** What is reported is the sum of every component of every record, as they came. */
  lemma CostIsTheSumOfRecords(page: Page, podId: string, first: Time, until: Time)
    requires PodOutcome(page, podId, first, until).Complete?
    ensures RecordsOk(page.records, podId, POD_COMPONENTS)
    ensures forall i :: 0 <= i < |page.records| ==> PartsUsable(page.records[i].amounts.parts)
    ensures Value(ReportedCost(PodOutcome(page, podId, first, until).value)) == RecordedCost(page.records) >= 0.0
  {
    var parsed := ParsedRows(page.records, podId, POD_COMPONENTS);
    CostIsTheSumOfComponents(page, podId, first, until);
    AllAcceptedParts(page.records, podId, POD_COMPONENTS);
    PartsByRow(SortByStart(parsed));
    MappedPermutes(SortByStart(parsed), parsed, PartsValue);
    SumPermutes(Mapped(SortByStart(parsed), PartsValue), Mapped(parsed, PartsValue));
    PartsByRow(parsed);
    PartsOfRecords(page.records, podId, POD_COMPONENTS);
    CostsAreNotNegative(page.records);
  }

  lemma {:induction false} PartsAreNotNegative(parts: seq<RawAmount>)
    requires PartsUsable(parts)
    ensures 0.0 <= RawTotalValue(parts)
  {
    if parts != [] {
      PartsAreNotNegative(parts[..|parts| - 1]);
      ValueHasItsSign(RawValue(parts[|parts| - 1]));
    }
  }

  lemma {:induction false} CostsAreNotNegative(records: seq<RawRecord>)
    requires forall i :: 0 <= i < |records| ==> PartsUsable(records[i].amounts.parts)
    ensures 0.0 <= RecordedCost(records)
  {
    if records != [] {
      CostsAreNotNegative(records[..|records| - 1]);
      PartsAreNotNegative(records[|records| - 1].amounts.parts);
    }
  }

  // ---- the observation ----

  /** `page` is what the provider returns when asked for exactly the hour window; it is
      only asked once that window has closed. */
  method ReadExactPodBilling(podId: string, createdAt: Time, terminatedAt: Time, rate: Operand,
                             now: Time, page: Page, reconciledAt: Time) returns (r: Reading, asked: bool)
    ensures asked ==> createdAt < terminatedAt && now >= BillingHourBounds(createdAt, terminatedAt).value.until
    ensures r.Observed? <==>
              && rate.Finite? && Signed(rate.value) >= 0 && createdAt < terminatedAt
              && var b := BillingHourBounds(createdAt, terminatedAt).value;
              && now >= b.until && reconciledAt >= b.until
              && PodOutcome(page, podId, b.first, b.until).Complete?
    ensures r.Observed? ==>
              var b := BillingHourBounds(createdAt, terminatedAt).value;
              && r.receipt.podId == podId && r.receipt.hourlyPrice == rate.value
              && r.receipt.reconciledAt == reconciledAt
              && r.receipt.billedFrom == b.first <= createdAt && terminatedAt <= b.until == r.receipt.billedUntil
              && r.receipt.billedSeconds * SECOND == b.until - b.first
              && r.receipt.id == BillingId(podId, IdentityAmount(rate.value),
                                           PodOutcome(page, podId, b.first, b.until).value)
    ensures r.Observed? ==> CostsWhatWasRecorded(r.receipt, page.records)
    ensures r.NotYet? <==>
              && rate.Finite? && Signed(rate.value) >= 0 && createdAt < terminatedAt
              && var b := BillingHourBounds(createdAt, terminatedAt).value;
              now < b.until || PodOutcome(page, podId, b.first, b.until).Pending?
  {
    asked := false;
    if rate.NotFinite? || Signed(rate.value) < 0 { return Refused, asked; }
    var bounds := BillingHourBounds(createdAt, terminatedAt);
    if bounds.None? { return Refused, asked; }
    var window := bounds.value;
    if now < window.until { return NotYet, asked; }
    asked := true;
    var rows := ExactHours(page, podId, window.first, window.until);
    if rows.Pending? { return NotYet, asked; }
    if rows.Malformed? { return Refused, asked; }
    var receipt := ReceiptOf(podId, rate.value, rows.value, window, reconciledAt);
    CostIsTheSumOfRecords(page, podId, window.first, window.until);
    ValueHasItsSign(receipt.actualCost);
    ReceiptCoversLife(podId, rate.value, rows.value, createdAt, terminatedAt, reconciledAt);
    if receipt.reconciledAt < receipt.billedUntil || Signed(receipt.actualCost) < 0 { return Refused, asked; }
    return Observed(receipt), asked;
  }
}
