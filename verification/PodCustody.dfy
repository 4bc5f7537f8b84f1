/** Custody of a Pod when the operations on its lease are serialised: one operation at a
    time, any of which may crash between two writes. */
module PodCustody {

  import opened Results
  import opened PodLeases
  import opened PodWrites
  import opened PodInvariants

  /** The receipt is for the bound Pod, at its realized rate, to its recorded termination. */
  predicate Covers(l: Lease, r: Receipt) {
    && l.podId.Some? && r.podId == l.podId
    && l.terminatedAt.Some? && l.terminatedAt.value <= r.billedUntil
    && l.evidence.Some? && l.evidence.value.realized.Some? && l.evidence.value.realized.value.podId == l.podId.value
    && r.hourlyRate == l.evidence.value.realized.value.hourlyRate
  }

  /** The bill is not final yet. */
  predicate BillOpen(l: Lease) { l.billing == BillingPending || l.billing == Unresolved }

  /** What a clean-up that returns normally leaves: a released lease, or a catalog lease whose
      clean-up is complete, with its termination recorded, and that only waits for its bill. */
  predicate Cleared(l: Lease) {
    l.state == Released || (Catalog(l) && BillOpen(l) && l.cleanup == Complete && l.terminatedAt.Some?)
  }

  /** The lease has a receipt from before now, and is not released. */
  predicate SettledBefore(l: Lease, now: int) {
    l.state != Released && l.receipt.Some? && l.receipt.value.reconciledAt < now
  }

  /** A catalog lease on its way out that was settled before now: its bearer could not be
      revoked then. */
  predicate Unrevoked(l: Lease, now: int) {
    && Catalog(l) && SettledBefore(l, now)
    && l.state in {Releasing, CancelRequested, ReconcileRequired, ResultRetrieved}
    && (l.podId.Some? || !l.uncertain)
  }

  /** One that was settled without a Pod, and waits for nothing else. */
  predicate Stuck(l: Lease, now: int) {
    Unrevoked(l, now) && l.state == Releasing && l.podId.None? && l.billing == Authoritative
  }

  /** What a call site also knows when nothing else has written the row since it was read. */
  predicate Orderly(w: Write, l: Lease, c: Cloud) {
    match w
    case ToAcquire(a) => OrderlyAcquiring(a, l)
    case ToClear(d) => OrderlyClearing(d, l)
    case _ => true
  }

  predicate OrderlyAcquiring(w: Acquisition, l: Lease) {
    match w
    case OwnStarted(_) => l.ownership == Provisional
    case ReleaseUnowned(_, _) => l.state == Requested
    case BindPod(_, _, _, _) => l.uncertain
    case Adopt(_, _, _) => l.uncertain
    case GiveUp(_) => l.uncertain
    case _ => true
  }

  predicate OrderlyClearing(w: Clearing, l: Lease) {
    match w
    case RetryLater(_, doubtful, _) => doubtful ==> l.uncertain
    case ReleaseNotOwned(_) => l.ownership == PreexistingRunning
    case NoCapacity(cause, _, _, _) => l.podId.None? && (cause.CreateRejected? || !l.uncertain)
    case Settle(receipt) =>
      Catalog(l) ==> l.cleanup == Complete && !l.uncertain && (l.podId.Some? ==> Covers(l, receipt))
    case FinalRelease(_) => Catalog(l) ==> l.billing == Authoritative
    case _ => true
  }

  lemma AcquisitionKeepsDecision(w: Acquisition, l: Lease, c: Cloud)
    requires Sound(l, c) && KnownAcquiring(w, l, c) && Orderly(ToAcquire(w), l, c) && l.state != Requested
    ensures AcquisitionColumns(w, l).ownership == PreexistingRunning <==> l.ownership == PreexistingRunning
  {}

  lemma OthersKeepOwnership(w: Write, l: Lease)
    requires !w.ToAcquire?
    ensures Columns(w, l).ownership == l.ownership
  {}

  /** Whether the Pod of a claim was found running is decided when the claim leaves REQUESTED. */
  lemma OwnershipIsDecided(w: Write, l: Lease, c: Cloud)
    requires Sound(l, c) && Enabled(w, l, c) && Orderly(w, l, c) && l.state != Requested
    ensures Apply(w, l).ownership == PreexistingRunning <==> l.ownership == PreexistingRunning
  {
    if w.ToAcquire? { AcquisitionKeepsDecision(w.a, l, c); } else { OthersKeepOwnership(w, l); }
    assert Apply(w, l).ownership == Columns(w, l).ownership;
  }

  /** No Pod of the lease can be billing: its create was never admitted, was definitely
      rejected, or made the bound Pod, which was confirmed halted. This is about created leases:
      a claim of an existing Pod admits no create, and the Pod it claims is not its own. */
  predicate NothingRuns(l: Lease, c: Cloud) {
    || l.request.token !in c.holder
    || l.request.token in c.rejected
    || (l.podId.Some? && l.podId.value in c.halted)
  }

  /** A Pod whose clean-up is complete was confirmed halted, a lease whose create is of unknown
      outcome is neither cleaned up nor released, and a lease is given back untouched only if its
      Pod counts as running before it. */
  predicate PodCustody(l: Lease, c: Cloud) {
    && (l.podId.Some? && l.cleanup == Complete ==> l.podId.value in c.halted)
    && (l.uncertain ==> l.podId.None? && l.cleanup != Complete && l.state != Released)
    && (l.state == Released && !Catalog(l) ==> l.cleanup == Complete || l.cleanup == NotOwned)
    && (l.cleanup == NotOwned ==> l.request.source != Created && l.ownership == PreexistingRunning)
  }

  predicate CatalogCustody(l: Lease, c: Cloud) {
    && (l.request.token in c.holder && !l.uncertain && l.podId.None? ==> l.request.token in c.rejected)
    && (l.uncertain ==> l.billing != Authoritative)
    && (l.state == Released || l.billing == Authoritative || l.cleanup == Complete ==> NothingRuns(l, c))
    && (l.state == Released ==> l.billing == Authoritative)
    && (l.billing == Authoritative && l.podId.Some? ==> l.receipt.Some? && Covers(l, l.receipt.value))
  }

  predicate Custody(l: Lease, c: Cloud) {
    PodCustody(l, c) && (Catalog(l) ==> CatalogCustody(l, c))
  }

  /** Nothing that the lease is answerable for can be billing: for a catalog lease no Pod at all;
      a training lease was given back with its Pod as it was before, or holds no Pod, or had its
      Pod confirmed halted. */
  predicate LetGo(l: Lease, c: Cloud) {
    if Catalog(l) then NothingRuns(l, c)
    else
      || (l.cleanup == NotOwned && l.request.source != Created && l.ownership == PreexistingRunning)
      || l.podId.None?
      || l.podId.value in c.halted
  }

  /** A serialised clean-up that returns normally has let go of the lease. */
  lemma ClearedMeansLetGo(l: Lease, c: Cloud)
    requires Custody(l, c) && Cleared(l)
    ensures LetGo(l, c)
  {}

  lemma AcquisitionKeepsCustody(w: Acquisition, l: Lease, c: Cloud)
    requires Sound(l, c) && Custody(l, c) && KnownAcquiring(w, l, c) && Orderly(ToAcquire(w), l, c) && !w.StartCreate?
    ensures Custody(AcquisitionColumns(w, l), c)
  {}

  lemma AdmissionKeepsCustody(w: Acquisition, l: Lease, c: Cloud, actor: Actor)
    requires Sound(l, c) && Custody(l, c) && KnownAcquiring(w, l, c) && w.StartCreate?
    ensures Custody(AcquisitionColumns(w, l), c.(holder := c.holder[l.request.token := actor]))
  {}


  /** The columns that custody is about. */
  predicate SameHoldings(l: Lease, m: Lease) {
    && m.request == l.request && m.podId == l.podId && m.ownership == l.ownership && m.cleanup == l.cleanup
    && m.uncertain == l.uncertain && m.billing == l.billing && m.receipt == l.receipt
    && m.terminatedAt == l.terminatedAt && m.evidence == l.evidence && (m.state == Released <==> l.state == Released)
  }

  lemma HoldingsKeepCustody(l: Lease, m: Lease, c: Cloud)
    requires Custody(l, c) && SameHoldings(l, m)
    ensures Custody(m, c)
  {}

  lemma WorkSpares(w: Activity, l: Lease)
    requires KnownWorking(w, l)
    ensures SameHoldings(l, ActivityColumns(w, l))
  {}

  lemma ActivityKeepsCustody(w: Activity, l: Lease, c: Cloud)
    requires Custody(l, c) && KnownWorking(w, l)
    ensures Custody(ActivityColumns(w, l), c)
  {
    WorkSpares(w, l);
    HoldingsKeepCustody(l, ActivityColumns(w, l), c);
  }

  lemma HandingOverSpares(w: HandingOver, l: Lease)
    requires KnownHanding(w, l)
    ensures SameHoldings(l, HandoffColumns(w, l))
  {}

  lemma HandingOverKeepsCustody(w: HandingOver, l: Lease, c: Cloud)
    requires Custody(l, c) && KnownHanding(w, l)
    ensures Custody(HandoffColumns(w, l), c)
  {
    HandingOverSpares(w, l);
    HoldingsKeepCustody(l, HandoffColumns(w, l), c);
  }

  lemma ClearingKeepsCustody(w: Clearing, l: Lease, c: Cloud)
    requires Sound(l, c) && Custody(l, c) && KnownClearing(w, l, c) && Orderly(ToClear(w), l, c)
    ensures Custody(ClearingColumns(w, l), c)
  {}

  /** New evidence does not change what a receipt covers. */
  lemma CustodyIgnoresNewEvidence(columns: Lease, e: Option<Evidence>, revision: nat, c: Cloud)
    requires Custody(columns, c)
    requires columns.evidence.Some? ==> e.Some? && Kept(columns.evidence.value.realized, e.value.realized)
    ensures Custody(columns.(evidence := e, revision := revision), c)
  {}

  lemma ColumnsKeepCustody(w: Write, l: Lease, c: Cloud)
    requires Sound(l, c) && Custody(l, c) && Known(w, l, c) && Orderly(w, l, c) && !Admits(w)
    ensures Custody(Columns(w, l), c)
  {
    match w {
      case ToAcquire(a) => AcquisitionKeepsCustody(a, l, c);
      case ToWork(b) => ActivityKeepsCustody(b, l, c);
      case ToHand(h) => HandingOverKeepsCustody(h, l, c);
      case ToClear(d) => ClearingKeepsCustody(d, l, c);
    }
  }

  lemma WriteKeepsCustody(w: Write, l: Lease, c: Cloud)
    requires Sound(l, c) && Custody(l, c) && Enabled(w, l, c) && Orderly(w, l, c) && !Admits(w)
    ensures Custody(Apply(w, l), c)
  {
    PatchKeepsEvidence(l, Patch(w, l));
    ColumnsKeepCustody(w, l, c);
    var columns, e := Columns(w, l), PatchedEvidence(l, Patch(w, l)).value;
    assert columns.evidence.Some? ==> e.Some? && Kept(columns.evidence.value.realized, e.value.realized);
    CustodyIgnoresNewEvidence(columns, e, l.revision + 1, c);
  }
}
