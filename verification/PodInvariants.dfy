/** What every write keeps of one Pod lease row: its own invariant, its agreement with the
    provider, the order of its life, and (when the operations on the lease are serialised)
    the custody of its Pod. */
module PodInvariants {

  import opened Results
  import opened PodLeases
  import opened PodWrites

  /** The stored row always satisfies its own constructors, the receipt of the row is the
      receipt of the evidence, and each late phase has its proof. */
  predicate RowInv(l: Lease) {
    && ValidRequest(l.request)
    && (l.evidence.Some? <==> Catalog(l))
    && l.receipt == (if l.evidence.Some? then l.evidence.value.billing else None)
    && (l.evidence.Some? ==> ValidTimes(l.request.createdAt, l.evidence.value.times))
    && (l.evidence.Some? ==> ValidEvidence(l.request.spec.value, l.evidence.value) && Dated(l.evidence.value))
    && (l.billing == Authoritative ==> l.receipt.Some?)
    && (Catalog(l) && l.state == Released ==> l.receipt.Some?)
    && (!Catalog(l) ==> l.workload == NotSubmitted)
    && HandoffInv(l)
    && (l.state == Requested ==> l.podId == l.request.podId && l.ownership == Provisional && !l.uncertain
                                 && l.billing != Authoritative && l.cleanup != Complete)
    && (l.request.source != Created ==> l.podId == l.request.podId)
    && (l.request.source == Created ==> l.ownership != PreexistingRunning)
    && (l.uncertain ==> l.request.source == Created)
    && (l.familyComplete ==> l.familyRequested)
  }

  /** A receipt is stored together with the time of its reconciliation. */
  predicate Dated(e: Evidence) { e.billing.Some? ==> e.times.reconciled.Some? }

  /** The handoff chain: confirmation needs the remote acknowledgement, which needs the
      persisted intent, which needs the observed binding; and the phases that depend on it. */
  predicate HandoffOk(l: Lease) {
    && (l.handoff.Some? ==> (
      && HandsOff(l) && ValidHandoff(l.handoff.value)
      && l.handoff.value.attempt == l.request.spec.value.attempt
      && l.handoff.value.requestSha == l.request.spec.value.requestSha))
    && (l.workload == AwaitingAck || l.workload == Acknowledged ==> l.handoff.Some?)
    && (l.workload == Acknowledged ==> l.handoff.value.remoteAckAt.Some?)
    && (HandsOff(l) ==> l.workload != Succeeded)
    && (HandsOff(l) && l.state == JobCompleted ==> ResultReady(l))
    && (HandsOff(l) && l.state == ResultRetrieved ==> l.handoff.Some? && l.handoff.value.confirmedAt.Some?)
  }

  predicate HandoffInv(l: Lease) { HandoffOk(l) && InStep(l) }

  /** The state of the lease keeps up with its worker: it is never behind what the worker was
      seen to have done, and under the handoff protocol a job counts as submitted exactly while
      it was last seen running. */
  predicate InStep(l: Lease) {
    && (l.workload == Running ==> l.state !in {Requested, Starting, Ready})
    && (l.workload in {Succeeded, AwaitingAck, Acknowledged} ==> l.state !in {Requested, Starting, Ready, JobSubmitted})
    && (l.workload in {Failed, Cancelled, Cancelling} ==>
          l.state !in {Requested, Starting, Ready, JobSubmitted} && (HandsOff(l) ==> l.state != JobCompleted))
    && (HandsOff(l) && l.state == JobSubmitted ==> l.workload == Running)
  }

  /** What the row says of its Pod was observed: a claim that counts its Pod as running before
      it saw it running, unless it was given back; one that owns it saw it stopped and then started
      it; and a ready lease saw its Pod running and, if it is a catalog lease, its worker healthy. */
  predicate Witnessed(l: Lease, c: Cloud) {
    && (l.request.source != Created && l.ownership == PreexistingRunning ==>
          Saw(l, PodRunning, c) || (l.state == Released && l.cleanup == NotOwned))
    && (l.request.source != Created && l.ownership == Owned ==> Saw(l, PodStopped, c) && WokeUp(l, c))
    && (l.state == Ready ==> Serves(l, c))
  }

  /** The row against the provider. */
  predicate Coupled(l: Lease, c: Cloud) {
    var t := l.request.token;
    && (t in c.holder ==> l.request.source == Created && l.state != Requested)
    && (l.request.source == Created && l.podId.Some? ==> MadePod(l, l.podId.value, c))
    && (Catalog(l) && l.state == Released ==> l.request.spec.value.attempt in c.revoked)
    && Witnessed(l, c)
    && (forall d :: d in c.dispatched && d.0 == t ==> l.handoff.Some? && l.handoff.value.intent == Some(d.1))
  }

  /** `m` may follow `l` in the life of one row. */
  predicate Precedes(l: Lease, m: Lease) {
    && l.request == m.request
    && l.revision <= m.revision && (l.revision == m.revision ==> l == m)
    && (l.state == Released ==> m.state == Released)
    && (l.state != Requested ==> m.state != Requested)
    && (HandsOff(l) ==> Phase(l.state) <= Phase(m.state))
    && Progress(l.workload) <= Progress(m.workload)
    && HandoffFollows(l.handoff, m.handoff)
    && (l.evidence.Some? ==> m.evidence.Some? && EvidenceFollows(l.evidence.value, m.evidence.value))
    && Kept(l.receipt, m.receipt) && Kept(l.podId, m.podId)
    && (l.familyRequested ==> m.familyRequested)
  }

  /** Only an admitted create can have been rejected, or have made a Pod. */
  predicate CloudInv(c: Cloud) {
    && c.posted <= c.holder.Keys && c.rejected <= c.holder.Keys && c.pods.Keys <= c.posted && c.rejected !! c.pods.Keys
  }

  lemma PrecedesIsTransitive(l: Lease, m: Lease, n: Lease)
    requires Precedes(l, m) && Precedes(m, n)
    ensures Precedes(l, n)
  {}

  /** How far a lease has come: the part of `Precedes` about its state. */
  predicate Onward(l: Lease, m: Lease) {
    && (l.state == Released ==> m.state == Released)
    && (l.state != Requested ==> m.state != Requested)
    && (HandsOff(l) ==> Phase(l.state) <= Phase(m.state))
    && Progress(l.workload) <= Progress(m.workload)
  }

  // ---- An observation ----

  /** What an accepted observation leaves as the handoff. */
  predicate HandoffSeen(l: Lease, o: Observation, h: Option<Handoff>) {
    && HandoffFollows(l.handoff, h)
    && (h.Some? ==> (
      && HandsOff(l) && ValidHandoff(h.value) && h.value.attempt == l.request.spec.value.attempt
      && h.value.requestSha == l.request.spec.value.requestSha))
    && (CarriesHandoff(o) ==> h.Some?) && (o.state == Acknowledged ==> h.value.remoteAckAt.Some?)
    && (HandsOff(l) ==> o.state != Succeeded)
  }

  /** A binding once observed stays, and an acknowledgement is seen only for a persisted
      intent. */
  lemma ObservedHandoffIsSeen(l: Lease, o: Observation, at: int)
    requires HandoffInv(l) && Catalog(l) && ObservedHandoff(l, o, at).Success?
    ensures HandoffSeen(l, o, ObservedHandoff(l, o, at).value)
  {}

  /** The state moves with what the worker was seen to have done. */
  lemma ObservationKeepsStep(l: Lease, o: Observation, at: int, h: Option<Handoff>)
    requires InStep(l) && Catalog(l) && (HandsOff(l) ==> o.state != Succeeded && l.workload != Succeeded)
    requires HandsOff(l) && l.state == JobCompleted ==> ResultReady(l)
    ensures InStep(AfterObservation(l, o, at, h))
  {}

  lemma ObservationKeepsChain(l: Lease, o: Observation, at: int, h: Option<Handoff>)
    requires HandoffOk(l) && Catalog(l) && HandoffSeen(l, o, h)
    ensures HandoffOk(AfterObservation(l, o, at, h))
  {}

  lemma ObservationKeepsHandoff(l: Lease, o: Observation, at: int, h: Option<Handoff>)
    requires HandoffInv(l) && Catalog(l) && HandoffSeen(l, o, h)
    ensures HandoffInv(AfterObservation(l, o, at, h))
  {
    ObservationKeepsChain(l, o, at, h);
    ObservationKeepsStep(l, o, at, h);
  }

  /** A delayed poll neither restarts a completed job nor revives a stopped one. */
  lemma ObservationKeepsPhase(l: Lease, o: Observation, at: int, h: Option<Handoff>)
    requires HandoffInv(l) && Catalog(l)
    ensures Onward(l, AfterObservation(l, o, at, h))
  {}

  // ---- The columns that any write sets ----

  /** The columns that tell who owns which Pod. */
  predicate Custodian(l: Lease) {
    && (l.state == Requested ==> l.podId == l.request.podId && l.ownership == Provisional && !l.uncertain
                                 && l.billing != Authoritative && l.cleanup != Complete)
    && (l.request.source != Created ==> l.podId == l.request.podId)
    && (l.request.source == Created ==> l.ownership != PreexistingRunning)
    && (l.uncertain ==> l.request.source == Created)
    && (!Catalog(l) ==> l.workload == NotSubmitted)
    && (l.familyComplete ==> l.familyRequested)
  }

  predicate PodKept(l: Lease, m: Lease, c: Cloud) {
    && m.request == l.request && Kept(l.podId, m.podId) && (l.familyRequested ==> m.familyRequested)
    && (m.request.source == Created && m.podId.Some? ==> MadePod(m, m.podId.value, c))
  }

  predicate ReceiptKept(l: Lease, m: Lease, p: Evidence) {
    && m.receipt == (if Catalog(l) && p.billing.Some? then p.billing else l.receipt)
    && (m.billing == Authoritative ==> m.receipt.Some?)
    && (Catalog(l) && m.state == Released ==> m.receipt.Some?)
  }

  predicate Revoked(l: Lease, c: Cloud) {
    Catalog(l) && l.state == Released ==> l.request.spec.value.attempt in c.revoked
  }

  /** A write's columns keep every part of the row's invariant and order. */
  predicate ColumnsKept(l: Lease, m: Lease, p: Evidence, c: Cloud) {
    && HandoffInv(m) && HandoffFollows(l.handoff, m.handoff) && Onward(l, m)
    && Custodian(m) && PodKept(l, m, c) && ReceiptKept(l, m, p) && Revoked(m, c) && Witnessed(m, c)
  }

  predicate Sound(l: Lease, c: Cloud) { RowInv(l) && CloudInv(c) && Coupled(l, c) }

  lemma AcquisitionKeeps(w: Acquisition, l: Lease, c: Cloud)
    requires Sound(l, c) && KnownAcquiring(w, l, c)
    ensures ColumnsKept(l, AcquisitionColumns(w, l), Patch(ToAcquire(w), l), c)
  {}

  lemma ActivityKeepsHandoff(w: Activity, l: Lease)
    requires RowInv(l) && KnownWorking(w, l)
    ensures HandoffInv(ActivityColumns(w, l)) && Onward(l, ActivityColumns(w, l))
  {}

  /** What work leaves alone. */
  lemma ActivitySpares(w: Activity, l: Lease)
    requires KnownWorking(w, l)
    ensures var m := ActivityColumns(w, l);
      && m.handoff == l.handoff && m.request == l.request && m.podId == l.podId && m.ownership == l.ownership
      && m.cleanup == l.cleanup && m.uncertain == l.uncertain && m.billing == l.billing && m.receipt == l.receipt
      && (l.familyRequested ==> m.familyRequested) && (m.familyComplete ==> m.familyRequested || l.familyComplete)
      && (!Catalog(l) ==> m.workload == l.workload)
      && (m.state == l.state || (l.state != Released && m.state !in {Requested, Ready, Released}))
  {}

  lemma ActivityKeepsPod(w: Activity, l: Lease, c: Cloud)
    requires Sound(l, c) && KnownWorking(w, l)
    ensures var m := ActivityColumns(w, l);
      && m.handoff == l.handoff && Custodian(m) && PodKept(l, m, c) && ReceiptKept(l, m, Patch(ToWork(w), l))
      && Revoked(m, c) && Witnessed(m, c)
  {
    ActivitySpares(w, l);
    assert Patch(ToWork(w), l).billing.None?;
  }

  lemma ActivityKeeps(w: Activity, l: Lease, c: Cloud)
    requires Sound(l, c) && KnownWorking(w, l)
    ensures ColumnsKept(l, ActivityColumns(w, l), Patch(ToWork(w), l), c)
  {
    ActivityKeepsHandoff(w, l);
    ActivityKeepsPod(w, l, c);
    KeptFromParts(l, ActivityColumns(w, l), Patch(ToWork(w), l), c);
  }

  /** What an observation leaves alone. */
  lemma ObservationSpares(l: Lease, o: Observation, at: int, h: Option<Handoff>)
    ensures var m := AfterObservation(l, o, at, h);
      && m.handoff == h && m.request == l.request && m.podId == l.podId && m.ownership == l.ownership
      && m.cleanup == l.cleanup && m.uncertain == l.uncertain && m.billing == l.billing && m.receipt == l.receipt
      && m.familyRequested == l.familyRequested && m.familyComplete == l.familyComplete
      && (m.state == l.state || (Progresses(l, o) && m.state in {JobSubmitted, JobCompleted, CancelRequested}))
  {}

  lemma ObservationKeepsCustody(o: Observation, at: int, h: Option<Handoff>, p: Evidence, l: Lease, c: Cloud)
    requires Sound(l, c) && Catalog(l) && p.billing.None?
    ensures var m := AfterObservation(l, o, at, h);
      && Custodian(m) && PodKept(l, m, c) && ReceiptKept(l, m, p) && Revoked(m, c) && Witnessed(m, c)
      && m.handoff == h
  {
    ObservationSpares(l, o, at, h);
  }

  lemma KeptFromParts(l: Lease, m: Lease, p: Evidence, c: Cloud)
    requires HandoffInv(m) && HandoffFollows(l.handoff, m.handoff) && Onward(l, m)
    requires Custodian(m) && PodKept(l, m, c) && ReceiptKept(l, m, p) && Revoked(m, c) && Witnessed(m, c)
    ensures ColumnsKept(l, m, p, c)
  {}

  lemma ObservationKeeps(o: Observation, at: int, h: Option<Handoff>, p: Evidence, l: Lease, c: Cloud)
    requires Sound(l, c) && Catalog(l) && HandoffSeen(l, o, h) && p.billing.None?
    ensures ColumnsKept(l, AfterObservation(l, o, at, h), p, c)
  {
    var m := AfterObservation(l, o, at, h);
    ObservationKeepsHandoff(l, o, at, h);
    ObservationKeepsPhase(l, o, at, h);
    ObservationKeepsCustody(o, at, h, p, l, c);
    KeptFromParts(l, m, p, c);
  }

  lemma BindingKeeps(ack: Ack, l: Lease, c: Cloud)
    requires Sound(l, c) && KnownHanding(BindAck(ack), l)
    ensures ColumnsKept(l, HandoffColumns(BindAck(ack), l), NO_EVIDENCE, c)
  {}

  lemma ConfirmationKeeps(confirmed: int, at: int, l: Lease, c: Cloud)
    requires Sound(l, c) && KnownHanding(HostConfirm(confirmed, at), l)
    ensures ColumnsKept(l, HandoffColumns(HostConfirm(confirmed, at), l), NO_EVIDENCE, c)
  {}

  lemma HandingOverKeeps(w: HandingOver, l: Lease, c: Cloud)
    requires Sound(l, c) && KnownHanding(w, l)
    ensures ColumnsKept(l, HandoffColumns(w, l), Patch(ToHand(w), l), c)
  {
    match w {
      case Observe(o, _, at) =>
        ObservedHandoffIsSeen(l, o, at);
        ObservationKeeps(o, at, ObservedHandoff(l, o, at).value, Patch(ToHand(w), l), l, c);
      case BindAck(ack) => BindingKeeps(ack, l, c);
      case HostConfirm(confirmed, at) => ConfirmationKeeps(confirmed, at, l, c);
    }
  }

  lemma SettlementKeeps(w: Clearing, l: Lease, c: Cloud)
    requires Sound(l, c) && KnownClearing(w, l, c) && w.NoCapacity?
    ensures ColumnsKept(l, SettledNow(l, w.cause, w.zero, w.beat, w.at), Patch(ToClear(w), l), c)
  {}

  lemma HaltKeeps(w: Clearing, l: Lease, c: Cloud)
    requires Sound(l, c) && KnownClearing(w, l, c) && w.Halted?
    ensures ColumnsKept(l, AfterHalt(l, w.byRelease, w.at), Patch(ToClear(w), l), c)
  {}

  lemma OtherClearingKeeps(w: Clearing, l: Lease, c: Cloud)
    requires Sound(l, c) && KnownClearing(w, l, c) && !w.NoCapacity? && !w.Halted?
    ensures ColumnsKept(l, ClearingColumns(w, l), Patch(ToClear(w), l), c)
  {}

  lemma ClearingKeeps(w: Clearing, l: Lease, c: Cloud)
    requires Sound(l, c) && KnownClearing(w, l, c)
    ensures ColumnsKept(l, ClearingColumns(w, l), Patch(ToClear(w), l), c)
  {
    match w {
      case NoCapacity(_, _, _, _) => SettlementKeeps(w, l, c);
      case Halted(_, _, _) => HaltKeeps(w, l, c);
      case _ => OtherClearingKeeps(w, l, c);
    }
  }

  /** Evidence that gets nothing new stays valid. */
  lemma EmptyPatchSucceeds(l: Lease)
    requires RowInv(l)
    ensures PatchedEvidence(l, NO_EVIDENCE) == Success(l.evidence)
  {
    if l.evidence.Some? {
      assert MergedTimes(l.evidence.value.times, NO_TIMES) == l.evidence.value.times;
    }
  }

  lemma PatchKeepsEvidence(l: Lease, p: Evidence)
    requires RowInv(l) && PatchedEvidence(l, p).Success? && Dated(p)
    ensures EvidenceKept(l, PatchedEvidence(l, p).value, p)
  {
    if Catalog(l) { MergeKeepsEvidence(l.request, l.evidence.value, p); }
  }

  predicate EvidenceKept(l: Lease, e: Option<Evidence>, p: Evidence) {
    && (e.Some? <==> Catalog(l)) && (l.evidence.Some? <==> Catalog(l))
    && (e.Some? ==> (
      && ValidTimes(l.request.createdAt, e.value.times) && ValidEvidence(l.request.spec.value, e.value)
      && Dated(e.value) && EvidenceFollows(l.evidence.value, e.value)
      && e.value.billing == (if p.billing.Some? then p.billing else l.evidence.value.billing)
      && Kept(l.evidence.value.billing, e.value.billing)))
  }

  /** A settlement over a row that has a receipt: accepted exactly if it is the same receipt,
      and otherwise a conflict. */
  lemma StoredReceiptIsFinal(l: Lease, x: Receipt)
    requires RowInv(l) && Catalog(l) && l.receipt.Some?
    ensures PatchedEvidence(l, Patch(ToClear(Settle(x)), l))
         == if x == l.receipt.value then Success(l.evidence) else Failure(ConflictError)
  {
    var t := l.evidence.value.times;
    assert MergedTimes(t, NO_TIMES.(reconciled := Some(x.reconciledAt))) == t;
  }

  /** A row put together from columns and evidence that each keep their part. */
  lemma RowFromParts(l: Lease, columns: Lease, e: Option<Evidence>, p: Evidence, c: Cloud)
    requires RowInv(l) && EvidenceKept(l, e, p) && ColumnsKept(l, columns, p, c)
    ensures RowInv(columns.(evidence := e, revision := l.revision + 1))
    ensures Precedes(l, columns.(evidence := e, revision := l.revision + 1))
  {}

  lemma WriteKeepsColumns(w: Write, l: Lease, c: Cloud)
    requires Sound(l, c) && Enabled(w, l, c)
    ensures ColumnsKept(l, Columns(w, l), Patch(w, l), c)
  {
    match w {
      case ToAcquire(a) => AcquisitionKeeps(a, l, c);
      case ToWork(b) => ActivityKeeps(b, l, c);
      case ToHand(h) => HandingOverKeeps(h, l, c);
      case ToClear(d) => ClearingKeeps(d, l, c);
    }
  }

  lemma WriteKeepsRow(w: Write, l: Lease, c: Cloud)
    requires Sound(l, c) && Enabled(w, l, c)
    ensures RowInv(Apply(w, l)) && Precedes(l, Apply(w, l)) && Revoked(Apply(w, l), c)
    ensures ReceiptKept(l, Apply(w, l), Patch(w, l)) && PodKept(l, Apply(w, l), c) && Witnessed(Apply(w, l), c)
  {
    PatchKeepsEvidence(l, Patch(w, l));
    WriteKeepsColumns(w, l, c);
    RowFromParts(l, Columns(w, l), PatchedEvidence(l, Patch(w, l)).value, Patch(w, l), c);
  }

  /** The write that admits the one create of a lease. */
  predicate Admits(w: Write) { w.ToAcquire? && w.a.StartCreate? }

  function CloudAfter(w: Write, l: Lease, c: Cloud, actor: Actor): Cloud {
    if Admits(w) then c.(holder := c.holder[l.request.token := actor]) else c
  }

  lemma WriteKeepsCoupling(w: Write, l: Lease, c: Cloud, actor: Actor)
    requires Sound(l, c) && Enabled(w, l, c)
    ensures Coupled(Apply(w, l), CloudAfter(w, l, c, actor))
  {
    WriteKeepsRow(w, l, c);
    CoupledFromParts(l, Apply(w, l), Patch(w, l), c, CloudAfter(w, l, c, actor));
  }

  lemma CoupledFromParts(l: Lease, m: Lease, p: Evidence, c: Cloud, d: Cloud)
    requires Sound(l, c) && Precedes(l, m) && ReceiptKept(l, m, p) && PodKept(l, m, c) && Revoked(m, c)
    requires Witnessed(m, c)
    requires d.(holder := c.holder) == c
    requires l.request.token in d.holder ==>
      l.request.token in c.holder || (l.request.source == Created && m.state != Requested)
    ensures Coupled(m, d)
  {}
}
