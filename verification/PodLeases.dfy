/** The durable Pod lease row and the evidence, receipts and artifact handoff it carries
    (kestrel_cloud_runpod/pod_capacity_contracts.py). Times are integer microseconds,
    digests and identifiers are opaque. */
module PodLeases {

  import opened Results

  type Token = nat
  type PodId = nat
  type Attempt = nat
  type Digest = nat

  datatype Source = ConfiguredPersistent | StoppedReuse | Created

  datatype Ownership = Provisional | Owned | PreexistingRunning

  datatype State =
    | Requested | Starting | Ready | JobSubmitted | JobCompleted | ResultRetrieved | CancelRequested
    | ReconcileRequired | Releasing | Released

  datatype Cleanup = NotRequested | Pending | RetryableFailure | Complete | NotOwned

  datatype BillingState = NotApplicable | BillingPending | Authoritative | Unresolved

  datatype Workload =
    | NotSubmitted | Idle | Running | Cancelling | Succeeded | AwaitingAck | Acknowledged | Failed | Cancelled

  /** The immutable terms of a catalog attempt. `handoff` says that it uses the artifact
      handoff protocol; attempts from before it have none. */
  datatype Spec = Spec(owner: string, workload: string, attempt: Attempt, requestSha: Digest, imageDigest: Digest,
                       handoff: bool, shape: nat, hourlyRate: real, idleSeconds: int)

  datatype PodRequest = PodRequest(
    token: Token, root: Token, source: Source, name: nat, podId: Option<PodId>, createdAt: int,
    readinessDeadline: int, hardDeadline: int, spec: Option<Spec>)

  /** What the request constructors enforce. */
  predicate ValidRequest(r: PodRequest) {
    && r.createdAt < r.readinessDeadline < r.hardDeadline
    && (r.source == Created <==> r.podId.None?)
    && (r.spec.Some? ==> r.source == Created && 0.0 < r.spec.value.hourlyRate)
  }

  // ---- Receipts ----

  /** Why a lease settles without a Pod; it is part of the identity of the zero-cost receipt. */
  datatype Reason = BeforeCreate | RejectedCreate | NoPodHeld

  datatype BillingId = FromProvider(digest: Digest) | WithoutPod(token: Token, reason: Reason)

  datatype Receipt = Receipt(id: BillingId, podId: Option<PodId>, billedFrom: int, billedUntil: int, billedSeconds: int,
                             hourlyRate: real, cost: real, reconciledAt: int)

  /** What the receipt constructor enforces. */
  predicate ValidReceipt(r: Receipt) {
    && r.billedFrom <= r.billedUntil <= r.reconciledAt && 0 <= r.billedSeconds
    && r.billedSeconds == (r.billedUntil - r.billedFrom) / 1_000_000
    && 0.0 <= r.hourlyRate && 0.0 <= r.cost
    && (r.podId.None? ==> r.billedFrom == r.billedUntil && r.cost == 0.0)
  }

  function ZeroCostReceipt(token: Token, reason: Reason, s: Spec, at: int): (r: Receipt)
    requires 0.0 < s.hourlyRate
    ensures ValidReceipt(r) && r.podId.None? && r.reconciledAt == at && r.cost == 0.0 && r.hourlyRate == s.hourlyRate
  {
    Receipt(WithoutPod(token, reason), None, at, at, 0, s.hourlyRate, 0.0, at)
  }

  // ---- Evidence ----

  datatype Placement = Placement(podId: PodId, shape: nat, hourlyRate: real, observedAt: int)

  datatype Worker = Worker(attempt: Attempt, requestSha: Digest, imageDigest: Digest, startedAt: Option<int>, body: nat)

  /** First observations; None is a phase not observed. */
  datatype Times = Times(
    createAccepted: Option<int>, adopted: Option<int>, firstRunning: Option<int>, workerReady: Option<int>,
    submitted: Option<int>, running: Option<int>, ended: Option<int>, stopConfirmed: Option<int>,
    reconciled: Option<int>)

  const NO_TIMES: Times := Times(None, None, None, None, None, None, None, None, None)

  datatype Evidence = Evidence(times: Times, realized: Option<Placement>, worker: Option<Worker>,
                               billing: Option<Receipt>)

  const NO_EVIDENCE: Evidence := Evidence(NO_TIMES, None, None, None)

  function First<T>(a: Option<T>, b: Option<T>): Option<T> {
    if a.Some? then a else b
  }

  function Timeline(reservedAt: int, t: Times): seq<Option<int>> {
    [Some(reservedAt), First(t.createAccepted, t.adopted), t.firstRunning, t.workerReady, t.submitted, t.running,
     t.ended, t.stopConfirmed, t.reconciled]
  }

  /** What the lifecycle constructor enforces: what was observed never runs backwards, and a
      Pod is not both create-accepted and adopted. */
  predicate ValidTimes(reservedAt: int, t: Times) {
    var line := Timeline(reservedAt, t);
    && (forall i, j :: 0 <= i < j < |line| && line[i].Some? && line[j].Some? ==> line[i].value <= line[j].value)
    && !(t.createAccepted.Some? && t.adopted.Some?)
  }

  /** What the evidence constructor enforces beyond its lifecycle. */
  predicate ValidEvidence(s: Spec, e: Evidence) {
    && (e.realized.Some? ==> e.realized.value.shape == s.shape && e.realized.value.hourlyRate <= s.hourlyRate)
    && (e.worker.Some? ==> (
      && e.worker.value.attempt == s.attempt && e.worker.value.requestSha == s.requestSha
      && e.worker.value.imageDigest == s.imageDigest))
    && (e.billing.Some? && e.realized.Some? ==> (
      && e.billing.value.podId == Some(e.realized.value.podId)
      && e.billing.value.hourlyRate == e.realized.value.hourlyRate))
    && (e.billing.Some? && e.times.reconciled.Some? ==> e.times.reconciled == Some(e.billing.value.reconciledAt))
  }

  function MergedTimes(t: Times, p: Times): Times {
    Times(First(t.createAccepted, p.createAccepted), First(t.adopted, p.adopted), First(t.firstRunning, p.firstRunning),
          First(t.workerReady, p.workerReady), First(t.submitted, p.submitted), First(t.running, p.running),
          First(t.ended, p.ended), First(t.stopConfirmed, p.stopConfirmed), First(t.reconciled, p.reconciled))
  }

  predicate Differs<T(==)>(a: Option<T>, b: Option<T>) {
    a.Some? && b.Some? && a != b
  }

  /** `_transition_with_evidence`: first observations win, and a second record that differs
      is a conflict. */
  function Merged(r: PodRequest, e: Evidence, p: Evidence): Result<Evidence, Exception>
    requires r.spec.Some?
  {
    var merged := Evidence(MergedTimes(e.times, p.times), First(e.realized, p.realized), First(e.worker, p.worker),
                           First(e.billing, p.billing));
    if !ValidTimes(r.createdAt, merged.times) then Failure(ValueError)
    else if Differs(e.realized, p.realized) || Differs(e.worker, p.worker) || Differs(e.billing, p.billing) then
      Failure(ConflictError)
    else if !ValidEvidence(r.spec.value, merged) then Failure(ValueError)
    else Success(merged)
  }

  predicate Kept<T(==)>(a: Option<T>, b: Option<T>) { a.Some? ==> b == a }

  predicate TimesFollow(t: Times, u: Times) {
    && Kept(t.createAccepted, u.createAccepted) && Kept(t.adopted, u.adopted) && Kept(t.firstRunning, u.firstRunning)
    && Kept(t.workerReady, u.workerReady) && Kept(t.submitted, u.submitted) && Kept(t.running, u.running)
    && Kept(t.ended, u.ended) && Kept(t.stopConfirmed, u.stopConfirmed) && Kept(t.reconciled, u.reconciled)
  }

  /** Every record is write-once. */
  predicate EvidenceFollows(e: Evidence, f: Evidence) {
    && TimesFollow(e.times, f.times) && Kept(e.realized, f.realized) && Kept(e.worker, f.worker)
    && Kept(e.billing, f.billing)
  }

  lemma MergeKeepsEvidence(r: PodRequest, e: Evidence, p: Evidence)
    requires r.spec.Some? && Merged(r, e, p).Success?
    ensures EvidenceFollows(e, Merged(r, e, p).value)
    ensures ValidTimes(r.createdAt, Merged(r, e, p).value.times)
    ensures ValidEvidence(r.spec.value, Merged(r, e, p).value)
    ensures p.billing.Some? ==> Merged(r, e, p).value.billing == p.billing
    ensures p.billing.None? ==> Merged(r, e, p).value.billing == e.billing
  {}

  /** Everything observed so far happened by this time. */
  predicate ObservedBy(reservedAt: int, t: Times, at: int) {
    forall i :: 0 <= i < 9 && Timeline(reservedAt, t)[i].Some? ==> Timeline(reservedAt, t)[i].value <= at
  }

  /** Dating the reconciliation keeps the order of events exactly if it comes after them. */
  lemma ReconciledLast(reservedAt: int, t: Times, at: int)
    requires ValidTimes(reservedAt, t) && t.reconciled.None?
    ensures ValidTimes(reservedAt, MergedTimes(t, NO_TIMES.(reconciled := Some(at)))) <==> ObservedBy(reservedAt, t, at)
  {
    var line, dated := Timeline(reservedAt, t), Timeline(reservedAt, MergedTimes(t, NO_TIMES.(reconciled := Some(at))));
    assert dated == line[8 := Some(at)];
    if ValidTimes(reservedAt, MergedTimes(t, NO_TIMES.(reconciled := Some(at)))) {
      forall i | 0 <= i < 9 && line[i].Some? ensures line[i].value <= at { assert dated[i].value <= dated[8].value; }
    }
  }

  /** A settlement without provider capacity reads the clock twice. It is accepted exactly
      when the two readings agree and nothing was observed later; otherwise a ValueError,
      which no reconcile pass catches, leaves the lease where it was. */
  lemma ZeroCostSettlementNeedsOneReading(r: PodRequest, e: Evidence, reason: Reason, at: int, reconciledAt: int)
    requires r.spec.Some? && 0.0 < r.spec.value.hourlyRate
    requires ValidEvidence(r.spec.value, e) && ValidTimes(r.createdAt, e.times)
    requires e.realized.None? && e.billing.None? && e.times.reconciled.None?
    ensures var patch := Evidence(NO_TIMES.(reconciled := Some(at)), None, None,
                                  Some(ZeroCostReceipt(r.token, reason, r.spec.value, reconciledAt)));
      && (Merged(r, e, patch).Success? <==> at == reconciledAt && ObservedBy(r.createdAt, e.times, at))
      && (Merged(r, e, patch).Failure? ==> Merged(r, e, patch).error == ValueError)
  {
    ReconciledLast(r.createdAt, e.times, at);
  }

  /** The two readings can differ: a fresh attempt whose receipt is dated one tick later. */
  lemma ZeroCostSettlementCanFail(r: PodRequest, reason: Reason, at: int)
    requires r.spec.Some? && 0.0 < r.spec.value.hourlyRate && r.createdAt <= at
    ensures var patch := NO_EVIDENCE.(times := NO_TIMES.(reconciled := Some(at)),
                                      billing := Some(ZeroCostReceipt(r.token, reason, r.spec.value, at)));
      && Merged(r, NO_EVIDENCE, patch).Success?
      && Merged(r, NO_EVIDENCE, patch.(billing := Some(ZeroCostReceipt(r.token, reason, r.spec.value, at + 1))))
         == Failure(ValueError)
  {
    var times := MergedTimes(NO_TIMES, NO_TIMES.(reconciled := Some(at)));
    assert Timeline(r.createdAt, times) == [Some(r.createdAt), None, None, None, None, None, None, None, Some(at)];
    assert ValidTimes(r.createdAt, times);
  }

  /** A settlement already stored, whose bearer could not be revoked, is settled again at the
      next visit: accepted exactly when the new receipt is dated like the stored one and gives
      the same reason, and otherwise a conflict, visit after visit. */
  lemma RepeatedSettlementNeedsTheStoredReading(r: PodRequest, e: Evidence, stored: Reason, first: int, reason: Reason,
    at: int, reconciledAt: int)
    requires r.spec.Some? && 0.0 < r.spec.value.hourlyRate
    requires ValidEvidence(r.spec.value, e) && ValidTimes(r.createdAt, e.times)
    requires e.billing == Some(ZeroCostReceipt(r.token, stored, r.spec.value, first))
    requires e.times.reconciled == Some(first)
    ensures var patch := Evidence(NO_TIMES.(reconciled := Some(at)), None, None,
                                  Some(ZeroCostReceipt(r.token, reason, r.spec.value, reconciledAt)));
      Merged(r, e, patch) == if reconciledAt == first && reason == stored then Success(e) else Failure(ConflictError)
  {
    assert MergedTimes(e.times, NO_TIMES.(reconciled := Some(at))) == e.times;
  }

  // ---- Artifact handoff ----

  datatype Intent = Intent(ackSha: Digest, payloadSha: Digest)

  /** The host's acknowledgement; `payload` is the digest of the whole of it. */
  datatype Ack = Ack(attempt: Attempt, requestSha: Digest, resultSha: Digest, receiptSha: Digest, intent: Intent)

  datatype Handoff = Handoff(attempt: Attempt, requestSha: Digest, resultSha: Digest, receiptSha: Digest,
                             intent: Option<Intent>, remoteAckAt: Option<int>, confirmedAt: Option<int>)

  /** What the handoff constructor enforces: confirmation needs the observed remote
      acknowledgement, which needs a persisted intent. */
  predicate ValidHandoff(h: Handoff) {
    && (h.remoteAckAt.Some? ==> h.intent.Some?)
    && (h.confirmedAt.Some? ==> h.remoteAckAt.Some?)
  }

  function BindAcknowledgement(h: Handoff, a: Ack): Result<Handoff, Exception> {
    if a.attempt != h.attempt || a.requestSha != h.requestSha || a.resultSha != h.resultSha
       || a.receiptSha != h.receiptSha
    then Failure(ValueError)
    else if h.intent.Some? && h.intent.value != a.intent then Failure(ValueError)
    else Success(h.(intent := Some(a.intent)))
  }

  predicate HandoffFollows(a: Option<Handoff>, b: Option<Handoff>) {
    a.Some? ==> (
      && b.Some?
      && b.value.attempt == a.value.attempt && b.value.requestSha == a.value.requestSha
      && b.value.resultSha == a.value.resultSha && b.value.receiptSha == a.value.receiptSha
      && Kept(a.value.intent, b.value.intent) && Kept(a.value.remoteAckAt, b.value.remoteAckAt)
      && Kept(a.value.confirmedAt, b.value.confirmedAt))
  }

  // ---- The row ----

  /** `request` stands for its own fingerprint and the columns copied from it. */
  datatype Lease = Lease(
    request: PodRequest, podId: Option<PodId>, ownership: Ownership, state: State, cleanup: Cleanup,
    familyRequested: bool, familyComplete: bool, uncertain: bool, route: Option<string>, jobId: Option<Attempt>,
    heartbeat: int, lastError: Option<string>, stopAttempts: nat, workload: Workload, billing: BillingState,
    receipt: Option<Receipt>, terminatedAt: Option<int>, evidence: Option<Evidence>, handoff: Option<Handoff>,
    revision: nat)

  predicate Catalog(l: Lease) { l.request.spec.Some? }

  /** A catalog attempt under the artifact handoff protocol. */
  predicate HandsOff(l: Lease) { l.request.spec.Some? && l.request.spec.value.handoff }

  function NewLease(r: PodRequest): Lease {
    Lease(r, r.podId, Provisional, Requested, NotRequested, false, false, false, None, None, r.createdAt, None, 0,
          NotSubmitted, if r.spec.Some? then BillingPending else NotApplicable, None, None,
          if r.spec.Some? then Some(NO_EVIDENCE) else None, None, 0)
  }

  /** Whether the result can be handed over. */
  predicate ResultReady(l: Lease) {
    if HandsOff(l) then l.workload == AwaitingAck || l.workload == Acknowledged else l.workload == Succeeded
  }

  /** The phases of a lease, in the order they may be entered. */
  function Phase(s: State): nat {
    match s
    case Requested => 0
    case Starting => 1
    case Ready => 2
    case JobSubmitted => 3
    case JobCompleted => 4
    case ResultRetrieved => 5
    case CancelRequested => 5
    case ReconcileRequired => 5
    case Releasing => 5
    case Released => 6
  }

  /** How far the worker got; a delayed poll cannot take it back. */
  function Progress(w: Workload): nat {
    match w
    case NotSubmitted => 0
    case Idle => 0
    case Running => 1
    case Succeeded => 2
    case AwaitingAck => 2
    case Acknowledged => 3
    case _ => 4
  }

  // ---- What a worker observation changes ----

  datatype Observation = Observation(attempt: Attempt, requestSha: Digest, state: Workload, resultSha: Digest,
                                     receiptSha: Digest, ackSha: Digest)

  predicate CarriesHandoff(o: Observation) { o.state == AwaitingAck || o.state == Acknowledged }

  /** The handoff after an observation, or why the observation is refused. */
  function ObservedHandoff(l: Lease, o: Observation, at: int): Result<Option<Handoff>, Exception>
    requires Catalog(l)
  {
    var s := l.request.spec.value;
    if o.attempt != s.attempt || o.requestSha != s.requestSha then Failure(ConflictError)
    else if s.handoff && o.state == Succeeded then Failure(ConflictError)
    else if !s.handoff && CarriesHandoff(o) then Failure(ConflictError)
    else if !CarriesHandoff(o) then Success(l.handoff)
    else if l.handoff.Some?
            && (l.handoff.value.resultSha != o.resultSha || l.handoff.value.receiptSha != o.receiptSha) then
      Failure(ConflictError)
    else
      var bound := if l.handoff.Some? then l.handoff.value
                   else Handoff(o.attempt, s.requestSha, o.resultSha, o.receiptSha, None, None, None);
      if o.state == AwaitingAck then Success(Some(bound))
      else if bound.intent.None? || bound.intent.value.ackSha != o.ackSha then Failure(ConflictError)
      else Success(Some(bound.(remoteAckAt := First(bound.remoteAckAt, Some(at)))))
  }

  /** Whether an observation may still move the job, or only add to the handoff. */
  predicate Progresses(l: Lease, o: Observation) {
    && (l.state == Ready || l.state == JobSubmitted || l.state == JobCompleted)
    && l.workload != Cancelling
    && (Progress(o.state) == 4 || Progress(l.workload) <= Progress(o.state))
  }

  function ObservedState(l: Lease, o: Observation): State {
    match o.state
    case Running => JobSubmitted
    case Succeeded => JobCompleted
    case AwaitingAck => JobCompleted
    case Acknowledged => JobCompleted
    case Failed => CancelRequested
    case Cancelled => CancelRequested
    case Cancelling => CancelRequested
    case _ => l.state
  }

  function ObservedTimes(o: Observation, submitted: bool, at: int): Times {
    NO_TIMES.(
      submitted := if submitted then Some(at) else None,
      running := if o.state == Running then Some(at) else None,
      ended := if o.state in {Succeeded, AwaitingAck, Acknowledged, Failed, Cancelled} then Some(at) else None)
  }
}
