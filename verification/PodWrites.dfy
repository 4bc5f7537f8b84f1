/** Every change the Pod service writes to a lease row, and when it writes each
    (kestrel_cloud_runpod/pod_capacity_service.py). */
module PodWrites {

  import opened Results
  import opened PodLeases

  type Actor = nat

  datatype Cause = CreateRejected(error: string) | NoProviderCapacity | BeforeCreation

  function ReasonOf(c: Cause): Reason {
    match c
    case CreateRejected(_) => RejectedCreate
    case NoProviderCapacity => NoPodHeld
    case BeforeCreation => BeforeCreate
  }

  datatype JobStatus = Finished | Stopped | Other

  /** The changes passed to `compare_and_set`, one constructor for each call site or family
      of identical call sites: while capacity is acquired, */
  datatype Acquisition =
    | ClaimRunning(route: Option<string>, at: int)
    | ClaimStopped(at: int)
    | OwnStarted(at: int)
    | ReleaseUnowned(failure: Option<string>, at: int)
    | StartCreate(at: int)
    | BindPod(id: PodId, realized: Option<Placement>, failure: Option<string>, at: int)
    | Adopt(id: PodId, realized: Option<Placement>, at: int)
    | AwaitCreate(error: string)
    | GiveUp(at: int)
    | Observed(route: Option<string>, running: bool, at: int)
    | HealthNote(error: string, at: int)
    | BecomeReady(at: int)

  /** while it works, */
  datatype Activity =
    | Beat(at: int)
    | RecordJob(job: Attempt, at: int)
    | NoteOperation(error: string, at: int)
    | RecordStatus(status: JobStatus, at: int)
    | ResultTaken(at: int)
    | RequestCancel(at: int)
    | RecordWorker(worker: Worker, at: int)
    | RefreshRoute(route: Option<string>)
    | NoteError(error: string)
    | RequestFamily(at: int)
    | CompleteFamily(at: int)

  /** while its result is handed over, */
  datatype HandingOver =
    | Observe(observation: Observation, submitted: bool, at: int)
    | BindAck(ack: Ack)
    | HostConfirm(confirmed: int, at: int)

  /** and while it is cleaned up and settled. */
  datatype Clearing =
    | RetryLater(error: string, doubtful: bool, at: int)
    | ReleaseNotOwned(at: int)
    | BeginRelease(at: int)
    | CountStop
    | StopUnconfirmed(at: int)
    | Halted(id: PodId, byRelease: bool, at: int)
    | NoCapacity(cause: Cause, zero: Option<Receipt>, beat: int, at: int)
    | LeaveUnresolved(error: string)
    | LeavePending
    | Settle(receipt: Receipt)
    | FinalRelease(at: int)

  datatype Write = ToAcquire(a: Acquisition) | ToWork(b: Activity) | ToHand(h: HandingOver) | ToClear(d: Clearing)

  /** What a write adds to the evidence; an observation adds to it only when it moves the
      job. */
  function Patch(w: Write, l: Lease): Evidence {
    match w
    case ToAcquire(BindPod(_, realized, _, at)) =>
      NO_EVIDENCE.(times := NO_TIMES.(createAccepted := Some(at)), realized := realized)
    case ToAcquire(Adopt(_, realized, at)) =>
      NO_EVIDENCE.(times := NO_TIMES.(adopted := Some(at)), realized := realized)
    case ToAcquire(Observed(_, running, at)) =>
      NO_EVIDENCE.(times := NO_TIMES.(firstRunning := if running then Some(at) else None))
    case ToAcquire(BecomeReady(at)) => NO_EVIDENCE.(times := NO_TIMES.(workerReady := Some(at)))
    case ToWork(RecordWorker(worker, _)) => NO_EVIDENCE.(worker := Some(worker))
    case ToHand(Observe(o, submitted, at)) =>
      if Progresses(l, o) then NO_EVIDENCE.(times := ObservedTimes(o, submitted, at)) else NO_EVIDENCE
    case ToClear(NoCapacity(_, zero, _, at)) =>
      NO_EVIDENCE.(times := NO_TIMES.(reconciled := Some(at)), billing := zero)
    case ToClear(Halted(_, _, at)) => NO_EVIDENCE.(times := NO_TIMES.(stopConfirmed := Some(at)))
    case ToClear(Settle(receipt)) =>
      NO_EVIDENCE.(times := NO_TIMES.(reconciled := Some(receipt.reconciledAt)), billing := Some(receipt))
    case _ => NO_EVIDENCE
  }

  /** The evidence with a patch; a lease without evidence keeps none. */
  function PatchedEvidence(l: Lease, p: Evidence): Result<Option<Evidence>, Exception> {
    if l.evidence.None? || l.request.spec.None? then Success(l.evidence)
    else
      var merged :- Merged(l.request, l.evidence.value, p);
      Success(Some(merged))
  }

  function AcquisitionColumns(w: Acquisition, l: Lease): Lease {
    match w
    case ClaimRunning(route, at) =>
      l.(ownership := PreexistingRunning, state := Starting, route := route, heartbeat := at, lastError := None)
    case ClaimStopped(at) => l.(ownership := Provisional, state := Starting, heartbeat := at)
    case OwnStarted(at) => l.(ownership := Owned, heartbeat := at, lastError := None)
    case ReleaseUnowned(failure, at) =>
      l.(ownership := PreexistingRunning, state := Released, cleanup := NotOwned, route := None, lastError := failure,
         heartbeat := at)
    case StartCreate(at) => l.(state := Starting, ownership := Provisional, uncertain := true, heartbeat := at)
    case BindPod(id, _, failure, at) =>
      l.(podId := Some(id), ownership := Owned, uncertain := false, lastError := failure, heartbeat := at)
    case Adopt(id, _, _) =>
      l.(podId := Some(id), ownership := Owned, uncertain := false, state := ReconcileRequired, cleanup := Pending,
         lastError := None)
    case AwaitCreate(error) =>
      l.(state := ReconcileRequired, cleanup := RetryableFailure, lastError := Some(error),
         billing := if Catalog(l) then Unresolved else l.billing)
    case GiveUp(_) => l.(state := Released, cleanup := Complete, uncertain := false, lastError := None)
    case Observed(route, _, at) => l.(route := route, heartbeat := at, lastError := None)
    case HealthNote(error, at) => l.(lastError := Some(error), heartbeat := at)
    case BecomeReady(at) => l.(state := Ready, heartbeat := at)
  }

  function ActivityColumns(w: Activity, l: Lease): Lease {
    match w
    case Beat(at) => l.(heartbeat := at)
    case RecordJob(job, at) => l.(state := JobSubmitted, jobId := Some(job), heartbeat := at, lastError := None)
    case NoteOperation(error, at) => l.(heartbeat := at, lastError := Some(error))
    case RecordStatus(status, at) =>
      l.(heartbeat := at, lastError := None,
         state := match status case Finished => JobCompleted case Stopped => CancelRequested case Other => l.state)
    case ResultTaken(at) => l.(state := ResultRetrieved, heartbeat := at, lastError := None)
    case RequestCancel(at) =>
      l.(state := CancelRequested, heartbeat := at, workload := if Catalog(l) then Cancelling else l.workload)
    case RecordWorker(_, at) => l.(heartbeat := at)
    case RefreshRoute(route) => l.(route := route, lastError := None)
    case NoteError(error) => l.(lastError := Some(error))
    case RequestFamily(at) => l.(familyRequested := true, familyComplete := false, heartbeat := at)
    case CompleteFamily(at) => l.(familyComplete := true, heartbeat := at)
  }

  function AfterObservation(l: Lease, o: Observation, at: int, handoff: Option<Handoff>): Lease {
    if !Progresses(l, o) then l.(handoff := handoff)
    else
      l.(handoff := handoff, workload := o.state, lastError := None, heartbeat := at, state := ObservedState(l, o),
         jobId := if o.state in {Running, Succeeded, AwaitingAck, Acknowledged} then Some(o.attempt) else l.jobId)
  }

  function HandoffColumns(w: HandingOver, l: Lease): Lease {
    match w
    case Observe(o, _, at) =>
      if Catalog(l) && ObservedHandoff(l, o, at).Success? then
        AfterObservation(l, o, at, ObservedHandoff(l, o, at).value)
      else l
    case BindAck(ack) =>
      if l.handoff.Some? && BindAcknowledgement(l.handoff.value, ack).Success? then
        l.(handoff := Some(BindAcknowledgement(l.handoff.value, ack).value))
      else l
    case HostConfirm(confirmed, at) =>
      l.(state := ResultRetrieved, heartbeat := at, lastError := None,
         handoff := if l.handoff.Some? then
                      Some(l.handoff.value.(confirmedAt := First(l.handoff.value.confirmedAt, Some(confirmed))))
                    else None)
  }

  function SettledNow(l: Lease, cause: Cause, zero: Option<Receipt>, beat: int, at: int): Lease {
    l.(cleanup := Complete, uncertain := l.uncertain && !cause.CreateRejected?,
       lastError := if cause.CreateRejected? then Some(cause.error) else None,
       route := if cause.NoProviderCapacity? then None else l.route,
       heartbeat := if cause.BeforeCreation? then l.heartbeat else beat,
       state := if Catalog(l) then Releasing else Released,
       billing := if Catalog(l) then Authoritative else l.billing,
       receipt := if Catalog(l) then zero else l.receipt,
       terminatedAt := if Catalog(l) then Some(at) else l.terminatedAt)
  }

  function AfterHalt(l: Lease, byRelease: bool, at: int): Lease {
    l.(cleanup := Complete, route := None, lastError := None,
       uncertain := l.uncertain && !byRelease, heartbeat := if byRelease then at else l.heartbeat,
       state := if Catalog(l) then Releasing else Released,
       billing := if Catalog(l) then BillingPending else l.billing,
       terminatedAt := if Catalog(l) then Some(at) else l.terminatedAt)
  }

  function ClearingColumns(w: Clearing, l: Lease): Lease {
    match w
    case RetryLater(error, doubtful, at) =>
      l.(state := ReconcileRequired, cleanup := RetryableFailure, lastError := Some(error), heartbeat := at,
         uncertain := l.uncertain || doubtful)
    case ReleaseNotOwned(at) =>
      l.(state := Released, cleanup := NotOwned, route := None, lastError := None, heartbeat := at)
    case BeginRelease(at) => l.(state := Releasing, cleanup := Pending, route := None, heartbeat := at)
    case CountStop => l.(stopAttempts := l.stopAttempts + 1)
    case StopUnconfirmed(at) => l.(cleanup := Pending, lastError := Some("StopPending"), heartbeat := at)
    case Halted(_, byRelease, at) => AfterHalt(l, byRelease, at)
    case NoCapacity(cause, zero, beat, at) => SettledNow(l, cause, zero, beat, at)
    case LeaveUnresolved(error) => l.(billing := Unresolved, lastError := Some(error))
    case LeavePending => l.(billing := BillingPending)
    case Settle(receipt) =>
      l.(billing := Authoritative, receipt := Some(receipt), lastError := None, heartbeat := receipt.reconciledAt)
    case FinalRelease(at) => l.(state := Released, heartbeat := at)
  }

  /** The columns a write sets, beside the evidence. */
  function Columns(w: Write, l: Lease): (m: Lease)
    ensures m.request == l.request && m.evidence == l.evidence && m.revision == l.revision
  {
    match w
    case ToAcquire(a) => AcquisitionColumns(a, l)
    case ToWork(b) => ActivityColumns(b, l)
    case ToHand(h) => HandoffColumns(h, l)
    case ToClear(d) => ClearingColumns(d, l)
  }

  function Apply(w: Write, l: Lease): Lease {
    var evidence := PatchedEvidence(l, Patch(w, l));
    Columns(w, l).(evidence := if evidence.Success? then evidence.value else l.evidence, revision := l.revision + 1)
  }

  /** What the provider answers when a Pod is observed. */
  datatype PodStatus = PodRunning | PodStopped | PodFailed | PodOther

  /** What the provider or the worker answered to a caller of a lease: what its Pod was observed
      as, that its Pod was started, that its worker is healthy. */
  datatype Answer =
    | Sighted(token: Token, pod: PodId, status: PodStatus)
    | Woken(token: Token, pod: PodId)
    | Healthy(token: Token)

  /** What the provider, the capability store and the transport have done so far; nothing
      here is ever undone. `holder` is the one caller whose create was admitted with the
      row, `posted` says that the request went out, `rejected` that it was definitely not
      accepted, `pods` which Pod it made, `halted` which Pods were confirmed not billing,
      `answers` what else callers were told. */
  datatype Cloud = Cloud(holder: map<Token, Actor>, posted: set<Token>, rejected: set<Token>, pods: map<Token, PodId>,
                         halted: set<PodId>, revoked: set<Attempt>, dispatched: set<(Token, Intent)>,
                         answers: set<Answer>)

  const CLEAR_SKY: Cloud := Cloud(map[], {}, {}, map[], {}, {}, {}, {})

  predicate SubMap<K(==), V(==)>(a: map<K, V>, b: map<K, V>) {
    forall k :: k in a ==> k in b && b[k] == a[k]
  }

  predicate CloudFollows(c: Cloud, d: Cloud) {
    && SubMap(c.holder, d.holder) && c.posted <= d.posted && c.rejected <= d.rejected && SubMap(c.pods, d.pods)
    && c.halted <= d.halted && c.revoked <= d.revoked && c.dispatched <= d.dispatched && c.answers <= d.answers
  }

  /** The Pod is the one the lease's own create made. */
  predicate MadePod(l: Lease, id: PodId, c: Cloud) {
    l.request.source == Created && l.request.token in c.pods && c.pods[l.request.token] == id
  }

  /** The Pod of the lease was observed, for the lease, in this status. */
  predicate Saw(l: Lease, status: PodStatus, c: Cloud) {
    l.podId.Some? && Sighted(l.request.token, l.podId.value, status) in c.answers
  }

  predicate WokeUp(l: Lease, c: Cloud) { l.podId.Some? && Woken(l.request.token, l.podId.value) in c.answers }

  /** The Pod of the lease was seen running and, for a catalog lease, its worker is healthy. */
  predicate Serves(l: Lease, c: Cloud) {
    Saw(l, PodRunning, c) && (Catalog(l) ==> Healthy(l.request.token) in c.answers)
  }

  predicate KnownAcquiring(w: Acquisition, l: Lease, c: Cloud) {
    match w
    case ClaimRunning(_, _) => l.state == Requested && l.request.source != Created && Saw(l, PodRunning, c)
    case ClaimStopped(_) => l.state == Requested && l.request.source != Created && Saw(l, PodStopped, c)
    case OwnStarted(_) => l.state != Requested && l.request.source != Created && Saw(l, PodStopped, c) && WokeUp(l, c)
    case ReleaseUnowned(_, _) => l.state != Released && l.request.source != Created
    case StartCreate(_) => l.state == Requested && l.request.source == Created
    case BindPod(id, _, _, _) => l.state != Released && MadePod(l, id, c)
    case Adopt(id, _, _) => l.state != Released && MadePod(l, id, c)
    case AwaitCreate(_) => l.state != Released && l.request.source == Created
    case GiveUp(at) =>
      l.state != Released && l.request.source == Created && !Catalog(l) && l.request.readinessDeadline <= at
    case Observed(_, running, _) => l.state == Starting && (running ==> Saw(l, PodRunning, c))
    case HealthNote(_, _) => l.state == Starting
    case BecomeReady(_) => l.state == Starting && Serves(l, c)
  }

  predicate KnownWorking(w: Activity, l: Lease) {
    match w
    case RecordJob(job, _) =>
      (l.state == Ready || l.state == JobSubmitted) && !HandsOff(l) && (l.jobId.Some? ==> l.jobId == Some(job))
    case RecordStatus(_, _) => l.state != Released && !HandsOff(l)
    case ResultTaken(_) => (l.state == JobSubmitted || l.state == JobCompleted) && !HandsOff(l)
    case RecordWorker(_, _) => l.state != Released && Catalog(l)
    case NoteError(_) => true
    case RequestFamily(_) => l.request.token == l.request.root && !l.familyRequested
    case CompleteFamily(_) => l.request.token == l.request.root && l.familyRequested
    case _ => l.state != Released
  }

  predicate KnownHanding(w: HandingOver, l: Lease) {
    match w
    case Observe(o, _, at) => Catalog(l) && ObservedHandoff(l, o, at).Success?
    case BindAck(ack) =>
      && HandsOff(l) && l.state == JobCompleted && ResultReady(l) && l.handoff.Some?
      && BindAcknowledgement(l.handoff.value, ack).Success?
    case HostConfirm(_, _) =>
      HandsOff(l) && l.state == JobCompleted && l.handoff.Some? && l.handoff.value.remoteAckAt.Some?
  }

  predicate KnownClearing(w: Clearing, l: Lease, c: Cloud) {
    match w
    case RetryLater(_, doubtful, _) =>
      l.state != Released && l.state != Requested && (doubtful ==> l.request.source == Created)
    case ReleaseNotOwned(_) => l.state != Released && l.request.source != Created
    case Halted(id, _, _) => l.state != Released && l.podId == Some(id) && id in c.halted
    case NoCapacity(cause, zero, _, _) =>
      && l.state != Released && (Catalog(l) <==> zero.Some?) && (zero.Some? ==> zero.value.podId.None?)
      && (cause.CreateRejected? ==> l.request.token in c.rejected)
    case LeaveUnresolved(_) => Catalog(l) && l.billing != Authoritative
    case LeavePending => Catalog(l) && l.billing != Authoritative
    case Settle(_) => l.state != Released && l.state != Requested && Catalog(l)
    case FinalRelease(_) =>
      l.state != Released && Catalog(l) && l.receipt.Some? && l.request.spec.value.attempt in c.revoked
    case _ => l.state != Released
  }

  /** What every call site knows when it writes, under any interleaving: facts of the row it
      read, of the immutable request, or of the provider. The retry loops re-apply a write
      over whatever row they re-read, so those writes know only that it is not released. */
  predicate Known(w: Write, l: Lease, c: Cloud) {
    match w
    case ToAcquire(a) => KnownAcquiring(a, l, c)
    case ToWork(b) => KnownWorking(b, l)
    case ToHand(h) => KnownHanding(h, l)
    case ToClear(d) => KnownClearing(d, l, c)
  }

  predicate Enabled(w: Write, l: Lease, c: Cloud) {
    Known(w, l, c) && PatchedEvidence(l, Patch(w, l)).Success?
  }

  lemma KnownStays(w: Write, l: Lease, c: Cloud, d: Cloud)
    requires Known(w, l, c) && CloudFollows(c, d)
    ensures Known(w, l, d)
  {}
}
