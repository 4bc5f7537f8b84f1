/** The Pod lease service (kestrel_cloud_runpod/pod_capacity_service.py). Each method is
    verified against any interleaving, and a crash at every await: whatever it does, the
    state stays the last of a run, so what holds of runs holds of the service; and when the
    operations on each lease are serialised, of an orderly run. */
module PodService {

  import opened Results
  import opened PodLeases
  import opened PodWrites
  import opened PodInvariants
  import opened PodCustody
  import opened PodRuns
  import opened PodGuarantees
  import opened PodBackend

  const PROVIDER_ERROR := "RunPodManagerError"

  /** What stays true of a retried write over any later row that is not released. */
  predicate Retried(w: Write, l: Lease, c: Cloud) {
    match w
    case ToAcquire(ReleaseUnowned(_, _)) => l.request.source != Created
    case ToAcquire(BindPod(id, _, _, _)) => MadePod(l, id, c)
    case ToAcquire(Adopt(id, _, _)) => MadePod(l, id, c)
    case ToAcquire(AwaitCreate(_)) => l.request.source == Created
    case ToAcquire(GiveUp(at)) => l.request.source == Created && !Catalog(l) && l.request.readinessDeadline <= at
    case ToAcquire(Observed(_, running, _)) => running ==> Saw(l, PodRunning, c)
    case ToAcquire(HealthNote(_, _)) => true
    case ToAcquire(BecomeReady(_)) => Serves(l, c)
    case ToWork(NoteOperation(_, _)) => true
    case ToWork(RecordStatus(_, _)) => !HandsOff(l)
    case ToWork(RecordWorker(_, _)) => Catalog(l)
    case ToClear(RetryLater(_, doubtful, _)) => l.state != Requested && (doubtful ==> l.request.source == Created)
    case ToClear(ReleaseNotOwned(_)) => l.request.source != Created
    case ToClear(BeginRelease(_)) => true
    case ToClear(StopUnconfirmed(_)) => true
    case ToClear(Halted(id, _, _)) => l.podId == Some(id) && id in c.halted
    case ToClear(NoCapacity(cause, zero, _, _)) =>
      && (Catalog(l) <==> zero.Some?) && (zero.Some? ==> zero.value.podId.None?)
      && (cause.CreateRejected? ==> l.request.token in c.rejected)
    case ToClear(Settle(_)) => l.state != Requested && Catalog(l)
    case _ => false
  }

  /** A write that may be retried over the row that was last read. */
  predicate MayRetry(serial: bool, w: Write, lease: Lease, current: Lease, c: Cloud) {
    && Retried(w, lease, c) && Precedes(lease, current)
    && (serial ==> current == lease && (lease.state != Released ==> Orderly(w, lease, c)))
  }

  /** The write went over a later row, whose evidence could take it. */
  predicate Written(w: Write, lease: Lease, from: Lease, m: Lease) {
    m == Apply(w, from) && Precedes(lease, from) && PatchedEvidence(from, Patch(w, from)).Success?
  }

  /** Where a retried write leaves the lease: written over a later row, or not needed because
      the lease was released, or had left STARTING, first. */
  predicate Moved(serial: bool, w: Write, lease: Lease, from: Lease, m: Lease) {
    && Precedes(lease, m)
    && (m.state == Released || (WhileStarting(w) && m.state != Starting) || Written(w, lease, from, m))
    && (serial && lease.state != Released && !WhileStarting(w) ==> m == Apply(w, lease))
    && (serial && lease.state == Released ==> m == lease)
  }

  /** The receipt of the row is not the one of this settlement. */
  predicate SettledOtherwise(l: Lease, cause: Cause, receiptAt: int) {
    && l.receipt.Some?
    && (l.receipt.value.id != WithoutPod(l.request.token, ReasonOf(cause)) || l.receipt.value.reconciledAt != receiptAt)
  }

  /** Both readings of the clock agree, unless the settlement was dated before. */
  predicate OneReading(l: Lease, at: int, receiptAt: int) {
    l.evidence.Some? && l.evidence.value.times.reconciled.None? ==> at == receiptAt
  }

  /** A serialised settlement was merged into the very row it was computed from. */
  lemma WrittenInPlace(w: Write, lease: Lease, from: Lease, m: Lease)
    requires Moved(true, w, lease, from, m) && lease.state != Released
    requires w.ToClear? && w.d.NoCapacity? && Catalog(lease)
    ensures from == lease && Written(w, lease, from, m)
  {}

  /** An adopted catalog Pod has its placement on the row. */
  lemma AdoptionIsPlaced(id: PodId, realized: Option<Placement>, at: int, lease: Lease, from: Lease, m: Lease)
    requires RowInv(lease) && Catalog(lease) && realized.Some?
    requires Written(ToAcquire(Adopt(id, realized, at)), lease, from, m)
    ensures m.evidence.Some? && m.evidence.value.realized.Some?
  {}

  /** A settlement that the evidence took agrees with the one stored before, if there is one. */
  lemma SettlementWasAccepted(l: Lease, cause: Cause, beat: int, at: int, receiptAt: int)
    requires RowInv(l) && l.request.spec.Some?
    requires var zero := ZeroCostReceipt(l.request.token, ReasonOf(cause), l.request.spec.value, receiptAt);
      PatchedEvidence(l, Patch(ToClear(NoCapacity(cause, Some(zero), beat, at)), l)).Success?
    ensures OneReading(l, at, receiptAt) && !SettledOtherwise(l, cause, receiptAt)
  {}

  /** What a serialised settlement leaves on the row. */
  lemma SettlementIsStored(lease: Lease, cause: Cause, beat: int, at: int, receiptAt: int, from: Lease, m: Lease)
    requires RowInv(lease) && Catalog(lease) && lease.state != Released
    requires var zero := ZeroCostReceipt(lease.request.token, ReasonOf(cause), lease.request.spec.value, receiptAt);
      Moved(true, ToClear(NoCapacity(cause, Some(zero), beat, at)), lease, from, m)
    ensures m.receipt.Some? && m.receipt.value.podId.None? && m.receipt.value.reconciledAt == receiptAt
    ensures m.receipt.value.id == WithoutPod(lease.request.token, match cause
      case CreateRejected(_) => RejectedCreate
      case NoProviderCapacity => NoPodHeld
      case BeforeCreation => BeforeCreate)
    ensures OneReading(lease, at, receiptAt) && !SettledOtherwise(lease, cause, receiptAt)
  {
    var zero := ZeroCostReceipt(lease.request.token, ReasonOf(cause), lease.request.spec.value, receiptAt);
    WrittenInPlace(ToClear(NoCapacity(cause, Some(zero), beat, at)), lease, from, m);
    SettlementWasAccepted(lease, cause, beat, at, receiptAt);
  }

  /** Writes made only while the lease is STARTING. */
  predicate WhileStarting(w: Write) {
    w.ToAcquire? && (w.a.Observed? || w.a.HealthNote? || w.a.BecomeReady?)
  }

  /** The lease keeps what the observation proved of the handoff. */
  predicate Shows(l: Lease, o: Observation) {
    && Catalog(l) && o.attempt == l.request.spec.value.attempt && o.requestSha == l.request.spec.value.requestSha
    && (CarriesHandoff(o) ==> (
      l.handoff.Some? && l.handoff.value.resultSha == o.resultSha && l.handoff.value.receiptSha == o.receiptSha))
    && (o.state == Acknowledged ==> (
      && l.handoff.value.remoteAckAt.Some? && l.handoff.value.intent.Some?
      && l.handoff.value.intent.value.ackSha == o.ackSha))
  }

  lemma ObservationShows(l: Lease, o: Observation, submitted: bool, at: int)
    requires RowInv(l) && Catalog(l) && ObservedHandoff(l, o, at).Success?
    ensures var m := Apply(ToHand(Observe(o, submitted, at)), l);
      m.request == l.request && Shows(m, o)
    ensures ObservedHandoff(l, o, at).value == l.handoff ==> Shows(l, o)
  {}

  lemma ObservationIsHeeded(l: Lease, o: Observation, at: int, h: Option<Handoff>)
    ensures Heeds(l, o, AfterObservation(l, o, at, h))
    ensures !Progresses(l, o) ==> Heeds(l, o, l)
  {}

  lemma WrittenIsHeeded(l: Lease, o: Observation, submitted: bool, at: int)
    requires Catalog(l) && ObservedHandoff(l, o, at).Success?
    ensures Heeds(l, o, Apply(ToHand(Observe(o, submitted, at)), l))
    ensures !Progresses(l, o) ==> Heeds(l, o, l)
  {
    ObservationIsHeeded(l, o, at, ObservedHandoff(l, o, at).value);
    assert HandoffColumns(Observe(o, submitted, at), l) == AfterObservation(l, o, at, ObservedHandoff(l, o, at).value);
  }

  /** What was seen is from before what is known. */
  predicate Behind(seen: Workload, known: Workload) {
    match seen
    case NotSubmitted => known != NotSubmitted && known != Idle
    case Idle => known != NotSubmitted && known != Idle
    case Running => known !in {NotSubmitted, Idle, Running}
    case Succeeded => known in {Acknowledged, Failed, Cancelled, Cancelling}
    case AwaitingAck => known in {Acknowledged, Failed, Cancelled, Cancelling}
    case Acknowledged => known in {Failed, Cancelled, Cancelling}
    case _ => false
  }

  /** What an observation makes of the job: news moves it, running work to submitted, a result to
      completed, a failure or a cancellation to its cancellation; anything else moves nothing. */
  predicate Heeds(l: Lease, o: Observation, m: Lease) {
    if l.state !in {Ready, JobSubmitted, JobCompleted} || l.workload == Cancelling || Behind(o.state, l.workload) then
      m.workload == l.workload && m.state == l.state
    else
      && m.workload == o.state
      && (o.state == Running ==> m.state == JobSubmitted)
      && (o.state in {Succeeded, AwaitingAck, Acknowledged} ==> m.state == JobCompleted)
      && (o.state in {Failed, Cancelled, Cancelling} ==> m.state == CancelRequested)
      && (o.state in {NotSubmitted, Idle} ==> m.state == l.state)
  }

  lemma ShowsStays(l: Lease, m: Lease, o: Observation)
    requires Shows(l, o) && Precedes(l, m)
    ensures Shows(m, o)
  {}

  /** The result may be given out: it was not cancelled, and under the handoff protocol it is the
      one whose handoff was observed. */
  predicate Offers(l: Lease, result: (Digest, Digest)) {
    && l.workload != Cancelling
    && (HandsOff(l) ==> l.handoff.Some? && result == (l.handoff.value.resultSha, l.handoff.value.receiptSha))
  }

  /** The worker was seen to have a result. */
  predicate HasResult(l: Lease) {
    Catalog(l) && if HandsOff(l) then l.workload in {AwaitingAck, Acknowledged} else l.workload == Succeeded
  }

  /** The worker is the one of this attempt, whose result can be handed over. */
  predicate Vouched(l: Lease, worker: Worker) {
    && HasResult(l) && worker.attempt == l.request.spec.value.attempt
    && worker.requestSha == l.request.spec.value.requestSha && worker.imageDigest == l.request.spec.value.imageDigest
  }

  /** The host confirmed exactly the acknowledgement that the worker had accepted. */
  predicate Delivered(l: Lease, confirmed: Option<Digest>) {
    && l.handoff.Some? && l.handoff.value.confirmedAt.Some? && l.handoff.value.intent.Some?
    && confirmed == Some(l.handoff.value.intent.value.ackSha)
  }

  /** The lease is past a deadline that ends it, or its owner has let go of it. */
  predicate MustGo(l: Lease, now: int, stale: bool) {
    || l.request.hardDeadline <= now
    || (l.state == Requested && (stale || l.request.readinessDeadline <= now))
    || ((l.state == Starting || l.state == Ready) && stale)
    || l.state in {Releasing, CancelRequested, ReconcileRequired, ResultRetrieved}
  }

  /** A visit found nothing to do: the lease is as it was, or only its route and its last error are
      new, or its Pod was observed stopped. */
  predicate LeftAlone(l: Lease, m: Lease, c: Cloud) {
    || m == l
    || (l.state in {Starting, Ready} && m == l.(route := m.route, lastError := None, revision := l.revision + 1))
    || (l.state in {Starting, Ready} && Saw(l, PodStopped, c))
  }

  /** The lease is on its way out, or released. */
  predicate GoingOut(l: Lease) { Phase(CancelRequested) <= Phase(l.state) }

  lemma RetriedIsKnown(w: Write, s: Lease, l: Lease, c: Cloud)
    requires Retried(w, s, c) && Precedes(s, l) && l.state != Released && (WhileStarting(w) ==> l.state == Starting)
    ensures Known(w, l, c) && !Admits(w)
  {}

  lemma RetriedStays(w: Write, l: Lease, c: Cloud, d: Cloud)
    requires Retried(w, l, c) && CloudFollows(c, d)
    ensures Retried(w, l, d)
  {}

  predicate Unpatched(w: Write) {
    match w
    case ToAcquire(a) => a.ReleaseUnowned? || a.AwaitCreate? || a.GiveUp? || a.HealthNote?
    case ToWork(b) => b.NoteOperation? || b.RecordStatus?
    case ToClear(d) => d.RetryLater? || d.ReleaseNotOwned? || d.BeginRelease? || d.StopUnconfirmed?
    case ToHand(_) => false
  }

  // ---- What a reconcile pass reports ----

  /** The lease was cleaned up, or has no Pod; if serialised, because its create is still of
      unknown outcome. */
  predicate ResolvedIn(m: Memory, l: Lease) {
    CleanedUpIn(m, l) || (l.podId.None? && (m.serial ==> l.uncertain))
  }

  /** One visit of a pass: the row it read and when, and what it raised, if it did. */
  datatype Visit = Visit(read: Option<Lease>, at: int, raised: Option<Exception>)

  predicate Reported(m: Memory, token: Token, result: Option<Lease>) {
    result.Some? ==> result.value in m.seen && result.value.request.token == token
  }

  /** The visit of a family whose release is not complete: unless it raised, the family is
      cleaned out. */
  ghost predicate RootVisited(m: Memory, root: Token, result: Option<Lease>, v: Visit) {
    && Reported(m, root, result)
    && (v.raised.Some? ==> v.raised.value.Caught())
    && (v.raised.None? ==> (
      && result.Some?
      && (if result.value.request.root == root then CleanedOutIn(m, root) else CleanedUpIn(m, result.value))))
  }

  /** Nobody is taken to hold the lease any more: its own idle timeout, or for a training lease the
      one of the service, has gone by since its last heartbeat. */
  predicate Stale(l: Lease, orphanTimeout: int, at: int) {
    if l.request.spec.Some? then l.heartbeat + l.request.spec.value.idleSeconds * 1_000_000 <= at
    else l.heartbeat + orphanTimeout <= at
  }

  /** The visit of an open lease: unless it raised, a lease that had to go is resolved. */
  ghost predicate LeaseVisited(m: Memory, token: Token, orphanTimeout: int, result: Option<Lease>, v: Visit) {
    && Reported(m, token, result)
    && (v.raised.Some? ==> v.raised.value.Caught())
    && (v.raised.None? ==> result.Some? == v.read.Some?)
    && (v.raised.None? && result.Some? ==> (
      && v.read.value in m.seen && v.read.value.request.token == token
      && (v.read.value.state != Released
          && MustGo(v.read.value, v.at, Stale(v.read.value, orphanTimeout, v.at)) ==>
            ResolvedIn(m, result.value))))
  }

  lemma RootVisitLasts(m: Memory, n: Memory, root: Token, result: Option<Lease>, v: Visit)
    requires RootVisited(m, root, result, v) && MemoryGrows(m, n)
    ensures RootVisited(n, root, result, v)
  {
    if CleanedOutIn(m, root) { CleanedOutLasts(m, n, root); }
  }

  lemma LeaseVisitLasts(m: Memory, n: Memory, token: Token, orphanTimeout: int, result: Option<Lease>, v: Visit)
    requires LeaseVisited(m, token, orphanTimeout, result, v) && MemoryGrows(m, n)
    ensures LeaseVisited(n, token, orphanTimeout, result, v)
  {}

  ghost predicate RootsVisited(m: Memory, roots: seq<Token>, results: seq<Option<Lease>>, visits: seq<Visit>) {
    && |results| == |visits| == |roots|
    && forall i :: 0 <= i < |roots| ==> RootVisited(m, roots[i], results[i], visits[i])
  }

  ghost predicate LeasesVisited(m: Memory, tokens: seq<Token>, orphanTimeout: int, since: int,
    results: seq<Option<Lease>>, visits: seq<Visit>)
  {
    && |results| == |visits| == |tokens|
    && forall i :: 0 <= i < |tokens| ==>
         LeaseVisited(m, tokens[i], orphanTimeout, results[i], visits[i]) && since <= visits[i].at
  }

  lemma RootsVisitedLasts(m: Memory, n: Memory, roots: seq<Token>, results: seq<Option<Lease>>, visits: seq<Visit>)
    requires RootsVisited(m, roots, results, visits) && MemoryGrows(m, n)
    ensures RootsVisited(n, roots, results, visits)
  {
    forall i | 0 <= i < |roots| ensures RootVisited(n, roots[i], results[i], visits[i]) {
      RootVisitLasts(m, n, roots[i], results[i], visits[i]);
    }
  }

  lemma LeasesVisitedLasts(m: Memory, n: Memory, tokens: seq<Token>, orphanTimeout: int, since: int,
    results: seq<Option<Lease>>, visits: seq<Visit>)
    requires LeasesVisited(m, tokens, orphanTimeout, since, results, visits) && MemoryGrows(m, n)
    ensures LeasesVisited(n, tokens, orphanTimeout, since, results, visits)
  {
    forall i | 0 <= i < |tokens|
      ensures LeaseVisited(n, tokens[i], orphanTimeout, results[i], visits[i]) && since <= visits[i].at
    {
      LeaseVisitLasts(m, n, tokens[i], orphanTimeout, results[i], visits[i]);
    }
  }

  lemma RefreshLeavesAlone(l: Lease, route: Option<string>, c: Cloud)
    requires RowInv(l) && l.state in {Starting, Ready}
    ensures LeftAlone(l, Apply(ToWork(RefreshRoute(route)), l), c)
  {
    EmptyPatchSucceeds(l);
  }

  class PodCapacityLeaseService {
    const backend: Backend

    constructor (backend: Backend)
      ensures this.backend == backend
    {
      this.backend := backend;
    }

    method Required(me: Actor, token: Token) returns (r: Result<Lease, Exception>)
      requires backend.Valid()
      modifies backend
      ensures backend.Valid() && backend.Interleaved(me, token)
      ensures r.Success? ==> backend.Holds(r.value, token)
      ensures r.Failure? ==> r.error == Crash || (r.error == ManagerError && token !in backend.world.rows)
    {
      var found := backend.Get(me, token);
      if found.Failure? { return Failure(found.error); }
      if found.value.None? { return Failure(ManagerError); }
      return Success(found.value.value);
    }

    /** Re-reads the row of a snapshot; the row is a later one of the same lease. */
    method Reread(me: Actor, lease: Lease) returns (r: Result<Lease, Exception>)
      requires backend.Valid() && backend.Held(lease)
      modifies backend
      ensures backend.Valid() && backend.Grown()
      ensures CloudFollows(old(backend.world).cloud, backend.world.cloud)
      ensures r.Success? ==> (
        && backend.Held(r.value) && r.value.request == lease.request && Precedes(lease, r.value)
        && (backend.serial ==> r.value == lease))
      ensures r.Failure? ==> r.error == Crash
    {
      backend.SnapshotFacts(lease);
      var read := Required(me, lease.request.token);
      backend.SnapshotFacts(lease);
      if read.Failure? { return Failure(Crash); }
      return Success(read.value);
    }

    /** One attempt of a retried write. */
    method TryWrite(me: Actor, lease: Lease, current: Lease, write: Write) returns (r: Result<Lease, Exception>)
      requires backend.Valid() && backend.Held(current) && current.state != Released
      requires MayRetry(backend.serial, write, lease, current, backend.world.cloud)
      requires WhileStarting(write) ==> current.state == Starting
      requires PatchedEvidence(current, Patch(write, current)).Success?
      modifies backend
      ensures backend.Valid() && backend.Grown()
      ensures r.Success? ==> r.value == Apply(write, current) && backend.Held(r.value) && Precedes(lease, r.value)
      ensures r.Failure? ==> r.error == ConflictError || r.error == Crash
      ensures r.Failure? && r.error == ConflictError ==>
        backend.Held(current) && MayRetry(backend.serial, write, lease, current, backend.world.cloud)
    {
      RetriedIsKnown(write, lease, current, backend.world.cloud);
      ghost var before := backend.world.cloud;
      r := backend.CompareAndSet(me, current, write);
      MayRetryStays(backend.serial, write, lease, current, before, backend.world.cloud);
      if r.Success? {
        backend.Follows(lease, current, r.value);
      }
    }

    method RereadForRetry(me: Actor, lease: Lease, current: Lease, write: Write) returns (r: Result<Lease, Exception>)
      requires backend.Valid() && backend.Held(current)
      requires MayRetry(backend.serial, write, lease, current, backend.world.cloud)
      modifies backend
      ensures backend.Valid() && backend.Grown()
      ensures r.Success? ==>
        backend.Held(r.value) && MayRetry(backend.serial, write, lease, r.value, backend.world.cloud)
      ensures r.Failure? ==> r.error == Crash
    {
      ghost var before := backend.world.cloud;
      r := Reread(me, current);
      MayRetryStays(backend.serial, write, lease, current, before, backend.world.cloud);
      if r.Success? { PrecedesIsTransitive(lease, current, r.value); }
    }

    /** One round of a retry loop: the write, or on a conflict the row to try next. */
    method Round(me: Actor, lease: Lease, current: Lease, write: Write)
      returns (r: Result<Lease, Exception>, written: bool)
      requires backend.Valid() && backend.Held(current) && current.state != Released
      requires MayRetry(backend.serial, write, lease, current, backend.world.cloud)
      requires WhileStarting(write) ==> current.state == Starting
      requires PatchedEvidence(current, Patch(write, current)).Success?
      modifies backend
      ensures backend.Valid() && backend.Grown()
      ensures r.Success? ==> backend.Held(r.value)
      ensures r.Success? && written ==> Moved(backend.serial, write, lease, current, r.value)
      ensures r.Success? && !written ==> MayRetry(backend.serial, write, lease, r.value, backend.world.cloud)
      ensures r.Failure? ==> r.error == Crash
    {
      r := TryWrite(me, lease, current, write);
      written := r.Success?;
      if r.Failure? && r.error == ConflictError {
        r := RereadForRetry(me, lease, current, write);
      }
    }

    /** `_transition_nonterminal`: re-applies the changes until they are written or the lease
        is released. */
    method TransitionNonterminal(me: Actor, lease: Lease, write: Write)
      returns (r: Result<Lease, Exception>, ghost from: Lease)
      requires backend.Valid() && backend.Held(lease) && Unpatched(write) && !WhileStarting(write)
      requires MayRetry(backend.serial, write, lease, lease, backend.world.cloud)
      modifies backend
      ensures backend.Valid() && backend.Grown()
      ensures r.Success? ==> backend.Held(r.value) && Moved(backend.serial, write, lease, from, r.value)
      ensures r.Failure? ==> r.error == Crash
    {
      var current, left := lease, backend.retries;
      from := lease;
      while current.state != Released
        invariant backend.Valid() && backend.Grown() && backend.Held(current)
        invariant MayRetry(backend.serial, write, lease, current, backend.world.cloud)
        decreases left
      {
        from := current;
        backend.SnapshotFacts(current);
        EmptyPatchSucceeds(current);
        var written;
        r, written := Round(me, lease, current, write);
        if r.Failure? || written { return; }
        if left == 0 { return Failure(Crash), from; }
        left, current := left - 1, r.value;
      }
      return Success(current), from;
    }

    /** Why the evidence of this row cannot take the patch of the write, if it cannot. */
    method EvidenceRefused(current: Lease, write: Write) returns (refused: Option<Exception>)
      ensures refused.None? <==> PatchedEvidence(current, Patch(write, current)).Success?
      ensures refused.Some? ==> refused.value == ConflictError || refused.value == ValueError
    {
      var evidence := PatchedEvidence(current, Patch(write, current));
      return if evidence.Failure? then Some(evidence.error) else None;
    }

    /** `_transition_with_evidence`: as above, merging first observations into the evidence of
        whatever row is current; the writes of a starting lease stop when it has moved on. */
    method TransitionWithEvidence(me: Actor, lease: Lease, write: Write)
      returns (r: Result<Lease, Exception>, ghost from: Lease)
      requires backend.Valid() && backend.Held(lease)
      requires MayRetry(backend.serial, write, lease, lease, backend.world.cloud)
      modifies backend
      ensures backend.Valid() && backend.Grown()
      ensures r.Success? ==> backend.Held(r.value) && Moved(backend.serial, write, lease, from, r.value)
      ensures r.Failure? ==> r.error in {ConflictError, ValueError, Crash}
      ensures r.Failure? && r.error != Crash && backend.serial ==> backend.Held(lease)
    {
      var current, left := lease, backend.retries;
      from := lease;
      while current.state != Released
        invariant backend.Valid() && backend.Grown() && backend.Held(current)
        invariant MayRetry(backend.serial, write, lease, current, backend.world.cloud)
        decreases left
      {
        from := current;
        if WhileStarting(write) && current.state != Starting { return Success(current), from; }
        var refused := EvidenceRefused(current, write);
        if refused.Some? { return Failure(refused.value), from; }
        var written;
        r, written := Round(me, lease, current, write);
        if r.Failure? || written { return; }
        if left == 0 { return Failure(Crash), from; }
        left, current := left - 1, r.value;
      }
      return Success(current), from;
    }

    // ---- Settlement ----

    /** `_revoke_and_release`: bearer revocation is part of the terminal transition. */
    method RevokeAndRelease(me: Actor, lease: Lease) returns (r: Result<Lease, Exception>)
      requires backend.Valid() && backend.Held(lease) && Catalog(lease)
      modifies backend
      ensures backend.Valid() && backend.Grown()
      ensures r.Success? ==> backend.Held(r.value) && r.value.request == lease.request && r.value.state == Released
      ensures r.Failure? ==> r.error in {ManagerError, ConflictError, Crash}
      ensures r.Success? ==> Precedes(lease, r.value)
      ensures r.Success? ==> r.value.receipt.Some? && lease.request.spec.value.attempt in backend.world.cloud.revoked
    {
      if lease.billing != Authoritative { return Failure(ManagerError); }
      var token, attempt := lease.request.token, lease.request.spec.value.attempt;
      var revoked := backend.Revoke(me, token, attempt);
      if revoked.Failure? { return Failure(revoked.error); }
      backend.SnapshotFacts(lease);
      var current :- Reread(me, lease);
      r := ReleaseRevoked(me, current);
      if r.Success? {
        PrecedesIsTransitive(lease, current, r.value);
        backend.ReleasedFacts(r.value);
      }
    }

    /** The terminal write, after the revocation. */
    method ReleaseRevoked(me: Actor, lease: Lease) returns (r: Result<Lease, Exception>)
      requires backend.Valid() && backend.Held(lease) && Catalog(lease) && lease.receipt.Some?
      requires lease.request.spec.value.attempt in backend.world.cloud.revoked
      requires backend.serial ==> lease.billing == Authoritative
      modifies backend
      ensures backend.Valid() && backend.Grown()
      ensures r.Success? ==> backend.Held(r.value) && r.value.request == lease.request && r.value.state == Released
      ensures r.Failure? ==> r.error in {ConflictError, Crash}
      ensures r.Success? ==> Precedes(lease, r.value)
    {
      RowFollowsItself(lease);
      if lease.state == Released { return Success(lease); }
      var at := backend.Now();
      r := WriteUnpatched(me, lease, ToClear(FinalRelease(at)));
      if r.Success? { backend.SnapshotFacts(lease); }
    }

    /** A plain `compare_and_set` of columns without evidence. */
    method WriteUnpatched(me: Actor, lease: Lease, write: Write) returns (r: Result<Lease, Exception>)
      requires backend.Valid() && backend.Held(lease) && Known(write, lease, backend.world.cloud) && !Admits(write)
      requires Patch(write, lease) == NO_EVIDENCE
      requires backend.serial ==> Orderly(write, lease, backend.world.cloud)
      modifies backend
      ensures backend.Valid() && backend.Grown()
      ensures r.Success? ==> (
        && backend.Holds(r.value, lease.request.token)
        && r.value == Apply(write, lease) && r.value.request == lease.request)
      ensures r.Failure? ==> r.error in {ConflictError, Crash}
      ensures r.Failure? && r.error == ConflictError ==> backend.Held(lease)
    {
      backend.SnapshotFacts(lease);
      EmptyPatchSucceeds(lease);
      r := backend.CompareAndSet(me, lease, write);
    }

    /** `_reconcile_billing`. */
    method ReconcileBilling(me: Actor, lease: Lease) returns (r: Result<Lease, Exception>)
      requires backend.Valid() && backend.Held(lease) && lease.state != Requested
      requires lease.state != Released && Catalog(lease) ==> lease.cleanup == Complete && lease.terminatedAt.Some?
      modifies backend
      ensures backend.Valid() && backend.Grown()
      ensures r.Success? ==> backend.Held(r.value) && r.value.request == lease.request
      ensures r.Success? && Catalog(lease) ==> backend.CleanedUp(r.value)
      ensures r.Success? && backend.serial && Catalog(lease) ==> LetGo(r.value, backend.world.cloud)
      ensures r.Success? && !Catalog(lease) ==> r.value == lease
      ensures r.Failure? ==> r.error in {ManagerError, ConflictError, ValueError, Crash}
      ensures backend.serial && SettledBefore(lease, old(backend.clock)) && lease.billing != Authoritative && r.Success?
        ==> r.value.state != Released
    {
      if !Catalog(lease) { return Success(lease); }
      r := BillCatalog(me, lease);
      if r.Success? { NoteCleanedUp(r.value); }
    }

    method BillCatalog(me: Actor, lease: Lease) returns (r: Result<Lease, Exception>)
      requires backend.Valid() && backend.Held(lease) && lease.state != Requested && Catalog(lease)
      requires lease.state != Released ==> lease.cleanup == Complete && lease.terminatedAt.Some?
      modifies backend
      ensures backend.Valid() && backend.Grown()
      ensures r.Success? ==> backend.Held(r.value) && r.value.request == lease.request && Cleared(r.value)
      ensures r.Failure? ==> r.error in {ManagerError, ConflictError, ValueError, Crash}
      ensures backend.serial && SettledBefore(lease, old(backend.clock)) && lease.billing != Authoritative && r.Success?
        ==> r.value.state != Released
    {
      if lease.billing == Authoritative {
        r := RevokeAndRelease(me, lease);
        return;
      }
      if lease.podId.None? {
        r := SettleWithoutPod(me, lease);
      } else {
        r := BillBoundPod(me, lease);
      }
    }

    method BillBoundPod(me: Actor, lease: Lease) returns (r: Result<Lease, Exception>)
      requires backend.Valid() && backend.Held(lease) && lease.state != Requested && Catalog(lease)
      requires lease.state != Released ==> lease.cleanup == Complete && lease.terminatedAt.Some?
      requires lease.billing != Authoritative && lease.podId.Some?
      modifies backend
      ensures backend.Valid() && backend.Grown()
      ensures r.Success? ==> backend.Held(r.value) && r.value.request == lease.request && Cleared(r.value)
      ensures r.Failure? ==> r.error in {ManagerError, ConflictError, ValueError, Crash}
      ensures backend.serial && SettledBefore(lease, old(backend.clock)) && r.Success? ==> r.value.state != Released
    {
      if lease.terminatedAt.None? { return Failure(ManagerError); }
      if lease.evidence.None? || lease.evidence.value.realized.None?
         || lease.evidence.value.realized.value.podId != lease.podId.value {
        r := WriteUnpatched(me, lease, ToClear(LeaveUnresolved("RealizedPlacementBillingUnresolved")));
        return;
      }
      r := SettlePod(me, lease);
    }

    method SettleWithoutPod(me: Actor, lease: Lease) returns (r: Result<Lease, Exception>)
      requires backend.Valid() && backend.Held(lease) && lease.state != Requested && Catalog(lease)
      requires lease.state != Released ==> lease.cleanup == Complete && lease.terminatedAt.Some?
      requires lease.billing != Authoritative && lease.podId.None?
      modifies backend
      ensures backend.Valid() && backend.Grown()
      ensures r.Success? ==> backend.Held(r.value) && r.value.request == lease.request && Cleared(r.value)
      ensures r.Failure? ==> r.error in {ManagerError, ConflictError, ValueError, Crash}
      ensures r.Success? && backend.serial && lease.state != Released && r.value.state == Released ==>
        r.value.receipt.Some? && r.value.receipt.value.podId.None?
      ensures backend.serial && SettledBefore(lease, old(backend.clock)) && r.Success? ==> r.value.state != Released
      ensures lease.uncertain && r.Success? ==> r.value.state == lease.state && r.value.billing == Unresolved
    {
      if lease.uncertain {
        r := WriteUnpatched(me, lease, ToClear(LeaveUnresolved("AmbiguousCreateBillingUnresolved")));
        return;
      }
      var at := backend.Now();
      backend.SnapshotFacts(lease);
      r := SettleReceipt(me, lease, ZeroCostReceipt(lease.request.token, NoPodHeld, lease.request.spec.value, at));
    }

    /** Asks for the final bill of a terminated Pod and checks what it covers. */
    method SettlePod(me: Actor, lease: Lease) returns (r: Result<Lease, Exception>)
      requires backend.Valid() && backend.Held(lease) && lease.state != Requested && Catalog(lease)
      requires lease.state != Released ==> lease.cleanup == Complete && lease.terminatedAt.Some?
      requires lease.billing != Authoritative && lease.podId.Some? && lease.terminatedAt.Some?
      requires lease.evidence.Some? && lease.evidence.value.realized.Some?
      requires lease.evidence.value.realized.value.podId == lease.podId.value
      modifies backend
      ensures backend.Valid() && backend.Grown()
      ensures r.Success? ==> backend.Held(r.value) && r.value.request == lease.request && Cleared(r.value)
      ensures r.Failure? ==> r.error in {ManagerError, ConflictError, ValueError, Crash}
      ensures r.Success? && backend.serial && lease.state != Released && r.value.state == Released ==>
        r.value.receipt.Some? && Covers(lease, r.value.receipt.value)
      ensures backend.serial && SettledBefore(lease, old(backend.clock)) && r.Success? ==> r.value.state != Released
    {
      var bill := backend.FinalBilling(me, lease.request.token);
      if bill.Failure? { return Failure(bill.error); }
      if bill.value.None? {
        if lease.billing == BillingPending { return Success(lease); }
        r := WriteUnpatched(me, lease, ToClear(LeavePending));
        return;
      }
      var receipt := bill.value.value;
      if receipt.podId != lease.podId { return Failure(ManagerError); }
      if receipt.billedUntil < lease.terminatedAt.value { return Failure(ManagerError); }
      if receipt.hourlyRate != lease.evidence.value.realized.value.hourlyRate { return Failure(ManagerError); }
      r := SettleReceipt(me, lease, receipt);
    }

    /** Stores the receipt; a conflict is accepted only if someone else settled first. */
    method SettleReceipt(me: Actor, lease: Lease, receipt: Receipt) returns (r: Result<Lease, Exception>)
      requires backend.Valid() && backend.Held(lease) && lease.state != Requested && Catalog(lease)
      requires lease.state != Released ==> lease.cleanup == Complete && lease.terminatedAt.Some?
      requires lease.billing != Authoritative && (lease.podId.Some? ==> Covers(lease, receipt))
      modifies backend
      ensures backend.Valid() && backend.Grown()
      ensures r.Success? ==> backend.Held(r.value) && r.value.request == lease.request && r.value.state == Released
      ensures r.Failure? ==> r.error in {ManagerError, ConflictError, ValueError, Crash}
      ensures r.Success? && backend.serial && lease.state != Released ==> r.value.receipt == Some(receipt)
      ensures backend.serial && lease.state != Released && lease.receipt.Some? && lease.receipt.value != receipt ==>
        r.Failure?
    {
      if backend.serial { backend.HeldInCustody(lease); }
      RowFollowsItself(lease);
      backend.SnapshotFacts(lease);
      var settled, _ := TransitionWithEvidence(me, lease, ToClear(Settle(receipt)));
      if settled.Failure? {
        if settled.error != ConflictError { return settled; }
        var current :- RequiredAgain(me, lease);
        if current.billing != Authoritative { return Failure(ConflictError); }
        settled := Success(current);
      }
      r := RevokeAndRelease(me, settled.value);
    }

    /** `_required` for a lease that was read before. */
    method RequiredAgain(me: Actor, lease: Lease) returns (r: Result<Lease, Exception>)
      requires backend.Valid() && lease in backend.seen
      modifies backend
      ensures backend.Valid() && backend.Grown()
      ensures CloudFollows(old(backend.world).cloud, backend.world.cloud)
      ensures r.Success? ==> (
        && backend.Holds(r.value, lease.request.token) && r.value.request == lease.request && Precedes(lease, r.value)
        && (backend.serial && old(backend.Held(lease)) ==> r.value == lease))
      ensures r.Failure? ==> r.error == Crash
      ensures old(backend.clock) <= backend.clock
    {
      backend.SnapshotFacts(lease);
      var read := Required(me, lease.request.token);
      backend.SnapshotFacts(lease);
      if read.Failure? { return Failure(Crash); }
      return read;
    }

    // ---- Cleanup ----

    /** `_record_retryable_failure`. */
    method RecordRetryableFailure(me: Actor, lease: Lease, doubtful: bool) returns (r: Result<Lease, Exception>)
      requires backend.Valid() && lease in backend.seen && lease.state != Requested
      requires doubtful ==> lease.request.source == Created
      requires backend.serial && doubtful && lease.state != Released ==> backend.Held(lease) && lease.uncertain
      modifies backend
      ensures backend.Valid() && backend.Grown()
      ensures r.Success? ==> (
        && backend.Held(r.value) && r.value.request == lease.request && Precedes(lease, r.value)
        && (r.value.state == Released || r.value.state == ReconcileRequired)
        && (doubtful && r.value.podId.None? ==> r.value.uncertain || r.value.state == Released))
      ensures r.Failure? ==> r.error == Crash
      ensures backend.serial && old(backend.Held(lease)) && lease.state != Released && r.Success? ==>
        r.value.state != Released && r.value.podId == lease.podId
      ensures r.Success? && r.value.state == ReconcileRequired ==> r.value.cleanup == RetryableFailure
    {
      var current :- RequiredAgain(me, lease);
      if current.state == Released { return Success(current); }
      var at := backend.Now();
      RowFollowsItself(current);
      var moved, from := TransitionNonterminal(me, current, ToClear(RetryLater(PROVIDER_ERROR, doubtful, at)));
      if moved.Success? { PrecedesIsTransitive(lease, current, moved.value); }
      r := moved;
    }

    /** `_release_unowned_claim`: gives a claim back without touching the Pod. */
    method ReleaseUnownedClaim(me: Actor, lease: Lease, failure: Option<string>) returns (r: Result<Lease, Exception>)
      requires backend.Valid() && backend.Held(lease) && lease.request.source != Created
      requires lease.state == Requested
      modifies backend
      ensures backend.Valid() && backend.Grown()
      ensures r.Success? ==> backend.Held(r.value) && r.value.request == lease.request && r.value.state == Released
      ensures r.Failure? ==> r.error == Crash
    {
      var at := backend.Now();
      RowFollowsItself(lease);
      backend.SnapshotFacts(lease);
      var moved, _ := TransitionNonterminal(me, lease, ToAcquire(ReleaseUnowned(failure, at)));
      r := moved;
    }

    /** `_resolve_uncertain_creation`: a Pod found by the durable name is adopted; otherwise a
        catalog lease waits for ever, and a training lease until its readiness deadline. */
    method ResolveUncertainCreation(me: Actor, lease: Lease) returns (r: Result<Lease, Exception>)
      requires backend.Valid() && backend.Held(lease) && lease.podId.None? && lease.uncertain
      modifies backend
      ensures backend.Valid() && backend.Grown()
      ensures r.Success? ==> (
        && backend.Held(r.value) && r.value.request == lease.request
        && (r.value.podId.None? && backend.serial ==> r.value.uncertain || r.value.state == Released))
      ensures r.Failure? ==> r.error in {ManagerError, ConflictError, ValueError, Crash}
    {
      backend.SnapshotFacts(lease);
      var found := backend.FindPod(me, lease.request.token);
      if found.Failure? {
        if !found.error.Caught() { return Failure(found.error); }
        r := RecordRetryableFailure(me, lease, true);
        return;
      }
      if found.value.Some? {
        r := AdoptPod(me, lease, found.value.value);
        return;
      }
      r := LeaveUncertain(me, lease);
    }

    /** No Pod was found: a catalog lease waits on, a training lease only until its readiness
        deadline. */
    method LeaveUncertain(me: Actor, lease: Lease) returns (r: Result<Lease, Exception>)
      requires backend.Valid() && backend.Held(lease) && lease.podId.None? && lease.uncertain
      requires lease.request.source == Created
      modifies backend
      ensures backend.Valid() && backend.Grown()
      ensures r.Success? ==> (
        && backend.Held(r.value) && r.value.request == lease.request
        && (r.value.podId.None? && backend.serial ==> r.value.uncertain || r.value.state == Released))
      ensures r.Failure? ==> r.error == Crash
      ensures r.Success? && !Catalog(lease) && lease.request.readinessDeadline <= old(backend.clock) ==>
        r.value.state == Released
      ensures r.Success? && r.value.state != Released ==>
        r.value.state == ReconcileRequired && r.value.cleanup == RetryableFailure
        && (Catalog(lease) ==> r.value.billing == Unresolved)
    {
      var at := backend.Now();
      RowFollowsItself(lease);
      if at < lease.request.readinessDeadline || Catalog(lease) {
        var moved, _ := TransitionNonterminal(me, lease, ToAcquire(AwaitCreate("AwaitingCreateReconciliation")));
        r := moved;
      } else {
        var moved, _ := TransitionNonterminal(me, lease, ToAcquire(GiveUp(at)));
        r := moved;
      }
    }

    method AdoptPod(me: Actor, lease: Lease, found: Found) returns (r: Result<Lease, Exception>)
      requires backend.Valid() && backend.Held(lease) && MadePod(lease, found.id, backend.world.cloud)
      requires lease.podId.None? && lease.uncertain
      modifies backend
      ensures backend.Valid() && backend.Grown()
      ensures r.Success? ==> (
        && backend.Held(r.value) && r.value.request == lease.request
        && (r.value.podId == Some(found.id) || r.value.state == Released))
      ensures r.Failure? ==> r.error in {ManagerError, ConflictError, ValueError, Crash}
      ensures r.Success? && Catalog(lease) && r.value.state != Released ==>
        r.value.evidence.Some? && r.value.evidence.value.realized.Some?
    {
      if Catalog(lease) && found.realized.None? { return Failure(ManagerError); }
      var at := backend.Now();
      RowFollowsItself(lease);
      var moved, from := TransitionWithEvidence(me, lease, ToAcquire(Adopt(found.id, found.realized, at)));
      backend.SnapshotFacts(lease);
      if moved.Success? && Catalog(lease) && moved.value.state != Released {
        AdoptionIsPlaced(found.id, found.realized, at, lease, from, moved.value);
      }
      r := moved;
    }

    function ZeroReceipt(l: Lease, cause: Cause, at: int): (zero: Option<Receipt>)
      requires ValidRequest(l.request)
      ensures (zero.Some? <==> Catalog(l)) && (zero.Some? ==> zero.value.podId.None? && zero.value.reconciledAt == at)
    {
      if l.request.spec.Some? then Some(ZeroCostReceipt(l.request.token, ReasonOf(cause), l.request.spec.value, at))
      else None
    }

    /** Settles a lease that holds no provider capacity. The receipt has its own reading of
        the clock, before or after `at`. */
    method SettleNoCapacity(me: Actor, lease: Lease, cause: Cause, beat: int, at: int, receiptAt: int)
      returns (r: Result<Lease, Exception>)
      requires backend.Valid() && backend.Held(lease)
      requires cause.CreateRejected? ==> lease.request.token in backend.world.cloud.rejected
      requires backend.serial && lease.state != Released ==>
        lease.podId.None? && (cause.CreateRejected? || !lease.uncertain)
      modifies backend
      ensures backend.Valid() && backend.Grown()
      ensures r.Success? ==> backend.Held(r.value) && r.value.request == lease.request && r.value.state == Released
      ensures r.Failure? ==> r.error in {ManagerError, ConflictError, ValueError, Crash}
      ensures r.Success? && backend.serial && lease.state != Released && Catalog(lease) ==>
        && r.value.receipt.Some? && r.value.receipt.value.podId.None?
        && r.value.receipt.value.reconciledAt == receiptAt
        && OneReading(lease, at, receiptAt)
      ensures backend.serial && Catalog(lease) && lease.state != Released && SettledOtherwise(lease, cause, receiptAt)
        ==> r.Failure? && (r.error == Crash || backend.Held(lease))
    {
      var moved := WriteNoCapacity(me, lease, cause, beat, at, receiptAt);
      if moved.Failure? || !Catalog(lease) { return moved; }
      r := RevokeAndRelease(me, moved.value);
    }

    /** The settlement before the bearer is revoked. */
    method WriteNoCapacity(me: Actor, lease: Lease, cause: Cause, beat: int, at: int, receiptAt: int)
      returns (r: Result<Lease, Exception>)
      requires backend.Valid() && backend.Held(lease)
      requires cause.CreateRejected? ==> lease.request.token in backend.world.cloud.rejected
      requires backend.serial && lease.state != Released ==>
        lease.podId.None? && (cause.CreateRejected? || !lease.uncertain)
      modifies backend
      ensures backend.Valid() && backend.Grown()
      ensures r.Success? ==> backend.Held(r.value) && r.value.request == lease.request
      ensures r.Success? && !Catalog(lease) ==> r.value.state == Released
      ensures r.Failure? ==> r.error in {ConflictError, ValueError, Crash}
      ensures r.Success? && backend.serial && lease.state != Released && Catalog(lease) ==>
        && r.value.receipt.Some? && r.value.receipt.value.podId.None?
        && r.value.receipt.value.reconciledAt == receiptAt
        && OneReading(lease, at, receiptAt) && !SettledOtherwise(lease, cause, receiptAt)
      ensures r.Failure? && r.error != Crash && backend.serial ==> backend.Held(lease)
    {
      backend.SnapshotFacts(lease);
      RowFollowsItself(lease);
      var zero := ZeroReceipt(lease, cause, receiptAt);
      var write: Write := ToClear(NoCapacity(cause, zero, beat, at));
      ghost var from;
      r, from := TransitionWithEvidence(me, lease, write);
      if r.Success? && backend.serial && lease.state != Released && Catalog(lease) {
        SettlementIsStored(lease, cause, beat, at, receiptAt, from, r.value);
      }
    }

    ghost predicate HoldsUnrevoked(token: Token)
      reads backend
    {
      token in backend.world.rows && Unrevoked(backend.world.rows[token], backend.clock)
    }

    ghost predicate HoldsStuck(token: Token)
      reads backend
    {
      token in backend.world.rows && Stuck(backend.world.rows[token], backend.clock)
    }

    ghost predicate HoldsReleased(token: Token)
      reads backend
    {
      token in backend.world.rows && backend.world.rows[token].state == Released
    }

    /** `_release_one`: stops one exact attempt, keeping its Pod id until that is confirmed. A
        training attempt that returns normally is released; one that was released stays so. */
    method ReleaseOne(me: Actor, token: Token) returns (r: Result<Lease, Exception>)
      requires backend.Valid()
      modifies backend
      ensures backend.Valid() && backend.Grown()
      ensures r.Success? ==> backend.Held(r.value) && r.value.request.token == token && backend.CleanedUp(r.value)
      ensures r.Success? && backend.serial ==> LetGo(r.value, backend.world.cloud)
      ensures backend.serial && old(HoldsStuck(token)) ==>
        r.Failure? && (r.error == Crash || backend.Has(token, old(backend.world).rows[token]))
      ensures r.Failure? ==> r.error in {ManagerError, ConflictError, CleanupError, ValueError, Crash}
      ensures backend.serial && old(HoldsUnrevoked(token)) && r.Success? ==> r.value.state != Released
      ensures backend.serial && old(HoldsReleased(token)) ==>
        r == Failure(Crash) || r == Success(old(backend.world).rows[token])
    {
      var lease :- Required(me, token);
      r := ReleaseRead(me, lease);
      if r.Success? { NoteCleanedUp(r.value); }
    }

    /** Remembers that the lease was cleaned up. */
    ghost method NoteCleanedUp(l: Lease)
      requires backend.Valid() && backend.Held(l) && Cleared(l)
      modifies backend`kept
      ensures backend.Valid() && backend.CleanedUp(l) && backend.Noticing(old(backend.kept))
      ensures backend.serial ==> LetGo(l, backend.world.cloud)
    {
      backend.NoteCleared(l);
      if backend.serial { backend.HeldMeansLetGo(l); }
    }

    method ReleaseRead(me: Actor, lease: Lease) returns (r: Result<Lease, Exception>)
      requires backend.Valid() && backend.Held(lease)
      modifies backend
      ensures backend.Valid() && backend.Grown()
      ensures r.Success? ==> backend.Held(r.value) && r.value.request == lease.request && Cleared(r.value)
      ensures backend.serial && Stuck(lease, old(backend.clock)) ==>
        r.Failure? && (r.error == Crash || backend.Held(lease))
      ensures r.Failure? ==> r.error in {ManagerError, ConflictError, CleanupError, ValueError, Crash}
      ensures backend.serial && Unrevoked(lease, old(backend.clock)) && r.Success? ==> r.value.state != Released
      ensures lease.state == Released ==> r == Success(lease)
    {
      if lease.state == Released { return Success(lease); }
      backend.SnapshotFacts(lease);
      if Catalog(lease) && lease.cleanup == Complete && lease.terminatedAt.Some?
         && (lease.billing == BillingPending || lease.billing == Unresolved) {
        r := ReconcileBilling(me, lease);
        return;
      }
      if lease.ownership == PreexistingRunning {
        r := ReleasePreexisting(me, lease);
        return;
      }
      r := ReleaseOwned(me, lease);
    }

    method ReleasePreexisting(me: Actor, lease: Lease) returns (r: Result<Lease, Exception>)
      requires backend.Valid() && backend.Held(lease) && lease.ownership == PreexistingRunning
      modifies backend
      ensures backend.Valid() && backend.Grown()
      ensures r.Success? ==> backend.Held(r.value) && r.value.request == lease.request && r.value.state == Released
      ensures r.Failure? ==> r.error == Crash
    {
      var at := backend.Now();
      RowFollowsItself(lease);
      backend.SnapshotFacts(lease);
      var moved, _ := TransitionNonterminal(me, lease, ToClear(ReleaseNotOwned(at)));
      r := moved;
    }

    method ReleaseOwned(me: Actor, lease: Lease) returns (r: Result<Lease, Exception>)
      requires backend.Valid() && backend.Held(lease)
      requires backend.serial ==> lease.ownership != PreexistingRunning
      modifies backend
      ensures backend.Valid() && backend.Grown()
      ensures r.Success? ==> (
        backend.Held(r.value) && r.value.request == lease.request && Cleared(r.value))
      ensures r.Failure? ==> r.error in {ManagerError, ConflictError, CleanupError, ValueError, Crash}
      ensures backend.serial && Stuck(lease, old(backend.clock)) ==>
        r.Failure? && (r.error == Crash || backend.Held(lease))
      ensures backend.serial && Unrevoked(lease, old(backend.clock)) && r.Success? ==> r.value.state != Released
    {
      var current :- ResolvedLease(me, lease);
      if current.podId.None? {
        var at := backend.Now();
        var receiptAt := backend.Now();
        r := SettleNoCapacity(me, current, NoProviderCapacity, at, at, receiptAt);
        return;
      }
      r := ReleasePod(me, current);
    }

    /** The lease, once the outcome of its create is known. */
    method ResolvedLease(me: Actor, lease: Lease) returns (r: Result<Lease, Exception>)
      requires backend.Valid() && backend.Held(lease)
      requires backend.serial ==> lease.ownership != PreexistingRunning
      modifies backend
      ensures backend.Valid() && backend.Grown()
      ensures r.Success? ==> (
        && backend.Held(r.value) && r.value.request == lease.request && (r.value.podId.Some? || !r.value.uncertain)
        && (backend.serial ==> r.value.ownership != PreexistingRunning))
      ensures lease.podId.Some? || !lease.uncertain ==> r == Success(lease)
      ensures r.Failure? ==> r.error in {ManagerError, ConflictError, CleanupError, ValueError, Crash}
    {
      if lease.podId.Some? || !lease.uncertain { return Success(lease); }
      backend.SnapshotFacts(lease);
      var current :- ResolveUncertainCreation(me, lease);
      backend.SnapshotFacts(current);
      if current.podId.None? && current.uncertain { return Failure(CleanupError); }
      return Success(current);
    }

    method ReleasePod(me: Actor, lease: Lease) returns (r: Result<Lease, Exception>)
      requires backend.Valid() && backend.Held(lease) && lease.podId.Some?
      requires backend.serial ==> lease.ownership != PreexistingRunning
      modifies backend
      ensures backend.Valid() && backend.Grown()
      ensures r.Success? ==> (
        backend.Held(r.value) && r.value.request == lease.request && Cleared(r.value))
      ensures r.Failure? ==> r.error in {ManagerError, ConflictError, CleanupError, ValueError, Crash}
      ensures backend.serial && Catalog(lease) && SettledBefore(lease, old(backend.clock)) && r.Success?
        ==> r.value.state != Released
    {
      var current :- BeginReleasing(me, lease);
      current :- CountStopAttempt(me, current);
      if current.state == Released { return Success(current); }
      r := StopAndSettle(me, current);
    }

    method BeginReleasing(me: Actor, lease: Lease) returns (r: Result<Lease, Exception>)
      requires backend.Valid() && backend.Held(lease)
      modifies backend
      ensures backend.Valid() && backend.Grown()
      ensures r.Success? ==> (
        && backend.Held(r.value) && r.value.request == lease.request && Kept(lease.podId, r.value.podId)
        && (r.value.state == Releasing || r.value.state == Released)
        && (backend.serial ==> r.value.ownership == lease.ownership))
      ensures r.Failure? ==> r.error == Crash
      ensures r.Success? && backend.serial ==>
        r.value.receipt == lease.receipt && (lease.state != Released ==> r.value.state == Releasing)
      ensures r.Success? && lease.state != Releasing && r.value.state == Releasing ==>
        r.value.route.None? && r.value.cleanup == Pending
    {
      RowFollowsItself(lease);
      if lease.state == Releasing { return Success(lease); }
      var at := backend.Now();
      var moved, _ := TransitionNonterminal(me, lease, ToClear(BeginRelease(at)));
      r := moved;
    }

    /** The loop that counts the attempt before the provider is asked to stop. */
    method CountStopAttempt(me: Actor, lease: Lease) returns (r: Result<Lease, Exception>)
      requires backend.Valid() && backend.Held(lease) && lease.podId.Some?
      modifies backend
      ensures backend.Valid() && backend.Grown()
      ensures r.Success? ==> backend.Held(r.value) && r.value.request == lease.request && r.value.podId == lease.podId
      ensures r.Failure? ==> r.error == Crash
      ensures r.Success? ==> r.value.state == Released || 0 < r.value.stopAttempts
      ensures r.Success? && backend.serial ==> r.value.state == lease.state && r.value.ownership == lease.ownership
      ensures r.Success? && lease.state != Requested ==> r.value.state != Requested
      ensures r.Success? && backend.serial && lease.state != Released ==> r.value == Apply(ToClear(CountStop), lease)
    {
      var current, left := lease, backend.retries;
      while current.state != Released
        invariant backend.Valid() && backend.Grown() && backend.Held(current)
        invariant current.request == lease.request && current.podId == lease.podId
        invariant backend.serial ==> current == lease
        invariant lease.state != Requested ==> current.state != Requested
        decreases left
      {
        r := WriteUnpatched(me, current, ToClear(CountStop));
        if r.Success? || r.error != ConflictError { return; }
        if left == 0 { return Failure(Crash); }
        left := left - 1;
        var next := Reread(me, current);
        if next.Failure? { return next; }
        current := next.value;
      }
      return Success(current);
    }

    /** Asks the provider to stop the Pod, and settles once that is confirmed. */
    method StopAndSettle(me: Actor, lease: Lease) returns (r: Result<Lease, Exception>)
      requires backend.Valid() && backend.Held(lease) && lease.podId.Some? && lease.state != Requested
      requires 0 < lease.stopAttempts
      requires backend.serial ==> lease.state == Releasing && lease.ownership != PreexistingRunning
      modifies backend
      ensures backend.Valid() && backend.Grown()
      ensures r.Success? ==> (
        backend.Held(r.value) && r.value.request == lease.request && Cleared(r.value))
      ensures r.Failure? ==> r.error in {ManagerError, ConflictError, CleanupError, ValueError, Crash}
      ensures r.Success? && backend.serial ==> LetGo(r.value, backend.world.cloud)
      ensures backend.serial && Catalog(lease) && SettledBefore(lease, old(backend.clock)) && r.Success?
        ==> r.value.state != Released
    {
      var stopped := backend.StopPod(me, lease);
      if stopped.Failure? {
        if !stopped.error.Caught() { return Failure(stopped.error); }
        var noted :- RecordRetryableFailure(me, lease, false);
        if noted.state == Released {
          NoteCleanedUp(noted);
          return Success(noted);
        }
        return Failure(CleanupError);
      }
      var at := backend.Now();
      RowFollowsItself(lease);
      if !stopped.value {
        var moved, _ := TransitionNonterminal(me, lease, ToClear(StopUnconfirmed(at)));
        if moved.Failure? { return moved; }
        if moved.value.state == Released {
          NoteCleanedUp(moved.value);
          return moved;
        }
        return Failure(CleanupError);
      }
      r := SettleHalted(me, lease, true, at);
      if r.Success? { NoteCleanedUp(r.value); }
    }

    /** Records the confirmed halt; a catalog lease goes on to its bill. */
    method SettleHalted(me: Actor, lease: Lease, byRelease: bool, at: int) returns (r: Result<Lease, Exception>)
      requires backend.Valid() && backend.Held(lease) && lease.podId.Some?
      requires lease.podId.value in backend.world.cloud.halted
      modifies backend
      ensures backend.Valid() && backend.Grown()
      ensures r.Success? ==> (
        backend.Held(r.value) && r.value.request == lease.request && Cleared(r.value))
      ensures r.Failure? ==> r.error in {ManagerError, ConflictError, ValueError, Crash}
      ensures backend.serial && Catalog(lease) && SettledBefore(lease, old(backend.clock)) && r.Success?
        ==> r.value.state != Released
    {
      var moved := WriteHalted(me, lease, byRelease, at);
      if moved.Failure? || !Catalog(lease) { return moved; }
      r := ReconcileBilling(me, moved.value);
    }

    method WriteHalted(me: Actor, lease: Lease, byRelease: bool, at: int) returns (r: Result<Lease, Exception>)
      requires backend.Valid() && backend.Held(lease) && lease.podId.Some?
      requires lease.podId.value in backend.world.cloud.halted
      modifies backend
      ensures backend.Valid() && backend.Grown()
      ensures r.Success? ==> (
        && backend.Held(r.value) && r.value.request == lease.request && r.value.state != Requested
        && (r.value.state == Released
            || (Catalog(lease) && r.value.cleanup == Complete && r.value.terminatedAt.Some?)))
      ensures r.Success? && backend.serial && Catalog(lease) && lease.state != Released ==> (
        && r.value.state == Releasing && r.value.billing == BillingPending && r.value.receipt == lease.receipt
        && r.value.terminatedAt == Some(at))
      ensures r.Failure? ==> r.error in {ConflictError, ValueError, Crash}
    {
      RowFollowsItself(lease);
      var moved, from := TransitionWithEvidence(me, lease, ToClear(Halted(lease.podId.value, byRelease, at)));
      r := moved;
    }

    // ---- Acquisition ----

    /** Persists the id of the Pod that the create made. */
    method BindCreated(me: Actor, lease: Lease, id: PodId, realized: Option<Placement>, failure: Option<string>)
      returns (r: Result<Lease, Exception>)
      requires backend.Valid() && backend.Held(lease) && MadePod(lease, id, backend.world.cloud)
      requires backend.serial ==> lease.uncertain
      modifies backend
      ensures backend.Valid() && backend.Grown()
      ensures r.Success? ==> backend.Held(r.value) && r.value.request == lease.request
      ensures r.Failure? ==> r.error in {ConflictError, ValueError, Crash}
      ensures r.Success? ==> r.value.podId == Some(id) || r.value.state == Released
    {
      var at := backend.Now();
      var current :- RequiredAgain(me, lease);
      r := BindRead(me, current, id, realized, failure, at);
    }

    method BindRead(me: Actor, lease: Lease, id: PodId, realized: Option<Placement>, failure: Option<string>, at: int)
      returns (r: Result<Lease, Exception>)
      requires backend.Valid() && backend.Held(lease) && MadePod(lease, id, backend.world.cloud)
      requires backend.serial ==> lease.uncertain
      modifies backend
      ensures backend.Valid() && backend.Grown()
      ensures r.Success? ==> backend.Held(r.value) && r.value.request == lease.request
      ensures r.Failure? ==> r.error in {ConflictError, ValueError, Crash}
      ensures r.Success? ==> r.value.podId == Some(id) || r.value.state == Released
    {
      RowFollowsItself(lease);
      var moved, _ := TransitionWithEvidence(me, lease, ToAcquire(BindPod(id, realized, failure, at)));
      r := moved;
    }

    /** Cleans up one attempt and then raises. */
    method RaiseAfterCleanup(me: Actor, token: Token) returns (r: Result<Lease, Exception>)
      requires backend.Valid()
      modifies backend
      ensures backend.Valid() && backend.Grown() && r.Failure?
      ensures r.error in {ManagerError, ConflictError, LifecycleError, CleanupError, ValueError, Crash}
    {
      var released := ReleaseOne(me, token);
      if released.Failure? { return Failure(released.error); }
      return Failure(LifecycleError);
    }

    /** Cleans up one attempt after an interruption, and then raises the interruption. */
    method RaiseInterruption(me: Actor, token: Token) returns (r: Result<Lease, Exception>)
      requires backend.Valid()
      modifies backend
      ensures backend.Valid() && backend.Grown() && r.Failure?
      ensures r.error in {ManagerError, ConflictError, CleanupError, ValueError, Interrupted, Crash}
    {
      var released := ReleaseOne(me, token);
      if released.Failure? { return Failure(released.error); }
      return Failure(Interrupted);
    }

    /** `_acquire_created`: admits the one create with the row, and binds what it made. */
    method AcquireCreated(me: Actor, lease: Lease) returns (r: Result<Lease, Exception>)
      requires backend.Valid() && backend.Held(lease) && lease.state == Requested && lease.request.source == Created
      modifies backend
      ensures backend.Valid() && backend.Grown()
      ensures r.Success? ==> backend.Held(r.value) && r.value.request == lease.request
      ensures r.Success? ==> r.value.podId.Some? || r.value.state == Released
    {
      var at := backend.Now();
      backend.SnapshotFacts(lease);
      EmptyPatchSucceeds(lease);
      var started :- backend.AdmitCreate(me, lease, at);
      r := CreateAdmitted(me, started);
    }

    method CreateAdmitted(me: Actor, started: Lease) returns (r: Result<Lease, Exception>)
      requires backend.Valid() && backend.Held(started) && started.uncertain && started.podId.None?
      requires started.state == Starting
      requires started.request.source == Created && backend.Permitted(me, started.request.token)
      modifies backend
      ensures backend.Valid() && backend.Grown()
      ensures r.Success? ==> backend.Held(r.value) && r.value.request == started.request
      ensures r.Success? ==> r.value.podId.Some? || r.value.state == Released
    {
      var created := backend.CreatePod(me, started.request.token);
      if created.Failure? {
        r := CreateFailed(me, started, created.error);
        return;
      }
      if created.value.Mismatched? || (Catalog(started) && created.value.realized.None?) {
        var bound :- BindCreated(me, started, created.value.id, None, Some("PodCapacityCreatedMismatchError"));
        r := RaiseAfterCleanup(me, started.request.token);
        return;
      }
      r := BindCreated(me, started, created.value.id, created.value.realized, None);
    }

    /** What an unsuccessful create leaves: only a definite refusal releases the lease. */
    method CreateFailed(me: Actor, started: Lease, error: Exception) returns (r: Result<Lease, Exception>)
      requires backend.Valid() && backend.Held(started) && started.uncertain && started.podId.None?
      requires started.request.source == Created && started.state == Starting
      requires error == ManagerError ==> started.request.token in backend.world.cloud.rejected
      modifies backend
      ensures backend.Valid() && backend.Grown() && r.Failure?
      ensures backend.serial && error == AmbiguousError && Catalog(started) && r.error != Crash ==>
        && backend.Stores(started.request.token) && backend.world.rows[started.request.token].uncertain
        && backend.world.rows[started.request.token].state == ReconcileRequired
    {
      var token := started.request.token;
      match error {
        case Interrupted =>
          r := RaiseInterruption(me, token);
        case AmbiguousError =>
          var noted := RecordRetryableFailure(me, started, true);
          if noted.Failure? { return noted; }
          if Catalog(started) { return Failure(LifecycleError); }
          r := RaiseAfterCleanup(me, token);
        case ManagerError =>
          var beat := backend.Now();
          var receiptAt := backend.Now();
          var at := backend.Now();
          var released := SettleNoCapacity(me, started, CreateRejected(PROVIDER_ERROR), beat, at, receiptAt);
          if released.Failure? { return released; }
          return Failure(LifecycleError);
        case _ =>
          return Failure(error);
      }
    }

    /** `_acquire_existing`: claims a configured or stopped Pod, as what it was observed to be. */
    method AcquireExisting(me: Actor, lease: Lease) returns (r: Result<Lease, Exception>)
      requires backend.Valid() && backend.Held(lease) && lease.state == Requested && lease.request.source != Created
      modifies backend
      ensures backend.Valid() && backend.Grown()
      ensures r.Success? ==> backend.Held(r.value) && r.value.request == lease.request
      ensures r.Success? ==> r.value.podId == lease.podId && r.value.ownership != Provisional
      ensures r.Success? ==>
        Saw(r.value, if r.value.ownership == PreexistingRunning then PodRunning else PodStopped, backend.world.cloud)
    {
      if lease.podId.None? { return Failure(ManagerError); }
      var view := backend.ObservePod(me, lease.request.token, lease.podId.value);
      if view.Failure? {
        r := DiscoveryFailed(me, lease, view.error);
        return;
      }
      var at := backend.Now();
      r := ClaimObserved(me, lease, view.value, at);
    }

    /** What the observation makes of the claim: a running Pod is claimed as it is, a stopped one is
        started and then owned, and any other is given back. */
    method ClaimObserved(me: Actor, lease: Lease, view: PodView, at: int) returns (r: Result<Lease, Exception>)
      requires backend.Valid() && backend.Held(lease) && lease.state == Requested && lease.request.source != Created
      requires Saw(lease, view.status, backend.world.cloud)
      modifies backend
      ensures backend.Valid() && backend.Grown()
      ensures r.Success? ==> backend.Held(r.value) && r.value.request == lease.request && r.value.podId == lease.podId
      ensures r.Success? ==> Saw(r.value, view.status, backend.world.cloud)
      ensures r.Success? ==> match view.status
        case PodRunning =>
          r.value.ownership == PreexistingRunning && r.value.state == Starting && r.value.route == view.route
        case PodStopped => r.value.ownership == Owned
        case _ => false
      ensures view.status in {PodFailed, PodOther} && r.Failure? && r.error == LifecycleError && backend.serial ==>
        backend.Stores(lease.request.token) && backend.world.rows[lease.request.token].state == Released
    {
      if view.status == PodRunning {
        r := WriteUnpatched(me, lease, ToAcquire(ClaimRunning(view.route, at)));
        return;
      }
      if view.status == PodStopped {
        r := ClaimAndStart(me, lease, at);
        return;
      }
      var released :- ReleaseUnownedClaim(me, lease, Some(PROVIDER_ERROR));
      return Failure(LifecycleError);
    }

    method ClaimAndStart(me: Actor, lease: Lease, at: int) returns (r: Result<Lease, Exception>)
      requires backend.Valid() && backend.Held(lease) && lease.state == Requested && lease.request.source != Created
      requires Saw(lease, PodStopped, backend.world.cloud)
      modifies backend
      ensures backend.Valid() && backend.Grown()
      ensures r.Success? ==> backend.Held(r.value) && r.value.request == lease.request
      ensures r.Success? ==> r.value.podId == lease.podId && r.value.ownership == Owned
      ensures r.Success? ==> Saw(r.value, PodStopped, backend.world.cloud)
    {
      var claimed :- WriteUnpatched(me, lease, ToAcquire(ClaimStopped(at)));
      r := StartStopped(me, claimed);
    }

    method DiscoveryFailed(me: Actor, lease: Lease, error: Exception) returns (r: Result<Lease, Exception>)
      requires backend.Valid() && backend.Held(lease) && lease.request.source != Created
      requires lease.state == Requested
      modifies backend
      ensures backend.Valid() && backend.Grown() && r.Failure?
    {
      if error != Interrupted && !error.Caught() { return Failure(error); }
      var failure := if error == Interrupted then None else Some(PROVIDER_ERROR);
      var released := ReleaseUnownedClaim(me, lease, failure);
      if released.Failure? { return released; }
      return Failure(if error == Interrupted then Interrupted else LifecycleError);
    }

    /** Starts a stopped Pod; only then is it owned. */
    method StartStopped(me: Actor, lease: Lease) returns (r: Result<Lease, Exception>)
      requires backend.Valid() && backend.Held(lease) && lease.request.source != Created && lease.podId.Some?
      requires lease.state == Starting && lease.ownership == Provisional
      requires Saw(lease, PodStopped, backend.world.cloud)
      modifies backend
      ensures backend.Valid() && backend.Grown()
      ensures r.Success? ==> backend.Held(r.value) && r.value.request == lease.request
      ensures r.Success? ==> r.value.podId == lease.podId && r.value.ownership == Owned
      ensures r.Success? ==> Saw(r.value, PodStopped, backend.world.cloud)
    {
      var token := lease.request.token;
      var started := backend.Ask(me, token, Woken(token, lease.podId.value));
      if started.Failure? {
        if started.error == Interrupted {
          r := RaiseInterruption(me, token);
          return;
        }
        if !started.error.Caught() { return Failure(started.error); }
        var noted :- RecordRetryableFailure(me, lease, false);
        r := RaiseAfterCleanup(me, token);
        return;
      }
      var current :- RequiredAgain(me, lease);
      var at := backend.Now();
      r := WriteUnpatched(me, current, ToAcquire(OwnStarted(at)));
    }

    // ---- Readiness ----

    method EnforceReadinessDeadline(me: Actor, lease: Lease) returns (r: Result<Lease, Exception>)
      requires backend.Valid() && backend.Held(lease)
      modifies backend
      ensures backend.Valid() && backend.Grown()
      ensures r.Success? ==> r.value == lease && backend.Held(lease)
      ensures r.Success? ==>
        old(backend.clock) < lease.request.readinessDeadline && old(backend.clock) < lease.request.hardDeadline
    {
      var at := backend.Now();
      if at < lease.request.readinessDeadline && at < lease.request.hardDeadline { return Success(lease); }
      r := RaiseAfterCleanup(me, lease.request.token);
    }

    /** `_observe_readiness`: one observation; only a lease still STARTING can become READY. */
    method ObserveReadiness(me: Actor, token: Token) returns (r: Result<Lease, Exception>)
      requires backend.Valid()
      modifies backend
      ensures backend.Valid() && backend.Grown()
      ensures r.Success? ==> backend.Held(r.value) && r.value.request.token == token
      ensures r.Success? && r.value.state == Starting ==>
        old(backend.clock) < r.value.request.readinessDeadline && old(backend.clock) < r.value.request.hardDeadline
    {
      var lease :- Required(me, token);
      if lease.state != Starting { return Success(lease); }
      lease :- EnforceReadinessDeadline(me, lease);
      var tried, healthy := TryObserve(me, lease);
      if tried.Failure? {
        r := ReadinessFailed(me, lease, tried.error);
        return;
      }
      if !healthy { return tried; }
      r := ConfirmReady(me, tried.value);
    }

    /** The guarded part: observe, record, and probe the worker of a catalog lease. */
    method TryObserve(me: Actor, lease: Lease) returns (r: Result<Lease, Exception>, healthy: bool)
      requires backend.Valid() && backend.Held(lease)
      modifies backend
      ensures backend.Valid() && backend.Grown()
      ensures lease in backend.seen
      ensures r.Success? ==> backend.Held(r.value) && r.value.request == lease.request
      ensures r.Success? && healthy ==> Serves(r.value, backend.world.cloud)
      ensures r.Success? && r.value.state == Starting ==>
        Saw(r.value, PodRunning, backend.world.cloud) || Saw(r.value, PodOther, backend.world.cloud)
      ensures r.Success? && healthy ==> r.value.route.Some? && r.value.route.value != ""
    {
      healthy := false;
      if lease.podId.None? { return Failure(ManagerError), false; }
      var view := backend.ObservePod(me, lease.request.token, lease.podId.value);
      if view.Failure? { return Failure(view.error), false; }
      r := RecordObserved(me, lease, view.value);
      if r.Failure? || r.value.state != Starting { return; }
      if view.value.status == PodFailed || view.value.status == PodStopped {
        r := RaiseAfterCleanup(me, lease.request.token);
        return;
      }
      if view.value.status != PodRunning || view.value.route.None? || view.value.route.value == "" { return; }
      if Catalog(lease) {
        r, healthy := ProbeWorker(me, r.value);
        return;
      }
      healthy := true;
    }

    method RecordObserved(me: Actor, lease: Lease, view: PodView) returns (r: Result<Lease, Exception>)
      requires backend.Valid() && backend.Held(lease) && Saw(lease, view.status, backend.world.cloud)
      modifies backend
      ensures backend.Valid() && backend.Grown()
      ensures r.Success? ==> backend.Held(r.value) && r.value.request == lease.request
      ensures r.Success? ==> r.value.podId == lease.podId
      ensures r.Success? && r.value.state == Starting ==> r.value.route == view.route
    {
      var current :- RequiredAgain(me, lease);
      if current.state != Starting { return Success(current); }
      var at := backend.Now();
      RowFollowsItself(current);
      var observed := ToAcquire(Observed(view.route, view.status == PodRunning, at));
      var moved, _ := TransitionWithEvidence(me, current, observed);
      r := moved;
    }

    /** An unready worker is not a failed cleanup: the lease stays STARTING. */
    method ProbeWorker(me: Actor, lease: Lease) returns (r: Result<Lease, Exception>, healthy: bool)
      requires backend.Valid() && backend.Held(lease)
      modifies backend
      ensures backend.Valid() && backend.Grown()
      ensures r.Success? ==> backend.Held(r.value) && r.value.request == lease.request
      ensures r.Success? && lease.podId.Some? ==> r.value.podId == lease.podId
      ensures r.Success? && healthy ==> r.value == lease && Healthy(lease.request.token) in backend.world.cloud.answers
    {
      var probed := backend.Ask(me, lease.request.token, Healthy(lease.request.token));
      if probed.Success? { return Success(lease), true; }
      if probed.error != TransportError { return Failure(probed.error), false; }
      var current := RequiredAgain(me, lease);
      if current.Failure? || current.value.state != Starting { return current, false; }
      var at := backend.Now();
      RowFollowsItself(current.value);
      var moved, _ := TransitionWithEvidence(me, current.value, ToAcquire(HealthNote("CatalogPodTransportError", at)));
      return moved, false;
    }

    method ReadinessFailed(me: Actor, lease: Lease, error: Exception) returns (r: Result<Lease, Exception>)
      requires backend.Valid() && lease in backend.seen && lease.state != Requested
      modifies backend
      ensures backend.Valid() && backend.Grown() && r.Failure?
    {
      if error == Interrupted {
        r := RaiseInterruption(me, lease.request.token);
        return;
      }
      if !error.Caught() || error == LifecycleError || error == CleanupError { return Failure(error); }
      var current := RequiredAgain(me, lease);
      if current.Failure? { return current; }
      var noted := RecordRetryableFailure(me, current.value, false);
      if noted.Failure? { return noted; }
      r := RaiseAfterCleanup(me, lease.request.token);
    }

    method ConfirmReady(me: Actor, lease: Lease) returns (r: Result<Lease, Exception>)
      requires backend.Valid() && backend.Held(lease) && Serves(lease, backend.world.cloud)
      modifies backend
      ensures backend.Valid() && backend.Grown()
      ensures r.Success? ==> backend.Held(r.value) && r.value.request == lease.request
      ensures r.Success? ==> r.value.state != Starting
      ensures r.Success? && backend.serial && lease.state == Starting ==>
        old(backend.clock) < lease.request.readinessDeadline && old(backend.clock) < lease.request.hardDeadline
    {
      var current :- RequiredAgain(me, lease);
      if current.state != Starting { return Success(current); }
      current :- EnforceReadinessDeadline(me, current);
      var at := backend.Now();
      RowFollowsItself(current);
      var moved, _ := TransitionWithEvidence(me, current, ToAcquire(BecomeReady(at)));
      r := moved;
    }

    /** Observes until the lease leaves STARTING. `patience` is how many sleeps the caller
        sits out before it is interrupted. */
    method WaitReady(me: Actor, token: Token, patience: nat) returns (r: Result<Lease, Exception>)
      requires backend.Valid()
      modifies backend
      ensures backend.Valid() && backend.Grown()
      ensures r.Success? ==> backend.Held(r.value) && r.value.request.token == token && r.value.state != Starting
    {
      var left := patience;
      while true
        invariant backend.Valid() && backend.Grown()
        decreases left
      {
        r := ObserveReadiness(me, token);
        if r.Failure? || r.value.state != Starting { return; }
        if left == 0 {
          r := RaiseInterruption(me, token);
          return;
        }
        left := left - 1;
      }
    }

    method Heartbeat(me: Actor, token: Token) returns (r: Result<Lease, Exception>)
      requires backend.Valid()
      modifies backend
      ensures backend.Valid() && backend.Grown()
      ensures r.Success? ==>
        backend.Holds(r.value, token) && r.value.state != Released && old(backend.clock) <= r.value.heartbeat
    {
      var lease :- Required(me, token);
      if lease.state == Released { return Failure(LifecycleError); }
      var at := backend.Now();
      r := WriteUnpatched(me, lease, ToWork(Beat(at)));
    }

    /** A heartbeat of a lease just read; one that had become ready does not start again. */
    method BeatReady(me: Actor, lease: Lease) returns (r: Result<Lease, Exception>)
      requires backend.Valid() && backend.Held(lease)
      modifies backend
      ensures backend.Valid() && backend.Grown()
      ensures r.Success? ==> backend.Held(r.value) && r.value.request == lease.request
      ensures r.Success? && lease.state == Ready && HandsOff(lease) ==> r.value.state != Starting
    {
      r := Heartbeat(me, lease.request.token);
      backend.SnapshotFacts(lease);
    }

    /** `_acquire`: the claim is durable before any provider mutation, and only the caller
        that inserted it goes on. */
    method Acquire(me: Actor, request: PodRequest, wait: bool, patience: nat) returns (r: Result<Lease, Exception>)
      requires backend.Valid() && ValidRequest(request)
      modifies backend
      ensures backend.Valid() && backend.Grown()
      ensures r.Success? ==> backend.Held(r.value) && r.value.request == request
      ensures r.Success? && wait && HandsOff(r.value) ==> r.value.state != Starting
      ensures r.Success? && request.spec.Some? ==> request.spec.value.handoff
    {
      if request.spec.Some? && !request.spec.value.handoff { return Failure(ManagerError); }
      var reserved :- backend.Reserve(me, request);
      var lease := reserved.0;
      if !reserved.1 {
        if lease.state != Ready { return Failure(ConflictError); }
        r := BeatReady(me, lease);
        return;
      }
      if * { return Failure(ManagerError); } // the stored profile may not be configured
      if request.source == Created {
        lease :- AcquireCreated(me, lease);
      } else {
        lease :- AcquireExisting(me, lease);
      }
      if wait {
        r := WaitReady(me, request.token, patience);
        if r.Success? { backend.SameRequest(lease, r.value); }
        return;
      }
      return Success(lease);
    }

    /** `_acquire_catalog`: an identical replay returns the lease there is, and never creates
        replacement capacity. */
    method AcquireCatalog(me: Actor, request: PodRequest, wait: bool, patience: nat)
      returns (r: Result<Lease, Exception>)
      requires backend.Valid() && ValidRequest(request) && request.spec.Some?
      modifies backend
      ensures backend.Valid() && backend.Grown()
      ensures r.Success? ==> backend.Held(r.value) && r.value.request == request
      ensures r.Success? && wait && HandsOff(r.value) ==> r.value.state != Starting
      ensures r.Success? && backend.serial && request.token !in old(backend.world).rows ==>
        old(backend.clock) < request.readinessDeadline && old(backend.clock) < request.hardDeadline
    {
      if !request.spec.value.handoff { return Failure(ManagerError); }
      var existing :- backend.Get(me, request.token);
      if existing.Some? {
        var lease := existing.value;
        if lease.request != request { return Failure(ConflictError); }
        if lease.state == Ready || (!wait && lease.state == Starting && lease.podId.Some? && !lease.uncertain) {
          r := BeatReady(me, lease);
          return;
        }
        return Failure(ConflictError);
      }
      var capability :- backend.Await(me, request.token); // the quote and the bearer may have expired
      var now := backend.Now();
      if request.readinessDeadline <= now || request.hardDeadline <= now { return Failure(ManagerError); }
      r := Acquire(me, request, wait, patience);
    }

    /** `poll_catalog_readiness`: one observation, without sleeping, creating or starting. */
    method PollReadiness(me: Actor, token: Token) returns (r: Result<Lease, Exception>)
      requires backend.Valid()
      modifies backend
      ensures backend.Valid() && backend.Grown()
      ensures r.Success? ==> backend.Held(r.value) && r.value.request.token == token
      ensures r.Success? && backend.serial && token in old(backend.world).rows
        && old(backend.world).rows[token].state == Starting
        ==> old(backend.world).rows[token].podId.Some? && !old(backend.world).rows[token].uncertain
    {
      var lease :- RequiredCatalog(me, token);
      if lease.state != Starting { return Success(lease); }
      if lease.podId.None? || lease.uncertain { return Failure(ConflictError); }
      lease :- Heartbeat(me, token);
      r := ObserveReadiness(me, token);
    }

    /** `_catalog_lease`; whether the owner and the workload match is not modelled. */
    method RequiredCatalog(me: Actor, token: Token) returns (r: Result<Lease, Exception>)
      requires backend.Valid()
      modifies backend
      ensures backend.Valid() && backend.Interleaved(me, token)
      ensures r.Success? ==> backend.Holds(r.value, token) && Catalog(r.value)
      ensures r.Failure? ==> r.error in {ManagerError, ConflictError, Crash}
    {
      var lease :- Required(me, token);
      if !Catalog(lease) { return Failure(ManagerError); }
      if * { return Failure(ConflictError); }
      return Success(lease);
    }

    // ---- Work ----

    /** `record_job`, for leases without the handoff protocol. */
    method RecordJob(me: Actor, token: Token, job: Attempt) returns (r: Result<Lease, Exception>)
      requires backend.Valid()
      modifies backend
      ensures backend.Valid() && backend.Grown()
      ensures r.Success? ==> backend.Held(r.value) && r.value.state == JobSubmitted && r.value.jobId == Some(job)
    {
      var lease :- Required(me, token);
      if HandsOff(lease) { return Failure(ManagerError); }
      if lease.state != Ready && lease.state != JobSubmitted { return Failure(ManagerError); }
      if lease.jobId.Some? && lease.jobId.value != job { return Failure(ConflictError); }
      var at := backend.Now();
      r := WriteUnpatched(me, lease, ToWork(Activity.RecordJob(job, at)));
    }

    method RecordOperationError(me: Actor, token: Token) returns (r: Result<Lease, Exception>)
      requires backend.Valid()
      modifies backend
      ensures backend.Valid() && backend.Grown()
      ensures r.Success? ==> backend.Held(r.value) && r.value.request.token == token
      ensures r.Success? ==> r.value.state == Released || r.value.lastError == Some(PROVIDER_ERROR)
      ensures r.Success? && backend.serial && token in old(backend.world).rows ==>
        r.value.state == old(backend.world).rows[token].state
    {
      var lease :- Required(me, token);
      if lease.state == Released { return Success(lease); }
      var at := backend.Now();
      RowFollowsItself(lease);
      var moved, _ := TransitionNonterminal(me, lease, ToWork(NoteOperation(PROVIDER_ERROR, at)));
      r := moved;
    }

    method RecordStatus(me: Actor, token: Token, status: JobStatus) returns (r: Result<Lease, Exception>)
      requires backend.Valid()
      modifies backend
      ensures backend.Valid() && backend.Grown()
      ensures r.Success? ==> backend.Held(r.value) && r.value.request.token == token && !HandsOff(r.value)
      ensures r.Success? && r.value.state != Released ==> (
        && old(backend.clock) <= r.value.heartbeat
        && (status == Finished ==> r.value.state == JobCompleted)
        && (status == Stopped ==> r.value.state == CancelRequested))
    {
      var lease :- Required(me, token);
      if HandsOff(lease) { return Failure(ManagerError); }
      if lease.state == Released { return Success(lease); }
      var at := backend.Now();
      RowFollowsItself(lease);
      var moved, _ := TransitionNonterminal(me, lease, ToWork(Activity.RecordStatus(status, at)));
      r := moved;
    }

    method RecordResultRetrieved(me: Actor, token: Token) returns (r: Result<Lease, Exception>)
      requires backend.Valid()
      modifies backend
      ensures backend.Valid() && backend.Grown()
      ensures r.Success? ==> backend.Held(r.value) && r.value.state == ResultRetrieved && !HandsOff(r.value)
    {
      var lease :- Required(me, token);
      if HandsOff(lease) { return Failure(ManagerError); }
      if lease.state != JobSubmitted && lease.state != JobCompleted { return Failure(ManagerError); }
      var at := backend.Now();
      r := WriteUnpatched(me, lease, ToWork(ResultTaken(at)));
    }

    method RequestCancellation(me: Actor, token: Token) returns (r: Result<Lease, Exception>)
      requires backend.Valid()
      modifies backend
      ensures backend.Valid() && backend.Grown()
      ensures r.Success? ==> (
        && backend.Held(r.value) && r.value.request.token == token
        && (r.value.state == Released
            || (r.value.state == CancelRequested && (Catalog(r.value) ==> r.value.workload == Cancelling))))
    {
      var lease :- Required(me, token);
      if lease.state == Released { return Success(lease); }
      var at := backend.Now();
      r := WriteUnpatched(me, lease, ToWork(RequestCancel(at)));
    }

    // ---- The catalog worker ----

    /** `_record_catalog_observation`: the changes are computed again from whatever row is
        current, so a late poll adds what it proves and never moves the job back. */
    method RecordObservation(me: Actor, token: Token, o: Observation, submitted: bool)
      returns (r: Result<Lease, Exception>, ghost from: Option<Lease>)
      requires backend.Valid()
      modifies backend
      ensures backend.Valid() && backend.Grown()
      ensures r.Success? ==> backend.Holds(r.value, token) && Shows(r.value, o)
      ensures r.Success? ==> (
        && from.Some? && from.value in backend.seen && from.value.request == r.value.request
        && (backend.serial && token in old(backend.world).rows ==> from.value == old(backend.world).rows[token])
        && Heeds(from.value, o, r.value))
    {
      var left := backend.retries;
      from := None;
      while true
        invariant backend.Valid() && backend.Grown()
        invariant backend.serial ==> SameRow(token, old(backend.world).rows, backend.world.rows)
        decreases left
      {
        var lease :- Required(me, token);
        from := Some(lease);
        if !Catalog(lease) { return Failure(ManagerError), from; }
        var lost;
        r, lost := ObserveOnce(me, lease, o, submitted);
        if !lost { return; }
        if left == 0 { return Failure(Crash), from; }
        left := left - 1;
      }
    }

    /** One attempt; `lost` says that another write came first and the changes must be
        computed again. */
    method ObserveOnce(me: Actor, lease: Lease, o: Observation, submitted: bool)
      returns (r: Result<Lease, Exception>, lost: bool)
      requires backend.Valid() && backend.Holds(lease, lease.request.token) && Catalog(lease)
      modifies backend
      ensures backend.Valid() && backend.Grown()
      ensures r.Success? ==> (
        !lost && backend.Holds(r.value, lease.request.token) && r.value.request == lease.request && Shows(r.value, o))
      ensures r.Success? ==> Heeds(lease, o, r.value) && lease in backend.seen
      ensures lost && backend.serial ==> backend.Held(lease)
    {
      var at := backend.Now();
      var handoff := ObservedHandoff(lease, o, at);
      if handoff.Failure? { return Failure(handoff.error), false; }
      backend.SnapshotFacts(lease);
      ObservationShows(lease, o, submitted, at);
      WrittenIsHeeded(lease, o, submitted, at);
      if !Progresses(lease, o) && handoff.value == lease.handoff { return Success(lease), false; }
      r, lost := WriteObservation(me, lease, ToHand(Observe(o, submitted, at)));
    }

    method WriteObservation(me: Actor, lease: Lease, write: Write) returns (r: Result<Lease, Exception>, lost: bool)
      requires backend.Valid() && backend.Held(lease) && write.ToHand? && KnownHanding(write.h, lease)
      modifies backend
      ensures backend.Valid() && backend.Grown()
      ensures r.Success? ==> !lost && backend.Holds(r.value, lease.request.token) && r.value == Apply(write, lease)
      ensures lost ==> backend.Held(lease)
    {
      var refused := EvidenceRefused(lease, write);
      if refused.Some? { return Failure(refused.value), false; }
      r := backend.CompareAndSet(me, lease, write);
      lost := r.Failure? && r.error == ConflictError;
    }

    method SubmissionLease(me: Actor, token: Token) returns (r: Result<Lease, Exception>)
      requires backend.Valid()
      modifies backend
      ensures backend.Valid() && backend.Grown()
      ensures r.Success? ==> (
        backend.Holds(r.value, token) && HandsOff(r.value) && (r.value.state == Ready || r.value.state == JobSubmitted)
        && backend.clock < r.value.request.hardDeadline)
    {
      var lease :- RequiredCatalog(me, token);
      if !HandsOff(lease) { return Failure(ManagerError); }
      if lease.state != Ready && lease.state != JobSubmitted { return Failure(ManagerError); }
      var now := backend.Now();
      if lease.request.hardDeadline <= now { return Failure(ManagerError); }
      return Success(lease);
    }

    /** `submit_catalog_workload`: the lease is read again after the capability await, so a
        Stop persisted meanwhile is never overrun by the snapshot from before it. */
    method SubmitWorkload(me: Actor, token: Token) returns (r: Result<Observation, Exception>)
      requires backend.Valid()
      modifies backend
      ensures backend.Valid() && backend.Grown()
      ensures r.Success? ==> backend.Stores(token) && Shows(backend.world.rows[token], r.value)
    {
      var before :- SubmissionLease(me, token);
      var capability :- backend.Await(me, token);
      var lease :- SubmissionLease(me, token);
      if lease.route.None? { return Failure(ManagerError); }
      var observation :- backend.Submit(me, lease);
      var recorded, _ :- RecordObservation(me, token, observation, true);
      return Success(observation);
    }

    /** `observe_catalog_workload`: failed or cancelled work is torn down. */
    method ObserveWorkload(me: Actor, token: Token)
      returns (r: Result<Observation, Exception>, ghost noted: Option<Lease>)
      requires backend.Valid()
      modifies backend
      ensures backend.Valid() && backend.Grown()
      ensures r.Success? ==> backend.Stores(token) && Shows(backend.world.rows[token], r.value)
      ensures r.Success? ==> (
        && noted.Some? && noted.value in backend.seen && noted.value.request.token == token
        && (noted.value.workload in {Failed, Cancelled, Cancelling} ==>
              if noted.value.request.root == token then backend.CleanedOut(token) else backend.Done(token))
        && (noted.value.workload == Cancelling ==> r.value.state == Cancelling))
    {
      noted := None;
      var lease :- RequiredCatalog(me, token);
      var capability :- backend.Await(me, token);
      if lease.route.None? { return Failure(ManagerError), noted; }
      var observation :- backend.AskWorker(me, token);
      var updated, _ :- RecordObservation(me, token, observation, false);
      noted := Some(updated);
      r := EndObservedWork(me, updated, observation);
    }

    /** `release` of a lease that was read before. */
    method ReleaseSeen(me: Actor, lease: Lease) returns (r: Result<bool, Exception>)
      requires backend.Valid() && lease in backend.seen
      modifies backend
      ensures backend.Valid() && backend.Grown()
      ensures r.Success? ==>
        if lease.request.root == lease.request.token then backend.CleanedOut(lease.request.token)
        else backend.Done(lease.request.token)
    {
      var released :- Release(me, lease.request.token);
      backend.SameRequest(lease, released);
      return Success(true);
    }

    /** Work that failed or was cancelled gives its capacity back. */
    method EndObservedWork(me: Actor, updated: Lease, observation: Observation)
      returns (r: Result<Observation, Exception>)
      requires backend.Valid() && updated in backend.seen && Shows(updated, observation)
      modifies backend
      ensures backend.Valid() && backend.Grown()
      ensures r.Success? ==>
        backend.Stores(updated.request.token) && Shows(backend.world.rows[updated.request.token], r.value)
      ensures r.Success? && updated.workload in {Failed, Cancelled, Cancelling} ==>
        if updated.request.root == updated.request.token then backend.CleanedOut(updated.request.token)
        else backend.Done(updated.request.token)
      ensures r.Success? ==>
        r.value.state == if updated.workload == Cancelling then Cancelling else observation.state
    {
      var token := updated.request.token;
      if updated.workload == Cancelling {
        var done :- ReleaseSeen(me, updated);
        backend.SnapshotFacts(updated);
        ShowsStays(updated, backend.world.rows[token], observation);
        return Success(observation.(state := Cancelling));
      }
      if updated.workload == Failed || updated.workload == Cancelled {
        var done :- ReleaseSeen(me, updated);
      }
      backend.SnapshotFacts(updated);
      ShowsStays(updated, backend.world.rows[token], observation);
      return Success(observation);
    }

    /** `retrieve_catalog_result`: the result, if it is the one whose handoff was observed. */
    method RetrieveResult(me: Actor, token: Token) returns (r: Result<(Digest, Digest), Exception>)
      requires backend.Valid()
      modifies backend
      ensures backend.Valid() && backend.Grown()
      ensures r.Success? ==> exists l :: l in backend.seen && l.request.token == token && Offers(l, r.value)
      ensures r.Success? ==> exists l :: l in backend.seen && l.request.token == token && HasResult(l)
    {
      var lease :- RequiredCatalog(me, token);
      if !ResultReady(lease) { return Failure(ManagerError); }
      var capability :- backend.Await(me, token);
      lease :- Heartbeat(me, token);
      if lease.route.None? { return Failure(ManagerError); }
      var payload :- backend.AskWorker(me, token);
      var current :- Required(me, token);
      if current.workload == Cancelling {
        var released :- Release(me, token);
        return Failure(ManagerError);
      }
      if HandsOff(current) {
        if current.handoff.None? || payload.resultSha != current.handoff.value.resultSha
           || payload.receiptSha != current.handoff.value.receiptSha {
          return Failure(ConflictError);
        }
      }
      return Success((payload.resultSha, payload.receiptSha));
    }

    /** `record_catalog_worker_evidence`. */
    method RecordWorkerEvidence(me: Actor, token: Token, worker: Worker) returns (r: Result<Lease, Exception>)
      requires backend.Valid()
      modifies backend
      ensures backend.Valid() && backend.Grown()
      ensures r.Success? ==> backend.Held(r.value) && r.value.request.token == token
      ensures r.Success? ==> (
        r.value.state == Released || (r.value.evidence.Some? && r.value.evidence.value.worker == Some(worker)))
      ensures r.Success? ==> exists l :: l in backend.seen && l.request == r.value.request && Vouched(l, worker)
      ensures r.Success? && worker.startedAt.Some? ==> worker.startedAt.value <= backend.clock
    {
      var lease :- AdmittedEvidence(me, token, worker);
      if lease.evidence.value.worker.Some? { return Success(lease); }
      var now := backend.clock;
      RowFollowsItself(lease);
      var moved, _ := TransitionWithEvidence(me, lease, ToWork(RecordWorker(worker, now)));
      r := moved;
    }

    /** The lease whose worker evidence this is, if it may still be recorded or already was. */
    method AdmittedEvidence(me: Actor, token: Token, worker: Worker) returns (r: Result<Lease, Exception>)
      requires backend.Valid()
      modifies backend
      ensures backend.Valid() && backend.Grown()
      ensures r.Success? ==> (
        && backend.Holds(r.value, token) && Vouched(r.value, worker) && r.value.evidence.Some?
        && (if r.value.evidence.value.worker.Some? then r.value.evidence.value.worker == Some(worker)
            else r.value.state != Released)
        && (worker.startedAt.Some? ==> worker.startedAt.value <= backend.clock))
    {
      var lease :- RequiredCatalog(me, token);
      var s := lease.request.spec.value;
      if lease.evidence.None? { return Failure(ManagerError); }
      if worker.attempt != s.attempt || worker.requestSha != s.requestSha || worker.imageDigest != s.imageDigest {
        return Failure(ConflictError);
      }
      if !ResultReady(lease) { return Failure(ManagerError); }
      var now := backend.Now();
      if worker.startedAt.Some? && now < worker.startedAt.value { return Failure(ManagerError); }
      if lease.evidence.value.worker.Some? {
        if lease.evidence.value.worker.value != worker { return Failure(ConflictError); }
        return Success(lease);
      }
      if lease.state == Released { return Failure(ManagerError); }
      return Success(lease);
    }

    // ---- Artifact handoff ----

    /** `_require_catalog_ack_admission`. */
    method AckAdmitted(lease: Lease) returns (admitted: bool)
      requires backend.Valid()
      modifies backend`clock
      ensures backend.Valid() && old(backend.clock) <= backend.clock
      ensures admitted ==>
        lease.state == JobCompleted && ResultReady(lease) && backend.clock < lease.request.hardDeadline
    {
      if lease.state != JobCompleted || !ResultReady(lease) { return false; }
      var now := backend.Now();
      return now < lease.request.hardDeadline;
    }

    /** The first half of an acknowledgement: its intent is stored, or already acknowledged. */
    method StoreIntent(me: Actor, token: Token, ack: Ack) returns (r: Result<Lease, Exception>)
      requires backend.Valid()
      modifies backend
      ensures backend.Valid() && backend.Grown()
      ensures r.Success? ==> (
        && backend.Held(r.value) && r.value.request.token == token && r.value.handoff.Some?
        && r.value.handoff.value.intent == Some(ack.intent))
      ensures r.Success? ==> (
        && r.value.handoff.value.attempt == ack.attempt && r.value.handoff.value.requestSha == ack.requestSha
        && r.value.handoff.value.resultSha == ack.resultSha && r.value.handoff.value.receiptSha == ack.receiptSha)
    {
      var left := backend.retries;
      while true
        invariant backend.Valid() && backend.Grown()
        decreases left
      {
        var lease :- RequiredCatalog(me, token);
        if lease.handoff.None? { return Failure(ManagerError); }
        var bound := BindAcknowledgement(lease.handoff.value, ack);
        if bound.Failure? { return Failure(ConflictError); }
        backend.SnapshotFacts(lease);
        if bound.value.remoteAckAt.Some? { return Success(lease); }
        var admitted := AckAdmitted(lease);
        if !admitted { return Failure(ManagerError); }
        r := WriteUnpatched(me, lease, ToHand(BindAck(ack)));
        if r.Success? || r.error != ConflictError { return; }
        if left == 0 { return Failure(Crash); }
        left := left - 1;
      }
    }

    /** `_acknowledge_catalog_result`: dispatched only after its intent is stored, and only
        while the lease may still be acknowledged; the lease is not torn down. */
    method AcknowledgeResult(me: Actor, token: Token, ack: Ack) returns (r: Result<Lease, Exception>)
      requires backend.Valid()
      modifies backend
      ensures backend.Valid() && backend.Grown()
      ensures r.Success? ==> backend.Held(r.value) && r.value.request.token == token
      ensures r.Success? ==> (
        && r.value.handoff.Some? && r.value.handoff.value.intent == Some(ack.intent)
        && r.value.handoff.value.remoteAckAt.Some?)
    {
      var stored :- StoreIntent(me, token, ack);
      if stored.handoff.value.remoteAckAt.Some? { return Success(stored); }
      var capability :- backend.Await(me, token);
      var current :- RequiredAgain(me, stored);
      var admitted := AckAdmitted(current);
      if !admitted || current.route.None? { return Failure(ManagerError); }
      var observation :- backend.DispatchAck(me, current, ack.intent);
      if observation.state != Acknowledged { return Failure(ConflictError); }
      ghost var from;
      r, from := RecordObservation(me, token, observation, false);
      backend.SnapshotFacts(stored);
    }

    /** `acknowledge_catalog_result` and, with the acknowledgement of the recovered handoff,
        `recover_catalog_result`. */
    method Acknowledge(me: Actor, token: Token, ack: Option<Ack>, recovering: bool)
      returns (r: Result<Lease, Exception>)
      requires backend.Valid()
      modifies backend
      ensures backend.Valid() && backend.Grown()
      ensures r.Success? ==> backend.Held(r.value) && r.value.request.token == token
    {
      var lease :- RequiredCatalog(me, token);
      if !HandsOff(lease) {
        if ack.Some? || recovering { return Failure(ManagerError); }
        r := ReleaseResult(me, token, None);
        return;
      }
      if ack.None? { return Failure(ManagerError); }
      if recovering && (ack.value.attempt != lease.request.spec.value.attempt
                        || ack.value.requestSha != lease.request.spec.value.requestSha) {
        return Failure(ValueError);
      }
      r := AcknowledgeResult(me, token, ack.value);
    }

    /** `release_catalog_result`: the host confirms the remote acknowledgement it has stored;
        only then is the capacity torn down as delivered. */
    method ReleaseResult(me: Actor, token: Token, confirmed: Option<Digest>) returns (r: Result<Lease, Exception>)
      requires backend.Valid()
      modifies backend
      ensures backend.Valid() && backend.Grown()
      ensures r.Success? ==> backend.Held(r.value) && r.value.request.token == token
      ensures r.Success? && HandsOff(r.value) ==>
        backend.Stores(token) && Delivered(backend.world.rows[token], confirmed)
    {
      var lease :- Deliver(me, token, confirmed);
      if lease.state == Released { return Success(lease); }
      r := Release(me, token);
      backend.SnapshotFacts(lease);
      if r.Success? { backend.SameRequest(lease, r.value); }
    }

    /** The part before the capacity goes: the delivery is on the row. */
    method Deliver(me: Actor, token: Token, confirmed: Option<Digest>) returns (r: Result<Lease, Exception>)
      requires backend.Valid()
      modifies backend
      ensures backend.Valid() && backend.Grown()
      ensures r.Success? ==> (
        && backend.Holds(r.value, token) && Catalog(r.value) && ResultReady(r.value)
        && (if HandsOff(r.value) then Delivered(r.value, confirmed) else confirmed.None?)
        && r.value.state in {ResultRetrieved, Releasing, Released})
    {
      var lease :- RequiredCatalog(me, token);
      if HandsOff(lease) {
        if lease.handoff.None? || lease.handoff.value.remoteAckAt.None? || lease.handoff.value.intent.None?
           || confirmed != Some(lease.handoff.value.intent.value.ackSha) {
          return Failure(ConflictError);
        }
      } else if confirmed.Some? { return Failure(ConflictError); }
      if !ResultReady(lease) { return Failure(ManagerError); }
      if lease.state == JobCompleted {
        r := ConfirmDelivery(me, lease);
        return;
      }
      if lease.state != ResultRetrieved && lease.state != Releasing && lease.state != Released {
        return Failure(ManagerError);
      }
      if HandsOff(lease) && lease.handoff.value.confirmedAt.None? { return Failure(ConflictError); }
      return Success(lease);
    }

    method ConfirmDelivery(me: Actor, lease: Lease) returns (r: Result<Lease, Exception>)
      requires backend.Valid() && backend.Held(lease) && lease.state == JobCompleted
      requires HandsOff(lease) ==> lease.handoff.Some? && lease.handoff.value.remoteAckAt.Some?
      modifies backend
      ensures backend.Valid() && backend.Grown()
      ensures r.Success? ==> (
        && backend.Holds(r.value, lease.request.token) && r.value.request == lease.request
        && r.value.state == ResultRetrieved && r.value.workload == lease.workload)
      ensures r.Success? && HandsOff(lease) ==> (
        && r.value.handoff.Some? && r.value.handoff.value.confirmedAt.Some?
        && r.value.handoff.value.intent == lease.handoff.value.intent)
    {
      var confirmed := backend.Now();
      var at := backend.Now();
      if HandsOff(lease) {
        r := WriteUnpatched(me, lease, ToHand(HostConfirm(confirmed, at)));
      } else {
        r := WriteUnpatched(me, lease, ToWork(ResultTaken(at)));
      }
    }

    /** `cancel_catalog_workload`: the intent is durable before the worker is told, and the
        capacity goes whether or not the worker answers. */
    method CancelWorkload(me: Actor, token: Token) returns (r: Result<Lease, Exception>)
      requires backend.Valid()
      modifies backend
      ensures backend.Valid() && backend.Grown()
      ensures r.Success? ==> backend.Held(r.value) && r.value.request.token == token
      ensures r.Success? && HandsOff(r.value) ==> backend.Stores(token) && GoingOut(backend.world.rows[token])
    {
      var lease :- RequiredCatalog(me, token);
      if lease.state == Released { return Success(lease); }
      var at := backend.Now();
      lease :- WriteUnpatched(me, lease, ToWork(RequestCancel(at)));
      r := CancelRequestedWorkload(me, lease);
    }

    method CancelRequestedWorkload(me: Actor, lease: Lease) returns (r: Result<Lease, Exception>)
      requires backend.Valid() && backend.Held(lease) && GoingOut(lease)
      modifies backend
      ensures backend.Valid() && backend.Grown()
      ensures r.Success? ==> backend.Held(r.value) && r.value.request == lease.request
      ensures r.Success? && HandsOff(lease) ==>
        backend.Stores(lease.request.token) && GoingOut(backend.world.rows[lease.request.token])
    {
      var token := lease.request.token;
      if lease.route.Some? {
        var told := backend.Await(me, token);
        if told.Failure? {
          if !told.error.Caught() { return Failure(told.error); }
          var noted :- RecordOperationError(me, token);
        }
      }
      r := Release(me, token);
      backend.SnapshotFacts(lease);
      if r.Success? { backend.SameRequest(lease, r.value); }
    }

    // ---- Families ----

    /** `_mark_family_release_requested`: from here on the family takes no new member. */
    method MarkFamilyRequested(me: Actor, root: Lease) returns (r: Result<Lease, Exception>)
      requires backend.Valid() && root in backend.seen && root.request.root == root.request.token
      modifies backend
      ensures backend.Valid() && backend.Grown()
      ensures r.Success? ==> backend.IsFrozen(root.request.token)
    {
      var current :- RequiredAgain(me, root);
      var left := backend.retries;
      while !current.familyRequested
        invariant backend.Valid() && backend.Grown() && backend.Held(current) && current.request == root.request
        invariant current.familyRequested ==> backend.Holds(current, root.request.token)
        decreases left
      {
        var at := backend.Now();
        var marked := WriteUnpatched(me, current, ToWork(RequestFamily(at)));
        if marked.Success? {
          backend.Freeze(root.request.token);
          return marked;
        }
        if marked.error != ConflictError || left == 0 { return Failure(Crash); }
        left := left - 1;
        current :- RequiredAgain(me, current);
      }
      backend.Freeze(root.request.token);
      return Success(current);
    }

    method MarkFamilyComplete(me: Actor, root: Lease) returns (r: Result<Lease, Exception>)
      requires backend.Valid() && root in backend.seen && root.request.root == root.request.token
      requires backend.IsFrozen(root.request.token)
      modifies backend
      ensures backend.Valid() && backend.Grown()
      ensures r.Success? ==> backend.Held(r.value) && r.value.request == root.request
      ensures r.Success? ==> r.value.familyComplete
    {
      var current :- RequiredAgain(me, root);
      backend.FrozenRoot(root.request.token);
      var left := backend.retries;
      while !current.familyComplete
        invariant backend.Valid() && backend.Grown() && backend.Held(current) && current.request == root.request
        invariant current.familyRequested
        decreases left
      {
        var at := backend.Now();
        r := WriteUnpatched(me, current, ToWork(CompleteFamily(at)));
        if r.Success? { return; }
        if r.error != ConflictError || left == 0 { return Failure(Crash); }
        left := left - 1;
        current :- RequiredAgain(me, current);
        backend.FrozenRoot(root.request.token);
      }
      return Success(current);
    }

    /** `release`: one exact attempt, or every attempt of the family addressed by its root.
        When a family release returns normally, the family is frozen and each of its training
        attempts is released. */
    method Release(me: Actor, token: Token) returns (r: Result<Lease, Exception>)
      requires backend.Valid()
      modifies backend
      ensures backend.Valid() && backend.Grown()
      ensures r.Success? ==> backend.Held(r.value) && r.value.request.token == token
      ensures r.Success? && r.value.request.root == token ==> backend.Emptied(token)
      ensures r.Success? && r.value.request.root != token ==> backend.CleanedUp(r.value)
      ensures r.Success? && r.value.request.root != token && backend.serial ==> LetGo(r.value, backend.world.cloud)
      ensures r.Success? && r.value.request.root == token ==> backend.CleanedOut(token)
    {
      var exact :- Required(me, token);
      if exact.request.root != token {
        r := ReleaseOne(me, token);
        if r.Success? { backend.SameRequest(exact, r.value); }
        return;
      }
      var marked :- MarkFamilyRequested(me, exact);
      var listed := backend.ListFamily(me, token);
      backend.FrozenFamily(token);
      ghost var tokens := Family(backend.world.rows, token);
      var members :- listed;
      var failed :- ReleaseMembers(me, members);
      if failed { return Failure(CleanupError); }
      r := MarkFamilyComplete(me, exact);
      if r.Success? {
        assert (token, tokens) in backend.kept.frozen;
        backend.CleanedOutIsEmptied(token);
      }
    }

    /** Releases every listed member; one that cannot be released does not stop the others. */
    method ReleaseMembers(me: Actor, members: seq<Lease>) returns (r: Result<bool, Exception>)
      requires backend.Valid() && backend.AllSeen(members)
      modifies backend
      ensures backend.Valid() && backend.Grown()
      ensures r.Success? && !r.value ==> backend.AllDone(members)
      ensures r.Success? && !r.value && backend.serial ==>
        forall l :: l in members ==> backend.IsLetGo(l.request.token)
      ensures r.Failure? ==> !r.error.Caught()
    {
      var failed := false;
      for i := 0 to |members|
        invariant backend.Valid() && backend.Grown() && backend.AllSeen(members)
        invariant !failed ==> backend.AllDone(members[..i])
      {
        var ok :- ReleaseMember(me, members[i]);
        failed := failed || !ok;
        assert members[..i + 1] == members[..i] + [members[i]];
      }
      assert members[..|members|] == members;
      if backend.serial && !failed { backend.AllDoneMeans(members); }
      return Success(failed);
    }

    method ReleaseMember(me: Actor, member: Lease) returns (r: Result<bool, Exception>)
      requires backend.Valid() && member in backend.seen
      modifies backend
      ensures backend.Valid() && backend.Grown()
      ensures r.Success? && r.value ==> backend.Done(member.request.token)
      ensures r.Failure? ==> !r.error.Caught()
    {
      if member.state == Released {
        backend.NoteCleared(member);
        return Success(true);
      }
      var released := ReleaseOne(me, member.request.token);
      if released.Success? { return Success(true); }
      if !released.error.Caught() { return Failure(released.error); }
      return Success(false);
    }

    // ---- Reconciliation ----

    /** `_reconcile_one`. `orphanTimeout` is the idle timeout of training leases; `watched` says whether a training
        job's status can be asked for, and `profiled` whether its profile is configured. */
    method ReconcileOne(me: Actor, token: Token, orphanTimeout: int, watched: bool, profiled: bool)
      returns (r: Result<Option<Lease>, Exception>, ghost read: Option<Lease>, ghost at: int)
      requires backend.Valid()
      modifies backend
      ensures backend.Valid() && backend.Grown() && old(backend.clock) <= at
      ensures r.Success? ==> r.value.Some? == read.Some?
      ensures r.Success? && read.Some? ==> (
        && backend.Held(r.value.value) && r.value.value.request.token == token
        && read.value in backend.seen && read.value.request.token == token
        && (read.value.state != Released && MustGo(read.value, at, Stale(read.value, orphanTimeout, at)) ==>
              ResolvedIn(backend.Recall(), r.value.value)))
      ensures backend.serial && old(HoldsStuck(token)) ==>
        r.Failure? && (r.error == Crash || backend.Has(token, old(backend.world).rows[token]))
      ensures backend.serial && old(HoldsUnrevoked(token)) && r.Success? ==>
        r.value.Some? && r.value.value.state != Released
      ensures backend.serial && r.Success? && r.value.Some? && Cleared(r.value.value) ==>
        LetGo(r.value.value, backend.world.cloud)
    {
      at, read := backend.clock, None;
      var found :- backend.Get(me, token);
      read := found;
      if found.None? { return Success(None), read, at; }
      var lease := found.value;
      if lease.state == Released {
        if BillOpen(lease) {
          var billed :- ReconcileBilling(me, lease);
          if backend.serial && Cleared(billed) { backend.HeldMeansLetGo(billed); }
          return Success(Some(billed)), read, at;
        }
        if backend.serial { backend.HeldMeansLetGo(lease); }
        return Success(found), read, at;
      }
      var now := backend.Now();
      at := now;
      var timeout := if lease.request.spec.Some? then lease.request.spec.value.idleSeconds * 1_000_000
                     else orphanTimeout;
      var visited :- ReconcileActive(me, lease, now, lease.heartbeat + timeout <= now, watched, profiled);
      if backend.serial && Cleared(visited) { backend.HeldMeansLetGo(visited); }
      return Success(Some(visited)), read, at;
    }

    method ReconcileActive(me: Actor, lease: Lease, now: int, stale: bool, watched: bool, profiled: bool)
      returns (r: Result<Lease, Exception>)
      requires backend.Valid() && backend.Held(lease) && lease.state != Released
      modifies backend
      ensures backend.Valid() && backend.Grown()
      ensures r.Success? ==> backend.Held(r.value)
      ensures r.Success? && MustGo(lease, now, stale) ==> ResolvedIn(backend.Recall(), r.value)
      ensures r.Success? && !MustGo(lease, now, stale) && lease.state != JobSubmitted
        && (lease.podId.Some? || !lease.uncertain || !stale)
        ==> LeftAlone(lease, r.value, backend.world.cloud)
      ensures backend.serial && Stuck(lease, old(backend.clock)) ==>
        r.Failure? && (r.error == Crash || backend.Held(lease))
      ensures r.Success? ==> r.value.request.token == lease.request.token
      ensures backend.serial && Unrevoked(lease, old(backend.clock)) && r.Success? ==> r.value.state != Released
    {
      backend.SnapshotFacts(lease);
      if lease.state == Requested {
        if !stale && now < lease.request.readinessDeadline { return Success(lease); }
        r := ReleaseRequested(me, lease, now);
        return;
      }
      if lease.podId.None? && lease.uncertain {
        if !stale && now < lease.request.hardDeadline { return Success(lease); }
        r := RecoverCreation(me, lease);
        return;
      }
      r := ReconcileCreated(me, lease, now, stale, watched, profiled);
    }

    /** A lease past REQUESTED whose create is not in doubt. */
    method ReconcileCreated(me: Actor, lease: Lease, now: int, stale: bool, watched: bool, profiled: bool)
      returns (r: Result<Lease, Exception>)
      requires backend.Valid() && backend.Held(lease) && lease.state != Released && lease.state != Requested
      requires lease.podId.Some? || !lease.uncertain
      modifies backend
      ensures backend.Valid() && backend.Grown()
      ensures r.Success? ==> backend.Held(r.value)
      ensures r.Success? && MustGo(lease, now, stale) ==> ResolvedIn(backend.Recall(), r.value)
      ensures r.Success? && !MustGo(lease, now, stale) && lease.state != JobSubmitted ==>
        LeftAlone(lease, r.value, backend.world.cloud)
      ensures backend.serial && Stuck(lease, old(backend.clock)) ==>
        r.Failure? && (r.error == Crash || backend.Held(lease))
      ensures r.Success? ==> r.value.request.token == lease.request.token
      ensures backend.serial && Unrevoked(lease, old(backend.clock)) && r.Success? ==> r.value.state != Released
    {
      backend.SnapshotFacts(lease);
      if lease.state in {Releasing, CancelRequested, ReconcileRequired, ResultRetrieved}
         || lease.request.hardDeadline <= now {
        r := ReleaseOne(me, lease.request.token);
        return;
      }
      r := ReconcileOpen(me, lease, now, stale, watched, profiled);
    }

    /** A lease that is not on its way out and whose time is not over. */
    method ReconcileOpen(me: Actor, lease: Lease, now: int, stale: bool, watched: bool, profiled: bool)
      returns (r: Result<Lease, Exception>)
      requires backend.Valid() && backend.Held(lease)
      modifies backend
      ensures backend.Valid() && backend.Grown()
      ensures r.Success? ==> backend.Held(r.value) && r.value.request.token == lease.request.token
      ensures r.Success? && lease.state in {Starting, Ready} && stale ==> backend.CleanedUp(r.value)
      ensures r.Success? && lease.state != JobSubmitted && (!stale || lease.state !in {Starting, Ready}) ==>
        LeftAlone(lease, r.value, backend.world.cloud)
    {
      if lease.state == JobSubmitted && (Catalog(lease) || watched) {
        r := ReconcileJob(me, lease);
        return;
      }
      r := ReconcileIdle(me, lease, now, stale, profiled);
    }

    /** A claim whose owner died before any provider operation. */
    method ReleaseRequested(me: Actor, lease: Lease, now: int) returns (r: Result<Lease, Exception>)
      requires backend.Valid() && backend.Held(lease) && lease.state == Requested
      modifies backend
      ensures backend.Valid() && backend.Grown()
      ensures r.Success? ==> backend.Held(r.value)
      ensures r.Success? ==> backend.CleanedUp(r.value)
      ensures r.Success? ==> r.value.request == lease.request
    {
      if lease.request.source != Created {
        r := ReleaseUnownedClaim(me, lease, None);
        if r.Success? { NoteCleanedUp(r.value); }
        return;
      }
      backend.SnapshotFacts(lease);
      var receiptAt := backend.Now();
      r := SettleNoCapacity(me, lease, BeforeCreation, lease.heartbeat, now, receiptAt);
      if r.Success? { NoteCleanedUp(r.value); }
    }

    method RecoverCreation(me: Actor, lease: Lease) returns (r: Result<Lease, Exception>)
      requires backend.Valid() && backend.Held(lease) && lease.podId.None? && lease.uncertain
      modifies backend
      ensures backend.Valid() && backend.Grown()
      ensures r.Success? ==> backend.Held(r.value)
      ensures r.Success? ==> ResolvedIn(backend.Recall(), r.value)
      ensures r.Success? ==> r.value.request.token == lease.request.token
    {
      var resolved :- ResolveUncertainCreation(me, lease);
      if resolved.podId.None? {
        if resolved.state == Released { NoteCleanedUp(resolved); }
        return Success(resolved);
      }
      r := ReleaseOne(me, lease.request.token);
    }

    /** A submitted job: ask the catalog worker, or the observer of training jobs. */
    method ReconcileJob(me: Actor, lease: Lease) returns (r: Result<Lease, Exception>)
      requires backend.Valid() && backend.Held(lease)
      modifies backend
      ensures backend.Valid() && backend.Grown()
      ensures r.Success? ==> backend.Held(r.value)
      ensures r.Success? ==> r.value.request.token == lease.request.token
      ensures r.Success? && backend.serial && !Catalog(lease) && lease.state == JobSubmitted ==>
        r.value.state != CancelRequested
    {
      var token := lease.request.token;
      if Catalog(lease) {
        var observed, _ :- ObserveWorkload(me, token);
        r := RequiredAgain(me, lease);
        return;
      }
      var asked := backend.Await(me, token);
      if asked.Failure? {
        if !asked.error.Caught() { return Failure(asked.error); }
        r := RecordOperationError(me, token);
        return;
      }
      var status: Option<JobStatus> := *;
      if !status.Some? { return Success(lease); }
      var updated :- RecordStatus(me, token, status.value);
      if updated.state == CancelRequested {
        var released :- ReleaseOne(me, token);
        backend.SameRequest(lease, released);
        return Success(released);
      }
      return Success(updated);
    }

    /** An acquisition without a job: release it if it is stale or stopped. */
    method ReconcileIdle(me: Actor, lease: Lease, now: int, stale: bool, profiled: bool)
      returns (r: Result<Lease, Exception>)
      requires backend.Valid() && backend.Held(lease)
      modifies backend
      ensures backend.Valid() && backend.Grown()
      ensures r.Success? ==> backend.Held(r.value)
      ensures r.Success? && (lease.state == Starting || lease.state == Ready) && stale ==> backend.CleanedUp(r.value)
      ensures r.Success? && (!stale || lease.state !in {Starting, Ready}) ==>
        LeftAlone(lease, r.value, backend.world.cloud)
      ensures r.Success? ==> r.value.request.token == lease.request.token
    {
      if lease.state != Starting && lease.state != Ready { return Success(lease); }
      if stale {
        r := ReleaseOne(me, lease.request.token);
        return;
      }
      if lease.podId.None? || !profiled { return Success(lease); }
      r := ReconcileObserved(me, lease, now);
    }

    /** One look at the Pod of a lease that is getting ready or waits for its job. */
    method ReconcileObserved(me: Actor, lease: Lease, now: int) returns (r: Result<Lease, Exception>)
      requires backend.Valid() && backend.Held(lease) && lease.podId.Some? && lease.state in {Starting, Ready}
      modifies backend
      ensures backend.Valid() && backend.Grown()
      ensures r.Success? ==> backend.Held(r.value) && LeftAlone(lease, r.value, backend.world.cloud)
      ensures r.Success? ==> r.value.request.token == lease.request.token
      ensures r.Success? ==> (
        || Cleared(r.value) || Saw(lease, PodRunning, backend.world.cloud) || Saw(lease, PodFailed, backend.world.cloud)
        || Saw(lease, PodOther, backend.world.cloud))
    {
      var view := backend.ObservePod(me, lease.request.token, lease.podId.value);
      if view.Failure? { return Failure(view.error); }
      if view.value.status == PodStopped {
        r := SettleHalted(me, lease, false, now);
        return;
      }
      backend.SnapshotFacts(lease);
      r := WriteUnpatched(me, lease, ToWork(RefreshRoute(view.value.route)));
      if r.Success? { RefreshLeavesAlone(lease, view.value.route, backend.world.cloud); }
    }

    /** Keeps a failed visit on the row, if it has not moved on. */
    method RecordReconcileError(me: Actor, token: Token) returns (r: Result<Option<Lease>, Exception>)
      requires backend.Valid()
      modifies backend
      ensures backend.Valid() && backend.Grown()
      ensures r.Failure? ==> r.error == Crash
      ensures r.Success? ==> Reported(backend.Recall(), token, r.value)
    {
      var found :- backend.Get(me, token);
      if found.None? || (found.value.state == Released && !BillOpen(found.value)) { return Success(found); }
      var noted := WriteUnpatched(me, found.value, ToWork(NoteError(PROVIDER_ERROR)));
      if noted.Success? { return Success(Some(noted.value)); }
      if noted.error != ConflictError { return Failure(noted.error); }
      r := backend.Get(me, token);
    }

    /** The visit of one family whose release is not complete; a failure is recorded. */
    method VisitRoot(me: Actor, root: Token) returns (r: Result<Option<Lease>, Exception>, ghost v: Visit)
      requires backend.Valid()
      modifies backend
      ensures backend.Valid() && backend.Grown()
      ensures r.Success? ==> RootVisited(backend.Recall(), root, r.value, v)
      ensures r.Failure? ==> !r.error.Caught()
    {
      v := Visit(None, backend.clock, None);
      var released := Release(me, root);
      if released.Success? { return Success(Some(released.value)), v; }
      if !released.error.Caught() { return Failure(released.error), v; }
      v := v.(raised := Some(released.error));
      r := RecordReconcileError(me, root);
    }

    /** The visit of one open lease; a failure is recorded. */
    method VisitLease(me: Actor, token: Token, orphanTimeout: int, watched: bool, profiled: bool)
      returns (r: Result<Option<Lease>, Exception>, ghost v: Visit)
      requires backend.Valid()
      modifies backend
      ensures backend.Valid() && backend.Grown() && old(backend.clock) <= v.at
      ensures r.Success? ==> LeaseVisited(backend.Recall(), token, orphanTimeout, r.value, v)
      ensures r.Failure? ==> !r.error.Caught()
    {
      ghost var read, at;
      r, read, at := ReconcileOne(me, token, orphanTimeout, watched, profiled);
      v := Visit(read, at, None);
      if r.Failure? && r.error.Caught() {
        v := v.(raised := Some(r.error));
        r := RecordReconcileError(me, token);
      }
    }

    method VisitRoots(me: Actor, roots: seq<Token>)
      returns (r: Result<seq<Option<Lease>>, Exception>, ghost visits: seq<Visit>)
      requires backend.Valid()
      modifies backend
      ensures backend.Valid() && backend.Grown()
      ensures r.Success? ==> RootsVisited(backend.Recall(), roots, r.value, visits)
      ensures r.Failure? ==> !r.error.Caught()
    {
      var results: seq<Option<Lease>> := [];
      visits := [];
      for i := 0 to |roots|
        invariant backend.Valid() && backend.Grown()
        invariant RootsVisited(backend.Recall(), roots[..i], results, visits)
      {
        ghost var before := backend.Recall();
        ghost var v;
        var visited;
        visited, v := VisitRoot(me, roots[i]);
        if visited.Failure? { return Failure(visited.error), visits; }
        RootsVisitedLasts(before, backend.Recall(), roots[..i], results, visits);
        results, visits := results + [visited.value], visits + [v];
        assert roots[..i + 1] == roots[..i] + [roots[i]];
      }
      assert roots[..|roots|] == roots;
      return Success(results), visits;
    }

    method VisitLeases(me: Actor, tokens: seq<Token>, orphanTimeout: int, watched: bool, profiled: bool)
      returns (r: Result<seq<Option<Lease>>, Exception>, ghost visits: seq<Visit>)
      requires backend.Valid()
      modifies backend
      ensures backend.Valid() && backend.Grown()
      ensures r.Success? ==>
        LeasesVisited(backend.Recall(), tokens, orphanTimeout, old(backend.clock), r.value, visits)
      ensures r.Failure? ==> !r.error.Caught()
    {
      var results: seq<Option<Lease>> := [];
      visits := [];
      for i := 0 to |tokens|
        invariant backend.Valid() && backend.Grown() && old(backend.clock) <= backend.clock
        invariant LeasesVisited(backend.Recall(), tokens[..i], orphanTimeout, old(backend.clock), results, visits)
      {
        ghost var before := backend.Recall();
        ghost var v;
        var visited;
        visited, v := VisitLease(me, tokens[i], orphanTimeout, watched, profiled);
        if visited.Failure? { return Failure(visited.error), visits; }
        LeasesVisitedLasts(before, backend.Recall(), tokens[..i], orphanTimeout, old(backend.clock), results, visits);
        results, visits := results + [visited.value], visits + [v];
        assert tokens[..i + 1] == tokens[..i] + [tokens[i]];
      }
      assert tokens[..|tokens|] == tokens;
      return Success(results), visits;
    }

    /** One pass: the incomplete family releases, then every open lease. A failure of one
        lease is recorded and does not end the pass, unless it is one that nothing catches.
        What each visit left still holds when the pass is over. */
    method Reconcile(me: Actor, roots: seq<Token>, tokens: seq<Token>, orphanTimeout: int, watched: bool,
      profiled: bool)
      returns (r: Result<seq<Option<Lease>>, Exception>, ghost families: seq<Visit>, ghost leases: seq<Visit>)
      requires backend.Valid()
      modifies backend
      ensures backend.Valid() && backend.Grown()
      ensures r.Success? ==> (
        && |r.value| == |roots| + |tokens|
        && RootsVisited(backend.Recall(), roots, r.value[..|roots|], families)
        && LeasesVisited(backend.Recall(), tokens, orphanTimeout, old(backend.clock), r.value[|roots|..], leases))
      ensures r.Failure? ==> !r.error.Caught()
    {
      leases := [];
      var released, visited;
      released, families := VisitRoots(me, roots);
      if released.Failure? { return Failure(released.error), families, leases; }
      ghost var before := backend.Recall();
      visited, leases := VisitLeases(me, tokens, orphanTimeout, watched, profiled);
      if visited.Failure? { return Failure(visited.error), families, leases; }
      RootsVisitedLasts(before, backend.Recall(), roots, released.value, families);
      var results := released.value + visited.value;
      assert results[..|roots|] == released.value && results[|roots|..] == visited.value;
      return Success(results), families, leases;
    }
  }

  lemma MayRetryStays(serial: bool, w: Write, lease: Lease, current: Lease, c: Cloud, d: Cloud)
    requires MayRetry(serial, w, lease, current, c) && CloudFollows(c, d)
    ensures MayRetry(serial, w, lease, current, d)
  {
    RetriedStays(w, lease, c, d);
    if serial && lease.state != Released { OrderlyStays(w, lease, c, d); }
  }
}
