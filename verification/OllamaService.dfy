/** The lease service (kestrel_cloud_runpod/ollama_service.py). Each method is verified
    against any interleaving of other callers, reconcilers and the provider, and against a
    crash at every await: whatever it does, the state stays the last of a run, so what holds
    of runs holds of the service. */
module OllamaService {

  import opened Results
  import opened SpendPlan
  import opened OllamaLeases
  import opened OllamaRuns
  import opened OllamaBackend

  const PROVIDER_ERROR := "provider error"

  predicate Owned(l: Lease, owner: string, workload: string) {
    l.request.owner == owner && l.request.workload == workload
  }

  /** A READY answer carries a route observed by this call. */
  predicate Routed(l: Lease) { l.state == Ready ==> l.route.Some? && l.route.value != "" }

  /** The idle deadline is one idle timeout after the last use, or the hard deadline if that is
      earlier. */
  predicate IdleIsDue(l: Lease) {
    var hard, idle := l.request.spend.hardDeadline, l.lastUsedAt + l.request.idleSeconds * 1_000_000;
    l.idleDeadline == if hard < idle then hard else idle
  }

  /** The provider is ready, under a route, and has the exact model. */
  predicate Usable(seen: Observation) { seen.ready && seen.route.Some? && seen.route.value != "" && seen.hasModel }

  predicate Ending(s: State) { s == Releasing || s == Terminated }

  /** The request rebuilt from a stored row after a crash before provisioning. */
  function RequestFromLease(l: Lease): (r: LeaseRequest)
    requires l.mode.Some?
    ensures ValidLeaseRequest(l.request) && l.mode == Some(l.request.spend.mode) ==>
      ValidLeaseRequest(r) && r.spend == l.request.spend
    ensures l.readinessDeadline - l.createdAt <= r.readinessSeconds * SECOND
    ensures r.readinessSeconds == 1 || (r.readinessSeconds - 1) * SECOND < l.readinessDeadline - l.createdAt
  {
    var readiness := Larger(1, (l.readinessDeadline - l.createdAt + SECOND - 1) / SECOND);
    l.request.(spend := l.request.spend.(mode := l.mode.value), readinessSeconds := readiness, requestedAt := None)
  }

  /** One visit of a reconcile pass: when it began, and what it raised, if it did. */
  datatype Visit = Visit(at: int, raised: Option<Exception>)

  /** What a visit leaves: unless it raised something, which is then on the row, the lease is
      not past what its state and its authorization allowed when the visit began, or it is on its
      way out. */
  predicate HeldToDeadlines(l: Lease, v: Visit) {
    if v.raised.Some? then v.raised.value.Caught() else Overdue(l, v.at) ==> Ending(l.state)
  }

  class OllamaLeaseService {
    const backend: Backend

    constructor (backend: Backend)
      ensures this.backend == backend
    {
      this.backend := backend;
    }

    /** `_transition`: refuses a move the table does not permit. */
    method Transition(me: Actor, lease: Lease, write: Write) returns (r: Result<Lease, Exception>)
      requires backend.Valid() && backend.Seen(lease) && Target(write).Some?
      requires Permitted(lease.state, Target(write).value) ==> Enabled(write, Stored(lease), backend.cloud)
      modifies backend
      ensures backend.Valid() && backend.Onward()
      ensures r.Success? ==> (
        && r.value == Apply(write, Stored(lease)) && backend.row == Some(r.value) && backend.Seen(r.value)
        && r.value.state == Target(write).value)
      ensures r.Success? && write.Admit? ==> backend.cloud.permit == Admitted(me)
      ensures r.Failure? ==> r.error == ConflictError || r.error == Crash || r.error == ManagerError
      ensures r.Failure? && r.error == ManagerError ==> !Permitted(lease.state, Target(write).value)
      ensures !Ends(write) || WasOverdue(Stored(lease), old(backend.clock)) ==> backend.StaysOut(me)
    {
      if Target(write).value != lease.state && !Permitted(lease.state, Target(write).value) {
        return Failure(ManagerError);
      }
      WritesObeyTable(write, Stored(lease), backend.cloud);
      r := backend.CompareAndSet(me, lease, write);
    }

    // ---- Provisioning ----

    /** Admits the create with the row, then lets the one permitted create happen. */
    method ProvisionRequested(me: Actor, lease: Lease, request: LeaseRequest, given: Option<Plan>)
      returns (r: Result<Lease, Exception>)
      requires backend.Valid() && backend.Seen(lease) && ValidLeaseRequest(request)
      requires request.spend == lease.request.spend
      modifies backend
      ensures backend.Valid() && backend.Onward()
      ensures r.Success? ==> (
        && backend.row == Some(r.value) && backend.Seen(r.value) && r.value.state == Waiting
        && r.value.route.None? && r.value.request == lease.request)
      ensures r.Failure? ==> r.error in {ManagerError, ConflictError, Crash}
      ensures r.Failure? && r.error == ManagerError && lease.state == Requested ==>
        backend.row.Some? && backend.row.value.state in {Failed, ReconcileRequired}
      ensures backend.StaysOut(me)
    {
      if lease.state != Requested { return Failure(ManagerError); }
      var admitted :- AdmitCreate(me, lease, request, given);
      r := ProvisionEffect(me, admitted);
    }

    /** The plan, and the write that admits its create; a lease that gets no plan fails. */
    method AdmitCreate(me: Actor, lease: Lease, request: LeaseRequest, given: Option<Plan>)
      returns (r: Result<Lease, Exception>)
      requires backend.Valid() && backend.Seen(lease) && ValidLeaseRequest(request)
      requires request.spend == lease.request.spend && lease.state == Requested
      modifies backend
      ensures backend.Valid() && backend.Onward()
      ensures r.Success? ==> (
        && backend.row == Some(r.value) && backend.Seen(r.value) && r.value.state == Provisioning
        && r.value.providerId.None? && r.value.route.None? && r.value.request == lease.request
        && backend.cloud.permit == Admitted(me))
      ensures r.Failure? ==> r.error in {ManagerError, ConflictError, Crash}
      ensures r.Failure? && r.error == ManagerError ==> backend.row.Some? && backend.row.value.state == Failed
      ensures backend.StaysOut(me)
    {
      var plan := ObtainPlan(me, request, given);
      if plan.Failure? {
        r := GoWithoutPlan(me, lease, plan.error);
        return;
      }
      var at := backend.Now();
      r := Transition(me, lease, Admit(plan.value, backend.resourceName, at));
    }

    /** A lease that got no plan has failed. */
    method GoWithoutPlan(me: Actor, lease: Lease, error: Exception) returns (r: Result<Lease, Exception>)
      requires backend.Valid() && backend.Seen(lease) && lease.state == Requested
      modifies backend
      ensures backend.Valid() && backend.Onward()
      ensures r.Failure? && r.error in {ManagerError, ConflictError, Crash}
      ensures r.error == ManagerError ==> backend.row.Some? && backend.row.value.state == Failed
      ensures backend.StaysOut(me)
    {
      if error == Crash { return Failure(Crash); }
      var failed :- Transition(me, lease, PlanFailed(PROVIDER_ERROR));
      return Failure(ManagerError);
    }

    /** Everything that is settled while the lease is still REQUESTED: the plan, its
        validation, and the preflight of the image, the model and the credential. */
    method ObtainPlan(me: Actor, request: LeaseRequest, given: Option<Plan>) returns (r: Result<Plan, Exception>)
      requires backend.Valid() && ValidLeaseRequest(request)
      modifies backend
      ensures backend.Valid() && backend.Interleaved(me)
      ensures r.Success? ==> ServiceAccepts(request.spend, r.value) && (given.Some? ==> r.value == given.value)
      ensures r.Failure? ==> r.error == ManagerError || r.error == Crash
    {
      if given.Some? {
        r := Success(given.value);
      } else {
        r := backend.PlanPlacement(me, request);
      }
      var refused: bool := *; // the runtime preflight
      if r.Success? && (refused || !ServiceAccepts(request.spend, r.value)) { r := Failure(ManagerError); }
    }

    method ProvisionEffect(me: Actor, lease: Lease) returns (r: Result<Lease, Exception>)
      requires backend.Valid() && backend.Seen(lease) && backend.cloud.permit == Admitted(me)
      requires lease.state == Provisioning && lease.providerId.None? && lease.route.None?
      modifies backend
      ensures backend.Valid() && backend.Onward()
      ensures r.Success? ==> (
        && backend.row == Some(r.value) && backend.Seen(r.value) && r.value.state == Waiting
        && r.value.route.None? && r.value.request == lease.request)
      ensures r.Failure? ==> r.error in {ManagerError, ConflictError, Crash}
      ensures r.Failure? && r.error == ManagerError ==>
        backend.row.Some? && backend.row.value.state == ReconcileRequired && backend.row.value.uncertain
      ensures r.Success? ==> r.value.providerId.Some? && backend.cloud.resource == r.value.providerId
      ensures backend.StaysOut(me)
    {
      var resource := backend.Provision(me);
      if resource.Failure? {
        r := CreateFailed(me, lease, resource.error);
        return;
      }
      r := Transition(me, lease, Bind(resource.value));
    }

    /** Whatever became of the create, it stays uncertain. */
    method CreateFailed(me: Actor, lease: Lease, error: Exception) returns (r: Result<Lease, Exception>)
      requires backend.Valid() && backend.Seen(lease) && (error == ManagerError || error == Crash)
      requires lease.state == Provisioning && lease.providerId.None? && lease.route.None?
      modifies backend
      ensures backend.Valid() && backend.Onward()
      ensures r.Failure? && r.error in {ManagerError, ConflictError, Crash}
      ensures r.error == ManagerError ==>
        backend.row.Some? && backend.row.value.state == ReconcileRequired && backend.row.value.uncertain
      ensures backend.StaysOut(me)
    {
      if error.Caught() {
        var unclear :- Transition(me, lease, CreateUnclear(PROVIDER_ERROR));
      }
      return Failure(error);
    }

    method ReconcileCreation(me: Actor, lease: Lease) returns (r: Result<Lease, Exception>)
      requires backend.Valid() && backend.Seen(lease) && Creating(lease.state) && lease.route.None?
      modifies backend
      ensures backend.Valid() && backend.Onward()
      ensures r.Success? ==> (
        && backend.Seen(r.value) && r.value.route.None? && r.value.request == lease.request
        && (r.value.state == Waiting || (Creating(r.value.state) && lease.providerId.None?)))
      ensures r.Failure? ==> r.error == ConflictError || r.error == Crash || r.error == ManagerError
      ensures backend.StaysOut(me)
    {
      if lease.providerId.Some? {
        r := Transition(me, lease, Resume);
        return;
      }
      if lease.resourceType.None? || lease.name.None? { return Success(lease); }
      r := LookForCreated(me, lease);
    }

    method LookForCreated(me: Actor, lease: Lease) returns (r: Result<Lease, Exception>)
      requires backend.Valid() && backend.Seen(lease) && Creating(lease.state) && lease.route.None?
      requires lease.providerId.None?
      modifies backend
      ensures backend.Valid() && backend.Onward()
      ensures r.Success? ==> (
        && backend.Seen(r.value) && r.value.route.None? && r.value.request == lease.request
        && (r.value.state == Waiting || Creating(r.value.state)))
      ensures r.Failure? ==> r.error == ConflictError || r.error == Crash || r.error == ManagerError
      ensures backend.StaysOut(me)
    {
      var found := backend.FindResource(me);
      if found.Failure? {
        if !found.error.Caught() { return Failure(found.error); }
        r := backend.CompareAndSet(me, lease, Note(PROVIDER_ERROR));
        return;
      }
      r := UseListing(me, lease, found.value);
    }

    /** What a listing by name means for a create of unknown outcome: only a hit ends the doubt. */
    method UseListing(me: Actor, lease: Lease, found: Option<ResourceId>) returns (r: Result<Lease, Exception>)
      requires backend.Valid() && backend.Seen(lease) && Creating(lease.state) && lease.route.None?
      requires lease.providerId.None? && (found.Some? ==> backend.cloud.resource == found)
      modifies backend
      ensures backend.Valid() && backend.Onward()
      ensures r.Success? ==> backend.Seen(r.value) && r.value.route.None? && r.value.request == lease.request
      ensures r.Success? ==>
        if found.Some? then r.value.state == Waiting && r.value.providerId == found && !r.value.uncertain
        else r.value == lease
      ensures r.Failure? ==> r.error == ConflictError || r.error == Crash || r.error == ManagerError
      ensures backend.StaysOut(me)
    {
      if found.None? { return Success(lease); }
      r := Transition(me, lease, Bind(found.value));
    }

    // ---- Release ----

    /** A lease is reported terminated only when nothing billable can remain of it. */
    method Release(me: Actor, lease: Lease, why: string) returns (r: Result<Lease, Exception>)
      requires backend.Valid() && backend.Seen(lease)
      modifies backend
      ensures backend.Valid() && backend.Onward()
      ensures r.Success? ==> (
        && r.value.state == Terminated && backend.row == Some(Stored(r.value)) && Settled(r.value, backend.cloud)
        && backend.Seen(r.value) && r.value.request == lease.request)
      ensures r.Failure? ==> r.error.Caught() || r.error == Crash
      ensures r.Failure? && r.error == TeardownError ==> backend.row.Some? && Ending(backend.row.value.state)
      ensures lease.state == Releasing || lease.state == Terminated || WasOverdue(Stored(lease), old(backend.clock)) ==>
        backend.StaysOut(me)
      ensures r.Success? ==> lease.revision <= r.value.revision
    {
      if lease.state == Terminated { return Success(lease); }
      var at := backend.Now();
      if lease.state == Requested && lease.providerId.None? {
        r := Transition(me, lease, Abandon(why, AccruedCost(lease.cost, at)));
        return;
      }
      var current :- StartReleasing(me, lease, why, AccruedCost(lease.cost, at));
      r := ReleaseResource(me, current, why);
    }

    method StartReleasing(me: Actor, lease: Lease, why: string, accrued: real) returns (r: Result<Lease, Exception>)
      requires backend.Valid() && backend.Seen(lease) && lease.state != Terminated
      requires lease.state == Requested ==> lease.providerId.Some?
      modifies backend
      ensures backend.Valid() && backend.Onward()
      ensures r.Success? ==> backend.Seen(r.value) && r.value.state == Releasing && r.value.request == lease.request
      ensures r.Failure? ==> r.error.Caught() || r.error == Crash
      ensures r.Failure? && r.error == TeardownError ==> backend.row.Some? && Ending(backend.row.value.state)
      ensures lease.state == Releasing || lease.state == Terminated || WasOverdue(Stored(lease), old(backend.clock)) ==>
        backend.StaysOut(me)
      ensures r.Success? ==> lease.revision <= r.value.revision
    {
      if lease.state == Releasing { return Success(lease); }
      r := Transition(me, lease, BeginRelease(why, accrued));
    }

    /** The RELEASING half: resolve the create, tear the resource down, finish. */
    method ReleaseResource(me: Actor, lease: Lease, why: string) returns (r: Result<Lease, Exception>)
      requires backend.Valid() && backend.Seen(lease) && lease.state == Releasing
      modifies backend
      ensures backend.Valid() && backend.Onward()
      ensures r.Success? ==> (
        && r.value.state == Terminated && backend.row == Some(Stored(r.value)) && Settled(r.value, backend.cloud)
        && backend.Seen(r.value) && r.value.request == lease.request)
      ensures r.Failure? ==> r.error.Caught() || r.error == Crash
      ensures r.Failure? && r.error == TeardownError ==> backend.row.Some? && Ending(backend.row.value.state)
      ensures backend.StaysOut(me)
      ensures r.Success? ==> lease.revision <= r.value.revision
    {
      if lease.providerId.None? {
        r := ReleaseUnbound(me, lease, why);
      } else {
        r := TearDown(me, lease, why);
      }
    }

    method ReleaseUnbound(me: Actor, lease: Lease, why: string) returns (r: Result<Lease, Exception>)
      requires backend.Valid() && backend.Seen(lease) && lease.state == Releasing && lease.providerId.None?
      modifies backend
      ensures backend.Valid() && backend.Onward()
      ensures r.Success? ==> (
        && r.value.state == Terminated && backend.row == Some(Stored(r.value)) && Settled(r.value, backend.cloud)
        && backend.Seen(r.value) && r.value.request == lease.request)
      ensures r.Failure? ==> r.error.Caught() || r.error == Crash
      ensures r.Failure? && r.error == TeardownError ==> backend.row.Some? && Ending(backend.row.value.state)
      ensures backend.StaysOut(me)
      ensures r.Success? ==> lease.revision <= r.value.revision
    {
      if lease.uncertain {
        r := ReleaseUncertain(me, lease, why);
      } else {
        r := Transition(me, lease, Finish(why));
      }
    }

    /** A create of unknown outcome: the lease ends only if its resource is found. */
    method ReleaseUncertain(me: Actor, lease: Lease, why: string) returns (r: Result<Lease, Exception>)
      requires backend.Valid() && backend.Seen(lease) && lease.state == Releasing
      requires lease.providerId.None? && lease.uncertain
      modifies backend
      ensures backend.Valid() && backend.Onward()
      ensures r.Success? ==> (
        && r.value.state == Terminated && backend.row == Some(Stored(r.value)) && Settled(r.value, backend.cloud)
        && backend.Seen(r.value) && r.value.request == lease.request)
      ensures r.Failure? ==> r.error.Caught() || r.error == Crash
      ensures r.Failure? && r.error == TeardownError ==> backend.row.Some? && Ending(backend.row.value.state)
      ensures backend.StaysOut(me)
      ensures r.Success? ==> lease.revision <= r.value.revision
    {
      var current :- ResolveUncertainRelease(me, lease, why);
      if current.uncertain { return Failure(TeardownError); }
      if current.providerId.None? { assert false; } // a create that is no longer uncertain was found
      r := TearDown(me, current, why);
    }

    /** Counts the attempt, then tears the bound resource down. */
    method TearDown(me: Actor, lease: Lease, why: string) returns (r: Result<Lease, Exception>)
      requires backend.Valid() && backend.Seen(lease) && lease.state == Releasing && lease.providerId.Some?
      modifies backend
      ensures backend.Valid() && backend.Onward()
      ensures r.Success? ==> (
        && r.value.state == Terminated && backend.row == Some(Stored(r.value)) && Settled(r.value, backend.cloud)
        && backend.Seen(r.value) && r.value.request == lease.request)
      ensures r.Failure? ==> r.error.Caught() || r.error == Crash
      ensures r.Failure? && r.error == TeardownError ==> backend.row.Some? && Ending(backend.row.value.state)
      ensures backend.StaysOut(me)
      ensures r.Success? ==> lease.revision <= r.value.revision
    {
      var counted :- backend.CompareAndSet(me, lease, CountTeardown);
      r := TeardownEffect(me, counted, why);
    }

    method TeardownEffect(me: Actor, lease: Lease, why: string) returns (r: Result<Lease, Exception>)
      requires backend.Valid() && backend.Seen(lease) && lease.state == Releasing && lease.providerId.Some?
      requires 0 < lease.teardownAttempts
      modifies backend
      ensures backend.Valid() && backend.Onward()
      ensures r.Success? ==> (
        && r.value.state == Terminated && backend.row == Some(Stored(r.value)) && Settled(r.value, backend.cloud)
        && backend.Seen(r.value) && r.value.request == lease.request)
      ensures r.Failure? ==> r.error.Caught() || r.error == Crash
      ensures r.Failure? && r.error == TeardownError ==> backend.row.Some? && Ending(backend.row.value.state)
      ensures backend.StaysOut(me)
      ensures r.Success? ==> lease.revision <= r.value.revision
    {
      var torn := ResourceGone(me, lease);
      if torn.Failure? && !torn.error.Caught() { return Failure(torn.error); }
      var at := backend.Now();
      var accrued := AccruedCost(lease.cost, at);
      if torn.Failure? {
        r := NoteTeardownFailure(me, lease, why, accrued);
        return;
      }
      r := FinishTeardown(me, lease, why, accrued);
    }

    method FinishTeardown(me: Actor, lease: Lease, why: string, accrued: real) returns (r: Result<Lease, Exception>)
      requires backend.Valid() && backend.Seen(lease) && lease.state == Releasing && lease.providerId.Some?
      requires 0 < lease.teardownAttempts && backend.cloud.gone
      modifies backend
      ensures backend.Valid() && backend.Onward()
      ensures r.Success? ==> (
        && r.value.state == Terminated && backend.row == Some(Stored(r.value)) && Settled(r.value, backend.cloud)
        && backend.Seen(r.value) && r.value.request == lease.request)
      ensures r.Failure? ==> r.error in {ConflictError, Crash, ManagerError}
      ensures backend.StaysOut(me)
      ensures r.Success? ==> lease.revision <= r.value.revision
    {
      r := Transition(me, lease, FinishTorn(why, accrued));
    }

    method NoteTeardownFailure(me: Actor, lease: Lease, why: string, accrued: real)
      returns (r: Result<Lease, Exception>)
      requires backend.Valid() && backend.Seen(lease) && lease.state == Releasing
      modifies backend
      ensures backend.Valid() && backend.Onward() && r.Failure?
      ensures r.error.Caught() || r.error == Crash
      ensures r.error == TeardownError ==> backend.row.Some? && Ending(backend.row.value.state)
      ensures backend.StaysOut(me)
    {
      var failed :- backend.CompareAndSet(me, lease, TeardownFailed(why + ": " + PROVIDER_ERROR, accrued));
      return Failure(TeardownError);
    }

    /** `resource_from_lease` and the provider's exact teardown. */
    method ResourceGone(me: Actor, lease: Lease) returns (r: Result<bool, Exception>)
      requires backend.Valid() && backend.Seen(lease) && lease.providerId.Some?
      modifies backend
      ensures backend.Valid() && backend.Onward()
      ensures r.Success? ==> backend.cloud.gone
      ensures r.Failure? ==> r.error == ManagerError || r.error == Crash
      ensures backend.StaysOut(me)
    {
      if lease.resourceType.None? || lease.name.None? { return Failure(ManagerError); }
      r := backend.Teardown(me, lease.providerId.value);
    }

    /** Neither elapsed time nor an empty listing resolves an uncertain create. */
    method ResolveUncertainRelease(me: Actor, lease: Lease, why: string) returns (r: Result<Lease, Exception>)
      requires backend.Valid() && backend.Seen(lease)
      requires lease.state == Releasing && lease.providerId.None? && lease.uncertain
      modifies backend
      ensures backend.Valid() && backend.Onward()
      ensures r.Success? ==> (
        && backend.row == Some(r.value) && backend.Seen(r.value) && r.value.state == Releasing
        && r.value.request == lease.request)
      ensures r.Failure? ==> r.error == ConflictError || r.error == Crash
      ensures r.Success? ==>
        if r.value.uncertain then r.value.providerId.None?
        else r.value.providerId.Some? && backend.cloud.resource == r.value.providerId
      ensures backend.StaysOut(me)
      ensures r.Success? ==> lease.revision <= r.value.revision
    {
      if lease.resourceType.None? || lease.name.None? {
        r := backend.CompareAndSet(me, lease, AwaitCreate(why + ": uncertain creation has no resource identity"));
        return;
      }
      var found := backend.FindResource(me);
      if found.Failure? {
        if !found.error.Caught() { return Failure(found.error); }
        r := backend.CompareAndSet(me, lease, AwaitCreate(why + ": " + PROVIDER_ERROR));
        return;
      }
      r := UseReleaseListing(me, lease, found.value, why);
    }

    /** A hit ends the doubt; an empty listing does not. */
    method UseReleaseListing(me: Actor, lease: Lease, found: Option<ResourceId>, why: string)
      returns (r: Result<Lease, Exception>)
      requires backend.Valid() && backend.Seen(lease) && (found.Some? ==> backend.cloud.resource == found)
      requires lease.state == Releasing && lease.providerId.None? && lease.uncertain
      modifies backend
      ensures backend.Valid() && backend.Onward()
      ensures r.Success? ==> (
        && backend.row == Some(r.value) && backend.Seen(r.value) && r.value.state == Releasing
        && r.value.request == lease.request && r.value.providerId == found && (r.value.uncertain <==> found.None?)
        && (found.Some? ==> backend.cloud.resource == found))
      ensures r.Failure? ==> r.error == ConflictError || r.error == Crash
      ensures backend.StaysOut(me)
      ensures r.Success? ==> lease.revision <= r.value.revision
    {
      if found.Some? {
        r := backend.CompareAndSet(me, lease, AdoptForRelease(found.value));
        return;
      }
      r := backend.CompareAndSet(me, lease, AwaitCreate(why + ": awaiting ambiguous creation reconciliation"));
    }

    // ---- Readiness ----

    /** Re-observes a ready lease; the route is attached in host memory only. */
    method ReadyWithRoute(me: Actor, lease: Lease) returns (r: Result<Lease, Exception>)
      requires backend.Valid() && backend.Seen(lease) && lease.state == Ready
      modifies backend
      ensures backend.Valid() && backend.Onward()
      ensures r.Success? ==> (
        && backend.Seen(r.value) && Routed(r.value) && r.value.request == lease.request
        && (r.value.state == Terminated
            || (r.value.state == Ready && r.value.idleDeadline == lease.idleDeadline
                && old(backend.clock) < r.value.idleDeadline)))
      ensures r.Failure? ==> r.error.Caught() || r.error == Crash
      ensures backend.StaysOut(me)
    {
      var at := backend.Now();
      r := ServeWithinBounds(me, lease, at);
    }

    method ServeWithinBounds(me: Actor, lease: Lease, at: int) returns (r: Result<Lease, Exception>)
      requires backend.Valid() && backend.Seen(lease) && lease.state == Ready && at <= backend.clock
      modifies backend
      ensures backend.Valid() && backend.Onward()
      ensures r.Success? ==> (
        && backend.Seen(r.value) && Routed(r.value) && r.value.request == lease.request
        && (r.value.state == Terminated
            || (r.value.state == Ready && r.value.idleDeadline == lease.idleDeadline && !Overdue(lease, at))))
      ensures r.Failure? ==> r.error.Caught() || r.error == Crash
      ensures backend.StaysOut(me)
    {
      var accrued := AccruedCost(lease.cost, at);
      if HardDeadline(lease) <= at || lease.idleDeadline <= at || OverAuthorized(lease.cost, at) {
        OverdueByNow(lease, at, backend.clock);
        r := Release(me, lease, "deadline_or_cost_cap");
        return;
      }
      r := ObserveReady(me, lease, accrued);
    }

    method ObserveReady(me: Actor, lease: Lease, accrued: real) returns (r: Result<Lease, Exception>)
      requires backend.Valid() && backend.Seen(lease) && lease.state == Ready
      modifies backend
      ensures backend.Valid() && backend.Onward()
      ensures r.Success? ==> (
        && backend.Seen(r.value) && Routed(r.value) && r.value.request == lease.request
        && r.value.state == Ready && r.value.idleDeadline == lease.idleDeadline)
      ensures r.Failure? ==> r.error.Caught() || r.error == Crash
      ensures backend.StaysOut(me)
    {
      var observed := ObserveLease(me, lease);
      if observed.Failure? {
        r := GoUnobserved(me, lease, observed.error, accrued);
        return;
      }
      r := AttachRoute(me, lease, observed.value, accrued);
    }

    method GoUnobserved(me: Actor, lease: Lease, error: Exception, accrued: real) returns (r: Result<Lease, Exception>)
      requires backend.Valid() && backend.Seen(lease) && lease.state == Ready
      requires error.Caught() || error == Crash
      modifies backend
      ensures backend.Valid() && backend.Onward()
      ensures r.Failure? && (r.error.Caught() || r.error == Crash)
      ensures backend.StaysOut(me)
    {
      if !error.Caught() { return Failure(error); }
      var noted :- backend.CompareAndSet(me, lease, NoteAccrued(PROVIDER_ERROR, accrued));
      return Failure(ReadinessError);
    }

    /** The route, if the observation passes exact-model readiness. */
    method AttachRoute(me: Actor, lease: Lease, seen: Observation, accrued: real) returns (r: Result<Lease, Exception>)
      requires backend.Valid() && backend.Seen(lease) && lease.state == Ready
      modifies backend
      ensures backend.Valid() && backend.Onward()
      ensures r.Success? ==> (
        && backend.Seen(r.value) && Routed(r.value) && r.value.request == lease.request
        && r.value.state == Ready && r.value.idleDeadline == lease.idleDeadline)
      ensures r.Failure? ==> r.error.Caught() || r.error == Crash
      ensures backend.StaysOut(me)
      ensures r.Success? ==> Usable(seen) && r.value.route == seen.route
    {
      if !seen.ready || seen.route.None? || seen.route.value == "" || !seen.hasModel {
        var noted :- backend.CompareAndSet(me, lease, NoteAccrued("ready route did not pass exact-model readiness",
          accrued));
        return Failure(ReadinessError);
      }
      var durable :- backend.CompareAndSet(me, lease, RouteSeen(accrued));
      return Success(durable.(route := seen.route));
    }

    /** `resource_from_lease` and the provider's observation of it. */
    method ObserveLease(me: Actor, lease: Lease) returns (r: Result<Observation, Exception>)
      requires backend.Valid()
      modifies backend
      ensures backend.Valid() && backend.Interleaved(me)
      ensures r.Failure? ==> r.error == ManagerError || r.error == Crash
    {
      if lease.resourceType.None? || lease.providerId.None? || lease.name.None? {
        return Failure(ManagerError);
      }
      r := backend.Observe(me);
    }

    method CheckReadinessOnce(me: Actor, lease: Lease) returns (r: Result<Lease, Exception>)
      requires backend.Valid() && backend.Seen(lease) && lease.state == Waiting && lease.route.None?
      modifies backend
      ensures backend.Valid() && backend.Onward()
      ensures r.Success? ==> (
        && backend.Seen(r.value) && Routed(r.value) && r.value.request == lease.request
        && (r.value.state == Terminated
            || (r.value.state == Waiting && r.value.route.None?)
            || (r.value.state == Ready && old(backend.clock) < r.value.idleDeadline
                && old(backend.clock) <= r.value.lastUsedAt && IdleIsDue(r.value))))
      ensures r.Failure? ==> r.error.Caught() || r.error == Crash
      ensures backend.StaysOut(me)
      ensures r.Success? ==> lease.revision < r.value.revision
    {
      if lease.resourceType.None? || lease.providerId.None? || lease.name.None? { return Failure(ManagerError); }
      var at := backend.Now();
      var accrued := AccruedCost(lease.cost, at);
      var observed := backend.Observe(me);
      if observed.Failure? {
        if !observed.error.Caught() { return Failure(observed.error); }
        r := backend.CompareAndSet(me, lease, NoteAccrued(PROVIDER_ERROR, accrued));
        return;
      }
      r := ActOnObservation(me, lease, observed.value, at, accrued);
    }

    /** Records what has accrued, and releases a lease that is past its bounds. */
    method ActOnObservation(me: Actor, lease: Lease, seen: Observation, at: int, accrued: real)
      returns (r: Result<Lease, Exception>)
      requires backend.Valid() && backend.Seen(lease) && lease.state == Waiting && lease.route.None?
      requires at <= backend.clock
      modifies backend
      ensures backend.Valid() && backend.Onward()
      ensures r.Success? ==> (
        && backend.Seen(r.value) && Routed(r.value) && r.value.request == lease.request
        && (r.value.state == Terminated
            || (r.value.state == Waiting && r.value.route.None? && !Usable(seen))
            || (r.value.state == Ready && r.value.route == seen.route && Usable(seen)
                && at < r.value.idleDeadline && r.value.lastUsedAt == at && IdleIsDue(r.value))))
      ensures r.Success? && r.value.state != Terminated ==> at < r.value.request.spend.hardDeadline
      ensures r.Failure? ==> r.error.Caught() || r.error == Crash
      ensures backend.StaysOut(me)
      ensures r.Success? ==> lease.revision < r.value.revision
    {
      var current :- backend.CompareAndSet(me, lease, Accrue(accrued));
      r := UseWithinBounds(me, current, seen, at);
    }

    method UseWithinBounds(me: Actor, lease: Lease, seen: Observation, at: int) returns (r: Result<Lease, Exception>)
      requires backend.Valid() && backend.Seen(lease) && lease.state == Waiting && lease.route.None?
      requires at <= backend.clock
      modifies backend
      ensures backend.Valid() && backend.Onward()
      ensures r.Success? ==> (
        && backend.Seen(r.value) && Routed(r.value) && r.value.request == lease.request
        && (r.value.state == Terminated
            || (r.value.state == Waiting && r.value.route.None? && !Usable(seen))
            || (r.value.state == Ready && r.value.route == seen.route && Usable(seen)
                && at < r.value.idleDeadline && r.value.lastUsedAt == at && IdleIsDue(r.value))))
      ensures r.Success? && r.value.state != Terminated ==>
        at < lease.request.spend.hardDeadline && !OverAuthorized(lease.cost, at)
      ensures r.Failure? ==> r.error.Caught() || r.error == Crash
      ensures backend.StaysOut(me)
      ensures r.Success? ==> lease.revision <= r.value.revision
    {
      if HardDeadline(lease) <= at || OverAuthorized(lease.cost, at) {
        OverdueByNow(lease, at, backend.clock);
        r := Release(me, lease, "deadline_or_cost_cap");
        return;
      }
      r := UseObservation(me, lease, seen, at);
    }

    /** What follows an observation that found the lease within its bounds. */
    method UseObservation(me: Actor, lease: Lease, seen: Observation, at: int) returns (r: Result<Lease, Exception>)
      requires backend.Valid() && backend.Seen(lease) && lease.state == Waiting && lease.route.None?
      requires at < HardDeadline(lease)
      modifies backend
      ensures backend.Valid() && backend.Onward()
      ensures r.Success? ==> (
        && backend.Seen(r.value) && Routed(r.value) && r.value.request == lease.request
        && (if Usable(seen) then
              && r.value.state == Ready && r.value.route == seen.route && r.value.readyAt == Some(at)
              && at < r.value.idleDeadline && r.value.lastUsedAt == at && IdleIsDue(r.value)
            else r.value.state == Waiting && r.value.route.None?))
      ensures r.Failure? ==> r.error == ConflictError || r.error == Crash || r.error == ManagerError
      ensures backend.StaysOut(me)
      ensures r.Success? ==> lease.revision <= r.value.revision
    {
      if !seen.ready || seen.route.None? || seen.route.value == "" { return Success(lease); }
      if !seen.hasModel {
        r := PullModel(me, lease, at);
        return;
      }
      var ready :- Transition(me, lease, BecomeReady(at));
      return Success(ready.(route := seen.route));
    }

    /** Asks the provider to pull the model; the attempt is counted first. */
    method PullModel(me: Actor, lease: Lease, at: int) returns (r: Result<Lease, Exception>)
      requires backend.Valid() && backend.Seen(lease) && lease.state == Waiting && lease.route.None?
      modifies backend
      ensures backend.Valid() && backend.Onward()
      ensures r.Success? ==> (
        && backend.Seen(r.value) && r.value.request == lease.request && r.value.state == Waiting
        && r.value.route.None? && r.value.pullAttempts == lease.pullAttempts + 1 && r.value.pullStartedAt.Some?)
      ensures r.Failure? ==> r.error == ConflictError || r.error == Crash || r.error == ManagerError
      ensures backend.StaysOut(me)
      ensures r.Success? ==> lease.revision <= r.value.revision
    {
      var pulling :- backend.CompareAndSet(me, lease, PullStarted(at));
      r := PullEffect(me, pulling);
    }

    method PullEffect(me: Actor, lease: Lease) returns (r: Result<Lease, Exception>)
      requires backend.Valid() && backend.Seen(lease) && lease.state == Waiting && lease.route.None?
      modifies backend
      ensures backend.Valid() && backend.Onward()
      ensures r.Success? ==> (
        && backend.Seen(r.value) && r.value.request == lease.request && r.value.state == Waiting
        && r.value.route.None? && r.value.pullAttempts == lease.pullAttempts
        && r.value.pullStartedAt == lease.pullStartedAt)
      ensures r.Failure? ==> r.error == ConflictError || r.error == Crash || r.error == ManagerError
      ensures backend.StaysOut(me)
      ensures r.Success? ==> lease.revision <= r.value.revision
    {
      var pulled := backend.PullModel(me);
      if pulled.Failure? {
        if !pulled.error.Caught() { return Failure(pulled.error); }
        r := backend.CompareAndSet(me, lease, Note(PROVIDER_ERROR));
        return;
      }
      return Success(lease);
    }

    /** Polls until the lease is no longer waiting. The caller may stop waiting at any
        sleep, which is a crash of this call: `patience` is how many sleeps it sits out. */
    method WaitUntilReady(me: Actor, lease: Lease, patience: nat) returns (r: Result<Lease, Exception>)
      requires backend.Valid() && backend.Seen(lease) && lease.state == Waiting && lease.route.None?
      modifies backend
      ensures backend.Valid() && backend.Onward()
      ensures r.Success? ==> (
        && backend.Seen(r.value) && Routed(r.value) && r.value.request == lease.request
        && (r.value.state == Ready || r.value.state == Terminated))
      ensures r.Failure? ==> r.error.Caught() || r.error == Crash
      ensures backend.StaysOut(me)
    {
      var current, left := lease, patience;
      while current.state == Waiting
        invariant backend.Valid() && backend.Onward() && backend.Seen(current) && Routed(current)
        invariant current.request == lease.request && backend.StaysOut(me)
        invariant current.state == Ready || current.state == Terminated
                  || (current.state == Waiting && current.route.None?)
        decreases left
      {
        current :- PollOnce(me, current);
        if current.state != Waiting { return Success(current); }
        if left == 0 { return Failure(Crash); }
        left := left - 1;
      }
      return Success(current);
    }

    /** One look, and what it means for a caller that waits. */
    method PollOnce(me: Actor, lease: Lease) returns (r: Result<Lease, Exception>)
      requires backend.Valid() && backend.Seen(lease) && lease.state == Waiting && lease.route.None?
      modifies backend
      ensures backend.Valid() && backend.Onward()
      ensures r.Success? ==> (
        && backend.Seen(r.value) && Routed(r.value) && r.value.request == lease.request
        && (r.value.state == Ready || r.value.state == Terminated
            || (r.value.state == Waiting && r.value.route.None? && old(backend.clock) < r.value.readinessDeadline)))
      ensures r.Failure? ==> r.error.Caught() || r.error == Crash
      ensures backend.StaysOut(me)
    {
      var current :- CheckReadinessOnce(me, lease);
      if current.state == Ready { return Success(current); }
      r := GiveUpLate(me, current);
    }

    /** Ends the wait for a lease that is past its bounds. */
    method GiveUpLate(me: Actor, lease: Lease) returns (r: Result<Lease, Exception>)
      requires backend.Valid() && backend.Seen(lease) && Routed(lease)
      requires lease.state == Terminated || (lease.state == Waiting && lease.route.None?)
      modifies backend
      ensures backend.Valid() && backend.Onward()
      ensures r.Success? ==> (
        && backend.Seen(r.value) && Routed(r.value) && r.value.request == lease.request
        && (r.value.state == Terminated || (r.value == lease && old(backend.clock) < lease.readinessDeadline)))
      ensures r.Failure? ==> r.error.Caught() || r.error == Crash
      ensures backend.StaysOut(me)
    {
      var at := backend.Now();
      if lease.state == Waiting && (HardDeadline(lease) <= at || OverAuthorized(lease.cost, at)) {
        OverdueByNow(lease, at, backend.clock);
        r := Release(me, lease, "deadline_or_cost_cap");
        return;
      }
      if lease.readinessDeadline <= at {
        if lease.state == Waiting { OverdueByNow(lease, at, backend.clock); }
        r := TimedOut(me, lease);
        return;
      }
      return Success(lease);
    }

    /** Releases a lease that missed its readiness deadline, and always raises. */
    method TimedOut(me: Actor, lease: Lease) returns (r: Result<Lease, Exception>)
      requires backend.Valid() && backend.Seen(lease)
      requires lease.state == Terminated || WasOverdue(Stored(lease), backend.clock)
      modifies backend
      ensures backend.Valid() && backend.Onward()
      ensures r.Failure? && (r.error.Caught() || r.error == Crash) && r.error != TeardownError
      ensures backend.StaysOut(me)
    {
      var released := Release(me, lease, "readiness_timeout");
      if released.Failure? && released.error != TeardownError { return Failure(released.error); }
      return Failure(ReadinessError);
    }

    // ---- What callers ask for ----

    method Required(me: Actor) returns (r: Result<Lease, Exception>)
      requires backend.Valid()
      modifies backend
      ensures backend.Valid() && backend.Interleaved(me)
      ensures r.Success? ==> backend.row == Some(r.value) && backend.Seen(r.value)
      ensures r.Failure? ==> r.error == Crash || (r.error == ManagerError && backend.row.None?)
    {
      var found :- backend.Get(me);
      if found.None? { return Failure(ManagerError); }
      return Success(found.value);
    }

    method RequiredOwned(me: Actor, owner: string, workload: string) returns (r: Result<Lease, Exception>)
      requires backend.Valid()
      modifies backend
      ensures backend.Valid() && backend.Interleaved(me)
      ensures r.Success? ==> backend.row == Some(r.value) && backend.Seen(r.value) && Owned(r.value, owner, workload)
      ensures r.Success? ==> r.value.route.None?
      ensures r.Failure? ==> r.error == Crash || r.error == ManagerError || r.error == AuthorizationError
    {
      var lease :- Required(me);
      if !Owned(lease, owner, workload) { return Failure(AuthorizationError); }
      return Success(lease);
    }

    method Get(me: Actor, owner: string, workload: string) returns (r: Result<Lease, Exception>)
      requires backend.Valid()
      modifies backend
      ensures backend.Valid() && backend.Onward()
      ensures r.Success? ==> backend.Seen(r.value) && Owned(r.value, owner, workload) && Routed(r.value)
      ensures backend.StaysOut(me)
    {
      var lease :- RequiredOwned(me, owner, workload);
      if lease.state == Ready {
        r := ReadyWithRoute(me, lease);
        return;
      }
      return Success(lease);
    }

    /** Renews a ready lease to its idle timeout and never past the hard deadline. */
    method Touch(me: Actor, owner: string, workload: string) returns (r: Result<Lease, Exception>)
      requires backend.Valid()
      modifies backend
      ensures backend.Valid() && backend.Onward()
      ensures r.Success? ==> (
        && backend.Seen(r.value) && Owned(r.value, owner, workload)
        && (r.value.state == Failed || Ending(r.value.state)
            || (r.value.state == Ready && Routed(r.value) && old(backend.clock) <= r.value.lastUsedAt
                && r.value.lastUsedAt < r.value.idleDeadline && IdleIsDue(r.value))))
      ensures backend.StaysOut(me)
    {
      var lease :- RequiredOwned(me, owner, workload);
      if lease.state == Failed || Ending(lease.state) { return Success(lease); }
      if lease.state != Ready { return Failure(ManagerError); }
      lease :- ReadyWithRoute(me, lease);
      if lease.state != Ready { return Success(lease); }
      r := Renew(me, lease);
    }

    /** The lease was used now, unless its time or its money is over. */
    method Renew(me: Actor, lease: Lease) returns (r: Result<Lease, Exception>)
      requires backend.Valid() && backend.Seen(lease) && lease.state == Ready && Routed(lease)
      modifies backend
      ensures backend.Valid() && backend.Onward()
      ensures r.Success? ==> backend.Seen(r.value) && r.value.request == lease.request
      ensures r.Success? ==> (
        || r.value.state == Terminated
        || (r.value.state == Ready && Routed(r.value) && old(backend.clock) <= r.value.lastUsedAt
            && r.value.lastUsedAt < r.value.idleDeadline && IdleIsDue(r.value)
            && !OverAuthorized(lease.cost, r.value.lastUsedAt)))
      ensures backend.StaysOut(me)
    {
      var at := backend.Now();
      var accrued := AccruedCost(lease.cost, at);
      if HardDeadline(lease) <= at || OverAuthorized(lease.cost, at) {
        OverdueByNow(lease, at, backend.clock);
        r := Release(me, lease, "deadline_or_cost_cap");
        return;
      }
      var touched :- backend.CompareAndSet(me, lease, Touched(at, accrued));
      return Success(touched.(route := lease.route));
    }

    method ReleaseLease(me: Actor, owner: string, workload: string) returns (r: Result<Lease, Exception>)
      requires backend.Valid()
      modifies backend
      ensures backend.Valid() && backend.Onward()
      ensures r.Success? ==> (
        && Owned(r.value, owner, workload) && r.value.state == Terminated
        && backend.row == Some(Stored(r.value)) && Settled(r.value, backend.cloud))
    {
      var lease :- RequiredOwned(me, owner, workload);
      r := Release(me, lease, "caller_release");
    }

    // ---- Reconciliation ----

    /** One visit. On a normal return the lease is not past what its state and its authorization
        allow at the time `at` the visit began, unless it is being released or is terminated. */
    method ReconcileOne(me: Actor) returns (r: Result<Option<Lease>, Exception>, ghost at: int)
      requires backend.Valid()
      modifies backend
      ensures backend.Valid() && backend.Onward() && old(backend.clock) <= at
      ensures r.Success? ==> (old(backend.row).Some? ==> r.value.Some?)
      ensures r.Success? && r.value.Some? ==> (
        && backend.Seen(r.value.value) && (Overdue(r.value.value, at) ==> Ending(r.value.value.state)))
      ensures r.Failure? ==> r.error.Caught() || r.error == Crash
      ensures backend.StaysOut(me)
    {
      at := backend.clock;
      var found := backend.Get(me);
      if found.Failure? { return Failure(found.error), at; }
      if found.value.None? || found.value.value.state == Terminated { return Success(found.value), at; }
      var lease := found.value.value;
      var now := backend.Now();
      at := now;
      var reconciled := Reconciled(me, lease, now);
      if reconciled.Failure? { return Failure(reconciled.error), at; }
      return Success(Some(reconciled.value)), at;
    }

    /** The visit of a lease that exists and is not terminated. */
    method Reconciled(me: Actor, lease: Lease, now: int) returns (r: Result<Lease, Exception>)
      requires backend.Valid() && backend.Seen(lease) && lease.route.None? && lease.state != Terminated
      requires now <= backend.clock
      modifies backend
      ensures backend.Valid() && backend.Onward()
      ensures r.Success? ==> backend.Seen(r.value) && (Overdue(r.value, now) ==> Ending(r.value.state))
      ensures r.Failure? ==> r.error.Caught() || r.error == Crash
      ensures backend.StaysOut(me)
      ensures r.Success? && lease.state == Requested
        && (lease.readinessDeadline <= now || lease.request.spend.hardDeadline <= now)
        ==> r.value.state == Terminated
    {
      if lease.state == Releasing {
        r := ReleaseOrReread(me, lease, "retry_teardown");
        return;
      }
      var current := lease;
      if current.state == Requested {
        if Earlier(current.readinessDeadline, HardDeadline(current)) <= now {
          OverdueByNow(current, now, backend.clock);
          r := Release(me, current, "expired");
          return;
        }
        if current.mode.None? { return Failure(ManagerError); }
        current :- ProvisionRequested(me, current, RequestFromLease(current), None);
      }
      if Creating(current.state) {
        current :- ReconcileCreation(me, current);
      }
      r := HoldToDeadlines(me, current, now);
    }

    /** The second half of a visit: expiry, then one look at readiness. */
    method HoldToDeadlines(me: Actor, lease: Lease, now: int) returns (r: Result<Lease, Exception>)
      requires backend.Valid() && backend.Seen(lease) && lease.route.None? && now <= backend.clock
      requires Creating(lease.state) || lease.state == Waiting || lease.state == Ready || lease.state == Failed
      modifies backend
      ensures backend.Valid() && backend.Onward()
      ensures r.Success? ==> backend.Seen(r.value) && (Overdue(r.value, now) ==> Ending(r.value.state))
      ensures r.Failure? ==> r.error.Caught() || r.error == Crash
      ensures backend.StaysOut(me)
    {
      var hardExpired := HardDeadline(lease) <= now;
      var idleExpired := lease.state == Ready && lease.idleDeadline <= now;
      var readinessExpired := (Creating(lease.state) || lease.state == Waiting) && lease.readinessDeadline <= now;
      if hardExpired || idleExpired || readinessExpired || OverAuthorized(lease.cost, now) {
        OverdueByNow(lease, now, backend.clock);
        r := ReleaseOrReread(me, lease, "expired");
        return;
      }
      if lease.state == Failed { backend.FailedIsUnpriced(lease, now); }
      r := LookOnce(me, lease, now);
      if r.Success? && !Ending(r.value.state) { backend.SameMoney(lease, r.value, now); }
    }

    /** One look at a lease that is within its bounds. */
    method LookOnce(me: Actor, lease: Lease, now: int) returns (r: Result<Lease, Exception>)
      requires backend.Valid() && backend.Seen(lease) && lease.route.None? && now <= backend.clock
      requires Creating(lease.state) || lease.state == Waiting || lease.state == Ready
      requires !Expired(lease, now)
      modifies backend
      ensures backend.Valid() && backend.Onward()
      ensures r.Success? ==> backend.Seen(r.value) && (Expired(r.value, now) ==> Ending(r.value.state))
      ensures r.Success? ==> Ending(r.value.state) || Creating(r.value.state) || r.value.state in {Waiting, Ready}
      ensures r.Failure? ==> r.error.Caught() || r.error == Crash
      ensures backend.StaysOut(me)
    {
      if lease.state == Waiting {
        r := CheckReadinessOnce(me, lease);
        return;
      }
      if lease.state == Ready {
        r := ReadyWithRoute(me, lease);
        return;
      }
      return Success(lease);
    }

    /** A teardown that failed is left to the next visit. */
    method ReleaseOrReread(me: Actor, lease: Lease, why: string) returns (r: Result<Lease, Exception>)
      requires backend.Valid() && backend.Seen(lease)
      modifies backend
      ensures backend.Valid() && backend.Onward()
      ensures r.Success? ==> backend.Seen(r.value) && Ending(r.value.state)
      ensures r.Failure? ==> (r.error.Caught() || r.error == Crash) && r.error != TeardownError
      ensures lease.state == Releasing || lease.state == Terminated || WasOverdue(Stored(lease), old(backend.clock)) ==>
        backend.StaysOut(me)
    {
      r := Release(me, lease, why);
      if r.Failure? && r.error == TeardownError {
        r := Required(me);
      }
    }

    /** Keeps a failed visit on the row, if the row has not moved on meanwhile. */
    method RecordReconcileError(me: Actor) returns (r: Result<Option<Lease>, Exception>)
      requires backend.Valid()
      modifies backend
      ensures backend.Valid() && backend.Onward()
      ensures r.Success? ==> (old(backend.row).Some? ==> r.value.Some?)
      ensures r.Success? && r.value.Some? ==> backend.Seen(r.value.value)
      ensures r.Failure? ==> r.error == Crash
      ensures backend.StaysOut(me)
    {
      var found :- backend.Get(me);
      if found.None? || found.value.state == Terminated { return Success(found); }
      var noted := backend.CompareAndSet(me, found.value, Note("reconcile: " + PROVIDER_ERROR));
      if noted.Success? { return Success(Some(noted.value)); }
      if noted.error != ConflictError { return Failure(noted.error); }
      r := backend.Get(me);
    }

    /** One visit whose failure is recorded instead of raised. */
    method VisitOnce(me: Actor) returns (r: Result<Option<Lease>, Exception>, ghost v: Visit)
      requires backend.Valid()
      modifies backend
      ensures backend.Valid() && backend.Onward() && old(backend.clock) <= v.at
      ensures r.Success? ==> (old(backend.row).Some? ==> r.value.Some?)
      ensures r.Success? && r.value.Some? ==> backend.Seen(r.value.value) && HeldToDeadlines(r.value.value, v)
      ensures r.Failure? ==> r.error == Crash
      ensures backend.StaysOut(me)
    {
      ghost var at;
      r, at := ReconcileOne(me);
      v := Visit(at, None);
      if r.Failure? && r.error.Caught() {
        v := Visit(at, Some(r.error));
        r := RecordReconcileError(me);
      }
    }

    method ReconcileLease(me: Actor, owner: string, workload: string)
      returns (r: Result<Lease, Exception>, ghost v: Visit)
      requires backend.Valid()
      modifies backend
      ensures backend.Valid() && backend.Onward() && old(backend.clock) <= v.at
      ensures r.Success? ==> backend.Seen(r.value) && HeldToDeadlines(r.value, v)
      ensures r.Failure? ==> r.error == Crash || r.error == ManagerError || r.error == AuthorizationError
      ensures backend.StaysOut(me)
    {
      v := Visit(backend.clock, None);
      var lease :- RequiredOwned(me, owner, workload);
      var visited;
      visited, v := VisitOnce(me);
      r := if visited.Success? then Success(visited.value.value) else Failure(visited.error);
    }

    // ---- Acquisition ----

    method Acquire(me: Actor, request: LeaseRequest, wait: bool, given: Option<Plan>, patience: nat)
      returns (r: Result<Lease, Exception>)
      requires backend.Valid() && ValidLeaseRequest(request)
      modifies backend
      ensures backend.Valid() && backend.Onward()
      ensures r.Success? ==> backend.Seen(r.value) && r.value.request == request && Routed(r.value)
      ensures r.Success? && wait ==> r.value.state != Waiting
      ensures r.Failure? && r.error == ValueError ==> TooLate(request, backend.clock)
      ensures backend.StaysOut(me)
    {
      var now := backend.Now();
      var existing :- backend.Get(me);
      if existing.None? && TooLate(request, now) {
        TooLateStays(request, now, backend.clock);
        return Failure(ValueError);
      }
      var stored :- backend.InsertRequest(me, request, now);
      if !stored.1 && !Owned(stored.0, request.owner, request.workload) { return Failure(AuthorizationError); }
      r := AcquireStored(me, stored.0, request, wait, given, patience, now);
    }

    /** Drives the stored row as far as this call can. */
    method AcquireStored(me: Actor, stored: Lease, request: LeaseRequest, wait: bool, given: Option<Plan>,
      patience: nat, now: int) returns (r: Result<Lease, Exception>)
      requires backend.Valid() && backend.Seen(stored) && stored.route.None?
      requires stored.request == request && ValidLeaseRequest(request) && now <= backend.clock
      modifies backend
      ensures backend.Valid() && backend.Onward()
      ensures r.Success? ==> backend.Seen(r.value) && r.value.request == request && Routed(r.value)
      ensures r.Success? && wait ==> r.value.state != Waiting
      ensures r.Failure? ==> r.error.Caught() || r.error == Crash
      ensures backend.StaysOut(me)
      ensures r.Success? && stored.state == Requested
        && (stored.readinessDeadline <= now || stored.request.spend.hardDeadline <= now)
        ==> r.value.state == Terminated
    {
      if stored.state == Ready {
        r := ReadyWithRoute(me, stored);
        return;
      }
      if stored.state == Requested && Earlier(stored.readinessDeadline, HardDeadline(stored)) <= now {
        OverdueByNow(stored, now, backend.clock);
        r := Release(me, stored, "expired");
        return;
      }
      var lease :- DriveCreation(me, stored, request, given);
      if lease.state == Waiting && wait {
        r := WaitUntilReady(me, lease, patience);
        return;
      }
      return Success(lease);
    }

    /** The create of a stored lease, as far as this call can take it. */
    method DriveCreation(me: Actor, stored: Lease, request: LeaseRequest, given: Option<Plan>)
      returns (r: Result<Lease, Exception>)
      requires backend.Valid() && backend.Seen(stored) && stored.route.None? && stored.state != Ready
      requires stored.request == request && ValidLeaseRequest(request)
      modifies backend
      ensures backend.Valid() && backend.Onward()
      ensures r.Success? ==> (
        && backend.Seen(r.value) && r.value.request == request && r.value.route.None? && r.value.state != Ready
        && (stored.state == Requested ==> r.value.state == Waiting)
        && (stored.state != Requested && !Creating(stored.state) ==> r.value == stored))
      ensures r.Failure? ==> r.error.Caught() || r.error == Crash
      ensures backend.StaysOut(me)
    {
      if stored.state == Requested {
        r := ProvisionRequested(me, stored, request, given);
        return;
      }
      if Creating(stored.state) {
        r := ReconcileCreation(me, stored);
        return;
      }
      return Success(stored);
    }
  }

  lemma TooLateStays(r: LeaseRequest, at: int, later: int)
    requires ValidLeaseRequest(r) && TooLate(r, at) && at <= later
    ensures TooLate(r, later)
  {}

  /** A listed lease: its row exists, and `Reported` says that an answer came from it. */
  ghost predicate Listed(s: OllamaLeaseService)
    reads s.backend
  {
    s.backend.Valid() && s.backend.row.Some?
  }

  ghost predicate Reported(s: OllamaLeaseService, l: Lease)
    reads s.backend
  {
    s.backend.Seen(l)
  }

  method VisitListed(me: Actor, s: OllamaLeaseService)
    returns (r: Result<Option<Lease>, Exception>, ghost v: Visit)
    requires Listed(s)
    modifies s.backend
    ensures Listed(s) && old(s.backend.clock) <= v.at
    ensures r.Success? ==> r.value.Some? && Reported(s, r.value.value) && HeldToDeadlines(r.value.value, v)
    ensures r.Failure? ==> r.error == Crash
  {
    r, v := s.VisitOnce(me);
  }

  ghost predicate AllListed(listed: seq<OllamaLeaseService>)
    reads set i | 0 <= i < |listed| :: listed[i].backend
  {
    forall i :: 0 <= i < |listed| ==> Listed(listed[i])
  }

  predicate Apart(listed: seq<OllamaLeaseService>) {
    forall i, j :: 0 <= i < j < |listed| ==> listed[i].backend != listed[j].backend
  }

  /** The visits of the leases before `k`. */
  ghost predicate Passed(listed: seq<OllamaLeaseService>, k: nat, results: seq<Lease>, visits: seq<Visit>)
    reads set i | 0 <= i < |listed| :: listed[i].backend
  {
    && k <= |listed| && |results| == |visits| == k
    && forall i :: 0 <= i < k ==> Reported(listed[i], results[i]) && HeldToDeadlines(results[i], visits[i])
  }

  /** The visit of the next lease, which leaves every other one alone. */
  method VisitNext(me: Actor, listed: seq<OllamaLeaseService>, results: seq<Lease>, ghost visits: seq<Visit>)
    returns (r: Result<seq<Lease>, Exception>, ghost more: seq<Visit>)
    requires AllListed(listed) && Apart(listed) && |results| < |listed|
    requires Passed(listed, |results|, results, visits)
    modifies listed[|results|].backend
    ensures AllListed(listed)
    ensures r.Success? ==> Passed(listed, |results| + 1, r.value, more)
    ensures r.Success? ==> more[..|results|] == visits && old(listed[|results|].backend.clock) <= more[|results|].at
    ensures r.Failure? ==> r.error == Crash
  {
    var k := |results|;
    var visited;
    ghost var v;
    visited, v := VisitListed(me, listed[k]);
    more := visits + [v];
    r := if visited.Failure? then Failure(visited.error) else Success(results + [visited.value.value]);
  }

  /** One pass over the listed leases: whatever one lease does, only the death of the
      process keeps the pass from visiting every other one; and each visit that raised nothing
      has held its lease to its deadlines. */
  method Reconcile(me: Actor, listed: seq<OllamaLeaseService>)
    returns (r: Result<seq<Lease>, Exception>, ghost visits: seq<Visit>)
    requires AllListed(listed) && Apart(listed)
    modifies set i | 0 <= i < |listed| :: listed[i].backend
    ensures AllListed(listed)
    ensures r.Success? ==> Passed(listed, |listed|, r.value, visits)
    ensures r.Success? ==> forall i :: 0 <= i < |listed| ==> old(listed[i].backend.clock) <= visits[i].at
    ensures r.Failure? ==> r.error == Crash
  {
    var results: seq<Lease> := [];
    visits := [];
    for k := 0 to |listed|
      invariant AllListed(listed) && Passed(listed, k, results, visits)
      invariant forall i :: k <= i < |listed| ==> listed[i].backend.clock == old(listed[i].backend.clock)
      invariant forall i :: 0 <= i < k ==> old(listed[i].backend.clock) <= visits[i].at
    {
      results, visits :- VisitNext(me, listed, results, visits);
    }
    return Success(results), visits;
  }
}
