/** The Ollama lease row, every change the service writes to it, and when it writes each
    (kestrel_cloud_runpod/ollama_service.py, ollama_repository.py). */
module OllamaLeases {

  import opened Results
  import opened SpendPlan

  datatype State =
    | Requested | Provisioning | ReconcileRequired | Waiting | Ready | Failed | Releasing | Terminated

  datatype Teardown = NotRequested | Pending | RetryableFailure | Complete

  type Name = nat

  type ResourceId = nat

  type Actor = nat

  /** Everything a caller asks for. The request stands for its own fingerprint: two
      requests have the same one exactly when they are equal. */
  datatype LeaseRequest = LeaseRequest(
    owner: string, workload: string, model: string, spend: Request,
    idleSeconds: int, readinessSeconds: int, requestedAt: Option<int>)

  /** What the request constructor enforces. */
  predicate ValidLeaseRequest(r: LeaseRequest) {
    && ValidRequest(r.spend) && 0 < r.idleSeconds && 0 < r.readinessSeconds
    && (r.requestedAt.Some? ==> r.requestedAt.value < r.spend.hardDeadline)
  }

  /** One row; `request` holds its fingerprint and the columns copied from the request.
      `route` is attached in host memory only; the table never holds it. */
  datatype Lease = Lease(
    request: LeaseRequest, mode: Option<Mode>,
    resourceType: Option<ResourceType>, name: Option<Name>, providerId: Option<ResourceId>, uncertain: bool,
    attempts: nat, state: State, teardown: Teardown, createdAt: int, readyAt: Option<int>, lastUsedAt: int,
    idleDeadline: int, readinessDeadline: int, pullStartedAt: Option<int>, pullAttempts: nat,
    coldStart: Option<int>, cost: LeaseCost, lastError: Option<string>, reason: Option<string>,
    teardownAttempts: nat, route: Option<string>, revision: nat)

  function HardDeadline(l: Lease): int { l.request.spend.hardDeadline }

  function RenewedIdle(l: Lease, at: int): int { Earlier(at + l.request.idleSeconds * SECOND, HardDeadline(l)) }

  /** The row that a snapshot was read from. */
  function Stored(l: Lease): Lease { l.(route := None) }

  function NewLease(r: LeaseRequest, now: int): Lease {
    var hard := r.spend.hardDeadline;
    var requestedAt := if r.requestedAt.Some? then r.requestedAt.value else now;
    Lease(r, Some(r.spend.mode), None, None, None, false, 0, Requested, NotRequested, now, None, now,
          Earlier(now + r.idleSeconds * SECOND, hard), Earlier(requestedAt + r.readinessSeconds * SECOND, hard),
          None, 0, None,
          LeaseCost(None, None, hard, None, 1, 0.0, r.spend.authorized, None), None, None, 0, None, 0)
  }

  /** A new request that can no longer be honoured at this time. */
  predicate TooLate(r: LeaseRequest, at: int) {
    var requestedAt := if r.requestedAt.Some? then r.requestedAt.value else at;
    || r.spend.hardDeadline <= at
    || r.spend.hardDeadline - at < r.spend.sessionSeconds * SECOND
    || Earlier(requestedAt + r.readinessSeconds * SECOND, r.spend.hardDeadline) <= at
  }

  /** `_ALLOWED_TRANSITIONS`; a transition to the same state is always accepted. */
  predicate Permitted(from: State, to: State) {
    || from == to
    || match from
       case Requested => to == Provisioning || to == Failed || to == Terminated
       case Provisioning => to == ReconcileRequired || to == Waiting || to == Releasing || to == Failed
       case ReconcileRequired => to == Waiting || to == Releasing || to == Failed
       case Waiting => to == Ready || to == Releasing || to == Failed
       case Ready => to == Releasing
       case Releasing => to == Terminated
       case Failed => to == Releasing || to == Terminated
       case Terminated => false
  }

  /** The changes the service passes to the table, one constructor for each call site or
      family of identical call sites. */
  datatype Write =
    | PlanFailed(error: string)
    | Admit(plan: Plan, resourceName: Name, at: int)
    | CreateUnclear(error: string)
    | Bind(id: ResourceId)
    | Resume
    | Note(error: string)
    | NoteAccrued(error: string, accrued: real)
    | Accrue(accrued: real)
    | RouteSeen(accrued: real)
    | Touched(at: int, accrued: real)
    | PullStarted(at: int)
    | BecomeReady(at: int)
    | Abandon(why: string, accrued: real)
    | BeginRelease(why: string, accrued: real)
    | AwaitCreate(error: string)
    | AdoptForRelease(id: ResourceId)
    | CountTeardown
    | TeardownFailed(error: string, accrued: real)
    | Finish(why: string)
    | FinishTorn(why: string, accrued: real)

  /** The state a write moves to through `_transition`; None for a plain update. */
  function Target(w: Write): Option<State> {
    match w
    case PlanFailed(_) => Some(Failed)
    case Admit(_, _, _) => Some(Provisioning)
    case CreateUnclear(_) => Some(ReconcileRequired)
    case Bind(_) => Some(Waiting)
    case Resume => Some(Waiting)
    case BecomeReady(_) => Some(Ready)
    case Abandon(_, _) => Some(Terminated)
    case BeginRelease(_, _) => Some(Releasing)
    case Finish(_) => Some(Terminated)
    case FinishTorn(_, _) => Some(Terminated)
    case _ => None
  }

  function Reason(l: Lease, why: string): Option<string> {
    if l.reason.Some? && l.reason.value != "" then l.reason else Some(why)
  }

  /** The columns a write sets. */
  function Changed(w: Write, l: Lease): Lease {
    match w
    case PlanFailed(error) => l.(state := Failed, lastError := Some(error))
    case Admit(plan, resourceName, at) =>
      l.(state := Provisioning, mode := Some(plan.mode), resourceType := Some(plan.resourceType),
         name := Some(resourceName), uncertain := true, attempts := l.attempts + 1,
         cost := Provisioned(l.request.spend, plan, at, l.cost.accrued))
    case CreateUnclear(error) => l.(state := ReconcileRequired, lastError := Some(error))
    case Bind(id) => l.(state := Waiting, providerId := Some(id), uncertain := false, lastError := None)
    case Resume => l.(state := Waiting, lastError := None)
    case Note(error) => l.(lastError := Some(error))
    case NoteAccrued(error, accrued) => l.(lastError := Some(error), cost := l.cost.(accrued := accrued))
    case Accrue(accrued) => l.(cost := l.cost.(accrued := accrued))
    case RouteSeen(accrued) => l.(cost := l.cost.(accrued := accrued), lastError := None)
    case Touched(at, accrued) =>
      l.(lastUsedAt := at, idleDeadline := RenewedIdle(l, at),
         cost := l.cost.(accrued := accrued))
    case PullStarted(at) =>
      l.(pullStartedAt := if l.pullStartedAt.Some? then l.pullStartedAt else Some(at),
         pullAttempts := l.pullAttempts + 1, lastError := None)
    case BecomeReady(at) =>
      l.(state := Ready, readyAt := Some(at), lastUsedAt := at,
         idleDeadline := RenewedIdle(l, at),
         coldStart := Some(at - (if l.cost.startedAt.Some? then l.cost.startedAt.value else l.createdAt)),
         lastError := None)
    case Abandon(why, accrued) =>
      l.(state := Terminated, teardown := Complete, cost := l.cost.(accrued := accrued), lastError := None,
         reason := Reason(l, why))
    case BeginRelease(why, accrued) =>
      l.(state := Releasing, teardown := Pending, route := None, cost := l.cost.(accrued := accrued),
         lastError := None, reason := Reason(l, why))
    case AwaitCreate(error) => l.(teardown := RetryableFailure, lastError := Some(error))
    case AdoptForRelease(id) => l.(providerId := Some(id), uncertain := false, teardown := Pending, lastError := None)
    case CountTeardown => l.(teardownAttempts := l.teardownAttempts + 1)
    case TeardownFailed(error, accrued) =>
      l.(teardown := RetryableFailure, lastError := Some(error), cost := l.cost.(accrued := accrued))
    case Finish(why) => l.(state := Terminated, teardown := Complete, lastError := None, reason := Reason(l, why))
    case FinishTorn(why, accrued) =>
      l.(state := Terminated, teardown := Complete, lastError := None, cost := l.cost.(accrued := accrued),
         reason := Reason(l, why))
  }

  /** `compare_and_set`: the named columns change and the revision counts up. */
  function Apply(w: Write, l: Lease): Lease {
    Changed(w, l).(revision := l.revision + 1)
  }

  /** What the provider knows of the one resource that may ever carry the lease's name. */
  datatype Permit = NotAdmitted | Admitted(actor: Actor) | Posted

  datatype Cloud = Cloud(permit: Permit, creates: nat, resource: Option<ResourceId>, gone: bool)

  const UNUSED: Cloud := Cloud(NotAdmitted, 0, None, false)

  /** What every call site knows when it writes: facts of the row it read, or of the
      provider that stay true. */
  predicate Enabled(w: Write, l: Lease, c: Cloud) {
    match w
    case PlanFailed(_) => l.state == Requested
    case Admit(plan, _, _) => l.state == Requested && ServiceAccepts(l.request.spend, plan)
    case CreateUnclear(_) => l.state == Provisioning
    case Bind(id) => Creating(l.state) && l.providerId.None? && c.resource == Some(id)
    case Resume => Creating(l.state) && l.providerId.Some?
    case RouteSeen(_) => l.state == Ready
    case Touched(_, _) => l.state == Ready
    case PullStarted(_) => l.state == Waiting
    case BecomeReady(_) => l.state == Waiting
    case Abandon(_, _) => l.state == Requested && l.providerId.None?
    case BeginRelease(_, _) => l.state != Requested && l.state != Releasing && l.state != Terminated
    case AwaitCreate(_) => l.state == Releasing && l.providerId.None?
    case AdoptForRelease(id) => l.state == Releasing && l.providerId.None? && c.resource == Some(id)
    case CountTeardown => l.state == Releasing
    case TeardownFailed(_, _) => l.state == Releasing
    case Finish(_) => l.state == Releasing && l.providerId.None? && !l.uncertain
    case FinishTorn(_, _) => l.state == Releasing && l.providerId.Some? && c.gone && 0 < l.teardownAttempts
    case _ => l.state != Terminated
  }

  predicate Creating(s: State) { s == Provisioning || s == ReconcileRequired }

  /** The writes that decide that the lease is to end. */
  predicate Ends(w: Write) { w.BeginRelease? || w.Abandon? }

  /** The lease has outlived what its state allows at this time. */
  predicate Expired(l: Lease, at: int) {
    || HardDeadline(l) <= at
    || (l.state == Ready && l.idleDeadline <= at)
    || ((l.state == Requested || Creating(l.state) || l.state == Waiting) && l.readinessDeadline <= at)
  }

  /** Its time is over, or its money. */
  predicate Overdue(l: Lease, at: int) { Expired(l, at) || OverAuthorized(l.cost, at) }

  /** No write in use leaves the transition table, so `_transition` never refuses one. */
  lemma WritesObeyTable(w: Write, l: Lease, c: Cloud)
    requires Enabled(w, l, c)
    ensures Permitted(l.state, Apply(w, l).state)
    ensures Apply(w, l).state == (if Target(w).Some? then Target(w).value else l.state)
    ensures l.state != Terminated
  {}

  /** A lease moves through its states in one direction only. */
  function Rank(s: State): nat {
    match s
    case Requested => 0
    case Provisioning => 1
    case ReconcileRequired => 2
    case Waiting => 3
    case Ready => 4
    case Failed => 5
    case Releasing => 6
    case Terminated => 7
  }

  /** The same cost columns, whatever has been accrued. */
  predicate SameTerms(a: LeaseCost, b: LeaseCost) { a.(accrued := 0.0) == b.(accrued := 0.0) }

  /** `later` may follow `l` in the life of one row. */
  predicate Precedes(l: Lease, later: Lease) {
    && l.revision <= later.revision && (l.revision == later.revision ==> l == later)
    && l.request == later.request && l.createdAt == later.createdAt
    && l.readinessDeadline == later.readinessDeadline
    && Rank(l.state) <= Rank(later.state) && (l.state == Terminated ==> l == later)
    && (l.providerId.Some? ==> later.providerId == l.providerId)
    && (l.name.Some? ==> later.name == l.name && SameTerms(l.cost, later.cost))
    && l.attempts <= later.attempts && (l.reason.Some? && l.reason.value != "" ==> later.reason == l.reason)
  }

  lemma PrecedesIsTransitive(a: Lease, b: Lease, c: Lease)
    requires Precedes(a, b) && Precedes(b, c)
    ensures Precedes(a, c)
  {}

  lemma WriteFollows(w: Write, l: Lease, c: Cloud)
    requires Enabled(w, l, c) && (l.state == Requested ==> l.providerId.None? && l.name.None?)
    ensures Precedes(l, Apply(w, l))
  {}
}
