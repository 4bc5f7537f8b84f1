/** Every interleaving of callers, reconcilers, crashes and the provider over one Ollama
    lease, and what holds throughout. A crash is an actor that takes no further step. */
module OllamaRuns {

  import opened Results
  import opened SpendPlan
  import opened OllamaLeases

  datatype World = World(row: Option<Lease>, cloud: Cloud)

  /** One atomic step: a table transaction, the dispatch of the create, or the provider
      acting on its own (a POST may land at any later time; a resource may disappear). */
  datatype Event =
    | Inserted(request: LeaseRequest, at: int)
    | Written(actor: Actor, write: Write)
    | Posting(actor: Actor)
    | Landed(id: ResourceId)
    | Vanished

  const UNBORN: World := World(None, UNUSED)

  predicate Possible(e: Event, w: World) {
    match e
    case Inserted(request, at) => w.row.None? && ValidLeaseRequest(request) && !TooLate(request, at)
    case Written(_, write) => w.row.Some? && Enabled(write, w.row.value, w.cloud)
    case Posting(actor) => w.cloud.permit == Admitted(actor)
    case Landed(_) => w.cloud.permit == Posted && w.cloud.resource.None?
    case Vanished => w.cloud.resource.Some?
  }

  function After(e: Event, w: World): World
    requires Possible(e, w)
  {
    match e
    case Inserted(request, at) => w.(row := Some(NewLease(request, at)))
    case Written(actor, write) =>
      World(Some(Apply(write, w.row.value)), if write.Admit? then w.cloud.(permit := Admitted(actor)) else w.cloud)
    case Posting(_) => w.(cloud := w.cloud.(permit := Posted, creates := w.cloud.creates + 1))
    case Landed(id) => w.(cloud := w.cloud.(resource := Some(id)))
    case Vanished => w.(cloud := w.cloud.(gone := true))
  }

  predicate IsRun(worlds: seq<World>, events: seq<Event>) {
    && |worlds| == |events| + 1 && worlds[0] == UNBORN
    && forall k :: 0 <= k < |events| ==> Possible(events[k], worlds[k]) && worlds[k + 1] == After(events[k], worlds[k])
  }

  predicate CloudInv(c: Cloud) {
    && c.creates == (if c.permit == Posted then 1 else 0)
    && (c.resource.Some? ==> c.permit == Posted)
    && (c.gone ==> c.resource.Some?)
  }

  /** The deadline is so many seconds after the moment, or the hard one if that is earlier. */
  predicate Due(deadline: int, moment: int, seconds: int, hard: int) {
    && deadline <= moment + seconds * SECOND && deadline <= hard
    && (deadline == moment + seconds * SECOND || deadline == hard)
  }

  /** The teardown column tells how far the end of the lease got, and why it ends is on the row. */
  predicate TeardownFits(l: Lease) {
    && (l.state == Terminated <==> l.teardown == Complete)
    && (l.state == Releasing <==> l.teardown == Pending || l.teardown == RetryableFailure)
    && (l.state == Releasing || l.state == Terminated ==> l.reason.Some?)
    && (l.state == Terminated && l.providerId.Some? ==> 0 < l.teardownAttempts)
  }

  predicate RowInv(l: Lease) {
    && Due(l.idleDeadline, l.lastUsedAt, l.request.idleSeconds, HardDeadline(l))
    && Due(l.readinessDeadline, if l.request.requestedAt.Some? then l.request.requestedAt.value else l.createdAt,
           l.request.readinessSeconds, HardDeadline(l))
    && (l.state == Requested ==>
          l.providerId.None? && l.name.None? && l.readyAt.None? && l.mode == Some(l.request.spend.mode))
    && ValidLeaseRequest(l.request)
    && l.cost.hardDeadline == HardDeadline(l) && l.cost.authorized == l.request.spend.authorized
    && l.attempts == (if l.name.Some? then 1 else 0)
    && (Creating(l.state) || l.state == Waiting || l.state == Ready ==> l.name.Some?)
    && (l.state == Failed ==> l.name.None?) && (l.name.None? ==> l.cost.maximumOverhead.None?)
    && (l.name.Some? ==> l.cost.hourlyRate.Some? && l.cost.startedAt.Some? && l.cost.maximumOverhead.Some?)
    && l.route.None?
    && TeardownFits(l)
    && (l.readyAt.Some? ==> l.cost.startedAt.Some? && l.coldStart == Some(l.readyAt.value - l.cost.startedAt.value))
    && l.createdAt < l.readinessDeadline && l.createdAt + l.request.spend.sessionSeconds * SECOND <= HardDeadline(l)
  }

  /** The row and the provider together: the inductive invariant. */
  predicate Coupled(l: Lease, c: Cloud) {
    && (c.permit == NotAdmitted <==> l.name.None?)
    && (c.permit == NotAdmitted ==> !l.uncertain && l.providerId.None?)
    && (c.permit != NotAdmitted ==> l.state != Requested && l.state != Failed)
    && (c.permit != NotAdmitted ==> (l.uncertain <==> l.providerId.None?))
    && (l.providerId.Some? ==> c.resource == l.providerId)
    && (l.state == Waiting || l.state == Ready ==> l.providerId.Some?)
    && (l.state == Terminated ==> Settled(l, c))
  }

  /** Nothing billable can exist any more: the create was never admitted, or its single
      resource is the one bound to the row and was confirmed absent. */
  predicate Settled(l: Lease, c: Cloud) {
    && !l.uncertain
    && (c.permit == NotAdmitted || (l.providerId.Some? && c.resource == l.providerId && c.gone))
  }

  predicate Inv(w: World) {
    && CloudInv(w.cloud)
    && (w.row.None? ==> w.cloud == UNUSED)
    && (w.row.Some? ==> RowInv(w.row.value) && Coupled(w.row.value, w.cloud))
  }

  lemma WriteKeepsRow(w: Write, l: Lease, c: Cloud)
    requires RowInv(l) && Coupled(l, c) && Enabled(w, l, c)
    ensures RowInv(Apply(w, l))
  {}

  lemma WriteKeepsCoupling(w: Write, l: Lease, c: Cloud)
    requires CloudInv(c) && RowInv(l) && Coupled(l, c) && Enabled(w, l, c)
    ensures forall actor :: w.Admit? ==> Coupled(Apply(w, l), c.(permit := Admitted(actor)))
    ensures !w.Admit? ==> Coupled(Apply(w, l), c)
  {}

  lemma WriteKeepsInv(actor: Actor, write: Write, w: World)
    requires Inv(w) && Possible(Written(actor, write), w)
    ensures Inv(After(Written(actor, write), w))
  {
    WriteKeepsRow(write, w.row.value, w.cloud);
    WriteKeepsCoupling(write, w.row.value, w.cloud);
  }

  lemma StepKeepsInv(e: Event, w: World)
    requires Inv(w) && Possible(e, w)
    ensures Inv(After(e, w))
  {
    match e
    case Written(actor, write) => WriteKeepsInv(actor, write, w);
    case _ =>
  }

  predicate CloudFollows(c: Cloud, d: Cloud) {
    && (c.permit != NotAdmitted ==> d.permit != NotAdmitted)
    && (c.permit == Posted ==> d.permit == Posted)
    && c.creates <= d.creates
    && (c.resource.Some? ==> d.resource == c.resource)
    && (c.gone ==> d.gone)
  }

  /** What an earlier world tells of every later one. */
  predicate Follows(w: World, v: World) {
    && (w.row.Some? ==> v.row.Some? && Precedes(w.row.value, v.row.value))
    && CloudFollows(w.cloud, v.cloud)
  }

  lemma StepFollows(e: Event, w: World)
    requires Inv(w) && Possible(e, w)
    ensures Follows(w, After(e, w))
  {
    if e.Written? { WriteFollows(e.write, w.row.value, w.cloud); }
  }

  lemma {:induction false} RunKeepsInv(worlds: seq<World>, events: seq<Event>, k: nat)
    requires IsRun(worlds, events) && k < |worlds|
    ensures Inv(worlds[k])
  {
    if k > 0 {
      RunKeepsInv(worlds, events, k - 1);
      StepKeepsInv(events[k - 1], worlds[k - 1]);
    }
  }

  lemma {:induction false} RunFollows(worlds: seq<World>, events: seq<Event>, j: nat, k: nat)
    requires IsRun(worlds, events) && j <= k < |worlds|
    ensures Follows(worlds[j], worlds[k])
    decreases k
  {
    if j < k {
      RunFollows(worlds, events, j, k - 1);
      RunKeepsInv(worlds, events, k - 1);
      StepFollows(events[k - 1], worlds[k - 1]);
      if worlds[j].row.Some? {
        PrecedesIsTransitive(worlds[j].row.value, worlds[k - 1].row.value, worlds[k].row.value);
      }
    }
  }

  // ---- What every run keeps ----

  lemma TerminatedStays(e: Event, w: World)
    requires w.row.Some? && w.row.value.state == Terminated && Possible(e, w)
    ensures After(e, w).row == w.row
  {
    if e.Written? { WritesObeyTable(e.write, w.row.value, w.cloud); }
  }

  lemma {:induction false} TerminatedIsFinal(worlds: seq<World>, events: seq<Event>, k: nat, m: nat)
    requires IsRun(worlds, events) && k <= m < |worlds|
    requires worlds[k].row.Some? && worlds[k].row.value.state == Terminated
    ensures worlds[m].row == worlds[k].row
    decreases m
  {
    if k < m {
      TerminatedIsFinal(worlds, events, k, m - 1);
      TerminatedStays(events[m - 1], worlds[m - 1]);
    }
  }

  /** No orphan: a terminated lease never had its create admitted, or the one resource of
      that create was bound to the row and confirmed absent; and so it remains. An uncertain
      create is never ended, whatever deadline has passed or listing came back empty. */
  lemma NoOrphan(worlds: seq<World>, events: seq<Event>, k: nat)
    requires IsRun(worlds, events) && k < |worlds|
    requires worlds[k].row.Some? && worlds[k].row.value.state == Terminated
    ensures forall m :: k <= m < |worlds| ==>
      worlds[m].row == worlds[k].row && Settled(worlds[k].row.value, worlds[m].cloud)
  {
    forall m | k <= m < |worlds|
      ensures worlds[m].row == worlds[k].row && Settled(worlds[k].row.value, worlds[m].cloud)
    {
      TerminatedIsFinal(worlds, events, k, m);
      RunKeepsInv(worlds, events, m);
    }
  }

  function Posts(events: seq<Event>): nat {
    if events == [] then 0 else Posts(events[..|events| - 1]) + (if events[|events| - 1].Posting? then 1 else 0)
  }

  lemma {:induction false} PostsAreCounted(worlds: seq<World>, events: seq<Event>, k: nat)
    requires IsRun(worlds, events) && k < |worlds|
    ensures worlds[k].cloud.creates == Posts(events[..k])
  {
    if k > 0 {
      PostsAreCounted(worlds, events, k - 1);
      assert events[..k][..k - 1] == events[..k - 1];
    }
  }

  /** The row as it must stand before the provider is asked to create anything. */
  predicate DurablyAdmitted(w: World, actor: Actor) {
    && w.row.Some? && w.cloud.permit == Admitted(actor) && w.cloud.creates == 0
    && w.row.value.state == Provisioning && w.row.value.name.Some? && w.row.value.uncertain
    && w.row.value.providerId.None? && w.row.value.cost.startedAt.Some?
  }

  /** A permit in hand was written with the row by the same actor. */
  lemma {:induction false} PermitComesFromRow(worlds: seq<World>, events: seq<Event>, k: nat, actor: Actor)
    requires IsRun(worlds, events) && k < |worlds| && worlds[k].cloud.permit == Admitted(actor)
    ensures exists j :: 0 <= j <= k && DurablyAdmitted(worlds[j], actor)
  {
    RunKeepsInv(worlds, events, k - 1);
    if worlds[k - 1].cloud.permit == Admitted(actor) {
      PermitComesFromRow(worlds, events, k - 1, actor);
    } else {
      assert DurablyAdmitted(worlds[k], actor);
    }
  }

  /** At most one create per lease over the whole run, and only after the row durably
      holds the PROVISIONING state, the resource name and the uncertainty. */
  lemma AtMostOneCreate(worlds: seq<World>, events: seq<Event>)
    requires IsRun(worlds, events)
    ensures Posts(events) <= 1
    ensures forall k :: 0 <= k < |events| && events[k].Posting? ==>
      exists j :: 0 <= j <= k && DurablyAdmitted(worlds[j], events[k].actor)
  {
    assert events[..|events|] == events;
    PostsAreCounted(worlds, events, |events|);
    RunKeepsInv(worlds, events, |events|);
    forall k | 0 <= k < |events| && events[k].Posting?
      ensures exists j :: 0 <= j <= k && DurablyAdmitted(worlds[j], events[k].actor)
    {
      PermitComesFromRow(worlds, events, k, events[k].actor);
    }
  }

  /** Every stored change of state is one the transition table permits. */
  lemma StoredChangesObeyTable(worlds: seq<World>, events: seq<Event>, k: nat)
    requires IsRun(worlds, events) && k < |events|
    ensures worlds[k].row.Some? ==>
      worlds[k + 1].row.Some? && Permitted(worlds[k].row.value.state, worlds[k + 1].row.value.state)
    ensures worlds[k].row.None? && worlds[k + 1].row.Some? ==> worlds[k + 1].row.value.state == Requested
  {
    if events[k].Written? {
      WritesObeyTable(events[k].write, worlds[k].row.value, worlds[k].cloud);
    }
  }

  /** A row keeps its owner, its deadlines, its provider identity and its name, and its
      state never falls back; two rows of one revision are the same row, which is what makes
      a successful compare-and-set a write over exactly the row it was computed from. */
  lemma RowsOnlyAdvance(worlds: seq<World>, events: seq<Event>, j: nat, k: nat)
    requires IsRun(worlds, events) && j <= k < |worlds| && worlds[j].row.Some?
    ensures worlds[k].row.Some? && Precedes(worlds[j].row.value, worlds[k].row.value)
  {
    RunFollows(worlds, events, j, k);
  }

  /** In every world the stored idle deadline is one idle timeout after the lease was last used and
      the stored readiness deadline one readiness timeout after it was asked for, each unless the
      hard deadline comes first. */
  lemma DeadlinesAreTimely(worlds: seq<World>, events: seq<Event>, k: nat)
    requires IsRun(worlds, events) && k < |worlds| && worlds[k].row.Some?
    ensures var l := worlds[k].row.value;
      var hard := l.request.spend.hardDeadline;
      var idle := l.lastUsedAt + l.request.idleSeconds * 1_000_000;
      var asked := if l.request.requestedAt.Some? then l.request.requestedAt.value else l.createdAt;
      var ready := asked + l.request.readinessSeconds * 1_000_000;
      && l.idleDeadline == (if hard < idle then hard else idle)
      && l.readinessDeadline == (if hard < ready then hard else ready)
  {
    RunKeepsInv(worlds, events, k);
  }

  /** Every lease there ever is could be honoured when it was stored: its deadlines were still to
      come and left room for the whole session. */
  lemma LeasesStartInTime(worlds: seq<World>, events: seq<Event>, k: nat)
    requires IsRun(worlds, events) && k < |worlds| && worlds[k].row.Some?
    ensures var l := worlds[k].row.value;
      && l.createdAt < l.readinessDeadline && l.createdAt < l.request.spend.hardDeadline
      && l.createdAt + l.request.spend.sessionSeconds * 1_000_000 <= l.request.spend.hardDeadline
  {
    RunKeepsInv(worlds, events, k);
  }

  /** A lease that ends says so, and why, for ever; one that had a resource was torn down only after
      the attempt was counted. */
  lemma EndingIsOnTheRow(worlds: seq<World>, events: seq<Event>, j: nat, k: nat)
    requires IsRun(worlds, events) && j <= k < |worlds| && worlds[j].row.Some?
    ensures worlds[k].row.Some?
    ensures var l, m := worlds[j].row.value, worlds[k].row.value;
      && (m.state == Terminated <==> m.teardown == Complete)
      && (m.state == Releasing <==> m.teardown == Pending || m.teardown == RetryableFailure)
      && (m.state == Releasing || m.state == Terminated ==> m.reason.Some?)
      && (l.reason.Some? && l.reason.value != "" ==> m.reason == l.reason)
      && (m.state == Terminated && m.providerId.Some? ==> 0 < m.teardownAttempts)
  {
    RunKeepsInv(worlds, events, k);
    RunFollows(worlds, events, j, k);
  }

  /** No create is admitted beyond what was authorized: the plan is in the requested mode, on the
      resource of that mode, at a positive rate within the rate limit, and its ceiling is within
      the authorized cost. */
  lemma AdmittedPlansAreAuthorized(worlds: seq<World>, events: seq<Event>, k: nat)
    requires IsRun(worlds, events) && k < |events| && events[k].Written? && events[k].write.Admit?
    ensures worlds[k].row.Some?
    ensures var r, plan := worlds[k].row.value.request.spend, events[k].write.plan;
      && (if r.mode == Automatic then plan.mode == ServerlessLoadBalancer || plan.mode == DedicatedPod
          else plan.mode == r.mode)
      && (plan.resourceType == Endpoint <==> plan.mode == ServerlessLoadBalancer)
      && 0.0 < plan.placement.hourlyRate
      && (r.maxHourlyRate.Some? ==> plan.placement.hourlyRate <= r.maxHourlyRate.value)
      && plan.estimatedCost <= plan.ceiling <= r.authorized
  {}

  /** The spend bound over a whole run: once a plan made no later than the admission is
      admitted, the committed exposure at any time stays within its ceiling in every later
      world, whatever has been accrued, renewed or retried since. */
  lemma SpendStaysBounded(worlds: seq<World>, events: seq<Event>, k: nat, m: nat, market: Market, plannedAt: int,
    workers: int, now: int)
    requires IsRun(worlds, events) && k < |events| && k + 1 <= m < |worlds|
    requires events[k].Written? && events[k].write.Admit? && worlds[k].row.Some? && worlds[m].row.Some?
    requires ValidMarket(market, worlds[k].row.value.request.spend) && plannedAt <= events[k].write.at
    requires SelectPlan(worlds[k].row.value.request.spend, market, plannedAt, workers) == Success(events[k].write.plan)
    ensures AuthorizedExposure(worlds[m].row.value.cost, now) <= events[k].write.plan.ceiling
    ensures events[k].write.plan.ceiling <= worlds[m].row.value.cost.authorized
  {
    var l, at, plan := worlds[k].row.value, events[k].write.at, events[k].write.plan;
    RunKeepsInv(worlds, events, k);
    RunKeepsInv(worlds, events, m);
    RunFollows(worlds, events, k + 1, m);
    SpendIsBounded(l.request.spend, market, plannedAt, workers, at, l.cost.accrued, now);
    ExposureIgnoresAccrued(Provisioned(l.request.spend, plan, at, l.cost.accrued), worlds[m].row.value.cost, now);
  }

  lemma ExposureIgnoresAccrued(a: LeaseCost, b: LeaseCost, now: int)
    requires SameTerms(a, b) && a.hourlyRate.Some? && a.startedAt.Some?
    ensures AuthorizedExposure(a, now) == AuthorizedExposure(b, now) && a.authorized == b.authorized
  {
    assert b.hourlyRate == a.hourlyRate && b.startedAt == a.startedAt && b.workers == a.workers;
    assert b.gpuCount == a.gpuCount && b.hardDeadline == a.hardDeadline && b.maximumOverhead == a.maximumOverhead;
  }
}
