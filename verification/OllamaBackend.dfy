/** The shared state that the Ollama service works on, for one lease id: the SQLite row
    with its compare-and-set (kestrel_cloud_runpod/ollama_repository.py), the provider
    under the lease's resource name (ollama_provider.py), and the clock. Every operation
    first lets the other callers, the reconcilers and the provider take any steps. */
module OllamaBackend {

  import opened Results
  import opened SpendPlan
  import opened OllamaLeases
  import opened OllamaRuns

  datatype Observation = Observation(ready: bool, route: Option<string>, hasModel: bool)

  class Backend {
    const resourceName: Name
    var row: Option<Lease>
    var cloud: Cloud
    var clock: int
    ghost var worlds: seq<World>
    ghost var events: seq<Event>
    ghost var seen: set<Lease>
    /** Every actor who ever ended the lease although the row it wrote over had not been past what
        its state and its authorization allow. */
    ghost var strays: set<Actor>

    /** The state is the last of a run, and every row ever stored precedes the current one. */
    ghost predicate Valid()
      reads this
    {
      && IsRun(worlds, events) && worlds[|worlds| - 1] == World(row, cloud)
      && Inv(World(row, cloud))
      && AllPast(seen, row)
      && (row.Some? ==> row.value in seen)
      && seen == RowsOf(worlds)
    }

    /** The snapshot was read from the table at some time. */
    ghost predicate Seen(l: Lease)
      reads this
    {
      Stored(l) in seen
    }

    /** Nothing already observed is undone. */
    twostate predicate Onward()
      reads this
    {
      && old(seen) <= seen && old(strays) <= strays && CloudFollows(old(cloud), cloud) && old(clock) <= clock
      && (old(row).Some? ==> row.Some?)
    }

    /** Others took any steps; a permit of this actor stays where it is. */
    twostate predicate Interleaved(me: Actor)
      reads this
    {
      Onward() && StaysOut(me) && (cloud.permit == Admitted(me) <==> old(cloud).permit == Admitted(me))
    }

    /** This actor has ended the lease only when it was due. */
    twostate predicate StaysOut(me: Actor)
      reads this
    {
      me in strays ==> me in old(strays)
    }

    constructor (resourceName: Name)
      ensures Valid() && row == None && cloud == UNUSED && this.resourceName == resourceName
    {
      this.resourceName := resourceName;
      row, cloud, clock := None, UNUSED, 0;
      worlds, events, seen, strays := [UNBORN], [], {}, {};
    }

    method Take(e: Event)
      requires Valid() && Possible(e, World(row, cloud))
      modifies this
      ensures Valid() && Onward() && clock == old(clock)
      ensures World(row, cloud) == After(e, old(World(row, cloud)))
      ensures events == old(events) + [e] && worlds == old(worlds) + [World(row, cloud)]
      ensures seen == old(seen) + if row.Some? then {row.value} else {}
      ensures strays == old(strays) + if Strays(e, old(row), clock) then {e.actor} else {}
    {
      ghost var before := World(row, cloud);
      match e {
        case Inserted(request, at) => row := Some(NewLease(request, at));
        case Written(actor, write) =>
          row := Some(Apply(write, row.value));
          if write.Admit? { cloud := cloud.(permit := Admitted(actor)); }
        case Posting(_) => cloud := cloud.(permit := Posted, creates := cloud.creates + 1);
        case Landed(id) => cloud := cloud.(resource := Some(id));
        case Vanished => cloud := cloud.(gone := true);
      }
      StepFollows(e, before);
      Remember(e, before);
    }

    /** The record of a step that was just taken. */
    ghost method Remember(e: Event, before: World)
      requires IsRun(worlds, events) && worlds[|worlds| - 1] == before && Inv(before) && AllPast(seen, before.row)
      requires seen == RowsOf(worlds) && Possible(e, before) && World(row, cloud) == After(e, before)
      modifies `worlds, `events, `seen, `strays
      ensures Valid() && events == old(events) + [e] && worlds == old(worlds) + [World(row, cloud)]
      ensures seen == old(seen) + if row.Some? then {row.value} else {}
      ensures strays == old(strays) + if Strays(e, before.row, clock) then {e.actor} else {}
    {
      StepKeepsInv(e, before);
      StepFollows(e, before);
      AllPastStays(seen, before, World(row, cloud));
      RunExtends(worlds, events, e);
      RowsExtend(worlds, World(row, cloud));
      events, worlds := events + [e], worlds + [World(row, cloud)];
      if row.Some? { seen := seen + {row.value}; }
      if Strays(e, before.row, clock) { strays := strays + {e.actor}; }
    }

    /** Any number of steps by others. */
    method Interfere(me: Actor)
      requires Valid()
      modifies this
      ensures Valid() && Interleaved(me)
    {
      var steps: int := *;
      for i := 0 to Larger(0, steps)
        invariant Valid() && Interleaved(me)
      {
        var e: Event := *;
        if ByOther(e, me) && Possible(e, World(row, cloud)) { Take(e); }
      }
      var later: int := *;
      clock := Larger(clock, later);
    }

    method Now() returns (at: int)
      requires Valid()
      modifies this`clock
      ensures Valid() && at == clock && old(clock) <= clock
    {
      var later: int := *;
      clock := Larger(clock, later);
      at := clock;
    }

    // ---- The table ----

    method Get(me: Actor) returns (r: Result<Option<Lease>, Exception>)
      requires Valid()
      modifies this
      ensures Valid() && Interleaved(me)
      ensures r.Success? ==> r.value == row && (row.Some? ==> Seen(row.value) && Stored(row.value) == row.value)
      ensures r.Failure? ==> r.error == Crash
    {
      Interfere(me);
      if * { return Failure(Crash); }
      return Success(row);
    }

    /** Inserts the request under a fresh lease id, or returns the row that is there. */
    method InsertRequest(me: Actor, request: LeaseRequest, at: int) returns (r: Result<(Lease, bool), Exception>)
      requires Valid() && ValidLeaseRequest(request) && (row.None? ==> !TooLate(request, at))
      modifies this
      ensures Valid() && Interleaved(me)
      ensures r.Success? ==> row == Some(r.value.0) && Seen(r.value.0) && r.value.0.request == request
      ensures r.Success? && r.value.1 ==> r.value.0 == NewLease(request, at)
      ensures r.Failure? ==> r.error == Crash || (r.error == ConflictError && row.Some? && row.value.request != request)
    {
      Interfere(me);
      if * { return Failure(Crash); }
      var inserted := row.None?;
      if inserted { Take(Inserted(request, at)); }
      if * { return Failure(Crash); }
      if row.value.request != request { return Failure(ConflictError); }
      return Success((row.value, inserted));
    }

    /** One transaction: the columns change only if the row still has the snapshot's
        revision, and then the row is exactly the one the snapshot was read from. */
    method Commit(me: Actor, lease: Lease, write: Write) returns (r: Result<Lease, Exception>)
      requires Valid() && Seen(lease) && Enabled(write, Stored(lease), cloud)
      modifies this
      ensures Valid() && Onward()
      ensures r.Success? <==> old(row) == Some(Stored(lease))
      ensures r.Success? ==> (
        && r.value == Apply(write, Stored(lease)) && row == Some(r.value) && Seen(r.value)
        && cloud == (if write.Admit? then old(cloud).(permit := Admitted(me)) else old(cloud))
        && events == old(events) + [Written(me, write)])
      ensures r.Failure? ==> r.error == ConflictError && row == old(row) && cloud == old(cloud)
      ensures !Ends(write) || WasOverdue(Stored(lease), old(clock)) ==> StaysOut(me)
    {
      if row.value.revision != lease.revision { return Failure(ConflictError); }
      assert row.value == Stored(lease);
      Take(Written(me, write));
      return Success(row.value);
    }

    method CompareAndSet(me: Actor, lease: Lease, write: Write) returns (r: Result<Lease, Exception>)
      requires Valid() && Seen(lease) && Enabled(write, Stored(lease), cloud)
      modifies this
      ensures Valid() && Onward()
      ensures r.Success? ==> r.value == Apply(write, Stored(lease)) && row == Some(r.value) && Seen(r.value)
      ensures r.Success? ==> events != [] && events[|events| - 1] == Written(me, write)
      ensures r.Success? && write.Admit? ==> cloud.permit == Admitted(me)
      ensures r.Failure? ==> r.error == ConflictError || r.error == Crash
      ensures !Ends(write) || WasOverdue(Stored(lease), old(clock)) ==> StaysOut(me)
    {
      ghost var before := cloud;
      Interfere(me);
      if * { return Failure(Crash); }
      EnabledStays(write, Stored(lease), before, cloud);
      if WasOverdue(Stored(lease), old(clock)) { WasOverdueStays(Stored(lease), old(clock), clock); }
      r := Commit(me, lease, write);
      if * { return Failure(Crash); }
    }

    /** The money of a lease that is being made ready, or is, does not depend on which of its rows
        is looked at. */
    lemma SameMoney(l: Lease, m: Lease, now: int)
      requires Valid() && Seen(l) && Seen(m)
      requires Creating(l.state) || l.state == Waiting || l.state == Ready
      requires Creating(m.state) || m.state == Waiting || m.state == Ready
      ensures OverAuthorized(l.cost, now) <==> OverAuthorized(m.cost, now)
    {
      assert RowInv(Stored(l)) && RowInv(Stored(m));
      assert Precedes(Stored(l), row.value) && Precedes(Stored(m), row.value);
      ExposureIgnoresAccrued(l.cost, m.cost, now);
    }

    /** A lease that failed before its create has no rate, and its whole authorization counts as
        committed. */
    lemma FailedIsUnpriced(l: Lease, now: int)
      requires Valid() && Seen(l) && l.state == Failed
      ensures OverAuthorized(l.cost, now)
    {
      assert RowInv(Stored(l));
    }

    // ---- The provider ----

    /** Asks the provider to create the resource. The request may be refused before it is
        sent; once sent, the response may be lost and the resource may still land later. */
    method Provision(me: Actor) returns (r: Result<ResourceId, Exception>)
      requires Valid() && cloud.permit == Admitted(me)
      modifies this
      ensures Valid() && Onward() && StaysOut(me)
      ensures r.Success? ==> cloud.resource == Some(r.value)
      ensures r.Failure? ==> r.error == ManagerError || r.error == Crash
    {
      Interfere(me);
      if * { return Failure(ManagerError); }
      if * { return Failure(Crash); }
      Take(Posting(me));
      if * {
        var id: ResourceId := *;
        Take(Landed(id));
      }
      Interfere(me);
      if * { return Failure(Crash); }
      if cloud.resource.None? { return Failure(ManagerError); }
      if * { return Failure(ManagerError); }
      return Success(cloud.resource.value);
    }

    /** Lists by name. A live resource may be missing from the answer; a resource in the
        answer carries the name, so it is the one the create made. */
    method FindResource(me: Actor) returns (r: Result<Option<ResourceId>, Exception>)
      requires Valid()
      modifies this
      ensures Valid() && Interleaved(me)
      ensures r.Success? && r.value.Some? ==> cloud.resource == r.value
      ensures r.Failure? ==> r.error == ManagerError || r.error == Crash
    {
      Interfere(me);
      if * { return Failure(ManagerError); }
      if * { return Failure(Crash); }
      if * { return Success(None); }
      return Success(cloud.resource);
    }

    method Observe(me: Actor) returns (r: Result<Observation, Exception>)
      requires Valid()
      modifies this
      ensures Valid() && Interleaved(me)
      ensures r.Failure? ==> r.error == ManagerError || r.error == Crash
    {
      Interfere(me);
      if * { return Failure(ManagerError); }
      if * { return Failure(Crash); }
      var observation: Observation := *;
      return Success(observation);
    }

    method PullModel(me: Actor) returns (r: Result<bool, Exception>)
      requires Valid()
      modifies this
      ensures Valid() && Interleaved(me)
      ensures r.Failure? ==> r.error == ManagerError || r.error == Crash
    {
      Interfere(me);
      if * { return Failure(ManagerError); }
      if * { return Failure(Crash); }
      return Success(true);
    }

    /** Requests the deletion and then reads the exact id. Only its absence (404) is
        success; an accepted request, a transport error or a resource still there is not. */
    method Teardown(me: Actor, id: ResourceId) returns (r: Result<bool, Exception>)
      requires Valid() && cloud.resource == Some(id)
      modifies this
      ensures Valid() && Onward() && StaysOut(me)
      ensures r.Success? ==> cloud.gone
      ensures r.Failure? ==> r.error == ManagerError || r.error == Crash
    {
      Interfere(me);
      if * { return Failure(ManagerError); }
      if * { Take(Vanished); }
      Interfere(me);
      if * { return Failure(Crash); }
      if * { return Failure(ManagerError); }
      if !cloud.gone { return Failure(ManagerError); }
      return Success(true);
    }

    /** Plans against the live catalog, at some time during the call. */
    method PlanPlacement(me: Actor, request: LeaseRequest) returns (r: Result<Plan, Exception>)
      requires Valid() && ValidLeaseRequest(request)
      modifies this
      ensures Valid() && Interleaved(me)
      ensures r.Failure? ==> r.error == ManagerError || r.error == Crash
      ensures r.Success? ==> exists at :: old(clock) <= at <= clock && Planned(request.spend, r.value, at)
    {
      Interfere(me);
      if * { return Failure(Crash); }
      var at := Now();
      r := ConsultCatalog(request.spend, at);
    }
  }

  /** The plan is one that planning selects, at this time, in some market. */
  ghost predicate Planned(request: Request, plan: Plan, at: int) {
    exists market, workers ::
      && ValidMarket(market, request) && SelectPlan(request, market, at, workers).Success?
      && SelectPlan(request, market, at, workers).value == plan
  }

  /** The catalog and the policies are any the deployment may meet. */
  method ConsultCatalog(request: Request, at: int) returns (r: Result<Plan, Exception>)
    requires ValidRequest(request)
    ensures r.Failure? ==> r.error == ManagerError
    ensures r.Success? ==> Planned(request, r.value, at)
  {
    var market: Market := *;
    var workers: int := *;
    if !ValidMarket(market, request) || workers < 1 { return Failure(ManagerError); }
    SelectedPlanIsAccepted(request, market, at, workers);
    var plan := SelectPlan(request, market, at, workers);
    if plan.Failure? { return Failure(if plan.error == InvalidPlan then ValueError else ManagerError); }
    PlannedIn(request, market, at, workers);
    return Success(plan.value);
  }

  lemma PlannedIn(request: Request, market: Market, at: int, workers: int)
    requires ValidMarket(market, request) && SelectPlan(request, market, at, workers).Success?
    ensures Planned(request, SelectPlan(request, market, at, workers).value, at)
  {}

  /** The lease was, at some time up to now, past what its state and its authorization allow. */
  ghost predicate WasOverdue(l: Lease, now: int) {
    exists at :: at <= now && Overdue(l, at)
  }

  ghost predicate Strays(e: Event, row: Option<Lease>, now: int) {
    e.Written? && Ends(e.write) && row.Some? && !WasOverdue(row.value, now)
  }

  lemma OverdueByNow(l: Lease, at: int, now: int)
    requires at <= now && Overdue(l, at)
    ensures WasOverdue(l, now) && WasOverdue(Stored(l), now)
  {
    assert Overdue(Stored(l), at);
  }

  lemma WasOverdueStays(l: Lease, now: int, later: int)
    requires WasOverdue(l, now) && now <= later
    ensures WasOverdue(l, later)
  {
    var at :| at <= now && Overdue(l, at);
    assert at <= later && Overdue(l, at);
  }

  lemma EnabledStays(w: Write, l: Lease, c: Cloud, d: Cloud)
    requires Enabled(w, l, c) && CloudFollows(c, d)
    ensures Enabled(w, l, d)
  {}

  predicate ByOther(e: Event, me: Actor) {
    match e
    case Written(actor, _) => actor != me
    case Posting(actor) => actor != me
    case _ => true
  }

  /** Every row that the run ever stored. */
  ghost function RowsOf(worlds: seq<World>): set<Lease> {
    if worlds == [] then {}
    else
      var last := worlds[|worlds| - 1];
      RowsOf(worlds[..|worlds| - 1]) + if last.row.Some? then {last.row.value} else {}
  }

  lemma RowsExtend(worlds: seq<World>, next: World)
    ensures RowsOf(worlds + [next]) == RowsOf(worlds) + if next.row.Some? then {next.row.value} else {}
  {
    assert (worlds + [next])[..|worlds|] == worlds;
  }

  ghost predicate AllPast(seen: set<Lease>, row: Option<Lease>) {
    forall l :: l in seen ==> row.Some? && Precedes(l, row.value) && RowInv(l)
  }

  lemma AllPastStays(seen: set<Lease>, w: World, next: World)
    requires AllPast(seen, w.row) && Follows(w, next) && Inv(next)
    ensures AllPast(seen + if next.row.Some? then {next.row.value} else {}, next.row)
  {
    forall l | l in seen ensures next.row.Some? && Precedes(l, next.row.value) {
      PrecedesIsTransitive(l, w.row.value, next.row.value);
    }
  }

  lemma RunExtends(worlds: seq<World>, events: seq<Event>, e: Event)
    requires IsRun(worlds, events) && Possible(e, worlds[|worlds| - 1])
    ensures IsRun(worlds + [After(e, worlds[|worlds| - 1])], events + [e])
  {}
}
