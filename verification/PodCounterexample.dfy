/** Why custody needs serialised operations: runs, possible under full interleaving, that
    release a catalog lease while the Pod of its admitted create is still to come, and that
    stop a Pod which was found running. */
module PodCounterexample {

  import opened Results
  import opened PodLeases
  import opened PodWrites
  import opened PodInvariants
  import opened PodCustody
  import opened PodRuns
  import opened PodGuarantees

  const OWNER: Actor := 1
  const RECONCILER: Actor := 2

  /** The row after the owner admitted its create. */
  function Started(r: PodRequest, at: int): Lease {
    NewLease(r).(state := Starting, uncertain := true, heartbeat := at, revision := 1)
  }

  function Zero(r: PodRequest, at: int): Receipt
    requires ValidRequest(r) && r.spec.Some?
  {
    ZeroCostReceipt(r.token, BeforeCreate, r.spec.value, at)
  }

  /** The reconciler read the row while it was REQUESTED; its write is re-applied over the
      started one. */
  function Stale(r: PodRequest, at: int): Write
    requires ValidRequest(r) && r.spec.Some?
  {
    ToClear(NoCapacity(BeforeCreation, Some(Zero(r, at)), at, at))
  }

  lemma StaleEvidence(r: PodRequest, at: int)
    requires ValidRequest(r) && r.spec.Some? && r.createdAt <= at
    ensures PatchedEvidence(Started(r, at), Patch(Stale(r, at), Started(r, at))).Success?
    ensures PatchedEvidence(Started(r, at), Patch(Stale(r, at), Started(r, at))).value.Some?
  {
    ZeroCostSettlementCanFail(r, BeforeCreate, at);
  }

  lemma OneRowIsUnique(token: Token, l: Lease)
    ensures UniqueActive(map[token := l])
  {}

  function One(r: PodRequest, l: Lease): map<Token, Lease> { map[][r.token := l] }

  function Sky(r: PodRequest): Cloud { CLEAR_SKY.(holder := map[r.token := OWNER]) }

  // The table may hold other leases, as long as they are released.

  predicate AllReleased(rows: map<Token, Lease>) { forall t :: t in rows ==> rows[t].state == Released }

  function Beside(others: map<Token, Lease>, r: PodRequest, l: Lease, c: Cloud): World {
    World(others[r.token := l], c)
  }

  lemma BesideIsUnique(others: map<Token, Lease>, token: Token, l: Lease)
    requires AllReleased(others)
    ensures UniqueActive(others[token := l])
  {}

  lemma ColumnsBeside(actor: Actor, others: map<Token, Lease>, r: PodRequest, l: Lease, c: Cloud, w: Write)
    requires AllReleased(others) && r.spec.None? && l.request == r && Known(w, l, c) && !Admits(w)
    ensures var e := Written(actor, r.token, w);
      && Possible(e, Beside(others, r, l, c))
      && After(e, Beside(others, r, l, c)) == Beside(others, r, Columns(w, l).(revision := l.revision + 1), c)
  {
    BesideIsUnique(others, r.token, Apply(w, l));
    assert others[r.token := l][r.token := Apply(w, l)] == others[r.token := Apply(w, l)];
  }

  lemma ReserveBeside(others: map<Token, Lease>, r: PodRequest)
    requires AllReleased(others) && ValidRequest(r) && r.token !in others && FamilyOpen(others, r)
    ensures Possible(Reserved(r), World(others, CLEAR_SKY))
    ensures After(Reserved(r), World(others, CLEAR_SKY)) == Beside(others, r, NewLease(r), CLEAR_SKY)
  {
    BesideIsUnique(others, r.token, NewLease(r));
  }

  lemma Extend(worlds: seq<World>, events: seq<Event>, last: World, e: Event, next: World)
    requires IsOrderlyRun(worlds, events) && worlds[|worlds| - 1] == last
    requires Possible(e, last) && OrderlyStep(e, last) && After(e, last) == next
    ensures IsOrderlyRun(worlds + [next], events + [e])
  {}

  /** The root that a child needs: a claim, given back before anything else. */
  function RootOf(r: PodRequest): PodRequest {
    PodRequest(r.root, r.root, ConfiguredPersistent, 0, Some(0), r.createdAt, r.readinessDeadline, r.hardDeadline, None)
  }

  function GivenBack(r: PodRequest): Lease {
    AcquisitionColumns(ReleaseUnowned(None, r.createdAt), NewLease(RootOf(r))).(revision := 1)
  }

  /** A run after which the lease can be reserved. */
  lemma RunToRoot(r: PodRequest) returns (others: map<Token, Lease>, worlds: seq<World>, events: seq<Event>)
    requires ValidRequest(r)
    ensures IsOrderlyRun(worlds, events) && worlds[|worlds| - 1] == World(others, CLEAR_SKY)
    ensures AllReleased(others) && r.token !in others && FamilyOpen(others, r)
  {
    others, worlds, events := map[], [NOTHING_YET], [];
    if r.root != r.token {
      var root, giveBack := RootOf(r), ToAcquire(ReleaseUnowned(None, r.createdAt));
      ReserveBeside(map[], root);
      ColumnsBeside(OWNER, map[], root, NewLease(root), CLEAR_SKY, giveBack);
      Extend(worlds, events, NOTHING_YET, Reserved(root), Beside(map[], root, NewLease(root), CLEAR_SKY));
      worlds, events := worlds + [Beside(map[], root, NewLease(root), CLEAR_SKY)], events + [Reserved(root)];
      Extend(worlds, events, Beside(map[], root, NewLease(root), CLEAR_SKY), Written(OWNER, root.token, giveBack),
             Beside(map[], root, GivenBack(r), CLEAR_SKY));
      worlds := worlds + [Beside(map[], root, GivenBack(r), CLEAR_SKY)];
      events := events + [Written(OWNER, root.token, giveBack)];
      others := map[][root.token := GivenBack(r)];
    }
  }

  lemma Reserve(r: PodRequest)
    requires ValidRequest(r) && r.root == r.token
    ensures Possible(Reserved(r), NOTHING_YET)
    ensures After(Reserved(r), NOTHING_YET) == World(One(r, NewLease(r)), CLEAR_SKY)
  {
    OneRowIsUnique(r.token, NewLease(r));
    assert NOTHING_YET.rows[r.token := NewLease(r)] == One(r, NewLease(r));
  }

  lemma UnpatchedApply(w: Write, l: Lease)
    requires l.evidence == Some(NO_EVIDENCE) && l.request.spec.Some? && Patch(w, l) == NO_EVIDENCE
    requires ValidRequest(l.request)
    ensures PatchedEvidence(l, Patch(w, l)) == Success(l.evidence)
  {
    assert Timeline(l.request.createdAt, NO_TIMES)
        == [Some(l.request.createdAt), None, None, None, None, None, None, None, None];
    assert ValidTimes(l.request.createdAt, NO_TIMES);
  }

  lemma Start(others: map<Token, Lease>, r: PodRequest, at: int)
    requires AllReleased(others) && ValidRequest(r) && r.spec.Some?
    ensures var e := Written(OWNER, r.token, ToAcquire(StartCreate(at)));
      && Possible(e, Beside(others, r, NewLease(r), CLEAR_SKY))
      && After(e, Beside(others, r, NewLease(r), CLEAR_SKY)) == Beside(others, r, Started(r, at), Sky(r))
  {
    var w: Write := ToAcquire(StartCreate(at));
    UnpatchedApply(w, NewLease(r));
    assert Apply(w, NewLease(r)) == Started(r, at);
    BesideIsUnique(others, r.token, Started(r, at));
    assert others[r.token := NewLease(r)][r.token := Started(r, at)] == others[r.token := Started(r, at)];
    assert CLEAR_SKY.holder[r.token := OWNER] == Sky(r).holder;
  }

  function Settled(r: PodRequest, at: int): Lease
    requires ValidRequest(r) && r.spec.Some?
  {
    Apply(Stale(r, at), Started(r, at))
  }

  lemma Overwrite(others: map<Token, Lease>, r: PodRequest, at: int, c: Cloud)
    requires AllReleased(others) && ValidRequest(r) && r.spec.Some? && r.createdAt <= at
    ensures var e := Written(RECONCILER, r.token, Stale(r, at));
      && Possible(e, Beside(others, r, Started(r, at), c))
      && After(e, Beside(others, r, Started(r, at), c)) == Beside(others, r, Settled(r, at), c)
    ensures Settled(r, at).state == Releasing && Settled(r, at).receipt.Some? && Settled(r, at).podId.None?
    ensures Settled(r, at).request == r && Settled(r, at).evidence.Some?
  {
    StaleEvidence(r, at);
    BesideIsUnique(others, r.token, Settled(r, at));
    assert others[r.token := Started(r, at)][r.token := Settled(r, at)] == others[r.token := Settled(r, at)];
  }

  /** What the final release needs of the settled row. */
  lemma Release(others: map<Token, Lease>, r: PodRequest, l: Lease, at: int, c: Cloud)
    requires AllReleased(others) && r.spec.Some? && l.request == r && l.state == Releasing && l.receipt.Some?
    requires r.spec.value.attempt in c.revoked && Enabled(ToClear(FinalRelease(at)), l, c)
    ensures var e := Written(RECONCILER, r.token, ToClear(FinalRelease(at)));
      && Possible(e, Beside(others, r, l, c))
      && After(e, Beside(others, r, l, c)) == Beside(others, r, Apply(e.write, l), c)
      && Apply(e.write, l).state == Released && Apply(e.write, l).podId == l.podId
  {
    var released := Apply(ToClear(FinalRelease(at)), l);
    BesideIsUnique(others, r.token, released);
    assert others[r.token := l][r.token := released] == others[r.token := released];
  }

  lemma ReleaseIsEnabled(r: PodRequest, l: Lease, at: int, c: Cloud)
    requires RowInv(l) && r.spec.Some? && l.request == r && l.state == Releasing && l.receipt.Some?
    requires r.spec.value.attempt in c.revoked
    ensures Enabled(ToClear(FinalRelease(at)), l, c)
  {}

  /** Some run ends in this world. */
  ghost predicate Reachable(w: World) {
    exists worlds, events :: IsRun(worlds, events) && worlds[|worlds| - 1] == w
  }

  lemma RunGrows(worlds: seq<World>, events: seq<Event>, e: Event)
    requires IsRun(worlds, events) && Possible(e, worlds[|worlds| - 1])
    ensures IsRun(worlds + [After(e, worlds[|worlds| - 1])], events + [e])
  {}

  lemma Step(w: World, e: Event)
    requires Reachable(w) && Possible(e, w)
    ensures Reachable(After(e, w))
  {
    var worlds, events :| IsRun(worlds, events) && worlds[|worlds| - 1] == w;
    RunGrows(worlds, events, e);
    var longer := worlds + [After(e, w)];
    assert longer[|longer| - 1] == After(e, w);
  }

  lemma ReachableRowIsOk(w: World, t: Token)
    requires Reachable(w) && t in w.rows
    ensures RowOk(t, w.rows[t], w.cloud)
  {
    var worlds, events :| IsRun(worlds, events) && worlds[|worlds| - 1] == w;
    RunKeepsInv(worlds, events, |events|);
  }

  /** Every lease can be reserved in some reachable world. */
  lemma RootIsReachable(r: PodRequest) returns (others: map<Token, Lease>)
    requires ValidRequest(r)
    ensures AllReleased(others) && r.token !in others && FamilyOpen(others, r)
    ensures Reachable(World(others, CLEAR_SKY)) && Reachable(Beside(others, r, NewLease(r), CLEAR_SKY))
  {
    var rows, worlds, events := RunToRoot(r);
    others := rows;
    assert IsRun(worlds, events);
    ReserveBeside(others, r);
    Step(World(others, CLEAR_SKY), Reserved(r));
  }

  function Posted(r: PodRequest): Cloud { Sky(r).(posted := {r.token}) }

  lemma CreateIsSent(others: map<Token, Lease>, r: PodRequest, at: int)
    requires AllReleased(others) && ValidRequest(r) && r.spec.Some?
    requires Reachable(Beside(others, r, NewLease(r), CLEAR_SKY))
    ensures Reachable(Beside(others, r, Started(r, at), Posted(r)))
  {
    Start(others, r, at);
    Step(Beside(others, r, NewLease(r), CLEAR_SKY), Written(OWNER, r.token, ToAcquire(StartCreate(at))));
    Step(Beside(others, r, Started(r, at), Sky(r)), Posting(OWNER, r.token));
    assert {} + {r.token} == {r.token};
  }

  function Revoked(r: PodRequest): Cloud
    requires r.spec.Some?
  {
    Posted(r).(revoked := {r.spec.value.attempt})
  }

  lemma StaleSettlementIsWritten(others: map<Token, Lease>, r: PodRequest, at: int)
    requires AllReleased(others) && ValidRequest(r) && r.spec.Some? && r.createdAt <= at
    requires Reachable(Beside(others, r, NewLease(r), CLEAR_SKY))
    ensures Reachable(Beside(others, r, Settled(r, at), Revoked(r)))
  {
    CreateIsSent(others, r, at);
    Overwrite(others, r, at, Posted(r));
    Step(Beside(others, r, Started(r, at), Posted(r)), Written(RECONCILER, r.token, Stale(r, at)));
    Step(Beside(others, r, Settled(r, at), Posted(r)), Revoking(r.spec.value.attempt));
    assert {} + {r.spec.value.attempt} == {r.spec.value.attempt};
  }

  /** For any catalog request, full interleaving reaches a world where the lease is RELEASED
      with no Pod bound, its create admitted, sent and never rejected, and where the Pod has
      since landed and was never halted. */
  lemma ReleasedBeforeThePodLands(r: PodRequest, at: int, pod: PodId) returns (w: World)
    requires ValidRequest(r) && r.spec.Some? && r.createdAt <= at
    ensures Reachable(w)
    ensures r.token in w.rows && w.rows[r.token].state == Released && w.rows[r.token].podId.None?
    ensures r.token !in w.cloud.rejected && r.token in w.cloud.pods && w.cloud.pods[r.token] == pod
    ensures pod !in w.cloud.halted
  {
    var others := RootIsReachable(r);
    StaleSettlementIsWritten(others, r, at);
    var settled := Settled(r, at);
    Overwrite(others, r, at, Posted(r));
    ReachableRowIsOk(Beside(others, r, settled, Revoked(r)), r.token);
    ReleaseIsEnabled(r, settled, at, Revoked(r));
    Release(others, r, settled, at, Revoked(r));
    var release := Written(RECONCILER, r.token, ToClear(FinalRelease(at)));
    Step(Beside(others, r, settled, Revoked(r)), release);
    w := Land(others, r, Apply(release.write, settled), pod);
  }

  lemma Land(others: map<Token, Lease>, r: PodRequest, l: Lease, pod: PodId) returns (w: World)
    requires r.spec.Some? && Reachable(Beside(others, r, l, Revoked(r)))
    ensures Reachable(w) && w.rows == others[r.token := l]
    ensures r.token !in w.cloud.rejected && r.token in w.cloud.pods && w.cloud.pods[r.token] == pod
    ensures pod !in w.cloud.halted
  {
    Step(Beside(others, r, l, Revoked(r)), Landing(r.token, pod));
    w := After(Landing(r.token, pod), Beside(others, r, l, Revoked(r)));
  }

  // ---- Pods that this service did not create ----

  /** After the claimed Pod was observed. */
  function Looked(r: PodRequest, status: PodStatus): Cloud
    requires r.podId.Some?
  {
    CLEAR_SKY.(answers := {Sighted(r.token, r.podId.value, status)},
               halted := if status == PodStopped then {r.podId.value} else {})
  }

  lemma Look(actor: Actor, rows: map<Token, Lease>, r: PodRequest, status: PodStatus)
    requires r.podId.Some?
    ensures After(Answering(actor, Sighted(r.token, r.podId.value, status)), World(rows, CLEAR_SKY))
         == World(rows, Looked(r, status))
  {
    var s := Sighted(r.token, r.podId.value, status);
    assert CLEAR_SKY.answers + {s} == {s};
    assert CLEAR_SKY.halted + {r.podId.value} == {r.podId.value};
    assert CLEAR_SKY.halted + {} == {};
  }

  function Claimed(r: PodRequest, at: int): Lease {
    AcquisitionColumns(ClaimRunning(None, at), NewLease(r)).(revision := 1)
  }

  /** The Pod is found running and claimed as such. */
  lemma ClaimIsReachable(others: map<Token, Lease>, r: PodRequest, at: int)
    requires AllReleased(others) && ValidRequest(r) && r.source != Created
    requires Reachable(Beside(others, r, NewLease(r), CLEAR_SKY))
    ensures Reachable(Beside(others, r, Claimed(r, at), Looked(r, PodRunning)))
  {
    var look := Answering(OWNER, Sighted(r.token, r.podId.value, PodRunning));
    var c, claim := Looked(r, PodRunning), ToAcquire(ClaimRunning(None, at));
    Look(OWNER, others[r.token := NewLease(r)], r, PodRunning);
    Step(Beside(others, r, NewLease(r), CLEAR_SKY), look);
    ColumnsBeside(OWNER, others, r, NewLease(r), c, claim);
    Step(Beside(others, r, NewLease(r), c), Written(OWNER, r.token, claim));
  }

  /** Under full interleaving the Pod of a claim that found it running can be asked to stop:
      a release that read the row before the claim re-applies its write over it. */
  lemma FoundRunningMayBeStopped(r: PodRequest, at: int) returns (w: World)
    requires ValidRequest(r) && r.source != Created
    ensures Reachable(w) && FoundRunning(w, r.token)
    ensures w.cloud.answers == {Sighted(r.token, r.podId.value, PodRunning)}
    ensures Possible(Stopping(RECONCILER, r.token, r.podId.value), w)
  {
    var others := RootIsReachable(r);
    var c, release := Looked(r, PodRunning), ToClear(BeginRelease(at));
    ClaimIsReachable(others, r, at);
    ColumnsBeside(RECONCILER, others, r, Claimed(r, at), c, release);
    Step(Beside(others, r, Claimed(r, at), c), Written(RECONCILER, r.token, release));
    w := Beside(others, r, Columns(release, Claimed(r, at)).(revision := 2), c);
  }

  function Asked(r: PodRequest, at: int): Lease {
    ActivityColumns(RequestFamily(at), NewLease(r)).(revision := 1)
  }

  function Going(r: PodRequest, at: int): Lease {
    ClearingColumns(BeginRelease(at), Asked(r, at)).(revision := 2)
  }

  function Counted(r: PodRequest, at: int): Lease {
    ClearingColumns(CountStop, Going(r, at)).(revision := 3)
  }

  /** Even with serialised operations, a release of a claim that has not yet looked at its Pod
      asks that Pod to stop, although nobody started it for the lease. */
  lemma ReleaseBeforeDiscoveryStopsThePod(r: PodRequest, at: int) returns (worlds: seq<World>, events: seq<Event>)
    requires ValidRequest(r) && r.source != Created && r.root == r.token
    ensures IsOrderlyRun(worlds, events)
    ensures events == [Reserved(r), Written(OWNER, r.token, ToWork(RequestFamily(at))),
                       Written(OWNER, r.token, ToClear(BeginRelease(at))), Written(OWNER, r.token, ToClear(CountStop)),
                       Stopping(OWNER, r.token, r.podId.value)]
  {
    var asked, last := World(One(r, Asked(r, at)), CLEAR_SKY), World(One(r, Counted(r, at)), CLEAR_SKY);
    worlds, events := RunToAsked(r, at);
    ColumnsBeside(OWNER, map[], r, Asked(r, at), CLEAR_SKY, ToClear(BeginRelease(at)));
    var going := World(One(r, Going(r, at)), CLEAR_SKY);
    Extend(worlds, events, asked, Written(OWNER, r.token, ToClear(BeginRelease(at))), going);
    worlds, events := worlds + [going], events + [Written(OWNER, r.token, ToClear(BeginRelease(at)))];
    ColumnsBeside(OWNER, map[], r, Going(r, at), CLEAR_SKY, ToClear(CountStop));
    Extend(worlds, events, going, Written(OWNER, r.token, ToClear(CountStop)), last);
    worlds, events := worlds + [last], events + [Written(OWNER, r.token, ToClear(CountStop))];
    Extend(worlds, events, last, Stopping(OWNER, r.token, r.podId.value), last);
    worlds, events := worlds + [last], events + [Stopping(OWNER, r.token, r.podId.value)];
  }

  lemma RunToAsked(r: PodRequest, at: int) returns (worlds: seq<World>, events: seq<Event>)
    requires ValidRequest(r) && r.source != Created && r.root == r.token
    ensures IsOrderlyRun(worlds, events) && worlds[|worlds| - 1] == World(One(r, Asked(r, at)), CLEAR_SKY)
    ensures events == [Reserved(r), Written(OWNER, r.token, ToWork(RequestFamily(at)))]
  {
    var first, asked := World(One(r, NewLease(r)), CLEAR_SKY), World(One(r, Asked(r, at)), CLEAR_SKY);
    Reserve(r);
    Extend([NOTHING_YET], [], NOTHING_YET, Reserved(r), first);
    worlds, events := [NOTHING_YET] + [first], [] + [Reserved(r)];
    ColumnsBeside(OWNER, map[], r, NewLease(r), CLEAR_SKY, ToWork(RequestFamily(at)));
    Extend(worlds, events, first, Written(OWNER, r.token, ToWork(RequestFamily(at))), asked);
    worlds, events := worlds + [asked], events + [Written(OWNER, r.token, ToWork(RequestFamily(at)))];
  }

  /** The row of a claim that left REQUESTED, on its way to the stop. */
  function Out(r: PodRequest, w: Write): Lease { Columns(w, NewLease(r)).(revision := 1) }

  function Leaving(r: PodRequest, w: Write): Lease {
    if w.ToClear? && w.d.BeginRelease? then Out(r, w)
    else Columns(ToClear(BeginRelease(0)), Out(r, w)).(revision := 2)
  }

  function Attempted(r: PodRequest, w: Write): Lease {
    Columns(ToClear(CountStop), Leaving(r, w)).(revision := Leaving(r, w).revision + 1)
  }

  lemma ExitIsKnown(r: PodRequest, w: Write)
    requires ValidRequest(r) && r.source != Created && NotFoundRunning(w)
    ensures Known(w, NewLease(r), Sight(r, w)) && !Admits(w) && Orderly(w, NewLease(r), Sight(r, w))
    ensures Out(r, w).request == r && Out(r, w).state !in {Requested, Released} && Out(r, w).ownership == Provisional
    ensures Leaving(r, w).request == r && Leaving(r, w).state == Releasing && Leaving(r, w).ownership == Provisional
    ensures Attempted(r, w).request == r && Attempted(r, w).podId == r.podId
    ensures Attempted(r, w).state == Releasing && Attempted(r, w).ownership == Provisional
  {}

  /** What the exit needs to have been observed. */
  function Sight(r: PodRequest, w: Write): Cloud
    requires r.podId.Some?
  {
    if w.ToAcquire? then Looked(r, PodStopped) else CLEAR_SKY
  }

  /** An orderly run that takes this claim out of REQUESTED by this write and later asks its
      Pod to stop. */
  predicate StopRun(worlds: seq<World>, events: seq<Event>, i: nat, k: nat, r: PodRequest, w: Write) {
    && IsOrderlyRun(worlds, events) && LeavesRequested(worlds, events, i, r.token) && events[i].write == w
    && worlds[i].rows[r.token].request == r
    && i < k < |events| && events[k].Stopping? && events[k].token == r.token
  }

  ghost predicate LeadsToAStop(r: PodRequest, w: Write) {
    exists worlds, events, i, k :: StopRun(worlds, events, i, k, r, w)
  }

  /** A run up to the exit, with the look that it needs. */
  lemma RunToExit(others: map<Token, Lease>, r: PodRequest, w: Write, before: seq<World>, done: seq<Event>)
    returns (worlds: seq<World>, events: seq<Event>)
    requires AllReleased(others) && ValidRequest(r) && r.token !in others && FamilyOpen(others, r)
    requires r.source != Created && NotFoundRunning(w)
    requires IsOrderlyRun(before, done) && before[|before| - 1] == World(others, CLEAR_SKY)
    ensures IsOrderlyRun(worlds, events) && |events| >= 2 && events[|events| - 1] == Written(OWNER, r.token, w)
    ensures worlds[|worlds| - 2] == Beside(others, r, NewLease(r), Sight(r, w))
    ensures worlds[|worlds| - 1] == Beside(others, r, Out(r, w), Sight(r, w))
  {
    var c, born := Sight(r, w), Beside(others, r, NewLease(r), CLEAR_SKY);
    ReserveBeside(others, r);
    Extend(before, done, World(others, CLEAR_SKY), Reserved(r), born);
    worlds, events := before + [born], done + [Reserved(r)];
    if w.ToAcquire? {
      var look := Answering(OWNER, Sighted(r.token, r.podId.value, PodStopped));
      Look(OWNER, born.rows, r, PodStopped);
      Extend(worlds, events, born, look, Beside(others, r, NewLease(r), c));
      worlds, events := worlds + [Beside(others, r, NewLease(r), c)], events + [look];
    }
    ExitIsKnown(r, w);
    ColumnsBeside(OWNER, others, r, NewLease(r), c, w);
    Extend(worlds, events, Beside(others, r, NewLease(r), c), Written(OWNER, r.token, w),
           Beside(others, r, Out(r, w), c));
    worlds, events := worlds + [Beside(others, r, Out(r, w), c)], events + [Written(OWNER, r.token, w)];
  }

  /** The release of a lease that is already leaving, up to the stop. */
  lemma RunToStop(others: map<Token, Lease>, r: PodRequest, w: Write, before: seq<World>, done: seq<Event>)
    returns (worlds: seq<World>, events: seq<Event>)
    requires AllReleased(others) && ValidRequest(r) && r.source != Created && NotFoundRunning(w)
    requires IsOrderlyRun(before, done) && before[|before| - 1] == Beside(others, r, Leaving(r, w), Sight(r, w))
    ensures IsOrderlyRun(worlds, events) && before <= worlds && |events| == |done| + 2
    ensures events == done + [Written(RECONCILER, r.token, ToClear(CountStop)),
                              Stopping(RECONCILER, r.token, r.podId.value)]
  {
    ExitIsKnown(r, w);
    ColumnsBeside(RECONCILER, others, r, Leaving(r, w), Sight(r, w), ToClear(CountStop));
    var last := Beside(others, r, Attempted(r, w), Sight(r, w));
    var count, stop := Written(RECONCILER, r.token, ToClear(CountStop)), Stopping(RECONCILER, r.token, r.podId.value);
    Extend(before, done, Beside(others, r, Leaving(r, w), Sight(r, w)), count, last);
    Extend(before + [last], done + [count], last, stop, last);
    worlds, events := before + [last] + [last], done + [count] + [stop];
  }

  /** From the exit to the release, unless the exit is the release. */
  lemma RunToRelease(others: map<Token, Lease>, r: PodRequest, w: Write, before: seq<World>, done: seq<Event>)
    returns (worlds: seq<World>, events: seq<Event>)
    requires AllReleased(others) && ValidRequest(r) && r.source != Created && NotFoundRunning(w)
    requires IsOrderlyRun(before, done) && before[|before| - 1] == Beside(others, r, Out(r, w), Sight(r, w))
    ensures IsOrderlyRun(worlds, events) && before <= worlds && done <= events
    ensures worlds[|worlds| - 1] == Beside(others, r, Leaving(r, w), Sight(r, w))
  {
    worlds, events := before, done;
    if !w.ToClear? {
      ExitIsKnown(r, w);
      var release := Written(RECONCILER, r.token, ToClear(BeginRelease(0)));
      var last := Beside(others, r, Leaving(r, w), Sight(r, w));
      ColumnsBeside(RECONCILER, others, r, Out(r, w), Sight(r, w), ToClear(BeginRelease(0)));
      Extend(worlds, events, Beside(others, r, Out(r, w), Sight(r, w)), release, last);
      worlds, events := worlds + [last], events + [release];
    }
  }

  /** Every such way out does lead to a stop. */
  lemma ExitCanLeadToAStop(r: PodRequest, w: Write) returns (worlds: seq<World>, events: seq<Event>, i: nat)
    requires ValidRequest(r) && r.source != Created && NotFoundRunning(w)
    ensures |events| > 0 && StopRun(worlds, events, i, |events| - 1, r, w)
  {
    var others, before, done := RunToRoot(r);
    var left, leaving := RunToExit(others, r, w, before, done);
    i := |leaving| - 1;
    ExitIsKnown(r, w);
    worlds, events := RunToRelease(others, r, w, left, leaving);
    worlds, events := RunToStop(others, r, w, worlds, events);
    assert worlds[i] == left[i] && worlds[i + 1] == left[i + 1] && events[i] == leaving[i];
  }

  /** Exactly which ways out of REQUESTED can end in a stop of the claimed Pod. */
  lemma StopIsPossibleExactlyIfNotFoundRunning(r: PodRequest, w: Write)
    requires ValidRequest(r) && r.source != Created
    ensures LeadsToAStop(r, w) <==> NotFoundRunning(w)
  {
    if NotFoundRunning(w) {
      var worlds, events, i := ExitCanLeadToAStop(r, w);
    }
    if LeadsToAStop(r, w) {
      var worlds, events, i, k :| StopRun(worlds, events, i, k, r, w);
      StoppedAfterExit(worlds, events, i, k, r.token);
    }
  }

  // ---- A family release that leaves a bill open ----

  /** The write of a row that stands among released ones. */
  lemma WriteBeside(worlds: seq<World>, events: seq<Event>, others: map<Token, Lease>, r: PodRequest, l: Lease,
    c: Cloud, w: Write)
    requires IsOrderlyRun(worlds, events) && worlds[|worlds| - 1] == Beside(others, r, l, c) && l.request == r
    requires AllReleased(others) && Enabled(w, l, c) && Orderly(w, l, c)
    ensures IsOrderlyRun(worlds + [Beside(others, r, Apply(w, l), CloudAfter(w, l, c, OWNER))],
                         events + [Written(OWNER, r.token, w)])
  {
    BesideIsUnique(others, r.token, Apply(w, l));
    assert others[r.token := l][r.token := Apply(w, l)] == others[r.token := Apply(w, l)];
    Extend(worlds, events, Beside(others, r, l, c), Written(OWNER, r.token, w),
           Beside(others, r, Apply(w, l), CloudAfter(w, l, c, OWNER)));
  }

  /** The same for a write without evidence, of a row that is alone in the table. */
  lemma WriteColumns(worlds: seq<World>, events: seq<Event>, r: PodRequest, l: Lease, c: Cloud, w: Write)
    requires IsOrderlyRun(worlds, events) && worlds[|worlds| - 1] == World(One(r, l), c) && l.request == r
    requires Known(w, l, c) && Orderly(w, l, c) && Patch(w, l) == NO_EVIDENCE
    ensures IsOrderlyRun(worlds + [World(One(r, Apply(w, l)), CloudAfter(w, l, c, OWNER))],
                         events + [Written(OWNER, r.token, w)])
    ensures Apply(w, l) == Columns(w, l).(revision := l.revision + 1)
  {
    RowIsOk(worlds, events, |events|, r.token);
    EmptyPatchSucceeds(l);
    WriteBeside(worlds, events, map[], r, l, c, w);
  }

  function Rated(r: PodRequest, at: int, pod: PodId): Placement
    requires r.spec.Some?
  {
    Placement(pod, r.spec.value.shape, r.spec.value.hourlyRate, at)
  }

  function Binding(r: PodRequest, at: int, pod: PodId): Write
    requires r.spec.Some?
  {
    ToAcquire(BindPod(pod, Some(Rated(r, at, pod)), None, at))
  }

  function BoundTimes(at: int): Times { NO_TIMES.(createAccepted := Some(at)) }

  lemma TimesInOrder(r: PodRequest, at: int)
    requires r.createdAt <= at
    ensures ValidTimes(r.createdAt, BoundTimes(at))
    ensures ValidTimes(r.createdAt, BoundTimes(at).(stopConfirmed := Some(at)))
  {
    assert Timeline(r.createdAt, BoundTimes(at))
        == [Some(r.createdAt), Some(at), None, None, None, None, None, None, None];
    assert Timeline(r.createdAt, BoundTimes(at).(stopConfirmed := Some(at)))
        == [Some(r.createdAt), Some(at), None, None, None, None, None, Some(at), None];
  }

  /** The row with its Pod bound. */
  function Bound(r: PodRequest, at: int, pod: PodId): Lease
    requires r.spec.Some?
  {
    Started(r, at).(podId := Some(pod), ownership := Owned, uncertain := false, revision := 2,
                    evidence := Some(Evidence(BoundTimes(at), Some(Rated(r, at, pod)), None, None)))
  }

  function Landed(r: PodRequest, pod: PodId): Cloud { Posted(r).(pods := map[r.token := pod]) }

  lemma BindingIsEnabled(r: PodRequest, at: int, pod: PodId)
    requires ValidRequest(r) && r.spec.Some? && r.createdAt <= at
    ensures Enabled(Binding(r, at, pod), Started(r, at), Landed(r, pod))
    ensures Orderly(Binding(r, at, pod), Started(r, at), Landed(r, pod))
    ensures Apply(Binding(r, at, pod), Started(r, at)) == Bound(r, at, pod)
  {
    TimesInOrder(r, at);
  }

  /** A run that creates the Pod. */
  lemma RunToLanded(others: map<Token, Lease>, r: PodRequest, at: int, pod: PodId, before: seq<World>, done: seq<Event>)
    returns (worlds: seq<World>, events: seq<Event>)
    requires AllReleased(others) && ValidRequest(r) && r.spec.Some? && r.token !in others && FamilyOpen(others, r)
    requires IsOrderlyRun(before, done) && before[|before| - 1] == World(others, CLEAR_SKY)
    ensures IsOrderlyRun(worlds, events) && worlds[|worlds| - 1] == Beside(others, r, Started(r, at), Landed(r, pod))
    ensures events == done + [Reserved(r), Written(OWNER, r.token, ToAcquire(StartCreate(at))), Posting(OWNER, r.token),
                              Landing(r.token, pod)]
  {
    ReserveBeside(others, r);
    Start(others, r, at);
    var first, started := Beside(others, r, NewLease(r), CLEAR_SKY), Beside(others, r, Started(r, at), Sky(r));
    var sent, landed := started.(cloud := Posted(r)), started.(cloud := Landed(r, pod));
    assert Sky(r).posted + {r.token} == {r.token};
    assert map[][r.token := pod] == map[r.token := pod];
    var start: Event := Written(OWNER, r.token, ToAcquire(StartCreate(at)));
    Extend(before, done, World(others, CLEAR_SKY), Reserved(r), first);
    worlds, events := before + [first], done + [Reserved(r)];
    Extend(worlds, events, first, start, started);
    worlds, events := worlds + [started], events + [start];
    Extend(worlds, events, started, Posting(OWNER, r.token), sent);
    worlds, events := worlds + [sent], events + [Posting(OWNER, r.token)];
    Extend(worlds, events, sent, Landing(r.token, pod), landed);
    worlds, events := worlds + [landed], events + [Landing(r.token, pod)];
  }

  /** A run that creates the Pod and binds it. */
  lemma RunToBound(others: map<Token, Lease>, r: PodRequest, at: int, pod: PodId, before: seq<World>, done: seq<Event>)
    returns (worlds: seq<World>, events: seq<Event>)
    requires AllReleased(others) && ValidRequest(r) && r.spec.Some? && r.token !in others && FamilyOpen(others, r)
    requires IsOrderlyRun(before, done) && before[|before| - 1] == World(others, CLEAR_SKY) && r.createdAt <= at
    ensures IsOrderlyRun(worlds, events) && worlds[|worlds| - 1] == Beside(others, r, Bound(r, at, pod), Landed(r, pod))
    ensures events == done + [Reserved(r), Written(OWNER, r.token, ToAcquire(StartCreate(at))), Posting(OWNER, r.token),
                              Landing(r.token, pod)] + [Written(OWNER, r.token, Binding(r, at, pod))]
  {
    worlds, events := RunToLanded(others, r, at, pod, before, done);
    BindingIsEnabled(r, at, pod);
    WriteBeside(worlds, events, others, r, Started(r, at), Landed(r, pod), Binding(r, at, pod));
    worlds := worlds + [Beside(others, r, Bound(r, at, pod), Landed(r, pod))];
    events := events + [Written(OWNER, r.token, Binding(r, at, pod))];
  }

  /** The row after the family release was requested, the release begun and the stop counted. */
  function Ending(r: PodRequest, at: int, pod: PodId): Lease
    requires r.spec.Some?
  {
    Bound(r, at, pod).(familyRequested := true, state := Releasing, cleanup := Pending, stopAttempts := 1,
                       revision := 5)
  }

  lemma RunToReleasing(r: PodRequest, at: int, pod: PodId, before: seq<World>, done: seq<Event>)
    returns (worlds: seq<World>, events: seq<Event>)
    requires ValidRequest(r) && r.spec.Some? && r.root == r.token
    requires IsOrderlyRun(before, done) && before[|before| - 1] == World(One(r, Bound(r, at, pod)), Landed(r, pod))
    ensures IsOrderlyRun(worlds, events)
    ensures worlds[|worlds| - 1] == World(One(r, Ending(r, at, pod)), Landed(r, pod))
    ensures events == done + [Written(OWNER, r.token, ToWork(RequestFamily(at))),
                              Written(OWNER, r.token, ToClear(BeginRelease(at))),
                              Written(OWNER, r.token, ToClear(CountStop))]
  {
    var c, l := Landed(r, pod), Bound(r, at, pod);
    worlds, events := before, done;
    WriteColumns(worlds, events, r, l, c, ToWork(RequestFamily(at)));
    l := Apply(ToWork(RequestFamily(at)), l);
    worlds, events := worlds + [World(One(r, l), c)], events + [Written(OWNER, r.token, ToWork(RequestFamily(at)))];
    WriteColumns(worlds, events, r, l, c, ToClear(BeginRelease(at)));
    l := Apply(ToClear(BeginRelease(at)), l);
    worlds, events := worlds + [World(One(r, l), c)], events + [Written(OWNER, r.token, ToClear(BeginRelease(at)))];
    WriteColumns(worlds, events, r, l, c, ToClear(CountStop));
    l := Apply(ToClear(CountStop), l);
    worlds, events := worlds + [World(One(r, l), c)], events + [Written(OWNER, r.token, ToClear(CountStop))];
  }

  function Quiet(r: PodRequest, pod: PodId): Cloud { Landed(r, pod).(halted := {pod}) }

  /** The row after the halt was confirmed. */
  function Waiting(r: PodRequest, at: int, pod: PodId): Lease
    requires r.spec.Some?
  {
    Ending(r, at, pod).(cleanup := Complete, terminatedAt := Some(at), revision := 6,
      evidence := Some(Evidence(BoundTimes(at).(stopConfirmed := Some(at)), Some(Rated(r, at, pod)), None, None)))
  }

  lemma HaltIsEnabled(r: PodRequest, at: int, pod: PodId)
    requires ValidRequest(r) && r.spec.Some? && r.createdAt <= at
    ensures var w: Write := ToClear(Halted(pod, true, at));
      && Enabled(w, Ending(r, at, pod), Quiet(r, pod)) && Orderly(w, Ending(r, at, pod), Quiet(r, pod))
      && Apply(w, Ending(r, at, pod)) == Waiting(r, at, pod)
  {
    TimesInOrder(r, at);
  }

  lemma RunToHalted(r: PodRequest, at: int, pod: PodId, before: seq<World>, done: seq<Event>)
    returns (worlds: seq<World>, events: seq<Event>)
    requires ValidRequest(r) && r.spec.Some? && r.root == r.token && r.createdAt <= at
    requires IsOrderlyRun(before, done) && before[|before| - 1] == World(One(r, Ending(r, at, pod)), Landed(r, pod))
    ensures IsOrderlyRun(worlds, events)
    ensures worlds[|worlds| - 1] == World(One(r, Waiting(r, at, pod)), Quiet(r, pod))
    ensures events == done + [Stopping(OWNER, r.token, pod), Halting(pod),
                              Written(OWNER, r.token, ToClear(Halted(pod, true, at)))]
  {
    var asked := World(One(r, Ending(r, at, pod)), Landed(r, pod));
    var quiet := asked.(cloud := Quiet(r, pod));
    var halted: Write := ToClear(Halted(pod, true, at));
    worlds, events := before, done;
    Extend(worlds, events, asked, Stopping(OWNER, r.token, pod), asked);
    worlds, events := worlds + [asked], events + [Stopping(OWNER, r.token, pod)];
    assert Landed(r, pod).halted + {pod} == {pod};
    Extend(worlds, events, asked, Halting(pod), quiet);
    worlds, events := worlds + [quiet], events + [Halting(pod)];
    HaltIsEnabled(r, at, pod);
    WriteBeside(worlds, events, map[], r, Ending(r, at, pod), Quiet(r, pod), halted);
    worlds := worlds + [World(One(r, Waiting(r, at, pod)), Quiet(r, pod))];
    events := events + [Written(OWNER, r.token, halted)];
  }

  /** A run that creates the Pod, binds it, and halts it when its family is released. */
  lemma RunToWaiting(r: PodRequest, at: int, pod: PodId) returns (worlds: seq<World>, events: seq<Event>)
    requires ValidRequest(r) && r.spec.Some? && r.root == r.token && r.createdAt <= at
    ensures IsOrderlyRun(worlds, events)
    ensures worlds[|worlds| - 1] == World(One(r, Waiting(r, at, pod)), Quiet(r, pod))
    ensures events == [Reserved(r), Written(OWNER, r.token, ToAcquire(StartCreate(at))), Posting(OWNER, r.token),
                       Landing(r.token, pod)] + [Written(OWNER, r.token, Binding(r, at, pod))]
                    + [Written(OWNER, r.token, ToWork(RequestFamily(at))),
                       Written(OWNER, r.token, ToClear(BeginRelease(at))), Written(OWNER, r.token, ToClear(CountStop))]
                    + [Stopping(OWNER, r.token, pod), Halting(pod),
                       Written(OWNER, r.token, ToClear(Halted(pod, true, at)))]
  {
    worlds, events := RunToBound(map[], r, at, pod, [NOTHING_YET], []);
    worlds, events := RunToReleasing(r, at, pod, worlds, events);
    worlds, events := RunToHalted(r, at, pod, worlds, events);
  }

  /** A release of the whole family can be complete while its catalog attempt, cleaned up and
      with its Pod halted, is not released: it waits for its bill. */
  lemma FamilyReleaseCanLeaveABillOpen(r: PodRequest, at: int, pod: PodId)
    returns (worlds: seq<World>, events: seq<Event>)
    requires ValidRequest(r) && r.spec.Some? && r.root == r.token && r.createdAt <= at
    ensures IsOrderlyRun(worlds, events)
    ensures events == [Reserved(r), Written(OWNER, r.token, ToAcquire(StartCreate(at))), Posting(OWNER, r.token),
                       Landing(r.token, pod)] + [Written(OWNER, r.token, Binding(r, at, pod))]
                    + [Written(OWNER, r.token, ToWork(RequestFamily(at))),
                       Written(OWNER, r.token, ToClear(BeginRelease(at))), Written(OWNER, r.token, ToClear(CountStop))]
                    + [Stopping(OWNER, r.token, pod), Halting(pod),
                       Written(OWNER, r.token, ToClear(Halted(pod, true, at)))]
                    + [Written(OWNER, r.token, ToWork(CompleteFamily(at)))]
    ensures var w := worlds[|worlds| - 1];
      && r.token in w.rows && w.rows[r.token].familyComplete && Freezing(w, r.token)
      && w.rows[r.token].state != Released && Cleared(w.rows[r.token]) && NothingRuns(w.rows[r.token], w.cloud)
  {
    worlds, events := RunToWaiting(r, at, pod);
    var complete: Write := ToWork(CompleteFamily(at));
    WriteColumns(worlds, events, r, Waiting(r, at, pod), Quiet(r, pod), complete);
    worlds := worlds + [World(One(r, Apply(complete, Waiting(r, at, pod))), Quiet(r, pod))];
    events := events + [Written(OWNER, r.token, complete)];
  }

  // ---- Settlements whose bearer was not revoked ----

  function Claimless(r: PodRequest, at: int): Write
    requires ValidRequest(r) && r.spec.Some?
  {
    ToClear(NoCapacity(BeforeCreation, Some(Zero(r, at)), at, at))
  }

  /** For every catalog request a serialised run settles it without a Pod and gets no further: a
      reconcile pass whose revocation failed. */
  lemma SettlementCanStick(r: PodRequest, at: int) returns (worlds: seq<World>, events: seq<Event>)
    requires ValidRequest(r) && r.spec.Some? && r.createdAt <= at
    ensures IsOrderlyRun(worlds, events) && |events| >= 2
    ensures events[|events| - 2..] == [Reserved(r), Written(OWNER, r.token, Claimless(r, at))]
    ensures var w := worlds[|worlds| - 1];
      r.token in w.rows && forall now :: at < now ==> Stuck(w.rows[r.token], now)
  {
    var others, before, done := RunToRoot(r);
    var first := Beside(others, r, NewLease(r), CLEAR_SKY);
    ReserveBeside(others, r);
    Extend(before, done, World(others, CLEAR_SKY), Reserved(r), first);
    worlds, events := before + [first], done + [Reserved(r)];
    ZeroCostSettlementCanFail(r, BeforeCreate, at);
    WriteBeside(worlds, events, others, r, NewLease(r), CLEAR_SKY, Claimless(r, at));
    worlds := worlds + [Beside(others, r, Apply(Claimless(r, at), NewLease(r)), CLEAR_SKY)];
    events := events + [Written(OWNER, r.token, Claimless(r, at))];
  }

  /** The final bill of a Pod that was halted at once. */
  function Bill(r: PodRequest, at: int, pod: PodId): Receipt
    requires r.spec.Some?
  {
    Receipt(FromProvider(0), Some(pod), at, at, 0, r.spec.value.hourlyRate, 0.0, at)
  }

  lemma BillIsEnabled(r: PodRequest, at: int, pod: PodId)
    requires ValidRequest(r) && r.spec.Some? && r.createdAt <= at
    ensures var w: Write := ToClear(Settle(Bill(r, at, pod)));
      Enabled(w, Waiting(r, at, pod), Quiet(r, pod)) && Orderly(w, Waiting(r, at, pod), Quiet(r, pod))
  {
    var times := BoundTimes(at).(stopConfirmed := Some(at), reconciled := Some(at));
    assert Timeline(r.createdAt, times)
        == [Some(r.createdAt), Some(at), None, None, None, None, None, Some(at), Some(at)];
    assert ValidTimes(r.createdAt, times);
  }

  /** The same for a Pod that was created, halted and billed. */
  lemma SettledPodCanStayUnrevoked(r: PodRequest, at: int, pod: PodId)
    returns (worlds: seq<World>, events: seq<Event>)
    requires ValidRequest(r) && r.spec.Some? && r.root == r.token && r.createdAt <= at
    ensures IsOrderlyRun(worlds, events) && events != []
    ensures events[|events| - 1] == Written(OWNER, r.token, ToClear(Settle(Bill(r, at, pod))))
    ensures var w := worlds[|worlds| - 1];
      && r.token in w.rows && w.rows[r.token].podId == Some(pod) && w.rows[r.token].billing == Authoritative
      && forall now :: at < now ==> Unrevoked(w.rows[r.token], now)
  {
    var settle: Write := ToClear(Settle(Bill(r, at, pod)));
    worlds, events := RunToWaiting(r, at, pod);
    BillIsEnabled(r, at, pod);
    WriteBeside(worlds, events, map[], r, Waiting(r, at, pod), Quiet(r, pod), settle);
    worlds := worlds + [World(One(r, Apply(settle, Waiting(r, at, pod))), Quiet(r, pod))];
    events := events + [Written(OWNER, r.token, settle)];
  }
}
