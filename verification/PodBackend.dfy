/** The shared state that the Pod service works on: the lease table
    (kestrel_cloud_runpod/pod_capacity_repository.py), the provider
    (pod_capacity_provider.py), the capability store, the worker transport and the clock.
    Every operation first lets everything else take any steps; when operations are
    serialised per lease, nothing else writes the lease in hand. */
module PodBackend {

  import opened Results
  import opened PodLeases
  import opened PodWrites
  import opened PodInvariants
  import opened PodCustody
  import opened PodRuns
  import opened PodGuarantees

  datatype PodView = PodView(status: PodStatus, route: Option<string>)

  datatype Creation = Made(id: PodId, realized: Option<Placement>) | Mismatched(id: PodId)

  datatype Found = Found(id: PodId, realized: Option<Placement>)

  /** Every row that a run ever stored. */
  ghost function RowsOf(worlds: seq<World>): set<Lease> {
    if worlds == [] then {} else RowsOf(worlds[..|worlds| - 1]) + worlds[|worlds| - 1].rows.Values
  }

  lemma RowsExtend(worlds: seq<World>, next: World)
    ensures RowsOf(worlds + [next]) == RowsOf(worlds) + next.rows.Values
  {
    assert (worlds + [next])[..|worlds|] == worlds;
  }

  /** A row of the past, seen from the present. */
  predicate Past(l: Lease, rows: map<Token, Lease>) {
    l.request.token in rows && Precedes(l, rows[l.request.token]) && RowInv(l)
  }

  ghost predicate AllPast(seen: set<Lease>, rows: map<Token, Lease>) {
    forall l :: l in seen ==> Past(l, rows)
  }

  predicate ByOther(e: Event, me: Actor, token: Token, serial: bool) {
    match e
    case Reserved(r) => serial ==> r.token != token
    case Written(actor, t, _) => actor != me && (serial ==> t != token)
    case Posting(actor, t) => actor != me && (serial ==> t != token)
    case Rejecting(actor, t) => actor != me && (serial ==> t != token)
    case _ => true
  }

  /** The world is the last of a run, whose steps are orderly if operations are serialised,
      and `seen` is every row of the run. */
  ghost predicate Recorded(serial: bool, worlds: seq<World>, events: seq<Event>, w: World, seen: set<Lease>) {
    && IsRun(worlds, events) && (serial ==> IsOrderlyRun(worlds, events) && InCustody(w))
    && worlds[|worlds| - 1] == w && Inv(w)
    && seen == RowsOf(worlds) && w.rows.Values <= seen && AllPast(seen, w.rows)
  }

  lemma RunExtends(worlds: seq<World>, events: seq<Event>, e: Event)
    requires IsRun(worlds, events) && Possible(e, worlds[|worlds| - 1])
    ensures IsRun(worlds + [After(e, worlds[|worlds| - 1])], events + [e])
    ensures IsOrderlyRun(worlds, events) && OrderlyStep(e, worlds[|worlds| - 1]) ==>
      IsOrderlyRun(worlds + [After(e, worlds[|worlds| - 1])], events + [e])
  {}

  lemma PastRowStays(l: Lease, rows: map<Token, Lease>, later: map<Token, Lease>)
    requires Past(l, rows) && RowsFollow(rows, later)
    ensures Past(l, later)
  {
    PrecedesIsTransitive(l, rows[l.request.token], later[l.request.token]);
  }

  lemma PresentIsPast(t: Token, rows: map<Token, Lease>, c: Cloud)
    requires RowsOk(rows, c) && t in rows
    ensures Past(rows[t], rows)
  {
    assert RowOk(t, rows[t], c);
    RowFollowsItself(rows[t]);
  }

  lemma AllPastStays(seen: set<Lease>, rows: map<Token, Lease>, later: map<Token, Lease>, c: Cloud)
    requires AllPast(seen, rows) && RowsFollow(rows, later) && RowsOk(later, c)
    ensures AllPast(seen + later.Values, later)
  {
    forall l | l in seen + later.Values ensures Past(l, later) {
      if l in seen {
        PastRowStays(l, rows, later);
      } else {
        var t :| t in later && later[t] == l;
        PresentIsPast(t, later, c);
      }
    }
  }

  lemma RecordedStep(serial: bool, worlds: seq<World>, events: seq<Event>, w: World, seen: set<Lease>, e: Event)
    requires Recorded(serial, worlds, events, w, seen) && Possible(e, w) && (serial ==> OrderlyStep(e, w))
    ensures Recorded(serial, worlds + [After(e, w)], events + [e], After(e, w), seen + After(e, w).rows.Values)
    ensures CloudFollows(w.cloud, After(e, w).cloud)
  {
    StepKeepsInv(e, w);
    StepFollows(e, w);
    if serial { StepKeepsCustody(e, w); }
    RunExtends(worlds, events, e);
    RowsExtend(worlds, After(e, w));
    AllPastStays(seen, w.rows, After(e, w).rows, After(e, w).cloud);
  }

  /** All that is remembered of a run. */
  datatype Memory = Memory(serial: bool, seen: set<Lease>, kept: Noticed)

  predicate MemoryGrows(m: Memory, n: Memory) {
    m.serial == n.serial && m.seen <= n.seen && m.kept.frozen <= n.kept.frozen && m.kept.idle <= n.kept.idle
  }

  /** The row says that the lease was cleaned up, and nothing of a serialised catalog lease is
      billing, or ever will. */
  predicate CleanedUpIn(m: Memory, l: Lease) {
    Cleared(l) && (m.serial && Catalog(l) ==> l.request.token in m.kept.idle)
  }

  /** Some row of the lease said that it was cleaned up. */
  ghost predicate DoneIn(m: Memory, token: Token) {
    exists l :: l in m.seen && l.request.token == token && CleanedUpIn(m, l)
  }

  /** The family is frozen and each of its attempts was cleaned up. */
  ghost predicate CleanedOutIn(m: Memory, root: Token) {
    exists f :: f in m.kept.frozen && f.0 == root && forall t :: t in f.1 ==> DoneIn(m, t)
  }

  lemma DoneLasts(m: Memory, n: Memory, token: Token)
    requires DoneIn(m, token) && MemoryGrows(m, n)
    ensures DoneIn(n, token)
  {
    var l :| l in m.seen && l.request.token == token && CleanedUpIn(m, l);
    assert l in n.seen && CleanedUpIn(n, l);
  }

  lemma CleanedOutLasts(m: Memory, n: Memory, root: Token)
    requires CleanedOutIn(m, root) && MemoryGrows(m, n)
    ensures CleanedOutIn(n, root)
  {
    var f :| f in m.kept.frozen && f.0 == root && forall t :: t in f.1 ==> DoneIn(m, t);
    forall t | t in f.1 ensures DoneIn(n, t) { DoneLasts(m, n, t); }
    assert f in n.kept.frozen;
  }

  /** A number that is too large for the verifier to unfold `Sealed` down to its meaning. */
  type Depth = n: nat | 3 < n witness 4

  /** `Recorded` and `StillKept` behind a name. The depth means nothing: at every depth the
      predicate is the same (`SealHides`). A recursive definition is unfolded only a few times,
      so a caller that does not ask for the record is spared all of it. */
  ghost predicate Sealed(depth: nat, serial: bool, worlds: seq<World>, events: seq<Event>, w: World, seen: set<Lease>,
    kept: Noticed)
  {
    if depth == 0 then Recorded(serial, worlds, events, w, seen) && StillKept(kept, w)
    else Sealed(depth - 1, serial, worlds, events, w, seen, kept)
  }

  lemma {:induction false} SealHides(depth: nat, serial: bool, worlds: seq<World>, events: seq<Event>, w: World,
    seen: set<Lease>, kept: Noticed)
    ensures Sealed(depth, serial, worlds, events, w, seen, kept)
      <==> Recorded(serial, worlds, events, w, seen) && StillKept(kept, w)
  {
    if depth > 0 { SealHides(depth - 1, serial, worlds, events, w, seen, kept); }
  }

  /** What was noticed during a run and holds for ever: the families whose release was
      requested, with the members they had then, and the leases of which nothing can bill. */
  datatype Noticed = Noticed(frozen: set<(Token, set<Token>)>, idle: set<Token>)

  predicate StillKept(kept: Noticed, w: World) {
    && (forall f :: f in kept.frozen ==> Freezing(w, f.0) && Family(w.rows, f.0) == f.1)
    && (forall t :: t in kept.idle ==> Idles(w, t))
  }

  lemma KeptStays(kept: Noticed, e: Event, w: World)
    requires StillKept(kept, w) && RowsOk(w.rows, w.cloud) && CloudInv(w.cloud) && Possible(e, w)
    ensures StillKept(kept, After(e, w))
  {
    StepFollows(e, w);
    forall f | f in kept.frozen ensures Freezing(After(e, w), f.0) && Family(After(e, w).rows, f.0) == f.1 {
      FamilyStepStays(e, w, f.0);
    }
    forall t | t in kept.idle ensures Idles(After(e, w), t) { IdleStepStays(e, w, t); }
  }

  lemma SealedStep(depth: nat, serial: bool, worlds: seq<World>, events: seq<Event>, w: World, seen: set<Lease>,
    kept: Noticed, e: Event)
    requires Sealed(depth, serial, worlds, events, w, seen, kept) && Possible(e, w) && (serial ==> OrderlyStep(e, w))
    ensures Sealed(depth, serial, worlds + [After(e, w)], events + [e], After(e, w), seen + After(e, w).rows.Values,
                   kept)
    ensures CloudFollows(w.cloud, After(e, w).cloud)
  {
    SealHides(depth, serial, worlds, events, w, seen, kept);
    RecordedStep(serial, worlds, events, w, seen, e);
    KeptStays(kept, e, w);
    SealHides(depth, serial, worlds + [After(e, w)], events + [e], After(e, w), seen + After(e, w).rows.Values, kept);
  }

  lemma SealedMore(depth: nat, serial: bool, worlds: seq<World>, events: seq<Event>, w: World, seen: set<Lease>,
    kept: Noticed, more: Noticed)
    requires Sealed(depth, serial, worlds, events, w, seen, kept) && StillKept(more, w)
    ensures Sealed(depth, serial, worlds, events, w, seen, more)
  {
    SealHides(depth, serial, worlds, events, w, seen, kept);
    SealHides(depth, serial, worlds, events, w, seen, more);
  }

  class Backend {
    /** One operation at a time on each lease. */
    const serial: bool
    /** How often a retry loop goes round before the process is taken to have died. */
    const retries: nat
    ghost const depth: Depth
    var world: World
    var clock: int
    ghost var worlds: seq<World>
    ghost var events: seq<Event>
    ghost var seen: set<Lease>
    ghost var kept: Noticed

    ghost predicate Valid()
      reads this
    {
      Sealed(depth, serial, worlds, events, world, seen, kept)
    }

    lemma Unsealed()
      requires Valid()
      ensures Recorded(serial, worlds, events, world, seen) && StillKept(kept, world)
    {
      SealHides(depth, serial, worlds, events, world, seen, kept);
    }

    /** The snapshot was read from the table and, when operations are serialised, is still
        what the table holds. */
    ghost predicate Held(l: Lease)
      reads this
    {
      l in seen && (serial ==> l.request.token in world.rows && world.rows[l.request.token] == l)
    }

    /** Every row stored before is remembered, everything noticed, and everything sighted; the
        clock goes on. */
    twostate predicate Grown()
      reads this
    {
      && old(seen) <= seen && Noticing(old(kept)) && old(clock) <= clock
      && old(world).cloud.answers <= world.cloud.answers
    }

    /** Nothing already observed is undone. */
    twostate predicate Onward()
      reads this
    {
      Grown() && CloudFollows(old(world).cloud, world.cloud)
    }

    /** Everything else took any steps: the create admitted for this actor stays unsent, and
        a serialised lease stays as it was. */
    twostate predicate Interleaved(me: Actor, token: Token)
      reads this
    {
      Onward() && Spared(old(world), world, me, token, serial)
    }

    constructor (serial: bool, retries: nat)
      ensures Valid() && world == NOTHING_YET && this.serial == serial
    {
      this.serial, this.retries, this.depth := serial, retries, 4;
      world, clock := NOTHING_YET, 0;
      worlds, events, seen, kept := [NOTHING_YET], [], {}, Noticed({}, {});
      new;
      RowsExtend([], NOTHING_YET);
      assert [] + [NOTHING_YET] == [NOTHING_YET];
      SealHides(depth, serial, worlds, events, world, seen, kept);
    }

    method Take(e: Event)
      requires Valid() && Possible(e, world) && (serial ==> OrderlyStep(e, world))
      modifies this
      ensures Valid() && Onward() && clock == old(clock)
      ensures world == After(e, old(world)) && events == old(events) + [e]
      ensures seen == old(seen) + world.rows.Values && kept == old(kept)
    {
      SealedStep(depth, serial, worlds, events, world, seen, kept, e);
      ghost var after := After(e, world);
      world := After(e, world);
      events, worlds, seen := events + [e], worlds + [after], seen + after.rows.Values;
    }

    /** At most one step by something else. */
    method InterfereOnce(me: Actor, token: Token)
      requires Valid()
      modifies this
      ensures Valid() && Grown() && clock == old(clock)
      ensures CloudFollows(old(world).cloud, world.cloud) && Spared(old(world), world, me, token, serial)
    {
      var e: Event := *;
      if Possible(e, world) && ByOther(e, me, token, serial) && (serial ==> OrderlyStep(e, world)) {
        StepSpares(e, world, me, token, serial);
        Take(e);
      } else {
        CloudFollowsItself(world.cloud);
      }
    }

    /** Any number of steps by everything else. */
    method Interfere(me: Actor, token: Token)
      requires Valid()
      modifies this
      ensures Valid() && Interleaved(me, token)
    {
      var steps: int := *;
      ghost var start := world;
      CloudFollowsItself(world.cloud);
      for i := 0 to if steps < 0 then 0 else steps
        invariant Valid() && Grown() && clock == old(clock)
        invariant CloudFollows(start.cloud, world.cloud) && Spared(start, world, me, token, serial)
      {
        ghost var before := world;
        InterfereOnce(me, token);
        SparedOn(start, before, world, me, token, serial);
        CloudFollowsOn(start.cloud, before.cloud, world.cloud);
      }
      var later: int := *;
      clock := if clock < later then later else clock;
    }

    method Now() returns (at: int)
      requires Valid()
      modifies this`clock
      ensures Valid() && at == clock && old(clock) <= clock
    {
      var later: int := *;
      clock := if clock < later then later else clock;
      at := clock;
    }

    // ---- The table ----

    method Get(me: Actor, token: Token) returns (r: Result<Option<Lease>, Exception>)
      requires Valid()
      modifies this
      ensures Valid() && Interleaved(me, token)
      ensures r.Success? && r.value.Some? ==> Holds(r.value.value, token)
      ensures r.Success? && r.value.None? ==> token !in world.rows
      ensures r.Failure? ==> r.error == Crash
    {
      Interfere(me, token);
      if * { return Failure(Crash); }
      if token !in world.rows { return Success(None); }
      RowIsHeld(token);
      return Success(Some(world.rows[token]));
    }

    /** The lease is the table's current row of this token. */
    ghost predicate Holds(l: Lease, token: Token)
      reads this
    {
      l.request.token == token && token in world.rows && world.rows[token] == l && Held(l)
    }

    ghost predicate Stores(token: Token)
      reads this
    {
      token in world.rows
    }

    lemma RowIsHeld(token: Token)
      requires Valid() && token in world.rows
      ensures Holds(world.rows[token], token)
    {
      Unsealed();
      assert RowOk(token, world.rows[token], world.cloud);
      assert world.rows[token] in world.rows.Values;
    }

    /** Claims the token before any provider operation, or returns the row it already has.
        A child attempt needs its persisted root, not yet being released; another active
        lease on the name, the Pod or the family is a conflict. */
    method Reserve(me: Actor, request: PodRequest) returns (r: Result<(Lease, bool), Exception>)
      requires Valid() && ValidRequest(request)
      modifies this
      ensures Valid() && Grown()
      ensures r.Success? ==> Holds(r.value.0, request.token) && r.value.0.request == request
      ensures r.Success? && r.value.1 ==> r.value.0 == NewLease(request)
      ensures r.Failure? ==> r.error == ConflictError || r.error == Crash
    {
      Interfere(me, request.token);
      if * { return Failure(Crash); }
      if !FamilyOpen(world.rows, request) { return Failure(ConflictError); }
      var inserted := request.token !in world.rows && UniqueActive(world.rows[request.token := NewLease(request)]);
      if inserted {
        Take(Reserved(request));
        if * { return Failure(Crash); }
      }
      if request.token !in world.rows { return Failure(ConflictError); }
      RowIsHeld(request.token);
      if world.rows[request.token].request != request { return Failure(ConflictError); }
      return Success((world.rows[request.token], inserted));
    }

    /** One transaction: the columns change only if the row still has the snapshot's
        revision, and then the row is exactly the snapshot; and only if the three unique
        indexes still hold. */
    method Commit(me: Actor, lease: Lease, write: Write) returns (r: Result<Lease, Exception>)
      requires Valid() && Held(lease) && MayWrite(serial, write, lease, world.cloud)
      modifies this
      ensures Valid() && Grown()
      ensures var t := lease.request.token;
        && t in old(world).rows
        && (r.Success? <==> old(world).rows[t] == lease && UniqueActive(old(world).rows[t := Apply(write, lease)]))
      ensures r.Success? ==> r.value == Apply(write, lease) && Holds(r.value, lease.request.token)
      ensures r.Failure? ==> r.error == ConflictError && world == old(world) && seen == old(seen)
      ensures Admits(write) && r.Success? ==>
        world.cloud == old(world).cloud.(holder := old(world).cloud.holder[lease.request.token := me])
      ensures !Admits(write) ==> world.cloud == old(world).cloud
    {
      var token := lease.request.token;
      SnapshotFacts(lease);
      if world.rows[token].revision != lease.revision { return Failure(ConflictError); }
      if !UniqueActive(world.rows[token := Apply(write, lease)]) { return Failure(ConflictError); }
      ghost var before := world;
      Take(Written(me, token, write));
      RowIsHeld(token);
      return Success(world.rows[token]);
    }

    lemma SnapshotFacts(l: Lease)
      requires Valid() && l in seen
      ensures RowInv(l) && l.request.token in world.rows && Precedes(l, world.rows[l.request.token])
    {
      Unsealed();
      assert Past(l, world.rows);
    }

    /** Everything else may act before the transaction; what the caller knows stays true. */
    method AwaitTransaction(me: Actor, lease: Lease, write: Write)
      requires Valid() && Held(lease) && MayWrite(serial, write, lease, world.cloud)
      modifies this
      ensures Valid() && Held(lease) && MayWrite(serial, write, lease, world.cloud)
      ensures Grown() && CloudFollows(old(world).cloud, world.cloud)
    {
      ghost var before := world.cloud;
      Interfere(me, lease.request.token);
      MayWriteStays(serial, write, lease, before, world.cloud);
    }

    /** Two rows of one token carry the same request. */
    lemma SameRequest(l: Lease, m: Lease)
      requires Valid() && l in seen && m in seen && l.request.token == m.request.token
      ensures l.request == m.request
    {
      SnapshotFacts(l);
      SnapshotFacts(m);
    }

    /** A serialised lease is in custody. */
    lemma HeldInCustody(l: Lease)
      requires Valid() && Held(l) && serial
      ensures Custody(l, world.cloud)
    {
      Unsealed();
      assert InCustody(world);
    }

    /** The row just written follows every row it was computed after. */
    lemma Follows(l: Lease, m: Lease, n: Lease)
      requires Valid() && m in seen && n in seen && Precedes(l, m) && m.request == n.request && n.revision > m.revision
      requires m.request.token in world.rows && world.rows[m.request.token] == n
      ensures Precedes(l, n)
    {
      SnapshotFacts(m);
      PrecedesIsTransitive(l, m, n);
    }

    method CompareAndSet(me: Actor, lease: Lease, write: Write) returns (r: Result<Lease, Exception>)
      requires Valid() && Held(lease) && MayWrite(serial, write, lease, world.cloud) && !Admits(write)
      modifies this
      ensures Valid() && Grown() && CloudFollows(old(world).cloud, world.cloud)
      ensures r.Success? ==> r.value == Apply(write, lease) && Holds(r.value, lease.request.token)
      ensures r.Failure? ==> r.error == ConflictError || r.error == Crash
      ensures r.Failure? && r.error == ConflictError ==> Held(lease)
    {
      AwaitTransaction(me, lease, write);
      if * { return Failure(Crash); }
      r := Commit(me, lease, write);
      if * { return Failure(Crash); }
    }

    /** The compare-and-set that admits the create of a created lease. */
    method AdmitCreate(me: Actor, lease: Lease, at: int) returns (r: Result<Lease, Exception>)
      requires Valid() && Held(lease) && Enabled(ToAcquire(StartCreate(at)), lease, world.cloud)
      modifies this
      ensures Valid() && Grown()
      ensures r.Success? ==> (
        && r.value == Apply(ToAcquire(StartCreate(at)), lease) && Holds(r.value, lease.request.token)
        && Permitted(me, lease.request.token))
      ensures r.Failure? ==> r.error == ConflictError || r.error == Crash
    {
      ghost var before := world.cloud;
      Interfere(me, lease.request.token);
      if * { return Failure(Crash); }
      KnownStays(ToAcquire(StartCreate(at)), lease, before, world.cloud);
      CurrentIsUnadmitted(lease);
      r := Commit(me, lease, ToAcquire(StartCreate(at)));
      if * { return Failure(Crash); }
    }

    /** The create of this lease is admitted for this actor and not yet sent or refused. */
    ghost predicate Permitted(me: Actor, token: Token)
      reads this
    {
      && token in world.cloud.holder && world.cloud.holder[token] == me
      && token !in world.cloud.posted && token !in world.cloud.rejected
    }

    /** If the row is still this requested one, nobody was admitted to create for it. */
    lemma CurrentIsUnadmitted(l: Lease)
      requires Valid() && l in seen && l.state == Requested
      ensures l.request.token in world.rows && (world.rows[l.request.token] == l ==>
        l.request.token !in world.cloud.holder && l.request.token !in world.cloud.posted
        && l.request.token !in world.cloud.rejected)
    {
      SnapshotFacts(l);
      Unsealed();
      assert RowOk(l.request.token, world.rows[l.request.token], world.cloud);
    }

    // ---- Leases that cannot bill ----

    /** Nothing of this lease is billing, or ever will. */
    ghost predicate Idle(token: Token)
      reads this
    {
      token in kept.idle
    }

    ghost predicate CleanedUp(l: Lease)
      reads this
    {
      CleanedUpIn(Recall(), l)
    }

    ghost function Recall(): Memory
      reads this
    {
      Memory(serial, seen, kept)
    }

    /** Nothing noticed earlier was forgotten. */
    ghost predicate Noticing(before: Noticed)
      reads this
    {
      before.frozen <= kept.frozen && before.idle <= kept.idle
    }

    ghost predicate Has(token: Token, l: Lease)
      reads this
    {
      token in world.rows && world.rows[token] == l
    }

    lemma Remembered()
      requires Valid()
      ensures StillKept(kept, world)
    {
      SealHides(depth, serial, worlds, events, world, seen, kept);
    }

    lemma IdleMeans(token: Token)
      requires Valid() && Idle(token)
      ensures Idles(world, token)
    {
      Remembered();
    }

    lemma ClearedIdles(l: Lease)
      requires Valid() && l in seen && Cleared(l) && (l.state == Released || Held(l)) && serial && Catalog(l)
      ensures Idles(world, l.request.token)
    {
      SnapshotFacts(l);
      CurrentInCustody(l.request.token);
    }

    lemma CurrentInCustody(token: Token)
      requires Valid() && serial && token in world.rows
      ensures Custody(world.rows[token], world.cloud) && world.rows[token].request.token == token
    {
      Unsealed();
      assert RowOk(token, world.rows[token], world.cloud);
    }

    /** A serialised catalog lease that was cleaned up is remembered as idle. */
    ghost method NoteCleared(l: Lease)
      requires Valid() && l in seen && Cleared(l) && (l.state == Released || Held(l))
      modifies this`kept
      ensures Valid() && Noticing(old(kept))
      ensures serial && Catalog(l) ==> Idle(l.request.token)
    {
      if serial && Catalog(l) {
        ClearedIdles(l);
        Remembered();
        ghost var more := kept.(idle := kept.idle + {l.request.token});
        SealedMore(depth, serial, worlds, events, world, seen, kept, more);
        kept := more;
      }
    }

    /** A released catalog lease has its receipt, and its bearer was revoked. */
    lemma ReleasedFacts(l: Lease)
      requires Valid() && l in seen && Catalog(l) && l.state == Released
      ensures l.receipt.Some? && l.request.spec.value.attempt in world.cloud.revoked
    {
      SnapshotFacts(l);
      Unsealed();
      assert RowOk(l.request.token, world.rows[l.request.token], world.cloud);
    }

    // ---- Families ----

    /** The release of this family was requested while it had the recorded members. */
    ghost predicate IsFrozen(root: Token)
      reads this
    {
      exists f :: f in kept.frozen && f.0 == root
    }

    /** Remembers that a family is frozen, and who belongs to it. */
    ghost method Freeze(root: Token)
      requires Valid() && Freezing(world, root)
      modifies this`kept
      ensures Valid() && Noticing(old(kept)) && IsFrozen(root)
    {
      Remembered();
      ghost var more := kept.(frozen := kept.frozen + {(root, Family(world.rows, root))});
      SealedMore(depth, serial, worlds, events, world, seen, kept, more);
      kept := more;
      assert (root, Family(world.rows, root)) in kept.frozen;
    }

    ghost predicate AllSeen(leases: seq<Lease>)
      reads this
    {
      forall l :: l in leases ==> l in seen
    }

    ghost predicate Done(token: Token)
      reads this
    {
      DoneIn(Recall(), token)
    }

    ghost predicate AllDone(leases: seq<Lease>)
      reads this
    {
      forall l :: l in leases ==> Done(l.request.token)
    }

    ghost predicate CleanedOut(root: Token)
      reads this
    {
      CleanedOutIn(Recall(), root)
    }

    /** What that means for the rows of the family as they are now: a training attempt is
        released, and a catalog attempt was cleaned up; if serialised, each was let go. */
    ghost predicate Emptied(root: Token)
      reads this
    {
      && Freezing(world, root)
      && forall t :: t in Family(world.rows, root) ==>
           && Done(t) && (Catalog(world.rows[t]) || world.rows[t].state == Released)
           && (serial ==> LetGo(world.rows[t], world.cloud))
    }

    /** Nothing that the lease of this token is answerable for can be billing now. */
    ghost predicate IsLetGo(token: Token)
      reads this
    {
      token in world.rows && LetGo(world.rows[token], world.cloud)
    }

    lemma DoneMeans(t: Token)
      requires Valid() && Done(t) && t in world.rows
      ensures Catalog(world.rows[t]) || world.rows[t].state == Released
      ensures serial ==> LetGo(world.rows[t], world.cloud)
    {
      ghost var m := Recall();
      var l :| l in m.seen && l.request.token == t && CleanedUpIn(m, l);
      SnapshotFacts(l);
      if serial && Catalog(l) {
        IdleMeans(t);
      } else if serial {
        CurrentInCustody(t);
        ClearedMeansLetGo(world.rows[t], world.cloud);
      }
    }

    lemma AllDoneMeans(leases: seq<Lease>)
      requires Valid() && AllDone(leases) && AllSeen(leases) && serial
      ensures forall l :: l in leases ==> IsLetGo(l.request.token)
    {
      forall l | l in leases ensures IsLetGo(l.request.token) {
        SnapshotFacts(l);
        DoneMeans(l.request.token);
      }
    }

    /** A serialised lease that is held, and was cleaned up, was let go. */
    lemma HeldMeansLetGo(l: Lease)
      requires Valid() && Held(l) && Cleared(l) && serial
      ensures LetGo(l, world.cloud)
    {
      HeldInCustody(l);
      ClearedMeansLetGo(l, world.cloud);
    }

    lemma CleanedOutIsEmptied(root: Token)
      requires Valid() && CleanedOut(root)
      ensures Emptied(root)
    {
      Remembered();
      var f :| f in kept.frozen && f.0 == root && forall t :: t in f.1 ==> Done(t);
      forall t | t in Family(world.rows, root)
        ensures Catalog(world.rows[t]) || world.rows[t].state == Released
        ensures serial ==> LetGo(world.rows[t], world.cloud)
      {
        DoneMeans(t);
      }
    }

    lemma FrozenRoot(root: Token)
      requires Valid() && IsFrozen(root)
      ensures Freezing(world, root)
    {
      Remembered();
    }

    /** The members of a frozen family are those that were recorded. */
    lemma FrozenFamily(root: Token)
      requires Valid() && IsFrozen(root)
      ensures (root, Family(world.rows, root)) in kept.frozen
    {
      Remembered();
    }

    /** `list_cleanup_family`, in no particular order. */
    method ListFamily(me: Actor, root: Token) returns (r: Result<seq<Lease>, Exception>)
      requires Valid()
      modifies this
      ensures Valid() && Grown()
      ensures r.Success? ==> AllSeen(r.value) && Names(r.value, Family(world.rows, root))
      ensures r.Failure? ==> r.error == Crash
    {
      Interfere(me, root);
      if * { return Failure(Crash); }
      Unsealed();
      forall t | t in world.rows ensures world.rows[t].request.token == t {
        assert RowOk(t, world.rows[t], world.cloud);
      }
      var leases := RowsNamed(world.rows, Family(world.rows, root));
      return Success(leases);
    }

    // ---- The provider ----

    /** The provider receives the create, and the Pod may land at once. */
    method SendCreate(me: Actor, token: Token)
      requires Valid() && Permitted(me, token)
      modifies this
      ensures Valid() && Grown() && world.rows == old(world).rows && clock == old(clock)
      ensures CloudFollows(old(world).cloud, world.cloud) && token !in world.cloud.rejected
      ensures token in world.cloud.holder && world.cloud.holder[token] == me
    {
      Unsealed();
      Take(Posting(me, token));
      if * {
        var id: PodId := *;
        Take(Landing(token, id));
      }
    }

    /** What the provider answers, or that no answer comes. */
    method AnswerCreate(me: Actor, token: Token) returns (r: Result<Creation, Exception>)
      requires Valid() && token in world.cloud.holder && world.cloud.holder[token] == me
      modifies this
      ensures Valid() && Grown() && world.rows == old(world).rows && clock == old(clock)
      ensures CloudFollows(old(world).cloud, world.cloud)
      ensures r.Success? ==> token in world.cloud.pods && world.cloud.pods[token] == r.value.id
      ensures r.Failure? ==> r.error in {ManagerError, AmbiguousError, Interrupted}
      ensures r.Failure? && r.error == ManagerError ==> token in world.cloud.rejected
    {
      CloudFollowsItself(world.cloud);
      if * { return Failure(AmbiguousError); }
      if * { return Failure(Interrupted); }
      if token in world.cloud.pods {
        if * { return Success(Mismatched(world.cloud.pods[token])); }
        var realized: Option<Placement> := *;
        return Success(Made(world.cloud.pods[token], realized));
      }
      Take(Rejecting(me, token));
      return Failure(ManagerError);
    }

    /** Asks the provider to create the Pod. Only a definite refusal says that no Pod can
        come of it; an ambiguous answer or an interruption leaves that open. */
    method CreatePod(me: Actor, token: Token) returns (r: Result<Creation, Exception>)
      requires Valid() && Permitted(me, token)
      modifies this
      ensures Valid() && Grown() && CloudFollows(old(world).cloud, world.cloud)
      ensures serial ==> SameRow(token, old(world).rows, world.rows)
      ensures r.Success? ==> token in world.cloud.pods && world.cloud.pods[token] == r.value.id
      ensures r.Failure? ==> r.error in {ManagerError, AmbiguousError, Interrupted, Crash}
      ensures r.Failure? && r.error == ManagerError ==> token in world.cloud.rejected
    {
      ghost var start := world;
      Interfere(me, token);
      if * { return Failure(Crash); }
      ghost var middle := world;
      if * {
        SendCreate(me, token);
        CloudFollowsOn(start.cloud, middle.cloud, world.cloud);
      }
      middle := world;
      r := AnswerCreate(me, token);
      CloudFollowsOn(start.cloud, middle.cloud, world.cloud);
    }

    /** Lists by durable name. A live Pod may be missing from the answer; a Pod in the answer
        carries the lease's name, so it is the one its create made. */
    method FindPod(me: Actor, token: Token) returns (r: Result<Option<Found>, Exception>)
      requires Valid()
      modifies this
      ensures Valid() && Interleaved(me, token)
      ensures r.Success? && r.value.Some? ==> token in world.cloud.pods && world.cloud.pods[token] == r.value.value.id
      ensures r.Failure? ==> r.error in {ManagerError, Crash}
    {
      Interfere(me, token);
      if * { return Failure(Crash); }
      if * { return Failure(ManagerError); }
      if token !in world.cloud.pods { return Success(None); }
      if * { return Success(None); }
      var realized: Option<Placement> := *;
      return Success(Some(Found(world.cloud.pods[token], realized)));
    }

    /** Observes a Pod, which is remembered; one that is reported stopped is not billing. */
    method ObservePod(me: Actor, token: Token, id: PodId) returns (r: Result<PodView, Exception>)
      requires Valid()
      modifies this
      ensures Valid() && Interleaved(me, token)
      ensures r.Success? ==> Sighted(token, id, r.value.status) in world.cloud.answers
      ensures r.Success? && r.value.status == PodStopped ==> id in world.cloud.halted
      ensures r.Failure? ==> r.error in {ManagerError, Interrupted, Crash}
    {
      Interfere(me, token);
      if * { return Failure(Crash); }
      if * { return Failure(Interrupted); }
      if * { return Failure(ManagerError); }
      var view: PodView := *;
      var look := Answering(me, Sighted(token, id, view.status));
      StepSpares(look, world, me, token, serial);
      Take(look);
      return Success(view);
    }

    /** Stop or terminate the Pod that the lease holds; true only when the provider confirms a
        non-billing state or the absence (404) of the exact id. */
    method StopPod(me: Actor, lease: Lease) returns (r: Result<bool, Exception>)
      requires Valid() && Held(lease) && lease.podId.Some? && 0 < lease.stopAttempts
      requires serial ==> lease.state == Releasing && lease.ownership != PreexistingRunning
      modifies this
      ensures Valid() && Grown() && Held(lease)
      ensures r.Success? && r.value ==> lease.podId.value in world.cloud.halted
      ensures r.Failure? ==> r.error in {ManagerError, Crash}
    {
      var token, id := lease.request.token, lease.podId.value;
      Interfere(me, token);
      if * { return Failure(Crash); }
      SnapshotFacts(lease);
      Take(Stopping(me, token, id));
      if * { return Failure(ManagerError); }
      if * { return Success(false); }
      Take(Halting(id));
      return Success(true);
    }

    /** The final bill, once there is one, dated when it was observed. */
    method FinalBilling(me: Actor, token: Token) returns (r: Result<Option<Receipt>, Exception>)
      requires Valid()
      modifies this
      ensures Valid() && Interleaved(me, token)
      ensures r.Success? && r.value.Some? ==> old(clock) <= r.value.value.reconciledAt <= clock
      ensures r.Failure? ==> r.error in {ManagerError, Crash}
    {
      Interfere(me, token);
      if * { return Failure(Crash); }
      if * { return Failure(ManagerError); }
      if * { return Success(None); }
      var receipt: Receipt := *;
      var at := Now();
      return Success(Some(receipt.(reconciledAt := at)));
    }

    // ---- The capability store and the worker transport ----

    method Revoke(me: Actor, token: Token, attempt: Attempt) returns (r: Result<bool, Exception>)
      requires Valid()
      modifies this
      ensures Valid() && Interleaved(me, token)
      ensures r.Success? ==> attempt in world.cloud.revoked
      ensures r.Failure? ==> r.error in {ManagerError, Crash}
    {
      Interfere(me, token);
      if * { return Failure(Crash); }
      if * { return Failure(ManagerError); }
      StepSpares(Revoking(attempt), world, me, token, serial);
      Take(Revoking(attempt));
      return Success(true);
    }

    /** An await that the provider or the worker answers: a Pod was started, a worker is healthy. */
    method Ask(me: Actor, token: Token, question: Answer) returns (r: Result<bool, Exception>)
      requires Valid() && !question.Sighted?
      modifies this
      ensures Valid() && Interleaved(me, token)
      ensures r.Success? ==> question in world.cloud.answers
      ensures r.Failure? ==> r.error in {ManagerError, TransportError, Interrupted, Crash}
    {
      Interfere(me, token);
      if * { return Failure(Crash); }
      if * { return Failure(Interrupted); }
      if * { return Failure(TransportError); }
      if * { return Failure(ManagerError); }
      StepSpares(Answering(me, question), world, me, token, serial);
      Take(Answering(me, question));
      return Success(true);
    }

    /** Any other await: reading a capability, telling the worker to stop. */
    method Await(me: Actor, token: Token) returns (r: Result<bool, Exception>)
      requires Valid()
      modifies this
      ensures Valid() && Interleaved(me, token)
      ensures r.Failure? ==> r.error in {ManagerError, TransportError, Interrupted, Crash}
    {
      Interfere(me, token);
      if * { return Failure(Crash); }
      if * { return Failure(Interrupted); }
      if * { return Failure(TransportError); }
      if * { return Failure(ManagerError); }
      var answer: bool := *;
      return Success(answer);
    }

    /** The worker's status, whatever it claims. */
    method AskWorker(me: Actor, token: Token) returns (r: Result<Observation, Exception>)
      requires Valid()
      modifies this
      ensures Valid() && Interleaved(me, token)
      ensures r.Failure? ==> r.error in {ManagerError, TransportError, Interrupted, Crash}
    {
      var asked :- Await(me, token);
      var observation: Observation := *;
      return Success(observation);
    }

    /** Submits the request of a lease that is still open for it when the call is made. */
    method Submit(me: Actor, lease: Lease) returns (r: Result<Observation, Exception>)
      requires Valid() && Holds(lease, lease.request.token) && HandsOff(lease)
      requires (lease.state == Ready || lease.state == JobSubmitted) && clock < lease.request.hardDeadline
      modifies this
      ensures Valid() && Interleaved(me, lease.request.token)
      ensures r.Failure? ==> r.error in {ManagerError, TransportError, Interrupted, Crash}
    {
      r := AskWorker(me, lease.request.token);
    }

    /** Sends the acknowledgement whose intent this snapshot stored, of a completed job that is
        not past its hard deadline. */
    method DispatchAck(me: Actor, lease: Lease, intent: Intent) returns (r: Result<Observation, Exception>)
      requires Valid() && Holds(lease, lease.request.token)
      requires lease.handoff.Some? && lease.handoff.value.intent == Some(intent)
      requires lease.state == JobCompleted && ResultReady(lease) && clock < lease.request.hardDeadline
      modifies this
      ensures Valid() && Grown() && Held(lease)
      ensures (lease.request.token, intent) in world.cloud.dispatched || (r.Failure? && r.error == Crash)
      ensures r.Failure? ==> r.error in {ManagerError, TransportError, Interrupted, Crash}
    {
      Interfere(me, lease.request.token);
      if * { return Failure(Crash); }
      SnapshotFacts(lease);
      StepSpares(Dispatching(me, lease.request.token, intent), world, me, lease.request.token, serial);
      Take(Dispatching(me, lease.request.token, intent));
      if * { return Failure(Interrupted); }
      if * { return Failure(TransportError); }
      if * { return Failure(ManagerError); }
      var observation: Observation := *;
      return Success(observation);
    }
  }

  predicate SameRow(t: Token, a: map<Token, Lease>, b: map<Token, Lease>) {
    (t in b <==> t in a) && (t in a ==> b[t] == a[t])
  }

  /** The leases name every one of the tokens. */
  ghost predicate Names(leases: seq<Lease>, tokens: set<Token>) {
    forall t :: t in tokens ==> exists l :: l in leases && l.request.token == t
  }

  /** The rows of the tokens, in some order. */
  method RowsNamed(rows: map<Token, Lease>, tokens: set<Token>) returns (leases: seq<Lease>)
    requires tokens <= rows.Keys && forall t :: t in rows ==> rows[t].request.token == t
    ensures Names(leases, tokens) && forall l :: l in leases ==> l in rows.Values
  {
    leases := [];
    var left := tokens;
    while left != {}
      invariant left <= tokens && Names(leases, tokens - left) && forall l :: l in leases ==> l in rows.Values
      decreases left
    {
      var t :| t in left;
      ghost var before := leases;
      leases := leases + [rows[t]];
      forall u | u in tokens - (left - {t}) ensures exists l :: l in leases && l.request.token == u {
        if u == t {
          assert rows[t] in leases;
        } else {
          assert u in tokens - left;
          var l :| l in before && l.request.token == u;
          assert l in leases;
        }
      }
      left := left - {t};
    }
    assert tokens - left == tokens;
  }

  /** Everything a call site must know to write. */
  predicate MayWrite(serial: bool, w: Write, l: Lease, c: Cloud) {
    Enabled(w, l, c) && (serial ==> Orderly(w, l, c))
  }

  lemma OrderlyStays(w: Write, l: Lease, c: Cloud, d: Cloud)
    requires Orderly(w, l, c) && CloudFollows(c, d)
    ensures Orderly(w, l, d)
  {}

  lemma MayWriteStays(serial: bool, w: Write, l: Lease, c: Cloud, d: Cloud)
    requires MayWrite(serial, w, l, c) && CloudFollows(c, d)
    ensures MayWrite(serial, w, l, d)
  {
    KnownStays(w, l, c, d);
    if serial { OrderlyStays(w, l, c, d); }
  }

  /** The create admitted for `me` on this lease is not sent or refused meanwhile, and a
      serialised lease keeps its row. */
  predicate Spared(w: World, v: World, me: Actor, token: Token, serial: bool) {
    && (token in w.cloud.holder && w.cloud.holder[token] == me ==>
          (token in v.cloud.posted <==> token in w.cloud.posted)
          && (token in v.cloud.rejected <==> token in w.cloud.rejected))
    && (serial ==> SameRow(token, w.rows, v.rows))
  }

  lemma StepSpares(e: Event, w: World, me: Actor, token: Token, serial: bool)
    requires Possible(e, w) && ByOther(e, me, token, serial)
    ensures Spared(w, After(e, w), me, token, serial)
  {}

  lemma SparedOn(u: World, v: World, w: World, me: Actor, token: Token, serial: bool)
    requires Spared(u, v, me, token, serial) && Spared(v, w, me, token, serial) && CloudFollows(u.cloud, v.cloud)
    ensures Spared(u, w, me, token, serial)
  {}

  lemma CloudFollowsItself(c: Cloud)
    ensures CloudFollows(c, c)
  {}
}
