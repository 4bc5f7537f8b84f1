/** Every interleaving of callers, reconcilers, crashes and the provider over the table of
    Pod leases (kestrel_cloud_runpod/pod_capacity_repository.py), and what holds throughout. */
module PodRuns {

  import opened Results
  import opened PodLeases
  import opened PodWrites
  import opened PodInvariants
  import opened PodCustody

  datatype World = World(rows: map<Token, Lease>, cloud: Cloud)

  const NOTHING_YET: World := World(map[], CLEAR_SKY)

  /** One atomic step: a table transaction, or an act of the provider, of the capability
      store or of the worker transport. */
  datatype Event =
    | Reserved(request: PodRequest)
    | Written(actor: Actor, token: Token, write: Write)
    | Posting(actor: Actor, token: Token)
    | Rejecting(actor: Actor, token: Token)
    | Landing(token: Token, pod: PodId)
    | Stopping(actor: Actor, token: Token, pod: PodId)
    | Answering(actor: Actor, answer: Answer)
    | Halting(pod: PodId)
    | Revoking(attempt: Attempt)
    | Dispatching(actor: Actor, token: Token, intent: Intent)

  predicate Active(l: Lease) { l.state != Released }

  predicate Apart(a: Lease, b: Lease) {
    && a.request.name != b.request.name && a.request.root != b.request.root
    && (a.podId.Some? && b.podId.Some? ==> a.podId != b.podId)
  }

  /** The three partial unique indexes. */
  predicate UniqueActive(rows: map<Token, Lease>) {
    forall s, t :: s in rows && t in rows && s != t && Active(rows[s]) && Active(rows[t]) ==> Apart(rows[s], rows[t])
  }

  /** A child attempt needs its persisted root, which is not being released. */
  predicate FamilyOpen(rows: map<Token, Lease>, r: PodRequest) {
    r.root != r.token ==> r.root in rows && rows[r.root].request.root == r.root && !rows[r.root].familyRequested
  }

  predicate Possible(e: Event, w: World) {
    match e
    case Reserved(r) =>
      && ValidRequest(r) && r.token !in w.rows && FamilyOpen(w.rows, r)
      && UniqueActive(w.rows[r.token := NewLease(r)])
    case Written(_, token, write) =>
      && token in w.rows && Enabled(write, w.rows[token], w.cloud)
      && UniqueActive(w.rows[token := Apply(write, w.rows[token])])
    case Posting(actor, token) =>
      && token in w.cloud.holder && w.cloud.holder[token] == actor
      && token !in w.cloud.posted && token !in w.cloud.rejected
    case Rejecting(actor, token) =>
      token in w.cloud.holder && w.cloud.holder[token] == actor && token !in w.cloud.pods
    case Landing(token, _) => token in w.cloud.posted && token !in w.cloud.rejected && token !in w.cloud.pods
    case Stopping(_, token, pod) => token in w.rows && w.rows[token].podId == Some(pod)
    case Answering(_, _) => true
    case Halting(_) => true
    case Revoking(_) => true
    case Dispatching(_, token, intent) =>
      token in w.rows && w.rows[token].handoff.Some? && w.rows[token].handoff.value.intent == Some(intent)
  }

  function After(e: Event, w: World): World
    requires Possible(e, w)
  {
    match e
    case Reserved(r) => w.(rows := w.rows[r.token := NewLease(r)])
    case Written(actor, token, write) =>
      World(w.rows[token := Apply(write, w.rows[token])],
            if Admits(write) then w.cloud.(holder := w.cloud.holder[token := actor]) else w.cloud)
    case Posting(_, token) => w.(cloud := w.cloud.(posted := w.cloud.posted + {token}))
    case Rejecting(_, token) => w.(cloud := w.cloud.(rejected := w.cloud.rejected + {token}))
    case Landing(token, pod) => w.(cloud := w.cloud.(pods := w.cloud.pods[token := pod]))
    case Stopping(_, _, _) => w
    case Answering(_, answer) =>
      w.(cloud := w.cloud.(
        answers := w.cloud.answers + {answer},
        halted := w.cloud.halted + if answer.Sighted? && answer.status == PodStopped then {answer.pod} else {}))
    case Halting(pod) => w.(cloud := w.cloud.(halted := w.cloud.halted + {pod}))
    case Revoking(attempt) => w.(cloud := w.cloud.(revoked := w.cloud.revoked + {attempt}))
    case Dispatching(_, token, intent) => w.(cloud := w.cloud.(dispatched := w.cloud.dispatched + {(token, intent)}))
  }

  predicate IsRun(worlds: seq<World>, events: seq<Event>) {
    && |worlds| == |events| + 1 && worlds[0] == NOTHING_YET
    && forall k :: 0 <= k < |events| ==> Possible(events[k], worlds[k]) && worlds[k + 1] == After(events[k], worlds[k])
  }

  predicate RowOk(t: Token, l: Lease, c: Cloud) {
    l.request.token == t && RowInv(l) && Coupled(l, c)
  }

  predicate RowsOk(rows: map<Token, Lease>, c: Cloud) {
    forall t :: t in rows ==> RowOk(t, rows[t], c)
  }

  predicate RootsOk(rows: map<Token, Lease>) {
    forall t :: t in rows ==>
      rows[t].request.root in rows && rows[rows[t].request.root].request.root == rows[t].request.root
  }

  predicate NamesRows(c: Cloud, rows: map<Token, Lease>) {
    && c.holder.Keys <= rows.Keys && (forall d :: d in c.dispatched ==> d.0 in rows)
  }

  predicate Inv(w: World) {
    && CloudInv(w.cloud) && RowsOk(w.rows, w.cloud) && RootsOk(w.rows) && NamesRows(w.cloud, w.rows)
    && UniqueActive(w.rows)
  }

  // ---- Every step keeps the invariant ----

  lemma NewRowIsSound(r: PodRequest, c: Cloud)
    requires ValidRequest(r) && r.token !in c.holder && forall d :: d in c.dispatched ==> d.0 != r.token
    ensures RowOk(r.token, NewLease(r), c)
  {
    if r.spec.Some? {
      assert Timeline(r.createdAt, NO_TIMES) == [Some(r.createdAt), None, None, None, None, None, None, None, None];
      assert ValidTimes(r.createdAt, NO_TIMES);
    }
  }

  /** What the provider may do to a row's coupling: nothing, unless it concerns the row. */
  predicate Spares(t: Token, l: Lease, c: Cloud, d: Cloud) {
    && CloudFollows(c, d) && (t in d.holder ==> t in c.holder)
    && (forall x :: x in d.dispatched && x !in c.dispatched && x.0 == t ==>
          l.handoff.Some? && l.handoff.value.intent == Some(x.1))
  }

  lemma CouplingStays(t: Token, l: Lease, c: Cloud, d: Cloud)
    requires RowOk(t, l, c) && Spares(t, l, c, d)
    ensures RowOk(t, l, d)
  {}

  /** One row may change; every other row is spared. */
  lemma RowsStayOk(rows: map<Token, Lease>, token: Token, l: Lease, c: Cloud, d: Cloud)
    requires RowsOk(rows, c) && RowOk(token, l, d)
    requires forall t :: t in rows && t != token ==> Spares(t, rows[t], c, d)
    ensures RowsOk(rows[token := l], d)
  {
    forall t | t in rows && t != token ensures RowOk(t, rows[t], d) { CouplingStays(t, rows[t], c, d); }
  }

  lemma RowsStaySpared(rows: map<Token, Lease>, c: Cloud, d: Cloud)
    requires RowsOk(rows, c) && forall t :: t in rows ==> Spares(t, rows[t], c, d)
    ensures RowsOk(rows, d)
  {
    forall t | t in rows ensures RowOk(t, rows[t], d) { CouplingStays(t, rows[t], c, d); }
  }

  lemma SparedByItself(t: Token, l: Lease, c: Cloud)
    ensures Spares(t, l, c, c)
  {}

  lemma ReservationKeepsRows(r: PodRequest, w: World)
    requires RowsOk(w.rows, w.cloud) && NamesRows(w.cloud, w.rows) && Possible(Reserved(r), w)
    ensures RowsOk(After(Reserved(r), w).rows, w.cloud)
  {
    NewRowIsSound(r, w.cloud);
    RowsStayOk(w.rows, r.token, NewLease(r), w.cloud, w.cloud);
  }

  lemma WriteKeepsRowOk(actor: Actor, token: Token, write: Write, l: Lease, c: Cloud)
    requires RowOk(token, l, c) && CloudInv(c) && Enabled(write, l, c)
    ensures RowOk(token, Apply(write, l), CloudAfter(write, l, c, actor)) && Precedes(l, Apply(write, l))
  {
    WriteKeepsRow(write, l, c);
    WriteKeepsCoupling(write, l, c, actor);
  }

  lemma AdmissionSpares(token: Token, actor: Actor, t: Token, l: Lease, c: Cloud)
    requires t != token && token !in c.holder
    ensures Spares(t, l, c, c.(holder := c.holder[token := actor]))
  {}

  lemma WriteKeepsRows(actor: Actor, token: Token, write: Write, w: World)
    requires CloudInv(w.cloud) && RowsOk(w.rows, w.cloud) && Possible(Written(actor, token, write), w)
    ensures RowsOk(After(Written(actor, token, write), w).rows, After(Written(actor, token, write), w).cloud)
    ensures Precedes(w.rows[token], Apply(write, w.rows[token]))
    ensures Admits(write) ==> token !in w.cloud.holder
  {
    var l, c := w.rows[token], w.cloud;
    assert RowOk(token, l, c);
    var d := CloudAfter(write, l, c, actor);
    WriteKeepsRowOk(actor, token, write, l, c);
    AdmissionIsFirst(write, l, c);
    forall t | t in w.rows && t != token ensures Spares(t, w.rows[t], c, d) {
      if Admits(write) { AdmissionSpares(token, actor, t, w.rows[t], c); } else { SparedByItself(t, w.rows[t], c); }
    }
    RowsStayOk(w.rows, token, Apply(write, l), c, d);
  }

  /** The create of a lease is admitted once. */
  lemma AdmissionIsFirst(write: Write, l: Lease, c: Cloud)
    requires Coupled(l, c) && Enabled(write, l, c)
    ensures Admits(write) ==> l.request.token !in c.holder
  {}

  predicate Act(e: Event) { !e.Written? && !e.Reserved? }

  lemma ActSpares(e: Event, w: World, t: Token)
    requires Possible(e, w) && Act(e) && t in w.rows
    ensures Spares(t, w.rows[t], w.cloud, After(e, w).cloud)
  {}

  lemma ActKeepsRows(e: Event, w: World)
    requires RowsOk(w.rows, w.cloud) && Possible(e, w) && Act(e)
    ensures RowsOk(After(e, w).rows, After(e, w).cloud)
  {
    forall t | t in w.rows ensures Spares(t, w.rows[t], w.cloud, After(e, w).cloud) { ActSpares(e, w, t); }
    RowsStaySpared(w.rows, w.cloud, After(e, w).cloud);
  }

  lemma StepKeepsRows(e: Event, w: World)
    requires CloudInv(w.cloud) && RowsOk(w.rows, w.cloud) && NamesRows(w.cloud, w.rows) && Possible(e, w)
    ensures RowsOk(After(e, w).rows, After(e, w).cloud)
  {
    match e {
      case Reserved(r) => ReservationKeepsRows(r, w);
      case Written(actor, token, write) => WriteKeepsRows(actor, token, write, w);
      case _ => ActKeepsRows(e, w);
    }
  }

  lemma StepKeepsCloud(e: Event, w: World)
    requires CloudInv(w.cloud) && NamesRows(w.cloud, w.rows) && Possible(e, w)
    ensures CloudInv(After(e, w).cloud) && NamesRows(After(e, w).cloud, After(e, w).rows)
  {}

  lemma ApplyKeepsRequest(write: Write, l: Lease)
    ensures Apply(write, l).request == l.request
  {}

  lemma RootsStay(rows: map<Token, Lease>, token: Token, l: Lease)
    requires RootsOk(rows) && (token in rows ==> l.request == rows[token].request)
    requires token !in rows ==> l.request.token == token && FamilyOpen(rows, l.request)
    ensures RootsOk(rows[token := l])
  {
    var after := rows[token := l];
    forall t | t in after
      ensures after[t].request.root in after && after[after[t].request.root].request.root == after[t].request.root
    {
      assert t != token ==> after[t] == rows[t];
    }
  }

  lemma StepKeepsRoots(e: Event, w: World)
    requires RootsOk(w.rows) && UniqueActive(w.rows) && Possible(e, w)
    ensures RootsOk(After(e, w).rows) && UniqueActive(After(e, w).rows)
  {
    match e {
      case Reserved(r) => RootsStay(w.rows, r.token, NewLease(r));
      case Written(_, token, write) =>
        ApplyKeepsRequest(write, w.rows[token]);
        RootsStay(w.rows, token, Apply(write, w.rows[token]));
      case _ =>
    }
  }

  lemma StepKeepsInv(e: Event, w: World)
    requires Inv(w) && Possible(e, w)
    ensures Inv(After(e, w))
  {
    StepKeepsRows(e, w);
    StepKeepsCloud(e, w);
    StepKeepsRoots(e, w);
  }

  // ---- What an earlier world tells of every later one ----

  predicate RowsFollow(a: map<Token, Lease>, b: map<Token, Lease>) {
    forall t :: t in a ==> t in b && Precedes(a[t], b[t])
  }

  predicate Follows(w: World, v: World) {
    RowsFollow(w.rows, v.rows) && CloudFollows(w.cloud, v.cloud)
  }

  lemma RowFollowsItself(l: Lease)
    ensures Precedes(l, l)
  {}

  lemma RowsFollowOneChange(rows: map<Token, Lease>, token: Token, l: Lease)
    requires token in rows ==> Precedes(rows[token], l)
    ensures RowsFollow(rows, rows[token := l])
  {
    forall t | t in rows ensures Precedes(rows[t], rows[token := l][t]) { RowFollowsItself(rows[t]); }
  }

  lemma RowsFollowThemselves(rows: map<Token, Lease>)
    ensures RowsFollow(rows, rows)
  {
    forall t | t in rows ensures Precedes(rows[t], rows[t]) { RowFollowsItself(rows[t]); }
  }

  lemma CloudStepFollows(e: Event, w: World)
    requires Possible(e, w) && (e.Written? && Admits(e.write) ==> e.token !in w.cloud.holder)
    ensures CloudFollows(w.cloud, After(e, w).cloud)
  {}

  lemma StepFollows(e: Event, w: World)
    requires CloudInv(w.cloud) && RowsOk(w.rows, w.cloud) && Possible(e, w)
    ensures Follows(w, After(e, w))
  {
    match e {
      case Reserved(r) => RowsFollowOneChange(w.rows, r.token, NewLease(r));
      case Written(actor, token, write) =>
        WriteKeepsRows(actor, token, write, w);
        RowsFollowOneChange(w.rows, token, Apply(write, w.rows[token]));
      case _ => RowsFollowThemselves(w.rows);
    }
    CloudStepFollows(e, w);
  }

  lemma RowsFollowOn(a: map<Token, Lease>, b: map<Token, Lease>, d: map<Token, Lease>)
    requires RowsFollow(a, b) && RowsFollow(b, d)
    ensures RowsFollow(a, d)
  {
    forall t | t in a ensures t in d && Precedes(a[t], d[t]) {
      PrecedesIsTransitive(a[t], b[t], d[t]);
    }
  }

  lemma {:induction false} RunKeepsInv(worlds: seq<World>, events: seq<Event>, k: nat)
    requires IsRun(worlds, events) && k < |worlds|
    ensures Inv(worlds[k])
  {
    if k > 0 {
      RunKeepsInv(worlds, events, k - 1);
      StepKeepsInv(events[k - 1], worlds[k - 1]);
    }
  }

  lemma CloudFollowsOn(a: Cloud, b: Cloud, d: Cloud)
    requires CloudFollows(a, b) && CloudFollows(b, d)
    ensures CloudFollows(a, d)
  {}

  lemma FollowsOn(u: World, v: World, w: World)
    requires Follows(u, v) && Follows(v, w)
    ensures Follows(u, w)
  {
    RowsFollowOn(u.rows, v.rows, w.rows);
    CloudFollowsOn(u.cloud, v.cloud, w.cloud);
  }

  lemma LastStepFollows(worlds: seq<World>, events: seq<Event>, k: nat)
    requires IsRun(worlds, events) && 0 < k < |worlds|
    ensures Follows(worlds[k - 1], worlds[k])
  {
    RunKeepsInv(worlds, events, k - 1);
    StepFollows(events[k - 1], worlds[k - 1]);
  }

  lemma FollowsItself(w: World)
    ensures Follows(w, w)
  {
    RowsFollowThemselves(w.rows);
  }

  lemma {:induction false} RunFollows(worlds: seq<World>, events: seq<Event>, j: nat, k: nat)
    requires IsRun(worlds, events) && j <= k < |worlds|
    ensures Follows(worlds[j], worlds[k])
    decreases k
  {
    if j == k {
      FollowsItself(worlds[j]);
    } else {
      RunFollows(worlds, events, j, k - 1);
      LastStepFollows(worlds, events, k);
      FollowsOn(worlds[j], worlds[k - 1], worlds[k]);
    }
  }
}
