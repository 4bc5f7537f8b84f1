/** What every run over the Pod leases keeps, under any interleaving and any crash; and what
    runs keep whose operations on each lease are serialised. */
module PodGuarantees {

  import opened Results
  import opened PodLeases
  import opened PodWrites
  import opened PodInvariants
  import opened PodCustody
  import opened PodRuns

  lemma RowAdvances(worlds: seq<World>, events: seq<Event>, j: nat, k: nat, t: Token)
    requires IsRun(worlds, events) && j <= k < |worlds| && t in worlds[j].rows
    ensures t in worlds[k].rows && Precedes(worlds[j].rows[t], worlds[k].rows[t])
  {
    RunFollows(worlds, events, j, k);
  }

  lemma RowIsOk(worlds: seq<World>, events: seq<Event>, k: nat, t: Token)
    requires IsRun(worlds, events) && k < |worlds| && t in worlds[k].rows
    ensures RowOk(t, worlds[k].rows[t], worlds[k].cloud)
  {
    RunKeepsInv(worlds, events, k);
  }

  /** Stop is irrevocable: RELEASED is absorbing for every lease; under the handoff protocol
      no phase is ever left for an earlier one, so a completed or stopped job is never
      running, ready or starting again, whatever polls arrive late. */
  lemma StopIsIrrevocable(worlds: seq<World>, events: seq<Event>, j: nat, k: nat, t: Token)
    requires IsRun(worlds, events) && j <= k < |worlds| && t in worlds[j].rows
    ensures t in worlds[k].rows
    ensures var l, m := worlds[j].rows[t], worlds[k].rows[t];
      && (l.state == Released ==> m.state == Released)
      && (HandsOff(l) ==> Phase(l.state) <= Phase(m.state))
      && (HandsOff(l) && Phase(l.state) >= 4 ==> m.state !in {Requested, Starting, Ready, JobSubmitted})
      && Progress(l.workload) <= Progress(m.workload)
  {
    RowAdvances(worlds, events, j, k, t);
  }

  /** In every world the state of a catalog lease keeps up with its worker: running work is not
      on a lease that is still getting ready, a finished job is completed or later, a failed or
      cancelled one is on its way out, and a result that can be handed over can be acknowledged. */
  lemma StateKeepsUpWithWorker(worlds: seq<World>, events: seq<Event>, k: nat, t: Token)
    requires IsRun(worlds, events) && k < |worlds| && t in worlds[k].rows && HandsOff(worlds[k].rows[t])
    ensures var l := worlds[k].rows[t];
      && (l.state in {Requested, Starting, Ready} ==> l.workload == NotSubmitted || l.workload == Idle)
      && (l.state == JobSubmitted ==> l.workload == Running)
      && (l.state == JobCompleted ==> l.workload == AwaitingAck || l.workload == Acknowledged)
      && (l.workload == AwaitingAck || l.workload == Acknowledged ==>
            l.state in {JobCompleted, ResultRetrieved, CancelRequested, ReconcileRequired, Releasing, Released})
      && (l.workload in {Failed, Cancelled, Cancelling} ==>
            l.state in {ResultRetrieved, CancelRequested, ReconcileRequired, Releasing, Released})
  {
    RowIsOk(worlds, events, k, t);
    var l := worlds[k].rows[t];
    assert InStep(l) && HandoffOk(l);
  }

  /** The artifact handoff chain holds in every world and each link is write-once. */
  lemma HandoffChain(worlds: seq<World>, events: seq<Event>, j: nat, k: nat, t: Token)
    requires IsRun(worlds, events) && j <= k < |worlds| && t in worlds[j].rows
    ensures t in worlds[k].rows && HandoffFollows(worlds[j].rows[t].handoff, worlds[k].rows[t].handoff)
    ensures var m := worlds[k].rows[t];
      && (m.handoff.Some? ==> HandsOff(m) && m.handoff.value.attempt == m.request.spec.value.attempt)
      && (m.handoff.Some? && m.handoff.value.confirmedAt.Some? ==> m.handoff.value.remoteAckAt.Some?)
      && (m.handoff.Some? && m.handoff.value.remoteAckAt.Some? ==> m.handoff.value.intent.Some?)
      && (m.workload == AwaitingAck || m.workload == Acknowledged ==> m.handoff.Some?)
      && (m.workload == Acknowledged ==> m.handoff.value.remoteAckAt.Some?)
      && (HandsOff(m) && m.state == ResultRetrieved ==> m.handoff.Some? && m.handoff.value.confirmedAt.Some?)
  {
    RowAdvances(worlds, events, j, k, t);
    RowIsOk(worlds, events, k, t);
  }

  /** An acknowledgement is dispatched only once its intent is stored, and that intent is the
      lease's for ever. */
  lemma DispatchNeedsStoredIntent(worlds: seq<World>, events: seq<Event>, k: nat, m: nat)
    requires IsRun(worlds, events) && k < |events| && k <= m < |worlds| && events[k].Dispatching?
    ensures var t := events[k].token;
      && t in worlds[m].rows && worlds[m].rows[t].handoff.Some?
      && worlds[m].rows[t].handoff.value.intent == Some(events[k].intent)
  {
    RowAdvances(worlds, events, k, m, events[k].token);
  }

  /** First observations, the realized placement, the worker record and the billing receipt
      are write-once; the row's receipt is the evidence's receipt; a catalog lease is
      released only after its bearer was revoked and a receipt was stored. */
  lemma EvidenceIsWriteOnce(worlds: seq<World>, events: seq<Event>, j: nat, k: nat, t: Token)
    requires IsRun(worlds, events) && j <= k < |worlds| && t in worlds[j].rows && Catalog(worlds[j].rows[t])
    ensures t in worlds[k].rows && Catalog(worlds[k].rows[t])
    ensures var l, m := worlds[j].rows[t], worlds[k].rows[t];
      && l.evidence.Some? && m.evidence.Some? && EvidenceFollows(l.evidence.value, m.evidence.value)
      && m.receipt == m.evidence.value.billing && Kept(l.receipt, m.receipt)
      && (m.billing == Authoritative ==> m.receipt.Some?)
      && (m.state == Released ==> m.receipt.Some? && m.request.spec.value.attempt in worlds[k].cloud.revoked)
  {
    RowAdvances(worlds, events, j, k, t);
    RowIsOk(worlds, events, j, t);
    RowIsOk(worlds, events, k, t);
  }

  /** In every world the Pod of a catalog lease has the shape that was quoted and costs no more than
      was quoted, and a bill is for that Pod at exactly its rate. */
  lemma PlacementIsAsQuoted(worlds: seq<World>, events: seq<Event>, k: nat, t: Token)
    requires IsRun(worlds, events) && k < |worlds| && t in worlds[k].rows && Catalog(worlds[k].rows[t])
    ensures worlds[k].rows[t].evidence.Some?
    ensures var l, s, e := worlds[k].rows[t], worlds[k].rows[t].request.spec.value, worlds[k].rows[t].evidence.value;
      && (e.realized.Some? ==> e.realized.value.shape == s.shape && e.realized.value.hourlyRate <= s.hourlyRate)
      && (e.realized.Some? && l.receipt.Some? ==>
            l.receipt.value.podId == Some(e.realized.value.podId)
            && l.receipt.value.hourlyRate == e.realized.value.hourlyRate)
      && (e.worker.Some? ==>
            e.worker.value.attempt == s.attempt && e.worker.value.requestSha == s.requestSha
            && e.worker.value.imageDigest == s.imageDigest)
  {
    RowIsOk(worlds, events, k, t);
    var l := worlds[k].rows[t];
    assert ValidEvidence(l.request.spec.value, l.evidence.value);
  }

  // ---- At most one create ----

  function Posts(events: seq<Event>, t: Token): nat {
    if events == [] then 0
    else
      var last := events[|events| - 1];
      Posts(events[..|events| - 1], t) + if last.Posting? && last.token == t then 1 else 0
  }

  lemma {:induction false} PostsAreRecorded(worlds: seq<World>, events: seq<Event>, k: nat, t: Token)
    requires IsRun(worlds, events) && k < |worlds|
    ensures Posts(events[..k], t) == if t in worlds[k].cloud.posted then 1 else 0
  {
    if k > 0 {
      PostsAreRecorded(worlds, events, k - 1, t);
      assert events[..k][..k - 1] == events[..k - 1];
      StepRecordsPost(events[k - 1], worlds[k - 1], t);
    }
  }

  lemma StepRecordsPost(e: Event, w: World, t: Token)
    requires Possible(e, w)
    ensures t in After(e, w).cloud.posted <==> t in w.cloud.posted || (e.Posting? && e.token == t)
    ensures e.Posting? && e.token == t ==> t !in w.cloud.posted
  {}

  // ---- What was observed ----

  predicate AnsweredBefore(events: seq<Event>, k: nat, s: Answer) {
    exists i :: 0 <= i < k && i < |events| && events[i].Answering? && events[i].answer == s
  }

  lemma AnswerIsNew(e: Event, w: World, s: Answer)
    requires Possible(e, w) && s in After(e, w).cloud.answers && s !in w.cloud.answers
    ensures e.Answering? && e.answer == s
  {}

  /** What counts as sighted was observed earlier in the run. */
  lemma {:induction false} AnswersHappened(worlds: seq<World>, events: seq<Event>, k: nat, s: Answer)
    requires IsRun(worlds, events) && k < |worlds| && s in worlds[k].cloud.answers
    ensures AnsweredBefore(events, k, s)
  {
    var i := k - 1;
    if s in worlds[i].cloud.answers {
      AnswersHappened(worlds, events, i, s);
    } else {
      AnswerIsNew(events[i], worlds[i], s);
    }
  }

  /** Under any interleaving a claim counts its Pod as running before it only after that Pod was
      observed running for it, unless the claim was given back; it owns the Pod only after it was
      observed stopped and was started; and a lease is ready only after its Pod was observed running
      and, for a catalog lease, its worker answered that it is healthy. */
  lemma OwnershipWasObserved(worlds: seq<World>, events: seq<Event>, k: nat, t: Token)
    requires IsRun(worlds, events) && k < |worlds| && t in worlds[k].rows && worlds[k].rows[t].podId.Some?
    ensures var l, pod := worlds[k].rows[t], worlds[k].rows[t].podId.value;
      && (l.request.source != Created && l.ownership == PreexistingRunning ==>
            AnsweredBefore(events, k, Sighted(t, pod, PodRunning)) || (l.state == Released && l.cleanup == NotOwned))
      && (l.request.source != Created && l.ownership == Owned ==>
            AnsweredBefore(events, k, Sighted(t, pod, PodStopped)) && AnsweredBefore(events, k, Woken(t, pod)))
      && (l.state == Ready ==> AnsweredBefore(events, k, Sighted(t, pod, PodRunning)))
      && (l.state == Ready && Catalog(l) ==> AnsweredBefore(events, k, Healthy(t)))
  {
    RowIsOk(worlds, events, k, t);
    var l, pod := worlds[k].rows[t], worlds[k].rows[t].podId.value;
    assert Witnessed(l, worlds[k].cloud);
    forall s | s in worlds[k].cloud.answers ensures AnsweredBefore(events, k, s) {
      AnswersHappened(worlds, events, k, s);
    }
  }

  // ---- A create is admitted with its row ----

  /** The row as it stands when its create is admitted, before the provider is asked. */
  predicate DurablyAdmitted(w: World, t: Token, actor: Actor) {
    && t in w.rows && t in w.cloud.holder && w.cloud.holder[t] == actor && t !in w.cloud.posted
    && w.rows[t].state == Starting && w.rows[t].uncertain && w.rows[t].podId.None?
  }

  lemma AdmissionLeavesStarting(l: Lease, write: Write, c: Cloud)
    requires RowInv(l) && Known(write, l, c) && Admits(write)
    ensures var m := Apply(write, l); m.state == Starting && m.uncertain && m.podId.None?
  {}

  /** Only the write that admits a create makes a holder. */
  lemma HolderIsNew(e: Event, w: World, t: Token)
    requires Possible(e, w) && t !in w.cloud.holder && t in After(e, w).cloud.holder
    ensures e.Written? && e.token == t && Admits(e.write) && e.actor == After(e, w).cloud.holder[t]
  {}

  lemma AdmissionIsDurable(e: Event, w: World, t: Token, actor: Actor)
    requires RowsOk(w.rows, w.cloud) && CloudInv(w.cloud) && Possible(e, w) && t !in w.cloud.holder
    requires t in After(e, w).cloud.holder && After(e, w).cloud.holder[t] == actor
    ensures DurablyAdmitted(After(e, w), t, actor)
  {
    HolderIsNew(e, w, t);
    assert RowOk(t, w.rows[t], w.cloud);
    AdmissionLeavesStarting(w.rows[t], e.write, w.cloud);
  }

  lemma HolderStays(worlds: seq<World>, events: seq<Event>, k: nat, t: Token)
    requires IsRun(worlds, events) && 0 < k < |worlds| && t in worlds[k - 1].cloud.holder
    ensures t in worlds[k].cloud.holder && worlds[k].cloud.holder[t] == worlds[k - 1].cloud.holder[t]
  {
    LastStepFollows(worlds, events, k);
  }

  lemma {:induction false} HolderWasAdmitted(worlds: seq<World>, events: seq<Event>, k: nat, t: Token, actor: Actor)
    requires IsRun(worlds, events) && k < |worlds| && t in worlds[k].cloud.holder && worlds[k].cloud.holder[t] == actor
    ensures exists j :: 0 <= j <= k && DurablyAdmitted(worlds[j], t, actor)
  {
    if t in worlds[k - 1].cloud.holder {
      HolderStays(worlds, events, k, t);
      HolderWasAdmitted(worlds, events, k - 1, t, actor);
    } else {
      RunKeepsInv(worlds, events, k - 1);
      AdmissionIsDurable(events[k - 1], worlds[k - 1], t, actor);
    }
  }

  /** At most one create per cleanup token over the whole run, sent only after the row
      durably says STARTING and uncertain; and the Pod a created lease binds is the one that
      create made, for ever. */
  lemma AtMostOneCreate(worlds: seq<World>, events: seq<Event>, t: Token)
    requires IsRun(worlds, events)
    ensures Posts(events, t) <= 1
    ensures forall k :: 0 <= k < |events| && events[k].Posting? && events[k].token == t ==>
      exists j :: 0 <= j <= k && DurablyAdmitted(worlds[j], t, events[k].actor)
  {
    assert events[..|events|] == events;
    PostsAreRecorded(worlds, events, |events|, t);
    forall k | 0 <= k < |events| && events[k].Posting? && events[k].token == t
      ensures exists j :: 0 <= j <= k && DurablyAdmitted(worlds[j], t, events[k].actor)
    {
      HolderWasAdmitted(worlds, events, k, t, events[k].actor);
    }
  }

  lemma PodIsTheCreatedOne(worlds: seq<World>, events: seq<Event>, j: nat, k: nat, t: Token)
    requires IsRun(worlds, events) && j <= k < |worlds| && t in worlds[j].rows && worlds[j].rows[t].podId.Some?
    ensures t in worlds[k].rows && worlds[k].rows[t].podId == worlds[j].rows[t].podId
    ensures worlds[j].rows[t].request.source == Created ==>
      t in worlds[j].cloud.pods && worlds[j].cloud.pods[t] == worlds[j].rows[t].podId.value
  {
    RowAdvances(worlds, events, j, k, t);
    RowIsOk(worlds, events, j, t);
  }

  /** An acknowledgement that was accepted in a run is of the stored intent: the digest that the
      worker reported is the intent's, then and for ever, and the remote acknowledgement is on
      the row. */
  lemma AcknowledgedIsIntended(worlds: seq<World>, events: seq<Event>, k: nat, m: nat, o: Observation)
    requires IsRun(worlds, events) && k < |events| && k < m < |worlds|
    requires events[k].Written? && events[k].write.ToHand? && events[k].write.h.Observe?
    requires o == events[k].write.h.observation && o.state == Acknowledged
    ensures var t := events[k].token;
      && t in worlds[k].rows && worlds[k].rows[t].handoff.Some? && worlds[k].rows[t].handoff.value.intent.Some?
      && worlds[k].rows[t].handoff.value.intent.value.ackSha == o.ackSha
      && t in worlds[m].rows && worlds[m].rows[t].handoff.Some?
      && worlds[m].rows[t].handoff.value.intent == worlds[k].rows[t].handoff.value.intent
      && worlds[m].rows[t].handoff.value.remoteAckAt.Some?
      && worlds[m].rows[t].handoff.value.resultSha == o.resultSha
      && worlds[m].rows[t].handoff.value.receiptSha == o.receiptSha
  {
    AcknowledgementWritten(o, events[k].write.h.submitted, events[k].write.h.at, worlds[k].rows[events[k].token]);
    RowAdvances(worlds, events, k + 1, m, events[k].token);
  }

  lemma AcknowledgementWritten(o: Observation, submitted: bool, at: int, l: Lease)
    requires KnownHanding(Observe(o, submitted, at), l) && o.state == Acknowledged
    ensures l.handoff.Some? && l.handoff.value.intent.Some? && l.handoff.value.intent.value.ackSha == o.ackSha
    ensures var m := Apply(ToHand(Observe(o, submitted, at)), l);
      && m.handoff.Some? && m.handoff.value.intent == l.handoff.value.intent && m.handoff.value.remoteAckAt.Some?
      && m.handoff.value.resultSha == o.resultSha && m.handoff.value.receiptSha == o.receiptSha
  {}

  /** Unreleased leases never share a resource name, a known Pod or a cleanup family. The table
      itself sees to that: a write that would break an index is a conflict, so `Possible`
      demands the indexes after each write, and a run only has to start without a clash. */
  lemma UnreleasedLeasesAreApart(worlds: seq<World>, events: seq<Event>, k: nat, s: Token, t: Token)
    requires IsRun(worlds, events) && k < |worlds| && s in worlds[k].rows && t in worlds[k].rows && s != t
    requires worlds[k].rows[s].state != Released && worlds[k].rows[t].state != Released
    ensures Apart(worlds[k].rows[s], worlds[k].rows[t])
  {
    RunKeepsInv(worlds, events, k);
  }

  // ---- Family release ----

  function Family(rows: map<Token, Lease>, root: Token): set<Token> {
    set t | t in rows && rows[t].request.root == root
  }

  predicate Freezing(w: World, root: Token) {
    root in w.rows && w.rows[root].request.root == root && w.rows[root].familyRequested
  }

  lemma FamilyStepStays(e: Event, w: World, root: Token)
    requires Freezing(w, root) && Possible(e, w)
    ensures Family(After(e, w).rows, root) == Family(w.rows, root)
  {
    if e.Written? { ApplyKeepsRequest(e.write, w.rows[e.token]); }
  }

  lemma FamilyKeepsMembers(worlds: seq<World>, events: seq<Event>, k: nat, root: Token)
    requires IsRun(worlds, events) && k + 1 < |worlds| && Freezing(worlds[k], root)
    ensures Family(worlds[k + 1].rows, root) == Family(worlds[k].rows, root)
  {
    FamilyStepStays(events[k], worlds[k], root);
  }

  lemma FreezingStays(worlds: seq<World>, events: seq<Event>, j: nat, k: nat, root: Token)
    requires IsRun(worlds, events) && j <= k < |worlds| && Freezing(worlds[j], root)
    ensures Freezing(worlds[k], root)
  {
    RowAdvances(worlds, events, j, k, root);
  }

  /** Once its release is requested a family takes no new member. */
  lemma {:induction false} FamilyIsFrozen(worlds: seq<World>, events: seq<Event>, j: nat, k: nat, root: Token)
    requires IsRun(worlds, events) && j <= k < |worlds| && Freezing(worlds[j], root)
    ensures Freezing(worlds[k], root) && Family(worlds[k].rows, root) == Family(worlds[j].rows, root)
    decreases k
  {
    FreezingStays(worlds, events, j, k, root);
    if j < k {
      var i := k - 1;
      FamilyIsFrozen(worlds, events, j, i, root);
      FamilyKeepsMembers(worlds, events, i, root);
      assert Family(worlds[k].rows, root) == Family(worlds[i].rows, root);
    }
  }

  predicate Drained(w: World, root: Token) {
    forall t :: t in Family(w.rows, root) ==> w.rows[t].state == Released
  }

  /** A frozen family whose every member is released stays so, in all future worlds. */
  lemma FamilyStaysDrained(worlds: seq<World>, events: seq<Event>, j: nat, k: nat, root: Token)
    requires IsRun(worlds, events) && j <= k < |worlds| && Freezing(worlds[j], root) && Drained(worlds[j], root)
    ensures Freezing(worlds[k], root) && Drained(worlds[k], root)
  {
    FamilyIsFrozen(worlds, events, j, k, root);
    forall t | t in Family(worlds[k].rows, root) ensures worlds[k].rows[t].state == Released {
      assert t in Family(worlds[j].rows, root);
      RowAdvances(worlds, events, j, k, t);
    }
  }

  // ---- Custody, when the operations on each lease are serialised ----

  predicate OrderlyStep(e: Event, w: World)
    requires Possible(e, w)
  {
    match e
    case Written(_, token, write) => Orderly(write, w.rows[token], w.cloud)
    case Stopping(_, token, _) =>
      && w.rows[token].state == Releasing && w.rows[token].ownership != PreexistingRunning
      && 0 < w.rows[token].stopAttempts
    case _ => true
  }

  predicate IsOrderlyRun(worlds: seq<World>, events: seq<Event>) {
    IsRun(worlds, events) && forall k :: 0 <= k < |events| ==> OrderlyStep(events[k], worlds[k])
  }

  predicate InCustody(w: World) {
    forall t :: t in w.rows ==> Custody(w.rows[t], w.cloud)
  }

  lemma CustodyStays(l: Lease, c: Cloud, d: Cloud)
    requires Custody(l, c) && CloudFollows(c, d) && (l.request.token in d.holder ==> l.request.token in c.holder)
    ensures Custody(l, d)
  {}

  lemma WriteLeavesCustody(actor: Actor, write: Write, l: Lease, c: Cloud)
    requires Sound(l, c) && Custody(l, c) && Enabled(write, l, c) && Orderly(write, l, c)
    ensures Custody(Apply(write, l), CloudAfter(write, l, c, actor))
  {
    if Admits(write) {
      AdmissionKeepsCustody(write.a, l, c, actor);
      PatchKeepsEvidence(l, Patch(write, l));
      CustodyIgnoresNewEvidence(Columns(write, l), PatchedEvidence(l, Patch(write, l)).value, l.revision + 1,
                                CloudAfter(write, l, c, actor));
    } else {
      WriteKeepsCustody(write, l, c);
    }
  }

  lemma OthersKeepCustody(e: Event, w: World, t: Token)
    requires RowsOk(w.rows, w.cloud) && CloudInv(w.cloud) && Possible(e, w) && t in w.rows
      && Custody(w.rows[t], w.cloud)
    requires e.Written? ==> e.token != t
    ensures Custody(w.rows[t], After(e, w).cloud)
  {
    StepFollows(e, w);
    assert RowOk(t, w.rows[t], w.cloud);
    CustodyStays(w.rows[t], w.cloud, After(e, w).cloud);
  }

  lemma WrittenKeepsCustody(e: Event, w: World)
    requires RowsOk(w.rows, w.cloud) && CloudInv(w.cloud) && InCustody(w) && Possible(e, w) && OrderlyStep(e, w)
      && e.Written?
    ensures InCustody(After(e, w))
  {
    var l := w.rows[e.token];
    assert RowOk(e.token, l, w.cloud);
    WriteLeavesCustody(e.actor, e.write, l, w.cloud);
    forall t | t in w.rows && t != e.token ensures Custody(w.rows[t], After(e, w).cloud) { OthersKeepCustody(e, w, t); }
  }

  lemma NewLeaseInCustody(r: PodRequest, c: Cloud)
    requires ValidRequest(r) && r.token !in c.holder
    ensures Custody(NewLease(r), c)
  {}

  lemma StepKeepsCustody(e: Event, w: World)
    requires Inv(w) && InCustody(w) && Possible(e, w) && OrderlyStep(e, w)
    ensures InCustody(After(e, w))
  {
    if e.Written? {
      WrittenKeepsCustody(e, w);
    } else {
      if e.Reserved? { NewLeaseInCustody(e.request, w.cloud); }
      forall t | t in w.rows ensures Custody(w.rows[t], After(e, w).cloud) { OthersKeepCustody(e, w, t); }
    }
  }

  lemma OrderlyStepAt(worlds: seq<World>, events: seq<Event>, k: nat)
    requires IsOrderlyRun(worlds, events) && k < |events|
    ensures Inv(worlds[k]) && Possible(events[k], worlds[k]) && OrderlyStep(events[k], worlds[k])
    ensures worlds[k + 1] == After(events[k], worlds[k])
  {
    RunKeepsInv(worlds, events, k);
  }

  lemma CustodyIsHandedOn(worlds: seq<World>, events: seq<Event>, k: nat)
    requires IsOrderlyRun(worlds, events) && k < |events| && InCustody(worlds[k])
    ensures InCustody(worlds[k + 1])
  {
    OrderlyStepAt(worlds, events, k);
    StepKeepsCustody(events[k], worlds[k]);
  }

  lemma {:induction false} OrderlyRunKeepsCustody(worlds: seq<World>, events: seq<Event>, k: nat)
    requires IsOrderlyRun(worlds, events) && k < |worlds|
    ensures InCustody(worlds[k])
  {
    if k > 0 {
      OrderlyRunKeepsCustody(worlds, events, k - 1);
      CustodyIsHandedOn(worlds, events, k - 1);
    }
  }

  /** Custody and settlement: a released catalog lease whose create was admitted saw that
      create definitely rejected, or bound its Pod and had it confirmed halted; its billing is
      authoritative and, if there was a Pod, covers its termination at its realized rate. A
      create whose outcome is uncertain keeps the lease unreleased, at any time. */
  lemma ReleasedMeansSettled(worlds: seq<World>, events: seq<Event>, k: nat, t: Token)
    requires IsOrderlyRun(worlds, events) && k < |worlds| && t in worlds[k].rows && Catalog(worlds[k].rows[t])
    ensures var l := worlds[k].rows[t];
      && (l.uncertain ==> l.state != Released)
      && (l.state == Released ==> (
        && l.billing == Authoritative && l.receipt.Some?
        && (t !in worlds[k].cloud.holder || t in worlds[k].cloud.rejected
            || (l.podId.Some? && l.podId.value in worlds[k].cloud.halted && Covers(l, l.receipt.value)))))
  {
    OrderlyRunKeepsCustody(worlds, events, k);
    RowIsOk(worlds, events, k, t);
    assert Custody(worlds[k].rows[t], worlds[k].cloud);
  }

  /** With serialised operations no lease, of whatever kind, is marked cleaned up while its Pod is
      not confirmed halted, and a released one was let go: its Pod was running before the lease
      and was given back, or there is none, or it was confirmed halted. */
  lemma ReleasedMeansLetGo(worlds: seq<World>, events: seq<Event>, k: nat, t: Token)
    requires IsOrderlyRun(worlds, events) && k < |worlds| && t in worlds[k].rows
    ensures var l := worlds[k].rows[t];
      && (l.cleanup == Complete && l.podId.Some? ==> l.podId.value in worlds[k].cloud.halted)
      && (l.cleanup == NotOwned ==> l.request.source != Created && l.ownership == PreexistingRunning)
      && (l.uncertain ==> l.cleanup != Complete && l.state != Released)
      && (l.state == Released ==> LetGo(l, worlds[k].cloud))
  {
    OrderlyRunKeepsCustody(worlds, events, k);
    assert Custody(worlds[k].rows[t], worlds[k].cloud);
  }

  /** The create of the lease was admitted, was not refused and is not in doubt, but no Pod of it
      is known. */
  predicate Abandoned(l: Lease, c: Cloud) {
    && l.request.token in c.holder && l.request.token !in c.rejected
    && l.request.source == Created && !l.uncertain && l.podId.None?
  }

  predicate GivesUp(e: Event, t: Token) { e.Written? && e.token == t && e.write.ToAcquire? && e.write.a.GiveUp? }

  lemma AcquisitionAbandons(w: Acquisition, l: Lease, c: Cloud)
    requires Sound(l, c) && Custody(l, c) && KnownAcquiring(w, l, c) && OrderlyAcquiring(w, l)
    requires !w.StartCreate? && !Abandoned(l, c) && Abandoned(AcquisitionColumns(w, l), c)
    ensures w.GiveUp?
  {}

  lemma ClearingAbandonsNothing(w: Clearing, l: Lease, c: Cloud)
    requires Custody(l, c) && KnownClearing(w, l, c) && OrderlyClearing(w, l) && !Abandoned(l, c)
    ensures !Abandoned(ClearingColumns(w, l), c)
  {}

  lemma OthersAbandonNothing(w: Write, l: Lease, c: Cloud)
    requires Custody(l, c) && Known(w, l, c) && Orderly(w, l, c) && !w.ToAcquire? && !Abandoned(l, c)
    ensures !Abandoned(Columns(w, l), c)
  {
    match w {
      case ToWork(b) => WorkSpares(b, l);
      case ToHand(h) => HandingOverSpares(h, l);
      case ToClear(d) => ClearingAbandonsNothing(d, l, c);
      case _ =>
    }
  }

  lemma WriteAbandons(w: Write, l: Lease, c: Cloud)
    requires Sound(l, c) && Custody(l, c) && Enabled(w, l, c) && Orderly(w, l, c) && !Admits(w)
    requires !Abandoned(l, c) && Abandoned(Apply(w, l), c)
    ensures w.ToAcquire? && w.a.GiveUp?
  {
    assert Abandoned(Columns(w, l), c);
    if w.ToAcquire? { AcquisitionAbandons(w.a, l, c); } else { OthersAbandonNothing(w, l, c); }
  }

  lemma OtherStepsAbandonNothing(e: Event, w: World, t: Token)
    requires Possible(e, w) && t in w.rows && w.rows[t].request.token == t && (e.Written? ==> e.token != t)
    ensures Abandoned(After(e, w).rows[t], After(e, w).cloud) ==> Abandoned(w.rows[t], w.cloud)
  {}

  lemma AbandoningStep(e: Event, w: World, t: Token)
    requires Inv(w) && InCustody(w) && Possible(e, w) && OrderlyStep(e, w) && t in w.rows
    requires !Abandoned(w.rows[t], w.cloud) && Abandoned(After(e, w).rows[t], After(e, w).cloud)
    ensures GivesUp(e, t)
  {
    assert RowOk(t, w.rows[t], w.cloud) && Custody(w.rows[t], w.cloud);
    if !e.Written? || e.token != t {
      OtherStepsAbandonNothing(e, w, t);
    } else {
      if Admits(e.write) {
        AdmissionLeavesStarting(w.rows[t], e.write, w.cloud);
      } else {
        WriteAbandons(e.write, w.rows[t], w.cloud);
      }
    }
  }

  lemma AbandoningStepAt(worlds: seq<World>, events: seq<Event>, k: nat, t: Token)
    requires IsOrderlyRun(worlds, events) && k < |events| && t in worlds[k].rows
    requires !Abandoned(worlds[k].rows[t], worlds[k].cloud)
    requires t in worlds[k + 1].rows && Abandoned(worlds[k + 1].rows[t], worlds[k + 1].cloud)
    ensures GivesUp(events[k], t) && events[k].write.a.at >= worlds[k].rows[t].request.readinessDeadline
    ensures !Catalog(worlds[k].rows[t])
  {
    OrderlyStepAt(worlds, events, k);
    OrderlyRunKeepsCustody(worlds, events, k);
    AbandoningStep(events[k], worlds[k], t);
  }

  lemma NewRowsAreNotAbandoned(e: Event, w: World, t: Token)
    requires Possible(e, w) && t !in w.rows && t !in w.cloud.holder && t in After(e, w).rows
    ensures !Abandoned(After(e, w).rows[t], After(e, w).cloud)
  {
    assert e.Reserved? && e.request.token == t;
  }

  lemma NobodyIsBornAbandoned(worlds: seq<World>, events: seq<Event>, k: nat, t: Token)
    requires IsRun(worlds, events) && k < |events| && t !in worlds[k].rows && t in worlds[k + 1].rows
    ensures !Abandoned(worlds[k + 1].rows[t], worlds[k + 1].cloud)
  {
    RunKeepsInv(worlds, events, k);
    assert NamesRows(worlds[k].cloud, worlds[k].rows);
    NewRowsAreNotAbandoned(events[k], worlds[k], t);
  }

  /** With serialised operations a create that was sent and never refused is forgotten in one way
      only: a training lease gave it up after its readiness deadline. A catalog lease never does. */
  lemma {:induction false} CreatesAreOnlyGivenUp(worlds: seq<World>, events: seq<Event>, k: nat, t: Token)
    requires IsOrderlyRun(worlds, events) && k < |worlds| && t in worlds[k].rows
    requires Abandoned(worlds[k].rows[t], worlds[k].cloud)
    ensures !Catalog(worlds[k].rows[t])
    ensures exists i :: 0 <= i < k && GivesUp(events[i], t)
                        && events[i].write.a.at >= worlds[k].rows[t].request.readinessDeadline
  {
    var i := k - 1;
    if t !in worlds[i].rows {
      NobodyIsBornAbandoned(worlds, events, i, t);
    } else {
      RowAdvances(worlds, events, i, k, t);
      if Abandoned(worlds[i].rows[t], worlds[i].cloud) {
        CreatesAreOnlyGivenUp(worlds, events, i, t);
      } else {
        AbandoningStepAt(worlds, events, i, t);
      }
    }
  }

  /** The lease is past REQUESTED and nothing of it can be billing. */
  predicate Idles(w: World, t: Token) {
    t in w.rows && w.rows[t].state != Requested && NothingRuns(w.rows[t], w.cloud)
  }

  /** Once nothing of a lease can be billing, nothing ever will: no later step, of any caller
      and in any order, admits a create for it or undoes a halt. */
  lemma IdleStepStays(e: Event, w: World, t: Token)
    requires RowsOk(w.rows, w.cloud) && CloudInv(w.cloud) && Possible(e, w) && Idles(w, t)
    ensures Idles(After(e, w), t)
  {
    StepFollows(e, w);
    assert RowOk(t, w.rows[t], w.cloud);
    if t !in w.cloud.holder && t in After(e, w).cloud.holder { HolderIsNew(e, w, t); }
  }

  lemma {:induction false} IdleStays(worlds: seq<World>, events: seq<Event>, j: nat, k: nat, t: Token)
    requires IsRun(worlds, events) && j <= k < |worlds| && Idles(worlds[j], t)
    ensures Idles(worlds[k], t)
    decreases k
  {
    if j < k {
      IdleStays(worlds, events, j, k - 1, t);
      RunKeepsInv(worlds, events, k - 1);
      IdleStepStays(events[k - 1], worlds[k - 1], t);
    }
  }

  // ---- Pods that were running before ----

  predicate FoundRunning(w: World, t: Token) { t in w.rows && w.rows[t].ownership == PreexistingRunning }

  /** What an orderly step leaves of a claim that is past REQUESTED. */
  lemma StepKeepsOwnership(e: Event, w: World, t: Token)
    requires Inv(w) && Possible(e, w) && OrderlyStep(e, w) && t in w.rows && w.rows[t].state != Requested
    ensures FoundRunning(After(e, w), t) <==> FoundRunning(w, t)
  {
    if e.Written? && e.token == t {
      assert RowOk(t, w.rows[t], w.cloud);
      OwnershipIsDecided(e.write, w.rows[t], w.cloud);
    }
  }

  lemma OwnershipIsHandedOn(worlds: seq<World>, events: seq<Event>, k: nat, t: Token)
    requires IsOrderlyRun(worlds, events) && k < |events| && t in worlds[k].rows && worlds[k].rows[t].state != Requested
    ensures FoundRunning(worlds[k + 1], t) <==> FoundRunning(worlds[k], t)
  {
    OrderlyStepAt(worlds, events, k);
    StepKeepsOwnership(events[k], worlds[k], t);
  }

  lemma StaysClaimed(worlds: seq<World>, events: seq<Event>, j: nat, k: nat, t: Token)
    requires IsRun(worlds, events) && j <= k < |worlds| && t in worlds[j].rows && worlds[j].rows[t].state != Requested
    ensures t in worlds[k].rows && worlds[k].rows[t].state != Requested
  {
    RowAdvances(worlds, events, j, k, t);
  }

  lemma {:induction false} OwnershipStaysDecided(worlds: seq<World>, events: seq<Event>, j: nat, k: nat, t: Token)
    requires IsOrderlyRun(worlds, events) && j <= k < |worlds|
    requires t in worlds[j].rows && worlds[j].rows[t].state != Requested
    ensures FoundRunning(worlds[k], t) <==> FoundRunning(worlds[j], t)
    decreases k
  {
    if j < k {
      var i := k - 1;
      OwnershipStaysDecided(worlds, events, j, i, t);
      StaysClaimed(worlds, events, j, i, t);
      OwnershipIsHandedOn(worlds, events, i, t);
      assert FoundRunning(worlds[k], t) <==> FoundRunning(worlds[i], t);
    }
  }

  /** A Pod that was found running is never asked to stop: with serialised operations no
      world, before or after, shows the lease of a stopped Pod as PREEXISTING_RUNNING. */
  lemma FoundRunningIsNeverStopped(worlds: seq<World>, events: seq<Event>, j: nat, k: nat)
    requires IsOrderlyRun(worlds, events) && j < |worlds| && k < |events| && events[k].Stopping?
    ensures !FoundRunning(worlds[j], events[k].token)
  {
    var t := events[k].token;
    OrderlyStepAt(worlds, events, k);
    if k <= j {
      OwnershipStaysDecided(worlds, events, k, j, t);
    } else if t in worlds[j].rows {
      RowIsOk(worlds, events, j, t);
      if worlds[j].rows[t].state != Requested { OwnershipStaysDecided(worlds, events, j, k, t); }
    }
  }

  /** Only the Pod that the lease holds for ever is asked to stop; for a created lease that is
      the Pod its own create made. */
  lemma StopsOnlyItsOwnPod(worlds: seq<World>, events: seq<Event>, k: nat, m: nat)
    requires IsRun(worlds, events) && k < |events| && k <= m < |worlds| && events[k].Stopping?
    ensures var t, pod := events[k].token, events[k].pod;
      && t in worlds[m].rows && worlds[m].rows[t].podId == Some(pod)
      && (worlds[m].rows[t].request.source == Created ==> t in worlds[m].cloud.pods && worlds[m].cloud.pods[t] == pod)
  {
    RowAdvances(worlds, events, k, m, events[k].token);
    RowIsOk(worlds, events, m, events[k].token);
  }

  // ---- Claims of Pods that exist ----

  /** The step that takes a claim out of REQUESTED. */
  predicate LeavesRequested(worlds: seq<World>, events: seq<Event>, i: nat, t: Token) {
    && i < |events| && |worlds| == |events| + 1 && events[i].Written? && events[i].token == t
    && t in worlds[i].rows && worlds[i].rows[t].state == Requested
    && t in worlds[i + 1].rows && worlds[i + 1].rows[t].state != Requested
  }

  /** The ways out of REQUESTED after which a claimed Pod may be asked to stop: it was observed
      stopped, or nobody has looked at it (the claim was released, its cancellation requested,
      or the end of its job recorded). */
  predicate NotFoundRunning(w: Write) {
    match w
    case ToAcquire(ClaimStopped(_)) => true
    case ToWork(RequestCancel(_)) => true
    case ToWork(RecordStatus(status, _)) => status != Other
    case ToClear(BeginRelease(_)) => true
    case _ => false
  }

  lemma AcquisitionExit(w: Acquisition, l: Lease, c: Cloud)
    requires Sound(l, c) && KnownAcquiring(w, l, c) && l.state == Requested && l.request.source != Created
    requires AcquisitionColumns(w, l).state !in {Requested, Released}
    requires AcquisitionColumns(w, l).ownership != PreexistingRunning
    ensures NotFoundRunning(ToAcquire(w))
  {}

  lemma OtherExit(w: Write, l: Lease, c: Cloud)
    requires Sound(l, c) && Known(w, l, c) && l.state == Requested && l.request.source != Created && !w.ToAcquire?
    requires Columns(w, l).state !in {Requested, Released}
    ensures NotFoundRunning(w)
  {}

  lemma ExitKind(w: Write, l: Lease, c: Cloud)
    requires Sound(l, c) && Enabled(w, l, c) && l.state == Requested && l.request.source != Created
    requires Apply(w, l).state !in {Requested, Released} && Apply(w, l).ownership != PreexistingRunning
    ensures NotFoundRunning(w)
  {
    assert Apply(w, l).state == Columns(w, l).state && Apply(w, l).ownership == Columns(w, l).ownership;
    if w.ToAcquire? { AcquisitionExit(w.a, l, c); } else { OtherExit(w, l, c); }
  }

  lemma {:induction false} FindExit(worlds: seq<World>, events: seq<Event>, k: nat, t: Token) returns (i: nat)
    requires IsRun(worlds, events) && k < |worlds| && t in worlds[k].rows && worlds[k].rows[t].state != Requested
    ensures i < k && LeavesRequested(worlds, events, i, t)
  {
    if t in worlds[k - 1].rows && worlds[k - 1].rows[t].state != Requested {
      i := FindExit(worlds, events, k - 1, t);
    } else {
      i := k - 1;
    }
  }

  /** The exit of a claim whose Pod is asked to stop later. */
  lemma StoppedAfterExit(worlds: seq<World>, events: seq<Event>, i: nat, k: nat, t: Token)
    requires IsOrderlyRun(worlds, events) && i < k < |events| && LeavesRequested(worlds, events, i, t)
    requires events[k].Stopping? && events[k].token == t && worlds[i].rows[t].request.source != Created
    ensures NotFoundRunning(events[i].write)
  {
    OrderlyStepAt(worlds, events, i);
    OrderlyStepAt(worlds, events, k);
    RowIsOk(worlds, events, i, t);
    RowAdvances(worlds, events, i + 1, k, t);
    FoundRunningIsNeverStopped(worlds, events, i + 1, k);
    ExitKind(events[i].write, worlds[i].rows[t], worlds[i].cloud);
  }

  /** With serialised operations the Pod of a claim is asked to stop only if the claim left
      REQUESTED without finding it running: it found it stopped, which was observed for it before,
      or never looked. */
  lemma StopNeedsAnExit(worlds: seq<World>, events: seq<Event>, k: nat)
    requires IsOrderlyRun(worlds, events) && k < |events| && events[k].Stopping?
    requires worlds[k].rows[events[k].token].request.source != Created
    ensures exists i :: 0 <= i < k && LeavesRequested(worlds, events, i, events[k].token)
                        && NotFoundRunning(events[i].write)
                        && (events[i].write.ToAcquire? ==>
                              AnsweredBefore(events, i, Sighted(events[k].token, events[k].pod, PodStopped)))
  {
    var t := events[k].token;
    OrderlyStepAt(worlds, events, k);
    var i := FindExit(worlds, events, k, t);
    RowAdvances(worlds, events, i, k, t);
    StoppedAfterExit(worlds, events, i, k, t);
    if events[i].write.ToAcquire? { StoppedClaimLooked(worlds, events, i, k, t); }
  }

  lemma StoppedClaimLooked(worlds: seq<World>, events: seq<Event>, i: nat, k: nat, t: Token)
    requires IsOrderlyRun(worlds, events) && i < k < |events| && LeavesRequested(worlds, events, i, t)
    requires events[i].write.ToAcquire? && events[i].write.a.ClaimStopped?
    requires events[k].Stopping? && events[k].token == t
    ensures AnsweredBefore(events, i, Sighted(t, events[k].pod, PodStopped))
  {
    OrderlyStepAt(worlds, events, i);
    OrderlyStepAt(worlds, events, k);
    RowIsOk(worlds, events, i, t);
    RowAdvances(worlds, events, i, k, t);
    AnswersHappened(worlds, events, i, Sighted(t, events[k].pod, PodStopped));
  }

  /** A claim that left REQUESTED by looking at its Pod, and that only ever saw it running, is
      never asked to stop it, in any serialised run. */
  lemma SeenRunningIsNeverStopped(worlds: seq<World>, events: seq<Event>, i: nat, k: nat)
    requires IsOrderlyRun(worlds, events) && k < |events| && events[k].Stopping?
    requires LeavesRequested(worlds, events, i, events[k].token) && events[i].write.ToAcquire?
    requires worlds[i].rows[events[k].token].request.source != Created
    ensures exists j :: 0 <= j < i && events[j].Answering? && events[j].answer.Sighted?
                        && events[j].answer.token == events[k].token && events[j].answer.status != PodRunning
  {
    var t := events[k].token;
    OrderlyStepAt(worlds, events, k);
    if k <= i {
      RowAdvances(worlds, events, k, i, t);
      RowIsOk(worlds, events, k, t);
      assert false;
    }
    StoppedAfterExit(worlds, events, i, k, t);
    StoppedClaimLooked(worlds, events, i, k, t);
  }
}
