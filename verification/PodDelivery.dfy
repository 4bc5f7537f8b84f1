/** A catalog attempt can run to the delivery of its result: for every attempt under the
    artifact handoff protocol, the serialised run that creates its Pod, works, hands its result
    over and is told that the host has it. */
module PodDelivery {

  import opened Results
  import opened PodLeases
  import opened PodWrites
  import opened PodInvariants
  import opened PodCustody
  import opened PodRuns
  import opened PodGuarantees
  import opened PodCounterexample

  /** Observations made at one time are in order, whichever of them were made. */
  lemma AllAtOnce(reservedAt: int, t: Times, at: int)
    requires reservedAt <= at && t.adopted.None?
    requires forall i :: 0 < i < 9 && Timeline(reservedAt, t)[i].Some? ==> Timeline(reservedAt, t)[i].value == at
    ensures ValidTimes(reservedAt, t)
  {}

  /** The result that the worker reports and the host acknowledges. */
  datatype Outcome = Outcome(resultSha: Digest, receiptSha: Digest, intent: Intent)

  function Report(s: Spec, state: Workload, x: Outcome): Observation {
    Observation(s.attempt, s.requestSha, state, x.resultSha, x.receiptSha, x.intent.ackSha)
  }

  function Acknowledging(s: Spec, x: Outcome): Ack {
    Ack(s.attempt, s.requestSha, x.resultSha, x.receiptSha, x.intent)
  }

  function Seen(r: PodRequest, pod: PodId): Cloud {
    Landed(r, pod).(answers := {Sighted(r.token, pod, PodRunning), Healthy(r.token)})
  }

  function Sent(r: PodRequest, pod: PodId, x: Outcome): Cloud {
    Seen(r, pod).(dispatched := {(r.token, x.intent)})
  }

  /** The row one revision later, with these times. */
  function With(l: Lease, t: Times): Lease
    requires l.evidence.Some?
  {
    l.(evidence := Some(l.evidence.value.(times := t)), revision := l.revision + 1)
  }

  function RunningPod(r: PodRequest, at: int, pod: PodId, route: Option<string>): Lease
    requires r.spec.Some?
  {
    With(Bound(r, at, pod).(route := route), BoundTimes(at).(firstRunning := Some(at)))
  }

  function ReadyPod(r: PodRequest, at: int, pod: PodId, route: Option<string>): Lease
    requires r.spec.Some?
  {
    With(RunningPod(r, at, pod, route).(state := Ready),
         BoundTimes(at).(firstRunning := Some(at), workerReady := Some(at)))
  }

  function Submitted(r: PodRequest, at: int, pod: PodId, route: Option<string>): Lease
    requires r.spec.Some?
  {
    With(ReadyPod(r, at, pod, route).(state := JobSubmitted, workload := Running, jobId := Some(r.spec.value.attempt)),
         BoundTimes(at).(firstRunning := Some(at), workerReady := Some(at), submitted := Some(at), running := Some(at)))
  }

  function EndTimes(at: int): Times {
    BoundTimes(at).(firstRunning := Some(at), workerReady := Some(at), submitted := Some(at), running := Some(at),
                    ended := Some(at))
  }

  function Offer(r: PodRequest, x: Outcome): Handoff
    requires r.spec.Some?
  {
    Handoff(r.spec.value.attempt, r.spec.value.requestSha, x.resultSha, x.receiptSha, None, None, None)
  }

  function Finished(r: PodRequest, at: int, pod: PodId, route: Option<string>, x: Outcome): Lease
    requires r.spec.Some?
  {
    With(Submitted(r, at, pod, route).(state := JobCompleted, workload := AwaitingAck, handoff := Some(Offer(r, x))),
         EndTimes(at))
  }

  function Intending(r: PodRequest, at: int, pod: PodId, route: Option<string>, x: Outcome): Lease
    requires r.spec.Some?
  {
    With(Finished(r, at, pod, route, x).(handoff := Some(Offer(r, x).(intent := Some(x.intent)))), EndTimes(at))
  }

  function Accepted(r: PodRequest, at: int, pod: PodId, route: Option<string>, x: Outcome): Lease
    requires r.spec.Some?
  {
    With(Intending(r, at, pod, route, x).(
           workload := Acknowledged,
           handoff := Some(Offer(r, x).(intent := Some(x.intent), remoteAckAt := Some(at)))),
         EndTimes(at))
  }

  function Delivered(r: PodRequest, at: int, pod: PodId, route: Option<string>, x: Outcome): Lease
    requires r.spec.Some?
  {
    With(Accepted(r, at, pod, route, x).(
           state := ResultRetrieved,
           handoff := Some(Offer(r, x).(intent := Some(x.intent), remoteAckAt := Some(at), confirmedAt := Some(at)))),
         EndTimes(at))
  }

  // ---- Each stage is one write ----

  predicate Leads(w: Write, l: Lease, m: Lease, c: Cloud) {
    Enabled(w, l, c) && Orderly(w, l, c) && !Admits(w) && Apply(w, l) == m
  }

  lemma Runs(r: PodRequest, at: int, pod: PodId, route: Option<string>)
    requires ValidRequest(r) && r.spec.Some? && r.createdAt <= at
    ensures Leads(ToAcquire(Observed(route, true, at)), Bound(r, at, pod), RunningPod(r, at, pod, route), Seen(r, pod))
  {
    AllAtOnce(r.createdAt, BoundTimes(at).(firstRunning := Some(at)), at);
  }

  lemma BecomesReady(r: PodRequest, at: int, pod: PodId, route: Option<string>)
    requires ValidRequest(r) && r.spec.Some? && r.createdAt <= at
    ensures Leads(ToAcquire(BecomeReady(at)), RunningPod(r, at, pod, route), ReadyPod(r, at, pod, route), Seen(r, pod))
  {
    AllAtOnce(r.createdAt, BoundTimes(at).(firstRunning := Some(at), workerReady := Some(at)), at);
  }

  lemma Submits(r: PodRequest, at: int, pod: PodId, route: Option<string>, x: Outcome)
    requires ValidRequest(r) && r.spec.Some? && r.spec.value.handoff && r.createdAt <= at
    ensures Leads(ToHand(Observe(Report(r.spec.value, Running, x), true, at)), ReadyPod(r, at, pod, route),
                  Submitted(r, at, pod, route), Seen(r, pod))
  {
    AllAtOnce(r.createdAt, BoundTimes(at).(firstRunning := Some(at), workerReady := Some(at), submitted := Some(at),
                                           running := Some(at)), at);
  }

  lemma Finishes(r: PodRequest, at: int, pod: PodId, route: Option<string>, x: Outcome)
    requires ValidRequest(r) && r.spec.Some? && r.spec.value.handoff && r.createdAt <= at
    ensures Leads(ToHand(Observe(Report(r.spec.value, AwaitingAck, x), false, at)), Submitted(r, at, pod, route),
                  Finished(r, at, pod, route, x), Seen(r, pod))
  {
    AllAtOnce(r.createdAt, EndTimes(at), at);
  }

  lemma Intends(r: PodRequest, at: int, pod: PodId, route: Option<string>, x: Outcome)
    requires ValidRequest(r) && r.spec.Some? && r.spec.value.handoff && r.createdAt <= at
    ensures Leads(ToHand(BindAck(Acknowledging(r.spec.value, x))), Finished(r, at, pod, route, x),
                  Intending(r, at, pod, route, x), Seen(r, pod))
  {
    AllAtOnce(r.createdAt, EndTimes(at), at);
  }

  lemma Accepts(r: PodRequest, at: int, pod: PodId, route: Option<string>, x: Outcome)
    requires ValidRequest(r) && r.spec.Some? && r.spec.value.handoff && r.createdAt <= at
    ensures Leads(ToHand(Observe(Report(r.spec.value, Acknowledged, x), false, at)), Intending(r, at, pod, route, x),
                  Accepted(r, at, pod, route, x), Sent(r, pod, x))
  {
    AllAtOnce(r.createdAt, EndTimes(at), at);
  }

  lemma Confirms(r: PodRequest, at: int, pod: PodId, route: Option<string>, x: Outcome)
    requires ValidRequest(r) && r.spec.Some? && r.spec.value.handoff && r.createdAt <= at
    ensures Leads(ToHand(HostConfirm(at, at)), Accepted(r, at, pod, route, x), Delivered(r, at, pod, route, x),
                  Sent(r, pod, x))
  {
    AllAtOnce(r.createdAt, EndTimes(at), at);
  }

  // ---- The run ----

  /** One more write of the row. */
  lemma Extended(before: seq<World>, done: seq<Event>, others: map<Token, Lease>, r: PodRequest, l: Lease, m: Lease,
    c: Cloud, w: Write) returns (worlds: seq<World>, events: seq<Event>)
    requires IsOrderlyRun(before, done) && before[|before| - 1] == Beside(others, r, l, c) && l.request == r
    requires AllReleased(others) && Leads(w, l, m, c)
    ensures IsOrderlyRun(worlds, events) && worlds[|worlds| - 1] == Beside(others, r, m, c)
    ensures events == done + [Written(OWNER, r.token, w)]
  {
    WriteBeside(before, done, others, r, l, c, w);
    worlds, events := before + [Beside(others, r, m, c)], done + [Written(OWNER, r.token, w)];
  }

  /** The bound Pod is seen running and its worker answers. */
  lemma RunToSeen(others: map<Token, Lease>, r: PodRequest, at: int, pod: PodId, before: seq<World>, done: seq<Event>)
    returns (worlds: seq<World>, events: seq<Event>)
    requires AllReleased(others) && r.token !in others && FamilyOpen(others, r)
    requires ValidRequest(r) && r.spec.Some? && r.createdAt <= at
    requires IsOrderlyRun(before, done) && before[|before| - 1] == World(others, CLEAR_SKY)
    ensures IsOrderlyRun(worlds, events)
    ensures worlds[|worlds| - 1] == Beside(others, r, Bound(r, at, pod), Seen(r, pod))
  {
    worlds, events := RunToBound(others, r, at, pod, before, done);
    var look, probe := Answering(OWNER, Sighted(r.token, pod, PodRunning)), Answering(OWNER, Healthy(r.token));
    var bound := Beside(others, r, Bound(r, at, pod), Landed(r, pod));
    var looked := bound.(cloud := Landed(r, pod).(answers := {look.answer}));
    assert Landed(r, pod).answers + {look.answer} == {look.answer};
    assert Landed(r, pod).halted + {} == Landed(r, pod).halted;
    assert {look.answer} + {probe.answer} == Seen(r, pod).answers;
    Extend(worlds, events, bound, look, looked);
    worlds, events := worlds + [looked], events + [look];
    Extend(worlds, events, looked, probe, bound.(cloud := Seen(r, pod)));
    worlds, events := worlds + [bound.(cloud := Seen(r, pod))], events + [probe];
  }

  lemma RunToReady(others: map<Token, Lease>, r: PodRequest, at: int, pod: PodId, route: Option<string>,
    before: seq<World>, done: seq<Event>) returns (worlds: seq<World>, events: seq<Event>)
    requires AllReleased(others) && ValidRequest(r) && r.spec.Some? && r.createdAt <= at && IsOrderlyRun(before, done)
    requires before[|before| - 1] == Beside(others, r, Bound(r, at, pod), Seen(r, pod))
    ensures IsOrderlyRun(worlds, events)
    ensures worlds[|worlds| - 1] == Beside(others, r, ReadyPod(r, at, pod, route), Seen(r, pod))
  {
    var bound, running, c := Bound(r, at, pod), RunningPod(r, at, pod, route), Seen(r, pod);
    Runs(r, at, pod, route);
    worlds, events := Extended(before, done, others, r, bound, running, c, ToAcquire(Observed(route, true, at)));
    BecomesReady(r, at, pod, route);
    worlds, events := Extended(worlds, events, others, r, running, ReadyPod(r, at, pod, route), c,
                               ToAcquire(BecomeReady(at)));
  }

  lemma RunToIntent(others: map<Token, Lease>, r: PodRequest, at: int, pod: PodId, route: Option<string>, x: Outcome,
    before: seq<World>, done: seq<Event>) returns (worlds: seq<World>, events: seq<Event>)
    requires AllReleased(others) && ValidRequest(r) && r.spec.Some? && r.spec.value.handoff && r.createdAt <= at
    requires IsOrderlyRun(before, done)
    requires before[|before| - 1] == Beside(others, r, ReadyPod(r, at, pod, route), Seen(r, pod))
    ensures IsOrderlyRun(worlds, events)
    ensures worlds[|worlds| - 1] == Beside(others, r, Intending(r, at, pod, route, x), Seen(r, pod))
    ensures events == done + [Written(OWNER, r.token, ToHand(Observe(Report(r.spec.value, Running, x), true, at)))]
                    + [Written(OWNER, r.token, ToHand(Observe(Report(r.spec.value, AwaitingAck, x), false, at)))]
                    + [Written(OWNER, r.token, ToHand(BindAck(Acknowledging(r.spec.value, x))))]
  {
    var submitted, finished := Submitted(r, at, pod, route), Finished(r, at, pod, route, x);
    var s, c := r.spec.value, Seen(r, pod);
    Submits(r, at, pod, route, x);
    worlds, events := Extended(before, done, others, r, ReadyPod(r, at, pod, route), submitted, c,
                               ToHand(Observe(Report(s, Running, x), true, at)));
    Finishes(r, at, pod, route, x);
    worlds, events := Extended(worlds, events, others, r, submitted, finished, c,
                               ToHand(Observe(Report(s, AwaitingAck, x), false, at)));
    Intends(r, at, pod, route, x);
    worlds, events := Extended(worlds, events, others, r, finished, Intending(r, at, pod, route, x), c,
                               ToHand(BindAck(Acknowledging(s, x))));
  }

  lemma RunToDelivery(others: map<Token, Lease>, r: PodRequest, at: int, pod: PodId, route: Option<string>, x: Outcome,
    before: seq<World>, done: seq<Event>) returns (worlds: seq<World>, events: seq<Event>)
    requires AllReleased(others) && ValidRequest(r) && r.spec.Some? && r.spec.value.handoff && r.createdAt <= at
    requires IsOrderlyRun(before, done)
    requires before[|before| - 1] == Beside(others, r, Intending(r, at, pod, route, x), Seen(r, pod))
    ensures IsOrderlyRun(worlds, events)
    ensures worlds[|worlds| - 1] == Beside(others, r, Delivered(r, at, pod, route, x), Sent(r, pod, x))
    ensures events == done + [Dispatching(OWNER, r.token, x.intent)]
                    + [Written(OWNER, r.token, ToHand(Observe(Report(r.spec.value, Acknowledged, x), false, at)))]
                    + [Written(OWNER, r.token, ToHand(HostConfirm(at, at)))]
  {
    var intending := Beside(others, r, Intending(r, at, pod, route, x), Seen(r, pod));
    var accepted, c := Accepted(r, at, pod, route, x), Sent(r, pod, x);
    assert Seen(r, pod).dispatched + {(r.token, x.intent)} == {(r.token, x.intent)};
    Extend(before, done, intending, Dispatching(OWNER, r.token, x.intent), intending.(cloud := c));
    worlds, events := before + [intending.(cloud := c)], done + [Dispatching(OWNER, r.token, x.intent)];
    Accepts(r, at, pod, route, x);
    worlds, events := Extended(worlds, events, others, r, Intending(r, at, pod, route, x), accepted, c,
                               ToHand(Observe(Report(r.spec.value, Acknowledged, x), false, at)));
    Confirms(r, at, pod, route, x);
    worlds, events := Extended(worlds, events, others, r, accepted, Delivered(r, at, pod, route, x), c,
                               ToHand(HostConfirm(at, at)));
  }

  /** Every attempt under the handoff protocol can be worked on to the end: its Pod is seen
      running, its job runs and awaits the acknowledgement, the intent is stored before it is
      dispatched, the worker acknowledges exactly that, and the host confirms it. */
  lemma ResultCanBeDelivered(r: PodRequest, at: int, pod: PodId, route: Option<string>, x: Outcome)
    returns (worlds: seq<World>, events: seq<Event>)
    requires ValidRequest(r) && r.spec.Some? && r.spec.value.handoff && r.createdAt <= at
    ensures IsOrderlyRun(worlds, events) && |events| >= 6
    ensures events[|events| - 6..] ==
      [Written(OWNER, r.token, ToHand(Observe(Report(r.spec.value, Running, x), true, at))),
       Written(OWNER, r.token, ToHand(Observe(Report(r.spec.value, AwaitingAck, x), false, at))),
       Written(OWNER, r.token, ToHand(BindAck(Acknowledging(r.spec.value, x)))),
       Dispatching(OWNER, r.token, x.intent),
       Written(OWNER, r.token, ToHand(Observe(Report(r.spec.value, Acknowledged, x), false, at))),
       Written(OWNER, r.token, ToHand(HostConfirm(at, at)))]
    ensures var w := worlds[|worlds| - 1];
      && r.token in w.rows && w.rows[r.token].state == ResultRetrieved && w.rows[r.token].workload == Acknowledged
      && w.rows[r.token].podId == Some(pod) && (r.token, x.intent) in w.cloud.dispatched
      && w.rows[r.token].handoff == Some(Handoff(r.spec.value.attempt, r.spec.value.requestSha, x.resultSha,
                                                 x.receiptSha, Some(x.intent), Some(at), Some(at)))
  {
    var others, before, done := RunToRoot(r);
    worlds, events := RunToSeen(others, r, at, pod, before, done);
    worlds, events := RunToReady(others, r, at, pod, route, worlds, events);
    worlds, events := RunToIntent(others, r, at, pod, route, x, worlds, events);
    worlds, events := RunToDelivery(others, r, at, pod, route, x, worlds, events);
  }
}
