/** Planning the spend of an Ollama lease before anything billable exists, and the
    accrual bound the lease is held to afterwards
    (kestrel_cloud_runpod/ollama_contracts.py). Rates and costs are exact reals, times
    are integer microseconds. */
module SpendPlan {

  import opened Results

  datatype Error = InvalidWorkers | NoRuntimeLeft | PolicyMissing | NothingAffordable | InvalidPlan

  type Outcome<T> = Result<T, Error>

  datatype Mode = Automatic | ServerlessLoadBalancer | DedicatedPod

  datatype Product = ServerlessProduct | PodProduct

  datatype ResourceType = Endpoint | Pod

  datatype Decision = Decision(product: Product, hourlyRate: real, gpuCount: int)

  datatype Policy = Policy(estimated: real, maximum: real, components: seq<nat>)

  datatype Request = Request(
    mode: Mode, sessionSeconds: int, activeSeconds: int, initializationSeconds: int, idleTailSeconds: int,
    hardDeadline: int, authorized: real, maxHourlyRate: Option<real>)

  datatype Plan = Plan(
    mode: Mode, resourceType: ResourceType, placement: Decision,
    estimatedCompute: real, maximumCompute: real, estimatedOverhead: real, maximumOverhead: real,
    estimatedCost: real, ceiling: real, estimatedSeconds: int, maximumSeconds: int, workers: int,
    components: seq<nat>, coldStarts: int)

  const SECOND: int := 1_000_000

  /** What the request constructor enforces. */
  predicate ValidRequest(r: Request) {
    && 0 < r.activeSeconds <= r.sessionSeconds && 0 <= r.initializationSeconds && 0 <= r.idleTailSeconds
    && 0.0 < r.authorized
  }

  /** Components are named once each and in order. */
  predicate SortedOnce(components: seq<nat>) {
    components != [] && forall i, j :: 0 <= i < j < |components| ==> components[i] < components[j]
  }

  /** What the cost-policy constructor enforces. */
  predicate ValidPolicy(p: Policy) {
    0.0 <= p.estimated <= p.maximum && SortedOnce(p.components)
  }

  function Magnitude(x: real): real { if x < 0.0 then -x else x }

  /** math.isclose with both tolerances at 1e-12. */
  predicate Close(a: real, b: real) {
    var larger := if Magnitude(a) < Magnitude(b) then Magnitude(b) else Magnitude(a);
    Magnitude(a - b) <= 0.000000000001 * larger || Magnitude(a - b) <= 0.000000000001
  }

  function RatedCost(hourlyRate: real, seconds: int, gpuCount: int): real {
    hourlyRate * seconds as real * gpuCount as real / 3600.0
  }

  /** What the plan constructor enforces. */
  predicate ValidPlan(p: Plan) {
    && p.coldStarts >= 0
    && (p.resourceType == Endpoint ==> p.coldStarts >= 1)
    && (p.resourceType == Pod ==> p.coldStarts == 0)
    && 0.0 <= p.estimatedCompute && 0.0 <= p.maximumCompute
    && 0.0 <= p.estimatedOverhead && 0.0 <= p.maximumOverhead
    && 0.0 <= p.estimatedCost && 0.0 <= p.ceiling
    && 1 <= p.estimatedSeconds && 1 <= p.maximumSeconds && 1 <= p.workers
    && p.estimatedCompute <= p.maximumCompute
    && p.estimatedSeconds <= p.maximumSeconds
    && p.estimatedOverhead <= p.maximumOverhead
    && Close(p.estimatedCompute, RatedCost(p.placement.hourlyRate, p.estimatedSeconds, p.placement.gpuCount))
    && Close(p.maximumCompute, RatedCost(p.placement.hourlyRate, p.maximumSeconds, p.placement.gpuCount))
    && (p.resourceType == Pod ==> p.workers == 1)
    && Close(p.estimatedCost, p.estimatedCompute + p.estimatedOverhead)
    && Close(p.ceiling, p.maximumCompute + p.maximumOverhead)
    && p.estimatedCost <= p.ceiling
    && ValidPolicy(Policy(p.estimatedOverhead, p.maximumOverhead, p.components))
  }

  function Construct(p: Plan): Outcome<Plan> {
    if ValidPlan(p) then Success(p) else Failure(InvalidPlan)
  }

  /** Whole seconds left, rounded up. */
  function RemainingSeconds(hardDeadline: int, at: int): (seconds: int)
    ensures (seconds - 1) * SECOND < hardDeadline - at <= seconds * SECOND
  {
    (hardDeadline - at + SECOND - 1) / SECOND
  }

  function MaximumColdStarts(sessionSeconds: int, idleTailSeconds: int): Option<int> {
    if idleTailSeconds <= 0 then None else Some(1 + sessionSeconds / idleTailSeconds)
  }

  function Larger(a: int, b: int): int { if a < b then b else a }

  function BillableSeconds(r: Request, coldStarts: int): int {
    r.activeSeconds + coldStarts * (r.initializationSeconds + r.idleTailSeconds)
  }

  /** The plan with every cost derived from its rate, its times and its policy. */
  function RatedPlan(mode: Mode, resourceType: ResourceType, d: Decision, p: Policy, estimated: int, maximum: int,
    workers: int, coldStarts: int): Plan
  {
    var estimatedCompute := RatedCost(d.hourlyRate, estimated, d.gpuCount);
    var maximumCompute := RatedCost(d.hourlyRate, maximum, d.gpuCount);
    Plan(mode, resourceType, d, estimatedCompute, maximumCompute, p.estimated, p.maximum,
         estimatedCompute + p.estimated, maximumCompute + p.maximum, estimated, maximum, workers,
         p.components, coldStarts)
  }

  function ServerlessCandidate(r: Request, decision: Option<Decision>, policy: Option<Policy>, remaining: int,
    workers: int)
    : Outcome<seq<Plan>>
  {
    if decision.None? || r.mode == DedicatedPod then Success([])
    else
      var coldStarts := MaximumColdStarts(r.sessionSeconds, r.idleTailSeconds);
      if coldStarts.None? then Success([])
      else if policy.None? then Failure(PolicyMissing)
      else
        var billable := BillableSeconds(r, coldStarts.value);
        var plan :- Construct(RatedPlan(ServerlessLoadBalancer, Endpoint, decision.value, policy.value,
                                        billable, Larger(billable, remaining * workers), workers, coldStarts.value));
        Success([plan])
  }

  function PodPlan(r: Request, d: Decision, p: Policy, remaining: int): Plan {
    RatedPlan(DedicatedPod, Pod, d, p, r.sessionSeconds, remaining, 1, 0)
  }

  function PodCandidate(r: Request, decision: Option<Decision>, policy: Option<Policy>, remaining: int)
    : Outcome<seq<Plan>>
  {
    if decision.None? || remaining < r.sessionSeconds || r.mode == ServerlessLoadBalancer then Success([])
    else if policy.None? then Failure(PolicyMissing)
    else
      var plan :- Construct(PodPlan(r, decision.value, policy.value, remaining));
      Success([plan])
  }

  function Affordable(candidates: seq<Plan>, authorized: real): seq<Plan> {
    if candidates == [] then []
    else (if candidates[0].ceiling <= authorized then [candidates[0]] else []) + Affordable(candidates[1..], authorized)
  }

  /** The first candidate of least estimated cost. */
  function Cheapest(candidates: seq<Plan>): Plan
    requires candidates != []
  {
    if |candidates| == 1 then candidates[0]
    else
      var rest := Cheapest(candidates[1..]);
      if rest.estimatedCost < candidates[0].estimatedCost then rest else candidates[0]
  }

  /** The catalog decisions and the cost policies of a deployment. */
  datatype Market = Market(serverless: Option<Decision>, pod: Option<Decision>,
                           serverlessPolicy: Option<Policy>, podPolicy: Option<Policy>)

  function Candidates(r: Request, m: Market, remaining: int, workers: int): Outcome<seq<Plan>> {
    var serverless :- ServerlessCandidate(r, m.serverless, m.serverlessPolicy, remaining, workers);
    var pod :- PodCandidate(r, m.pod, m.podPolicy, remaining);
    Success(serverless + pod)
  }

  function SelectPlan(r: Request, m: Market, plannedAt: int, workers: int): Outcome<Plan> {
    if workers < 1 then Failure(InvalidWorkers)
    else
      var remaining := RemainingSeconds(r.hardDeadline, plannedAt);
      if remaining < 1 then Failure(NoRuntimeLeft)
      else
        var candidates :- Candidates(r, m, remaining, workers);
        var affordable := Affordable(candidates, r.authorized);
        if affordable == [] then Failure(NothingAffordable) else Success(Cheapest(affordable))
  }

  /** What catalog selection and the policy constructor guarantee of a market. */
  predicate ValidMarket(m: Market, r: Request) {
    && (m.serverless.Some? ==> ValidDecision(m.serverless.value, ServerlessProduct, r))
    && (m.pod.Some? ==> ValidDecision(m.pod.value, PodProduct, r))
    && (m.serverlessPolicy.Some? ==> ValidPolicy(m.serverlessPolicy.value))
    && (m.podPolicy.Some? ==> ValidPolicy(m.podPolicy.value))
  }

  predicate ValidDecision(d: Decision, product: Product, r: Request) {
    && d.product == product && 0.0 <= d.hourlyRate && 1 <= d.gpuCount
    && (r.maxHourlyRate.Some? ==> d.hourlyRate <= r.maxHourlyRate.value)
  }

  lemma ScaledMonotone(x: real, a: real, b: real)
    requires 0.0 <= x && a <= b
    ensures x * a <= x * b
  {}

  lemma RatedCostMonotone(rate: real, a: int, b: int, gpus: int)
    requires 0.0 <= rate && a <= b && 0 <= gpus
    ensures RatedCost(rate, a, gpus) <= RatedCost(rate, b, gpus)
    ensures 0 <= a ==> 0.0 <= RatedCost(rate, a, gpus)
  {
    ScaledMonotone(rate, a as real, b as real);
    ScaledMonotone(gpus as real, rate * a as real, rate * b as real);
    if 0 <= a {
      ScaledMonotone(rate, 0.0, a as real);
      ScaledMonotone(gpus as real, 0.0, rate * a as real);
    }
  }

  /** A derived plan passes the plan constructor exactly when its maximum time covers its
      estimate and its worker and cold-start counts suit its resource. */
  lemma DerivedPlanIsValid(mode: Mode, resource: ResourceType, d: Decision, p: Policy, estimated: int, maximum: int,
    workers: int, coldStarts: int)
    requires 0.0 <= d.hourlyRate && 1 <= d.gpuCount && ValidPolicy(p)
    ensures ValidPlan(RatedPlan(mode, resource, d, p, estimated, maximum, workers, coldStarts))
      <==> && 1 <= estimated <= maximum && 1 <= workers
           && (resource == Endpoint ==> coldStarts >= 1)
           && (resource == Pod ==> coldStarts == 0 && workers == 1)
  {
    if 1 <= estimated <= maximum {
      RatedCostMonotone(d.hourlyRate, estimated, maximum, d.gpuCount);
    }
  }

  /** Without the remaining-time guard a Pod candidate would trip its own constructor. */
  lemma PodGuardIsExact(r: Request, d: Decision, p: Policy, remaining: int)
    requires ValidRequest(r) && ValidDecision(d, PodProduct, r) && ValidPolicy(p)
    ensures ValidPlan(PodPlan(r, d, p, remaining)) <==> r.sessionSeconds <= remaining
  {
    DerivedPlanIsValid(DedicatedPod, Pod, d, p, r.sessionSeconds, remaining, 1, 0);
  }

  lemma BillableIsPositive(r: Request, coldStarts: int)
    requires ValidRequest(r) && 0 <= coldStarts
    ensures 1 <= BillableSeconds(r, coldStarts)
  {}

  lemma ColdStartsPositive(r: Request)
    requires ValidRequest(r)
    ensures MaximumColdStarts(r.sessionSeconds, r.idleTailSeconds).Some?
      ==> 1 <= MaximumColdStarts(r.sessionSeconds, r.idleTailSeconds).value
  {}

  /** How every candidate is shaped: it satisfies the constructor, and its ceiling pays
      for every worker through the whole remaining time. */
  predicate Covers(p: Plan, r: Request, remaining: int) {
    && ValidPlan(p) && 0.0 <= p.placement.hourlyRate && 1 <= p.placement.gpuCount
    && p.maximumCompute == RatedCost(p.placement.hourlyRate, p.maximumSeconds, p.placement.gpuCount)
    && p.ceiling == p.maximumCompute + p.maximumOverhead
    && remaining * p.workers <= p.maximumSeconds
    && (p.mode == ServerlessLoadBalancer || p.mode == DedicatedPod)
    && (r.mode == Automatic || r.mode == p.mode)
    && (p.mode == ServerlessLoadBalancer <==> p.resourceType == Endpoint)
    && (p.mode == ServerlessLoadBalancer <==> p.placement.product == ServerlessProduct)
    && (r.maxHourlyRate.Some? ==> p.placement.hourlyRate <= r.maxHourlyRate.value)
  }

  lemma ServerlessCandidateCovers(r: Request, m: Market, remaining: int, workers: int)
    requires ValidRequest(r) && ValidMarket(m, r) && 1 <= remaining && 1 <= workers
    ensures var c := ServerlessCandidate(r, m.serverless, m.serverlessPolicy, remaining, workers);
      && c != Failure(InvalidPlan)
      && (c.Success? ==> |c.value| <= 1 && forall i :: 0 <= i < |c.value| ==> Covers(c.value[i], r, remaining))
  {
    ColdStartsPositive(r);
    var coldStarts := MaximumColdStarts(r.sessionSeconds, r.idleTailSeconds);
    if m.serverless.Some? && r.mode != DedicatedPod && coldStarts.Some? && m.serverlessPolicy.Some? {
      BillableIsPositive(r, coldStarts.value);
      var billable := BillableSeconds(r, coldStarts.value);
      DerivedPlanIsValid(ServerlessLoadBalancer, Endpoint, m.serverless.value, m.serverlessPolicy.value,
                         billable, Larger(billable, remaining * workers), workers, coldStarts.value);
    }
  }

  lemma PodCandidateCovers(r: Request, m: Market, remaining: int)
    requires ValidRequest(r) && ValidMarket(m, r) && 1 <= remaining
    ensures var c := PodCandidate(r, m.pod, m.podPolicy, remaining);
      && c != Failure(InvalidPlan)
      && (c.Success? ==> |c.value| <= 1 && forall i :: 0 <= i < |c.value| ==> Covers(c.value[i], r, remaining))
  {
    if m.pod.Some? && m.podPolicy.Some? {
      PodGuardIsExact(r, m.pod.value, m.podPolicy.value, remaining);
    }
  }

  /** Planning never fails in a plan constructor: every candidate it builds satisfies the
      constructor's checks. */
  lemma CandidatesCover(r: Request, m: Market, remaining: int, workers: int)
    requires ValidRequest(r) && ValidMarket(m, r) && 1 <= remaining && 1 <= workers
    ensures var c := Candidates(r, m, remaining, workers);
      && c != Failure(InvalidPlan)
      && (c.Success? ==> forall i :: 0 <= i < |c.value| ==> Covers(c.value[i], r, remaining))
  {
    ServerlessCandidateCovers(r, m, remaining, workers);
    PodCandidateCovers(r, m, remaining);
  }

  lemma {:induction false} AffordableKeeps(candidates: seq<Plan>, authorized: real)
    ensures forall p :: p in Affordable(candidates, authorized) <==> p in candidates && p.ceiling <= authorized
  {
    if candidates != [] {
      AffordableKeeps(candidates[1..], authorized);
      assert candidates == [candidates[0]] + candidates[1..];
    }
  }

  lemma {:induction false} CheapestIsLeast(candidates: seq<Plan>)
    requires candidates != []
    ensures Cheapest(candidates) in candidates
    ensures forall p :: p in candidates ==> Cheapest(candidates).estimatedCost <= p.estimatedCost
  {
    if |candidates| > 1 {
      CheapestIsLeast(candidates[1..]);
      assert candidates == [candidates[0]] + candidates[1..];
    }
  }

  /** The selected plan is an affordable candidate of least estimated cost, and planning
      reports that nothing is affordable exactly when no candidate is. */
  lemma SelectionIsCheapestAffordable(r: Request, m: Market, plannedAt: int, workers: int)
    requires ValidRequest(r) && ValidMarket(m, r) && 1 <= workers && plannedAt < r.hardDeadline
    requires Candidates(r, m, RemainingSeconds(r.hardDeadline, plannedAt), workers).Success?
    ensures var candidates := Candidates(r, m, RemainingSeconds(r.hardDeadline, plannedAt), workers).value;
      match SelectPlan(r, m, plannedAt, workers)
      case Success(plan) =>
        && plan in candidates && plan.ceiling <= r.authorized
        && (forall c :: c in candidates && c.ceiling <= r.authorized ==> plan.estimatedCost <= c.estimatedCost)
        && (candidates[0].ceiling <= r.authorized && candidates[0].estimatedCost == plan.estimatedCost ==>
              plan == candidates[0])
      case Failure(error) =>
        error == NothingAffordable && forall c :: c in candidates ==> r.authorized < c.ceiling
  {
    var candidates := Candidates(r, m, RemainingSeconds(r.hardDeadline, plannedAt), workers).value;
    AffordableKeeps(candidates, r.authorized);
    var affordable := Affordable(candidates, r.authorized);
    if affordable != [] {
      CheapestIsLeast(affordable);
    } else {
      assert forall c :: c in candidates ==> c !in affordable;
    }
  }

  /** Candidates are offered exactly when one is possible: a Serverless one for a Serverless offer,
      unless a Pod was asked for or no idle tail bounds its cold starts; a Pod for a Pod offer,
      unless Serverless was asked for or too little time is left. Only a missing cost policy of a
      possible candidate fails the planning. The Serverless one comes first. */
  lemma CandidatesArePossible(r: Request, m: Market, remaining: int, workers: int)
    requires ValidRequest(r) && ValidMarket(m, r) && 1 <= remaining && 1 <= workers
    ensures var c := Candidates(r, m, remaining, workers);
      var serverless := m.serverless.Some? && r.mode != DedicatedPod && 0 < r.idleTailSeconds;
      var pod := m.pod.Some? && r.mode != ServerlessLoadBalancer && r.sessionSeconds <= remaining;
      if (serverless && m.serverlessPolicy.None?) || (pod && m.podPolicy.None?) then c == Failure(PolicyMissing)
      else
        && c.Success?
        && |c.value| == (if serverless then 1 else 0) + (if pod then 1 else 0)
        && (serverless ==> c.value[0].placement == m.serverless.value && c.value[0].resourceType == Endpoint
                           && c.value[0].workers == workers
                           && c.value[0].estimatedOverhead == m.serverlessPolicy.value.estimated)
        && (pod ==> c.value[|c.value| - 1] == PodPlan(r, m.pod.value, m.podPolicy.value, remaining))
  {
    ServerlessCandidateCovers(r, m, remaining, workers);
    PodCandidateCovers(r, m, remaining);
  }

  /** The Serverless estimate rates every session there can be: its active time and, for each
      worker start one idle tail apart, the initialization and the idle tail after it. */
  lemma EstimateCoversSession(r: Request, m: Market, remaining: int, workers: int, starts: seq<real>, openedAt: real)
    requires ValidRequest(r) && ValidMarket(m, r) && 1 <= remaining && 1 <= workers
    requires m.serverless.Some? && m.serverlessPolicy.Some? && r.mode != DedicatedPod && 0 < r.idleTailSeconds
    requires Spaced(starts, r.idleTailSeconds as real)
    requires forall i :: 0 <= i < |starts| ==> openedAt <= starts[i] <= openedAt + r.sessionSeconds as real
    ensures var c := ServerlessCandidate(r, m.serverless, m.serverlessPolicy, remaining, workers);
      && c.Success? && |c.value| == 1
      && r.activeSeconds + |starts| * (r.initializationSeconds + r.idleTailSeconds) <= c.value[0].estimatedSeconds
      && |starts| <= c.value[0].coldStarts
      && c.value[0].estimatedCost == RatedCost(m.serverless.value.hourlyRate, c.value[0].estimatedSeconds,
                                               m.serverless.value.gpuCount) + m.serverlessPolicy.value.estimated
  {
    ServerlessCandidateCovers(r, m, remaining, workers);
    ColdStartsAreBounded(starts, openedAt, r.sessionSeconds, r.idleTailSeconds);
    StartsMonotone(|starts|, MaximumColdStarts(r.sessionSeconds, r.idleTailSeconds).value,
                   r.initializationSeconds + r.idleTailSeconds);
  }

  lemma StartsMonotone(a: int, b: int, each: int)
    requires a <= b && 0 <= each
    ensures a * each <= b * each
  {}

  /** No smaller estimate would do: for some session, with as many starts as the bound allows, it
      is exactly the time that is billed. */
  lemma EstimateIsTight(r: Request, m: Market, remaining: int, workers: int, openedAt: real)
    returns (starts: seq<real>)
    requires ValidRequest(r) && ValidMarket(m, r) && 1 <= remaining && 1 <= workers
    requires m.serverless.Some? && m.serverlessPolicy.Some? && r.mode != DedicatedPod && 0 < r.idleTailSeconds
    ensures Spaced(starts, r.idleTailSeconds as real)
    ensures forall i :: 0 <= i < |starts| ==> openedAt <= starts[i] <= openedAt + r.sessionSeconds as real
    ensures var c := ServerlessCandidate(r, m.serverless, m.serverlessPolicy, remaining, workers);
      && c.Success? && |c.value| == 1
      && r.activeSeconds + |starts| * (r.initializationSeconds + r.idleTailSeconds) == c.value[0].estimatedSeconds
  {
    var count := MaximumColdStarts(r.sessionSeconds, r.idleTailSeconds).value;
    ColdStartsPositive(r);
    ColdStartBoundIsTight(openedAt, r.sessionSeconds, r.idleTailSeconds, count);
    starts := EvenStarts(openedAt, r.idleTailSeconds, count);
    ServerlessCandidateCovers(r, m, remaining, workers);
  }

  /** What the service checks of a plan before the create is admitted. */
  predicate ServiceAccepts(r: Request, p: Plan) {
    && (r.mode == Automatic ==> p.mode == ServerlessLoadBalancer || p.mode == DedicatedPod)
    && (r.mode != Automatic ==> p.mode == r.mode)
    && p.resourceType == (if p.mode == ServerlessLoadBalancer then Endpoint else Pod)
    && p.placement.product == (if p.mode == ServerlessLoadBalancer then ServerlessProduct else PodProduct)
    && 0.0 <= p.estimatedCost <= p.ceiling && 0.0 < p.placement.hourlyRate && 0 < p.estimatedSeconds
    && p.ceiling <= r.authorized
    && (r.maxHourlyRate.Some? ==> p.placement.hourlyRate <= r.maxHourlyRate.value)
  }

  /** The cost columns of a lease row. */
  datatype LeaseCost = LeaseCost(
    hourlyRate: Option<real>, startedAt: Option<int>, hardDeadline: int, workers: Option<int>, gpuCount: int,
    accrued: real, authorized: real, maximumOverhead: Option<real>)

  function Earlier(a: int, b: int): int { if b < a then b else a }

  function ElapsedSeconds(c: LeaseCost, now: int): real
    requires c.startedAt.Some?
  {
    Larger(0, Earlier(now, c.hardDeadline) - c.startedAt.value) as real / SECOND as real
  }

  function WorkerCost(rate: real, elapsed: real, workers: int, gpus: int): real {
    rate * elapsed * workers as real * gpus as real / 3600.0
  }

  function AccruedCost(c: LeaseCost, now: int): real {
    if c.hourlyRate.None? || c.startedAt.None? then c.accrued
    else if c.workers.None? || c.workers.value < 1 then c.authorized
    else WorkerCost(c.hourlyRate.value, ElapsedSeconds(c, now), c.workers.value, c.gpuCount)
  }

  function AuthorizedExposure(c: LeaseCost, now: int): real {
    if c.maximumOverhead.None? then c.authorized else AccruedCost(c, now) + c.maximumOverhead.value
  }

  predicate OverAuthorized(c: LeaseCost, now: int) {
    c.authorized <= AuthorizedExposure(c, now)
  }

  /** The cost columns written with the plan when a create is admitted. */
  function Provisioned(r: Request, p: Plan, startedAt: int, accrued: real): LeaseCost {
    LeaseCost(Some(p.placement.hourlyRate), Some(startedAt), r.hardDeadline, Some(p.workers), p.placement.gpuCount,
              accrued, r.authorized, Some(p.maximumOverhead))
  }

  /** The microseconds that a worker has been billed for by now. */
  function BilledTime(r: Request, startedAt: int, now: int): (micros: nat) {
    Larger(0, Earlier(now, r.hardDeadline) - startedAt)
  }

  lemma CostMonotone(rate: real, a: real, b: real, gpus: real)
    requires 0.0 <= rate && 0.0 <= gpus && a <= b
    ensures rate * a * gpus / 3600.0 <= rate * b * gpus / 3600.0
  {
    ScaledMonotone(rate, a, b);
    ScaledMonotone(gpus, rate * a, rate * b);
  }

  lemma ScaledStrict(x: real, a: real, b: real)
    requires 0.0 < x && a < b
    ensures x * a < x * b
  {}

  /** At a positive rate a cost is larger exactly when more time was worked. */
  lemma CostOrdersTime(rate: real, a: real, b: real, gpus: real)
    requires 0.0 < rate && 0.0 < gpus
    ensures rate * a * gpus / 3600.0 <= rate * b * gpus / 3600.0 <==> a <= b
  {
    if a <= b {
      CostMonotone(rate, a, b, gpus);
    } else {
      var low, high := rate * b, rate * a;
      ScaledStrict(rate, b, a);
      ScaledStrict(gpus, low, high);
      assert rate * b * gpus == gpus * low && rate * a * gpus == gpus * high;
    }
  }

  lemma Rearranged(rate: real, elapsed: real, workers: real, gpus: real)
    ensures rate * elapsed * workers * gpus == rate * (elapsed * workers) * gpus
  {
    assert rate * elapsed * workers == rate * (elapsed * workers);
  }

  lemma WorkedTime(micros: nat, workers: int, maximum: int)
    requires 1 <= workers
    ensures micros as real / SECOND as real * workers as real <= maximum as real
      <==> micros * workers <= maximum * SECOND
  {
    var worked := micros * workers;
    assert micros as real * workers as real == worked as real;
    assert micros as real / SECOND as real * workers as real == worked as real / SECOND as real;
  }

  lemma FreeOfCharge(elapsed: real, workers: int, maximum: int, gpus: int)
    ensures WorkerCost(0.0, elapsed, workers, gpus) == RatedCost(0.0, maximum, gpus) == 0.0
  {
    assert 0.0 * elapsed * workers as real * gpus as real == 0.0;
    assert 0.0 * maximum as real * gpus as real == 0.0;
  }

  /** Rate times time over all workers stays within the rated maximum exactly when the time
      does, unless the rate is zero. */
  lemma AccrualWithinMaximum(rate: real, micros: nat, workers: int, maximum: int, gpus: int)
    requires 0.0 <= rate && 1 <= workers && 1 <= gpus
    ensures WorkerCost(rate, micros as real / SECOND as real, workers, gpus) <= RatedCost(rate, maximum, gpus)
      <==> rate == 0.0 || micros * workers <= maximum * SECOND
  {
    var elapsed := micros as real / SECOND as real;
    if rate == 0.0 {
      FreeOfCharge(elapsed, workers, maximum, gpus);
    } else {
      Rearranged(rate, elapsed, workers as real, gpus as real);
      CostOrdersTime(rate, elapsed * workers as real, maximum as real, gpus as real);
      WorkedTime(micros, workers, maximum);
    }
  }

  /** What a provisioned row accrues, without unfolding the product. */
  lemma ProvisionedExposure(r: Request, p: Plan, startedAt: int, accrued: real, now: int)
    requires 1 <= p.workers
    ensures AuthorizedExposure(Provisioned(r, p, startedAt, accrued), now)
      == WorkerCost(p.placement.hourlyRate, BilledTime(r, startedAt, now) as real / SECOND as real, p.workers,
                    p.placement.gpuCount) + p.maximumOverhead
  {}

  /** At any one time the exposure of a rated plan is within its ceiling exactly when the
      billed time of its workers is within the time it was rated for, unless it is free. */
  lemma ExposureIsExact(r: Request, p: Plan, remaining: int, startedAt: int, accrued: real, now: int)
    requires Covers(p, r, remaining)
    ensures AuthorizedExposure(Provisioned(r, p, startedAt, accrued), now) <= p.ceiling
      <==> p.placement.hourlyRate == 0.0 || BilledTime(r, startedAt, now) * p.workers <= p.maximumSeconds * SECOND
  {
    AccrualWithinMaximum(p.placement.hourlyRate, BilledTime(r, startedAt, now), p.workers, p.maximumSeconds,
                         p.placement.gpuCount);
    ProvisionedExposure(r, p, startedAt, accrued, now);
  }

  /** Whether the plan rates every second that its workers can be billed for. */
  predicate RatesWholeLife(r: Request, p: Plan, startedAt: int) {
    p.placement.hourlyRate == 0.0 || Larger(0, r.hardDeadline - startedAt) * p.workers <= p.maximumSeconds * SECOND
  }

  lemma LifeBoundsBilledTime(r: Request, startedAt: int, now: int, workers: int)
    requires 1 <= workers
    ensures BilledTime(r, startedAt, now) * workers <= Larger(0, r.hardDeadline - startedAt) * workers
  {}

  /** Exactly when the ceiling of a selected plan bounds the exposure for ever: when the plan
      is free, or rates the whole time from the start to the hard deadline. */
  lemma CeilingBoundsExactly(r: Request, m: Market, plannedAt: int, workers: int, startedAt: int, accrued: real)
    requires ValidRequest(r) && ValidMarket(m, r) && SelectPlan(r, m, plannedAt, workers).Success?
    ensures var plan := SelectPlan(r, m, plannedAt, workers).value;
      (forall now :: AuthorizedExposure(Provisioned(r, plan, startedAt, accrued), now) <= plan.ceiling)
      <==> RatesWholeLife(r, plan, startedAt)
  {
    var plan := SelectPlan(r, m, plannedAt, workers).value;
    var remaining := RemainingSeconds(r.hardDeadline, plannedAt);
    SelectedPlanCovers(r, m, plannedAt, workers);
    ExposureIsExact(r, plan, remaining, startedAt, accrued, r.hardDeadline);
    if RatesWholeLife(r, plan, startedAt) {
      forall now ensures AuthorizedExposure(Provisioned(r, plan, startedAt, accrued), now) <= plan.ceiling {
        LifeBoundsBilledTime(r, startedAt, now, plan.workers);
        ExposureIsExact(r, plan, remaining, startedAt, accrued, now);
      }
    }
  }

  lemma WorkersThroughRemaining(life: nat, remaining: int, workers: int, maximum: int)
    requires life <= remaining * SECOND && 1 <= workers && remaining * workers <= maximum
    ensures life * workers <= maximum * SECOND
  {
    assert life * workers <= remaining * SECOND * workers;
    assert remaining * SECOND * workers == remaining * workers * SECOND;
  }

  /** A plan made no later than provisioning starts rates the whole life. */
  lemma EarlyPlanRatesWholeLife(r: Request, p: Plan, plannedAt: int, startedAt: int)
    requires Covers(p, r, RemainingSeconds(r.hardDeadline, plannedAt))
    requires plannedAt <= startedAt && plannedAt < r.hardDeadline
    ensures RatesWholeLife(r, p, startedAt)
  {
    WorkersThroughRemaining(Larger(0, r.hardDeadline - startedAt), RemainingSeconds(r.hardDeadline, plannedAt),
                            p.workers, p.maximumSeconds);
  }

  /** The spend bound: for a plan made no later than provisioning starts, accrued compute
      plus reserved overhead at any later time stays within the plan's ceiling, which stays
      within the authorized cost. */
  lemma SpendIsBounded(r: Request, m: Market, plannedAt: int, workers: int, startedAt: int, accrued: real, now: int)
    requires ValidRequest(r) && ValidMarket(m, r) && SelectPlan(r, m, plannedAt, workers).Success?
    requires plannedAt <= startedAt
    ensures var plan := SelectPlan(r, m, plannedAt, workers).value;
      AuthorizedExposure(Provisioned(r, plan, startedAt, accrued), now) <= plan.ceiling <= r.authorized
  {
    var plan := SelectPlan(r, m, plannedAt, workers).value;
    SelectedPlanCovers(r, m, plannedAt, workers);
    EarlyPlanRatesWholeLife(r, plan, plannedAt, startedAt);
    CeilingBoundsExactly(r, m, plannedAt, workers, startedAt, accrued);
  }

  lemma SelectedPlanCovers(r: Request, m: Market, plannedAt: int, workers: int)
    requires ValidRequest(r) && ValidMarket(m, r) && SelectPlan(r, m, plannedAt, workers).Success?
    ensures var plan := SelectPlan(r, m, plannedAt, workers).value;
      Covers(plan, r, RemainingSeconds(r.hardDeadline, plannedAt)) && plan.ceiling <= r.authorized
  {
    CandidatesCover(r, m, RemainingSeconds(r.hardDeadline, plannedAt), workers);
    SelectionIsCheapestAffordable(r, m, plannedAt, workers);
  }

  /** Planning never fails in a constructor, and the service goes on to refuse a selected
      plan exactly when its catalog rate is zero. */
  lemma SelectedPlanIsAccepted(r: Request, m: Market, plannedAt: int, workers: int)
    requires ValidRequest(r) && ValidMarket(m, r)
    ensures SelectPlan(r, m, plannedAt, workers) != Failure(InvalidPlan)
    ensures SelectPlan(r, m, plannedAt, workers).Success? ==>
      (ServiceAccepts(r, SelectPlan(r, m, plannedAt, workers).value)
       <==> SelectPlan(r, m, plannedAt, workers).value.placement.hourlyRate != 0.0)
  {
    if 1 <= workers && 1 <= RemainingSeconds(r.hardDeadline, plannedAt) {
      CandidatesCover(r, m, RemainingSeconds(r.hardDeadline, plannedAt), workers);
      if SelectPlan(r, m, plannedAt, workers).Success? { SelectedPlanCovers(r, m, plannedAt, workers); }
    }
  }

  /** The cost gate of a lease fires only once the whole authorization is committed. */
  lemma GateFiresOnlyAtCeiling(r: Request, m: Market, plannedAt: int, workers: int, startedAt: int, accrued: real,
    now: int)
    requires ValidRequest(r) && ValidMarket(m, r) && SelectPlan(r, m, plannedAt, workers).Success?
    requires plannedAt <= startedAt
    ensures var plan := SelectPlan(r, m, plannedAt, workers).value;
      var cost := Provisioned(r, plan, startedAt, accrued);
      OverAuthorized(cost, now) <==> AuthorizedExposure(cost, now) == plan.ceiling == r.authorized
  {
    SpendIsBounded(r, m, plannedAt, workers, startedAt, accrued, now);
  }

  /** The bound needs a plan no later than the start: a plan made for the last second does
      not cover a lease that has been running for an hour. */
  lemma LatePlanIsNotBounded()
    ensures ValidRequest(LAST_SECOND) && ValidMarket(ONE_POD, LAST_SECOND)
    ensures SelectPlan(LAST_SECOND, ONE_POD, 3599 * SECOND, 1).Success?
    ensures var plan := SelectPlan(LAST_SECOND, ONE_POD, 3599 * SECOND, 1).value;
      plan.ceiling < AuthorizedExposure(Provisioned(LAST_SECOND, plan, 0, 0.0), 3599 * SECOND)
  {
    LastSecondSelection();
    SelectedPlanCovers(LAST_SECOND, ONE_POD, 3599 * SECOND, 1);
    assert BilledTime(LAST_SECOND, 0, 3599 * SECOND) == 3599 * SECOND;
    ExposureIsExact(LAST_SECOND, LastSecondPlan(), 1, 0, 0.0, 3599 * SECOND);
  }

  const LAST_SECOND: Request := Request(DedicatedPod, 1, 1, 0, 0, 3600 * SECOND, 10.0, None)

  const ONE_POD: Market := Market(None, Some(Decision(PodProduct, 3600.0, 1)), None, Some(Policy(0.0, 0.0, [0])))

  function LastSecondPlan(): Plan {
    PodPlan(LAST_SECOND, Decision(PodProduct, 3600.0, 1), Policy(0.0, 0.0, [0]), 1)
  }

  lemma LastSecondSelection()
    ensures SelectPlan(LAST_SECOND, ONE_POD, 3599 * SECOND, 1) == Success(LastSecondPlan())
  {
    assert RemainingSeconds(LAST_SECOND.hardDeadline, 3599 * SECOND) == 1;
    OnePodIsSelected(LAST_SECOND, Decision(PodProduct, 3600.0, 1), Policy(0.0, 0.0, [0]), 3599 * SECOND, 1);
  }

  function OnlyPod(d: Decision, p: Policy): Market { Market(None, Some(d), None, Some(p)) }

  lemma OneAffordable(plan: Plan, authorized: real)
    requires plan.ceiling <= authorized
    ensures Affordable([plan], authorized) == [plan] && Cheapest([plan]) == plan
  {
    assert [plan][1..] == [];
  }

  /** A single affordable Pod offer for which enough time is left is the one selected. */
  lemma OnePodIsSelected(r: Request, d: Decision, p: Policy, plannedAt: int, workers: int)
    requires ValidRequest(r) && ValidDecision(d, PodProduct, r) && ValidPolicy(p) && 1 <= workers
    requires r.mode != ServerlessLoadBalancer && r.sessionSeconds <= RemainingSeconds(r.hardDeadline, plannedAt)
    requires PodPlan(r, d, p, RemainingSeconds(r.hardDeadline, plannedAt)).ceiling <= r.authorized
    ensures SelectPlan(r, OnlyPod(d, p), plannedAt, workers)
         == Success(PodPlan(r, d, p, RemainingSeconds(r.hardDeadline, plannedAt)))
  {
    var remaining := RemainingSeconds(r.hardDeadline, plannedAt);
    var plan := PodPlan(r, d, p, remaining);
    PodGuardIsExact(r, d, p, remaining);
    assert PodCandidate(r, Some(d), Some(p), remaining) == Success([plan]);
    assert [] + [plan] == [plan];
    OneAffordable(plan, r.authorized);
  }

  lemma NothingOwed(seconds: int, gpus: int)
    ensures RatedCost(0.0, seconds, gpus) == 0.0
  {
    assert 0.0 * seconds as real * gpus as real == 0.0;
  }

  const FREE_POD: Decision := Decision(PodProduct, 0.0, 1)

  const NO_OVERHEAD: Policy := Policy(0.0, 0.0, [0])

  /** Every request that may use a Pod, with enough time left, can be given a plan at rate
      zero, and the service then refuses it. */
  lemma ZeroRateIsSelectedAndRefused(r: Request, plannedAt: int, workers: int)
    requires ValidRequest(r) && r.mode != ServerlessLoadBalancer && 1 <= workers
    requires r.maxHourlyRate.Some? ==> 0.0 <= r.maxHourlyRate.value
    requires r.sessionSeconds <= RemainingSeconds(r.hardDeadline, plannedAt)
    ensures ValidMarket(OnlyPod(FREE_POD, NO_OVERHEAD), r)
    ensures var plan := SelectPlan(r, OnlyPod(FREE_POD, NO_OVERHEAD), plannedAt, workers);
      plan.Success? && plan.value.placement.hourlyRate == 0.0 && !ServiceAccepts(r, plan.value)
  {
    NothingOwed(RemainingSeconds(r.hardDeadline, plannedAt), 1);
    OnePodIsSelected(r, FREE_POD, NO_OVERHEAD, plannedAt, workers);
  }

  /** Consecutive worker starts are at least one idle tail apart. */
  predicate Spaced(starts: seq<real>, gap: real) {
    forall i :: 0 <= i < |starts| - 1 ==> starts[i] + gap <= starts[i + 1]
  }

  lemma {:induction false} SpreadOfStarts(starts: seq<real>, gap: real)
    requires starts != [] && Spaced(starts, gap)
    ensures starts[0] + (|starts| - 1) as real * gap <= starts[|starts| - 1]
  {
    if |starts| > 1 {
      var front := starts[..|starts| - 1];
      assert forall i :: 0 <= i < |front| ==> front[i] == starts[i];
      SpreadOfStarts(front, gap);
      assert (|starts| - 1) as real * gap == (|starts| - 2) as real * gap + gap;
    }
  }

  /** No session of S seconds holds more starts, one idle tail apart, than the bound. */
  lemma ColdStartsAreBounded(starts: seq<real>, openedAt: real, sessionSeconds: int, idleTailSeconds: int)
    requires 0 <= sessionSeconds && 0 < idleTailSeconds && Spaced(starts, idleTailSeconds as real)
    requires forall i :: 0 <= i < |starts| ==> openedAt <= starts[i] <= openedAt + sessionSeconds as real
    ensures |starts| <= MaximumColdStarts(sessionSeconds, idleTailSeconds).value
  {
    if starts != [] {
      SpreadOfStarts(starts, idleTailSeconds as real);
      var gaps := |starts| - 1;
      assert (gaps * idleTailSeconds) as real == gaps as real * idleTailSeconds as real;
      assert gaps * idleTailSeconds <= sessionSeconds;
      QuotientBound(gaps, idleTailSeconds, sessionSeconds);
    }
  }

  lemma CancelFactor(a: int, b: int, factor: int)
    requires 0 < factor && a * factor < b * factor
    ensures a < b
  {}

  lemma QuotientBound(count: int, size: int, total: int)
    requires 0 < size && count * size <= total
    ensures count <= total / size
  {
    CancelFactor(count, total / size + 1, size);
  }

  lemma Offset(i: int, gap: int, sessionSeconds: int)
    requires 0 < gap && 0 <= i <= sessionSeconds / gap
    ensures (i + 1) as real * gap as real == i as real * gap as real + gap as real
    ensures 0.0 <= i as real * gap as real <= sessionSeconds as real
  {
    var total := i * gap;
    assert 0 <= total <= sessionSeconds;
    assert i as real * gap as real == total as real;
  }

  function StartAt(openedAt: real, gap: int, i: int): real {
    openedAt + i as real * gap as real
  }

  lemma StartsSpread(openedAt: real, gap: int, sessionSeconds: int, i: int)
    requires 0 < gap && 0 <= i <= sessionSeconds / gap
    ensures StartAt(openedAt, gap, i) + gap as real <= StartAt(openedAt, gap, i + 1)
    ensures openedAt <= StartAt(openedAt, gap, i) <= openedAt + sessionSeconds as real
  {
    Offset(i, gap, sessionSeconds);
  }

  /** Starts exactly one idle tail apart. */
  function EvenStarts(openedAt: real, gap: int, count: nat): (starts: seq<real>)
    ensures |starts| == count && forall i :: 0 <= i < count ==> starts[i] == StartAt(openedAt, gap, i)
  {
    seq(count, i => StartAt(openedAt, gap, i))
  }

  /** The bound is reached by starts exactly one idle tail apart. */
  lemma ColdStartBoundIsTight(openedAt: real, sessionSeconds: int, idleTailSeconds: int, count: nat)
    requires 0 <= sessionSeconds && 0 < idleTailSeconds
    requires MaximumColdStarts(sessionSeconds, idleTailSeconds) == Some(count)
    ensures var starts := EvenStarts(openedAt, idleTailSeconds, count);
      && Spaced(starts, idleTailSeconds as real)
      && forall i :: 0 <= i < |starts| ==> openedAt <= starts[i] <= openedAt + sessionSeconds as real
  {
    var starts := EvenStarts(openedAt, idleTailSeconds, count);
    forall i | 0 <= i < count
      ensures 0 <= i < count - 1 ==> starts[i] + idleTailSeconds as real <= starts[i + 1]
      ensures openedAt <= starts[i] <= openedAt + sessionSeconds as real
    {
      StartsSpread(openedAt, idleTailSeconds, sessionSeconds, i);
    }
  }
}
