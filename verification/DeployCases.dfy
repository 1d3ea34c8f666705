/**
 execute_deploy case by case: what the gate answers, what one attempt reports and leaves for every thing docker
 can do, and which failures are repaired at all.
 */
module DeployCases {
  import opened Options
  import opened DeployRepair
  import opened Deploy
  import opened DeployLaws

  // ---------- the gate ----------

  /** int(args.get("tensor_parallel_size", 1) or 1) */
  predicate AsksFor(plan: Plan, n: int) {
    if "tensor_parallel_size" !in plan.args then n == 1
    else
      match plan.args["tensor_parallel_size"]
      case Null => n == 1
      case Flag(_) => n == 1
      case Number(m) => n == if m == 0 then 1 else m
      case Text(text, number) => if text == "" then n == 1 else number == Some(n)
      case Compound(isEmpty) => isEmpty && n == 1
  }

  /** Some GPU of the pool that may not be used: production's, or in use. */
  ghost predicate PoolBlocked(r: Request)
    requires r.smi.Some?
  {
    exists i :: 0 <= i < |r.evalGpus| && Blocked(r.evalGpus[i], r.prodGpus, r.smi.value)
  }

  predicate Blocked(gpu: int, prodGpus: seq<int>, usedMib: map<int, int>) {
    gpu in prodGpus || (gpu in usedMib && usedMib[gpu] > 1024)
  }

  ghost predicate NoGpus(r: Request, n: int)
  {
    r.evalGpus == [] || n > |r.evalGpus| || r.smi == None || (r.smi.Some? && PoolBlocked(r))
  }

  /** The gate's answers in the order in which its questions are asked. */
  lemma GateIs(r: Request)
    ensures GateOf(r) == Stop(Failed(MissingPlan)) <==> r.plan == None
    ensures GateOf(r) == Stop(Failed(UnknownEngine)) <==> r.plan.Some? && r.plan.value.engine == None
    ensures GateOf(r) == Stop(Failed(ModelMissing)) <==> r.plan.Some? && r.plan.value.engine.Some? && !r.modelPresent
    ensures r.plan.Some? && r.plan.value.engine.Some? && r.modelPresent ==>
      && (GateOf(r) == Stop(Raised) <==> forall n :: !AsksFor(r.plan.value, n))
      && forall n :: AsksFor(r.plan.value, n) ==>
           && (GateOf(r) == Stop(Skipped) <==> NoGpus(r, n))
           && (GateOf(r) == Stop(Failed(DockerDown)) <==> !NoGpus(r, n) && !r.dockerUp)
           && (GateOf(r).Go? <==> !NoGpus(r, n) && r.dockerUp)
           && (GateOf(r).Go? ==> PassedGate(r, n, GateOf(r).site, GateOf(r).first))
  {
    if r.plan.Some? && r.plan.value.engine.Some? && r.modelPresent {
      var plan := r.plan.value;
      assert forall n :: AsksFor(plan, n) <==> TpSize(plan) == Some(n);
      if TpSize(plan).Some? {
        RefusedWhen(r.evalGpus, r.prodGpus, TpSize(plan).value, r.smi);
        if r.smi.Some? {
          assert forall i :: 0 <= i < |r.evalGpus| ==>
            (Taken(r.evalGpus[i], r.prodGpus, r.smi.value) <==> Blocked(r.evalGpus[i], r.prodGpus, r.smi.value));
        }
        assert AsksFor(plan, TpSize(plan).value);
      }
    }
  }

  /** What is deployed once the gate is passed: the plan on its engine's pinned image, under the run's name, on
      the first n GPUs of the pool (for a negative n Python cuts from the end). */
  ghost predicate PassedGate(r: Request, n: int, site: Site, first: Candidate)
    requires r.plan.Some? && r.plan.value.engine.Some?
  {
    var engine := r.plan.value.engine.value;
    && site.runId == r.runId && site.name == ContainerNameFor(r.runId, engine)
    && site.gpus <= r.evalGpus
    && (0 <= n <= |r.evalGpus| ==> |site.gpus| == n)
    && (-|r.evalGpus| <= n < 0 ==> |site.gpus| == |r.evalGpus| + n) && (n < -|r.evalGpus| ==> site.gpus == [])
    && first == Candidate(r.plan.value, EngineImage(engine), engine)
  }

  // ---------- one attempt ----------

  /** Docker is as it was but for the one name, which bears this container, if any. */
  ghost predicate NowHolds(cs: Containers, after: Containers, name: string, c: Option<Container>) {
    && (forall n :: n != name ==> (n in after <==> n in cs) && (n in cs ==> after[n] == cs[n]))
    && (name in after <==> c.Some?) && (c.Some? ==> after[name] == c.value)
  }

  /** What the attempt finds under its name once it has tried to remove it. */
  function Leftover(cs: Containers, name: string, ev: Events): Option<Container> {
    if name in cs && !ev.staleRemoved then Some(cs[name]) else None
  }

  /** The container an attempt starts. */
  function Started(site: Site, engine: Engine): Container {
    Container(Some(site.runId), Some(engine), site.gpus)
  }

  /** What an attempt reports and leaves, for everything docker can do. A name that is still taken keeps docker
      from starting the container. */
  ghost predicate AttemptTells(site: Site, cs: Containers, c: Candidate, ev: Events, after: Containers,
                               result: TryResult) {
    var there := Leftover(cs, site.name, ev);
    if ev.lookupRaises then after == cs && result == Blown
    else if ev.launch.NoImage? then NowHolds(cs, after, site.name, there) && result == Dead(IMAGE_PULL, NO_SIGNS)
    else if there.Some? then
      && NowHolds(cs, after, site.name, there)
      && match ev.launch
         case Interrupted(_) => result == Blown
         case Refused(portInUse, _) => result == Dead(if portInUse then PORT_IN_USE else DOCKER_API, NO_SIGNS)
         case _ => result == Dead(DOCKER_API, NO_SIGNS)
    else
      match ev.launch
      case NoImage => false
      case Refused(portInUse, created) =>
        && NowHolds(cs, after, site.name, if created then Some(Started(site, c.engine)) else None)
        && result == Dead(if portInUse then PORT_IN_USE else DOCKER_API, NO_SIGNS)
      case Interrupted(created) =>
        NowHolds(cs, after, site.name, if created then Some(Started(site, c.engine)) else None) && result == Blown
      case Spawned(Serves) => NowHolds(cs, after, site.name, Some(Started(site, c.engine))) && result == Live
      case Spawned(Dies(signs, removed)) =>
        && NowHolds(cs, after, site.name, if removed then None else Some(Started(site, c.engine)))
        && result == Dead(EARLY_EXIT, signs)
      case Spawned(Mute(signs, removed)) =>
        && NowHolds(cs, after, site.name, if removed then None else Some(Started(site, c.engine)))
        && result == Dead(INFERENCE_BROKEN, signs)
  }

  lemma AttemptIs(site: Site, cs: Containers, c: Candidate, ev: Events)
    ensures var (after, result) := Attempted(site, cs, c, ev); AttemptTells(site, cs, c, ev, after, result)
  {
  }

  // ---------- when it is repaired ----------

  /** A first attempt that does not serve is repaired exactly if repair is enabled, it failed, and not for want of
      its port; then, on vLLM and SGLang, there is a second attempt. */
  lemma RepairStarts(site: Site, spawn: Spawner, cs: Containers, first: Candidate, repair: bool, agent: AgentOracle,
                     agentMax: nat)
    ensures var ts := TriesOf(site, spawn, cs, first, repair, agent, agentMax);
      && (|ts| > 1 ==> repair && ts[0].result.Dead? && ts[0].result.kind != PORT_IN_USE)
      && (repair && ts[0].result.Dead? && ts[0].result.kind != PORT_IN_USE && first.engine in {VLLM, SGLANG} ==>
        |ts| > 1)
  {
    var dock := DockOf(site, spawn);
    var t := TryWith(dock, cs, Initial, first, 0);
    var ts := TriesOf(site, spawn, cs, first, repair, agent, agentMax);
    assert ts[0] == t;
    if repair && Repairable(t.result) && Accelerated(first.engine) {
      FirstRoundTries(dock, t, MAX_ITERATIONS);
    }
  }

  lemma FirstRoundTries(dock: Dock, first: Try, n: nat)
    requires first.result.Dead? && Accelerated(first.cand.engine) && n > 0
    ensures Turns(dock, ProposerOf(STRATEGIES), first, n).tries != []
  {
    var propose := ProposerOf(STRATEGIES);
    TurnsPrefix(dock, propose, first, 1, n);
    FirstTurnTries(dock, first);
  }

  lemma FirstTurnTries(dock: Dock, first: Try)
    requires first.result.Dead? && Accelerated(first.cand.engine)
    ensures Turns(dock, ProposerOf(STRATEGIES), first, 1).tries != []
  {
    var propose := ProposerOf(STRATEGIES);
    FallbackProposed(first.cand.plan, FailureAt(first));
    UnseenNothing(propose(first.cand.plan, FailureAt(first)));
    TurnIsRound(dock, propose, Repair(first, [], {}, true));
    var ps := propose(first.cand.plan, FailureAt(first));
    RoundIs(TryerOf(dock), first, ps, 1);
    assert Turns(dock, propose, first, 0) == Repair(first, [], {}, true);
  }
}
