/**
 execute_deploy (orchestrator/stages_py.py): the GPU gate, one attempt at spawning the container,
 the rule-based repair loop and the agent's proposals, over a map from name to container. Docker,
 the probes and the agent are oracles. The search is specified as a sequence of attempts, each made
 on what the one before left in docker; the methods that change docker are proved to make exactly
 those attempts, and DeployLaws proves what holds of the sequence.
 */
module Deploy {
  import opened Options
  import opened DeployRepair

  // ---------- names and GPUs ----------

  predicate LowerAlnum(c: char) {
    'a' <= c <= 'z' || '0' <= c <= '9'
  }

  function Lower(c: char): char {
    if 'A' <= c <= 'Z' then c - 'A' + 'a' else c
  }

  function Cleaned(s: string): (r: string)
    ensures |r| <= |s| && forall i :: 0 <= i < |r| ==> LowerAlnum(r[i])
  {
    if s == "" then ""
    else if LowerAlnum(Lower(s[0])) then [Lower(s[0])] + Cleaned(s[1..])
    else Cleaned(s[1..])
  }

  function Zeros(n: nat): (r: string)
    ensures |r| == n && forall i :: 0 <= i < n ==> r[i] == '0'
  {
    if n == 0 then "" else ['0'] + Zeros(n - 1)
  }

  function ShortRunId(runId: string): (r: string)
    ensures |r| == 8 && forall i :: 0 <= i < 8 ==> LowerAlnum(r[i])
    ensures |Cleaned(runId)| >= 8 ==> r == Cleaned(runId)[|Cleaned(runId)| - 8..]
    ensures |Cleaned(runId)| < 8 ==> r == Cleaned(runId) + Zeros(8 - |Cleaned(runId)|)
  {
    var cleaned := Cleaned(runId);
    if |cleaned| >= 8 then cleaned[|cleaned| - 8..] else cleaned + Zeros(8 - |cleaned|)
  }

  function EngineShort(e: Engine): string {
    match e
    case VLLM => "vllm"
    case SGLANG => "sglang"
    case TRANSFORMERS => "tf"
  }

  const E9_PREFIX := "e9-"

  predicate E9Named(name: string) {
    E9_PREFIX <= name
  }

  function ContainerNameFor(runId: string, engine: Engine): string {
    var name := E9_PREFIX + EngineShort(engine) + "-" + ShortRunId(runId);
    if |name| > 63 then name[..63] else name
  }

  /** The cut at 63 characters never bites: the prefix, the engine and the suffix are all kept, and
      two engines never share a name. */
  lemma NameIsWhole(runId: string, engine: Engine, other: Engine)
    ensures ContainerNameFor(runId, engine) == E9_PREFIX + EngineShort(engine) + "-" + ShortRunId(runId)
    ensures E9Named(ContainerNameFor(runId, engine)) && |ContainerNameFor(runId, engine)| <= 18
    ensures engine != other ==> ContainerNameFor(runId, engine) != ContainerNameFor(runId, other)
  {
    assert |EngineShort(engine)| <= 6;
    assert ContainerNameFor(runId, engine)[3] == EngineShort(engine)[0];
    assert ContainerNameFor(runId, other)[3] == EngineShort(other)[0];
  }

  const IDLE_THRESHOLD_MIB := 1024

  predicate Idle(gpus: seq<int>, smi: map<int, int>) {
    forall i :: 0 <= i < |gpus| ==> gpus[i] in smi ==> smi[gpus[i]] <= IDLE_THRESHOLD_MIB
  }

  /** Python's s[:n]. */
  function Upto(s: seq<int>, n: int): seq<int> {
    if n >= 0 then (if n <= |s| then s[..n] else s) else if |s| + n >= 0 then s[..|s| + n] else []
  }

  /** _select_eval_gpus; `smi` is None when nvidia-smi cannot be asked. */
  function SelectEvalGpus(evalGpus: seq<int>, prodGpus: seq<int>, tpSize: int,
                          smi: Option<map<int, int>>): Option<seq<int>> {
    if evalGpus == [] then None
    else if exists g :: g in evalGpus && g in prodGpus then None
    else if tpSize > |evalGpus| then None
    else if smi.None? || !Idle(evalGpus, smi.value) then None
    else Some(Upto(evalGpus, tpSize))
  }

  /** A selection takes only GPUs of the evaluation pool, none of production's, as many as were asked
      for, and is made only when the whole pool is idle. */
  lemma SelectionIsSafe(evalGpus: seq<int>, prodGpus: seq<int>, tpSize: int, smi: Option<map<int, int>>, gpu: int)
    requires SelectEvalGpus(evalGpus, prodGpus, tpSize, smi).Some?
    ensures var selected := SelectEvalGpus(evalGpus, prodGpus, tpSize, smi).value;
      && selected <= evalGpus && (tpSize >= 0 ==> |selected| == tpSize)
      && (gpu in selected ==> gpu in evalGpus && gpu !in prodGpus)
      && (gpu in evalGpus && gpu in smi.value ==> smi.value[gpu] <= IDLE_THRESHOLD_MIB)
  {
    if gpu in evalGpus {
      var i :| 0 <= i < |evalGpus| && evalGpus[i] == gpu;
    }
  }

  predicate Taken(gpu: int, prodGpus: seq<int>, smi: map<int, int>) {
    gpu in prodGpus || (gpu in smi && smi[gpu] > IDLE_THRESHOLD_MIB)
  }

  /** It is refused exactly when the pool is empty, too small, of unknown load, or holds a GPU that is
      production's or busy. */
  lemma RefusedWhen(evalGpus: seq<int>, prodGpus: seq<int>, tpSize: int, smi: Option<map<int, int>>)
    ensures SelectEvalGpus(evalGpus, prodGpus, tpSize, smi).None? <==>
      || evalGpus == [] || tpSize > |evalGpus| || smi.None?
      || exists i :: 0 <= i < |evalGpus| && Taken(evalGpus[i], prodGpus, smi.value)
  {
    if smi.Some? {
      if g :| g in evalGpus && g in prodGpus {
        var i :| 0 <= i < |evalGpus| && evalGpus[i] == g;
        assert Taken(evalGpus[i], prodGpus, smi.value);
      } else if !Idle(evalGpus, smi.value) {
        var i :| 0 <= i < |evalGpus| && evalGpus[i] in smi.value && smi.value[evalGpus[i]] > IDLE_THRESHOLD_MIB;
        assert Taken(evalGpus[i], prodGpus, smi.value);
      } else if i :| 0 <= i < |evalGpus| && Taken(evalGpus[i], prodGpus, smi.value) {
        assert evalGpus[i] in evalGpus;
      }
    }
  }

  // ---------- docker ----------

  datatype Container = Container(run: Option<string>, engine: Option<Engine>, gpus: seq<int>)

  type Containers = map<string, Container>

  /** The run, the container name and the GPUs: chosen once per deployment. */
  datatype Site = Site(runId: string, name: string, gpus: seq<int>)

  /** What becomes of a container that was started; `removed` says whether its removal worked. */
  datatype Fate =
    | Serves
    | Dies(signs: Signs, removed: bool)
    | Mute(signs: Signs, removed: bool)

  /** What containers.run does. A refused or interrupted start can leave the created container behind. */
  datatype Launch =
    | NoImage
    | Refused(portInUse: bool, created: bool)
    | Interrupted(created: bool)
    | Spawned(fate: Fate)

  datatype Events = Events(lookupRaises: bool, staleRemoved: bool, launch: Launch)

  datatype TryResult = Live | Dead(kind: ErrorKind, signs: Signs) | Blown

  const NO_SIGNS := Signs(false, false, false, false, false, false, false, false)

  function Spawn(site: Site, engine: Engine): Container {
    Container(Some(site.runId), Some(engine), site.gpus)
  }

  function Cleared(site: Site, cs: Containers, ev: Events): Containers {
    if ev.staleRemoved then cs - {site.name} else cs
  }

  function Left(site: Site, cs: Containers, engine: Engine, present: bool): Containers {
    if present then cs[site.name := Spawn(site, engine)] else cs
  }

  /** _try_once on container map cs: what is there afterwards, and what it reports. A name that is
      still taken makes docker refuse the start. */
  function Attempted(site: Site, cs: Containers, c: Candidate, ev: Events): (Containers, TryResult) {
    if ev.lookupRaises then (cs, Blown)
    else
      var cleared := Cleared(site, cs, ev);
      if ev.launch.NoImage? then (cleared, Dead(IMAGE_PULL, NO_SIGNS))
      else if ev.launch.Interrupted? && site.name in cleared then (cleared, Blown)
      else if site.name in cleared then
        (cleared, Dead(if ev.launch.Refused? && ev.launch.portInUse then PORT_IN_USE else DOCKER_API, NO_SIGNS))
      else
        match ev.launch
        case Refused(portInUse, created) =>
          (Left(site, cleared, c.engine, created), Dead(if portInUse then PORT_IN_USE else DOCKER_API, NO_SIGNS))
        case Interrupted(created) => (Left(site, cleared, c.engine, created), Blown)
        case Spawned(Serves) => (Left(site, cleared, c.engine, true), Live)
        case Spawned(Dies(signs, removed)) => (Left(site, cleared, c.engine, !removed), Dead(EARLY_EXIT, signs))
        case Spawned(Mute(signs, removed)) => (Left(site, cleared, c.engine, !removed), Dead(INFERENCE_BROKEN, signs))
        case NoImage => (cleared, Dead(IMAGE_PULL, NO_SIGNS))
  }

  class DockerHost {
    var containers: Containers

    /** _reuse_or_recreate: whatever bears the name is removed, as far as docker lets it. */
    method ReuseOrRecreate(site: Site, ev: Events)
      modifies this
      ensures containers == Cleared(site, old(containers), ev)
    {
      if site.name in containers {
        if ev.staleRemoved {
          containers := containers - {site.name};
        }
      } else {
        assert containers - {site.name} == containers;
      }
    }

    method TryOnce(site: Site, c: Candidate, ev: Events) returns (result: TryResult)
      modifies this
      ensures (containers, result) == Attempted(site, old(containers), c, ev)
    {
      if ev.lookupRaises {
        return Blown;
      }
      ReuseOrRecreate(site, ev);
      if ev.launch.NoImage? {
        return Dead(IMAGE_PULL, NO_SIGNS);
      }
      if site.name in containers {
        if ev.launch.Interrupted? {
          return Blown;
        }
        return Dead(if ev.launch.Refused? && ev.launch.portInUse then PORT_IN_USE else DOCKER_API, NO_SIGNS);
      }
      if ev.launch.Refused? || ev.launch.Interrupted? {
        if ev.launch.created {
          containers := containers[site.name := Spawn(site, c.engine)];
        }
        return if ev.launch.Interrupted? then Blown
          else Dead(if ev.launch.portInUse then PORT_IN_USE else DOCKER_API, NO_SIGNS);
      }
      ghost var cleared := containers;
      containers := containers[site.name := Spawn(site, c.engine)];
      match ev.launch.fate {
        case Serves =>
          return Live;
        case Dies(signs, removed) =>
          result := Dead(EARLY_EXIT, signs);
        case Mute(signs, removed) =>
          result := Dead(INFERENCE_BROKEN, signs);
      }
      if ev.launch.fate.removed {
        containers := containers - {site.name};
        assert containers == cleared;
      }
    }
  }

  // ---------- the tries of one deployment ----------

  datatype Who = Initial | Rule(strategy: Strategy) | Agent(name: string)

  /** One attempt, with the container map it left. */
  datatype Try = Try(who: Who, cand: Candidate, result: TryResult, after: Containers)

  /** What the n-th attempt meets. */
  type Spawner = (nat, Candidate) -> Events

  /** How docker answers the n-th attempt, given what is there. */
  type Dock = (Containers, Candidate, nat) -> (Containers, TryResult)

  function DockOf(site: Site, spawn: Spawner): Dock {
    (cs: Containers, c: Candidate, n: nat) => Attempted(site, cs, c, spawn(n, c))
  }

  /** The dock is what docker does with these events. */
  ghost predicate Docks(dock: Dock, site: Site, spawn: Spawner) {
    forall cs: Containers, c: Candidate, n: nat {:trigger Attempted(site, cs, c, spawn(n, c))} ::
      Attempted(site, cs, c, spawn(n, c)) == dock(cs, c, n)
  }

  function TryWith(dock: Dock, cs: Containers, who: Who, c: Candidate, n: nat): Try {
    var r := dock(cs, c, n);
    Try(who, c, r.1, r.0)
  }

  function LastTry(t: Try, ts: seq<Try>): Try {
    if ts == [] then t else ts[|ts| - 1]
  }

  function FailureAt(t: Try): DeployFailure
    requires t.result.Dead?
  {
    FailureOf(t.cand, t.result.kind, t.result.signs)
  }

  function Unseen(ps: seq<Proposal>, seen: set<Strategy>): seq<Proposal> {
    if ps == [] then []
    else if ps[0].strategy in seen then Unseen(ps[1..], seen)
    else [ps[0]] + Unseen(ps[1..], seen)
  }

  lemma {:induction false} UnseenIs(ps: seq<Proposal>, seen: set<Strategy>)
    ensures forall p :: p in Unseen(ps, seen) <==> p in ps && p.strategy !in seen
    ensures |Unseen(ps, seen)| <= |ps|
    decreases ps
  {
    if ps != [] {
      UnseenIs(ps[1..], seen);
    }
  }

  /** The last attempt did not fail. */
  predicate Over(ts: seq<Try>) {
    ts != [] && !ts[|ts| - 1].result.Dead?
  }

  /** One round: the proposals in turn, up to the first that does not fail. All of them were made
      from the plan the round started with. */
  function Round(next: Tryer, start: Try, ps: seq<Proposal>, n: nat): (ts: seq<Try>)
    ensures |ts| <= |ps|
  {
    if ps == [] then []
    else
      var ts := Round(next, start, ps[..|ps| - 1], n);
      if Over(ts) then ts else ts + [next(LastTry(start, ts), ps[|ps| - 1], n + |ts|)]
  }

  /** The attempt at a proposal, after another attempt. */
  type Tryer = (Try, Proposal, nat) -> Try

  function TryerOf(dock: Dock): Tryer {
    (cur: Try, p: Proposal, n: nat) => NextTry(dock, cur, p, n)
  }

  ghost predicate TriesBy(next: Tryer, dock: Dock) {
    forall cur: Try, p: Proposal, n: nat {:trigger NextTry(dock, cur, p, n)} ::
      NextTry(dock, cur, p, n) == next(cur, p, n)
  }

  function NextTry(dock: Dock, cur: Try, p: Proposal, n: nat): Try {
    TryWith(dock, cur.after, Rule(p.strategy), CandidateFor(p.plan, p.image, cur.cand.engine), n)
  }

  function StrategiesOf(ps: seq<Proposal>): set<Strategy> {
    if ps == [] then {} else {ps[0].strategy} + StrategiesOf(ps[1..])
  }

  /** What is proposed for a plan that failed. */
  type Proposer = (Plan, DeployFailure) -> seq<Proposal>

  function ProposerOf(strategies: seq<Strategy>): Proposer {
    (plan: Plan, f: DeployFailure) => Proposals(plan, f, strategies)
  }

  ghost predicate ProposesFrom(propose: Proposer, strategies: seq<Strategy>) {
    forall plan: Plan, f: DeployFailure {:trigger Proposals(plan, f, strategies)} ::
      Proposals(plan, f, strategies) == propose(plan, f)
  }

  function UnseenAt(cur: Try, propose: Proposer, seen: set<Strategy>): seq<Proposal>
    requires cur.result.Dead?
  {
    Unseen(propose(cur.cand.plan, FailureAt(cur)), seen)
  }

  /** The repair loop's variables: the last attempt, all attempts, the strategies used up, whether to go on. */
  datatype Repair = Repair(cur: Try, tries: seq<Try>, seen: set<Strategy>, more: bool)

  /** One iteration of the repair loop. */
  function Turn(dock: Dock, propose: Proposer, s: Repair): (s': Repair)
    ensures s'.more ==> s'.cur.result.Dead?
  {
    if !s.more || !s.cur.result.Dead? then s.(more := false)
    else
      var unseen := UnseenAt(s.cur, propose, s.seen);
      var ts := Round(TryerOf(dock), s.cur, unseen, 1 + |s.tries|);
      Repair(LastTry(s.cur, ts), s.tries + ts, s.seen + StrategiesOf(unseen),
             unseen != [] && LastTry(s.cur, ts).result.Dead?)
  }

  /** The repair loop after at most k iterations. */
  function Turns(dock: Dock, propose: Proposer, first: Try, k: nat): (s: Repair)
    requires first.result.Dead?
    ensures s.more ==> s.cur.result.Dead?
  {
    if k == 0 then Repair(first, [], {}, true) else Turn(dock, propose, Turns(dock, propose, first, k - 1))
  }

  /** An iteration, whatever it does, and the loop made of it. */
  type Turner = Repair -> Repair

  function TurnerOf(dock: Dock, propose: Proposer): Turner {
    s => Turn(dock, propose, s)
  }

  function Iterated(turn: Turner, s: Repair, k: nat): Repair {
    if k == 0 then s else turn(Iterated(turn, s, k - 1))
  }

  ghost predicate TurnsBy(turn: Turner, dock: Dock, propose: Proposer) {
    forall s: Repair {:trigger Turn(dock, propose, s)} :: Turn(dock, propose, s) == turn(s)
  }

  /** An iteration that goes on has used up a strategy; one after the end changes nothing. */
  ghost predicate UsesUp(turn: Turner) {
    forall s: Repair {:trigger turn(s)} ::
      && |turn(s).seen| >= |s.seen| + (if turn(s).more then 1 else 0)
      && (turn(s).more ==> s.more) && (!s.more ==> turn(s) == s)
  }

  lemma {:induction false} IteratedIsTurns(turn: Turner, dock: Dock, propose: Proposer, first: Try, k: nat)
    requires TurnsBy(turn, dock, propose) && first.result.Dead?
    ensures Iterated(turn, Repair(first, [], {}, true), k) == Turns(dock, propose, first, k)
  {
    if k > 0 {
      IteratedIsTurns(turn, dock, propose, first, k - 1);
    }
  }

  lemma {:induction false} IteratedStops(turn: Turner, s: Repair, k: nat, n: nat)
    requires UsesUp(turn) && k <= n && (k == n || !Iterated(turn, s, k).more)
    ensures Iterated(turn, s, n) == Iterated(turn, s, k)
    decreases n - k
  {
    if k < n {
      IteratedStops(turn, s, k, n - 1);
    }
  }

  ghost predicate Preserves(turn: Turner, ok: Repair -> bool) {
    forall s: Repair {:trigger turn(s)} :: ok(s) ==> ok(turn(s))
  }

  lemma {:induction false} IteratedKeeps(turn: Turner, ok: Repair -> bool, s: Repair, k: nat)
    requires Preserves(turn, ok) && ok(s)
    ensures ok(Iterated(turn, s, k))
    decreases k
  {
    if k > 0 {
      IteratedKeeps(turn, ok, s, k - 1);
    }
  }

  /** What every iteration keeps holds after any number of them. */
  lemma TurnsKeep(dock: Dock, propose: Proposer, first: Try, ok: Repair -> bool, k: nat)
    requires first.result.Dead? && Preserves(TurnerOf(dock, propose), ok) && ok(Repair(first, [], {}, true))
    ensures ok(Turns(dock, propose, first, k))
  {
    IteratedIsTurns(TurnerOf(dock, propose), dock, propose, first, k);
    IteratedKeeps(TurnerOf(dock, propose), ok, Repair(first, [], {}, true), k);
  }

  lemma TurnerUsesUp(dock: Dock, propose: Proposer)
    ensures UsesUp(TurnerOf(dock, propose)) && TurnsBy(TurnerOf(dock, propose), dock, propose)
  {
    forall s: Repair
      ensures var s' := TurnerOf(dock, propose)(s);
        |s'.seen| >= |s.seen| + (if s'.more then 1 else 0) && (s'.more ==> s.more) && (!s.more ==> s' == s)
    {
      assert TurnerOf(dock, propose)(s) == Turn(dock, propose, s);
      if s.more && s.cur.result.Dead? {
        TurnGrows(dock, propose, s);
      }
    }
  }

  // ---------- the agent's turn ----------

  datatype AgentProposal = AgentProposal(name: string, engine: Option<Engine>, image: Option<string>,
                                         args: map<string, ArgValue>)

  /** Python's equality of two argument values: booleans are numbers. */
  predicate SameArg(a: ArgValue, b: ArgValue) {
    || a == b
    || ((a.Flag? || a.Number?) && (b.Flag? || b.Number?) && LengthOf(a) == LengthOf(b))
    || (a.Text? && b.Text? && a.text == b.text)
  }

  /** _is_noop */
  predicate IsNoop(p: AgentProposal, cur: Candidate) {
    && (p.engine.Some? ==> p.engine.value == cur.engine)
    && (p.image.Some? ==> p.image.value == cur.image)
    && forall k :: k in p.args ==> SameArg(Arg(cur.plan, k), p.args[k])
  }

  /** propose_repair hands a proposal over only if it changes something. */
  function Usable(p: Option<AgentProposal>, cur: Candidate): Option<AgentProposal> {
    if p.Some? && IsNoop(p.value, cur) then None else p
  }

  function AgentCandidate(cur: Candidate, p: AgentProposal): Candidate {
    var plan := cur.plan.(args := cur.plan.args + p.args);
    CandidateFor(if p.engine.Some? then plan.(engine := p.engine) else plan, p.image, cur.engine)
  }

  /** The agent's i-th answer: none when the engine fails or the answer does not parse. */
  type AgentOracle = (nat, Candidate) -> Option<AgentProposal>

  /** The agent behind propose_repair's no-op test. */
  function Heeded(agent: AgentOracle): AgentOracle {
    (i: nat, c: Candidate) => Usable(agent(i, c), c)
  }

  /** The escalation's variables: the last attempt, the agent's attempts, whether to go on. */
  datatype Escalation = Escalation(cur: Try, tries: seq<Try>, more: bool)

  /** The agent's i-th turn; n attempts were made before the escalation. */
  function AgentTurn(dock: Dock, agent: AgentOracle, n: nat, s: Escalation, i: nat): Escalation {
    var p := agent(i, s.cur.cand);
    if !s.more || p.None? then s
    else
      var t := TryWith(dock, s.cur.after, Agent(p.value.name), AgentCandidate(s.cur.cand, p.value), n + |s.tries|);
      Escalation(t, s.tries + [t], t.result.Dead?)
  }

  function AgentTurns(dock: Dock, agent: AgentOracle, n: nat, start: Try, k: nat): (s: Escalation)
    ensures |s.tries| <= k
  {
    if k == 0 then Escalation(start, [], true)
    else AgentTurn(dock, agent, n, AgentTurns(dock, agent, n, start, k - 1), k - 1)
  }

  // ---------- the deployment ----------

  predicate Repairable(r: TryResult) {
    r.Dead? && r.kind != PORT_IN_USE
  }

  const MAX_ITERATIONS: nat := 8

  /** Every attempt of one deployment. `agentMax` is 0 when the escalation is disabled. */
  function Tries(dock: Dock, cs: Containers, first: Candidate, repair: bool,
                 propose: Proposer, maxIterations: nat, agent: AgentOracle, agentMax: nat): (ts: seq<Try>)
    ensures ts != []
  {
    var t := TryWith(dock, cs, Initial, first, 0);
    if !repair || !Repairable(t.result) then [t]
    else
      var rules := Turns(dock, propose, t, maxIterations);
      [t] + rules.tries
      + if rules.cur.result.Dead? then AgentTurns(dock, agent, 1 + |rules.tries|, rules.cur, agentMax).tries else []
  }

  datatype FailKind = MissingPlan | UnknownEngine | ModelMissing | DockerDown | Failing(kind: ErrorKind)

  datatype Outcome =
    | Deployed(engine: Engine, image: string, name: string, repairedVia: Option<Who>, attempts: nat)
    | Skipped
    | Failed(why: FailKind)
    | Raised

  /** deploy.json, or the error the stage ends with: that of the first attempt. */
  function Reported(site: Site, ts: seq<Try>): Outcome
    requires ts != []
  {
    var first, last := ts[0], ts[|ts| - 1];
    match last.result
    case Live => Deployed(last.cand.engine, last.cand.image, site.name,
                          if first.result.Live? then None else Some(last.who), if first.result.Live? then 0 else |ts|)
    case Dead(_, _) => if first.result.Dead? then Failed(Failing(first.result.kind)) else Raised
    case Blown => Raised
  }

  method RunTurn(host: DockerHost, site: Site, spawn: Spawner, strategies: seq<Strategy>, s: Repair,
                 ghost dock: Dock, ghost propose: Proposer, ghost turn: Turner) returns (s': Repair)
    requires Docks(dock, site, spawn) && ProposesFrom(propose, strategies) && TurnsBy(turn, dock, propose)
    requires s.more && s.cur.result.Dead? && s.cur.after == host.containers
    modifies host
    ensures s' == turn(s) && (s'.more ==> s'.cur.result.Dead?)
    ensures s'.cur.after == host.containers
  {
    var proposals := ProposeAttempts(s.cur.cand.plan, FailureAt(s.cur), strategies);
    var unseen := Unseen(proposals, s.seen);
    var ts := RunRound(host, site, s.cur, unseen, spawn, 1 + |s.tries|, dock, TryerOf(dock));
    s' := Repair(LastTry(s.cur, ts), s.tries + ts, s.seen + StrategiesOf(unseen),
                 unseen != [] && LastTry(s.cur, ts).result.Dead?);
    assert s' == Turn(dock, propose, s);
  }

  method RunRules(host: DockerHost, site: Site, first: Try, spawn: Spawner, strategies: seq<Strategy>,
                  maxIterations: nat,
                  ghost dock: Dock, ghost propose: Proposer, ghost turn: Turner) returns (s: Repair, iterations: nat)
    requires Docks(dock, site, spawn) && ProposesFrom(propose, strategies) && TurnsBy(turn, dock, propose)
    requires UsesUp(turn)
    requires first.result.Dead? && first.after == host.containers
    modifies host
    ensures s == Iterated(turn, Repair(first, [], {}, true), maxIterations)
    ensures iterations <= 7
    ensures s.cur.after == host.containers
  {
    s, iterations := Repair(first, [], {}, true), 0;
    ghost var start := s;
    while iterations < maxIterations && s.more
      invariant iterations <= maxIterations
      invariant s == Iterated(turn, start, iterations) && (s.more ==> s.cur.result.Dead?)
      invariant s.cur.after == host.containers
      invariant iterations <= |s.seen| + (if s.more then 0 else 1)
      decreases maxIterations - iterations
    {
      s := RunTurn(host, site, spawn, strategies, s, dock, propose, turn);
      iterations := iterations + 1;
    }
    SeenBound(s.seen);
    IteratedStops(turn, start, iterations, maxIterations);
  }

  lemma {:induction false} TurnsLast(dock: Dock, propose: Proposer, first: Try, k: nat)
    requires first.result.Dead?
    ensures Turns(dock, propose, first, k).cur == LastTry(first, Turns(dock, propose, first, k).tries)
  {
    if k > 0 {
      TurnsLast(dock, propose, first, k - 1);
      var s := Turns(dock, propose, first, k - 1);
      assert s.more || Turns(dock, propose, first, k) == s;
    }
  }

  lemma TurnGrows(dock: Dock, propose: Proposer, s: Repair)
    requires s.more && s.cur.result.Dead?
    ensures var s' := Turn(dock, propose, s);
      |s'.seen| >= |s.seen| + if s'.more then 1 else 0
  {
    SeenGrows(propose(s.cur.cand.plan, FailureAt(s.cur)), s.seen);
    Smaller(s.seen, Turn(dock, propose, s).seen);
  }

  lemma Settled(dock: Dock, propose: Proposer, first: Try, k: nat, n: nat)
    requires first.result.Dead? && k <= n && (k == n || !Turns(dock, propose, first, k).more)
    ensures Turns(dock, propose, first, n) == Turns(dock, propose, first, k)
  {
    var turn := TurnerOf(dock, propose);
    TurnerUsesUp(dock, propose);
    IteratedIsTurns(turn, dock, propose, first, k);
    IteratedIsTurns(turn, dock, propose, first, n);
    IteratedStops(turn, Repair(first, [], {}, true), k, n);
  }

  lemma SeenGrows(ps: seq<Proposal>, seen: set<Strategy>)
    ensures Unseen(ps, seen) != [] ==> |seen + StrategiesOf(Unseen(ps, seen))| > |seen|
  {
    var unseen := Unseen(ps, seen);
    UnseenIs(ps, seen);
    if unseen != [] {
      assert unseen[0] in unseen && unseen[0].strategy in StrategiesOf(unseen);
      Grows(seen, StrategiesOf(unseen), unseen[0].strategy);
    }
  }

  lemma Grows(a: set<Strategy>, b: set<Strategy>, s: Strategy)
    requires s in b && s !in a
    ensures |a + b| >= |a| + 1
  {
    Smaller(a + {s}, a + b);
  }

  lemma {:induction false} Smaller(a: set<Strategy>, b: set<Strategy>)
    requires a <= b
    ensures |a| <= |b|
    decreases b
  {
    if a != {} {
      var x :| x in a;
      Smaller(a - {x}, b - {x});
    }
  }

  const ALL_STRATEGIES: set<Strategy> := {ADD_TRUST_REMOTE_CODE, USE_GGUF_FILE_PATH, LOWER_MAX_MODEL_LEN,
                                          SWAP_VLLM_IMAGE_LATEST, SWAP_ENGINE_SGLANG, SWAP_ENGINE_TRANSFORMERS}

  lemma SeenBound(seen: set<Strategy>)
    ensures seen <= ALL_STRATEGIES && |seen| <= 6
  {
    assert forall s: Strategy :: s in ALL_STRATEGIES by {
      forall s: Strategy
        ensures s in ALL_STRATEGIES
      {
        assert s == STRATEGIES[Rank(s)];
      }
    }
    Smaller(seen, ALL_STRATEGIES);
  }

  /** One recorded attempt. */
  method Record(host: DockerHost, site: Site, who: Who, c: Candidate, spawn: Spawner, n: nat, ghost dock: Dock)
      returns (t: Try)
    requires Docks(dock, site, spawn)
    modifies host
    ensures t == TryWith(dock, old(host.containers), who, c, n) && host.containers == t.after
  {
    var result := host.TryOnce(site, c, spawn(n, c));
    t := Try(who, c, result, host.containers);
  }

  method RunProposal(host: DockerHost, site: Site, cur: Try, p: Proposal, spawn: Spawner, n: nat, ghost dock: Dock,
                     ghost next: Tryer) returns (t: Try)
    requires Docks(dock, site, spawn) && TriesBy(next, dock) && cur.after == host.containers
    modifies host
    ensures t == next(cur, p, n) && t.after == host.containers
  {
    t := Record(host, site, Rule(p.strategy), CandidateFor(p.plan, p.image, cur.cand.engine), spawn, n, dock);
    assert t == NextTry(dock, cur, p, n);
  }

  method RunRound(host: DockerHost, site: Site, start: Try, ps: seq<Proposal>, spawn: Spawner, n: nat, ghost dock: Dock,
                  ghost next: Tryer) returns (ts: seq<Try>)
    requires Docks(dock, site, spawn) && TriesBy(next, dock)
    requires start.after == host.containers
    modifies host
    ensures ts == Round(next, start, ps, n)
    ensures LastTry(start, ts).after == host.containers
  {
    ts := [];
    var k := 0;
    while k < |ps| && !Over(ts)
      invariant k <= |ps|
      invariant ts == Round(next, start, ps[..k], n)
      invariant LastTry(start, ts).after == host.containers
    {
      ts := TakeProposal(host, site, start, ps, k, ts, spawn, n, dock, next);
      k := k + 1;
    }
    RoundOver(next, start, ps, k, n);
  }

  /** One proposal of a round. */
  method TakeProposal(host: DockerHost, site: Site, start: Try, ps: seq<Proposal>, k: nat, ts: seq<Try>, spawn: Spawner,
                      n: nat, ghost dock: Dock, ghost next: Tryer) returns (ts': seq<Try>)
    requires Docks(dock, site, spawn) && TriesBy(next, dock)
    requires k < |ps| && ts == Round(next, start, ps[..k], n) && !Over(ts)
    requires LastTry(start, ts).after == host.containers
    modifies host
    ensures ts' == Round(next, start, ps[..k + 1], n)
    ensures LastTry(start, ts').after == host.containers
  {
    RoundStep(next, start, ps, k, n);
    var t := RunProposal(host, site, LastTry(start, ts), ps[k], spawn, n + |ts|, dock, next);
    assert LastTry(start, ts + [t]) == t;
    return ts + [t];
  }

  lemma RoundStep(next: Tryer, start: Try, ps: seq<Proposal>, k: nat, n: nat)
    requires k < |ps|
    ensures var ts := Round(next, start, ps[..k], n);
      Round(next, start, ps[..k + 1], n) == if Over(ts) then ts else ts + [next(LastTry(start, ts), ps[k], n + |ts|)]
  {
    assert ps[..k + 1][..k] == ps[..k];
  }

  lemma {:induction false} RoundOver(next: Tryer, start: Try, ps: seq<Proposal>, k: nat, n: nat)
    requires k <= |ps| && (k == |ps| || Over(Round(next, start, ps[..k], n)))
    ensures Round(next, start, ps, n) == Round(next, start, ps[..k], n)
    decreases |ps| - k
  {
    if k < |ps| {
      RoundStep(next, start, ps, k, n);
      RoundOver(next, start, ps, k + 1, n);
    } else {
      assert ps[..k] == ps;
    }
  }

  /** _attempt_agent_repair */
  method RunAgent(host: DockerHost, site: Site, start: Try, agent: AgentOracle, spawn: Spawner, n: nat, max: nat,
                  ghost dock: Dock) returns (s: Escalation)
    requires Docks(dock, site, spawn)
    requires start.after == host.containers
    modifies host
    ensures s == AgentTurns(dock, agent, n, start, max)
    ensures s.cur.after == host.containers
  {
    s := Escalation(start, [], true);
    for i := 0 to max
      invariant s == AgentTurns(dock, agent, n, start, i)
      invariant s.cur.after == host.containers
    {
      var p := agent(i, s.cur.cand);
      if s.more && p.Some? {
        var t := Record(host, site, Agent(p.value.name), AgentCandidate(s.cur.cand, p.value), spawn, n + |s.tries|,
                        dock);
        s := Escalation(t, s.tries + [t], t.result.Dead?);
      }
    }
  }

  lemma {:induction false} AgentTurnsLast(dock: Dock, agent: AgentOracle, n: nat, start: Try, k: nat)
    ensures var s := AgentTurns(dock, agent, n, start, k); s.cur == LastTry(start, s.tries)
  {
    if k > 0 {
      AgentTurnsLast(dock, agent, n, start, k - 1);
    }
  }

  /** From the docker client on. */
  method SpawnAndRepair(host: DockerHost, site: Site, first: Candidate, spawn: Spawner, repair: bool,
                        strategies: seq<Strategy>, maxIterations: nat, agent: AgentOracle, agentMax: nat,
                        ghost dock: Dock, ghost propose: Proposer)
      returns (ghost ts: seq<Try>, outcome: Outcome)
    requires Docks(dock, site, spawn) && ProposesFrom(propose, strategies)
    modifies host
    ensures ts == Tries(dock, old(host.containers), first, repair, propose, maxIterations, agent, agentMax)
    ensures outcome == Reported(site, ts)
    ensures host.containers == ts[|ts| - 1].after
  {
    var t := Record(host, site, Initial, first, spawn, 0, dock);
    var record := [t];
    if repair && Repairable(t.result) {
      ghost var turn := TurnerOf(dock, propose);
      TurnerUsesUp(dock, propose);
      var rules, iterations := RunRules(host, site, t, spawn, strategies, maxIterations, dock, propose, turn);
      IteratedIsTurns(turn, dock, propose, t, maxIterations);
      TurnsLast(dock, propose, t, maxIterations);
      record := record + rules.tries;
      assert LastTry(t, record) == rules.cur;
      if rules.cur.result.Dead? {
        var more := RunAgent(host, site, rules.cur, agent, spawn, 1 + |rules.tries|, agentMax, dock);
        AgentTurnsLast(dock, agent, 1 + |rules.tries|, rules.cur, agentMax);
        record := record + more.tries;
      } else {
        assert record + [] == record;
      }
    }
    ts := record;
    outcome := Reported(site, record);
  }

  // ---------- execute_deploy ----------

  /** What execute_deploy finds: engine.json, the model directory, the GPU pools and docker. */
  datatype Request = Request(runId: string, plan: Option<Plan>, modelPresent: bool, evalGpus: seq<int>,
                             prodGpus: seq<int>, smi: Option<map<int, int>>, dockerUp: bool)

  /** int(args.get("tensor_parallel_size", 1) or 1); None where int() raises. */
  function TpSize(plan: Plan): Option<int> {
    match Arg(plan, "tensor_parallel_size")
    case Null => Some(1)
    case Flag(_) => Some(1)
    case Number(n) => Some(if n == 0 then 1 else n)
    case Text(text, number) => if text == "" then Some(1) else number
    case Compound(isEmpty) => if isEmpty then Some(1) else None
  }

  datatype Gate = Stop(outcome: Outcome) | Go(site: Site, first: Candidate)

  /** Everything decided before docker is touched. */
  function GateOf(r: Request): Gate {
    if r.plan.None? then Stop(Failed(MissingPlan))
    else if r.plan.value.engine.None? then Stop(Failed(UnknownEngine))
    else if !r.modelPresent then Stop(Failed(ModelMissing))
    else if TpSize(r.plan.value).None? then Stop(Raised)
    else
      var engine := r.plan.value.engine.value;
      var gpus := SelectEvalGpus(r.evalGpus, r.prodGpus, TpSize(r.plan.value).value, r.smi);
      if gpus.None? then Stop(Skipped)
      else if !r.dockerUp then Stop(Failed(DockerDown))
      else Go(Site(r.runId, ContainerNameFor(r.runId, engine), gpus.value), CandidateFor(r.plan.value, None, engine))
  }

  method ExecuteDeploy(host: DockerHost, r: Request, spawn: Spawner, repair: bool, agent: AgentOracle, agentMax: nat)
      returns (ghost ts: seq<Try>, outcome: Outcome)
    modifies host
    ensures GateOf(r).Stop? ==> outcome == GateOf(r).outcome && host.containers == old(host.containers) && ts == []
    ensures GateOf(r).Go? ==>
      && ts == Tries(DockOf(GateOf(r).site, spawn), old(host.containers), GateOf(r).first, repair,
                     ProposerOf(STRATEGIES), MAX_ITERATIONS, Heeded(agent), agentMax)
      && outcome == Reported(GateOf(r).site, ts)
      && host.containers == ts[|ts| - 1].after
  {
    match GateOf(r) {
      case Stop(stopped) =>
        ts, outcome := [], stopped;
      case Go(site, first) =>
        ts, outcome := SpawnAndRepair(host, site, first, spawn, repair, STRATEGIES, MAX_ITERATIONS, Heeded(agent),
                                      agentMax,
                                      DockOf(site, spawn), ProposerOf(STRATEGIES));
    }
  }
}
