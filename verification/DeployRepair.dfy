/**
 orchestrator/deploy_repair.py: what a deployment failure is classified as, the six repair
 strategies, and the list of proposals they make. Which patterns the container log matches is part
 of the failure; the patterns themselves are not modelled.
 */
module DeployRepair {
  import opened Options

  datatype Engine = VLLM | SGLANG | TRANSFORMERS

  const VLLM_LATEST := "vllm/vllm-openai:latest"

  /** _ENGINE_IMAGES: the pinned image of each engine. */
  function EngineImage(e: Engine): string {
    match e
    case VLLM => "vllm/vllm-openai:v0.11.0"
    case SGLANG => "lmsysorg/sglang:v0.4.6.post1"
    case TRANSFORMERS => "heyi-eval/transformers-runner:v10"
  }

  /** A value in vllm_args. `number` is what int() makes of the text. */
  datatype ArgValue =
    | Null
    | Flag(on: bool)
    | Number(n: int)
    | Text(text: string, number: Option<int>)
    | Compound(isEmpty: bool)

  datatype Plan = Plan(engine: Option<Engine>, args: map<string, ArgValue>, ggufHint: Option<string>)

  datatype ErrorKind = EARLY_EXIT | IMAGE_PULL | DOCKER_API | PORT_IN_USE | INFERENCE_BROKEN

  /** Which of the classifier's patterns the captured log matches. */
  datatype Signs = Signs(notImplemented: bool, ggufPath: bool, modelType: bool, trustRemoteCode: bool,
                         oom: bool, missingDep: bool, cudaArch: bool, dtype: bool)

  datatype DeployFailure = DeployFailure(engine: Engine, image: string, kind: ErrorKind, signs: Signs)

  datatype FailureClass =
    | ImagePull | PortInUse | InferenceNotImplemented | InferenceOther5xx | GgufNeedsFilePath
    | ModelTypeUnknown | TrustRemoteCodeRequired | Oom | MissingDep | CudaArchMismatch
    | UnsupportedDtype | OtherEarlyExit

  function Classify(f: DeployFailure): FailureClass {
    if f.kind == IMAGE_PULL then ImagePull
    else if f.kind == PORT_IN_USE then PortInUse
    else if f.kind == INFERENCE_BROKEN then
      if f.signs.notImplemented then InferenceNotImplemented else InferenceOther5xx
    else if f.signs.ggufPath then GgufNeedsFilePath
    else if f.signs.modelType then ModelTypeUnknown
    else if f.signs.trustRemoteCode then TrustRemoteCodeRequired
    else if f.signs.oom then Oom
    else if f.signs.missingDep then MissingDep
    else if f.signs.cudaArch then CudaArchMismatch
    else if f.signs.dtype then UnsupportedDtype
    else OtherEarlyExit
  }

  // ---------- the strategies ----------

  datatype Strategy =
    | ADD_TRUST_REMOTE_CODE | USE_GGUF_FILE_PATH | LOWER_MAX_MODEL_LEN
    | SWAP_VLLM_IMAGE_LATEST | SWAP_ENGINE_SGLANG | SWAP_ENGINE_TRANSFORMERS

  /** BUILTIN_STRATEGIES, cheapest first. */
  const STRATEGIES := [ADD_TRUST_REMOTE_CODE, USE_GGUF_FILE_PATH, LOWER_MAX_MODEL_LEN,
                       SWAP_VLLM_IMAGE_LATEST, SWAP_ENGINE_SGLANG, SWAP_ENGINE_TRANSFORMERS]

  datatype Proposal = Proposal(strategy: Strategy, plan: Plan, image: Option<string>)

  predicate Accelerated(e: Engine) {
    e == VLLM || e == SGLANG
  }

  function Arg(plan: Plan, key: string): ArgValue {
    if key in plan.args then plan.args[key] else Null
  }

  function WithArg(plan: Plan, key: string, v: ArgValue): Plan {
    plan.(args := plan.args[key := v])
  }

  /** Python's `v in (True, "true", "True")`, where 1 equals True. */
  predicate SaysTrue(v: ArgValue) {
    v == Flag(true) || v == Number(1) || (v.Text? && v.text in {"true", "True"})
  }

  function AddTrustRemoteCode(plan: Plan, f: DeployFailure): Option<Plan> {
    if !Accelerated(f.engine) || Classify(f) == GgufNeedsFilePath || SaysTrue(Arg(plan, "trust_remote_code")) then None
    else Some(WithArg(plan, "trust_remote_code", Flag(true)))
  }

  /** int(v), with 8192 for what int() rejects. */
  function LengthOf(v: ArgValue): int
    requires !v.Null?
  {
    match v
    case Flag(on) => if on then 1 else 0
    case Number(n) => n
    case Text(_, number) => if number.Some? then number.value else 8192
    case Compound(_) => 8192
  }

  function LowerMaxModelLen(plan: Plan, f: DeployFailure): Option<Plan> {
    var v := Arg(plan, "max_model_len");
    if !Accelerated(f.engine) || Classify(f) !in {Oom, OtherEarlyExit} then None
    else if v.Null? then Some(WithArg(plan, "max_model_len", Number(4096)))
    else if LengthOf(v) <= 1024 then None
    else Some(WithArg(plan, "max_model_len", Number(if LengthOf(v) / 2 < 1024 then 1024 else LengthOf(v) / 2)))
  }

  function DropSlashes(s: string): string {
    if s != "" && s[0] == '/' then DropSlashes(s[1..]) else s
  }

  function GgufTarget(plan: Plan): string {
    if plan.ggufHint.Some? && plan.ggufHint.value != "" then "/model/" + DropSlashes(plan.ggufHint.value)
    else "/model/*Q4_K_M*.gguf"
  }

  function UseGgufFilePath(plan: Plan, f: DeployFailure): Option<Plan> {
    if f.engine != VLLM || Classify(f) != GgufNeedsFilePath then None
    else Some(WithArg(plan, "model_path_override", Text(GgufTarget(plan), None)))
  }

  const ENGINE_CLASSES := {ModelTypeUnknown, CudaArchMismatch, MissingDep, OtherEarlyExit}
  const INFERENCE_CLASSES := {InferenceOther5xx, InferenceNotImplemented}

  function SwapVllmImageLatest(plan: Plan, f: DeployFailure): Option<Plan> {
    if f.image == VLLM_LATEST && f.engine == VLLM then None
    else if Classify(f) in INFERENCE_CLASSES || (Classify(f) in ENGINE_CLASSES && f.engine == VLLM) then
      Some(plan.(engine := Some(VLLM)))
    else None
  }

  function SwapEngineSglang(plan: Plan, f: DeployFailure): Option<Plan> {
    if f.engine != SGLANG && Classify(f) in {ModelTypeUnknown, UnsupportedDtype,
                                             OtherEarlyExit} + INFERENCE_CLASSES then
      Some(plan.(engine := Some(SGLANG)))
    else None
  }

  function SwapEngineTransformers(plan: Plan, f: DeployFailure): Option<Plan> {
    if Accelerated(f.engine) then Some(plan.(engine := Some(TRANSFORMERS))) else None
  }

  function Propose(s: Strategy, plan: Plan, f: DeployFailure): Option<Plan> {
    match s
    case ADD_TRUST_REMOTE_CODE => AddTrustRemoteCode(plan, f)
    case USE_GGUF_FILE_PATH => UseGgufFilePath(plan, f)
    case LOWER_MAX_MODEL_LEN => LowerMaxModelLen(plan, f)
    case SWAP_VLLM_IMAGE_LATEST => SwapVllmImageLatest(plan, f)
    case SWAP_ENGINE_SGLANG => SwapEngineSglang(plan, f)
    case SWAP_ENGINE_TRANSFORMERS => SwapEngineTransformers(plan, f)
  }

  function ImageOf(s: Strategy): Option<string> {
    if s == SWAP_VLLM_IMAGE_LATEST then Some(VLLM_LATEST) else None
  }

  /** The applicable proposals, in strategy order. */
  function Proposals(plan: Plan, f: DeployFailure, strategies: seq<Strategy>): (ps: seq<Proposal>)
    ensures |ps| <= |strategies|
  {
    if strategies == [] then []
    else
      var s := strategies[|strategies| - 1];
      var ps, p := Proposals(plan, f, strategies[..|strategies| - 1]), Propose(s, plan, f);
      if p.Some? then ps + [Proposal(s, p.value, ImageOf(s))] else ps
  }

  /** propose_attempts */
  method ProposeAttempts(plan: Plan, f: DeployFailure, strategies: seq<Strategy>) returns (proposals: seq<Proposal>)
    ensures proposals == Proposals(plan, f, strategies)
  {
    proposals := [];
    for k := 0 to |strategies|
      invariant proposals == Proposals(plan, f, strategies[..k])
    {
      assert strategies[..k + 1][..k] == strategies[..k];
      var s := strategies[k];
      var p := Propose(s, plan, f);
      if p.Some? {
        proposals := proposals + [Proposal(s, p.value, ImageOf(s))];
      }
    }
    assert strategies[..|strategies|] == strategies;
  }

  // ---------- what the proposals are ----------

  function Rank(s: Strategy): nat {
    match s
    case ADD_TRUST_REMOTE_CODE => 0
    case USE_GGUF_FILE_PATH => 1
    case LOWER_MAX_MODEL_LEN => 2
    case SWAP_VLLM_IMAGE_LATEST => 3
    case SWAP_ENGINE_SGLANG => 4
    case SWAP_ENGINE_TRANSFORMERS => 5
  }

  ghost predicate InOrder(ps: seq<Proposal>) {
    forall i, j :: 0 <= i < j < |ps| ==> Rank(ps[i].strategy) < Rank(ps[j].strategy)
  }

  ghost predicate Ranked(strategies: seq<Strategy>) {
    forall i, j :: 0 <= i < j < |strategies| ==> Rank(strategies[i]) < Rank(strategies[j])
  }

  /** The proposals come in strategy order, each strategy at most once, and a strategy is among them
      exactly when it applies. */
  lemma {:induction false} ProposalsInOrder(plan: Plan, f: DeployFailure, strategies: seq<Strategy>)
    requires Ranked(strategies)
    ensures InOrder(Proposals(plan, f, strategies))
    ensures forall p :: p in Proposals(plan, f, strategies) ==>
      p.strategy in strategies && Propose(p.strategy, plan, f) == Some(p.plan) && p.image == ImageOf(p.strategy)
    ensures forall s: Strategy :: s in strategies && Propose(s, plan, f).Some? ==>
      Proposal(s, Propose(s, plan, f).value, ImageOf(s)) in Proposals(plan, f, strategies)
  {
    if strategies != [] {
      ProposalsInOrder(plan, f, strategies[..|strategies| - 1]);
    }
  }

  /** What gets deployed. */
  datatype Candidate = Candidate(plan: Plan, image: string, engine: Engine)

  /** The candidate a plan and a proposed image stand for; `engine` stands in when the plan names none. */
  function CandidateFor(plan: Plan, image: Option<string>, engine: Engine): Candidate {
    var e := if plan.engine.Some? then plan.engine.value else engine;
    Candidate(plan, if image.Some? then image.value else EngineImage(e), e)
  }

  function FailureOf(c: Candidate, kind: ErrorKind, signs: Signs): DeployFailure {
    DeployFailure(c.engine, c.image, kind, signs)
  }

  /** A proposal never repeats the failed configuration, except that use_gguf_file_path does when
      the override is already in place. */
  lemma ProposalChanges(c: Candidate, kind: ErrorKind, signs: Signs, s: Strategy)
    requires c.plan.engine == Some(c.engine)
    requires Propose(s, c.plan, FailureOf(c, kind, signs)).Some?
    ensures var plan := Propose(s, c.plan, FailureOf(c, kind, signs)).value;
      plan.engine.Some? &&
      (CandidateFor(plan, ImageOf(s), c.engine) == c <==>
        && s == USE_GGUF_FILE_PATH && c.image == EngineImage(VLLM)
        && "model_path_override" in c.plan.args
        && c.plan.args["model_path_override"] == Text(GgufTarget(c.plan), None))
  {
    var plan := Propose(s, c.plan, FailureOf(c, kind, signs)).value;
    match s {
      case ADD_TRUST_REMOTE_CODE => assert Arg(plan, "trust_remote_code") == Flag(true);
      case LOWER_MAX_MODEL_LEN => assert Arg(plan, "max_model_len") != Arg(c.plan, "max_model_len");
      case USE_GGUF_FILE_PATH => assert Arg(plan, "model_path_override") == Text(GgufTarget(c.plan), None);
      case _ =>
    }
  }

  /** On vLLM and SGLang there is always something to try, and the last of it is the transformers
      runner; on the transformers runner only the other two engines are ever proposed. */
  lemma FallbackProposed(plan: Plan, f: DeployFailure)
    ensures Accelerated(f.engine) ==>
      var ps := Proposals(plan, f, STRATEGIES);
      ps != [] && ps[|ps| - 1] == Proposal(SWAP_ENGINE_TRANSFORMERS, plan.(engine := Some(TRANSFORMERS)), None)
    ensures !Accelerated(f.engine) ==>
      forall p :: p in Proposals(plan, f, STRATEGIES) ==> p.strategy in {SWAP_VLLM_IMAGE_LATEST, SWAP_ENGINE_SGLANG}
  {
    ProposalsInOrder(plan, f, STRATEGIES);
    assert STRATEGIES[|STRATEGIES| - 1] == SWAP_ENGINE_TRANSFORMERS;
  }
}
