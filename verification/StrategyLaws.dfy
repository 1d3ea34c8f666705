/**
 What each repair strategy does, told on the plan's arguments and the signs of the failure, and what
 that means for the attempts of a search.
 */
module StrategyLaws {
  import opened Options
  import opened DeployRepair
  import opened Deploy
  import opened DeployLaws

  // ---------- the failure ----------

  /** The signs in the order in which they are looked for. */
  function InTurn(s: Signs): seq<bool> {
    [s.ggufPath, s.modelType, s.trustRemoteCode, s.oom, s.missingDep, s.cudaArch, s.dtype]
  }

  /** Sign i is the first that shows; with i at the end none does. */
  predicate FirstSign(s: Signs, i: nat) {
    && i <= |InTurn(s)| && (i < |InTurn(s)| ==> InTurn(s)[i])
    && forall j :: 0 <= j < i ==> !InTurn(s)[j]
  }

  const NO_SIGN: nat := 7

  /** A start that failed for no reason of its own: the log decides. */
  predicate LogDecides(f: DeployFailure) {
    f.kind == EARLY_EXIT || f.kind == DOCKER_API
  }

  predicate ShowsFirst(f: DeployFailure, i: nat) {
    LogDecides(f) && FirstSign(f.signs, i)
  }

  /** Every class and what it stands for. */
  lemma ClassIs(f: DeployFailure)
    ensures Classify(f) == ImagePull <==> f.kind == IMAGE_PULL
    ensures Classify(f) == PortInUse <==> f.kind == PORT_IN_USE
    ensures Classify(f) == InferenceNotImplemented <==> f.kind == INFERENCE_BROKEN && f.signs.notImplemented
    ensures Classify(f) == InferenceOther5xx <==> f.kind == INFERENCE_BROKEN && !f.signs.notImplemented
    ensures Classify(f) == GgufNeedsFilePath <==> ShowsFirst(f, 0)
    ensures Classify(f) == ModelTypeUnknown <==> ShowsFirst(f, 1)
    ensures Classify(f) == TrustRemoteCodeRequired <==> ShowsFirst(f, 2)
    ensures Classify(f) == Oom <==> ShowsFirst(f, 3)
    ensures Classify(f) == MissingDep <==> ShowsFirst(f, 4)
    ensures Classify(f) == CudaArchMismatch <==> ShowsFirst(f, 5)
    ensures Classify(f) == UnsupportedDtype <==> ShowsFirst(f, 6)
    ensures Classify(f) == OtherEarlyExit <==> ShowsFirst(f, NO_SIGN)
  {
    FirstSignIs(f.signs);
  }

  lemma FirstSignIs(s: Signs)
    ensures FirstSign(s, 0) <==> s.ggufPath
    ensures FirstSign(s, 1) <==> !s.ggufPath && s.modelType
    ensures FirstSign(s, 2) <==> !s.ggufPath && !s.modelType && s.trustRemoteCode
    ensures FirstSign(s, 3) <==> !s.ggufPath && !s.modelType && !s.trustRemoteCode && s.oom
    ensures FirstSign(s, 4) <==> !s.ggufPath && !s.modelType && !s.trustRemoteCode && !s.oom && s.missingDep
    ensures FirstSign(s, 5) <==> NoneOfFive(s) && s.cudaArch
    ensures FirstSign(s, 6) <==> NoneOfFive(s) && !s.cudaArch && s.dtype
    ensures FirstSign(s, NO_SIGN) <==> NoneOfFive(s) && !s.cudaArch && !s.dtype
  {
    var t := InTurn(s);
    assert t[0] == s.ggufPath && t[1] == s.modelType && t[2] == s.trustRemoteCode;
    assert t[3] == s.oom && t[4] == s.missingDep && t[5] == s.cudaArch && t[6] == s.dtype;
  }

  predicate NoneOfFive(s: Signs) {
    !s.ggufPath && !s.modelType && !s.trustRemoteCode && !s.oom && !s.missingDep
  }

  // ---------- the plan ----------

  /** From p to q one argument is set, and nothing else changes. */
  ghost predicate OnlySets(p: Plan, q: Plan, key: string, v: ArgValue) {
    && q.engine == p.engine && q.ggufHint == p.ggufHint
    && key in q.args && q.args[key] == v
    && (forall k :: k != key ==> (k in q.args <==> k in p.args))
    && (forall k :: k != key && k in p.args ==> q.args[k] == p.args[k])
  }

  /** From p to q the engine is set, and nothing else changes. */
  ghost predicate OnlySwaps(p: Plan, q: Plan, engine: Engine) {
    q.engine == Some(engine) && q.args == p.args && q.ggufHint == p.ggufHint
  }

  predicate NoLength(p: Plan) {
    "max_model_len" !in p.args || p.args["max_model_len"] == Null
  }

  /** The context length the plan asks for. */
  predicate HasLength(p: Plan, n: int) {
    && "max_model_len" in p.args
    && match p.args["max_model_len"]
       case Null => false
       case Flag(on) => n == if on then 1 else 0
       case Number(m) => n == m
       case Text(_, number) => n == if number.Some? then number.value else 8192
       case Compound(_) => n == 8192
  }

  /** Half of n, rounded down, but at least 1024. */
  predicate HalfOf(m: int, n: int) {
    if n < 2048 then m == 1024 else 2 * m <= n < 2 * m + 2
  }

  predicate TrustsAlready(p: Plan) {
    && "trust_remote_code" in p.args
    && match p.args["trust_remote_code"]
       case Flag(on) => on
       case Number(n) => n == 1
       case Text(text, _) => text == "true" || text == "True"
       case _ => false
  }

  /** The file the hint names below /model, or the pattern to go by without a hint. */
  ghost predicate GgufPath(p: Plan, path: string) {
    if p.ggufHint == None || p.ggufHint.value == "" then path == "/model/*Q4_K_M*.gguf"
    else exists slashes: string, file: string ::
           && p.ggufHint.value == slashes + file && (forall i :: 0 <= i < |slashes| ==> slashes[i] == '/')
           && (file != "" ==> file[0] != '/') && path == "/model/" + file
  }

  // ---------- the strategies ----------

  /** lower_max_model_len: on vLLM and SGLang, out of memory or for no visible reason, down to 1024. */
  lemma LowerIs(p: Plan, f: DeployFailure)
    ensures Propose(LOWER_MAX_MODEL_LEN, p, f).Some? <==>
      && f.engine in {VLLM, SGLANG} && (ShowsFirst(f, 3) || ShowsFirst(f, NO_SIGN))
      && (NoLength(p) || exists n :: HasLength(p, n) && n > 1024)
    ensures Propose(LOWER_MAX_MODEL_LEN, p, f).Some? ==>
      var q := Propose(LOWER_MAX_MODEL_LEN, p, f).value;
      exists m :: OnlySets(p, q, "max_model_len", Number(m))
                  && if NoLength(p) then m == 4096 else exists n :: HasLength(p, n) && 1024 <= m < n && HalfOf(m, n)
  {
    ClassIs(f);
    if !NoLength(p) {
      assert HasLength(p, LengthOf(p.args["max_model_len"]));
    }
    if Propose(LOWER_MAX_MODEL_LEN, p, f).Some? {
      var q := Propose(LOWER_MAX_MODEL_LEN, p, f).value;
      assert OnlySets(p, q, "max_model_len", q.args["max_model_len"]);
    }
  }

  /** add_trust_remote_code */
  lemma TrustIs(p: Plan, f: DeployFailure)
    ensures Propose(ADD_TRUST_REMOTE_CODE, p, f).Some? <==>
      f.engine in {VLLM, SGLANG} && !ShowsFirst(f, 0) && !TrustsAlready(p)
    ensures Propose(ADD_TRUST_REMOTE_CODE, p, f).Some? ==>
      OnlySets(p, Propose(ADD_TRUST_REMOTE_CODE, p, f).value, "trust_remote_code", Flag(true))
  {
    ClassIs(f);
  }

  /** use_gguf_file_path */
  lemma GgufIs(p: Plan, f: DeployFailure)
    ensures Propose(USE_GGUF_FILE_PATH, p, f).Some? <==> f.engine == VLLM && ShowsFirst(f, 0)
    ensures Propose(USE_GGUF_FILE_PATH, p, f).Some? ==>
      exists path :: GgufPath(p, path)
                     && OnlySets(p, Propose(USE_GGUF_FILE_PATH, p, f).value, "model_path_override", Text(path, None))
  {
    ClassIs(f);
    PathIs(p);
  }

  lemma PathIs(p: Plan)
    ensures GgufPath(p, GgufTarget(p))
  {
    if p.ggufHint.Some? && p.ggufHint.value != "" {
      var slashes := SlashesOff(p.ggufHint.value);
    }
  }

  lemma {:induction false} SlashesOff(s: string) returns (slashes: string)
    ensures s == slashes + DropSlashes(s) && forall i :: 0 <= i < |slashes| ==> slashes[i] == '/'
    ensures DropSlashes(s) != "" ==> DropSlashes(s)[0] != '/'
    decreases s
  {
    if s != "" && s[0] == '/' {
      var more := SlashesOff(s[1..]);
      slashes := ['/'] + more;
      assert s == ['/'] + s[1..];
    } else {
      slashes := "";
    }
  }

  /** swap_vllm_image_latest, the one strategy that proposes an image */
  lemma LatestIs(p: Plan, f: DeployFailure)
    ensures Propose(SWAP_VLLM_IMAGE_LATEST, p, f).Some? <==>
      && !(f.engine == VLLM && f.image == "vllm/vllm-openai:latest")
      && (f.kind == INFERENCE_BROKEN
          || (f.engine == VLLM && (ShowsFirst(f, 1) || ShowsFirst(f, 4) || ShowsFirst(f, 5) || ShowsFirst(f, NO_SIGN))))
    ensures Propose(SWAP_VLLM_IMAGE_LATEST, p, f).Some? ==>
      OnlySwaps(p, Propose(SWAP_VLLM_IMAGE_LATEST, p, f).value, VLLM)
    ensures forall s :: ImageOf(s) == if s == SWAP_VLLM_IMAGE_LATEST then Some("vllm/vllm-openai:latest") else None
  {
    ClassIs(f);
  }

  /** swap_engine_sglang */
  lemma SglangIs(p: Plan, f: DeployFailure)
    ensures Propose(SWAP_ENGINE_SGLANG, p, f).Some? <==>
      && f.engine != SGLANG
      && (f.kind == INFERENCE_BROKEN || ShowsFirst(f, 1) || ShowsFirst(f, 6) || ShowsFirst(f, NO_SIGN))
    ensures Propose(SWAP_ENGINE_SGLANG, p, f).Some? ==> OnlySwaps(p, Propose(SWAP_ENGINE_SGLANG, p, f).value, SGLANG)
  {
    ClassIs(f);
  }

  /** swap_engine_transformers */
  lemma TransformersIs(p: Plan, f: DeployFailure)
    ensures Propose(SWAP_ENGINE_TRANSFORMERS, p, f).Some? <==> f.engine in {VLLM, SGLANG}
    ensures Propose(SWAP_ENGINE_TRANSFORMERS, p, f).Some? ==>
      OnlySwaps(p, Propose(SWAP_ENGINE_TRANSFORMERS, p, f).value, TRANSFORMERS)
  {
  }

  // ---------- over a search ----------

  /** What a rule does to the plan of the attempt it derives from. */
  ghost predicate Effect(s: Strategy, p: Plan, q: Plan) {
    match s
    case ADD_TRUST_REMOTE_CODE => OnlySets(p, q, "trust_remote_code", Flag(true)) && !TrustsAlready(p)
    case USE_GGUF_FILE_PATH =>
      exists path :: GgufPath(p, path) && OnlySets(p, q, "model_path_override", Text(path, None))
    case LOWER_MAX_MODEL_LEN =>
      exists m :: OnlySets(p, q, "max_model_len", Number(m))
                  && if NoLength(p) then m == 4096 else exists n :: HasLength(p, n) && 1024 <= m < n && HalfOf(m, n)
    case SWAP_VLLM_IMAGE_LATEST => OnlySwaps(p, q, VLLM)
    case SWAP_ENGINE_SGLANG => OnlySwaps(p, q, SGLANG)
    case SWAP_ENGINE_TRANSFORMERS => OnlySwaps(p, q, TRANSFORMERS)
  }

  lemma EffectIs(s: Strategy, p: Plan, f: DeployFailure)
    requires Propose(s, p, f).Some?
    ensures Effect(s, p, Propose(s, p, f).value)
  {
    match s
    case ADD_TRUST_REMOTE_CODE => TrustIs(p, f);
    case USE_GGUF_FILE_PATH => GgufIs(p, f);
    case LOWER_MAX_MODEL_LEN => LowerIs(p, f);
    case SWAP_VLLM_IMAGE_LATEST => LatestIs(p, f);
    case SWAP_ENGINE_SGLANG => SglangIs(p, f);
    case SWAP_ENGINE_TRANSFORMERS => TransformersIs(p, f);
  }

  /** Every attempt of the repair loop is an earlier attempt's plan with one rule's effect, and nothing else. */
  lemma RuleEffects(dock: Dock, strategies: seq<Strategy>, first: Try, k: nat, i: nat) returns (b: nat)
    requires Ranked(strategies) && first.result.Dead? && i < |Turns(dock, ProposerOf(strategies), first, k).tries|
    ensures var tries := Turns(dock, ProposerOf(strategies), first, k).tries;
      && b <= i && tries[i].who.Rule?
      && Effect(tries[i].who.strategy, Before(first, tries, b).cand.plan, tries[i].cand.plan)
  {
    b := PlansShareTheirRoot(dock, strategies, first, k, i);
    var tries := Turns(dock, ProposerOf(strategies), first, k).tries;
    var root := Before(first, tries, b);
    assert DerivesFrom(root, tries[i], strategies);
    EffectIs(tries[i].who.strategy, root.cand.plan, FailureAt(root));
  }

  /** So no rule ever makes the context longer than in the attempt it derives from; and the one that sets it
      makes it strictly shorter. */
  lemma ContextNeverGrows(s: Strategy, p: Plan, q: Plan, n: int)
    requires Effect(s, p, q) && HasLength(p, n)
    ensures exists m :: HasLength(q, m) && m <= n && (s == LOWER_MAX_MODEL_LEN <==> m < n)
  {
    if s == LOWER_MAX_MODEL_LEN {
      var m :| && OnlySets(p, q, "max_model_len", Number(m))
               && exists l :: HasLength(p, l) && 1024 <= m < l && HalfOf(m, l);
      assert HasLength(q, m);
    } else {
      assert HasLength(q, n);
    }
  }

  // ---------- the agent's candidates ----------

  /** What the agent's proposal makes of the last attempt: its arguments override, the others stay; engine and
      image as proposed, or else the last engine and that engine's pinned image. */
  lemma AgentCandidateIs(cur: Candidate, a: AgentProposal)
    ensures var c := AgentCandidate(cur, a);
      && (forall k :: k in c.plan.args <==> k in a.args || k in cur.plan.args)
      && (forall k :: k in a.args ==> c.plan.args[k] == a.args[k])
      && (forall k :: k in cur.plan.args && k !in a.args ==> c.plan.args[k] == cur.plan.args[k])
      && c.plan.ggufHint == cur.plan.ggufHint
      && c.engine == (if a.engine.Some? then a.engine.value
                      else if cur.plan.engine.Some? then cur.plan.engine.value else cur.engine)
      && (a.engine.Some? || cur.plan.engine.Some? ==> c.plan.engine == Some(c.engine))
      && (a.image.Some? ==> c.image == a.image.value) && (a.image == None ==> Pinned(c.engine, c.image))
  {
  }

  /** _ENGINE_IMAGES */
  predicate Pinned(e: Engine, image: string) {
    || (e == VLLM && image == "vllm/vllm-openai:v0.11.0")
    || (e == SGLANG && image == "lmsysorg/sglang:v0.4.6.post1")
    || (e == TRANSFORMERS && image == "heyi-eval/transformers-runner:v10")
  }

  /** What a rule's proposal deploys. */
  lemma RuleCandidateIs(plan: Plan, image: Option<string>, engine: Engine)
    ensures var c := CandidateFor(plan, image, engine);
      && c.plan == plan && c.engine == (if plan.engine.Some? then plan.engine.value else engine)
      && (image.Some? ==> c.image == image.value) && (image == None ==> Pinned(c.engine, c.image))
  {
  }
}
