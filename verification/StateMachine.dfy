/**
 The run and stage records of orchestrator/state_machine.py: the values, the classes that update
 them in place, and their JSON form. Clock readings are not modelled.
 */
module StateMachine {
  import opened Options

  // ---------- stages, numbered by their place in STAGES_IN_ORDER ----------

  const STAGE_COUNT: nat := 11
  type StageName = n: nat | n < STAGE_COUNT

  const DISCOVER: StageName := 0
  const CURATE: StageName := 1
  const METADATA: StageName := 2
  const ENGINE_SELECT: StageName := 3
  const STAGE_MODEL: StageName := 4
  const DEPLOY: StageName := 5
  const READY_WAIT: StageName := 6
  const CAPABILITY: StageName := 7
  const PERF_BENCH: StageName := 8
  const SHOWCASE: StageName := 9
  const CLEANUP: StageName := 10

  predicate RunLevel(s: StageName) {
    s <= STAGE_MODEL
  }

  datatype StageStatus = PENDING | IN_PROGRESS | OK | FAILED | SKIPPED | TIMED_OUT
  datatype RunStatus = RUN_PENDING | RUN_IN_PROGRESS | RUN_OK | RUN_FAILED | RUN_ABORTED

  // ---------- values ----------

  datatype Info = Info(status: StageStatus, attempt: nat, error: Option<string>, artifacts: seq<string>)

  const FRESH_INFO := Info(PENDING, 0, None, [])

  datatype RunState = RunState(runId: string, hfId: string, status: RunStatus, stages: seq<Info>,
                               failureReason: Option<string>, abortFlag: bool)

  predicate Whole(r: RunState) {
    |r.stages| == STAGE_COUNT
  }

  function Trunc(s: string): string {
    if |s| <= 500 then s else s[..500]
  }

  function Started(i: Info): Info {
    i.(status := IN_PROGRESS, attempt := i.attempt + 1)
  }

  function MarkedOk(i: Info, artifacts: seq<string>): Info {
    i.(status := OK, artifacts := if artifacts != [] then artifacts else i.artifacts)
  }

  function MarkedFailed(i: Info, error: string, timedOut: bool := false): Info {
    i.(status := if timedOut then TIMED_OUT else FAILED, error := Some(Trunc(error)))
  }

  function MarkedSkipped(i: Info, reason: string): Info {
    i.(status := SKIPPED, error := Some(Trunc(reason)))
  }

  predicate StageOk(r: RunState, s: StageName)
    requires Whole(r)
  {
    r.stages[s].status.OK?
  }

  /** Run.first_pending_stage: the first stage that is not OK. */
  function FirstPending(r: RunState, from: nat := 0): (s: Option<StageName>)
    requires Whole(r) && from <= STAGE_COUNT
    ensures s.Some? ==> from <= s.value && !StageOk(r, s.value)
    ensures forall i: StageName :: from <= i && (s.Some? ==> i < s.value) ==> StageOk(r, i)
    decreases STAGE_COUNT - from
  {
    if from == STAGE_COUNT then None
    else if !StageOk(r, from) then Some(from)
    else FirstPending(r, from + 1)
  }

  predicate Broken(i: Info) {
    i.status.FAILED? || i.status.TIMED_OUT?
  }

  /** Run.needs_full_restart */
  predicate NeedsFullRestart(r: RunState)
    requires Whole(r)
  {
    !StageOk(r, DEPLOY) && exists s: StageName :: RunLevel(s) && Broken(r.stages[s])
  }

  // ---------- the classes ----------

  class StageInfo {
    var status: StageStatus
    var attempt: nat
    var error: Option<string>
    var artifacts: seq<string>

    function Value(): Info
      reads this
    {
      Info(status, attempt, error, artifacts)
    }

    constructor ()
      ensures Value() == FRESH_INFO
    {
      status, attempt, error, artifacts := PENDING, 0, None, [];
    }

    method MarkStarted()
      modifies this
      ensures Value() == Started(old(Value()))
      ensures status == IN_PROGRESS && attempt == old(attempt) + 1 && error == old(error)
              && artifacts == old(artifacts)
    {
      status := IN_PROGRESS;
      attempt := attempt + 1;
    }

    method MarkOk(produced: seq<string>)
      modifies this
      ensures Value() == MarkedOk(old(Value()), produced)
      ensures status == OK && attempt == old(attempt) && error == old(error)
              && artifacts == (if produced == [] then old(artifacts) else produced)
    {
      status := OK;
      if produced != [] {
        artifacts := produced;
      }
    }

    method MarkFailed(message: string, timedOut: bool := false)
      modifies this
      ensures Value() == MarkedFailed(old(Value()), message, timedOut)
      ensures status == (if timedOut then TIMED_OUT else FAILED) && attempt == old(attempt)
              && artifacts == old(artifacts) && error.Some? && error.value <= message
              && |error.value| == (if |message| < 500 then |message| else 500)
    {
      status := if timedOut then TIMED_OUT else FAILED;
      error := Some(Trunc(message));
    }

    method MarkSkipped(reason: string)
      modifies this
      ensures Value() == MarkedSkipped(old(Value()), reason)
      ensures status == SKIPPED && attempt == old(attempt) && artifacts == old(artifacts)
              && error.Some? && error.value <= reason && |error.value| == (if |reason| < 500 then |reason| else 500)
    {
      status := SKIPPED;
      error := Some(Trunc(reason));
    }
  }

  class Run {
    const runId: string
    const hfId: string
    const stages: seq<StageInfo>
    var status: RunStatus
    var failureReason: Option<string>
    var abortFlag: bool

    ghost predicate Valid() {
      |stages| == STAGE_COUNT && forall i, j :: 0 <= i < j < |stages| ==> stages[i] != stages[j]
    }

    function Value(): (r: RunState)
      requires Valid()
      reads this, stages
      ensures Whole(r)
    {
      RunState(runId, hfId, status, seq(STAGE_COUNT, i requires 0 <= i < STAGE_COUNT reads stages => stages[i].Value()),
               failureReason, abortFlag)
    }
  }

  // ---------- JSON form ----------

  function StageText(s: StageName): string {
    match s
    case 0 => "DISCOVER"
    case 1 => "CURATE"
    case 2 => "METADATA"
    case 3 => "ENGINE_SELECT"
    case 4 => "STAGE_MODEL"
    case 5 => "DEPLOY"
    case 6 => "READY_WAIT"
    case 7 => "CAPABILITY"
    case 8 => "PERF_BENCH"
    case 9 => "SHOWCASE"
    case _ => "CLEANUP"
  }

  function StageOf(text: string): Option<StageName> {
    match text
    case "DISCOVER" => Some(DISCOVER)
    case "CURATE" => Some(CURATE)
    case "METADATA" => Some(METADATA)
    case "ENGINE_SELECT" => Some(ENGINE_SELECT)
    case "STAGE_MODEL" => Some(STAGE_MODEL)
    case "DEPLOY" => Some(DEPLOY)
    case "READY_WAIT" => Some(READY_WAIT)
    case "CAPABILITY" => Some(CAPABILITY)
    case "PERF_BENCH" => Some(PERF_BENCH)
    case "SHOWCASE" => Some(SHOWCASE)
    case "CLEANUP" => Some(CLEANUP)
    case _ => None
  }

  function StatusText(s: StageStatus): string {
    match s
    case PENDING => "pending"
    case IN_PROGRESS => "in_progress"
    case OK => "ok"
    case FAILED => "failed"
    case SKIPPED => "skipped"
    case TIMED_OUT => "timed_out"
  }

  function StatusOf(text: string): Option<StageStatus> {
    match text
    case "pending" => Some(PENDING)
    case "in_progress" => Some(IN_PROGRESS)
    case "ok" => Some(OK)
    case "failed" => Some(FAILED)
    case "skipped" => Some(SKIPPED)
    case "timed_out" => Some(TIMED_OUT)
    case _ => None
  }

  function RunStatusText(s: RunStatus): string {
    match s
    case RUN_PENDING => "pending"
    case RUN_IN_PROGRESS => "in_progress"
    case RUN_OK => "ok"
    case RUN_FAILED => "failed"
    case RUN_ABORTED => "aborted"
  }

  function RunStatusOf(text: string): Option<RunStatus> {
    match text
    case "pending" => Some(RUN_PENDING)
    case "in_progress" => Some(RUN_IN_PROGRESS)
    case "ok" => Some(RUN_OK)
    case "failed" => Some(RUN_FAILED)
    case "aborted" => Some(RUN_ABORTED)
    case _ => None
  }

  /** One entry of the "stages" object; absent fields are None. */
  datatype StageDoc = StageDoc(name: string, status: Option<string>, attempt: Option<nat>,
                               error: Option<string>, artifacts: seq<string>)

  datatype RunDoc = RunDoc(runId: string, hfId: string, status: Option<string>, stages: seq<StageDoc>,
                           failureReason: Option<string>, abortFlag: bool)

  function ToStageDoc(s: StageName, i: Info): StageDoc {
    StageDoc(StageText(s), Some(StatusText(i.status)), Some(i.attempt), i.error, i.artifacts)
  }

  function ToJson(r: RunState): RunDoc
    requires Whole(r)
  {
    RunDoc(r.runId, r.hfId, Some(RunStatusText(r.status)),
           seq(STAGE_COUNT, s requires 0 <= s < STAGE_COUNT => ToStageDoc(s, r.stages[s])),
           r.failureReason, r.abortFlag)
  }

  /** StageInfo(...) from an entry; None for a status value the enum does not know. */
  function FromStageDoc(d: StageDoc): Option<Info> {
    match StatusOf(if d.status.Some? then d.status.value else "pending")
    case None => None
    case Some(st) => Some(Info(st, if d.attempt.Some? then d.attempt.value else 0, d.error, d.artifacts))
  }

  /** Entries whose name is no stage are passed over; stages without an entry stay as they are. */
  function LoadStages(stages: seq<Info>, docs: seq<StageDoc>): (r: Option<seq<Info>>)
    requires |stages| == STAGE_COUNT
    ensures r.Some? ==> |r.value| == STAGE_COUNT
    decreases docs
  {
    if docs == [] then Some(stages)
    else
      match StageOf(docs[0].name)
      case None => LoadStages(stages, docs[1..])
      case Some(s) =>
        match FromStageDoc(docs[0])
        case None => None
        case Some(i) => LoadStages(stages[s := i], docs[1..])
  }

  /** Run.from_json: None stands for the ValueError of an unknown status value. */
  function FromJson(d: RunDoc): (r: Option<RunState>)
    ensures r.Some? ==> Whole(r.value)
  {
    match RunStatusOf(if d.status.Some? then d.status.value else "pending")
    case None => None
    case Some(st) =>
      match LoadStages(seq(STAGE_COUNT, _ => FRESH_INFO), d.stages)
      case None => None
      case Some(stages) => Some(RunState(d.runId, d.hfId, st, stages, d.failureReason, d.abortFlag))
  }

  lemma StageTextRoundTrip(s: StageName)
    ensures StageOf(StageText(s)) == Some(s)
  {
  }

  lemma StatusRoundTrip()
    ensures forall s :: StatusOf(StatusText(s)) == Some(s)
    ensures forall s :: RunStatusOf(RunStatusText(s)) == Some(s)
  {
  }

  lemma {:induction false} LoadStagesFrom(r: RunState, stages: seq<Info>, k: nat)
    requires Whole(r) && |stages| == STAGE_COUNT && k <= STAGE_COUNT
    requires forall i :: 0 <= i < k ==> stages[i] == r.stages[i]
    ensures LoadStages(stages, ToJson(r).stages[k..]) == Some(r.stages)
    decreases STAGE_COUNT - k
  {
    if k == STAGE_COUNT {
      assert stages == r.stages;
    } else {
      var docs := ToJson(r).stages[k..];
      assert docs[0] == ToStageDoc(k, r.stages[k]);
      assert docs[1..] == ToJson(r).stages[k + 1..];
      StageTextRoundTrip(k);
      StatusRoundTrip();
      LoadStagesFrom(r, stages[k := r.stages[k]], k + 1);
    }
  }

  /** What is persisted is what a restarted process reads back. */
  lemma JsonRoundTrip(r: RunState)
    requires Whole(r)
    ensures FromJson(ToJson(r)) == Some(r)
  {
    StatusRoundTrip();
    LoadStagesFrom(r, seq(STAGE_COUNT, _ => FRESH_INFO), 0);
    assert ToJson(r).stages[0..] == ToJson(r).stages;
  }
}
