/**
 The run report: its schema (agent_driver/schema.py) and its recovery from an agent's stdout
 (agent_driver/report_extractor.py).
 */
module Report {
  import opened Options
  import opened Strings
  import opened JsonText

  // ---------- the report and its JSON form ----------

  datatype Outcome =
    | PASS | PARTIAL | FAIL
    | REPORT_PARSE_ERROR | BUDGET_EXCEEDED | TIMEOUT | SANDBOX_DEAD
    | OVERSIZE | NO_README | NEEDS_GPU | JUDGE_UNAVAILABLE | SKILL_CLONE_ATTEMPT

  datatype StepStatus = STEP_OK | STEP_PARTIAL | STEP_FAIL | STEP_SKIP

  datatype Lane = PROJECT | SKILL

  datatype Step = Step(name: string, status: StepStatus, durationS: real, note: string,
                       stdoutTail: string, artifacts: seq<string>)

  datatype Verdict = Verdict(deploys: bool, quickstartWorks: bool,
                             coreFeatures: seq<string>, blockers: seq<string>)

  datatype RunReport = RunReport(lane: Lane, targetId: string, outcome: Outcome, steps: seq<Step>,
                                 verdict: Verdict, selfAssessment: string, followUps: seq<string>)

  function OutcomeName(o: Outcome): string {
    match o
    case PASS => "pass"
    case PARTIAL => "partial"
    case FAIL => "fail"
    case REPORT_PARSE_ERROR => "report_parse_error"
    case BUDGET_EXCEEDED => "budget_exceeded"
    case TIMEOUT => "timeout"
    case SANDBOX_DEAD => "sandbox_dead"
    case OVERSIZE => "oversize"
    case NO_README => "no_readme"
    case NEEDS_GPU => "needs_gpu"
    case JUDGE_UNAVAILABLE => "judge_unavailable"
    case SKILL_CLONE_ATTEMPT => "skill_clone_attempt"
  }

  function OutcomeOf(s: string): Option<Outcome> {
    match s
    case "pass" => Some(PASS)
    case "partial" => Some(PARTIAL)
    case "fail" => Some(FAIL)
    case "report_parse_error" => Some(REPORT_PARSE_ERROR)
    case "budget_exceeded" => Some(BUDGET_EXCEEDED)
    case "timeout" => Some(TIMEOUT)
    case "sandbox_dead" => Some(SANDBOX_DEAD)
    case "oversize" => Some(OVERSIZE)
    case "no_readme" => Some(NO_README)
    case "needs_gpu" => Some(NEEDS_GPU)
    case "judge_unavailable" => Some(JUDGE_UNAVAILABLE)
    case "skill_clone_attempt" => Some(SKILL_CLONE_ATTEMPT)
    case _ => None
  }

  function StatusName(s: StepStatus): string {
    match s
    case STEP_OK => "ok"
    case STEP_PARTIAL => "partial"
    case STEP_FAIL => "fail"
    case STEP_SKIP => "skip"
  }

  function StatusOf(s: string): Option<StepStatus> {
    match s
    case "ok" => Some(STEP_OK)
    case "partial" => Some(STEP_PARTIAL)
    case "fail" => Some(STEP_FAIL)
    case "skip" => Some(STEP_SKIP)
    case _ => None
  }

  function LaneName(l: Lane): string {
    match l
    case PROJECT => "project"
    case SKILL => "skill"
  }

  function LaneOf(s: string): Option<Lane> {
    match s
    case "project" => Some(PROJECT)
    case "skill" => Some(SKILL)
    case _ => None
  }

  /** RunReport.to_dict() */
  function ToDict(r: RunReport): Json {
    JObj(map[
      "schema_version" := JStr("1.0"),
      "lane" := JStr(LaneName(r.lane)),
      "target_id" := JStr(r.targetId),
      "outcome" := JStr(OutcomeName(r.outcome)),
      "steps" := JArr(StepDicts(r.steps)),
      "verdict" := VerdictDict(r.verdict),
      "self_assessment_zh" := JStr(r.selfAssessment),
      "follow_ups" := JArr(Strs(r.followUps))])
  }

  function StepDict(s: Step): Json {
    JObj(map[
      "name" := JStr(s.name),
      "status" := JStr(StatusName(s.status)),
      "duration_s" := JNum(s.durationS),
      "note" := JStr(s.note),
      "stdout_tail" := JStr(s.stdoutTail),
      "artifacts" := JArr(Strs(s.artifacts))])
  }

  function StepDicts(steps: seq<Step>): seq<Json> {
    seq(|steps|, i requires 0 <= i < |steps| => StepDict(steps[i]))
  }

  function VerdictDict(v: Verdict): Json {
    JObj(map[
      "deploys" := JBool(v.deploys),
      "quickstart_works" := JBool(v.quickstartWorks),
      "core_features_demonstrated" := JArr(Strs(v.coreFeatures)),
      "blockers" := JArr(Strs(v.blockers))])
  }

  function Strs(ss: seq<string>): seq<Json> {
    seq(|ss|, i requires 0 <= i < |ss| => JStr(ss[i]))
  }

  // ---------- REPORT_JSON_SCHEMA ----------

  /** An object with every required property and, additionalProperties being false, no unknown one. */
  predicate Shape(j: Json, required: set<string>, optional: set<string>) {
    j.JObj? && required <= j.members.Keys <= required + optional
  }

  predicate StrOf(j: Json, minLength: nat, maxLength: nat) {
    j.JStr? && minLength <= |j.s| <= maxLength
  }

  predicate StrsOf(j: Json, maxLength: nat, maxItems: nat) {
    j.JArr? && |j.elems| <= maxItems && forall i :: 0 <= i < |j.elems| ==> StrOf(j.elems[i], 1, maxLength)
  }

  const STEP_REQUIRED := {"name", "status"}
  const STEP_OPTIONAL := {"duration_s", "note", "stdout_tail", "artifacts"}

  predicate StepValid(j: Json) {
    && Shape(j, STEP_REQUIRED, STEP_OPTIONAL)
    && StrOf(j.members["name"], 1, 64)
    && j.members["status"].JStr? && StatusOf(j.members["status"].s).Some?
    && ("duration_s" in j.members ==> j.members["duration_s"].JNum? && j.members["duration_s"].n >= 0.0)
    && ("note" in j.members ==> StrOf(j.members["note"], 0, 500))
    && ("stdout_tail" in j.members ==> StrOf(j.members["stdout_tail"], 0, 2048))
    && ("artifacts" in j.members ==> StrsOf(j.members["artifacts"], 256, 32))
  }

  const VERDICT_REQUIRED := {"deploys", "quickstart_works"}
  const VERDICT_OPTIONAL := {"core_features_demonstrated", "blockers"}

  predicate VerdictValid(j: Json) {
    && Shape(j, VERDICT_REQUIRED, VERDICT_OPTIONAL)
    && j.members["deploys"].JBool? && j.members["quickstart_works"].JBool?
    && ("core_features_demonstrated" in j.members ==> StrsOf(j.members["core_features_demonstrated"], 128, 16))
    && ("blockers" in j.members ==> StrsOf(j.members["blockers"], 500, 16))
  }

  const REPORT_REQUIRED :=
    {"schema_version", "lane", "target_id", "outcome", "steps", "verdict", "self_assessment_zh"}
  const REPORT_OPTIONAL := {"follow_ups"}

  /** jsonschema.validate(obj, REPORT_JSON_SCHEMA) succeeds. */
  predicate SchemaValid(j: Json) {
    && Shape(j, REPORT_REQUIRED, REPORT_OPTIONAL)
    && j.members["schema_version"] == JStr("1.0")
    && j.members["lane"].JStr? && LaneOf(j.members["lane"].s).Some?
    && StrOf(j.members["target_id"], 1, 256)
    && j.members["outcome"].JStr? && OutcomeOf(j.members["outcome"].s).Some?
    && j.members["steps"].JArr? && |j.members["steps"].elems| <= 32
    && (forall i :: 0 <= i < |j.members["steps"].elems| ==> StepValid(j.members["steps"].elems[i]))
    && VerdictValid(j.members["verdict"])
    && StrOf(j.members["self_assessment_zh"], 1, 1024)
    && ("follow_ups" in j.members ==> StrsOf(j.members["follow_ups"], 200, 16))
  }

  function StrOr(m: map<string, Json>, key: string, default: string): string
    requires key in m ==> m[key].JStr?
  {
    if key in m then m[key].s else default
  }

  function StrsOr(m: map<string, Json>, key: string): seq<string>
    requires key in m ==> m[key].JArr? && forall i :: 0 <= i < |m[key].elems| ==> m[key].elems[i].JStr?
  {
    if key in m then seq(|m[key].elems|, i requires 0 <= i < |m[key].elems| => m[key].elems[i].s) else []
  }

  function ToStep(j: Json): Step
    requires StepValid(j)
  {
    var m := j.members;
    Step(m["name"].s, StatusOf(m["status"].s).value,
         if "duration_s" in m then m["duration_s"].n else 0.0,
         StrOr(m, "note", ""), StrOr(m, "stdout_tail", ""), StrsOr(m, "artifacts"))
  }

  function ToVerdict(j: Json): Verdict
    requires VerdictValid(j)
  {
    var m := j.members;
    Verdict(m["deploys"].b, m["quickstart_works"].b,
            StrsOr(m, "core_features_demonstrated"), StrsOr(m, "blockers"))
  }

  /** _to_report_dataclass */
  function ToReport(j: Json): RunReport
    requires SchemaValid(j)
  {
    var m := j.members;
    var steps := m["steps"].elems;
    RunReport(LaneOf(m["lane"].s).value, m["target_id"].s, OutcomeOf(m["outcome"].s).value,
              seq(|steps|, i requires 0 <= i < |steps| => ToStep(steps[i])),
              ToVerdict(m["verdict"]), m["self_assessment_zh"].s, StrsOr(m, "follow_ups"))
  }

  /** The schema's bounds, read off the dataclass. */
  predicate Within(ss: seq<string>, maxLength: nat, maxItems: nat) {
    |ss| <= maxItems && forall i :: 0 <= i < |ss| ==> 1 <= |ss[i]| <= maxLength
  }

  predicate StepBounded(s: Step) {
    && 1 <= |s.name| <= 64 && s.durationS >= 0.0 && |s.note| <= 500 && |s.stdoutTail| <= 2048
    && Within(s.artifacts, 256, 32)
  }

  predicate Bounded(r: RunReport) {
    && 1 <= |r.targetId| <= 256 && 1 <= |r.selfAssessment| <= 1024
    && |r.steps| <= 32 && (forall i :: 0 <= i < |r.steps| ==> StepBounded(r.steps[i]))
    && Within(r.verdict.coreFeatures, 128, 16) && Within(r.verdict.blockers, 500, 16)
    && Within(r.followUps, 200, 16)
  }

  lemma StepsRoundTrip(r: RunReport)
    requires Bounded(r)
    ensures forall i :: 0 <= i < |r.steps| ==>
      StepValid(StepDicts(r.steps)[i]) && ToStep(StepDicts(r.steps)[i]) == r.steps[i]
  {
    forall i | 0 <= i < |r.steps|
      ensures StepValid(StepDicts(r.steps)[i]) && ToStep(StepDicts(r.steps)[i]) == r.steps[i]
    {
    }
  }

  /** The dataclass and the JSON schema agree: a bounded report dumps to a valid object and loads back. */
  lemma ReportRoundTrip(r: RunReport)
    requires Bounded(r)
    ensures SchemaValid(ToDict(r)) && ToReport(ToDict(r)) == r
  {
    var j := ToDict(r);
    FromParts(r, j);
  }

  lemma FromParts(r: RunReport, j: Json)
    requires Bounded(r)
    requires Shape(j, REPORT_REQUIRED, REPORT_OPTIONAL)
    requires j.members["schema_version"] == JStr("1.0")
    requires j.members["lane"] == JStr(LaneName(r.lane))
    requires j.members["target_id"] == JStr(r.targetId)
    requires j.members["outcome"] == JStr(OutcomeName(r.outcome))
    requires j.members["steps"] == JArr(StepDicts(r.steps))
    requires j.members["verdict"] == VerdictDict(r.verdict)
    requires j.members["self_assessment_zh"] == JStr(r.selfAssessment)
    requires "follow_ups" in j.members && j.members["follow_ups"] == JArr(Strs(r.followUps))
    ensures SchemaValid(j) && ToReport(j) == r
  {
    StepsRoundTrip(r);
    assert StrsOr(j.members, "follow_ups") == r.followUps;
    assert ToReport(j).steps == r.steps;
  }

  /** And nothing outside the bounds gets past the schema. */
  lemma ValidIsBounded(j: Json)
    requires SchemaValid(j)
    ensures Bounded(ToReport(j))
  {
    var steps := j.members["steps"].elems;
    forall i | 0 <= i < |steps|
      ensures StepBounded(ToStep(steps[i]))
    {
      assert StepValid(steps[i]);
    }
  }

  // ---------- the pass-needs-a-feature rule ----------

  const DOWNGRADE_NOTE :=
    "\n[系统降级] outcome 从 pass 降为 partial：未列出 verdict.core_features_demonstrated"

  function Enforce(r: RunReport): RunReport {
    if r.outcome.PASS? && r.verdict.coreFeatures == [] then
      var text := r.selfAssessment + DOWNGRADE_NOTE;
      r.(outcome := PARTIAL, selfAssessment := if |text| <= 1024 then text else text[..1024])
    else r
  }

  /** INV-P3: a pass names a feature; everything but a featureless pass is left alone; the result
      is again within the schema, and enforcing twice changes nothing. */
  lemma EnforceKeepsContract(r: RunReport)
    ensures Enforce(r).outcome.PASS? ==> Enforce(r).verdict.coreFeatures != []
    ensures Enforce(Enforce(r)) == Enforce(r)
    ensures !(r.outcome.PASS? && r.verdict.coreFeatures == []) <==> Enforce(r) == r
    ensures Bounded(r) ==> Bounded(Enforce(r)) && r.selfAssessment <= Enforce(r).selfAssessment
  {
  }

  // ---------- fences and markdown wrappers ----------

  const FENCE_OPEN := "<<<HEYI_RUN_REPORT_JSON>>>"
  const FENCE_CLOSE := "<<<END>>>"

  /** The text between the last `open` marker and the first `close` marker after it. */
  function LastBlock(text: string, open: string, close: string): Option<string> {
    match RFind(text, open, |text|)
    case None => None
    case Some(o) =>
      match Find(text, close, o + |open|)
      case None => None
      case Some(c) => Some(text[o + |open|..c])
  }

  function LastFencePayload(stdout: string): Option<string> {
    LastBlock(stdout, FENCE_OPEN, FENCE_CLOSE)
  }

  /** Three backticks. */
  predicate Ticks(s: string) {
    |s| == 3 && s[0] == '`' && s[1] == '`' && s[2] == '`'
  }

  predicate StartsWithTicks(s: string) {
    |s| >= 3 && Ticks(s[..3])
  }

  predicate EndsWithTicks(s: string) {
    |s| >= 3 && Ticks(s[|s| - 3..])
  }

  /** The slice s[nl+1:-3] never runs backwards: the newline stands before the closing ticks. */
  lemma NewlineBeforeTicks(s: string, nl: nat)
    requires EndsWithTicks(s) && nl < |s| && s[nl] == '\n'
    ensures nl + 1 <= |s| - 3
  {
    var back := s[|s| - 3..];
    assert forall i :: 0 <= i < 3 ==> back[i] == s[|s| - 3 + i];
  }

  function Unwrap(payload: string): string {
    var s := Strip(payload);
    if !StartsWithTicks(s) then payload
    else
      match Find(s, "\n", 0)
      case None => payload
      case Some(nl) =>
        if !EndsWithTicks(s) then payload
        else
          assert s[nl..nl + 1][0] == '\n';
          NewlineBeforeTicks(s, nl);
          Strip(s[nl + 1..|s| - 3])
  }
}
