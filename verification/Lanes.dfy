/**
 run_agent (agent_driver/exec_runner.py) and the two lanes that use it (orchestrator/project_lane.py
 and orchestrator/skill_lane.py). The lanes run the same skeleton; what differs between them is a
 function of the lane. The gate, the clock, the agent's output and failing writes are oracles.
 */
module Lanes {
  import opened Options
  import opened Maps
  import opened JsonText
  import opened Report
  import opened Extraction
  import opened Watchdog
  import opened AgentPool

  // ---------- one agent task ----------

  /** What streaming comes back with; _stream_and_track raises when the exec does. */
  datatype Stream = StreamBroke | Streamed(stdout: string, decision: Decision)

  /** `detail` is the text of a report the system makes up. */
  datatype AgentEvents = AgentEvents(now: int, acquire: AcquireEvents, tasksFail: bool, stream: Stream,
                                     detail: string, rmtreeFails: bool)

  datatype AgentResult = AgentResult(report: RunReport, stdout: string)

  function Synthetic(lane: Lane, target: string, outcome: Outcome, detail: string): RunReport {
    RunReport(lane, target, outcome, [], Verdict(false, false, [], []), detail, [])
  }

  /** The report, once the container is leased. */
  function Assessed(ev: AgentEvents, lane: Lane, target: string, loads: string -> Option<Json>): AgentResult {
    if ev.tasksFail || ev.stream.StreamBroke? then AgentResult(Synthetic(lane, target, SANDBOX_DEAD, ev.detail), "")
    else
      var stdout := ev.stream.stdout;
      match ev.stream.decision
      case EXCEEDED_TOKENS => AgentResult(Synthetic(lane, target, BUDGET_EXCEEDED, ev.detail), stdout)
      case EXCEEDED_WALL_CLOCK => AgentResult(Synthetic(lane, target, TIMEOUT, ev.detail), stdout)
      case OK =>
        match Extraction.Extraction(stdout, lane, target, loads)
        case Err(_) => AgentResult(Synthetic(lane, target, REPORT_PARSE_ERROR, ev.detail), stdout)
        case Ok(report) => AgentResult(report, stdout)
  }

  /** run_agent: the pool afterwards, and the result; None when PoolBusy propagates. */
  function Ran(p: Pool, limits: Limits, runId: string, ev: AgentEvents, lane: Lane, target: string,
               loads: string -> Option<Json>): (Pool, Option<AgentResult>)
  {
    var (leased, got) := Leasing(p, limits, runId, ev.now, ev.acquire);
    if got.PoolBusy? then (leased, None)
    else if !got.Leased? then (leased, Some(AgentResult(Synthetic(lane, target, SANDBOX_DEAD, ev.detail), "")))
    else (Releasing(leased, runId, ev.rmtreeFails).0, Some(Assessed(ev, lane, target, loads)))
  }

  method Assess(ev: AgentEvents, lane: Lane, target: string, loads: string -> Option<Json>)
      returns (result: AgentResult)
    ensures result == Assessed(ev, lane, target, loads)
  {
    if ev.tasksFail || ev.stream.StreamBroke? {
      return AgentResult(Synthetic(lane, target, SANDBOX_DEAD, ev.detail), "");
    }
    var stdout := ev.stream.stdout;
    if ev.stream.decision == EXCEEDED_TOKENS {
      return AgentResult(Synthetic(lane, target, BUDGET_EXCEEDED, ev.detail), stdout);
    }
    if ev.stream.decision == EXCEEDED_WALL_CLOCK {
      return AgentResult(Synthetic(lane, target, TIMEOUT, ev.detail), stdout);
    }
    var extracted := ExtractReport(stdout, lane, target, loads);
    match extracted {
      case Err(_) => return AgentResult(Synthetic(lane, target, REPORT_PARSE_ERROR, ev.detail), stdout);
      case Ok(report) => return AgentResult(report, stdout);
    }
  }

  /** run_agent. The lease is given back on every path; a failing release is swallowed. */
  method RunAgent(pool: PoolManager, runId: string, ev: AgentEvents, lane: Lane, target: string,
                  loads: string -> Option<Json>) returns (result: Option<AgentResult>)
    requires pool.Valid()
    modifies pool, pool.handles
    ensures (pool.Value(), result) == Ran(old(pool.Value()), pool.limits, runId, ev, lane, target, loads)
  {
    var got := pool.Acquire(runId, ev.now, ev.acquire);
    if got.PoolBusy? {
      return None;
    }
    if !got.Leased? {
      return Some(AgentResult(Synthetic(lane, target, SANDBOX_DEAD, ev.detail), ""));
    }
    var assessed := Assess(ev, lane, target, loads);
    var released := pool.Release(runId, ev.rmtreeFails);
    return Some(assessed);
  }

  // ---------- the runs of a lane ----------

  datatype Status =
    | PENDING | PREFLIGHT | LOCAL_GATE | AGENT_RUN | JUDGE | DONE
    | OVERSIZE_REPO | README_MISSING | GPU_ONLY | NOT_FOUND | PREFLIGHT_ERROR
    | SKILL_FILE_MISSING | SKILL_FILE_EMPTY | CLONE_ATTEMPT
    | PARSE_ERROR | OVER_BUDGET | TIMED_OUT | DEAD_SANDBOX | NO_JUDGE

  /** _terminal_statuses and _TERMINAL */
  predicate Terminal(lane: Lane, s: Status) {
    || s in {DONE, PARSE_ERROR, OVER_BUDGET, TIMED_OUT, DEAD_SANDBOX}
    || (lane == PROJECT && s in {OVERSIZE_REPO, README_MISSING, GPU_ONLY, NOT_FOUND, PREFLIGHT_ERROR, NO_JUDGE})
    || (lane == SKILL && s in {SKILL_FILE_MISSING, SKILL_FILE_EMPTY, CLONE_ATTEMPT})
  }

  /** What preflight and the local gate turn a run away with. */
  predicate Rejection(lane: Lane, s: Status) {
    || (lane == PROJECT && s in {OVERSIZE_REPO, README_MISSING, GPU_ONLY, NOT_FOUND, PREFLIGHT_ERROR})
    || (lane == SKILL && s in {SKILL_FILE_MISSING, SKILL_FILE_EMPTY})
  }

  /** _agent_outcome_to_status */
  function OutcomeToStatus(lane: Lane, o: Outcome): Status {
    match o
    case PASS => DONE
    case PARTIAL => DONE
    case FAIL => DONE
    case REPORT_PARSE_ERROR => PARSE_ERROR
    case BUDGET_EXCEEDED => OVER_BUDGET
    case TIMEOUT => TIMED_OUT
    case SANDBOX_DEAD => DEAD_SANDBOX
    case JUDGE_UNAVAILABLE => if lane == PROJECT then NO_JUDGE else DONE
    case OVERSIZE => if lane == PROJECT then OVERSIZE_REPO else DONE
    case NO_README => if lane == PROJECT then README_MISSING else DONE
    case NEEDS_GPU => if lane == PROJECT then GPU_ONLY else DONE
    case SKILL_CLONE_ATTEMPT => if lane == PROJECT then DONE else CLONE_ATTEMPT
  }

  datatype RunRecord = RunRecord(runId: string, fullId: string, status: Status, startedAt: Option<int>,
                                 endedAt: Option<int>, summary: Option<Outcome>)

  /** report.json and agent.log in the run's directory. */
  datatype Artifacts = Artifacts(report: RunReport, log: string)

  datatype GateResult = Allowed | Blocked(status: Status) | GateRaised

  /** What one run meets. `at` stands for every clock reading of the run. */
  datatype Env = Env(at: int, gate: GateResult, agent: AgentEvents, writeFails: bool)

  function WithStatus(lane: Lane, r: RunRecord, s: Status, at: int): RunRecord {
    r.(status := s,
       startedAt := if s == AGENT_RUN && r.startedAt.None? then Some(at) else r.startedAt,
       endedAt := if Terminal(lane, s) then Some(at) else r.endedAt)
  }

  type Matcher = string -> bool
  type Splitter = string -> seq<string>

  predicate CloneFree(log: string, lines: Splitter, clones: Matcher) {
    forall i :: 0 <= i < |lines(log)| ==> !clones(lines(log)[i])
  }

  predicate FirstClone(lines: seq<string>, clones: Matcher, i: int) {
    0 <= i < |lines| && clones(lines[i]) && forall j :: 0 <= j < i ==> !clones(lines[j])
  }

  /** detect_clone_attempt: the first offending line, cut to 240 characters. */
  method DetectCloneAttempt(log: string, lines: Splitter, clones: Matcher) returns (violated: bool, evidence: string)
    ensures violated <==> !CloneFree(log, lines, clones)
    ensures violated ==> exists i :: FirstClone(lines(log), clones, i) && evidence <= lines(log)[i] && |evidence| <= 240
  {
    var split := lines(log);
    for k := 0 to |split|
      invariant forall j :: 0 <= j < k ==> !clones(split[j])
    {
      if clones(split[k]) {
        assert FirstClone(lines(log), clones, k);
        return true, if |split[k]| <= 240 then split[k] else split[k][..240];
      }
    }
    return false, "";
  }

  class LaneRun {
    const runId: string
    const fullId: string
    var status: Status
    var startedAt: Option<int>
    var endedAt: Option<int>
    var summary: Option<Outcome>

    function Value(): RunRecord
      reads this
    {
      RunRecord(runId, fullId, status, startedAt, endedAt, summary)
    }

    constructor (runId: string, fullId: string)
      ensures Value() == RunRecord(runId, fullId, PENDING, None, None, None)
    {
      this.runId, this.fullId, status, startedAt, endedAt, summary := runId, fullId, PENDING, None, None, None;
    }
  }

  /** The index row of a run. */
  datatype Row = Row(status: Status, endedAt: Option<int>, summary: Option<Outcome>)

  function RowOf(r: RunRecord): Row {
    Row(r.status, r.endedAt, r.summary)
  }

  class LaneStore {
    const lane: Lane
    var states: map<string, RunRecord>    // runs/<run_id>/state.json
    var rows: map<string, Row>            // runs.sqlite
    var artifacts: map<string, Artifacts>

    ghost predicate Holds(r: RunRecord)
      reads this
    {
      r.runId in states && states[r.runId] == r && r.runId in rows && rows[r.runId] == RowOf(r)
    }

    method UpdateStatus(run: LaneRun, s: Status, at: int)
      modifies this`states, this`rows, run
      ensures run.Value() == WithStatus(lane, old(run.Value()), s, at) && Holds(run.Value())
      ensures states - {run.runId} == old(states) - {run.runId} && rows - {run.runId} == old(rows) - {run.runId}
    {
      run.status := s;
      if s == AGENT_RUN && run.startedAt.None? {
        run.startedAt := Some(at);
      }
      if Terminal(lane, s) {
        run.endedAt := Some(at);
      }
      PutThere(states, run.runId, run.Value());
      PutThere(rows, run.runId, RowOf(run.Value()));
      states := states[run.runId := run.Value()];
      rows := rows[run.runId := RowOf(run.Value())];
    }

    /** Writes the artifacts and the summary; the index row keeps its summary until the next status update. */
    method WriteReportArtifacts(run: LaneRun, result: AgentResult)
      modifies this`states, this`artifacts, run
      ensures run.Value() == old(run.Value()).(summary := Some(result.report.outcome))
      ensures run.runId in artifacts && artifacts[run.runId] == Artifacts(result.report, result.stdout)
      ensures states - {run.runId} == old(states) - {run.runId}
      ensures artifacts - {run.runId} == old(artifacts) - {run.runId}
    {
      artifacts := artifacts[run.runId := Artifacts(result.report, result.stdout)];
      run.summary := Some(result.report.outcome);
      states := states[run.runId := run.Value()];
    }
  }

  // ---------- one run ----------

  /** Where a run ends: its record, its artifacts if it wrote any, the pool, whether an exception got out. */
  datatype Ending = Ending(record: RunRecord, artifacts: Option<Artifacts>, pool: Pool, raised: bool)

  /** execute_run */
  function Executed(lane: Lane, r: RunRecord, p: Pool, limits: Limits, env: Env, loads: string -> Option<Json>,
                    lines: Splitter, clones: Matcher): Ending
  {
    var gated := WithStatus(lane, r, if lane == PROJECT then PREFLIGHT else LOCAL_GATE, env.at);
    match env.gate
    case GateRaised => Ending(gated, None, p, true)
    case Blocked(status) => Ending(WithStatus(lane, gated, status, env.at), None, p, false)
    case Allowed => ExecutedAllowed(lane, gated, p, limits, env, loads, lines, clones)
  }

  /** The status a run with a report ends in. */
  function Settled(lane: Lane, r: RunRecord, result: AgentResult, at: int, lines: Splitter,
                   clones: Matcher): RunRecord {
    if lane == SKILL && !CloneFree(result.stdout, lines, clones) then WithStatus(lane, r, CLONE_ATTEMPT, at)
    else
      var status := OutcomeToStatus(lane, result.report.outcome);
      if status != DONE then WithStatus(lane, r, status, at)
      else WithStatus(lane, WithStatus(lane, r, JUDGE, at), DONE, at)
  }

  /** What the store holds of a run whose ending is e. */
  ghost predicate Filed(store: LaneStore, e: Ending)
    reads store
  {
    && store.Holds(e.record)
    && (e.artifacts.Some? ==> e.record.runId in store.artifacts && store.artifacts[e.record.runId] == e.artifacts.value)
  }

  method Settle(store: LaneStore, run: LaneRun, result: AgentResult, at: int, lines: Splitter, clones: Matcher)
    modifies store`states, store`rows, run
    ensures run.Value() == Settled(store.lane, old(run.Value()), result, at, lines, clones) && store.Holds(run.Value())
    ensures store.states - {run.runId} == old(store.states) - {run.runId}
    ensures store.rows - {run.runId} == old(store.rows) - {run.runId}
  {
    if store.lane == SKILL {
      var violated, evidence := DetectCloneAttempt(result.stdout, lines, clones);
      if violated {
        store.UpdateStatus(run, CLONE_ATTEMPT, at);
        return;
      }
    }
    var status := OutcomeToStatus(store.lane, result.report.outcome);
    if status != DONE {
      store.UpdateStatus(run, status, at);
      return;
    }
    store.UpdateStatus(run, JUDGE, at);
    store.UpdateStatus(run, DONE, at);
  }

  method ExecuteRun(store: LaneStore, run: LaneRun, pool: PoolManager, env: Env, loads: string -> Option<Json>,
                    lines: Splitter, clones: Matcher) returns (raised: bool)
    requires pool.Valid()
    modifies store, run, pool, pool.handles
    ensures var e := Executed(store.lane, old(run.Value()), old(pool.Value()), pool.limits, env, loads, lines, clones);
      && run.Value() == e.record && pool.Value() == e.pool && raised == e.raised && (!raised ==> Filed(store, e))
    ensures store.states - {run.runId} == old(store.states) - {run.runId}
    ensures store.rows - {run.runId} == old(store.rows) - {run.runId}
    ensures store.artifacts - {run.runId} == old(store.artifacts) - {run.runId}
  {
    ghost var gated := WithStatus(store.lane, run.Value(), if store.lane == PROJECT then PREFLIGHT
      else LOCAL_GATE, env.at);
    store.UpdateStatus(run, if store.lane == PROJECT then PREFLIGHT else LOCAL_GATE, env.at);
    assert run.Value() == gated;
    match env.gate {
      case GateRaised =>
        return true;
      case Blocked(status) =>
        store.UpdateStatus(run, status, env.at);
        return false;
      case Allowed =>
    }
    raised := RunAllowed(store, run, pool, env, loads, lines, clones);
  }

  /** execute_run past the gate. */
  function ExecutedAllowed(lane: Lane, gated: RunRecord, p: Pool, limits: Limits, env: Env,
                           loads: string -> Option<Json>, lines: Splitter, clones: Matcher): Ending
  {
    var running := WithStatus(lane, gated, AGENT_RUN, env.at);
    var (pool, result) := Ran(p, limits, gated.runId, env.agent, lane, gated.fullId, loads);
    if result.None? || env.writeFails then Ending(running, None, pool, true)
    else
      var summarised := running.(summary := Some(result.value.report.outcome));
      Ending(Settled(lane, summarised, result.value, env.at, lines, clones),
             Some(Artifacts(result.value.report, result.value.stdout)), pool, false)
  }

  method RunAllowed(store: LaneStore, run: LaneRun, pool: PoolManager, env: Env, loads: string -> Option<Json>,
                    lines: Splitter, clones: Matcher) returns (raised: bool)
    requires pool.Valid()
    modifies store, run, pool, pool.handles
    ensures var e := ExecutedAllowed(store.lane, old(run.Value()), old(pool.Value()), pool.limits, env, loads, lines,
                                     clones);
      && run.Value() == e.record && pool.Value() == e.pool && raised == e.raised && (!raised ==> Filed(store, e))
    ensures store.states - {run.runId} == old(store.states) - {run.runId}
    ensures store.rows - {run.runId} == old(store.rows) - {run.runId}
    ensures store.artifacts - {run.runId} == old(store.artifacts) - {run.runId}
  {
    ghost var running := WithStatus(store.lane, run.Value(), AGENT_RUN, env.at);
    store.UpdateStatus(run, AGENT_RUN, env.at);
    assert run.Value() == running;
    var result := RunAgent(pool, run.runId, env.agent, store.lane, run.fullId, loads);
    if result.None? || env.writeFails {
      return true;
    }
    WriteAndSettle(store, run, result.value, env.at, lines, clones);
    return false;
  }

  method WriteAndSettle(store: LaneStore, run: LaneRun, result: AgentResult, at: int, lines: Splitter, clones: Matcher)
    modifies store, run
    ensures run.Value() == Settled(store.lane, old(run.Value()).(summary := Some(result.report.outcome)), result, at,
                                   lines, clones)
    ensures Filed(store, Ending(run.Value(), Some(Artifacts(result.report, result.stdout)), Pool([], {}), false))
    ensures store.states - {run.runId} == old(store.states) - {run.runId}
    ensures store.rows - {run.runId} == old(store.rows) - {run.runId}
    ensures store.artifacts - {run.runId} == old(store.artifacts) - {run.runId}
  {
    store.WriteReportArtifacts(run, result);
    Settle(store, run, result, at, lines, clones);
  }

  // ---------- what a round guarantees ----------

  /** A finished run: terminal, stamped, filed; and if it is DONE, its report is on file, is what the
      summary says, names a feature if it claims a pass, and in the skill lane comes from a log without
      a clone command. */
  ghost predicate Finished(lane: Lane, r: RunRecord, artifacts: Option<Artifacts>, lines: Splitter, clones: Matcher) {
    && Terminal(lane, r.status) && r.endedAt.Some?
    && (r.status == DONE ==>
          && artifacts.Some? && r.summary == Some(artifacts.value.report.outcome)
          && (r.summary == Some(PASS) ==> artifacts.value.report.verdict.coreFeatures != [])
          && (lane == SKILL ==> CloneFree(artifacts.value.log, lines, clones)))
  }

  /** A system report never claims a pass; an agent's report does so only with a feature. */
  lemma AssessedIsHonest(ev: AgentEvents, lane: Lane, target: string, loads: string -> Option<Json>)
    ensures var r := Assessed(ev, lane, target, loads).report;
      && (r.outcome == PASS ==> r.verdict.coreFeatures != [])
      && r.lane == lane && r.targetId == target
  {
    if !ev.tasksFail && ev.stream.Streamed? && Extraction.Extraction(ev.stream.stdout, lane, target, loads).Ok? {
      AcceptedIsSound(ev.stream.stdout, lane, target, loads);
    }
  }

  /** A run whose execution raises no exception is finished. */
  lemma ExecutedIsFinished(lane: Lane, r: RunRecord, p: Pool, limits: Limits, env: Env, loads: string -> Option<Json>,
                           lines: Splitter, clones: Matcher)
    requires env.gate.Blocked? ==> Rejection(lane, env.gate.status)
    ensures var e := Executed(lane, r, p, limits, env, loads, lines, clones);
      !e.raised ==> Finished(lane, e.record, e.artifacts, lines, clones)
  {
    if env.gate.Allowed? {
      AllowedIsFinished(lane, WithStatus(lane, r, if lane == PROJECT then PREFLIGHT else LOCAL_GATE, env.at), p, limits,
                        env, loads, lines, clones);
    }
  }

  lemma AllowedIsFinished(lane: Lane, r: RunRecord, p: Pool, limits: Limits, env: Env, loads: string -> Option<Json>,
                          lines: Splitter, clones: Matcher)
    ensures var e := ExecutedAllowed(lane, r, p, limits, env, loads, lines, clones);
      !e.raised ==> Finished(lane, e.record, e.artifacts, lines, clones)
  {
    var result := Ran(p, limits, r.runId, env.agent, lane, r.fullId, loads).1;
    if result.Some? {
      AssessedIsHonest(env.agent, lane, r.fullId, loads);
      SettledIsFinished(lane, WithStatus(lane, r, AGENT_RUN, env.at).(summary := Some(result.value.report.outcome)),
                        result.value, env.at, lines, clones);
    }
  }

  lemma SettledIsFinished(lane: Lane, r: RunRecord, result: AgentResult, at: int, lines: Splitter, clones: Matcher)
    requires r.summary == Some(result.report.outcome)
    requires result.report.outcome == PASS ==> result.report.verdict.coreFeatures != []
    ensures Finished(lane, Settled(lane, r, result, at, lines, clones),
                     Some(Artifacts(result.report, result.stdout)), lines, clones)
  {
  }

  /** The leases and the workspaces, without the counters. */
  function Leases(p: Pool): (set<string>, set<string>) {
    (LeasedIds(p.handles), p.workspaces)
  }

  /** An agent task keeps the pool sound and, unless its workspace cannot be removed, leaves no trace in it. */
  lemma RanRestores(p: Pool, limits: Limits, stale: set<string>, runId: string, ev: AgentEvents, lane: Lane,
                    target: string, loads: string -> Option<Json>)
    requires Sound(p, limits, stale)
    ensures var q := Ran(p, limits, runId, ev, lane, target, loads).0;
      && Sound(q, limits, stale) && p.workspaces <= q.workspaces
      && (Leases(q) == Leases(p) <==> !(ev.rmtreeFails && Leasing(p, limits, runId, ev.now, ev.acquire).1.Leased?))
  {
    AcquireSound(p, limits, stale, runId, ev.now, ev.acquire);
    var (leased, got) := Leasing(p, limits, runId, ev.now, ev.acquire);
    if got.Leased? {
      ReleaseSound(leased, limits, stale, runId, ev.rmtreeFails);
      ReleaseUndoes(p, limits, stale, runId, ev.now, ev.acquire);
      if !ev.rmtreeFails {
        SoundLeases(p, Releasing(leased, runId, false).0, limits, stale);
      }
    } else {
      SoundLeases(p, leased, limits, stale);
    }
  }

  lemma SoundLeases(p: Pool, q: Pool, limits: Limits, stale: set<string>)
    requires Sound(p, limits, stale) && Sound(q, limits, stale) && p.workspaces == q.workspaces
    ensures Leases(p) == Leases(q)
  {
    assert LeasedIds(p.handles) == p.workspaces - stale;
    assert LeasedIds(q.handles) == q.workspaces - stale;
  }

  /** What state.json, the index row, the artifacts and the record of a run say once it has been dealt with. */
  ghost predicate ClosedIn(lane: Lane, states: map<string, RunRecord>, rows: map<string, Row>,
                           artifacts: map<string, Artifacts>, r: RunRecord, lines: Splitter, clones: Matcher)
  {
    && r.runId in states && states[r.runId] == r && r.runId in rows && rows[r.runId] == RowOf(r)
    && Finished(lane, r, if r.runId in artifacts then Some(artifacts[r.runId]) else None, lines, clones)
  }

  ghost predicate Closed(store: LaneStore, run: LaneRun, lines: Splitter, clones: Matcher)
    reads store, run
  {
    ClosedIn(store.lane, store.states, store.rows, store.artifacts, run.Value(), lines, clones)
  }

  /** One turn of run_pending: an exception closes the run as a dead sandbox. */
  function Handled(lane: Lane, r: RunRecord, p: Pool, limits: Limits, env: Env, loads: string -> Option<Json>,
                   lines: Splitter, clones: Matcher): Ending
  {
    var e := Executed(lane, r, p, limits, env, loads, lines, clones);
    if e.raised then e.(record := WithStatus(lane, e.record, DEAD_SANDBOX, env.at)) else e
  }

  type Handler = (RunRecord, Pool, Env) -> Ending

  function HandlerOf(lane: Lane, limits: Limits, loads: string -> Option<Json>, lines: Splitter,
                     clones: Matcher): Handler {
    (r: RunRecord, p: Pool, env: Env) => Handled(lane, r, p, limits, env, loads, lines, clones)
  }

  ghost predicate HandlesAs(handle: Handler, lane: Lane, limits: Limits, loads: string -> Option<Json>, lines: Splitter,
                            clones: Matcher)
  {
    forall r: RunRecord, p: Pool, env: Env {:trigger Handled(lane, r, p, limits, env, loads, lines, clones)} ::
      Handled(lane, r, p, limits, env, loads, lines, clones) == handle(r, p, env)
  }

  lemma HandlerHandles(lane: Lane, limits: Limits, loads: string -> Option<Json>, lines: Splitter, clones: Matcher)
    ensures HandlesAs(HandlerOf(lane, limits, loads, lines, clones), lane, limits, loads, lines, clones)
  {
  }

  /** The first k turns: how each run ended and with what pool, the next turn starting from it. */
  function Turns(handle: Handler, rs: seq<RunRecord>, envs: seq<Env>, p: Pool, k: nat): (es: seq<Ending>)
    requires k <= |rs| == |envs|
    ensures |es| == k
  {
    if k == 0 then []
    else
      var es := Turns(handle, rs, envs, p, k - 1);
      es + [handle(rs[k - 1], PoolAfter(p, es), envs[k - 1])]
  }

  function PoolAfter(p: Pool, es: seq<Ending>): Pool {
    if es == [] then p else es[|es| - 1].pool
  }

  /** The turns in which nothing was raised. */
  function Completed(es: seq<Ending>): (n: nat)
    ensures n <= |es|
  {
    if es == [] then 0 else Completed(es[..|es| - 1]) + if es[|es| - 1].raised then 0 else 1
  }

  /** The records of the runs, as values. */
  function Records(runs: seq<LaneRun>): (rs: seq<RunRecord>)
    reads runs
    ensures |rs| == |runs| && forall i :: 0 <= i < |runs| ==> rs[i] == runs[i].Value()
  {
    seq(|runs|, i requires 0 <= i < |runs| reads runs => runs[i].Value())
  }

  method CloseRun(store: LaneStore, run: LaneRun, pool: PoolManager, env: Env, loads: string -> Option<Json>,
                  lines: Splitter, clones: Matcher, ghost handle: Handler) returns (completed: bool)
    requires pool.Valid()
    requires env.gate.Blocked? ==> Rejection(store.lane, env.gate.status)
    requires HandlesAs(handle, store.lane, pool.limits, loads, lines, clones)
    modifies store, run, pool, pool.handles
    ensures var e := handle(old(run.Value()), old(pool.Value()), env);
      run.Value() == e.record && pool.Value() == e.pool && completed == !e.raised
    ensures Closed(store, run, lines, clones) && (!completed ==> run.status == DEAD_SANDBOX)
    ensures store.states - {run.runId} == old(store.states) - {run.runId}
    ensures store.rows - {run.runId} == old(store.rows) - {run.runId}
    ensures store.artifacts - {run.runId} == old(store.artifacts) - {run.runId}
  {
    ghost var r, p := run.Value(), pool.Value();
    assert Handled(store.lane, r, p, pool.limits, env, loads, lines, clones) == handle(r, p, env);
    ExecutedIsFinished(store.lane, r, p, pool.limits, env, loads, lines, clones);
    var raised := ExecuteRun(store, run, pool, env, loads, lines, clones);
    if raised {
      store.UpdateStatus(run, DEAD_SANDBOX, env.at);
    }
    return !raised;
  }

  ghost predicate Distinct(pending: seq<LaneRun>) {
    forall i, j :: 0 <= i < j < |pending| ==> pending[i].runId != pending[j].runId
  }

  /** The first k of the runs are closed. */
  ghost predicate ClosedUpto(store: LaneStore, pending: seq<LaneRun>, k: nat, lines: Splitter, clones: Matcher)
    requires k <= |pending|
    reads store, pending
  {
    forall i :: 0 <= i < k ==> Closed(store, pending[i], lines, clones)
  }

  /** The k-th turn leaves the other runs as they were, and closed if they were closed. */
  method CloseNext(store: LaneStore, pending: seq<LaneRun>, k: nat, pool: PoolManager, env: Env,
                   loads: string -> Option<Json>,
                   lines: Splitter, clones: Matcher, ghost handle: Handler) returns (completed: bool)
    requires k < |pending| && Distinct(pending)
    requires pool.Valid()
    requires env.gate.Blocked? ==> Rejection(store.lane, env.gate.status)
    requires HandlesAs(handle, store.lane, pool.limits, loads, lines, clones)
    requires ClosedUpto(store, pending, k, lines, clones)
    modifies store, pending[k], pool, pool.handles
    ensures var e := handle(old(pending[k].Value()), old(pool.Value()), env);
      pending[k].Value() == e.record && pool.Value() == e.pool && completed == !e.raised
    ensures forall i :: 0 <= i < |pending| && i != k ==> pending[i].Value() == old(pending[i].Value())
    ensures ClosedUpto(store, pending, k + 1, lines, clones)
  {
    ghost var states, rows, artifacts := store.states, store.rows, store.artifacts;
    completed := CloseRun(store, pending[k], pool, env, loads, lines, clones, handle);
    forall i | 0 <= i < k
      ensures Closed(store, pending[i], lines, clones)
    {
      var id, other := pending[i].runId, pending[k].runId;
      Elsewhere(states, store.states, other, id);
      Elsewhere(rows, store.rows, other, id);
      Elsewhere(artifacts, store.artifacts, other, id);
    }
  }

  lemma TurnsStep(handle: Handler, rs: seq<RunRecord>, envs: seq<Env>, p: Pool, k: nat)
    requires k < |rs| == |envs|
    ensures var es := Turns(handle, rs, envs, p, k);
      var e := handle(rs[k], PoolAfter(p, es), envs[k]);
      && Turns(handle, rs, envs, p, k + 1) == es + [e]
      && PoolAfter(p, es + [e]) == e.pool && Completed(es + [e]) == Completed(es) + if e.raised then 0 else 1
  {
    var es := Turns(handle, rs, envs, p, k);
    var e := handle(rs[k], PoolAfter(p, es), envs[k]);
    assert (es + [e])[..k] == es;
  }

  /** After k turns: the count, the pool and the runs are as the turns say. */
  ghost predicate TakenUpto(handle: Handler, pending: seq<LaneRun>, rs: seq<RunRecord>, envs: seq<Env>, p: Pool, k: nat,
                            now: Pool, completed: nat)
    requires k <= |rs| == |envs| == |pending|
    reads pending
  {
    var es := Turns(handle, rs, envs, p, k);
    && completed == Completed(es) && now == PoolAfter(p, es)
    && (forall i :: 0 <= i < k ==> pending[i].Value() == es[i].record)
    && (forall i :: k <= i < |pending| ==> pending[i].Value() == rs[i])
  }

  /** A run leaves its workspace behind: it got a lease and the workspace could not be removed. */
  predicate LeavesWorkspace(r: RunRecord, p: Pool, limits: Limits, env: Env) {
    && env.gate.Allowed? && env.agent.rmtreeFails
    && Leasing(p, limits, r.runId, env.agent.now, env.agent.acquire).1.Leased?
  }

  /** The pool is sound, and has its leases and workspaces as at the start exactly if no run so far has left
      its workspace behind. */
  ghost predicate PoolKept(handle: Handler, rs: seq<RunRecord>, envs: seq<Env>, p: Pool, limits: Limits,
                           stale: set<string>, k: nat)
    requires k <= |rs| == |envs|
  {
    var now := PoolAfter(p, Turns(handle, rs, envs, p, k));
    && Sound(now, limits, stale) && p.workspaces <= now.workspaces
    && (Leases(now) == Leases(p) <==> NoneLeft(handle, rs, envs, p, limits, k))
  }

  ghost predicate NoneLeft(handle: Handler, rs: seq<RunRecord>, envs: seq<Env>, p: Pool, limits: Limits, k: nat)
    requires k <= |rs| == |envs|
  {
    forall i :: 0 <= i < k ==> !LeavesWorkspace(rs[i], PoolAfter(p, Turns(handle, rs, envs, p, i)), limits, envs[i])
  }

  lemma {:induction false} TurnsKeepPool(handle: Handler, lane: Lane, limits: Limits, loads: string -> Option<Json>,
                                         lines: Splitter, clones: Matcher, rs: seq<RunRecord>, envs: seq<Env>, p: Pool,
                                         stale: set<string>, k: nat)
    requires k <= |rs| == |envs| && HandlesAs(handle, lane, limits, loads, lines, clones) && Sound(p, limits, stale)
    ensures PoolKept(handle, rs, envs, p, limits, stale, k)
    decreases k
  {
    if k > 0 {
      TurnsKeepPool(handle, lane, limits, loads, lines, clones, rs, envs, p, stale, k - 1);
      TurnKeepsPool(handle, lane, limits, loads, lines, clones, rs, envs, p, stale, k - 1);
    }
  }

  lemma {:induction false} TurnKeepsPool(handle: Handler, lane: Lane, limits: Limits, loads: string -> Option<Json>,
                                         lines: Splitter, clones: Matcher, rs: seq<RunRecord>, envs: seq<Env>, p: Pool,
                                         stale: set<string>, k: nat)
    requires k < |rs| == |envs| && HandlesAs(handle, lane, limits, loads, lines, clones) && Sound(p, limits, stale)
    requires PoolKept(handle, rs, envs, p, limits, stale, k)
    ensures PoolKept(handle, rs, envs, p, limits, stale, k + 1)
  {
    var before := PoolAfter(p, Turns(handle, rs, envs, p, k));
    TurnsStep(handle, rs, envs, p, k);
    HandledKeepsPool(lane, rs[k], before, limits, envs[k], loads, lines, clones, stale);
    assert Handled(lane, rs[k], before, limits, envs[k], loads, lines, clones) == handle(rs[k], before, envs[k]);
    KeptOnce(p, before, handle(rs[k], before, envs[k]).pool, limits, stale);
    NoneLeftMore(handle, rs, envs, p, limits, k);
  }

  lemma {:induction false} NoneLeftMore(handle: Handler, rs: seq<RunRecord>, envs: seq<Env>, p: Pool, limits: Limits,
                                        k: nat)
    requires k < |rs| == |envs|
    ensures NoneLeft(handle, rs, envs, p, limits, k + 1) <==>
      && NoneLeft(handle, rs, envs, p, limits, k)
      && !LeavesWorkspace(rs[k], PoolAfter(p, Turns(handle, rs, envs, p, k)), limits, envs[k])
  {
  }

  /** Workspaces are only ever added: what was not kept once is not kept later. */
  lemma KeptOnce(p: Pool, before: Pool, now: Pool, limits: Limits, stale: set<string>)
    requires Sound(p, limits, stale) && Sound(before, limits, stale) && Sound(now, limits, stale)
    requires p.workspaces <= before.workspaces <= now.workspaces
    ensures Leases(now) == Leases(p) <==> Leases(before) == Leases(p) && Leases(now) == Leases(before)
  {
    if now.workspaces == p.workspaces {
      SoundLeases(p, before, limits, stale);
      SoundLeases(before, now, limits, stale);
    }
  }

  lemma HandledKeepsPool(lane: Lane, r: RunRecord, p: Pool, limits: Limits, env: Env, loads: string -> Option<Json>,
                         lines: Splitter, clones: Matcher, stale: set<string>)
    requires Sound(p, limits, stale)
    ensures var q := Handled(lane, r, p, limits, env, loads, lines, clones).pool;
      && Sound(q, limits, stale) && p.workspaces <= q.workspaces
      && (Leases(q) == Leases(p) <==> !LeavesWorkspace(r, p, limits, env))
  {
    RanRestores(p, limits, stale, r.runId, env.agent, lane, r.fullId, loads);
  }

  method TakeTurn(store: LaneStore, pending: seq<LaneRun>, k: nat, pool: PoolManager, envs: seq<Env>,
                  loads: string -> Option<Json>,
                  lines: Splitter, clones: Matcher, ghost handle: Handler, ghost rs: seq<RunRecord>,
                  ghost p: Pool, before: nat) returns (completed: nat)
    requires k < |pending| == |rs| == |envs| && Distinct(pending)
    requires pool.Valid()
    requires envs[k].gate.Blocked? ==> Rejection(store.lane, envs[k].gate.status)
    requires HandlesAs(handle, store.lane, pool.limits, loads, lines, clones)
    requires ClosedUpto(store, pending, k, lines, clones)
    requires TakenUpto(handle, pending, rs, envs, p, k, pool.Value(), before)
    modifies store, pending[k], pool, pool.handles
    ensures TakenUpto(handle, pending, rs, envs, p, k + 1, pool.Value(), completed)
    ensures ClosedUpto(store, pending, k + 1, lines, clones)
  {
    TurnsStep(handle, rs, envs, p, k);
    ghost var es := Turns(handle, rs, envs, p, k);
    ghost var e := handle(rs[k], PoolAfter(p, es), envs[k]);
    var ok := CloseNext(store, pending, k, pool, envs[k], loads, lines, clones, handle);
    assert pending[k].Value() == e.record && pool.Value() == e.pool && ok == !e.raised;
    return before + if ok then 1 else 0;
  }

  /** The loop of run_pending. */
  method TakeTurns(store: LaneStore, pending: seq<LaneRun>, pool: PoolManager, envs: seq<Env>,
                   loads: string -> Option<Json>, lines: Splitter, clones: Matcher, ghost handle: Handler,
                   ghost rs: seq<RunRecord>, ghost p: Pool) returns (completed: nat)
    requires HandlesAs(handle, store.lane, pool.limits, loads, lines, clones)
    requires pool.Valid() && |envs| == |pending| == |rs| && Distinct(pending)
    requires forall i :: 0 <= i < |envs| && envs[i].gate.Blocked? ==> Rejection(store.lane, envs[i].gate.status)
    requires TakenUpto(handle, pending, rs, envs, p, 0, pool.Value(), 0)
    modifies store, pending, pool, pool.handles
    ensures ClosedUpto(store, pending, |pending|, lines, clones)
    ensures TakenUpto(handle, pending, rs, envs, p, |pending|, pool.Value(), completed)
  {
    completed := 0;
    for k := 0 to |pending|
      invariant TakenUpto(handle, pending, rs, envs, p, k, pool.Value(), completed)
      invariant ClosedUpto(store, pending, k, lines, clones)
    {
      completed := TakeTurn(store, pending, k, pool, envs, loads, lines, clones, handle, rs, p, completed);
    }
  }

  /** run_pending: whatever gates, agents, leases and writes do, every run that was picked ends closed, as
      the turn it got says; the runs that raised nothing are counted; and the pool's leases and
      workspaces are as they were exactly if no run left its workspace behind. */
  method RunPending(store: LaneStore, pending: seq<LaneRun>, pool: PoolManager, envs: seq<Env>,
                    loads: string -> Option<Json>,
                    lines: Splitter, clones: Matcher, ghost stale: set<string>, ghost handle: Handler)
      returns (completed: nat)
    requires HandlesAs(handle, store.lane, pool.limits, loads, lines, clones)
    requires pool.Valid() && Sound(pool.Value(), pool.limits, stale)
    requires |envs| == |pending| && Distinct(pending)
    requires forall i :: 0 <= i < |envs| && envs[i].gate.Blocked? ==> Rejection(store.lane, envs[i].gate.status)
    modifies store, pending, pool, pool.handles
    ensures ClosedUpto(store, pending, |pending|, lines, clones)
    ensures TakenUpto(handle, pending, old(Records(pending)), envs, old(pool.Value()), |pending|, pool.Value(),
                      completed)
    ensures PoolKept(handle, old(Records(pending)), envs, old(pool.Value()), pool.limits, stale, |pending|)
  {
    ghost var rs, p := Records(pending), pool.Value();
    completed := TakeTurns(store, pending, pool, envs, loads, lines, clones, handle, rs, p);
    TurnsKeepPool(handle, store.lane, pool.limits, loads, lines, clones, rs, envs, p, stale, |pending|);
  }
}
