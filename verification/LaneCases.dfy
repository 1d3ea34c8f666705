/** What becomes of an agent task and of a lane's run, case by case. */
module LaneCases {
  import opened Options
  import opened JsonText
  import opened Report
  import opened Extraction
  import opened Watchdog
  import opened AgentPool
  import opened Lanes

  // ---------- one agent task ----------

  // How far a task got: no container, the sandbox died, cut off by the budget, or read to the end.

  predicate GotLease(p: Pool, limits: Limits, runId: string, ev: AgentEvents) {
    Leasing(p, limits, runId, ev.now, ev.acquire).1.Leased?
  }

  predicate IsBusy(p: Pool, limits: Limits, runId: string, ev: AgentEvents) {
    Leasing(p, limits, runId, ev.now, ev.acquire).1.PoolBusy?
  }

  predicate Died(p: Pool, limits: Limits, runId: string, ev: AgentEvents) {
    !GotLease(p, limits, runId, ev) || ev.tasksFail || ev.stream.StreamBroke?
  }

  /** A report the system makes up: addressed to the caller, without steps and features. */
  predicate IsSystemReport(r: RunReport, lane: Lane, target: string, outcome: Outcome) {
    && r.outcome == outcome && r.lane == lane && r.targetId == target
    && r.steps == [] && r.followUps == [] && r.verdict == Verdict(false, false, [], [])
  }

  /** The result of a task that had a container to run in, or should have had one. */
  ghost predicate ResultIs(p: Pool, limits: Limits, runId: string, ev: AgentEvents, lane: Lane, target: string,
                           loads: string -> Option<Json>, result: AgentResult)
  {
    if Died(p, limits, runId, ev) then
      IsSystemReport(result.report, lane, target, SANDBOX_DEAD) && result.stdout == ""
    else
      var stdout := ev.stream.stdout;
      && result.stdout == stdout
      && match ev.stream.decision
         case EXCEEDED_TOKENS => IsSystemReport(result.report, lane, target, BUDGET_EXCEEDED)
         case EXCEEDED_WALL_CLOCK => IsSystemReport(result.report, lane, target, TIMEOUT)
         case OK =>
           if Extraction.Extraction(stdout, lane, target, loads).Ok? then
             Extracted.Ok(result.report) == Extraction.Extraction(stdout, lane, target, loads)
           else IsSystemReport(result.report, lane, target, REPORT_PARSE_ERROR)
  }

  /** run_agent: PoolBusy gets out exactly when no container is idle; otherwise there is a result, and what it
      says depends on how far the task got. */
  lemma TaskIs(p: Pool, limits: Limits, runId: string, ev: AgentEvents, lane: Lane, target: string,
               loads: string -> Option<Json>)
    ensures var result := Ran(p, limits, runId, ev, lane, target, loads).1;
      && (result == None <==> IsBusy(p, limits, runId, ev))
      && (result.Some? ==> ResultIs(p, limits, runId, ev, lane, target, loads, result.value))
  {
  }

  // ---------- one run of a lane ----------

  /** The skill lane found a command in the log that fetches something. */
  ghost predicate ClonesSeen(lane: Lane, log: string, lines: Splitter, clones: Matcher) {
    lane == SKILL && exists i :: 0 <= i < |lines(log)| && clones(lines(log)[i])
  }

  /** Where a run whose report says `outcome` ends. */
  predicate EndsAs(lane: Lane, outcome: Outcome, status: Status) {
    && (outcome == REPORT_PARSE_ERROR <==> status == PARSE_ERROR)
    && (outcome == BUDGET_EXCEEDED <==> status == OVER_BUDGET)
    && (outcome == TIMEOUT <==> status == TIMED_OUT)
    && (outcome == SANDBOX_DEAD <==> status == DEAD_SANDBOX)
    && (lane == PROJECT && outcome == JUDGE_UNAVAILABLE <==> status == NO_JUDGE)
    && (lane == PROJECT && outcome == OVERSIZE <==> status == OVERSIZE_REPO)
    && (lane == PROJECT && outcome == NO_README <==> status == README_MISSING)
    && (lane == PROJECT && outcome == NEEDS_GPU <==> status == GPU_ONLY)
    && (lane == SKILL && outcome == Outcome.SKILL_CLONE_ATTEMPT <==> status == CLONE_ATTEMPT)
    && (status == DONE <==>
          || outcome in {PASS, PARTIAL, FAIL}
          || (lane == PROJECT && outcome == Outcome.SKILL_CLONE_ATTEMPT)
          || (lane == SKILL && outcome in {JUDGE_UNAVAILABLE, OVERSIZE, NO_README, NEEDS_GPU}))
  }

  /** What a run that had an agent result leaves: what was in force during the run, what is on file, and the end. */
  ghost predicate LeftAfter(lane: Lane, r: RunRecord, env: Env, lines: Splitter, clones: Matcher, result: AgentResult,
                            e: Ending)
  {
    && e.artifacts == Some(Artifacts(result.report, result.stdout))
    && e.record.summary == Some(result.report.outcome)
    && e.record.startedAt == (if r.startedAt.None? then Some(env.at) else r.startedAt)
    && e.record.endedAt == Some(env.at)
    && (if ClonesSeen(lane, result.stdout, lines, clones) then e.record.status == CLONE_ATTEMPT
        else EndsAs(lane, result.report.outcome, e.record.status))
  }

  /** The run as it is when an exception gets out of it in some status. */
  predicate StuckIn(r: RunRecord, e: Ending, status: Status) {
    && e.raised && e.artifacts == None && e.record.status == status
    && e.record.endedAt == r.endedAt && e.record.summary == r.summary
  }

  /** execute_run past the gate. */
  ghost predicate AllowedIs(lane: Lane, r: RunRecord, p: Pool, limits: Limits, env: Env, loads: string -> Option<Json>,
                            lines: Splitter, clones: Matcher, e: Ending)
  {
    if IsBusy(p, limits, r.runId, env.agent) || env.writeFails then
      StuckIn(r, e, AGENT_RUN) && e.record.startedAt == if r.startedAt.None? then Some(env.at) else r.startedAt
    else
      && !e.raised
      && exists result :: ResultIs(p, limits, r.runId, env.agent, lane, r.fullId, loads, result)
                          && LeftAfter(lane, r, env, lines, clones, result, e)
  }

  /** execute_run, whatever the gate, the pool, the agent and the disk do. */
  ghost predicate RunIs(lane: Lane, r: RunRecord, p: Pool, limits: Limits, env: Env, loads: string -> Option<Json>,
                        lines: Splitter, clones: Matcher, e: Ending)
  {
    && e.record.runId == r.runId && e.record.fullId == r.fullId
    && match env.gate
       case GateRaised =>
         StuckIn(r, e, if lane == PROJECT then PREFLIGHT else LOCAL_GATE) && e.record.startedAt == r.startedAt
         && e.pool == p
       case Blocked(status) =>
         && !e.raised && e.artifacts == None && e.pool == p
         && e.record == r.(status := status, endedAt := if Terminal(lane, status) then Some(env.at) else r.endedAt,
                           startedAt := if status == AGENT_RUN && r.startedAt.None? then Some(env.at) else r.startedAt)
       case Allowed => AllowedIs(lane, r, p, limits, env, loads, lines, clones, e)
  }

  lemma OutcomeEnds(lane: Lane, outcome: Outcome)
    ensures EndsAs(lane, outcome, OutcomeToStatus(lane, outcome))
  {
  }

  lemma SettledLeaves(lane: Lane, r: RunRecord, running: RunRecord, env: Env, lines: Splitter, clones: Matcher,
                      result: AgentResult, pool: Pool)
    requires running.startedAt == if r.startedAt.None? then Some(env.at) else r.startedAt
    requires running.summary == Some(result.report.outcome)
    ensures var end := Settled(lane, running, result, env.at, lines, clones);
      && LeftAfter(lane, r, env, lines, clones, result,
                   Ending(end, Some(Artifacts(result.report, result.stdout)), pool, false))
      && end.runId == running.runId && end.fullId == running.fullId
  {
    OutcomeEnds(lane, result.report.outcome);
    assert ClonesSeen(lane, result.stdout, lines, clones) <==>
      lane == SKILL && !CloneFree(result.stdout, lines, clones);
  }

  lemma AllowedRun(lane: Lane, r: RunRecord, gated: RunRecord, p: Pool, limits: Limits, env: Env,
                   loads: string -> Option<Json>, lines: Splitter, clones: Matcher)
    requires gated == r.(status := gated.status)
    ensures var e := ExecutedAllowed(lane, gated, p, limits, env, loads, lines, clones);
      AllowedIs(lane, r, p, limits, env, loads, lines, clones, e)
      && e.record.runId == r.runId && e.record.fullId == r.fullId
  {
    TaskIs(p, limits, r.runId, env.agent, lane, r.fullId, loads);
    var (pool, result) := Ran(p, limits, r.runId, env.agent, lane, r.fullId, loads);
    if result.Some? && !env.writeFails {
      var running := WithStatus(lane, gated, AGENT_RUN, env.at).(summary := Some(result.value.report.outcome));
      SettledLeaves(lane, r, running, env, lines, clones, result.value, pool);
    }
  }

  /** Where execute_run ends in each case. */
  lemma RunIsTold(lane: Lane, r: RunRecord, p: Pool, limits: Limits, env: Env, loads: string -> Option<Json>,
                  lines: Splitter, clones: Matcher)
    ensures RunIs(lane, r, p, limits, env, loads, lines, clones,
                  Executed(lane, r, p, limits, env, loads, lines, clones))
  {
    var gated := WithStatus(lane, r, if lane == PROJECT then PREFLIGHT else LOCAL_GATE, env.at);
    if env.gate.Allowed? {
      AllowedRun(lane, r, gated, p, limits, env, loads, lines, clones);
    }
  }

  // ---------- what the verdict decides ----------

  /** The agent ran to its end within its budget, and its report was accepted. */
  predicate Accepted(p: Pool, limits: Limits, runId: string, ev: AgentEvents, lane: Lane, target: string,
                     loads: string -> Option<Json>, report: RunReport)
  {
    && !Died(p, limits, runId, ev) && ev.stream.decision == Decision.OK
    && Extraction.Extraction(ev.stream.stdout, lane, target, loads) == Extracted.Ok(report)
  }

  ghost predicate Earned(lane: Lane, r: RunRecord, p: Pool, limits: Limits, env: Env, loads: string -> Option<Json>,
                         e: Ending)
  {
    && env.gate.Allowed? && e.artifacts.Some?
    && Accepted(p, limits, r.runId, env.agent, lane, r.fullId, loads, e.artifacts.value.report)
    && e.artifacts.value.log == env.agent.stream.stdout && e.record.summary == Some(e.artifacts.value.report.outcome)
  }

  /** A run ends DONE, with the report on file, only if the agent stayed within its budget and extraction
      accepted that very report from what it printed. */
  lemma DoneIsEarned(lane: Lane, r: RunRecord, p: Pool, limits: Limits, env: Env, loads: string -> Option<Json>,
                     lines: Splitter, clones: Matcher)
    requires env.gate.Blocked? ==> Rejection(lane, env.gate.status)
    requires var e := Executed(lane, r, p, limits, env, loads, lines, clones);
      !e.raised && e.record.status == DONE
    ensures Earned(lane, r, p, limits, env, loads, Executed(lane, r, p, limits, env, loads, lines, clones))
  {
    RunIsTold(lane, r, p, limits, env, loads, lines, clones);
  }

  /** A breach, a dead sandbox and a report that is not accepted end in their own status, whatever the agent printed,
      but for a skill's log with a command that fetches something. */
  lemma FailuresEndApart(lane: Lane, r: RunRecord, p: Pool, limits: Limits, env: Env, loads: string -> Option<Json>,
                         lines: Splitter, clones: Matcher)
    requires env.gate.Allowed? && !IsBusy(p, limits, r.runId, env.agent) && !env.writeFails
    ensures var e := Executed(lane, r, p, limits, env, loads, lines, clones);
      var ev := env.agent;
      var log := if Died(p, limits, r.runId, ev) then "" else ev.stream.stdout;
      && !e.raised
      && if ClonesSeen(lane, log, lines, clones) then e.record.status == CLONE_ATTEMPT
         else if Died(p, limits, r.runId, ev) then e.record.status == DEAD_SANDBOX
         else match ev.stream.decision
           case EXCEEDED_TOKENS => e.record.status == OVER_BUDGET
           case EXCEEDED_WALL_CLOCK => e.record.status == TIMED_OUT
           case OK => Extraction.Extraction(log, lane, r.fullId, loads).Err? ==> e.record.status == PARSE_ERROR
  {
    RunIsTold(lane, r, p, limits, env, loads, lines, clones);
  }
}
