/**
 What a whole, uninterrupted call of run_pipeline does to docker: nothing of the run is left once
 CLEANUP has succeeded, and no other run's containers are touched.
 */
module LeakFreedom {
  import opened Options
  import opened StateMachine
  import opened Pipeline
  import opened PipelineOrder
  import opened CrashResume
  import opened CleanupOwed
  import opened CallOutcome
  import opened DeployRepair
  import D = Deploy
  import opened DeployLaws
  import opened Cleanup

  /** No container of the run with the e9- prefix. */
  ghost predicate Clean(cs: D.Containers, runId: string) {
    forall name :: name in cs && D.E9Named(name) ==> cs[name].run != Some(runId)
  }

  /** What a CLEANUP may do to docker: remove containers of the run with the prefix, nothing else. */
  ghost predicate OnlyOwnRemoved(a: D.Containers, b: D.Containers, runId: string) {
    && (forall name :: name in b ==> name in a && b[name] == a[name])
    && (forall name :: name in a && name !in b ==> a[name].run == Some(runId) && D.E9Named(name))
  }

  /** Between two saves docker changes only when DEPLOY or CLEANUP settles. */
  ghost predicate DockerStep(a: RunState, b: RunState, da: D.Containers, db: D.Containers, site: D.Site)
    requires Whole(a) && Whole(b)
  {
    if a.stages[CLEANUP] != b.stages[CLEANUP] then
      OnlyOwnRemoved(da, db, site.runId) && (StageOk(b, CLEANUP) ==> Clean(db, site.runId))
    else if a.stages[DEPLOY] != b.stages[DEPLOY] then Confined(site, da, db)
    else db == da
  }

  /** CLEANUP's share of this is what execute_cleanup does, */
  lemma CleanupSteps(before: D.Containers, now: D.Containers, runId: string, order: seq<string>, r: Report, n: nat)
    requires Lists(order, Labelled(before, runId)) && n <= |order|
    requires Swept(before, now, runId, order[..n], r, false) && (r.complete <==> n == |order|)
    ensures OnlyOwnRemoved(before, now, runId) && (Succeeded(r) ==> Clean(now, runId))
  {
    forall name
      ensures name in now ==> name in before && now[name] == before[name]
      ensures name in before && name !in now ==> before[name].run == Some(runId) && D.E9Named(name)
    {
      CleanupIsSafe(before, now, runId, order, r, n, false, name);
    }
    if Succeeded(r) {
      CleanupIsExact(before, now, runId, order, r, n);
    }
  }

  /** and DEPLOY's is what execute_deploy does. */
  lemma DeploySteps(site: D.Site, spawn: D.Spawner, cs: D.Containers, first: Candidate, repair: bool,
                    agent: D.AgentOracle, agentMax: nat)
    ensures var ts := D.Tries(D.DockOf(site, spawn), cs, first, repair, D.ProposerOf(STRATEGIES), D.MAX_ITERATIONS,
                              agent, agentMax);
      Confined(site, cs, ts[|ts| - 1].after)
  {
    var ts := D.Tries(D.DockOf(site, spawn), cs, first, repair, D.ProposerOf(STRATEGIES), D.MAX_ITERATIONS, agent,
                      agentMax);
    DeployIsConfined(site, spawn, cs, first, repair, D.ProposerOf(STRATEGIES), D.MAX_ITERATIONS, agent, agentMax,
                     |ts| - 1);
  }

  function StateBefore(r: RunState, saves: seq<RunState>, j: nat): RunState
    requires j <= |saves|
  {
    if j == 0 then r else saves[j - 1]
  }

  /** ds[j] is what docker holds before save j. */
  ghost predicate DockerTrace(r: RunState, saves: seq<RunState>, ds: seq<D.Containers>, site: D.Site) {
    && Whole(r) && |ds| == |saves| + 1
    && forall j :: 0 <= j < |saves| ==> StepsAt(r, saves, ds, site, j)
  }

  ghost predicate StepsAt(r: RunState, saves: seq<RunState>, ds: seq<D.Containers>, site: D.Site, j: nat)
    requires j < |saves| && |ds| == |saves| + 1
  {
    var a, b := StateBefore(r, saves, j), saves[j];
    Whole(a) && Whole(b) && DockerStep(a, b, ds[j], ds[j + 1], site)
  }

  // ---------- the executors ----------

  /** What docker holds before the n-th executor of a call runs. */
  type Dockers = nat -> D.Containers

  datatype DeployRun = DeployRun(request: D.Request, spawn: D.Spawner, repair: bool, agent: D.AgentOracle,
                                 agentMax: nat)

  /** _adapt_native: how the outcome of execute_deploy reaches the pipeline. Texts and artifact names do
      not matter here. */
  predicate Returns(o: D.Outcome, res: ExecResult) {
    && (res.Done? <==> o.Deployed?) && (res.Unable? <==> o.Skipped?)
    && (res.Wrong? <==> o.Failed?) && (res.Raised? <==> o.Raised?)
  }

  /** execute_deploy ran with these inputs. */
  ghost predicate DeployDid(site: D.Site, d: DeployRun, res: ExecResult, before: D.Containers, after: D.Containers) {
    match D.GateOf(d.request)
    case Stop(o) => after == before && Returns(o, res)
    case Go(s, first) =>
      var ts := D.Tries(D.DockOf(site, d.spawn), before, first, d.repair, D.ProposerOf(STRATEGIES), D.MAX_ITERATIONS,
                        D.Heeded(d.agent), d.agentMax);
      s == site && after == ts[|ts| - 1].after && Returns(D.Reported(site, ts), res)
  }

  /** What docker answers a cleanup: the listing, None when docker is not reached or the listing fails, and
      what becomes of each removal. */
  datatype CleanupRun = CleanupRun(order: Option<seq<string>>, removal: string -> Removal)

  /** execute_cleanup ran with these answers: docker was not reached, or the listed containers were swept. */
  ghost predicate CleanupDid(runId: string, c: CleanupRun, res: ExecResult, before: D.Containers,
                             after: D.Containers) {
    match c.order
    case None => after == before && res.Wrong?
    case Some(order) =>
      && Lists(order, Labelled(before, runId))
      && exists r: Report, n: nat :: CleanupSwept(runId, order, c.removal, r, n, res, before, after)
  }

  ghost predicate CleanupSwept(runId: string, order: seq<string>, removal: string -> Removal, r: Report, n: nat,
                               res: ExecResult, before: D.Containers, after: D.Containers) {
    && TreatedUpto(after, order, n, r, false, removal) && Swept(before, after, runId, order[..n], r, false)
    && (res.Done? <==> Succeeded(r)) && (res.Raised? <==> !r.complete) && !res.Unable?
  }

  /** Docker lists the run's containers and removes those with the prefix. */
  ghost predicate Answers(c: CleanupRun) {
    && c.order.Some?
    && forall i :: 0 <= i < |c.order.value| && D.E9Named(c.order.value[i]) ==> Removes(c.removal(c.order.value[i]))
  }

  method RunDeploy(host: D.DockerHost, d: DeployRun, site: D.Site) returns (res: ExecResult)
    requires D.GateOf(d.request).Go? ==> D.GateOf(d.request).site == site
    modifies host
    ensures DeployDid(site, d, res, old(host.containers), host.containers)
  {
    var ts, outcome := D.ExecuteDeploy(host, d.request, d.spawn, d.repair, d.agent, d.agentMax);
    match outcome {
      case Deployed(_, _, _, _, _) => res := Done([]);
      case Skipped => res := Unable("", "");
      case Failed(_) => res := Wrong("");
      case Raised => res := ExecResult.Raised("");
    }
  }

  method RunCleanup(host: D.DockerHost, runId: string, c: CleanupRun) returns (res: ExecResult)
    requires c.order.Some? ==> Lists(c.order.value, Labelled(host.containers, runId))
    modifies host
    ensures CleanupDid(runId, c, res, old(host.containers), host.containers)
  {
    if c.order.None? {
      return Wrong("");
    }
    var r, n := ExecuteCleanup(host, runId, c.order.value, false, c.removal);
    res := if Succeeded(r) then Done([]) else if r.complete then Wrong("") else Raised("");
    assert CleanupSwept(runId, c.order.value, c.removal, r, n, res, old(host.containers), host.containers);
  }

  /** What stage s does to docker; stages other than these two do nothing to it. */
  ghost predicate Did(site: D.Site, s: StageName, res: ExecResult, before: D.Containers, after: D.Containers) {
    if s == CLEANUP then exists c: CleanupRun :: CleanupDid(site.runId, c, res, before, after)
    else if s == DEPLOY then exists d: DeployRun :: DeployDid(site, d, res, before, after)
    else after == before
  }

  /** The executors of the call from stage k on did to docker what they do. */
  ghost predicate DidFrom(site: D.Site, r: RunState, k: nat, exec: Exec, n: nat, dock: Dockers)
    requires Whole(r) && k <= STAGE_COUNT
    decreases STAGE_COUNT - k, 1, r
  {
    if k == STAGE_COUNT || r.abortFlag then true
    else if StageOk(r, k) then DidFrom(site, r, k + 1, exec, n, dock)
    else
      && Did(site, k, exec(n, k), dock(n), dock(n + 1))
      && DidAfter(site, After(r, k, exec(n, k)), k, exec(n, k), exec, n + 1, dock)
  }

  ghost predicate DidAfter(site: D.Site, r: RunState, k: StageName, res: ExecResult, exec: Exec, n: nat, dock: Dockers)
    requires Whole(r)
    decreases STAGE_COUNT - k, 0, r
  {
    match res
    case Done(_) => DidFrom(site, r, k + 1, exec, n, dock)
    case Unable(_, _) => CleansOnAbort(r, k) ==> Did(site, CLEANUP, exec(n, CLEANUP), dock(n), dock(n + 1))
    case _ => CleansOnFailure(r, k) ==> Did(site, CLEANUP, exec(n, CLEANUP), dock(n), dock(n + 1))
  }

  ghost predicate CallDid(site: D.Site, r: RunState, exec: Exec, dock: Dockers)
    requires Whole(r)
  {
    DidFrom(site, Restarted(Begun(r)), 0, exec, 0, dock)
  }

  /** What docker holds at each save. */
  function DocksFrom(r: RunState, k: nat, exec: Exec, n: nat, dock: Dockers): (ds: seq<D.Containers>)
    requires Whole(r) && k <= STAGE_COUNT
    ensures |ds| == |FromStage(r, k, exec, n)|
    decreases STAGE_COUNT - k, 1, r
  {
    if k == STAGE_COUNT || r.abortFlag then [dock(n)]
    else if StageOk(r, k) then DocksFrom(r, k + 1, exec, n, dock)
    else [dock(n), dock(n + 1)] + DocksAfter(After(r, k, exec(n, k)), k, exec(n, k), exec, n + 1, dock)
  }

  function DocksAfter(r: RunState, k: StageName, res: ExecResult, exec: Exec, n: nat,
                      dock: Dockers): (ds: seq<D.Containers>)
    requires Whole(r)
    ensures |ds| == |AfterStage(r, k, res, exec, n)|
    decreases STAGE_COUNT - k, 0, r
  {
    match res
    case Done(_) => DocksFrom(r, k + 1, exec, n, dock)
    case Unable(_, _) => [dock(n)] + if CleansOnAbort(r, k) then [dock(n), dock(n + 1)] else []
    case _ => if CleansOnFailure(r, k) then [dock(n), dock(n + 1), dock(n + 1)] else [dock(n)]
  }

  function CallDocks(r: RunState, exec: Exec, dock: Dockers): (ds: seq<D.Containers>)
    requires Whole(r)
    ensures |ds| == |Call(r, exec)| + 1
  {
    [dock(0)] + (seq(|Opening(r)|, _ => dock(0)) + DocksFrom(Restarted(Begun(r)), 0, exec, 0, dock))
  }

  /** The same relation, one save after the other. */
  ghost predicate Steps(site: D.Site, r: RunState, d: D.Containers, saves: seq<RunState>, ds: seq<D.Containers>)
    requires Whole(r) && |ds| == |saves|
    decreases saves
  {
    saves != [] ==>
      Whole(saves[0]) && DockerStep(r, saves[0], d, ds[0], site) && Steps(site, saves[0], ds[0], saves[1..], ds[1..])
  }

  lemma {:induction false} StepsAppend(site: D.Site, r: RunState, d: D.Containers, a: seq<RunState>,
                                       da: seq<D.Containers>, b: seq<RunState>, db: seq<D.Containers>)
    requires Whole(r) && |da| == |a| && |db| == |b| && a != [] && Steps(site, r, d, a, da)
    requires Whole(Last(a)) && Steps(site, Last(a), da[|da| - 1], b, db)
    ensures Steps(site, r, d, a + b, da + db)
    decreases a
  {
    assert (a + b)[1..] == a[1..] + b && (da + db)[1..] == da[1..] + db;
    if |a| > 1 {
      StepsAppend(site, a[0], da[0], a[1..], da[1..], b, db);
    }
  }

  lemma {:induction false} StepsTrace(site: D.Site, r: RunState, d: D.Containers, saves: seq<RunState>,
                                      ds: seq<D.Containers>, j: nat)
    requires Whole(r) && |ds| == |saves| && Steps(site, r, d, saves, ds) && j < |saves|
    ensures StepsAt(r, saves, [d] + ds, site, j)
    decreases j
  {
    if j > 0 {
      StepsTrace(site, saves[0], ds[0], saves[1..], ds[1..], j - 1);
      assert StateBefore(saves[0], saves[1..], j - 1) == StateBefore(r, saves, j);
      assert ([ds[0]] + ds[1..]) == ds;
    }
  }

  lemma StartStep(site: D.Site, r: RunState, s: StageName, d: D.Containers)
    requires Whole(r)
    ensures Whole(Start(r, s)) && DockerStep(r, Start(r, s), d, d, site)
  {
    assert Start(r, s).stages[s] != r.stages[s];
  }

  lemma SettleStep(site: D.Site, r: RunState, s: StageName, res: ExecResult, before: D.Containers,
                   after: D.Containers)
    requires Whole(r) && Did(site, s, res, before, after)
    ensures DockerStep(Start(r, s), After(r, s, res), before, after, site)
  {
    assert After(r, s, res).stages[s] != Start(r, s).stages[s];
    if s == CLEANUP {
      CleanupStep(site.runId, res, before, after);
    } else if s == DEPLOY {
      DeployStep(site, res, before, after);
    }
  }

  /** Executing stage s is two docker steps. */
  lemma ExecSteps(site: D.Site, r: RunState, s: StageName, res: ExecResult, before: D.Containers, after: D.Containers)
    requires Whole(r) && Did(site, s, res, before, after)
    ensures Steps(site, r, before, ExecSaves(r, s, res), [before, after])
  {
    var a, b := Start(r, s), After(r, s, res);
    StartStep(site, r, s, before);
    SettleStep(site, r, s, res, before, after);
    assert Steps(site, b, after, [], []);
    assert Steps(site, a, before, [b], [after]);
    assert [a, b][1..] == [b] && [before, after][1..] == [after];
  }

  lemma CleanupStep(runId: string, res: ExecResult, before: D.Containers, after: D.Containers)
    requires exists c: CleanupRun :: CleanupDid(runId, c, res, before, after)
    ensures OnlyOwnRemoved(before, after, runId) && (res.Done? ==> Clean(after, runId))
  {
    var c: CleanupRun :| CleanupDid(runId, c, res, before, after);
    if c.order.Some? {
      var order := c.order.value;
      var r: Report, n: nat :| CleanupSwept(runId, order, c.removal, r, n, res, before, after);
      CleanupSteps(before, after, runId, order, r, n);
    }
  }

  /** A cleanup succeeds exactly if docker answers. */
  lemma CleanupSucceedsIff(runId: string, c: CleanupRun, res: ExecResult, before: D.Containers, after: D.Containers)
    requires CleanupDid(runId, c, res, before, after)
    ensures res.Done? <==> Answers(c)
  {
    if c.order.Some? {
      var order := c.order.value;
      var r: Report, n: nat :| CleanupSwept(runId, order, c.removal, r, n, res, before, after);
      SucceedsIff(before, after, runId, order, r, n, false, c.removal);
    }
  }

  lemma DeployStep(site: D.Site, res: ExecResult, before: D.Containers, after: D.Containers)
    requires Did(site, DEPLOY, res, before, after)
    ensures Confined(site, before, after)
  {
    var d: DeployRun :| DeployDid(site, d, res, before, after);
    DeployDidSteps(site, d, res, before, after);
  }

  lemma DeployDidSteps(site: D.Site, d: DeployRun, res: ExecResult, before: D.Containers, after: D.Containers)
    requires DeployDid(site, d, res, before, after)
    ensures Confined(site, before, after)
  {
    match D.GateOf(d.request)
    case Stop(_) =>
    case Go(_, first) =>
      var ts := D.Tries(D.DockOf(site, d.spawn), before, first, d.repair, D.ProposerOf(STRATEGIES), D.MAX_ITERATIONS,
                        D.Heeded(d.agent), d.agentMax);
      assert after == ts[|ts| - 1].after;
      DeploySteps(site, d.spawn, before, first, d.repair, D.Heeded(d.agent), d.agentMax);
  }

  lemma MarkSteps(site: D.Site, r: RunState, r': RunState, d: D.Containers)
    requires Whole(r) && r'.stages == r.stages
    ensures Steps(site, r, d, [r'], [d])
  {
    assert DockerStep(r, r', d, d, site);
  }

  lemma {:induction false} FromStageSteps(site: D.Site, r: RunState, k: nat, exec: Exec, n: nat, dock: Dockers)
    requires Whole(r) && k <= STAGE_COUNT && DidFrom(site, r, k, exec, n, dock)
    ensures Steps(site, r, dock(n), FromStage(r, k, exec, n), DocksFrom(r, k, exec, n, dock))
    decreases STAGE_COUNT - k, 1
  {
    if k == STAGE_COUNT {
      MarkSteps(site, r, r.(status := RUN_OK), dock(n));
    } else if r.abortFlag {
      MarkSteps(site, r, Abort(r, "abort_flag"), dock(n));
    } else if StageOk(r, k) {
      FromStageSteps(site, r, k + 1, exec, n, dock);
    } else {
      var res := exec(n, k);
      var r' := After(r, k, res);
      ExecSteps(site, r, k, res, dock(n), dock(n + 1));
      AfterStageSteps(site, r', k, res, exec, n + 1, dock);
      StepsAppend(site, r, dock(n), ExecSaves(r, k, res), [dock(n), dock(n + 1)],
                  AfterStage(r', k, res, exec, n + 1), DocksAfter(r', k, res, exec, n + 1, dock));
    }
  }

  lemma {:induction false} AfterStageSteps(site: D.Site, r: RunState, k: StageName, res: ExecResult, exec: Exec,
                                           n: nat, dock: Dockers)
    requires Whole(r) && DidAfter(site, r, k, res, exec, n, dock)
    ensures Steps(site, r, dock(n), AfterStage(r, k, res, exec, n), DocksAfter(r, k, res, exec, n, dock))
    decreases STAGE_COUNT - k, 0
  {
    match res
    case Done(_) => FromStageSteps(site, r, k + 1, exec, n, dock);
    case Unable(_, _) =>
      var r' := Abort(r, SkipText(k, res));
      MarkSteps(site, r, r', dock(n));
      if CleansOnAbort(r', k) {
        ExecSteps(site, r', CLEANUP, exec(n, CLEANUP), dock(n), dock(n + 1));
        StepsAppend(site, r, dock(n), [r'], [dock(n)], ExecSaves(r', CLEANUP, exec(n, CLEANUP)),
                    [dock(n), dock(n + 1)]);
      } else {
        assert [r'] + [] == [r'] && [dock(n)] + [] == [dock(n)];
      }
    case _ => FailSteps(site, r, k, res, exec, n, dock);
  }

  lemma FailSteps(site: D.Site, r: RunState, k: StageName, res: ExecResult, exec: Exec, n: nat, dock: Dockers)
    requires Whole(r) && !res.Done? && !res.Unable? && DidAfter(site, r, k, res, exec, n, dock)
    ensures Steps(site, r, dock(n), AfterStage(r, k, res, exec, n), DocksAfter(r, k, res, exec, n, dock))
  {
    if CleansOnFailure(r, k) {
      var c := After(r, CLEANUP, exec(n, CLEANUP));
      ExecSteps(site, r, CLEANUP, exec(n, CLEANUP), dock(n), dock(n + 1));
      MarkSteps(site, c, Fail(c, FailReason(res)), dock(n + 1));
      StepsAppend(site, r, dock(n), ExecSaves(r, CLEANUP, exec(n, CLEANUP)), [dock(n), dock(n + 1)],
                  [Fail(c, FailReason(res))], [dock(n + 1)]);
    } else {
      MarkSteps(site, r, Fail(r, FailReason(res)), dock(n));
    }
  }

  lemma OpeningSteps(site: D.Site, r: RunState, d: D.Containers)
    requires Whole(r)
    ensures Steps(site, r, d, Opening(r), seq(|Opening(r)|, _ => d))
    ensures Last(Opening(r)) == Restarted(Begun(r))
  {
    var b := Begun(r);
    MarkSteps(site, r, b, d);
    if NeedsFullRestart(b) {
      assert DockerStep(b, Reset(b), d, d, site);
      assert Steps(site, b, d, [Reset(b)], [d]);
      StepsAppend(site, r, d, [b], [d], [Reset(b)], [d]);
      assert [b] + [Reset(b)] == Opening(r) && [d] + [d] == seq(|Opening(r)|, _ => d);
    } else {
      assert [b] == Opening(r) && [d] == seq(|Opening(r)|, _ => d);
    }
  }

  lemma TraceOf(site: D.Site, r: RunState, d: D.Containers, saves: seq<RunState>, ds: seq<D.Containers>)
    requires Whole(r) && |ds| == |saves| && Steps(site, r, d, saves, ds)
    ensures DockerTrace(r, saves, [d] + ds, site)
  {
    forall j | 0 <= j < |saves|
      ensures StepsAt(r, saves, [d] + ds, site, j)
    {
      StepsTrace(site, r, d, saves, ds, j);
    }
  }

  lemma CallSteps(site: D.Site, r: RunState, exec: Exec, dock: Dockers)
    requires Whole(r) && CallDid(site, r, exec, dock)
    ensures Steps(site, r, dock(0), Call(r, exec),
                  seq(|Opening(r)|, _ => dock(0)) + DocksFrom(Restarted(Begun(r)), 0, exec, 0, dock))
  {
    var b, d := Restarted(Begun(r)), dock(0);
    OpeningSteps(site, r, d);
    FromStageSteps(site, b, 0, exec, 0, dock);
    StepsAppend(site, r, d, Opening(r), seq(|Opening(r)|, _ => d), FromStage(b, 0, exec, 0),
                DocksFrom(b, 0, exec, 0, dock));
  }

  /** Docker over a whole call, derived from what its executors did. */
  lemma CallTrace(site: D.Site, r: RunState, exec: Exec, dock: Dockers)
    requires Whole(r) && CallDid(site, r, exec, dock)
    ensures DockerTrace(r, Call(r, exec), CallDocks(r, exec, dock), site)
  {
    CallSteps(site, r, exec, dock);
    TraceOf(site, r, dock(0), Call(r, exec),
            seq(|Opening(r)|, _ => dock(0)) + DocksFrom(Restarted(Begun(r)), 0, exec, 0, dock));
  }

  // ---------- no leak ----------

  lemma {:induction false} ChainStep(r: RunState, saves: seq<RunState>, j: nat)
    requires Chain(r, saves) && j < |saves|
    ensures Advances(StateBefore(r, saves, j), saves[j])
    decreases j
  {
    if j > 0 {
      ChainStep(saves[0], saves[1..], j - 1);
      assert StateBefore(saves[0], saves[1..], j - 1) == StateBefore(r, saves, j);
    }
  }

  lemma {:induction false} CleanFrom(r: RunState, saves: seq<RunState>, ds: seq<D.Containers>, site: D.Site, j: nat)
    requires DockerTrace(r, saves, ds, site) && j < |saves| && !StageOk(r, CLEANUP)
    requires Chain(r, saves) && Moved(r, saves) && CleanupLast(r, saves)
    requires Whole(saves[j]) && StageOk(saves[j], CLEANUP)
    ensures Clean(ds[j + 1], site.runId)
    decreases j
  {
    assert StepsAt(r, saves, ds, site, j);
    var a, b := StateBefore(r, saves, j), saves[j];
    if StageOk(a, CLEANUP) {
      ChainStep(r, saves, j);
      CleanFrom(r, saves, ds, site, j - 1);
      assert a == saves[j - 1] && b.stages[..CLEANUP] == a.stages[..CLEANUP];
      assert b.stages[..CLEANUP][DEPLOY] == a.stages[..CLEANUP][DEPLOY];
    }
  }

  lemma TraceLeaksNothing(r: RunState, exec: Exec, ds: seq<D.Containers>, site: D.Site)
    requires Orderly(r) && !StageOk(r, CLEANUP) && DockerTrace(r, Call(r, exec), ds, site)
    requires Whole(Final(r, exec)) && StageOk(Final(r, exec), CLEANUP)
    ensures Clean(ds[|ds| - 1], site.runId)
  {
    var saves := Call(r, exec);
    CallChain(r, exec);
    CallMoved(r, exec);
    CallCleanupLast(r, exec);
    CleanFrom(r, saves, ds, site, |saves| - 1);
  }

  /** No leak: if CLEANUP was still due when the call began and is OK when it ends, no container of the
      run with the prefix is left, whatever DEPLOY and its repairs did in between. */
  lemma CallLeaksNothing(r: RunState, exec: Exec, dock: Dockers, site: D.Site)
    requires Orderly(r) && !StageOk(r, CLEANUP) && CallDid(site, r, exec, dock)
    requires Whole(Final(r, exec)) && StageOk(Final(r, exec), CLEANUP)
    ensures Clean(CallDocks(r, exec, dock)[|Call(r, exec)|], site.runId)
  {
    CallTrace(site, r, exec, dock);
    TraceLeaksNothing(r, exec, CallDocks(r, exec, dock), site);
  }

  /** A call without the flag executes a CLEANUP that was due as its n-th executor: after stage k gave up, or
      as its last stage. */
  ghost predicate CleansAt(r: RunState, exec: Exec, n: nat)
    requires Whole(r)
  {
    || (GoesThrough(r, exec, CLEANUP) && !StageOk(r, CLEANUP) && n == Due(r, CLEANUP))
    || exists k: StageName :: FollowsAt(r, exec, k, n)
  }

  ghost predicate FollowsAt(r: RunState, exec: Exec, k: StageName, n: nat)
    requires Whole(r)
  {
    k < CLEANUP && StopsAt(r, exec, k) && CleansAfter(r, k, ResultAt(r, exec, k)) && n == Due(r, k) + 1
  }

  lemma CleanupIsLast(r: RunState, exec: Exec)
    requires Whole(r) && !r.abortFlag && !StageOk(r, CLEANUP) && GoesThrough(r, exec, CLEANUP)
    ensures OkIff(Final(r, exec), ResultAt(r, exec, CLEANUP))
  {
    if ResultAt(r, exec, CLEANUP).Done? {
      ThroughNext(r, exec, CLEANUP);
      CallSucceeds(r, exec);
      PassedIs(r, exec, Final(r, exec));
    } else {
      CallStops(r, exec, CLEANUP);
      PassedIs(r, exec, Final(r, exec));
    }
  }

  lemma PassedIs(r: RunState, exec: Exec, last: RunState)
    requires Whole(r) && Whole(last) && !StageOk(r, CLEANUP) && Passed(r, exec, CLEANUP, last.stages[CLEANUP])
    ensures OkIff(last, ResultAt(r, exec, CLEANUP))
  {
  }

  lemma CleanupFollows(r: RunState, exec: Exec, k: StageName, n: nat)
    requires Whole(r) && !r.abortFlag && FollowsAt(r, exec, k, n)
    ensures OkIff(Final(r, exec), exec(n, CLEANUP))
  {
    CallStops(r, exec, k);
    RecordedIs(r.stages[CLEANUP], Final(r, exec), exec(n, CLEANUP));
  }

  lemma RecordedIs(before: Info, last: RunState, res: ExecResult)
    requires Whole(last) && Recorded(before, last.stages[CLEANUP], res)
    ensures OkIff(last, res)
  {
  }

  /** CLEANUP is OK exactly if it was done. */
  ghost predicate OkIff(last: RunState, res: ExecResult) {
    Whole(last) && (StageOk(last, CLEANUP) <==> res.Done?)
  }

  lemma CleanupRecorded(r: RunState, exec: Exec, n: nat)
    requires Whole(r) && !r.abortFlag && !StageOk(r, CLEANUP) && CleansAt(r, exec, n)
    ensures OkIff(Final(r, exec), exec(n, CLEANUP))
  {
    if GoesThrough(r, exec, CLEANUP) && n == Due(r, CLEANUP) {
      CleanupIsLast(r, exec);
    } else {
      var k: StageName :| FollowsAt(r, exec, k, n);
      CleanupFollows(r, exec, k, n);
    }
  }

  /** A CLEANUP that was due, and is executed, ends OK exactly if docker answers it; and then no container of the
      run with the prefix is left. */
  lemma AnsweredCleanupCleans(r: RunState, exec: Exec, dock: Dockers, site: D.Site, n: nat, c: CleanupRun)
    requires Orderly(r) && !r.abortFlag && !StageOk(r, CLEANUP) && CallDid(site, r, exec, dock)
    requires CleansAt(r, exec, n) && CleanupDid(site.runId, c, exec(n, CLEANUP), dock(n), dock(n + 1))
    ensures Whole(Final(r, exec)) && (StageOk(Final(r, exec), CLEANUP) <==> Answers(c))
    ensures Answers(c) ==> Clean(CallDocks(r, exec, dock)[|Call(r, exec)|], site.runId)
  {
    CleanupRecorded(r, exec, n);
    CleanupSucceedsIff(site.runId, c, exec(n, CLEANUP), dock(n), dock(n + 1));
    if Answers(c) {
      CallLeaksNothing(r, exec, dock, site);
    }
  }

  lemma {:induction false} TraceKeepsOthers(r: RunState, saves: seq<RunState>, ds: seq<D.Containers>, site: D.Site,
                                            j: nat, name: string)
    requires DockerTrace(r, saves, ds, site) && j <= |saves|
    requires name in ds[0] && name != site.name && ds[0][name].run != Some(site.runId)
    ensures name in ds[j] && ds[j][name] == ds[0][name]
    decreases j
  {
    if j > 0 {
      TraceKeepsOthers(r, saves, ds, site, j - 1, name);
      assert StepsAt(r, saves, ds, site, j - 1);
    }
  }

  /** No harm: a container that is neither this run's nor bears its container's name is as it was, at
      every save of any call, complete or not. */
  lemma OthersUntouched(r: RunState, exec: Exec, dock: Dockers, site: D.Site, j: nat, name: string)
    requires Whole(r) && CallDid(site, r, exec, dock) && j <= |Call(r, exec)|
    requires name in dock(0) && name != site.name && dock(0)[name].run != Some(site.runId)
    ensures name in CallDocks(r, exec, dock)[j] && CallDocks(r, exec, dock)[j][name] == dock(0)[name]
  {
    CallTrace(site, r, exec, dock);
    TraceKeepsOthers(r, Call(r, exec), CallDocks(r, exec, dock), site, j, name);
  }
}
