/**
 run_pipeline (orchestrator/main.py) and the store it saves to. A call's behaviour is specified by
 the sequence of states it persists; the class method produces exactly that sequence.
 */
module Pipeline {
  import opened Options
  import opened StateMachine

  /** What one stage executor comes back with. */
  datatype ExecResult =
    | Done(artifacts: seq<string>)
    | Unable(reason: string, error: string)   // ok=False with extra["aborted"]
    | Wrong(error: string)                    // ok=False
    | Raised(message: string)                 // the executor raised

  /** The n-th executor invocation of a call, for a given stage. */
  type Exec = (nat, StageName) -> ExecResult

  function Or(a: string, b: string): string {
    if a != "" then a else b
  }

  function SkipReason(res: ExecResult): string
    requires res.Unable?
  {
    Or(res.reason, Or(res.error, "aborted"))
  }

  function Settle(i: Info, res: ExecResult): Info {
    match res
    case Done(artifacts) => MarkedOk(i, artifacts)
    case Unable(_, _) => MarkedSkipped(i, SkipReason(res))
    case Wrong(error) => MarkedFailed(i, Or(error, "executor returned ok=False"))
    case Raised(message) => MarkedFailed(i, "executor crashed: " + message)
  }

  function FailReason(res: ExecResult): string {
    match res
    case Wrong(error) => Or(error, "stage failed")
    case Raised(message) => message
    case _ => ""
  }

  // ---------- the persisted states of one call ----------

  function Start(r: RunState, s: StageName): (r': RunState)
    requires Whole(r)
    ensures Whole(r')
  {
    r.(stages := r.stages[s := Started(r.stages[s])])
  }

  function After(r: RunState, s: StageName, res: ExecResult): (r': RunState)
    requires Whole(r)
    ensures Whole(r')
  {
    r.(stages := r.stages[s := Settle(Started(r.stages[s]), res)])
  }

  /** _execute_stage_real saves twice: when the stage starts and when it settles. */
  function ExecSaves(r: RunState, s: StageName, res: ExecResult): seq<RunState>
    requires Whole(r)
  {
    [Start(r, s), After(r, s, res)]
  }

  function Abort(r: RunState, reason: string): RunState {
    r.(status := RUN_ABORTED, failureReason := Some(reason))
  }

  function Fail(r: RunState, reason: string): RunState {
    r.(status := RUN_FAILED, failureReason := Some(reason))
  }

  function SkipText(s: StageName, res: ExecResult): string
    requires res.Unable?
  {
    "aborted at " + StageText(s) + ": " + SkipReason(res)
  }

  predicate CleansOnAbort(r: RunState, s: StageName)
    requires Whole(r)
  {
    s != CLEANUP && !r.stages[CLEANUP].status.OK? && !r.stages[CLEANUP].status.SKIPPED?
  }

  predicate CleansOnFailure(r: RunState, s: StageName)
    requires Whole(r)
  {
    s != CLEANUP && !StageOk(r, CLEANUP)
  }

  /** After a graceful skip of stage s: the run is aborted, then cleaned up if that is still due. */
  function AbortSaves(r: RunState, s: StageName, res: ExecResult, exec: Exec, n: nat): seq<RunState>
    requires Whole(r) && res.Unable?
  {
    var r' := Abort(r, SkipText(s, res));
    [r'] + if CleansOnAbort(r', s) then ExecSaves(r', CLEANUP, exec(n, CLEANUP)) else []
  }

  /** After a failure of stage s: cleaned up if that is still due, and only then failed. */
  function FailSaves(r: RunState, s: StageName, res: ExecResult, exec: Exec, n: nat): seq<RunState>
    requires Whole(r)
  {
    if CleansOnFailure(r, s) then
      ExecSaves(r, CLEANUP, exec(n, CLEANUP)) + [Fail(After(r, CLEANUP, exec(n, CLEANUP)), FailReason(res))]
    else [Fail(r, FailReason(res))]
  }

  /** Everything saved from stage k on; n executor invocations were made before. */
  function FromStage(r: RunState, k: nat, exec: Exec, n: nat): (saves: seq<RunState>)
    requires Whole(r) && k <= STAGE_COUNT
    ensures saves != []
    decreases STAGE_COUNT - k, 1, r
  {
    if k == STAGE_COUNT then [r.(status := RUN_OK)]
    else if r.abortFlag then [Abort(r, "abort_flag")]
    else if StageOk(r, k) then FromStage(r, k + 1, exec, n)
    else ExecSaves(r, k, exec(n, k)) + AfterStage(After(r, k, exec(n, k)), k, exec(n, k), exec, n + 1)
  }

  /** What follows a stage that settled with `res`. */
  function AfterStage(r: RunState, k: StageName, res: ExecResult, exec: Exec, n: nat): (saves: seq<RunState>)
    requires Whole(r)
    ensures saves != []
    decreases STAGE_COUNT - k, 0, r
  {
    match res
    case Done(_) => FromStage(r, k + 1, exec, n)
    case Unable(_, _) => AbortSaves(r, k, res, exec, n)
    case _ => FailSaves(r, k, res, exec, n)
  }

  /** The reset covers four of the five run-level stages, and only those that are not OK. */
  function Reset(r: RunState): (r': RunState)
    requires Whole(r)
    ensures Whole(r')
  {
    r.(stages := seq(STAGE_COUNT, s requires 0 <= s < STAGE_COUNT =>
      if s <= ENGINE_SELECT && !r.stages[s].status.OK? then r.stages[s].(status := PENDING, error := None)
      else r.stages[s]))
  }

  function Begun(r: RunState): RunState {
    r.(status := RUN_IN_PROGRESS)
  }

  function Restarted(r: RunState): (r': RunState)
    requires Whole(r)
    ensures Whole(r')
  {
    if NeedsFullRestart(r) then Reset(r) else r
  }

  /** Saved before the first stage: the run in progress and, if it happened, the reset. */
  function Opening(r: RunState): (saves: seq<RunState>)
    requires Whole(r)
    ensures saves != []
  {
    [Begun(r)] + if NeedsFullRestart(Begun(r)) then [Reset(Begun(r))] else []
  }

  /** The states run_pipeline persists, in order. */
  function Call(r: RunState, exec: Exec): (saves: seq<RunState>)
    requires Whole(r)
    ensures saves != []
  {
    Opening(r) + FromStage(Restarted(Begun(r)), 0, exec, 0)
  }

  function Last(saves: seq<RunState>): RunState
    requires saves != []
  {
    saves[|saves| - 1]
  }

  // ---------- the store ----------

  /** A row of the runs table; created_at and last_state_path are written once. */
  datatype Row = Row(hfId: string, status: RunStatus, failureReason: Option<string>)

  class Store {
    var files: map<string, RunDoc>   // runs/<run_id>/state.json
    var rows: map<string, Row>       // runs.sqlite
    ghost var log: seq<RunState>     // every state saved so far

    method SaveRun(run: Run)
      requires run.Valid()
      modifies this
      ensures log == old(log) + [run.Value()]
      ensures files == old(files)[run.runId := ToJson(run.Value())]
      ensures rows == old(rows)[run.runId :=
                Row(if run.runId in old(rows) then old(rows)[run.runId].hfId else run.hfId,
                    run.status, run.failureReason)]
    {
      files := files[run.runId := ToJson(run.Value())];
      var hfId := if run.runId in rows then rows[run.runId].hfId else run.hfId;
      rows := rows[run.runId := Row(hfId, run.status, run.failureReason)];
      log := log + [run.Value()];
    }
  }

  method StartStage(run: Run, s: StageName)
    requires run.Valid()
    modifies run.stages[s]
    ensures run.Value() == Start(old(run.Value()), s)
  {
    ghost var r := run.Value();
    run.stages[s].MarkStarted();
  }

  method SettleStage(run: Run, s: StageName, res: ExecResult)
    requires run.Valid()
    modifies run.stages[s]
    ensures run.Value() ==
      old(run.Value()).(stages := old(run.Value()).stages[s := Settle(old(run.Value()).stages[s], res)])
  {
    ghost var r := run.Value();
    var info := run.stages[s];
    match res {
      case Done(artifacts) => info.MarkOk(artifacts);
      case Unable(_, _) => info.MarkSkipped(SkipReason(res));
      case Wrong(error) => info.MarkFailed(Or(error, "executor returned ok=False"));
      case Raised(message) => info.MarkFailed("executor crashed: " + message);
    }
  }

  /** state.json and the index row hold the run's present value. */
  ghost predicate Saved(store: Store, run: Run)
    requires run.Valid()
    reads store, run, run.stages
  {
    && run.runId in store.files && store.files[run.runId] == ToJson(run.Value())
    && run.runId in store.rows && store.rows[run.runId].status == run.status
  }

  /** What a stretch of the pipeline does: it persists `saves` and leaves the run at the last of them. */
  twostate predicate Persists(store: Store, run: Run, saves: seq<RunState>)
    requires run.Valid()
    reads store, run, run.stages
  {
    && saves != [] && run.Value() == Last(saves)
    && store.log == old(store.log) + saves
    && store.files - {run.runId} == old(store.files) - {run.runId}
    && Saved(store, run)
  }

  /** _execute_stage_real: bookkeeping around one executor invocation. */
  method ExecuteStage(run: Run, s: StageName, store: Store, res: ExecResult)
    requires run.Valid()
    modifies run.stages[s], store
    ensures Persists(store, run, ExecSaves(old(run.Value()), s, res))
  {
    ghost var r, log := run.Value(), store.log;
    StartStage(run, s);
    store.SaveRun(run);
    assert run.Value() == Start(r, s) && store.log == log + [Start(r, s)];
    SettleStage(run, s, res);
    assert run.Value() == After(r, s, res);
    store.SaveRun(run);
    Joins(log, [Start(r, s)], [After(r, s, res)]);
  }

  method ResetRunLevel(run: Run)
    requires run.Valid()
    modifies run.stages
    ensures run.Value() == Reset(old(run.Value()))
  {
    ghost var r := run.Value();
    for s := 0 to ENGINE_SELECT + 1
      invariant run.Value() == r.(stages := run.Value().stages)
      invariant forall k: StageName :: (run.stages[k].Value() ==
        (if k < s && !r.stages[k].status.OK? then r.stages[k].(status := PENDING, error := None) else r.stages[k]))
    {
      var info := run.stages[s];
      assert forall k: StageName :: k != s ==> run.stages[k] != info;
      if !info.status.OK? {
        info.status := PENDING;
        info.error := None;
      }
    }
    assert run.Value().stages == Reset(r).stages;
  }

  method Begin(run: Run, store: Store)
    requires run.Valid()
    modifies run`status, run.stages, store
    ensures Persists(store, run, Opening(old(run.Value())))
  {
    run.status := RUN_IN_PROGRESS;
    ghost var r, log := Begun(old(run.Value())), store.log;
    assert run.Value() == r;
    store.SaveRun(run);
    assert run.Value() == r && store.log == log + [r];
    if NeedsFullRestart(run.Value()) {
      ResetRunLevel(run);
      store.SaveRun(run);
      assert run.Value() == Reset(r);
      assert Opening(old(run.Value())) == [r] + [Reset(r)];
      Joins(log, [r], [Reset(r)]);
      assert store.log == log + [r] + [Reset(r)];
    } else {
      assert Opening(old(run.Value())) == [r] + [];
    }
  }

  method Finish(run: Run, store: Store, status: RunStatus, reason: Option<string>)
    requires run.Valid()
    modifies run`status, run`failureReason, store
    ensures Persists(store, run, [old(run.Value()).(status := status,
              failureReason := if reason.Some? then reason else old(run.Value()).failureReason)])
  {
    run.status := status;
    if reason.Some? {
      run.failureReason := reason;
    }
    assert run.Value().stages == old(run.Value()).stages;
    store.SaveRun(run);
  }

  method FinishSkipped(run: Run, store: Store, s: StageName, res: ExecResult, exec: Exec, n: nat)
    requires run.Valid() && res.Unable?
    modifies run`status, run`failureReason, run.stages[CLEANUP], store
    ensures Persists(store, run, AbortSaves(old(run.Value()), s, res, exec, n))
  {
    Finish(run, store, RUN_ABORTED, Some(SkipText(s, res)));
    var cleanup := run.Value().stages[CLEANUP].status;
    if s != CLEANUP && !cleanup.OK? && !cleanup.SKIPPED? {
      ExecuteStage(run, CLEANUP, store, exec(n, CLEANUP));
    }
  }

  method FinishFailed(run: Run, store: Store, s: StageName, res: ExecResult, exec: Exec, n: nat)
    requires run.Valid()
    modifies run`status, run`failureReason, run.stages[CLEANUP], store
    ensures Persists(store, run, FailSaves(old(run.Value()), s, res, exec, n))
  {
    if s != CLEANUP && !run.Value().stages[CLEANUP].status.OK? {
      ExecuteStage(run, CLEANUP, store, exec(n, CLEANUP));
    }
    Finish(run, store, RUN_FAILED, Some(FailReason(res)));
  }

  /** One turn of the stage loop; `saves` is what it persisted. */
  method RunStage(run: Run, store: Store, k: StageName, exec: Exec, n: nat)
      returns (stop: bool, next: nat, ghost saves: seq<RunState>)
    requires run.Valid() && Saved(store, run)
    modifies run`status, run`failureReason, run.stages, store
    ensures Saved(store, run) && store.files - {run.runId} == old(store.files) - {run.runId}
    ensures store.log == old(store.log) + saves
    ensures stop ==> saves == FromStage(old(run.Value()), k, exec, n) && run.Value() == Last(saves)
    ensures !stop ==> FromStage(old(run.Value()), k, exec, n) == saves + FromStage(run.Value(), k + 1, exec, next)
  {
    ghost var r, log := run.Value(), store.log;
    next := n;
    if run.abortFlag {
      Finish(run, store, RUN_ABORTED, Some("abort_flag"));
      return true, next, [run.Value()];
    }
    if run.Value().stages[k].status.OK? {
      assert [] + FromStage(r, k + 1, exec, n) == FromStage(r, k + 1, exec, n);
      return false, next, [];
    }
    var res := exec(n, k);
    next := n + 1;
    ExecuteStage(run, k, store, res);
    saves := ExecSaves(r, k, res);
    ghost var tail := AfterStage(After(r, k, res), k, res, exec, next);
    Joins(log, saves, tail);
    if res.Unable? {
      FinishSkipped(run, store, k, res, exec, next);
      return true, next, saves + tail;
    }
    if !res.Done? {
      FinishFailed(run, store, k, res, exec, next);
      return true, next, saves + tail;
    }
    return false, next, saves;
  }

  lemma Joins(log: seq<RunState>, done: seq<RunState>, saves: seq<RunState>)
    ensures (log + done) + saves == log + (done + saves)
    ensures saves != [] ==> Last(done + saves) == Last(saves)
  {
  }

  /** run_pipeline persists exactly Call, leaves the run at its last state, and touches no other run. */
  method RunPipeline(run: Run, store: Store, exec: Exec)
    requires run.Valid()
    modifies run`status, run`failureReason, run.stages, store
    ensures store.log == old(store.log) + Call(old(run.Value()), exec)
    ensures run.Value() == Last(Call(old(run.Value()), exec))
    ensures Saved(store, run)
    ensures store.files - {run.runId} == old(store.files) - {run.runId}
  {
    ghost var total := Call(run.Value(), exec);
    ghost var before, done := store.log, Opening(run.Value());
    Begin(run, store);
    var n := 0;
    for k := 0 to STAGE_COUNT
      invariant store.log == before + done && Saved(store, run)
      invariant done + FromStage(run.Value(), k, exec, n) == total
      invariant store.files - {run.runId} == old(store.files) - {run.runId}
    {
      var stop, next, saves := RunStage(run, store, k, exec, n);
      Joins(before, done, saves);
      if stop {
        assert done + saves == total;
        return;
      }
      Joins(done, saves, FromStage(run.Value(), k + 1, exec, next));
      done := done + saves;
      n := next;
    }
    Finish(run, store, RUN_OK, None);
    Joins(before, done, [run.Value()]);
    assert done + [run.Value()] == total;
  }
}
