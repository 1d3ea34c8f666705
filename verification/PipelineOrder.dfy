/**
 What every persisted state of every sequence of run_pipeline calls satisfies, crashes included.
 */
module PipelineOrder {
  import opened StateMachine
  import opened Pipeline

  /** A stage other than CLEANUP has been touched only if every stage before it is OK, and a stage
      that is pending carries no error. In particular the OK stages other than CLEANUP form a
      prefix of the stage order. */
  ghost predicate Orderly(r: RunState) {
    && Whole(r)
    && (forall i: StageName, s: StageName :: i < s < CLEANUP && !r.stages[s].status.PENDING? ==> StageOk(r, i))
    && (forall s: StageName :: r.stages[s].status.PENDING? ==> r.stages[s].error.None?)
  }

  /** From one persisted state to the next: an OK stage is neither re-executed nor changed, and a
      stage is started at most once. */
  ghost predicate Advances(a: RunState, b: RunState) {
    && Whole(a) && Whole(b) && a.runId == b.runId && a.hfId == b.hfId && a.abortFlag == b.abortFlag
    && forall s: StageName ::
         && (StageOk(a, s) ==> b.stages[s] == a.stages[s])
         && a.stages[s].attempt <= b.stages[s].attempt <= a.stages[s].attempt + 1
  }

  function LastOr(r: RunState, saves: seq<RunState>): RunState {
    if saves == [] then r else Last(saves)
  }

  /** Every state in `saves` is orderly and advances from the one before it, starting with r. */
  ghost predicate Chain(r: RunState, saves: seq<RunState>)
    decreases saves
  {
    saves == [] || (Advances(r, saves[0]) && Orderly(saves[0]) && Chain(saves[0], saves[1..]))
  }

  lemma {:induction false} ChainAppend(r: RunState, a: seq<RunState>, b: seq<RunState>)
    requires Chain(r, a) && Chain(LastOr(r, a), b)
    ensures Chain(r, a + b)
    decreases a
  {
    if a == [] {
      assert a + b == b;
    } else {
      assert (a + b)[1..] == a[1..] + b;
      ChainAppend(a[0], a[1..], b);
    }
  }

  lemma {:induction false} ChainPrefix(r: RunState, saves: seq<RunState>, n: nat)
    requires Chain(r, saves) && n <= |saves|
    ensures Chain(r, saves[..n])
    decreases n
  {
    if n > 0 {
      ChainPrefix(saves[0], saves[1..], n - 1);
      assert saves[..n][1..] == saves[1..][..n - 1];
    }
  }

  lemma {:induction false} ChainOrderly(r: RunState, saves: seq<RunState>)
    requires Orderly(r) && Chain(r, saves)
    ensures Orderly(LastOr(r, saves))
    decreases saves
  {
    if |saves| > 1 {
      ChainOrderly(saves[0], saves[1..]);
    }
  }

  /** Every stage before k is OK. */
  ghost predicate Upto(r: RunState, k: nat) {
    Whole(r) && k <= STAGE_COUNT && forall i: StageName :: i < k ==> StageOk(r, i)
  }

  lemma UptoAfter(r: RunState, k: StageName, res: ExecResult)
    requires Upto(r, k) && res.Done?
    ensures Upto(After(r, k, res), k + 1)
  {
    forall i: StageName | i < k + 1
      ensures StageOk(After(r, k, res), i)
    {
      assert i < k ==> StageOk(r, i);
    }
  }

  lemma ExecChain(r: RunState, s: StageName, res: ExecResult)
    requires Orderly(r) && !StageOk(r, s) && (Upto(r, s) || s == CLEANUP)
    ensures Chain(r, ExecSaves(r, s, res)) && Orderly(After(r, s, res))
  {
    var a, b := Start(r, s), After(r, s, res);
    assert Advances(r, a) && Advances(a, b);
    OrderlyWith(r, s, a);
    OrderlyWith(r, s, b);
    assert [a, b][1..] == [b];
  }

  /** Touching a stage that is due, and no other, keeps a run orderly. */
  lemma OrderlyWith(r: RunState, s: StageName, r': RunState)
    requires Orderly(r) && Whole(r') && !StageOk(r, s) && (Upto(r, s) || s == CLEANUP)
    requires !r'.stages[s].status.PENDING? && forall i: StageName :: i != s ==> r'.stages[i] == r.stages[i]
    ensures Orderly(r')
  {
    forall i: StageName, j: StageName | i < j < CLEANUP && !r'.stages[j].status.PENDING?
      ensures StageOk(r', i)
    {
      if j == s {
        assert StageOk(r, i) && r'.stages[i] == r.stages[i];
      } else {
        assert r'.stages[j] == r.stages[j];
        assert StageOk(r, i) && i != s;
      }
    }
  }

  lemma MarkChain(r: RunState, r': RunState)
    requires Orderly(r) && r'.stages == r.stages && r'.runId == r.runId && r'.hfId == r.hfId
    requires r'.abortFlag == r.abortFlag
    ensures Advances(r, r') && Orderly(r') && Chain(r, [r'])
  {
    assert forall s: StageName :: StageOk(r, s) <==> StageOk(r', s);
  }

  lemma AbortChain(r: RunState, s: StageName, res: ExecResult, exec: Exec, n: nat)
    requires Orderly(r) && res.Unable?
    ensures Chain(r, AbortSaves(r, s, res, exec, n))
  {
    var r' := Abort(r, SkipText(s, res));
    MarkChain(r, r');
    if CleansOnAbort(r', s) {
      ExecChain(r', CLEANUP, exec(n, CLEANUP));
      ChainAppend(r, [r'], ExecSaves(r', CLEANUP, exec(n, CLEANUP)));
    } else {
      assert [r'] + [] == [r'];
    }
  }

  lemma FailChain(r: RunState, s: StageName, res: ExecResult, exec: Exec, n: nat)
    requires Orderly(r)
    ensures Chain(r, FailSaves(r, s, res, exec, n))
  {
    if CleansOnFailure(r, s) {
      var c := After(r, CLEANUP, exec(n, CLEANUP));
      ExecChain(r, CLEANUP, exec(n, CLEANUP));
      MarkChain(c, Fail(c, FailReason(res)));
      ChainAppend(r, ExecSaves(r, CLEANUP, exec(n, CLEANUP)), [Fail(c, FailReason(res))]);
    } else {
      MarkChain(r, Fail(r, FailReason(res)));
    }
  }

  lemma {:induction false} FromStageChain(r: RunState, k: nat, exec: Exec, n: nat)
    requires Orderly(r) && Upto(r, k)
    ensures Chain(r, FromStage(r, k, exec, n))
    decreases STAGE_COUNT - k
  {
    if k == STAGE_COUNT {
      MarkChain(r, r.(status := RUN_OK));
    } else if r.abortFlag {
      MarkChain(r, Abort(r, "abort_flag"));
    } else if StageOk(r, k) {
      FromStageChain(r, k + 1, exec, n);
    } else {
      var res := exec(n, k);
      var r' := After(r, k, res);
      ExecChain(r, k, res);
      match res {
        case Done(_) =>
          UptoAfter(r, k, res);
          FromStageChain(r', k + 1, exec, n + 1);
        case Unable(_, _) => AbortChain(r', k, res, exec, n + 1);
        case _ => FailChain(r', k, res, exec, n + 1);
      }
      ChainAppend(r, ExecSaves(r, k, res), AfterStage(r', k, res, exec, n + 1));
    }
  }

  lemma ResetChain(r: RunState)
    requires Orderly(r)
    ensures Orderly(Reset(r)) && Chain(r, [Reset(r)])
  {
    assert forall s: StageName :: StageOk(r, s) <==> StageOk(Reset(r), s);
    assert forall s: StageName :: r.stages[s].status.PENDING? ==> Reset(r).stages[s].status.PENDING?;
  }

  lemma OpeningChain(r: RunState)
    requires Orderly(r)
    ensures Chain(r, Opening(r)) && Last(Opening(r)) == Restarted(Begun(r)) && Orderly(Restarted(Begun(r)))
  {
    MarkChain(r, Begun(r));
    if NeedsFullRestart(Begun(r)) {
      ResetChain(Begun(r));
      ChainAppend(r, [Begun(r)], [Reset(Begun(r))]);
    } else {
      assert [Begun(r)] + [] == [Begun(r)];
    }
  }

  lemma CallChain(r: RunState, exec: Exec)
    requires Orderly(r)
    ensures Chain(r, Call(r, exec))
  {
    OpeningChain(r);
    FromStageChain(Restarted(Begun(r)), 0, exec, 0);
    ChainAppend(r, Opening(r), FromStage(Restarted(Begun(r)), 0, exec, 0));
  }

  // ---------- over all runs ----------

  /** A process that handles the run with some executor and dies after `cut` saves, or finishes. */
  datatype Session = Session(exec: Exec, cut: nat)

  function Kept(r: RunState, s: Session): seq<RunState>
    requires Whole(r)
  {
    var saves := Call(r, s.exec);
    if s.cut < |saves| then saves[..s.cut] else saves
  }

  /** What the next process reads from state.json. */
  function Reloaded(r: RunState): (r': RunState)
    requires Whole(r)
    ensures r' == r
  {
    JsonRoundTrip(r);
    FromJson(ToJson(r)).value
  }

  /** Everything persisted over a sequence of sessions, each resuming from the last save. */
  function History(r: RunState, sessions: seq<Session>): seq<RunState>
    requires Orderly(r)
    decreases sessions
  {
    if sessions == [] then []
    else
      var kept := Kept(r, sessions[0]);
      CallChain(r, sessions[0].exec);
      ChainPrefix(r, Call(r, sessions[0].exec), |kept|);
      ChainOrderly(r, kept);
      kept + History(Reloaded(LastOr(r, kept)), sessions[1..])
  }

  lemma {:induction false} HistoryChain(r: RunState, sessions: seq<Session>)
    requires Orderly(r)
    ensures Chain(r, History(r, sessions))
    decreases sessions
  {
    if sessions != [] {
      var kept := Kept(r, sessions[0]);
      CallChain(r, sessions[0].exec);
      ChainPrefix(r, Call(r, sessions[0].exec), |kept|);
      ChainOrderly(r, kept);
      HistoryChain(LastOr(r, kept), sessions[1..]);
      ChainAppend(r, kept, History(LastOr(r, kept), sessions[1..]));
    }
  }

  lemma {:induction false} ChainAt(r: RunState, saves: seq<RunState>, j: nat)
    requires Whole(r) && Chain(r, saves) && j < |saves|
    ensures Orderly(saves[j])
    ensures forall s: StageName :: StageOk(r, s) ==> saves[j].stages[s] == r.stages[s]
    decreases j
  {
    if j > 0 {
      ChainAt(saves[0], saves[1..], j - 1);
    }
  }

  lemma {:induction false} ChainFrom(r: RunState, saves: seq<RunState>, i: nat)
    requires Chain(r, saves) && i < |saves|
    ensures Chain(saves[i], saves[i + 1..])
    decreases i
  {
    if i > 0 {
      ChainFrom(saves[0], saves[1..], i - 1);
    }
  }

  lemma ChainKeeps(r: RunState, saves: seq<RunState>, i: nat, j: nat, s: StageName)
    requires Orderly(r) && Chain(r, saves) && i <= j < |saves|
    ensures Whole(saves[i]) && Whole(saves[j])
    ensures StageOk(saves[i], s) ==> saves[j].stages[s] == saves[i].stages[s]
  {
    ChainAt(r, saves, i);
    if i < j {
      ChainFrom(r, saves, i);
      ChainAt(saves[i], saves[i + 1..], j - i - 1);
    }
  }

  ghost predicate Initial(r: RunState) {
    Whole(r) && forall s: StageName :: r.stages[s] == FRESH_INFO
  }

  lemma InitialOrderly(r: RunState)
    requires Initial(r)
    ensures Orderly(r)
  {
  }

  /** At every save, over every sequence of calls and crashes, the OK stages other than CLEANUP form
      a prefix of the stage order. */
  lemma OkIsPrefix(r: RunState, sessions: seq<Session>, i: nat, p: StageName, q: StageName)
    requires Orderly(r) && i < |History(r, sessions)| && p < q < CLEANUP
    ensures Whole(History(r, sessions)[i])
    ensures StageOk(History(r, sessions)[i], q) ==> StageOk(History(r, sessions)[i], p)
  {
    HistoryChain(r, sessions);
    ChainAt(r, History(r, sessions), i);
  }

  /** And a stage once OK keeps its record, attempt count included, for ever after. */
  lemma OkForever(r: RunState, sessions: seq<Session>, i: nat, j: nat, s: StageName)
    requires Orderly(r) && i <= j < |History(r, sessions)|
    ensures Whole(History(r, sessions)[i]) && Whole(History(r, sessions)[j])
    ensures StageOk(History(r, sessions)[i], s) ==>
      History(r, sessions)[j].stages[s] == History(r, sessions)[i].stages[s]
  {
    HistoryChain(r, sessions);
    ChainKeeps(r, History(r, sessions), i, j, s);
  }

  // ---------- within one call ----------

  /** Started at most once; stages before k not at all. */
  ghost predicate StartedOnce(r: RunState, b: RunState, k: nat) {
    && Whole(r) && Whole(b)
    && forall s: StageName ::
         && r.stages[s].attempt <= b.stages[s].attempt <= r.stages[s].attempt + 1
         && (s < k ==> b.stages[s].attempt == r.stages[s].attempt)
  }

  ghost predicate AllOnce(r: RunState, saves: seq<RunState>, k: nat) {
    forall j :: 0 <= j < |saves| ==> StartedOnce(r, saves[j], k)
  }

  /** After a stop at stage k only CLEANUP may still be started, and not if k was CLEANUP itself. */
  lemma TailOnce(r: RunState, k: StageName, res: ExecResult, exec: Exec, n: nat)
    requires Whole(r) && !res.Done?
    ensures AllOnce(r, AfterStage(r, k, res, exec, n), if k < CLEANUP then CLEANUP else STAGE_COUNT)
  {
    if res.Unable? {
      AbortOnce(r, k, res, exec, n);
    } else {
      FailOnce(r, k, res, exec, n);
    }
  }

  lemma AbortOnce(r: RunState, k: StageName, res: ExecResult, exec: Exec, n: nat)
    requires Whole(r) && res.Unable?
    ensures AllOnce(r, AbortSaves(r, k, res, exec, n), if k < CLEANUP then CLEANUP else STAGE_COUNT)
  {
  }

  lemma FailOnce(r: RunState, k: StageName, res: ExecResult, exec: Exec, n: nat)
    requires Whole(r)
    ensures AllOnce(r, FailSaves(r, k, res, exec, n), if k < CLEANUP then CLEANUP else STAGE_COUNT)
  {
  }

  /** Stage k was started before the saves, which start none of the stages up to k. */
  lemma OnceMore(r: RunState, k: StageName, res: ExecResult, saves: seq<RunState>)
    requires Whole(r) && AllOnce(After(r, k, res), saves, k + 1)
    ensures AllOnce(r, ExecSaves(r, k, res) + saves, k)
  {
    var all := ExecSaves(r, k, res) + saves;
    forall j | 0 <= j < |all|
      ensures StartedOnce(r, all[j], k)
    {
      if j >= 2 {
        assert all[j] == saves[j - 2];
        assert StartedOnce(After(r, k, res), all[j], k + 1);
      }
    }
  }

  lemma {:induction false} FromStageOnce(r: RunState, k: nat, exec: Exec, n: nat)
    requires Whole(r) && k <= STAGE_COUNT
    ensures AllOnce(r, FromStage(r, k, exec, n), k)
    decreases STAGE_COUNT - k
  {
    if k == STAGE_COUNT || r.abortFlag {
    } else if StageOk(r, k) {
      FromStageOnce(r, k + 1, exec, n);
    } else {
      var res := exec(n, k);
      var r' := After(r, k, res);
      if res.Done? {
        FromStageOnce(r', k + 1, exec, n + 1);
      } else {
        TailOnce(r', k, res, exec, n + 1);
      }
      OnceMore(r, k, res, AfterStage(r', k, res, exec, n + 1));
    }
  }

  /** No stage is started twice in one call. */
  lemma CallStartsOnce(r: RunState, exec: Exec)
    requires Whole(r)
    ensures AllOnce(r, Call(r, exec), 0)
  {
    FromStageOnce(Restarted(Begun(r)), 0, exec, 0);
  }

  lemma {:induction false} FromStageVerdict(r: RunState, k: nat, exec: Exec, n: nat)
    requires Upto(r, k)
    ensures var last := Last(FromStage(r, k, exec, n));
      && Whole(last) && last.abortFlag == r.abortFlag && last.status in {RUN_OK, RUN_FAILED, RUN_ABORTED}
      && (k < STAGE_COUNT && r.abortFlag ==> last.status == RUN_ABORTED)
      && (k == STAGE_COUNT || !r.abortFlag ==> (last.status == RUN_OK <==> Upto(last, STAGE_COUNT)))
    decreases STAGE_COUNT - k
  {
    if k == STAGE_COUNT {
      assert forall i: StageName :: StageOk(r.(status := RUN_OK), i) <==> StageOk(r, i);
    } else if r.abortFlag {
    } else if StageOk(r, k) {
      FromStageVerdict(r, k + 1, exec, n);
    } else {
      var res := exec(n, k);
      var r' := After(r, k, res);
      if res.Done? {
        UptoAfter(r, k, res);
        FromStageVerdict(r', k + 1, exec, n + 1);
      } else {
        assert !StageOk(r', k);
        StopVerdict(r', k, res, exec, n + 1);
      }
    }
  }

  lemma StopVerdict(r: RunState, k: StageName, res: ExecResult, exec: Exec, n: nat)
    requires Whole(r) && !StageOk(r, k) && !res.Done?
    ensures var last := Last(AfterStage(r, k, res, exec, n));
      && Whole(last) && last.abortFlag == r.abortFlag && last.status in {RUN_FAILED, RUN_ABORTED}
      && !StageOk(last, k)
  {
  }

  /** A call ends OK exactly when all eleven stages are OK and the abort flag is down. */
  lemma CallVerdict(r: RunState, exec: Exec)
    requires Whole(r)
    ensures var last := Last(Call(r, exec));
      && last.status in {RUN_OK, RUN_FAILED, RUN_ABORTED}
      && (last.status == RUN_OK <==> Upto(last, STAGE_COUNT) && !last.abortFlag)
  {
    FromStageVerdict(Restarted(Begun(r)), 0, exec, 0);
  }
}
