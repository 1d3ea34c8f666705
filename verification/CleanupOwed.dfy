/**
 When a run's deployment is cleaned up: by one call, over crashes and resumed calls, and the crashes
 that defeat it.
 */
module CleanupOwed {
  import opened StateMachine
  import opened Pipeline
  import opened PipelineOrder
  import opened CrashResume

  // ---------- one call ----------

  /** Told before the call: from stage k on, the first stage before CLEANUP that does not succeed is
      gracefully skipped. Of the run, only which stages are OK matters. */
  ghost predicate GivesUp(r: RunState, k: nat, exec: Exec, n: nat)
    requires Whole(r)
    decreases STAGE_COUNT - k, r
  {
    && k < CLEANUP
    && if StageOk(r, k) then GivesUp(r, k + 1, exec, n)
       else if exec(n, k).Done? then GivesUp(r, k + 1, exec, n + 1)
       else exec(n, k).Unable?
  }

  lemma {:induction false} GivesUpAlike(a: RunState, b: RunState, k: nat, exec: Exec, n: nat)
    requires Whole(a) && Whole(b) && forall s: StageName :: k <= s ==> (StageOk(a, s) <==> StageOk(b, s))
    ensures GivesUp(a, k, exec, n) <==> GivesUp(b, k, exec, n)
    decreases STAGE_COUNT - k
  {
    if k < CLEANUP {
      GivesUpAlike(a, b, k + 1, exec, n);
      GivesUpAlike(a, b, k + 1, exec, n + 1);
    }
  }

  /** Whether the call executes CLEANUP, told from the state before it and its executors. */
  ghost predicate CleansUp(r: RunState, k: nat, exec: Exec, n: nat)
    requires Whole(r)
  {
    !StageOk(r, CLEANUP) && !(r.stages[CLEANUP].status.SKIPPED? && GivesUp(r, k, exec, n))
  }

  ghost predicate ExecutedBetween(a: RunState, b: RunState, s: StageName)
    requires Whole(a) && Whole(b)
  {
    b.stages[s].attempt == a.stages[s].attempt + 1
  }

  /** Since state a, CLEANUP has been executed to its end. */
  ghost predicate Cleaned(a: RunState, b: RunState)
    requires Whole(a) && Whole(b)
  {
    b.stages[CLEANUP].attempt > a.stages[CLEANUP].attempt && !b.stages[CLEANUP].status.IN_PROGRESS?
  }

  /** The last turn of the stage loop: CLEANUP itself, and then the verdict. */
  lemma AtCleanup(r: RunState, exec: Exec, n: nat)
    requires Whole(r) && !r.abortFlag && !StageOk(r, CLEANUP)
    ensures var done, saves := After(r, CLEANUP, exec(n, CLEANUP)), FromStage(r, CLEANUP, exec, n);
      && |saves| == 3 && saves[0] == Start(r, CLEANUP) && saves[1] == done && saves[2].stages == done.stages
      && saves[2].status ==
           match exec(n, CLEANUP) { case Done(_) => RUN_OK case Unable(_, _) => RUN_ABORTED case _ => RUN_FAILED }
  {
    var done := After(r, CLEANUP, exec(n, CLEANUP));
    assert FromStage(done, STAGE_COUNT, exec, n + 1) == [done.(status := RUN_OK)];
  }

  lemma {:induction false} FromStageCleansUp(r: RunState, k: nat, exec: Exec, n: nat)
    requires Whole(r) && k <= CLEANUP && !r.abortFlag
    ensures CleansAsTold(r, Last(FromStage(r, k, exec, n)), CleansUp(r, k, exec, n))
    decreases CLEANUP - k
  {
    if StageOk(r, k) {
      if k < CLEANUP {
        FromStageCleansUp(r, k + 1, exec, n);
      }
    } else if k == CLEANUP {
      AtCleanup(r, exec, n);
    } else if exec(n, k).Done? {
      var r' := After(r, k, exec(n, k));
      FromStageCleansUp(r', k + 1, exec, n + 1);
      GivesUpAlike(r, r', k + 1, exec, n + 1);
      LastGoesOn(r, k, exec, n);
    } else {
      StopCleansUp(After(r, k, exec(n, k)), k, exec(n, k), exec, n + 1);
    }
  }

  /** Whether CLEANUP was executed to its end or left alone between a and b is as told. */
  ghost predicate CleansAsTold(a: RunState, b: RunState, told: bool)
    requires Whole(a)
  {
    && Whole(b)
    && if told then ExecutedBetween(a, b, CLEANUP) && !b.stages[CLEANUP].status.IN_PROGRESS?
       else b.stages[CLEANUP] == a.stages[CLEANUP]
  }

  lemma LastGoesOn(r: RunState, k: StageName, exec: Exec, n: nat)
    requires Whole(r) && !r.abortFlag && !StageOk(r, k) && exec(n, k).Done?
    ensures Last(FromStage(r, k, exec, n)) == Last(FromStage(After(r, k, exec(n, k)), k + 1, exec, n + 1))
  {
  }

  lemma StopCleansUp(r: RunState, k: StageName, res: ExecResult, exec: Exec, n: nat)
    requires Whole(r) && k < CLEANUP && !res.Done?
    ensures CleansAsTold(r, Last(AfterStage(r, k, res, exec, n)),
                         !StageOk(r, CLEANUP) && !(r.stages[CLEANUP].status.SKIPPED? && res.Unable?))
  {
  }

  /** An uninterrupted call on a run whose abort flag is down executes CLEANUP exactly unless CLEANUP
      was OK before, or was SKIPPED before and an earlier stage is the first to stop, by a skip. */
  lemma CallCleansUp(r: RunState, exec: Exec)
    requires Whole(r) && !r.abortFlag
    ensures Whole(Final(r, exec))
    ensures ExecutedBetween(r, Final(r, exec), CLEANUP) <==> CleansUp(r, 0, exec, 0)
    ensures Cleaned(r, Final(r, exec)) <==> CleansUp(r, 0, exec, 0)
  {
    FinalIs(r, exec);
    FromStageCleansUp(Restarted(Begun(r)), 0, exec, 0);
    GivesUpAlike(r, Restarted(Begun(r)), 0, exec, 0);
  }

  /** With the abort flag up, nothing is executed: not CLEANUP either. */
  lemma FlaggedExecutesNothing(r: RunState, exec: Exec, s: StageName)
    requires Whole(r) && r.abortFlag
    ensures Whole(Final(r, exec)) && Final(r, exec).status == RUN_ABORTED
    ensures Final(r, exec).stages[s].attempt == r.stages[s].attempt
  {
    FinalIs(r, exec);
  }

  /** Once CLEANUP has started, no other stage is touched by that call. */
  ghost predicate CleanupLast(r: RunState, saves: seq<RunState>) {
    forall i, j :: 0 <= i <= j < |saves| ==>
      && Whole(r) && Whole(saves[i]) && Whole(saves[j])
      && (saves[i].stages[CLEANUP].attempt > r.stages[CLEANUP].attempt ==>
            saves[j].stages[..CLEANUP] == saves[i].stages[..CLEANUP])
  }

  lemma {:induction false} FromStageCleanupLast(r: RunState, k: nat, exec: Exec, n: nat)
    requires Whole(r) && k <= STAGE_COUNT
    ensures CleanupLast(r, FromStage(r, k, exec, n))
    decreases STAGE_COUNT - k
  {
    if k < STAGE_COUNT && !r.abortFlag {
      if StageOk(r, k) {
        FromStageCleanupLast(r, k + 1, exec, n);
      } else {
        var res := exec(n, k);
        var r' := After(r, k, res);
        if k < CLEANUP {
          if res.Done? {
            FromStageCleanupLast(r', k + 1, exec, n + 1);
          } else {
            StopCleanupLast(r', k, res, exec, n + 1);
          }
        } else {
          AtCleanup(r, exec, n);
        }
      }
    }
  }

  lemma StopCleanupLast(r: RunState, k: StageName, res: ExecResult, exec: Exec, n: nat)
    requires Whole(r) && !res.Done?
    ensures CleanupLast(r, AfterStage(r, k, res, exec, n))
  {
    if res.Unable? {
      AbortCleanupLast(r, k, res, exec, n);
    } else {
      FailCleanupLast(r, k, res, exec, n);
    }
  }

  lemma AbortCleanupLast(r: RunState, k: StageName, res: ExecResult, exec: Exec, n: nat)
    requires Whole(r) && res.Unable?
    ensures CleanupLast(r, AbortSaves(r, k, res, exec, n))
  {
  }

  lemma FailCleanupLast(r: RunState, k: StageName, res: ExecResult, exec: Exec, n: nat)
    requires Whole(r)
    ensures CleanupLast(r, FailSaves(r, k, res, exec, n))
  {
  }

  lemma CallCleanupLast(r: RunState, exec: Exec)
    requires Whole(r)
    ensures CleanupLast(r, Call(r, exec))
  {
    FromStageCleanupLast(Restarted(Begun(r)), 0, exec, 0);
  }

  // ---------- the window ----------

  /** CLEANUP will not be executed again by itself: it is OK, or it was gracefully skipped. */
  predicate Spent(i: Info) {
    i.status.OK? || i.status.SKIPPED?
  }

  /** A class of CLEANUP records that only a settled, unfailed CLEANUP has. */
  type Mark = Info -> bool

  ghost predicate Fresh(mark: Mark, r: RunState)
    requires Whole(r)
  {
    !mark(r.stages[CLEANUP]) && forall i: Info :: mark(i) ==> Spent(i)
  }

  /** The j-th save is the one before a failure is recorded, and CLEANUP is marked in it. */
  ghost predicate Window(saves: seq<RunState>, j: nat, mark: Mark) {
    && |saves| >= 2 && j == |saves| - 2 && Last(saves).status == RUN_FAILED
    && Whole(Last(saves)) && mark(Last(saves).stages[CLEANUP])
  }

  /** CLEANUP is marked, though a stage before it is not OK. */
  ghost predicate MarkedEarly(z: RunState, mark: Mark) {
    Whole(z) && mark(z.stages[CLEANUP]) && !Upto(z, CLEANUP)
  }

  lemma {:induction false} ShortTail(r: RunState, k: nat, exec: Exec, n: nat)
    requires Whole(r) && k <= STAGE_COUNT && |FromStage(r, k, exec, n)| == 1
    ensures FromStage(r, k, exec, n)[0].stages == r.stages
    decreases STAGE_COUNT - k
  {
    if k < STAGE_COUNT && !r.abortFlag && StageOk(r, k) {
      ShortTail(r, k + 1, exec, n);
    }
  }

  lemma CleanupWindow(r: RunState, exec: Exec, n: nat, j: nat, mark: Mark)
    requires Upto(r, CLEANUP) && !StageOk(r, CLEANUP) && !r.abortFlag && Fresh(mark, r)
    requires j < |FromStage(r, CLEANUP, exec, n)|
    ensures var saves := FromStage(r, CLEANUP, exec, n);
      !MarkedEarly(saves[j], mark) && !Window(saves, j, mark)
  {
    AtCleanup(r, exec, n);
    var z := FromStage(r, CLEANUP, exec, n)[j];
    assert forall i: StageName :: i < CLEANUP ==> StageOk(r, i) && z.stages[i] == r.stages[i];
  }

  lemma FailureWindow(r: RunState, k: StageName, res: ExecResult, exec: Exec, n: nat, j: nat, mark: Mark)
    requires Whole(r) && k < CLEANUP && !StageOk(r, k) && r.status == RUN_IN_PROGRESS && Fresh(mark, r)
    requires j < |FailSaves(r, k, res, exec, n)| && FailSaves(r, k, res, exec, n)[j].status == RUN_IN_PROGRESS
    ensures var saves := FailSaves(r, k, res, exec, n);
      MarkedEarly(saves[j], mark) <==> Window(saves, j, mark)
  {
    var saves := FailSaves(r, k, res, exec, n);
    assert |saves| == 3;
    assert !StageOk(saves[j], k);
  }

  lemma {:induction false} FromStageWindowOnly(r: RunState, k: nat, exec: Exec, n: nat, j: nat, mark: Mark)
    requires Upto(r, k) && k <= CLEANUP && !r.abortFlag && r.status == RUN_IN_PROGRESS && Fresh(mark, r)
    requires j < |FromStage(r, k, exec, n)| && FromStage(r, k, exec, n)[j].status == RUN_IN_PROGRESS
    ensures var saves := FromStage(r, k, exec, n);
      MarkedEarly(saves[j], mark) <==> Window(saves, j, mark)
    decreases CLEANUP - k
  {
    var saves := FromStage(r, k, exec, n);
    if StageOk(r, k) {
      if k < CLEANUP {
        FromStageWindowOnly(r, k + 1, exec, n, j, mark);
      }
    } else if k == CLEANUP {
      CleanupWindow(r, exec, n, j, mark);
    } else {
      StoppedWindow(r, k, exec, n, j, mark);
    }
  }

  lemma {:induction false} StoppedWindow(r: RunState, k: StageName, exec: Exec, n: nat, j: nat, mark: Mark)
    requires Upto(r, k) && k < CLEANUP && !StageOk(r, k) && !r.abortFlag && r.status == RUN_IN_PROGRESS
    requires Fresh(mark, r)
    requires j < |FromStage(r, k, exec, n)| && FromStage(r, k, exec, n)[j].status == RUN_IN_PROGRESS
    ensures var saves := FromStage(r, k, exec, n);
      MarkedEarly(saves[j], mark) <==> Window(saves, j, mark)
    decreases CLEANUP - k, 0
  {
    var res := exec(n, k);
    var r' := After(r, k, res);
    var saves, tail := FromStage(r, k, exec, n), AfterStage(r', k, res, exec, n + 1);
    assert saves == ExecSaves(r, k, res) + tail;
    assert Last(saves) == Last(tail);
    if j < 2 {
      assert saves[j] == ExecSaves(r, k, res)[j] && !mark(saves[j].stages[CLEANUP]);
      if |tail| == 1 && res.Done? {
        ShortTail(r', k + 1, exec, n + 1);
      }
    } else {
      assert saves[j] == tail[j - 2];
      if res.Done? {
        UptoAfter(r, k, res);
        FromStageWindowOnly(r', k + 1, exec, n + 1, j - 2, mark);
      } else {
        assert !res.Unable?;
        FailureWindow(r', k, res, exec, n + 1, j - 2, mark);
      }
    }
  }

  /** The window is the only one: among the saves at which the run can be resumed, CLEANUP is marked
      while an earlier stage is not OK exactly at the one before a failure is recorded. */
  lemma WindowIsOnly(r: RunState, exec: Exec, j: nat, mark: Mark)
    requires Whole(r) && Fresh(mark, r) && j < |Call(r, exec)| && Call(r, exec)[j].status == RUN_IN_PROGRESS
    ensures MarkedEarly(Call(r, exec)[j], mark) <==> Window(Call(r, exec), j, mark)
  {
    FinalIs(r, exec);
    var b := Restarted(Begun(r));
    var saves, tail := Call(r, exec), FromStage(b, 0, exec, 0);
    assert Last(saves) == Last(tail);
    if j < |Opening(r)| {
      assert saves[j] == Opening(r)[j] && saves[j].stages[CLEANUP] == r.stages[CLEANUP];
      if |tail| == 1 {
        ShortTail(b, 0, exec, 0);
      }
    } else {
      assert saves[j] == tail[j - |Opening(r)|];
      if !r.abortFlag {
        FromStageWindowOnly(b, 0, exec, 0, j - |Opening(r)|, mark);
      }
    }
  }

  /** What the crash window leaves behind: the run is still in progress, CLEANUP is already OK. */
  lemma FailedWindow(r: RunState, exec: Exec)
    requires Whole(r) && !StageOk(r, CLEANUP)
    requires Final(r, exec).status == RUN_FAILED && Whole(Final(r, exec)) && StageOk(Final(r, exec), CLEANUP)
    ensures var saves := Call(r, exec);
      |saves| >= 2 && saves[|saves| - 2].status == RUN_IN_PROGRESS
      && saves[|saves| - 2].stages == Final(r, exec).stages
  {
    FinalIs(r, exec);
    FromStageWindow(Restarted(Begun(r)), 0, exec, 0);
  }

  lemma {:induction false} FromStageWindow(r: RunState, k: nat, exec: Exec, n: nat)
    requires Upto(r, k) && k <= CLEANUP && !StageOk(r, CLEANUP) && r.status == RUN_IN_PROGRESS
    requires var last := Last(FromStage(r, k, exec, n));
      last.status == RUN_FAILED && Whole(last) && StageOk(last, CLEANUP)
    ensures var saves := FromStage(r, k, exec, n);
      |saves| >= 2 && saves[|saves| - 2].status == RUN_IN_PROGRESS && saves[|saves| - 2].stages == Last(saves).stages
    decreases CLEANUP - k
  {
    assert !r.abortFlag;
    if StageOk(r, k) {
      FromStageWindow(r, k + 1, exec, n);
    } else {
      var res := exec(n, k);
      var r' := After(r, k, res);
      if k == CLEANUP {
        AtCleanup(r, exec, n);
      } else if res.Done? {
        UptoAfter(r, k, res);
        FromStageWindow(r', k + 1, exec, n + 1);
      }
    }
  }

  /** A crash in that window defeats the cleanup: whatever executors run later, over however many
      calls, CLEANUP is never executed again, */
  lemma CleanedOnce(z: RunState, sessions: seq<Session>, i: nat)
    requires Orderly(z) && StageOk(z, CLEANUP) && i < |History(z, sessions)|
    ensures Whole(History(z, sessions)[i]) && History(z, sessions)[i].stages[CLEANUP] == z.stages[CLEANUP]
  {
    HistoryChain(z, sessions);
    ChainAt(z, History(z, sessions), i);
  }

  /** yet if the other stages now succeed, the run ends OK with each of them, DEPLOY included,
      executed after the last cleanup. */
  lemma {:induction false} FromStageAllDone(r: RunState, k: nat, d: Executor, n: nat)
    requires Upto(r, k) && !r.abortFlag && forall s: StageName :: d(s).Done?
    ensures var last := Last(FromStage(r, k, Fixed(d), n));
      && Whole(last) && last.status == RUN_OK
      && forall s: StageName :: if StageOk(r, s) then last.stages[s] == r.stages[s] else ExecutedBetween(r, last, s)
    decreases STAGE_COUNT - k
  {
    if k < STAGE_COUNT {
      if StageOk(r, k) {
        FromStageAllDone(r, k + 1, d, n);
      } else {
        UptoAfter(r, k, d(k));
        FromStageAllDone(After(r, k, d(k)), k + 1, d, n + 1);
      }
    }
  }

  /** A failed run that was cleaned up before its failure was recorded. */
  ghost predicate CleanedFailure(r: RunState) {
    r.status == RUN_FAILED && Whole(r) && StageOk(r, CLEANUP) && !StageOk(r, DEPLOY)
  }

  /** From a to b: the run came to its end, deploying but not cleaning up. */
  ghost predicate Leaks(a: RunState, b: RunState) {
    && Whole(a) && Whole(b) && b.status == RUN_OK
    && ExecutedBetween(a, b, DEPLOY) && b.stages[CLEANUP] == a.stages[CLEANUP]
  }

  lemma AllDoneEndsOk(z: RunState, d: Executor)
    requires Whole(z) && !z.abortFlag && !StageOk(z, DEPLOY) && StageOk(z, CLEANUP) && forall s: StageName :: d(s).Done?
    ensures Leaks(z, Final(z, Fixed(d)))
  {
    FinalIs(z, Fixed(d));
    FromStageAllDone(Restarted(Begun(z)), 0, d, 0);
  }

  lemma LeakAfterCrash(r: RunState, exec: Exec, d: Executor) returns (z: RunState)
    requires Orderly(r) && !r.abortFlag && !StageOk(r, CLEANUP)
    requires CleanedFailure(Final(r, exec))
    requires forall s: StageName :: d(s).Done?
    ensures z in Call(r, exec) && z.status == RUN_IN_PROGRESS && Orderly(z)
    ensures Leaks(z, Final(z, Fixed(d)))
  {
    FailedWindow(r, exec);
    CallChain(r, exec);
    z := WindowState(r, Call(r, exec));
    AllDoneEndsOk(z, d);
  }

  /** DEPLOY fails, everything else succeeds. */
  function DeployFails(): Executor {
    (s: StageName) => if s == DEPLOY then Wrong("") else Done([])
  }

  lemma {:induction false} FromStageFails(r: RunState, k: nat, n: nat)
    requires Whole(r) && k <= DEPLOY && !r.abortFlag && !StageOk(r, DEPLOY) && !StageOk(r, CLEANUP)
    ensures CleanedFailure(Last(FromStage(r, k, Fixed(DeployFails()), n)))
    decreases DEPLOY - k
  {
    if k < DEPLOY {
      if StageOk(r, k) {
        FromStageFails(r, k + 1, n);
      } else {
        LastGoesOn(r, k, Fixed(DeployFails()), n);
        FromStageFails(After(r, k, Done([])), k + 1, n + 1);
      }
    }
  }

  /** The window is reached: when the deployment of a new run fails and its cleanup succeeds, a crash on the
      save before the failure is recorded defeats the cleanup. */
  lemma WindowIsReached(r: RunState)
    requires Initial(r) && !r.abortFlag
    ensures var saves := Call(r, Fixed(DeployFails()));
      && CleanedFailure(Final(r, Fixed(DeployFails())))
      && |saves| >= 2 && Whole(saves[|saves| - 2]) && saves[|saves| - 2].status == RUN_IN_PROGRESS
      && Defeats(saves, |saves| - 2)
  {
    FinalIs(r, Fixed(DeployFails()));
    FromStageFails(Restarted(Begun(r)), 0, 0);
    FailedWindow(r, Fixed(DeployFails()));
  }

  /** And the resumed run leaks: it ends OK, deployed after its last cleanup. */
  lemma LeakIsReached(r: RunState) returns (z: RunState)
    requires Initial(r) && !r.abortFlag
    ensures z in Call(r, Fixed(DeployFails())) && z.status == RUN_IN_PROGRESS && Orderly(z)
    ensures Leaks(z, Final(z, Fixed(Spoiler(false))))
  {
    InitialOrderly(r);
    WindowIsReached(r);
    z := LeakAfterCrash(r, Fixed(DeployFails()), Spoiler(false));
  }

  lemma WindowState(r: RunState, saves: seq<RunState>) returns (z: RunState)
    requires Whole(r) && Chain(r, saves) && |saves| >= 2
    ensures z == saves[|saves| - 2] && z in saves && Orderly(z) && z.abortFlag == r.abortFlag
  {
    z := saves[|saves| - 2];
    ChainAt(r, saves, |saves| - 2);
    ChainAdvances(r, saves, |saves| - 2);
  }

  lemma {:induction false} ChainAdvances(r: RunState, saves: seq<RunState>, j: nat)
    requires Chain(r, saves) && j < |saves|
    ensures saves[j].abortFlag == r.abortFlag
    decreases j
  {
    if j > 0 {
      ChainAdvances(saves[0], saves[1..], j - 1);
    }
  }

  // ---------- over crashes ----------

  /** CLEANUP is still owed in b for a DEPLOY started since a, in the same call. */
  ghost predicate Owing(a: RunState, b: RunState)
    requires Whole(a) && Whole(b)
  {
    OwedAt(a, b, false)
  }

  /** The same if at a it may have been owed before. (In one call CLEANUP is executed last: see
      CallCleanupLast.) */
  ghost predicate OwedAt(a: RunState, b: RunState, owed: bool)
    requires Whole(a) && Whole(b)
  {
    !Cleaned(a, b) && (owed || b.stages[DEPLOY].attempt > a.stages[DEPLOY].attempt)
  }

  /** A call leaves CLEANUP's record alone or has started it, */
  ghost predicate Moved(r: RunState, saves: seq<RunState>) {
    forall j :: 0 <= j < |saves| ==>
      && Whole(r) && Whole(saves[j])
      && (saves[j].stages[CLEANUP] == r.stages[CLEANUP] || saves[j].stages[CLEANUP].attempt > r.stages[CLEANUP].attempt)
  }

  lemma {:induction false} FromStageMoved(r: RunState, k: nat, exec: Exec, n: nat)
    requires Whole(r) && k <= STAGE_COUNT
    ensures Moved(r, FromStage(r, k, exec, n))
    decreases STAGE_COUNT - k
  {
    if k < STAGE_COUNT && !r.abortFlag {
      if StageOk(r, k) {
        FromStageMoved(r, k + 1, exec, n);
      } else if k == CLEANUP {
        AtCleanup(r, exec, n);
      } else if exec(n, k).Done? {
        FromStageMoved(After(r, k, exec(n, k)), k + 1, exec, n + 1);
      }
    }
  }

  lemma CallMoved(r: RunState, exec: Exec)
    requires Whole(r)
    ensures Moved(r, Call(r, exec))
  {
    FromStageMoved(Restarted(Begun(r)), 0, exec, 0);
  }

  const IS_SPENT: Mark := (i: Info) => Spent(i)

  /** Nothing is owed that a later call would not make good. */
  ghost predicate Safe(r: RunState, owed: bool)
    requires Whole(r)
  {
    Spent(r.stages[CLEANUP]) ==> !owed && StageOk(r, DEPLOY)
  }

  /** A crash in the window, before DEPLOY is OK. */
  ghost predicate Defeats(saves: seq<RunState>, j: nat)
    requires j < |saves| && Whole(saves[j])
  {
    Window(saves, j, IS_SPENT) && !StageOk(saves[j], DEPLOY)
  }

  lemma CrashKeepsSafe(r: RunState, exec: Exec, j: nat, owed: bool)
    requires Orderly(r) && Safe(r, owed)
    requires j < |Call(r, exec)| && Whole(Call(r, exec)[j]) && Call(r, exec)[j].status == RUN_IN_PROGRESS
    requires !Defeats(Call(r, exec), j)
    ensures Safe(Call(r, exec)[j], OwedAt(r, Call(r, exec)[j], owed))
  {
    var z := Call(r, exec)[j];
    CallChain(r, exec);
    ChainAt(r, Call(r, exec), j);
    if !Spent(r.stages[CLEANUP]) && Spent(z.stages[CLEANUP]) {
      CallMoved(r, exec);
      WindowIsOnly(r, exec, j, IS_SPENT);
    }
  }

  lemma SafeEndsClean(r: RunState, exec: Exec, owed: bool)
    requires Orderly(r) && !r.abortFlag && Safe(r, owed)
    ensures Whole(Final(r, exec)) && !OwedAt(r, Final(r, exec), owed)
  {
    CallCleansUp(r, exec);
    CallChain(r, exec);
    ChainAt(r, Call(r, exec), |Call(r, exec)| - 1);
  }

  /** A run survives crashes, one per session, each at a save at which it is in progress, and is resumed
      with that save's state; `owed` tells whether CLEANUP is owed before, `left` whether it is after. */
  ghost predicate Survives(r: RunState, sessions: seq<Session>, owed: bool, z: RunState, left: bool)
    requires Whole(r)
    decreases sessions
  {
    if sessions == [] then z == r && left == owed
    else
      var saves, cut := Call(r, sessions[0].exec), sessions[0].cut;
      && cut < |saves| && Whole(saves[cut]) && saves[cut].status == RUN_IN_PROGRESS
      && Survives(Reloaded(saves[cut]), sessions[1..], OwedAt(r, saves[cut], owed), z, left)
  }

  ghost predicate NoneDefeats(r: RunState, sessions: seq<Session>)
    requires Whole(r)
    decreases sessions
  {
    sessions == [] ||
    var saves, cut := Call(r, sessions[0].exec), sessions[0].cut;
    cut < |saves| && Whole(saves[cut]) ==> !Defeats(saves, cut) && NoneDefeats(Reloaded(saves[cut]), sessions[1..])
  }

  /** However often a run crashes and whatever its executors do, if no crash defeats the cleanup, the
      call that comes to its end leaves nothing owed. */
  lemma {:induction false} CrashesCleanUp(r: RunState, sessions: seq<Session>, owed: bool, z: RunState, left: bool,
                                          exec: Exec)
    requires Orderly(r) && !r.abortFlag && Safe(r, owed)
    requires Survives(r, sessions, owed, z, left) && NoneDefeats(r, sessions)
    ensures Whole(z) && Whole(Final(z, exec)) && !OwedAt(z, Final(z, exec), left)
    decreases sessions
  {
    if sessions == [] {
      SafeEndsClean(r, exec, owed);
    } else {
      var saves, cut := Call(r, sessions[0].exec), sessions[0].cut;
      CrashKeepsSafe(r, sessions[0].exec, cut, owed);
      CallChain(r, sessions[0].exec);
      ChainAt(r, saves, cut);
      ChainAdvances(r, saves, cut);
      CrashesCleanUp(saves[cut], sessions[1..], OwedAt(r, saves[cut], owed), z, left, exec);
    }
  }

  /** Every stage succeeds, but READY_WAIT if `skips` is gracefully skipped. */
  function Spoiler(skips: bool): Executor {
    (s: StageName) => if skips && s == READY_WAIT then Unable("", "") else Done([])
  }

  lemma {:induction false} FromStageSpoils(r: RunState, k: nat, n: nat)
    requires Whole(r) && k <= READY_WAIT && !r.abortFlag && r.stages[CLEANUP].status.SKIPPED? && !StageOk(r, READY_WAIT)
    ensures var last := Last(FromStage(r, k, Fixed(Spoiler(true)), n));
      && Whole(last) && last.stages[CLEANUP] == r.stages[CLEANUP]
      && (k <= DEPLOY && !StageOk(r, DEPLOY) ==> StageOk(last, DEPLOY) && ExecutedBetween(r, last, DEPLOY))
      && (k > DEPLOY || StageOk(r, DEPLOY) ==> last.stages[DEPLOY] == r.stages[DEPLOY])
    decreases STAGE_COUNT - k
  {
    if k < READY_WAIT {
      if StageOk(r, k) {
        FromStageSpoils(r, k + 1, n);
      } else {
        FromStageSpoils(After(r, k, Done([])), k + 1, n + 1);
      }
    }
  }

  /** A crash that defeats the cleanup does: there are executors with which the resumed run ends with
      DEPLOY executed and OK, and CLEANUP still owed. */
  lemma DefeatLeaks(z: RunState) returns (d: Executor)
    requires Orderly(z) && !z.abortFlag && Spent(z.stages[CLEANUP]) && !StageOk(z, DEPLOY)
    ensures Whole(Final(z, Fixed(d))) && StageOk(Final(z, Fixed(d)), DEPLOY) && Owing(z, Final(z, Fixed(d)))
  {
    d := Spoiler(z.stages[CLEANUP].status.SKIPPED?);
    FinalIs(z, Fixed(d));
    var y := Restarted(Begun(z));
    if z.stages[CLEANUP].status.SKIPPED? {
      assert z.stages[READY_WAIT].status.PENDING?;
      FromStageSpoils(y, 0, 0);
    } else {
      FromStageAllDone(y, 0, d, 0);
      CallVerdict(z, Fixed(d));
    }
  }

  /** Exactly the crashes in the window before DEPLOY is OK put the cleanup at risk. */
  lemma DefeatIsExact(r: RunState, exec: Exec, j: nat)
    requires Orderly(r) && !r.abortFlag && !Spent(r.stages[CLEANUP])
    requires j < |Call(r, exec)| && Whole(Call(r, exec)[j]) && Call(r, exec)[j].status == RUN_IN_PROGRESS
    ensures var z := Call(r, exec)[j];
      Defeats(Call(r, exec), j) <==>
      exists e: Exec :: Whole(Final(z, e)) && OwedAt(z, Final(z, e), Owing(r, z))
  {
    var z := Call(r, exec)[j];
    CallChain(r, exec);
    ChainAt(r, Call(r, exec), j);
    ChainAdvances(r, Call(r, exec), j);
    if Defeats(Call(r, exec), j) {
      WindowIsOnly(r, exec, j, IS_SPENT);
      var d := DefeatLeaks(z);
      assert OwedAt(z, Final(z, Fixed(d)), Owing(r, z));
    } else {
      CrashKeepsSafe(r, exec, j, false);
      forall e: Exec
        ensures Whole(Final(z, e)) && !OwedAt(z, Final(z, e), Owing(r, z))
      {
        SafeEndsClean(z, e, Owing(r, z));
      }
    }
  }

  // ---------- saves at which the run is over ----------

  lemma {:induction false} FromStageOver(r: RunState, k: nat, exec: Exec, n: nat, j: nat)
    requires Whole(r) && k <= STAGE_COUNT && !r.abortFlag && r.status == RUN_IN_PROGRESS
    requires j < |FromStage(r, k, exec, n)| - 1 && FromStage(r, k, exec, n)[j].status != RUN_IN_PROGRESS
    ensures var z := FromStage(r, k, exec, n)[j];
      Whole(z) && z.status == RUN_ABORTED && !Cleaned(r, z)
    decreases STAGE_COUNT - k
  {
    if StageOk(r, k) {
      FromStageOver(r, k + 1, exec, n, j);
    } else if k == CLEANUP {
      AtCleanup(r, exec, n);
    } else if exec(n, k).Done? {
      FromStageOver(After(r, k, exec(n, k)), k + 1, exec, n + 1, j - 2);
    }
  }

  /** A save at which the run is over owes the cleanup exactly if it was owed before or DEPLOY was started,
      and the call had more to save: an aborted run is saved before its CLEANUP. Nobody resumes such a run. */
  lemma OverOwes(r: RunState, exec: Exec, j: nat, owed: bool)
    requires Orderly(r) && !r.abortFlag && !Spent(r.stages[CLEANUP])
    requires j < |Call(r, exec)| && Call(r, exec)[j].status != RUN_IN_PROGRESS
    ensures var z := Call(r, exec)[j];
      && Whole(z)
      && (OwedAt(r, z, owed) <==>
            j < |Call(r, exec)| - 1 && (owed || z.stages[DEPLOY].attempt > r.stages[DEPLOY].attempt))
  {
    FinalIs(r, exec);
    CallChain(r, exec);
    ChainAt(r, Call(r, exec), j);
    if j == |Call(r, exec)| - 1 {
      CallCleansUp(r, exec);
    } else {
      FromStageOver(Restarted(Begun(r)), 0, exec, 0, j - |Opening(r)|);
    }
  }
}
