/**
 Crash transparency of run_pipeline.
 */
module CrashResume {
  import opened Options
  import opened StateMachine
  import opened Pipeline
  import opened PipelineOrder

  /** A deterministic stage executor. */
  type Executor = StageName -> ExecResult

  function Fixed(d: Executor): Exec {
    (n: nat, s: StageName) => d(s)
  }

  function Final(r: RunState, exec: Exec): RunState
    requires Whole(r)
  {
    Last(Call(r, exec))
  }

  // ---------- equality up to attempt counts ----------

  predicate SameInfo(i: Info, j: Info) {
    i.(attempt := 0) == j.(attempt := 0)
  }

  ghost predicate Alike(a: RunState, b: RunState) {
    && Whole(a) && Whole(b)
    && a.(stages := []) == b.(stages := [])
    && forall s: StageName :: SameInfo(a.stages[s], b.stages[s])
  }

  lemma AlikeAfter(a: RunState, b: RunState, s: StageName, res: ExecResult)
    requires Alike(a, b)
    ensures Alike(After(a, s, res), After(b, s, res))
  {
    assert SameInfo(a.stages[s], b.stages[s]);
  }

  lemma AlikeTail(a: RunState, b: RunState, k: StageName, res: ExecResult, d: Executor, n: nat, m: nat)
    requires Alike(a, b) && !res.Done?
    ensures Alike(Last(AfterStage(a, k, res, Fixed(d), n)), Last(AfterStage(b, k, res, Fixed(d), m)))
  {
    if res.Unable? {
      AlikeAbort(a, b, k, res, d, n, m);
    } else {
      AlikeFailure(a, b, k, res, d, n, m);
    }
  }

  lemma AlikeAbort(a: RunState, b: RunState, k: StageName, res: ExecResult, d: Executor, n: nat, m: nat)
    requires Alike(a, b) && res.Unable?
    ensures Alike(Last(AbortSaves(a, k, res, Fixed(d), n)), Last(AbortSaves(b, k, res, Fixed(d), m)))
  {
    assert SameInfo(a.stages[CLEANUP], b.stages[CLEANUP]);
    AlikeAfter(Abort(a, SkipText(k, res)), Abort(b, SkipText(k, res)), CLEANUP, d(CLEANUP));
  }

  lemma AlikeFailure(a: RunState, b: RunState, k: StageName, res: ExecResult, d: Executor, n: nat, m: nat)
    requires Alike(a, b)
    ensures Alike(Last(FailSaves(a, k, res, Fixed(d), n)), Last(FailSaves(b, k, res, Fixed(d), m)))
  {
    assert SameInfo(a.stages[CLEANUP], b.stages[CLEANUP]);
    AlikeAfter(a, b, CLEANUP, d(CLEANUP));
  }

  lemma {:induction false} AlikeFrom(a: RunState, b: RunState, k: nat, d: Executor, n: nat, m: nat)
    requires Alike(a, b) && k <= STAGE_COUNT
    ensures Alike(Last(FromStage(a, k, Fixed(d), n)), Last(FromStage(b, k, Fixed(d), m)))
    decreases STAGE_COUNT - k
  {
    if k < STAGE_COUNT && !a.abortFlag {
      assert SameInfo(a.stages[k], b.stages[k]);
      if StageOk(a, k) {
        AlikeFrom(a, b, k + 1, d, n, m);
      } else {
        AlikeAfter(a, b, k, d(k));
        AlikeAfterStage(After(a, k, d(k)), After(b, k, d(k)), k, d, n + 1, m + 1);
      }
    }
  }

  lemma {:induction false} AlikeAfterStage(a: RunState, b: RunState, k: StageName, d: Executor, n: nat, m: nat)
    requires Alike(a, b)
    ensures Alike(Last(AfterStage(a, k, d(k), Fixed(d), n)), Last(AfterStage(b, k, d(k), Fixed(d), m)))
    decreases STAGE_COUNT - k, 0
  {
    if d(k).Done? {
      AlikeFrom(a, b, k + 1, d, n, m);
    } else {
      AlikeTail(a, b, k, d(k), d, n, m);
    }
  }

  // ---------- where a resumed call picks up ----------

  lemma {:induction false} SkipsOk(r: RunState, i: nat, k: nat, exec: Exec, n: nat)
    requires i <= k && Upto(r, k) && (r.abortFlag ==> i == k)
    ensures FromStage(r, i, exec, n) == FromStage(r, k, exec, n)
    decreases k - i
  {
    if i < k {
      assert StageOk(r, i);
      SkipsOk(r, i + 1, k, exec, n);
    }
  }

  /** In the middle of a call: in progress, every stage before k OK. */
  ghost predicate At(r: RunState, k: nat) {
    Orderly(r) && Upto(r, k) && !r.abortFlag && r.status == RUN_IN_PROGRESS
  }

  /** The reset changes at most the first stage that is not OK. */
  lemma RestartedAt(r: RunState, k: StageName)
    requires At(r, k) && !StageOk(r, k)
    ensures At(Restarted(r), k)
    ensures Restarted(r).(stages := []) == r.(stages := [])
    ensures forall s: StageName :: s != k ==> Restarted(r).stages[s] == r.stages[s]
    ensures Restarted(r).stages[k] in {r.stages[k], r.stages[k].(status := PENDING, error := None)}
  {
    assert forall i: StageName :: i < k ==> StageOk(r, i);
    if NeedsFullRestart(r) {
      ResetChain(r);
      forall s: StageName | s != k
        ensures Reset(r).stages[s] == r.stages[s]
      {
        if s < k {
          assert StageOk(r, s);
        }
      }
      forall i: StageName | i < k
        ensures StageOk(Reset(r), i)
      {
        assert StageOk(r, i) && Reset(r).stages[i] == r.stages[i];
      }
    }
  }

  lemma NoRestart(r: RunState, k: StageName)
    requires At(r, k) && !StageOk(r, k) && !Broken(r.stages[k])
    ensures Restarted(r) == r
  {
    forall s: StageName | RunLevel(s)
      ensures !Broken(r.stages[s])
    {
      if s < k {
        assert StageOk(r, s);
      }
    }
  }

  /** A call on a run in progress whose stages before k are OK continues at stage k. */
  lemma ContinuesAt(r: RunState, k: nat, exec: Exec)
    requires At(r, k) && At(Restarted(r), k)
    ensures Final(r, exec) == Last(FromStage(Restarted(r), k, exec, 0))
  {
    assert Begun(r) == r;
    SkipsOk(Restarted(r), 0, k, exec, 0);
  }

  /** Resuming where stage k has already failed or been skipped leads back to the same state. */
  lemma ResumeStopped(y: RunState, k: StageName, d: Executor)
    requires At(y, k) && !d(k).Done?
    requires exists i: Info :: SameInfo(y.stages[k], Settle(Started(i), d(k)))
    ensures Alike(Final(y, Fixed(d)), Last(AfterStage(y, k, d(k), Fixed(d), 0)))
  {
    var i: Info :| SameInfo(y.stages[k], Settle(Started(i), d(k)));
    var y' := Restarted(y);
    RestartedAt(y, k);
    ContinuesAt(y, k, Fixed(d));
    assert !StageOk(y', k);
    AlikeAfterStage(After(y', k, d(k)), y, k, d, 1, 0);
  }

  lemma StartedResumes(x: RunState, k: StageName, d: Executor, n: nat)
    requires At(x, k) && !StageOk(x, k)
    ensures Alike(Final(Start(x, k), Fixed(d)), Last(FromStage(x, k, Fixed(d), n)))
  {
    var y := Start(x, k);
    ExecChain(x, k, d(k));
    assert At(y, k) by {
      assert forall i: StageName :: i < k ==> StageOk(x, i) && y.stages[i] == x.stages[i];
    }
    NoRestart(y, k);
    ContinuesAt(y, k, Fixed(d));
    assert Alike(After(y, k, d(k)), After(x, k, d(k)));
    AlikeAfterStage(After(y, k, d(k)), After(x, k, d(k)), k, d, 1, n + 1);
  }

  lemma SettledAt(x: RunState, k: StageName, res: ExecResult)
    requires At(x, k) && !StageOk(x, k)
    ensures At(After(x, k, res), k)
    ensures res.Done? ==> At(After(x, k, res), k + 1)
    ensures !res.Done? ==> !StageOk(After(x, k, res), k)
  {
    ExecChain(x, k, res);
    assert forall i: StageName :: i < k ==> StageOk(x, i) && After(x, k, res).stages[i] == x.stages[i];
    if res.Done? {
      UptoAfter(x, k, res);
    }
  }

  /** Resuming right after stage k succeeded goes on with stage k + 1. */
  lemma DoneResumes(x: RunState, k: StageName, d: Executor, n: nat)
    requires At(x, k) && !StageOk(x, k) && d(k).Done?
    ensures Alike(Final(After(x, k, d(k)), Fixed(d)), Last(FromStage(x, k, Fixed(d), n)))
  {
    var y := After(x, k, d(k));
    SettledAt(x, k, d(k));
    NotBroken(x, k, d(k));
    ContinuesAt(y, k + 1, Fixed(d));
    AlikeSelf(y);
    AlikeFrom(y, y, k + 1, d, 0, n + 1);
  }

  lemma NotBroken(x: RunState, k: StageName, res: ExecResult)
    requires At(x, k) && !StageOk(x, k) && res.Done?
    ensures Restarted(After(x, k, res)) == After(x, k, res)
  {
    forall s: StageName | RunLevel(s)
      ensures !Broken(After(x, k, res).stages[s])
    {
      if s < k {
        assert StageOk(x, s);
      }
    }
  }

  /** Resuming while a failed run is being cleaned up. */
  lemma CleanupResumes(y: RunState, k: StageName, d: Executor, n: nat, j: nat)
    requires At(y, k) && !StageOk(y, k) && !d(k).Done? && !d(k).Unable?
    requires exists i: Info :: SameInfo(y.stages[k], Settle(Started(i), d(k)))
    requires CleansOnFailure(y, k) && j < 2
    ensures var z := ExecSaves(y, CLEANUP, d(CLEANUP))[j];
      Whole(z) && Alike(Final(z, Fixed(d)), Last(FailSaves(y, k, d(k), Fixed(d), n)))
  {
    var z := ExecSaves(y, CLEANUP, d(CLEANUP))[j];
    ExecChain(y, CLEANUP, d(CLEANUP));
    assert z.stages[k] == y.stages[k];
    assert forall i: StageName :: i < k ==> StageOk(y, i) && z.stages[i] == y.stages[i];
    ResumeStopped(z, k, d);
    var cleaned := After(y, CLEANUP, d(CLEANUP));
    if CleansOnFailure(z, k) {
      RepeatCleanup(y, z, d(CLEANUP));
      assert Alike(After(z, CLEANUP, d(CLEANUP)), cleaned);
    } else {
      assert z == cleaned;
    }
  }

  lemma RepeatCleanup(y: RunState, z: RunState, res: ExecResult)
    requires Whole(y) && z in ExecSaves(y, CLEANUP, res)
    requires !StageOk(z, CLEANUP)
    ensures Alike(After(z, CLEANUP, res), After(y, CLEANUP, res))
  {
  }

  /** Resuming at any save, from stage k on, at which the run is still in progress. */
  lemma {:induction false} FromStageResumes(x: RunState, k: nat, d: Executor, n: nat, j: nat)
    requires At(x, k) && j < |FromStage(x, k, Fixed(d), n)|
    requires FromStage(x, k, Fixed(d), n)[j].status == RUN_IN_PROGRESS
    ensures var z := FromStage(x, k, Fixed(d), n)[j];
      Orderly(z) && Alike(Final(z, Fixed(d)), Last(FromStage(x, k, Fixed(d), n)))
    decreases STAGE_COUNT - k
  {
    var saves := FromStage(x, k, Fixed(d), n);
    assert k < STAGE_COUNT;
    if StageOk(x, k) {
      assert Upto(x, k + 1);
      FromStageResumes(x, k + 1, d, n, j);
    } else {
      var y := After(x, k, d(k));
      ExecChain(x, k, d(k));
      if j == 0 {
        StartedResumes(x, k, d, n);
      } else {
        StoppedOrGoesOn(x, k, d, n, j - 1);
      }
    }
  }

  lemma {:induction false} StoppedOrGoesOn(x: RunState, k: StageName, d: Executor, n: nat, j: nat)
    requires At(x, k) && !StageOk(x, k)
    requires var saves := [After(x, k, d(k))] + AfterStage(After(x, k, d(k)), k, d(k), Fixed(d), n + 1);
      j < |saves| && saves[j].status == RUN_IN_PROGRESS
    ensures var saves := [After(x, k, d(k))] + AfterStage(After(x, k, d(k)), k, d(k), Fixed(d), n + 1);
      Orderly(saves[j]) && Alike(Final(saves[j], Fixed(d)), Last(FromStage(x, k, Fixed(d), n)))
    decreases STAGE_COUNT - k, 0
  {
    var y := After(x, k, d(k));
    SettledAt(x, k, d(k));
    LastSettled(x, k, d, n);
    assert SameInfo(y.stages[k], Settle(Started(x.stages[k]), d(k)));
    if d(k).Done? {
      if j == 0 {
        DoneResumes(x, k, d, n);
      } else {
        FromStageResumes(y, k + 1, d, n + 1, j - 1);
      }
    } else if j == 0 {
      ResumeStopped(y, k, d);
    } else {
      FailureResumes(y, k, d, n + 1, j - 1, x.stages[k]);
    }
  }

  lemma LastSettled(x: RunState, k: StageName, d: Executor, n: nat)
    requires At(x, k) && !StageOk(x, k)
    ensures Last(FromStage(x, k, Fixed(d), n)) == Last(AfterStage(After(x, k, d(k)), k, d(k), Fixed(d), n + 1))
  {
  }

  lemma FailureResumes(y: RunState, k: StageName, d: Executor, n: nat, j: nat, before: Info)
    requires At(y, k) && !StageOk(y, k) && !d(k).Done? && SameInfo(y.stages[k], Settle(Started(before), d(k)))
    requires j < |AfterStage(y, k, d(k), Fixed(d), n)|
    requires AfterStage(y, k, d(k), Fixed(d), n)[j].status == RUN_IN_PROGRESS
    ensures var saves := AfterStage(y, k, d(k), Fixed(d), n);
      Orderly(saves[j]) && Alike(Final(saves[j], Fixed(d)), Last(saves))
  {
    assert !d(k).Unable?;
    CleanupResumes(y, k, d, n, j);
    FailChain(y, k, d(k), Fixed(d), n);
  }

  lemma OpeningRepeats(r: RunState, exec: Exec, j: nat)
    requires Orderly(r) && j < |Opening(r)|
    ensures Whole(Opening(r)[j]) && Final(Opening(r)[j], exec) == Final(r, exec)
  {
    var b := Begun(r);
    assert Begun(b) == b;
    if j == 1 {
      assert Reset(Reset(b)).stages == Reset(b).stages;
      assert Restarted(Begun(Reset(b))) == Reset(b) == Restarted(b);
    }
  }

  /** Crash transparency, one crash: from any save at which the run is in progress, a new call ends
      as the uninterrupted one would have ended, attempt counts apart. */
  lemma CallResumes(r: RunState, d: Executor, j: nat)
    requires Orderly(r) && j < |Call(r, Fixed(d))| && Call(r, Fixed(d))[j].status == RUN_IN_PROGRESS
    ensures Orderly(Call(r, Fixed(d))[j]) && Alike(Final(Call(r, Fixed(d))[j], Fixed(d)), Final(r, Fixed(d)))
  {
    CallChain(r, Fixed(d));
    ChainAt(r, Call(r, Fixed(d)), j);
    FinalIs(r, Fixed(d));
    if j < |Opening(r)| {
      OpeningRepeats(r, Fixed(d), j);
      AlikeSelf(Final(r, Fixed(d)));
    } else {
      LoopResumes(r, d, j - |Opening(r)|);
    }
  }

  lemma LoopResumes(r: RunState, d: Executor, j: nat)
    requires Orderly(r) && j < |FromStage(Restarted(Begun(r)), 0, Fixed(d), 0)|
    requires FromStage(Restarted(Begun(r)), 0, Fixed(d), 0)[j].status == RUN_IN_PROGRESS
    ensures var z := FromStage(Restarted(Begun(r)), 0, Fixed(d), 0)[j];
      Orderly(z) && Alike(Final(z, Fixed(d)), Final(r, Fixed(d)))
  {
    OpeningChain(r);
    FinalIs(r, Fixed(d));
    if !r.abortFlag {
      FromStageResumes(Restarted(Begun(r)), 0, d, 0, j);
    }
  }

  lemma AlikeSelf(r: RunState)
    requires Whole(r)
    ensures Alike(r, r)
  {
  }

  lemma FinalIs(r: RunState, exec: Exec)
    requires Whole(r)
    ensures Final(r, exec) == Last(FromStage(Restarted(Begun(r)), 0, exec, 0)) && Whole(Final(r, exec))
    ensures Restarted(Begun(r)).abortFlag == r.abortFlag && Restarted(Begun(r)).status == RUN_IN_PROGRESS
    ensures forall s: StageName :: var i := Restarted(Begun(r)).stages[s];
      && i.attempt == r.stages[s].attempt && (i.status.OK? <==> StageOk(r, s))
      && (s > ENGINE_SELECT ==> i == r.stages[s])
  {
    FromStageVerdict(Restarted(Begun(r)), 0, exec, 0);
  }

  /** A run survives crashes after the saves numbered `cuts`, one per call: each time it was still in
      progress, and the next process picks it up from state.json. */
  ghost predicate CrashPath(r: RunState, d: Executor, cuts: seq<nat>, z: RunState)
    requires Whole(r)
    decreases cuts
  {
    if cuts == [] then z == r
    else
      var saves := Call(r, Fixed(d));
      && cuts[0] < |saves| && Whole(saves[cuts[0]]) && saves[cuts[0]].status == RUN_IN_PROGRESS
      && CrashPath(Reloaded(saves[cuts[0]]), d, cuts[1..], z)
  }

  /** Crash transparency, any number of crashes. */
  lemma {:induction false} CrashTransparency(r: RunState, d: Executor, cuts: seq<nat>, z: RunState)
    requires Orderly(r) && CrashPath(r, d, cuts, z)
    ensures Orderly(z) && Alike(Final(z, Fixed(d)), Final(r, Fixed(d)))
    decreases cuts
  {
    if cuts == [] {
      FinalIs(r, Fixed(d));
      AlikeSelf(Final(r, Fixed(d)));
    } else {
      var y := Call(r, Fixed(d))[cuts[0]];
      CallResumes(r, d, cuts[0]);
      CrashTransparency(y, d, cuts[1..], z);
    }
  }
}
