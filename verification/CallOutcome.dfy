/**
 What a call of run_pipeline makes of a run, told from the run before the call and what the stage
 executors come back with.
 */
module CallOutcome {
  import opened Options
  import opened StateMachine
  import opened Pipeline
  import opened CrashResume

  // ---------- where the call stops ----------

  /** How many stages before k the call executes: those that were not OK. */
  function Due(r: RunState, k: nat): nat
    requires Whole(r) && k <= STAGE_COUNT
  {
    if k == 0 then 0 else Due(r, k - 1) + if StageOk(r, k - 1) then 0 else 1
  }

  /** What executing stage s comes back with, if the call gets there. */
  function ResultAt(r: RunState, exec: Exec, s: StageName): ExecResult
    requires Whole(r)
  {
    exec(Due(r, s), s)
  }

  /** Every stage before k was OK or succeeds. */
  ghost predicate GoesThrough(r: RunState, exec: Exec, k: nat)
    requires Whole(r)
  {
    k <= STAGE_COUNT && forall i: StageName :: i < k ==> StageOk(r, i) || ResultAt(r, exec, i).Done?
  }

  /** Stage k is the first that does not succeed. */
  ghost predicate StopsAt(r: RunState, exec: Exec, k: StageName)
    requires Whole(r)
  {
    GoesThrough(r, exec, k) && !StageOk(r, k) && !ResultAt(r, exec, k).Done?
  }

  // ---------- records and verdicts ----------

  /** The first 500 characters of a text. */
  predicate IsCut(cut: string, text: string) {
    cut <= text && |cut| == if |text| <= 500 then |text| else 500
  }

  /** The first of some texts that is not empty. */
  predicate IsFirstOf(text: string, texts: seq<string>) {
    text != "" && exists i :: 0 <= i < |texts| && texts[i] == text && forall j :: 0 <= j < i ==> texts[j] == ""
  }

  ghost predicate ErrorIs(i: Info, texts: seq<string>) {
    exists text :: IsFirstOf(text, texts) && i.error.Some? && IsCut(i.error.value, text)
  }

  /** What one execution makes of a stage's record. */
  ghost predicate Recorded(before: Info, after: Info, res: ExecResult) {
    && after.attempt == before.attempt + 1
    && match res
       case Done(artifacts) =>
         after.status == OK && after.error == before.error
         && after.artifacts == if artifacts != [] then artifacts else before.artifacts
       case Unable(reason, error) =>
         after.status == SKIPPED && after.artifacts == before.artifacts && ErrorIs(after, [reason, error, "aborted"])
       case Wrong(error) =>
         after.status == FAILED && after.artifacts == before.artifacts
         && ErrorIs(after, [error, "executor returned ok=False"])
       case Raised(message) =>
         after.status == FAILED && after.artifacts == before.artifacts
         && ErrorIs(after, ["executor crashed: " + message])
  }

  /** How the run ends when stage k comes back with `res`. */
  ghost predicate EndsWith(last: RunState, k: StageName, res: ExecResult) {
    match res
    case Done(_) => false
    case Unable(reason, error) =>
      && last.status == RUN_ABORTED
      && exists text :: IsFirstOf(text, [reason, error, "aborted"])
                        && last.failureReason == Some("aborted at " + StageText(k) + ": " + text)
    case Wrong(error) =>
      && last.status == RUN_FAILED
      && exists text :: IsFirstOf(text, [error, "stage failed"]) && last.failureReason == Some(text)
    case Raised(message) => last.status == RUN_FAILED && last.failureReason == Some(message)
  }

  /** A failed or timed-out stage up to STAGE_MODEL, with DEPLOY not OK, makes the call start over. */
  ghost predicate StartsOver(r: RunState)
    requires Whole(r)
  {
    && r.stages[DEPLOY].status != OK
    && exists s: StageName :: s <= STAGE_MODEL && r.stages[s].status in {FAILED, TIMED_OUT}
  }

  /** The record a stage has when the call begins: up to ENGINE_SELECT what is not OK is pending again. */
  ghost predicate Opened(r: RunState, s: StageName, i: Info)
    requires Whole(r)
  {
    if StartsOver(r) && s <= ENGINE_SELECT && r.stages[s].status != OK then
      i.status == PENDING && i.error == None && i.attempt == r.stages[s].attempt && i.artifacts == r.stages[s].artifacts
    else i == r.stages[s]
  }

  /** What the call makes of a stage it goes through: nothing if it was OK. */
  ghost predicate Passed(r: RunState, exec: Exec, s: StageName, after: Info)
    requires Whole(r)
  {
    exists before :: Opened(r, s, before) && if StageOk(r, s) then after == before
      else Recorded(before, after, ResultAt(r, exec, s))
  }

  // ---------- the proof, stage by stage ----------

  lemma OpenedIs(r: RunState, s: StageName)
    requires Whole(r)
    ensures Opened(r, s, Restarted(Begun(r)).stages[s])
  {
    var b := Begun(r);
    assert forall i: StageName :: Broken(b.stages[i]) <==> r.stages[i].status in {FAILED, TIMED_OUT};
    assert forall i: StageName :: RunLevel(i) <==> i <= STAGE_MODEL;
    assert NeedsFullRestart(b) <==> StartsOver(r);
  }

  /** The state in which the stage loop comes to stage i. */
  ghost predicate Reached(r: RunState, exec: Exec, i: nat, x: RunState)
    requires Whole(r) && i <= STAGE_COUNT
  {
    && Whole(x) && x.(stages := [], status := r.status) == r.(stages := [])
    && x.status == RUN_IN_PROGRESS
    && (forall s: StageName :: s < i ==> Passed(r, exec, s, x.stages[s]))
    && (forall s: StageName :: i <= s ==> Opened(r, s, x.stages[s]))
  }

  lemma SettledIs(before: Info, res: ExecResult)
    ensures Recorded(before, Settle(Started(before), res), res)
  {
    match res
    case Done(_) =>
    case Unable(reason, error) => FirstIs(reason, error, "aborted");
    case Wrong(error) => SecondIs(error, "executor returned ok=False");
    case Raised(message) => OnlyIs("executor crashed: " + message);
  }

  lemma FirstIs(a: string, b: string, c: string)
    requires c != ""
    ensures IsFirstOf(Or(a, Or(b, c)), [a, b, c])
    ensures IsCut(Trunc(Or(a, Or(b, c))), Or(a, Or(b, c)))
  {
    assert [a, b, c][0] == a && [a, b, c][1] == b && [a, b, c][2] == c;
  }

  lemma SecondIs(a: string, b: string)
    requires b != ""
    ensures IsFirstOf(Or(a, b), [a, b]) && IsCut(Trunc(Or(a, b)), Or(a, b))
  {
    assert [a, b][0] == a && [a, b][1] == b;
  }

  lemma OnlyIs(a: string)
    requires a != ""
    ensures IsFirstOf(a, [a]) && IsCut(Trunc(a), a)
  {
    assert [a][0] == a;
  }

  lemma ReachNext(r: RunState, exec: Exec, i: StageName, x: RunState)
    requires Whole(r) && Reached(r, exec, i, x)
    ensures StageOk(x, i) <==> StageOk(r, i)
    ensures StageOk(r, i) ==> Reached(r, exec, i + 1, x)
    ensures !StageOk(r, i) ==> Recorded(x.stages[i], After(x, i, ResultAt(r, exec, i)).stages[i], ResultAt(r, exec, i))
    ensures !StageOk(r, i) ==> Reached(r, exec, i + 1, After(x, i, ResultAt(r, exec, i)))
  {
    assert Opened(r, i, x.stages[i]);
    SettledIs(x.stages[i], ResultAt(r, exec, i));
    if StageOk(r, i) {
      assert Passed(r, exec, i, x.stages[i]);
    } else {
      assert Passed(r, exec, i, After(x, i, ResultAt(r, exec, i)).stages[i]);
    }
  }

  /** The state in which the loop comes to the next stage. */
  function Onward(r: RunState, exec: Exec, i: StageName, x: RunState): (y: RunState)
    requires Whole(r) && Whole(x)
    ensures Whole(y)
  {
    if StageOk(r, i) then x else After(x, i, ResultAt(r, exec, i))
  }

  lemma GoesOn(r: RunState, exec: Exec, i: StageName, x: RunState)
    requires Whole(r) && !r.abortFlag && Reached(r, exec, i, x) && (StageOk(r, i) || ResultAt(r, exec, i).Done?)
    ensures Reached(r, exec, i + 1, Onward(r, exec, i, x))
    ensures Last(FromStage(x, i, exec, Due(r, i))) == Last(FromStage(Onward(r, exec, i, x), i + 1, exec, Due(r, i + 1)))
  {
    ReachNext(r, exec, i, x);
  }

  lemma {:induction false} ReachAll(r: RunState, exec: Exec, i: nat, x: RunState)
    requires Whole(r) && !r.abortFlag && i <= STAGE_COUNT && Reached(r, exec, i, x) && GoesThrough(r, exec, STAGE_COUNT)
    ensures WentThrough(r, exec, Last(FromStage(x, i, exec, Due(r, i))))
    decreases STAGE_COUNT - i
  {
    if i < STAGE_COUNT {
      GoesOn(r, exec, i, x);
      ReachAll(r, exec, i + 1, Onward(r, exec, i, x));
    }
  }

  lemma {:induction false} ReachStop(r: RunState, exec: Exec, i: nat, x: RunState, k: StageName)
    requires Whole(r) && !r.abortFlag && i <= k && Reached(r, exec, i, x) && StopsAt(r, exec, k)
    ensures Stopped(r, exec, k, Last(FromStage(x, i, exec, Due(r, i))))
    decreases k - i
  {
    if i == k {
      StopIs(r, exec, k, x);
    } else {
      GoesOn(r, exec, i, x);
      ReachStop(r, exec, i + 1, Onward(r, exec, i, x), k);
    }
  }

  lemma BeginReached(r: RunState, exec: Exec)
    requires Whole(r)
    ensures Reached(r, exec, 0, Restarted(Begun(r)))
  {
    forall s: StageName
      ensures Opened(r, s, Restarted(Begun(r)).stages[s])
    {
      OpenedIs(r, s);
    }
  }

  /** After a stop at stage k, CLEANUP is executed unless it was OK, or was SKIPPED and k is skipped. */
  predicate CleansAfter(r: RunState, k: StageName, res: ExecResult)
    requires Whole(r)
  {
    && k != CLEANUP && r.stages[CLEANUP].status != OK
    && !(res.Unable? && r.stages[CLEANUP].status == SKIPPED)
  }

  /** All that a stop at stage k leaves. */
  ghost predicate Stopped(r: RunState, exec: Exec, k: StageName, last: RunState)
    requires Whole(r)
  {
    && Whole(last) && EndsWith(last, k, ResultAt(r, exec, k))
    && (forall s: StageName :: s <= k ==> Passed(r, exec, s, last.stages[s]))
    && (forall s: StageName :: k < s < CLEANUP ==> Opened(r, s, last.stages[s]))
    && (k < CLEANUP ==>
          if CleansAfter(r, k, ResultAt(r, exec, k)) then
            Recorded(r.stages[CLEANUP], last.stages[CLEANUP], exec(Due(r, k) + 1, CLEANUP))
          else last.stages[CLEANUP] == r.stages[CLEANUP])
  }

  /** All that a call without a stop leaves. */
  ghost predicate WentThrough(r: RunState, exec: Exec, last: RunState)
    requires Whole(r)
  {
    && Whole(last) && last.status == RUN_OK && last.failureReason == r.failureReason
    && forall s: StageName :: Passed(r, exec, s, last.stages[s])
  }

  lemma StopIs(r: RunState, exec: Exec, k: StageName, x: RunState)
    requires Whole(r) && !r.abortFlag && Reached(r, exec, k, x) && StopsAt(r, exec, k)
    ensures Stopped(r, exec, k, Last(FromStage(x, k, exec, Due(r, k))))
  {
    var res := ResultAt(r, exec, k);
    var y := After(x, k, res);
    ReachNext(r, exec, k, x);
    StopEnds(y, k, res, exec, Due(r, k) + 1);
    StoppedFrom(r, exec, k, x, y, Last(AfterStage(y, k, res, exec, Due(r, k) + 1)));
    LastStops(x, k, exec, Due(r, k));
  }

  lemma LastStops(x: RunState, k: StageName, exec: Exec, n: nat)
    requires Whole(x) && !x.abortFlag && !StageOk(x, k)
    ensures Last(FromStage(x, k, exec, n)) == Last(AfterStage(After(x, k, exec(n, k)), k, exec(n, k), exec, n + 1))
  {
  }

  lemma StoppedFrom(r: RunState, exec: Exec, k: StageName, x: RunState, y: RunState, last: RunState)
    requires Whole(r) && Reached(r, exec, k, x) && !StageOk(r, k)
    requires Whole(y) && Recorded(x.stages[k], y.stages[k], ResultAt(r, exec, k))
    requires forall s: StageName :: s != k ==> y.stages[s] == x.stages[s]
    requires Follows(y, k, ResultAt(r, exec, k), exec, Due(r, k) + 1, last)
    ensures Stopped(r, exec, k, last)
  {
    assert Opened(r, k, x.stages[k]) && Opened(r, CLEANUP, x.stages[CLEANUP]);
    assert Passed(r, exec, k, last.stages[k]);
  }

  /** What follows stage k, whatever was before. */
  ghost predicate Follows(y: RunState, k: StageName, res: ExecResult, exec: Exec, n: nat, last: RunState)
    requires Whole(y)
  {
    && Whole(last) && EndsWith(last, k, res)
    && (forall s: StageName :: s != CLEANUP || k == CLEANUP ==> last.stages[s] == y.stages[s])
    && (k < CLEANUP ==>
          if CleansAfter(y, k, res) then Recorded(y.stages[CLEANUP], last.stages[CLEANUP], exec(n, CLEANUP))
          else last.stages[CLEANUP] == y.stages[CLEANUP])
  }

  lemma StopEnds(y: RunState, k: StageName, res: ExecResult, exec: Exec, n: nat)
    requires Whole(y) && !res.Done?
    ensures Follows(y, k, res, exec, n, Last(AfterStage(y, k, res, exec, n)))
  {
    if res.Unable? {
      AbortEnds(y, k, res, exec, n);
    } else {
      FailureEnds(y, k, res, exec, n);
    }
  }

  lemma AbortEnds(y: RunState, k: StageName, res: ExecResult, exec: Exec, n: nat)
    requires Whole(y) && res.Unable?
    ensures Follows(y, k, res, exec, n, Last(AbortSaves(y, k, res, exec, n)))
  {
    SettledIs(y.stages[CLEANUP], exec(n, CLEANUP));
    FirstIs(res.reason, res.error, "aborted");
  }

  lemma FailureEnds(y: RunState, k: StageName, res: ExecResult, exec: Exec, n: nat)
    requires Whole(y) && !res.Done? && !res.Unable?
    ensures Follows(y, k, res, exec, n, Last(FailSaves(y, k, res, exec, n)))
  {
    SettledIs(y.stages[CLEANUP], exec(n, CLEANUP));
    if res.Wrong? {
      SecondIs(res.error, "stage failed");
    }
  }

  // ---------- the laws ----------

  /** A call whose stages were all OK or succeed ends the run OK, with every stage recorded. */
  lemma CallSucceeds(r: RunState, exec: Exec)
    requires Whole(r) && !r.abortFlag && GoesThrough(r, exec, STAGE_COUNT)
    ensures WentThrough(r, exec, Final(r, exec))
  {
    BeginReached(r, exec);
    FinalIs(r, exec);
    ReachAll(r, exec, 0, Restarted(Begun(r)));
  }

  /** A call that comes to a stage that does not succeed: what becomes of that stage, of those before and
      after, of CLEANUP and of the run. */
  lemma CallStops(r: RunState, exec: Exec, k: StageName)
    requires Whole(r) && !r.abortFlag && StopsAt(r, exec, k)
    ensures Stopped(r, exec, k, Final(r, exec))
  {
    BeginReached(r, exec);
    FinalIs(r, exec);
    ReachStop(r, exec, 0, Restarted(Begun(r)), k);
  }

  /** One of the two is the case. */
  lemma {:induction false} StopsOrGoesThrough(r: RunState, exec: Exec, i: nat) returns (k: StageName)
    requires Whole(r) && i <= STAGE_COUNT && GoesThrough(r, exec, i)
    ensures GoesThrough(r, exec, STAGE_COUNT) || StopsAt(r, exec, k)
    decreases STAGE_COUNT - i
  {
    if i == STAGE_COUNT {
      k := CLEANUP;
    } else if !StageOk(r, i) && !ResultAt(r, exec, i).Done? {
      k := i;
    } else {
      ThroughNext(r, exec, i);
      k := StopsOrGoesThrough(r, exec, i + 1);
    }
  }

  lemma ThroughNext(r: RunState, exec: Exec, i: StageName)
    requires Whole(r) && GoesThrough(r, exec, i) && (StageOk(r, i) || ResultAt(r, exec, i).Done?)
    ensures GoesThrough(r, exec, i + 1)
  {
  }

  /** With the abort flag up the run is aborted for that reason, with its records as they were opened. */
  lemma CallFlagged(r: RunState, exec: Exec, s: StageName)
    requires Whole(r) && r.abortFlag
    ensures var last := Final(r, exec);
      && Whole(last) && last.status == RUN_ABORTED && last.failureReason == Some("abort_flag")
      && Opened(r, s, last.stages[s])
  {
    FinalIs(r, exec);
    OpenedIs(r, s);
  }
}
