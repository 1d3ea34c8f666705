/**
 _sweep_orphan_in_progress (orchestrator/main.py) at startup, and what it does to a run whose last
 save was torn between state.json and the index.
 */
module Recovery {
  import opened Options
  import opened Maps
  import opened StateMachine
  import opened Pipeline
  import opened PipelineOrder
  import opened CleanupOwed

  const ORPHAN_REASON := "orchestrator_restart_orphan"

  /** What the sweep makes of one run's file and row. */
  function SweptDoc(doc: RunDoc, row: Row): RunDoc {
    if row.status == RUN_IN_PROGRESS && FromJson(doc).Some? then ToJson(Abort(FromJson(doc).value, ORPHAN_REASON))
    else doc
  }

  function SweptRow(doc: RunDoc, row: Row): Row {
    if row.status == RUN_IN_PROGRESS && FromJson(doc).Some? then
      row.(status := RUN_ABORTED, failureReason := Some(ORPHAN_REASON))
    else row
  }

  /** A run that is swept comes back aborted as an orphan, in file and row, and with nothing else changed. */
  lemma SweptComesBack(r: RunState, row: Row)
    requires Whole(r)
    ensures FromJson(SweptDoc(ToJson(r), row)) ==
      Some(if row.status != RUN_IN_PROGRESS then r
           else r.(status := RUN_ABORTED, failureReason := Some("orchestrator_restart_orphan")))
    ensures SweptRow(ToJson(r), row) ==
      if row.status != RUN_IN_PROGRESS then row
      else row.(status := RUN_ABORTED, failureReason := Some("orchestrator_restart_orphan"))
  {
    JsonRoundTrip(r);
    JsonRoundTrip(Abort(r, ORPHAN_REASON));
  }

  /** Every file is stored under the id it carries. */
  ghost predicate Coherent(files: map<string, RunDoc>) {
    forall id :: id in files ==> files[id].runId == id
  }

  /** The sweep of one listed row. */
  method SweepOne(store: Store, id: string) returns (swept: bool, raised: bool)
    requires Coherent(store.files)
    requires id in store.rows && store.rows[id].status == RUN_IN_PROGRESS
    modifies store
    ensures Coherent(store.files) && store.files.Keys == old(store.files).Keys
    ensures store.rows.Keys == old(store.rows).Keys
    ensures store.files - {id} == old(store.files) - {id} && store.rows - {id} == old(store.rows) - {id}
    ensures raised <==> id in store.files && FromJson(old(store.files)[id]).None?
    ensures raised ==> store.files == old(store.files) && store.rows == old(store.rows)
    ensures id in store.files ==>
      && store.files[id] == SweptDoc(old(store.files)[id], old(store.rows)[id])
      && store.rows[id] == SweptRow(old(store.files)[id], old(store.rows)[id])
  {
    if id !in store.files {
      return false, false;
    }
    var loaded := FromJson(store.files[id]);
    if loaded.None? {
      return false, true;
    }
    var run := Abort(loaded.value, ORPHAN_REASON);
    store.files := store.files[id := ToJson(run)];
    store.rows := store.rows[id := store.rows[id].(status := run.status, failureReason := run.failureReason)];
    return true, false;
  }

  /** The first n listed rows have been swept, and nothing else has been touched. */
  ghost predicate SweptUpto(files: map<string, RunDoc>, rows: map<string, Row>, files': map<string, RunDoc>,
                            rows': map<string, Row>, listed: seq<string>, n: nat)
    requires n <= |listed|
  {
    && files'.Keys == files.Keys && rows'.Keys == rows.Keys
    && (forall id :: id in files && id !in listed[..n] ==> files'[id] == files[id])
    && (forall id :: id in rows && id !in listed[..n] ==> rows'[id] == rows[id])
    && (forall id :: id in listed[..n] && id in files && id in rows ==>
          files'[id] == SweptDoc(files[id], rows[id]) && rows'[id] == SweptRow(files[id], rows[id]))
  }

  lemma SweptMore(files0: map<string, RunDoc>, rows0: map<string, Row>, files: map<string, RunDoc>,
                  rows: map<string, Row>,
                  files': map<string, RunDoc>, rows': map<string, Row>, listed: seq<string>, k: nat)
    requires k < |listed| && listed[k] !in listed[..k] && SweptUpto(files0, rows0, files, rows, listed, k)
    requires files'.Keys == files.Keys && rows'.Keys == rows.Keys
    requires files' - {listed[k]} == files - {listed[k]} && rows' - {listed[k]} == rows - {listed[k]}
    requires listed[k] in files && listed[k] in rows ==>
      files'[listed[k]] == SweptDoc(files[listed[k]], rows[listed[k]])
        && rows'[listed[k]] == SweptRow(files[listed[k]], rows[listed[k]])
    ensures SweptUpto(files0, rows0, files', rows', listed, k + 1)
  {
    var id := listed[k];
    assert listed[..k + 1] == listed[..k] + [id];
    forall x | x != id && x in files
      ensures files'[x] == files[x]
    {
      Elsewhere(files, files', id, x);
    }
    forall x | x != id && x in rows
      ensures rows'[x] == rows[x]
    {
      Elsewhere(rows, rows', id, x);
    }
    forall x | x in listed[..k + 1] && x in files0 && x in rows0
      ensures files'[x] == SweptDoc(files0[x], rows0[x]) && rows'[x] == SweptRow(files0[x], rows0[x])
    {
      assert x != id ==> x in listed[..k];
    }
  }

  /** The sweep with force_all, over the rows that list_runs(status=in_progress) returned: no row is too
      fresh. It stops with an exception at a file it cannot read. */
  method SweepOrphans(store: Store, listed: seq<string>) returns (swept: nat, raised: bool)
    requires Coherent(store.files)
    requires forall i, j :: 0 <= i < j < |listed| ==> listed[i] != listed[j]
    requires forall id :: id in listed ==> id in store.rows && store.rows[id].status == RUN_IN_PROGRESS
    modifies store
    ensures Coherent(store.files)
    ensures !raised ==> SweptUpto(old(store.files), old(store.rows), store.files, store.rows, listed, |listed|)
    ensures raised ==> exists n ::
      0 <= n < |listed| && SweptUpto(old(store.files), old(store.rows), store.files, store.rows, listed, n)
  {
    swept, raised := 0, false;
    var k := 0;
    while k < |listed| && !raised
      invariant k <= |listed| && Coherent(store.files)
      invariant SweptUpto(old(store.files), old(store.rows), store.files, store.rows, listed, k)
      invariant raised ==> k < |listed|
      decreases |listed| - k, !raised
    {
      ghost var files, rows := store.files, store.rows;
      assert listed[k] in listed && listed[k] !in listed[..k];
      var done, stop := SweepOne(store, listed[k]);
      if stop {
        raised := true;
      } else {
        SweptMore(old(store.files), old(store.rows), files, rows, store.files, store.rows, listed, k);
        swept, k := swept + (if done then 1 else 0), k + 1;
      }
    }
  }

  // ---------- torn saves ----------

  /** The index row a process that dies in the i-th save of a call leaves behind: the row of that save, or,
      if it dies between state.json and the database, the row from before. */
  function RowAfter(r: RunState, saves: seq<RunState>, i: nat, torn: bool): Row
    requires i < |saves|
  {
    var seen := if !torn then saves[i] else if i == 0 then r else saves[i - 1];
    Row(r.hfId, seen.status, seen.failureReason)
  }

  /** The next startup's sweep leaves the saved state alone exactly when the row does not say in progress. */
  lemma SweepKeeps(state: RunState, row: Row)
    requires Whole(state)
    requires state.status != RUN_ABORTED || state.failureReason != Some(ORPHAN_REASON)
    ensures FromJson(SweptDoc(ToJson(state), row)) == Some(state) <==> row.status != RUN_IN_PROGRESS
    ensures row.status == RUN_IN_PROGRESS ==>
      FromJson(SweptDoc(ToJson(state), row)) == Some(Abort(state, ORPHAN_REASON))
  {
    JsonRoundTrip(state);
    JsonRoundTrip(Abort(state, ORPHAN_REASON));
  }

  /** The run is in progress at the saves before f and over from f on. */
  ghost predicate OverFrom(saves: seq<RunState>, f: nat) {
    f < |saves| && forall j :: 0 <= j < |saves| ==> (saves[j].status == RUN_IN_PROGRESS <==> j < f)
  }

  lemma {:induction false} FromStageOverFrom(r: RunState, k: nat, exec: Exec, n: nat) returns (f: nat)
    requires Whole(r) && k <= STAGE_COUNT && r.status == RUN_IN_PROGRESS
    ensures OverFrom(FromStage(r, k, exec, n), f)
    ensures f < |FromStage(r, k, exec, n)| - 1 ==> Last(FromStage(r, k, exec, n)).status == RUN_ABORTED
    decreases STAGE_COUNT - k
  {
    if k == STAGE_COUNT || r.abortFlag {
      f := 0;
    } else if StageOk(r, k) {
      f := FromStageOverFrom(r, k + 1, exec, n);
    } else {
      var res := exec(n, k);
      var r' := After(r, k, res);
      if res.Done? {
        f := FromStageOverFrom(r', k + 1, exec, n + 1);
        f := f + 2;
      } else {
        f := if res.Unable? then 2 else |FromStage(r, k, exec, n)| - 1;
      }
    }
  }

  /** What the sweep makes of the i-th save of a call. */
  function SweptSave(r: RunState, saves: seq<RunState>, i: nat, torn: bool): Option<RunState>
    requires i < |saves| && Whole(saves[i])
  {
    FromJson(SweptDoc(ToJson(saves[i]), RowAfter(r, saves, i, torn)))
  }

  /** The row that the i-th save left behind says in progress; the run is over from save f on. */
  predicate RowInProgress(r: RunState, f: nat, i: nat, torn: bool) {
    if !torn then i < f else if i == 0 then r.status == RUN_IN_PROGRESS else i <= f
  }

  ghost predicate SweptAt(r: RunState, saves: seq<RunState>, f: nat, i: nat, torn: bool) {
    && i < |saves| && Whole(saves[i])
    && SweptSave(r, saves, i, torn)
         == Some(if RowInProgress(r, f, i, torn) then Abort(saves[i], ORPHAN_REASON) else saves[i])
  }

  /** Every save of every call, whole or torn: the sweep aborts the saved run exactly when the row it
      left behind was written before the run was over. So a finish of any kind is lost if it is torn. */
  lemma SweepOfCall(r: RunState, exec: Exec) returns (f: nat)
    requires Orderly(r)
    ensures OverFrom(Call(r, exec), f) && f > 0
    ensures f < |Call(r, exec)| - 1 ==> Last(Call(r, exec)).status == RUN_ABORTED
    ensures forall i: nat, torn :: i < |Call(r, exec)| ==> SweptAt(r, Call(r, exec), f, i, torn)
  {
    var saves, b := Call(r, exec), Restarted(Begun(r));
    f := FromStageOverFrom(b, 0, exec, 0);
    OpeningOver(Opening(r), FromStage(b, 0, exec, 0), f);
    f := f + |Opening(r)|;
    CallChain(r, exec);
    forall i: nat, torn | i < |saves|
      ensures SweptAt(r, saves, f, i, torn)
    {
      ChainAt(r, saves, i);
      SweptIs(r, saves, f, i, torn);
    }
  }

  lemma OpeningOver(a: seq<RunState>, b: seq<RunState>, f: nat)
    requires OverFrom(b, f) && forall i :: 0 <= i < |a| ==> a[i].status == RUN_IN_PROGRESS
    ensures OverFrom(a + b, |a| + f)
  {
  }

  lemma SweptIs(r: RunState, saves: seq<RunState>, f: nat, i: nat, torn: bool)
    requires OverFrom(saves, f) && i < |saves| && Whole(saves[i])
    ensures SweptAt(r, saves, f, i, torn)
  {
    JsonRoundTrip(saves[i]);
    JsonRoundTrip(Abort(saves[i], ORPHAN_REASON));
  }

  /** The save f with which a run is over, be it OK, failed or aborted: whole, it stays as it is; torn, it
      comes back aborted, with the stages it finished with. */
  lemma TornFinishIsLost(r: RunState, exec: Exec, f: nat)
    requires Orderly(r) && OverFrom(Call(r, exec), f) && Whole(Call(r, exec)[f])
    ensures SweptSave(r, Call(r, exec), f, false) == Some(Call(r, exec)[f])
    ensures SweptSave(r, Call(r, exec), f, true) == Some(Abort(Call(r, exec)[f], ORPHAN_REASON))
  {
    assert Call(r, exec)[0] == Begun(r);
    SweptIs(r, Call(r, exec), f, f, false);
    SweptIs(r, Call(r, exec), f, f, true);
  }

  /** The sweep loses the cleanup for good at exactly the saves that owe it: what it leaves owes it just
      the same, and is not in progress, so nothing resumes it. The one exception is a torn first save of a
      run that was not in progress before: the sweep does not see it. */
  lemma SweepLosesCleanup(r: RunState, exec: Exec, j: nat, torn: bool, owed: bool)
    requires Orderly(r) && j < |Call(r, exec)| && Whole(Call(r, exec)[j])
    ensures var z := SweptSave(r, Call(r, exec), j, torn);
      && z.Some? && Whole(z.value)
      && (OwedAt(r, z.value, owed) <==> OwedAt(r, Call(r, exec)[j], owed))
      && (z.value.status == RUN_IN_PROGRESS <==> j == 0 && torn && r.status != RUN_IN_PROGRESS)
      && (Owing(r, Call(r, exec)[j]) ==> z.value.status != RUN_IN_PROGRESS)
  {
    var f := SweepOfCall(r, exec);
    assert SweptAt(r, Call(r, exec), f, j, torn);
    assert Call(r, exec)[0] == Begun(r);
  }
}
