/**
 The job queue of orchestrator/main.py: queue.jsonl, the index rows it is checked against, and the
 single consumer. Each enqueue, and each pop with the save that follows it, is one atomic step; the
 clock is monotone, so a row made later is listed earlier. Run ids are fresh.
 */
module JobQueue {
  import opened StateMachine

  /** An id that the hand-written JSON line of enqueue keeps intact. */
  predicate Plain(s: string) {
    s != "" && forall i :: 0 <= i < |s| ==> s[i] > '\U{1f}' && s[i] != '"' && s[i] != '\\'
  }

  type HfId = s: string | Plain(s) witness "a"

  datatype Job = Job(runId: string, hfId: HfId)

  /** A row of the index. */
  datatype RunRow = RunRow(runId: string, hfId: HfId, status: RunStatus, createdAt: int)

  const LIST_LIMIT: nat := 500

  /** list_runs(limit=500): the newest rows; `rows` is in order of creation. */
  function Newest(rows: seq<RunRow>, limit: nat): seq<RunRow> {
    if |rows| <= limit then rows else rows[|rows| - limit..]
  }

  predicate Active(r: RunRow) {
    r.status == RUN_PENDING || r.status == RUN_IN_PROGRESS
  }

  predicate Queued(lines: seq<Job>, hfId: HfId) {
    exists i :: 0 <= i < |lines| && lines[i].hfId == hfId
  }

  predicate Busy(rows: seq<RunRow>, hfId: HfId) {
    exists i :: 0 <= i < |rows| && Active(rows[i]) && rows[i].hfId == hfId
  }

  /** A run of the id that succeeded since the cutoff. */
  predicate RecentlyOk(rows: seq<RunRow>, hfId: HfId, cutoff: int) {
    exists i :: 0 <= i < |rows| && rows[i].hfId == hfId && rows[i].status == RUN_OK && rows[i].createdAt >= cutoff
  }

  /** Only the newest run of the id since the cutoff decides. */
  function RecentlyFailed(rows: seq<RunRow>, hfId: HfId, cutoff: int): bool {
    if rows == [] then false
    else
      var r := rows[|rows| - 1];
      if r.hfId == hfId && r.createdAt >= cutoff then r.status == RUN_FAILED || r.status == RUN_ABORTED
      else RecentlyFailed(rows[..|rows| - 1], hfId, cutoff)
  }

  const OK_WINDOW := 30 * 86400
  const FAILED_WINDOW := 12 * 3600

  /** enqueue takes the id on. */
  predicate Admits(lines: seq<Job>, rows: seq<RunRow>, hfId: HfId, skipIfRecent: bool, now: int) {
    var listed := Newest(rows, LIST_LIMIT);
    && !Queued(lines, hfId) && !Busy(listed, hfId)
    && (skipIfRecent ==>
          !RecentlyOk(listed, hfId, now - OK_WINDOW) && !RecentlyFailed(listed, hfId, now - FAILED_WINDOW))
  }

  /** The queue as a value; `enqueued` and `popped` are its history. While the consumer is at work, its
      run is the newest row. */
  datatype State = State(lines: seq<Job>, rows: seq<RunRow>, working: bool, enqueued: seq<Job>, popped: seq<Job>)

  datatype Op =
    | Enqueue(hfId: HfId, skipIfRecent: bool, now: int, runId: string)
    | PopAndSave(now: int)
    | Save(status: RunStatus)   // the consumer saves its current run
    | Restart                   // the consumer died; the startup sweep aborts what is in progress

  function Swept(rows: seq<RunRow>): seq<RunRow> {
    seq(|rows|, i requires 0 <= i < |rows| =>
      if rows[i].status == RUN_IN_PROGRESS then rows[i].(status := RUN_ABORTED) else rows[i])
  }

  /** The consumer pops only when its run is over. */
  predicate Enabled(s: State, op: Op) {
    match op
    case PopAndSave(_) => !s.working
    case Save(status) => s.working && status != RUN_PENDING
    case _ => true
  }

  function Step(s: State, op: Op): State {
    match op
    case Enqueue(hfId, skipIfRecent, now, runId) =>
      if Admits(s.lines, s.rows, hfId, skipIfRecent, now) then
        s.(lines := s.lines + [Job(runId, hfId)], enqueued := s.enqueued + [Job(runId, hfId)])
      else s
    case PopAndSave(now) =>
      if s.lines == [] then s
      else
        var job := s.lines[0];
        s.(lines := s.lines[1..], popped := s.popped + [job], working := true,
           rows := s.rows + [RunRow(job.runId, job.hfId, RUN_PENDING, now)])
    case Save(status) =>
      if s.rows == [] then s
      else s.(rows := s.rows[|s.rows| - 1 := s.rows[|s.rows| - 1].(status := status)],
              working := status == RUN_IN_PROGRESS)
    case Restart => s.(rows := Swept(s.rows), working := false)
  }

  class Queue {
    var lines: seq<Job>
    var rows: seq<RunRow>
    var working: bool
    ghost var enqueued: seq<Job>
    ghost var popped: seq<Job>

    ghost function Value(): State
      reads this
    {
      State(lines, rows, working, enqueued, popped)
    }

    method HasRecentFailed(hfId: HfId, cutoff: int) returns (failed: bool)
      ensures failed == RecentlyFailed(Newest(rows, LIST_LIMIT), hfId, cutoff)
    {
      var listed := Newest(rows, LIST_LIMIT);
      var k := |listed|;
      assert listed[..k] == listed;
      while k > 0
        invariant k <= |listed|
        invariant RecentlyFailed(listed, hfId, cutoff) == RecentlyFailed(listed[..k], hfId, cutoff)
      {
        k := k - 1;
        assert listed[..k + 1][..k] == listed[..k];
        var r := listed[k];
        if r.hfId != hfId || r.createdAt < cutoff {
          continue;
        }
        return r.status == RUN_FAILED || r.status == RUN_ABORTED;
      }
      return false;
    }

    method Enqueue(hfId: HfId, skipIfRecent: bool, now: int, runId: string) returns (added: bool)
      modifies this
      ensures Value() == Step(old(Value()), Op.Enqueue(hfId, skipIfRecent, now, runId))
      ensures added <==> old(Admits(lines, rows, hfId, skipIfRecent, now))
    {
      var listed := Newest(rows, LIST_LIMIT);
      if Queued(lines, hfId) || Busy(listed, hfId) {
        return false;
      }
      if skipIfRecent && RecentlyOk(listed, hfId, now - OK_WINDOW) {
        return false;
      }
      var failed := HasRecentFailed(hfId, now - FAILED_WINDOW);
      if skipIfRecent && failed {
        return false;
      }
      lines := lines + [Job(runId, hfId)];
      enqueued := enqueued + [Job(runId, hfId)];
      return true;
    }

    /** pop_one and the save_run that follows it. */
    method PopAndSave(now: int) returns (job: seq<Job>)
      modifies this
      ensures Value() == Step(old(Value()), Op.PopAndSave(now))
      ensures job == if old(lines) == [] then [] else [old(lines)[0]]
    {
      if lines == [] {
        return [];
      }
      var head := lines[0];
      lines := lines[1..];
      rows := rows + [RunRow(head.runId, head.hfId, RUN_PENDING, now)];
      popped, working := popped + [head], true;
      return [head];
    }
  }

  // ---------- what is taken on ----------

  /** One of the newest 500 rows, with the id. */
  predicate ListedOf(rows: seq<RunRow>, i: int, hfId: HfId) {
    0 <= i < |rows| && |rows| - 500 <= i && rows[i].hfId == hfId
  }

  /** A listed run of the id is pending or in progress. */
  ghost predicate Underway(rows: seq<RunRow>, hfId: HfId) {
    exists i :: ListedOf(rows, i, hfId) && rows[i].status in {RUN_PENDING, RUN_IN_PROGRESS}
  }

  /** A listed run of the id succeeded in the last thirty days. */
  ghost predicate DoneLately(rows: seq<RunRow>, hfId: HfId, now: int) {
    exists i :: ListedOf(rows, i, hfId) && rows[i].status == RUN_OK && now - rows[i].createdAt <= 2592000
  }

  /** The newest listed run of the id in the last twelve hours failed or was aborted. */
  ghost predicate FailedLately(rows: seq<RunRow>, hfId: HfId, now: int) {
    exists i :: ListedOf(rows, i, hfId) && FailedLatelyAt(rows, hfId, now, i)
  }

  ghost predicate FailedLatelyAt(rows: seq<RunRow>, hfId: HfId, now: int, i: nat)
    requires i < |rows|
  {
    && now - rows[i].createdAt <= 43200 && rows[i].status in {RUN_FAILED, RUN_ABORTED}
    && forall j :: i < j && ListedOf(rows, j, hfId) ==> now - rows[j].createdAt > 43200
  }

  lemma {:induction false} RecentlyFailedIs(rows: seq<RunRow>, hfId: HfId, cutoff: int)
    ensures RecentlyFailed(rows, hfId, cutoff) <==> NewestFailed(rows, hfId, cutoff)
    decreases rows
  {
    if rows != [] {
      RecentlyFailedIs(rows[..|rows| - 1], hfId, cutoff);
      NewestFailedSnoc(rows[..|rows| - 1], rows[|rows| - 1], hfId, cutoff);
      assert rows == rows[..|rows| - 1] + [rows[|rows| - 1]];
    }
  }

  predicate Since(r: RunRow, hfId: HfId, cutoff: int) {
    r.hfId == hfId && r.createdAt >= cutoff
  }

  ghost predicate NewestFailed(rows: seq<RunRow>, hfId: HfId, cutoff: int) {
    exists i :: 0 <= i < |rows| && NewestFailedAt(rows, hfId, cutoff, i)
  }

  ghost predicate NewestFailedAt(rows: seq<RunRow>, hfId: HfId, cutoff: int, i: nat)
    requires i < |rows|
  {
    && Since(rows[i], hfId, cutoff) && rows[i].status in {RUN_FAILED, RUN_ABORTED}
    && forall j :: i < j < |rows| ==> !Since(rows[j], hfId, cutoff)
  }

  lemma NewestFailedSnoc(init: seq<RunRow>, r: RunRow, hfId: HfId, cutoff: int)
    ensures NewestFailed(init + [r], hfId, cutoff) <==>
      if Since(r, hfId, cutoff) then r.status in {RUN_FAILED, RUN_ABORTED} else NewestFailed(init, hfId, cutoff)
  {
    var all := init + [r];
    assert all[|init|] == r;
    if Since(r, hfId, cutoff) && r.status in {RUN_FAILED, RUN_ABORTED} {
      assert NewestFailedAt(all, hfId, cutoff, |init|);
    }
    if NewestFailed(init, hfId, cutoff) && !Since(r, hfId, cutoff) {
      var i :| 0 <= i < |init| && NewestFailedAt(init, hfId, cutoff, i);
      assert NewestFailedAt(all, hfId, cutoff, i);
    }
    if NewestFailed(all, hfId, cutoff) && !Since(r, hfId, cutoff) {
      var i :| 0 <= i < |all| && NewestFailedAt(all, hfId, cutoff, i);
      assert NewestFailedAt(init, hfId, cutoff, i) by {
        assert forall j :: 0 <= j < |init| ==> all[j] == init[j];
      }
    }
  }

  /** Row j of the newest is row j + d of all. */
  function Unlisted(rows: seq<RunRow>): (d: nat)
    ensures d <= |rows| && Newest(rows, LIST_LIMIT) == rows[d..]
    ensures forall i, hfId :: ListedOf(rows, i, hfId) <==> d <= i < |rows| && rows[i].hfId == hfId
  {
    if |rows| <= 500 then 0 else |rows| - 500
  }

  lemma FailedFromListed(rows: seq<RunRow>, hfId: HfId, now: int, i: nat)
    requires i < |Newest(rows, LIST_LIMIT)| && NewestFailedAt(Newest(rows, LIST_LIMIT), hfId, now - FAILED_WINDOW, i)
    ensures FailedLately(rows, hfId, now)
  {
    var d, listed := Unlisted(rows), Newest(rows, LIST_LIMIT);
    assert rows[i + d] == listed[i] && ListedOf(rows, i + d, hfId);
    forall j | i + d < j && ListedOf(rows, j, hfId)
      ensures now - rows[j].createdAt > 43200
    {
      assert !Since(listed[j - d], hfId, now - FAILED_WINDOW);
    }
    assert FailedLatelyAt(rows, hfId, now, i + d);
  }

  lemma FailedFromRows(rows: seq<RunRow>, hfId: HfId, now: int, i: nat)
    requires ListedOf(rows, i, hfId) && FailedLatelyAt(rows, hfId, now, i)
    ensures NewestFailed(Newest(rows, LIST_LIMIT), hfId, now - FAILED_WINDOW)
  {
    var d, listed := Unlisted(rows), Newest(rows, LIST_LIMIT);
    assert rows[i] == listed[i - d];
    forall j | i - d < j < |listed|
      ensures !Since(listed[j], hfId, now - FAILED_WINDOW)
    {
      assert rows[j + d] == listed[j];
      assert ListedOf(rows, j + d, hfId) <==> listed[j].hfId == hfId;
    }
    assert NewestFailedAt(listed, hfId, now - FAILED_WINDOW, i - d);
  }

  lemma FailedLatelyIs(rows: seq<RunRow>, hfId: HfId, now: int)
    ensures RecentlyFailed(Newest(rows, LIST_LIMIT), hfId, now - FAILED_WINDOW) <==> FailedLately(rows, hfId, now)
  {
    var listed, cutoff := Newest(rows, LIST_LIMIT), now - FAILED_WINDOW;
    RecentlyFailedIs(listed, hfId, cutoff);
    if i :| 0 <= i < |listed| && NewestFailedAt(listed, hfId, cutoff, i) {
      FailedFromListed(rows, hfId, now, i);
    }
    if i :| ListedOf(rows, i, hfId) && FailedLatelyAt(rows, hfId, now, i) {
      FailedFromRows(rows, hfId, now, i);
    }
  }

  lemma UnderwayIs(rows: seq<RunRow>, hfId: HfId)
    ensures Busy(Newest(rows, LIST_LIMIT), hfId) <==> Underway(rows, hfId)
  {
    var d, listed := Unlisted(rows), Newest(rows, LIST_LIMIT);
    if i :| 0 <= i < |listed| && Active(listed[i]) && listed[i].hfId == hfId {
      assert ListedOf(rows, i + d, hfId) && rows[i + d] == listed[i];
    }
    if i :| ListedOf(rows, i, hfId) && rows[i].status in {RUN_PENDING, RUN_IN_PROGRESS} {
      assert listed[i - d] == rows[i];
    }
  }

  lemma DoneLatelyIs(rows: seq<RunRow>, hfId: HfId, now: int)
    ensures RecentlyOk(Newest(rows, LIST_LIMIT), hfId, now - OK_WINDOW) <==> DoneLately(rows, hfId, now)
  {
    var d, listed := Unlisted(rows), Newest(rows, LIST_LIMIT);
    if i :| 0 <= i < |listed| && listed[i].hfId == hfId && listed[i].status == RUN_OK
            && listed[i].createdAt >= now - OK_WINDOW {
      assert ListedOf(rows, i + d, hfId) && rows[i + d] == listed[i];
    }
    if i :| ListedOf(rows, i, hfId) && rows[i].status == RUN_OK && now - rows[i].createdAt <= 2592000 {
      assert listed[i - d] == rows[i];
    }
  }

  /** When enqueue takes an id on: it is not waiting, no listed run of it is underway, and on the cron path none
      was OK in thirty days and the newest of the last twelve hours did not fail. */
  lemma AdmitsIff(lines: seq<Job>, rows: seq<RunRow>, hfId: HfId, skipIfRecent: bool, now: int)
    ensures Admits(lines, rows, hfId, skipIfRecent, now) <==>
      && (forall i :: 0 <= i < |lines| ==> lines[i].hfId != hfId) && !Underway(rows, hfId)
      && (skipIfRecent ==> !DoneLately(rows, hfId, now) && !FailedLately(rows, hfId, now))
  {
    UnderwayIs(rows, hfId);
    DoneLatelyIs(rows, hfId, now);
    FailedLatelyIs(rows, hfId, now);
  }

  // ---------- what every trace keeps ----------

  /** No id is queued twice; no queued id is active among the listed rows; jobs leave in the order in
      which they came. */
  ghost predicate Sound(s: State) {
    && (forall i, j :: 0 <= i < j < |s.lines| ==> s.lines[i].hfId != s.lines[j].hfId)
    && (forall i :: 0 <= i < |s.lines| ==> !Busy(Newest(s.rows, LIST_LIMIT), s.lines[i].hfId))
    && s.enqueued == s.popped + s.lines
    && (s.working ==> s.rows != [] && Active(s.rows[|s.rows| - 1]))
  }

  lemma PopSound(s: State, now: int)
    requires Sound(s) && !s.working && s.lines != []
    ensures Sound(Step(s, PopAndSave(now)))
  {
    var s' := Step(s, PopAndSave(now));
    assert s.lines == [s.lines[0]] + s'.lines;
    forall i | 0 <= i < |s'.lines|
      ensures !Busy(Newest(s'.rows, LIST_LIMIT), s'.lines[i].hfId)
    {
      assert s'.lines[i] == s.lines[i + 1];
    }
  }

  lemma StepSound(s: State, op: Op)
    requires Sound(s) && Enabled(s, op)
    ensures Sound(Step(s, op))
  {
    match op {
      case Enqueue(hfId, skipIfRecent, now, runId) =>
        if Admits(s.lines, s.rows, hfId, skipIfRecent, now) {
          assert forall i :: 0 <= i < |s.lines| ==> s.lines[i].hfId != hfId;
        }
      case PopAndSave(now) =>
        if s.lines != [] {
          PopSound(s, now);
        }
      case _ =>
    }
  }

  ghost predicate Trace(s: State, ops: seq<Op>, s': State)
    decreases ops
  {
    if ops == [] then s' == s else Enabled(s, ops[0]) && Trace(Step(s, ops[0]), ops[1..], s')
  }

  /** The id waits, or runs among the listed rows. */
  predicate Taken(s: State, hfId: HfId) {
    Queued(s.lines, hfId) || Busy(Newest(s.rows, LIST_LIMIT), hfId)
  }

  /** Over every interleaving of producers, consumer, crashes and restarts. In particular the jobs are
      popped first in, first out, each at most once and none out of nowhere; and where the trace ends, an
      id that waits or runs is not taken on again, with or without the recency checks. */
  lemma {:induction false} TraceSound(s: State, ops: seq<Op>, s': State)
    requires Sound(s) && Trace(s, ops, s')
    ensures Sound(s') && s'.popped <= s'.enqueued && s.popped <= s'.popped
    ensures forall op: Op :: op.Enqueue? && Taken(s', op.hfId) ==> Step(s', op) == s'
    decreases ops
  {
    if ops != [] {
      StepSound(s, ops[0]);
      TraceSound(Step(s, ops[0]), ops[1..], s');
    }
  }

  /** A crash between the pop and the first in-progress save is not repaired by the sweep: the run stays
      pending, and its id is refused for as long as the row is listed. */
  lemma PendingOrphanBlocks(s: State, now: int, hfId: HfId, skipIfRecent: bool, later: int, runId: string)
    requires s.lines != [] && s.lines[0].hfId == hfId
    ensures var dead := Step(Step(s, PopAndSave(now)), Restart);
      Busy(Newest(dead.rows, LIST_LIMIT), hfId) && Step(dead, Enqueue(hfId, skipIfRecent, later, runId)) == dead
  {
    var dead := Step(Step(s, PopAndSave(now)), Restart);
    var listed := Newest(dead.rows, LIST_LIMIT);
    assert listed[|listed| - 1] == dead.rows[|dead.rows| - 1];
    assert Active(listed[|listed| - 1]) && listed[|listed| - 1].hfId == hfId;
  }
}
