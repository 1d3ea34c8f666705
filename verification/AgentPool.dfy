/**
 agent_driver/pool_manager.py: leasing containers and their workspaces. The clock, docker restarts,
 health probes and directory operations are oracles; symbolic links are not modelled.
 */
module AgentPool {
  import opened Options
  import opened Strings

  // ---------- values ----------

  datatype Handle = Handle(name: string, runCount: nat, bootedAt: int, runId: Option<string>)

  /** The handles in the order of the dictionary, and the directories under the workspace root. */
  datatype Pool = Pool(handles: seq<Handle>, workspaces: set<string>)

  datatype Limits = Limits(maxRuns: int, maxAge: int)

  /** safe_run_workspace accepts the id. */
  predicate ValidRunId(runId: string) {
    !In("/", runId) && !In("\\", runId) && !In("..", runId) && !("." <= runId)
  }

  /** Whether a restart works, whether the container recovers, when it was restarted, whether the
      workspace directory can be made. */
  datatype AcquireEvents = AcquireEvents(restarts: bool, recovers: bool, rebootedAt: int, mkdirFails: bool)

  datatype Acquired = Leased(at: nat) | PoolBusy | Unhealthy | BadRunId | WorkspaceExists | MkdirFailed
  datatype Released = Returned | NotLeased | RemoveFailed

  predicate Idle(h: Handle) {
    h.runId.None?
  }

  predicate Before(a: Handle, b: Handle) {
    a.runCount < b.runCount || (a.runCount == b.runCount && a.bootedAt < b.bootedAt)
  }

  /** _pick_idle on the first n handles: the first of the least used, longest running idle ones. */
  function PickIdle(hs: seq<Handle>, n: nat): (r: Option<nat>)
    requires n <= |hs|
    ensures r.Some? ==> r.value < n && Idle(hs[r.value])
    ensures r.Some? ==> forall j :: 0 <= j < n && Idle(hs[j]) ==>
      !Before(hs[j], hs[r.value]) && (j < r.value ==> Before(hs[r.value], hs[j]))
    ensures r.None? ==> forall j :: 0 <= j < n ==> !Idle(hs[j])
  {
    if n == 0 then None
    else
      var r := PickIdle(hs, n - 1);
      if Idle(hs[n - 1]) && (r.None? || Before(hs[n - 1], hs[r.value])) then Some(n - 1) else r
  }

  function FindLease(hs: seq<Handle>, runId: string, from: nat := 0): (r: Option<nat>)
    requires from <= |hs|
    ensures r.Some? ==> from <= r.value < |hs| && hs[r.value].runId == Some(runId)
    ensures r.None? ==> forall j :: from <= j < |hs| ==> hs[j].runId != Some(runId)
    decreases |hs| - from
  {
    if from == |hs| then None
    else if hs[from].runId == Some(runId) then Some(from)
    else FindLease(hs, runId, from + 1)
  }

  predicate DueForRecycling(h: Handle, limits: Limits, now: int) {
    h.runCount >= limits.maxRuns || now - h.bootedAt >= limits.maxAge
  }

  /** _maybe_recycle: the handle afterwards, and whether it may be leased. */
  function Recycled(h: Handle, limits: Limits, now: int, ev: AcquireEvents): (Handle, bool) {
    if !DueForRecycling(h, limits, now) then (h, true)
    else if !ev.restarts then (h, false)
    else (h.(runCount := 0, bootedAt := ev.rebootedAt), ev.recovers)
  }

  function Leasing(p: Pool, limits: Limits, runId: string, now: int, ev: AcquireEvents): (Pool, Acquired) {
    match PickIdle(p.handles, |p.handles|)
    case None => (p, PoolBusy)
    case Some(i) =>
      var (h, usable) := Recycled(p.handles[i], limits, now, ev);
      var p' := p.(handles := p.handles[i := h]);
      if !usable then (p', Unhealthy)
      else if !ValidRunId(runId) then (p', BadRunId)
      else if runId == "" || runId in p.workspaces then (p', WorkspaceExists)
      else if ev.mkdirFails then (p', MkdirFailed)
      else (Pool(p.handles[i := h.(runId := Some(runId), runCount := h.runCount + 1)], p.workspaces + {runId}),
            Leased(i))
  }

  function Releasing(p: Pool, runId: string, rmtreeFails: bool): (Pool, Released) {
    match FindLease(p.handles, runId)
    case None => (p, NotLeased)
    case Some(i) =>
      if runId in p.workspaces && rmtreeFails then (p, RemoveFailed)
      else (Pool(p.handles[i := p.handles[i].(runId := None)], p.workspaces - {runId}), Returned)
  }

  // ---------- the classes ----------

  class ContainerHandle {
    const name: string
    var runCount: nat
    var bootedAt: int
    var runId: Option<string>

    function Value(): Handle
      reads this
    {
      Handle(name, runCount, bootedAt, runId)
    }

    constructor (name: string, bootedAt: int)
      ensures Value() == Handle(name, 0, bootedAt, None)
    {
      this.name, this.runCount, this.bootedAt, this.runId := name, 0, bootedAt, None;
    }
  }

  class PoolManager {
    const handles: seq<ContainerHandle>
    const limits: Limits
    var workspaces: set<string>

    ghost predicate Valid() {
      forall i, j :: 0 <= i < j < |handles| ==> handles[i] != handles[j]
    }

    function Value(): Pool
      reads this, handles
    {
      Pool(seq(|handles|, i requires 0 <= i < |handles| reads this, handles => handles[i].Value()), workspaces)
    }

    lemma Changed(before: Pool, i: nat)
      requires Valid() && i < |handles| && |before.handles| == |handles|
      requires forall j :: 0 <= j < |handles| && j != i ==> handles[j].Value() == before.handles[j]
      ensures Value() == Pool(before.handles[i := handles[i].Value()], workspaces)
    {
    }

    method Pick() returns (r: Option<nat>)
      ensures r == PickIdle(Value().handles, |handles|)
    {
      r := None;
      for k := 0 to |handles|
        invariant r == PickIdle(Value().handles, k)
      {
        var h := handles[k].Value();
        if h.runId.None? && (r.None? || Before(h, handles[r.value].Value())) {
          r := Some(k);
        }
      }
    }

    method MaybeRecycle(i: nat, now: int, ev: AcquireEvents) returns (usable: bool)
      requires Valid() && i < |handles|
      modifies handles[i]
      ensures var r := Recycled(old(handles[i].Value()), limits, now, ev);
        handles[i].Value() == r.0 && usable == r.1
    {
      var h := handles[i];
      if !(h.runCount >= limits.maxRuns || now - h.bootedAt >= limits.maxAge) {
        return true;
      }
      if !ev.restarts {
        return false;
      }
      h.runCount, h.bootedAt := 0, ev.rebootedAt;
      return ev.recovers;
    }

    method Acquire(runId: string, now: int, ev: AcquireEvents) returns (result: Acquired)
      requires Valid()
      modifies this, handles
      ensures (Value(), result) == Leasing(old(Value()), limits, runId, now, ev)
    {
      var picked := Pick();
      if picked.None? {
        return PoolBusy;
      }
      var i := picked.value;
      ghost var before := Value();
      var usable := MaybeRecycle(i, now, ev);
      Changed(before, i);
      if !usable {
        return Unhealthy;
      }
      if !ValidRunId(runId) {
        return BadRunId;
      }
      if runId == "" || runId in workspaces {
        return WorkspaceExists;
      }
      if ev.mkdirFails {
        return MkdirFailed;
      }
      workspaces := workspaces + {runId};
      handles[i].runId := Some(runId);
      handles[i].runCount := handles[i].runCount + 1;
      Changed(before, i);
      return Leased(i);
    }

    method Find(runId: string) returns (r: Option<nat>)
      ensures r == FindLease(Value().handles, runId)
    {
      for k := 0 to |handles|
        invariant FindLease(Value().handles, runId) == FindLease(Value().handles, runId, k)
      {
        if handles[k].runId == Some(runId) {
          return Some(k);
        }
      }
      return None;
    }

    method Release(runId: string, rmtreeFails: bool) returns (result: Released)
      requires Valid()
      modifies this, handles
      ensures (Value(), result) == Releasing(old(Value()), runId, rmtreeFails)
    {
      var found := Find(runId);
      if found.None? {
        return NotLeased;
      }
      ghost var before := Value();
      if runId in workspaces {
        if rmtreeFails {
          return RemoveFailed;
        }
      }
      workspaces := workspaces - {runId};
      handles[found.value].runId := None;
      Changed(before, found.value);
      return Returned;
    }
  }

  // ---------- what every trace keeps ----------

  function LeasedIds(hs: seq<Handle>): set<string> {
    set i | 0 <= i < |hs| && hs[i].runId.Some? :: hs[i].runId.value
  }

  /** Every lease owns one workspace and no two leases share one; the other workspaces are those that
      were there at the start; no container has served more runs than allowed. */
  ghost predicate Sound(p: Pool, limits: Limits, stale: set<string>) {
    && (forall i, j :: 0 <= i < j < |p.handles| && p.handles[i].runId.Some? ==>
      p.handles[i].runId != p.handles[j].runId)
    && p.workspaces == LeasedIds(p.handles) + stale
    && LeasedIds(p.handles) !! stale
    && (limits.maxRuns >= 1 ==> forall i :: 0 <= i < |p.handles| ==> p.handles[i].runCount <= limits.maxRuns)
  }

  lemma LeaseAdds(hs: seq<Handle>, i: nat, h: Handle)
    requires i < |hs| && hs[i].runId.None?
    ensures LeasedIds(hs[i := h]) == LeasedIds(hs) + if h.runId.Some? then {h.runId.value} else {}
  {
    var hs' := hs[i := h];
    forall x | x in LeasedIds(hs)
      ensures x in LeasedIds(hs')
    {
      var j :| 0 <= j < |hs| && hs[j].runId == Some(x);
      assert hs'[j].runId == Some(x);
    }
    if h.runId.Some? {
      assert hs'[i].runId == Some(h.runId.value);
    }
    forall x | x in LeasedIds(hs')
      ensures x in LeasedIds(hs) || h.runId == Some(x)
    {
      var j :| 0 <= j < |hs'| && hs'[j].runId == Some(x);
    }
  }

  lemma LeaseEnds(hs: seq<Handle>, i: nat)
    requires i < |hs| && hs[i].runId.Some?
    requires forall j, k :: 0 <= j < k < |hs| && hs[j].runId.Some? ==> hs[j].runId != hs[k].runId
    ensures LeasedIds(hs[i := hs[i].(runId := None)]) == LeasedIds(hs) - {hs[i].runId.value}
  {
    var hs' := hs[i := hs[i].(runId := None)];
    forall x | x in LeasedIds(hs) && x != hs[i].runId.value
      ensures x in LeasedIds(hs')
    {
      var j :| 0 <= j < |hs| && hs[j].runId == Some(x);
      assert hs'[j].runId == Some(x);
    }
    forall x | x in LeasedIds(hs')
      ensures x in LeasedIds(hs) && x != hs[i].runId.value
    {
      var j :| 0 <= j < |hs'| && hs'[j].runId == Some(x);
      assert hs[j].runId == Some(x) && j != i;
    }
  }

  lemma AcquireSound(p: Pool, limits: Limits, stale: set<string>, runId: string, now: int, ev: AcquireEvents)
    requires Sound(p, limits, stale)
    ensures Sound(Leasing(p, limits, runId, now, ev).0, limits, stale)
  {
    var picked := PickIdle(p.handles, |p.handles|);
    if picked.Some? {
      var i := picked.value;
      var (h, usable) := Recycled(p.handles[i], limits, now, ev);
      LeaseAdds(p.handles, i, h);
      LeaseAdds(p.handles, i, h.(runId := Some(runId), runCount := h.runCount + 1));
      if runId !in p.workspaces {
        forall j | 0 <= j < |p.handles|
          ensures p.handles[j].runId != Some(runId)
        {
          assert p.handles[j].runId.Some? ==> p.handles[j].runId.value in LeasedIds(p.handles);
        }
      }
    }
  }

  lemma ReleaseSound(p: Pool, limits: Limits, stale: set<string>, runId: string, rmtreeFails: bool)
    requires Sound(p, limits, stale)
    ensures Sound(Releasing(p, runId, rmtreeFails).0, limits, stale)
  {
    var found := FindLease(p.handles, runId);
    if found.Some? {
      LeaseEnds(p.handles, found.value);
      assert runId in LeasedIds(p.handles);
    }
  }

  datatype Op = DoAcquire(runId: string, now: int, ev: AcquireEvents) | DoRelease(runId: string, rmtreeFails: bool)

  function After(p: Pool, limits: Limits, ops: seq<Op>): Pool {
    if ops == [] then p
    else
      var q := After(p, limits, ops[..|ops| - 1]);
      match ops[|ops| - 1]
      case DoAcquire(runId, now, ev) => Leasing(q, limits, runId, now, ev).0
      case DoRelease(runId, rmtreeFails) => Releasing(q, runId, rmtreeFails).0
  }

  /** Over every trace of acquires and releases, failed restarts, failed recoveries, refused ids and
      failed directory operations included. */
  lemma {:induction false} TraceSound(p: Pool, limits: Limits, stale: set<string>, ops: seq<Op>)
    requires Sound(p, limits, stale)
    ensures Sound(After(p, limits, ops), limits, stale)
    decreases ops
  {
    if ops != [] {
      TraceSound(p, limits, stale, ops[..|ops| - 1]);
      var q := After(p, limits, ops[..|ops| - 1]);
      match ops[|ops| - 1] {
        case DoAcquire(runId, now, ev) => AcquireSound(q, limits, stale, runId, now, ev);
        case DoRelease(runId, rmtreeFails) => ReleaseSound(q, limits, stale, runId, rmtreeFails);
      }
    }
  }

  /** A new pool is sound, whatever directories it finds. */
  lemma NewPoolSound(p: Pool, limits: Limits)
    requires forall i :: 0 <= i < |p.handles| ==> p.handles[i].runCount == 0 && p.handles[i].runId.None?
    ensures Sound(p, limits, p.workspaces)
  {
    assert LeasedIds(p.handles) == {};
  }

  /** PoolBusy is raised exactly when every container is leased. */
  lemma BusyWhenAllLeased(p: Pool, limits: Limits, runId: string, now: int, ev: AcquireEvents)
    ensures Leasing(p, limits, runId, now, ev).1.PoolBusy? <==> forall i :: 0 <= i < |p.handles| ==>
      p.handles[i].runId.Some?
  {
  }

  /** After any trace, a run id that some container is leased to is not leased again. */
  lemma NoDoubleLease(p: Pool, limits: Limits, stale: set<string>, ops: seq<Op>, i: nat, now: int, ev: AcquireEvents)
    requires Sound(p, limits, stale) && i < |After(p, limits, ops).handles|
    requires After(p, limits, ops).handles[i].runId.Some?
    ensures var q := After(p, limits, ops);
      var (q', got) := Leasing(q, limits, q.handles[i].runId.value, now, ev);
      !got.Leased? && q'.workspaces == q.workspaces && LeasedIds(q'.handles) == LeasedIds(q.handles)
  {
    TraceSound(p, limits, stale, ops);
    var q := After(p, limits, ops);
    AcquireSound(q, limits, stale, q.handles[i].runId.value, now, ev);
  }

  /** Releasing a lease undoes it: the container is idle again, the workspaces are as they were, and no
      other handle has changed. Only the use count and, after a recycling, the boot time remember it. */
  lemma ReleaseUndoes(p: Pool, limits: Limits, stale: set<string>, runId: string, now: int, ev: AcquireEvents)
    requires Sound(p, limits, stale)
    ensures var (q, leased) := Leasing(p, limits, runId, now, ev);
      leased.Leased? ==>
        var (r, returned) := Releasing(q, runId, false);
        && returned == Returned && r.workspaces == p.workspaces && |r.handles| == |p.handles|
        && Idle(p.handles[leased.at])
        && forall i :: 0 <= i < |p.handles| ==>
             if i == leased.at then Idle(r.handles[i]) else r.handles[i] == p.handles[i]
  {
    AcquireSound(p, limits, stale, runId, now, ev);
    var (q, leased) := Leasing(p, limits, runId, now, ev);
    if leased.Leased? {
      var found := FindLease(q.handles, runId);
      assert q.handles[leased.at].runId == Some(runId);
      assert found.Some? && found.value == leased.at;
    }
  }

  /** max_runs below 1 is the exception: a lease then exceeds it. */
  lemma ZeroMaxRunsExceeded(p: Pool, limits: Limits, runId: string, now: int, ev: AcquireEvents)
    requires Leasing(p, limits, runId, now, ev).1.Leased?
    ensures var (q, leased) := Leasing(p, limits, runId, now, ev);
      (forall i :: 0 <= i < |p.handles| ==> p.handles[i].runCount <= limits.maxRuns || limits.maxRuns < 1) ==>
        (q.handles[leased.at].runCount <= limits.maxRuns <==> limits.maxRuns >= 1)
  {
  }

  // ---------- case by case ----------

  /** The idle container that is used least; of those the one that was started first; of those the first. */
  ghost predicate IsPick(hs: seq<Handle>, i: nat) {
    && i < |hs| && hs[i].runId == None
    && forall j :: 0 <= j < |hs| && hs[j].runId == None ==>
         || hs[i].runCount < hs[j].runCount
         || (hs[i].runCount == hs[j].runCount && hs[i].bootedAt < hs[j].bootedAt)
         || (hs[i].runCount == hs[j].runCount && hs[i].bootedAt == hs[j].bootedAt && i <= j)
  }

  /** It has served enough runs, or long enough. */
  predicate WornOut(h: Handle, limits: Limits, now: int) {
    limits.maxRuns <= h.runCount || h.bootedAt + limits.maxAge <= now
  }

  /** An id that cannot name a directory of its own. */
  predicate BadId(runId: string) {
    || '/' in runId || '\\' in runId || (runId != "" && runId[0] == '.')
    || exists i :: 0 <= i < |runId| - 1 && runId[i] == '.' && runId[i + 1] == '.'
  }

  lemma CharIn(c: char, s: string)
    ensures In([c], s) <==> c in s
  {
    forall i
      ensures OccursAt(s, [c], i) <==> 0 <= i < |s| && s[i] == c
    {
      if 0 <= i < |s| {
        assert s[i..i + 1] == [s[i]];
      }
    }
    if i :| 0 <= i < |s| && s[i] == c {
      assert OccursAt(s, [c], i);
    }
  }

  lemma DotsIn(s: string)
    ensures In("..", s) <==> exists i :: 0 <= i < |s| - 1 && s[i] == '.' && s[i + 1] == '.'
  {
    if In("..", s) {
      var at :| OccursAt(s, "..", at);
      assert s[at..at + 2][0] == s[at] && s[at..at + 2][1] == s[at + 1];
    }
    if i :| 0 <= i < |s| - 1 && s[i] == '.' && s[i + 1] == '.' {
      assert s[i..i + 2] == "..";
      assert OccursAt(s, "..", i);
    }
  }

  lemma BadIdIs(runId: string)
    ensures ValidRunId(runId) <==> !BadId(runId)
  {
    CharIn('/', runId);
    CharIn('\\', runId);
    DotsIn(runId);
    assert "." <= runId <==> runId != "" && runId[0] == '.';
    assert ['/'] == "/" && ['\\'] == "\\";
  }

  /** The answer for a container that was picked, in the order of the checks. */
  ghost predicate AnswerIs(p: Pool, limits: Limits, runId: string, now: int, ev: AcquireEvents, i: nat, got: Acquired)
    requires i < |p.handles|
  {
    if WornOut(p.handles[i], limits, now) && !(ev.restarts && ev.recovers) then got == Unhealthy
    else if BadId(runId) then got == BadRunId
    else if runId == "" || runId in p.workspaces then got == WorkspaceExists
    else if ev.mkdirFails then got == MkdirFailed
    else got == Leased(i)
  }

  /** The container that was picked, afterwards: started afresh if it was due and that worked, and leased if the
      answer says so. */
  ghost predicate HandleIs(h: Handle, h': Handle, limits: Limits, runId: string, now: int, ev: AcquireEvents,
                           leased: bool)
  {
    var afresh := WornOut(h, limits, now) && ev.restarts;
    && h'.name == h.name
    && h'.bootedAt == (if afresh then ev.rebootedAt else h.bootedAt)
    && h'.runCount == (if afresh then 0 else h.runCount) + (if leased then 1 else 0)
    && h'.runId == (if leased then Some(runId) else h.runId)
  }

  ghost predicate LeaseIs(p: Pool, limits: Limits, runId: string, now: int, ev: AcquireEvents, q: Pool, got: Acquired) {
    if forall i :: 0 <= i < |p.handles| ==> p.handles[i].runId.Some? then q == p && got == PoolBusy
    else exists i :: IsPick(p.handles, i) && LeaseAt(p, limits, runId, now, ev, q, got, i)
  }

  ghost predicate LeaseAt(p: Pool, limits: Limits, runId: string, now: int, ev: AcquireEvents, q: Pool, got: Acquired,
                          i: nat)
    requires i < |p.handles|
  {
    && |q.handles| == |p.handles| && (forall j :: 0 <= j < |p.handles| && j != i ==> q.handles[j] == p.handles[j])
    && HandleIs(p.handles[i], q.handles[i], limits, runId, now, ev, got.Leased?)
    && q.workspaces == (if got.Leased? then p.workspaces + {runId} else p.workspaces)
    && AnswerIs(p, limits, runId, now, ev, i, got)
  }

  /** acquire: which container is looked at, what becomes of it, and what is answered. */
  lemma LeasingIs(p: Pool, limits: Limits, runId: string, now: int, ev: AcquireEvents)
    ensures var (q, got) := Leasing(p, limits, runId, now, ev); LeaseIs(p, limits, runId, now, ev, q, got)
  {
    BadIdIs(runId);
    var picked := PickIdle(p.handles, |p.handles|);
    if picked.Some? {
      assert IsPick(p.handles, picked.value);
      assert WornOut(p.handles[picked.value], limits, now) <==> DueForRecycling(p.handles[picked.value], limits, now);
      var (q, got) := Leasing(p, limits, runId, now, ev);
      assert LeaseAt(p, limits, runId, now, ev, q, got, picked.value);
    }
  }

  /** release: without a lease, or with a workspace that cannot be removed, nothing changes; otherwise that container
      is idle and that workspace is gone. */
  lemma ReleasingIs(p: Pool, runId: string, rmtreeFails: bool)
    ensures var (q, result) := Releasing(p, runId, rmtreeFails);
      var held := exists i :: 0 <= i < |p.handles| && p.handles[i].runId == Some(runId);
      && (result == NotLeased <==> !held)
      && (result == RemoveFailed <==> held && runId in p.workspaces && rmtreeFails)
      && (result != Returned ==> q == p)
      && (result == Returned ==>
            && q.workspaces == p.workspaces - {runId}
            && exists i :: 0 <= i < |p.handles| && p.handles[i].runId == Some(runId)
                           && q.handles == p.handles[i := p.handles[i].(runId := None)])
  {
  }
}
