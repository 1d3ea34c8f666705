/**
 backup/snapshot.py and backup/retention.py: one pass takes a snapshot and prunes old ones. A snapshot
 is named by its time stamp, an integer here; directories without a snapshot name are never looked at.
 rsync, directory operations and modification times are oracles.
 */
module Backup {
  import opened Options

  /** The snapshots present, and what the `latest` link names. */
  datatype Root = Root(snaps: set<int>, latest: Option<int>)

  datatype Copy = Copied | RsyncMissing | RsyncCrashed | RsyncFailed | MetaFailed

  /** `staleStays`: a directory of the same name could not be removed; `cleanupFails`: the directory of a
      failed copy could not be. */
  datatype SnapshotEvents = SnapshotEvents(overlap: bool, sourceMissing: bool, staleStays: bool, copy: Copy,
                                           cleanupFails: bool, pointerFails: bool)

  datatype SnapshotResult = Taken(linkedTo: Option<int>) | FailedBefore | FailedCopy | PointerFailed | DirectoryInTheWay

  /** _latest_snapshot */
  function Greatest(sorted: seq<int>, exclude: int): Option<int> {
    if sorted == [] then None
    else if sorted[|sorted| - 1] != exclude then Some(sorted[|sorted| - 1])
    else Greatest(sorted[..|sorted| - 1], exclude)
  }

  ghost predicate Sorted(s: seq<int>) {
    forall i, j :: 0 <= i < j < |s| ==> s[i] < s[j]
  }

  /** The order in which a listing is processed: every snapshot once, ascending. */
  ghost predicate Lists(sorted: seq<int>, snaps: set<int>) {
    Sorted(sorted) && forall t :: t in sorted <==> t in snaps
  }

  /** take_snapshot */
  function AfterSnapshot(root: Root, ts: int, ev: SnapshotEvents): Root {
    if ev.overlap || ev.sourceMissing then root
    else if ts in root.snaps && ev.staleStays then root
    else if ev.copy.Copied? then Root(root.snaps + {ts}, if ev.pointerFails then root.latest else Some(ts))
    else root.(snaps := if ev.cleanupFails then root.snaps + {ts} else root.snaps - {ts})
  }

  datatype Pruned = Pruned(removed: seq<int>, failed: seq<int>, kept: seq<int>)

  /** What pruning knows of a snapshot: its modification time, if it can be read, and whether its removal fails. */
  type Mtime = int -> Option<int>
  type Fails = int -> bool

  /** prune_old_snapshots on the first n of the sorted snapshots. */
  function Pruning(sorted: seq<int>, n: nat, cutoff: int, mtime: Mtime, fails: Fails): Pruned
    requires n <= |sorted|
  {
    if n == 0 then Pruned([], [], [])
    else
      var p, t := Pruning(sorted, n - 1, cutoff, mtime, fails), sorted[n - 1];
      if t == sorted[|sorted| - 1] then p.(kept := p.kept + [t])
      else if mtime(t).None? then p.(failed := p.failed + [t])
      else if mtime(t).value >= cutoff then p.(kept := p.kept + [t])
      else if fails(t) then p.(failed := p.failed + [t])
      else p.(removed := p.removed + [t])
  }

  class BackupDir {
    var snaps: set<int>
    var latest: Option<int>

    function Value(): Root
      reads this
    {
      Root(snaps, latest)
    }

    method TakeSnapshot(ts: int, sorted: seq<int>, ev: SnapshotEvents) returns (r: SnapshotResult)
      requires Lists(sorted, snaps)
      modifies this
      ensures Value() == AfterSnapshot(old(Value()), ts, ev)
      ensures r.Taken? ==> r.linkedTo == Greatest(sorted, ts) && ts in snaps && latest == Some(ts)
      ensures r.Taken? <==> Starts(old(Value()), ts, ev) && ev.copy.Copied? && !ev.pointerFails
      ensures r.FailedBefore? <==> ev.overlap || ev.sourceMissing
      ensures r.DirectoryInTheWay? <==> !ev.overlap && !ev.sourceMissing && !Starts(old(Value()), ts, ev)
      ensures r.FailedCopy? <==> Starts(old(Value()), ts, ev) && !ev.copy.Copied?
      ensures r.PointerFailed? <==> Starts(old(Value()), ts, ev) && ev.copy.Copied? && ev.pointerFails
    {
      if ev.overlap || ev.sourceMissing {
        return FailedBefore;
      }
      if ts in snaps {
        if ev.staleStays {
          return DirectoryInTheWay;
        }
        snaps := snaps - {ts};
      }
      var link := Greatest(sorted, ts);
      snaps := snaps + {ts};
      if !ev.copy.Copied? {
        if !ev.cleanupFails {
          snaps := snaps - {ts};
        }
        assert old(snaps) - {ts} + {ts} == old(snaps) + {ts};
        return FailedCopy;
      }
      assert old(snaps) - {ts} + {ts} == old(snaps) + {ts};
      if ev.pointerFails {
        return PointerFailed;
      }
      latest := Some(ts);
      return Taken(link);
    }

    method PruneOldSnapshots(sorted: seq<int>, cutoff: int, mtime: Mtime, fails: Fails) returns (p: Pruned)
      requires Lists(sorted, snaps)
      modifies this`snaps
      ensures p == Pruning(sorted, |sorted|, cutoff, mtime, fails)
      ensures snaps == old(snaps) - (set t | t in p.removed)
    {
      p := Pruned([], [], []);
      if sorted == [] {
        return;
      }
      var forcedKeep := sorted[|sorted| - 1];
      for k := 0 to |sorted|
        invariant p == Pruning(sorted, k, cutoff, mtime, fails)
        invariant snaps == old(snaps) - (set t | t in p.removed)
      {
        var t := sorted[k];
        if t == forcedKeep {
          p := p.(kept := p.kept + [t]);
          continue;
        }
        var m := mtime(t);
        if m.None? {
          p := p.(failed := p.failed + [t]);
          continue;
        }
        if m.value >= cutoff {
          p := p.(kept := p.kept + [t]);
          continue;
        }
        if fails(t) {
          p := p.(failed := p.failed + [t]);
        } else {
          snaps := snaps - {t};
          p := p.(removed := p.removed + [t]);
        }
      }
    }
  }

  // ---------- pruning ----------

  function Accounted(p: Pruned): multiset<int> {
    multiset(p.removed) + multiset(p.failed) + multiset(p.kept)
  }

  lemma OneMore(p: Pruned, t: int)
    ensures Accounted(p.(kept := p.kept + [t])) == Accounted(p) + multiset{t}
    ensures Accounted(p.(failed := p.failed + [t])) == Accounted(p) + multiset{t}
    ensures Accounted(p.(removed := p.removed + [t])) == Accounted(p) + multiset{t}
  {
  }

  /** Removed, failed and kept partition the snapshots, */
  lemma {:induction false} PrunePartitions(sorted: seq<int>, n: nat, cutoff: int, mtime: Mtime, fails: Fails)
    requires n <= |sorted|
    ensures Partition(Pruning(sorted, n, cutoff, mtime, fails), sorted[..n])
    decreases n
  {
    if n > 0 {
      PrunePartitions(sorted, n - 1, cutoff, mtime, fails);
      PruningOne(sorted, n, cutoff, mtime, fails);
      PartitionSnoc(Pruning(sorted, n - 1, cutoff, mtime, fails), Pruning(sorted, n, cutoff, mtime, fails), sorted, n);
    } else {
      NothingPruned(sorted);
    }
  }

  /** What was removed, what could not be and what was kept make up s, each once. */
  ghost predicate Partition(p: Pruned, s: seq<int>) {
    Accounted(p) == multiset(s)
  }

  lemma NothingPruned(sorted: seq<int>)
    ensures Partition(Pruned([], [], []), sorted[..0])
  {
  }

  lemma PartitionSnoc(p: Pruned, p': Pruned, s: seq<int>, n: nat)
    requires 0 < n <= |s| && Partition(p, s[..n - 1]) && Accounted(p') == Accounted(p) + multiset{s[n - 1]}
    ensures Partition(p', s[..n])
  {
    MultisetSnoc(s, n);
  }

  lemma MultisetSnoc(s: seq<int>, n: nat)
    requires 0 < n <= |s|
    ensures multiset(s[..n]) == multiset(s[..n - 1]) + multiset{s[n - 1]}
  {
    assert s[..n] == s[..n - 1] + [s[n - 1]];
  }

  lemma {:induction false} PruningOne(sorted: seq<int>, n: nat, cutoff: int, mtime: Mtime, fails: Fails)
    requires 0 < n <= |sorted|
    ensures Accounted(Pruning(sorted, n, cutoff, mtime, fails)) ==
      Accounted(Pruning(sorted, n - 1, cutoff, mtime, fails)) + multiset{sorted[n - 1]}
  {
    OneMore(Pruning(sorted, n - 1, cutoff, mtime, fails), sorted[n - 1]);
  }

  /** What pruning removes: old enough, removable, and not the greatest. */
  predicate Prunable(sorted: seq<int>, t: int, cutoff: int, mtime: Mtime, fails: Fails) {
    sorted != [] && t != sorted[|sorted| - 1] && mtime(t).Some? && mtime(t).value < cutoff && !fails(t)
  }

  /** and only what is older than the cutoff and is not the greatest is ever removed. */
  lemma {:induction false} PruningIs(sorted: seq<int>, n: nat, cutoff: int, mtime: Mtime, fails: Fails, t: int)
    requires n <= |sorted|
    ensures t in Pruning(sorted, n, cutoff, mtime, fails).removed <==>
      t in sorted[..n] && Prunable(sorted, t, cutoff, mtime, fails)
    decreases n
  {
    if n > 0 {
      PruningIs(sorted, n - 1, cutoff, mtime, fails, t);
      assert sorted[..n] == sorted[..n - 1] + [sorted[n - 1]];
    }
  }

  /** What is kept: the greatest, and what is not older than the cutoff. */
  predicate Keepable(sorted: seq<int>, t: int, cutoff: int, mtime: Mtime) {
    sorted != [] && (t == sorted[|sorted| - 1] || (mtime(t).Some? && mtime(t).value >= cutoff))
  }

  /** What fails: of the others, what has no readable time, and what is old enough and cannot be removed. */
  predicate Failing(sorted: seq<int>, t: int, cutoff: int, mtime: Mtime, fails: Fails) {
    && sorted != [] && t != sorted[|sorted| - 1]
    && (mtime(t).None? || (mtime(t).value < cutoff && fails(t)))
  }

  /** The same of what is kept and of what fails. */
  lemma {:induction false} KeepingIs(sorted: seq<int>, n: nat, cutoff: int, mtime: Mtime, fails: Fails, t: int)
    requires n <= |sorted|
    ensures t in Pruning(sorted, n, cutoff, mtime, fails).kept <==>
      t in sorted[..n] && Keepable(sorted, t, cutoff, mtime)
    ensures t in Pruning(sorted, n, cutoff, mtime, fails).failed <==>
      t in sorted[..n] && Failing(sorted, t, cutoff, mtime, fails)
    decreases n
  {
    if n > 0 {
      KeepingIs(sorted, n - 1, cutoff, mtime, fails, t);
      assert sorted[..n] == sorted[..n - 1] + [sorted[n - 1]];
    }
  }

  // ---------- what a snapshot does ----------

  /** The copy is started. */
  predicate Starts(root: Root, ts: int, ev: SnapshotEvents) {
    !ev.overlap && !ev.sourceMissing && !(ts in root.snaps && ev.staleStays)
  }

  /** A snapshot touches its own directory only, which is there afterwards if the copy was made or its remains
      could not be removed; and the pointer moves only to a copy that was made. */
  lemma SnapshotIs(root: Root, ts: int, ev: SnapshotEvents)
    ensures var root' := AfterSnapshot(root, ts, ev);
      && root'.snaps - {ts} == root.snaps - {ts}
      && (!Starts(root, ts, ev) ==> root' == root)
      && (Starts(root, ts, ev) ==> (ts in root'.snaps <==> ev.copy.Copied? || ev.cleanupFails))
      && (root'.latest != root.latest ==> root'.latest == Some(ts))
      && (Starts(root, ts, ev) && ev.copy.Copied? && !ev.pointerFails ==> root'.latest == Some(ts))
      && (!ev.copy.Copied? || ev.pointerFails ==> root'.latest == root.latest)
  {
  }

  // ---------- the latest pointer ----------

  /** `latest` names an existing snapshot, the greatest by name; without snapshots there is none. */
  ghost predicate Pointed(root: Root) {
    match root.latest
    case None => root.snaps == {}
    case Some(t) => t in root.snaps && forall s :: s in root.snaps ==> s <= t
  }

  function AfterPrune(root: Root, sorted: seq<int>, cutoff: int, mtime: Mtime, fails: Fails): Root {
    root.(snaps := root.snaps - (set t | t in Pruning(sorted, |sorted|, cutoff, mtime, fails).removed))
  }

  lemma PruneKeepsPointer(root: Root, sorted: seq<int>, cutoff: int, mtime: Mtime, fails: Fails)
    requires Pointed(root) && Lists(sorted, root.snaps)
    ensures Pointed(AfterPrune(root, sorted, cutoff, mtime, fails))
  {
    if root.latest.Some? {
      var t := root.latest.value;
      PruningIs(sorted, |sorted|, cutoff, mtime, fails, t);
      var i :| 0 <= i < |sorted| && sorted[i] == t;
      assert sorted[|sorted| - 1] in root.snaps;
      assert i == |sorted| - 1;
    }
  }

  /** A snapshot with a new, later time stamp keeps the pointer right exactly when a completed copy gets
      its pointer and a failed copy is cleaned up. */
  lemma SnapshotKeepsPointer(root: Root, ts: int, ev: SnapshotEvents)
    requires Pointed(root) && forall s :: s in root.snaps ==> s < ts
    ensures Pointed(AfterSnapshot(root, ts, ev)) <==>
      || ev.overlap || ev.sourceMissing
      || (ev.copy.Copied? && !ev.pointerFails) || (!ev.copy.Copied? && !ev.cleanupFails)
  {
    var root' := AfterSnapshot(root, ts, ev);
    if !ev.overlap && !ev.sourceMissing {
      if ev.copy.Copied? && ev.pointerFails {
        assert ts in root'.snaps;
      } else if !ev.copy.Copied? && ev.cleanupFails {
        assert ts in root'.snaps;
      } else if !ev.copy.Copied? {
        assert root.snaps - {ts} == root.snaps;
      }
    }
  }

  /** One pass: a snapshot, then a prune. */
  datatype Pass = Pass(ts: int, ev: SnapshotEvents, sorted: seq<int>, cutoff: int, mtime: Mtime, fails: Fails)

  function AfterPass(root: Root, p: Pass): Root {
    AfterPrune(AfterSnapshot(root, p.ts, p.ev), p.sorted, p.cutoff, p.mtime, p.fails)
  }

  /** Passes with ever later time stamps, any copy failures, no pointer failure and working clean-ups. */
  ghost predicate Passes(root: Root, passes: seq<Pass>, after: int)
    decreases passes
  {
    passes == [] ||
    (var p := passes[0];
     && p.ts > after && !p.ev.pointerFails && !p.ev.cleanupFails
     && Lists(p.sorted, AfterSnapshot(root, p.ts, p.ev).snaps)
     && Passes(AfterPass(root, p), passes[1..], p.ts))
  }

  function Final(root: Root, passes: seq<Pass>): Root
    decreases passes
  {
    if passes == [] then root else Final(AfterPass(root, passes[0]), passes[1..])
  }

  /** Over every such sequence of passes the pointer is right, and the snapshot made last is still there. */
  lemma {:induction false} PointerAlwaysRight(root: Root, passes: seq<Pass>, after: int)
    requires Pointed(root) && (forall s :: s in root.snaps ==> s <= after) && Passes(root, passes, after)
    ensures Pointed(Final(root, passes))
    ensures root.latest.Some? ==>
      Final(root, passes).latest.Some? && Final(root, passes).latest.value >= root.latest.value
    decreases passes
  {
    if passes != [] {
      var p := passes[0];
      var root' := AfterSnapshot(root, p.ts, p.ev);
      SnapshotKeepsPointer(root, p.ts, p.ev);
      PruneKeepsPointer(root', p.sorted, p.cutoff, p.mtime, p.fails);
      PointerAlwaysRight(AfterPass(root, p), passes[1..], p.ts);
    }
  }

  /** While `latest` is right, it is also what a new snapshot is hard-linked against. */
  lemma LinkDestIsLatest(root: Root, sorted: seq<int>, ts: int)
    requires Pointed(root) && Lists(sorted, root.snaps) && ts !in root.snaps
    ensures Greatest(sorted, ts) == root.latest
  {
    if sorted == [] {
      assert forall t :: t !in root.snaps;
    } else {
      assert sorted[|sorted| - 1] in root.snaps;
      var i :| 0 <= i < |sorted| && sorted[i] == root.latest.value;
    }
  }
}
