/**
 The cache eviction told from the listing and the runs: which directory is in which class, in what order they
 go, and when the eviction stops.
 */
module EvictionLaws {
  import opened Strings
  import opened CacheEvictor

  // ---------- the runs of a directory ----------

  /** The id is the name itself, or ends in a slash and the name. */
  predicate Refers(hfId: string, name: string) {
    && hfId != "" && '/' !in name && |name| <= |hfId| && hfId[|hfId| - |name|..] == name
    && (|name| == |hfId| || hfId[|hfId| - |name| - 1] == '/')
  }

  lemma SlashAt(s: string, j: int)
    ensures OccursAt(s, "/", j) <==> 0 <= j < |s| && s[j] == '/'
  {
    if 0 <= j < |s| {
      assert s[j..j + 1] == [s[j]];
    }
  }

  lemma RefersIs(hfId: string, name: string)
    ensures hfId != "" && Basename(hfId) == name <==> Refers(hfId, name)
  {
    forall j
      ensures OccursAt(hfId, "/", j) <==> 0 <= j < |hfId| && hfId[j] == '/'
    {
      SlashAt(hfId, j);
    }
    var base := Basename(hfId);
    forall k | 0 <= k < |base|
      ensures base[k] != '/'
    {
      assert !OccursAt(hfId, "/", |hfId| - |base| + k);
    }
    if Refers(hfId, name) {
      SameEnding(hfId, name, base);
      SameEnding(hfId, base, name);
    }
  }

  /** There is only one ending without a slash that a slash or nothing stands before. */
  lemma SameEnding(s: string, a: string, b: string)
    requires Refers(s, a) && Refers(s, b)
    ensures |a| >= |b| && (|a| == |b| ==> a == b)
  {
    assert forall j :: |s| - |b| <= j < |s| ==> s[j] == b[j - |s| + |b|];
    assert forall j :: |s| - |b| <= j < |s| ==> s[j] != '/';
  }

  /** Some run of the directory has one of these statuses. */
  ghost predicate HasRun(runs: seq<RunRecord>, name: string, statuses: set<string>) {
    exists i :: 0 <= i < |runs| && RunIs(runs[i], name, statuses)
  }

  predicate RunIs(r: RunRecord, name: string, statuses: set<string>) {
    Refers(r.hfId, name) && r.status.Some? && r.status.value in statuses
  }

  lemma {:induction false} SomeRunIs(runs: seq<RunRecord>, name: string, list: seq<string>, statuses: set<string>)
    requires forall x :: x in list <==> x in statuses
    ensures SomeRun(RunsFor(name, runs), list) <==> HasRun(runs, name, statuses)
    decreases runs
  {
    if runs != [] {
      var init, r := runs[..|runs| - 1], runs[|runs| - 1];
      SomeRunIs(init, name, list, statuses);
      SomeRunNext(RunsFor(name, init), init, r, name, list, statuses);
      RunsForSnoc(init, r, name);
      assert runs == init + [r];
    }
  }

  lemma {:induction false} RunsForSnoc(init: seq<RunRecord>, r: RunRecord, name: string)
    ensures RunsFor(name, init + [r]) == RunsFor(name, init) + if Refers(r.hfId, name) then [r] else []
  {
    RefersIs(r.hfId, name);
    assert (init + [r])[..|init|] == init;
  }

  lemma SomeRunNext(found: seq<RunRecord>, init: seq<RunRecord>, r: RunRecord, name: string, list: seq<string>,
                    statuses: set<string>)
    requires forall x :: x in list <==> x in statuses
    requires SomeRun(found, list) <==> HasRun(init, name, statuses)
    ensures SomeRun(found + if Refers(r.hfId, name) then [r] else [], list) <==> HasRun(init + [r], name, statuses)
  {
    HasRunSnoc(init, r, name, statuses);
    if Refers(r.hfId, name) {
      SomeRunSnoc(found, r, list);
    } else {
      assert found + [] == found;
    }
  }

  lemma HasRunSnoc(init: seq<RunRecord>, r: RunRecord, name: string, statuses: set<string>)
    ensures HasRun(init + [r], name, statuses) <==> HasRun(init, name, statuses) || RunIs(r, name, statuses)
  {
    var all := init + [r];
    if i :| 0 <= i < |init| && RunIs(init[i], name, statuses) {
      assert all[i] == init[i];
    }
    assert all[|init|] == r;
  }

  lemma SomeRunSnoc(init: seq<RunRecord>, r: RunRecord, list: seq<string>)
    ensures SomeRun(init + [r], list) <==> SomeRun(init, list) || (r.status.Some? && r.status.value in list)
  {
    var all := init + [r];
    if i :| 0 <= i < |init| && init[i].status.Some? && init[i].status.value in list {
      assert all[i] == init[i];
    }
    assert all[|init|] == r;
  }

  // ---------- the classes ----------

  /** Touched within the grace period, or a run on it is in progress. */
  ghost predicate InUse(d: Dir, runs: seq<RunRecord>, now: int, grace: int) {
    now - d.mtime < grace || HasRun(runs, d.name, {"in_progress"})
  }

  /** The class of a directory: what it was good for. */
  ghost predicate ClassIs(d: Dir, status: Status, runs: seq<RunRecord>, now: int, grace: int) {
    && (status.InProgress? <==> InUse(d, runs, now, grace))
    && (status.Safe? <==> !InUse(d, runs, now, grace) && HasRun(runs, d.name, {"ok"}))
    && (status.FailedOnly? <==>
          && !InUse(d, runs, now, grace) && !HasRun(runs, d.name, {"ok"})
          && HasRun(runs, d.name, {"failed", "aborted"}))
  }

  lemma ClassifyIs(d: Dir, runs: seq<RunRecord>, now: int, grace: int)
    ensures ClassIs(d, Classify(d.mtime, RunsFor(d.name, runs), now, grace), runs, now, grace)
  {
    SomeRunIs(runs, d.name, [IN_PROGRESS], {"in_progress"});
    SomeRunIs(runs, d.name, ["ok"], {"ok"});
    SomeRunIs(runs, d.name, ["failed", "aborted"], {"failed", "aborted"});
  }

  /** The entry of a directory. */
  ghost predicate EntryIs(e: Entry, d: Dir, runs: seq<RunRecord>, now: int, grace: int) {
    e.name == d.name && e.size == d.size && e.mtime == d.mtime && ClassIs(d, e.status, runs, now, grace)
  }

  /** Exactly the folders whose name does not begin with a dot have an entry, and that entry is in the class that
      the runs on it say. */
  lemma {:induction false} EntriesAre(dirs: seq<Dir>, runs: seq<RunRecord>, now: int, grace: int, at: nat)
    requires at < |dirs|
    ensures (exists e :: e in Entries(dirs, runs, now, grace) && e.at == at) <==>
      dirs[at].isDir && (dirs[at].name == "" || dirs[at].name[0] != '.')
    ensures forall e :: e in Entries(dirs, runs, now, grace) && e.at == at ==> EntryIs(e, dirs[at], runs, now, grace)
    decreases dirs
  {
    var n := |dirs| - 1;
    var init := Entries(dirs[..n], runs, now, grace);
    ClassifyIs(dirs[at], runs, now, grace);
    if at < n {
      EntriesAre(dirs[..n], runs, now, grace, at);
      assert forall e :: e in init ==> e in Entries(dirs, runs, now, grace);
    } else if Model(dirs[n]) {
      assert EntryAt(dirs, runs, now, grace, n) in Entries(dirs, runs, now, grace);
    }
  }

  // ---------- the order ----------

  /** Without any run first, then those with only failed ones, then those with a success; the oldest first
      in each class, in the order of the listing where they are equally old. Nothing in use goes. */
  predicate GoesBefore(a: Entry, b: Entry) {
    && !a.status.InProgress? && !b.status.InProgress?
    && (a.status.Safe? ==> b.status.Safe?)
    && (a.status.FailedOnly? ==> !b.status.Orphan?)
    && (a.status == b.status ==> a.mtime < b.mtime || (a.mtime == b.mtime && a.at < b.at))
  }

  /** The order in which directories are evicted. */
  lemma EvictionOrder(dirs: seq<Dir>, runs: seq<RunRecord>, now: int, grace: int, i: nat, j: nat)
    requires i < j < |Evictable(Entries(dirs, runs, now, grace))|
    ensures var cs := Evictable(Entries(dirs, runs, now, grace)); GoesBefore(cs[i], cs[j])
  {
    var es := Entries(dirs, runs, now, grace);
    var cs := Evictable(es);
    EvictableIs(es);
    assert multiset(cs)[cs[i]] > 0 && multiset(cs)[cs[j]] > 0;
    assert Earlier(cs[i], cs[j]);
  }

  // ---------- when the eviction stops ----------

  /** The weight of a listing is the sum of its parts. */
  lemma {:induction false} TotalAdds(a: seq<Entry>, b: seq<Entry>)
    ensures Total(a + b) == Total(a) + Total(b)
    ensures b == [] || Total(b) == b[0].size + Total(b[1..])
    decreases |b|
  {
    if b == [] {
      assert a + b == a;
    } else {
      var init, last := b[..|b| - 1], b[|b| - 1];
      TotalAdds(a, init);
      assert (a + b)[..|a + b| - 1] == a + init;
      if init != [] {
        assert b[1..][..|b| - 2] == init[1..];
        assert b[1..][|b| - 2] == last;
      } else {
        assert b == [last] && b[1..] == [];
      }
    }
  }

  lemma {:induction false} DryRunIs(cs: seq<Entry>, need: int, fails: string -> bool, never: string -> bool)
    requires forall name :: !never(name)
    ensures Evict(cs, need, true, fails) == Evict(cs, need, false, never)
    decreases cs
  {
    if cs != [] {
      DryRunIs(cs[..|cs| - 1], need, fails, never);
    }
  }

  /** The first n candidates were worked off: by then the cache is within the quota or there are no more, and
      before any of them it was above the quota. */
  ghost predicate StopsAfter(total: nat, cs: seq<Entry>, quota: int, fails: string -> bool, plan: Eviction, n: nat) {
    && n <= |cs|
    && plan.evicted == Kept(cs[..n], fails, false) && plan.skipped == Kept(cs[..n], fails, true)
    && plan.freed == Total(plan.evicted)
    && (n == |cs| || total - plan.freed <= quota)
    && forall k :: 0 <= k < n ==> total - Total(Kept(cs[..k], fails, false)) > quota
  }

  ghost predicate PlanIs(total: nat, cs: seq<Entry>, quota: int, fails: string -> bool, plan: Eviction) {
    if total <= quota then plan == Eviction([], [], 0) else exists n :: StopsAfter(total, cs, quota, fails, plan, n)
  }

  function NeverIn(dryRun: bool, fails: string -> bool): string -> bool {
    if dryRun then (name: string) => false else fails
  }

  /** enforce_quota evicts just as much as it takes, and nothing within the quota; in a dry run no removal
      fails. */
  lemma QuotaIs(es: seq<Entry>, quota: int, dryRun: bool, fails: string -> bool)
    ensures PlanIs(Total(es), Evictable(es), quota, NeverIn(dryRun, fails), Enforced(es, quota, dryRun, fails))
  {
    EnforcedIs(es, quota, dryRun, fails);
    if Total(es) > quota {
      QuotaOver(Total(es), Evictable(es), quota, dryRun, fails, NeverIn(dryRun, fails));
    }
  }

  lemma {:induction false} QuotaOver(total: nat, cs: seq<Entry>, quota: int, dryRun: bool, fails: string -> bool,
                                     failing: string -> bool)
    requires total > quota && if dryRun then forall name :: !failing(name) else failing == fails
    ensures PlanIs(total, cs, quota, failing, Evict(cs, total - quota, dryRun, fails))
  {
    if dryRun {
      DryRunIs(cs, total - quota, fails, failing);
    }
    var n := EvictIs(cs, total - quota, failing);
    StopsIs(total, cs, quota, failing, Evict(cs, total - quota, false, failing), n);
  }

  lemma StopsIs(total: nat, cs: seq<Entry>, quota: int, fails: string -> bool, plan: Eviction, n: nat)
    requires Processed(cs, n, total - quota, fails, plan)
    requires n < |cs| ==> plan.freed >= total - quota
    ensures StopsAfter(total, cs, quota, fails, plan, n)
  {
    forall k | 0 <= k < n
      ensures total - Total(Kept(cs[..k], fails, false)) > quota
    {
      assert FreedBy(fails)(cs[..k]) < total - quota;
    }
  }

  // ---------- what is left ----------

  lemma {:induction false} WithoutHas(dirs: seq<Dir>, names: set<string>, d: Dir)
    ensures d in Without(dirs, names) <==> d in dirs && d.name !in names
    decreases dirs
  {
    if dirs != [] {
      WithoutHas(dirs[..|dirs| - 1], names, d);
      assert dirs == dirs[..|dirs| - 1] + [dirs[|dirs| - 1]];
    }
  }

  lemma {:induction false} NamesHas(es: seq<Entry>, name: string)
    ensures name in NamesOf(es) <==> exists e :: e in es && e.name == name
    decreases es
  {
    if es != [] {
      var init, last := es[..|es| - 1], es[|es| - 1];
      NamesHas(init, name);
      assert es == init + [last];
      assert last in es;
    }
  }

  /** Outside a dry run what bears the name of something evicted is gone, and nothing else is. */
  lemma LeftHas(dirs: seq<Dir>, plan: Eviction, dryRun: bool, d: Dir)
    ensures d in Left(dirs, plan, dryRun) <==>
      d in dirs && (dryRun || forall e :: e in plan.evicted ==> e.name != d.name)
  {
    WithoutHas(dirs, NamesOf(plan.evicted), d);
    NamesHas(plan.evicted, d.name);
  }
}
