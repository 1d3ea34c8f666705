/**
 orchestrator/cache_evictor.py: classifying the model directories of the evaluation cache and
 evicting them down to a quota. Sizes, times and whether a removal fails come from the file system;
 a removal that fails is taken to leave its directory as it was.
 */
module CacheEvictor {
  import opened Options
  import opened Strings

  // ---------- the run index ----------

  /** What one run directory says: hfId is empty when state.json cannot be read. */
  datatype RunRecord = RunRecord(hfId: string, status: Option<string>)

  const IN_PROGRESS := "in_progress"

  /** _basename_from_hf_id: what follows the last slash. */
  function Basename(hfId: string): string {
    match RFind(hfId, "/", |hfId|)
    case None => hfId
    case Some(i) => hfId[i + 1..]
  }

  function RunsFor(name: string, runs: seq<RunRecord>): seq<RunRecord> {
    if runs == [] then []
    else
      var r := runs[|runs| - 1];
      RunsFor(name, runs[..|runs| - 1]) + if r.hfId != "" && Basename(r.hfId) == name then [r] else []
  }

  function Lookup(index: map<string, seq<RunRecord>>, name: string): seq<RunRecord> {
    if name in index then index[name] else []
  }

  /** _index_runs */
  method IndexRuns(runs: seq<RunRecord>) returns (index: map<string, seq<RunRecord>>)
    ensures forall name :: Lookup(index, name) == RunsFor(name, runs)
  {
    index := map[];
    for k := 0 to |runs|
      invariant forall name :: Lookup(index, name) == RunsFor(name, runs[..k])
    {
      assert runs[..k + 1][..k] == runs[..k];
      var r := runs[k];
      if r.hfId != "" {
        var name := Basename(r.hfId);
        index := index[name := Lookup(index, name) + [r]];
      }
    }
    assert runs[..|runs|] == runs;
  }

  // ---------- classification ----------

  datatype Status = Safe | InProgress | FailedOnly | Orphan

  /** One child of the cache directory, in the order of the listing. */
  datatype Dir = Dir(name: string, isDir: bool, mtime: int, size: nat)

  /** `at` is the entry's place in the listing. */
  datatype Entry = Entry(name: string, size: nat, mtime: int, status: Status, at: nat)

  predicate SomeRun(runs: seq<RunRecord>, statuses: seq<string>) {
    exists i :: 0 <= i < |runs| && runs[i].status.Some? && runs[i].status.value in statuses
  }

  function Classify(mtime: int, runs: seq<RunRecord>, now: int, grace: int): Status {
    if now - mtime < grace || SomeRun(runs, [IN_PROGRESS]) then InProgress
    else if SomeRun(runs, ["ok"]) then Safe
    else if SomeRun(runs, ["failed", "aborted"]) then FailedOnly
    else Orphan
  }

  predicate Model(d: Dir) {
    d.isDir && !("." <= d.name)
  }

  function Entries(dirs: seq<Dir>, runs: seq<RunRecord>, now: int, grace: int): (es: seq<Entry>)
    ensures forall i :: 0 <= i < |es| ==> es[i].at < |dirs|
    ensures forall i, j :: 0 <= i < j < |es| ==> es[i].at < es[j].at
  {
    if dirs == [] then []
    else
      var n := |dirs| - 1;
      var es, d := Entries(dirs[..n], runs, now, grace), dirs[n];
      if Model(d) then es + [Entry(d.name, d.size, d.mtime, Classify(d.mtime, RunsFor(d.name, runs), now, grace), n)]
      else es
  }

  function Total(es: seq<Entry>): nat {
    if es == [] then 0 else Total(es[..|es| - 1]) + es[|es| - 1].size
  }

  function Priority(s: Status): nat {
    match s
    case Orphan => 0
    case FailedOnly => 1
    case Safe => 2
    case InProgress => 99
  }

  /** Eviction order: the status, then the age, then the listing. */
  predicate Earlier(a: Entry, b: Entry) {
    || Priority(a.status) < Priority(b.status)
    || (Priority(a.status) == Priority(b.status)
        && (a.mtime < b.mtime || (a.mtime == b.mtime && a.at < b.at)))
  }

  function Insert(e: Entry, es: seq<Entry>): seq<Entry> {
    if es == [] || !Earlier(e, es[|es| - 1]) then es + [e]
    else Insert(e, es[..|es| - 1]) + [es[|es| - 1]]
  }

  /** The evictable entries, in eviction order: what sorted() makes of them, ties in listing order. */
  function Evictable(es: seq<Entry>): seq<Entry> {
    if es == [] then []
    else if es[|es| - 1].status.InProgress? then Evictable(es[..|es| - 1])
    else Insert(es[|es| - 1], Evictable(es[..|es| - 1]))
  }

  ghost predicate Ordered(es: seq<Entry>) {
    forall i, j :: 0 <= i < j < |es| ==> Earlier(es[i], es[j])
  }

  lemma {:induction false} InsertIs(e: Entry, es: seq<Entry>)
    requires Ordered(es) && forall i :: 0 <= i < |es| ==> es[i].at < e.at
    ensures Ordered(Insert(e, es)) && multiset(Insert(e, es)) == multiset(es) + multiset{e}
    decreases es
  {
    if es == [] || !Earlier(e, es[|es| - 1]) {
    } else {
      var init, last := es[..|es| - 1], es[|es| - 1];
      InsertIs(e, init);
      assert es == init + [last];
      InsertHas(e, init);
      AllBefore(Insert(e, init), last);
    }
  }

  lemma {:induction false} InsertHas(e: Entry, es: seq<Entry>)
    ensures forall x :: x in Insert(e, es) ==> x in es || x == e
    decreases es
  {
    if es != [] && Earlier(e, es[|es| - 1]) {
      InsertHas(e, es[..|es| - 1]);
    }
  }

  lemma AllBefore(es: seq<Entry>, last: Entry)
    requires Ordered(es) && forall x :: x in es ==> Earlier(x, last)
    ensures Ordered(es + [last])
  {
  }

  /** The evictable entries are those not in progress, each once, strictly in eviction order. */
  lemma {:induction false} EvictableIs(es: seq<Entry>)
    requires forall i, j :: 0 <= i < j < |es| ==> es[i].at < es[j].at
    ensures Ordered(Evictable(es))
    ensures forall e :: multiset(Evictable(es))[e] == if e.status.InProgress? then 0 else multiset(es)[e]
    decreases es
  {
    if es != [] {
      var init, last := es[..|es| - 1], es[|es| - 1];
      assert es == init + [last];
      EvictableIs(init);
      if !last.status.InProgress? {
        forall i | 0 <= i < |Evictable(init)|
          ensures Evictable(init)[i].at < last.at
        {
          assert multiset(Evictable(init))[Evictable(init)[i]] > 0;
          assert Evictable(init)[i] in init;
        }
        InsertIs(last, Evictable(init));
      }
    }
  }

  lemma Extended(es: seq<Entry>, e: Entry)
    ensures Total(es + [e]) == Total(es) + e.size
    ensures Evictable(es + [e]) == if e.status.InProgress? then Evictable(es) else Insert(e, Evictable(es))
  {
    assert (es + [e])[..|es|] == es;
  }

  /** find_evictable */
  method FindEvictable(dirs: seq<Dir>, runs: seq<RunRecord>, now: int, grace: int)
      returns (entries: seq<Entry>, total: nat, evictable: seq<Entry>)
    ensures entries == Entries(dirs, runs, now, grace) && total == Total(entries) && evictable == Evictable(entries)
  {
    var index := IndexRuns(runs);
    entries, total, evictable := [], 0, [];
    for k := 0 to |dirs|
      invariant entries == Entries(dirs[..k], runs, now, grace) && total == Total(entries)
      invariant evictable == Evictable(entries)
    {
      assert dirs[..k + 1][..k] == dirs[..k];
      var d := dirs[k];
      if Model(d) {
        var e := Entry(d.name, d.size, d.mtime, Classify(d.mtime, Lookup(index, d.name), now, grace), k);
        Extended(entries, e);
        entries, total := entries + [e], total + e.size;
        if !e.status.InProgress? {
          evictable := Insert(e, evictable);
        }
      }
    }
    assert dirs[..|dirs|] == dirs;
  }

  // ---------- eviction ----------

  /** The eviction loop's variables after some of the candidates. */
  datatype Eviction = Eviction(evicted: seq<Entry>, skipped: seq<Entry>, freed: nat)

  /** The next candidate; `fails` says which removals fail. A dry run removes nothing, so none fails. */
  function Next(s: Eviction, e: Entry, need: int, dryRun: bool, fails: string -> bool): Eviction {
    if s.freed >= need then s
    else if !dryRun && fails(e.name) then s.(skipped := s.skipped + [e])
    else Eviction(s.evicted + [e], s.skipped, s.freed + e.size)
  }

  function Evict(es: seq<Entry>, need: int, dryRun: bool, fails: string -> bool): Eviction {
    if es == [] then Eviction([], [], 0)
    else Next(Evict(es[..|es| - 1], need, dryRun, fails), es[|es| - 1], need, dryRun, fails)
  }

  /** What enforce_quota decides about these entries: nothing under the quota. */
  function Enforced(es: seq<Entry>, quota: int, dryRun: bool, fails: string -> bool): Eviction {
    if Total(es) <= quota then Eviction([], [], 0) else Evict(Evictable(es), Total(es) - quota, dryRun, fails)
  }

  lemma EnforcedIs(es: seq<Entry>, quota: int, dryRun: bool, fails: string -> bool)
    ensures Total(es) <= quota ==> Enforced(es, quota, dryRun, fails) == Eviction([], [], 0)
    ensures Total(es) > quota ==>
      Enforced(es, quota, dryRun, fails) == Evict(Evictable(es), Total(es) - quota, dryRun, fails)
  {
  }

  lemma NothingLeaves(dirs: seq<Dir>, dryRun: bool)
    ensures Left(dirs, Eviction([], [], 0), dryRun) == dirs
  {
    WithoutNothing(dirs);
  }

  /** The directories an eviction leaves. */
  function Left(dirs: seq<Dir>, plan: Eviction, dryRun: bool): seq<Dir> {
    if dryRun then dirs else Without(dirs, NamesOf(plan.evicted))
  }

  class CacheDisk {
    var dirs: seq<Dir>

    /** shutil.rmtree */
    method Remove(name: string)
      modifies this
      ensures dirs == Without(old(dirs), {name})
    {
      var kept: seq<Dir> := [];
      for k := 0 to |dirs|
        invariant dirs == old(dirs) && kept == Without(dirs[..k], {name})
      {
        assert dirs[..k + 1][..k] == dirs[..k];
        if dirs[k].name != name {
          kept := kept + [dirs[k]];
        }
      }
      assert dirs[..|dirs|] == dirs;
      dirs := kept;
    }

    /** enforce_quota */
    method EnforceQuota(runs: seq<RunRecord>, quota: int, now: int, grace: int, dryRun: bool, fails: string -> bool)
        returns (plan: Eviction)
      modifies this
      ensures plan == Enforced(Entries(old(dirs), runs, now, grace), quota, dryRun, fails)
      ensures dirs == Left(old(dirs), plan, dryRun)
    {
      var entries, total, evictable := FindEvictable(dirs, runs, now, grace);
      EnforcedIs(entries, quota, dryRun, fails);
      if total <= quota {
        NothingLeaves(dirs, dryRun);
        return Eviction([], [], 0);
      }
      plan := EvictUntil(evictable, total - quota, dryRun, fails);
    }

    /** The eviction loop. */
    method EvictUntil(evictable: seq<Entry>, need: int, dryRun: bool, fails: string -> bool) returns (plan: Eviction)
      modifies this
      ensures plan == Evict(evictable, need, dryRun, fails)
      ensures dirs == Left(old(dirs), plan, dryRun)
    {
      plan := Eviction([], [], 0);
      ghost var before := dirs;
      WithoutNothing(before);
      var k := 0;
      while k < |evictable| && plan.freed < need
        invariant k <= |evictable| && plan == Evict(evictable[..k], need, dryRun, fails)
        invariant dirs == Left(before, plan, dryRun)
      {
        assert evictable[..k + 1][..k] == evictable[..k];
        plan := EvictOne(plan, evictable[k], need, dryRun, fails, before);
        k := k + 1;
      }
      EvictStops(evictable, k, need, dryRun, fails);
    }

    /** One candidate, while there is need. */
    method EvictOne(plan: Eviction, e: Entry, need: int, dryRun: bool, fails: string -> bool, ghost before: seq<Dir>)
        returns (plan': Eviction)
      requires plan.freed < need
      requires dirs == Left(before, plan, dryRun)
      modifies this
      ensures plan' == Next(plan, e, need, dryRun, fails)
      ensures dirs == Left(before, plan', dryRun)
    {
      if dryRun {
        return plan.(evicted := plan.evicted + [e], freed := plan.freed + e.size);
      }
      if fails(e.name) {
        return plan.(skipped := plan.skipped + [e]);
      }
      Remove(e.name);
      WithoutTwice(before, NamesOf(plan.evicted), {e.name});
      NamesAppend(plan.evicted, e);
      return plan.(evicted := plan.evicted + [e], freed := plan.freed + e.size);
    }
  }

  function NamesOf(es: seq<Entry>): set<string> {
    if es == [] then {} else NamesOf(es[..|es| - 1]) + {es[|es| - 1].name}
  }

  function Without(dirs: seq<Dir>, names: set<string>): seq<Dir> {
    if dirs == [] then []
    else
      var rest, d := Without(dirs[..|dirs| - 1], names), dirs[|dirs| - 1];
      if d.name in names then rest else rest + [d]
  }

  lemma {:induction false} WithoutNothing(dirs: seq<Dir>)
    ensures Without(dirs, {}) == dirs && NamesOf([]) == {}
    decreases dirs
  {
    if dirs != [] {
      WithoutNothing(dirs[..|dirs| - 1]);
    }
  }

  lemma {:induction false} WithoutTwice(dirs: seq<Dir>, a: set<string>, b: set<string>)
    ensures Without(Without(dirs, a), b) == Without(dirs, a + b)
    decreases dirs
  {
    if dirs != [] {
      var init, d := dirs[..|dirs| - 1], dirs[|dirs| - 1];
      WithoutTwice(init, a, b);
      if d.name !in a {
        assert Without(dirs, a)[..|Without(dirs, a)| - 1] == Without(init, a);
      }
    }
  }

  lemma NamesAppend(es: seq<Entry>, e: Entry)
    ensures NamesOf(es + [e]) == NamesOf(es) + {e.name}
  {
    assert (es + [e])[..|es|] == es;
  }

  lemma {:induction false} EvictStops(es: seq<Entry>, k: nat, need: int, dryRun: bool, fails: string -> bool)
    requires k <= |es| && (k == |es| || Evict(es[..k], need, dryRun, fails).freed >= need)
    ensures Evict(es, need, dryRun, fails) == Evict(es[..k], need, dryRun, fails)
    decreases |es| - k
  {
    if k < |es| {
      assert es[..k + 1][..k] == es[..k];
      EvictStops(es, k + 1, need, dryRun, fails);
    } else {
      assert es[..k] == es;
    }
  }

  // ---------- what eviction does ----------

  /** Some of the candidates, and a weight of candidates. */
  type Pick = seq<Entry> -> seq<Entry>
  type Weight = seq<Entry> -> nat

  function Picked(fails: string -> bool, failing: bool): Pick {
    (es: seq<Entry>) => Kept(es, fails, failing)
  }

  /** What the removable ones of some candidates weigh. */
  function FreedBy(fails: string -> bool): Weight {
    (es: seq<Entry>) => Total(Kept(es, fails, false))
  }

  /** At every point before the n-th candidate there was still need. */
  ghost predicate Below(es: seq<Entry>, n: nat, need: int, freed: Weight)
    requires n <= |es|
  {
    forall k :: 0 <= k < n ==> freed(es[..k]) < need
  }

  /** The first n candidates were processed: each was evicted or skipped, in order; what was freed is
      what they weigh; and at every earlier point there was still need. */
  ghost predicate Processed(es: seq<Entry>, n: nat, need: int, fails: string -> bool, s: Eviction) {
    ProcessedBy(es, n, need, Picked(fails, false), Picked(fails, true), FreedBy(fails), s)
  }

  ghost predicate ProcessedBy(es: seq<Entry>, n: nat, need: int, removable: Pick, failing: Pick, freed: Weight,
                              s: Eviction)
  {
    && n <= |es| && s.evicted == removable(es[..n]) && s.skipped == failing(es[..n]) && s.freed == freed(es[..n])
    && Below(es, n, need, freed)
  }

  /** The candidates whose removal fails, or those whose does not. */
  function Kept(es: seq<Entry>, fails: string -> bool, failing: bool): seq<Entry> {
    if es == [] then []
    else
      var rest, e := Kept(es[..|es| - 1], fails, failing), es[|es| - 1];
      if fails(e.name) == failing then rest + [e] else rest
  }

  /** Eviction processes a prefix of the candidates, and stops exactly when the need is met or nothing
      is left. */
  lemma {:induction false} EvictIs(es: seq<Entry>, need: int, fails: string -> bool) returns (n: nat)
    requires need > 0
    ensures Processed(es, n, need, fails, Evict(es, need, false, fails))
    ensures n < |es| ==> Evict(es, need, false, fails).freed >= need
    decreases es
  {
    if es == [] {
      n := 0;
      NothingProcessed(need, fails);
    } else {
      n := EvictIs(es[..|es| - 1], need, fails);
      n := OneMoreProcessed(es, need, fails, n);
    }
  }

  lemma {:induction false} NothingProcessed(need: int, fails: string -> bool)
    ensures Processed([], 0, need, fails, Eviction([], [], 0))
  {
    var none: seq<Entry> := [];
    assert none[..0] == none;
    assert Kept(none, fails, false) == none && Kept(none, fails, true) == none && Total(none) == 0;
  }

  lemma {:induction false} OneMoreProcessed(es: seq<Entry>, need: int, fails: string -> bool, n: nat) returns (m: nat)
    requires es != [] && Processed(es[..|es| - 1], n, need, fails, Evict(es[..|es| - 1], need, false, fails))
    requires n < |es| - 1 ==> Evict(es[..|es| - 1], need, false, fails).freed >= need
    ensures Processed(es, m, need, fails, Evict(es, need, false, fails))
    ensures m < |es| ==> Evict(es, need, false, fails).freed >= need
  {
    if Evict(es[..|es| - 1], need, false, fails).freed < need {
      m := |es|;
      ProcessedAll(es, need, fails);
    } else {
      m := n;
      ProcessedSame(es, n, need, fails);
      EnoughFreed(es, need, fails);
    }
  }

  lemma {:induction false} ProcessedAll(es: seq<Entry>, need: int, fails: string -> bool)
    requires es != [] && Evict(es[..|es| - 1], need, false, fails).freed < need
    requires Processed(es[..|es| - 1], |es| - 1, need, fails, Evict(es[..|es| - 1], need, false, fails))
    ensures Processed(es, |es|, need, fails, Evict(es, need, false, fails))
  {
    var init := es[..|es| - 1];
    assert init[..|init|] == init;
    EvictLast(es, need, fails, Evict(init, need, false, fails));
    AllBy(es, need, Picked(fails, false), Picked(fails, true), FreedBy(fails), Evict(init, need, false, fails),
          Evict(es, need, false, fails));
  }

  /** One more candidate, while there is need. */
  lemma {:induction false} EvictLast(es: seq<Entry>, need: int, fails: string -> bool, s: Eviction)
    requires es != [] && s == Evict(es[..|es| - 1], need, false, fails) && s.freed < need
    requires s.evicted == Picked(fails, false)(es[..|es| - 1]) && s.skipped == Picked(fails, true)(es[..|es| - 1])
    requires s.freed == FreedBy(fails)(es[..|es| - 1])
    ensures var s' := Evict(es, need, false, fails);
      && s'.evicted == Picked(fails, false)(es) && s'.skipped == Picked(fails, true)(es)
      && s'.freed == FreedBy(fails)(es)
  {
    TotalSnoc(s.evicted, es[|es| - 1]);
    assert FreedBy(fails)(es[..|es| - 1]) == Total(s.evicted);
  }

  lemma AllBy(es: seq<Entry>, need: int, removable: Pick, failing: Pick, freed: Weight, s: Eviction, s': Eviction)
    requires es != [] && ProcessedBy(es[..|es| - 1], |es| - 1, need, removable, failing, freed, s) && s.freed < need
    requires s'.evicted == removable(es) && s'.skipped == failing(es) && s'.freed == freed(es)
    ensures ProcessedBy(es, |es|, need, removable, failing, freed, s')
  {
    var init := es[..|es| - 1];
    assert init[..|init|] == init && es[..|es|] == es;
    forall k | 0 <= k < |es|
      ensures freed(es[..k]) < need
    {
      assert es[..k] == if k < |init| then init[..k] else init;
    }
  }

  lemma TotalSnoc(es: seq<Entry>, e: Entry)
    ensures Total(es + [e]) == Total(es) + e.size
  {
    assert (es + [e])[..|es|] == es;
  }

  lemma {:induction false} ProcessedSame(es: seq<Entry>, n: nat, need: int, fails: string -> bool)
    requires es != [] && Evict(es[..|es| - 1], need, false, fails).freed >= need
    requires Processed(es[..|es| - 1], n, need, fails, Evict(es[..|es| - 1], need, false, fails))
    ensures Processed(es, n, need, fails, Evict(es, need, false, fails))
  {
    SameBy(es, n, need, Picked(fails, false), Picked(fails, true), FreedBy(fails),
           Evict(es[..|es| - 1], need, false, fails));
    EnoughFreed(es, need, fails);
  }

  lemma {:induction false} EnoughFreed(es: seq<Entry>, need: int, fails: string -> bool)
    requires es != [] && Evict(es[..|es| - 1], need, false, fails).freed >= need
    ensures Evict(es, need, false, fails) == Evict(es[..|es| - 1], need, false, fails)
  {
  }

  lemma SameBy(es: seq<Entry>, n: nat, need: int, removable: Pick, failing: Pick, freed: Weight, s: Eviction)
    requires es != [] && ProcessedBy(es[..|es| - 1], n, need, removable, failing, freed, s)
    ensures ProcessedBy(es, n, need, removable, failing, freed, s)
  {
    var init := es[..|es| - 1];
    assert es[..n] == init[..n];
    assert forall k :: 0 <= k < n ==> es[..k] == init[..k];
  }

  /** A dry run plans what an apply without failures does. */
  lemma {:induction false} DryRunPredicts(es: seq<Entry>, need: int, fails: string -> bool)
    requires forall i :: 0 <= i < |es| ==> !fails(es[i].name)
    ensures Evict(es, need, true, fails) == Evict(es, need, false, fails)
    decreases es
  {
    if es != [] {
      DryRunPredicts(es[..|es| - 1], need, fails);
    }
  }

  lemma {:induction false} EvictedAreCandidates(es: seq<Entry>, need: int, dryRun: bool, fails: string -> bool,
                                                e: Entry)
    requires e in Evict(es, need, dryRun, fails).evicted
    ensures e in es
    decreases es
  {
    if es != [] {
      var init := es[..|es| - 1];
      if e in Evict(init, need, dryRun, fails).evicted {
        EvictedAreCandidates(init, need, dryRun, fails, e);
      }
    }
  }

  lemma {:induction false} EntryOf(dirs: seq<Dir>, runs: seq<RunRecord>, now: int, grace: int, e: Entry)
    requires e in Entries(dirs, runs, now, grace)
    ensures e.at < |dirs| && Model(dirs[e.at]) && e.name == dirs[e.at].name
    ensures e.status == Classify(dirs[e.at].mtime, RunsFor(e.name, runs), now, grace)
    decreases dirs
  {
    var n := |dirs| - 1;
    if e in Entries(dirs[..n], runs, now, grace) {
      EntryOf(dirs[..n], runs, now, grace, e);
    }
  }

  lemma {:induction false} RunFound(name: string, runs: seq<RunRecord>, i: nat)
    requires i < |runs| && runs[i].hfId != "" && Basename(runs[i].hfId) == name
    ensures runs[i] in RunsFor(name, runs)
    decreases runs
  {
    if i < |runs| - 1 {
      RunFound(name, runs[..|runs| - 1], i);
    }
  }

  /** No directory is evicted that is in its grace period or that a run in progress refers to: so a
      run cannot evict the directory it is staging. */
  lemma ActiveIsNeverEvicted(dirs: seq<Dir>, runs: seq<RunRecord>, now: int, grace: int, need: int, dryRun: bool,
                             fails: string -> bool, e: Entry, i: nat)
    requires e in Evict(Evictable(Entries(dirs, runs, now, grace)), need, dryRun, fails).evicted
    ensures e.at < |dirs| && now - dirs[e.at].mtime >= grace
    ensures i < |runs| && runs[i].hfId != "" && runs[i].status == Some(IN_PROGRESS) ==> Basename(runs[i].hfId) != e.name
  {
    var es := Entries(dirs, runs, now, grace);
    EvictedAreCandidates(Evictable(es), need, dryRun, fails, e);
    EvictableIs(es);
    assert multiset(Evictable(es))[e] > 0;
    assert multiset(es)[e] > 0 && e in es;
    EntryOf(dirs, runs, now, grace, e);
    if i < |runs| && runs[i].hfId != "" && Basename(runs[i].hfId) == e.name {
      RunFound(e.name, runs, i);
      var found := RunsFor(e.name, runs);
      var j :| 0 <= j < |found| && found[j] == runs[i];
      assert !SomeRun(found, [IN_PROGRESS]);
      assert found[j].status.Some? ==> found[j].status.value !in [IN_PROGRESS];
    }
  }

  // ---------- conservation ----------

  /** What the model directories among `names` weigh. */
  function Among(dirs: seq<Dir>, names: set<string>): nat {
    if dirs == [] then 0
    else
      var d := dirs[|dirs| - 1];
      Among(dirs[..|dirs| - 1], names) + if Model(d) && d.name in names then d.size else 0
  }

  ghost predicate Distinct(dirs: seq<Dir>) {
    forall i, j :: 0 <= i < j < |dirs| ==> dirs[i].name != dirs[j].name
  }

  lemma {:induction false} WithoutWeighs(dirs: seq<Dir>, names: set<string>, runs: seq<RunRecord>, now: int, grace: int)
    ensures Total(Entries(Without(dirs, names), runs, now, grace)) + Among(dirs, names) ==
      Total(Entries(dirs, runs, now, grace))
    decreases dirs
  {
    if dirs != [] {
      var init, d := dirs[..|dirs| - 1], dirs[|dirs| - 1];
      WithoutWeighs(init, names, runs, now, grace);
      TotalStep(init, d, runs, now, grace);
      assert dirs == init + [d];
      if d.name !in names {
        TotalStep(Without(init, names), d, runs, now, grace);
      }
    }
  }

  lemma TotalStep(dirs: seq<Dir>, d: Dir, runs: seq<RunRecord>, now: int, grace: int)
    ensures Total(Entries(dirs + [d], runs, now, grace)) ==
      Total(Entries(dirs, runs, now, grace)) + if Model(d) then d.size else 0
  {
    assert (dirs + [d])[..|dirs|] == dirs;
  }

  lemma {:induction false} AmongOneMore(dirs: seq<Dir>, names: set<string>, at: nat)
    requires Distinct(dirs) && at < |dirs| && Model(dirs[at]) && dirs[at].name !in names
    ensures Among(dirs, names + {dirs[at].name}) == Among(dirs, names) + dirs[at].size
    decreases dirs
  {
    var n := |dirs| - 1;
    if at < n {
      AmongOneMore(dirs[..n], names, at);
      assert dirs[n].name != dirs[at].name;
    } else {
      AmongElsewhere(dirs[..n], names, dirs[at].name);
    }
  }

  lemma {:induction false} AmongElsewhere(dirs: seq<Dir>, names: set<string>, name: string)
    requires forall i :: 0 <= i < |dirs| ==> dirs[i].name != name
    ensures Among(dirs, names + {name}) == Among(dirs, names)
    decreases dirs
  {
    if dirs != [] {
      AmongElsewhere(dirs[..|dirs| - 1], names, name);
    }
  }

  /** The entries come from different places of the listing. */
  ghost predicate Placed(es: seq<Entry>, dirs: seq<Dir>) {
    && (forall i :: 0 <= i < |es| ==> es[i].at < |dirs| && Model(dirs[es[i].at])
                                      && es[i].name == dirs[es[i].at].name && es[i].size == dirs[es[i].at].size)
    && (forall i, j :: 0 <= i < j < |es| ==> es[i].at != es[j].at)
  }

  lemma {:induction false} AmongEntries(es: seq<Entry>, dirs: seq<Dir>)
    requires Distinct(dirs) && Placed(es, dirs)
    ensures Among(dirs, NamesOf(es)) == Total(es)
    decreases es
  {
    if es == [] {
      AmongNothing(dirs);
    } else {
      var init, e := es[..|es| - 1], es[|es| - 1];
      AmongEntries(init, dirs);
      NamedBy(init);
      assert forall i :: 0 <= i < |init| ==> init[i] == es[i];
      AmongOneMore(dirs, NamesOf(init), e.at);
    }
  }

  lemma {:induction false} NamedBy(es: seq<Entry>)
    ensures forall name :: name in NamesOf(es) ==> exists i :: 0 <= i < |es| && es[i].name == name
    decreases es
  {
    if es != [] {
      var init := es[..|es| - 1];
      NamedBy(init);
      forall name | name in NamesOf(es)
        ensures exists i :: 0 <= i < |es| && es[i].name == name
      {
        if name in NamesOf(init) {
          var i :| 0 <= i < |init| && init[i].name == name;
          assert es[i].name == name;
        } else {
          assert es[|es| - 1].name == name;
        }
      }
    }
  }

  lemma {:induction false} AmongNothing(dirs: seq<Dir>)
    ensures Among(dirs, {}) == 0
    decreases dirs
  {
    if dirs != [] {
      AmongNothing(dirs[..|dirs| - 1]);
    }
  }

  lemma {:induction false} EvictedOrdered(es: seq<Entry>, need: int, dryRun: bool, fails: string -> bool)
    requires Ordered(es)
    ensures Ordered(Evict(es, need, dryRun, fails).evicted)
    ensures Evict(es, need, dryRun, fails).freed == Total(Evict(es, need, dryRun, fails).evicted)
    decreases es
  {
    if es != [] {
      var init, e := es[..|es| - 1], es[|es| - 1];
      EvictedOrdered(init, need, dryRun, fails);
      var before := Evict(init, need, dryRun, fails);
      forall i | 0 <= i < |before.evicted|
        ensures Earlier(before.evicted[i], e)
      {
        EvictedAreCandidates(init, need, dryRun, fails, before.evicted[i]);
      }
      assert Evict(es, need, dryRun, fails) == Next(before, e, need, dryRun, fails);
    }
  }

  lemma {:induction false} EntrySize(dirs: seq<Dir>, runs: seq<RunRecord>, now: int, grace: int, e: Entry)
    requires e in Entries(dirs, runs, now, grace)
    ensures e.at < |dirs| && e == EntryAt(dirs, runs, now, grace, e.at)
    decreases dirs
  {
    var n := |dirs| - 1;
    if e in Entries(dirs[..n], runs, now, grace) {
      EntrySize(dirs[..n], runs, now, grace, e);
    }
  }

  function EntryAt(dirs: seq<Dir>, runs: seq<RunRecord>, now: int, grace: int, at: nat): Entry
    requires at < |dirs|
  {
    var d := dirs[at];
    Entry(d.name, d.size, d.mtime, Classify(d.mtime, RunsFor(d.name, runs), now, grace), at)
  }

  /** Conservation: after an eviction the cache weighs exactly as much less as was freed. */
  lemma FreedIsGone(dirs: seq<Dir>, runs: seq<RunRecord>, now: int, grace: int, quota: int, fails: string -> bool,
                    es: seq<Entry>, plan: Eviction)
    requires Distinct(dirs)
    requires es == Entries(dirs, runs, now, grace) && plan == Enforced(es, quota, false, fails)
    ensures Total(Entries(Left(dirs, plan, false), runs, now, grace)) == Total(es) - plan.freed
  {
    WithoutWeighs(dirs, NamesOf(plan.evicted), runs, now, grace);
    if Total(es) <= quota {
      AmongNothing(dirs);
    } else {
      EvictedFrom(es, Total(es) - quota, fails, plan);
      EvictedPlaced(plan.evicted, dirs, runs, now, grace);
      AmongEntries(plan.evicted, dirs);
    }
  }

  lemma EvictedFrom(es: seq<Entry>, need: int, fails: string -> bool, plan: Eviction)
    requires forall i, j :: 0 <= i < j < |es| ==> es[i].at < es[j].at
    requires plan == Evict(Evictable(es), need, false, fails)
    ensures Ordered(plan.evicted) && plan.freed == Total(plan.evicted)
    ensures forall i :: 0 <= i < |plan.evicted| ==> plan.evicted[i] in es
  {
    EvictableIs(es);
    EvictedOrdered(Evictable(es), need, false, fails);
    forall i | 0 <= i < |plan.evicted|
      ensures plan.evicted[i] in es
    {
      EvictedAreCandidates(Evictable(es), need, false, fails, plan.evicted[i]);
      assert multiset(Evictable(es))[plan.evicted[i]] > 0;
      assert multiset(es)[plan.evicted[i]] > 0;
    }
  }

  lemma EvictedPlaced(evicted: seq<Entry>, dirs: seq<Dir>, runs: seq<RunRecord>, now: int, grace: int)
    requires Ordered(evicted) && forall i :: 0 <= i < |evicted| ==> evicted[i] in Entries(dirs, runs, now, grace)
    ensures Placed(evicted, dirs)
  {
    forall i | 0 <= i < |evicted|
      ensures evicted[i].at < |dirs| && evicted[i] == EntryAt(dirs, runs, now, grace, evicted[i].at)
      ensures Model(dirs[evicted[i].at])
    {
      EntrySize(dirs, runs, now, grace, evicted[i]);
      EntryOf(dirs, runs, now, grace, evicted[i]);
    }
    forall i, j | 0 <= i < j < |evicted|
      ensures evicted[i].at != evicted[j].at
    {
      assert Earlier(evicted[i], evicted[j]);
    }
  }
}
