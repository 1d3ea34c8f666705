/**
 execute_cleanup (orchestrator/stages_py.py): removing the containers labelled with the run. What
 happens to each removal is an oracle; the listing is in any order.
 */
module Cleanup {
  import opened Options
  import opened DeployRepair
  import opened Deploy
  import opened DeployLaws

  /** What becomes of one removal. A retried removal may fail although the container is gone. */
  datatype Removal = Removed | Vanished | RemovedOnRetry | FailedRetry(gone: bool) | Unexpected

  datatype Report = Report(removed: seq<string>, skipped: seq<string>, failed: seq<string>, complete: bool)

  /** The names list(all=True, label=run) yields. */
  function Labelled(cs: Containers, runId: string): set<string> {
    set name | name in cs && cs[name].run == Some(runId)
  }

  function Names(r: Report): multiset<string> {
    multiset(r.removed) + multiset(r.skipped) + multiset(r.failed)
  }

  /** Each name once, and exactly those in `names`. */
  ghost predicate Lists(order: seq<string>, names: set<string>) {
    multiset(order) == multiset(names)
  }

  /** The state of the sweep after the first n of the listed containers. */
  ghost predicate Swept(before: Containers, now: Containers, runId: string, done: seq<string>, r: Report,
                        dryRun: bool) {
    && Names(r) == multiset(done)
    && (forall name :: name in r.skipped ==> !E9Named(name))
    && (forall name :: name in r.removed || name in r.failed ==> E9Named(name))
    && now.Keys <= before.Keys && (forall name :: name in now ==> now[name] == before[name])
    && (forall name :: name in before && name !in now ==> name in done && E9Named(name))
    && (!dryRun ==> forall name :: name in r.removed ==> name !in now)
    && (dryRun ==> now == before && r.failed == [])
  }

  /** The removal works, at once or on the second try, or the container is gone already. */
  predicate Removes(outcome: Removal) {
    outcome.Removed? || outcome.Vanished? || outcome.RemovedOnRetry?
  }

  /** What becomes of one listed container, in docker and in the report. */
  ghost predicate Treated(now: Containers, name: string, r: Report, dryRun: bool, outcome: Removal) {
    if !E9Named(name) then name in r.skipped && name in now
    else if dryRun then name in r.removed && name in now
    else
      && (name in r.removed <==> Removes(outcome))
      && (name in r.failed <==> outcome.FailedRetry?)
      && (name in now <==> outcome == FailedRetry(false))
      && !outcome.Unexpected?
  }

  /** The first n of the listed containers were treated; the sweep ends early only at a removal that raises. */
  ghost predicate TreatedUpto(now: Containers, order: seq<string>, n: nat, r: Report, dryRun: bool,
                              removal: string -> Removal) {
    && n <= |order|
    && (forall i :: 0 <= i < n ==> Treated(now, order[i], r, dryRun, removal(order[i])))
    && (r.complete <==> n == |order|)
    && (n < |order| ==> !dryRun && E9Named(order[n]) && removal(order[n]).Unexpected?)
  }

  /** The report and the containers after one more removal, or the report alone in a dry run. */
  function Swept1(r: Report, now: Containers, name: string, dryRun: bool, outcome: Removal): (Report, Containers) {
    if !E9Named(name) then (r.(skipped := r.skipped + [name]), now)
    else if dryRun then (r.(removed := r.removed + [name]), now)
    else if outcome.Unexpected? then (r.(complete := false), now)
    else if outcome.FailedRetry? then
      (r.(failed := r.failed + [name]), if outcome.gone then now - {name} else now)
    else (r.(removed := r.removed + [name]), now - {name})
  }

  lemma SweptStep(before: Containers, now: Containers, runId: string, done: seq<string>, r: Report, dryRun: bool,
                  name: string, outcome: Removal)
    requires Swept(before, now, runId, done, r, dryRun)
    requires dryRun || !E9Named(name) || !outcome.Unexpected?
    ensures var (r', now') := Swept1(r, now, name, dryRun, outcome);
      Swept(before, now', runId, done + [name], r', dryRun)
  {
    var (r', now') := Swept1(r, now, name, dryRun, outcome);
    assert Names(r') == Names(r) + multiset{name};
    assert forall x :: x in r'.removed ==> x in r.removed || x == name;
    assert forall x :: x in r'.failed ==> x in r.failed || x == name;
    assert forall x :: x in r'.skipped ==> x in r.skipped || x == name;
    assert forall x :: x in done ==> x in done + [name];
  }

  /** A container is treated by its own step, */
  lemma TreatedNow(now: Containers, name: string, r: Report, dryRun: bool, outcome: Removal)
    requires dryRun || !E9Named(name) || !outcome.Unexpected?
    requires name in now && name !in r.removed && name !in r.failed
    ensures var (r', now') := Swept1(r, now, name, dryRun, outcome); Treated(now', name, r', dryRun, outcome)
  {
  }

  /** and the later steps leave it at that. */
  lemma TreatedStays(now: Containers, name: string, r: Report, dryRun: bool, outcome: Removal, other: string,
                     othersOutcome: Removal)
    requires Treated(now, name, r, dryRun, outcome) && name != other
    ensures var (r', now') := Swept1(r, now, other, dryRun, othersOutcome); Treated(now', name, r', dryRun, outcome)
  {
  }

  /** The sweep has come to the k-th of the listed containers. */
  ghost predicate At(before: Containers, now: Containers, runId: string, order: seq<string>, k: nat, r: Report,
                     dryRun: bool, removal: string -> Removal)
  {
    && k <= |order| && r.complete && Swept(before, now, runId, order[..k], r, dryRun)
    && forall i :: 0 <= i < k ==> Treated(now, order[i], r, dryRun, removal(order[i]))
  }

  lemma Distinct(order: seq<string>, names: set<string>)
    requires Lists(order, names)
    ensures forall i, j :: 0 <= i < j < |order| ==> order[i] != order[j]
    ensures forall i :: 0 <= i < |order| ==> order[i] in names
  {
    forall i, j | 0 <= i < j < |order|
      ensures order[i] != order[j]
    {
      var x := order[j];
      assert order == order[..j] + order[j..];
      assert order[j..][0] == x && x in multiset(order[j..]);
      assert multiset(order)[x] == multiset(names)[x] <= 1;
      assert multiset(order)[x] == multiset(order[..j])[x] + multiset(order[j..])[x];
      assert order[..j][i] == order[i];
    }
    forall i | 0 <= i < |order|
      ensures order[i] in names
    {
      assert order[i] in multiset(order);
    }
  }

  lemma SweepStep(before: Containers, now: Containers, runId: string, order: seq<string>, k: nat, r: Report,
                  dryRun: bool, removal: string -> Removal)
    requires Lists(order, Labelled(before, runId)) && k < |order|
    requires At(before, now, runId, order, k, r, dryRun, removal)
    requires dryRun || !E9Named(order[k]) || !removal(order[k]).Unexpected?
    ensures var (r', now') := Swept1(r, now, order[k], dryRun, removal(order[k]));
      At(before, now', runId, order, k + 1, r', dryRun, removal)
  {
    Distinct(order, Labelled(before, runId));
    SweptStep(before, now, runId, order[..k], r, dryRun, order[k], removal(order[k]));
    assert order[..k + 1] == order[..k] + [order[k]];
    TreatedNext(before, now, runId, order, k, r, dryRun, removal);
  }

  lemma TreatedNext(before: Containers, now: Containers, runId: string, order: seq<string>, k: nat, r: Report,
                    dryRun: bool, removal: string -> Removal)
    requires k < |order| && order[k] in Labelled(before, runId)
    requires forall i :: 0 <= i < k ==> order[i] != order[k]
    requires At(before, now, runId, order, k, r, dryRun, removal)
    requires dryRun || !E9Named(order[k]) || !removal(order[k]).Unexpected?
    ensures var (r', now') := Swept1(r, now, order[k], dryRun, removal(order[k]));
      forall i :: 0 <= i < k + 1 ==> Treated(now', order[i], r', dryRun, removal(order[i]))
  {
    var name := order[k];
    assert name !in Names(r) by { assert name !in multiset(order[..k]); }
    TreatedNow(now, name, r, dryRun, removal(name));
    forall i | 0 <= i < k
      ensures var (r', now') := Swept1(r, now, name, dryRun, removal(name));
        Treated(now', order[i], r', dryRun, removal(order[i]))
    {
      TreatedStays(now, order[i], r, dryRun, removal(order[i]), name, removal(name));
    }
  }

  /** ok in the stage result. */
  predicate Succeeded(r: Report) {
    r.complete && r.failed == []
  }

  /** One container of the listing; an exception abandons the sweep. */
  method CleanOne(host: DockerHost, name: string, r: Report, dryRun: bool, outcome: Removal) returns (r': Report)
    modifies host
    ensures (r', host.containers) == Swept1(r, old(host.containers), name, dryRun, outcome)
  {
    if !E9Named(name) {
      return r.(skipped := r.skipped + [name]);
    }
    if dryRun {
      return r.(removed := r.removed + [name]);
    }
    if outcome.Unexpected? {
      return r.(complete := false);
    }
    if !outcome.FailedRetry? || outcome.gone {
      host.containers := host.containers - {name};
    }
    return if outcome.FailedRetry? then r.(failed := r.failed + [name]) else r.(removed := r.removed + [name]);
  }

  /** The sweep is through, or the k-th removal raised. */
  lemma SweepEnds(before: Containers, now: Containers, runId: string, order: seq<string>, k: nat, r: Report,
                  dryRun: bool, removal: string -> Removal)
    requires At(before, now, runId, order, k, r, dryRun, removal)
    ensures k == |order| ==> TreatedUpto(now, order, k, r, dryRun, removal)
    ensures k < |order| && !dryRun && E9Named(order[k]) && removal(order[k]).Unexpected? ==>
      && Swept1(r, now, order[k], dryRun, removal(order[k])) == (r.(complete := false), now)
      && TreatedUpto(now, order, k, r.(complete := false), dryRun, removal)
      && Swept(before, now, runId, order[..k], r.(complete := false), dryRun)
  {
    assert Names(r.(complete := false)) == Names(r);
  }

  /** execute_cleanup once docker has listed the run's containers; n is how many of them it got through. */
  method ExecuteCleanup(host: DockerHost, runId: string, order: seq<string>, dryRun: bool, removal: string -> Removal)
      returns (r: Report, ghost n: nat)
    requires Lists(order, Labelled(host.containers, runId))
    modifies host
    ensures TreatedUpto(host.containers, order, n, r, dryRun, removal)
    ensures Swept(old(host.containers), host.containers, runId, order[..n], r, dryRun)
  {
    r := Report([], [], [], true);
    n := 0;
    ghost var before := host.containers;
    for k := 0 to |order|
      invariant n == k && At(before, host.containers, runId, order, k, r, dryRun, removal)
    {
      ghost var now, r0 := host.containers, r;
      SweepEnds(before, now, runId, order, k, r0, dryRun, removal);
      r := CleanOne(host, order[k], r, dryRun, removal(order[k]));
      if !dryRun && E9Named(order[k]) && removal(order[k]).Unexpected? {
        return;
      }
      SweepStep(before, now, runId, order, k, r0, dryRun, removal);
      n := n + 1;
    }
    SweepEnds(before, host.containers, runId, order, n, r, dryRun, removal);
  }

  /** A cleanup is abandoned exactly if the removal of some prefixed container raises, and is a success exactly
      if every one of them is removed; a dry run always is one. */
  lemma SucceedsIff(before: Containers, now: Containers, runId: string, order: seq<string>, r: Report, n: nat,
                    dryRun: bool, removal: string -> Removal)
    requires TreatedUpto(now, order, n, r, dryRun, removal)
    requires Swept(before, now, runId, order[..n], r, dryRun)
    ensures r.complete <==> dryRun || forall i :: 0 <= i < |order| && E9Named(order[i]) ==>
      !removal(order[i]).Unexpected?
    ensures Succeeded(r) <==> dryRun || forall i :: 0 <= i < |order| && E9Named(order[i]) ==> Removes(removal(order[i]))
  {
    if r.complete && r.failed != [] {
      var name := r.failed[0];
      assert name in Names(r) && name in multiset(order[..n]);
      var i :| 0 <= i < n && order[i] == name;
      assert E9Named(name);
    }
    forall i | 0 <= i < n
      ensures Treated(now, order[i], r, dryRun, removal(order[i]))
    {
    }
  }

  /** A cleanup that reports success has removed every container of the run with the e9- prefix, and
      nothing else; every listed container is accounted for once. */
  lemma CleanupIsExact(before: Containers, now: Containers, runId: string, order: seq<string>, r: Report, n: nat)
    requires Lists(order, Labelled(before, runId)) && n <= |order|
    requires Swept(before, now, runId, order[..n], r, false) && (r.complete <==> n == |order|) && Succeeded(r)
    ensures forall name :: name in before ==>
      (name !in now <==> before[name].run == Some(runId) && E9Named(name))
    ensures forall name :: name in now ==> now[name] == before[name]
    ensures Names(r) == multiset(Labelled(before, runId))
  {
    assert order[..n] == order;
    forall name | name in before && before[name].run == Some(runId) && E9Named(name)
      ensures name !in now
    {
      assert name in Labelled(before, runId);
      assert name in multiset(order) && name in Names(r);
    }
    forall name | name in before && name !in now
      ensures before[name].run == Some(runId) && E9Named(name)
    {
      assert name in multiset(order);
    }
  }

  /** Whatever happens, dry run, failures and an abandoned sweep included, a cleanup removes nothing
      but the run's own e9- containers, and puts nothing in. */
  lemma CleanupIsSafe(before: Containers, now: Containers, runId: string, order: seq<string>, r: Report, n: nat,
                      dryRun: bool, name: string)
    requires Lists(order, Labelled(before, runId)) && n <= |order|
    requires Swept(before, now, runId, order[..n], r, dryRun)
    ensures name in now ==> name in before && now[name] == before[name]
    ensures name in before && (before[name].run != Some(runId) || !E9Named(name) || dryRun) ==> name in now
  {
    if name in before && name !in now {
      assert name in order;
      assert name in multiset(order);
    }
  }

  /** A deployment leaves nothing that a successful cleanup would miss: afterwards, every container
      bound to the run was there before the deployment under a name without the prefix. */
  lemma NothingLeftBehind(site: Site, start: Containers, deployed: Containers, now: Containers, engine: Engine,
                          order: seq<string>, r: Report, n: nat, name: string)
    requires site.name == ContainerNameFor(site.runId, engine) && Confined(site, start, deployed)
    requires Lists(order, Labelled(deployed, site.runId)) && n <= |order|
    requires Swept(deployed, now, site.runId, order[..n], r, false) && (r.complete <==> n == |order|) && Succeeded(r)
    ensures name in now && now[name].run == Some(site.runId) ==>
      name in start && start[name] == now[name] && !E9Named(name)
    ensures name in start && start[name].run != Some(site.runId) && name != site.name ==>
      name in now && now[name] == start[name]
  {
    CleanupIsExact(deployed, now, site.runId, order, r, n);
    NameIsWhole(site.runId, engine, engine);
  }
}
