/**
 discover/tracker.py: the mirror paginator and the two scans that drain it newest first. Time stamps
 are integers; HTTP, JSON and retries are reduced to what a page fetch comes back with.
 */
module Discovery {
  import opened Options

  datatype Row = Row(id: string, ts: Option<int>, tag: Option<string>, isPrivate: bool, gated: bool)

  /** A page with or without a next link, or a fetch that failed, was not JSON or not a list. */
  datatype Fetch = Page(rows: seq<Row>, next: bool) | Failed

  predicate TooOld(r: Row, cutoff: int) {
    r.ts.Some? && r.ts.value < cutoff
  }

  // ---------- the paginator ----------

  /** The rows up to and including the first one that is too old. */
  function UptoOld(rows: seq<Row>, cutoff: int): seq<Row> {
    if rows == [] then []
    else if TooOld(rows[0], cutoff) then [rows[0]]
    else [rows[0]] + UptoOld(rows[1..], cutoff)
  }

  predicate AnyOld(rows: seq<Row>, cutoff: int) {
    exists i :: 0 <= i < |rows| && TooOld(rows[i], cutoff)
  }

  function PageRows(page: Fetch, cutoff: int): seq<Row> {
    if page.Failed? then [] else UptoOld(page.rows, cutoff)
  }

  predicate PageGoesOn(page: Fetch, cutoff: int) {
    page.Page? && page.rows != [] && !AnyOld(page.rows, cutoff) && page.next
  }

  /** What the generator has yielded, and whether it goes on. */
  datatype Feed = Feed(rows: seq<Row>, more: bool)

  /** The first n pages. */
  function Paged(pages: seq<Fetch>, cutoff: int, n: nat): Feed
    requires n <= |pages|
  {
    if n == 0 then Feed([], true)
    else
      var f := Paged(pages, cutoff, n - 1);
      if f.more then Feed(f.rows + PageRows(pages[n - 1], cutoff), PageGoesOn(pages[n - 1], cutoff)) else f
  }

  function Pages(pages: seq<Fetch>, maxPages: nat): (n: nat)
    ensures n <= |pages|
  {
    if |pages| <= maxPages then |pages| else maxPages
  }

  /** mirror_paginate_models: what it yields, given what the successive fetches return. */
  function Paginated(pages: seq<Fetch>, cutoff: int, maxPages: nat): seq<Row> {
    Paged(pages, cutoff, Pages(pages, maxPages)).rows
  }

  lemma AnyOldCons(rows: seq<Row>, cutoff: int)
    requires rows != []
    ensures AnyOld(rows, cutoff) <==> TooOld(rows[0], cutoff) || AnyOld(rows[1..], cutoff)
  {
    if i :| 0 < i < |rows| && TooOld(rows[i], cutoff) {
      assert TooOld(rows[1..][i - 1], cutoff);
    }
    if i :| 0 <= i < |rows| - 1 && TooOld(rows[1..][i], cutoff) {
      assert TooOld(rows[i + 1], cutoff);
    }
  }

  ghost predicate CutAtOld(rows: seq<Row>, u: seq<Row>, cutoff: int) {
    && u <= rows && (!AnyOld(rows, cutoff) ==> u == rows)
    && (AnyOld(rows, cutoff) ==> u != [] && TooOld(u[|u| - 1], cutoff) && !AnyOld(u[..|u| - 1], cutoff))
  }

  lemma {:induction false} UptoOldIs(rows: seq<Row>, cutoff: int)
    ensures CutAtOld(rows, UptoOld(rows, cutoff), cutoff)
    decreases rows
  {
    if rows != [] && !TooOld(rows[0], cutoff) {
      UptoOldIs(rows[1..], cutoff);
      CutAtOldCons(rows, UptoOld(rows[1..], cutoff), cutoff);
    }
  }

  lemma CutAtOldCons(rows: seq<Row>, v: seq<Row>, cutoff: int)
    requires rows != [] && !TooOld(rows[0], cutoff) && CutAtOld(rows[1..], v, cutoff)
    ensures CutAtOld(rows, [rows[0]] + v, cutoff)
  {
    var u := [rows[0]] + v;
    AnyOldCons(rows, cutoff);
    assert rows == [rows[0]] + rows[1..];
    if v != [] {
      assert u[|u| - 1] == v[|v| - 1];
      assert u[..|u| - 1] == [rows[0]] + v[..|v| - 1];
    }
  }

  /** What the generator yields of one page; it ends at the first row that is too old. */
  method YieldPage(models: seq<Row>, cutoff: int) returns (rows: seq<Row>, hitCutoff: bool)
    ensures rows == UptoOld(models, cutoff) && hitCutoff == AnyOld(models, cutoff)
  {
    rows, hitCutoff := [], false;
    var k := 0;
    while k < |models| && !hitCutoff
      invariant k <= |models| && rows == models[..k]
      invariant if hitCutoff then k > 0 && TooOld(models[k - 1], cutoff) && !AnyOld(models[..k - 1], cutoff)
                else !AnyOld(models[..k], cutoff)
      decreases |models| - k, !hitCutoff
    {
      assert models[..k + 1] == models[..k] + [models[k]];
      rows := rows + [models[k]];
      hitCutoff := TooOld(models[k], cutoff);
      k := k + 1;
    }
    if hitCutoff {
      UptoOldStops(models, cutoff, k - 1);
      assert models[..k] == models[..k - 1] + [models[k - 1]];
    } else {
      assert models[..k] == models;
      UptoOldIs(models, cutoff);
    }
  }

  /** One page; `more` says whether there is another. */
  method TakePage(page: Fetch, cutoff: int) returns (rows: seq<Row>, more: bool)
    ensures rows == PageRows(page, cutoff) && more == PageGoesOn(page, cutoff)
  {
    if page.Failed? || page.rows == [] {
      return [], false;
    }
    var hitCutoff: bool;
    rows, hitCutoff := YieldPage(page.rows, cutoff);
    more := !hitCutoff && page.next;
  }

  /** The generator, run to its end. */
  method Paginate(pages: seq<Fetch>, cutoff: int, maxPages: nat) returns (rows: seq<Row>)
    ensures rows == Paginated(pages, cutoff, maxPages)
  {
    rows := [];
    var page, more := 0, true;
    while more && page < maxPages && page < |pages|
      invariant page <= |pages| && page <= maxPages
      invariant Paged(pages, cutoff, page) == Feed(rows, more)
      decreases |pages| - page
    {
      PagedStep(pages, cutoff, page);
      var yielded;
      yielded, more := TakePage(pages[page], cutoff);
      rows, page := rows + yielded, page + 1;
    }
    PagedStops(pages, cutoff, page, Pages(pages, maxPages));
  }

  lemma PagedStep(pages: seq<Fetch>, cutoff: int, k: nat)
    requires k < |pages|
    ensures var f := Paged(pages, cutoff, k);
      Paged(pages, cutoff, k + 1) ==
        if f.more then Feed(f.rows + PageRows(pages[k], cutoff), PageGoesOn(pages[k], cutoff)) else f
  {
  }

  lemma {:induction false} PagedStops(pages: seq<Fetch>, cutoff: int, k: nat, n: nat)
    requires k <= n <= |pages| && (k == n || !Paged(pages, cutoff, k).more)
    ensures Paged(pages, cutoff, n) == Paged(pages, cutoff, k)
    decreases n - k
  {
    if k < n {
      PagedStops(pages, cutoff, k, n - 1);
    }
  }

  lemma {:induction false} UptoOldStops(rows: seq<Row>, cutoff: int, k: nat)
    requires k < |rows| && TooOld(rows[k], cutoff) && !AnyOld(rows[..k], cutoff)
    ensures AnyOld(rows, cutoff) && UptoOld(rows, cutoff) == rows[..k] + [rows[k]]
    decreases k
  {
    if k > 0 {
      assert rows[..k][0] == rows[0];
      assert rows[1..][..k - 1] == rows[..k][1..];
      assert forall i {:trigger rows[..k][1..][i]} :: 0 <= i < k - 1 ==> rows[..k][1..][i] == rows[..k][i + 1];
      UptoOldStops(rows[1..], cutoff, k - 1);
      assert rows[..k] == [rows[0]] + rows[1..][..k - 1];
    }
  }

  // ---------- the scans ----------

  datatype Stats = Stats(newCandidates: nat, seenSkipped: nat, excludedOld: nat, excludedModality: nat)

  const NO_STATS := Stats(0, 0, 0, 0)

  function Counted(s: Stats): nat {
    s.newCandidates + s.seenSkipped + s.excludedOld + s.excludedModality
  }

  /** A scan's variables: the cursor's seen ids, what was admitted, the counts, the oldest time stamp met,
      whether it crossed its cutoff. */
  datatype Scan = Scan(seen: set<string>, admitted: seq<Row>, stats: Stats, oldest: Option<int>, crossed: bool)

  /** _passes_modality: no list allows everything, and so does a row without a tag. */
  predicate Allowed(r: Row, tags: seq<string>) {
    tags == [] || r.tag.None? || r.tag.value == "" || r.tag.value in tags
  }

  function Older(oldest: Option<int>, ts: Option<int>): Option<int> {
    if ts.Some? && (oldest.None? || ts.value < oldest.value) then ts else oldest
  }

  /** What both scans do with a row that is not too old. */
  function Admit(s: Scan, r: Row, tags: seq<string>): Scan {
    if r.id in s.seen then s.(stats := s.stats.(seenSkipped := s.stats.seenSkipped + 1))
    else if !Allowed(r, tags) || r.isPrivate || r.gated then
      s.(stats := s.stats.(excludedModality := s.stats.excludedModality + 1))
    else s.(admitted := s.admitted + [r], seen := s.seen + {r.id},
            stats := s.stats.(newCandidates := s.stats.newCandidates + 1))
  }

  /** One row. Only the backfill counts the row at which it stops and keeps the oldest time stamp. */
  function Step(s: Scan, r: Row, cutoff: int, tags: seq<string>, backfill: bool): Scan {
    if s.crossed then s
    else
      var s' := if backfill then s.(oldest := Older(s.oldest, r.ts)) else s;
      if TooOld(r, cutoff) then
        s'.(crossed := true, stats := s.stats.(excludedOld := s.stats.excludedOld + if backfill then 1 else 0))
      else Admit(s', r, tags)
  }

  function Scanned(rows: seq<Row>, seen: set<string>, cutoff: int, tags: seq<string>, backfill: bool): Scan {
    if rows == [] then Scan(seen, [], NO_STATS, None, false)
    else Step(Scanned(rows[..|rows| - 1], seen, cutoff, tags, backfill), rows[|rows| - 1], cutoff, tags, backfill)
  }

  class Cursor {
    var seen: set<string>
    var lastRun: int
    var backfillComplete: bool
    var highWater: Option<int>

    /** The loop that scan_backfill and scan_incremental share; rows after the cutoff are not consumed. */
    method Drain(rows: seq<Row>, cutoff: int, tags: seq<string>, backfill: bool) returns (s: Scan)
      modifies this`seen
      ensures s == Scanned(rows, old(seen), cutoff, tags, backfill) && seen == s.seen
    {
      s := Scan(seen, [], NO_STATS, None, false);
      for k := 0 to |rows|
        invariant s == Scanned(rows[..k], old(seen), cutoff, tags, backfill) && !s.crossed
      {
        assert rows[..k + 1][..k] == rows[..k];
        s := Step(s, rows[k], cutoff, tags, backfill);
        if s.crossed {
          CrossedStays(rows, k + 1, old(seen), cutoff, tags, backfill);
          seen := s.seen;
          return;
        }
      }
      assert rows[..|rows|] == rows;
      seen := s.seen;
    }

    method ScanBackfill(rows: seq<Row>, fromDate: int, tags: seq<string>, now: int) returns (s: Scan, finished: bool)
      modifies this
      ensures s == Scanned(rows, old(seen), fromDate, tags, true) && seen == s.seen
      ensures finished <==> s.crossed || rows == []
      ensures backfillComplete == (old(backfillComplete) || finished) && lastRun == now
      ensures highWater == if s.oldest.Some? then s.oldest else old(highWater)
    {
      s := Drain(rows, fromDate, tags, true);
      finished := s.crossed || rows == [];
      if s.oldest.Some? {
        highWater := s.oldest;
      }
      lastRun := now;
      if finished {
        backfillComplete := true;
      }
    }

    /** `lastRun` is None on a cursor that never ran. */
    method ScanIncremental(rows: seq<Row>, fromDate: int, everRan: bool, tags: seq<string>, now: int) returns (s: Scan)
      modifies this
      ensures s == Scanned(rows, old(seen), if everRan then old(lastRun) else fromDate, tags, false) && seen == s.seen
      ensures lastRun == now && backfillComplete == old(backfillComplete) && highWater == old(highWater)
    {
      s := Drain(rows, if everRan then lastRun else fromDate, tags, false);
      lastRun := now;
    }
  }

  lemma {:induction false} CrossedStays(rows: seq<Row>, k: nat, seen: set<string>, cutoff: int, tags: seq<string>,
                                        backfill: bool)
    requires k <= |rows| && Scanned(rows[..k], seen, cutoff, tags, backfill).crossed
    ensures Scanned(rows, seen, cutoff, tags, backfill) == Scanned(rows[..k], seen, cutoff, tags, backfill)
    decreases |rows| - k
  {
    if k == |rows| {
      assert rows[..k] == rows;
    } else {
      assert rows[..k + 1][..k] == rows[..k];
      CrossedStays(rows, k + 1, seen, cutoff, tags, backfill);
    }
  }

  // ---------- what a scan admits ----------

  function Ids(rows: seq<Row>): set<string> {
    if rows == [] then {} else Ids(rows[..|rows| - 1]) + {rows[|rows| - 1].id}
  }

  /** A row a scan is after. */
  predicate Wanted(r: Row, tags: seq<string>) {
    Allowed(r, tags) && !r.isPrivate && !r.gated
  }

  /** After rows of which none was too old: everything wanted is in, once, and nothing else; each row is
      counted in exactly one bucket. */
  ghost predicate Complete(rows: seq<Row>, seen: set<string>, tags: seq<string>, s: Scan) {
    && s.seen == seen + Ids(s.admitted)
    && Ids(s.admitted) !! seen
    && (forall i, j :: 0 <= i < j < |s.admitted| ==> s.admitted[i].id != s.admitted[j].id)
    && (forall i :: 0 <= i < |s.admitted| ==> s.admitted[i] in rows && Wanted(s.admitted[i], tags))
    && (forall i :: 0 <= i < |rows| && Wanted(rows[i], tags) && rows[i].id !in seen ==> rows[i].id in Ids(s.admitted))
    && s.stats.newCandidates == |s.admitted|
  }

  lemma {:induction false} IdsAre(rows: seq<Row>)
    ensures forall i :: 0 <= i < |rows| ==> rows[i].id in Ids(rows)
    ensures forall id :: id in Ids(rows) ==> exists i :: 0 <= i < |rows| && rows[i].id == id
    decreases rows
  {
    if rows != [] {
      var init := rows[..|rows| - 1];
      IdsAre(init);
      forall id | id in Ids(rows)
        ensures exists i :: 0 <= i < |rows| && rows[i].id == id
      {
        if id in Ids(init) {
          var i :| 0 <= i < |init| && init[i].id == id;
          assert rows[i].id == id;
        } else {
          assert rows[|rows| - 1].id == id;
        }
      }
    }
  }

  lemma AdmitComplete(rows: seq<Row>, seen: set<string>, tags: seq<string>, s: Scan, r: Row)
    requires Complete(rows, seen, tags, s)
    ensures Complete(rows + [r], seen, tags, Admit(s, r, tags))
    ensures Counted(Admit(s, r, tags).stats) == Counted(s.stats) + 1
  {
    if r.id in s.seen || !Wanted(r, tags) {
      NothingAdmitted(rows, seen, tags, s, Admit(s, r, tags), r);
    } else {
      OneAdmitted(rows, seen, tags, s, Admit(s, r, tags), r);
    }
  }

  lemma NothingAdmitted(rows: seq<Row>, seen: set<string>, tags: seq<string>, s: Scan, s': Scan, r: Row)
    requires Complete(rows, seen, tags, s) && (r.id in s.seen || !Wanted(r, tags))
    requires s'.seen == s.seen && s'.admitted == s.admitted && s'.stats.newCandidates == s.stats.newCandidates
    ensures Complete(rows + [r], seen, tags, s')
  {
    var all := rows + [r];
    forall i | 0 <= i < |all| && Wanted(all[i], tags) && all[i].id !in seen
      ensures all[i].id in Ids(s'.admitted)
    {
      if i < |rows| {
        assert all[i] == rows[i];
      }
    }
  }

  lemma OneAdmitted(rows: seq<Row>, seen: set<string>, tags: seq<string>, s: Scan, s': Scan, r: Row)
    requires Complete(rows, seen, tags, s) && r.id !in s.seen && Wanted(r, tags)
    requires s'.seen == s.seen + {r.id} && s'.admitted == s.admitted + [r]
    requires s'.stats.newCandidates == s.stats.newCandidates + 1
    ensures Complete(rows + [r], seen, tags, s')
  {
    IdsAre(s.admitted);
    var all := rows + [r];
    forall i | 0 <= i < |all| && Wanted(all[i], tags) && all[i].id !in seen
      ensures all[i].id in Ids(s'.admitted)
    {
      if i < |rows| {
        assert all[i] == rows[i];
      }
    }
  }

  lemma StepComplete(rows: seq<Row>, seen: set<string>, cutoff: int, tags: seq<string>, backfill: bool, s: Scan, r: Row)
    requires Complete(rows, seen, tags, s) && !s.crossed && !TooOld(r, cutoff)
    ensures var s' := Step(s, r, cutoff, tags, backfill);
      Complete(rows + [r], seen, tags, s') && !s'.crossed && Counted(s'.stats) == Counted(s.stats) + 1
  {
    var older := if backfill then s.(oldest := Older(s.oldest, r.ts)) else s;
    AdmitComplete(rows, seen, tags, older, r);
  }

  /** After rows none of which was too old. */
  ghost predicate Whole(rows: seq<Row>, seen: set<string>, tags: seq<string>, s: Scan) {
    !s.crossed && Complete(rows, seen, tags, s) && Counted(s.stats) == |rows|
  }

  lemma {:induction false} ScanIsComplete(rows: seq<Row>, seen: set<string>, cutoff: int, tags: seq<string>,
                                          backfill: bool)
    requires !AnyOld(rows, cutoff)
    ensures Whole(rows, seen, tags, Scanned(rows, seen, cutoff, tags, backfill))
    decreases rows
  {
    if rows != [] {
      var init, last := rows[..|rows| - 1], rows[|rows| - 1];
      assert forall i :: 0 <= i < |init| ==> init[i] == rows[i];
      ScanIsComplete(init, seen, cutoff, tags, backfill);
      StepWhole(init, last, seen, cutoff, tags, backfill, Scanned(init, seen, cutoff, tags, backfill),
                Scanned(rows, seen, cutoff, tags, backfill));
      assert rows == init + [last];
    } else {
      NothingScanned(seen, tags);
    }
  }

  lemma NothingScanned(seen: set<string>, tags: seq<string>)
    ensures Whole([], seen, tags, Scan(seen, [], NO_STATS, None, false))
  {
    assert Ids([]) == {};
  }

  lemma StepWhole(init: seq<Row>, last: Row, seen: set<string>, cutoff: int, tags: seq<string>, backfill: bool, s: Scan,
                  s': Scan)
    requires Whole(init, seen, tags, s) && !TooOld(last, cutoff) && s' == Step(s, last, cutoff, tags, backfill)
    ensures Whole(init + [last], seen, tags, s')
  {
    StepComplete(init, seen, cutoff, tags, backfill, s, last);
  }

  /** What is consumed: everything up to the first row that is too old, and that row. */
  lemma ScanConsumes(rows: seq<Row>, seen: set<string>, cutoff: int, tags: seq<string>, backfill: bool)
    ensures var u := UptoOld(rows, cutoff);
      && Scanned(rows, seen, cutoff, tags, backfill) == Scanned(u, seen, cutoff, tags, backfill)
      && (Scanned(rows, seen, cutoff, tags, backfill).crossed <==> AnyOld(rows, cutoff))
  {
    UptoOldIs(rows, cutoff);
    var u := UptoOld(rows, cutoff);
    if AnyOld(rows, cutoff) {
      ScanIsComplete(u[..|u| - 1], seen, cutoff, tags, backfill);
      assert u == rows[..|u|];
      CrossedStays(rows, |u|, seen, cutoff, tags, backfill);
    } else {
      ScanIsComplete(rows, seen, cutoff, tags, backfill);
    }
  }

  // ---------- completeness of the backfill ----------

  function AllRows(pages: seq<Fetch>): seq<Row>
    requires forall p :: p in pages ==> p.Page?
  {
    if pages == [] then [] else AllRows(pages[..|pages| - 1]) + pages[|pages| - 1].rows
  }

  /** Every page arrives, and there are not too many. All but the last have rows and a next link; the
      last has no next link or no rows. */
  ghost predicate Undisturbed(pages: seq<Fetch>, maxPages: nat) {
    && |pages| <= maxPages
    && (forall i :: 0 <= i < |pages| ==> pages[i].Page? && (pages[i].next && pages[i].rows != [] <==> i < |pages| - 1))
  }

  ghost predicate NewestFirst(rows: seq<Row>) {
    && (forall i :: 0 <= i < |rows| ==> rows[i].ts.Some?)
    && (forall i, j :: 0 <= i < j < |rows| ==> rows[i].ts.value >= rows[j].ts.value)
  }

  lemma {:induction false} UptoOldJoin(a: seq<Row>, b: seq<Row>, cutoff: int)
    ensures UptoOld(a + b, cutoff) == if AnyOld(a, cutoff) then UptoOld(a, cutoff) else a + UptoOld(b, cutoff)
    decreases a
  {
    if a == [] {
      assert a + b == b;
    } else {
      assert (a + b)[1..] == a[1..] + b;
      UptoOldJoin(a[1..], b, cutoff);
      AnyOldCons(a, cutoff);
    }
  }

  lemma AnyOldJoin(a: seq<Row>, b: seq<Row>, cutoff: int)
    ensures AnyOld(a + b, cutoff) <==> AnyOld(a, cutoff) || AnyOld(b, cutoff)
  {
    var all := a + b;
    if i :| 0 <= i < |a| && TooOld(a[i], cutoff) {
      assert TooOld(all[i], cutoff);
    }
    if i :| 0 <= i < |b| && TooOld(b[i], cutoff) {
      assert TooOld(all[|a| + i], cutoff);
    }
  }

  lemma {:induction false} PagedIsWhole(pages: seq<Fetch>, cutoff: int, maxPages: nat, n: nat)
    requires Undisturbed(pages, maxPages) && n <= |pages|
    requires forall p :: p in pages[..n] ==> p.Page?
    ensures var f := Paged(pages, cutoff, n);
      && f.rows == UptoOld(AllRows(pages[..n]), cutoff)
      && (f.more <==> !AnyOld(AllRows(pages[..n]), cutoff) && (n == 0 || n < |pages|))
    decreases n
  {
    if n > 0 {
      assert pages[..n][..n - 1] == pages[..n - 1];
      PagedIsWhole(pages, cutoff, maxPages, n - 1);
      assert n > 1 ==> pages[n - 2].next;
      assert AllRows(pages[..n]) == AllRows(pages[..n - 1]) + pages[n - 1].rows;
      UptoOldJoin(AllRows(pages[..n - 1]), pages[n - 1].rows, cutoff);
      AnyOldJoin(AllRows(pages[..n - 1]), pages[n - 1].rows, cutoff);
      UptoOldIs(AllRows(pages[..n - 1]), cutoff);
    }
  }

  /** Undisturbed, the paginator yields the whole feed up to the first row that is too old. */
  lemma PaginatedIsWhole(pages: seq<Fetch>, cutoff: int, maxPages: nat)
    requires Undisturbed(pages, maxPages)
    ensures forall p :: p in pages ==> p.Page?
    ensures Paginated(pages, cutoff, maxPages) == UptoOld(AllRows(pages), cutoff)
  {
    assert pages[..|pages|] == pages;
    PagedIsWhole(pages, cutoff, maxPages, |pages|);
  }

  /** Backfill completeness: from an undisturbed, newest-first feed, the scan admits exactly the ids of
      the wanted rows in the window that were not seen before, each once, and none that is too old;
      it reports completion exactly when the feed reaches beyond the window or is empty. */
  lemma BackfillIsComplete(pages: seq<Fetch>, fromDate: int, maxPages: nat, seen: set<string>, tags: seq<string>,
                           id: string)
    requires Undisturbed(pages, maxPages)
    requires forall p :: p in pages ==> p.Page?
    requires NewestFirst(AllRows(pages))
    ensures var rows := Paginated(pages, fromDate, maxPages);
      var s := Scanned(rows, seen, fromDate, tags, true);
      && (id in Ids(s.admitted) <==>
            id !in seen && WantedInWindow(AllRows(pages), id, fromDate, tags))
      && (forall i, j :: 0 <= i < j < |s.admitted| ==> s.admitted[i].id != s.admitted[j].id)
      && (s.crossed <==> AnyOld(AllRows(pages), fromDate))
      && (rows == [] <==> AllRows(pages) == [])
      && Counted(s.stats) == |rows|
  {
    PaginatedIsWhole(pages, fromDate, maxPages);
    var all := AllRows(pages);
    FeedScan(all, seen, fromDate, tags, true, id);
    UptoOldIs(all, fromDate);
  }

  /** The first fetch brings no row: there is none to make, it fails, or its page is empty. */
  predicate NothingFetched(pages: seq<Fetch>, maxPages: nat) {
    maxPages == 0 || pages == [] || pages[0].Failed? || pages[0].rows == []
  }

  lemma {:induction false} PagedEmpty(pages: seq<Fetch>, cutoff: int, n: nat)
    requires 0 < n <= |pages|
    ensures var f := Paged(pages, cutoff, n);
      && (f.rows == [] <==> pages[0].Failed? || pages[0].rows == [])
      && (f.rows == [] ==> !f.more)
    decreases n
  {
    PagedStep(pages, cutoff, n - 1);
    if n > 1 {
      PagedEmpty(pages, cutoff, n - 1);
    } else {
      assert Paged(pages, cutoff, 0) == Feed([], true);
    }
  }

  /** Over all fetches: a backfill is reported finished without a row that is too old exactly if the first
      fetch brings no row. */
  lemma FinishedWithoutBottom(pages: seq<Fetch>, fromDate: int, maxPages: nat, seen: set<string>, tags: seq<string>)
    ensures var rows := Paginated(pages, fromDate, maxPages);
      var s := Scanned(rows, seen, fromDate, tags, true);
      && ((s.crossed || rows == []) && !AnyOld(rows, fromDate) <==> NothingFetched(pages, maxPages))
      && (NothingFetched(pages, maxPages) ==> rows == [] && s.admitted == [] && Counted(s.stats) == 0)
  {
    ScanConsumes(Paginated(pages, fromDate, maxPages), seen, fromDate, tags, true);
    if maxPages > 0 && pages != [] {
      PagedEmpty(pages, fromDate, Pages(pages, maxPages));
    }
  }

  /** In particular a first fetch that fails marks the backfill complete with nothing scanned. */
  lemma FailedFetchFinishes(more: seq<Fetch>, fromDate: int, maxPages: nat, seen: set<string>, tags: seq<string>)
    ensures var rows := Paginated([Failed] + more, fromDate, maxPages);
      rows == [] && Scanned(rows, seen, fromDate, tags, true).admitted == []
  {
    FinishedWithoutBottom([Failed] + more, fromDate, maxPages, seen, tags);
  }

  /** The scan of a newest-first feed cut off after its first row that is too old. */
  lemma {:induction false} FeedScan(all: seq<Row>, seen: set<string>, cutoff: int, tags: seq<string>, backfill: bool,
                                    id: string)
    requires NewestFirst(all)
    ensures var s := Scanned(UptoOld(all, cutoff), seen, cutoff, tags, backfill);
      && (id in Ids(s.admitted) <==> id !in seen && WantedInWindow(all, id, cutoff, tags))
      && (forall i, j :: 0 <= i < j < |s.admitted| ==> s.admitted[i].id != s.admitted[j].id)
      && (s.crossed <==> AnyOld(all, cutoff))
      && (backfill ==> Counted(s.stats) == |UptoOld(all, cutoff)|)
  {
    UptoOldIs(all, cutoff);
    var u := UptoOld(all, cutoff);
    var inside := if AnyOld(all, cutoff) then u[..|u| - 1] else u;
    ScanIsComplete(inside, seen, cutoff, tags, backfill);
    LastRow(u, inside, seen, cutoff, tags, backfill);
    FeedIds(all, inside, seen, cutoff, tags, Scanned(inside, seen, cutoff, tags, backfill), id);
  }

  lemma FeedIds(all: seq<Row>, inside: seq<Row>, seen: set<string>, cutoff: int, tags: seq<string>, s: Scan, id: string)
    requires NewestFirst(all) && Complete(inside, seen, tags, s)
    requires inside <= all && !AnyOld(inside, cutoff) && (|inside| < |all| ==> TooOld(all[|inside|], cutoff))
    ensures id in Ids(s.admitted) <==> id !in seen && WantedInWindow(all, id, cutoff, tags)
  {
    WindowIsPrefix(all, cutoff, inside);
    AdmittedIds(inside, seen, tags, s, id);
    MatchRows(all, inside, cutoff, tags, id);
  }

  /** The row at which a scan stops admits nothing. */
  lemma {:induction false} LastRow(u: seq<Row>, inside: seq<Row>, seen: set<string>, cutoff: int, tags: seq<string>,
                                   backfill: bool)
    requires !Scanned(inside, seen, cutoff, tags, backfill).crossed
    requires u == inside || (u != [] && inside == u[..|u| - 1] && TooOld(u[|u| - 1], cutoff))
    ensures var a, b := Scanned(inside, seen, cutoff, tags, backfill), Scanned(u, seen, cutoff, tags, backfill);
      && b.admitted == a.admitted && (b.crossed <==> u != inside)
      && (backfill ==> Counted(b.stats) == Counted(a.stats) + |u| - |inside|)
  {
  }

  lemma WindowIsPrefix(all: seq<Row>, cutoff: int, inside: seq<Row>)
    requires NewestFirst(all)
    requires inside <= all && !AnyOld(inside, cutoff) && (|inside| < |all| ==> TooOld(all[|inside|], cutoff))
    ensures forall i :: 0 <= i < |all| ==> (!TooOld(all[i], cutoff) <==> i < |inside|)
  {
    assert forall i :: 0 <= i < |inside| ==> inside[i] == all[i];
  }

  lemma AdmittedIds(rows: seq<Row>, seen: set<string>, tags: seq<string>, s: Scan, id: string)
    requires Complete(rows, seen, tags, s)
    ensures id in Ids(s.admitted) <==>
      id !in seen && exists i :: 0 <= i < |rows| && rows[i].id == id && Wanted(rows[i], tags)
  {
    IdsAre(s.admitted);
    if id in Ids(s.admitted) {
      var k :| 0 <= k < |s.admitted| && s.admitted[k].id == id;
      var i :| 0 <= i < |rows| && rows[i] == s.admitted[k];
      assert rows[i].id == id && Wanted(rows[i], tags);
    }
  }

  ghost predicate WantedInWindow(rows: seq<Row>, id: string, cutoff: int, tags: seq<string>) {
    exists i :: 0 <= i < |rows| && rows[i].id == id && !TooOld(rows[i], cutoff) && Wanted(rows[i], tags)
  }

  lemma MatchRows(all: seq<Row>, inside: seq<Row>, cutoff: int, tags: seq<string>, id: string)
    requires inside <= all && forall i :: 0 <= i < |all| ==> (!TooOld(all[i], cutoff) <==> i < |inside|)
    ensures (exists i :: 0 <= i < |inside| && inside[i].id == id && Wanted(inside[i], tags)) <==>
      WantedInWindow(all, id, cutoff, tags)
  {
    if i :| 0 <= i < |inside| && inside[i].id == id && Wanted(inside[i], tags) {
      assert all[i] == inside[i];
    }
    if i :| 0 <= i < |all| && all[i].id == id && !TooOld(all[i], cutoff) && Wanted(all[i], tags) {
      assert inside[i] == all[i];
    }
  }

  // ---------- scanning again ----------

  lemma {:induction false} NothingNew(rows: seq<Row>, seen: set<string>, cutoff: int, tags: seq<string>, backfill: bool)
    requires forall i :: 0 <= i < |rows| && Wanted(rows[i], tags) ==> rows[i].id in seen
    ensures Scanned(rows, seen, cutoff, tags, backfill).admitted == []
    ensures Scanned(rows, seen, cutoff, tags, backfill).seen == seen
    decreases rows
  {
    if rows != [] {
      assert forall i :: 0 <= i < |rows| - 1 ==> rows[..|rows| - 1][i] == rows[i];
      NothingNew(rows[..|rows| - 1], seen, cutoff, tags, backfill);
    }
  }

  /** A second scan of the same rows, whatever they are, admits nothing and leaves the seen ids alone. */
  lemma RescanAddsNothing(rows: seq<Row>, seen: set<string>, cutoff: int, tags: seq<string>, backfill: bool)
    ensures var s := Scanned(rows, seen, cutoff, tags, backfill);
      Scanned(rows, s.seen, cutoff, tags, backfill).admitted == []
        && Scanned(rows, s.seen, cutoff, tags, backfill).seen == s.seen
  {
    var s := Scanned(rows, seen, cutoff, tags, backfill);
    var u := UptoOld(rows, cutoff);
    UptoOldIs(rows, cutoff);
    ScanConsumes(rows, seen, cutoff, tags, backfill);
    ScanConsumes(rows, s.seen, cutoff, tags, backfill);
    var inside := if AnyOld(rows, cutoff) then u[..|u| - 1] else u;
    ScanIsComplete(inside, seen, cutoff, tags, backfill);
    assert s.seen == Scanned(inside, seen, cutoff, tags, backfill).seen;
    NothingNew(inside, s.seen, cutoff, tags, backfill);
    ScanIsComplete(inside, s.seen, cutoff, tags, backfill);
  }

  /** The daily scan of an undisturbed, newest-first feed admits exactly the ids of the wanted rows not
      older than the last run and not seen before, each once. */
  lemma IncrementalAdmits(pages: seq<Fetch>, lastRun: int, maxPages: nat, seen: set<string>, tags: seq<string>,
                          id: string)
    requires Undisturbed(pages, maxPages)
    requires forall p :: p in pages ==> p.Page?
    requires NewestFirst(AllRows(pages))
    ensures var s := Scanned(Paginated(pages, lastRun, maxPages), seen, lastRun, tags, false);
      && (id in Ids(s.admitted) <==> id !in seen && WantedInWindow(AllRows(pages), id, lastRun, tags))
      && (forall i, j :: 0 <= i < j < |s.admitted| ==> s.admitted[i].id != s.admitted[j].id)
  {
    PaginatedIsWhole(pages, lastRun, maxPages);
    FeedScan(AllRows(pages), seen, lastRun, tags, false, id);
  }

  /** The daily scan can miss a model: one changed before the last scan ended, which that scan did not
      get to see, is never admitted by the next, even if the feed lists it. */
  lemma IncrementalMisses(rows: seq<Row>, seen: set<string>, lastRun: int, tags: seq<string>, r: Row)
    requires TooOld(r, lastRun)
    ensures r !in Scanned(rows, seen, lastRun, tags, false).admitted
  {
    ScanConsumes(rows, seen, lastRun, tags, false);
    UptoOldIs(rows, lastRun);
    var u := UptoOld(rows, lastRun);
    var inside := if AnyOld(rows, lastRun) then u[..|u| - 1] else u;
    ScanIsComplete(inside, seen, lastRun, tags, false);
  }
}
