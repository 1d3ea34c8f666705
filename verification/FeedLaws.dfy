/**
 What a scan of the feed counts and how old it says it got, told from the rows and the ids seen before.
 */
module FeedLaws {
  import opened Options
  import opened Discovery

  /** Row n is the first that is too old, or there is none and n is their number. */
  ghost predicate WindowEnds(rows: seq<Row>, cutoff: int, n: nat) {
    n <= |rows| && (forall i :: 0 <= i < n ==> !TooOld(rows[i], cutoff)) && (n < |rows| ==> TooOld(rows[n], cutoff))
  }

  /** The id of row i was seen before the scan, or a row that was wanted brought it earlier. */
  ghost predicate SeenAt(rows: seq<Row>, seen: set<string>, tags: seq<string>, i: nat)
    requires i < |rows|
  {
    rows[i].id in seen || exists j :: 0 <= j < i && rows[j].id == rows[i].id && Wanted(rows[j], tags)
  }

  datatype Bucket = Fresh | SeenBefore | Unwanted

  /** Where row i is counted. */
  ghost function BucketOf(rows: seq<Row>, seen: set<string>, tags: seq<string>, i: nat): Bucket
    requires i < |rows|
  {
    if SeenAt(rows, seen, tags, i) then SeenBefore else if Wanted(rows[i], tags) then Fresh else Unwanted
  }

  /** How many of the first n rows are counted there. */
  ghost function CountOf(rows: seq<Row>, seen: set<string>, tags: seq<string>, n: nat, b: Bucket): nat
    requires n <= |rows|
  {
    if n == 0 then 0
    else CountOf(rows, seen, tags, n - 1, b) + if BucketOf(rows, seen, tags, n - 1) == b then 1 else 0
  }

  /** The counts after the first n rows, the one that is too old apart. */
  ghost predicate CountsAre(rows: seq<Row>, seen: set<string>, tags: seq<string>, n: nat, stats: Stats)
    requires n <= |rows|
  {
    && stats.newCandidates == CountOf(rows, seen, tags, n, Fresh)
    && stats.seenSkipped == CountOf(rows, seen, tags, n, SeenBefore)
    && stats.excludedModality == CountOf(rows, seen, tags, n, Unwanted)
  }

  /** The least time stamp of some rows, if any has one. */
  ghost predicate IsLeastStamp(rows: seq<Row>, least: Option<int>) {
    match least
    case None => forall i :: 0 <= i < |rows| ==> rows[i].ts.None?
    case Some(t) =>
      && (exists i :: 0 <= i < |rows| && rows[i].ts == Some(t))
      && forall i :: 0 <= i < |rows| && rows[i].ts.Some? ==> t <= rows[i].ts.value
  }

  lemma LeastSnoc(rows: seq<Row>, r: Row, least: Option<int>)
    requires IsLeastStamp(rows, least)
    ensures IsLeastStamp(rows + [r], Older(least, r.ts))
  {
    var all := rows + [r];
    assert all[|rows|] == r;
    assert forall i :: 0 <= i < |rows| ==> all[i] == rows[i];
    if least.Some? {
      var i :| 0 <= i < |rows| && rows[i].ts == least;
      assert all[i].ts == least;
    }
  }

  /** The next row goes where it belongs. */
  lemma CountNext(rows: seq<Row>, seen: set<string>, tags: seq<string>, k: nat, s: Scan)
    requires k < |rows| && Complete(rows[..k], seen, tags, s) && CountsAre(rows, seen, tags, k, s.stats)
    ensures CountsAre(rows, seen, tags, k + 1, Admit(s, rows[k], tags).stats)
  {
    SeenIs(rows, seen, tags, k, s);
  }

  lemma SeenIs(rows: seq<Row>, seen: set<string>, tags: seq<string>, k: nat, s: Scan)
    requires k < |rows| && Complete(rows[..k], seen, tags, s)
    ensures rows[k].id in s.seen <==> SeenAt(rows, seen, tags, k)
  {
    var init, id := rows[..k], rows[k].id;
    AdmittedIds(init, seen, tags, s, id);
    if i :| 0 <= i < |init| && init[i].id == id && Wanted(init[i], tags) {
      assert rows[i].id == id && Wanted(rows[i], tags);
    }
    if j :| 0 <= j < k && rows[j].id == id && Wanted(rows[j], tags) {
      assert init[j].id == id && Wanted(init[j], tags);
    }
  }

  /** After the first k rows, none of which was too old. */
  ghost predicate ScannedUpto(rows: seq<Row>, seen: set<string>, tags: seq<string>, k: nat, backfill: bool, s: Scan)
    requires k <= |rows|
  {
    && !s.crossed && CountsAre(rows, seen, tags, k, s.stats) && s.stats.excludedOld == 0
    && if backfill then IsLeastStamp(rows[..k], s.oldest) else s.oldest == None
  }

  lemma {:induction false} ScanUpto(rows: seq<Row>, seen: set<string>, cutoff: int, tags: seq<string>, backfill: bool,
                                    n: nat, k: nat)
    requires WindowEnds(rows, cutoff, n) && k <= n
    ensures ScannedUpto(rows, seen, tags, k, backfill, Scanned(rows[..k], seen, cutoff, tags, backfill))
    decreases k
  {
    if k > 0 {
      ScanUpto(rows, seen, cutoff, tags, backfill, n, k - 1);
      var s := Scanned(rows[..k - 1], seen, cutoff, tags, backfill);
      ScanIsComplete(rows[..k - 1], seen, cutoff, tags, backfill);
      ScannedNext(rows, seen, cutoff, tags, backfill, k - 1);
      ScanNext(rows, seen, cutoff, tags, backfill, k - 1, s);
    } else {
      assert rows[..0] == [];
    }
  }

  lemma {:induction false} ScannedNext(rows: seq<Row>, seen: set<string>, cutoff: int, tags: seq<string>,
                                       backfill: bool, k: nat)
    requires k < |rows|
    ensures Scanned(rows[..k + 1], seen, cutoff, tags, backfill) ==
      Step(Scanned(rows[..k], seen, cutoff, tags, backfill), rows[k], cutoff, tags, backfill)
  {
    assert rows[..k + 1][..k] == rows[..k];
  }

  lemma ScanNext(rows: seq<Row>, seen: set<string>, cutoff: int, tags: seq<string>, backfill: bool, k: nat, s: Scan)
    requires k < |rows| && ScannedUpto(rows, seen, tags, k, backfill, s) && Complete(rows[..k], seen, tags, s)
    requires !TooOld(rows[k], cutoff)
    ensures ScannedUpto(rows, seen, tags, k + 1, backfill, Step(s, rows[k], cutoff, tags, backfill))
  {
    var older := if backfill then s.(oldest := Older(s.oldest, rows[k].ts)) else s;
    CountNext(rows, seen, tags, k, older);
    if backfill {
      LeastSnoc(rows[..k], rows[k], s.oldest);
    }
    assert rows[..k + 1] == rows[..k] + [rows[k]];
  }

  /** What a scan of any rows says: each row in the window is counted where it belongs, once; the backfill counts
      the row it stops at, and reports the least time stamp of all it took in. */
  ghost predicate ScanSays(rows: seq<Row>, seen: set<string>, tags: seq<string>, n: nat, backfill: bool, s: Scan)
    requires n <= |rows|
  {
    && (s.crossed <==> n < |rows|)
    && CountsAre(rows, seen, tags, n, s.stats)
    && s.stats.excludedOld == (if backfill && n < |rows| then 1 else 0)
    && if backfill then IsLeastStamp(if n < |rows| then rows[..n + 1] else rows, s.oldest) else s.oldest == None
  }

  lemma ScanIsTold(rows: seq<Row>, seen: set<string>, cutoff: int, tags: seq<string>, backfill: bool, n: nat)
    requires WindowEnds(rows, cutoff, n)
    ensures ScanSays(rows, seen, tags, n, backfill, Scanned(rows, seen, cutoff, tags, backfill))
  {
    ScanUpto(rows, seen, cutoff, tags, backfill, n, n);
    if n < |rows| {
      var s := Scanned(rows[..n], seen, cutoff, tags, backfill);
      assert rows[..n + 1][..n] == rows[..n];
      assert rows[..n + 1] == rows[..n] + [rows[n]];
      CrossedStays(rows, n + 1, seen, cutoff, tags, backfill);
      if backfill {
        LeastSnoc(rows[..n], rows[n], s.oldest);
      }
    } else {
      assert rows[..n] == rows;
    }
  }

  // ---------- the pages ----------

  /** The paginator goes on behind a page: it arrived with rows and a next link, and no row is too old. */
  predicate LeadsOn(page: Fetch, cutoff: int) {
    && page.Page? && page.rows != [] && page.next
    && forall i :: 0 <= i < |page.rows| ==> !TooOld(page.rows[i], cutoff)
  }

  /** The paginator stops after n pages: at the first that does not lead on, or for want of pages. */
  ghost predicate StopsAfter(pages: seq<Fetch>, cutoff: int, maxPages: nat, n: nat) {
    && n <= |pages| && n <= maxPages
    && (forall i :: 0 <= i < n - 1 ==> LeadsOn(pages[i], cutoff))
    && (n == |pages| || n == maxPages || (n > 0 && !LeadsOn(pages[n - 1], cutoff)))
  }

  /** The rows of the pages that arrived. */
  function Gathered(pages: seq<Fetch>): seq<Row> {
    if pages == [] then []
    else Gathered(pages[..|pages| - 1]) + if pages[|pages| - 1].Page? then pages[|pages| - 1].rows else []
  }

  lemma {:induction false} PagedUpto(pages: seq<Fetch>, cutoff: int, k: nat)
    requires k <= |pages| && forall i :: 0 <= i < k ==> LeadsOn(pages[i], cutoff)
    ensures Paged(pages, cutoff, k) == Feed(Gathered(pages[..k]), true) && !AnyOld(Gathered(pages[..k]), cutoff)
    decreases k
  {
    if k > 0 {
      PagedUpto(pages, cutoff, k - 1);
      GatheredNext(pages, k - 1);
      UptoOldIs(pages[k - 1].rows, cutoff);
      AnyOldJoin(Gathered(pages[..k - 1]), pages[k - 1].rows, cutoff);
      PageIs(pages[k - 1], cutoff);
      PagedStep(pages, cutoff, k - 1);
    } else {
      assert pages[..0] == [];
    }
  }

  /** What the paginator yields, whatever comes back: the rows of the pages up to the first that does not lead on,
      cut behind the first row that is too old. */
  lemma {:induction false} PaginatedIs(pages: seq<Fetch>, cutoff: int, maxPages: nat, n: nat)
    requires StopsAfter(pages, cutoff, maxPages, n)
    ensures Paginated(pages, cutoff, maxPages) == UptoOld(Gathered(pages[..n]), cutoff)
  {
    if n > 0 {
      PagedUpto(pages, cutoff, n - 1);
      LastPage(pages, cutoff, n, Gathered(pages[..n - 1]));
      GatheredNext(pages, n - 1);
    } else {
      assert pages[..0] == [];
    }
    PagedStops(pages, cutoff, n, Pages(pages, maxPages));
  }

  lemma {:induction false} GatheredNext(pages: seq<Fetch>, k: nat)
    requires k < |pages|
    ensures Gathered(pages[..k + 1]) == Gathered(pages[..k]) + if pages[k].Page? then pages[k].rows else []
  {
    assert pages[..k + 1][..k] == pages[..k];
  }

  lemma {:induction false} LastPage(pages: seq<Fetch>, cutoff: int, n: nat, before: seq<Row>)
    requires 0 < n <= |pages| && Paged(pages, cutoff, n - 1) == Feed(before, true) && !AnyOld(before, cutoff)
    ensures var rows := if pages[n - 1].Page? then pages[n - 1].rows else [];
      Paged(pages, cutoff, n) == Feed(UptoOld(before + rows, cutoff), LeadsOn(pages[n - 1], cutoff))
  {
    var rows := if pages[n - 1].Page? then pages[n - 1].rows else [];
    PagedStep(pages, cutoff, n - 1);
    PageIs(pages[n - 1], cutoff);
    UptoOldJoin(before, rows, cutoff);
  }

  lemma {:induction false} PageIs(page: Fetch, cutoff: int)
    ensures PageRows(page, cutoff) == UptoOld(if page.Page? then page.rows else [], cutoff)
    ensures PageGoesOn(page, cutoff) <==> LeadsOn(page, cutoff)
  {
  }
}
