/**
 * Paging back through confirmed records (`convex/webhooks.ts`), as the missing-event sweep walks
 * it (`backend/src/webhooks/dispatch.rs`): each page's oldest time bounds the next.
 */
module ConfirmedPaging {
  import opened Common
  import opened Rows
  import Records

  datatype Row = Row(key: string, updated: nat, confirmed: bool)

  const SCAN_CAP := 5_000

  /** An index read in descending order of update time; rows with equal times in the index's own order. */
  ghost predicate Descending(rows: seq<Row>) {
    forall i, j :: 0 <= i < j < |rows| ==> rows[i].updated >= rows[j].updated
  }

  ghost predicate Index(rows: seq<Row>) {
    && Descending(rows)
    && (forall i :: 0 <= i < |rows| ==> rows[i].updated < Records.U64_LIMIT)
    && (forall i, j :: 0 <= i < j < |rows| ==> rows[i].key != rows[j].key)
  }

  function Window(rows: seq<Row>, since: nat, before: nat): seq<Row> {
    Keep(rows, (r: Row) => since <= r.updated < before)
  }

  function ClampedLimit(limit: nat): nat { if limit < 1 then 1 else if limit > 200 then 200 else limit }

  function Confirmed(rows: seq<Row>): seq<Row> {
    Keep(rows, (r: Row) => r.confirmed)
  }

  /** A page: the confirmed rows within the scan, down to the time of the `limit`-th and its ties. */
  function Page(window: seq<Row>, limit: nat): seq<Row>
    requires limit >= 1
  {
    var c := Confirmed(AtMost(window, SCAN_CAP));
    if |c| < limit then c else Keep(c, (r: Row) => r.updated >= c[limit - 1].updated)
  }

  // ---------- prefixes and parts of an index ----------

  lemma IndexPrefix(rows: seq<Row>, n: nat)
    requires Index(rows) && n <= |rows|
    ensures Index(rows[..n])
    ensures forall r :: r in rows[..n] ==> r in rows
    ensures n < |rows| ==> forall r :: r in rows[..n] ==> r.updated >= rows[n].updated && r.key != rows[n].key
  {
  }

  lemma IndexAppend(rows: seq<Row>, r: Row)
    requires Index(rows) && r.updated < Records.U64_LIMIT
    requires forall x :: x in rows ==> x.updated >= r.updated && x.key != r.key
    ensures Index(rows + [r])
  {
    assert forall i :: 0 <= i < |rows| ==> rows[i] in rows && (rows + [r])[i] == rows[i];
  }

  lemma {:induction false} KeepOrder(rows: seq<Row>, p: Row -> bool)
    requires Index(rows)
    ensures Index(Keep(rows, p))
  {
    if rows != [] {
      var n := |rows| - 1;
      assert rows[n].updated < Records.U64_LIMIT;
      IndexPrefix(rows, n);
      KeepIs(rows[..n], p);
      hide Index;
      KeepOrder(rows[..n], p);
      if p(rows[n]) { IndexAppend(Keep(rows[..n], p), rows[n]); }
    }
  }

  // ---------- the scan ----------

  /** Stopping at the first row older than the boundary loses nothing of the page. */
  lemma StopsAtBoundary(window: seq<Row>, limit: nat, n: nat)
    requires Index(window) && limit >= 1 && n <= |window| && n <= SCAN_CAP
    requires |Confirmed(window[..n])| >= limit
    requires n == |window| || n == SCAN_CAP || window[n].updated < Confirmed(window[..n])[limit - 1].updated
    requires forall i :: 0 <= i < n ==> window[i].updated >= Confirmed(window[..n])[limit - 1].updated
    ensures Page(window, limit) == Confirmed(window[..n])
  {
    hide Keep;
    var seen, c := AtMost(window, SCAN_CAP), Confirmed(window[..n]);
    var b := c[limit - 1].updated;
    var rest := seen[n..];
    assert seen == window[..n] + rest;
    assert forall r :: r in rest ==> r.updated < b by {
      assert forall k :: 0 <= k < |rest| ==> rest[k] == window[n + k] && window[n].updated >= window[n + k].updated;
    }
    hide AtMost, Index;
    ConfirmedAppend(window[..n], rest);
    ConfirmedIs(window[..n]);
    ConfirmedIs(rest);
    hide Confirmed;
    TrimsOlder(c, Confirmed(rest), b);
    assert (c + Confirmed(rest))[limit - 1] == c[limit - 1];
  }

  lemma ConfirmedAppend(xs: seq<Row>, ys: seq<Row>)
    ensures Confirmed(xs + ys) == Confirmed(xs) + Confirmed(ys)
  {
    KeepAppend(xs, ys, (r: Row) => r.confirmed);
  }

  lemma ConfirmedIs(rows: seq<Row>)
    ensures forall r :: r in Confirmed(rows) <==> r in rows && r.confirmed
  {
    KeepIs(rows, (r: Row) => r.confirmed);
  }

  lemma TrimsOlder(c: seq<Row>, rest: seq<Row>, b: nat)
    requires forall r :: r in c ==> r.updated >= b
    requires forall r :: r in rest ==> r.updated < b
    ensures Keep(c + rest, (r: Row) => r.updated >= b) == c
  {
    var young := (r: Row) => r.updated >= b;
    hide Keep;
    KeepAppend(c, rest, young);
    KeepAll(c, young);
    KeepNone(rest, young);
  }

  method ConfirmedPage(rows: seq<Row>, since: nat, before: nat, requested: nat) returns (page: seq<Row>)
    requires Index(rows)
    ensures page == Page(Window(rows, since, before), if requested < 1 then 1 else if requested > 200 then 200 else requested)
  {
    hide Keep, Confirmed, Page, Window, Index, Records.TextLess, Records.Sorted;
    var limit := ClampedLimit(requested);
    var window := Window(rows, since, before);
    WindowIsIndex(rows, since, before);
    NoneConfirmed();
    page := [];
    var boundary: Option<nat>, scanned := None, 0;
    assert window[..0] == [];
    while scanned < |window|
      invariant 0 <= scanned <= |window| && scanned <= SCAN_CAP
      invariant page == Confirmed(window[..scanned])
      invariant boundary.None? ==> |page| < limit
      invariant forall i :: 0 <= i < |window| ==> window[i].updated < Records.U64_LIMIT
      invariant forall i, j :: 0 <= i < j < |window| ==> window[i].updated >= window[j].updated
      invariant boundary.Some? ==> |page| >= limit && boundary.value == page[limit - 1].updated < Records.U64_LIMIT
      invariant boundary.Some? ==> forall i :: 0 <= i < scanned ==> window[i].updated >= boundary.value
    {
      var row := window[scanned];
      if scanned + 1 > SCAN_CAP { break; }
      if boundary.Some? {
        Records.SortedOrder(row.updated, boundary.value);
        if Records.TextLess(Records.Sorted(row.updated), Records.Sorted(boundary.value)) { break; }
      }
      ConfirmedNext(window, scanned);
      scanned := scanned + 1;
      if !row.confirmed { continue; }
      page := page + [row];
      if |page| == limit { boundary := Some(row.updated); }
    }
    if boundary.Some? { StopsAtBoundary(window, limit, scanned); } else { ShortPage(window, limit, scanned); }
  }

  lemma WindowIsIndex(rows: seq<Row>, since: nat, before: nat)
    requires Index(rows)
    ensures var window := Window(rows, since, before);
            && Index(window) && (forall i :: 0 <= i < |window| ==> window[i].updated < Records.U64_LIMIT)
            && (forall i, j :: 0 <= i < j < |window| ==> window[i].updated >= window[j].updated)
  {
    KeepOrder(rows, (r: Row) => since <= r.updated < before);
  }

  lemma NoneConfirmed()
    ensures Confirmed([]) == []
  {
  }

  lemma ConfirmedNext(window: seq<Row>, n: nat)
    requires n < |window|
    ensures Confirmed(window[..n + 1]) == Confirmed(window[..n]) + if window[n].confirmed then [window[n]] else []
    ensures window[..0] == []
  {
    assert window[..n + 1][..n] == window[..n];
  }

  lemma ShortPage(window: seq<Row>, limit: nat, n: nat)
    requires limit >= 1 && n <= |window| && n <= SCAN_CAP && (n == |window| || n == SCAN_CAP)
    requires |Confirmed(window[..n])| < limit
    ensures Page(window, limit) == Confirmed(window[..n])
  {
    assert window[..n] == AtMost(window, SCAN_CAP);
  }

  // ---------- what one page leaves for the next ----------

  function Oldest(page: seq<Row>): nat
    requires page != []
  {
    page[|page| - 1].updated
  }

  /** Whatever the page does not hold is strictly older than its oldest row, so the next page still covers it. */
  ghost predicate Lossless(window: seq<Row>, limit: nat)
    requires limit >= 1
  {
    var page := Page(window, limit);
    forall r :: r in window && r.confirmed && r !in page ==> page != [] && r.updated < Oldest(page)
  }

  /** The row whose time the scan ends a page with: the `limit`-th confirmed one, or the last it saw. */
  function LastShown(window: seq<Row>, limit: nat): Option<Row>
    requires limit >= 1
  {
    var c := Confirmed(AtMost(window, SCAN_CAP));
    if c == [] then None else if |c| < limit then Some(c[|c| - 1]) else Some(c[limit - 1])
  }

  lemma PageEndsWith(window: seq<Row>, limit: nat)
    requires Index(window) && limit >= 1
    ensures Index(Page(window, limit))
    ensures forall r :: r in Page(window, limit) ==> r in window && r.confirmed
    ensures if LastShown(window, limit).None? then Page(window, limit) == []
            else Page(window, limit) != [] && Oldest(Page(window, limit)) == LastShown(window, limit).value.updated
    ensures forall r :: r in AtMost(window, SCAN_CAP) && r.confirmed && r !in Page(window, limit) ==>
              LastShown(window, limit).Some? && r.updated < LastShown(window, limit).value.updated
  {
    hide Keep, Index;
    var seen := AtMost(window, SCAN_CAP);
    var c := Confirmed(seen);
    assert Index(seen) by { if |window| > SCAN_CAP { IndexPrefix(window, SCAN_CAP); } }
    KeepOrder(seen, (r: Row) => r.confirmed);
    KeepIs(seen, (r: Row) => r.confirmed);
    if |c| >= limit {
      assert c[limit - 1] in c;
      YoungEndsWith(c, c[limit - 1]);
    } else if c != [] {
      assert c[|c| - 1] in c;
    }
  }

  lemma YoungEndsWith(c: seq<Row>, last: Row)
    requires Index(c) && last in c
    ensures var young := Keep(c, (r: Row) => r.updated >= last.updated);
            Index(young) && young != [] && Oldest(young) == last.updated
            && forall r :: r in young <==> r in c && r.updated >= last.updated
  {
    var p := (r: Row) => r.updated >= last.updated;
    KeepOrder(c, p);
    KeepIs(c, p);
    hide Keep;
    var young := Keep(c, p);
    assert last in young;
    var k :| 0 <= k < |young| && young[k] == last;
    assert young[|young| - 1] in young;
  }

  /** A page stops at its limit but for ties, and stops short only when the scan has no more. */
  lemma PageSize(window: seq<Row>, limit: nat)
    requires Index(window) && limit >= 1
    ensures forall n :: limit <= n < |Page(window, limit)| ==>
              Page(window, limit)[n].updated == Page(window, limit)[limit - 1].updated
    ensures |Page(window, limit)| < limit ==> Page(window, limit) == Confirmed(AtMost(window, SCAN_CAP))
  {
    hide Keep, Index;
    var seen := AtMost(window, SCAN_CAP);
    assert Index(seen) by { if |window| > SCAN_CAP { IndexPrefix(window, SCAN_CAP); } }
    KeepOrder(seen, (r: Row) => r.confirmed);
    var c := Confirmed(seen);
    hide Confirmed, AtMost;
    if |c| >= limit {
      var b := c[limit - 1].updated;
      var n := Youngest(c, b, limit);
      assert c == c[..n] + c[n..];
      TrimsOlder(c[..n], c[n..], b);
    }
  }

  /** In a descending list, the rows at or above a row's time form a prefix. */
  lemma Youngest(c: seq<Row>, b: nat, limit: nat) returns (n: nat)
    requires Index(c) && 1 <= limit <= |c| && c[limit - 1].updated == b
    ensures limit <= n <= |c|
    ensures forall r :: r in c[..n] ==> r.updated >= b
    ensures forall r :: r in c[n..] ==> r.updated < b
    ensures forall i :: limit <= i < n ==> c[i].updated == b
  {
    n := limit;
    while n < |c| && c[n].updated == b
      invariant limit <= n <= |c|
      invariant forall i :: limit <= i < n ==> c[i].updated == b
    {
      n := n + 1;
    }
  }

  /** Every confirmed row beyond the scan cap is older than the page's last time. */
  predicate CapIsClear(window: seq<Row>, limit: nat)
    requires limit >= 1
  {
    forall n :: SCAN_CAP <= n < |window| && window[n].confirmed ==>
      LastShown(window, limit).Some? && window[n].updated < LastShown(window, limit).value.updated
  }

  /** A page is lossless exactly when no confirmed row beyond the scan cap ties with the page's last time. */
  lemma LosslessExactly(window: seq<Row>, limit: nat)
    requires Index(window) && limit >= 1
    ensures Lossless(window, limit) <==> CapIsClear(window, limit)
  {
    PageEndsWith(window, limit);
    hide Page, LastShown;
    var page := Page(window, limit);
    PageWithinCap(window, limit);
    forall n | SCAN_CAP <= n < |window| ensures window[n] !in page {
      IndexPrefix(window, n);
      assert forall i :: 0 <= i < |AtMost(window, SCAN_CAP)| ==> AtMost(window, SCAN_CAP)[i] == window[..n][i];
    }
    if Lossless(window, limit) {
      assert forall n :: SCAN_CAP <= n < |window| ==> window[n] in window;
    }
    var seen := AtMost(window, SCAN_CAP);
    assert forall k :: 0 <= k < |seen| ==> seen[k] == window[k] && seen[k] in seen;
    forall r | r in window && r.confirmed && r !in page && r !in seen
      ensures exists n :: SCAN_CAP <= n < |window| && window[n] == r
    {
      var n :| 0 <= n < |window| && window[n] == r;
    }
  }

  lemma PageWithinCap(window: seq<Row>, limit: nat)
    requires limit >= 1
    ensures forall r :: r in Page(window, limit) ==> r in AtMost(window, SCAN_CAP)
  {
    var c := Confirmed(AtMost(window, SCAN_CAP));
    KeepIs(AtMost(window, SCAN_CAP), (r: Row) => r.confirmed);
    if |c| >= limit { KeepIs(c, (r: Row) => r.updated >= c[limit - 1].updated); }
  }

  lemma WithinCapIsLossless(window: seq<Row>, limit: nat)
    requires Index(window) && limit >= 1 && |window| <= SCAN_CAP
    ensures Lossless(window, limit)
  {
    LosslessExactly(window, limit);
  }

  /** Past the cap a page can come back empty although a confirmed row is in the window. */
  lemma CapCanHide(window: seq<Row>, limit: nat)
    requires limit >= 1 && |window| == 5_001 && window[5_000].confirmed
    requires forall i :: 0 <= i < 5_000 ==> !window[i].confirmed
    ensures Page(window, limit) == [] && !Lossless(window, limit)
  {
    var seen := AtMost(window, SCAN_CAP);
    assert forall r :: r in seen ==> !r.confirmed;
    KeepNone(seen, (r: Row) => r.confirmed);
    assert window[SCAN_CAP] in window;
  }

  // ---------- walking back ----------

  /** Between two pages the table may change, but a confirmed record never does. */
  ghost predicate Retains(rows: seq<Row>, rows': seq<Row>) {
    forall r :: r in rows && r.confirmed ==> r in rows'
  }

  /** Pages of a walk: page `k` is read from `tables[k]`, and the first empty page ends it. */
  ghost predicate Walk(tables: seq<seq<Row>>, since: nat, before: nat, limit: nat, pages: seq<seq<Row>>)
    requires limit >= 1
  {
    && |tables| == |pages| >= 1
    && Index(tables[0])
    && pages[0] == Page(Window(tables[0], since, before), limit)
    && (if pages[0] == [] then |pages| == 1
        else |pages| > 1 && Walk(tables[1..], since, Oldest(pages[0]), limit, pages[1..]))
  }

  /** The window page `k` was read from: the first one's bound is `before`, each later one's the page before it. */
  function WindowAt(tables: seq<seq<Row>>, since: nat, before: nat, pages: seq<seq<Row>>, k: nat): seq<Row>
    requires k < |tables| == |pages|
  {
    Window(tables[k], since, if k == 0 then before else if pages[k - 1] == [] then 0 else Oldest(pages[k - 1]))
  }

  ghost predicate AllLossless(tables: seq<seq<Row>>, since: nat, before: nat, limit: nat, pages: seq<seq<Row>>)
    requires limit >= 1 && |tables| == |pages|
  {
    forall k :: 0 <= k < |pages| ==> Lossless(WindowAt(tables, since, before, pages, k), limit)
  }

  ghost predicate AllRetain(tables: seq<seq<Row>>) {
    forall k :: 0 <= k < |tables| - 1 ==> Retains(tables[k], tables[k + 1])
  }

  lemma LosslessRest(tables: seq<seq<Row>>, since: nat, before: nat, limit: nat, pages: seq<seq<Row>>)
    requires limit >= 1 && |tables| == |pages| >= 1 && pages[0] != []
    ensures AllLossless(tables, since, before, limit, pages) <==>
            Lossless(Window(tables[0], since, before), limit)
                && AllLossless(tables[1..], since, Oldest(pages[0]), limit, pages[1..])
  {
    hide Lossless, Window;
    forall k | 0 < k < |pages|
      ensures WindowAt(tables, since, before, pages, k)
              == WindowAt(tables[1..], since, Oldest(pages[0]), pages[1..], k - 1)
    {
    }
    if AllLossless(tables, since, before, limit, pages) {
      assert Lossless(WindowAt(tables, since, before, pages, 0), limit);
      forall k | 0 <= k < |pages[1..]|
        ensures Lossless(WindowAt(tables[1..], since, Oldest(pages[0]), pages[1..], k), limit)
      {
        assert Lossless(WindowAt(tables, since, before, pages, k + 1), limit);
      }
    }
  }

  lemma PageIsWithin(rows: seq<Row>, since: nat, before: nat, limit: nat)
    requires Index(rows) && limit >= 1
    ensures var page := Page(Window(rows, since, before), limit);
            && Index(page)
            && (forall r :: r in page ==> r in rows && r.confirmed && since <= r.updated < before)
            && (page != [] ==> since <= Oldest(page) < before && forall r :: r in page ==> r.updated >= Oldest(page))
  {
    hide Page, Keep;
    var p := (r: Row) => since <= r.updated < before;
    KeepOrder(rows, p);
    KeepIs(rows, p);
    PageEndsWith(Window(rows, since, before), limit);
    var page := Page(Window(rows, since, before), limit);
    if page != [] { assert page[|page| - 1] in page; }
  }

  /** No row turns up in two pages: every later page is older than the boundary it started from. */
  lemma {:induction false} LaterPagesAreOlder(tables: seq<seq<Row>>, since: nat, before: nat, limit: nat,
                                              pages: seq<seq<Row>>, k: nat)
    requires limit >= 1 && Walk(tables, since, before, limit, pages) && k < |pages|
    ensures Index(pages[k]) && forall r :: r in pages[k] ==> r.confirmed && since <= r.updated < before
  {
    hide Page;
    PageIsWithin(tables[0], since, before, limit);
    if k > 0 { LaterPagesAreOlder(tables[1..], since, Oldest(pages[0]), limit, pages[1..], k - 1); }
  }

  /**
   * Every record that was confirmed in the window when the walk began appears in exactly one of its
   * pages, and once there, whatever other records do between the pages, if each page is lossless.
   */
  lemma {:induction false} WalkYieldsEachOnce(tables: seq<seq<Row>>, since: nat, before: nat, limit: nat,
                                              pages: seq<seq<Row>>, r: Row)
    returns (k: nat)
    requires limit >= 1 && Walk(tables, since, before, limit, pages)
    requires AllRetain(tables) && AllLossless(tables, since, before, limit, pages)
    requires r in tables[0] && r.confirmed && since <= r.updated < before
    ensures k < |pages| && r in pages[k] && Distinct(pages[k])
    ensures forall j :: 0 <= j < |pages| && r in pages[j] ==> j == k
  {
    hide Page, AllLossless;
    KeepIs(tables[0], (r: Row) => since <= r.updated < before);
    PageIsWithin(tables[0], since, before, limit);
    FirstIsLossless(tables, since, before, limit, pages);
    if r in pages[0] {
      k := 0;
      forall j | 0 < j < |pages| ensures r !in pages[j] {
        LaterPagesAreOlder(tables[1..], since, Oldest(pages[0]), limit, pages[1..], j - 1);
      }
    } else {
      LosslessRest(tables, since, before, limit, pages);
      assert Retains(tables[0], tables[1]);
      forall n | 0 <= n < |tables[1..]| - 1 ensures Retains(tables[1..][n], tables[1..][n + 1]) {
        var m := n + 1;
        assert Retains(tables[m], tables[m + 1]);
      }
      k := WalkYieldsEachOnce(tables[1..], since, Oldest(pages[0]), limit, pages[1..], r);
      assert forall j :: 1 <= j < |pages| ==> pages[1..][j - 1] == pages[j];
      k := k + 1;
    }
  }

  lemma FirstIsLossless(tables: seq<seq<Row>>, since: nat, before: nat, limit: nat, pages: seq<seq<Row>>)
    requires limit >= 1 && |tables| == |pages| >= 1 && AllLossless(tables, since, before, limit, pages)
    ensures Lossless(Window(tables[0], since, before), limit)
  {
    hide Lossless, Window;
    assert Lossless(WindowAt(tables, since, before, pages, 0), limit);
  }

  /** While every window fits within the scan cap, nothing is lost. */
  lemma WalkWithinCap(tables: seq<seq<Row>>, since: nat, before: nat, limit: nat, pages: seq<seq<Row>>, r: Row)
    returns (k: nat)
    requires limit >= 1 && Walk(tables, since, before, limit, pages) && AllRetain(tables)
    requires forall k :: 0 <= k < |pages| ==> |WindowAt(tables, since, before, pages, k)| <= 5_000
    requires r in tables[0] && r.confirmed && since <= r.updated < before
    ensures k < |pages| && r in pages[k] && Distinct(pages[k])
    ensures forall j :: 0 <= j < |pages| && r in pages[j] ==> j == k
  {
    hide Page, Lossless, WindowAt;
    forall k | 0 <= k < |pages| ensures Lossless(WindowAt(tables, since, before, pages, k), limit) {
      WindowsAreIndexes(tables, since, before, limit, pages, k);
      WithinCapIsLossless(WindowAt(tables, since, before, pages, k), limit);
    }
    k := WalkYieldsEachOnce(tables, since, before, limit, pages, r);
  }

  lemma {:induction false} WindowsAreIndexes(tables: seq<seq<Row>>, since: nat, before: nat, limit: nat,
        pages: seq<seq<Row>>, k: nat)
    requires limit >= 1 && Walk(tables, since, before, limit, pages) && k < |pages|
    ensures Index(WindowAt(tables, since, before, pages, k))
  {
    hide Page, Keep;
    if k == 0 {
      KeepOrder(tables[0], (r: Row) => since <= r.updated < before);
    } else {
      WindowsAreIndexes(tables[1..], since, Oldest(pages[0]), limit, pages[1..], k - 1);
    }
  }

  /** Every walk is finite: each page moves the boundary strictly back. */
  lemma {:induction false} WalkEnds(tables: seq<seq<Row>>, since: nat, before: nat, limit: nat, pages: seq<seq<Row>>)
    requires limit >= 1 && Walk(tables, since, before, limit, pages)
    ensures |pages| <= 1 + if before > since then before - since else 0
    ensures pages[|pages| - 1] == []
  {
    hide Page;
    PageIsWithin(tables[0], since, before, limit);
    if pages[0] != [] { WalkEnds(tables[1..], since, Oldest(pages[0]), limit, pages[1..]); }
  }

  // ---------- exactly when a walk over a fixed table is complete ----------

  ghost predicate Complete(rows: seq<Row>, since: nat, before: nat, pages: seq<seq<Row>>) {
    forall r :: r in rows && r.confirmed && since <= r.updated < before ==>
        exists k :: 0 <= k < |pages| && r in pages[k]
  }

  lemma CompleteRest(rows: seq<Row>, since: nat, before: nat, limit: nat, pages: seq<seq<Row>>)
    requires limit >= 1 && Index(rows) && |pages| >= 1 && pages[0] == Page(Window(rows, since, before), limit)
    requires pages[0] != []
    requires forall k, r :: 0 <= k < |pages[1..]| && r in pages[1..][k] ==> r.updated < Oldest(pages[0])
    ensures Complete(rows, since, before, pages) <==>
            Lossless(Window(rows, since, before), limit) && Complete(rows, since, Oldest(pages[0]), pages[1..])
  {
    hide Page, Keep, Index;
    var rest, oldest := pages[1..], Oldest(pages[0]);
    KeepIs(rows, (r: Row) => since <= r.updated < before);
    PageIsWithin(rows, since, before, limit);
    assert forall k :: 1 <= k < |pages| ==> pages[k] == rest[k - 1];
    if Complete(rows, since, before, pages) {
      forall r | r in Window(rows, since, before) && r.confirmed && r !in pages[0] ensures r.updated < oldest {
        var k :| 0 <= k < |pages| && r in pages[k];
        assert r in rest[k - 1];
      }
      forall r | r in rows && r.confirmed && since <= r.updated < oldest
        ensures exists k :: 0 <= k < |rest| && r in rest[k]
      {
        var k :| 0 <= k < |pages| && r in pages[k];
        assert r in rest[k - 1];
      }
    }
    if Lossless(Window(rows, since, before), limit) && Complete(rows, since, oldest, rest) {
      forall r | r in rows && r.confirmed && since <= r.updated < before
        ensures exists k :: 0 <= k < |pages| && r in pages[k]
      {
        if r in pages[0] {
          assert r in pages[0];
        } else {
          var k :| 0 <= k < |rest| && r in rest[k];
          assert r in pages[k + 1];
        }
      }
    }
  }

  /**
   * Over a fixed table, a walk yields every confirmed row of its window if and only if every page it
   * reads is lossless.
   */
  lemma {:induction false} WalkCompleteExactly(tables: seq<seq<Row>>, rows: seq<Row>, since: nat, before: nat,
        limit: nat,
                                               pages: seq<seq<Row>>)
    requires limit >= 1 && Walk(tables, since, before, limit, pages)
    requires forall k :: 0 <= k < |tables| ==> tables[k] == rows
    ensures Complete(rows, since, before, pages) <==> AllLossless(tables, since, before, limit, pages)
  {
    hide Page, Keep, Lossless, Index;
    assert tables[0] == rows;
    if pages[0] == [] {
      EmptyPageExactly(rows, since, before, limit, pages);
      assert WindowAt(tables, since, before, pages, 0) == Window(rows, since, before);
    } else {
      WalkCompleteExactly(tables[1..], rows, since, Oldest(pages[0]), limit, pages[1..]);
      LosslessRest(tables, since, before, limit, pages);
      forall k, r | 0 <= k < |pages[1..]| && r in pages[1..][k] ensures r.updated < Oldest(pages[0]) {
        LaterPagesAreOlder(tables[1..], since, Oldest(pages[0]), limit, pages[1..], k);
      }
      CompleteRest(rows, since, before, limit, pages);
    }
  }

  lemma EmptyPageExactly(rows: seq<Row>, since: nat, before: nat, limit: nat, pages: seq<seq<Row>>)
    requires limit >= 1 && pages == [[]] && Page(Window(rows, since, before), limit) == []
    ensures Complete(rows, since, before, pages) <==> Lossless(Window(rows, since, before), limit)
  {
    hide Page, Keep;
    KeepIs(rows, (r: Row) => since <= r.updated < before);
    assert forall r, k :: 0 <= k < |pages| ==> r !in pages[k];
  }

  /** The same, said of the windows themselves. */
  lemma WalkCompleteWhenCapIsClear(tables: seq<seq<Row>>, rows: seq<Row>, since: nat, before: nat, limit: nat,
        pages: seq<seq<Row>>)
    requires limit >= 1 && Walk(tables, since, before, limit, pages)
    requires forall k :: 0 <= k < |tables| ==> tables[k] == rows
    ensures Complete(rows, since, before, pages) <==>
            forall k :: 0 <= k < |pages| ==> CapIsClear(WindowAt(tables, since, before, pages, k), limit)
  {
    hide Page, Keep, Lossless, CapIsClear, WindowAt, Complete;
    WalkCompleteExactly(tables, rows, since, before, limit, pages);
    forall k | 0 <= k < |pages|
      ensures Lossless(WindowAt(tables, since, before, pages, k), limit) <==>
                CapIsClear(WindowAt(tables, since, before, pages, k), limit)
    {
      WindowsAreIndexes(tables, since, before, limit, pages, k);
      LosslessExactly(WindowAt(tables, since, before, pages, k), limit);
    }
  }
}
