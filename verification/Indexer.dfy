/** Walking the vault's growing history with a resumable cursor (`convex/supportParse.ts`, `convex/support.ts`). */
module Indexer {
  import opened Common
  import opened LogScan
  import opened Ledger

  // ---------- the chain ----------

  ghost predicate UniqueSignatures(history: seq<Transaction>) {
    forall i, j :: 0 <= i < j < |history| ==> history[i].signature != history[j].signature
  }

  /** The transactions that list an account, oldest first. */
  function Listing(history: seq<Transaction>, account: Address): seq<Transaction> {
    if history == [] then []
    else
      Listing(history[..|history| - 1], account)
      + if Mentions(history[|history| - 1], account) then [history[|history| - 1]] else []
  }

  /** The account's balance runs through the history: each mention starts where the last one ended. */
  ghost predicate Chained(history: seq<Transaction>, account: Address, asset: Asset, first: int, last: int) {
    if history == [] then first == last
    else
      var init, tx := history[..|history| - 1], history[|history| - 1];
      if Mentions(tx, account) then
        && last == After(tx, account, asset)
        && (tx.succeeded || Before(tx, account, asset) == last)
        && Chained(init, account, asset, first, Before(tx, account, asset))
      else Chained(init, account, asset, first, last)
  }

  // ---------- what the table should hold ----------

  function Expected(tx: Transaction, accounts: Accounts): seq<Row> {
    match ParsedEvents(tx, accounts)
    case None => []
    case Some(events) => RowsFor(tx, events)
  }

  ghost predicate Stored(rows: seq<Row>, tx: Transaction, accounts: Accounts) {
    RowsOf(rows, tx.signature) == Expected(tx, accounts)
  }

  /** Whatever rows a signature has are the rows of that transaction. */
  ghost predicate Faithful(rows: seq<Row>, history: seq<Transaction>, accounts: Accounts) {
    forall s :: RowsOf(rows, s) == [] ||
        exists k :: 0 <= k < |history| && history[k].signature == s && Stored(rows, history[k], accounts)
  }

  lemma NetOfExpected(tx: Transaction, accounts: Accounts, asset: Asset)
    ensures NetRows(Expected(tx, accounts), asset)
         == if tx.succeeded then BalanceDelta(tx, AccountOf(accounts, asset), asset) else 0
  {
    if tx.succeeded {
      TransactionBalances(tx, accounts, asset);
      NetOfRowsFor(tx, ParsedEvents(tx, accounts).value, asset);
    }
  }

  lemma RowsHaveTheirOwn(rows: seq<Row>)
    requires forall s :: RowsOf(rows, s) == []
    ensures rows == []
  {
    if rows != [] {
      var last := rows[|rows| - 1];
      assert last in RowsOf(rows, last.signature);
    }
  }

  lemma DropLast(rows: seq<Row>, history: seq<Transaction>, accounts: Accounts)
    requires history != [] && UniqueSignatures(history) && Faithful(rows, history, accounts)
    ensures var init, tx := history[..|history| - 1], history[|history| - 1];
            var rest := Without(rows, tx.signature);
      && UniqueSignatures(init) && Faithful(rest, init, accounts)
      && (forall k :: 0 <= k < |init| && Stored(rows, init[k], accounts) ==> Stored(rest, init[k], accounts))
      && (RowsOf(rows, tx.signature) == [] || Stored(rows, tx, accounts))
  {
    hide RowsOf, Without, Expected;
    var init, tx := history[..|history| - 1], history[|history| - 1];
    var rest := Without(rows, tx.signature);
    forall s ensures RowsOf(rest, s) == if s == tx.signature then [] else RowsOf(rows, s)
        { RowsOfWithout(rows, tx.signature, s); }
    forall s | RowsOf(rest, s) != []
      ensures exists k :: 0 <= k < |init| && init[k].signature == s && Stored(rest, init[k], accounts)
    {
      var k :| 0 <= k < |history| && history[k].signature == s && Stored(rows, history[k], accounts);
      assert k < |init| && init[k] == history[k];
    }
    if RowsOf(rows, tx.signature) != [] {
      var k :| 0 <= k < |history| && history[k].signature == tx.signature && Stored(rows, history[k], accounts);
      assert k == |init|;
    }
  }

  /**
   * Whole-history conservation: once every transaction that lists the account is
   * stored, the table's net for the asset is the change of the account's balance.
   */
  lemma {:induction false} HistoryConserves(
      rows: seq<Row>, history: seq<Transaction>, accounts: Accounts, asset: Asset, first: int, last: int)
    requires UniqueSignatures(history) && Faithful(rows, history, accounts)
    requires forall k :: 0 <= k < |history| && Mentions(history[k], AccountOf(accounts, asset)) ==>
               Stored(rows, history[k], accounts)
    requires Chained(history, AccountOf(accounts, asset), asset, first, last)
    ensures NetRows(rows, asset) == last - first
    decreases |history|
  {
    hide RowsOf, Without, Expected, AccountOf, Mentions, BalanceDelta, NetRows, Before, After;
    var account := AccountOf(accounts, asset);
    if history == [] {
      RowsHaveTheirOwn(rows);
      NetOfNothing(asset);
    } else {
      var init, tx := history[..|history| - 1], history[|history| - 1];
      var rest := Without(rows, tx.signature);
      DropLast(rows, history, accounts);
      assert Mentions(tx, account) ==> Stored(rows, tx, accounts);
      NetSplits(rows, tx.signature, asset);
      NetOfExpected(tx, accounts, asset);
      NetOfNothing(asset);
      DeltaOf(tx, account, asset);
      var middle := if Mentions(tx, account) then Before(tx, account, asset) else last;
      HistoryConserves(rest, init, accounts, asset, first, middle);
    }
  }

  lemma NetOfNothing(asset: Asset)
    ensures NetRows([], asset) == 0
  {
  }

  lemma DeltaOf(tx: Transaction, account: Address, asset: Asset)
    ensures BalanceDelta(tx, account, asset)
         == if Mentions(tx, account) then After(tx, account, asset) - Before(tx, account, asset) else 0
  {
  }

  // ---------- ingesting ----------

  function Ingested(rows: seq<Row>, tx: Transaction, accounts: Accounts): seq<Row> {
    match ParsedEvents(tx, accounts)
    case None => rows
    case Some(events) => Without(rows, tx.signature) + RowsFor(tx, events)
  }

  /** Ingesting any transaction of the history, first time or again, stores it and disturbs no other. */
  lemma IngestKeeps(rows: seq<Row>, history: seq<Transaction>, accounts: Accounts, k: nat)
    requires UniqueSignatures(history) && Faithful(rows, history, accounts) && k < |history|
    ensures var after := Ingested(rows, history[k], accounts);
      && Faithful(after, history, accounts) && Stored(after, history[k], accounts)
      && (forall j :: 0 <= j < |history| && Stored(rows, history[j], accounts) ==> Stored(after, history[j], accounts))
  {
    hide RowsOf, Without, ParsedEvents;
    var tx := history[k];
    var after := Ingested(rows, tx, accounts);
    if tx.succeeded && ParsedEvents(tx, accounts).Some? {
      var events := ParsedEvents(tx, accounts).value;
      forall s ensures RowsOf(after, s) == if s == tx.signature then RowsFor(tx, events) else RowsOf(rows, s) {
        UpsertReplaces(rows, tx, events, s);
      }
      forall s | RowsOf(after, s) != []
        ensures exists j :: 0 <= j < |history| && history[j].signature == s && Stored(after, history[j], accounts)
      {
        if s == tx.signature {
          assert Stored(after, history[k], accounts);
        } else {
          var j :| 0 <= j < |history| && history[j].signature == s && Stored(rows, history[j], accounts);
          assert Stored(after, history[j], accounts);
        }
      }
    } else {
      NothingParsed(tx, accounts);
    }
  }

  lemma NothingParsed(tx: Transaction, accounts: Accounts)
    ensures ParsedEvents(tx, accounts).None? <==> !tx.succeeded
  {
  }

  // ---------- paging ----------

  datatype Pending = Pending(top: Signature, before: Signature)
  datatype Cursor = Cursor(newest: Option<Signature>, pending: Option<Pending>)
  datatype Plan = Plan(before: Option<Signature>, until: Option<Signature>)

  const START_CURSOR := Cursor(None, None)

  function PlanPage(cursor: Cursor): Plan {
    Plan(if cursor.pending.Some? then Some(cursor.pending.value.before) else None, cursor.newest)
  }

  function AdvanceCursor(cursor: Cursor, page: seq<Transaction>, limit: nat): Cursor {
    if page == [] then
      if cursor.pending.Some? then Cursor(Some(cursor.pending.value.top), None) else cursor
    else
      var top := if cursor.pending.Some? then cursor.pending.value.top else page[0].signature;
      if |page| < limit then Cursor(Some(top), None)
      else Cursor(cursor.newest, Some(Pending(top, page[|page| - 1].signature)))
  }

  function IndexOf(list: seq<Transaction>, s: Signature): (i: int)
    ensures -1 <= i < |list|
    ensures i >= 0 ==> list[i].signature == s
    ensures i < 0 ==> forall k :: 0 <= k < |list| ==> list[k].signature != s
  {
    if list == [] then -1
    else if list[|list| - 1].signature == s then |list| - 1
    else IndexOf(list[..|list| - 1], s)
  }

  lemma IndexIs(list: seq<Transaction>, s: Signature, i: nat)
    requires UniqueSignatures(list) && i < |list| && list[i].signature == s
    ensures IndexOf(list, s) == i
  {
  }

  /** Where a page ends (exclusive) and where it may not go below, as positions in the node's view. */
  function PageTop(view: seq<Transaction>, plan: Plan): int {
    if plan.before.Some? then IndexOf(view, plan.before.value) else |view|
  }

  function PageFloor(view: seq<Transaction>, plan: Plan): int {
    if plan.until.Some? && IndexOf(view, plan.until.value) < PageTop(view, plan) then IndexOf(view, plan.until.value) + 1
        else 0
  }

  function PageStart(view: seq<Transaction>, plan: Plan, limit: nat): int {
    var top, floor := PageTop(view, plan), PageFloor(view, plan);
    if top - limit > floor then top - limit else floor
  }

  /** The node's answer: newest first, strictly older than `before`, stopping at `until` if it is met. */
  function Page(view: seq<Transaction>, plan: Plan, limit: nat): seq<Transaction> {
    var top, start := PageTop(view, plan), PageStart(view, plan, limit);
    if 0 <= start < top then seq(top - start, i requires 0 <= i < top - start => view[top - 1 - i]) else []
  }

  const PAGE := 100
  const MAX_PAGES_PER_ACCOUNT := 5

  // ---------- completeness ----------

  ghost predicate StoredRange(rows: seq<Row>, list: seq<Transaction>, accounts: Accounts, lo: int, hi: int) {
    forall i :: 0 <= i < |list| && lo <= i <= hi ==> Stored(rows, list[i], accounts)
  }

  /** Everything at or below `newest`, and from `top` down to `before`, is stored. */
  ghost predicate Sound(cursor: Cursor, list: seq<Transaction>, rows: seq<Row>, accounts: Accounts) {
    && (cursor.newest.Some? ==>
          && IndexOf(list, cursor.newest.value) >= 0
          && StoredRange(rows, list, accounts, 0, IndexOf(list, cursor.newest.value)))
    && (cursor.pending.Some? ==>
          var top, before := IndexOf(list, cursor.pending.value.top), IndexOf(list, cursor.pending.value.before);
          0 <= before <= top && StoredRange(rows, list, accounts, before, top))
  }

  /** The node can serve the cursor: it knows the signature the page must start below. */
  ghost predicate Serves(cursor: Cursor, view: seq<Transaction>) {
    cursor.pending.Some? ==> IndexOf(view, cursor.pending.value.before) >= 0
  }

  function NewestAt(cursor: Cursor, list: seq<Transaction>): int {
    if cursor.newest.Some? then IndexOf(list, cursor.newest.value) else -1
  }

  /** The walk may go on from this view: the node knows where the page starts, or nothing below it is missing. */
  ghost predicate Covered(cursor: Cursor, list: seq<Transaction>, v: nat, rows: seq<Row>, accounts: Accounts)
    requires v <= |list|
  {
    || Serves(cursor, list[..v])
    || StoredRange(rows, list, accounts, NewestAt(cursor, list) + 1, IndexOf(list, cursor.pending.value.before) - 1)
  }

  lemma PrefixDistinct(list: seq<Transaction>, v: nat)
    requires UniqueSignatures(list) && v <= |list|
    ensures UniqueSignatures(list[..v])
    ensures forall s :: IndexOf(list[..v], s) == if IndexOf(list, s) < v then IndexOf(list, s) else -1
  {
    forall s ensures IndexOf(list[..v], s) == if IndexOf(list, s) < v then IndexOf(list, s) else -1 {
      var i := IndexOf(list, s);
      if 0 <= i < v {
        IndexIs(list[..v], s, i);
      } else {
        assert i >= 0 ==> list[i].signature == s;
        assert forall k :: 0 <= k < v ==> list[..v][k].signature != s;
      }
    }
  }

  /** From a view that serves the cursor, moving it past a stored page never skips a transaction. */
  lemma ServedKeepsSound(
      cursor: Cursor, list: seq<Transaction>, v: nat, limit: nat, rows: seq<Row>, accounts: Accounts)
    requires UniqueSignatures(list) && v <= |list| && limit >= 1
    requires Sound(cursor, list, rows, accounts) && Serves(cursor, list[..v])
    requires forall tx :: tx in Page(list[..v], PlanPage(cursor), limit) ==> Stored(rows, tx, accounts)
    ensures Sound(AdvanceCursor(cursor, Page(list[..v], PlanPage(cursor), limit), limit), list, rows, accounts)
  {
    hide Stored, IndexOf, Page;
    PrefixDistinct(list, v);
    var view, plan := list[..v], PlanPage(cursor);
    var top, floor, start := PageTop(view, plan), PageFloor(view, plan), PageStart(view, plan, limit);
    var page := Page(view, plan, limit);
    PageFacts(view, plan, limit);
    assert StoredRange(rows, list, accounts, start, top - 1) by {
      forall i | 0 <= i < |list| && start <= i < top ensures Stored(rows, list[i], accounts) { assert view[i] == list[i]; }
    }
    // Below the floor lies either nothing or history that `newest` already covers.
    assert StoredRange(rows, list, accounts, 0, floor - 1);
    if page != [] {
      IndexIs(list, page[0].signature, top - 1);
      IndexIs(list, page[|page| - 1].signature, start);
    }
    hide UniqueSignatures;
  }

  lemma PageFacts(view: seq<Transaction>, plan: Plan, limit: nat)
    requires limit >= 1
    ensures var top, start, page := PageTop(view, plan), PageStart(view, plan, limit), Page(view, plan, limit);
            && 0 <= start && top <= |view| && (page == [] <==> top <= start)
            && (page != [] ==> |page| == top - start && page[0] == view[top - 1] && page[|page| - 1] == view[start])
            && forall i :: start <= i < top ==> view[i] in page
  {
    hide IndexOf;
    var top, start, page := PageTop(view, plan), PageStart(view, plan, limit), Page(view, plan, limit);
    forall i | start <= i < top ensures view[i] in page { assert page[top - 1 - i] == view[i]; }
  }

  /** A node that does not know `before` answers with nothing, and the walk closes at its top. */
  lemma UnservedPage(cursor: Cursor, view: seq<Transaction>, limit: nat)
    requires !Serves(cursor, view)
    ensures Page(view, PlanPage(cursor), limit) == []
    ensures AdvanceCursor(cursor, [], limit) == Cursor(Some(cursor.pending.value.top), None)
  {
  }

  /**
   * Moving the cursor past a page whose transactions are all stored skips none if and only if the
   * node knew the signature the page starts below, or everything between `newest` and that
   * signature was stored already.
   */
  lemma AdvanceSoundExactly(
      cursor: Cursor, list: seq<Transaction>, v: nat, limit: nat, rows: seq<Row>, accounts: Accounts)
    requires UniqueSignatures(list) && v <= |list| && limit >= 1
    requires Sound(cursor, list, rows, accounts)
    requires forall tx :: tx in Page(list[..v], PlanPage(cursor), limit) ==> Stored(rows, tx, accounts)
    ensures Sound(AdvanceCursor(cursor, Page(list[..v], PlanPage(cursor), limit), limit), list, rows, accounts)
       <==> Covered(cursor, list, v, rows, accounts)
  {
    hide Stored, IndexOf, Page;
    if Serves(cursor, list[..v]) {
      ServedKeepsSound(cursor, list, v, limit, rows, accounts);
    } else {
      UnservedPage(cursor, list[..v], limit);
    }
  }

  /** The whole failing family: an unknown `before` with a transaction missing below it is skipped for good. */
  lemma UnservedSkips(cursor: Cursor, list: seq<Transaction>, v: nat, limit: nat, rows: seq<Row>, accounts: Accounts,
        i: nat)
    requires v <= |list| && Sound(cursor, list, rows, accounts) && !Serves(cursor, list[..v])
    requires i < IndexOf(list, cursor.pending.value.before) && !Stored(rows, list[i], accounts)
    ensures var next := AdvanceCursor(cursor, Page(list[..v], PlanPage(cursor), limit), limit);
            next.pending.None? && next.newest.Some? && i < IndexOf(list, next.newest.value)
  {
    hide Stored, Page;
    UnservedPage(cursor, list[..v], limit);
  }

  /**
   * Measured in what the node shows: a full page moves the walk down by exactly one page; a short
   * or empty one ends it, at its own top or at the newest transaction shown.
   */
  lemma PageShrinksBacklog(cursor: Cursor, view: seq<Transaction>, limit: nat)
    requires UniqueSignatures(view) && limit >= 1
    ensures var plan := PlanPage(cursor);
            var page := Page(view, plan, limit);
            var next := AdvanceCursor(cursor, page, limit);
      if |page| == limit then
        && next.pending.Some?
        && PageTop(view, PlanPage(next)) == PageTop(view, plan) - limit
        && PageFloor(view, PlanPage(next)) <= PageTop(view, PlanPage(next))
      else
        && next.pending.None?
        && (cursor.pending.Some? ==> next.newest == Some(cursor.pending.value.top))
        && (cursor.pending.None? && view != [] && PageFloor(view, plan) < |view| ==>
            next.newest == Some(view[|view| - 1].signature))
  {
    hide IndexOf;
    var plan := PlanPage(cursor);
    var top, start := PageTop(view, plan), PageStart(view, plan, limit);
    var page := Page(view, plan, limit);
    if page != [] {
      IndexIs(view, page[|page| - 1].signature, start);
    }
  }

  /** The cursor after up to `pages` pages from an up-to-date node, stopping when the walk ends. */
  function Walked(cursor: Cursor, list: seq<Transaction>, pages: nat): Cursor
    decreases pages
  {
    if pages == 0 then cursor
    else
      var next := AdvanceCursor(cursor, Page(list, PlanPage(cursor), PAGE), PAGE);
      if next.pending.None? then next else Walked(next, list, pages - 1)
  }

  /** The cursor after `pages` pages, page `p` read from a node that shows `views[p]` of the listing. */
  function CursorAfter(cursor: Cursor, list: seq<Transaction>, views: seq<nat>, pages: nat): Cursor
    requires pages <= |views| && forall p :: 0 <= p < |views| ==> views[p] <= |list|
  {
    if pages == 0 then cursor
    else
      var before := CursorAfter(cursor, list, views, pages - 1);
      AdvanceCursor(before, Page(list[..views[pages - 1]], PlanPage(before), PAGE), PAGE)
  }

  /** A walk that goes on was covered: an unknown `before` always ends it. */
  lemma PendingIsCovered(cursor: Cursor, list: seq<Transaction>, v: nat, limit: nat, rows: seq<Row>, accounts: Accounts)
    requires v <= |list| && AdvanceCursor(cursor, Page(list[..v], PlanPage(cursor), limit), limit).pending.Some?
    ensures Covered(cursor, list, v, rows, accounts)
  {
    hide StoredRange;
    if !Serves(cursor, list[..v]) { UnservedPage(cursor, list[..v], limit); }
  }

  lemma CoveredAsTableGrows(cursor: Cursor, list: seq<Transaction>, v: nat, rows: seq<Row>, rows': seq<Row>,
        accounts: Accounts)
    requires v <= |list| && Covered(cursor, list, v, rows, accounts)
    requires forall tx :: tx in list && Stored(rows, tx, accounts) ==> Stored(rows', tx, accounts)
    ensures Covered(cursor, list, v, rows', accounts)
  {
    hide Stored, IndexOf, Serves;
  }

  lemma CursorStarts(cursor: Cursor, list: seq<Transaction>, views: seq<nat>)
    requires forall p :: 0 <= p < |views| ==> views[p] <= |list|
    ensures CursorAfter(cursor, list, views, 0) == cursor
    ensures forall c, l :: Walked(c, l, 0) == c
  {
  }

  lemma CursorMoves(cursor: Cursor, list: seq<Transaction>, views: seq<nat>, page: nat)
    requires page < |views| && forall p :: 0 <= p < |views| ==> views[p] <= |list|
    ensures var before := CursorAfter(cursor, list, views, page);
            CursorAfter(cursor, list, views, page + 1)
                == AdvanceCursor(before, Page(list[..views[page]], PlanPage(before), PAGE), PAGE)
  {
  }

  lemma WalkedOne(cursor: Cursor, list: seq<Transaction>, pages: nat)
    requires pages > 0
    ensures var next := AdvanceCursor(cursor, Page(list, PlanPage(cursor), PAGE), PAGE);
            Walked(cursor, list, pages) == if next.pending.None? then next else Walked(next, list, pages - 1)
  {
  }

  lemma AdvanceServes(cursor: Cursor, list: seq<Transaction>)
    requires UniqueSignatures(list) && Serves(cursor, list)
    ensures Serves(AdvanceCursor(cursor, Page(list, PlanPage(cursor), PAGE), PAGE), list)
  {
    PageShrinksBacklog(cursor, list, PAGE);
  }

  /** Enough pages for the backlog end the walk at the newest transaction it set out from. */
  lemma {:induction false} WalkedCatchesUp(cursor: Cursor, list: seq<Transaction>, pages: nat)
    requires UniqueSignatures(list) && Serves(cursor, list)
    requires PageTop(list, PlanPage(cursor)) - PageFloor(list, PlanPage(cursor)) < pages * PAGE
    requires cursor.pending.Some? || PageFloor(list, PlanPage(cursor)) < |list|
    ensures Walked(cursor, list, pages) ==
      Cursor(Some(if cursor.pending.Some? then cursor.pending.value.top else list[|list| - 1].signature), None)
    decreases pages
  {
    hide IndexOf, Page, AdvanceCursor, UniqueSignatures;
    if pages > 0 {
      var page := Page(list, PlanPage(cursor), PAGE);
      var next := AdvanceCursor(cursor, page, PAGE);
      PageShrinksBacklog(cursor, list, PAGE);
      AdvanceParts(cursor, list);
      if next.pending.Some? {
        WalkedCatchesUp(next, list, pages - 1);
      }
    }
  }

  // ---------- successive runs ----------

  /** The stored cursor after so many runs of up to five pages each, the node up to date and serving throughout. */
  function Synced(cursor: Cursor, list: seq<Transaction>, runs: nat): Cursor {
    if runs == 0 then cursor else Walked(Synced(cursor, list, runs - 1), list, MAX_PAGES_PER_ACCOUNT)
  }

  lemma {:induction false} WalkedOn(cursor: Cursor, list: seq<Transaction>, a: nat, b: nat)
    requires a > 0
    ensures var mid := Walked(cursor, list, a);
            Walked(cursor, list, a + b) == if mid.pending.None? then mid else Walked(mid, list, b)
    decreases a
  {
    hide Page, AdvanceCursor;
    var next := AdvanceCursor(cursor, Page(list, PlanPage(cursor), PAGE), PAGE);
    if next.pending.Some? && a > 1 { WalkedOn(next, list, a - 1, b); }
  }

  /** Runs add up to one long walk until it ends. */
  lemma {:induction false} RunsAddUp(cursor: Cursor, list: seq<Transaction>, runs: nat) returns (k: nat)
    requires runs >= 1
    ensures 1 <= k <= runs && Synced(cursor, list, k) == Walked(cursor, list, MAX_PAGES_PER_ACCOUNT * k)
    ensures k < runs ==> Synced(cursor, list, k).pending.None?
  {
    hide Walked;
    if runs == 1 {
      k := 1;
      assert Synced(cursor, list, 1) == Walked(Synced(cursor, list, 0), list, MAX_PAGES_PER_ACCOUNT);
    } else {
      k := RunsAddUp(cursor, list, runs - 1);
      if Synced(cursor, list, k).pending.Some? {
        WalkedOn(cursor, list, MAX_PAGES_PER_ACCOUNT * k, MAX_PAGES_PER_ACCOUNT);
        k := runs;
      }
    }
  }

  lemma {:induction false} SyncedOn(cursor: Cursor, list: seq<Transaction>, a: nat, b: nat)
    ensures Synced(cursor, list, a + b) == Synced(Synced(cursor, list, a), list, b)
  {
    hide Walked;
    if b > 0 { SyncedOn(cursor, list, a, b - 1); }
  }

  function AtNewest(list: seq<Transaction>): Cursor
    requires list != []
  {
    Cursor(Some(list[|list| - 1].signature), None)
  }

  lemma {:induction false} StaysAtNewest(list: seq<Transaction>, runs: nat)
    requires UniqueSignatures(list) && list != []
    ensures Synced(AtNewest(list), list, runs) == AtNewest(list)
  {
    hide Walked, UniqueSignatures;
    if runs > 0 {
      StaysAtNewest(list, runs - 1);
      NothingNewer(list);
      WalkedOne(AtNewest(list), list, MAX_PAGES_PER_ACCOUNT);
    }
  }

  lemma NothingNewer(list: seq<Transaction>)
    requires UniqueSignatures(list) && list != []
    ensures AdvanceCursor(AtNewest(list), Page(list, PlanPage(AtNewest(list)), PAGE), PAGE) == AtNewest(list)
  {
    IndexIs(list, list[|list| - 1].signature, |list| - 1);
    hide IndexOf, UniqueSignatures;
    assert Page(list, PlanPage(AtNewest(list)), PAGE) == [];
  }

  /** A backlog of fewer than 500 signatures a run is gone within that many runs. */
  lemma RunsEndBacklog(cursor: Cursor, list: seq<Transaction>, runs: nat) returns (k: nat)
    requires UniqueSignatures(list) && Serves(cursor, list)
    requires PageTop(list, PlanPage(cursor)) - PageFloor(list, PlanPage(cursor)) < runs * (MAX_PAGES_PER_ACCOUNT * PAGE)
    requires cursor.pending.Some? || PageFloor(list, PlanPage(cursor)) < |list|
    ensures k <= runs
    ensures Synced(cursor, list, k)
         == if cursor.pending.Some? then Cursor(Some(cursor.pending.value.top), None) else AtNewest(list)
  {
    hide IndexOf, Walked, UniqueSignatures, Synced;
    BacklogIsPositive(cursor, list);
    WalkedCatchesUp(cursor, list, MAX_PAGES_PER_ACCOUNT * runs);
    k := RunsAddUp(cursor, list, runs);
    if k < runs { WalkedOn(cursor, list, MAX_PAGES_PER_ACCOUNT * k, MAX_PAGES_PER_ACCOUNT * (runs - k)); }
  }

  lemma BacklogIsPositive(cursor: Cursor, list: seq<Transaction>)
    requires Serves(cursor, list)
    ensures PageTop(list, PlanPage(cursor)) >= PageFloor(list, PlanPage(cursor))
  {
  }

  /**
   * Run after run of up to 500 signatures brings the stored cursor to the newest signature: first
   * the walk under way is finished, then what arrived above it, and there the cursor stays.
   */
  lemma SuccessiveRunsCatchUp(cursor: Cursor, list: seq<Transaction>, a: nat, b: nat)
    requires UniqueSignatures(list) && list != [] && Serves(cursor, list)
    requires cursor.pending.Some? ==>
               PageTop(list, PlanPage(cursor)) - PageFloor(list, PlanPage(cursor)) < a * 500
    requires |list| < b * 500
    ensures Synced(cursor, list, a + b) == AtNewest(list)
  {
    hide Walked, Synced;
    var k, next := 0, cursor;
    if cursor.pending.Some? {
      k := RunsEndBacklog(cursor, list, a);
      next := Cursor(Some(cursor.pending.value.top), None);
    } else {
      NoRuns(cursor, list);
    }
    SyncedOn(cursor, list, k, a + b - k);
    if PageFloor(list, PlanPage(next)) < |list| {
      var n := RunsEndBacklog(next, list, b);
      SyncedOn(next, list, n, a + b - k - n);
      StaysAtNewest(list, a + b - k - n);
    } else {
      assert next == AtNewest(list);
      StaysAtNewest(list, a + b - k);
    }
  }

  lemma NoRuns(cursor: Cursor, list: seq<Transaction>)
    ensures Synced(cursor, list, 0) == cursor
  {
  }

  lemma AdvanceParts(cursor: Cursor, list: seq<Transaction>)
    requires UniqueSignatures(list) && Serves(cursor, list)
    ensures var plan := PlanPage(cursor); var page := Page(list, plan, PAGE); var next := AdvanceCursor(cursor, page,
        PAGE);
      && |page| <= PAGE
      && PageFloor(list, plan) <= PageTop(list, plan)
      && (|page| < PAGE ==> next.pending.None?)
      && (|page| == PAGE ==>
            && next.newest == cursor.newest && next.pending.Some?
            && PageFloor(list, PlanPage(next)) >= PageFloor(list, plan)
            && next.pending.value.top == (if cursor.pending.Some? then cursor.pending.value.top
                else list[|list| - 1].signature))
  {
    hide IndexOf;
    var plan := PlanPage(cursor);
    var page := Page(list, plan, PAGE);
    if page != [] { IndexIs(list, page[|page| - 1].signature, PageStart(list, plan, PAGE)); }
  }

  // ---------- one sync run as the source executes it ----------

  class Tracker {
    const accounts: Accounts
    const table: EventTable
    var cursors: map<Address, Cursor>

    constructor (accounts: Accounts, table: EventTable)
      ensures this.accounts == accounts && this.table == table && cursors == map[]
    {
      this.accounts, this.table, cursors := accounts, table, map[];
    }

    function GetCursor(account: Address): Cursor
      reads this
    {
      if account in cursors then cursors[account] else START_CURSOR
    }

    ghost predicate Consistent(history: seq<Transaction>)
      reads this, table
    {
      && UniqueSignatures(history) && Faithful(table.rows, history, accounts)
      && forall a :: a in cursors ==> Sound(cursors[a], Listing(history, a), table.rows, accounts)
    }

    /** Stores a page's transactions in order; false when the node stops serving them, with `left` at zero. */
    method IngestPage(history: seq<Transaction>, sigs: seq<Transaction>, budget: nat) returns (done: bool, left: nat,
          stored: nat)
      requires UniqueSignatures(history) && Faithful(table.rows, history, accounts)
      requires forall j :: 0 <= j < |sigs| ==> sigs[j] in history
      modifies table
      ensures Faithful(table.rows, history, accounts)
      ensures forall tx :: tx in history && old(Stored(table.rows, tx, accounts)) ==> Stored(table.rows, tx, accounts)
      ensures done ==> forall j :: 0 <= j < |sigs| ==> Stored(table.rows, sigs[j], accounts)
      ensures done ==> left + |sigs| >= budget
      ensures |sigs| <= budget ==> done
      ensures sigs == [] ==> table.rows == old(table.rows)
    {
      hide Stored, Mentions, Faithful, UniqueSignatures, ParsedEvents, Without;
      left, stored := budget, 0;
      for k := 0 to |sigs|
        invariant Faithful(table.rows, history, accounts)
        invariant forall tx :: tx in history && old(Stored(table.rows, tx, accounts)) ==>
            Stored(table.rows, tx, accounts)
        invariant forall j :: 0 <= j < k ==> Stored(table.rows, sigs[j], accounts)
        invariant left + k >= budget && (k == 0 ==> table.rows == old(table.rows))
      {
        ghost var rows := table.rows;
        if sigs[k].succeeded {
          if left == 0 { return false, 0, stored; }
          left := left - 1;
          var parsed := ParseSupportTx(sigs[k], accounts);
          if parsed.Some? {
            table.Upsert(sigs[k], parsed.value);
            stored := stored + 1;
          }
        }
        NothingParsed(sigs[k], accounts);
        IngestPreserves(rows, history, accounts, sigs[k]);
      }
      done := true;
    }

    /**
     * `views[p]` is how much of the account's listing the node shows for page `p`; `outage` is how
     * many transactions it serves before it fails; `pages` counts the cursors saved. The run always
     * leaves a faithful table. Its cursors skip nothing if and only if each page read was covered.
     * An up-to-date node that serves every transaction advances the cursor by up to five pages.
     */
    method SyncAccount(history: seq<Transaction>, account: Address, views: seq<nat>, outage: nat)
        returns (stored: nat, ghost pages: nat)
      requires Consistent(history) && |views| == MAX_PAGES_PER_ACCOUNT
      requires forall p :: 0 <= p < |views| ==> views[p] <= |Listing(history, account)|
      modifies this, table
      ensures Faithful(table.rows, history, accounts) && pages <= |views|
      ensures forall a :: a != account ==> GetCursor(a) == old(GetCursor(a))
      ensures forall tx :: tx in history && old(Stored(table.rows, tx, accounts)) ==> Stored(table.rows, tx, accounts)
      ensures GetCursor(account) == CursorAfter(old(GetCursor(account)), Listing(history, account), views, pages)
      ensures Consistent(history) <==> forall p :: 0 <= p < pages ==>
                Covered(CursorAfter(old(GetCursor(account)), Listing(history, account), views, p), Listing(history, account),
                        views[p], table.rows, accounts)
      ensures var list := Listing(history, account);
        && Serves(old(GetCursor(account)), list) && outage >= MAX_PAGES_PER_ACCOUNT * PAGE
        && (forall p :: 0 <= p < |views| ==> views[p] == |list|)
        ==> GetCursor(account) == Walked(old(GetCursor(account)), list, MAX_PAGES_PER_ACCOUNT)
    {
      hide Stored, Sound, Page, AdvanceCursor, Mentions, Faithful, UniqueSignatures, IndexOf, Listing, Covered, Serves,
        CursorAfter, Walked, PlanPage;
      stored, pages := 0, 0;
      var list := Listing(history, account);
      ListingIn(history, account);
      var start := GetCursor(account);
      var current := start;
      var left: nat := outage;
      assert Sound(current, list, table.rows, accounts) by { StartIsSound(list, table.rows, accounts); }
      CursorStarts(start, list, views);
      ghost var good := Serves(start, list) && outage >= MAX_PAGES_PER_ACCOUNT * PAGE
          && forall p :: 0 <= p < |views| ==> views[p] == |list|;
      for page := 0 to MAX_PAGES_PER_ACCOUNT
        invariant Consistent(history) && Sound(current, list, table.rows, accounts)
        invariant forall a :: a != account ==> GetCursor(a) == old(GetCursor(a))
        invariant forall tx :: tx in history && old(Stored(table.rows, tx, accounts)) ==>
            Stored(table.rows, tx, accounts)
        invariant GetCursor(account) == current == CursorAfter(start, list, views, page) && pages == page
        invariant forall p :: 0 <= p < page ==>
            Covered(CursorAfter(start, list, views, p), list, views[p], table.rows, accounts)
        invariant good ==>
          && Serves(current, list) && left >= (MAX_PAGES_PER_ACCOUNT - page) * PAGE
          && Walked(start, list, MAX_PAGES_PER_ACCOUNT) == Walked(current, list, MAX_PAGES_PER_ACCOUNT - page)
      {
        var view := list[..views[page]];
        var sigs := Page(view, PlanPage(current), PAGE);
        PageWithin(view, PlanPage(current), PAGE);
        assert views[page] == |list| ==> view == list;
        CursorMoves(start, list, views, page);
        if good { AdvanceServes(current, list); WalkedOne(current, list, MAX_PAGES_PER_ACCOUNT - page); }
        assert forall j :: 0 <= j < |sigs| ==> sigs[j] in history by {
          forall j | 0 <= j < |sigs| ensures sigs[j] in history { assert sigs[j] in sigs; }
        }
        ghost var rows := table.rows;
        var done, rest, more := IngestPage(history, sigs, left);
        stored := stored + more;
        KeepSound(history, rows, account, current);
        forall p | 0 <= p < page
          ensures Covered(CursorAfter(start, list, views, p), list, views[p], table.rows, accounts)
        {
          CoveredAsTableGrows(CursorAfter(start, list, views, p), list, views[p], rows, table.rows, accounts);
        }
        if !done { return; }
        left := rest;
        AdvanceSoundExactly(current, list, views[page], PAGE, table.rows, accounts);
        current := AdvanceCursor(current, sigs, PAGE);
        cursors := cursors[account := current];
        pages := page + 1;
        if current.pending.None? { break; }
        PendingIsCovered(CursorAfter(start, list, views, page), list, views[page], PAGE, table.rows, accounts);
      }
    }

    lemma KeepSound(history: seq<Transaction>, rows: seq<Row>, account: Address, current: Cursor)
      requires UniqueSignatures(history)
      requires forall tx :: tx in history && Stored(rows, tx, accounts) ==> Stored(table.rows, tx, accounts)
      requires Sound(current, Listing(history, account), rows, accounts)
      requires forall a :: a in cursors ==> Sound(cursors[a], Listing(history, a), rows, accounts)
      ensures Sound(current, Listing(history, account), table.rows, accounts)
      ensures forall a :: a in cursors ==> Sound(cursors[a], Listing(history, a), table.rows, accounts)
    {
      hide Stored, Sound, Listing, UniqueSignatures;
      ListingIn(history, account);
      SoundAsTableGrows(current, Listing(history, account), rows, table.rows, accounts);
      forall a | a in cursors ensures Sound(cursors[a], Listing(history, a), table.rows, accounts) {
        ListingIn(history, a);
        SoundAsTableGrows(cursors[a], Listing(history, a), rows, table.rows, accounts);
      }
    }
  }

  lemma StartIsSound(list: seq<Transaction>, rows: seq<Row>, accounts: Accounts)
    ensures Sound(START_CURSOR, list, rows, accounts)
  {
  }

  lemma IngestPreserves(rows: seq<Row>, history: seq<Transaction>, accounts: Accounts, tx: Transaction)
    requires UniqueSignatures(history) && Faithful(rows, history, accounts) && tx in history
    ensures var after := Ingested(rows, tx, accounts);
      && Faithful(after, history, accounts) && Stored(after, tx, accounts)
      && (forall t :: t in history && Stored(rows, t, accounts) ==> Stored(after, t, accounts))
  {
    var k :| 0 <= k < |history| && history[k] == tx;
    IngestKeeps(rows, history, accounts, k);
  }

  // ---------- overlapping, crashing runs over a growing chain ----------

  /** A sync run: between pages, or inside one with `done` of its signatures handled. */
  datatype Worker =
    | AtCursor(account: Address, current: Cursor)
    | InPage(account: Address, current: Cursor, view: nat, done: nat)

  datatype World = World(
    history: seq<Transaction>, rows: seq<Row>, cursors: map<Address, Cursor>, workers: map<nat, Worker>)

  datatype Step =
    | Arrive(tx: Transaction)
    | Begin(id: nat, account: Address)
    | Fetch(id: nat, view: nat)
    | Ingest(id: nat)
    | Save(id: nat, more: bool)
    | Crash(id: nat)

  function WorkerPage(history: seq<Transaction>, w: Worker): seq<Transaction>
    requires w.InPage? && w.view <= |Listing(history, w.account)|
  {
    Page(Listing(history, w.account)[..w.view], PlanPage(w.current), PAGE)
  }

  ghost predicate WorkerOk(w: Worker, history: seq<Transaction>, rows: seq<Row>, accounts: Accounts) {
    && Sound(w.current, Listing(history, w.account), rows, accounts)
    && (w.InPage? ==>
          && w.view <= |Listing(history, w.account)|
          && w.done <= |WorkerPage(history, w)|
          && forall k :: 0 <= k < w.done ==> Stored(rows, WorkerPage(history, w)[k], accounts))
  }

  function StoredCursor(w: World, account: Address): Cursor {
    if account in w.cursors then w.cursors[account] else START_CURSOR
  }

  /** One atomic step; a node's view may be any prefix of the listing. */
  ghost predicate Next(w: World, step: Step, w': World, accounts: Accounts) {
    match step
    case Arrive(tx) =>
      && (forall k :: 0 <= k < |w.history| ==> w.history[k].signature != tx.signature)
      && w' == w.(history := w.history + [tx])
    case Begin(id, account) =>
      w' == w.(workers := w.workers[id := AtCursor(account, StoredCursor(w, account))])
    case Fetch(id, view) =>
      && id in w.workers && w.workers[id].AtCursor?
      && var me := w.workers[id];
         var list := Listing(w.history, me.account);
         && view <= |list|
         && w' == w.(workers := w.workers[id := InPage(me.account, me.current, view, 0)])
    case Ingest(id) =>
      && id in w.workers && w.workers[id].InPage?
      && var me := w.workers[id];
         && me.view <= |Listing(w.history, me.account)| && me.done < |WorkerPage(w.history, me)|
         && w' == w.(rows := Ingested(w.rows, WorkerPage(w.history, me)[me.done], accounts),
                     workers := w.workers[id := me.(done := me.done + 1)])
    case Save(id, more) =>
      && id in w.workers && w.workers[id].InPage?
      && var me := w.workers[id];
         && me.view <= |Listing(w.history, me.account)| && me.done == |WorkerPage(w.history, me)|
         && var next := AdvanceCursor(me.current, WorkerPage(w.history, me), PAGE);
            w' == w.(cursors := w.cursors[me.account := next],
                     workers := if more && next.pending.Some? then w.workers[id := AtCursor(me.account, next)]
                         else w.workers - {id})
    case Crash(id) => w' == w.(workers := w.workers - {id})
  }

  ghost predicate CursorsSound(w: World, accounts: Accounts) {
    forall a :: a in w.cursors ==> Sound(w.cursors[a], Listing(w.history, a), w.rows, accounts)
  }

  /** If this step saves a cursor, the page it saves it after was covered. */
  ghost predicate SaveCovered(w: World, step: Step, accounts: Accounts) {
    if step.Save? && step.id in w.workers && w.workers[step.id].InPage?
       && w.workers[step.id].view <= |Listing(w.history, w.workers[step.id].account)| then
      var me := w.workers[step.id];
      Covered(me.current, Listing(w.history, me.account), me.view, w.rows, accounts)
    else true
  }

  ghost predicate Inv(w: World, accounts: Accounts) {
    && UniqueSignatures(w.history) && Faithful(w.rows, w.history, accounts)
    && CursorsSound(w, accounts)
    && (forall id :: id in w.workers ==> WorkerOk(w.workers[id], w.history, w.rows, accounts))
  }

  lemma {:induction false} ListingIn(history: seq<Transaction>, account: Address)
    requires UniqueSignatures(history)
    ensures UniqueSignatures(Listing(history, account))
    ensures forall tx :: tx in Listing(history, account) ==> tx in history
    ensures forall tx :: tx in history && Mentions(tx, account) ==> tx in Listing(history, account)
  {
    if history != [] {
      var init := history[..|history| - 1];
      ListingIn(init, account);
      assert history == init + [history[|history| - 1]];
      assert forall tx :: tx in init ==> tx.signature != history[|history| - 1].signature;
    }
  }

  lemma ListingGrows(history: seq<Transaction>, tx: Transaction, account: Address)
    ensures Listing(history + [tx], account) == Listing(history, account) + if Mentions(tx, account) then [tx] else []
  {
    assert (history + [tx])[..|history|] == history;
  }

  lemma SoundAsChainGrows(cursor: Cursor, list: seq<Transaction>, more: seq<Transaction>, rows: seq<Row>,
        accounts: Accounts)
    requires UniqueSignatures(list + more) && Sound(cursor, list, rows, accounts)
    ensures Sound(cursor, list + more, rows, accounts)
  {
    hide Stored, IndexOf;
    PrefixDistinct(list + more, |list|);
    assert (list + more)[..|list|] == list;
  }

  lemma SoundAsTableGrows(
      cursor: Cursor, list: seq<Transaction>, rows: seq<Row>, rows': seq<Row>, accounts: Accounts)
    requires Sound(cursor, list, rows, accounts)
    requires forall tx :: tx in list && Stored(rows, tx, accounts) ==> Stored(rows', tx, accounts)
    ensures Sound(cursor, list, rows', accounts)
  {
    hide Stored, IndexOf;
  }

  lemma ArriveKeepsInv(w: World, tx: Transaction, w': World, accounts: Accounts)
    requires Inv(w, accounts) && Next(w, Arrive(tx), w', accounts)
    ensures Inv(w', accounts)
  {
    hide Stored, Sound, Serves, Page, Mentions;
    assert UniqueSignatures(w'.history);
    assert Faithful(w'.rows, w'.history, accounts) by {
      forall s | RowsOf(w.rows, s) != []
        ensures exists k :: 0 <= k < |w'.history| && w'.history[k].signature == s && Stored(w.rows, w'.history[k], accounts)
      {
        var k :| 0 <= k < |w.history| && w.history[k].signature == s && Stored(w.rows, w.history[k], accounts);
        assert w'.history[k] == w.history[k];
      }
    }
    forall a ensures
        var list, list' := Listing(w.history, a), Listing(w'.history, a);
        && list <= list'
        && forall c :: Sound(c, list, w.rows, accounts) ==> Sound(c, list', w.rows, accounts)
    {
      ListingGrows(w.history, tx, a);
      ListingIn(w'.history, a);
      var list := Listing(w.history, a);
      var more := if Mentions(tx, a) then [tx] else [];
      forall c | Sound(c, list, w.rows, accounts) ensures Sound(c, list + more, w.rows, accounts) {
        SoundAsChainGrows(c, list, more, w.rows, accounts);
      }
    }
    forall id | id in w'.workers ensures WorkerOk(w'.workers[id], w'.history, w'.rows, accounts) {
      var me := w.workers[id];
      assert me.InPage? ==> Listing(w'.history, me.account)[..me.view] == Listing(w.history, me.account)[..me.view];
    }
  }

  lemma PageWithin(view: seq<Transaction>, plan: Plan, limit: nat)
    ensures forall tx :: tx in Page(view, plan, limit) ==> tx in view
    ensures |Page(view, plan, limit)| <= limit
  {
  }

  lemma IngestKeepsInv(w: World, id: nat, w': World, accounts: Accounts)
    requires Inv(w, accounts) && Next(w, Ingest(id), w', accounts)
    ensures Inv(w', accounts)
  {
    hide Stored, Sound, Serves, Page, Mentions, Faithful, UniqueSignatures, Ingested, WorkerPage, Listing;
    var me := w.workers[id];
    var tx := WorkerPage(w.history, me)[me.done];
    WorkerPageWithin(w.history, me);
    assert tx in WorkerPage(w.history, me);
    IngestPreserves(w.rows, w.history, accounts, tx);
    forall a | a in w.cursors ensures Sound(w.cursors[a], Listing(w.history, a), w'.rows, accounts) {
      ListingIn(w.history, a);
      SoundAsTableGrows(w.cursors[a], Listing(w.history, a), w.rows, w'.rows, accounts);
    }
    forall i | i in w.workers ensures WorkerOk(w.workers[i], w.history, w'.rows, accounts) {
      WorkerAsTableGrows(w.workers[i], w.history, w.rows, w'.rows, accounts);
    }
    assert WorkerOk(w'.workers[id], w.history, w'.rows, accounts) by { WorkerPageOfNext(w.history, me); }
  }

  lemma WorkerPageOfNext(history: seq<Transaction>, me: Worker)
    requires me.InPage? && me.view <= |Listing(history, me.account)|
    ensures WorkerPage(history, me.(done := me.done + 1)) == WorkerPage(history, me)
  {
  }

  lemma WorkerPageWithin(history: seq<Transaction>, me: Worker)
    requires UniqueSignatures(history) && me.InPage? && me.view <= |Listing(history, me.account)|
    ensures forall tx :: tx in WorkerPage(history, me) ==> tx in history
  {
    hide Page, Mentions, UniqueSignatures, Listing;
    PageWithin(Listing(history, me.account)[..me.view], PlanPage(me.current), PAGE);
    ListingIn(history, me.account);
  }

  lemma WorkerAsTableGrows(me: Worker, history: seq<Transaction>, rows: seq<Row>, rows': seq<Row>, accounts: Accounts)
    requires UniqueSignatures(history) && WorkerOk(me, history, rows, accounts)
    requires forall t :: t in history && Stored(rows, t, accounts) ==> Stored(rows', t, accounts)
    ensures WorkerOk(me, history, rows', accounts)
  {
    hide Stored, Sound, Serves, Page, UniqueSignatures, WorkerPage, Listing;
    ListingIn(history, me.account);
    SoundAsTableGrows(me.current, Listing(history, me.account), rows, rows', accounts);
    if me.InPage? {
      WorkerPageWithin(history, me);
      forall j | 0 <= j < me.done ensures Stored(rows', WorkerPage(history, me)[j], accounts) {
        assert WorkerPage(history, me)[j] in WorkerPage(history, me);
      }
    }
  }

  lemma SaveKeepsInv(w: World, id: nat, more: bool, w': World, accounts: Accounts)
    requires Inv(w, accounts) && Next(w, Save(id, more), w', accounts) && SaveCovered(w, Save(id, more), accounts)
    ensures Inv(w', accounts)
  {
    hide Stored, Sound, Covered, Page, Mentions, Faithful, UniqueSignatures;
    var me := w.workers[id];
    ListingIn(w.history, me.account);
    AdvanceSoundExactly(me.current, Listing(w.history, me.account), me.view, PAGE, w.rows, accounts);
  }

  /** Saving a cursor after a page that was not covered stores one that skips a transaction. */
  lemma UncoveredSaveSkips(w: World, id: nat, more: bool, w': World, accounts: Accounts)
    requires Inv(w, accounts) && Next(w, Save(id, more), w', accounts) && !SaveCovered(w, Save(id, more), accounts)
    ensures !CursorsSound(w', accounts)
  {
    hide Stored, Sound, Covered, Page, Mentions, Faithful, UniqueSignatures;
    var me := w.workers[id];
    ListingIn(w.history, me.account);
    AdvanceSoundExactly(me.current, Listing(w.history, me.account), me.view, PAGE, w.rows, accounts);
    assert me.account in w'.cursors;
  }

  /** Every step of every sync run, and every arrival, keeps the invariant unless it saves after an uncovered page. */
  lemma StepKeepsInv(w: World, step: Step, w': World, accounts: Accounts)
    requires Inv(w, accounts) && Next(w, step, w', accounts) && SaveCovered(w, step, accounts)
    ensures Inv(w', accounts)
  {
    match step
    case Arrive(tx) => ArriveKeepsInv(w, tx, w', accounts);
    case Ingest(id) => IngestKeepsInv(w, id, w', accounts);
    case Save(id, more) => SaveKeepsInv(w, id, more, w', accounts);
    case Begin(id, account) =>
      hide Stored, Faithful, UniqueSignatures, Listing;
      assert WorkerOk(w'.workers[id], w.history, w.rows, accounts);
    case Fetch(id, view) => hide Stored, Faithful, UniqueSignatures, Listing, Page, IndexOf;
    case Crash(_) => hide *;
  }

  ghost predicate Run(worlds: seq<World>, steps: seq<Step>, accounts: Accounts) {
    && |worlds| == |steps| + 1
    && worlds[0].rows == [] && worlds[0].cursors == map[] && worlds[0].workers == map[]
    && UniqueSignatures(worlds[0].history)
    && forall i :: 0 <= i < |steps| ==> Next(worlds[i], steps[i], worlds[i + 1], accounts)
  }

  /** Every cursor saved in the first `n` steps was saved after a covered page. */
  ghost predicate SavesCovered(worlds: seq<World>, steps: seq<Step>, accounts: Accounts, n: nat)
    requires |worlds| == |steps| + 1
  {
    forall i :: 0 <= i < |steps| && i < n ==> SaveCovered(worlds[i], steps[i], accounts)
  }

  lemma {:induction false} RunKeepsInv(worlds: seq<World>, steps: seq<Step>, accounts: Accounts, n: nat)
    requires Run(worlds, steps, accounts) && n < |worlds| && SavesCovered(worlds, steps, accounts, n)
    ensures Inv(worlds[n], accounts)
  {
    if n == 0 {
      assert forall s :: RowsOf(worlds[0].rows, s) == [];
    } else {
      RunKeepsInv(worlds, steps, accounts, n - 1);
      StepKeepsInv(worlds[n - 1], steps[n - 1], worlds[n], accounts);
    }
  }

  /** A run's stored cursors skip nothing, at any moment, if and only if each was saved after a covered page. */
  lemma RunSoundExactly(worlds: seq<World>, steps: seq<Step>, accounts: Accounts)
    requires Run(worlds, steps, accounts)
    ensures (forall n :: 0 <= n < |worlds| ==> CursorsSound(worlds[n], accounts)) <==>
              SavesCovered(worlds, steps, accounts, |steps|)
  {
    hide Next, SaveCovered, CursorsSound;
    if SavesCovered(worlds, steps, accounts, |steps|) {
      forall n | 0 <= n < |worlds| ensures CursorsSound(worlds[n], accounts) {
        InvIsSound(worlds, steps, accounts, n);
      }
    } else if forall n :: 0 <= n < |worlds| ==> CursorsSound(worlds[n], accounts) {
      SoundRunIsCovered(worlds, steps, accounts, |steps|);
    }
  }

  lemma InvIsSound(worlds: seq<World>, steps: seq<Step>, accounts: Accounts, n: nat)
    requires Run(worlds, steps, accounts) && n < |worlds| && SavesCovered(worlds, steps, accounts, n)
    ensures CursorsSound(worlds[n], accounts)
  {
    RunKeepsInv(worlds, steps, accounts, n);
  }

  lemma {:induction false} SoundRunIsCovered(worlds: seq<World>, steps: seq<Step>, accounts: Accounts, n: nat)
    requires Run(worlds, steps, accounts) && n <= |steps|
    requires forall k :: 0 <= k < |worlds| ==> CursorsSound(worlds[k], accounts)
    ensures SavesCovered(worlds, steps, accounts, n)
  {
    hide SaveCovered, CursorsSound, Next, Inv;
    if n > 0 {
      SoundRunIsCovered(worlds, steps, accounts, n - 1);
      RunKeepsInv(worlds, steps, accounts, n - 1);
      if !SaveCovered(worlds[n - 1], steps[n - 1], accounts) {
        OnlySavesUncovered(worlds[n - 1], steps[n - 1], accounts);
        UncoveredSaveSkips(worlds[n - 1], steps[n - 1].id, steps[n - 1].more, worlds[n], accounts);
      }
    }
  }

  lemma OnlySavesUncovered(w: World, step: Step, accounts: Accounts)
    ensures !SaveCovered(w, step, accounts) ==> step.Save?
  {
  }

  // ---------- nodes that know where each page starts ----------

  /** Every page was asked of a node that knew the signature it starts below. */
  ghost predicate FetchesServed(worlds: seq<World>, steps: seq<Step>)
    requires |worlds| == |steps| + 1
  {
    forall i :: 0 <= i < |steps| ==> FetchServed(worlds[i], steps[i])
  }

  ghost predicate FetchServed(w: World, step: Step) {
    if step.Fetch? && step.id in w.workers && step.view <= |Listing(w.history, w.workers[step.id].account)| then
      Serves(w.workers[step.id].current, Listing(w.history, w.workers[step.id].account)[..step.view])
    else true
  }

  ghost predicate WorkersServed(w: World) {
    forall id :: id in w.workers && w.workers[id].InPage? ==>
      var me := w.workers[id];
      me.view <= |Listing(w.history, me.account)| && Serves(me.current, Listing(w.history, me.account)[..me.view])
  }

  lemma {:induction false} ServedWorkers(worlds: seq<World>, steps: seq<Step>, accounts: Accounts, n: nat)
    requires Run(worlds, steps, accounts) && FetchesServed(worlds, steps) && n < |worlds|
    ensures WorkersServed(worlds[n])
  {
    hide Serves, Listing, Page, Ingested, AdvanceCursor, UniqueSignatures;
    if n > 0 {
      ServedWorkers(worlds, steps, accounts, n - 1);
      var w, w' := worlds[n - 1], worlds[n];
      assert Next(w, steps[n - 1], w', accounts) && FetchServed(w, steps[n - 1]);
      if steps[n - 1].Arrive? {
        forall id | id in w'.workers && w'.workers[id].InPage?
          ensures var me := w'.workers[id];
                  me.view <= |Listing(w'.history, me.account)|
                      && Serves(me.current, Listing(w'.history, me.account)[..me.view])
        {
          var me := w.workers[id];
          ListingGrows(w.history, steps[n - 1].tx, me.account);
          assert Listing(w'.history, me.account)[..me.view] == Listing(w.history, me.account)[..me.view];
        }
      }
    }
  }

  /** Then every page is covered, so such runs skip nothing. */
  lemma ServedRunIsCovered(worlds: seq<World>, steps: seq<Step>, accounts: Accounts)
    requires Run(worlds, steps, accounts) && FetchesServed(worlds, steps)
    ensures SavesCovered(worlds, steps, accounts, |steps|)
  {
    hide Serves, Listing, Page, Next;
    forall i | 0 <= i < |steps| ensures SaveCovered(worlds[i], steps[i], accounts) {
      ServedWorkers(worlds, steps, accounts, i);
    }
  }

  /** At every moment of every such run, nothing behind a stored cursor is missing from the table. */
  lemma NothingSkipped(worlds: seq<World>, steps: seq<Step>, accounts: Accounts, n: nat, account: Address, i: nat)
    requires Run(worlds, steps, accounts) && n < |worlds| && SavesCovered(worlds, steps, accounts, n)
    requires account in worlds[n].cursors && i < |Listing(worlds[n].history, account)|
    ensures var w := worlds[n]; var c := w.cursors[account]; var list := Listing(w.history, account);
      && (c.newest.Some? && i <= IndexOf(list, c.newest.value) ==> Stored(w.rows, list[i], accounts))
      && (c.pending.Some? && IndexOf(list, c.pending.value.before) <= i <= IndexOf(list, c.pending.value.top) ==>
            Stored(w.rows, list[i], accounts))
  {
    InvIsSound(worlds, steps, accounts, n);
  }

  /**
   * The indexer's promise end to end: in any run whose pages were covered, once an asset's cursor has
   * reached the newest transaction of its account, the published totals with
   * funding and anomalies account for the vault's balance exactly.
   */
  lemma CaughtUpTotalsBalance(
      worlds: seq<World>, steps: seq<Step>, accounts: Accounts, n: nat, asset: Asset, first: int, last: int)
    requires Run(worlds, steps, accounts) && n < |worlds| && SavesCovered(worlds, steps, accounts, n)
    requires var w := worlds[n]; var account := AccountOf(accounts, asset); var list := Listing(w.history, account);
      && Chained(w.history, account, asset, first, last)
      && (list == [] || (account in w.cursors && w.cursors[account].newest == Some(list[|list| - 1].signature)))
    ensures var rows := worlds[n].rows; var t := TotalsOf(rows, asset);
      t.contributed + SumOf(rows, asset, Funding) - SumOf(rows, asset, Anomaly) - t.paidA - t.paidB == last - first
  {
    hide Stored, Faithful, Mentions, TotalsOf, SumOf, AccountOf, Chained, Next;
    var w := worlds[n];
    var account := AccountOf(accounts, asset);
    var list := Listing(w.history, account);
    RunKeepsInv(worlds, steps, accounts, n);
    ListingIn(w.history, account);
    if list != [] { IndexIs(list, list[|list| - 1].signature, |list| - 1); }
    forall k | 0 <= k < |w.history| && Mentions(w.history[k], account) ensures Stored(w.rows, w.history[k], accounts) {
      assert w.history[k] in list;
      var i :| 0 <= i < |list| && list[i] == w.history[k];
    }
    HistoryConserves(w.rows, w.history, accounts, asset, first, last);
    TotalsAreNet(w.rows, asset);
  }
}
