/**
 * A run of the support indexer in which a stored cursor skips a transaction: a backlog of 101, one
 * full page, and then a page asked of a node that does not know the signature it starts below.
 */
module IndexerGap {
  import opened Common
  import opened LogScan
  import opened Ledger
  import opened Indexer

  const VAULT := "vault"
  const ACCOUNTS := Accounts("splitter", VAULT, "usdc")
  const BACKLOG := 101

  function Name(n: nat): Signature { seq(n, _ => 'x') }

  /** The oldest transaction brings five lamports in; the hundred after it failed. */
  function TransactionAt(i: nat): Transaction {
    Transaction(Name(i), i, None, i == 0, [AccountKey(VAULT, false)], [0], [if i == 0 then 5 else 0], [], [], [], [])
  }

  function History(): seq<Transaction> { seq(BACKLOG, i requires 0 <= i => TransactionAt(i)) }

  const HALFWAY := Cursor(None, Some(Pending(Name(100), Name(1))))
  const CLOSED := Cursor(Some(Name(100)), None)

  function StepAt(i: nat): Step {
    if i == 0 then Begin(0, VAULT)
    else if i == 1 then Fetch(0, BACKLOG)
    else if i < 102 then Ingest(0)
    else if i == 102 then Save(0, true)
    else if i == 103 then Fetch(0, 0)
    else Save(0, true)
  }

  function WorldAt(i: nat): World {
    if i == 0 then World(History(), [], map[], map[])
    else if i == 1 then World(History(), [], map[], map[0 := AtCursor(VAULT, START_CURSOR)])
    else if i <= 102 then World(History(), [], map[], map[0 := InPage(VAULT, START_CURSOR, BACKLOG, i - 2)])
    else if i == 103 then World(History(), [], map[VAULT := HALFWAY], map[0 := AtCursor(VAULT, HALFWAY)])
    else if i == 104 then World(History(), [], map[VAULT := HALFWAY], map[0 := InPage(VAULT, HALFWAY, 0, 0)])
    else World(History(), [], map[VAULT := CLOSED], map[])
  }

  function Worlds(): seq<World> { seq(106, i requires 0 <= i => WorldAt(i)) }

  function Steps(): seq<Step> { seq(105, i requires 0 <= i => StepAt(i)) }

  lemma HistoryIsUnique()
    ensures UniqueSignatures(History())
  {
    forall i, j | 0 <= i < j < BACKLOG ensures History()[i].signature != History()[j].signature {
      assert |History()[i].signature| == i && |History()[j].signature| == j;
    }
  }

  lemma {:induction false} AllListed(n: nat)
    requires n <= BACKLOG
    ensures Listing(History()[..n], VAULT) == History()[..n]
  {
    if n > 0 {
      AllListed(n - 1);
      assert History()[..n][..n - 1] == History()[..n - 1];
      assert History()[..n][n - 1] == TransactionAt(n - 1);
      assert Mentions(TransactionAt(n - 1), VAULT);
    }
  }

  lemma Listed()
    ensures Listing(History(), VAULT) == History()
  {
    AllListed(BACKLOG);
    assert History()[..BACKLOG] == History();
  }

  /** The first page is the hundred failed transactions, newest first. */
  lemma FirstPage()
    ensures var page := Page(History()[..BACKLOG], PlanPage(START_CURSOR), PAGE);
            && |page| == PAGE && page[0].signature == Name(100) && page[PAGE - 1].signature == Name(1)
            && forall k :: 0 <= k < PAGE ==> !page[k].succeeded
    ensures AdvanceCursor(START_CURSOR, Page(History()[..BACKLOG], PlanPage(START_CURSOR), PAGE), PAGE) == HALFWAY
  {
    assert History()[..BACKLOG] == History();
    var page := Page(History(), PlanPage(START_CURSOR), PAGE);
    assert forall k :: 0 <= k < PAGE ==> page[k] == TransactionAt(100 - k);
  }

  lemma SecondPage()
    ensures Page(History()[..0], PlanPage(HALFWAY), PAGE) == []
    ensures AdvanceCursor(HALFWAY, [], PAGE) == CLOSED
  {
  }

  /** The oldest transaction has a row to store. */
  lemma FirstIsNotStored()
    ensures !Stored([], TransactionAt(0), ACCOUNTS)
  {
    hide ParsedEvents, BalanceDelta, NetRows, Expected;
    NetOfExpected(TransactionAt(0), ACCOUNTS, SOL);
    NetOfNothing(SOL);
    FirstBringsFive();
  }

  lemma FirstBringsFive()
    ensures BalanceDelta(TransactionAt(0), AccountOf(ACCOUNTS, SOL), SOL) == 5
  {
  }

  lemma Fetches(i: nat)
    requires i in {0, 1, 103}
    ensures Next(WorldAt(i), StepAt(i), WorldAt(i + 1), ACCOUNTS)
  {
    hide Listing, Page, History, Ingested, AdvanceCursor, Name;
    Listed();
    LengthIs();
    assert WorldAt(1).workers[0] == AtCursor(VAULT, START_CURSOR);
  }

  lemma LengthIs()
    ensures |History()| == BACKLOG
  {
  }

  lemma Ingests(i: nat)
    requires 2 <= i < 102
    ensures Next(WorldAt(i), StepAt(i), WorldAt(i + 1), ACCOUNTS)
  {
    hide Page, History, AdvanceCursor, ParsedEvents, Name, Listing;
    Listed();
    LengthIs();
    FirstPage();
    var me := WorldAt(i).workers[0];
    assert me == InPage(VAULT, START_CURSOR, BACKLOG, i - 2);
    var tx := WorkerPage(History(), me)[me.done];
    NothingParsed(tx, ACCOUNTS);
    assert Ingested([], tx, ACCOUNTS) == [];
    assert map[0 := me][0 := me.(done := me.done + 1)] == map[0 := me.(done := me.done + 1)];
  }

  lemma Saves(i: nat)
    requires i in {102, 104}
    ensures Next(WorldAt(i), StepAt(i), WorldAt(i + 1), ACCOUNTS)
  {
    hide Page, History, AdvanceCursor, Ingested, Name, Listing;
    Listed();
    LengthIs();
    FirstPage();
    SecondPage();
    var me := WorldAt(i).workers[0];
    if i == 102 {
      assert me == InPage(VAULT, START_CURSOR, BACKLOG, 100);
    } else {
      assert me == InPage(VAULT, HALFWAY, 0, 0);
      assert map[0 := me] - {0} == map[];
    }
  }

  /** The stored cursor ends up at the newest signature while the oldest transaction has no row. */
  lemma ARunThatSkips()
    ensures Run(Worlds(), Steps(), ACCOUNTS)
    ensures var w := Worlds()[105]; var list := Listing(w.history, VAULT);
            && w.cursors == map[VAULT := CLOSED] && w.workers == map[]
            && IndexOf(list, Name(100)) == 100 && !Stored(w.rows, list[0], ACCOUNTS)
    ensures !CursorsSound(Worlds()[105], ACCOUNTS)
  {
    HistoryIsUnique();
    hide Next, UniqueSignatures, Stored, StepAt, Listing;
    forall i | 0 <= i < |Steps()| ensures Next(Worlds()[i], Steps()[i], Worlds()[i + 1], ACCOUNTS) {
      assert Worlds()[i] == WorldAt(i) && Worlds()[i + 1] == WorldAt(i + 1) && Steps()[i] == StepAt(i);
      if i in {0, 1, 103} { Fetches(i); } else if i < 102 { Ingests(i); } else { Saves(i); }
    }
    Listed();
    FirstIsNotStored();
    var w := Worlds()[105];
    assert w == WorldAt(105);
    assert History()[100].signature == Name(100) && History()[0] == TransactionAt(0);
    IndexIs(History(), Name(100), 100);
    assert VAULT in w.cursors;
    hide IndexOf;
    assert !StoredRange(w.rows, History(), ACCOUNTS, 0, 100);
  }
}
