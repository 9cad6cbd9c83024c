/** Classifying a vault transaction, storing its rows, summing them (`convex/supportParse.ts`, `convex/support.ts`). */
module Ledger {
  import opened Common
  import opened LogScan
  import Rows

  type Address = string
  type Signature = string

  datatype Kind = Contribution | Payout | Funding | Anomaly
  datatype Event = Event(kind: Kind, asset: Asset, amount: int, donor: Option<Address>,
      note: Option<string>, side: Option<Side>)

  /** A memo instruction's text, reduced to what the parser reads from it. */
  datatype Memo = Memo(support: bool, anon: bool, note: Option<string>)

  datatype Instruction =
    | SystemTransfer(source: Option<Address>, destination: Address, lamports: nat)
    | TokenTransfer(authority: Option<Address>, destination: Address, amount: nat)
    | MemoText(memo: Memo)
    | Other

  datatype AccountKey = AccountKey(pubkey: Address, signer: bool)
  datatype TokenBalance = TokenBalance(accountIndex: nat, amount: int)

  /** `instructions` lists the top-level instructions and then the inner ones. */
  datatype Transaction = Transaction(
    signature: Signature, slot: nat, blockTime: Option<nat>, succeeded: bool, keys: seq<AccountKey>,
    preBalances: seq<int>, postBalances: seq<int>, preTokens: seq<TokenBalance>, postTokens: seq<TokenBalance>,
    instructions: seq<Instruction>, logs: seq<Line>)

  datatype Accounts = Accounts(programId: Address, vault: Address, vaultUsdc: Address)

  function AccountOf(accounts: Accounts, asset: Asset): Address {
    if asset == SOL then accounts.vault else accounts.vaultUsdc
  }

  // ---------- balances ----------

  /** Index of the first key with this address; -1 when absent. */
  function KeyIndex(keys: seq<AccountKey>, address: Address): (i: int)
    ensures -1 <= i < |keys|
    ensures i >= 0 ==> keys[i].pubkey == address
  {
    if keys == [] then -1
    else if keys[0].pubkey == address then 0
    else
      var i := KeyIndex(keys[1..], address);
      if i < 0 then -1 else i + 1
  }

  function LamportsAt(balances: seq<int>, index: nat): int {
    if index < |balances| then balances[index] else 0
  }

  function TokensAt(list: seq<TokenBalance>, index: nat): int {
    if list == [] then 0
    else if list[0].accountIndex == index then list[0].amount
    else TokensAt(list[1..], index)
  }

  predicate Mentions(tx: Transaction, address: Address) {
    KeyIndex(tx.keys, address) >= 0
  }

  function Before(tx: Transaction, address: Address, asset: Asset): int
    requires Mentions(tx, address)
  {
    var index := KeyIndex(tx.keys, address);
    if asset == SOL then LamportsAt(tx.preBalances, index) else TokensAt(tx.preTokens, index)
  }

  function After(tx: Transaction, address: Address, asset: Asset): int
    requires Mentions(tx, address)
  {
    var index := KeyIndex(tx.keys, address);
    if asset == SOL then LamportsAt(tx.postBalances, index) else TokensAt(tx.postTokens, index)
  }

  function BalanceDelta(tx: Transaction, address: Address, asset: Asset): int {
    if Mentions(tx, address) then After(tx, address, asset) - Before(tx, address, asset) else 0
  }

  // ---------- classification ----------

  datatype Transfer = Transfer(asset: Asset, donor: Option<Address>, amount: nat)

  function TransferOf(ix: Instruction, accounts: Accounts): seq<Transfer> {
    match ix
    case SystemTransfer(source, destination, lamports) =>
      if destination == accounts.vault then [Transfer(SOL, source, lamports)] else []
    case TokenTransfer(authority, destination, amount) =>
      if destination == accounts.vaultUsdc then [Transfer(USDC, authority, amount)] else []
    case _ => []
  }

  function TransfersOf(ixs: seq<Instruction>, accounts: Accounts): seq<Transfer> {
    if ixs == [] then [] else TransfersOf(ixs[..|ixs| - 1], accounts) + TransferOf(ixs[|ixs| - 1], accounts)
  }

  method TransfersIntoVault(ixs: seq<Instruction>, accounts: Accounts) returns (found: seq<Transfer>)
    ensures found == TransfersOf(ixs, accounts)
  {
    found := [];
    for k := 0 to |ixs|
      invariant found == TransfersOf(ixs[..k], accounts)
    {
      assert ixs[..k + 1][..k] == ixs[..k];
      match ixs[k]
      case SystemTransfer(source, destination, lamports) =>
        if destination == accounts.vault { found := found + [Transfer(SOL, source, lamports)]; }
      case TokenTransfer(authority, destination, amount) =>
        if destination == accounts.vaultUsdc { found := found + [Transfer(USDC, authority, amount)]; }
      case _ =>
    }
    assert ixs[..|ixs|] == ixs;
  }

  function MemoOf(ixs: seq<Instruction>): Option<Memo> {
    if ixs == [] then None
    else if ixs[0].MemoText? then Some(ixs[0].memo)
    else MemoOf(ixs[1..])
  }

  function Signers(keys: seq<AccountKey>): set<Address> {
    set k | k in keys && k.signer :: k.pubkey
  }

  /** The facts of a transaction that decide who is credited. */
  datatype Credit = Credit(signers: set<Address>, memo: Option<Memo>)

  ghost predicate Names(credit: Credit, donor: Option<Address>, credited: Option<Address>, asset: Asset) {
    if asset == USDC && donor.Some? && donor.value !in credit.signers then
      if credit.memo.Some? && credit.memo.value.support && |credit.signers| == 1 then
        credited.Some? && credit.signers == {credited.value}
      else credited == None
    else credited == donor
  }

  function TheOne(s: set<Address>): (x: Address)
    requires |s| == 1
    ensures s == {x}
  {
    Singleton(s);
    var x :| s == {x};
    x
  }

  lemma Singleton(s: set<Address>)
    requires |s| == 1
    ensures exists x :: s == {x}
  {
    var x :| x in s;
    assert s == {x} by {
      if y :| y in s && y != x { assert |{x, y}| == 2 && {x, y} <= s; Rows.Subset({x, y}, s); }
    }
  }

  function CreditedDonor(credit: Credit, asset: Asset, donor: Option<Address>): (r: Option<Address>)
    ensures Names(credit, donor, r, asset)
  {
    if asset == USDC && donor.Some? && donor.value !in credit.signers then
      if credit.memo.Some? && credit.memo.value.support && |credit.signers| == 1 then Some(TheOne(credit.signers))
        else None
    else donor
  }

  function ContributionOf(credit: Credit, t: Transfer): Event {
    var donor := CreditedDonor(credit, t.asset, t.donor);
    var signed := donor.Some? && donor.value in credit.signers;
    var anon := credit.memo.Some? && credit.memo.value.anon;
    var note := if credit.memo.Some? then credit.memo.value.note else None;
    Event(Contribution, t.asset, t.amount, if signed && anon then None else donor, if signed then note else None, None)
  }

  function PayoutOf(p: Paid, asset: Asset): seq<Event> {
    if p.asset == asset then [Event(Payout, asset, p.amount, None, None, Some(p.side))] else []
  }

  function PayoutsOf(paid: seq<Paid>, asset: Asset): seq<Event> {
    if paid == [] then [] else PayoutsOf(paid[..|paid| - 1], asset) + PayoutOf(paid[|paid| - 1], asset)
  }

  function PaidOut(paid: seq<Paid>, asset: Asset): int {
    if paid == [] then 0
    else PaidOut(paid[..|paid| - 1], asset) + if paid[|paid| - 1].asset == asset then paid[|paid| - 1].amount else 0
  }

  function ContributionsOf(credit: Credit, transfers: seq<Transfer>, asset: Asset): seq<Event> {
    if transfers == [] then []
    else
      var t := transfers[|transfers| - 1];
      ContributionsOf(credit, transfers[..|transfers| - 1], asset)
      + if t.asset == asset && t.amount != 0 then [ContributionOf(credit, t)] else []
  }

  function Attributed(transfers: seq<Transfer>, asset: Asset): int {
    if transfers == [] then 0
    else
      var t := transfers[|transfers| - 1];
      Attributed(transfers[..|transfers| - 1], asset) + if t.asset == asset then t.amount else 0
  }

  function Unnamed(kind: Kind, asset: Asset, amount: int): Event {
    Event(kind, asset, amount, None, None, None)
  }

  /** What came in on `asset`, classified. */
  function InflowEvents(credit: Credit, transfers: seq<Transfer>, initialized: bool, inflow: int,
        asset: Asset): seq<Event> {
    if inflow < 0 then [Unnamed(Anomaly, asset, -inflow)]
    else if inflow == 0 then []
    else if initialized && asset == SOL then [Unnamed(Funding, asset, inflow)]
    else
      var attributed := Attributed(transfers, asset);
      if attributed > inflow then [Unnamed(Contribution, asset, inflow)]
      else ContributionsOf(credit, transfers, asset)
           + if inflow > attributed then [Unnamed(Contribution, asset, inflow - attributed)] else []
  }

  function EventsFor(tx: Transaction, accounts: Accounts, asset: Asset): seq<Event> {
    var scan := ScanFrom(START, tx.logs, accounts.programId);
    var inflow := BalanceDelta(tx, AccountOf(accounts, asset), asset) + PaidOut(scan.paid, asset);
    PayoutsOf(scan.paid, asset)
    + InflowEvents(Credit(Signers(tx.keys), MemoOf(tx.instructions)), TransfersOf(tx.instructions, accounts),
        scan.initialized, inflow, asset)
  }

  /** The events of a transaction; none at all for a failed one. */
  function ParsedEvents(tx: Transaction, accounts: Accounts): Option<seq<Event>> {
    if tx.succeeded then Some(EventsFor(tx, accounts, SOL) + EventsFor(tx, accounts, USDC)) else None
  }

  method ParseSupportTx(tx: Transaction, accounts: Accounts) returns (parsed: Option<seq<Event>>)
    ensures parsed == ParsedEvents(tx, accounts)
  {
    hide InflowEvents, PayoutsOf, PaidOut, BalanceDelta, Signers, MemoOf, TransfersOf, ScanFrom, AccountOf;
    if !tx.succeeded { return None; }
    var credit := Credit(Signers(tx.keys), MemoOf(tx.instructions));
    var paid, initialized := SplitterEvents(tx.logs, accounts.programId);
    var transfers := TransfersIntoVault(tx.instructions, accounts);
    var events: seq<Event> := [];
    for a := 0 to 2
      invariant events == (if a == 0 then [] else if a == 1 then EventsFor(tx, accounts, SOL)
                           else EventsFor(tx, accounts, SOL) + EventsFor(tx, accounts, USDC))
    {
      var asset := [SOL, USDC][a];
      var payouts, paidOut := PushPayouts(paid, asset);
      var inflow := BalanceDelta(tx, AccountOf(accounts, asset), asset) + paidOut;
      var inflows := PushInflow(credit, transfers, initialized, inflow, asset);
      events := events + (payouts + inflows);
    }
    parsed := Some(events);
  }

  method PushPayouts(paid: seq<Paid>, asset: Asset) returns (events: seq<Event>, paidOut: int)
    ensures events == PayoutsOf(paid, asset) && paidOut == PaidOut(paid, asset)
  {
    events, paidOut := [], 0;
    for k := 0 to |paid|
      invariant events == PayoutsOf(paid[..k], asset)
      invariant paidOut == PaidOut(paid[..k], asset)
    {
      assert paid[..k + 1][..k] == paid[..k];
      if paid[k].asset == asset {
        paidOut := paidOut + paid[k].amount;
        events := events + [Event(Payout, asset, paid[k].amount, None, None, Some(paid[k].side))];
      }
    }
    assert paid[..|paid|] == paid;
  }

  method PushInflow(credit: Credit, transfers: seq<Transfer>, initialized: bool, inflow: int, asset: Asset)
      returns (events: seq<Event>)
    ensures events == InflowEvents(credit, transfers, initialized, inflow, asset)
  {
    hide ContributionOf;
    if inflow < 0 { return [Unnamed(Anomaly, asset, -inflow)]; }
    if inflow == 0 { return []; }
    if initialized && asset == SOL { return [Unnamed(Funding, asset, inflow)]; }
    var attributed := 0;
    for k := 0 to |transfers|
      invariant attributed == Attributed(transfers[..k], asset)
    {
      assert transfers[..k + 1][..k] == transfers[..k];
      if transfers[k].asset == asset { attributed := attributed + transfers[k].amount; }
    }
    assert transfers[..|transfers|] == transfers;
    if attributed > inflow { return [Unnamed(Contribution, asset, inflow)]; }
    events := [];
    for k := 0 to |transfers|
      invariant events == ContributionsOf(credit, transfers[..k], asset)
    {
      assert transfers[..k + 1][..k] == transfers[..k];
      if transfers[k].asset == asset && transfers[k].amount != 0 {
        events := events + [ContributionOf(credit, transfers[k])];
      }
    }
    if inflow > attributed { events := events + [Unnamed(Contribution, asset, inflow - attributed)]; }
  }

  // ---------- who is credited ----------

  /**
   * Only contributions carry names and notes. A note, and hiding behind it, belong to a signer; a
   * USDC contribution names nobody who did not sign; a hidden signer is never named.
   */
  ghost predicate CreditIsDue(e: Event, credit: Credit) {
    && (e.kind != Contribution ==> e.donor == None && e.note == None)
    && (e.kind == Contribution ==> e.amount > 0)
    && (e.asset == USDC && e.donor.Some? ==> e.donor.value in credit.signers)
    && (e.note.Some? ==>
          && credit.memo.Some? && credit.memo.value.note == e.note
          && if e.donor.Some? then e.donor.value in credit.signers else credit.memo.value.anon)
    && (credit.memo.Some? && credit.memo.value.anon && e.donor.Some? ==> e.donor.value !in credit.signers)
  }

  lemma {:induction false} ContributionsAreDue(credit: Credit, transfers: seq<Transfer>, asset: Asset)
    ensures forall e :: e in ContributionsOf(credit, transfers, asset) ==> CreditIsDue(e, credit)
  {
    if transfers != [] { ContributionsAreDue(credit, transfers[..|transfers| - 1], asset); }
  }

  lemma {:induction false} PayoutsAreDue(credit: Credit, paid: seq<Paid>, asset: Asset)
    ensures forall e :: e in PayoutsOf(paid, asset) ==> CreditIsDue(e, credit)
  {
    if paid != [] { PayoutsAreDue(credit, paid[..|paid| - 1], asset); }
  }

  /** Every event of a parsed transaction credits by that rule. */
  lemma CreditsAreDue(tx: Transaction, accounts: Accounts, e: Event)
    requires tx.succeeded && e in ParsedEvents(tx, accounts).value
    ensures CreditIsDue(e, Credit(Signers(tx.keys), MemoOf(tx.instructions)))
  {
    hide PayoutsOf, ContributionsOf, ScanFrom, PaidOut, BalanceDelta, Attributed, TransfersOf, MemoOf, Signers;
    var credit := Credit(Signers(tx.keys), MemoOf(tx.instructions));
    var scan, transfers := ScanFrom(START, tx.logs, accounts.programId), TransfersOf(tx.instructions, accounts);
    forall asset: Asset ensures forall x :: x in EventsFor(tx, accounts, asset) ==> CreditIsDue(x, credit) {
      PayoutsAreDue(credit, scan.paid, asset);
      ContributionsAreDue(credit, transfers, asset);
    }
  }

  // ---------- one transaction balances ----------

  /** How much an event adds to what the ledger says the vault holds. */
  function Worth(e: Event, asset: Asset): int {
    if e.asset != asset then 0
    else match e.kind
      case Contribution => e.amount
      case Funding => e.amount
      case Payout => -e.amount
      case Anomaly => -e.amount
  }

  function Net(events: seq<Event>, asset: Asset): int {
    if events == [] then 0 else Worth(events[0], asset) + Net(events[1..], asset)
  }

  lemma {:induction false} NetConcat(a: seq<Event>, b: seq<Event>, asset: Asset)
    ensures Net(a + b, asset) == Net(a, asset) + Net(b, asset)
  {
    if a == [] {
      assert a + b == b;
    } else {
      assert (a + b)[1..] == a[1..] + b;
      NetConcat(a[1..], b, asset);
    }
  }

  lemma {:induction false} NetOfPayouts(paid: seq<Paid>, asset: Asset, of: Asset)
    ensures Net(PayoutsOf(paid, asset), of) == if of == asset then -PaidOut(paid, asset) else 0
  {
    if paid != [] {
      NetOfPayouts(paid[..|paid| - 1], asset, of);
      NetConcat(PayoutsOf(paid[..|paid| - 1], asset), PayoutOf(paid[|paid| - 1], asset), of);
    }
  }

  lemma {:induction false} NetOfContributions(credit: Credit, transfers: seq<Transfer>, asset: Asset, of: Asset)
    ensures Net(ContributionsOf(credit, transfers, asset), of)
            == if of == asset then Attributed(transfers, asset) else 0
  {
    if transfers != [] {
      var rest, t := transfers[..|transfers| - 1], transfers[|transfers| - 1];
      NetOfContributions(credit, rest, asset, of);
      NetConcat(ContributionsOf(credit, rest, asset),
                if t.asset == asset && t.amount != 0 then [ContributionOf(credit, t)] else [], of);
    }
  }

  lemma NetOfInflow(credit: Credit, transfers: seq<Transfer>, initialized: bool, inflow: int, asset: Asset, of: Asset)
    ensures Net(InflowEvents(credit, transfers, initialized, inflow, asset), of) == if of == asset then inflow else 0
  {
    hide ContributionsOf, Attributed;
    var attributed := Attributed(transfers, asset);
    NetOfContributions(credit, transfers, asset, of);
    NetConcat(ContributionsOf(credit, transfers, asset),
              if inflow > attributed then [Unnamed(Contribution, asset, inflow - attributed)] else [], of);
  }

  /** For each asset, the events of a transaction add up to the change of the vault's balance. */
  lemma TransactionBalances(tx: Transaction, accounts: Accounts, asset: Asset)
    requires tx.succeeded
    ensures Net(ParsedEvents(tx, accounts).value, asset) == BalanceDelta(tx, AccountOf(accounts, asset), asset)
  {
    EventsForBalance(tx, accounts, SOL, asset);
    EventsForBalance(tx, accounts, USDC, asset);
    NetConcat(EventsFor(tx, accounts, SOL), EventsFor(tx, accounts, USDC), asset);
  }

  lemma EventsForBalance(tx: Transaction, accounts: Accounts, asset: Asset, of: Asset)
    ensures Net(EventsFor(tx, accounts, asset), of)
         == if of == asset then BalanceDelta(tx, AccountOf(accounts, asset), asset) else 0
  {
    hide BalanceDelta, InflowEvents, PayoutsOf, PaidOut, ScanFrom, AccountOf;
    var scan := ScanFrom(START, tx.logs, accounts.programId);
    var credit := Credit(Signers(tx.keys), MemoOf(tx.instructions));
    var transfers := TransfersOf(tx.instructions, accounts);
    var inflow := BalanceDelta(tx, AccountOf(accounts, asset), asset) + PaidOut(scan.paid, asset);
    NetOfPayouts(scan.paid, asset, of);
    NetOfInflow(credit, transfers, scan.initialized, inflow, asset, of);
    NetConcat(PayoutsOf(scan.paid, asset), InflowEvents(credit, transfers, scan.initialized, inflow, asset), of);
  }

  // ---------- stored rows ----------

  datatype Row = Row(signature: Signature, slot: nat, blockTime: Option<nat>, index: nat, event: Event)

  function RowsOf(rows: seq<Row>, signature: Signature): seq<Row> {
    if rows == [] then []
    else RowsOf(rows[..|rows| - 1], signature) + if rows[|rows| - 1].signature == signature then [rows[|rows| - 1]]
      else []
  }

  function Without(rows: seq<Row>, signature: Signature): seq<Row> {
    if rows == [] then []
    else Without(rows[..|rows| - 1], signature) + if rows[|rows| - 1].signature != signature then [rows[|rows| - 1]]
      else []
  }

  /** The rows a transaction is stored as. */
  function RowsFor(tx: Transaction, events: seq<Event>): (rows: seq<Row>)
    ensures |rows| == |events|
    ensures forall row :: row in rows ==> row.signature == tx.signature
  {
    seq(|events|, i requires 0 <= i < |events| => Row(tx.signature, tx.slot, tx.blockTime, i, events[i]))
  }

  function NetRows(rows: seq<Row>, asset: Asset): int {
    if rows == [] then 0 else NetRows(rows[..|rows| - 1], asset) + Worth(rows[|rows| - 1].event, asset)
  }

  /** The table behind the public summary. */
  class EventTable {
    var rows: seq<Row>

    constructor ()
      ensures rows == []
    {
      rows := [];
    }

    /** Re-ingesting a signature replaces its rows. */
    method Upsert(tx: Transaction, events: seq<Event>)
      modifies this
      ensures rows == Without(old(rows), tx.signature) + RowsFor(tx, events)
    {
      var kept: seq<Row> := [];
      for k := 0 to |rows|
        invariant rows == old(rows)
        invariant kept == Without(rows[..k], tx.signature)
      {
        assert rows[..k + 1][..k] == rows[..k];
        if rows[k].signature != tx.signature { kept := kept + [rows[k]]; }
      }
      assert rows[..|rows|] == rows;
      rows := kept;
      for index := 0 to |events|
        invariant rows == kept + RowsFor(tx, events)[..index]
      {
        rows := rows + [Row(tx.signature, tx.slot, tx.blockTime, index, events[index])];
      }
      assert RowsFor(tx, events)[..|events|] == RowsFor(tx, events);
    }
  }

  lemma {:induction false} NetOfRowsFor(tx: Transaction, events: seq<Event>, asset: Asset)
    ensures NetRows(RowsFor(tx, events), asset) == Net(events, asset)
  {
    if events != [] {
      var init := events[..|events| - 1];
      NetOfRowsFor(tx, init, asset);
      assert RowsFor(tx, events)[..|init|] == RowsFor(tx, init);
      assert events == init + [events[|init|]];
      NetConcat(init, [events[|init|]], asset);
    }
  }

  lemma NetAppend(rows: seq<Row>, row: Row, asset: Asset)
    ensures NetRows(rows + [row], asset) == NetRows(rows, asset) + Worth(row.event, asset)
  {
    assert (rows + [row])[..|rows|] == rows;
  }

  lemma RowsOfAppend(rows: seq<Row>, row: Row, signature: Signature)
    ensures RowsOf(rows + [row], signature)
            == RowsOf(rows, signature) + if row.signature == signature then [row] else []
  {
    assert (rows + [row])[..|rows|] == rows;
  }

  lemma WithoutAppend(rows: seq<Row>, row: Row, signature: Signature)
    ensures Without(rows + [row], signature)
            == Without(rows, signature) + if row.signature != signature then [row] else []
  {
    assert (rows + [row])[..|rows|] == rows;
  }

  /** A table's net is one signature's net plus the rest's. */
  lemma {:induction false} NetSplits(rows: seq<Row>, signature: Signature, asset: Asset)
    ensures NetRows(rows, asset) == NetRows(Without(rows, signature), asset) + NetRows(RowsOf(rows, signature), asset)
  {
    if rows != [] {
      hide NetRows, RowsOf, Without, Worth;
      var init, last := rows[..|rows| - 1], rows[|rows| - 1];
      NetSplits(init, signature, asset);
      assert rows == init + [last];
      NetAppend(init, last, asset);
      RowsOfAppend(init, last, signature);
      WithoutAppend(init, last, signature);
      NetAppend(RowsOf(init, signature), last, asset);
      NetAppend(Without(init, signature), last, asset);
      assert RowsOf(init, signature) + [] == RowsOf(init, signature);
      assert Without(init, signature) + [] == Without(init, signature);
    }
  }

  lemma {:induction false} RowsOfConcat(a: seq<Row>, b: seq<Row>, signature: Signature)
    ensures RowsOf(a + b, signature) == RowsOf(a, signature) + RowsOf(b, signature)
  {
    if b == [] {
      assert a + b == a;
    } else {
      assert (a + b)[..|a + b| - 1] == a + b[..|b| - 1];
      RowsOfConcat(a, b[..|b| - 1], signature);
    }
  }

  lemma {:induction false} RowsOfSame(rows: seq<Row>, signature: Signature)
    ensures (forall row :: row in rows ==> row.signature == signature) ==> RowsOf(rows, signature) == rows
    ensures (forall row :: row in rows ==> row.signature != signature) ==> RowsOf(rows, signature) == []
  {
    if rows != [] {
      RowsOfSame(rows[..|rows| - 1], signature);
      assert rows[|rows| - 1] in rows;
      assert rows == rows[..|rows| - 1] + [rows[|rows| - 1]];
    }
  }

  lemma {:induction false} RowsOfWithout(rows: seq<Row>, signature: Signature, other: Signature)
    ensures RowsOf(Without(rows, signature), other) == if other == signature then [] else RowsOf(rows, other)
  {
    if rows != [] {
      var init, last := rows[..|rows| - 1], rows[|rows| - 1];
      RowsOfWithout(init, signature, other);
      hide RowsOf, Without;
      assert rows == init + [last];
      RowsOfAppend(init, last, other);
      WithoutAppend(init, last, signature);
      RowsOfAppend(Without(init, signature), last, other);
      assert Without(init, signature) + [] == Without(init, signature);
      assert RowsOf(init, other) + [] == RowsOf(init, other);
    }
  }

  /** After ingesting, the signature has exactly these rows and every other signature keeps its own. */
  lemma UpsertReplaces(rows: seq<Row>, tx: Transaction, events: seq<Event>, signature: Signature)
    ensures RowsOf(Without(rows, tx.signature) + RowsFor(tx, events), signature)
         == if signature == tx.signature then RowsFor(tx, events) else RowsOf(rows, signature)
  {
    RowsOfConcat(Without(rows, tx.signature), RowsFor(tx, events), signature);
    RowsOfWithout(rows, tx.signature, signature);
    RowsOfSame(RowsFor(tx, events), signature);
  }

  // ---------- the public totals ----------

  datatype Totals = Totals(contributed: int, paidA: int, paidB: int)

  predicate CountsAs(e: Event, asset: Asset, kind: Kind) { e.asset == asset && e.kind == kind }

  function SumOf(rows: seq<Row>, asset: Asset, kind: Kind): int {
    if rows == [] then 0
    else
      var e := rows[|rows| - 1].event;
      SumOf(rows[..|rows| - 1], asset, kind) + if CountsAs(e, asset, kind) then e.amount else 0
  }

  function SumOfSide(rows: seq<Row>, asset: Asset, sideA: bool): int {
    if rows == [] then 0
    else
      var e := rows[|rows| - 1].event;
      SumOfSide(rows[..|rows| - 1], asset, sideA)
          + if CountsAs(e, asset, Payout) && (e.side == Some(A)) == sideA then e.amount else 0
  }

  function TotalsOf(rows: seq<Row>, asset: Asset): Totals {
    Totals(SumOf(rows, asset, Contribution), SumOfSide(rows, asset, true), SumOfSide(rows, asset, false))
  }

  method Summarize(rows: seq<Row>) returns (sol: Totals, usdc: Totals)
    ensures sol == TotalsOf(rows, SOL) && usdc == TotalsOf(rows, USDC)
  {
    sol, usdc := Totals(0, 0, 0), Totals(0, 0, 0);
    for k := 0 to |rows|
      invariant sol == TotalsOf(rows[..k], SOL) && usdc == TotalsOf(rows[..k], USDC)
    {
      assert rows[..k + 1][..k] == rows[..k];
      var e := rows[k].event;
      var t := if e.asset == SOL then sol else usdc;
      if e.kind == Contribution { t := t.(contributed := t.contributed + e.amount); }
      if e.kind == Payout {
        if e.side == Some(A) { t := t.(paidA := t.paidA + e.amount); } else { t := t.(paidB := t.paidB + e.amount); }
      }
      if e.asset == SOL { sol := t; } else { usdc := t; }
    }
    assert rows[..|rows|] == rows;
  }

  /** The published totals, with funding and anomalies, are the ledger's net. */
  lemma {:induction false} TotalsAreNet(rows: seq<Row>, asset: Asset)
    ensures var t := TotalsOf(rows, asset);
      NetRows(rows, asset) == t.contributed + SumOf(rows, asset, Funding) - SumOf(rows, asset, Anomaly) - t.paidA - t.paidB
  {
    if rows != [] { TotalsAreNet(rows[..|rows| - 1], asset); }
  }
}
