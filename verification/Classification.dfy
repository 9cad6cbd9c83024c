/**
 * What the events of one parsed transaction are, kind by kind, in terms of its log, its balances and
 * its transfers (`convex/supportParse.ts`).
 */
module Classification {
  import opened Common
  import opened Rows
  import opened LogScan
  import opened Ledger

  // ---------- what the transaction shows ----------

  function OfKind(asset: Asset, kind: Kind): Event -> bool { (e: Event) => e.asset == asset && e.kind == kind }

  function OnAsset(asset: Asset): Paid -> bool { (p: Paid) => p.asset == asset }

  function MovedOn(asset: Asset): Transfer -> bool { (t: Transfer) => t.asset == asset && t.amount != 0 }

  /** The events of one kind and asset, in order. */
  function Of(events: seq<Event>, asset: Asset, kind: Kind): seq<Event> {
    Keep(events, OfKind(asset, kind))
  }

  function ScanOf(tx: Transaction, accounts: Accounts): Scan { ScanFrom(LogScan.START, tx.logs, accounts.programId) }

  /** The payouts of an asset that the splitter itself logged. */
  function Scanned(tx: Transaction, accounts: Accounts, asset: Asset): seq<Paid> {
    Keep(ScanOf(tx, accounts).paid, OnAsset(asset))
  }

  function TotalPaid(paid: seq<Paid>): int {
    if paid == [] then 0 else TotalPaid(paid[..|paid| - 1]) + paid[|paid| - 1].amount
  }

  /** What came in: the change of the balance and whatever went out again. */
  function Inflow(tx: Transaction, accounts: Accounts, asset: Asset): int {
    BalanceDelta(tx, if asset == SOL then accounts.vault else accounts.vaultUsdc, asset)
    + TotalPaid(Scanned(tx, accounts, asset))
  }

  function Initialized(tx: Transaction, accounts: Accounts): bool { ScanOf(tx, accounts).initialized }

  function Moved(tx: Transaction, accounts: Accounts): seq<Transfer> { TransfersOf(tx.instructions, accounts) }

  /** The nonzero transfers of an asset into the vault, in order. */
  function Mine(tx: Transaction, accounts: Accounts, asset: Asset): seq<Transfer> {
    Keep(Moved(tx, accounts), MovedOn(asset))
  }

  function TotalMoved(transfers: seq<Transfer>): int {
    if transfers == [] then 0 else TotalMoved(transfers[..|transfers| - 1]) + transfers[|transfers| - 1].amount
  }

  function TotalAmount(events: seq<Event>): int {
    if events == [] then 0 else TotalAmount(events[..|events| - 1]) + events[|events| - 1].amount
  }

  /** The event credits the transfer: to its signing donor, unless hidden, with the memo's note. */
  ghost predicate Credits(e: Event, t: Transfer, signers: set<Address>, memo: Option<Memo>) {
    && e.amount == t.amount
    && (t.donor == None ==> e.donor == None && e.note == None)
    && (t.donor.Some? && t.donor.value in signers ==> CreditsSigner(e, t.donor.value, memo))
    && (t.donor.Some? && t.donor.value !in signers && t.asset == SOL ==> e.donor == t.donor && e.note == None)
    && (t.donor.Some? && t.donor.value !in signers && t.asset == USDC ==>
          // A swapped tip comes from a pool: it is the single signer's if the memo says so, else nobody's.
          if memo.Some? && memo.value.support && |signers| == 1 then
            exists s :: signers == {s} && CreditsSigner(e, s, memo)
          else e.donor == None && e.note == None)
  }

  ghost predicate CreditsSigner(e: Event, signer: Address, memo: Option<Memo>) {
    && e.donor == (if memo.Some? && memo.value.anon then None else Some(signer))
    && e.note == (if memo.Some? then memo.value.note else None)
  }

  // ---------- the parts of the list ----------

  lemma {:induction false} PayoutsHave(paid: seq<Paid>, asset: Asset)
    ensures forall e :: e in PayoutsOf(paid, asset) ==> e.kind == Payout && e.asset == asset
  {
    if paid != [] { PayoutsHave(paid[..|paid| - 1], asset); }
  }

  lemma {:induction false} ContributionsHave(credit: Credit, transfers: seq<Transfer>, asset: Asset)
    ensures forall e :: e in ContributionsOf(credit, transfers, asset) ==> e.kind == Contribution && e.asset == asset
  {
    if transfers != [] { ContributionsHave(credit, transfers[..|transfers| - 1], asset); }
  }

  lemma InflowsHave(credit: Credit, transfers: seq<Transfer>, initialized: bool, inflow: int, asset: Asset)
    ensures forall e :: e in InflowEvents(credit, transfers, initialized, inflow, asset) ==>
              e.kind != Payout && e.asset == asset
  {
    ContributionsHave(credit, transfers, asset);
    hide ContributionsOf, Attributed;
  }

  function CreditOf(tx: Transaction): Credit { Credit(Signers(tx.keys), MemoOf(tx.instructions)) }

  function PaidFor(tx: Transaction, accounts: Accounts, asset: Asset): seq<Event> {
    PayoutsOf(ScanOf(tx, accounts).paid, asset)
  }

  function CameIn(tx: Transaction, accounts: Accounts, asset: Asset): seq<Event> {
    InflowEvents(CreditOf(tx), Moved(tx, accounts), Initialized(tx, accounts), Inflow(tx, accounts, asset), asset)
  }

  lemma OfAppend(xs: seq<Event>, ys: seq<Event>, asset: Asset, kind: Kind)
    ensures Of(xs + ys, asset, kind) == Of(xs, asset, kind) + Of(ys, asset, kind)
  {
    KeepAppend(xs, ys, OfKind(asset, kind));
  }

  lemma OfAll(xs: seq<Event>, asset: Asset, kind: Kind)
    requires forall e :: e in xs ==> e.asset == asset && e.kind == kind
    ensures Of(xs, asset, kind) == xs
  {
    KeepAll(xs, OfKind(asset, kind));
  }

  lemma OfNone(xs: seq<Event>, asset: Asset, kind: Kind)
    requires forall e :: e in xs ==> e.asset != asset || e.kind != kind
    ensures Of(xs, asset, kind) == []
  {
    KeepNone(xs, OfKind(asset, kind));
  }

  lemma OfPaidFor(tx: Transaction, accounts: Accounts, a: Asset, asset: Asset, kind: Kind)
    ensures Of(PaidFor(tx, accounts, a), asset, kind)
         == if a == asset && kind == Payout then PaidFor(tx, accounts, a) else []
  {
    PayoutsHave(ScanOf(tx, accounts).paid, a);
    var xs := PaidFor(tx, accounts, a);
    if a == asset && kind == Payout { OfAll(xs, asset, kind); } else { OfNone(xs, asset, kind); }
  }

  lemma OfCameIn(tx: Transaction, accounts: Accounts, a: Asset, asset: Asset, kind: Kind)
    requires a != asset || kind == Payout
    ensures Of(CameIn(tx, accounts, a), asset, kind) == []
  {
    hide InflowEvents;
    InflowsHave(CreditOf(tx), Moved(tx, accounts), Initialized(tx, accounts), Inflow(tx, accounts, a), a);
    OfNone(CameIn(tx, accounts, a), asset, kind);
  }

  lemma EventsForParts(tx: Transaction, accounts: Accounts, a: Asset)
    ensures EventsFor(tx, accounts, a) == PaidFor(tx, accounts, a) + CameIn(tx, accounts, a)
  {
    hide InflowEvents, BalanceDelta;
    PaidOutIsTotal(ScanOf(tx, accounts).paid, a);
  }

  /** The events of a kind are the payouts of the asset, or come from what came in on it. */
  lemma OfParsed(tx: Transaction, accounts: Accounts, asset: Asset, kind: Kind)
    requires tx.succeeded
    ensures Of(ParsedEvents(tx, accounts).value, asset, kind)
         == if kind == Payout then PaidFor(tx, accounts, asset) else Of(CameIn(tx, accounts, asset), asset, kind)
  {
    hide EventsFor, PaidFor, CameIn, Of;
    forall a: Asset ensures Of(EventsFor(tx, accounts, a), asset, kind)
                         == if a != asset then []
                            else if kind == Payout then PaidFor(tx, accounts, asset)
                            else Of(CameIn(tx, accounts, asset), asset, kind)
    {
      EventsForParts(tx, accounts, a);
      OfAppend(PaidFor(tx, accounts, a), CameIn(tx, accounts, a), asset, kind);
      OfPaidFor(tx, accounts, a, asset, kind);
      if a != asset || kind == Payout { OfCameIn(tx, accounts, a, asset, kind); }
    }
    OfAppend(EventsFor(tx, accounts, SOL), EventsFor(tx, accounts, USDC), asset, kind);
  }

  lemma {:induction false} PaidOutIsTotal(paid: seq<Paid>, asset: Asset)
    ensures PaidOut(paid, asset) == TotalPaid(Keep(paid, OnAsset(asset)))
  {
    if paid != [] {
      PaidOutIsTotal(paid[..|paid| - 1], asset);
      var kept := Keep(paid[..|paid| - 1], OnAsset(asset));
      assert (kept + [paid[|paid| - 1]])[..|kept|] == kept && kept + [] == kept;
    }
  }

  // ---------- payouts ----------

  lemma {:induction false} PayoutsAreScanned(paid: seq<Paid>, asset: Asset)
    ensures var scanned := Keep(paid, OnAsset(asset)); var out := PayoutsOf(paid, asset);
      && |out| == |scanned|
      && forall i :: 0 <= i < |out| ==>
           out[i] == Event(Payout, asset, scanned[i].amount, None, None, Some(scanned[i].side))
  {
    if paid != [] { PayoutsAreScanned(paid[..|paid| - 1], asset); }
  }

  /** The payout events are the logged payouts of the asset, in order, each with its own amount and side. */
  lemma PayoutsAsLogged(tx: Transaction, accounts: Accounts, asset: Asset)
    requires tx.succeeded
    ensures var out := Of(ParsedEvents(tx, accounts).value, asset, Payout); var scanned := Scanned(tx, accounts, asset);
      && |out| == |scanned|
      && forall i :: 0 <= i < |out| ==>
           && out[i].amount == scanned[i].amount && out[i].side == Some(scanned[i].side)
           && out[i].donor == None && out[i].note == None
  {
    hide ParsedEvents, ScanOf, Of;
    OfParsed(tx, accounts, asset, Payout);
    PayoutsAreScanned(ScanOf(tx, accounts).paid, asset);
  }

  // ---------- funding and anomalies ----------

  /** A SOL inflow is funding exactly when the log shows the vault being initialized; nothing else ever is. */
  lemma FundingExactly(tx: Transaction, accounts: Accounts, asset: Asset)
    requires tx.succeeded
    ensures var inflow := Inflow(tx, accounts, asset);
            Of(ParsedEvents(tx, accounts).value, asset, Funding) ==
            if asset == SOL && Initialized(tx, accounts) && inflow > 0 then [Event(Funding, SOL, inflow, None, None, None)]
            else []
  {
    InflowsByKind(tx, accounts, asset);
  }

  /** An anomaly is exactly an inflow below zero, by as much. */
  lemma AnomalyExactly(tx: Transaction, accounts: Accounts, asset: Asset)
    requires tx.succeeded
    ensures var inflow := Inflow(tx, accounts, asset);
            Of(ParsedEvents(tx, accounts).value, asset, Anomaly) ==
            if inflow < 0 then [Event(Anomaly, asset, -inflow, None, None, None)] else []
  {
    InflowsByKind(tx, accounts, asset);
  }

  lemma InflowsByKind(tx: Transaction, accounts: Accounts, asset: Asset)
    requires tx.succeeded
    ensures var inflow := Inflow(tx, accounts, asset); var events := ParsedEvents(tx, accounts).value;
            var moved := Attributed(Moved(tx, accounts), asset);
            var funded := asset == SOL && Initialized(tx, accounts) && inflow > 0;
      && Of(events, asset, Anomaly) == (if inflow < 0 then [Unnamed(Anomaly, asset, -inflow)] else [])
      && Of(events, asset, Funding) == (if funded then [Unnamed(Funding, asset, inflow)] else [])
      && Of(events, asset, Contribution) ==
         if inflow <= 0 || funded then []
         else if moved > inflow then [Unnamed(Contribution, asset, inflow)]
         else ContributionsOf(CreditOf(tx), Moved(tx, accounts), asset)
              + if inflow > moved then [Unnamed(Contribution, asset, inflow - moved)] else []
  {
    OfParsed(tx, accounts, asset, Anomaly);
    OfParsed(tx, accounts, asset, Funding);
    OfParsed(tx, accounts, asset, Contribution);
    hide ParsedEvents, Moved, Inflow, Initialized, CreditOf, ContributionsOf, Attributed, Of, OfKind;
    ContributionsHave(CreditOf(tx), Moved(tx, accounts), asset);
    var xs := CameIn(tx, accounts, asset);
    var kind := if Inflow(tx, accounts, asset) < 0 then Anomaly
                else if asset == SOL && Initialized(tx, accounts) then Funding else Contribution;
    assert forall e :: e in xs ==> e.asset == asset && e.kind == kind;
    OfAll(xs, asset, kind);
    if kind != Anomaly { OfNone(xs, asset, Anomaly); }
    if kind != Funding { OfNone(xs, asset, Funding); }
    if kind != Contribution { OfNone(xs, asset, Contribution); }
  }

  // ---------- contributions ----------

  lemma {:induction false} AttributedIsMoved(transfers: seq<Transfer>, asset: Asset)
    ensures Attributed(transfers, asset) == TotalMoved(Keep(transfers, MovedOn(asset)))
  {
    if transfers != [] {
      var init, last := transfers[..|transfers| - 1], transfers[|transfers| - 1];
      AttributedIsMoved(init, asset);
      var kept := Keep(init, MovedOn(asset));
      assert (kept + [last])[..|kept|] == kept && kept + [] == kept;
    }
  }

  lemma OneCredits(tx: Transaction, t: Transfer)
    ensures Credits(ContributionOf(CreditOf(tx), t), t, set k | k in tx.keys && k.signer :: k.pubkey, MemoOf(tx.instructions))
  {
    hide MemoOf;
    var signers := set k | k in tx.keys && k.signer :: k.pubkey;
    assert CreditOf(tx).signers == signers;
    var e := ContributionOf(CreditOf(tx), t);
    if t.donor.Some? && t.donor.value !in signers && t.asset == USDC && |signers| == 1 {
      var s := TheOne(signers);
      assert signers == {s} && s in signers;
    }
  }

  lemma {:induction false} ContributionsCredit(tx: Transaction, transfers: seq<Transfer>, asset: Asset)
    ensures var cs := ContributionsOf(CreditOf(tx), transfers, asset);
            var mine := Keep(transfers, MovedOn(asset));
            var signers := set k | k in tx.keys && k.signer :: k.pubkey;
      && |cs| == |mine| && TotalAmount(cs) == TotalMoved(mine)
      && forall i :: 0 <= i < |cs| ==> Credits(cs[i], mine[i], signers, MemoOf(tx.instructions))
  {
    hide ContributionOf, CreditOf, Credits, MemoOf;
    if transfers != [] {
      var init, last := transfers[..|transfers| - 1], transfers[|transfers| - 1];
      ContributionsCredit(tx, init, asset);
      var cs, mine := ContributionsOf(CreditOf(tx), init, asset), Keep(init, MovedOn(asset));
      if last.asset == asset && last.amount != 0 {
        OneCredits(tx, last);
        AmountOf(CreditOf(tx), last);
        assert (cs + [ContributionOf(CreditOf(tx), last)])[..|cs|] == cs;
        assert (mine + [last])[..|mine|] == mine;
      } else {
        assert cs + [] == cs && mine + [] == mine;
        assert ContributionsOf(CreditOf(tx), transfers, asset) == cs && Keep(transfers, MovedOn(asset)) == mine;
      }
    }
  }

  lemma AmountOf(credit: Credit, t: Transfer)
    ensures ContributionOf(credit, t).amount == t.amount
  {
  }

  /**
   * Otherwise an inflow is contributed, all of it. If the transfers do not exceed it they are credited
   * one by one, in order, and the rest to nobody; if they claim more, it is all credited to nobody.
   */
  lemma ContributionsExactly(tx: Transaction, accounts: Accounts, asset: Asset)
    requires tx.succeeded
    ensures var cs := Of(ParsedEvents(tx, accounts).value, asset, Contribution);
            var inflow := Inflow(tx, accounts, asset); var mine := Mine(tx, accounts, asset);
            var signers := set k | k in tx.keys && k.signer :: k.pubkey;
            if inflow <= 0 || (asset == SOL && Initialized(tx, accounts)) then cs == []
            else
              && TotalAmount(cs) == inflow
              && (TotalMoved(mine) > inflow ==> cs == [Event(Contribution, asset, inflow, None, None, None)])
              && (TotalMoved(mine) <= inflow ==>
                    && |cs| == |mine| + (if TotalMoved(mine) < inflow then 1 else 0)
                    && (forall i :: 0 <= i < |mine| ==> Credits(cs[i], mine[i], signers, MemoOf(tx.instructions)))
                    && (TotalMoved(mine) < inflow ==>
                          cs[|mine|] == Event(Contribution, asset, inflow - TotalMoved(mine), None, None, None)))
  {
    hide ParsedEvents, Moved, Inflow, Initialized, Of, Credits, CreditOf;
    hide ContributionsOf, Attributed, TotalAmount, TotalMoved, Keep, MemoOf;
    var transfers := Moved(tx, accounts);
    InflowsByKind(tx, accounts, asset);
    AttributedIsMoved(transfers, asset);
    ContributionsCredit(tx, transfers, asset);
    var cs := ContributionsOf(CreditOf(tx), transfers, asset);
    TotalWith([], Unnamed(Contribution, asset, Inflow(tx, accounts, asset)));
    TotalWith(cs, Unnamed(Contribution, asset, Inflow(tx, accounts, asset) - Attributed(transfers, asset)));
    assert cs + [] == cs;
  }

  lemma TotalWith(events: seq<Event>, e: Event)
    ensures TotalAmount(events + [e]) == TotalAmount(events) + e.amount
    ensures events == [] ==> events + [e] == [e] && TotalAmount(events) == 0
  {
    assert (events + [e])[..|events|] == events;
  }

  // ---------- reading the instructions ----------

  /** The memo is the first one in the instructions. */
  lemma {:induction false} MemoIsFirst(ixs: seq<Instruction>)
    ensures MemoOf(ixs) == None <==> forall i :: 0 <= i < |ixs| ==> !ixs[i].MemoText?
    ensures MemoOf(ixs).Some? ==>
              exists i :: 0 <= i < |ixs| && ixs[i] == MemoText(MemoOf(ixs).value)
                          && forall j :: 0 <= j < i ==> !ixs[j].MemoText?
  {
    if ixs != [] && !ixs[0].MemoText? {
      MemoIsFirst(ixs[1..]);
      assert forall j :: 0 < j < |ixs| ==> ixs[j] == ixs[1..][j - 1];
      if MemoOf(ixs).Some? {
        var i :| 0 <= i < |ixs[1..]| && ixs[1..][i] == MemoText(MemoOf(ixs).value)
                 && forall j :: 0 <= j < i ==> !ixs[1..][j].MemoText?;
        assert ixs[i + 1] == MemoText(MemoOf(ixs).value);
      }
    }
  }

  /** Transfers are read off the instructions one after another, each to the vault account of its own asset. */
  lemma TransfersGrow(ixs: seq<Instruction>, ix: Instruction, accounts: Accounts)
    ensures TransfersOf([], accounts) == []
    ensures TransfersOf(ixs + [ix], accounts) == TransfersOf(ixs, accounts) +
            if ix.SystemTransfer? && ix.destination == accounts.vault then [Transfer(SOL, ix.source, ix.lamports)]
            else if ix.TokenTransfer? && ix.destination == accounts.vaultUsdc then [Transfer(USDC, ix.authority, ix.amount)]
            else []
  {
    assert (ixs + [ix])[..|ixs|] == ixs;
  }

  // ---------- reading the balances ----------

  /** The amount of the first entry for an account index, or zero. */
  lemma {:induction false} TokensRead(list: seq<TokenBalance>, index: nat, k: nat)
    ensures (forall j :: 0 <= j < |list| ==> list[j].accountIndex != index) ==> TokensAt(list, index) == 0
    ensures k < |list| && list[k].accountIndex == index && (forall j :: 0 <= j < k ==> list[j].accountIndex != index) ==>
              TokensAt(list, index) == list[k].amount
  {
    if list != [] && list[0].accountIndex != index {
      assert forall j :: 0 < j < |list| ==> list[j] == list[1..][j - 1];
      if k > 0 { TokensRead(list[1..], index, k - 1); } else { TokensRead(list[1..], index, 0); }
    }
  }

  /** The change is what the first key with the address holds after, less what it held before. */
  lemma {:induction false} BalancesRead(tx: Transaction, address: Address, i: nat)
    requires i < |tx.keys| && tx.keys[i].pubkey == address && forall j :: 0 <= j < i ==> tx.keys[j].pubkey != address
    ensures BalanceDelta(tx, address, SOL)
         == (if i < |tx.postBalances| then tx.postBalances[i] else 0)
             - (if i < |tx.preBalances| then tx.preBalances[i] else 0)
    ensures BalanceDelta(tx, address, USDC) == TokensAt(tx.postTokens, i) - TokensAt(tx.preTokens, i)
  {
    FirstKey(tx.keys, address, i);
    hide TokensAt;
  }

  lemma {:induction false} FirstKey(keys: seq<AccountKey>, address: Address, i: nat)
    requires i < |keys| && keys[i].pubkey == address && forall j :: 0 <= j < i ==> keys[j].pubkey != address
    ensures KeyIndex(keys, address) == i
  {
    if i > 0 { FirstKey(keys[1..], address, i - 1); }
  }

  lemma {:induction false} UnmentionedHoldsNothing(tx: Transaction, address: Address, asset: Asset)
    requires forall j :: 0 <= j < |tx.keys| ==> tx.keys[j].pubkey != address
    ensures BalanceDelta(tx, address, asset) == 0
  {
  }

  // ---------- totals ----------

  /** Each row goes into exactly one published sum: contributions, or payouts of its own side. */
  lemma TotalsGrow(rows: seq<Row>, row: Row, asset: Asset)
    ensures TotalsOf([], asset) == Totals(0, 0, 0)
    ensures var e := row.event; var t := TotalsOf(rows, asset);
            TotalsOf(rows + [row], asset) ==
            if e.asset != asset then t
            else if e.kind == Contribution then Totals(t.contributed + e.amount, t.paidA, t.paidB)
            else if e.kind == Payout && e.side == Some(A) then Totals(t.contributed, t.paidA + e.amount, t.paidB)
            else if e.kind == Payout then Totals(t.contributed, t.paidA, t.paidB + e.amount)
            else t
  {
    assert (rows + [row])[..|rows|] == rows;
  }
}
