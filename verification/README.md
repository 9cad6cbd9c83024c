# ChainPay relay and store: a Dafny model

This project models the stateful and arithmetic core of the ChainPay repository and proves what
that core is for. It covers:

- the **support-vault indexer**: a wire reader and base-58 encoder for the browser relay, a scanner
  that recovers program events from a transaction's log, a classifier that turns balance changes
  into ledger rows, and a resumable walk over a growing, newest-first history;
- the **payment settlement protocol**: any number of relay workers submitting, retrying,
  reconciling, recovering and cancelling payments over one store with first-write-wins claims;
- the **webhook outbox and lease queue**: events written with the confirming write, deliveries
  leased with tokens, retried, exhausted, redelivered and disabled, and the pager that backfills;
- **canonical timestamps** and the civil calendar under them;
- the **community pet**, a world that decays lazily, and the **rate buckets** that are swept while
  they count.

Each store mutation is one atomic step. Hashes are injective, so ids made by hashing are
constructors over what was hashed, and a claim binds the message itself rather than its digest.
The clock, the chain, the node, the signing provider and the random lease tokens are parameters of
the steps; nothing is assumed about the node's answers beyond what each lemma's `requires` says.

| file | what it holds |
|---|---|
| `Common`, `Rows` | options, division facts; table rows by number, ordered index reads, bounded reads |
| `Calendar`, `Timestamp` | civil dates and day numbers; printing and parsing canonical UTC times |
| `Base58`, `Wire` | the in-place base conversion and its decoder; the transaction reader and its layouts |
| `LogScan`, `Ledger`, `Classification`, `Indexer`, `IndexerGap` | log scanning, classification and totals, what each kind of event says, the cursor walk and its runs, a run that skips |
| `Records` | the runtime write rules of stored records |
| `Settlement`, `SettlementRules`, `SettlementOnce`, `SettlementRace`, `SettlementProgress`, `SettlementStore` | the settlement state machine over interleaved workers; what it decides at each turn and what follows over runs; when bytes are handed over at most once; runs that break each condition; undisturbed submissions and retries; the store calls as methods |
| `Deliveries`, `Leases`, `Webhooks`, `WebhookRules`, `WebhookRuns`, `WebhookFanOut`, `WebhookQueue` | selection, one row's history, the operations, what they decide and write, what every run guarantees, which endpoints an event reaches, the tables as methods |
| `Outbox`, `ConfirmedPaging` | events written with payment writes; paging back through confirmed records |
| `Pet`, `RateBuckets` | lazy decay and the stored row; fixed-window counters under garbage collection |

Where the source loops or updates fields, the model has a method or a class whose contract ties
the result to a specification function, and the theorems are about that function.

## Where the code and its promises differ

- `Pet.ComposesExactlyWhenStable`: advancing in two steps equals advancing in one for all times if
  and only if the world is not low on power with every need above 35. No world the code stores is
  in that state (`Pet.StaysHealthy`), so polls stay invisible; a hand-made world can be.
- `ConfirmedPaging.LosslessExactly`, `WalkCompleteExactly` and `CapCanHide`: beyond 5,000 scanned
  rows a page loses exactly the confirmed rows past the cap that tie with its last time, or all of
  them if the scan met none, and a walk that reads such a page never yields them; a window of
  5,000 unconfirmed rows hides an older confirmed one from every page size.
- `Indexer.AdvanceSoundExactly`, `RunSoundExactly` and `IndexerGap.ARunThatSkips`: an empty answer
  during a backlog walk closes the backlog. If it came from a node that does not know the `before`
  signature, every transaction missing below is skipped; in all other cases none is. The sync loop
  has no guard against it, so one lagging node between two pages is enough.
- `SettlementOnce.HandedOverAtMostOnce`: the promises that a retry never sends again, and that a
  payment is never marked failed while its signature may exist on chain, are kept in every run in
  which (1) at most one worker at a time works on the payment, (2) no recovery of it asks to
  resubmit, and (3) no clock falls behind its stored update time. Then its bytes are handed over at
  most once, and a payment recorded as refused was handed over in the refused send only
  (`RefusedInItsOnlySend`, `FailedWasNotUnderWay`). Each condition is needed: with the other two met
  there are runs that hand the bytes over twice and store the payment failed, when a second worker
  carries the same submission (`SettlementRace.FailedDespiteBroadcast`, where the transaction then
  finalizes and the payment stays failed), when a status poll overlaps
  (`OverlappingPollSendsTwice`), when a recovery resubmits (`ResubmissionSendsTwice`), and when a
  clock is behind (`LateClockSendsTwice`).
- `Settlement.TokenProgramIsNotCompared`: a bound token program is never compared with the receipt.
- `WebhookFanOut.ServedExactly` and `CollisionLosesDelivery`: delivery ids are made of tails that
  may hold underscores, so two (event, endpoint) pairs can share one, and the later pair's delivery
  is not created; nor is one beyond the first 100 endpoints of an owner. Ids minted by the relay
  have one underscore and owners at most 25 endpoints, so there nothing is lost
  (`EveryActiveEndpointServed`).
- The first call to the pet creates it, so the first poll is the one poll that matters
  (`Pet.PollsAreInvisibleFromTheStart`).
- A disabled endpoint's leased delivery may still come back as `retry_scheduled`, and disabling
  drains at most 1,000 rows per state; the rest are stopped when a claim reaches them
  (`WebhookRuns.DisableDrains`, `DisabledForGood`, `LeftoversAreStopped`).

## Model

| member | source | states |
|---|---|---|
| `Calendar.CivilOfDays` | backend/src/delivery.rs:693-715 | `civil_from_days` undoes `days_from_civil` on every valid Gregorian date, of any year |
| `Calendar.DaysOfCivil` | backend/src/delivery.rs:693-715 | `days_from_civil` undoes `civil_from_days` on every day number, and its date is valid |
| `Calendar.DaysCountTheCalendar` | backend/src/delivery.rs:673-701 | the calendar's next valid day, by month lengths and the leap rule, has the next day number |
| `Calendar.CivilIsTheCalendar` | backend/src/delivery.rs:703-715 | day `n` is the date reached by walking the calendar `n` days from 1970-01-01 |
| `Calendar.YearOfEraIsYear` | backend/src/delivery.rs:703-715 | the division formula finds the year for every day of a 400-year era |
| `Timestamp.PrintThenParse` | backend/src/delivery.rs:609-671 | every time the printer prints parses back to the same milliseconds |
| `Timestamp.ParseThenPrint` | backend/src/delivery.rs:609-671 | every text the field checks accept prints back to itself |
| `Timestamp.FinalCheckNeverRejects` | backend/src/delivery.rs:609-654 | the parser's closing comparison never refuses a text its field checks let through |
| `Timestamp.YearRange` | backend/src/delivery.rs:656-671 | dates from 1970 through 9999 are exactly the day numbers the printer serves |
| `Timestamp.NumberOfDigits` | backend/src/delivery.rs:609-671 | zero-padded digits denote the number printed |
| `Base58.Encode` | convex/supportRpc.ts:57-80 | the nested carry loops compute the base-58 text specified by value: same number, leading zero bytes as leading `1`s |
| `Base58.AddByte` | convex/supportRpc.ts:59-70 | one byte's in-place pass over the digits, with its pushes, is multiply by 256 and add |
| `Base58.ValueOfCarryStep` | convex/supportRpc.ts:62-69 | a carry pass keeps the value: digits afterwards denote 256 times the old value plus the carry |
| `Base58.CarryStepKeepsDigitList` | convex/supportRpc.ts:58-70 | digits stay below 58 and the top one nonzero unless the value is zero |
| `Base58.DecodeOfBase58` | convex/supportRpc.ts:57-80 | a decoder returns every byte string from its text |
| `Base58.Base58OfDecode` | convex/supportRpc.ts:57-80 | every decodable text is the encoding of what it decodes to |
| `Base58.Base58Injective` | convex/supportRpc.ts:57-80 | different byte strings have different texts |
| `Wire.AcceptsExactlySupport` | convex/supportRpc.ts:94-143 | for every legacy or v0 transaction on the wire and any tail, the checker accepts if and only if each instruction meets its program's rule and one calls the support program |
| `Wire.AcceptedIsSupport` | convex/supportRpc.ts:94-143 | conversely, any accepted bytes are the layout of such a transaction, followed by some tail |
| `Wire.CheckOfLayout` | convex/supportRpc.ts:114-138 | reading a layout gives the verdict on the transaction it lays out, whatever follows |
| `Wire.InstructionRule` | convex/supportRpc.ts:120-128 | an instruction passes exactly when its program is one of the seven listed or the support program, and takes its data |
| `Wire.DataRule` | convex/supportRpc.ts:129-136 | the data each program takes, byte by byte: four support tags, two swap tags, a twelve-byte system transfer, two token instructions |
| `Wire.ReadOfCompactBytes` | convex/supportRpc.ts:105-113 | a compact length decodes to the value encoded, and the rest is left unread |
| `Wire.CheckSupportTransaction` | convex/supportRpc.ts:94-143 | the offset-advancing reader computes the specified verdict on every byte string |
| `Wire.Reader.Compact` | convex/supportRpc.ts:105-113 | the shifting loop reads one compact length and advances past it, or fails |
| `Wire.Reader.TakeBytes` | convex/supportRpc.ts:100-104 | takes exactly the next bytes or fails without reading past the end |
| `LogScan.SplitterEvents` | convex/supportParse.ts:95-120 | the stack-tracking loop computes the specified scan |
| `LogScan.ScanRecoversCallTree` | convex/supportParse.ts:95-120 | the flattened log of any well-nested call tree yields exactly the paid events of frames whose own program is the splitter, in order |
| `LogScan.TruncatedLogIsPrefix` | convex/supportParse.ts:95-120 | a log cut anywhere yields a prefix of those events |
| `LogScan.PaidRoundTrip` | convex/supportParse.ts:86-120 | an encoded paid event is recognised and read back |
| `LogScan.ReadU64` | convex/supportParse.ts:86-90 | the loop reads a little-endian 64-bit number |
| `Ledger.ParseSupportTx` | convex/supportParse.ts:165-219 | the per-asset loop computes the specified classification, nothing for a failed transaction |
| `Ledger.TransfersIntoVault` | convex/supportParse.ts:130-146 | collects the transfers into the vault accounts, in instruction order |
| `Ledger.TransactionBalances` | convex/supportParse.ts:155-219 | for each asset, contributions plus funding minus payouts minus anomalies of one transaction equal its balance change |
| `Ledger.CreditsAreDue` | convex/supportParse.ts:196-214 | notes and hiding belong to signers, a USDC contribution names only a signer, and a hidden signer is never named |
| `Classification.PayoutsAsLogged` | convex/supportParse.ts:177-182 | the payout events of an asset are the payouts the splitter logged on it, in order, each with its amount and side |
| `Classification.FundingExactly` | convex/supportParse.ts:184-192 | there is a funding event exactly for a positive SOL inflow of a transaction that initialized the vault, and it is the whole inflow |
| `Classification.AnomalyExactly` | convex/supportParse.ts:184-188 | there is an anomaly exactly for a negative inflow, of that size |
| `Classification.ContributionsExactly` | convex/supportParse.ts:194-217 | any other positive inflow is contributed in full: transfer by transfer in order, each to whom it is due, and the rest unnamed; all unnamed if the transfers exceed it |
| `Classification.MemoIsFirst` | convex/supportParse.ts:148-153 | the memo is the first one among the instructions |
| `Classification.TransfersGrow` | convex/supportParse.ts:130-146 | each instruction adds its transfer exactly when it pays the vault account of its own asset |
| `Classification.TokensRead` | convex/supportParse.ts:160-161 | a token balance is that of the first entry with the account's index, or zero |
| `Classification.BalancesRead` | convex/supportParse.ts:155-162 | a balance change is after minus before of the first key with the address |
| `Classification.UnmentionedHoldsNothing` | convex/supportParse.ts:155-158 | a transaction that does not mention the account leaves its balance alone |
| `Ledger.EventTable.Upsert` | convex/support.ts:97-101 | replaces the rows of a signature and touches no other |
| `Ledger.UpsertReplaces` | convex/support.ts:97-101 | after an upsert a signature has exactly its new rows, however often it is ingested |
| `Ledger.NetSplits` | convex/supportParse.ts:247-265 | the net of the table is the net of one signature's rows plus that of the others |
| `Ledger.Summarize` | convex/supportParse.ts:247-265 | the running totals are the sums over all rows per asset, kind and side |
| `Ledger.TotalsAreNet` | convex/supportParse.ts:247-265 | published totals, with funding and anomalies, are the net of the rows |
| `Classification.TotalsGrow` | convex/supportParse.ts:247-256 | each row goes into exactly one published sum: contributions, or the payouts of its own side |
| `Indexer.HistoryConserves` | convex/supportParse.ts:155-265 | over a chained history whose transactions are stored, the net of the table is the vault's final minus initial balance |
| `Indexer.IngestKeeps` | convex/support.ts:66-77 | ingesting a transaction, first or again, stores it and disturbs no other |
| `Indexer.AdvanceSoundExactly` | convex/supportParse.ts:226-241 | moving the cursor past a stored page skips no signature if and only if the node knew the signature the page starts below, or everything between `newest` and that signature was stored already |
| `Indexer.PageShrinksBacklog` | convex/supportParse.ts:236-241 | in whatever view the node has, a full page moves the walk down by exactly its size, and a short or empty one ends it at its top |
| `Indexer.UnservedSkips` | convex/supportParse.ts:236-241 | a node that does not know `pending.before` closes the backlog over every transaction missing below it |
| `Indexer.WalkedCatchesUp` | convex/support.ts:62-84 | enough pages for the backlog bring the cursor to the newest signature it set out from |
| `Indexer.SuccessiveRunsCatchUp` | convex/support.ts:61-84 | run after run of up to five pages brings the stored cursor to the newest signature and leaves it there |
| `Indexer.Tracker.SyncAccount` | convex/support.ts:62-84 | the page loop, from any views and with an outage anywhere, keeps the table faithful, saves the cursor the pages read give, and leaves every stored cursor sound if and only if each page read was covered |
| `Indexer.Tracker.IngestPage` | convex/support.ts:66-77 | stores a page in order, disturbs nothing stored before, and stops without a loss when the node does |
| `Indexer.StepKeepsInv` | convex/support.ts:61-94 | arrivals, overlapping runs, fetches from any view, crashes, ingests and cursor writes keep the invariant, a cursor write if its page was covered |
| `Indexer.RunSoundExactly` | convex/support.ts:61-94 | in any run, stored cursors skip nothing at any moment if and only if each was saved after a covered page |
| `Indexer.ServedRunIsCovered` | convex/support.ts:64-80 | pages asked of nodes that know where they start are all covered |
| `Indexer.NothingSkipped` | convex/supportParse.ts:221-241 | in every run whose saved pages were covered, every signature at or below `newest`, and from `pending.top` down to `pending.before`, is stored |
| `Indexer.CaughtUpTotalsBalance` | convex/supportParse.ts:165-265 | in every such run, once the cursor is at the newest signature the totals account for the vault's balance exactly |
| `IndexerGap.ARunThatSkips` | convex/support.ts:64-80 | a run of 105 steps in which a page asked of a lagging node leaves a stored cursor above a transaction that has no row |
| `Records.SortedOrder` | convex/records.ts:21-26 | comparing padded update times as text is comparing the numbers, for every u64 |
| `Records.WriteEvolves` | convex/records.ts:79-112 | every runtime write keeps keys unique, creation times fixed, update times ordered, terminal records frozen and other records untouched |
| `Records.WriteExactly` | convex/records.ts:79-112 | with times compared as numbers: late and terminal writes are ignored, a reused key is a conflict, and anything else is stored under its first creation time |
| `Records.RecordTable.Put` | convex/records.ts:57-112 | the write as the store performs it: stored, ignored as stale or late, or refused for a reused key |
| `Settlement.StepKeeps` | backend/src/server_recovery.rs:62-135 | each handler step, with any node answer, keeps claims, records, broadcasts and workers consistent |
| `Settlement.NextKeeps` | backend/src/server.rs:1042-1277 | any worker's next step, entry or abort keeps that, and claims and histories only grow |
| `Settlement.OneMessagePerOperation` | backend/src/server_recovery.rs:4-20 | in every interleaving, all bytes broadcast under one operation carry the message its first claim bound |
| `Settlement.CancelledNeverSent` | backend/src/server_recovery.rs:772-814 | a key whose claim reads cancelled in some state of a run is broadcast in no state of it |
| `SettlementRules.CancelStep` | backend/src/server_recovery.rs:772-814 | in every consistent store, cancelling an unclaimed key leaves it claimed by its owner as cancelled; no other claim, no payment and nothing sent changes, and a claim that exists stays |
| `SettlementRules.CancellingStopsBroadcasts` | backend/src/server_recovery.rs:772-814 | in every run in which a cancellation meets an unclaimed key, no state of the run, earlier or later, has sent bytes under that key |
| `SettlementRules.SendVerdict` | backend/src/server_recovery.rs:136-208 | after a failed send: prepared exactly when the error is Busy; failed exactly when the node does not know the signature and the error is a failed transaction or code -32002, -32003 or -32602 without "already processed"; else submitted |
| `SettlementRules.RejectionsAreRefusals` | backend/src/server_recovery.rs:136-208 | in every run each recorded refusal is such an error, and none says "already processed" |
| `SettlementRules.FailedIsNotAlreadyProcessed` | backend/src/server_recovery.rs:136-208 | in every run a failed payment traces back to its finalized failure, or to a refusal of bytes the node did not know that did not say "already processed" |
| `SettlementRules.ReconcileVerdict` | backend/src/server_recovery.rs:323-371 | failed exactly for a finalized error; confirmed exactly for a finalized success whose receipt matches in every bound field; prepared only if it was and the node reports nothing final |
| `SettlementRules.IntentsAgree` | backend/src/server_recovery.rs:4-20 | two requests bind the same intent exactly when terms, signer mode, message, x402 and Crossmint metadata all agree |
| `SettlementRules.LookupVerdict` | backend/src/server_recovery.rs:82-104 | a taken key lets in only its owner with the same intent; only a key with neither claim nor record goes on to be claimed |
| `SettlementRules.ClaimVerdict` | backend/src/server_recovery.rs:106-125 | claiming a free key binds it to this request and its first record; a taken one goes on only for the same owner and intent |
| `SettlementRules.NewRecord` | backend/src/server_recovery.rs:21-33 | a new record is prepared, carries the request's terms, and has a signature exactly when a human signed |
| `SettlementRules.LoadVerdict` | backend/src/server_recovery.rs:98-102 | a worker works from the stored record, else from the one the claim was made with |
| `SettlementRules.OrderVerdict` | backend/src/server.rs:1298-1339 | a free order goes to the payment key that asks; a taken one is held only by the owner and key it was bound to |
| `SettlementRules.ReservedVerdict` | backend/src/server.rs:1176-1222 | nobody goes on without the order; with it a human request that lost the race settles exactly when the record is prepared, a delegated one is signed at once exactly when it won |
| `SettlementRules.SignVerdict` | backend/src/server.rs:1099-1174 | a delegated payment is stored before signing, and a signature is used exactly when it signs the reviewed message |
| `SettlementRules.SettleVerdict` | backend/src/server.rs:1248-1253 | bytes are sent only after the record was put as submitted under their signature |
| `SettlementRules.DuplicateVerdict` | backend/src/server.rs:1231-1247 | when the receipt exists nothing is sent: known bytes are put as submitted and reconciled, unknown ones refused |
| `SettlementRules.SendOutcome` | backend/src/server.rs:1253-1277 | a send counts as handed over unless it answers Busy; success is reconciled, an error classified |
| `SettlementRules.StoreVerdict` | backend/src/server.rs:1352-1419 | after a write the handler goes on with what is stored then |
| `SettlementRules.NextMove` | backend/src/server_recovery.rs:323-335 | a settled or unsigned record needs no answer of the node; only a prepared one is resumed |
| `SettlementRules.RecoverVerdict` | backend/src/server_recovery.rs:621-720 | recovery goes on exactly for the owner's bytes of the bound message, under the recorded signature if there is one, and keeps the status |
| `SettlementRules.ResendVerdict` | backend/src/server_recovery.rs:603-620 | a resubmission is sent exactly when the node answers that it does not know the signature |
| `Settlement.OneKeyPerOrder` | backend/src/server.rs:1298-1339 | per owner and order at most one payment key is ever broadcast |
| `Settlement.OrderClaimBelongsToItsPayment` | backend/src/server.rs:1298-1339 | an order claim is held only by a payment operation that itself bound that order, so a losing request holds none |
| `Settlement.TerminalPaymentsAreFinal` | convex/records.ts:79-92 | over every run a stored payment keeps its creation time, its update time never drops, and confirmed or failed is final |
| `Settlement.ObservationsAreFinalized` | backend/src/server_recovery.rs:339-362 | every recorded observation was a finalized, error-free status with a receipt at that step |
| `Settlement.ConfirmedOnEvidence` | backend/src/server.rs:3019-3073 | a payment is stored confirmed only after such an observation of the receipt at its bound address, matching program, mandate, invoice and settled status, and recipient, mint, amount and agent where bound |
| `Settlement.FailedOnEvidence` | backend/src/server_recovery.rs:174-208 | a payment is stored failed only after its signature was seen finalized with an error, or after a deterministic refusal at a step where the node did not know that signature |
| `Settlement.RefusalsAreReal` | backend/src/server_recovery.rs:174-208 | every recorded refusal traces back to such a step |
| `Settlement.TokenProgramIsNotCompared` | backend/src/server.rs:3019-3073 | reconciliation comes to the same status whatever token program was bound |
| `SettlementOnce.HandedOverAtMostOnce` | backend/src/server_recovery.rs:1-20 | in every run in which a payment has at most one worker at a time, is never recovered with a resubmission, and no clock is behind its stored update time, its bytes are handed over at most once |
| `SettlementOnce.OwnStepOnce` | backend/src/server_recovery.rs:62-135 | each step of the payment's only worker keeps it sent at most once, and flagged in the store once sent |
| `SettlementOnce.RefusedInItsOnlySend` | backend/src/server_recovery.rs:174-208 | under those conditions a payment given up because its bytes were refused was handed over in that send and in no other |
| `SettlementOnce.FailedWasNotUnderWay` | backend/src/server_recovery.rs:174-208 | so a payment stored failed either was seen finalized with an error or never left the relay but in the send that was refused |
| `SettlementRace.FailedDespiteBroadcast` | backend/src/server_recovery.rs:174-208 | with two workers at once and the other two conditions met: sent by one, refused to the other, stored failed, and still failed after its finalized success is seen |
| `SettlementRace.OverlappingPollSendsTwice` | backend/src/server.rs:824-845 | the same loss when the overlap is a status poll that stores the payment as prepared after its send |
| `SettlementRace.ResubmissionSendsTwice` | backend/src/server_recovery.rs:621-720 | the same loss with one worker at a time, when a recovery resubmits a prepared payment and leaves it prepared |
| `SettlementRace.LateClockSendsTwice` | convex/records.ts:79-92 | the same loss with one worker at a time and no resubmission, when a retry's writes are ignored as stale |
| `SettlementProgress.SubmissionConfirms` | backend/src/server.rs:1176-1277 | from any consistent store an undisturbed signed submission, with answers of its own at each step, is broadcast once and stored confirmed |
| `SettlementProgress.DelegatedSubmissionConfirms` | backend/src/server.rs:1042-1175 | so is a delegated one, under the signature its provider made |
| `SettlementProgress.RetryConfirms` | backend/src/server.rs:1176-1202 | from any consistent store, an undisturbed retry of a signed submission that waits as prepared sends the bound message once and confirms it |
| `SettlementStore.ClassifyAfterSend` | backend/src/server_recovery.rs:176-208 | a failed send is recorded failed exactly for a deterministic error while the node does not know the signature |
| `SettlementStore.SharedStore.ClaimFirst` | convex/storage.ts:43-51 | the first claim of an id stands and later callers read it |
| `SettlementStore.SharedStore.ReserveCrossmintOrder` | backend/src/server.rs:1298-1339 | an order is held only when its claim names this wallet and this payment key |
| `SettlementStore.SharedStore.ObservePayment` | backend/src/server_recovery.rs:323-371 | hands a settled or unsigned record back; rewrites any other, to confirmed only on a finalized success and a matching receipt, to failed only on a finalized failure |
| `SettlementStore.SharedStore.PersistPayment` | backend/src/server.rs:1352-1419 | storing and reading back; a terminal stored record is left as it is |
| `Deliveries.ClaimsTheEarliestDue` | convex/webhooks.ts:195-201 | three bounded index reads, a merge, a sort and a slice pick min(limit, due) distinct due rows in order, and pass over none earlier than one picked |
| `Deliveries.PickCount` | convex/webhooks.ts:195-201 | the number picked is the number due, up to the limit |
| `Leases.GrantKeeps` | convex/webhooks.ts:208-211 | leasing a due row keeps the row's lease discipline and its whole history in order |
| `Leases.ReleaseKeeps` | convex/webhooks.ts:212-224 | recording an outcome, giving up or rescheduling keeps it too |
| `Webhooks.StepKeeps` | convex/webhooks.ts:153-240 | every operation keeps ids, events, caps and every row's lease discipline |
| `Webhooks.RunKeeps` | convex/webhooks.ts:134-240 | so does every run of operations, from any state that has them |
| `Webhooks.ReachableHolds` | convex/webhooks.ts:134-240 | every state reachable from empty tables has them |
| `Webhooks.EmitKeepsTables` | convex/webhooks.ts:79-92 | emitting keeps events unique by id and by (receipt, type, version), and deliveries backed and unique |
| `Webhooks.FanOutServes` | convex/webhooks.ts:84-90 | fan-out adds fresh pending rows for active recipients only, and leaves none of them without a row |
| `Webhooks.SubsKeep` | convex/webhooks.ts:153-184 | endpoint ids stay unique and the per-owner caps on rows and active endpoints hold |
| `WebhookRuns.TokenExactlyWhileDelivering` | convex/webhooks.ts:191-224 | in every run a row has a token exactly while delivering, and is due again only when that lease ends |
| `WebhookRuns.LeasesExclude` | convex/webhooks.ts:191-211 | no two leases of a delivery are unexpired and unconcluded at once |
| `WebhookRuns.ClaimWaitsForLease` | convex/webhooks.ts:191-211 | a claim reaches a row only when each of its leases is over or concluded |
| `WebhookRuns.SupersededRecordsNothing` | convex/webhooks.ts:212-224 | after a later lease the earlier holder can record no outcome, in any continuation |
| `WebhookRuns.LeaseRecordsOnce` | convex/webhooks.ts:212-224 | a lease that has recorded an outcome can record no other |
| `WebhookRuns.AttemptsAreBounded` | convex/webhooks.ts:128-132 | between redeliveries attempts equal leases and stay within any bound on the limits the claim calls bring, and one more pick settles the row |
| `WebhookRuns.NothingMissing` | convex/webhooks.ts:202-206 | a delivery's event and endpoint are always found |
| `WebhookRuns.LeasedExactlyWhen` | convex/webhooks.ts:128-132 | a picked row is leased exactly when its endpoint is active and attempts are left, and is stopped otherwise |
| `WebhookRules.ClaimVerdict` | convex/webhooks.ts:128-132 | missing event or endpoint, disabled endpoint, attempts used up, in that order, each with its stored reason; else leased |
| `WebhookRules.ClaimCount` | convex/webhooks.ts:191-201 | a claim takes as many rows as are due, at most its limit brought into 1 to 50 |
| `WebhookRules.RowWrites` | convex/webhooks.ts:128-132 | what leasing, giving up and rescheduling write to a row, every other field kept |
| `WebhookRuns.DisabledForGood` | convex/webhooks.ts:173-190 | once an endpoint is off it stays off, and no continuation creates, leases or reschedules a delivery of it |
| `WebhookRuns.LeftoversAreStopped` | convex/webhooks.ts:128-132 | a row the disabling left undrained is stopped by the claim that reaches it |
| `WebhookRuns.DisableDrains` | convex/webhooks.ts:184-189 | disabling switches the endpoint off, stops what it reads, and leaves no row of the endpoint waiting if and only if each waiting state has at most 1,000 rows |
| `WebhookRules.DisableWrites` | convex/webhooks.ts:184-189 | a row that disabling stops was a waiting one of that endpoint, and only its state, lease, reason and time change |
| `WebhookFanOut.ServedExactly` | convex/webhooks.ts:79-92 | a new event gives an active endpoint its delivery if and only if the endpoint receives it, fewer than 100 recipients were created before it, no stored delivery has that id, and no active recipient created before it has the same tail |
| `WebhookRules.DeliveredExactly` | convex/webhooks.ts:79-92 | the same, field by field and with the limit of 100 written out: which active endpoints get a fresh pending delivery of a new event, and what it holds |
| `WebhookFanOut.EveryActiveEndpointServed` | convex/webhooks.ts:79-92 | with ids as the relay mints them and an owner's endpoints within one read, every active endpoint that existed when the event occurred gets its own pending delivery |
| `WebhookFanOut.CollisionLosesDelivery` | convex/webhooks.ts:75-92 | with a delivery of `evt_a` to `whk_b_c` stored, the event `evt_a_b` never reaches the active endpoint `whk_c` |
| `WebhookFanOut.ADeliveryIsLost` | convex/webhooks.ts:75-92 | a state reached from empty tables by ordinary operations, and a recipient in it whose delivery is lost that way |
| `WebhookFanOut.OneDeliveryPerEventAndEndpoint` | convex/webhooks.ts:79-92 | at most one delivery exists per event and endpoint |
| `WebhookFanOut.JoinedTailsAgree` | convex/webhooks.ts:75-76 | two pairs of tails make the same delivery id exactly when an underscore moves between them |
| `WebhookQueue.Queue.Emit` | convex/webhooks.ts:79-92 | the fan-out loop computes the specified emission; false for a known event |
| `WebhookQueue.Queue.CreateSubscription` | convex/webhooks.ts:153-168 | creates within the caps and refuses a reused id |
| `WebhookQueue.Queue.RotateSecrets` | convex/webhooks.ts:179-183 | replaces secrets of an owned active endpoint only |
| `WebhookQueue.Queue.DisableSubscription` | convex/webhooks.ts:173-190 | switches the endpoint off and stops the first 1,000 rows of each waiting state |
| `WebhookQueue.Queue.ClaimDeliveries` | convex/webhooks.ts:191-211 | the loop leases or stops each picked row and hands out, in pick order, one lease per leased row: the row as stored with this call's token and expiry, its own event's body, its own endpoint's address and secrets |
| `WebhookQueue.LeasesHandOut` | convex/webhooks.ts:202-211 | one lease per leased row, in pick order: the row as stored with this call's token and expiry, the body of its own event, and the address and secrets of its own active endpoint |
| `WebhookQueue.Queue.CompleteDelivery` | convex/webhooks.ts:212-224 | only the holder of the present lease records an outcome |
| `WebhookQueue.Queue.RedeliverWebhook` | convex/webhooks.ts:230-240 | reschedules a settled or waiting row of an active endpoint, and says why otherwise |
| `Outbox.EmittedEventsStayBacked` | convex/webhooks.ts:94-110 | in every run each event a payment write emitted is backed, then and forever, by the same confirmed payment naming its receipt |
| `Outbox.EventsAreUnique` | convex/webhooks.ts:79-83 | in every run, backfills included, one event per id and per (receipt, type, version) |
| `Outbox.ConfirmingWriteEmits` | convex/webhooks.ts:98-110 | after a write that leaves the payment confirmed the outbox holds every offered event of its receipt, keeps all earlier ones and gains no other; any other write emits nothing |
| `Outbox.RetryIsNoOp` | convex/storage.ts:113-122 | repeating a write changes no record, event or delivery |
| `Outbox.StepKeepsDesk` | convex/storage.ts:113-122 | a payment write with its events, or any webhook operation, keeps the outbox invariant |
| `Outbox.Gateway.PutPayment` | convex/storage.ts:113-122 | the write and its emission in one transaction; a refused write emits nothing |
| `Outbox.Gateway.EmitOffered` | convex/webhooks.ts:98-110 | the emission loop emits the offered events that name the receipt and counts the new ones |
| `ConfirmedPaging.ConfirmedPage` | convex/webhooks.ts:112-126 | the scan loop, with its boundary, cap and text comparison, computes the specified page |
| `ConfirmedPaging.LosslessExactly` | convex/webhooks.ts:112-126 | a page loses nothing if and only if no confirmed row past the scan cap ties with its last time |
| `ConfirmedPaging.PageSize` | convex/webhooks.ts:120-124 | a page exceeds its limit only by ties with its last time, and falls short only when the scan has no more |
| `ConfirmedPaging.CapCanHide` | convex/webhooks.ts:118-119 | beyond the cap a page can be empty although a confirmed row is in the window |
| `ConfirmedPaging.WalkYieldsEachOnce` | backend/src/webhooks/dispatch.rs:149-200 | feeding back the oldest time through lossless pages yields every row confirmed at the start in exactly one page, once, while other records change |
| `ConfirmedPaging.WalkWithinCap` | backend/src/webhooks/dispatch.rs:149-200 | so does every walk whose windows fit within the scan cap |
| `ConfirmedPaging.WalkCompleteExactly` | backend/src/webhooks/dispatch.rs:149-200 | over a fixed table a walk yields every confirmed row of its window if and only if every page it reads is lossless |
| `ConfirmedPaging.WalkCompleteWhenCapIsClear` | convex/webhooks.ts:112-126 | that is, if and only if in every window read no confirmed row past the cap ties with the page's last time |
| `ConfirmedPaging.WalkEnds` | backend/src/webhooks/dispatch.rs:149-200 | every walk ends, within the width of its window, on an empty page |
| `Pet.SleepIsWhatIsReported` | shared/pet.ts:15-29 | `sleepSince` counts exactly the milliseconds `petState` reports as sleeping |
| `Pet.NapIsAsAnnounced` | shared/pet.ts:25-32 | `nextNapAt` and `napUntil` bound the current waking or sleeping stretch exactly |
| `Pet.NapTimes` | shared/pet.ts:25-29 | the pet sleeps ten minutes of every four hours and ten, from the anchor on |
| `Pet.NeedsFollowReports` | shared/pet.ts:16-24 | each need falls at its own rate for the milliseconds reported awake, three tenths of it for those asleep, down to 10 |
| `Pet.AdvanceComposes` | shared/pet.ts:16-24 | advancing through an intermediate time equals advancing directly, hysteresis included |
| `Pet.ComposesExactlyWhenStable` | shared/pet.ts:16-24 | that holds for all times if and only if the world is not low on power with every need above 35 |
| `Pet.StaysHealthy` | shared/pet.ts:14-41 | initial worlds are, and advancing and care keep worlds, stable and within 10 to 100 |
| `Pet.CareDoesItsPart` | shared/pet.ts:33-41 | at any clock, care raises the need it is for and no other; waking a sleeper, and nothing else, moves its naps, and keeps it awake for four hours |
| `Pet.CareByAction` | shared/pet.ts:33-39 | charging raises only the battery, polishing only cleanliness, play, ball and game only joy, each by 50 up to 100; no other action changes a need |
| `Pet.PowerRule` | shared/pet.ts:16-24 | low power sets in below 15 and ends only with every need above 35, after decay and after care alike |
| `Pet.NewPet` | shared/pet.ts:14 | a new pet has every need at 80 and is awake for four hours |
| `Pet.PollsAreInvisible` | convex/pet.ts:30-52 | removing every poll from any history leaves needs, power state and nap times the same at every later time |
| `Pet.PollsAreInvisibleFromTheStart` | convex/pet.ts:30-52 | from the empty table on: the first call creates the pet, and every later poll may be removed |
| `Pet.ActAgrees` | convex/pet.ts:94-126 | an action is judged and takes effect alike whether or not the row was polled before |
| `Pet.ChooseFavorite` | shared/pet.ts:42-47 | the choice is a most practised eligible favourite, and a tie keeps the present one |
| `Pet.FavoriteByName` | shared/pet.ts:42-47 | an activity of two days that beats the other eligible ones is chosen under its own name; with none eligible nothing changes |
| `Pet.PetStore.GetWorld` | convex/pet.ts:30-51 | returns the projected world and writes it back only to create it or on a new day |
| `Pet.ReadWrites` | convex/pet.ts:30-51 | only a read on a new day rechooses the favourite, counting a change in the revision; only it and the first read write the row |
| `Pet.PetStore.Care` | convex/pet.ts:94-126 | answers Full exactly for an action whose own need is at 100, Local exactly for waking a pet that is awake, Cooldown first; stores the cared-for world with its revision and prop exactly when accepted |
| `RateBuckets.AdmissionIsPlainCounting` | convex/storage.ts:18-28 | in every run with a nondecreasing clock, the swept table answers each call as counting all earlier calls in its window would |
| `RateBuckets.FirstCallsGetThrough` | convex/storage.ts:18-28 | of the `rate` calls in a window exactly the first `maximum` are admitted |
| `RateBuckets.SweepAgrees` | convex/cleanup.ts:7-16 | deleting expired rows changes no bucket whose window is not over |
| `RateBuckets.RelayWithinQuota` | convex/support.ts:113-129 | no relay bucket is charged beyond its quota |
| `RateBuckets.RelayAdmitsExactly` | convex/support.ts:113-129 | in every run a relay call is admitted exactly while its minute has fewer than 3,000 calls in all, 150 of the client's and, if it sends, 6 of the client's sends |
| `RateBuckets.ChargesExactly` | convex/support.ts:113-129 | which buckets a call counts against, a send bucket only for a call that sends |
| `RateBuckets.BucketTimes` | convex/storage.ts:18-28 | two calls share a bucket exactly when they fall in one minute, or in one window of their key |
| `RateBuckets.RateTable.TryRate` | convex/storage.ts:18-28 | sweeps, counts and answers as specified |
| `RateBuckets.RateTable.RelayAllowed` | convex/support.ts:113-129 | charges every bucket or, if one is full, none |

## Left out

- HTTP routing, CORS, authentication, environment configuration and the framework glue around the handlers.
- Ed25519, SHA-256, HMAC, AES envelopes and address derivation: hashes are injective, signatures opaque values.
- The chain, the node, the signing provider and Crossmint beyond the answers a step can receive.
- Settlement handlers run as atomic steps on values, one worker at a time, because the theorems range over interleavings; only the store calls and record rewrites are also given as methods.
- Payments stored before claims existed: the store of every settlement run starts empty.
- Connector job rows (`x402_payments`), the lookup of another job for an order, and the `transactions` kind: where a handler may be refused by them, the worker may abort.
- `SettlementStore.SharedStore.ReserveCrossmintOrder`: does not look for another connector job of the owner, which can only refuse.
- `SettlementStore.SharedStore.PersistPayment`: does not write the connector job row stored beside the payment.
- The order claim's namespace is the wallet's own, as in the code; what Crossmint itself does with an order is not modelled.
- Import mode of record writes, record kinds other than payments, size limits and JSON encoding.
- Memo text parsing and log-line patterns: memos and log lines are datatypes; instruction tags are bytes rather than hex text.
- `Ledger.Summarize`: does not give the contribution count and the lists of recent rows of the summary.
- Failed transactions are taken to leave the vault's balance unchanged: the vault pays no fees.
- Webhook URL, label, secret and id validation, listing operations and the HTTP delivery itself; a completion or creation that the code refuses with an error changes nothing, like one it answers with false.
- Clocks of webhook operations and rate calls do not run backwards, lease tokens are fresh, and each rate key is always used with one window: conditions on the runs. The attempt and endpoint limits come with each call, as in the source; results name any bound on them.
- Floating-point rounding in the pet's needs, which are exact reals.
- `Pet.PetStore.Care`: takes the cooldown as an argument; sessions, command replay, memories, contribution and daily counts and the pet's own rate counters are not modelled, and favourite scores are a parameter.
- Which expired rate rows a bounded read returns is left open: the results hold for any choice.
- The status page, cards, mandate requests, receipts' byte offsets and the migration tools: they would add only easy members.
