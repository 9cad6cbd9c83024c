/**
 * The webhook outbox: a payment write and the events it offers are one transaction
 * (`convex/storage.ts`, `convex/webhooks.ts`, `convex/records.ts`).
 */
module Outbox {
  import opened Common
  import opened Records
  import opened Webhooks
  import Leases
  import WebhookQueue

  type Payment = Record<string, string, string>

  /** An event that a payment write put into the outbox. */
  datatype Emission = Emission(event: Event, payment: string)

  datatype Desk = Desk(payments: map<string, Payment>, hooks: World, emitted: seq<Emission>)

  datatype Action =
    | Put(record: Payment, events: seq<Event>)
    | Hook(op: Op)      // any webhook operation, the backfill of missing events among them

  predicate Names(receipt: Option<string>, e: Event) { receipt == Some(e.receipt) }

  // ---------- emitting after a write ----------

  function EmitMatching(s: Store, events: seq<Event>, receipt: Option<string>): Store {
    if events == [] then s
    else
      var before := EmitMatching(s, events[..|events| - 1], receipt);
      var e := events[|events| - 1];
      if Names(receipt, e) then EmitEvent(before, e) else before
  }

  /** The offered events that were new. */
  function NewAmong(s: Store, events: seq<Event>, receipt: Option<string>): seq<Event> {
    if events == [] then []
    else
      var e := events[|events| - 1];
      NewAmong(s, events[..|events| - 1], receipt)
      + if Names(receipt, e) && !Known(EmitMatching(s, events[..|events| - 1], receipt).events, e) then [e] else []
  }

  predicate Emits(payments: map<string, Payment>, record: Payment) {
    && !WriteRecord(payments, record).Conflict?
    && record.id in After(payments, record) && After(payments, record)[record.id].status == Confirmed
  }

  function ReceiptAfter(payments: map<string, Payment>, record: Payment): Option<string>
    requires Emits(payments, record)
  {
    After(payments, record)[record.id].receipt
  }

  function HooksAfter(payments: map<string, Payment>, s: Store, record: Payment, events: seq<Event>): Store {
    if Emits(payments, record) then EmitMatching(s, events, ReceiptAfter(payments, record)) else s
  }

  function EmittedBy(payments: map<string, Payment>, s: Store, record: Payment, events: seq<Event>): seq<Event> {
    if Emits(payments, record) then NewAmong(s, events, ReceiptAfter(payments, record)) else []
  }

  function Step(w: Desk, action: Action, now: nat): Desk {
    match action
    case Put(record, events) =>
      var created := EmittedBy(w.payments, w.hooks.store, record, events);
      Desk(After(w.payments, record),
           World(HooksAfter(w.payments, w.hooks.store, record, events), now, w.hooks.log),
           w.emitted + seq(|created|, i requires 0 <= i < |created| => Emission(created[i], record.id)))
    case Hook(op) => w.(hooks := Next(w.hooks, op, now))
  }

  // ---------- the invariant ----------

  ghost predicate IsBacked(w: Desk, x: Emission) {
    && x.event in w.hooks.store.events
    && x.payment in w.payments && w.payments[x.payment].status == Confirmed
    && w.payments[x.payment].receipt == Some(x.event.receipt)
  }

  ghost predicate DeskInv(w: Desk, m: Limits) {
    UniqueKeys(w.payments) && Inv(w.hooks, m) && forall x :: x in w.emitted ==> IsBacked(w, x)
  }

  ghost predicate Permitted(w: Desk, action: Action, now: nat, m: Limits) {
    match action
    case Put(record, _) => w.hooks.clock <= now && record.updated < U64_LIMIT
    case Hook(op) => Allowed(w.hooks, op, now, m)
  }

  const EMPTY := Desk(map[], START, [])

  // ---------- one write ----------

  lemma EmitFacts(s: Store, e: Event)
    ensures s.events <= EmitEvent(s, e).events
    ensures Known(EmitEvent(s, e).events, e)
    ensures !Known(s.events, e) ==> e in EmitEvent(s, e).events
    ensures forall x :: x in EmitEvent(s, e).events ==> x in s.events || x == e
  {
    hide FanOut, Recipients;
    var events := EmitEvent(s, e).events;
    if !Known(s.events, e) { assert events[|s.events|] == e; }
  }

  lemma KnownGrows(a: seq<Event>, b: seq<Event>, e: Event)
    requires a <= b && Known(a, e)
    ensures Known(b, e)
  {
    var k :| 0 <= k < |a| && (a[k].id == e.id || SameSlot(a[k], e));
    assert b[k] == a[k];
  }

  /** Emitting keeps earlier events, adds only offered ones, and leaves none that names the receipt unknown. */
  lemma {:induction false} EmitMatchingFacts(s: Store, events: seq<Event>, receipt: Option<string>)
    ensures s.events <= EmitMatching(s, events, receipt).events
    ensures forall e :: e in NewAmong(s, events, receipt) ==>
              e in EmitMatching(s, events, receipt).events && Names(receipt, e) && e in events
    ensures forall e :: e in EmitMatching(s, events, receipt).events ==>
              e in s.events || e in NewAmong(s, events, receipt)
    ensures forall e :: e in events && Names(receipt, e) ==> Known(EmitMatching(s, events, receipt).events, e)
  {
    hide EmitEvent, Known, Names;
    if events != [] {
      var init, last := events[..|events| - 1], events[|events| - 1];
      assert events == init + [last];
      EmitMatchingFacts(s, init, receipt);
      var before, after := EmitMatching(s, init, receipt), EmitMatching(s, events, receipt);
      EmitFacts(before, last);
      EmitFresh(before, last);
      forall e | e in init && Names(receipt, e) ensures Known(after.events, e) {
        KnownGrows(before.events, after.events, e);
      }
    }
  }

  lemma EmitFresh(s: Store, e: Event)
    ensures Known(s.events, e) ==> EmitEvent(s, e) == s
  {
  }

  lemma {:induction false} EmitMatchingKeeps(w: World, events: seq<Event>, receipt: Option<string>, now: nat, m: Limits)
    requires Inv(w, m) && w.clock <= now
    ensures Inv(World(EmitMatching(w.store, events, receipt), now, w.log), m)
  {
    if events == [] {
      LaterClock(w, now, m);
    } else {
      var e := events[|events| - 1];
      var before := World(EmitMatching(w.store, events[..|events| - 1], receipt), now, w.log);
      EmitMatchingKeeps(w, events[..|events| - 1], receipt, now, m);
      StepKeeps(before, Emit(e), now, m);
      assert before.log + [] == before.log;
    }
  }

  lemma LaterClock(w: World, now: nat, m: Limits)
    requires Inv(w, m) && w.clock <= now
    ensures Inv(World(w.store, now, w.log), m)
  {
    hide Tables, View, Leases.RowInv;
    forall i | 0 <= i < |w.store.deliveries|
      ensures Leases.RowInv(w.store.deliveries[i], View(w.log, i), now, m.maxAttempts)
    {
      Leases.TimePasses(w.store.deliveries[i], View(w.log, i), w.clock, now, m.maxAttempts);
    }
  }

  // ---------- every step, every run ----------

  /** Each emission stays backed by its payment, which never changes again. */
  lemma StepKeepsDesk(w: Desk, action: Action, now: nat, m: Limits)
    requires DeskInv(w, m) && Permitted(w, action, now, m)
    ensures DeskInv(Step(w, action, now), m)
    ensures w.emitted <= Step(w, action, now).emitted
    ensures forall x :: x in w.emitted ==> Step(w, action, now).payments[x.payment] == w.payments[x.payment]
  {
    hide Inv, Next, EmitMatching, NewAmong, WriteRecord;
    match action
    case Put(record, events) => PutKeeps(w, record, events, now, m);
    case Hook(op) =>
      StepKeeps(w.hooks, op, now, m);
      EventsOnlyGrow(w.hooks, op, now);
  }

  lemma EventsOnlyGrow(w: World, op: Op, now: nat)
    ensures w.store.events <= Next(w, op, now).store.events
  {
    if op.Emit? {
      hide EmitEvent;
      EmitFacts(w.store, op.event);
      assert Apply(w.store, op, now) == EmitEvent(w.store, op.event);
    }
  }

  lemma PutKeeps(w: Desk, record: Payment, events: seq<Event>, now: nat, m: Limits)
    requires DeskInv(w, m) && Permitted(w, Put(record, events), now, m)
    ensures DeskInv(Step(w, Put(record, events), now), m)
    ensures w.emitted <= Step(w, Put(record, events), now).emitted
    ensures forall x :: x in w.emitted ==>
              Step(w, Put(record, events), now).payments[x.payment] == w.payments[x.payment]
  {
    hide Inv, WriteRecord, After, EmitMatching, NewAmong, UniqueKeys;
    var w' := Step(w, Put(record, events), now);
    WriteEvolves(w.payments, record);
    if Emits(w.payments, record) {
      EmitMatchingFacts(w.hooks.store, events, ReceiptAfter(w.payments, record));
      EmitMatchingKeeps(w.hooks, events, ReceiptAfter(w.payments, record), now, m);
    } else {
      LaterClock(w.hooks, now, m);
    }
    var created := EmittedBy(w.payments, w.hooks.store, record, events);
    forall x | x in w'.emitted ensures IsBacked(w', x) {
      if x in w.emitted {
        assert IsBacked(w, x);
        assert Evolves(w.payments[x.payment], w'.payments[x.payment]);
      } else {
        assert x.event in created && x.payment == record.id;
      }
    }
    forall x | x in w.emitted ensures w'.payments[x.payment] == w.payments[x.payment] {
      assert IsBacked(w, x);
      assert Evolves(w.payments[x.payment], w'.payments[x.payment]);
    }
  }

  datatype Turn = Turn(action: Action, now: nat)

  function Run(w: Desk, turns: seq<Turn>): Desk {
    if turns == [] then w
    else Step(Run(w, turns[..|turns| - 1]), turns[|turns| - 1].action, turns[|turns| - 1].now)
  }

  ghost predicate Runs(w: Desk, turns: seq<Turn>, m: Limits) {
    turns == []
    || (Runs(w, turns[..|turns| - 1], m)
        && Permitted(Run(w, turns[..|turns| - 1]), turns[|turns| - 1].action, turns[|turns| - 1].now, m))
  }

  lemma EmptyHolds(m: Limits)
    ensures DeskInv(EMPTY, m)
  {
    StartHolds(m);
  }

  lemma {:induction false} RunKeepsDesk(w: Desk, turns: seq<Turn>, m: Limits)
    requires DeskInv(w, m) && Runs(w, turns, m)
    ensures DeskInv(Run(w, turns), m)
    ensures w.emitted <= Run(w, turns).emitted
    ensures forall x :: x in w.emitted ==>
              x.payment in w.payments && x.payment in Run(w, turns).payments
              && Run(w, turns).payments[x.payment] == w.payments[x.payment]
  {
    hide Inv, Step, UniqueKeys;
    if turns == [] {
      assert forall x :: x in w.emitted ==> IsBacked(w, x);
    } else {
      var init, last := turns[..|turns| - 1], turns[|turns| - 1];
      RunKeepsDesk(w, init, m);
      var mid := Run(w, init);
      StepKeepsDesk(mid, last.action, last.now, m);
      assert forall x :: x in w.emitted ==> x in mid.emitted && IsBacked(mid, x);
      assert forall x :: x in mid.emitted ==> x in Run(w, turns).emitted && IsBacked(Run(w, turns), x);
    }
  }

  /**
   * In every run: an event a payment write emitted is backed by a confirmed payment naming its
   * receipt, both when it was emitted and after any continuation, by that very record.
   */
  lemma EmittedEventsStayBacked(turns: seq<Turn>, more: seq<Turn>, m: Limits, x: Emission)
    requires Runs(EMPTY, turns, m) && Runs(Run(EMPTY, turns), more, m)
    requires x in Run(EMPTY, turns).emitted
    ensures IsBacked(Run(EMPTY, turns), x)
    ensures IsBacked(Run(Run(EMPTY, turns), more), x)
    ensures Run(Run(EMPTY, turns), more).payments[x.payment] == Run(EMPTY, turns).payments[x.payment]
  {
    hide Inv, Step, UniqueKeys, IsBacked;
    EmptyHolds(m);
    RunKeepsDesk(EMPTY, turns, m);
    RunKeepsDesk(Run(EMPTY, turns), more, m);
  }

  /** In every run, backfills included: one event per id and one per (receipt, type, version). */
  lemma EventsAreUnique(turns: seq<Turn>, m: Limits, i: nat, j: nat)
    requires Runs(EMPTY, turns, m)
    requires var events := Run(EMPTY, turns).hooks.store.events;
             i < |events| && j < |events| && (events[i].id == events[j].id || SameSlot(events[i], events[j]))
    ensures i == j
  {
    hide Step, UniqueKeys, IsBacked, RowsHold, Backed, WithinCaps;
    EmptyHolds(m);
    RunKeepsDesk(EMPTY, turns, m);
    assert DistinctEvents(Run(EMPTY, turns).hooks.store.events);
  }

  /** Whether the outbox knows an event: by its id, or by its receipt, type and version together. */
  ghost predicate Holds(events: seq<Event>, e: Event) {
    exists x :: x in events
      && (x.id == e.id || (x.receipt == e.receipt && x.eventType == e.eventType && x.version == e.version))
  }

  /**
   * A write that leaves the payment confirmed puts into the outbox every offered event of its receipt
   * that was not known, and nothing else; any other write, and a refused one, puts nothing.
   */
  lemma ConfirmingWriteEmits(w: Desk, record: Payment, events: seq<Event>, now: nat)
    ensures var w' := Step(w, Put(record, events), now); var outbox := w'.hooks.store.events;
            if !WriteRecord(w.payments, record).Conflict?
               && record.id in w'.payments && w'.payments[record.id].status == Confirmed then
              && (forall e :: e in events && w'.payments[record.id].receipt == Some(e.receipt) ==> Holds(outbox, e))
              && w.hooks.store.events <= outbox
              && (forall e :: e in outbox ==>
                    e in w.hooks.store.events || (e in events && w'.payments[record.id].receipt == Some(e.receipt)))
            else w'.hooks.store == w.hooks.store && w'.emitted == w.emitted
  {
    hide EmitMatching, NewAmong, WriteRecord, After;
    if Emits(w.payments, record) {
      var receipt := ReceiptAfter(w.payments, record);
      EmitMatchingFacts(w.hooks.store, events, receipt);
      var outbox := EmitMatching(w.hooks.store, events, receipt).events;
      forall e | e in events && receipt == Some(e.receipt) ensures Holds(outbox, e) {
        assert Names(receipt, e);
        var k :| 0 <= k < |outbox| && (outbox[k].id == e.id || SameSlot(outbox[k], e));
        assert outbox[k] in outbox;
      }
    }
  }

  // ---------- retries ----------

  lemma WriteTwice(payments: map<string, Payment>, record: Payment)
    requires UniqueKeys(payments) && record.updated < U64_LIMIT
    ensures After(After(payments, record), record) == After(payments, record)
    ensures WriteRecord(After(payments, record), record).Conflict? == WriteRecord(payments, record).Conflict?
  {
    var once := After(payments, record);
    if WriteRecord(payments, record).Written? {
      SortedOrder(record.updated, record.updated);
      hide Sorted, TextLess;
      var stored := once[record.id];
      assert record.(created := stored.created) == stored;
      assert once[record.id := stored] == once;
    }
  }

  lemma {:induction false} NothingLeftToEmit(s: Store, events: seq<Event>, receipt: Option<string>)
    requires forall e :: e in events && Names(receipt, e) ==> Known(s.events, e)
    ensures EmitMatching(s, events, receipt) == s && NewAmong(s, events, receipt) == []
  {
    hide Known, Names, EmitEvent;
    if events != [] {
      var init, last := events[..|events| - 1], events[|events| - 1];
      assert last in events && forall e :: e in init ==> e in events;
      NothingLeftToEmit(s, init, receipt);
      EmitFresh(s, last);
    }
  }

  /** Retrying a write changes no record, emits no event and schedules no delivery. */
  lemma RetryIsNoOp(w: Desk, record: Payment, events: seq<Event>, now: nat, later: nat, m: Limits)
    requires DeskInv(w, m) && Permitted(w, Put(record, events), now, m) && now <= later
    ensures var once := Step(w, Put(record, events), now);
            var twice := Step(once, Put(record, events), later);
            twice.payments == once.payments && twice.hooks.store == once.hooks.store && twice.emitted == once.emitted
  {
    hide Inv, EmitMatching, NewAmong, Known, WriteRecord, After, UniqueKeys;
    WriteTwice(w.payments, record);
    var once := Step(w, Put(record, events), now);
    if Emits(w.payments, record) {
      var receipt := ReceiptAfter(w.payments, record);
      EmitMatchingFacts(w.hooks.store, events, receipt);
      NothingLeftToEmit(once.hooks.store, events, receipt);
    }
  }

  // ---------- the operation as the store runs it ----------

  lemma EmitNothing(s: Store, receipt: Option<string>)
    ensures EmitMatching(s, [], receipt) == s && NewAmong(s, [], receipt) == []
  {
  }

  lemma EmitOneMore(s: Store, events: seq<Event>, n: nat, receipt: Option<string>)
    requires n < |events|
    ensures var before := EmitMatching(s, events[..n], receipt);
            && EmitMatching(s, events[..n + 1], receipt)
                == (if Names(receipt, events[n]) then EmitEvent(before, events[n]) else before)
            && NewAmong(s, events[..n + 1], receipt)
               == NewAmong(s, events[..n], receipt)
                   + if Names(receipt, events[n]) && !Known(before.events, events[n]) then [events[n]] else []
  {
    hide EmitEvent, Known, Names;
    assert events[..n + 1][..n] == events[..n];
  }

  class Gateway {
    const payments: RecordTable<string, string, string>
    const hooks: WebhookQueue.Queue

    constructor (payments: RecordTable<string, string, string>, hooks: WebhookQueue.Queue)
      ensures this.payments == payments && this.hooks == hooks
    {
      this.payments, this.hooks := payments, hooks;
    }

    /** `put_payment` with offered events; `None` is the refusal that aborts the transaction. */
    method PutPayment(record: Payment, offered: seq<Event>) returns (created: Option<nat>)
      modifies payments, hooks
      ensures payments.rows == After(old(payments.rows), record)
      ensures hooks.Contents() == HooksAfter(old(payments.rows), old(hooks.Contents()), record, offered)
      ensures created == if WriteRecord(old(payments.rows), record).Conflict? then None
                         else Some(|EmittedBy(old(payments.rows), old(hooks.Contents()), record, offered)|)
    {
      hide Sorted, TextLess, EmitMatching, NewAmong;
      var outcome := payments.Put(record);
      if outcome == Refused { return None; }
      if record.id !in payments.rows || payments.rows[record.id].status != Confirmed {
        return Some(0);
      }
      var count := EmitOffered(offered, payments.rows[record.id].receipt);
      created := Some(count);
    }

    /** Emits the offered events that name the receipt, and counts the new ones. */
    method EmitOffered(offered: seq<Event>, receipt: Option<string>) returns (count: nat)
      modifies hooks
      ensures hooks.Contents() == EmitMatching(old(hooks.Contents()), offered, receipt)
      ensures count == |NewAmong(old(hooks.Contents()), offered, receipt)|
    {
      hide Known, EmitEvent, EmitMatching, NewAmong, Names;
      ghost var start := hooks.Contents();
      EmitNothing(start, receipt);
      assert offered[..0] == [];
      count := 0;
      var n := 0;
      while n < |offered|
        invariant 0 <= n <= |offered|
        invariant hooks.Contents() == EmitMatching(start, offered[..n], receipt)
        invariant count == |NewAmong(start, offered[..n], receipt)|
      {
        EmitOneMore(start, offered, n, receipt);
        if Names(receipt, offered[n]) {
          var isNew := hooks.Emit(offered[n]);
          if isNew { count := count + 1; }
        }
        n := n + 1;
      }
      assert offered[..n] == offered;
    }
  }
}
