/**
 * The owner webhook queue (`convex/webhooks.ts`): what each store operation does, and what
 * holds over every run of them. Each operation is one transaction.
 */
module Webhooks {
  import opened Common
  import opened Rows
  import opened Deliveries
  import opened Leases

  datatype Subscription = Subscription(
    id: string, owner: string, url: string, description: Option<string>, active: bool, secrets: string,
    created: nat, updated: nat)

  datatype Event = Event(
    id: string, owner: string, eventType: string, version: nat, receipt: string, body: string,
    occurred: nat, created: nat)

  datatype Store = Store(subs: seq<Subscription>, events: seq<Event>, deliveries: seq<Delivery>)

  datatype Limits = Limits(maxAttempts: nat, maxActive: nat, maxRows: nat)

  datatype Op =
    | Emit(event: Event)
    | Create(sub: Subscription, maxActive: nat, maxRows: nat)
    | Rotate(owner: string, id: string, secrets: string)
    | Disable(owner: string, id: string)
    | Claim(leaseMs: nat, limit: nat, token: string, maxAttempts: nat)
    | Complete(id: string, token: string, status: Option<nat>, outcome: Outcome)
    | Redeliver(owner: string, id: string)

  const DISABLED := "Endpoint disabled before delivery"
  const LIMIT_REACHED := "Attempt limit reached; the last attempt's outcome was not recorded"
  const MISSING := "Event or endpoint record missing"
  const FAN_OUT_READ := 100
  const DRAIN_READ := 1_000

  // ---------- lookups ----------

  function SubRow(subs: seq<Subscription>, id: string): (r: int)
    ensures r < |subs| && (r >= 0 ==> subs[r].id == id)
    ensures r < 0 ==> forall k :: 0 <= k < |subs| ==> subs[k].id != id
  {
    First(subs, (s: Subscription) => s.id == id)
  }

  function DeliveryRow(ds: seq<Delivery>, id: string): (r: int)
    ensures r < |ds| && (r >= 0 ==> ds[r].id == id)
    ensures r < 0 ==> forall k :: 0 <= k < |ds| ==> ds[k].id != id
  {
    First(ds, (d: Delivery) => d.id == id)
  }

  function EventRow(events: seq<Event>, id: string): (r: int)
    ensures r < |events| && (r >= 0 ==> events[r].id == id)
    ensures r < 0 ==> forall k :: 0 <= k < |events| ==> events[k].id != id
  {
    First(events, (e: Event) => e.id == id)
  }

  predicate Owned(subs: seq<Subscription>, owner: string, id: string) {
    SubRow(subs, id) >= 0 && subs[SubRow(subs, id)].owner == owner
  }

  predicate IsActive(subs: seq<Subscription>, id: string) {
    SubRow(subs, id) >= 0 && subs[SubRow(subs, id)].active
  }

  // ---------- delivery ids ----------

  /** What follows the first underscore, or the whole text. */
  function Tail(value: string): string {
    var u := First(value, (c: char) => c == '_');
    if u < 0 then value else value[u + 1..]
  }

  function DeliveryId(event: string, subscription: string): string {
    "dlv_" + Tail(event) + "_" + Tail(subscription)
  }

  // ---------- emitting ----------

  predicate SameSlot(a: Event, b: Event) {
    a.receipt == b.receipt && a.eventType == b.eventType && a.version == b.version
  }

  predicate Known(events: seq<Event>, e: Event) {
    exists k :: 0 <= k < |events| && (events[k].id == e.id || SameSlot(events[k], e))
  }

  /** An event is known by its id, or by its receipt, type and version together. */
  lemma KnownIs(events: seq<Event>, e: Event)
    ensures !Known(events, e) <==> forall k :: 0 <= k < |events| ==>
              var x := events[k];
              x.id != e.id && !(x.receipt == e.receipt && x.eventType == e.eventType && x.version == e.version)
  {
  }

  function NewDelivery(e: Event, s: Subscription): Delivery {
    Delivery(DeliveryId(e.id, s.id), e.id, s.id, e.owner, e.eventType, e.receipt, Pending, 0, e.created,
             None, None, None, None, None, e.created, e.created)
  }

  function CreatedOf(subs: seq<Subscription>, i: nat): nat { if i < |subs| then subs[i].created else 0 }

  /** The index `by_owner_created`. */
  function CreationOrder(subs: seq<Subscription>): (nat, nat) -> bool {
    (i: nat, j: nat) =>
      CreatedOf(subs, i) < CreatedOf(subs, j) || (CreatedOf(subs, i) == CreatedOf(subs, j) && i < j)
  }

  predicate Receives(s: Subscription, e: Event) { s.owner == e.owner && s.created <= e.occurred }

  function Recipients(subs: seq<Subscription>, e: Event): seq<nat> {
    AtMost(Sort(Where(subs, (s: Subscription) => Receives(s, e)), CreationOrder(subs)), FAN_OUT_READ)
  }

  function FanOutOne(ds: seq<Delivery>, s: Subscription, e: Event): seq<Delivery> {
    if s.active && DeliveryRow(ds, DeliveryId(e.id, s.id)) < 0 then ds + [NewDelivery(e, s)] else ds
  }

  function FanOut(ds: seq<Delivery>, subs: seq<Subscription>, rows: seq<nat>, e: Event): seq<Delivery>
    requires forall n :: 0 <= n < |rows| ==> rows[n] < |subs|
  {
    if rows == [] then ds
    else FanOutOne(FanOut(ds, subs, rows[..|rows| - 1], e), subs[rows[|rows| - 1]], e)
  }

  function EmitEvent(s: Store, e: Event): Store {
    if Known(s.events, e) then s
    else
      RecipientsAre(s.subs, e);
      Store(s.subs, s.events + [e], FanOut(s.deliveries, s.subs, Recipients(s.subs, e), e))
  }

  lemma RecipientsAre(subs: seq<Subscription>, e: Event)
    ensures forall k :: k in Recipients(subs, e) ==> 0 <= k < |subs| && Receives(subs[k], e)
    ensures forall n :: 0 <= n < |Recipients(subs, e)| ==> Recipients(subs, e)[n] < |subs|
    ensures |Where(subs, (s: Subscription) => Receives(s, e))| <= FAN_OUT_READ ==>
              forall k :: 0 <= k < |subs| && Receives(subs[k], e) ==> k in Recipients(subs, e)
  {
    var p := (s: Subscription) => Receives(s, e);
    var rows := Where(subs, p);
    WhereSelects(subs, p);
    SortKeeps(rows, CreationOrder(subs));
    AtMostKeeps(Sort(rows, CreationOrder(subs)), FAN_OUT_READ);
    assert forall k :: k in rows <==> k in Elements(rows);
    assert forall k :: k in Sort(rows, CreationOrder(subs)) <==> k in Elements(Sort(rows, CreationOrder(subs)));
    assert forall n :: 0 <= n < |Recipients(subs, e)| ==> Recipients(subs, e)[n] in Recipients(subs, e);
  }

  // ---------- what an operation does to subscriptions and to each delivery ----------

  function RowsOf(subs: seq<Subscription>, owner: string): seq<nat> {
    Where(subs, (s: Subscription) => s.owner == owner)
  }

  function ActiveRowsOf(subs: seq<Subscription>, owner: string): seq<nat> {
    Where(subs, (s: Subscription) => s.owner == owner && s.active)
  }

  predicate MayCreate(subs: seq<Subscription>, sub: Subscription, maxActive: nat, maxRows: nat) {
    && |RowsOf(subs, sub.owner)| < maxRows
    && |ActiveRowsOf(subs, sub.owner)| < maxActive
    && SubRow(subs, sub.id) < 0
  }

  function SubsAfter(subs: seq<Subscription>, op: Op, now: nat): seq<Subscription> {
    match op
    case Create(sub, maxActive, maxRows) =>
        if MayCreate(subs, sub, maxActive, maxRows) then subs + [sub.(active := true)] else subs
    case Rotate(owner, id, secrets) =>
      if Owned(subs, owner, id) && IsActive(subs, id) then
        var r := SubRow(subs, id); subs[r := subs[r].(secrets := secrets, updated := now)]
      else subs
    case Disable(owner, id) =>
      if Owned(subs, owner, id) && IsActive(subs, id) then
        var r := SubRow(subs, id); subs[r := subs[r].(active := false, updated := now)]
      else subs
    case _ => subs
  }

  /** Why a picked row is not leased; `None` leases it. */
  function ClaimAction(s: Store, d: Delivery, maxAttempts: nat): Option<string> {
    if SubRow(s.subs, d.subscription) < 0 || EventRow(s.events, d.event) < 0 then Some(MISSING)
    else if !IsActive(s.subs, d.subscription) then Some(DISABLED)
    else if d.attempts >= maxAttempts then Some(LIMIT_REACHED)
    else None
  }

  function ClampedLimit(limit: nat): nat { if limit < 1 then 1 else if limit > 50 then 50 else limit }

  function ClaimPicks(s: Store, now: nat, limit: nat): set<nat> {
    Elements(Picks(s.deliveries, now, ClampedLimit(limit)))
  }

  function QueuedIn(ds: seq<Delivery>, subscription: string, state: State): seq<nat> {
    AtMost(Where(ds, (d: Delivery) => d.subscription == subscription && d.state == state), DRAIN_READ)
  }

  /** The rows that disabling an endpoint stops: a bounded read of each waiting state. */
  function DrainRows(s: Store, owner: string, id: string): set<nat> {
    if !Owned(s.subs, owner, id) then {}
    else Elements(QueuedIn(s.deliveries, id, Pending)) + Elements(QueuedIn(s.deliveries, id, RetryScheduled))
  }

  predicate MayRecord(status: Option<nat>, outcome: Outcome) {
    && (status.Some? ==> 100 <= status.value <= 599)
    && (outcome.Success? || outcome.error != "")
  }

  /** The row whose holder this completion comes from, or -1. */
  function CompleteRow(ds: seq<Delivery>, id: string, token: string, status: Option<nat>, outcome: Outcome): (r: int)
    ensures r < |ds|
  {
    var r := DeliveryRow(ds, id);
    if r >= 0 && ds[r].state == Delivering && ds[r].token == Some(token) && MayRecord(status, outcome) then r else -1
  }

  function RedeliverRow(s: Store, owner: string, id: string): (r: int)
    ensures r < |s.deliveries|
  {
    var r := DeliveryRow(s.deliveries, id);
    if r >= 0 && s.deliveries[r].owner == owner && s.deliveries[r].state !in {Pending, Delivering}
       && IsActive(s.subs, s.deliveries[r].subscription) then r else -1
  }

  function PickedRow(d: Delivery, action: Option<string>, now: nat, leaseMs: nat, token: string): Delivery {
    match action
    case None => Granted(d, token, now, leaseMs)
    case Some(why) => Stopped(d, why, now)
  }

  function RowAfter(s: Store, op: Op, now: nat, i: nat): Delivery
    requires i < |s.deliveries|
  {
    var d := s.deliveries[i];
    match op
    case Claim(leaseMs, limit, token, maxAttempts) =>
      if i in ClaimPicks(s, now, limit) then PickedRow(d, ClaimAction(s, d, maxAttempts), now, leaseMs, token) else d
    case Complete(id, token, status, outcome) =>
      if i == CompleteRow(s.deliveries, id, token, status, outcome) then Concluded(d, outcome, status, now) else d
    case Disable(owner, id) => if i in DrainRows(s, owner, id) then Stopped(d, DISABLED, now) else d
    case Redeliver(owner, id) => if i == RedeliverRow(s, owner, id) then Rescheduled(d, now) else d
    case _ => d
  }

  function Apply(s: Store, op: Op, now: nat): (r: Store)
    ensures |r.deliveries| >= |s.deliveries|
    ensures forall i :: 0 <= i < |s.deliveries| ==> r.deliveries[i] == RowAfter(s, op, now, i)
    ensures !op.Emit? ==> |r.deliveries| == |s.deliveries| && r.events == s.events
    ensures r.subs == SubsAfter(s.subs, op, now)
  {
    if op.Emit? then
      RecipientsAre(s.subs, op.event);
      FanOutExtends(s.deliveries, s.subs, Recipients(s.subs, op.event), op.event);
      EmitEvent(s, op.event)
    else
      Store(SubsAfter(s.subs, op, now), s.events,
            seq(|s.deliveries|, i requires 0 <= i < |s.deliveries| => RowAfter(s, op, now, i)))
  }

  lemma {:induction false} FanOutExtends(ds: seq<Delivery>, subs: seq<Subscription>, rows: seq<nat>, e: Event)
    requires forall n :: 0 <= n < |rows| ==> rows[n] < |subs|
    ensures ds <= FanOut(ds, subs, rows, e)
  {
    if rows != [] { FanOutExtends(ds, subs, rows[..|rows| - 1], e); }
  }

  // ---------- runs ----------

  datatype Entry =
    | Claimed(picked: set<nat>, granted: set<nat>, token: string, at: nat, expires: nat)
    | Recorded(row: nat, token: string)
    | Reopened(row: nat)

  /** The store, the latest time an operation ran at, and what the operations did. */
  datatype World = World(store: Store, clock: nat, log: seq<Entry>)

  function GrantedRows(s: Store, now: nat, limit: nat, maxAttempts: nat): set<nat> {
    set i | i in ClaimPicks(s, now, limit) && i < |s.deliveries| && ClaimAction(s, s.deliveries[i], maxAttempts) == None
  }

  function EntryOf(s: Store, op: Op, now: nat): seq<Entry> {
    match op
    case Claim(leaseMs, limit, token, maxAttempts) =>
      [Claimed(ClaimPicks(s, now, limit), GrantedRows(s, now, limit, maxAttempts), token, now, now + leaseMs)]
    case Complete(id, token, status, outcome) =>
      var r := CompleteRow(s.deliveries, id, token, status, outcome);
      if r >= 0 then [Recorded(r, token)] else []
    case Redeliver(owner, id) =>
      var r := RedeliverRow(s, owner, id);
      if r >= 0 then [Reopened(r)] else []
    case _ => []
  }

  function Next(w: World, op: Op, now: nat): World {
    World(Apply(w.store, op, now), now, w.log + EntryOf(w.store, op, now))
  }

  ghost predicate Unused(log: seq<Entry>, token: string) {
    forall e :: e in log && !e.Reopened? ==> e.token != token
  }

  /** The limits a call brings with it are within `m`, so `m` may be any bound on the limits a run uses. */
  predicate WithinLimits(op: Op, m: Limits) {
    match op
    case Create(_, maxActive, maxRows) => maxActive <= m.maxActive && maxRows <= m.maxRows
    case Claim(_, _, _, maxAttempts) => maxAttempts <= m.maxAttempts
    case _ => true
  }

  /** Clocks do not run backwards and every claim call brings a token of its own. */
  ghost predicate Allowed(w: World, op: Op, now: nat, m: Limits) {
    w.clock <= now && WithinLimits(op, m) && (op.Claim? ==> Unused(w.log, op.token))
  }

  function Of(e: Entry, i: nat): History {
    match e
    case Claimed(picked, granted, token, at, expires) =>
      if i in granted then [Grant(token, at, expires)] else if i in picked then [GiveUp] else []
    case Recorded(row, token) => if i == row then [Record(token)] else []
    case Reopened(row) => if i == row then [Reset] else []
  }

  /** What the log says about one row. */
  function View(log: seq<Entry>, i: nat): History {
    if log == [] then [] else View(log[..|log| - 1], i) + Of(log[|log| - 1], i)
  }

  // ---------- the invariant ----------

  ghost predicate DistinctIds(ds: seq<Delivery>) {
    forall i, j :: 0 <= i < j < |ds| ==> ds[i].id != ds[j].id
  }

  ghost predicate DistinctSubs(subs: seq<Subscription>) {
    forall i, j :: 0 <= i < j < |subs| ==> subs[i].id != subs[j].id
  }

  /** One event per id and per (receipt, type, version). */
  ghost predicate DistinctEvents(events: seq<Event>) {
    forall i, j :: 0 <= i < j < |events| ==> events[i].id != events[j].id && !SameSlot(events[i], events[j])
  }

  /** A delivery's endpoint and event exist, and its id is made of theirs. */
  ghost predicate Backed(s: Store) {
    forall i :: 0 <= i < |s.deliveries| ==>
      && SubRow(s.subs, s.deliveries[i].subscription) >= 0 && EventRow(s.events, s.deliveries[i].event) >= 0
      && s.deliveries[i].id == DeliveryId(s.deliveries[i].event, s.deliveries[i].subscription)
  }

  ghost predicate WithinCaps(subs: seq<Subscription>, m: Limits) {
    forall owner: string :: |RowsOf(subs, owner)| <= m.maxRows && |ActiveRowsOf(subs, owner)| <= m.maxActive
  }

  ghost predicate Tables(s: Store, m: Limits) {
    DistinctIds(s.deliveries) && DistinctSubs(s.subs) && DistinctEvents(s.events) && Backed(s) && WithinCaps(s.subs, m)
  }

  ghost predicate RowsHold(w: World, maxAttempts: nat) {
    && (forall i :: 0 <= i < |w.store.deliveries| ==>
        RowInv(w.store.deliveries[i], View(w.log, i), w.clock, maxAttempts))
    && (forall i :: |w.store.deliveries| <= i ==> View(w.log, i) == [])
  }

  ghost predicate Inv(w: World, m: Limits) {
    Tables(w.store, m) && RowsHold(w, m.maxAttempts)
  }

  const START := World(Store([], [], []), 0, [])

  lemma StartHolds(m: Limits)
    ensures Inv(START, m)
  {
  }

  // ---------- one row, one step ----------

  lemma {:induction false} ViewFresh(log: seq<Entry>, i: nat, token: string)
    requires Unused(log, token)
    ensures FreshToken(View(log, i), token)
  {
    if log != [] {
      var init, last := log[..|log| - 1], log[|log| - 1];
      assert last in log;
      assert forall e :: e in init ==> e in log;
      ViewFresh(init, i, token);
    }
  }

  lemma ViewAppended(log: seq<Entry>, more: seq<Entry>, i: nat)
    requires |more| <= 1
    ensures View(log + more, i) == View(log, i) + (if more == [] then [] else Of(more[0], i))
  {
    if more == [] { assert log + more == log; } else { assert (log + more)[..|log|] == log; }
  }

  lemma PickedRowKeeps(d: Delivery, h: History, clock: nat, maxAttempts: nat,
                       action: Option<string>, now: nat, leaseMs: nat, token: string)
    requires RowInv(d, h, clock, maxAttempts) && clock <= now && Due(d, now) && FreshToken(h, token)
    requires action == None ==> d.attempts < maxAttempts
    ensures RowInv(PickedRow(d, action, now, leaseMs, token),
                   h + [if action == None then Grant(token, now, now + leaseMs) else GiveUp], now, maxAttempts)
  {
    hide RowInv, FreshToken;
    if action == None {
      GrantKeeps(d, h, clock, maxAttempts, token, now, leaseMs);
    } else {
      ReleaseKeeps(d, h, clock, maxAttempts, PickedRow(d, action, now, leaseMs, token), GiveUp, now);
    }
  }

  lemma ClaimPicksAre(s: Store, now: nat, limit: nat)
    ensures forall i :: i in ClaimPicks(s, now, limit) ==> i < |s.deliveries| && Due(s.deliveries[i], now)
  {
    hide Picks, Due;
    PicksAre(s.deliveries, now, ClampedLimit(limit));
  }

  lemma ClaimsOnlyActive(s: Store, d: Delivery, maxAttempts: nat)
    ensures ClaimAction(s, d, maxAttempts) == None ==> d.attempts < maxAttempts && IsActive(s.subs, d.subscription)
  {
  }

  /** What a claim call does to one row and what its log entry says about that row. */
  lemma ClaimAt(s: Store, op: Op, now: nat, i: nat)
    requires op.Claim?
    ensures |EntryOf(s, op, now)| == 1
    ensures if i in ClaimPicks(s, now, op.limit) then
              && i < |s.deliveries| && Due(s.deliveries[i], now)
              && var action := ClaimAction(s, s.deliveries[i], op.maxAttempts);
                 && (action == None ==>
                       s.deliveries[i].attempts < op.maxAttempts && IsActive(s.subs, s.deliveries[i].subscription))
                 && RowAfter(s, op, now, i) == PickedRow(s.deliveries[i], action, now, op.leaseMs, op.token)
                 && Of(EntryOf(s, op, now)[0], i)
                    == [if action == None then Grant(op.token, now, now + op.leaseMs) else GiveUp]
            else
              && Of(EntryOf(s, op, now)[0], i) == []
              && (i < |s.deliveries| ==> RowAfter(s, op, now, i) == s.deliveries[i])
  {
    hide ClaimPicks, PickedRow, Due, ClaimAction, IsActive;
    ClaimPicksAre(s, now, op.limit);
    if i in ClaimPicks(s, now, op.limit) { ClaimsOnlyActive(s, s.deliveries[i], op.maxAttempts); }
  }

  lemma ClaimRowKeeps(w: World, op: Op, now: nat, m: Limits, i: nat)
    requires op.Claim? && Allowed(w, op, now, m) && i < |w.store.deliveries|
    requires RowInv(w.store.deliveries[i], View(w.log, i), w.clock, m.maxAttempts)
    ensures RowInv(RowAfter(w.store, op, now, i), View(w.log + EntryOf(w.store, op, now), i), now, m.maxAttempts)
  {
    hide View, RowInv, FreshToken, ClaimAction, PickedRow, RowAfter, EntryOf, Of, ClaimPicks, Due, Unused, IsActive;
    var d, h := w.store.deliveries[i], View(w.log, i);
    ClaimAt(w.store, op, now, i);
    ViewAppended(w.log, EntryOf(w.store, op, now), i);
    if i in ClaimPicks(w.store, now, op.limit) {
      ViewFresh(w.log, i, op.token);
      PickedRowKeeps(d, h, w.clock, m.maxAttempts, ClaimAction(w.store, d, op.maxAttempts), now, op.leaseMs, op.token);
    } else {
      TimePasses(d, h, w.clock, now, m.maxAttempts);
      assert h + [] == h;
    }
  }

  lemma OtherRowKeeps(w: World, op: Op, now: nat, m: Limits, i: nat)
    requires !op.Claim? && Allowed(w, op, now, m) && i < |w.store.deliveries|
    requires RowInv(w.store.deliveries[i], View(w.log, i), w.clock, m.maxAttempts)
    ensures RowInv(RowAfter(w.store, op, now, i), View(w.log + EntryOf(w.store, op, now), i), now, m.maxAttempts)
  {
    hide View, Counted, Accounted, Sequenced, HolderIsLatest, OneOutcomeEach, DrainRows, Unused, DeliveryRow, IsActive;
    var d, h := w.store.deliveries[i], View(w.log, i);
    var d' := RowAfter(w.store, op, now, i);
    ViewAppended(w.log, EntryOf(w.store, op, now), i);
    TimePasses(d, h, w.clock, now, m.maxAttempts);
    assert h + [] == h;
    if op.Complete? && i == CompleteRow(w.store.deliveries, op.id, op.token, op.status, op.outcome) {
      ReleaseKeeps(d, h, w.clock, m.maxAttempts, d', Record(op.token), now);
    } else if op.Redeliver? && i == RedeliverRow(w.store, op.owner, op.id) {
      ReleaseKeeps(d, h, w.clock, m.maxAttempts, d', Reset, now);
    } else if op.Disable? && i in DrainRows(w.store, op.owner, op.id) {
      DrainRowsAre(w.store, op.owner, op.id);
      DrainKeeps(d, h, w.clock, m.maxAttempts, DISABLED, now);
    }
  }

  lemma DrainRowsAre(s: Store, owner: string, id: string)
    ensures forall i :: i in DrainRows(s, owner, id) ==>
              0 <= i < |s.deliveries| && s.deliveries[i].subscription == id
                  && s.deliveries[i].state in {Pending, RetryScheduled}
  {
    QueuedAre(s.deliveries, id, Pending);
    QueuedAre(s.deliveries, id, RetryScheduled);
  }

  lemma QueuedAre(ds: seq<Delivery>, subscription: string, state: State)
    ensures forall i :: i in QueuedIn(ds, subscription, state) ==>
              0 <= i < |ds| && ds[i].subscription == subscription && ds[i].state == state
  {
    var p := (d: Delivery) => d.subscription == subscription && d.state == state;
    WhereSelects(ds, p);
    AtMostKeeps(Where(ds, p), DRAIN_READ);
  }

  // ---------- the tables, one step ----------

  lemma RowIdentity(s: Store, op: Op, now: nat, i: nat)
    requires i < |s.deliveries|
    ensures RowAfter(s, op, now, i).id == s.deliveries[i].id
    ensures RowAfter(s, op, now, i).event == s.deliveries[i].event
    ensures RowAfter(s, op, now, i).subscription == s.deliveries[i].subscription
    ensures RowAfter(s, op, now, i).owner == s.deliveries[i].owner
  {
    hide ClaimPicks, ClaimAction, DrainRows;
  }

  lemma {:induction false} WhereShrinks<T>(a: seq<T>, b: seq<T>, p: T -> bool)
    requires |a| == |b| && forall i :: 0 <= i < |a| && p(b[i]) ==> p(a[i])
    ensures |Where(b, p)| <= |Where(a, p)|
  {
    if a != [] {
      var n := |a| - 1;
      assert forall i :: 0 <= i < n ==> a[..n][i] == a[i] && b[..n][i] == b[i];
      WhereShrinks(a[..n], b[..n], p);
    }
  }

  /** Subscriptions keep their place, id, owner and creation time; a disabled one stays disabled. */
  lemma SubsEvolve(subs: seq<Subscription>, op: Op, now: nat)
    ensures var subs' := SubsAfter(subs, op, now);
            && |subs| <= |subs'|
            && (forall k :: 0 <= k < |subs| ==> subs'[k].id == subs[k].id && subs'[k].owner == subs[k].owner
                                                && subs'[k].created == subs[k].created
                                                && (subs'[k].active ==> subs[k].active))
            && (|subs'| > |subs| ==> |subs'| == |subs| + 1 && op.Create? && MayCreate(subs, op.sub, op.maxActive, op.maxRows)
                                     && subs'[..|subs|] == subs && subs'[|subs|].id == op.sub.id
                                     && subs'[|subs|].owner == op.sub.owner && subs'[|subs|].active)
  {
  }

  lemma CapsAfterCreate(subs: seq<Subscription>, subs': seq<Subscription>, owner: string, m: Limits)
    requires WithinCaps(subs, m) && |subs'| == |subs| + 1 && subs'[..|subs|] == subs
    requires |RowsOf(subs, subs'[|subs|].owner)| < m.maxRows && |ActiveRowsOf(subs, subs'[|subs|].owner)| < m.maxActive
    ensures |RowsOf(subs', owner)| <= m.maxRows && |ActiveRowsOf(subs', owner)| <= m.maxActive
  {
    assert |RowsOf(subs, owner)| <= m.maxRows;
  }

  lemma CapsAfterChange(subs: seq<Subscription>, subs': seq<Subscription>, owner: string)
    requires |subs'| == |subs|
    requires forall k :: 0 <= k < |subs| ==> subs'[k].owner == subs[k].owner && (subs'[k].active ==> subs[k].active)
    ensures |RowsOf(subs', owner)| <= |RowsOf(subs, owner)|
    ensures |ActiveRowsOf(subs', owner)| <= |ActiveRowsOf(subs, owner)|
  {
    WhereShrinks(subs, subs', (s: Subscription) => s.owner == owner);
    WhereShrinks(subs, subs', (s: Subscription) => s.owner == owner && s.active);
  }

  lemma SubsKeep(subs: seq<Subscription>, op: Op, now: nat, m: Limits)
    requires DistinctSubs(subs) && WithinCaps(subs, m) && WithinLimits(op, m)
    ensures DistinctSubs(SubsAfter(subs, op, now)) && WithinCaps(SubsAfter(subs, op, now), m)
    ensures forall id :: SubRow(subs, id) >= 0 ==> SubRow(SubsAfter(subs, op, now), id) >= 0
  {
    hide SubsAfter, RowsOf, ActiveRowsOf;
    var subs' := SubsAfter(subs, op, now);
    SubsEvolve(subs, op, now);
    forall id | SubRow(subs, id) >= 0 ensures SubRow(subs', id) >= 0 {
      assert subs'[SubRow(subs, id)].id == id;
    }
    forall owner: string ensures |RowsOf(subs', owner)| <= m.maxRows && |ActiveRowsOf(subs', owner)| <= m.maxActive {
      if |subs'| > |subs| {
        CapsAfterCreate(subs, subs', owner, m);
      } else {
        CapsAfterChange(subs, subs', owner);
      }
    }
  }

  lemma FanOutOneServes(ds: seq<Delivery>, s: Subscription, e: Event)
    requires DistinctIds(ds)
    ensures DistinctIds(FanOutOne(ds, s, e))
    ensures s.active ==> DeliveryRow(FanOutOne(ds, s, e), DeliveryId(e.id, s.id)) >= 0
    ensures forall id :: DeliveryRow(ds, id) >= 0 ==> DeliveryRow(FanOutOne(ds, s, e), id) >= 0
  {
    hide DeliveryId;
    var after := FanOutOne(ds, s, e);
    if |after| > |ds| { assert after[|ds|].id == DeliveryId(e.id, s.id); }
    forall id | DeliveryRow(ds, id) >= 0 ensures DeliveryRow(after, id) >= 0 {
      assert after[DeliveryRow(ds, id)].id == id;
    }
  }

  ghost predicate FromRecipient(d: Delivery, subs: seq<Subscription>, rows: seq<nat>, e: Event) {
    exists k :: k in rows && k < |subs| && subs[k].active && d == NewDelivery(e, subs[k])
  }

  /** Fanning out adds fresh pending rows for active recipients, and serves every one of them. */
  lemma {:induction false} FanOutServes(ds: seq<Delivery>, subs: seq<Subscription>, rows: seq<nat>, e: Event)
    requires DistinctIds(ds) && forall n :: 0 <= n < |rows| ==> rows[n] < |subs|
    ensures ds <= FanOut(ds, subs, rows, e)
    ensures DistinctIds(FanOut(ds, subs, rows, e))
    ensures forall i :: |ds| <= i < |FanOut(ds, subs, rows, e)| ==>
              FromRecipient(FanOut(ds, subs, rows, e)[i], subs, rows, e)
    ensures forall k :: k in rows && subs[k].active ==>
              DeliveryRow(FanOut(ds, subs, rows, e), DeliveryId(e.id, subs[k].id)) >= 0
  {
    hide DeliveryId, NewDelivery, DeliveryRow, DistinctIds;
    if rows != [] {
      var n := |rows| - 1;
      var init := rows[..n];
      assert rows == init + [rows[n]];
      FanOutServes(ds, subs, init, e);
      var before, after := FanOut(ds, subs, init, e), FanOut(ds, subs, rows, e);
      FanOutOneServes(before, subs[rows[n]], e);
      forall i | |ds| <= i < |after| ensures FromRecipient(after[i], subs, rows, e) {
        if i < |before| {
          assert FromRecipient(before[i], subs, init, e);
          var k :| k in init && k < |subs| && subs[k].active && before[i] == NewDelivery(e, subs[k]);
          assert k in rows;
        } else {
          assert rows[n] in rows && after[i] == NewDelivery(e, subs[rows[n]]);
        }
      }
    }
  }

  ghost predicate FreshRow(d: Delivery, e: Event, subs: seq<Subscription>) {
    && d.state == Pending && d.attempts == 0 && d.token == None && d.leaseExpires == None
    && d.event == e.id && IsActive(subs, d.subscription) && d.id == DeliveryId(d.event, d.subscription)
  }

  lemma FanOutFresh(s: Store, e: Event)
    requires DistinctIds(s.deliveries) && DistinctSubs(s.subs)
    ensures var s' := EmitEvent(s, e);
            && s.deliveries <= s'.deliveries && DistinctIds(s'.deliveries)
            && forall i :: |s.deliveries| <= i < |s'.deliveries| ==> FreshRow(s'.deliveries[i], e, s.subs)
  {
    hide Recipients, FanOut, Known, DeliveryId, DeliveryRow, Receives, DistinctIds;
    var s' := EmitEvent(s, e);
    if !Known(s.events, e) {
      var rows := Recipients(s.subs, e);
      RecipientsAre(s.subs, e);
      FanOutServes(s.deliveries, s.subs, rows, e);
      forall i | |s.deliveries| <= i < |s'.deliveries| ensures FreshRow(s'.deliveries[i], e, s.subs) {
        assert FromRecipient(s'.deliveries[i], s.subs, rows, e);
        var k :| k in rows && k < |s.subs| && s.subs[k].active && s'.deliveries[i] == NewDelivery(e, s.subs[k]);
        assert SubRow(s.subs, s.subs[k].id) == k;
      }
    }
  }

  lemma EventsKept(events: seq<Event>, e: Event)
    requires DistinctEvents(events) && !Known(events, e)
    ensures DistinctEvents(events + [e])
    ensures forall id :: EventRow(events, id) >= 0 ==> EventRow(events + [e], id) >= 0
    ensures EventRow(events + [e], e.id) >= 0
  {
    var events' := events + [e];
    assert events'[|events|] == e;
    forall i, j | 0 <= i < j < |events'| ensures events'[i].id != events'[j].id && !SameSlot(events'[i], events'[j]) {
      assert events'[i] == events[i];
      if j < |events| { assert events'[j] == events[j]; }
    }
    forall id | EventRow(events, id) >= 0 ensures EventRow(events', id) >= 0 {
      assert events'[EventRow(events, id)].id == id;
    }
  }

  lemma EmitKeepsTables(s: Store, e: Event, m: Limits)
    requires Tables(s, m)
    ensures Tables(EmitEvent(s, e), m)
  {
    hide Recipients, FanOut, Known, WithinCaps, DistinctIds, DistinctSubs, DistinctEvents, SubRow, EventRow;
    if !Known(s.events, e) {
      FanOutFresh(s, e);
      EventsKept(s.events, e);
      var s' := EmitEvent(s, e);
      forall i | 0 <= i < |s'.deliveries|
        ensures SubRow(s'.subs, s'.deliveries[i].subscription) >= 0 && EventRow(s'.events, s'.deliveries[i].event) >= 0
                && s'.deliveries[i].id == DeliveryId(s'.deliveries[i].event, s'.deliveries[i].subscription)
      {
        if i < |s.deliveries| {
          assert s'.deliveries[i] == s.deliveries[i];
        } else {
          assert FreshRow(s'.deliveries[i], e, s.subs);
        }
      }
    }
  }

  lemma ApplyKeepsTables(s: Store, op: Op, now: nat, m: Limits)
    requires Tables(s, m) && WithinLimits(op, m)
    ensures Tables(Apply(s, op, now), m)
  {
    if op.Emit? {
      EmitKeepsTables(s, op.event, m);
    } else {
      var s' := Apply(s, op, now);
      SubsKeep(s.subs, op, now, m);
      forall i | 0 <= i < |s.deliveries|
        ensures s'.deliveries[i].id == s.deliveries[i].id && s'.deliveries[i].event == s.deliveries[i].event
                && s'.deliveries[i].subscription == s.deliveries[i].subscription
      {
        RowIdentity(s, op, now, i);
      }
      hide RowAfter, SubsAfter, WithinCaps, Apply;
    }
  }

  // ---------- every step, every run ----------

  /** No operation breaks the tables' keys or any row's lease discipline. */
  lemma StepKeeps(w: World, op: Op, now: nat, m: Limits)
    requires Inv(w, m) && Allowed(w, op, now, m)
    ensures Inv(Next(w, op, now), m)
  {
    var w' := Next(w, op, now);
    ApplyKeepsTables(w.store, op, now, m);
    if op.Emit? { FanOutFresh(w.store, op.event); }
    hide RowInv, RowAfter, View, EntryOf;
    forall i: nat | i < |w'.store.deliveries|
      ensures RowInv(w'.store.deliveries[i], View(w'.log, i), now, m.maxAttempts)
    {
      if i < |w.store.deliveries| {
        if op.Claim? { ClaimRowKeeps(w, op, now, m, i); } else { OtherRowKeeps(w, op, now, m, i); }
      } else {
        NewRowHolds(w'.store.deliveries[i], now, m.maxAttempts);
        UntouchedView(w, op, now, i);
      }
    }
    forall i: nat | |w'.store.deliveries| <= i ensures View(w'.log, i) == [] {
      UntouchedView(w, op, now, i);
    }
  }

  lemma NewRowHolds(d: Delivery, now: nat, maxAttempts: nat)
    requires d.state == Pending && d.attempts == 0 && d.token == None && d.leaseExpires == None
    ensures RowInv(d, [], now, maxAttempts)
  {
  }

  lemma UntouchedView(w: World, op: Op, now: nat, i: nat)
    requires |w.store.deliveries| <= i
    ensures View(w.log + EntryOf(w.store, op, now), i) == View(w.log, i)
  {
    hide View, RowAfter, EntryOf, Of;
    if op.Claim? { ClaimAt(w.store, op, now, i); } else { EntryElsewhere(w.store, op, now, i); }
    ViewAppended(w.log, EntryOf(w.store, op, now), i);
  }

  lemma EntryElsewhere(s: Store, op: Op, now: nat, i: nat)
    requires !op.Claim? && |s.deliveries| <= i
    ensures EntryOf(s, op, now) == [] || (|EntryOf(s, op, now)| == 1 && Of(EntryOf(s, op, now)[0], i) == [])
  {
    hide CompleteRow, RedeliverRow;
  }

  datatype Call = Call(op: Op, now: nat)

  function Run(w: World, calls: seq<Call>): World {
    if calls == [] then w
    else Next(Run(w, calls[..|calls| - 1]), calls[|calls| - 1].op, calls[|calls| - 1].now)
  }

  ghost predicate Runs(w: World, calls: seq<Call>, m: Limits) {
    calls == []
    || (Runs(w, calls[..|calls| - 1], m)
        && Allowed(Run(w, calls[..|calls| - 1]), calls[|calls| - 1].op, calls[|calls| - 1].now, m))
  }

  lemma {:induction false} RunKeeps(w: World, calls: seq<Call>, m: Limits)
    requires Inv(w, m) && Runs(w, calls, m)
    ensures Inv(Run(w, calls), m)
  {
    if calls != [] {
      RunKeeps(w, calls[..|calls| - 1], m);
      StepKeeps(Run(w, calls[..|calls| - 1]), calls[|calls| - 1].op, calls[|calls| - 1].now, m);
    }
  }

  ghost predicate Reachable(w: World, m: Limits) {
    exists calls :: Runs(START, calls, m) && w == Run(START, calls)
  }

  lemma ReachableHolds(w: World, m: Limits)
    requires Reachable(w, m)
    ensures Inv(w, m)
  {
    var calls :| Runs(START, calls, m) && w == Run(START, calls);
    StartHolds(m);
    RunKeeps(START, calls, m);
  }
}
