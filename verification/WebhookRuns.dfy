/** What every run of the webhook queue, from empty tables on, guarantees (`convex/webhooks.ts`). */
module WebhookRuns {
  import opened Common
  import opened Rows
  import opened Deliveries
  import opened Leases
  import opened Webhooks

  // ---------- runs only add to what has happened ----------

  lemma {:induction false} RunGrows(w: World, calls: seq<Call>, m: Limits)
    requires Runs(w, calls, m)
    ensures var w' := Run(w, calls);
            && w.clock <= w'.clock
            && |w.store.deliveries| <= |w'.store.deliveries|
            && (forall i :: 0 <= i < |w.store.deliveries| ==> w'.store.deliveries[i].id == w.store.deliveries[i].id)
            && (forall i :: 0 <= i ==> View(w.log, i) <= View(w'.log, i))
  {
    hide View, EntryOf, RowAfter;
    if calls != [] {
      var init, last := calls[..|calls| - 1], calls[|calls| - 1];
      var mid := Run(w, init);
      RunGrows(w, init, m);
      var w' := Next(mid, last.op, last.now);
      assert w' == Run(w, calls);
      forall i | 0 <= i < |w.store.deliveries| ensures w'.store.deliveries[i].id == w.store.deliveries[i].id {
        RowIdentity(mid.store, last.op, last.now, i);
      }
      forall i | 0 <= i ensures View(w.log, i) <= View(w'.log, i) {
        EntryIsShort(mid.store, last.op, last.now);
        ViewAppended(mid.log, EntryOf(mid.store, last.op, last.now), i);
      }
    }
  }

  lemma EntryIsShort(s: Store, op: Op, now: nat)
    ensures |EntryOf(s, op, now)| <= 1
  {
  }

  // ---------- leases ----------

  /** A row shows a token exactly while it is being delivered, and is not due before that lease ends. */
  lemma TokenExactlyWhileDelivering(w: World, m: Limits, i: nat)
    requires Reachable(w, m) && i < |w.store.deliveries|
    ensures w.store.deliveries[i].token.Some? <==> w.store.deliveries[i].state == Delivering
    ensures w.store.deliveries[i].state == Delivering ==>
              w.store.deliveries[i].leaseExpires == Some(w.store.deliveries[i].nextAttempt)
  {
    hide Reachable, Tables, View;
    ReachableHolds(w, m);
  }

  /** No two leases of one delivery are unexpired and unconcluded at the same time. */
  lemma LeasesExclude(w: World, m: Limits, i: nat, j: nat, k: nat)
    requires Reachable(w, m) && i < |w.store.deliveries|
    requires var h := View(w.log, i);
             && j < |h| && h[j].Grant? && w.clock < h[j].expires && Record(h[j].token) !in h
             && k < |h| && h[k].Grant? && w.clock < h[k].expires && Record(h[k].token) !in h
    ensures j == k
  {
    hide Reachable, Tables, View, RowInv;
    ReachableHolds(w, m);
    OneLiveLease(w.store.deliveries[i], View(w.log, i), w.clock, m.maxAttempts, j, k);
  }

  /** A claim call never works on a delivery whose lease is still running. */
  lemma ClaimWaitsForLease(w: World, m: Limits, now: nat, limit: nat, i: nat, k: nat)
    requires Reachable(w, m) && w.clock <= now && i in ClaimPicks(w.store, now, limit)
    requires k < |View(w.log, i)| && View(w.log, i)[k].Grant?
    ensures View(w.log, i)[k].expires <= now || Record(View(w.log, i)[k].token) in View(w.log, i)
  {
    hide Reachable, Tables, View, ClaimPicks;
    ReachableHolds(w, m);
    ClaimPicksAre(w.store, now, limit);
    var d, h := w.store.deliveries[i], View(w.log, i);
    assert RowInv(d, h, w.clock, m.maxAttempts);
    hide Counted, Sequenced, HolderIsLatest, OneOutcomeEach;
    if Concludes(h, h[k].token, k, |h|) {
      var n :| k <= n < |h| && h[n] == Record(h[k].token);
      assert h[n] in h;
    }
  }

  /** Once a delivery has been leased again, the earlier holder can record nothing, whatever happens next. */
  lemma SupersededRecordsNothing(w: World, more: seq<Call>, m: Limits, i: nat, j: nat, k: nat,
                                 status: Option<nat>, outcome: Outcome)
    requires Reachable(w, m) && Runs(w, more, m) && i < |w.store.deliveries|
    requires j < k < |View(w.log, i)| && View(w.log, i)[j].Grant? && View(w.log, i)[k].Grant?
    ensures CompleteRow(Run(w, more).store.deliveries, w.store.deliveries[i].id, View(w.log, i)[j].token, status, outcome) < 0
  {
    hide Reachable, View, RowInv, Backed, WithinCaps;
    ReachableHolds(w, m);
    RunKeeps(w, more, m);
    RunGrows(w, more, m);
    var w' := Run(w, more);
    var d := w'.store.deliveries[i];
    assert View(w.log, i)[j] == View(w'.log, i)[j] && View(w.log, i)[k] == View(w'.log, i)[k];
    SupersededIsNotHolder(d, View(w'.log, i), w'.clock, m.maxAttempts, j, k);
    assert DeliveryRow(w'.store.deliveries, d.id) == i;
  }

  /** A lease records at most one outcome. */
  lemma LeaseRecordsOnce(w: World, more: seq<Call>, m: Limits, i: nat, token: string, status: Option<nat>,
        outcome: Outcome)
    requires Reachable(w, m) && Runs(w, more, m) && i < |w.store.deliveries| && Record(token) in View(w.log, i)
    ensures CompleteRow(Run(w, more).store.deliveries, w.store.deliveries[i].id, token, status, outcome) < 0
  {
    hide Reachable, View, Backed, WithinCaps, Counted, Accounted, Sequenced;
    ReachableHolds(w, m);
    RunKeeps(w, more, m);
    RunGrows(w, more, m);
    var w' := Run(w, more);
    assert Record(token) in View(w'.log, i);
    assert RowInv(w'.store.deliveries[i], View(w'.log, i), w'.clock, m.maxAttempts);
    assert DeliveryRow(w'.store.deliveries, w'.store.deliveries[i].id) == i;
  }

  /** Between redeliveries: at most `maxAttempts` leases, at most one pick more, and then it is settled. */
  lemma AttemptsAreBounded(w: World, m: Limits, i: nat)
    requires Reachable(w, m) && i < |w.store.deliveries|
    ensures w.store.deliveries[i].attempts == ClaimsSinceReset(View(w.log, i)) <= m.maxAttempts
    ensures PicksSinceReset(View(w.log, i)) <= m.maxAttempts + 1
    ensures PicksSinceReset(View(w.log, i)) == m.maxAttempts + 1 ==> Settled(w.store.deliveries[i])
  {
    hide Reachable, Tables, View;
    ReachableHolds(w, m);
    SettlesInFinitelyManyPicks(w.store.deliveries[i], View(w.log, i), w.clock, m.maxAttempts);
  }

  /** A picked delivery always finds its event and its endpoint. */
  lemma NothingMissing(w: World, m: Limits, i: nat, maxAttempts: nat)
    requires Reachable(w, m) && i < |w.store.deliveries|
    ensures ClaimAction(w.store, w.store.deliveries[i], maxAttempts) != Some(MISSING)
  {
    hide Reachable, RowsHold;
    ReachableHolds(w, m);
  }

  // ---------- disabled endpoints ----------

  /** A delivery of a disabled endpoint only winds down: a leased one may report back, a waiting one may be stopped. */
  ghost predicate WindsDown(d: Delivery, d': Delivery) {
    || d' == d
    || (!Settled(d) && d'.token == None && d'.attempts == d.attempts
        && (Settled(d') || (d'.state == RetryScheduled && d.state == Delivering)))
  }

  ghost predicate NoNewWork(h: History, h': History) {
    h <= h' && forall n :: |h| <= n < |h'| ==> !h'[n].Grant? && !h'[n].Reset?
  }

  ghost predicate Quiet(w: World, w': World, id: string) {
    forall i :: 0 <= i < |w'.store.deliveries| && w'.store.deliveries[i].subscription == id ==>
      && i < |w.store.deliveries| && w.store.deliveries[i].subscription == id
      && WindsDown(w.store.deliveries[i], w'.store.deliveries[i])
      && NoNewWork(View(w.log, i), View(w'.log, i))
  }

  ghost predicate Off(w: World, k: nat, id: string) {
    k < |w.store.subs| && w.store.subs[k].id == id && !w.store.subs[k].active
  }

  lemma RowWindsDown(s: Store, op: Op, now: nat, i: nat)
    requires i < |s.deliveries| && !IsActive(s.subs, s.deliveries[i].subscription) && LeaseShape(s.deliveries[i])
    ensures WindsDown(s.deliveries[i], RowAfter(s, op, now, i))
    ensures forall e :: e in EntryOf(s, op, now) ==> forall x :: x in Of(e, i) ==> !x.Grant? && !x.Reset?
  {
    if op.Claim? {
      hide IsActive, ClaimPicks, EntryOf, ClaimAction;
      ClaimAt(s, op, now, i);
    } else if op.Disable? {
      hide DrainRows;
      DrainRowsAre(s, op.owner, op.id);
    } else {
      hide DeliveryRow, IsActive;
    }
  }

  lemma StepStaysQuiet(w: World, op: Op, now: nat, m: Limits, k: nat, id: string)
    requires Inv(w, m) && Allowed(w, op, now, m) && Off(w, k, id)
    ensures Off(Next(w, op, now), k, id) && Quiet(w, Next(w, op, now), id)
  {
    hide RowAfter, SubsAfter, EntryOf, View, Of, Counted, Accounted, Sequenced, HolderIsLatest, OneOutcomeEach,
      WithinCaps,
      WindsDown, NoNewWork;
    var w' := Next(w, op, now);
    SubsEvolve(w.store.subs, op, now);
    assert SubRow(w.store.subs, id) == k;
    if op.Emit? { FanOutFresh(w.store, op.event); }
    forall i | 0 <= i < |w'.store.deliveries| && w'.store.deliveries[i].subscription == id
      ensures i < |w.store.deliveries| && w.store.deliveries[i].subscription == id
              && WindsDown(w.store.deliveries[i], w'.store.deliveries[i])
              && NoNewWork(View(w.log, i), View(w'.log, i))
    {
      assert i >= |w.store.deliveries| ==> FreshRow(w'.store.deliveries[i], op.event, w.store.subs);
      assert RowInv(w.store.deliveries[i], View(w.log, i), w.clock, m.maxAttempts);
      RowIdentity(w.store, op, now, i);
      RowWindsDown(w.store, op, now, i);
      EntryIsShort(w.store, op, now);
      NoNewWorkAppended(w.log, EntryOf(w.store, op, now), i);
    }
  }

  lemma NoNewWorkAppended(log: seq<Entry>, more: seq<Entry>, i: nat)
    requires |more| <= 1
    requires forall e :: e in more ==> forall x :: x in Of(e, i) ==> !x.Grant? && !x.Reset?
    ensures NoNewWork(View(log, i), View(log + more, i))
  {
    hide View, Of;
    ViewAppended(log, more, i);
    if more != [] { assert more[0] in more; }
  }

  /**
   * Once an endpoint is disabled it stays so, and in every continuation no delivery of it is
   * created, leased or rescheduled, however many rows the disabling itself left undrained.
   */
  lemma {:induction false} DisabledForGood(w: World, more: seq<Call>, m: Limits, k: nat, id: string)
    requires Reachable(w, m) && Runs(w, more, m) && Off(w, k, id)
    ensures Off(Run(w, more), k, id) && Quiet(w, Run(w, more), id)
  {
    hide Reachable, View, Next, Inv;
    ReachableHolds(w, m);
    if more != [] {
      var init, last := more[..|more| - 1], more[|more| - 1];
      DisabledForGood(w, init, m, k, id);
      RunKeeps(w, init, m);
      StepStaysQuiet(Run(w, init), last.op, last.now, m, k, id);
    }
  }

  /** Whatever the disabling left behind, the next claim call that reaches it stops it. */
  lemma LeftoversAreStopped(w: World, m: Limits, k: nat, i: nat, leaseMs: nat, limit: nat, token: string,
        maxAttempts: nat, now: nat)
    requires Reachable(w, m) && i in ClaimPicks(w.store, now, limit)
    requires i < |w.store.deliveries| && Off(w, k, w.store.deliveries[i].subscription)
    ensures RowAfter(w.store, Claim(leaseMs, limit, token, maxAttempts), now, i)
            == Stopped(w.store.deliveries[i], DISABLED, now)
  {
    hide Reachable, RowsHold, ClaimPicks;
    ReachableHolds(w, m);
    assert SubRow(w.store.subs, w.store.deliveries[i].subscription) == k;
  }

  function WaitingIn(ds: seq<Delivery>, id: string, state: State): seq<nat> {
    Where(ds, (d: Delivery) => d.subscription == id && d.state == state)
  }

  ghost predicate NoneWaiting(ds: seq<Delivery>, id: string) {
    forall i :: 0 <= i < |ds| && ds[i].subscription == id ==> ds[i].state != Pending && ds[i].state != RetryScheduled
  }

  lemma DrainedExactly(s: Store, owner: string, id: string, state: State)
    requires Owned(s.subs, owner, id) && state in {Pending, RetryScheduled}
    ensures (forall i :: i in WaitingIn(s.deliveries, id, state) ==> i in DrainRows(s, owner, id))
            <==> |WaitingIn(s.deliveries, id, state)| <= DRAIN_READ
  {
    var rows := WaitingIn(s.deliveries, id, state);
    WhereSelects(s.deliveries, (d: Delivery) => d.subscription == id && d.state == state);
    QueuedAre(s.deliveries, id, Pending);
    QueuedAre(s.deliveries, id, RetryScheduled);
    if |rows| > DRAIN_READ {
      var i := rows[DRAIN_READ];
      assert i in rows;
      assert i !in AtMost(rows, DRAIN_READ);
      hide QueuedIn, Owned;
      assert i !in DrainRows(s, owner, id) by { QueuedSplit(s.deliveries, id, state); }
    } else {
      QueuedSplit(s.deliveries, id, state);
    }
  }

  lemma QueuedSplit(ds: seq<Delivery>, id: string, state: State)
    ensures QueuedIn(ds, id, state) == AtMost(WaitingIn(ds, id, state), DRAIN_READ)
  {
  }

  /**
   * Disabling switches the endpoint off, stops each row it reads, and leaves no row of the endpoint
   * waiting exactly when each waiting state has at most as many rows as one read returns.
   */
  lemma DisableDrains(s: Store, owner: string, id: string, now: nat)
    requires Owned(s.subs, owner, id)
    ensures var s' := Apply(s, Disable(owner, id), now);
            && !IsActive(s'.subs, id)
            && (NoneWaiting(s'.deliveries, id) <==>
                |WaitingIn(s.deliveries, id, Pending)| <= 1_000 && |WaitingIn(s.deliveries, id, RetryScheduled)| <= 1_000)
            && (forall i :: 0 <= i < |s.deliveries| ==>
                  s'.deliveries[i] == s.deliveries[i]
                  || (s.deliveries[i].subscription == id && s'.deliveries[i] == Stopped(s.deliveries[i], DISABLED, now)))
  {
    hide SubsAfter, IsActive, Owned;
    DisabledIsOff(s.subs, owner, id, now);
    DrainRowsAre(s, owner, id);
    DrainedExactly(s, owner, id, Pending);
    DrainedExactly(s, owner, id, RetryScheduled);
    WhereSelects(s.deliveries, (d: Delivery) => d.subscription == id && d.state == Pending);
    WhereSelects(s.deliveries, (d: Delivery) => d.subscription == id && d.state == RetryScheduled);
    hide DrainRows;
    var s' := Apply(s, Disable(owner, id), now);
    forall i | 0 <= i < |s.deliveries| ensures
        s'.deliveries[i] == if i in DrainRows(s, owner, id) then Stopped(s.deliveries[i], DISABLED, now)
          else s.deliveries[i]
    {
    }
  }

  lemma DisabledIsOff(subs: seq<Subscription>, owner: string, id: string, now: nat)
    requires Owned(subs, owner, id)
    ensures !IsActive(SubsAfter(subs, Disable(owner, id), now), id)
  {
    var p := (s: Subscription) => s.id == id;
    var subs' := SubsAfter(subs, Disable(owner, id), now);
    WhereAgrees(subs, subs', p);
    assert SubRow(subs', id) == SubRow(subs, id);
  }

  /** A picked delivery is leased exactly when its endpoint is active and attempts are left. */
  lemma LeasedExactlyWhen(w: World, m: Limits, op: Op, now: nat, i: nat)
    requires Reachable(w, m) && op.Claim? && i in ClaimPicks(w.store, now, op.limit) && i < |w.store.deliveries|
    ensures var d := w.store.deliveries[i];
            var d' := RowAfter(w.store, op, now, i);
            if IsActive(w.store.subs, d.subscription) && d.attempts < op.maxAttempts then
              d'.state == Delivering && d'.token == Some(op.token) && d'.attempts == d.attempts + 1
              && d'.leaseExpires == Some(now + op.leaseMs)
            else d'.state == Exhausted && d'.token == None && d'.attempts == d.attempts
  {
    hide Reachable, ClaimPicks, RowsHold;
    ReachableHolds(w, m);
    assert SubRow(w.store.subs, w.store.deliveries[i].subscription) >= 0;
  }
}
