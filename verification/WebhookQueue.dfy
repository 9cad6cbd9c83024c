/** The webhook tables as the store's operations rewrite them (`convex/webhooks.ts`). */
module WebhookQueue {
  import opened Common
  import opened Rows
  import opened Deliveries
  import opened Leases
  import opened Webhooks

  datatype RedeliverResult = NotFound | InFlight | EndpointDisabled | Scheduled(delivery: Delivery)

  /** What the worker is handed: the leased row, the event's body, and where and how to deliver it. */
  datatype Lease = Lease(delivery: Delivery, body: string, url: string, secrets: string)

  function LeaseOf(s: Store, d: Delivery, op: Op, now: nat): Lease
    requires op.Claim? && ClaimAction(s, d, op.maxAttempts) == None
  {
    var sub := s.subs[SubRow(s.subs, d.subscription)];
    Lease(Granted(d, op.token, now, op.leaseMs), s.events[EventRow(s.events, d.event)].body, sub.url, sub.secrets)
  }

  /** The picked rows that are leased, in pick order. */
  function LeasedRows(s: Store, rows: seq<nat>, op: Op): seq<nat>
    requires op.Claim?
  {
    Keep(rows, (r: nat) => r < |s.deliveries| && ClaimAction(s, s.deliveries[r], op.maxAttempts) == None)
  }

  /**
   * The lease is of the row as now stored, held under this call's token until its expiry, with the
   * body of its stored event and the address and secrets of its stored, active endpoint.
   */
  ghost predicate HandsOut(lease: Lease, s: Store, d: Delivery, op: Op, now: nat)
    requires op.Claim?
  {
    && lease.delivery == d
    && d.state == Delivering && d.token == Some(op.token) && d.leaseExpires == Some(now + op.leaseMs)
    && (exists k :: 0 <= k < |s.events| && s.events[k].id == d.event && lease.body == s.events[k].body)
    && (exists k :: 0 <= k < |s.subs| && s.subs[k].id == d.subscription && s.subs[k].active
                    && lease.url == s.subs[k].url && lease.secrets == s.subs[k].secrets)
  }

  /** The leases a claim call hands out, in pick order. */
  function Leased(s: Store, rows: seq<nat>, op: Op, now: nat): seq<Lease>
    requires op.Claim?
  {
    if rows == [] then []
    else
      var r := rows[|rows| - 1];
      Leased(s, rows[..|rows| - 1], op, now)
      + if r < |s.deliveries| && ClaimAction(s, s.deliveries[r], op.maxAttempts) == None
        then [LeaseOf(s, s.deliveries[r], op, now)] else []
  }

  /** Rows listed in `rows` have been leased or stopped, all others are as they were. */
  ghost predicate PickedAt(s: Store, after: seq<Delivery>, rows: seq<nat>, op: Op, now: nat)
    requires op.Claim?
  {
    && |after| == |s.deliveries|
    && (forall i :: 0 <= i < |after| && i !in rows ==> after[i] == s.deliveries[i])
    && (forall i :: 0 <= i < |after| && i in rows ==>
          after[i] == PickedRow(s.deliveries[i], ClaimAction(s, s.deliveries[i], op.maxAttempts), now, op.leaseMs, op.token))
  }

  /** Rows listed in `rows` are stopped, all others are as they were. */
  ghost predicate StoppedAt(before: seq<Delivery>, after: seq<Delivery>, rows: seq<nat>, why: string, now: nat) {
    && |after| == |before|
    && (forall i :: 0 <= i < |before| && i !in rows ==> after[i] == before[i])
    && (forall i :: 0 <= i < |before| && i in rows ==> after[i] == Stopped(before[i], why, now))
  }

  class Queue {
    var subs: seq<Subscription>
    var events: seq<Event>
    var deliveries: seq<Delivery>

    function Contents(): Store
      reads this
    {
      Store(subs, events, deliveries)
    }

    constructor ()
      ensures Contents() == START.store
    {
      subs, events, deliveries := [], [], [];
    }

    method Emit(e: Event) returns (created: bool)
      modifies this
      ensures Contents() == EmitEvent(old(Contents()), e)
      ensures created == !Known(old(events), e)
      ensures created <==> forall k :: 0 <= k < |old(events)| ==>
                var x := old(events)[k];
                x.id != e.id && !(x.receipt == e.receipt && x.eventType == e.eventType && x.version == e.version)
    {
      hide DeliveryId, NewDelivery, Recipients, Known, Receives;
      KnownIs(events, e);
      if Known(events, e) { return false; }
      events := events + [e];
      var recipients := Recipients(subs, e);
      RecipientsAre(subs, e);
      var n := 0;
      while n < |recipients|
        invariant 0 <= n <= |recipients|
        invariant subs == old(subs) && events == old(events) + [e]
        invariant deliveries == FanOut(old(deliveries), subs, recipients[..n], e)
      {
        assert recipients[..n + 1][..n] == recipients[..n];
        var s := subs[recipients[n]];
        n := n + 1;
        if !s.active { continue; }
        if DeliveryRow(deliveries, DeliveryId(e.id, s.id)) >= 0 { continue; }
        deliveries := deliveries + [NewDelivery(e, s)];
      }
      assert recipients[..n] == recipients;
      created := true;
    }

    method CreateSubscription(sub: Subscription, maxActive: nat, maxRows: nat, now: nat) returns (created: bool)
      modifies this
      ensures Contents() == Apply(old(Contents()), Create(sub, maxActive, maxRows), now)
      ensures created == MayCreate(old(subs), sub, maxActive, maxRows)
      ensures created <==>
                && |RowsOf(old(subs), sub.owner)| < maxRows && |ActiveRowsOf(old(subs), sub.owner)| < maxActive
                && forall k :: 0 <= k < |old(subs)| ==> old(subs)[k].id != sub.id
      ensures created ==> subs == old(subs) + [sub.(active := true)]
    {
      created := false;
      if |RowsOf(subs, sub.owner)| < maxRows && |ActiveRowsOf(subs, sub.owner)| < maxActive {
        if SubRow(subs, sub.id) < 0 {
          subs := subs + [sub.(active := true)];
          created := true;
        }
      }
      assert Contents().deliveries == Apply(old(Contents()), Create(sub, maxActive, maxRows), now).deliveries;
    }

    method RotateSecrets(owner: string, id: string, secrets: string, now: nat) returns (found: bool)
      modifies this
      ensures Contents() == Apply(old(Contents()), Rotate(owner, id, secrets), now)
      ensures found == (Owned(old(subs), owner, id) && IsActive(old(subs), id))
      ensures found ==> subs == old(subs)[SubRow(old(subs), id) :=
          old(subs)[SubRow(old(subs), id)].(secrets := secrets, updated := now)]
    {
      var r := SubRow(subs, id);
      found := r >= 0 && subs[r].owner == owner && subs[r].active;
      if found { subs := subs[r := subs[r].(secrets := secrets, updated := now)]; }
      assert Contents().deliveries == Apply(old(Contents()), Rotate(owner, id, secrets), now).deliveries;
    }

    /** Stops the first rows of one waiting state. */
    method Drain(id: string, state: State, now: nat)
      modifies this`deliveries
      ensures StoppedAt(old(deliveries), deliveries, QueuedIn(old(deliveries), id, state), DISABLED, now)
    {
      hide Stopped;
      var queued := QueuedIn(deliveries, id, state);
      QueuedAre(deliveries, id, state);
      var p := (d: Delivery) => d.subscription == id && d.state == state;
      WhereSelects(deliveries, p);
      AtMostKeeps(Where(deliveries, p), DRAIN_READ);
      hide QueuedIn, StoppedAt;
      NoneStopped(deliveries, now);
      var n := 0;
      while n < |queued|
        invariant 0 <= n <= |queued| && |deliveries| == |old(deliveries)|
        invariant StoppedAt(old(deliveries), deliveries, queued[..n], DISABLED, now)
      {
        assert queued[n] in queued && queued[n] !in queued[..n];
        assert queued[..n + 1] == queued[..n] + [queued[n]];
        StoppedOneMore(old(deliveries), deliveries, queued[..n], queued[n], DISABLED, now);
        deliveries := deliveries[queued[n] := Stopped(deliveries[queued[n]], DISABLED, now)];
        n := n + 1;
      }
      assert queued[..n] == queued;
    }

    method DisableSubscription(owner: string, id: string, now: nat) returns (found: bool)
      modifies this
      ensures Contents() == Apply(old(Contents()), Disable(owner, id), now)
      ensures found == Owned(old(subs), owner, id)
    {
      ghost var start := Contents();
      var r := SubRow(subs, id);
      found := r >= 0 && subs[r].owner == owner;
      if found {
        if subs[r].active { subs := subs[r := subs[r].(active := false, updated := now)]; }
        Drain(id, Pending, now);
        ghost var between := deliveries;
        Drain(id, RetryScheduled, now);
        DrainTwice(start, between, deliveries, owner, id, now);
      } else {
        assert Contents().deliveries == Apply(start, Disable(owner, id), now).deliveries;
      }
    }

    method ClaimDeliveries(op: Op, now: nat) returns (claimed: seq<Lease>)
      requires op.Claim?
      modifies this
      ensures Contents() == Apply(old(Contents()), op, now)
      ensures claimed == Leased(old(Contents()), Picks(old(deliveries), now, ClampedLimit(op.limit)), op, now)
      ensures var rows := LeasedRows(old(Contents()), Picks(old(deliveries), now, ClampedLimit(op.limit)), op);
              && |claimed| == |rows|
              && forall n :: 0 <= n < |claimed| ==>
                   rows[n] < |deliveries| && HandsOut(claimed[n], Contents(), deliveries[rows[n]], op, now)
    {
      hide Picks, ClaimAction, Due, PickedRow, Apply, PickedAt, Leased, LeaseOf;
      ghost var start := Contents();
      var picks := Picks(deliveries, now, ClampedLimit(op.limit));
      PicksAre(deliveries, now, ClampedLimit(op.limit));
      claimed := [];
      NonePicked(start, op, now);
      var n := 0;
      while n < |picks|
        invariant 0 <= n <= |picks|
        invariant subs == start.subs && events == start.events
        invariant |deliveries| == |start.deliveries|
        invariant PickedAt(start, deliveries, picks[..n], op, now)
        invariant claimed == Leased(start, picks[..n], op, now)
      {
        var r := picks[n];
        assert r in picks && r !in picks[..n];
        assert picks[..n + 1] == picks[..n] + [r];
        PickedOneMore(start, Contents(), picks[..n], r, op, now);
        var d := deliveries[r];
        var action := ClaimAction(Contents(), d, op.maxAttempts);
        if action == None { claimed := claimed + [LeaseOf(Contents(), d, op, now)]; }
        deliveries := deliveries[r := PickedRow(d, action, now, op.leaseMs, op.token)];
        n := n + 1;
      }
      assert picks[..n] == picks;
      PickedIsApplied(start, deliveries, op, now);
      LeasesHandOut(start, Contents(), picks, op, now);
    }

    method CompleteDelivery(id: string, token: string, status: Option<nat>, outcome: Outcome, now: nat)
      returns (recorded: bool)
      modifies this
      ensures Contents() == Apply(old(Contents()), Complete(id, token, status, outcome), now)
      ensures recorded == (CompleteRow(old(deliveries), id, token, status, outcome) >= 0)
      ensures recorded <==>
                var r := DeliveryRow(old(deliveries), id);
                && r >= 0 && old(deliveries)[r].state == Delivering && old(deliveries)[r].token == Some(token)
                && (status == None || 100 <= status.value <= 599)
                && (outcome == Success || outcome.error != "")
      ensures recorded ==>
                var r := CompleteRow(old(deliveries), id, token, status, outcome);
                var d := deliveries[r];
                && old(deliveries)[r].token == Some(token) && d.token == None
                && d.attempts == old(deliveries)[r].attempts
                && d.lastStatus == status
                && (outcome.Success? <==> d.state == Delivered) && (outcome.Abandon? <==> d.state == Exhausted)
                && (outcome.Success? ==> d.deliveredAt == Some(now) && d.lastError == None)
                && (outcome.Retry? ==> d.state == RetryScheduled && d.nextAttempt == outcome.nextAttempt)
                && (!outcome.Success? ==>
                      && d.lastError.Some? && d.lastError.value <= outcome.error
                      && |d.lastError.value| == if |outcome.error| <= 200 then |outcome.error| else 200)
    {
      ghost var start := Contents();
      var r := DeliveryRow(deliveries, id);
      recorded := r >= 0 && deliveries[r].state == Delivering
          && deliveries[r].token == Some(token) && MayRecord(status, outcome);
      if recorded { deliveries := deliveries[r := Concluded(deliveries[r], outcome, status, now)]; }
      assert Contents().deliveries == Apply(start, Complete(id, token, status, outcome), now).deliveries;
    }

    method RedeliverWebhook(owner: string, id: string, now: nat) returns (result: RedeliverResult)
      modifies this
      ensures Contents() == Apply(old(Contents()), Redeliver(owner, id), now)
      ensures result.Scheduled? <==> RedeliverRow(old(Contents()), owner, id) >= 0
      ensures var r := DeliveryRow(old(deliveries), id);
              && (result == NotFound <==> r < 0 || old(deliveries)[r].owner != owner)
              && (result != NotFound ==>
                    && (result == InFlight <==> old(deliveries)[r].state in {Pending, Delivering})
                    && (result == EndpointDisabled <==>
                          old(deliveries)[r].state !in {Pending, Delivering}
                          && !IsActive(old(subs), old(deliveries)[r].subscription)))
      ensures result.Scheduled? ==> result.delivery in deliveries && result.delivery.id == id
      ensures result.Scheduled? ==> Due(result.delivery, now) && result.delivery.state == Pending
      ensures result.Scheduled? ==> result.delivery.attempts == 0 && result.delivery.deliveredAt == None
    {
      ghost var start := Contents();
      var r := DeliveryRow(deliveries, id);
      if r < 0 || deliveries[r].owner != owner {
        result := NotFound;
      } else if deliveries[r].state == Pending || deliveries[r].state == Delivering {
        result := InFlight;
      } else if !IsActive(subs, deliveries[r].subscription) {
        result := EndpointDisabled;
      } else {
        deliveries := deliveries[r := Rescheduled(deliveries[r], now)];
        result := Scheduled(deliveries[r]);
      }
      assert Contents().deliveries == Apply(start, Redeliver(owner, id), now).deliveries;
    }
  }

  lemma SameAction(a: Store, b: Store, d: Delivery, maxAttempts: nat)
    requires a.subs == b.subs && a.events == b.events
    ensures ClaimAction(a, d, maxAttempts) == ClaimAction(b, d, maxAttempts)
  {
  }

  lemma NonePicked(s: Store, op: Op, now: nat)
    requires op.Claim?
    ensures PickedAt(s, s.deliveries, [], op, now) && Leased(s, [], op, now) == []
  {
  }

  lemma PickedOneMore(s: Store, mid: Store, rows: seq<nat>, r: nat, op: Op, now: nat)
    requires op.Claim? && mid.subs == s.subs && mid.events == s.events
    requires PickedAt(s, mid.deliveries, rows, op, now) && r !in rows && r < |s.deliveries|
    ensures var d := mid.deliveries[r];
            var action := ClaimAction(mid, d, op.maxAttempts);
            && PickedAt(s, mid.deliveries[r := PickedRow(d, action, now, op.leaseMs, op.token)], rows + [r], op, now)
            && Leased(s, rows + [r], op, now)
               == Leased(s, rows, op, now) + if action == None then [LeaseOf(mid, d, op, now)] else []
  {
    SameAction(s, mid, s.deliveries[r], op.maxAttempts);
    hide ClaimAction, PickedRow, Granted, SubRow, EventRow;
    assert (rows + [r])[..|rows|] == rows;
  }

  lemma NoneStopped(ds: seq<Delivery>, now: nat)
    ensures StoppedAt(ds, ds, [], DISABLED, now)
  {
  }

  lemma StoppedOneMore(before: seq<Delivery>, after: seq<Delivery>, rows: seq<nat>, r: nat, why: string, now: nat)
    requires StoppedAt(before, after, rows, why, now) && r !in rows && r < |before|
    ensures StoppedAt(before, after[r := Stopped(after[r], why, now)], rows + [r], why, now)
  {
    hide Stopped;
  }

  lemma OneHandsOut(s: Store, s': Store, d: Delivery, op: Op, now: nat)
    requires op.Claim? && s'.subs == s.subs && s'.events == s.events && ClaimAction(s, d, op.maxAttempts) == None
    ensures HandsOut(LeaseOf(s, d, op, now), s', Granted(d, op.token, now, op.leaseMs), op, now)
  {
    var sub, event := SubRow(s.subs, d.subscription), EventRow(s.events, d.event);
    assert s'.events[event].id == d.event && s'.subs[sub].id == d.subscription;
  }

  /** Every lease handed out is a picked row's, as stored after the call. */
  lemma {:induction false} LeasesHandOut(s: Store, s': Store, rows: seq<nat>, op: Op, now: nat)
    requires op.Claim? && s'.subs == s.subs && s'.events == s.events && |s'.deliveries| == |s.deliveries|
    requires forall i :: 0 <= i < |s.deliveries| && i in rows ==>
               s'.deliveries[i]
               == PickedRow(s.deliveries[i], ClaimAction(s, s.deliveries[i], op.maxAttempts), now, op.leaseMs, op.token)
    ensures var leased := LeasedRows(s, rows, op); var leases := Leased(s, rows, op, now);
            && |leases| == |leased|
            && forall n :: 0 <= n < |leases| ==>
                 leased[n] < |s'.deliveries| && HandsOut(leases[n], s', s'.deliveries[leased[n]], op, now)
  {
    hide ClaimAction, HandsOut, LeaseOf, Granted;
    if rows != [] {
      var init, r := rows[..|rows| - 1], rows[|rows| - 1];
      assert rows == init + [r];
      LeasesHandOut(s, s', init, op, now);
      if r < |s.deliveries| && ClaimAction(s, s.deliveries[r], op.maxAttempts) == None {
        OneHandsOut(s, s', s.deliveries[r], op, now);
      }
    }
  }

  lemma PickedIsApplied(s: Store, after: seq<Delivery>, op: Op, now: nat)
    requires op.Claim? && PickedAt(s, after, Picks(s.deliveries, now, ClampedLimit(op.limit)), op, now)
    ensures Apply(s, op, now) == Store(s.subs, s.events, after)
  {
    hide Picks, ClaimAction, PickedRow;
    var target := Apply(s, op, now).deliveries;
    assert forall i :: 0 <= i < |after| ==> after[i] == target[i];
  }

  /** Draining the second state reads the same rows whether or not the first was drained before it. */
  lemma DrainTwice(s: Store, between: seq<Delivery>, after: seq<Delivery>, owner: string, id: string, now: nat)
    requires Owned(s.subs, owner, id)
    requires StoppedAt(s.deliveries, between, QueuedIn(s.deliveries, id, Pending), DISABLED, now)
    requires StoppedAt(between, after, QueuedIn(between, id, RetryScheduled), DISABLED, now)
    ensures after == Apply(s, Disable(owner, id), now).deliveries
  {
    var p := (d: Delivery) => d.subscription == id && d.state == RetryScheduled;
    QueuedAre(s.deliveries, id, Pending);
    QueuedAre(s.deliveries, id, RetryScheduled);
    forall i | 0 <= i < |between| ensures p(between[i]) == p(s.deliveries[i]) {
    }
    WhereAgrees(between, s.deliveries, p);
    assert QueuedIn(between, id, RetryScheduled) == QueuedIn(s.deliveries, id, RetryScheduled);
    hide QueuedIn, Stopped, Owned;
    var target := Apply(s, Disable(owner, id), now).deliveries;
    forall i | 0 <= i < |after| ensures after[i] == target[i] {
    }
  }
}
