/** What the webhook operations decide and write, in plain terms (`convex/webhooks.ts`). */
module WebhookRules {
  import opened Common
  import opened Rows
  import opened Deliveries
  import opened Leases
  import opened Webhooks
  import opened WebhookFanOut

  // ---------- emitting ----------

  /** A new event's delivery to an endpoint, as it is first stored. */
  ghost predicate FreshFor(d: Delivery, e: Event, sub: Subscription) {
    && d.id == DeliveryId(e.id, sub.id) && d.event == e.id && d.subscription == sub.id
    && d.owner == e.owner && d.eventType == e.eventType && d.receipt == e.receipt
    && d.state == Pending && d.attempts == 0 && d.nextAttempt == e.created
    && d.token == None && d.leaseExpires == None && d.lastStatus == None && d.lastError == None
    && d.deliveredAt == None && d.created == e.created && d.updated == e.created
  }

  /** The endpoints of the event's owner that existed when it occurred and were created before endpoint `k`. */
  function CreatedBefore(subs: seq<Subscription>, e: Event, k: nat): set<nat>
    requires k < |subs|
  {
    set j: nat | j < |subs| && subs[j].owner == e.owner && subs[j].created <= e.occurred
                 && (subs[j].created < subs[k].created || (subs[j].created == subs[k].created && j < k))
  }

  /**
   * A new event's delivery to an active endpoint is stored if and only if the endpoint is of the
   * event's owner and existed when it occurred, fewer than 100 of the owner's were created before it,
   * no stored delivery has that id, and no active one of those has the same tail.
   */
  lemma DeliveredExactly(s: Store, e: Event, k: nat)
    requires DistinctIds(s.deliveries) && DistinctSubs(s.subs)
    requires forall n :: 0 <= n < |s.events| ==>
               var x := s.events[n];
               x.id != e.id && !(x.receipt == e.receipt && x.eventType == e.eventType && x.version == e.version)
    requires k < |s.subs| && s.subs[k].active
    ensures var after := EmitEvent(s, e).deliveries;
            (exists i :: |s.deliveries| <= i < |after| && FreshFor(after[i], e, s.subs[k])) <==>
            && s.subs[k].owner == e.owner && s.subs[k].created <= e.occurred
            && |CreatedBefore(s.subs, e, k)| < 100
            && (forall i :: 0 <= i < |s.deliveries| ==> s.deliveries[i].id != DeliveryId(e.id, s.subs[k].id))
            && (forall j :: j in CreatedBefore(s.subs, e, k) && s.subs[j].active ==>
                  Tail(s.subs[j].id) != Tail(s.subs[k].id))
  {
    KnownIs(s.events, e);
    ServedExactly(s, e, k);
    assert CreatedBefore(s.subs, e, k) == Ahead(s.subs, e, k);
    hide EmitEvent, DeliveryId, Tail, DistinctIds, DistinctSubs, Known, Ahead, CreatedBefore;
    var after := EmitEvent(s, e).deliveries;
    forall i | |s.deliveries| <= i < |after|
        ensures FreshFor(after[i], e, s.subs[k]) <==> after[i] == NewDelivery(e, s.subs[k]) {
    }
    var r := DeliveryRow(s.deliveries, DeliveryId(e.id, s.subs[k].id));
    assert r < 0 <==> forall i :: 0 <= i < |s.deliveries| ==> s.deliveries[i].id != DeliveryId(e.id, s.subs[k].id);
  }

  // ---------- claiming ----------

  /** A claim call takes one to fifty rows, and as many as are due. */
  lemma ClaimCount(s: Store, now: nat, limit: nat)
    ensures var due := set i: nat | i < |s.deliveries| && s.deliveries[i].nextAttempt <= now
                                    && (s.deliveries[i].state == Pending || s.deliveries[i].state == RetryScheduled
                                        || s.deliveries[i].state == Delivering);
            var most := if limit < 1 then 1 else if limit > 50 then 50 else limit;
            |ClaimPicks(s, now, limit)| == if |due| <= most then |due| else most
  {
    var due := set i: nat | i < |s.deliveries| && s.deliveries[i].nextAttempt <= now
                            && (s.deliveries[i].state == Pending || s.deliveries[i].state == RetryScheduled
                                || s.deliveries[i].state == Delivering);
    assert due == AllDue(s.deliveries, now);
    PickCount(s.deliveries, now, ClampedLimit(limit));
    PicksAre(s.deliveries, now, ClampedLimit(limit));
    ElementsCount(Picks(s.deliveries, now, ClampedLimit(limit)));
    hide Picks, AllDue;
  }

  /** Why a picked row is leased or not, with the texts that are stored. */
  lemma ClaimVerdict(s: Store, d: Delivery, maxAttempts: nat)
    ensures var action := ClaimAction(s, d, maxAttempts);
            var event := exists k :: 0 <= k < |s.events| && s.events[k].id == d.event;
            var endpoint := exists k :: 0 <= k < |s.subs| && s.subs[k].id == d.subscription;
            && (!event || !endpoint ==> action == Some("Event or endpoint record missing"))
            && (event && endpoint && !IsActive(s.subs, d.subscription) ==>
                  action == Some("Endpoint disabled before delivery"))
            && (event && endpoint && IsActive(s.subs, d.subscription) && d.attempts >= maxAttempts ==>
                  action == Some("Attempt limit reached; the last attempt's outcome was not recorded"))
            && (event && endpoint && IsActive(s.subs, d.subscription) && d.attempts < maxAttempts ==> action == None)
  {
    var event, sub := EventRow(s.events, d.event), SubRow(s.subs, d.subscription);
    hide EventRow, SubRow;
    if event >= 0 { assert s.events[event].id == d.event; }
    if sub >= 0 { assert s.subs[sub].id == d.subscription; }
  }

  // ---------- what is written to a row ----------

  /** Each write to a delivery, field by field; every field not named keeps its value. */
  lemma RowWrites(d: Delivery, token: string, why: string, now: nat, leaseMs: nat)
    ensures Granted(d, token, now, leaseMs)
         == d.(state := Delivering, attempts := d.attempts + 1, token := Some(token),
               leaseExpires := Some(now + leaseMs), nextAttempt := now + leaseMs, updated := now)
    ensures Stopped(d, why, now)
         == d.(state := Exhausted, token := None, leaseExpires := None, lastError := Some(why), updated := now)
    ensures Rescheduled(d, now)
         == d.(state := Pending, attempts := 0, nextAttempt := now, token := None, leaseExpires := None,
               deliveredAt := None, updated := now)
  {
  }

  /** Disabling writes to a waiting row of the endpoint only that it was stopped, why and when. */
  lemma DisableWrites(s: Store, owner: string, id: string, now: nat, i: nat)
    requires i < |s.deliveries| && i in DrainRows(s, owner, id)
    ensures s.deliveries[i].subscription == id
            && (s.deliveries[i].state == Pending || s.deliveries[i].state == RetryScheduled)
    ensures Apply(s, Disable(owner, id), now).deliveries[i]
         == s.deliveries[i].(state := Exhausted, token := None, leaseExpires := None,
                             lastError := Some("Endpoint disabled before delivery"), updated := now)
  {
    DrainRowsAre(s, owner, id);
    hide DrainRows;
  }
}
