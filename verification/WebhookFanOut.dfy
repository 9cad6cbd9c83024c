/**
 * Which endpoints a new event reaches (`convex/webhooks.ts`): exactly those within one read of
 * the owner's endpoints whose delivery id is not already taken.
 */
module WebhookFanOut {
  import opened Common
  import opened Rows
  import opened Deliveries
  import opened Webhooks

  // ---------- the bounded read ----------

  /** The recipients that come before endpoint `k` in order of creation. */
  function Ahead(subs: seq<Subscription>, e: Event, k: nat): set<nat> {
    set j: nat | j < |subs| && Receives(subs[j], e) && CreationOrder(subs)(j, k)
  }

  lemma CreationOrderIsStrict(subs: seq<Subscription>)
    ensures StrictOrder(CreationOrder(subs))
  {
  }

  /** A recipient's place in the read is the number of recipients ahead of it. */
  lemma RecipientsInOrder(subs: seq<Subscription>, e: Event, k: nat)
    requires k < |subs| && Receives(subs[k], e)
    ensures Distinct(Recipients(subs, e))
    ensures k in Recipients(subs, e) <==> |Ahead(subs, e, k)| < FAN_OUT_READ
    ensures k in Recipients(subs, e) ==>
              && |Ahead(subs, e, k)| < |Recipients(subs, e)| && Recipients(subs, e)[|Ahead(subs, e, k)|] == k
              && Elements(Recipients(subs, e)[..|Ahead(subs, e, k)|]) == Ahead(subs, e, k)
  {
    hide CreationOrder, Sort, Where, Ahead;
    var less := CreationOrder(subs);
    var sorted := Sort(Where(subs, (s: Subscription) => Receives(s, e)), less);
    InCreationOrder(subs, e);
    var n :| 0 <= n < |sorted| && sorted[n] == k;
    PlaceInOrder(sorted, less, n);
    AheadIs(subs, e, k, sorted);
    AtMostKeeps(sorted, FAN_OUT_READ);
    ReadUpTo(sorted, FAN_OUT_READ, n);
  }

  lemma InCreationOrder(subs: seq<Subscription>, e: Event)
    ensures var sorted := Sort(Where(subs, (s: Subscription) => Receives(s, e)), CreationOrder(subs));
            && Distinct(sorted) && Ordered(sorted, CreationOrder(subs))
            && forall j :: j in sorted <==> 0 <= j < |subs| && Receives(subs[j], e)
    ensures StrictOrder(CreationOrder(subs))
    ensures forall a: nat, b: nat :: a != b ==> CreationOrder(subs)(a, b) || CreationOrder(subs)(b, a)
  {
    var p := (s: Subscription) => Receives(s, e);
    var less := CreationOrder(subs);
    var rows := Where(subs, p);
    WhereSelects(subs, p);
    CreationOrderIsStrict(subs);
    hide Receives;
    SortKeeps(rows, less);
    SortOrdered(rows, less);
    assert forall j :: (j in Sort(rows, less) <==> j in Elements(Sort(rows, less))) && (j in rows <==>
        j in Elements(rows));
  }

  lemma ReadUpTo(xs: seq<nat>, limit: nat, n: nat)
    requires Distinct(xs) && n < |xs|
    ensures xs[n] in AtMost(xs, limit) <==> n < limit
    ensures n < limit ==> n < |AtMost(xs, limit)| && AtMost(xs, limit)[n] == xs[n] && AtMost(xs, limit)[..n] == xs[..n]
  {
    if n < limit { assert AtMost(xs, limit)[n] == xs[n]; }
  }

  lemma AheadIs(subs: seq<Subscription>, e: Event, k: nat, rows: seq<nat>)
    requires forall j :: j in rows <==> 0 <= j < |subs| && Receives(subs[j], e)
    ensures Ahead(subs, e, k) == (set j | j in rows && CreationOrder(subs)(j, k))
  {
  }

  lemma PlaceInOrder(xs: seq<nat>, less: (nat, nat) -> bool, n: nat)
    requires Distinct(xs) && Ordered(xs, less) && StrictOrder(less) && n < |xs|
    requires forall a: nat, b: nat :: a != b ==> less(a, b) || less(b, a)
    ensures (set j | j in xs && less(j, xs[n])) == Elements(xs[..n])
    ensures |Elements(xs[..n])| == n
  {
    ElementsCount(xs[..n]);
    forall j | j in xs ensures less(j, xs[n]) <==> j in xs[..n] {
      var m :| 0 <= m < |xs| && xs[m] == j;
      if m < n {
        assert xs[..n][m] == j;
        assert !less(xs[n], xs[m]);
      } else {
        assert forall i :: 0 <= i < n ==> xs[..n][i] == xs[i] && xs[i] != xs[m];
        assert m > n ==> !less(xs[m], xs[n]);
      }
    }
  }

  // ---------- who is served ----------

  ghost predicate Added(before: seq<Delivery>, after: seq<Delivery>, d: Delivery) {
    exists i :: |before| <= i < |after| && after[i] == d
  }

  lemma {:induction false} FanOutPrefix(ds: seq<Delivery>, subs: seq<Subscription>, rows: seq<nat>, e: Event, n: nat)
    requires (forall i :: 0 <= i < |rows| ==> rows[i] < |subs|) && n <= |rows|
    ensures FanOut(ds, subs, rows[..n], e) <= FanOut(ds, subs, rows, e)
  {
    hide FanOutOne;
    if n == |rows| {
      assert rows[..n] == rows;
    } else {
      var init := rows[..|rows| - 1];
      assert init[..n] == rows[..n];
      FanOutPrefix(ds, subs, init, e, n);
      OneExtends(FanOut(ds, subs, init, e), subs[rows[|rows| - 1]], e);
    }
  }

  lemma OneExtends(ds: seq<Delivery>, s: Subscription, e: Event)
    ensures ds <= FanOutOne(ds, s, e)
  {
  }

  /** The row an endpoint would get has its id free when its turn comes, or it is never added. */
  lemma AddedInTurn(ds: seq<Delivery>, subs: seq<Subscription>, rows: seq<nat>, e: Event, n: nat)
    requires DistinctIds(ds) && DistinctSubs(subs) && Distinct(rows) && n < |rows|
    requires (forall i :: 0 <= i < |rows| ==> rows[i] < |subs|) && subs[rows[n]].active
    ensures Added(ds, FanOut(ds, subs, rows, e), NewDelivery(e, subs[rows[n]]))
            <==> DeliveryRow(FanOut(ds, subs, rows[..n], e), DeliveryId(e.id, subs[rows[n]].id)) < 0
  {
    hide DeliveryId, DistinctSubs, DistinctIds, FanOut, NewDelivery, DeliveryRow;
    var s := subs[rows[n]];
    var before, after := FanOut(ds, subs, rows[..n], e), FanOut(ds, subs, rows, e);
    FanOutServes(ds, subs, rows[..n], e);
    FanOutPrefix(ds, subs, rows, e, n);
    if DeliveryRow(before, DeliveryId(e.id, s.id)) < 0 {
      FanOutPrefix(ds, subs, rows, e, n + 1);
      FanOutNext(ds, subs, rows, e, n);
      assert after[|before|] == NewDelivery(e, s);
    } else {
      TakenIsNotAdded(ds, subs, rows, e, n);
    }
  }

  /** Once its id is taken, by whatever row, the endpoint's own row is not among those added. */
  lemma TakenIsNotAdded(ds: seq<Delivery>, subs: seq<Subscription>, rows: seq<nat>, e: Event, n: nat)
    requires DistinctIds(ds) && DistinctSubs(subs) && Distinct(rows) && n < |rows|
    requires (forall i :: 0 <= i < |rows| ==> rows[i] < |subs|) && subs[rows[n]].active
    requires DeliveryRow(FanOut(ds, subs, rows[..n], e), DeliveryId(e.id, subs[rows[n]].id)) >= 0
    ensures !Added(ds, FanOut(ds, subs, rows, e), NewDelivery(e, subs[rows[n]]))
  {
    hide DeliveryId, DistinctSubs, FanOut, DeliveryRow;
    var x := NewDelivery(e, subs[rows[n]]);
    var before, after := FanOut(ds, subs, rows[..n], e), FanOut(ds, subs, rows, e);
    var r := DeliveryRow(before, x.id);
    FanOutServes(ds, subs, rows[..n], e);
    FanOutServes(ds, subs, rows, e);
    FanOutPrefix(ds, subs, rows, e, n);
    assert after[r] == before[r];
    if r >= |ds| {
      assert FromRecipient(before[r], subs, rows[..n], e);
      var k :| k in rows[..n] && k < |subs| && subs[k].active && before[r] == NewDelivery(e, subs[k]);
      EarlierDiffers(subs, rows, n, k);
      assert before[r] != x;
    }
    assert forall i :: 0 <= i < |after| && after[i].id == x.id ==> i == r;
  }

  lemma FanOutNext(ds: seq<Delivery>, subs: seq<Subscription>, rows: seq<nat>, e: Event, n: nat)
    requires (forall i :: 0 <= i < |rows| ==> rows[i] < |subs|) && n < |rows|
    ensures FanOut(ds, subs, rows[..n + 1], e) == FanOutOne(FanOut(ds, subs, rows[..n], e), subs[rows[n]], e)
  {
    assert rows[..n + 1][..n] == rows[..n];
  }

  lemma EarlierDiffers(subs: seq<Subscription>, rows: seq<nat>, n: nat, k: nat)
    requires DistinctSubs(subs) && Distinct(rows) && n < |rows| && rows[n] < |subs| && k < |subs| && k in rows[..n]
    ensures subs[k].id != subs[rows[n]].id
  {
    var m :| 0 <= m < n && rows[..n][m] == k;
    assert rows[m] != rows[n];
  }

  /** Its id is free when its turn comes unless a stored delivery or an earlier active recipient took it. */
  lemma FreeInTurn(ds: seq<Delivery>, subs: seq<Subscription>, rows: seq<nat>, e: Event, n: nat)
    requires DistinctIds(ds) && n < |rows| && forall i :: 0 <= i < |rows| ==> rows[i] < |subs|
    ensures DeliveryRow(FanOut(ds, subs, rows[..n], e), DeliveryId(e.id, subs[rows[n]].id)) < 0
            <==> DeliveryRow(ds, DeliveryId(e.id, subs[rows[n]].id)) < 0
                 && forall k :: k in Elements(rows[..n]) && subs[k].active ==>
                     Tail(subs[k].id) != Tail(subs[rows[n]].id)
  {
    hide FanOut, DeliveryId, Tail, DistinctIds;
    var id := DeliveryId(e.id, subs[rows[n]].id);
    var before := FanOut(ds, subs, rows[..n], e);
    FanOutServes(ds, subs, rows[..n], e);
    forall k | k in rows[..n] ensures k < |subs| && (Tail(subs[k].id) == Tail(subs[rows[n]].id) <==>
        DeliveryId(e.id, subs[k].id) == id) {
      var m :| 0 <= m < n && rows[..n][m] == k;
      SameEventSameTail(e.id, subs[k].id, subs[rows[n]].id);
    }
    var r := DeliveryRow(before, id);
    assert forall i :: 0 <= i < |ds| ==> before[i] == ds[i];
    if r >= |ds| {
      assert FromRecipient(before[r], subs, rows[..n], e);
      var k :| k in rows[..n] && k < |subs| && subs[k].active && before[r] == NewDelivery(e, subs[k]);
      assert Tail(subs[k].id) == Tail(subs[rows[n]].id);
    }
  }

  lemma SameEventSameTail(event: string, s: string, s': string)
    ensures DeliveryId(event, s) == DeliveryId(event, s') <==> Tail(s) == Tail(s')
  {
    hide Tail;
    var head := "dlv_" + Tail(event) + "_";
    assert DeliveryId(event, s) == head + Tail(s) && DeliveryId(event, s') == head + Tail(s');
    assert (head + Tail(s))[|head|..] == Tail(s) && (head + Tail(s'))[|head|..] == Tail(s');
  }

  /**
   * A new event gives an active endpoint its delivery if and only if the endpoint receives it, fewer
   * than 100 recipients were created before it, no stored delivery has that delivery id, and no
   * active recipient created before it has the same tail.
   */
  lemma ServedExactly(s: Store, e: Event, k: nat)
    requires DistinctIds(s.deliveries) && DistinctSubs(s.subs) && !Known(s.events, e)
    requires k < |s.subs| && s.subs[k].active
    ensures Added(s.deliveries, EmitEvent(s, e).deliveries, NewDelivery(e, s.subs[k])) <==>
            && Receives(s.subs[k], e) && |Ahead(s.subs, e, k)| < FAN_OUT_READ
            && DeliveryRow(s.deliveries, DeliveryId(e.id, s.subs[k].id)) < 0
            && forall j :: j in Ahead(s.subs, e, k) && s.subs[j].active ==> Tail(s.subs[j].id) != Tail(s.subs[k].id)
  {
    hide Known, FanOut, Recipients, DeliveryId, Tail, DistinctIds, CreationOrder, Ahead;
    var rows := Recipients(s.subs, e);
    RecipientsAre(s.subs, e);
    if k in rows {
      RecipientsInOrder(s.subs, e, k);
      var n := |Ahead(s.subs, e, k)|;
      AddedInTurn(s.deliveries, s.subs, rows, e, n);
      FreeInTurn(s.deliveries, s.subs, rows, e, n);
    } else {
      if Receives(s.subs[k], e) { RecipientsInOrder(s.subs, e, k); }
      OnlyRecipientsAdded(s, e, k);
    }
  }

  lemma OnlyRecipientsAdded(s: Store, e: Event, k: nat)
    requires DistinctIds(s.deliveries) && DistinctSubs(s.subs) && !Known(s.events, e)
    requires k < |s.subs| && k !in Recipients(s.subs, e)
    ensures !Added(s.deliveries, EmitEvent(s, e).deliveries, NewDelivery(e, s.subs[k]))
  {
    hide FanOut, Recipients, DeliveryId, DistinctIds;
    var rows, after := Recipients(s.subs, e), EmitEvent(s, e).deliveries;
    RecipientsAre(s.subs, e);
    FanOutServes(s.deliveries, s.subs, rows, e);
    forall i | |s.deliveries| <= i < |after| ensures after[i] != NewDelivery(e, s.subs[k]) {
      assert FromRecipient(after[i], s.subs, rows, e);
      var j :| j in rows && j < |s.subs| && s.subs[j].active && after[i] == NewDelivery(e, s.subs[j]);
      assert s.subs[j].id != s.subs[k].id;
    }
  }

  // ---------- ids ----------

  /** Two pairs of tails make the same delivery id exactly when an underscore moves between them. */
  lemma {:induction false} JoinedTailsAgree(x: string, y: string, x': string, y': string)
    ensures x + "_" + y == x' + "_" + y' <==>
            || (x == x' && y == y')
            || (exists z :: x' == x + "_" + z && y == z + "_" + y')
            || (exists z :: x == x' + "_" + z && y' == z + "_" + y)
  {
    if x + "_" + y == x' + "_" + y' {
      var t := x + "_" + y;
      assert t[..|x|] == x && t[|x| + 1..] == y && t[..|x'|] == x' && t[|x'| + 1..] == y';
      if |x| < |x'| {
        assert t[|x|] == '_';
        assert x' == x + "_" + t[|x| + 1..|x'|];
        assert y == t[|x| + 1..|x'|] + "_" + y';
      } else if |x'| < |x| {
        assert t[|x'|] == '_';
        assert x == x' + "_" + t[|x'| + 1..|x|];
        assert y' == t[|x'| + 1..|x|] + "_" + y;
      }
    } else {
      forall z ensures !(x' == x + "_" + z && y == z + "_" + y') && !(x == x' + "_" + z && y' == z + "_" + y) {
        assert x + "_" + (z + "_" + y') == (x + "_" + z) + "_" + y';
        assert x' + "_" + (z + "_" + y) == (x' + "_" + z) + "_" + y;
      }
    }
  }

  /** An id as the relay mints it: a prefix, an underscore, and a tail without one. */
  predicate Minted(prefix: string, id: string) {
    |id| > |prefix| && id[..|prefix|] == prefix && id[|prefix|] == '_' && '_' !in id[|prefix| + 1..]
  }

  lemma TailOfMinted(prefix: string, id: string)
    requires '_' !in prefix && Minted(prefix, id)
    ensures id == prefix + "_" + Tail(id) && '_' !in Tail(id)
  {
    assert forall n :: 0 <= n < |prefix| ==> id[n] == prefix[n] && id[n] in prefix;
    FirstIs(id, (c: char) => c == '_', |prefix|);
  }

  lemma {:induction false} FirstIs<T>(rows: seq<T>, p: T -> bool, n: nat)
    requires n < |rows| && p(rows[n]) && forall i :: 0 <= i < n ==> !p(rows[i])
    ensures Where(rows, p) != [] && Where(rows, p)[0] == n && First(rows, p) == n
  {
    if n < |rows| - 1 {
      FirstIs(rows[..|rows| - 1], p, n);
    } else {
      WhereSelects(rows[..n], p);
      var earlier := Where(rows[..n], p);
      assert forall k :: 0 <= k < |earlier| ==> earlier[k] in earlier;
    }
  }

  lemma MintedIdsDiffer(e: string, s: string, e': string, s': string)
    requires Minted("evt", e) && Minted("whk", s) && Minted("evt", e') && Minted("whk", s')
    requires DeliveryId(e, s) == DeliveryId(e', s')
    ensures e == e' && s == s'
  {
    hide *;
    TailOfMinted("evt", e); TailOfMinted("evt", e'); TailOfMinted("whk", s); TailOfMinted("whk", s');
    DeliveryIdIs(e, s); DeliveryIdIs(e', s');
    JoinedPlainTails(Tail(e), Tail(s), Tail(e'), Tail(s'));
  }

  lemma DeliveryIdIs(e: string, s: string)
    ensures DeliveryId(e, s) == "dlv_" + (Tail(e) + "_" + Tail(s))
  {
    hide Tail;
  }

  lemma JoinedPlainTails(x: string, y: string, x': string, y': string)
    requires '_' !in x && '_' !in x' && "dlv_" + (x + "_" + y) == "dlv_" + (x' + "_" + y')
    ensures x == x' && y == y'
  {
    var t, t' := x + "_" + y, x' + "_" + y';
    assert t == ("dlv_" + t)[4..] && t' == ("dlv_" + t')[4..];
    JoinedTailsAgree(x, y, x', y');
    forall z ensures x' != x + "_" + z && x != x' + "_" + z {
      assert (x + "_" + z)[|x|] == '_' && (x' + "_" + z)[|x'|] == '_';
    }
  }

  /** At most one delivery exists per event and endpoint. */
  lemma OneDeliveryPerEventAndEndpoint(w: World, m: Limits, i: nat, j: nat)
    requires Reachable(w, m) && i < |w.store.deliveries| && j < |w.store.deliveries|
    requires w.store.deliveries[i].event == w.store.deliveries[j].event
    requires w.store.deliveries[i].subscription == w.store.deliveries[j].subscription
    ensures i == j
  {
    hide Reachable, RowsHold, DeliveryId, SubRow, EventRow;
    ReachableHolds(w, m);
  }

  ghost predicate AllMinted(s: Store) {
    && (forall n :: 0 <= n < |s.events| ==> Minted("evt", s.events[n].id))
    && (forall n :: 0 <= n < |s.subs| ==> Minted("whk", s.subs[n].id))
  }

  lemma MintedTailsDiffer(a: string, b: string)
    requires Minted("whk", a) && Minted("whk", b) && a != b
    ensures Tail(a) != Tail(b)
  {
    hide *;
    TailOfMinted("whk", a);
    TailOfMinted("whk", b);
  }

  /**
   * With ids as the relay mints them, and an owner's endpoints within one read, nothing is lost: a
   * new event gives every active endpoint that existed when it occurred its own pending delivery.
   */
  lemma EveryActiveEndpointServed(s: Store, m: Limits, e: Event, k: nat)
    requires Tables(s, m) && m.maxRows <= FAN_OUT_READ && !Known(s.events, e)
    requires k < |s.subs| && s.subs[k].active && Receives(s.subs[k], e)
    requires Minted("evt", e.id) && AllMinted(s)
    ensures Added(s.deliveries, EmitEvent(s, e).deliveries, NewDelivery(e, s.subs[k]))
  {
    hide Minted, DeliveryId, DeliveryRow, Recipients, FanOut, NewDelivery, Tail, RowsOf, ActiveRowsOf, CreationOrder,
      EmitEvent, Added;
    FewAhead(s.subs, e, k);
    assert |RowsOf(s.subs, e.owner)| <= m.maxRows;
    var r := DeliveryRow(s.deliveries, DeliveryId(e.id, s.subs[k].id));
    if r >= 0 {
      var d := s.deliveries[r];
      MintedIdsDiffer(d.event, d.subscription, e.id, s.subs[k].id);
      assert false;
    }
    forall j | j in Ahead(s.subs, e, k) ensures Tail(s.subs[j].id) != Tail(s.subs[k].id) {
      NotAheadOfItself(s.subs, k);
      MintedTailsDiffer(s.subs[j].id, s.subs[k].id);
    }
    ServedExactly(s, e, k);
  }

  lemma NotAheadOfItself(subs: seq<Subscription>, k: nat)
    ensures !CreationOrder(subs)(k, k)
  {
  }

  lemma FewAhead(subs: seq<Subscription>, e: Event, k: nat)
    requires k < |subs| && Receives(subs[k], e)
    ensures |Ahead(subs, e, k)| < |RowsOf(subs, e.owner)|
  {
    var p := (s: Subscription) => s.owner == e.owner;
    var rows := RowsOf(subs, e.owner);
    WhereSelects(subs, p);
    ElementsCount(rows);
    NotAheadOfItself(subs, k);
    assert k in rows;
    Subset(Ahead(subs, e, k) + {k}, Elements(rows));
  }

  // ---------- an input that loses a delivery ----------

  /**
   * The store's id pattern admits further underscores. With a delivery of `evt_a` to `whk_b_c`
   * stored, a new event `evt_a_b` never gets a delivery for the active endpoint `whk_c`.
   */
  lemma CollisionLosesDelivery(s: Store, e: Event, k: nat, r: nat)
    requires DistinctIds(s.deliveries) && DistinctSubs(s.subs) && !Known(s.events, e)
    requires k < |s.subs| && s.subs[k].active && s.subs[k].id == "whk_c" && e.id == "evt_a_b"
    requires r < |s.deliveries| && s.deliveries[r].id == DeliveryId("evt_a", "whk_b_c")
    ensures DeliveryId("evt_a_b", "whk_c") == DeliveryId("evt_a", "whk_b_c") == "dlv_a_b_c"
    ensures !Added(s.deliveries, EmitEvent(s, e).deliveries, NewDelivery(e, s.subs[k]))
  {
    CollidingIds();
    hide DeliveryId, EmitEvent, NewDelivery, Added;
    ServedExactly(s, e, k);
  }

  lemma CollidingIds()
    ensures DeliveryId("evt_a_b", "whk_c") == DeliveryId("evt_a", "whk_b_c") == "dlv_a_b_c"
  {
    var p := (c: char) => c == '_';
    FirstIs("evt_a_b", p, 3);
    FirstIs("evt_a", p, 3);
    FirstIs("whk_c", p, 3);
    FirstIs("whk_b_c", p, 3);
    assert Tail("evt_a_b") == "a_b" && Tail("evt_a") == "a" && Tail("whk_c") == "c" && Tail("whk_b_c") == "b_c";
  }

  const ENDPOINTS := [
    Subscription("whk_b_c", "owner", "https://a", None, true, "", 0, 0),
    Subscription("whk_c", "owner", "https://b", None, true, "", 0, 0)]
  const FIRST_EVENT := Event("evt_a", "owner", "receipt.ready", 1, "receipt-1", "{}", 0, 0)
  const SECOND_EVENT := Event("evt_a_b", "owner", "receipt.ready", 1, "receipt-2", "{}", 0, 0)
  const LOSING := Store(ENDPOINTS, [FIRST_EVENT], [NewDelivery(FIRST_EVENT, ENDPOINTS[0])])

  lemma LosingIsConsistent()
    ensures Backed(LOSING) && DistinctIds(LOSING.deliveries) && DistinctSubs(LOSING.subs)
    ensures DistinctEvents(LOSING.events)
    ensures !Known(LOSING.events, SECOND_EVENT) && Receives(LOSING.subs[1], SECOND_EVENT)
  {
    hide DeliveryId;
    assert LOSING.subs[0].id == "whk_b_c" && |LOSING.subs[1].id| == 5 && LOSING.events[0].id == "evt_a";
    assert |LOSING.events[0].id| == 5 && |SECOND_EVENT.id| == 7;
    assert LOSING.events[0].receipt[8] == '1' && SECOND_EVENT.receipt[8] == '2';
  }

  const RELAY_LIMITS := Limits(8, 5, 25)
  const CALLS := [
    Call(Create(ENDPOINTS[0], 5, 25), 0), Call(Emit(FIRST_EVENT), 0), Call(Create(ENDPOINTS[1], 5, 25), 0)]

  lemma CreatesAlone(subs: seq<Subscription>, sub: Subscription)
    requires |subs| <= 1 && sub.active && forall k :: 0 <= k < |subs| ==> subs[k].id != sub.id
    ensures forall s: Store, now: nat :: s.subs == subs ==>
              Apply(s, Create(sub, 5, 25), now) == s.(subs := subs + [sub])
  {
    WhereSelects(subs, (s: Subscription) => s.owner == sub.owner);
    WhereSelects(subs, (s: Subscription) => s.owner == sub.owner && s.active);
    assert MayCreate(subs, sub, 5, 25);
    forall s: Store, now: nat | s.subs == subs ensures Apply(s, Create(sub, 5, 25), now) == s.(subs := subs + [sub]) {
      var s' := Apply(s, Create(sub, 5, 25), now);
      assert sub.(active := true) == sub;
      assert s'.deliveries == s.deliveries;
    }
  }

  lemma EmitsToOne(sub: Subscription, e: Event)
    requires sub.active && Receives(sub, e)
    ensures EmitEvent(Store([sub], [], []), e) == Store([sub], [e], [NewDelivery(e, sub)])
  {
    hide NewDelivery, Receives;
    var p := (s: Subscription) => Receives(s, e);
    assert [sub][..0] == [];
    assert Where([sub], p) == [0];
    SortKeeps([0], CreationOrder([sub]));
    var sorted := Sort([0], CreationOrder([sub]));
    assert sorted[0] in Elements(sorted);
    assert Recipients([sub], e) == [0] && [0][..0] == [];
    assert FanOut([], [sub], [0], e) == FanOutOne(FanOut([], [sub], [], e), sub, e);
  }

  /** Two endpoints and one event, by ordinary operations from empty tables. */
  lemma LosingIsReached()
    ensures Runs(START, CALLS, RELAY_LIMITS) && Run(START, CALLS).store == LOSING
    ensures Reachable(Run(START, CALLS), RELAY_LIMITS)
  {
    hide Apply, EmitEvent, NewDelivery, MayCreate;
    var first, second, e := ENDPOINTS[0], ENDPOINTS[1], FIRST_EVENT;
    assert |first.id| == 7 && |second.id| == 5;
    CreatesAlone([], first);
    CreatesAlone([first], second);
    EmitsToOne(first, e);
    assert CALLS[..2][..1] == [CALLS[0]] && CALLS[..2][1] == CALLS[1] && CALLS[..1][..0] == [] && CALLS[..1] == [CALLS[0]];
    assert [] + [first] == [first] && [first] + [second] == ENDPOINTS;
    var w1 := Run(START, CALLS[..1]);
    assert w1 == Next(Run(START, []), CALLS[0].op, 0);
    assert w1.store == Store([first], [], []);
    var w2 := Run(START, CALLS[..2]);
    assert w2 == Next(w1, CALLS[1].op, 0);
    EmitIsApplied(w1.store, e);
    assert w2.store == Store([first], [e], [NewDelivery(e, first)]);
    assert Run(START, CALLS) == Next(w2, CALLS[2].op, 0);
    assert Runs(START, [], RELAY_LIMITS) && Runs(START, CALLS[..1], RELAY_LIMITS) && Runs(START, CALLS[..2], RELAY_LIMITS);
  }

  lemma EmitIsApplied(s: Store, e: Event)
    ensures Apply(s, Emit(e), 0) == EmitEvent(s, e)
  {
  }

  /** In that reachable state the second event has a recipient that gets nothing. */
  lemma ADeliveryIsLost()
    ensures Reachable(Run(START, CALLS), RELAY_LIMITS) && Run(START, CALLS).store == LOSING
    ensures !Known(LOSING.events, SECOND_EVENT) && LOSING.subs[1].active && Receives(LOSING.subs[1], SECOND_EVENT)
    ensures !Added(LOSING.deliveries, EmitEvent(LOSING, SECOND_EVENT).deliveries, NewDelivery(SECOND_EVENT, LOSING.subs[1]))
  {
    hide EmitEvent, Added, DeliveryId, Known, Receives, Backed, DistinctIds, DistinctSubs, DistinctEvents, Reachable,
      Run;
    LosingIsReached();
    LosingIsConsistent();
    CollisionLosesDelivery(LOSING, SECOND_EVENT, 1, 0);
  }
}
