/** Webhook tables and the selection of due deliveries (`convex/webhooks.ts`). */
module Deliveries {
  import opened Common
  import opened Rows
  import Records

  datatype State = Pending | Delivering | Delivered | RetryScheduled | Exhausted

  datatype Delivery = Delivery(
    id: string, event: string, subscription: string, owner: string, eventType: string, receipt: string,
    state: State, attempts: nat, nextAttempt: nat, token: Option<string>, leaseExpires: Option<nat>,
    lastStatus: Option<nat>, lastError: Option<string>, deliveredAt: Option<nat>, created: nat, updated: nat)

  predicate Settled(d: Delivery) { d.state == Delivered || d.state == Exhausted }

  predicate Due(d: Delivery, now: nat) { !Settled(d) && d.nextAttempt <= now }

  // ---------- the two orders ----------

  function NextOf(ds: seq<Delivery>, i: nat): nat { if i < |ds| then ds[i].nextAttempt else 0 }

  function IdOf(ds: seq<Delivery>, i: nat): string { if i < |ds| then ds[i].id else "" }

  /** The index `by_state_next`: attempt time, then insertion. */
  function IndexOrder(ds: seq<Delivery>): (nat, nat) -> bool {
    (i: nat, j: nat) => NextOf(ds, i) < NextOf(ds, j) || (NextOf(ds, i) == NextOf(ds, j) && i < j)
  }

  /** The comparison the merged rows are sorted by: attempt time, then delivery id. */
  function MergeOrder(ds: seq<Delivery>): (nat, nat) -> bool {
    (i: nat, j: nat) =>
      NextOf(ds, i) < NextOf(ds, j)
      || (NextOf(ds, i) == NextOf(ds, j) && Records.TextLess(IdOf(ds, i), IdOf(ds, j)))
  }

  lemma {:induction false} TextOrder(a: string, b: string, c: string)
    ensures Records.TextLess(a, b) ==> !Records.TextLess(b, a)
    ensures Records.TextLess(a, c) ==> Records.TextLess(a, b) || Records.TextLess(b, c)
  {
    if a != "" && b != "" && c != "" {
      TextOrder(a[1..], b[1..], c[1..]);
    } else if a != "" && b != "" {
      TextOrder(a[1..], b[1..], "");
    }
  }

  lemma OrdersAreStrict(ds: seq<Delivery>)
    ensures StrictOrder(IndexOrder(ds)) && StrictOrder(MergeOrder(ds))
  {
    var less := MergeOrder(ds);
    forall a: nat, b: nat | less(a, b) ensures !less(b, a) {
      TextOrder(IdOf(ds, a), IdOf(ds, b), "");
    }
    forall a: nat, b: nat, c: nat | less(a, c) ensures less(a, b) || less(b, c) {
      TextOrder(IdOf(ds, a), IdOf(ds, b), IdOf(ds, c));
    }
  }

  // ---------- selection ----------

  /** One index read: the earliest `limit` due rows in one state. */
  function DueIn(ds: seq<Delivery>, state: State, now: nat): seq<nat> {
    Sort(Where(ds, (d: Delivery) => d.state == state && d.nextAttempt <= now), IndexOrder(ds))
  }

  function Merged(ds: seq<Delivery>, now: nat, limit: nat): seq<nat> {
    AtMost(DueIn(ds, Pending, now), limit) + AtMost(DueIn(ds, RetryScheduled, now), limit)
    + AtMost(DueIn(ds, Delivering, now), limit)
  }

  /** The rows one claim call works on, in order. */
  function Picks(ds: seq<Delivery>, now: nat, limit: nat): seq<nat> {
    AtMost(Sort(Merged(ds, now, limit), MergeOrder(ds)), limit)
  }

  function AllDue(ds: seq<Delivery>, now: nat): set<nat> {
    set i: nat | i < |ds| && Due(ds[i], now)
  }

  lemma DueInIs(ds: seq<Delivery>, state: State, now: nat)
    ensures forall i :: i in DueIn(ds, state, now) <==>
              0 <= i < |ds| && ds[i].state == state && ds[i].nextAttempt <= now
    ensures Distinct(DueIn(ds, state, now)) && Ordered(DueIn(ds, state, now), IndexOrder(ds))
  {
    var p := (d: Delivery) => d.state == state && d.nextAttempt <= now;
    var rows := Where(ds, p);
    WhereSelects(ds, p);
    OrdersAreStrict(ds);
    SortKeeps(rows, IndexOrder(ds));
    SortOrdered(rows, IndexOrder(ds));
    forall i ensures i in DueIn(ds, state, now) <==> i in rows {
      assert i in Elements(DueIn(ds, state, now)) <==> i in Elements(rows);
    }
  }

  lemma DistinctAppend(xs: seq<nat>, ys: seq<nat>)
    requires Distinct(xs) && Distinct(ys) && forall x :: x in xs ==> x !in ys
    ensures Distinct(xs + ys)
  {
    var zs := xs + ys;
    forall i, j | 0 <= i < j < |zs| ensures zs[i] != zs[j] {
      if i < |xs| <= j { assert zs[i] in xs && zs[j] in ys; }
    }
  }

  lemma MergedIs(ds: seq<Delivery>, now: nat, limit: nat)
    ensures Distinct(Merged(ds, now, limit))
    ensures forall i :: i in Merged(ds, now, limit) ==> i in AllDue(ds, now)
  {
    hide DueIn, AtMost, Ordered;
    var a, b, c := DueIn(ds, Pending, now), DueIn(ds, RetryScheduled, now), DueIn(ds, Delivering, now);
    DueInIs(ds, Pending, now); DueInIs(ds, RetryScheduled, now); DueInIs(ds, Delivering, now);
    AtMostKeeps(a, limit); AtMostKeeps(b, limit); AtMostKeeps(c, limit);
    DistinctAppend(AtMost(a, limit), AtMost(b, limit));
    DistinctAppend(AtMost(a, limit) + AtMost(b, limit), AtMost(c, limit));
  }

  lemma PicksAre(ds: seq<Delivery>, now: nat, limit: nat)
    ensures Distinct(Picks(ds, now, limit)) && |Picks(ds, now, limit)| <= limit
    ensures forall i :: i in Picks(ds, now, limit) ==> 0 <= i < |ds| && Due(ds[i], now)
    ensures Ordered(Picks(ds, now, limit), MergeOrder(ds))
  {
    var m := Merged(ds, now, limit);
    var sorted := Sort(m, MergeOrder(ds));
    MergedIs(ds, now, limit);
    OrdersAreStrict(ds);
    SortKeeps(m, MergeOrder(ds));
    SortOrdered(m, MergeOrder(ds));
    AtMostKeeps(sorted, limit);
    forall i | i in Picks(ds, now, limit) ensures 0 <= i < |ds| && Due(ds[i], now) {
      assert i in Elements(sorted);
      assert i in m;
    }
  }

  lemma MergedHolds(ds: seq<Delivery>, now: nat, limit: nat, state: State)
    requires state != Delivered && state != Exhausted
    ensures forall k :: k in AtMost(DueIn(ds, state, now), limit) ==> k in Merged(ds, now, limit)
  {
    hide DueIn;
  }

  /** A row its own index read left out is no earlier than the `limit` rows that read returned. */
  lemma LeftByIndex(ds: seq<Delivery>, now: nat, limit: nat, j: nat)
    requires j in AllDue(ds, now) && j !in Merged(ds, now, limit)
    ensures |AtMost(DueIn(ds, ds[j].state, now), limit)| == limit
    ensures Distinct(AtMost(DueIn(ds, ds[j].state, now), limit))
    ensures forall k :: k in AtMost(DueIn(ds, ds[j].state, now), limit) ==>
              k in Merged(ds, now, limit) && NextOf(ds, k) <= ds[j].nextAttempt
  {
    hide DueIn, Merged;
    var rows := DueIn(ds, ds[j].state, now);
    DueInIs(ds, ds[j].state, now);
    MergedHolds(ds, now, limit, ds[j].state);
    var at := BeyondBound(rows, limit, j);
    forall k | k in AtMost(rows, limit) ensures NextOf(ds, k) <= ds[j].nextAttempt {
      var n :| 0 <= n < limit && rows[n] == k;
      assert !IndexOrder(ds)(rows[at], rows[n]);
    }
  }

  /** More than `at` distinct members cannot all sit in the first `at` places. */
  lemma SomeNotBefore(xs: seq<nat>, at: nat, members: seq<nat>) returns (n: nat)
    requires at <= |xs| && Distinct(members) && |members| > at
    requires forall k :: k in members ==> k in xs
    ensures at <= n < |xs| && xs[n] in members
  {
    if k :| k in members && k !in xs[..at] {
      n := BeyondBound(xs, at, k);
    } else {
      ElementsCount(members);
      ElementsCount(xs[..at]);
      Subset(Elements(members), Elements(xs[..at]));
      assert false;
    }
  }

  /** Nothing that was due and passed over is earlier than anything picked. */
  lemma NonePassedOver(ds: seq<Delivery>, now: nat, limit: nat, i: nat, j: nat)
    requires i in Picks(ds, now, limit) && j in AllDue(ds, now) && j !in Picks(ds, now, limit)
    ensures NextOf(ds, i) <= ds[j].nextAttempt
  {
    hide DueIn, Merged;
    var m := Merged(ds, now, limit);
    var sorted := Sort(m, MergeOrder(ds));
    OrdersAreStrict(ds);
    SortKeeps(m, MergeOrder(ds));
    SortOrdered(m, MergeOrder(ds));
    assert forall k :: k in m <==> k in sorted by {
      assert forall k :: k in m <==> k in Elements(m);
      assert forall k :: k in sorted <==> k in Elements(sorted);
    }
    var at :| 0 <= at < |Picks(ds, now, limit)| && Picks(ds, now, limit)[at] == i;
    assert sorted[at] == i;
    var n: nat;
    if j in m {
      n := BeyondBound(sorted, limit, j);
    } else {
      LeftByIndex(ds, now, limit, j);
      n := SomeNotBefore(sorted, at, AtMost(DueIn(ds, ds[j].state, now), limit));
    }
    assert n == at || !MergeOrder(ds)(sorted[n], sorted[at]);
  }

  /** A claim call picks as many due rows as there are, up to its limit. */
  lemma PickCount(ds: seq<Delivery>, now: nat, limit: nat)
    ensures |Picks(ds, now, limit)| == if |AllDue(ds, now)| <= limit then |AllDue(ds, now)| else limit
  {
    var m, due := Merged(ds, now, limit), AllDue(ds, now);
    MergedIs(ds, now, limit);
    ElementsCount(m);
    SortKeeps(m, MergeOrder(ds));
    Subset(Elements(m), due);
    if j: nat :| j in due && j !in m {
      LeftByIndex(ds, now, limit, j);
      var first := AtMost(DueIn(ds, ds[j].state, now), limit);
      ElementsCount(first);
      Subset(Elements(first), Elements(m));
    } else {
      assert Elements(m) == due;
    }
  }

  /**
   * Three bounded index reads, a merge, a sort and a slice agree with the plain rule: as many
   * due deliveries as the limit allows, earliest attempt time first, none passed over for a later one.
   */
  lemma ClaimsTheEarliestDue(ds: seq<Delivery>, now: nat, limit: nat)
    ensures Distinct(Picks(ds, now, limit))
    ensures |Picks(ds, now, limit)| == if |AllDue(ds, now)| <= limit then |AllDue(ds, now)| else limit
    ensures forall i :: i in Picks(ds, now, limit) ==> 0 <= i < |ds| && Due(ds[i], now)
    ensures forall i, j :: i in Picks(ds, now, limit) && j in AllDue(ds, now) && j !in Picks(ds, now, limit) ==>
              NextOf(ds, i) <= NextOf(ds, j)
    ensures forall a, b :: 0 <= a < b < |Picks(ds, now, limit)| ==>
              !MergeOrder(ds)(Picks(ds, now, limit)[b], Picks(ds, now, limit)[a])
  {
    PicksAre(ds, now, limit);
    PickCount(ds, now, limit);
    hide Picks;
    forall i, j | i in Picks(ds, now, limit) && j in AllDue(ds, now) && j !in Picks(ds, now, limit)
      ensures NextOf(ds, i) <= NextOf(ds, j)
    {
      NonePassedOver(ds, now, limit, i, j);
    }
  }
}
