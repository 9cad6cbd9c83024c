/**
 * One delivery row and everything that has happened to it: leases granted, picks that gave up,
 * outcomes recorded, redeliveries (`convex/webhooks.ts`).
 */
module Leases {
  import opened Common
  import opened Deliveries

  datatype Happening =
    | Grant(token: string, at: nat, expires: nat)
    | GiveUp
    | Record(token: string)
    | Reset

  type History = seq<Happening>

  // ---------- what is done to a row ----------

  datatype Outcome = Success | Retry(error: string, nextAttempt: nat) | Abandon(error: string)

  const MAX_ERROR := 200

  function Truncated(text: string): string { Rows.AtMost(text, MAX_ERROR) }

  function Granted(d: Delivery, token: string, now: nat, leaseMs: nat): Delivery {
    d.(state := Delivering, attempts := d.attempts + 1, token := Some(token), leaseExpires := Some(now + leaseMs),
    nextAttempt := now + leaseMs, updated := now)
  }

  function Stopped(d: Delivery, why: string, now: nat): Delivery {
    d.(state := Exhausted, token := None, leaseExpires := None, lastError := Some(why), updated := now)
  }

  function Concluded(d: Delivery, outcome: Outcome, status: Option<nat>, now: nat): Delivery {
    var base := d.(token := None, leaseExpires := None, updated := now, lastStatus := status);
    match outcome
    case Success => base.(state := Delivered, lastError := None, deliveredAt := Some(now))
    case Retry(error, next) => base.(state := RetryScheduled, lastError := Some(Truncated(error)), nextAttempt := next)
    case Abandon(error) => base.(state := Exhausted, lastError := Some(Truncated(error)))
  }

  function Rescheduled(d: Delivery, now: nat): Delivery {
    d.(state := Pending, attempts := 0, nextAttempt := now, token := None, leaseExpires := None, deliveredAt := None,
    updated := now)
  }

  // ---------- reading a history ----------

  function ClaimsSinceReset(h: History): nat {
    if h == [] then 0
    else match h[|h| - 1]
      case Reset => 0
      case Grant(_, _, _) => ClaimsSinceReset(h[..|h| - 1]) + 1
      case _ => ClaimsSinceReset(h[..|h| - 1])
  }

  /** How often a claim call has worked on the row since it was last rescheduled. */
  function PicksSinceReset(h: History): nat {
    if h == [] then 0
    else match h[|h| - 1]
      case Reset => 0
      case Record(_) => PicksSinceReset(h[..|h| - 1])
      case _ => PicksSinceReset(h[..|h| - 1]) + 1
  }

  function LastGrant(h: History): (r: Option<Happening>)
    ensures r.Some? ==> r.value.Grant?
  {
    if h == [] then None
    else if h[|h| - 1].Grant? then Some(h[|h| - 1])
    else LastGrant(h[..|h| - 1])
  }

  /** How many more picks a row can take before it is settled for good. */
  function PicksLeft(d: Delivery, maxAttempts: nat): int {
    if Settled(d) then 0 else 1 + maxAttempts - d.attempts
  }

  // ---------- the invariant of a row ----------

  ghost predicate LeaseShape(d: Delivery) {
    && (d.token.Some? <==> d.state == Delivering)
    && (d.leaseExpires.Some? <==> d.state == Delivering)
    && (d.state == Delivering ==> d.leaseExpires == Some(d.nextAttempt))
  }

  ghost predicate Counted(d: Delivery, h: History, maxAttempts: nat) {
    && d.attempts == ClaimsSinceReset(h)
    && d.attempts <= maxAttempts
    && PicksSinceReset(h) + PicksLeft(d, maxAttempts) <= maxAttempts + 1
  }

  ghost predicate Concludes(h: History, token: string, from: nat, to: nat)
    requires to <= |h|
  {
    exists n :: from <= n < to && h[n] == Record(token)
  }

  /** Every lease ever granted is over by the clock, concluded by its holder, or the row's present one. */
  ghost predicate Accounted(d: Delivery, h: History, clock: nat) {
    forall k :: 0 <= k < |h| && h[k].Grant? ==>
      || h[k].expires <= clock
      || Concludes(h, h[k].token, k, |h|)
      || (d.token == Some(h[k].token) && d.nextAttempt == h[k].expires)
  }

  /** A later lease begins only after the earlier one is over or concluded. */
  ghost predicate Sequenced(h: History) {
    forall j, k :: 0 <= j < k < |h| && h[j].Grant? && h[k].Grant? ==>
      h[j].token != h[k].token && (h[j].expires <= h[k].at || Concludes(h, h[j].token, j, k))
  }

  /** The token a row shows is that of its latest lease and has recorded nothing yet. */
  ghost predicate HolderIsLatest(d: Delivery, h: History) {
    d.token.Some? ==>
      && LastGrant(h).Some? && LastGrant(h).value.token == d.token.value
      && Record(d.token.value) !in h
  }

  /** No lease records two outcomes. */
  ghost predicate OneOutcomeEach(h: History) {
    forall j, k :: 0 <= j < k < |h| && h[j].Record? && h[k].Record? ==> h[j].token != h[k].token
  }

  ghost predicate RowInv(d: Delivery, h: History, clock: nat, maxAttempts: nat) {
    LeaseShape(d) && Counted(d, h, maxAttempts) && Accounted(d, h, clock) && Sequenced(h) && HolderIsLatest(d, h)
    && OneOutcomeEach(h)
  }

  // ---------- steps keep it ----------

  lemma AppendedCounts(h: History, e: Happening)
    ensures ClaimsSinceReset(h + [e]) == (if e.Reset? then 0 else ClaimsSinceReset(h) + if e.Grant? then 1 else 0)
    ensures PicksSinceReset(h + [e]) == (if e.Reset? then 0 else PicksSinceReset(h) + if e.Record? then 0 else 1)
    ensures LastGrant(h + [e]) == if e.Grant? then Some(e) else LastGrant(h)
  {
    assert (h + [e])[..|h|] == h;
  }

  lemma ConcludesAppended(h: History, e: Happening, token: string, from: nat, to: nat)
    requires to <= |h| && Concludes(h, token, from, to)
    ensures Concludes(h + [e], token, from, to)
  {
    var n :| from <= n < to && h[n] == Record(token);
    assert (h + [e])[n] == Record(token);
  }

  /** A new lease on a row whose earlier leases are all over or concluded. */
  lemma SequencedAppended(h: History, e: Happening)
    requires Sequenced(h)
    requires e.Grant? ==> forall k :: 0 <= k < |h| && h[k].Grant? ==>
               h[k].token != e.token && (h[k].expires <= e.at || Concludes(h, h[k].token, k, |h|))
    ensures Sequenced(h + [e])
  {
    var h' := h + [e];
    forall j, k | 0 <= j < k < |h'| && h'[j].Grant? && h'[k].Grant?
      ensures h'[j].token != h'[k].token && (h'[j].expires <= h'[k].at || Concludes(h', h'[j].token, j, k))
    {
      assert h'[j] == h[j];
      if !(h'[j].expires <= h'[k].at) {
        if k < |h| { assert h'[k] == h[k]; }
        ConcludesAppended(h, e, h[j].token, j, k);
      }
    }
  }

  lemma OutcomesAppended(h: History, e: Happening)
    requires OneOutcomeEach(h) && (e.Record? ==> e !in h)
    ensures OneOutcomeEach(h + [e])
  {
    var h' := h + [e];
    forall j, k | 0 <= j < k < |h'| && h'[j].Record? && h'[k].Record? ensures h'[j].token != h'[k].token {
      assert h'[j] == h[j] && h[j] in h;
      if k < |h| { assert h'[k] == h[k]; }
    }
  }

  lemma TimePasses(d: Delivery, h: History, clock: nat, now: nat, maxAttempts: nat)
    requires RowInv(d, h, clock, maxAttempts) && clock <= now
    ensures RowInv(d, h, now, maxAttempts)
  {
  }

  ghost predicate FreshToken(h: History, token: string) {
    forall e :: e in h && (e.Grant? || e.Record?) ==> e.token != token
  }

  /** When a new lease begins, every earlier one is over or concluded. */
  lemma EarlierAreOver(d: Delivery, h: History, clock: nat, token: string, now: nat)
    requires LeaseShape(d) && Accounted(d, h, clock) && clock <= now && Due(d, now) && FreshToken(h, token)
    ensures forall k :: 0 <= k < |h| && h[k].Grant? ==>
              h[k].token != token && (h[k].expires <= now || Concludes(h, h[k].token, k, |h|))
  {
    hide Concludes;
    assert forall k :: 0 <= k < |h| ==> h[k] in h;
  }

  lemma AccountedAppended(d: Delivery, h: History, e: Happening, now: nat)
    requires e.Grant? && d.token == Some(e.token) && d.nextAttempt == e.expires
    requires forall k :: 0 <= k < |h| && h[k].Grant? ==> h[k].expires <= now || Concludes(h, h[k].token, k, |h|)
    ensures Accounted(d, h + [e], now)
  {
    var h' := h + [e];
    forall k | 0 <= k < |h'| && h'[k].Grant?
      ensures h'[k].expires <= now || Concludes(h', h'[k].token, k, |h'|)
              || (d.token == Some(h'[k].token) && d.nextAttempt == h'[k].expires)
    {
      if k < |h| && !(h[k].expires <= now) {
        assert h'[k] == h[k];
        ConcludesAppended(h, e, h[k].token, k, |h|);
      }
    }
  }

  /** A due row below the attempt limit takes a new lease. */
  lemma GrantKeeps(d: Delivery, h: History, clock: nat, maxAttempts: nat, token: string, now: nat, leaseMs: nat)
    requires RowInv(d, h, clock, maxAttempts) && clock <= now
    requires Due(d, now) && d.attempts < maxAttempts && FreshToken(h, token)
    ensures RowInv(Granted(d, token, now, leaseMs), h + [Grant(token, now, now + leaseMs)], now, maxAttempts)
  {
    hide ClaimsSinceReset, PicksSinceReset, LastGrant, Sequenced, Accounted, OneOutcomeEach, Concludes;
    var e := Grant(token, now, now + leaseMs);
    var h', d' := h + [e], Granted(d, token, now, leaseMs);
    EarlierAreOver(d, h, clock, token, now);
    AppendedCounts(h, e);
    SequencedAppended(h, e);
    OutcomesAppended(h, e);
    AccountedAppended(d', h, e, now);
    assert LeaseShape(d') && Counted(d', h', maxAttempts);
    assert HolderIsLatest(d', h');
  }

  /** Any move that leaves the row without a lease, and records at most its holder's outcome. */
  lemma ReleaseKeeps(d: Delivery, h: History, clock: nat, maxAttempts: nat, d': Delivery, e: Happening, now: nat)
    requires RowInv(d, h, clock, maxAttempts) && clock <= now
    requires d'.token == None && d'.leaseExpires == None && d'.state != Delivering
    requires !e.Grant?
    requires e.Record? ==> d.token == Some(e.token)
    requires d.token.Some? ==> (e.Record? || d.nextAttempt <= now)
    requires if e.Reset? then d'.attempts == 0 else d'.attempts == d.attempts
    requires e.GiveUp? ==> !Settled(d) && Settled(d')
    requires e.Record? ==> !Settled(d)
    ensures RowInv(d', h + [e], now, maxAttempts)
  {
    var h' := h + [e];
    AppendedCounts(h, e);
    SequencedAppended(h, e);
    OutcomesAppended(h, e);
    assert Accounted(d', h', now) by {
      forall k | 0 <= k < |h'| && h'[k].Grant? && !(h'[k].expires <= now) ensures Concludes(h', h'[k].token, k, |h'|) {
        assert h'[k] == h[k];
        if Concludes(h, h[k].token, k, |h|) { ConcludesAppended(h, e, h[k].token, k, |h|); } else { assert h'[|h|] == e; }
      }
    }
    hide ClaimsSinceReset, PicksSinceReset, LastGrant, Sequenced, Accounted, OneOutcomeEach;
    assert LeaseShape(d') && Counted(d', h', maxAttempts);
  }

  /** Disabling an endpoint stops rows that hold no lease. */
  lemma DrainKeeps(d: Delivery, h: History, clock: nat, maxAttempts: nat, why: string, now: nat)
    requires RowInv(d, h, clock, maxAttempts) && clock <= now && d.state != Delivering
    ensures RowInv(Stopped(d, why, now), h, now, maxAttempts)
  {
  }

  // ---------- what it gives ----------

  /** At no moment do two leases of one row run unexpired and unconcluded. */
  lemma OneLiveLease(d: Delivery, h: History, clock: nat, maxAttempts: nat, j: nat, k: nat)
    requires RowInv(d, h, clock, maxAttempts) && j < |h| && k < |h| && h[j].Grant? && h[k].Grant?
    requires clock < h[j].expires && Record(h[j].token) !in h
    requires clock < h[k].expires && Record(h[k].token) !in h
    ensures j == k
  {
    assert !Concludes(h, h[j].token, j, |h|) && !Concludes(h, h[k].token, k, |h|);
  }

  /** Once a later lease exists, the earlier holder's token is not the row's. */
  lemma SupersededIsNotHolder(d: Delivery, h: History, clock: nat, maxAttempts: nat, j: nat, k: nat)
    requires RowInv(d, h, clock, maxAttempts) && j < k < |h| && h[j].Grant? && h[k].Grant?
    ensures d.token != Some(h[j].token)
  {
    var n := LastGrantAt(h, k);
    hide ClaimsSinceReset, PicksSinceReset, LastGrant, Accounted;
    assert h[j].token != h[n].token;
  }

  lemma {:induction false} LastGrantAt(h: History, k: nat) returns (n: nat)
    requires k < |h| && h[k].Grant?
    ensures k <= n < |h| && h[n].Grant? && LastGrant(h) == Some(h[n])
  {
    n := |h| - 1;
    if !h[n].Grant? { n := LastGrantAt(h[..|h| - 1], k); }
  }

  /** Between redeliveries a row is leased at most `maxAttempts` times and settles within one pick more. */
  lemma SettlesInFinitelyManyPicks(d: Delivery, h: History, clock: nat, maxAttempts: nat)
    requires RowInv(d, h, clock, maxAttempts)
    ensures ClaimsSinceReset(h) <= maxAttempts
    ensures PicksSinceReset(h) <= maxAttempts + 1
    ensures PicksSinceReset(h) == maxAttempts + 1 ==> Settled(d)
  {
  }
}
