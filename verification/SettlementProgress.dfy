/** The settlement protocol does get somewhere: a submission nobody disturbs is sent once and confirmed. */
module SettlementProgress {
  import opened Common
  import opened Records
  import opened Settlement

  /** A worker's own steps, one environment each, until it replies. */
  function Drive(s: Store, pc: Pc, envs: seq<Env>, programId: string): Effect {
    if envs == [] then Effect(s, Some(pc))
    else
      var before := Drive(s, pc, envs[..|envs| - 1], programId);
      if before.next.None? then before else Execute(before.store, before.next.value, envs[|envs| - 1], programId)
  }

  lemma DriveOne(s: Store, pc: Pc, e: Env, programId: string)
    ensures Drive(s, pc, [e], programId) == Execute(s, pc, e, programId)
  {
    assert [e][..0] == [];
  }

  lemma {:induction false} DriveOn(s: Store, pc: Pc, envs: seq<Env>, more: seq<Env>, programId: string)
    ensures var mid := Drive(s, pc, envs, programId);
            Drive(s, pc, envs + more, programId)
            == if mid.next.None? then mid else Drive(mid.store, mid.next.value, more, programId)
  {
    hide Execute;
    if more == [] {
      assert envs + more == envs;
    } else {
      assert (envs + more)[..|envs + more| - 1] == envs + more[..|more| - 1];
      DriveOn(s, pc, envs, more[..|more| - 1], programId);
    }
  }

  // ---------- reserving ----------

  /** The key and the order are nobody's yet. */
  ghost predicate Unclaimed(s: Store, f: Flow) {
    && PaymentOp(f.request.key) !in s.claims && PaymentOp(f.request.key) !in s.payments
    && (f.request.order.Some? ==> OrderOp(f.wallet, f.request.order.value.order) !in s.claims)
  }

  function Claimed(s: Store, f: Flow, now: nat): Store {
    s.(claims := s.claims[PaymentOp(f.request.key) := Claim(f.wallet, IntentOf(f), Some(InitialPayment(f, now)))])
  }

  function Reserved(s: Store, f: Flow, now: nat): Store {
    var claims := Claimed(s, f, now).claims;
    s.(claims := match f.request.order
                 case None => claims
                 case Some(purchase) =>
                   claims[OrderOp(f.wallet, purchase.order) := Claim(f.wallet, OrderBinding(f.request.key), None)])
  }

  lemma ClaimSteps(s: Store, f: Flow, a: Env, b: Env, c: Env, programId: string)
    requires Unclaimed(s, f)
    ensures Execute(s, Lookup(f), a, programId) == Effect(s, Some(Claiming(f)))
    ensures Execute(s, Claiming(f), b, programId) == Effect(Claimed(s, f, b.now), Some(LoadClaimed(f, true)))
    ensures Execute(Claimed(s, f, b.now), LoadClaimed(f, true), c, programId)
            == Effect(Claimed(s, f, b.now), Some(ReservingNew(f, InitialPayment(f, b.now), true)))
  {
    hide IntentOf, InitialPayment;
  }

  lemma OrderStep(s: Store, f: Flow, now: nat, e: Env, programId: string)
    requires Unclaimed(s, f)
    ensures Execute(Claimed(s, f, now), ReservingNew(f, InitialPayment(f, now), true), e, programId)
            == Effect(Reserved(s, f, now),
                Some(if f.mode == Human then Settling(f, InitialPayment(f, now)) else Keeping(f, InitialPayment(f, now))))
  {
    hide IntentOf, InitialPayment;
  }

  lemma ReservesFirst(s: Store, f: Flow, a: Env, b: Env, c: Env, d: Env, programId: string)
    requires Unclaimed(s, f)
    ensures Drive(s, Lookup(f), [a, b, c, d], programId)
            == Effect(Reserved(s, f, b.now),
                Some(if f.mode == Human then Settling(f, InitialPayment(f, b.now)) else Keeping(f, InitialPayment(f, b.now))))
  {
    hide Execute, Drive, Claimed, Reserved, InitialPayment, Unclaimed;
    ClaimSteps(s, f, a, b, c, programId);
    OrderStep(s, f, b.now, d, programId);
    DriveOne(s, Lookup(f), a, programId);
    DriveOn(s, Lookup(f), [a], [b], programId);
    DriveOne(s, Claiming(f), b, programId);
    assert [a] + [b] == [a, b];
    DriveOn(s, Lookup(f), [a, b], [c], programId);
    DriveOne(Claimed(s, f, b.now), LoadClaimed(f, true), c, programId);
    assert [a, b] + [c] == [a, b, c];
    DriveOn(s, Lookup(f), [a, b, c], [d], programId);
    DriveOne(Claimed(s, f, b.now), ReservingNew(f, InitialPayment(f, b.now), true), d, programId);
    assert [a, b, c] + [d] == [a, b, c, d];
  }

  lemma InitialIsPrepared(f: Flow, now: nat)
    ensures InitialPayment(f, now).status == Prepared && InitialPayment(f, now).id == PaymentOp(f.request.key)
    ensures InitialPayment(f, now).idempotency == f.request.key && InitialPayment(f, now).body.terms == f.request.terms
    ensures InitialPayment(f, now).created == InitialPayment(f, now).updated == now
  {
  }

  lemma OthersDiffer(s: Store, f: Flow, now: nat, programId: string)
    requires StoreOk(s, programId) && Unclaimed(s, f)
    ensures forall i :: i in s.payments ==> s.payments[i].idempotency != f.request.key
    ensures var held := Reserved(s, f, now); held.payments == s.payments && held.sent == s.sent
  {
    forall i | i in s.payments ensures s.payments[i].idempotency != f.request.key {
      assert RecordOk(s, s.payments[i], programId);
    }
  }

  // ---------- settling ----------

  /** A node that takes the bytes at `send` and reports them finalized, with the receipt asked for, at `observe`. */
  ghost predicate Willing(settle: Env, send: Env, observe: Env, terms: Terms, programId: string) {
    && !settle.duplicate && send.sendError == None
    && settle.now <= observe.now < U64_LIMIT
    && observe.status.Known? && !observe.status.failed && observe.status.confirmation == Finalized
    && terms.receipt.Some? && observe.receipt.Some? && ReceiptMatches(observe.receipt.value, terms, programId)
  }

  lemma SettlesAndSends(s: Store, f: Flow, p: Payment, settle: Env, send: Env, programId: string)
    requires !settle.duplicate && send.sendError == None
    ensures var submitted := Signed(p, f.request.tx, Submitted, settle.now);
            && Execute(s, Settling(f, p), settle, programId)
               == Effect(s.(payments := After(s.payments, submitted)), Some(Sending(f, submitted, false)))
            && Execute(s, Sending(f, submitted, false), send, programId)
               == Effect(s.(sent := s.sent + [Broadcast(f.request.key, f.request.tx.message)]),
                   Some(Observing(submitted, Reply)))
  {
    hide After;
  }

  lemma ObservesAndPersists(s: Store, p: Payment, settle: Env, send: Env, e: Env, last: Env, programId: string)
    requires Willing(settle, send, e, p.body.terms, programId) && p.body.signature.Some?
    ensures var confirmed := p.(status := Confirmed, updated := e.now, body := p.body.(slot := e.status.slot));
            var seen := s.seen +
                [Observation(p.idempotency, p.body.signature.value, p.body.terms.receipt.value, e.receipt.value)];
            && Execute(s, Observing(p, Reply), e, programId)
               == Effect(s.(seen := seen), Some(Persisting(confirmed, Reply)))
            && Execute(s, Persisting(confirmed, Reply), last, programId)
               == Effect(s.(payments := After(s.payments, confirmed)), None)
  {
    hide After, ReceiptMatches;
    AppendNothing(s.refused);
    assert Reconcile(p, e.status, e.receipt, programId, e.now)
        == p.(status := Confirmed, updated := e.now, body := p.body.(slot := e.status.slot));
  }

  /** The store has room for the record a flow is about to settle. */
  ghost predicate Ready(s: Store, f: Flow, p: Payment, now: nat) {
    && p.id == PaymentOp(f.request.key) && p.idempotency == f.request.key && p.body.terms == f.request.terms
    && (forall i :: i in s.payments && i != p.id ==> s.payments[i].idempotency != p.idempotency)
    && (p.id in s.payments ==>
          s.payments[p.id].status == Prepared && s.payments[p.id].updated <= now && s.payments[p.id].created == p.created)
  }

  ghost predicate SentAndConfirmed(before: Store, end: Effect, f: Flow) {
    && end.next == None
    && end.store.sent == before.sent + [Broadcast(f.request.key, f.request.tx.message)]
    && PaymentOp(f.request.key) in end.store.payments
    && end.store.payments[PaymentOp(f.request.key)].status == Confirmed
    && end.store.payments[PaymentOp(f.request.key)].body.signature == Some(f.request.tx.signature)
  }

  lemma SettlingConfirms(s: Store, f: Flow, p: Payment, a: Env, b: Env, c: Env, d: Env, programId: string)
    requires Ready(s, f, p, a.now) && Willing(a, b, c, f.request.terms, programId)
    ensures SentAndConfirmed(s, Drive(s, Settling(f, p), [a, b, c, d], programId), f)
  {
    hide Drive, Execute, After, Reconcile, ReceiptMatches;
    var start := Settling(f, p);
    var submitted := Signed(p, f.request.tx, Submitted, a.now);
    SettlesAndSends(s, f, p, a, b, programId);
    PutIsStored(s.payments, submitted);
    var stored := s.(payments := s.payments[submitted.id := submitted]);
    DriveOne(s, start, a, programId);
    SettlesAndSends(stored, f, p, a, b, programId);
    var sent := stored.(sent := stored.sent + [Broadcast(f.request.key, f.request.tx.message)]);
    DriveOn(s, start, [a], [b], programId);
    DriveOne(stored, Sending(f, submitted, false), b, programId);
    assert [a] + [b] == [a, b];
    ObservesAndPersists(sent, submitted, a, b, c, d, programId);
    var confirmed := submitted.(status := Confirmed, updated := c.now, body := submitted.body.(slot := c.status.slot));
    var seen := sent.(seen := sent.seen +
        [Observation(submitted.idempotency, submitted.body.signature.value, f.request.terms.receipt.value, c.receipt.value)]);
    DriveOn(s, start, [a, b], [c], programId);
    DriveOne(sent, Observing(submitted, Reply), c, programId);
    assert [a, b] + [c] == [a, b, c];
    ObservesAndPersists(seen, submitted, a, b, c, d, programId);
    DriveOn(s, start, [a, b, c], [d], programId);
    DriveOne(seen, Persisting(confirmed, Reply), d, programId);
    assert [a, b, c] + [d] == [a, b, c, d];
    PutIsStored(seen.payments, confirmed);
  }

  // ---------- the two ways to submit ----------

  /** A signed submission: eight steps, each with its own answers, send the bound message once and confirm. */
  lemma SubmissionConfirms(s: Store, f: Flow, e: seq<Env>, programId: string)
    requires StoreOk(s, programId) && Unclaimed(s, f) && f.mode == Human
    requires |e| == 8 && Willing(e[4], e[5], e[6], f.request.terms, programId)
    ensures SentAndConfirmed(s, Drive(s, Lookup(f), e, programId), f)
  {
    hide Drive, StoreOk, InitialPayment, Reserved, Willing, SentAndConfirmed;
    var p, held := InitialPayment(f, e[1].now), Reserved(s, f, e[1].now);
    ReservesFirst(s, f, e[0], e[1], e[2], e[3], programId);
    InitialIsPrepared(f, e[1].now);
    OthersDiffer(s, f, e[1].now, programId);
    DriveOn(s, Lookup(f), [e[0], e[1], e[2], e[3]], [e[4], e[5], e[6], e[7]], programId);
    assert e == [e[0], e[1], e[2], e[3]] + [e[4], e[5], e[6], e[7]];
    SettlingConfirms(held, f, p, e[4], e[5], e[6], e[7], programId);
    SameSent(s, held, Drive(s, Lookup(f), e, programId), f);
  }

  lemma SameSent(a: Store, b: Store, end: Effect, f: Flow)
    requires a.sent == b.sent && SentAndConfirmed(b, end, f)
    ensures SentAndConfirmed(a, end, f)
  {
  }

  lemma KeepsAndSigns(s: Store, f: Flow, p: Payment, a: Env, b: Env, programId: string)
    requires b.signed.message == f.request.tx.message
    ensures Execute(s, Keeping(f, p), a, programId) == Effect(s.(payments := After(s.payments, p)), Some(Signing(f, p)))
    ensures Execute(s, Signing(f, p), b, programId)
            == Effect(s, Some(Settling(f.(request := f.request.(tx := b.signed)), p)))
  {
    hide After;
  }

  /** A delegated submission: the record is kept, the provider signs the reviewed message, and the rest is the same. */
  lemma DelegatedSubmissionConfirms(s: Store, f: Flow, e: seq<Env>, programId: string)
    requires StoreOk(s, programId) && Unclaimed(s, f) && f.mode == Delegated
    requires |e| == 10 && e[5].signed.message == f.request.tx.message && e[1].now <= e[6].now
    requires Willing(e[6], e[7], e[8], f.request.terms, programId)
    ensures SentAndConfirmed(s, Drive(s, Lookup(f), e, programId), f.(request := f.request.(tx := e[5].signed)))
  {
    hide Drive, StoreOk, InitialPayment, Reserved, SentAndConfirmed, Execute, After;
    var p, held := InitialPayment(f, e[1].now), Reserved(s, f, e[1].now);
    var g := f.(request := f.request.(tx := e[5].signed));
    var kept := held.(payments := held.payments[p.id := p]);
    var four := [e[0], e[1], e[2], e[3]];
    ReservesFirst(s, f, e[0], e[1], e[2], e[3], programId);
    InitialIsPrepared(f, e[1].now);
    OthersDiffer(s, f, e[1].now, programId);
    PutIsStored(held.payments, p);
    KeepsAndSigns(held, f, p, e[4], e[5], programId);
    DriveOn(s, Lookup(f), four, [e[4]], programId);
    DriveOne(held, Keeping(f, p), e[4], programId);
    KeepsAndSigns(kept, f, p, e[4], e[5], programId);
    DriveOn(s, Lookup(f), four + [e[4]], [e[5]], programId);
    DriveOne(kept, Signing(f, p), e[5], programId);
    DriveOn(s, Lookup(f), four + [e[4]] + [e[5]], [e[6], e[7], e[8], e[9]], programId);
    assert e == four + [e[4]] + [e[5]] + [e[6], e[7], e[8], e[9]];
    SettlingConfirms(kept, g, p, e[6], e[7], e[8], e[9], programId);
    SameSent(s, kept, Drive(s, Lookup(f), e, programId), g);
  }

  // ---------- retrying ----------

  /** The key is bound to this very request, its signed record waits as prepared, and its order is not another's. */
  ghost predicate Retriable(s: Store, f: Flow) {
    && Bound(s, f) && f.mode == Human && PaymentOp(f.request.key) in s.payments
    && s.payments[PaymentOp(f.request.key)].status == Prepared
    && s.payments[PaymentOp(f.request.key)].body.signature.Some?
    && (f.request.order.Some? && OrderOp(f.wallet, f.request.order.value.order) in s.claims ==>
          HoldsOrder(s, f.request.key, f.request.order))
  }

  function OrderHeld(s: Store, f: Flow): Store {
    s.(claims := ReserveOrder(s, f).0)
  }

  lemma RetryLoads(s: Store, f: Flow, a: Env, b: Env, programId: string)
    requires Retriable(s, f)
    ensures var p := s.payments[PaymentOp(f.request.key)];
            && Execute(s, Lookup(f), a, programId) == Effect(s, Some(LoadBound(f)))
            && Execute(s, LoadBound(f), b, programId) == Effect(s, Some(Observing(p, ResumeHuman(f))))
  {
    hide IntentOf;
  }

  /** The node does not report the prepared bytes as final, so the record stays prepared and the flow resumes. */
  lemma RetryObserves(s: Store, f: Flow, p: Payment, c: Env, d: Env, programId: string)
    requires p.status == Prepared && p.body.signature.Some?
    requires !(c.status.Known? && c.status.confirmation == Finalized)
    requires After(s.payments, p.(updated := c.now)) == s.payments[p.id := p.(updated := c.now)]
    ensures var seen := p.(updated := c.now);
            && Execute(s, Observing(p, ResumeHuman(f)), c, programId) == Effect(s, Some(Persisting(seen, ResumeHuman(f))))
            && Execute(s, Persisting(seen, ResumeHuman(f)), d, programId)
               == Effect(s.(payments := s.payments[p.id := seen]), Some(Reserving(f, seen, false)))
  {
    hide After, ReceiptMatches;
    AppendNothing(s.seen);
    AppendNothing(s.refused);
    assert Reconcile(p, c.status, c.receipt, programId, c.now) == p.(updated := c.now);
  }

  /** An order that is free, or bound to this key, is held. */
  lemma OrderIsHeld(s: Store, f: Flow, programId: string, t: Store)
    requires StoreOk(s, programId) && Retriable(s, f) && t.claims == s.claims
    ensures ReserveOrder(t, f).1
  {
    hide IntentOf, RecordOk, SentOk, UniqueKeys;
    if f.request.order.Some? {
      var id := OrderOp(f.wallet, f.request.order.value.order);
      if id in s.claims { assert ClaimOk(s, id, programId); }
    }
  }

  lemma RetryReserves(s: Store, f: Flow, p: Payment, e: Env, programId: string)
    requires f.mode == Human && ReserveOrder(s, f).1
    ensures Execute(s, Reserving(f, p, false), e, programId) == Effect(OrderHeld(s, f), Some(Settling(f, p)))
  {
    hide ReserveOrder;
  }

  /** A retry of a submission the node was too busy to take: nine steps send the bound message and confirm it. */
  lemma RetryConfirms(s: Store, f: Flow, e: seq<Env>, programId: string)
    requires StoreOk(s, programId) && Retriable(s, f) && |e| == 9
    requires !(e[2].status.Known? && e[2].status.confirmation == Finalized)
    requires s.payments[PaymentOp(f.request.key)].updated <= e[2].now <= e[5].now
    requires Willing(e[5], e[6], e[7], f.request.terms, programId)
    ensures SentAndConfirmed(s, Drive(s, Lookup(f), e, programId), f)
  {
    hide Drive, Execute, After, Willing, SentAndConfirmed, StoreOk, Bound, ReserveOrder;
    var p := s.payments[PaymentOp(f.request.key)];
    var waiting := p.(updated := e[2].now);
    RetriedRecord(s, f, programId);
    WillingNow(e[5], e[6], e[7], f.request.terms, programId);
    PutIsStored(s.payments, waiting);
    var stored := s.(payments := s.payments[p.id := waiting]);
    var held := OrderHeld(stored, f);
    var five := [e[0]] + [e[1]] + [e[2]] + [e[3]] + [e[4]];
    RetryLoads(s, f, e[0], e[1], programId);
    RetryObserves(s, f, p, e[2], e[3], programId);
    OrderIsHeld(s, f, programId, stored);
    RetryReserves(stored, f, waiting, e[4], programId);
    DriveOne(s, Lookup(f), e[0], programId);
    DriveOn(s, Lookup(f), [e[0]], [e[1]], programId);
    DriveOne(s, LoadBound(f), e[1], programId);
    DriveOn(s, Lookup(f), [e[0]] + [e[1]], [e[2]], programId);
    DriveOne(s, Observing(p, ResumeHuman(f)), e[2], programId);
    DriveOn(s, Lookup(f), [e[0]] + [e[1]] + [e[2]], [e[3]], programId);
    DriveOne(s, Persisting(waiting, ResumeHuman(f)), e[3], programId);
    DriveOn(s, Lookup(f), [e[0]] + [e[1]] + [e[2]] + [e[3]], [e[4]], programId);
    DriveOne(stored, Reserving(f, waiting, false), e[4], programId);
    DriveOn(s, Lookup(f), five, [e[5], e[6], e[7], e[8]], programId);
    assert e == five + [e[5], e[6], e[7], e[8]];
    SettlingConfirms(held, f, waiting, e[5], e[6], e[7], e[8], programId);
    SameSent(s, held, Drive(s, Lookup(f), e, programId), f);
  }

  lemma WillingNow(settle: Env, send: Env, observe: Env, terms: Terms, programId: string)
    requires Willing(settle, send, observe, terms, programId)
    ensures settle.now < U64_LIMIT
  {
  }

  lemma RetriedRecord(s: Store, f: Flow, programId: string)
    requires StoreOk(s, programId) && Retriable(s, f)
    ensures var p := s.payments[PaymentOp(f.request.key)];
            && p.id == PaymentOp(f.request.key) && p.idempotency == f.request.key && p.body.terms == f.request.terms
            && p.updated < U64_LIMIT
            && forall i :: i in s.payments && i != p.id ==> s.payments[i].idempotency != p.idempotency
  {
    var p := s.payments[PaymentOp(f.request.key)];
    assert RecordOk(s, p, programId);
  }
}
