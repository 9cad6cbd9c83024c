/**
 * When a payment's bytes are handed over at most once, and so when a payment recorded as failed
 * was never handed over but in the send that was refused (`backend/src/server_recovery.rs`).
 */
module SettlementOnce {
  import opened Common
  import opened Records
  import opened Settlement

  /** The payment a worker is working on. */
  function KeyOf(pc: Pc): Key {
    match pc
    case Lookup(f) => f.request.key
    case LoadBound(f) => f.request.key
    case Claiming(f) => f.request.key
    case LoadClaimed(f, _) => f.request.key
    case ReservingNew(f, _, _) => f.request.key
    case Reserving(f, _, _) => f.request.key
    case Keeping(f, _) => f.request.key
    case Signing(f, _) => f.request.key
    case Settling(f, _) => f.request.key
    case MayResubmit(f, _) => f.request.key
    case Sending(f, _, _) => f.request.key
    case Classifying(f, _, _) => f.request.key
    case Observing(p, _) => p.idempotency
    case Persisting(p, _) => p.idempotency
    case Storing(p, _) => p.idempotency
    case StoringLast(p) => p.idempotency
    case RecoverLoad(_, key, _, _) => key
    case StatusLoad(key) => key
    case Cancelling(key) => key
  }

  /** How often bytes of this payment have left the relay. */
  function HandedOver(sent: seq<Broadcast>, key: Key): nat {
    if sent == [] then 0
    else HandedOver(sent[..|sent| - 1], key) + if sent[|sent| - 1].key == key then 1 else 0
  }

  lemma HandedOverOnce(sent: seq<Broadcast>, b: Broadcast, key: Key)
    ensures HandedOver(sent + [b], key) == HandedOver(sent, key) + if b.key == key then 1 else 0
  {
    assert (sent + [b])[..|sent|] == sent;
  }

  // ---------- the three conditions ----------

  /** At most one worker at a time works on the payment. */
  ghost predicate Alone(w: World, key: Key) {
    forall i, j :: i in w.workers && j in w.workers && KeyOf(w.workers[i]) == key && KeyOf(w.workers[j]) == key ==>
        i == j
  }

  /** No recovery of the payment asks to send it again. */
  predicate NoResubmit(step: Step, key: Key) {
    !(step.Begin? && step.pc.RecoverLoad? && step.pc.key == key && step.pc.resubmit)
  }

  /** No step on the payment has a clock behind the stored update time. */
  predicate Timely(w: World, step: Step, key: Key) {
    step.Work? && step.id in w.workers && KeyOf(w.workers[step.id]) == key && PaymentOp(key) in w.store.payments
    ==> w.store.payments[PaymentOp(key)].updated <= step.env.now
  }

  ghost predicate Orderly(worlds: seq<World>, steps: seq<Step>, key: Key)
    requires |worlds| == |steps| + 1
  {
    && (forall n :: 0 <= n < |worlds| ==> Alone(worlds[n], key))
    && (forall n :: 0 <= n < |steps| ==> NoResubmit(steps[n], key) && Timely(worlds[n], steps[n], key))
  }

  // ---------- what they keep ----------

  ghost predicate Unsent(s: Store, key: Key) { HandedOver(s.sent, key) == 0 }

  /** The stored record tells every later reader that the payment may be under way. */
  ghost predicate Flagged(s: Store, key: Key) {
    PaymentOp(key) in s.payments && s.payments[PaymentOp(key)].status != Prepared
  }

  ghost predicate StoreOnce(s: Store, key: Key) {
    HandedOver(s.sent, key) <= 1 && (HandedOver(s.sent, key) > 0 ==> Flagged(s, key))
  }

  /** A worker that may still send, or that would store the payment as prepared, works on an unsent one. */
  ghost predicate PcOnce(s: Store, pc: Pc, key: Key) {
    match pc
    case Claiming(_) => Unsent(s, key)
    case LoadClaimed(_, _) => Unsent(s, key)
    case ReservingNew(_, _, _) => Unsent(s, key)
    case Reserving(_, _, resend) => !resend && Unsent(s, key)
    case Keeping(_, _) => Unsent(s, key)
    case Signing(_, _) => Unsent(s, key)
    case Settling(_, _) => Unsent(s, key)
    case MayResubmit(_, _) => false
    case Sending(_, p, resend) => !resend && p.status != Prepared && Unsent(s, key) && Flagged(s, key)
    case Classifying(_, _, error) => error == Busy ==> Unsent(s, key)
    case Observing(p, next) => !next.Resubmit? && (p.status == Prepared ==> Unsent(s, key))
    case Persisting(p, next) => !next.Resubmit? && (p.status == Prepared ==> Unsent(s, key))
    case Storing(p, next) => !next.Resubmit? && (p.status == Prepared ==> Unsent(s, key))
    case StoringLast(p) => p.status == Prepared ==> Unsent(s, key)
    case RecoverLoad(_, _, _, resubmit) => !resubmit
    case _ => true
  }

  ghost predicate WorldOnce(w: World, key: Key) {
    && StoreOnce(w.store, key)
    && forall id :: id in w.workers && KeyOf(w.workers[id]) == key ==> PcOnce(w.store, w.workers[id], key)
  }

  /** What a step by the payment's only worker owes. */
  ghost predicate KeptOnce(e: Effect, key: Key) {
    StoreOnce(e.store, key) && (e.next.Some? ==> PcOnce(e.store, e.next.value, key))
  }

  // ---------- the payment's own worker ----------

  lemma ObserveOrOnce(s: Store, p: Payment, next: Then, key: Key)
    requires !next.Resubmit? && (p.status == Prepared ==> Unsent(s, key))
    ensures ObserveOr(p, next).Some? ==> PcOnce(s, ObserveOr(p, next).value, key)
    ensures Continue(p, next).Some? ==> PcOnce(s, Continue(p, next).value, key)
  {
    hide Unsent, Flagged;
  }

  lemma LoadOnce(s: Store, key: Key, programId: string)
    requires StoreOk(s, programId) && StoreOnce(s, key)
    ensures LoadRecord(s, key).Some? && LoadRecord(s, key).value.status == Prepared ==> Unsent(s, key)
  {
  }

  /** A put that is neither stale nor late leaves exactly its status behind, and changes no other payment. */
  lemma PutLeaves(s: Store, p: Payment, programId: string)
    requires StoreOk(s, programId) && RecordOk(s, p, programId)
    ensures var after := After(s.payments, p);
            && p.id in after
            && (after[p.id].status == p.status || (p.id in s.payments && after[p.id].status == s.payments[p.id].status))
            && (!(p.id in s.payments && s.payments[p.id].updated > p.updated) && p.status != Prepared ==>
                after[p.id].status != Prepared)
            && forall id :: id != p.id ==>
                (id in after <==> id in s.payments) && (id in after ==> after[id] == s.payments[id])
  {
    hide Sorted, TextLess, RecordOk, ClaimOk, SentOk;
    assert p.updated < U64_LIMIT && p.id == PaymentOp(p.idempotency) by { RecordNames(s, p, programId); }
    if p.id in s.payments { SortedOrder(p.updated, s.payments[p.id].updated); }
    forall i | i in s.payments && i != p.id ensures s.payments[i].idempotency != p.idempotency {
      RecordNames(s, s.payments[i], programId);
    }
  }

  lemma RecordNames(s: Store, p: Payment, programId: string)
    requires RecordOk(s, p, programId)
    ensures p.updated < U64_LIMIT && p.id == PaymentOp(p.idempotency)
  {
  }

  lemma PutOnce(s: Store, p: Payment, next: Option<Pc>, key: Key, programId: string)
    requires StoreOk(s, programId) && RecordOk(s, p, programId) && p.idempotency == key
    requires StoreOnce(s, key) && (p.status == Prepared ==> Unsent(s, key))
    requires next.Some? ==> !next.value.Sending? && PcOnce(s, next.value, key)
    ensures KeptOnce(Puts(s, p, next), key)
  {
    hide StoreOk, RecordOk, After, HandedOver;
    PutLeaves(s, p, programId);
    IdNamesKey(s, p, programId);
  }

  lemma LookupOnce(s: Store, f: Flow, e: Env, programId: string)
    requires StoreOk(s, programId) && StoreOnce(s, f.request.key)
    ensures KeptOnce(Execute(s, Lookup(f), e, programId), f.request.key)
  {
    hide IntentOf, RecordOk, ClaimOk;
    if PaymentOp(f.request.key) !in s.claims { NeverClaimedNeverSent(s, f.request.key, |s.sent|, programId); }
    assert s.sent[..|s.sent|] == s.sent;
  }

  lemma {:induction false} NeverClaimedNeverSent(s: Store, key: Key, n: nat, programId: string)
    requires StoreOk(s, programId) && PaymentOp(key) !in s.claims && n <= |s.sent|
    ensures HandedOver(s.sent[..n], key) == 0
  {
    if n > 0 {
      NeverClaimedNeverSent(s, key, n - 1, programId);
      assert s.sent[..n][..n - 1] == s.sent[..n - 1];
      assert SentOk(s, s.sent[n - 1]);
    }
  }

  lemma SettlingOnce(s: Store, f: Flow, p: Payment, e: Env, programId: string)
    requires StoreOk(s, programId) && RecordOk(s, p, programId) && p.idempotency == f.request.key && e.now < U64_LIMIT
    requires StoreOnce(s, f.request.key) && Unsent(s, f.request.key)
    requires PaymentOp(f.request.key) in s.payments ==> s.payments[PaymentOp(f.request.key)].updated <= e.now
    ensures KeptOnce(Execute(s, Settling(f, p), e, programId), f.request.key)
  {
    hide StoreOk, RecordOk, After, HandedOver;
    var q := Signed(p, f.request.tx, Submitted, e.now);
    SignedOk(s, p, f.request.tx, Submitted, e.now, programId);
    PutLeaves(s, q, programId);
    IdNamesKey(s, q, programId);
  }

  lemma SendingOnce(s: Store, f: Flow, p: Payment, e: Env, programId: string)
    requires PcOk(s, Sending(f, p, false), programId) && p.body.signature.Some?
    requires StoreOnce(s, f.request.key) && PcOnce(s, Sending(f, p, false), f.request.key)
    ensures KeptOnce(SendStep(s, f, p, false, e), f.request.key)
  {
    HandedOverOnce(s.sent, Broadcast(f.request.key, f.request.tx.message), f.request.key);
    hide PcOk;
  }

  lemma ReservingOnce(s: Store, pc: Pc, e: Env, key: Key, programId: string)
    requires (pc.ReservingNew? || pc.Reserving?) && StoreOnce(s, key) && PcOnce(s, pc, key)
    ensures KeptOnce(Execute(s, pc, e, programId), key)
  {
    hide ReserveOrder, HandedOver;
    var s' := Execute(s, pc, e, programId).store;
    assert s'.sent == s.sent && s'.payments == s.payments;
    ObserveOrOnce(s', pc.record, Reply, key);
    ObserveOrOnce(s', pc.record, ResumeManaged(pc.f, false), key);
  }

  lemma ClassifyingOnce(s: Store, f: Flow, p: Payment, error: RpcError, e: Env, programId: string)
    requires StoreOnce(s, f.request.key) && PcOnce(s, Classifying(f, p, error), f.request.key)
    ensures KeptOnce(ClassifyStep(s, p, error, e), f.request.key)
  {
    hide HandedOver;
    var s', q := ClassifyStep(s, p, error, e).store, ClassifySend(p, error, e.status, e.now);
    assert s'.sent == s.sent && s'.payments == s.payments;
    assert q.status == Prepared ==> error == Busy;
    ObserveOrOnce(s', q, StoreAndReply, f.request.key);
  }

  lemma ObservingOnce(s: Store, p: Payment, next: Then, e: Env, programId: string)
    requires StoreOnce(s, p.idempotency) && PcOnce(s, Observing(p, next), p.idempotency)
    ensures KeptOnce(ObserveStep(s, p, next, e, programId), p.idempotency)
  {
    hide HandedOver, ReceiptMatches;
    var s' := ObserveStep(s, p, next, e, programId).store;
    assert s'.sent == s.sent && s'.payments == s.payments;
    if p.body.signature.Some? {
      var reconciled := Reconcile(p, e.status, e.receipt, programId, e.now);
      assert reconciled.status == Prepared ==> p.status == Prepared;
    }
  }

  lemma PersistingOnce(s: Store, p: Payment, next: Then, e: Env, programId: string)
    requires StoreOk(s, programId) && PcOk(s, Persisting(p, next), programId)
    requires StoreOnce(s, p.idempotency) && PcOnce(s, Persisting(p, next), p.idempotency)
    ensures KeptOnce(Execute(s, Persisting(p, next), e, programId), p.idempotency)
  {
    hide StoreOk, RecordOk, After, HandedOver;
    PutOnce(s, p, None, p.idempotency, programId);
    PutLeaves(s, p, programId);
    IdNamesKey(s, p, programId);
    var s' := s.(payments := After(s.payments, p));
    ObserveOrOnce(s', s'.payments[p.id], next, p.idempotency);
  }

  lemma RecoverOnce(s: Store, wallet: Wallet, key: Key, tx: Transaction, e: Env, programId: string)
    requires StoreOk(s, programId) && StoreOnce(s, key)
    ensures KeptOnce(RecoverStep(s, wallet, key, tx, false, e), key)
  {
    hide StoreOk, LoadRecord, HandedOver;
    LoadOnce(s, key, programId);
  }

  /** Every step of the payment's only worker keeps it sent at most once and flagged once sent. */
  lemma OwnStepOnce(s: Store, pc: Pc, e: Env, key: Key, programId: string)
    requires StoreOk(s, programId) && PcOk(s, pc, programId) && e.now < U64_LIMIT && KeyOf(pc) == key
    requires StoreOnce(s, key) && PcOnce(s, pc, key)
    requires PaymentOp(key) in s.payments ==> s.payments[PaymentOp(key)].updated <= e.now
    ensures KeptOnce(Execute(s, pc, e, programId), key)
  {
    hide StoreOk, RecordOk, HandedOver, SendStep, ObserveStep, RecoverStep, ClassifyStep, After, HoldsOrder, IntentOf;
    match pc
    case Lookup(f) => LookupOnce(s, f, e, programId);
    case LoadBound(f) =>
      LoadOnce(s, key, programId);
      var record := LoadRecord(s, key);
      hide LoadRecord;
      if record.Some? {
        ObserveOrOnce(s, record.value, if f.mode == Human then ResumeHuman(f) else ResumeManaged(f, true), key);
      }
    case ReservingNew(_, _, _) => ReservingOnce(s, pc, e, key, programId);
    case Reserving(_, _, _) => ReservingOnce(s, pc, e, key, programId);
    case Keeping(f, p) => PutOnce(s, p, Some(Signing(f, p)), key, programId);
    case Settling(f, p) => SettlingOnce(s, f, p, e, programId);
    case Sending(f, p, resend) => SendingOnce(s, f, p, e, programId);
    case Classifying(f, p, error) => ClassifyingOnce(s, f, p, error, e, programId);
    case Observing(p, next) => ObservingOnce(s, p, next, e, programId);
    case Persisting(p, next) => PersistingOnce(s, p, next, e, programId);
    case Storing(p, next) =>
      ObserveOrOnce(s, p, next, key);
      PutOnce(s, p, ObserveOr(p, next), key, programId);
    case StoringLast(p) => PutOnce(s, p, None, key, programId);
    case RecoverLoad(wallet, _, tx, _) => RecoverOnce(s, wallet, key, tx, e, programId);
    case StatusLoad(_) =>
      LoadOnce(s, key, programId);
      var record := LoadRecord(s, key);
      hide LoadRecord;
      if record.Some? { ObserveOrOnce(s, record.value, Reply, key); }
    case _ => hide LoadRecord;
  }

  // ---------- other workers ----------

  lemma ObserveOrKey(s: Store, p: Payment, next: Then, key: Key)
    requires p.idempotency == key && ThenOk(s, p, next)
    ensures ObserveOr(p, next).Some? ==> KeyOf(ObserveOr(p, next).value) == key
    ensures Continue(p, next).Some? ==> KeyOf(Continue(p, next).value) == key
  {
    hide Bound;
  }

  lemma SendKey(s: Store, f: Flow, p: Payment, resend: bool, e: Env)
    requires p.idempotency == f.request.key
    ensures var next := SendStep(s, f, p, resend, e).next; next.Some? ==> KeyOf(next.value) == f.request.key
  {
    ObserveOrKey(s, p, Reply, f.request.key);
    hide ObserveOr;
  }

  lemma ClassifyKey(s: Store, p: Payment, error: RpcError, e: Env)
    ensures var next := ClassifyStep(s, p, error, e).next; next.Some? ==> KeyOf(next.value) == p.idempotency
  {
    ObserveOrKey(s, ClassifySend(p, error, e.status, e.now), StoreAndReply, p.idempotency);
    hide ObserveOr;
  }

  lemma RecoverKey(s: Store, wallet: Wallet, key: Key, tx: Transaction, resubmit: bool, e: Env, programId: string)
    requires StoreOk(s, programId)
    ensures var next := RecoverStep(s, wallet, key, tx, resubmit, e).next; next.Some? ==> KeyOf(next.value) == key
  {
    hide StoreOk, LoadRecord, RecordOk;
    LoadOk(s, key, programId);
  }

  lemma ObserveKey(s: Store, p: Payment, next: Then, e: Env, programId: string)
    ensures var pc := ObserveStep(s, p, next, e, programId).next; pc.Some? ==> KeyOf(pc.value) == p.idempotency
  {
    hide ReceiptMatches;
  }

  lemma PersistKey(s: Store, p: Payment, next: Then, e: Env, programId: string)
    requires StoreOk(s, programId) && RecordOk(s, p, programId) && ThenOk(s, p, next)
    ensures var pc := Execute(s, Persisting(p, next), e, programId).next; pc.Some? ==> KeyOf(pc.value) == p.idempotency
  {
    hide StoreOk, RecordOk, After, ThenOk, Grows;
    var s' := s.(payments := After(s.payments, p));
    PutKeeps(s, p, s', programId);
    var q := if p.id in s'.payments then s'.payments[p.id] else p;
    ThenOkGrows(s, s', p, q, next);
    ObserveOrKey(s', q, next, p.idempotency);
    hide Continue;
  }

  /** A worker stays with its payment. */
  lemma KeyStays(s: Store, pc: Pc, e: Env, programId: string)
    requires StoreOk(s, programId) && PcOk(s, pc, programId) && e.now < U64_LIMIT
    ensures Execute(s, pc, e, programId).next.Some? ==> KeyOf(Execute(s, pc, e, programId).next.value) == KeyOf(pc)
  {
    var key := KeyOf(pc);
    hide StoreOk, RecordOk, HoldsOrder, IntentOf, ReserveOrder, After, Bound, LoadRecord, ClaimOperation,
      SendStep, ClassifyStep, RecoverStep, ObserveStep, ObserveOr, Continue, Signed;
    match pc
    case LoadBound(f) =>
      LoadOk(s, key, programId);
      var record := LoadRecord(s, key);
      if record.Some? {
        ObserveOrKey(s, record.value, if f.mode == Human then ResumeHuman(f) else ResumeManaged(f, true), key);
      }
    case StatusLoad(_) =>
      LoadOk(s, key, programId);
      var record := LoadRecord(s, key);
      if record.Some? { ObserveOrKey(s, record.value, Reply, key); }
    case RecoverLoad(wallet, _, tx, resubmit) => RecoverKey(s, wallet, key, tx, resubmit, e, programId);
    case ReservingNew(f, p, _) =>
      ObserveOrKey(s, p, Reply, key);
      ObserveOrKey(s, p, ResumeManaged(f, false), key);
    case Settling(f, p) => SignedKey(p, f.request.tx, e.now);
    case MayResubmit(_, p) => ObserveOrKey(s, p, Reply, key);
    case Sending(f, p, resend) => SendKey(s, f, p, resend, e);
    case Classifying(_, p, error) => ClassifyKey(s, p, error, e);
    case Observing(p, next) => ObserveKey(s, p, next, e, programId);
    case Persisting(p, next) => PersistKey(s, p, next, e, programId);
    case Storing(p, next) => ObserveOrKey(s, p, next, key);
    case _ =>
  }

  lemma SignedKey(p: Payment, tx: Transaction, now: nat)
    ensures Signed(p, tx, Submitted, now).idempotency == p.idempotency
  {
  }

  /** Asking the node, classifying and loading for recovery neither send nor store. */
  lemma QuietSteps(s: Store, pc: Pc, e: Env, programId: string)
    ensures pc.Observing? ==>
              var s' := ObserveStep(s, pc.record, pc.next, e, programId).store;
              s'.sent == s.sent && s'.payments == s.payments
    ensures pc.Classifying? ==>
              var s' := ClassifyStep(s, pc.record, pc.error, e).store;
              s'.sent == s.sent && s'.payments == s.payments
    ensures pc.RecoverLoad? ==> RecoverStep(s, pc.wallet, pc.key, pc.tx, pc.resubmit, e).store == s
  {
    hide ReceiptMatches, LoadRecord;
  }

  lemma SendHandsOver(s: Store, f: Flow, p: Payment, resend: bool, e: Env, key: Key)
    ensures var s' := SendStep(s, f, p, resend, e).store;
            && s'.payments == s.payments
            && HandedOver(s'.sent, key)
               == HandedOver(s.sent, key) + if f.request.key == key && e.sendError != Some(Busy) then 1 else 0
  {
    HandedOverOnce(s.sent, Broadcast(f.request.key, f.request.tx.message), key);
    hide HandedOver, ObserveOr;
  }

  /** Work on another payment neither hands this one over nor changes its record. */
  lemma OtherStepLeaves(s: Store, pc: Pc, e: Env, key: Key, programId: string)
    requires StoreOk(s, programId) && PcOk(s, pc, programId) && e.now < U64_LIMIT && KeyOf(pc) != key
    ensures var s' := Execute(s, pc, e, programId).store;
            && HandedOver(s'.sent, key) == HandedOver(s.sent, key)
            && (PaymentOp(key) in s'.payments <==> PaymentOp(key) in s.payments)
            && (PaymentOp(key) in s.payments ==> s'.payments[PaymentOp(key)] == s.payments[PaymentOp(key)])
  {
    hide StoreOk, RecordOk, HoldsOrder, IntentOf, ReserveOrder, After, Bound, LoadRecord, ClaimOperation, HandedOver,
      ObserveOr, Continue, SendStep, ObserveStep, ClassifyStep, RecoverStep, Signed;
    QuietSteps(s, pc, e, programId);
    match pc
    case Keeping(_, p) => OtherPutLeaves(s, p, key, programId);
    case Settling(f, p) =>
      SignedOk(s, p, f.request.tx, Submitted, e.now, programId);
      SignedKey(p, f.request.tx, e.now);
      OtherPutLeaves(s, Signed(p, f.request.tx, Submitted, e.now), key, programId);
    case Sending(f, p, resend) => SendHandsOver(s, f, p, resend, e, key);
    case Persisting(p, _) => OtherPutLeaves(s, p, key, programId);
    case Storing(p, _) => OtherPutLeaves(s, p, key, programId);
    case StoringLast(p) => OtherPutLeaves(s, p, key, programId);
    case _ =>
  }

  lemma OtherPutLeaves(s: Store, p: Payment, key: Key, programId: string)
    requires StoreOk(s, programId) && RecordOk(s, p, programId) && p.idempotency != key
    ensures var after := After(s.payments, p);
            && (PaymentOp(key) in after <==> PaymentOp(key) in s.payments)
            && (PaymentOp(key) in s.payments ==> after[PaymentOp(key)] == s.payments[PaymentOp(key)])
  {
    PutLeaves(s, p, programId);
    IdNamesKey(s, p, programId);
  }

  // ---------- whole runs ----------

  lemma PcOnceSame(s: Store, s': Store, pc: Pc, key: Key)
    requires HandedOver(s'.sent, key) == HandedOver(s.sent, key)
    requires (Flagged(s, key) ==> Flagged(s', key)) && PcOnce(s, pc, key)
    ensures PcOnce(s', pc, key)
  {
  }

  lemma NextOnce(w: World, step: Step, w': World, key: Key, programId: string)
    requires WorldOk(w, programId) && WorldOnce(w, key) && Next(w, step, w', programId)
    requires Alone(w, key) && NoResubmit(step, key) && Timely(w, step, key)
    ensures WorldOnce(w', key)
  {
    hide StoreOk, PcOk, Execute, StoreOnce, PcOnce;
    match step
    case Begin(id, pc) => if KeyOf(pc) == key { EntryOnce(w.store, step, key); }
    case Abort(id) =>
    case Work(id, e) =>
      var pc := w.workers[id];
      KeyStays(w.store, pc, e, programId);
      if KeyOf(pc) == key {
        OwnStepOnce(w.store, pc, e, key, programId);
      } else {
        OtherStepLeaves(w.store, pc, e, key, programId);
        StoreOnceSame(w.store, w'.store, key);
        forall i | i in w'.workers && KeyOf(w'.workers[i]) == key ensures PcOnce(w'.store, w'.workers[i], key) {
          PcOnceSame(w.store, w'.store, w.workers[i], key);
        }
      }
  }

  lemma StoreOnceSame(s: Store, s': Store, key: Key)
    requires HandedOver(s'.sent, key) == HandedOver(s.sent, key) && (Flagged(s, key) ==> Flagged(s', key))
    requires StoreOnce(s, key)
    ensures StoreOnce(s', key)
  {
  }

  lemma EntryOnce(s: Store, step: Step, key: Key)
    requires step.Begin? && Entry(step.pc) && KeyOf(step.pc) == key && NoResubmit(step, key)
    ensures PcOnce(s, step.pc, key)
  {
  }

  lemma StartOnce(w: World, key: Key)
    requires w.workers == map[] && w.store.sent == []
    ensures WorldOnce(w, key)
  {
  }

  lemma {:induction false} RunOnce(worlds: seq<World>, steps: seq<Step>, programId: string, key: Key, n: nat)
    requires Run(worlds, steps, programId) && Orderly(worlds, steps, key) && n < |worlds|
    ensures WorldOnce(worlds[n], key)
  {
    hide Next, WorldOnce, Alone, Timely, NoResubmit, WorldOk;
    if n == 0 {
      StartOnce(worlds[0], key);
    } else {
      RunOnce(worlds, steps, programId, key, n - 1);
      RunKeeps(worlds, steps, programId, n - 1);
      NextOnce(worlds[n - 1], steps[n - 1], worlds[n], key, programId);
    }
  }

  /**
   * In every run in which a payment has at most one worker at a time, is never recovered with a
   * resubmission, and no clock falls behind its stored update time, its bytes are handed over at most once.
   */
  lemma HandedOverAtMostOnce(worlds: seq<World>, steps: seq<Step>, programId: string, key: Key, n: nat)
    requires Run(worlds, steps, programId) && Orderly(worlds, steps, key) && n < |worlds|
    ensures HandedOver(worlds[n].store.sent, key) <= 1
    ensures HandedOver(worlds[n].store.sent, key) == 1 ==> Flagged(worlds[n].store, key)
  {
    hide Next, Orderly;
    RunOnce(worlds, steps, programId, key, n);
  }

  // ---------- a refused payment was handed over in the refused send only ----------

  /** A step that hands the payment's bytes over: a send that is not provably unsent. */
  ghost predicate HandsOver(w: World, step: Step, key: Key) {
    && step.Work? && step.id in w.workers && w.workers[step.id].Sending? && KeyOf(w.workers[step.id]) == key
    && step.env.sendError != Some(Busy)
  }

  lemma HandOverCounts(w: World, step: Step, w': World, key: Key, programId: string)
    requires Next(w, step, w', programId)
    ensures HandedOver(w'.store.sent, key) == HandedOver(w.store.sent, key) + if HandsOver(w, step, key) then 1 else 0
  {
    hide HandedOver, After, ReserveOrder, LoadRecord, SendStep, ObserveStep, ClassifyStep, RecoverStep, Continue,
      ObserveOr;
    if step.Work? {
      var pc := w.workers[step.id];
      QuietSteps(w.store, pc, step.env, programId);
      if pc.Sending? { SendHandsOver(w.store, pc.f, pc.record, pc.resend, step.env, key); }
    }
  }

  /** Every hand-over so far is in the count. */
  lemma {:induction false} CountedHandOvers(worlds: seq<World>, steps: seq<Step>, programId: string, key: Key,
        i: nat, j: nat, n: nat)
    requires Run(worlds, steps, programId) && i <= j < n < |worlds| && HandsOver(worlds[i], steps[i], key)
    requires HandsOver(worlds[j], steps[j], key)
    ensures HandedOver(worlds[n].store.sent, key) >= if i == j then 1 else 2
  {
    hide Next, HandsOver, HandedOver;
    HandOverCounts(worlds[n - 1], steps[n - 1], worlds[n], key, programId);
    if j < n - 1 {
      CountedHandOvers(worlds, steps, programId, key, i, j, n - 1);
    } else if i < j {
      CountedHandOvers(worlds, steps, programId, key, i, i, n - 1);
    }
  }

  lemma OnlySendsClassify(s: Store, pc: Pc, e: Env, programId: string, f: Flow, p: Payment, error: RpcError)
    requires Execute(s, pc, e, programId).next == Some(Classifying(f, p, error))
    ensures pc == Sending(f, p, false) && e.sendError == Some(error)
  {
    hide After, ReserveOrder, LoadRecord, ClaimOperation, IntentOf, ReceiptMatches, ClassifySend, Reconcile;
  }

  /** A worker that classifies a refusal made the send that was refused. */
  lemma {:induction false} RefusalFollowsSend(worlds: seq<World>, steps: seq<Step>, programId: string, n: nat,
        id: nat) returns (m: nat)
    requires Run(worlds, steps, programId) && n < |worlds|
    requires id in worlds[n].workers && worlds[n].workers[id].Classifying?
    ensures m < n && steps[m].Work? && steps[m].id == id && id in worlds[m].workers
    ensures var pc := worlds[n].workers[id];
            worlds[m].workers[id] == Sending(pc.f, pc.record, false) && steps[m].env.sendError == Some(pc.error)
  {
    hide Execute;
    var pc := worlds[n].workers[id];
    assert n > 0;
    var w, step := worlds[n - 1], steps[n - 1];
    assert Next(w, step, worlds[n], programId);
    if step.Work? && step.id == id {
      OnlySendsClassify(w.store, w.workers[id], step.env, programId, pc.f, pc.record, pc.error);
      m := n - 1;
    } else {
      m := RefusalFollowsSend(worlds, steps, programId, n - 1, id);
    }
  }

  /**
   * Under the same conditions, a payment given up because its bytes were refused was handed over in
   * that one refused send and in no other, at any time before.
   */
  lemma RefusedInItsOnlySend(worlds: seq<World>, steps: seq<Step>, programId: string, n: nat,
        o: Refusal) returns (m: nat)
    requires Run(worlds, steps, programId) && Orderly(worlds, steps, o.key) && n < |worlds|
    requires o in worlds[n].store.refused && o.Rejected?
    ensures m < n && HandsOver(worlds[m], steps[m], o.key) && steps[m].env.sendError == Some(o.error)
    ensures HandedOver(worlds[n].store.sent, o.key) == 1
    ensures forall j :: 0 <= j < n && HandsOver(worlds[j], steps[j], o.key) ==> j == m
  {
    hide Next, Orderly, HandedOver;
    RefusalsAreReal(worlds, steps, programId, n, o);
    var k :| 0 <= k < n && RefusedAt(worlds[k], steps[k], o);
    m := RefusalFollowsSend(worlds, steps, programId, k, steps[k].id);
    RunKeeps(worlds, steps, programId, k);
    assert PcOk(worlds[k].store, worlds[k].workers[steps[k].id], programId);
    assert HandsOver(worlds[m], steps[m], o.key);
    HandedOverAtMostOnce(worlds, steps, programId, o.key, n);
    CountedHandOvers(worlds, steps, programId, o.key, m, m, n);
    forall j | 0 <= j < n && HandsOver(worlds[j], steps[j], o.key) ensures j == m {
      if j < m { CountedHandOvers(worlds, steps, programId, o.key, j, m, n); }
      if m < j { CountedHandOvers(worlds, steps, programId, o.key, m, j, n); }
    }
  }

  /**
   * So a payment stored failed either failed on chain, finalized, or never left the relay but in the
   * send that was refused.
   */
  lemma FailedWasNotUnderWay(worlds: seq<World>, steps: seq<Step>, programId: string, n: nat,
        key: Key) returns (o: Refusal)
    requires Run(worlds, steps, programId) && Orderly(worlds, steps, key) && n < |worlds|
    requires PaymentOp(key) in worlds[n].store.payments && worlds[n].store.payments[PaymentOp(key)].status == Failed
    ensures o.key == key && worlds[n].store.payments[PaymentOp(key)].body.signature == Some(o.signature)
    ensures exists m :: 0 <= m < n && RefusedAt(worlds[m], steps[m], o)
    ensures o.Rejected? ==> HandedOver(worlds[n].store.sent, key) == 1
    ensures o.Rejected? ==> forall j :: 0 <= j < n && HandsOver(worlds[j], steps[j], key) ==>
              steps[j].env.sendError == Some(o.error)
  {
    hide Next, Orderly, HandedOver, HandsOver;
    o := FailedWithRefusal(worlds, steps, programId, n, key);
    RefusalsAreReal(worlds, steps, programId, n, o);
    if o.Rejected? { var m := RefusedInItsOnlySend(worlds, steps, programId, n, o); }
  }

  lemma FailedWithRefusal(worlds: seq<World>, steps: seq<Step>, programId: string, n: nat,
        key: Key) returns (o: Refusal)
    requires Run(worlds, steps, programId) && n < |worlds|
    requires PaymentOp(key) in worlds[n].store.payments && worlds[n].store.payments[PaymentOp(key)].status == Failed
    ensures o in worlds[n].store.refused && o.key == key
    ensures worlds[n].store.payments[PaymentOp(key)].body.signature == Some(o.signature)
  {
    hide Next;
    RunKeeps(worlds, steps, programId, n);
    var s := worlds[n].store;
    var p := s.payments[PaymentOp(key)];
    assert p.id == PaymentOp(key) && RecordOk(s, p, programId);
    var i :| 0 <= i < |s.refused|
             && s.refused[i].key == p.idempotency && s.refused[i].signature == p.body.signature.value;
    o := s.refused[i];
  }
}
