/**
 * What the settlement handlers decide at each turn, spelled out by cases, and what follows over whole
 * runs (`backend/src/server_recovery.rs`, `backend/src/server.rs`).
 */
module SettlementRules {
  import opened Common
  import opened Records
  import opened Settlement

  // ---------- cancelling ----------

  /** Cancelling an unclaimed key claims it as cancelled; it changes nothing else, and no claim that exists. */
  lemma CancelStep(s: Store, key: Key, e: Env, programId: string)
    requires StoreOk(s, programId)
    ensures var s' := Execute(s, Cancelling(key), e, programId).store;
      && PaymentOp(key) in s'.claims
      && (PaymentOp(key) !in s.claims ==>
            && s'.claims[PaymentOp(key)].owner == key.owner
            && s'.claims[PaymentOp(key)].intent == CancelledBeforeReservation
            && s'.claims[PaymentOp(key)].initial == None)
      && (forall id :: id in s.claims ==> id in s'.claims && s'.claims[id] == s.claims[id])
      && (forall id :: id in s'.claims && id !in s.claims ==> id == PaymentOp(key))
      && s'.payments == s.payments && s'.sent == s.sent && s'.seen == s.seen && s'.refused == s.refused
  {
    hide StoreOk;
    if PaymentOp(key) in s.payments { StoredIsClaimed(s, key, programId); }
  }

  lemma StoredIsClaimed(s: Store, key: Key, programId: string)
    requires StoreOk(s, programId) && PaymentOp(key) in s.payments
    ensures PaymentOp(key) in s.claims
  {
    assert RecordOk(s, s.payments[PaymentOp(key)], programId);
    hide ClaimOk, SentOk, Evidence;
  }

  /** Once a cancellation has met an unclaimed key, no bytes of that payment are broadcast in any state of the run. */
  lemma CancellingStopsBroadcasts(
      worlds: seq<World>, steps: seq<Step>, programId: string, m: nat, n: nat, key: Key)
    requires Run(worlds, steps, programId) && m < |steps| && n < |worlds|
    requires steps[m].Work? && steps[m].id in worlds[m].workers && worlds[m].workers[steps[m].id] == Cancelling(key)
    requires PaymentOp(key) !in worlds[m].store.claims
    ensures forall b :: b in worlds[n].store.sent ==> b.key != key
  {
    hide Execute, Grows, StoreOk;
    RunKeeps(worlds, steps, programId, m);
    assert Next(worlds[m], steps[m], worlds[m + 1], programId);
    CancelStep(worlds[m].store, key, steps[m].env, programId);
    CancelledNeverSent(worlds, steps, programId, m + 1, n, key);
  }

  // ---------- a failed send ----------

  /** By the kind of error, its code, the already-processed flag and the node's answer: all there is to it. */
  lemma SendVerdict(p: Payment, e: RpcError, status: StatusAnswer, now: nat)
    requires p.body.signature.Some?
    ensures var q := ClassifySend(p, e, status, now);
      && q == p.(status := q.status, updated := now)
      && (q.status == Prepared <==> e == Busy)
      && (q.status == Failed <==>
            status == Unknown
            && (e == TransactionFailed
                || (e.Remote? && !e.alreadyProcessed && (e.code == -32002 || e.code == -32003 || e.code == -32602))))
      && (q.status == Prepared || q.status == Failed || q.status == Submitted)
  {
  }

  /** In every run a refusal on record is a failed transaction or one of three codes, and never "already processed". */
  lemma RejectionsAreRefusals(worlds: seq<World>, steps: seq<Step>, programId: string, n: nat, o: Refusal)
    requires Run(worlds, steps, programId) && n < |worlds| && o in worlds[n].store.refused && o.Rejected?
    ensures o.error == TransactionFailed
            || (o.error.Remote? && !o.error.alreadyProcessed
                && (o.error.code == -32002 || o.error.code == -32003 || o.error.code == -32602))
  {
    hide Next;
    RefusalsAreReal(worlds, steps, programId, n, o);
    var m :| 0 <= m < n && RefusedAt(worlds[m], steps[m], o);
    SendVerdict(worlds[m].workers[steps[m].id].record, o.error, Unknown, 0);
  }

  /** So no payment is given up because the chain had processed it already. */
  lemma FailedIsNotAlreadyProcessed(worlds: seq<World>, steps: seq<Step>, programId: string, n: nat, id: OpId)
      returns (m: nat, o: Refusal)
    requires Run(worlds, steps, programId) && n < |worlds| && id in worlds[n].store.payments
    requires worlds[n].store.payments[id].status == Failed
    ensures m < n && RefusedAt(worlds[m], steps[m], o) && id == PaymentOp(o.key)
    ensures o.Rejected? ==>
              steps[m].env.status == Unknown
              && (o.error == TransactionFailed || (o.error.Remote? && !o.error.alreadyProcessed))
  {
    hide Next;
    m, o := FailedOnEvidence(worlds, steps, programId, n, id);
    if o.Rejected? { SendVerdict(worlds[m].workers[steps[m].id].record, o.error, Unknown, 0); }
  }

  // ---------- reconciliation ----------

  /** What each answer of the node makes of a signed record, down to the compared receipt fields. */
  lemma ReconcileVerdict(
      p: Payment, status: StatusAnswer, receipt: Option<Receipt>, programId: string, now: nat)
    requires p.body.signature.Some?
    ensures var q := Reconcile(p, status, receipt, programId, now); var t := p.body.terms;
      && q.id == p.id && q.idempotency == p.idempotency && q.created == p.created && q.updated == now
      && q.body.terms == t && q.body.signature == p.body.signature && q.body.mode == p.body.mode
      && (q.status == Failed <==> status.Known? && status.failed && status.confirmation == Finalized)
      && (q.status == Confirmed <==>
            && status.Known? && !status.failed && status.confirmation == Finalized
            && t.receipt.Some? && receipt.Some?
            && receipt.value.program == programId && receipt.value.wellFormed && receipt.value.settled
            && receipt.value.mandate == t.mandate && receipt.value.invoice == t.invoice
            && (t.mint == None || t.mint == Some(receipt.value.mint))
            && (t.recipient == None || t.recipient == Some(receipt.value.recipient))
            && (t.amount == None || t.amount == Some(receipt.value.amount))
            && (t.agent == None || t.agent == Some(receipt.value.agent)))
      && (q.status == Prepared <==> p.status == Prepared && !(status.Known? && status.confirmation == Finalized))
      && q.body.slot == if q.status == Confirmed then status.slot else p.body.slot
  {
  }

  // ---------- starting, retrying, resending ----------

  /** An operation is bound to the terms, the kind of signer, the message and the connector metadata: all of them. */
  lemma IntentsAgree(f: Flow, g: Flow)
    ensures IntentOf(f) == IntentOf(g) <==>
            && f.request.terms == g.request.terms && f.mode == g.mode
            && f.request.tx.message == g.request.tx.message
            && f.request.x402 == g.request.x402 && f.request.order == g.request.order
  {
  }

  /** A key that is taken lets in only its owner with the same request; a free one goes on to be claimed. */
  lemma LookupVerdict(s: Store, f: Flow, e: Env, programId: string)
    ensures var end := Execute(s, Lookup(f), e, programId); var id := PaymentOp(f.request.key);
      && end.store == s
      && (end.next == Some(LoadBound(f)) <==>
            id in s.claims && s.claims[id].owner == f.wallet && s.claims[id].intent == IntentOf(f))
      && (end.next == Some(Claiming(f)) <==> id !in s.claims && id !in s.payments)
      && (end.next == None || end.next == Some(LoadBound(f)) || end.next == Some(Claiming(f)))
  {
    hide IntentOf;
  }

  /** A new payment's record. */
  lemma NewRecord(f: Flow, now: nat)
    ensures var p := InitialPayment(f, now);
      && p.id == PaymentOp(f.request.key) && p.idempotency == f.request.key && p.status == Prepared
      && p.created == now && p.updated == now && p.receipt == f.request.terms.receipt
      && p.body.terms == f.request.terms && p.body.mode == f.mode && p.body.slot == None
      && (f.mode == Human ==> p.body.signature == Some(f.request.tx.signature))
      && (f.mode == Delegated ==> p.body.signature == None)
  {
  }

  /** Claiming binds the key to this request and its first record, or finds who has it; only a match goes on. */
  lemma ClaimVerdict(s: Store, f: Flow, e: Env, programId: string)
    ensures var end := Execute(s, Claiming(f), e, programId); var id := PaymentOp(f.request.key);
      && id in end.store.claims && end.store == s.(claims := end.store.claims)
      && (id !in s.claims ==>
            && end.store.claims == s.claims[id := Claim(f.wallet, IntentOf(f), Some(InitialPayment(f, e.now)))]
            && end.next == Some(LoadClaimed(f, true)))
      && (id in s.claims ==>
            && end.store.claims == s.claims
            && end.next == if s.claims[id].owner == f.wallet && s.claims[id].intent == IntentOf(f)
                           then Some(LoadClaimed(f, false)) else None)
  {
    hide IntentOf, InitialPayment;
  }

  /** An order goes to the first payment key that asks for it; a request without one needs no order. */
  lemma OrderVerdict(s: Store, f: Flow)
    ensures var (claims, held) := ReserveOrder(s, f);
      && (f.request.order == None ==> held && claims == s.claims)
      && (f.request.order.Some? ==>
            var id := OrderOp(f.wallet, f.request.order.value.order);
            && (id !in s.claims ==> held && claims == s.claims[id := Claim(f.wallet, OrderBinding(f.request.key), None)])
            && (id in s.claims ==>
                  && claims == s.claims
                  && (held <==> s.claims[id].owner == f.wallet && s.claims[id].intent == OrderBinding(f.request.key))))
  {
  }

  /** Without its order no request goes on; with it, one that lost the race for the key sends only what is prepared. */
  lemma ReservedVerdict(s: Store, f: Flow, p: Payment, won: bool, resend: bool, e: Env, programId: string)
    ensures var first := Execute(s, ReservingNew(f, p, won), e, programId);
            var again := Execute(s, Reserving(f, p, resend), e, programId); var (claims, held) := ReserveOrder(s, f);
      && first.store == s.(claims := claims) && again.store == s.(claims := claims)
      && (!held ==> first.next == None && again.next == None)
      && (held && f.mode == Human ==>
            && (first.next == Some(Settling(f, p)) <==> won || p.status == Prepared)
            && again.next == Some(if resend then MayResubmit(f, p) else Settling(f, p)))
      && (held && f.mode == Delegated ==>
            && (first.next == Some(Keeping(f, p)) <==> won)
            && again.next == Some(if resend then MayResubmit(f, p) else Keeping(f, p)))
  {
    hide ReserveOrder, Terminal;
  }

  /** A delegated payment is stored before it is signed, and only a signature over the reviewed message is used. */
  lemma SignVerdict(s: Store, f: Flow, p: Payment, e: Env, programId: string)
    ensures var kept := Execute(s, Keeping(f, p), e, programId); var end := Execute(s, Signing(f, p), e, programId);
      && kept.store == s.(payments := After(s.payments, p)) && kept.next == Some(Signing(f, p))
      && end.store == s
      && (end.next.Some? <==> e.signed.message == f.request.tx.message)
      && (end.next.Some? ==>
            end.next == Some(Settling(f.(request := f.request.(tx := e.signed)), p)))
  {
    hide After;
  }

  /** Bytes are sent only after the record reads submitted under their signature. */
  lemma SettleVerdict(s: Store, f: Flow, p: Payment, e: Env, programId: string)
    requires !e.duplicate
    ensures var end := Execute(s, Settling(f, p), e, programId);
            var submitted := p.(status := Submitted, updated := e.now,
                body := p.body.(signature := Some(f.request.tx.signature)));
      end.store == s.(payments := After(s.payments, submitted)) && end.next == Some(Sending(f, submitted, false))
  {
    hide After;
  }

  /** After a write a handler goes on with what is stored then, which another worker may have settled. */
  lemma StoreVerdict(s: Store, p: Payment, next: Then, e: Env, programId: string)
    ensures var end := Execute(s, Persisting(p, next), e, programId); var payments := After(s.payments, p);
      && end.store == s.(payments := payments)
      && end.next == Continue(if p.id in payments then payments[p.id] else p, next)
  {
    hide After, Continue;
  }

  /** A resubmission goes out only when the node answers that it does not know the signature. */
  lemma ResendVerdict(s: Store, f: Flow, p: Payment, e: Env, programId: string)
    ensures var end := Execute(s, MayResubmit(f, p), e, programId);
      && end.store == s
      && (end.next == Some(Sending(f, p, true)) <==> e.status == Unknown)
      && (e.status == NodeError ==> end.next == None)
  {
    hide ObserveOr;
    NeverSends(p, Reply);
  }

  lemma NeverSends(p: Payment, next: Then)
    ensures ObserveOr(p, next).Some? ==> !ObserveOr(p, next).value.Sending?
  {
  }

  /** When the receipt exists already nothing is sent: these bytes made it and are reconciled, or it is refused. */
  lemma DuplicateVerdict(s: Store, f: Flow, p: Payment, e: Env, programId: string)
    requires e.duplicate
    ensures var end := Execute(s, Settling(f, p), e, programId);
      && end.store == s
      && (e.status.Known? ==>
            && end.next.Some? && end.next.value.Storing? && end.next.value.next == Reply
            && end.next.value.record.status == Submitted && end.next.value.record.updated == e.now
            && end.next.value.record.body.signature == Some(f.request.tx.signature))
      && (!e.status.Known? ==> end.next == None)
  {
  }

  /** A send is on the record unless it provably never left, and its answer decides who looks at it next. */
  lemma SendOutcome(s: Store, f: Flow, p: Payment, resend: bool, e: Env, programId: string)
    requires p.body.signature.Some? && !Terminal(p.status)
    ensures var end := Execute(s, Sending(f, p, resend), e, programId);
      && end.store == s.(sent := end.store.sent)
      && end.store.sent
         == (if e.sendError == Some(Busy) then s.sent else s.sent + [Broadcast(f.request.key, f.request.tx.message)])
      && (e.sendError == None ==> end.next == Some(Observing(p, Reply)))
      && (e.sendError.Some? && resend ==> end.next == Some(Storing(p.(status := Submitted, updated := e.now), Reply)))
      && (e.sendError.Some? && !resend ==> end.next == Some(Classifying(f, p, e.sendError.value)))
  {
  }

  /** Recovery takes only the owner's bytes of the bound message, under the recorded signature if there is one. */
  lemma RecoverVerdict(s: Store, wallet: Wallet, key: Key, tx: Transaction, resubmit: bool, e: Env, programId: string)
    ensures var end := Execute(s, RecoverLoad(wallet, key, tx, resubmit), e, programId);
            var id := PaymentOp(key); var record := LoadRecord(s, key);
      && end.store == s
      && (end.next.Some? <==>
            && id in s.claims && s.claims[id].owner == wallet && s.claims[id].intent.PayIntent?
            && s.claims[id].intent.message == tx.message && record.Some?
            && (record.value.body.signature == None || record.value.body.signature == Some(tx.signature)))
      && (end.next.Some? ==>
            && end.next.value.Storing? && end.next.value.record.status == record.value.status
            && end.next.value.record.body.signature == Some(tx.signature)
            && end.next.value.record.updated == e.now
            && (end.next.value.next.Resubmit? <==> resubmit) && (end.next.value.next.ReconcileAgain? <==> !resubmit))
  {
    hide LoadRecord;
  }

  /** The record a worker works from: the stored one, else the one the claim was made with. */
  lemma LoadVerdict(s: Store, key: Key)
    ensures PaymentOp(key) in s.payments ==> LoadRecord(s, key) == Some(s.payments[PaymentOp(key)])
    ensures PaymentOp(key) !in s.payments && PaymentOp(key) in s.claims ==>
              LoadRecord(s, key) == s.claims[PaymentOp(key)].initial
    ensures PaymentOp(key) !in s.payments && PaymentOp(key) !in s.claims ==> LoadRecord(s, key) == None
  {
  }

  /** A settled or unsigned record needs no answer from the node; a handler resumes only what is still prepared. */
  lemma NextMove(p: Payment, next: Then)
    ensures ObserveOr(p, next)
         == if p.status == Confirmed || p.status == Failed || p.body.signature == None then Continue(p, next)
            else Some(Observing(p, next))
    ensures next == Reply ==> Continue(p, next) == None
    ensures next.ResumeHuman? ==>
              Continue(p, next) == if p.status == Prepared then Some(Reserving(next.f, p, false)) else None
    ensures next == StoreAndReply ==> Continue(p, next) == Some(StoringLast(p))
    ensures next.Resubmit? ==>
              Continue(p, next)
              == if p.status == Confirmed || p.status == Failed then None else Some(Reserving(next.f, p, true))
    ensures next.ResumeManaged? && !next.again ==>
              Continue(p, next)
              == if p.status == Prepared && p.body.signature == None then Some(Reserving(next.f, p, false)) else None
  {
  }
}
