/** The store calls and record updates of the settlement handlers, as they change state step by step. */
module SettlementStore {
  import opened Common
  import opened Records
  import opened Settlement

  /** `classify_send`: the record as it is rewritten after a failed send, before any reconciliation. */
  method ClassifyAfterSend(sent: Payment, error: RpcError, status: StatusAnswer, now: nat) returns (record: Payment)
    ensures record == ClassifySend(sent, error, status, now)
    ensures record.status == Failed <==> DeterministicFailure(error) && (sent.body.signature.None? || status == Unknown)
    ensures record.id == sent.id && record.body == sent.body && record.status != Confirmed
  {
    record := sent;
    record := record.(updated := now);
    if error == Busy {
      record := record.(status := Prepared);
      return;
    }
    record := record.(status := if DeterministicFailure(error) then Failed else Submitted);
    if sent.body.signature.None? { return; }
    if status.Known? {
      record := record.(status := Submitted);
    } else if !(status.Unknown? && DeterministicFailure(error)) {
      record := record.(status := Submitted);
    }
  }

  class SharedStore {
    var claims: map<OpId, Claim>
    const payments: RecordTable<OpId, Key, Details>
    var sent: seq<Broadcast>
    var seen: seq<Observation>
    var refused: seq<Refusal>

    function Contents(): Store
      reads this, payments
    {
      Store(claims, payments.rows, sent, seen, refused)
    }

    constructor (payments: RecordTable<OpId, Key, Details>)
      ensures this.payments == payments && Contents() == Store(map[], payments.rows, [], [], [])
    {
      this.payments := payments;
      claims, sent, seen, refused := map[], [], [], [];
    }

    /** `claim_operation`: the first claim stands; every caller is told who holds it. */
    method ClaimFirst(id: OpId, claim: Claim) returns (won: bool, holder: Claim)
      modifies this`claims
      ensures (claims, won) == ClaimOperation(old(claims), id, claim)
      ensures id in claims && holder == claims[id] && (won ==> holder == claim)
      ensures forall other :: other in old(claims) ==> other in claims && claims[other] == old(claims)[other]
    {
      if id in claims { return false, claims[id]; }
      claims := claims[id := claim];
      return true, claim;
    }

    /** `reserve_crossmint_order`: true when the owner's order is bound to this very payment key. */
    method ReserveCrossmintOrder(f: Flow) returns (held: bool)
      modifies this`claims
      ensures (claims, held) == ReserveOrder(old(Contents()), f)
      ensures held && f.request.order.Some? ==>
                var id := OrderOp(f.wallet, f.request.order.value.order);
                id in claims && claims[id].owner == f.wallet && claims[id].intent == OrderBinding(f.request.key)
    {
      if f.request.order.None? { return true; }
      var desired := OrderBinding(f.request.key);
      var _, holder := ClaimFirst(OrderOp(f.wallet, f.request.order.value.order), Claim(f.wallet, desired, None));
      held := holder.owner == f.wallet && holder.intent == desired;
    }

    /**
     * The part of `payment` that asks the node and rewrites the record, which the next call stores.
     * A settled or unsigned record is handed back at once.
     */
    method ObservePayment(loaded: Payment, next: Then, e: Env, programId: string) returns (record: Payment, asked: bool)
      modifies this`seen, this`refused
      ensures asked == !(Terminal(loaded.status) || loaded.body.signature.None?)
      ensures !asked ==> record == loaded && Contents() == old(Contents())
      ensures asked ==>
                Effect(Contents(), Some(Persisting(record, next))) == ObserveStep(old(Contents()), loaded, next, e, programId)
      ensures asked && record.status == Confirmed ==>
                && e.status.Known? && !e.status.failed && e.status.confirmation == Finalized
                && e.receipt.Some? && ReceiptMatches(e.receipt.value, loaded.body.terms, programId)
      ensures asked && record.status == Failed ==>
                e.status.Known? && e.status.failed && e.status.confirmation == Finalized
      ensures record.id == loaded.id && record.created == loaded.created
      ensures record.body.signature == loaded.body.signature
    {
      record, asked := loaded, false;
      if Terminal(loaded.status) || loaded.body.signature.None? { return; }
      asked := true;
      var signature := loaded.body.signature.value;
      Settlement.AppendNothing(seen);
      Settlement.AppendNothing(refused);
      if e.status.Known? && e.status.failed && e.status.confirmation == Finalized {
        record := record.(status := Failed);
        refused := refused + [FailedOnChain(loaded.idempotency, signature)];
      } else if e.status.Known? && !e.status.failed && e.status.confirmation == Finalized {
        if loaded.body.terms.receipt.Some? && e.receipt.Some?
            && ReceiptMatches(e.receipt.value, loaded.body.terms, programId) {
          record := record.(status := Confirmed, body := record.body.(slot := e.status.slot));
          seen := seen + [Observation(loaded.idempotency, signature, loaded.body.terms.receipt.value, e.receipt.value)];
        } else {
          record := record.(status := Submitted);
        }
      } else if record.status != Prepared {
        record := record.(status := Submitted);
      }
      record := record.(updated := e.now);
    }

    /** Storing a record and reading the stored one back. */
    method PersistPayment(record: Payment, next: Then, ghost e: Env, ghost programId: string)
        returns (continued: Option<Pc>)
      modifies payments
      ensures Effect(Contents(), continued) == Execute(old(Contents()), Persisting(record, next), e, programId)
      ensures record.id in old(payments.rows) && Terminal(old(payments.rows)[record.id].status) ==>
                payments.rows == old(payments.rows)
    {
      hide Sorted, TextLess, Continue;
      var outcome := payments.Put(record);
      var stored := if record.id in payments.rows then payments.rows[record.id] else record;
      continued := Continue(stored, next);
    }
  }
}
