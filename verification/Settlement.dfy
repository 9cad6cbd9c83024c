/**
 * Payment settlement by any number of relay workers over one store
 * (`backend/src/server.rs`, `backend/src/server_recovery.rs`, `convex/storage.ts`).
 *
 * Every store call and every node call is one atomic step. Hashes are injective,
 * so operation ids are constructors and a bound message stands for its digest.
 * An error return, a failed validation, a refused lookup or a crash is `Abort`.
 */
module Settlement {
  import opened Common
  import opened Records

  type Wallet = string
  type Order = string
  type Message = string
  type TxSignature = string

  /** The scoped idempotency key: the caller's wallet and the caller's own key. */
  datatype Key = Key(owner: Wallet, name: string)

  datatype Mode = Human | Delegated

  /** The payment fields an intent binds and a receipt is checked against. */
  datatype Terms = Terms(
    mandate: string, invoice: string, receipt: Option<string>, agent: Option<string>, mint: Option<string>,
    recipient: Option<string>, amount: Option<nat>, tokenProgram: Option<string>)

  datatype Transaction = Transaction(message: Message, signature: TxSignature)

  /** Connector metadata: an x402 resource with its challenge, or a Crossmint order with everything quoted for it. */
  datatype Resource = Resource(url: string, challenge: string)
  datatype Purchase = Purchase(order: Order, details: string)

  datatype Request = Request(
    key: Key, terms: Terms, tx: Transaction, x402: Option<Resource>, order: Option<Purchase>)

  /** One handler call: who asks, for what, with which kind of signer. */
  datatype Flow = Flow(wallet: Wallet, request: Request, mode: Mode)

  datatype Details = Details(terms: Terms, mode: Mode, signature: Option<TxSignature>, slot: Option<nat>)

  type Payment = Record<OpId, Key, Details>

  datatype OpId = PaymentOp(key: Key) | OrderOp(owner: Wallet, order: Order)

  datatype Intent =
    | PayIntent(terms: Terms, mode: Mode, message: Message, x402: Option<Resource>, order: Option<Purchase>)
    | OrderBinding(key: Key)
    | CancelledBeforeReservation

  datatype Claim = Claim(owner: Wallet, intent: Intent, initial: Option<Payment>)

  // ---------- the pieces the handlers share ----------

  function IntentOf(f: Flow): Intent {
    PayIntent(f.request.terms, f.mode, f.request.tx.message, f.request.x402, f.request.order)
  }

  function InitialPayment(f: Flow, now: nat): Payment {
    Record(PaymentOp(f.request.key), f.request.key, f.request.terms.receipt, Prepared, now, now,
           Details(f.request.terms, f.mode, if f.mode == Human then Some(f.request.tx.signature) else None, None))
  }

  /** First write wins; later callers read the winner. */
  function ClaimOperation(claims: map<OpId, Claim>, id: OpId, claim: Claim): (map<OpId, Claim>, bool) {
    if id in claims then (claims, false) else (claims[id := claim], true)
  }

  datatype RpcError = Busy | TransactionFailed | Remote(code: int, alreadyProcessed: bool) | OtherError

  predicate DeterministicFailure(e: RpcError) {
    match e
    case TransactionFailed => true
    case Remote(code, already) => !already && code in {-32002, -32003, -32602}
    case _ => false
  }

  datatype Confirmation = Finalized | Pending

  /** A node's answer about a signature: unknown to it, or known with an outcome so far. */
  datatype StatusAnswer = NodeError | Unknown | Known(failed: bool, confirmation: Confirmation, slot: Option<nat>)

  /** The receipt account's decoded fields. */
  datatype Receipt = Receipt(
    program: string, wellFormed: bool, mandate: string, invoice: string, mint: string, recipient: string,
    amount: nat, agent: string, settled: bool)

  predicate ReceiptMatches(r: Receipt, t: Terms, programId: string) {
    && r.program == programId && r.wellFormed
    && r.mandate == t.mandate && r.invoice == t.invoice
    && (t.mint.Some? ==> r.mint == t.mint.value)
    && (t.recipient.Some? ==> r.recipient == t.recipient.value)
    && (t.amount.Some? ==> r.amount == t.amount.value)
    && (t.agent.Some? ==> r.agent == t.agent.value)
    && r.settled
  }

  function With(p: Payment, status: Status, now: nat): Payment {
    p.(status := status, updated := now)
  }

  /** What a failed send leaves behind; `Failed` only when the node does not know the signature. */
  function ClassifySend(p: Payment, e: RpcError, status: StatusAnswer, now: nat): Payment {
    if e == Busy then With(p, Prepared, now)
    else if p.body.signature.None? then With(p, if DeterministicFailure(e) then Failed else Submitted, now)
    else match status
      case Known(_, _, _) => With(p, Submitted, now)
      case Unknown => With(p, if DeterministicFailure(e) then Failed else Submitted, now)
      case NodeError => With(p, Submitted, now)
  }

  /** Reconciliation of a live record with what the node reports. */
  function Reconcile(p: Payment, status: StatusAnswer, receipt: Option<Receipt>, programId: string, now: nat): Payment
    requires p.body.signature.Some?
  {
    match status
    case Known(true, Finalized, _) => With(p, Failed, now)
    case Known(false, Finalized, slot) =>
      if p.body.terms.receipt.Some? && receipt.Some? && ReceiptMatches(receipt.value, p.body.terms, programId) then
        With(p, Confirmed, now).(body := p.body.(slot := slot))
      else With(p, Submitted, now)
    case _ => if p.status == Prepared then With(p, Prepared, now) else With(p, Submitted, now)
  }

  // ---------- workers ----------

  /** What a handler does with the record that `payment()` returns. */
  datatype Then =
    | Reply
    | ReconcileAgain
    | StoreAndReply
    | ResumeHuman(f: Flow)
    | ResumeManaged(f: Flow, again: bool)
    | Resubmit(f: Flow)

  datatype Pc =
    | Lookup(f: Flow)                                   // existing_payment: read the operation
    | LoadBound(f: Flow)                                // its intent matched: read the record
    | Claiming(f: Flow)                                 // reserve_payment: claim the operation
    | LoadClaimed(f: Flow, won: bool)                   // the claim is ours or identical: read the record
    | ReservingNew(f: Flow, record: Payment, won: bool) // reserve_crossmint_order within reserve_payment
    | Reserving(f: Flow, record: Payment, resend: bool) // reserve_crossmint_order on a retry or a recovery
    | Keeping(f: Flow, record: Payment)                 // managed: persist before signing
    | Signing(f: Flow, record: Payment)                 // managed: the provider signs
    | Settling(f: Flow, record: Payment)                // persist Submitted with the signature
    | MayResubmit(f: Flow, record: Payment)             // can_resubmit
    | Sending(f: Flow, record: Payment, resend: bool)   // broadcast
    | Classifying(f: Flow, record: Payment, error: RpcError)
    | Observing(record: Payment, next: Then)            // payment(): ask the node
    | Persisting(record: Payment, next: Then)           // payment(): put the record, read it back
    | Storing(record: Payment, next: Then)              // persist_payment, then payment()
    | StoringLast(record: Payment)                      // persist_payment, then reply
    | RecoverLoad(wallet: Wallet, key: Key, tx: Transaction, resubmit: bool)
    | StatusLoad(key: Key)
    | Cancelling(key: Key)

  datatype Broadcast = Broadcast(key: Key, message: Message)

  /** A finalized, error-free status seen together with the receipt at the payment's own address. */
  datatype Observation = Observation(key: Key, signature: TxSignature, address: string, receipt: Receipt)

  /** Why a payment was given up: its transaction failed on chain, or the node refused bytes it did not know. */
  datatype Refusal =
    | FailedOnChain(key: Key, signature: TxSignature)
    | Rejected(key: Key, signature: TxSignature, error: RpcError)

  /** The shared store, and what has left the relay and reached it. */
  datatype Store = Store(
    claims: map<OpId, Claim>, payments: map<OpId, Payment>, sent: seq<Broadcast>, seen: seq<Observation>,
    refused: seq<Refusal>)

  datatype World = World(store: Store, workers: map<nat, Pc>)

  /** Everything outside the store: the worker's clock, the node's answers, the provider's signature. */
  datatype Env = Env(
    now: nat, status: StatusAnswer, receipt: Option<Receipt>, sendError: Option<RpcError>,
    duplicate: bool, signed: Transaction)

  /** `payment()` hands back a settled or unsigned record at once and asks the node about any other. */
  function ObserveOr(p: Payment, next: Then): Option<Pc> {
    if Terminal(p.status) || p.body.signature.None? then Continue(p, next) else Some(Observing(p, next))
  }

  /** The handler's move once `payment()` has answered; `None` replies to the caller. */
  function Continue(p: Payment, next: Then): Option<Pc> {
    match next
    case Reply => None
    case ReconcileAgain => if Terminal(p.status) || p.body.signature.None? then None else Some(Observing(p, Reply))
    case StoreAndReply => Some(StoringLast(p))
    case ResumeHuman(f) => if p.status == Prepared then Some(Reserving(f, p, false)) else None
    case ResumeManaged(f, again) =>
      if again && !(Terminal(p.status) || p.body.signature.None?) then Some(Observing(p, ResumeManaged(f, false)))
      else if p.status == Prepared && p.body.signature.None? then Some(Reserving(f, p, false))
      else None
    case Resubmit(f) => if Terminal(p.status) then None else Some(Reserving(f, p, true))
  }

  /** What one step of one worker does to the store and to itself. */
  datatype Effect = Effect(store: Store, next: Option<Pc>)

  function Moves(w: Store, next: Option<Pc>): Effect {
    Effect(w, next)
  }

  function Puts(w: Store, record: Payment, next: Option<Pc>): Effect {
    Effect(w.(payments := After(w.payments, record)), next)
  }

  /** The stored record, else the one the claim was made with. */
  function LoadRecord(w: Store, key: Key): Option<Payment> {
    var id := PaymentOp(key);
    if id in w.payments then Some(w.payments[id])
    else if id in w.claims then w.claims[id].initial
    else None
  }

  /** Atomically bind the owner's order to this payment key; without an order there is nothing to bind. */
  function ReserveOrder(w: Store, f: Flow): (map<OpId, Claim>, bool) {
    match f.request.order
    case None => (w.claims, true)
    case Some(purchase) =>
      var id := OrderOp(f.wallet, purchase.order);
      var claims := ClaimOperation(w.claims, id, Claim(f.wallet, OrderBinding(f.request.key), None)).0;
      (claims, claims[id].owner == f.wallet && claims[id].intent == OrderBinding(f.request.key))
  }

  function Signed(p: Payment, tx: Transaction, status: Status, now: nat): Payment {
    With(p, status, now).(body := p.body.(signature := Some(tx.signature)))
  }

  /** Broadcast: anything but a refused hand-over may have reached the wire. */
  function SendStep(w: Store, f: Flow, record: Payment, resend: bool, e: Env): Effect {
    var left := e.sendError != Some(Busy);
    Effect(if left then w.(sent := w.sent + [Broadcast(f.request.key, f.request.tx.message)]) else w,
           match e.sendError
           case None => ObserveOr(record, Reply)
           case Some(error) =>
             if resend then Some(Storing(With(record, Submitted, e.now), Reply))
             else Some(Classifying(f, record, error)))
  }

  /** What reconciling a signed record adds to the account of what was seen. */
  function Noted(record: Payment, reconciled: Payment, e: Env): (seq<Observation>, seq<Refusal>)
    requires record.body.signature.Some?
  {
    var signature := record.body.signature.value;
    if reconciled.status == Confirmed && e.receipt.Some? && record.body.terms.receipt.Some? then
      ([Observation(record.idempotency, signature, record.body.terms.receipt.value, e.receipt.value)], [])
    else if reconciled.status == Failed then ([], [FailedOnChain(record.idempotency, signature)])
    else ([], [])
  }

  function ObserveStep(w: Store, record: Payment, next: Then, e: Env, programId: string): Effect {
    if record.body.signature.None? then Moves(w, None)
    else
      var reconciled := Reconcile(record, e.status, e.receipt, programId, e.now);
      var (seen, refused) := Noted(record, reconciled, e);
      Effect(w.(seen := w.seen + seen, refused := w.refused + refused), Some(Persisting(reconciled, next)))
  }

  function ClassifyStep(w: Store, record: Payment, error: RpcError, e: Env): Effect {
    var classified := ClassifySend(record, error, e.status, e.now);
    var given := classified.status == Failed && record.body.signature.Some?;
    Effect(if given
           then w.(refused := w.refused + [Rejected(record.idempotency, record.body.signature.value, error)])
           else w,
           if error != Busy && record.body.signature.Some? && e.status.Known? then ObserveOr(classified, StoreAndReply)
           else Some(StoringLast(classified)))
  }

  /** Recovery accepts only bytes of the bound message, under the signature already recorded if any. */
  function RecoverStep(w: Store, wallet: Wallet, key: Key, tx: Transaction, resubmit: bool, e: Env): Effect {
    var id := PaymentOp(key);
    var record := LoadRecord(w, key);
    if id !in w.claims || w.claims[id].owner != wallet || record.None? || !w.claims[id].intent.PayIntent?
       || w.claims[id].intent.message != tx.message
       || (record.value.body.signature.Some? && record.value.body.signature != Some(tx.signature)) then Moves(w, None)
    else
      var bound := w.claims[id].intent;
      var f := Flow(wallet, Request(key, record.value.body.terms, tx, bound.x402, bound.order), record.value.body.mode);
      var signed := Signed(record.value, tx, record.value.status, e.now);
      Moves(w, Some(Storing(signed, if resubmit then Resubmit(f) else ReconcileAgain)))
  }

  function Execute(w: Store, pc: Pc, e: Env, programId: string): Effect {
    match pc
    case Lookup(f) =>
      var id := PaymentOp(f.request.key);
      if id !in w.claims then Moves(w, if id in w.payments then None else Some(Claiming(f)))
      else
        var bound := w.claims[id].owner == f.wallet && w.claims[id].intent == IntentOf(f);
        Moves(w, if bound then Some(LoadBound(f)) else None)
    case LoadBound(f) =>
      var record := LoadRecord(w, f.request.key);
      Moves(w, if record.None? then None
               else ObserveOr(record.value, if f.mode == Human then ResumeHuman(f) else ResumeManaged(f, true)))
    case Claiming(f) =>
      var id := PaymentOp(f.request.key);
      var (claims, won) := ClaimOperation(w.claims, id, Claim(f.wallet, IntentOf(f), Some(InitialPayment(f, e.now))));
      Effect(w.(claims := claims),
             if claims[id].owner == f.wallet && claims[id].intent == IntentOf(f) then Some(LoadClaimed(f, won))
               else None)
    case LoadClaimed(f, won) =>
      var record := LoadRecord(w, f.request.key);
      Moves(w, if record.None? then None else Some(ReservingNew(f, record.value, won)))
    case ReservingNew(f, record, won) =>
      var (claims, held) := ReserveOrder(w, f);
      Effect(w.(claims := claims),
             if !held then None
             else if f.mode == Human then
               if won || record.status == Prepared then Some(Settling(f, record)) else ObserveOr(record, Reply)
             else if won then Some(Keeping(f, record))
             else ObserveOr(record, ResumeManaged(f, false)))
    case Reserving(f, record, resend) =>
      var (claims, held) := ReserveOrder(w, f);
      Effect(w.(claims := claims),
             if !held then None
             else if resend then Some(MayResubmit(f, record))
             else if f.mode == Human then Some(Settling(f, record))
             else Some(Keeping(f, record)))
    case Keeping(f, record) => Puts(w, record, Some(Signing(f, record)))
    case Signing(f, record) =>
      // The provider's answer is used only if it signs the reviewed message.
      Moves(w, if e.signed.message != f.request.tx.message then None
               else Some(Settling(f.(request := f.request.(tx := e.signed)), record)))
    case Settling(f, record) =>
      var submitted := Signed(record, f.request.tx, Submitted, e.now);
      if e.duplicate then
        // The receipt exists already: reconcile if these bytes made it, refuse otherwise.
        Moves(w, if e.status.Known? then Some(Storing(submitted, Reply)) else None)
      else Puts(w, submitted, Some(Sending(f, submitted, false)))
    case MayResubmit(f, record) =>
      Moves(w, match e.status
               case NodeError => None
               case Known(_, _, _) => ObserveOr(record, Reply)
               case Unknown => Some(Sending(f, record, true)))
    case Sending(f, record, resend) => SendStep(w, f, record, resend, e)
    case Classifying(f, record, error) => ClassifyStep(w, record, error, e)
    case Observing(record, next) => ObserveStep(w, record, next, e, programId)
    case Persisting(record, next) =>
      var payments := After(w.payments, record);
      Effect(w.(payments := payments), Continue(if record.id in payments then payments[record.id] else record, next))
    case Storing(record, next) => Puts(w, record, ObserveOr(record, next))
    case StoringLast(record) => Puts(w, record, None)
    case RecoverLoad(wallet, key, tx, resubmit) => RecoverStep(w, wallet, key, tx, resubmit, e)
    case StatusLoad(key) =>
      var record := LoadRecord(w, key);
      Moves(w, if record.None? then None else ObserveOr(record.value, Reply))
    case Cancelling(key) =>
      var claim := Claim(key.owner, CancelledBeforeReservation, None);
      if PaymentOp(key) in w.payments then Moves(w, None)
      else Effect(w.(claims := ClaimOperation(w.claims, PaymentOp(key), claim).0), None)
  }

  predicate Entry(pc: Pc) {
    match pc
    case Lookup(f) => f.request.key.owner == f.wallet
    case RecoverLoad(_, _, _, _) => true
    case StatusLoad(_) => true
    case Cancelling(_) => true
    case _ => false
  }

  datatype Step = Begin(id: nat, pc: Pc) | Work(id: nat, env: Env) | Abort(id: nat)

  function Applied(w: World, id: nat, effect: Effect): World {
    World(effect.store, match effect.next case None => w.workers - {id} case Some(pc) => w.workers[id := pc])
  }

  ghost predicate Next(w: World, step: Step, w': World, programId: string) {
    match step
    case Begin(id, pc) => Entry(pc) && id !in w.workers && w' == w.(workers := w.workers[id := pc])
    case Work(id, e) =>
      && id in w.workers && e.now < U64_LIMIT
      && w' == Applied(w, id, Execute(w.store, w.workers[id], e, programId))
    case Abort(id) => w' == w.(workers := w.workers - {id})
  }

  // ---------- what every step keeps ----------

  ghost predicate Bound(s: Store, f: Flow) {
    && f.wallet == f.request.key.owner
    && PaymentOp(f.request.key) in s.claims
    && s.claims[PaymentOp(f.request.key)].owner == f.wallet
    && s.claims[PaymentOp(f.request.key)].intent == IntentOf(f)
  }

  predicate BindsOrder(intent: Intent, order: Order) {
    intent.PayIntent? && intent.order.Some? && intent.order.value.order == order
  }

  ghost predicate HoldsOrder(s: Store, key: Key, order: Option<Purchase>) {
    order.Some? ==>
      && OrderOp(key.owner, order.value.order) in s.claims
      && s.claims[OrderOp(key.owner, order.value.order)].intent == OrderBinding(key)
  }

  ghost predicate PayClaim(s: Store, key: Key) {
    PaymentOp(key) in s.claims && s.claims[PaymentOp(key)].intent.PayIntent?
  }

  ghost predicate Evidence(s: Store, p: Payment, programId: string) {
    && p.body.signature.Some? && p.body.terms.receipt.Some?
    && exists i :: 0 <= i < |s.seen|
        && s.seen[i].key == p.idempotency && s.seen[i].signature == p.body.signature.value
        && Some(s.seen[i].address) == p.body.terms.receipt
        && ReceiptMatches(s.seen[i].receipt, p.body.terms, programId)
  }

  ghost predicate Refused(s: Store, p: Payment) {
    && p.body.signature.Some?
    && exists i :: 0 <= i < |s.refused|
        && s.refused[i].key == p.idempotency && s.refused[i].signature == p.body.signature.value
  }

  /** A record names its own operation, carries the bound terms, and is confirmed or failed only on evidence. */
  ghost predicate RecordOk(s: Store, p: Payment, programId: string) {
    && p.id == PaymentOp(p.idempotency) && p.updated < U64_LIMIT
    && PayClaim(s, p.idempotency)
    && s.claims[p.id].intent.terms == p.body.terms && s.claims[p.id].intent.mode == p.body.mode
    && (p.status == Confirmed ==> Evidence(s, p, programId))
    && (p.status == Failed ==> Refused(s, p))
  }

  ghost predicate ClaimOk(s: Store, id: OpId, programId: string)
    requires id in s.claims
  {
    var c := s.claims[id];
    match id
    case PaymentOp(key) =>
      && c.owner == key.owner && !c.intent.OrderBinding?
      && (c.intent.PayIntent? ==>
            c.initial.Some? && RecordOk(s, c.initial.value, programId) && c.initial.value.id == id)
      && (c.intent.CancelledBeforeReservation? ==> c.initial.None?)
    case OrderOp(owner, order) =>
      && c.owner == owner && c.intent.OrderBinding? && c.intent.key.owner == owner
      && PayClaim(s, c.intent.key) && BindsOrder(s.claims[PaymentOp(c.intent.key)].intent, order)
  }

  ghost predicate SentOk(s: Store, b: Broadcast) {
    && PayClaim(s, b.key)
    && s.claims[PaymentOp(b.key)].intent.message == b.message
    && HoldsOrder(s, b.key, s.claims[PaymentOp(b.key)].intent.order)
  }

  ghost predicate StoreOk(s: Store, programId: string) {
    && (forall id :: id in s.claims ==> ClaimOk(s, id, programId))
    && UniqueKeys(s.payments)
    && (forall id :: id in s.payments ==> RecordOk(s, s.payments[id], programId))
    && (forall i :: 0 <= i < |s.sent| ==> SentOk(s, s.sent[i]))
  }

  ghost predicate FlowRecord(s: Store, f: Flow, p: Payment, programId: string) {
    Bound(s, f) && RecordOk(s, p, programId) && p.idempotency == f.request.key
  }

  ghost predicate ThenOk(s: Store, p: Payment, next: Then) {
    match next
    case ResumeHuman(f) => Bound(s, f) && p.idempotency == f.request.key
    case ResumeManaged(f, _) => Bound(s, f) && p.idempotency == f.request.key
    case Resubmit(f) => Bound(s, f) && p.idempotency == f.request.key
    case _ => true
  }

  ghost predicate PcOk(s: Store, pc: Pc, programId: string) {
    match pc
    case Lookup(f) => f.wallet == f.request.key.owner
    case Claiming(f) => f.wallet == f.request.key.owner
    case LoadBound(f) => Bound(s, f)
    case LoadClaimed(f, _) => Bound(s, f)
    case ReservingNew(f, p, _) => FlowRecord(s, f, p, programId)
    case Reserving(f, p, _) => FlowRecord(s, f, p, programId)
    case Keeping(f, p) => FlowRecord(s, f, p, programId) && HoldsOrder(s, f.request.key, f.request.order)
    case Signing(f, p) => FlowRecord(s, f, p, programId) && HoldsOrder(s, f.request.key, f.request.order)
    case Settling(f, p) => FlowRecord(s, f, p, programId) && HoldsOrder(s, f.request.key, f.request.order)
    case MayResubmit(f, p) => FlowRecord(s, f, p, programId) && HoldsOrder(s, f.request.key, f.request.order)
    case Sending(f, p, resend) =>
      && FlowRecord(s, f, p, programId) && HoldsOrder(s, f.request.key, f.request.order)
      && (resend || p.body.signature.Some?)
    case Classifying(f, p, _) => FlowRecord(s, f, p, programId) && p.body.signature.Some?
    case Observing(p, next) => RecordOk(s, p, programId) && ThenOk(s, p, next)
    case Persisting(p, next) => RecordOk(s, p, programId) && ThenOk(s, p, next)
    case Storing(p, next) => RecordOk(s, p, programId) && ThenOk(s, p, next)
    case StoringLast(p) => RecordOk(s, p, programId)
    case RecoverLoad(_, _, _, _) => true
    case StatusLoad(_) => true
    case Cancelling(_) => true
  }

  /** Claims are never changed or dropped, observations and broadcasts only accumulate. */
  ghost predicate Grows(s: Store, s': Store) {
    && (forall id :: id in s.claims ==> id in s'.claims && s'.claims[id] == s.claims[id])
    && s.seen <= s'.seen && s.sent <= s'.sent && s.refused <= s'.refused
    && (forall id :: id in s.payments ==> id in s'.payments && Evolves(s.payments[id], s'.payments[id]))
  }

  lemma RecordOkGrows(s: Store, s': Store, p: Payment, programId: string)
    requires Grows(s, s') && RecordOk(s, p, programId)
    ensures RecordOk(s', p, programId)
  {
    if p.status == Confirmed {
      var i :| 0 <= i < |s.seen| && s.seen[i].key == p.idempotency && s.seen[i].signature == p.body.signature.value
               && Some(s.seen[i].address) == p.body.terms.receipt
               && ReceiptMatches(s.seen[i].receipt, p.body.terms, programId);
      assert s'.seen[i] == s.seen[i];
    }
    if p.status == Failed {
      var i :| 0 <= i < |s.refused|
               && s.refused[i].key == p.idempotency && s.refused[i].signature == p.body.signature.value;
      assert s'.refused[i] == s.refused[i];
    }
  }

  lemma PcOkGrows(s: Store, s': Store, pc: Pc, programId: string)
    requires Grows(s, s') && PcOk(s, pc, programId)
    ensures PcOk(s', pc, programId)
  {
    forall p | RecordOk(s, p, programId) ensures RecordOk(s', p, programId) { RecordOkGrows(s, s', p, programId); }
    hide RecordOk, IntentOf, Evolves;
  }

  lemma ClaimOkGrows(s: Store, s': Store, id: OpId, programId: string)
    requires Grows(s, s') && id in s.claims && ClaimOk(s, id, programId)
    ensures ClaimOk(s', id, programId)
  {
    forall p | RecordOk(s, p, programId) ensures RecordOk(s', p, programId) { RecordOkGrows(s, s', p, programId); }
    hide RecordOk, Evolves;
  }

  lemma SentOkGrows(s: Store, s': Store, b: Broadcast)
    requires Grows(s, s') && SentOk(s, b)
    ensures SentOk(s', b)
  {
  }

  lemma ObserveOrOk(s: Store, p: Payment, next: Then, programId: string)
    requires RecordOk(s, p, programId) && ThenOk(s, p, next)
    ensures ObserveOr(p, next).Some? ==> PcOk(s, ObserveOr(p, next).value, programId)
    ensures Continue(p, next).Some? ==> PcOk(s, Continue(p, next).value, programId)
  {
    hide RecordOk, Bound;
  }

  lemma StoreOkGrows(s: Store, s': Store, programId: string)
    requires StoreOk(s, programId) && Grows(s, s') && UniqueKeys(s'.payments)
    requires forall id :: id in s'.claims && id !in s.claims ==> ClaimOk(s', id, programId)
    requires forall id :: id in s'.payments && (id !in s.payments || s'.payments[id] != s.payments[id]) ==>
               RecordOk(s', s'.payments[id], programId)
    requires forall i :: |s.sent| <= i < |s'.sent| ==> SentOk(s', s'.sent[i])
    ensures StoreOk(s', programId)
  {
    hide ClaimOk, RecordOk, SentOk, UniqueKeys;
    forall id | id in s'.claims ensures ClaimOk(s', id, programId) {
      if id in s.claims { ClaimOkGrows(s, s', id, programId); }
    }
    forall id | id in s'.payments ensures RecordOk(s', s'.payments[id], programId) {
      if id in s.payments && s'.payments[id] == s.payments[id] { RecordOkGrows(s, s', s.payments[id], programId); }
    }
    forall i | 0 <= i < |s'.sent| ensures SentOk(s', s'.sent[i]) {
      if i < |s.sent| {
        assert s'.sent[i] == s.sent[i];
        SentOkGrows(s, s', s.sent[i]);
      }
    }
  }

  lemma ClaimKeeps(s: Store, id: OpId, claim: Claim, s': Store, programId: string)
    requires StoreOk(s, programId) && s' == s.(claims := ClaimOperation(s.claims, id, claim).0)
    requires id !in s.claims ==> ClaimOk(s', id, programId)
    ensures Grows(s, s') && StoreOk(s', programId)
  {
    hide ClaimOk, RecordOk, SentOk, UniqueKeys;
    assert forall i :: i in s.payments ==> Evolves(s.payments[i], s'.payments[i]);
    StoreOkGrows(s, s', programId);
  }

  lemma PutKeeps(s: Store, p: Payment, s': Store, programId: string)
    requires StoreOk(s, programId) && RecordOk(s, p, programId) && s' == s.(payments := After(s.payments, p))
    ensures Grows(s, s') && StoreOk(s', programId)
    ensures p.id in s'.payments ==>
              RecordOk(s', s'.payments[p.id], programId) && s'.payments[p.id].idempotency == p.idempotency
  {
    WriteEvolves(s.payments, p);
    hide UniqueKeys, Evolves, ClaimOk, SentOk;
    RecordOkGrows(s, s', p, programId);
    assert p.id in s'.payments && (p.id !in s.payments || s'.payments[p.id] != s.payments[p.id]) ==>
      exists created :: s'.payments[p.id] == p.(created := created) by { WritesRecord(s.payments, p); }
    StoreOkGrows(s, s', programId);
  }

  lemma WritesRecord(payments: map<OpId, Payment>, p: Payment)
    ensures var after := After(payments, p);
      p.id in after && (p.id !in payments || after[p.id] != payments[p.id]) ==>
          after[p.id] == p.(created := after[p.id].created)
  {
  }

  /** A write that is neither stale, late nor in conflict is stored as it is. */
  lemma PutIsStored(payments: map<OpId, Payment>, p: Payment)
    requires forall i :: i in payments && i != p.id ==> payments[i].idempotency != p.idempotency
    requires p.id in payments ==> !Terminal(payments[p.id].status)
    requires p.id in payments ==> payments[p.id].updated <= p.updated && payments[p.id].created == p.created
    requires p.updated < U64_LIMIT
    ensures After(payments, p) == payments[p.id := p]
  {
    if p.id in payments { SortedOrder(p.updated, payments[p.id].updated); }
    hide Sorted, TextLess;
  }

  /** What a step owes: a larger, still consistent store, and a worker fit to go on. */
  ghost predicate Kept(s: Store, e: Effect, programId: string) {
    && Grows(s, e.store) && StoreOk(e.store, programId)
    && (e.next.Some? ==> PcOk(e.store, e.next.value, programId))
  }

  lemma MovesKeeps(s: Store, next: Option<Pc>, programId: string)
    requires StoreOk(s, programId) && (next.Some? ==> PcOk(s, next.value, programId))
    ensures Kept(s, Moves(s, next), programId)
  {
    hide StoreOk, PcOk;
  }

  lemma PutsKeeps(s: Store, p: Payment, next: Option<Pc>, programId: string)
    requires StoreOk(s, programId) && RecordOk(s, p, programId) && (next.Some? ==> PcOk(s, next.value, programId))
    ensures Kept(s, Puts(s, p, next), programId)
  {
    hide StoreOk, PcOk, RecordOk, After, Grows;
    var s' := s.(payments := After(s.payments, p));
    PutKeeps(s, p, s', programId);
    if next.Some? { PcOkGrows(s, s', next.value, programId); }
  }

  lemma LoadOk(s: Store, key: Key, programId: string)
    requires StoreOk(s, programId)
    ensures LoadRecord(s, key).Some? ==>
      RecordOk(s, LoadRecord(s, key).value, programId) && LoadRecord(s, key).value.idempotency == key
  {
    hide RecordOk;
    var id := PaymentOp(key);
    if id in s.payments {
      assert s.payments[id].id == id;
      IdNamesKey(s, s.payments[id], programId);
    } else if id in s.claims && s.claims[id].initial.Some? {
      assert ClaimOk(s, id, programId);
      IdNamesKey(s, s.claims[id].initial.value, programId);
    }
  }

  lemma IdNamesKey(s: Store, p: Payment, programId: string)
    requires RecordOk(s, p, programId)
    ensures p.id == PaymentOp(p.idempotency)
  {
  }

  lemma ReserveKeeps(s: Store, f: Flow, programId: string)
    requires StoreOk(s, programId) && Bound(s, f)
    ensures var (claims, held) := ReserveOrder(s, f);
            var s' := s.(claims := claims);
      Grows(s, s') && StoreOk(s', programId) && (held ==> HoldsOrder(s', f.request.key, f.request.order))
  {
    hide StoreOk, RecordOk, Grows;
    if f.request.order.Some? {
      var id := OrderOp(f.wallet, f.request.order.value.order);
      var claim := Claim(f.wallet, OrderBinding(f.request.key), None);
      var s' := s.(claims := ClaimOperation(s.claims, id, claim).0);
      ClaimKeeps(s, id, claim, s', programId);
      if id in s.claims { OrderClaimBinds(s, id, programId); }
    } else {
      assert s.(claims := s.claims) == s;
      GrowsToItself(s);
    }
  }

  lemma OrderClaimBinds(s: Store, id: OpId, programId: string)
    requires StoreOk(s, programId) && id in s.claims && id.OrderOp?
    ensures s.claims[id].intent.OrderBinding?
  {
    assert ClaimOk(s, id, programId);
  }

  lemma ClaimingKeeps(s: Store, f: Flow, e: Env, programId: string)
    requires StoreOk(s, programId) && f.wallet == f.request.key.owner && e.now < U64_LIMIT
    ensures Kept(s, Execute(s, Claiming(f), e, programId), programId)
  {
    var id := PaymentOp(f.request.key);
    var claim := Claim(f.wallet, IntentOf(f), Some(InitialPayment(f, e.now)));
    var s' := s.(claims := ClaimOperation(s.claims, id, claim).0);
    hide StoreOk, Grows;
    ClaimKeeps(s, id, claim, s', programId);
  }

  lemma ReservingKeeps(s: Store, pc: Pc, e: Env, programId: string)
    requires StoreOk(s, programId) && PcOk(s, pc, programId) && (pc.ReservingNew? || pc.Reserving?)
    ensures Kept(s, Execute(s, pc, e, programId), programId)
  {
    var f := pc.f;
    ReserveKeeps(s, f, programId);
    var s' := s.(claims := ReserveOrder(s, f).0);
    hide StoreOk, Grows, ReserveOrder, RecordOk, HoldsOrder;
    PcOkGrows(s, s', pc, programId);
    ObserveOrOk(s', pc.record, Reply, programId);
    ObserveOrOk(s', pc.record, ResumeManaged(f, false), programId);
  }

  lemma AppendKeeps(s: Store, sent: seq<Broadcast>, seen: seq<Observation>, refused: seq<Refusal>, s': Store,
        programId: string)
    requires StoreOk(s, programId)
    requires s' == s.(sent := s.sent + sent, seen := s.seen + seen, refused := s.refused + refused)
    requires forall b :: b in sent ==> SentOk(s, b)
    ensures Grows(s, s') && StoreOk(s', programId)
  {
    hide RecordOk, ClaimOk, UniqueKeys, SentOk;
    assert Grows(s, s');
    forall i | |s.sent| <= i < |s'.sent| ensures SentOk(s', s'.sent[i]) {
      assert s'.sent[i] in sent;
      SentOkGrows(s, s', s'.sent[i]);
    }
    StoreOkGrows(s, s', programId);
  }

  lemma AppendNothing<T>(xs: seq<T>)
    ensures xs + [] == xs
  {
  }

  lemma SendingKeeps(s: Store, f: Flow, p: Payment, resend: bool, e: Env, programId: string)
    requires StoreOk(s, programId) && PcOk(s, Sending(f, p, resend), programId) && e.now < U64_LIMIT
    ensures Kept(s, SendStep(s, f, p, resend, e), programId)
  {
    var b := Broadcast(f.request.key, f.request.tx.message);
    var sent := if e.sendError != Some(Busy) then [b] else [];
    var s' := s.(sent := s.sent + sent, seen := s.seen + [], refused := s.refused + []);
    AppendNothing(s.seen); AppendNothing(s.refused); AppendNothing(s.sent);
    assert s' == SendStep(s, f, p, resend, e).store;
    assert SentOk(s, b);
    hide StoreOk, Grows, RecordOk, SentOk, Bound, HoldsOrder;
    AppendKeeps(s, sent, [], [], s', programId);
    PcOkGrows(s, s', Sending(f, p, resend), programId);
    StatusOk(s', p, Submitted, e.now, programId);
    ObserveOrOk(s', p, Reply, programId);
  }

  lemma ReconcileOk(s: Store, s': Store, p: Payment, e: Env, programId: string)
    requires RecordOk(s, p, programId) && p.body.signature.Some? && e.now < U64_LIMIT
    requires var (seen, refused) := Noted(p, Reconcile(p, e.status, e.receipt, programId, e.now), e);
      s' == s.(seen := s.seen + seen, refused := s.refused + refused)
    ensures RecordOk(s', Reconcile(p, e.status, e.receipt, programId, e.now), programId)
    ensures Reconcile(p, e.status, e.receipt, programId, e.now).idempotency == p.idempotency
  {
    hide Evidence, Refused;
    var r := Reconcile(p, e.status, e.receipt, programId, e.now);
    if r.status == Confirmed {
      assert s'.seen[|s.seen|]
          == Observation(p.idempotency, p.body.signature.value, p.body.terms.receipt.value, e.receipt.value);
      EvidenceAt(s', r, |s.seen|, programId);
    } else if r.status == Failed {
      assert s'.refused[|s.refused|] == FailedOnChain(p.idempotency, p.body.signature.value);
      RefusedAtIndex(s', r, |s.refused|);
    }
  }

  lemma EvidenceAt(s: Store, p: Payment, i: nat, programId: string)
    requires p.body.signature.Some? && p.body.terms.receipt.Some? && i < |s.seen|
    requires s.seen[i].key == p.idempotency && s.seen[i].signature == p.body.signature.value
    requires Some(s.seen[i].address) == p.body.terms.receipt
    requires ReceiptMatches(s.seen[i].receipt, p.body.terms, programId)
    ensures Evidence(s, p, programId)
  {
  }

  lemma RefusedAtIndex(s: Store, p: Payment, i: nat)
    requires p.body.signature.Some? && i < |s.refused|
    requires s.refused[i].key == p.idempotency && s.refused[i].signature == p.body.signature.value
    ensures Refused(s, p)
  {
  }

  lemma ThenOkGrows(s: Store, s': Store, p: Payment, q: Payment, next: Then)
    requires Grows(s, s') && ThenOk(s, p, next) && q.idempotency == p.idempotency
    ensures ThenOk(s', q, next)
  {
  }

  lemma ObservingKeeps(s: Store, p: Payment, next: Then, e: Env, programId: string)
    requires StoreOk(s, programId) && RecordOk(s, p, programId) && ThenOk(s, p, next) && e.now < U64_LIMIT
    ensures Kept(s, ObserveStep(s, p, next, e, programId), programId)
  {
    hide RecordOk, StoreOk, Grows, Reconcile, ThenOk;
    if p.body.signature.None? {
      MovesKeeps(s, None, programId);
    } else {
      var r := Reconcile(p, e.status, e.receipt, programId, e.now);
      var (seen, refused) := Noted(p, r, e);
      var s' := s.(sent := s.sent + [], seen := s.seen + seen, refused := s.refused + refused);
      AppendNothing(s.sent);
      assert s' == ObserveStep(s, p, next, e, programId).store;
      hide Noted;
      AppendKeeps(s, [], seen, refused, s', programId);
      ReconcileOk(s, s', p, e, programId);
      ThenOkGrows(s, s', p, r, next);
    }
  }

  lemma PersistingKeeps(s: Store, pc: Pc, e: Env, programId: string)
    requires StoreOk(s, programId) && PcOk(s, pc, programId) && pc.Persisting?
    ensures Kept(s, Execute(s, pc, e, programId), programId)
  {
    hide RecordOk, StoreOk, Grows, ThenOk, After;
    var s' := s.(payments := After(s.payments, pc.record));
    PutKeeps(s, pc.record, s', programId);
    RecordOkGrows(s, s', pc.record, programId);
    var p := if pc.record.id in s'.payments then s'.payments[pc.record.id] else pc.record;
    ThenOkGrows(s, s', pc.record, p, pc.next);
    ObserveOrOk(s', p, pc.next, programId);
  }

  lemma StatusOk(s: Store, p: Payment, status: Status, now: nat, programId: string)
    requires RecordOk(s, p, programId) && now < U64_LIMIT && !Terminal(status)
    ensures RecordOk(s, With(p, status, now), programId)
  {
  }

  lemma SignedOk(s: Store, p: Payment, tx: Transaction, status: Status, now: nat, programId: string)
    requires RecordOk(s, p, programId) && now < U64_LIMIT
    requires Terminal(status) ==> p.status == status && p.body.signature == Some(tx.signature)
    ensures RecordOk(s, Signed(p, tx, status, now), programId)
  {
    hide Evidence, Refused;
    SameEvidence(s, p, Signed(p, tx, status, now), programId);
  }

  lemma SameEvidence(s: Store, p: Payment, q: Payment, programId: string)
    requires q.idempotency == p.idempotency && q.body.terms == p.body.terms
    ensures q.body.signature == p.body.signature && Evidence(s, p, programId) ==> Evidence(s, q, programId)
    ensures q.body.signature == p.body.signature && Refused(s, p) ==> Refused(s, q)
  {
  }

  lemma StepKeeps(s: Store, pc: Pc, e: Env, programId: string)
    requires StoreOk(s, programId) && PcOk(s, pc, programId) && e.now < U64_LIMIT
    ensures Kept(s, Execute(s, pc, e, programId), programId)
  {
    hide StoreOk, RecordOk, Kept, SendStep, ObserveStep, RecoverStep, ClassifyStep;
    match pc
    case Lookup(f) => MovesKeeps(s, Execute(s, pc, e, programId).next, programId);
    case LoadBound(f) =>
      LoadOk(s, f.request.key, programId);
      var record := LoadRecord(s, f.request.key);
      if record.Some? {
        ObserveOrOk(s, record.value, if f.mode == Human then ResumeHuman(f) else ResumeManaged(f, true), programId);
      }
      MovesKeeps(s, Execute(s, pc, e, programId).next, programId);
    case Claiming(f) => ClaimingKeeps(s, f, e, programId);
    case LoadClaimed(f, _) =>
      LoadOk(s, f.request.key, programId);
      MovesKeeps(s, Execute(s, pc, e, programId).next, programId);
    case ReservingNew(_, _, _) => ReservingKeeps(s, pc, e, programId);
    case Reserving(_, _, _) => ReservingKeeps(s, pc, e, programId);
    case Keeping(f, p) => PutsKeeps(s, p, Some(Signing(f, p)), programId);
    case Signing(f, p) => MovesKeeps(s, Execute(s, pc, e, programId).next, programId);
    case Settling(f, p) =>
      var q := Signed(p, f.request.tx, Submitted, e.now);
      SignedOk(s, p, f.request.tx, Submitted, e.now, programId);
      if e.duplicate {
        MovesKeeps(s, Execute(s, pc, e, programId).next, programId);
      } else {
        PutsKeeps(s, q, Some(Sending(f, q, false)), programId);
      }
    case MayResubmit(f, p) =>
      ObserveOrOk(s, p, Reply, programId);
      MovesKeeps(s, Execute(s, pc, e, programId).next, programId);
    case Sending(f, p, resend) => SendingKeeps(s, f, p, resend, e, programId);
    case Classifying(f, p, error) => ClassifyingKeeps(s, f, p, error, e, programId);
    case Observing(p, next) => ObservingKeeps(s, p, next, e, programId);
    case Persisting(_, _) => PersistingKeeps(s, pc, e, programId);
    case Storing(p, next) =>
      ObserveOrOk(s, p, next, programId);
      PutsKeeps(s, p, ObserveOr(p, next), programId);
    case StoringLast(p) => PutsKeeps(s, p, None, programId);
    case RecoverLoad(wallet, key, tx, resubmit) => RecoverKeeps(s, wallet, key, tx, resubmit, e, programId);
    case StatusLoad(key) =>
      LoadOk(s, key, programId);
      var record := LoadRecord(s, key);
      if record.Some? { ObserveOrOk(s, record.value, Reply, programId); }
      MovesKeeps(s, Execute(s, pc, e, programId).next, programId);
    case Cancelling(key) => CancellingKeeps(s, key, e, programId);
  }

  lemma ClassifyingKeeps(s: Store, f: Flow, p: Payment, error: RpcError, e: Env, programId: string)
    requires StoreOk(s, programId) && FlowRecord(s, f, p, programId) && p.body.signature.Some? && e.now < U64_LIMIT
    ensures Kept(s, ClassifyStep(s, p, error, e), programId)
  {
    hide StoreOk, RecordOk, Grows;
    var q := ClassifySend(p, error, e.status, e.now);
    assert q == With(p, q.status, e.now) && q.status != Confirmed;
    var refused := if q.status == Failed then [Rejected(p.idempotency, p.body.signature.value, error)] else [];
    var s' := s.(sent := s.sent + [], seen := s.seen + [], refused := s.refused + refused);
    AppendNothing(s.sent); AppendNothing(s.seen); AppendNothing(s.refused);
    assert s' == ClassifyStep(s, p, error, e).store;
    AppendKeeps(s, [], [], refused, s', programId);
    RecordOkGrows(s, s', p, programId);
    if q.status == Failed {
      FailedOk(s', p, e.now, |s.refused|, programId);
    } else {
      StatusOk(s', p, q.status, e.now, programId);
    }
    ObserveOrOk(s', q, StoreAndReply, programId);
  }

  lemma FailedOk(s: Store, p: Payment, now: nat, i: nat, programId: string)
    requires RecordOk(s, p, programId) && now < U64_LIMIT && p.body.signature.Some? && i < |s.refused|
    requires s.refused[i].key == p.idempotency && s.refused[i].signature == p.body.signature.value
    ensures RecordOk(s, With(p, Failed, now), programId)
  {
    hide Evidence, Refused;
    RefusedAtIndex(s, With(p, Failed, now), i);
  }

  lemma RecoverKeeps(s: Store, wallet: Wallet, key: Key, tx: Transaction, resubmit: bool, e: Env, programId: string)
    requires StoreOk(s, programId) && e.now < U64_LIMIT
    ensures Kept(s, RecoverStep(s, wallet, key, tx, resubmit, e), programId)
  {
    hide StoreOk, RecordOk, Kept, Grows, LoadRecord;
    var next := RecoverStep(s, wallet, key, tx, resubmit, e).next;
    LoadOk(s, key, programId);
    if next.Some? {
      var p := LoadRecord(s, key).value;
      BoundTerms(s, key, p, programId);
      TerminalIsSigned(s, p, programId);
      SignedOk(s, p, tx, p.status, e.now, programId);
      MovesKeeps(s, next, programId);
    } else {
      MovesKeeps(s, next, programId);
    }
  }

  /** A record's own terms and mode are the ones its claim bound. */
  lemma BoundTerms(s: Store, key: Key, p: Payment, programId: string)
    requires StoreOk(s, programId) && RecordOk(s, p, programId) && p.idempotency == key
    ensures PayClaim(s, key) && s.claims[PaymentOp(key)].owner == key.owner
    ensures s.claims[PaymentOp(key)].intent.terms == p.body.terms && s.claims[PaymentOp(key)].intent.mode == p.body.mode
  {
    assert ClaimOk(s, PaymentOp(key), programId);
  }

  lemma TerminalIsSigned(s: Store, p: Payment, programId: string)
    requires RecordOk(s, p, programId)
    ensures Terminal(p.status) ==> p.body.signature.Some?
  {
  }

  lemma CancellingKeeps(s: Store, key: Key, e: Env, programId: string)
    requires StoreOk(s, programId)
    ensures Kept(s, Execute(s, Cancelling(key), e, programId), programId)
  {
    var claim := Claim(key.owner, CancelledBeforeReservation, None);
    var s' := s.(claims := ClaimOperation(s.claims, PaymentOp(key), claim).0);
    hide StoreOk, RecordOk, Grows;
    ClaimKeeps(s, PaymentOp(key), claim, s', programId);
    MovesKeeps(s, None, programId);
  }

  // ---------- whole runs ----------

  ghost predicate WorldOk(w: World, programId: string) {
    StoreOk(w.store, programId) && forall id :: id in w.workers ==> PcOk(w.store, w.workers[id], programId)
  }

  lemma NextKeeps(w: World, step: Step, w': World, programId: string)
    requires WorldOk(w, programId) && Next(w, step, w', programId)
    ensures WorldOk(w', programId) && Grows(w.store, w'.store)
  {
    hide StoreOk, Grows, Execute;
    GrowsToItself(w.store);
    match step
    case Begin(id, pc) => assert PcOk(w.store, pc, programId);
    case Abort(id) => hide PcOk;
    case Work(id, e) =>
      StepKeeps(w.store, w.workers[id], e, programId);
      hide PcOk;
      forall i | i in w.workers ensures PcOk(w'.store, w.workers[i], programId) {
        PcOkGrows(w.store, w'.store, w.workers[i], programId);
      }
  }

  lemma GrowsToItself(s: Store)
    ensures Grows(s, s)
  {
  }

  lemma GrowsOn(a: Store, b: Store, c: Store)
    requires Grows(a, b) && Grows(b, c)
    ensures Grows(a, c)
  {
  }

  /** Any interleaving, from an empty store, of entries, steps and aborts by any number of workers. */
  ghost predicate Run(worlds: seq<World>, steps: seq<Step>, programId: string) {
    && |worlds| == |steps| + 1
    && worlds[0] == World(Store(map[], map[], [], [], []), map[])
    && forall i :: 0 <= i < |steps| ==> Next(worlds[i], steps[i], worlds[i + 1], programId)
  }

  lemma {:induction false} RunKeeps(worlds: seq<World>, steps: seq<Step>, programId: string, n: nat)
    requires Run(worlds, steps, programId) && n < |worlds|
    ensures WorldOk(worlds[n], programId)
  {
    if n > 0 {
      hide Next, WorldOk;
      RunKeeps(worlds, steps, programId, n - 1);
      NextKeeps(worlds[n - 1], steps[n - 1], worlds[n], programId);
    }
  }

  lemma {:induction false} RunGrows(worlds: seq<World>, steps: seq<Step>, programId: string, m: nat, n: nat)
    requires Run(worlds, steps, programId) && m <= n < |worlds|
    ensures Grows(worlds[m].store, worlds[n].store)
  {
    hide Next, WorldOk, Grows;
    if m == n {
      GrowsToItself(worlds[m].store);
    } else {
      RunGrows(worlds, steps, programId, m, n - 1);
      RunKeeps(worlds, steps, programId, n - 1);
      NextKeeps(worlds[n - 1], steps[n - 1], worlds[n], programId);
      GrowsOn(worlds[m].store, worlds[n - 1].store, worlds[n].store);
    }
  }

  /** All bytes ever broadcast under one operation carry the one message its first claim bound. */
  lemma OneMessagePerOperation(worlds: seq<World>, steps: seq<Step>, programId: string, n: nat, b: Broadcast)
    requires Run(worlds, steps, programId) && n < |worlds| && b in worlds[n].store.sent
    ensures PayClaim(worlds[n].store, b.key)
    ensures worlds[n].store.claims[PaymentOp(b.key)].intent.message == b.message
    ensures forall c :: c in worlds[n].store.sent && c.key == b.key ==> c.message == b.message
  {
    RunKeeps(worlds, steps, programId, n);
    var s := worlds[n].store;
    forall c | c in s.sent ensures SentOk(s, c) {
      var i :| 0 <= i < |s.sent| && s.sent[i] == c;
    }
  }

  /** A key cancelled before any reservation is never broadcast, before or after, in any run. */
  lemma CancelledNeverSent(worlds: seq<World>, steps: seq<Step>, programId: string, m: nat, n: nat, key: Key)
    requires Run(worlds, steps, programId) && m < |worlds| && n < |worlds|
    requires var claims := worlds[m].store.claims;
      PaymentOp(key) in claims && claims[PaymentOp(key)].intent == CancelledBeforeReservation
    ensures forall b :: b in worlds[n].store.sent ==> b.key != key
  {
    var k := if m <= n then n else m;
    RunGrows(worlds, steps, programId, m, k);
    RunGrows(worlds, steps, programId, n, k);
    forall b | b in worlds[n].store.sent ensures b.key != key {
      assert b in worlds[k].store.sent by {
        var i :| 0 <= i < |worlds[n].store.sent| && worlds[n].store.sent[i] == b;
        assert worlds[k].store.sent[i] == b;
      }
      OneMessagePerOperation(worlds, steps, programId, k, b);
    }
  }

  /** For one owner and order, at most one payment key is ever broadcast. */
  lemma OneKeyPerOrder(
      worlds: seq<World>, steps: seq<Step>, programId: string, n: nat, b: Broadcast, c: Broadcast, order: Order)
    requires Run(worlds, steps, programId) && n < |worlds|
    requires var s := worlds[n].store;
      && b in s.sent && c in s.sent && PayClaim(s, b.key) && PayClaim(s, c.key)
      && b.key.owner == c.key.owner
      && BindsOrder(s.claims[PaymentOp(b.key)].intent, order) && BindsOrder(s.claims[PaymentOp(c.key)].intent, order)
    ensures b.key == c.key
  {
    RunKeeps(worlds, steps, programId, n);
    var s := worlds[n].store;
    assert SentOk(s, b) by { var i :| 0 <= i < |s.sent| && s.sent[i] == b; }
    assert SentOk(s, c) by { var i :| 0 <= i < |s.sent| && s.sent[i] == c; }
  }

  /**
   * An order claim is held only by a payment operation whose own claim bound that
   * very order, so a request that lost its payment claim holds none.
   */
  lemma OrderClaimBelongsToItsPayment(worlds: seq<World>, steps: seq<Step>, programId: string, n: nat, owner: Wallet,
        order: Order)
    requires Run(worlds, steps, programId) && n < |worlds| && OrderOp(owner, order) in worlds[n].store.claims
    ensures var s := worlds[n].store; var claim := s.claims[OrderOp(owner, order)];
      && claim.owner == owner && claim.intent.OrderBinding? && claim.intent.key.owner == owner
      && PayClaim(s, claim.intent.key) && BindsOrder(s.claims[PaymentOp(claim.intent.key)].intent, order)
  {
    RunKeeps(worlds, steps, programId, n);
    assert ClaimOk(worlds[n].store, OrderOp(owner, order), programId);
  }

  /** Once stored as confirmed or failed, a payment is the same in every later state. */
  lemma TerminalPaymentsAreFinal(worlds: seq<World>, steps: seq<Step>, programId: string, m: nat, n: nat, id: OpId)
    requires Run(worlds, steps, programId) && m <= n < |worlds| && id in worlds[m].store.payments
    ensures id in worlds[n].store.payments
    ensures Evolves(worlds[m].store.payments[id], worlds[n].store.payments[id])
  {
    RunGrows(worlds, steps, programId, m, n);
  }

  /** The step at which an observation was made. */
  ghost predicate ObservedAt(w: World, step: Step, o: Observation, programId: string) {
    && step.Work? && step.id in w.workers && w.workers[step.id].Observing?
    && var p := w.workers[step.id].record;
       && p.idempotency == o.key && p.body.signature == Some(o.signature)
       && step.env.status.Known? && !step.env.status.failed && step.env.status.confirmation == Finalized
       && p.body.terms.receipt == Some(o.address) && step.env.receipt == Some(o.receipt)
  }

  lemma {:induction false} ObservationsAreFinalized(worlds: seq<World>, steps: seq<Step>, programId: string, n: nat,
        o: Observation)
    requires Run(worlds, steps, programId) && n < |worlds| && o in worlds[n].store.seen
    ensures exists m :: 0 <= m < n && ObservedAt(worlds[m], steps[m], o, programId)
  {
    if n > 0 {
      if o in worlds[n - 1].store.seen {
        hide Next, ObservedAt;
        ObservationsAreFinalized(worlds, steps, programId, n - 1, o);
      } else {
        NewObservation(worlds[n - 1], steps[n - 1], worlds[n], o, programId);
      }
    }
  }

  lemma NewObservation(w: World, step: Step, w': World, o: Observation, programId: string)
    requires Next(w, step, w', programId) && o in w'.store.seen && o !in w.store.seen
    ensures ObservedAt(w, step, o, programId)
  {
    hide ReserveOrder, Continue, ObserveOr, LoadRecord, SendStep, RecoverStep, ClassifyStep;
    assert step.Work?;
    var pc := w.workers[step.id];
    SendLeavesSeen(w.store, pc, step.env);
  }

  lemma SendLeavesSeen(s: Store, pc: Pc, e: Env)
    ensures pc.Sending? ==> SendStep(s, pc.f, pc.record, pc.resend, e).store.seen == s.seen
    ensures pc.RecoverLoad? ==> RecoverStep(s, pc.wallet, pc.key, pc.tx, pc.resubmit, e).store.seen == s.seen
    ensures pc.Classifying? ==> ClassifyStep(s, pc.record, pc.error, e).store.seen == s.seen
  {
  }

  /**
   * A payment reads confirmed only if some worker saw its signature finalized without error,
   * together with the receipt at its own bound address, matching every bound field the relay compares.
   */
  lemma ConfirmedOnEvidence(worlds: seq<World>, steps: seq<Step>, programId: string, n: nat, id: OpId)
      returns (m: nat, o: Observation)
    requires Run(worlds, steps, programId) && n < |worlds| && id in worlds[n].store.payments
    requires worlds[n].store.payments[id].status == Confirmed
    ensures m < n && ObservedAt(worlds[m], steps[m], o, programId)
    ensures var s := worlds[n].store; var p := s.payments[id];
      && id == PaymentOp(o.key) && p.body.signature == Some(o.signature)
      && PayClaim(s, o.key) && s.claims[id].intent.terms.receipt == Some(o.address)
      && ReceiptMatches(o.receipt, s.claims[id].intent.terms, programId)
    ensures var r := o.receipt; var t := worlds[n].store.claims[id].intent.terms;
      && r.program == programId && r.settled && r.mandate == t.mandate && r.invoice == t.invoice
      && t.recipient in {None, Some(r.recipient)} && t.mint in {None, Some(r.mint)}
      && t.amount in {None, Some(r.amount)} && t.agent in {None, Some(r.agent)}
  {
    hide Next, ObservedAt, StoreOk, ReceiptMatches;
    RunKeeps(worlds, steps, programId, n);
    o := SeenFor(worlds[n].store, id, programId);
    ComparedFields(o.receipt, worlds[n].store.claims[id].intent.terms, programId);
    ObservationsAreFinalized(worlds, steps, programId, n, o);
    m :| 0 <= m < n && ObservedAt(worlds[m], steps[m], o, programId);
  }

  lemma SeenFor(s: Store, id: OpId, programId: string) returns (o: Observation)
    requires StoreOk(s, programId) && id in s.payments && s.payments[id].status == Confirmed
    ensures o in s.seen && id == PaymentOp(o.key) && s.payments[id].body.signature == Some(o.signature)
    ensures PayClaim(s, o.key) && s.claims[id].intent.terms.receipt == Some(o.address)
    ensures ReceiptMatches(o.receipt, s.claims[id].intent.terms, programId)
  {
    hide ReceiptMatches, ClaimOk, SentOk, Refused;
    var p := s.payments[id];
    assert p.id == id && RecordOk(s, p, programId);
    var i :| 0 <= i < |s.seen| && s.seen[i].key == p.idempotency && s.seen[i].signature == p.body.signature.value
             && Some(s.seen[i].address) == p.body.terms.receipt
             && ReceiptMatches(s.seen[i].receipt, p.body.terms, programId);
    o := s.seen[i];
  }

  lemma ComparedFields(r: Receipt, t: Terms, programId: string)
    requires ReceiptMatches(r, t, programId)
    ensures r.program == programId && r.settled && r.mandate == t.mandate && r.invoice == t.invoice
    ensures t.recipient in {None, Some(r.recipient)} && t.mint in {None, Some(r.mint)}
    ensures t.amount in {None, Some(r.amount)} && t.agent in {None, Some(r.agent)}
  {
  }

  /** A bound token program plays no part: whatever it is, reconciliation comes to the same status. */
  lemma TokenProgramIsNotCompared(
      p: Payment, other: Option<string>, status: StatusAnswer, receipt: Option<Receipt>, programId: string, now: nat)
    requires p.body.signature.Some?
    ensures var q := p.(body := p.body.(terms := p.body.terms.(tokenProgram := other)));
      Reconcile(q, status, receipt, programId, now).status == Reconcile(p, status, receipt, programId, now).status
  {
  }

  // ---------- giving up ----------

  /** The step at which a payment was given up, and what the node had said. */
  ghost predicate RefusedAt(w: World, step: Step, o: Refusal) {
    && step.Work? && step.id in w.workers
    && match o
       case FailedOnChain(key, signature) =>
         && w.workers[step.id].Observing?
         && w.workers[step.id].record.idempotency == key && w.workers[step.id].record.body.signature == Some(signature)
         && step.env.status.Known? && step.env.status.failed && step.env.status.confirmation == Finalized
       case Rejected(key, signature, error) =>
         && w.workers[step.id].Classifying? && w.workers[step.id].error == error
         && w.workers[step.id].record.idempotency == key && w.workers[step.id].record.body.signature == Some(signature)
         && DeterministicFailure(error) && step.env.status == Unknown
  }

  lemma {:induction false} RefusalsAreReal(worlds: seq<World>, steps: seq<Step>, programId: string, n: nat, o: Refusal)
    requires Run(worlds, steps, programId) && n < |worlds| && o in worlds[n].store.refused
    ensures exists m :: 0 <= m < n && RefusedAt(worlds[m], steps[m], o)
  {
    if n > 0 {
      hide Next, RefusedAt;
      if o in worlds[n - 1].store.refused {
        RefusalsAreReal(worlds, steps, programId, n - 1, o);
      } else {
        NewRefusal(worlds[n - 1], steps[n - 1], worlds[n], o, programId);
      }
    }
  }

  lemma NewRefusal(w: World, step: Step, w': World, o: Refusal, programId: string)
    requires Next(w, step, w', programId) && o in w'.store.refused && o !in w.store.refused
    ensures RefusedAt(w, step, o)
  {
    hide ReserveOrder, Continue, ObserveOr, LoadRecord, SendStep, RecoverStep, ObserveStep, ClassifyStep;
    assert step.Work?;
    var pc := w.workers[step.id];
    SendLeavesRefused(w.store, pc, step.env);
    if pc.Observing? {
      ObserveRefuses(w.store, pc, step.env, programId, o);
    } else if pc.Classifying? {
      ClassifyRefuses(w.store, pc, step.env, o);
    }
  }

  lemma SendLeavesRefused(s: Store, pc: Pc, e: Env)
    ensures pc.Sending? ==> SendStep(s, pc.f, pc.record, pc.resend, e).store.refused == s.refused
    ensures pc.RecoverLoad? ==> RecoverStep(s, pc.wallet, pc.key, pc.tx, pc.resubmit, e).store.refused == s.refused
  {
  }

  lemma ObserveRefuses(s: Store, pc: Pc, e: Env, programId: string, o: Refusal)
    requires pc.Observing? && o in ObserveStep(s, pc.record, pc.next, e, programId).store.refused && o !in s.refused
    ensures pc.record.body.signature.Some? && o == FailedOnChain(pc.record.idempotency, pc.record.body.signature.value)
    ensures e.status.Known? && e.status.failed && e.status.confirmation == Finalized
  {
  }

  lemma ClassifyRefuses(s: Store, pc: Pc, e: Env, o: Refusal)
    requires pc.Classifying? && o in ClassifyStep(s, pc.record, pc.error, e).store.refused && o !in s.refused
    ensures pc.record.body.signature.Some?
    ensures o == Rejected(pc.record.idempotency, pc.record.body.signature.value, pc.error)
    ensures DeterministicFailure(pc.error) && e.status == Unknown
  {
  }

  /**
   * A payment reads failed only if some worker saw its signature finalized with an error, or was
   * refused its bytes deterministically at a step where the node did not know that signature.
   */
  lemma FailedOnEvidence(worlds: seq<World>, steps: seq<Step>, programId: string, n: nat, id: OpId)
      returns (m: nat, o: Refusal)
    requires Run(worlds, steps, programId) && n < |worlds| && id in worlds[n].store.payments
    requires worlds[n].store.payments[id].status == Failed
    ensures m < n && RefusedAt(worlds[m], steps[m], o)
    ensures id == PaymentOp(o.key) && worlds[n].store.payments[id].body.signature == Some(o.signature)
  {
    RunKeeps(worlds, steps, programId, n);
    var s := worlds[n].store;
    var p := s.payments[id];
    assert p.id == id && RecordOk(s, p, programId);
    var i :| 0 <= i < |s.refused|
             && s.refused[i].key == p.idempotency && s.refused[i].signature == p.body.signature.value;
    o := s.refused[i];
    hide Next, RefusedAt, StoreOk;
    RefusalsAreReal(worlds, steps, programId, n, o);
    m :| 0 <= m < n && RefusedAt(worlds[m], steps[m], o);
  }
}
