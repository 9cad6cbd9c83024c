/**
 * Runs in which a payment is handed over twice and stored failed, one for each condition of
 * `SettlementOnce`: with that condition broken and the other two met. In the first, the transaction
 * then finalizes with its receipt, and the payment stays failed.
 */
module SettlementRace {
  import opened Common
  import opened Records
  import opened Settlement
  import opened SettlementOnce

  // ---------- runs, step by step ----------

  datatype Trace = Trace(worlds: seq<World>, steps: seq<Step>)

  /** The conditions of `SettlementOnce` a run is to meet. */
  datatype Conditions = Conditions(alone: bool, plain: bool, timely: bool)

  ghost predicate Meets(t: Trace, key: Key, c: Conditions, programId: string) {
    && Run(t.worlds, t.steps, programId)
    && (c.alone ==> forall n :: 0 <= n < |t.worlds| ==> Alone(t.worlds[n], key))
    && (c.plain ==> forall n :: 0 <= n < |t.steps| ==> NoResubmit(t.steps[n], key))
    && (c.timely ==> forall n :: 0 <= n < |t.steps| ==> Timely(t.worlds[n], t.steps[n], key))
  }

  function Last(t: Trace): World
    requires t.worlds != []
  {
    t.worlds[|t.worlds| - 1]
  }

  ghost predicate At(t: Trace, w: World, key: Key, c: Conditions, programId: string) {
    Meets(t, key, c, programId) && t.worlds != [] && Last(t) == w
  }

  const START := Trace([World(Store(map[], map[], [], [], []), map[])], [])

  lemma Extend(t: Trace, w: World, step: Step, w': World, key: Key, c: Conditions,
        programId: string) returns (t': Trace)
    requires At(t, w, key, c, programId) && Next(w, step, w', programId)
    requires (c.alone ==> Alone(w', key)) && (c.plain ==> NoResubmit(step, key)) && (c.timely ==> Timely(w, step, key))
    ensures At(t', w', key, c, programId)
  {
    hide Next, Alone, NoResubmit, Timely;
    t' := Trace(t.worlds + [w'], t.steps + [step]);
    forall n | 0 <= n < |t'.steps|
      ensures Next(t'.worlds[n], t'.steps[n], t'.worlds[n + 1], programId)
              && (c.plain ==> NoResubmit(t'.steps[n], key)) && (c.timely ==> Timely(t'.worlds[n], t'.steps[n], key))
    {
      if n < |t.steps| {
        assert t'.worlds[n] == t.worlds[n] && t'.worlds[n + 1] == t.worlds[n + 1] && t'.steps[n] == t.steps[n];
      }
    }
  }

  // ---------- the payment in these runs ----------

  /** A caller-signed submission without an order. */
  ghost predicate Plain(f: Flow) {
    f.mode == Human && f.wallet == f.request.key.owner && f.request.order == None
  }

  function Id(f: Flow): OpId { PaymentOp(f.request.key) }

  /** Its record, made at time zero, with a status as of some time. */
  function Rec(f: Flow, status: Status, now: nat): Payment { With(InitialPayment(f, 0), status, now) }

  function Stored(f: Flow, status: Status, now: nat): map<OpId, Payment> { map[Id(f) := Rec(f, status, now)] }

  function Sent(f: Flow): Broadcast { Broadcast(f.request.key, f.request.tx.message) }

  function Claims(f: Flow): map<OpId, Claim> {
    map[Id(f) := Claim(f.wallet, IntentOf(f), Some(InitialPayment(f, 0)))]
  }

  function Shop(f: Flow, payments: map<OpId, Payment>, sent: seq<Broadcast>): Store {
    Store(Claims(f), payments, sent, [], [])
  }

  /** A node that does not know the signature, and takes or refuses a send as told. */
  function Node(f: Flow, now: nat, sendError: Option<RpcError>): Env {
    Env(now, Unknown, None, sendError, false, f.request.tx)
  }

  function Quiet(f: Flow, now: nat): Env { Node(f, now, None) }

  lemma RecIs(f: Flow, status: Status, now: nat)
    requires Plain(f)
    ensures var p := Rec(f, status, now);
            && p.id == Id(f) && p.idempotency == f.request.key
            && p.status == status && p.updated == now && p.created == 0
            && p.body.signature == Some(f.request.tx.signature)
            && p.body.terms == f.request.terms && p.body.mode == Human
    ensures Rec(f, Prepared, 0) == InitialPayment(f, 0)
    ensures forall next: Status, later: nat :: With(Rec(f, status, now), next, later) == Rec(f, next, later)
    ensures forall next: Status, later: nat ::
              Signed(Rec(f, status, now), f.request.tx, next, later) == Rec(f, next, later)
  {
  }

  lemma PutFresh(f: Flow, payments: map<OpId, Payment>, status: Status, now: nat)
    requires Plain(f) && now < U64_LIMIT
    requires payments == map[] || exists s: Status, u: nat :: payments == Stored(f, s, u) && !Terminal(s) && u <= now
    ensures After(payments, Rec(f, status, now)) == Stored(f, status, now)
  {
    RecIs(f, status, now);
    if payments != map[] {
      var s: Status, u: nat :| payments == Stored(f, s, u) && !Terminal(s) && u <= now;
      RecIs(f, s, u);
    }
    PutIsStored(payments, Rec(f, status, now));
    assert payments[Id(f) := Rec(f, status, now)] == Stored(f, status, now);
  }

  /** A late write, or a write after the payment is settled, changes nothing. */
  lemma PutIgnored(f: Flow, s: Status, u: nat, status: Status, now: nat)
    requires Plain(f) && u < U64_LIMIT && (Terminal(s) || now < u)
    ensures After(Stored(f, s, u), Rec(f, status, now)) == Stored(f, s, u)
  {
    RecIs(f, status, now);
    RecIs(f, s, u);
    if now < u { SortedOrder(now, u); }
    hide Sorted, TextLess;
  }

  // ---------- what each step does ----------

  lemma ClaimSteps(f: Flow, programId: string)
    requires Plain(f)
    ensures var empty, s := Store(map[], map[], [], [], []), Shop(f, map[], []);
            && Execute(empty, Lookup(f), Quiet(f, 0), programId) == Effect(empty, Some(Claiming(f)))
            && Execute(empty, Claiming(f), Quiet(f, 0), programId) == Effect(s, Some(LoadClaimed(f, true)))
            && Execute(s, Claiming(f), Quiet(f, 0), programId) == Effect(s, Some(LoadClaimed(f, false)))
  {
    hide IntentOf, InitialPayment;
  }

  lemma ReserveSteps(f: Flow, won: bool, programId: string)
    requires Plain(f)
    ensures var s, p := Shop(f, map[], []), Rec(f, Prepared, 0);
            && Execute(s, LoadClaimed(f, won), Quiet(f, 0), programId) == Effect(s, Some(ReservingNew(f, p, won)))
            && Execute(s, ReservingNew(f, p, won), Quiet(f, 0), programId) == Effect(s, Some(Settling(f, p)))
  {
    RecIs(f, Prepared, 0);
    hide IntentOf, InitialPayment, Rec;
  }

  lemma SettleStep(f: Flow, s: Store, p: Payment, now: nat, programId: string)
    requires Plain(f) && p == Rec(f, Prepared, p.updated)
    ensures Execute(s, Settling(f, p), Quiet(f, now), programId)
            == Effect(s.(payments := After(s.payments, Rec(f, Submitted, now))),
                      Some(Sending(f, Rec(f, Submitted, now), false)))
  {
    RecIs(f, Prepared, p.updated);
    hide Rec, After, Signed;
  }

  lemma SendSteps(f: Flow, s: Store, p: Payment, resend: bool, now: nat, programId: string)
    requires Plain(f) && p == Rec(f, p.status, p.updated) && !Terminal(p.status)
    ensures Execute(s, Sending(f, p, resend), Quiet(f, now), programId)
            == Effect(s.(sent := s.sent + [Sent(f)]), Some(Observing(p, Reply)))
    ensures Execute(s, Sending(f, p, false), Node(f, now, Some(TransactionFailed)), programId)
            == Effect(s.(sent := s.sent + [Sent(f)]), Some(Classifying(f, p, TransactionFailed)))
    ensures Execute(s, Sending(f, p, false), Node(f, now, Some(Busy)), programId)
            == Effect(s, Some(Classifying(f, p, Busy)))
  {
    RecIs(f, p.status, p.updated);
    hide Rec;
  }

  function RefusalOf(f: Flow): Refusal { Rejected(f.request.key, f.request.tx.signature, TransactionFailed) }

  lemma ClassifySteps(f: Flow, s: Store, u: nat, now: nat, programId: string)
    requires Plain(f)
    ensures Execute(s, Classifying(f, Rec(f, Submitted, u), TransactionFailed), Quiet(f, now), programId)
            == Effect(s.(refused := s.refused + [RefusalOf(f)]), Some(StoringLast(Rec(f, Failed, now))))
    ensures Execute(s, Classifying(f, Rec(f, Submitted, u), Busy), Quiet(f, now), programId)
            == Effect(s, Some(StoringLast(Rec(f, Prepared, now))))
  {
    RecIs(f, Submitted, u);
    hide Rec;
  }

  lemma StoreStep(s: Store, p: Payment, e: Env, programId: string)
    ensures Execute(s, StoringLast(p), e, programId) == Effect(s.(payments := After(s.payments, p)), None)
  {
    hide After;
  }

  /** Asking a node that does not know the signature leaves a prepared record prepared and any other submitted. */
  lemma ObserveUnknown(f: Flow, s: Store, status: Status, u: nat, next: Then, now: nat, programId: string)
    requires Plain(f) && status in {Prepared, Submitted}
    ensures Execute(s, Observing(Rec(f, status, u), next), Quiet(f, now), programId)
            == Effect(s, Some(Persisting(Rec(f, status, now), next)))
  {
    RecIs(f, status, u);
    AppendNothing(s.seen);
    AppendNothing(s.refused);
    hide Rec;
  }

  lemma PersistStep(f: Flow, s: Store, p: Payment, after: Payment, next: Then, e: Env, programId: string)
    requires p.id in After(s.payments, p) && After(s.payments, p)[p.id] == after
    ensures Execute(s, Persisting(p, next), e, programId)
            == Effect(s.(payments := After(s.payments, p)), Continue(after, next))
  {
    hide After, Continue;
  }

  lemma RetrySteps(f: Flow, s: Store, status: Status, u: nat, e: Env, programId: string)
    requires Plain(f) && s.claims == Claims(f) && s.payments == Stored(f, status, u) && !Terminal(status)
    ensures Execute(s, Lookup(f), e, programId) == Effect(s, Some(LoadBound(f)))
    ensures Execute(s, LoadBound(f), e, programId) == Effect(s, Some(Observing(Rec(f, status, u), ResumeHuman(f))))
    ensures Continue(Rec(f, Prepared, u), ResumeHuman(f)) == Some(Reserving(f, Rec(f, Prepared, u), false))
    ensures Execute(s, Reserving(f, Rec(f, Prepared, u), false), e, programId)
            == Effect(s, Some(Settling(f, Rec(f, Prepared, u))))
  {
    RecIs(f, status, u);
    RecIs(f, Prepared, u);
    hide Rec, IntentOf, InitialPayment;
  }

  // ---------- one worker at a time ----------

  function One(s: Store, pc: Pc): World { World(s, map[0 := pc]) }

  function Idle(s: Store): World { World(s, map[]) }

  lemma Enter(t: Trace, s: Store, pc: Pc, f: Flow, c: Conditions, programId: string) returns (t': Trace)
    requires At(t, Idle(s), f.request.key, c, programId) && Entry(pc) && (c.plain ==>
               NoResubmit(Begin(0, pc), f.request.key))
    ensures At(t', One(s, pc), f.request.key, c, programId)
  {
    hide At;
    assert map[][0 := pc] == map[0 := pc];
    t' := Extend(t, Idle(s), Begin(0, pc), One(s, pc), f.request.key, c, programId);
  }

  /** Whether a step at `now` is behind the stored update time. */
  predicate OnTime(s: Store, f: Flow, now: nat) {
    Id(f) in s.payments ==> s.payments[Id(f)].updated <= now
  }

  lemma Go(t: Trace, s: Store, pc: Pc, e: Env, s': Store, pc': Pc, f: Flow, c: Conditions,
        programId: string) returns (t': Trace)
    requires At(t, One(s, pc), f.request.key, c, programId) && e.now < U64_LIMIT && (c.timely ==> OnTime(s, f, e.now))
    requires Execute(s, pc, e, programId) == Effect(s', Some(pc'))
    ensures At(t', One(s', pc'), f.request.key, c, programId)
  {
    hide At, Execute;
    assert map[0 := pc][0 := pc'] == map[0 := pc'];
    t' := Extend(t, One(s, pc), Work(0, e), One(s', pc'), f.request.key, c, programId);
  }

  lemma End(t: Trace, s: Store, pc: Pc, e: Env, s': Store, f: Flow, c: Conditions,
        programId: string) returns (t': Trace)
    requires At(t, One(s, pc), f.request.key, c, programId) && e.now < U64_LIMIT && (c.timely ==> OnTime(s, f, e.now))
    requires Execute(s, pc, e, programId) == Effect(s', None)
    ensures At(t', Idle(s'), f.request.key, c, programId)
  {
    hide At, Execute;
    assert map[0 := pc] - {0} == map[];
    t' := Extend(t, One(s, pc), Work(0, e), Idle(s'), f.request.key, c, programId);
  }

  lemma Drop(t: Trace, s: Store, pc: Pc, f: Flow, c: Conditions, programId: string) returns (t': Trace)
    requires At(t, One(s, pc), f.request.key, c, programId)
    ensures At(t', Idle(s), f.request.key, c, programId)
  {
    hide At;
    assert map[0 := pc] - {0} == map[];
    t' := Extend(t, One(s, pc), Abort(0), Idle(s), f.request.key, c, programId);
  }

  lemma Begun(f: Flow, c: Conditions, programId: string)
    ensures At(START, Idle(Store(map[], map[], [], [], [])), f.request.key, c, programId)
  {
  }

  /** A claim, and then a crash: nothing is stored and nothing sent. */
  lemma ClaimAndCrash(f: Flow, c: Conditions, programId: string) returns (t: Trace)
    requires Plain(f)
    ensures At(t, Idle(Shop(f, map[], [])), f.request.key, c, programId)
  {
    hide At, Execute, Plain, Shop;
    var empty, s := Store(map[], map[], [], [], []), Shop(f, map[], []);
    ClaimSteps(f, programId);
    Begun(f, c, programId);
    IsEntry(f);
    t := Enter(START, empty, Lookup(f), f, c, programId);
    t := Go(t, empty, Lookup(f), Quiet(f, 0), empty, Claiming(f), f, c, programId);
    t := Go(t, empty, Claiming(f), Quiet(f, 0), s, LoadClaimed(f, true), f, c, programId);
    t := Drop(t, s, LoadClaimed(f, true), f, c, programId);
  }

  lemma IsEntry(f: Flow)
    requires Plain(f)
    ensures Entry(Lookup(f)) && NoResubmit(Begin(0, Lookup(f)), f.request.key)
  {
  }

  /** The same request again, over a record that reads prepared: it is sent, refused, and stored failed. */
  lemma RetryAndFail(t: Trace, f: Flow, sent: seq<Broadcast>, u: nat, now: nat, c: Conditions,
        programId: string) returns (t': Trace)
    requires Plain(f) && u <= now < U64_LIMIT
    requires At(t, Idle(Shop(f, Stored(f, Prepared, u), sent)), f.request.key, c, programId)
    ensures At(t', Idle(Shop(f, Stored(f, Failed, now), sent + [Sent(f)]).(refused := [RefusalOf(f)])),
               f.request.key, c, programId)
  {
    hide At, Execute, After, Continue, Rec, Sent;
    var q, s0, s1 := Quiet(f, now), Shop(f, Stored(f, Prepared, u), sent), Shop(f, Stored(f, Prepared, now), sent);
    var s2, s3 := Shop(f, Stored(f, Submitted, now), sent), Shop(f, Stored(f, Submitted, now), sent + [Sent(f)]);
    var s4 := s3.(refused := [RefusalOf(f)]);
    var r0, r1, r2 := Rec(f, Prepared, u), Rec(f, Prepared, now), Rec(f, Submitted, now);
    RecIs(f, Prepared, u); RecIs(f, Prepared, now); RecIs(f, Submitted, now); RecIs(f, Failed, now);
    IsEntry(f);
    t' := Enter(t, s0, Lookup(f), f, c, programId);
    RetrySteps(f, s0, Prepared, u, q, programId);
    t' := Go(t', s0, Lookup(f), q, s0, LoadBound(f), f, c, programId);
    t' := Go(t', s0, LoadBound(f), q, s0, Observing(r0, ResumeHuman(f)), f, c, programId);
    ObserveUnknown(f, s0, Prepared, u, ResumeHuman(f), now, programId);
    t' := Go(t', s0, Observing(r0, ResumeHuman(f)), q, s0, Persisting(r1, ResumeHuman(f)), f, c, programId);
    PutFresh(f, s0.payments, Prepared, now);
    PersistStep(f, s0, r1, r1, ResumeHuman(f), q, programId);
    RetrySteps(f, s1, Prepared, now, q, programId);
    t' := Go(t', s0, Persisting(r1, ResumeHuman(f)), q, s1, Reserving(f, r1, false), f, c, programId);
    t' := Go(t', s1, Reserving(f, r1, false), q, s1, Settling(f, r1), f, c, programId);
    SettleStep(f, s1, r1, now, programId);
    PutFresh(f, s1.payments, Submitted, now);
    t' := Go(t', s1, Settling(f, r1), q, s2, Sending(f, r2, false), f, c, programId);
    SendSteps(f, s2, r2, false, now, programId);
    t' := Go(t', s2, Sending(f, r2, false), Node(f, now, Some(TransactionFailed)), s3,
        Classifying(f, r2, TransactionFailed), f, c, programId);
    ClassifySteps(f, s3, now, now, programId);
    AppendNothing(s3.refused);
    assert s3.refused + [RefusalOf(f)] == [RefusalOf(f)];
    t' := Go(t', s3, Classifying(f, r2, TransactionFailed), q, s4, StoringLast(Rec(f, Failed, now)), f, c, programId);
    StoreStep(s4, Rec(f, Failed, now), q, programId);
    PutFresh(f, s4.payments, Failed, now);
    t' := End(t', s4, StoringLast(Rec(f, Failed, now)), q, s4.(payments := Stored(f, Failed, now)), f, c, programId);
  }

  ghost predicate SentTwiceAndFailed(t: Trace, f: Flow) {
    && t.worlds != [] && Last(t).store.sent == [Sent(f), Sent(f)]
    && Id(f) in Last(t).store.payments && Last(t).store.payments[Id(f)].status == Failed
  }

  lemma FailsTwice(t: Trace, w: World, f: Flow, now: nat, c: Conditions, programId: string)
    requires Plain(f) && At(t, w, f.request.key, c, programId)
    requires w.store.sent == [Sent(f), Sent(f)] && w.store.payments == Stored(f, Failed, now)
    ensures SentTwiceAndFailed(t, f) && Meets(t, f.request.key, c, programId)
  {
    RecIs(f, Failed, now);
    hide Meets, Rec;
  }

  // ---------- a recovery that resubmits ----------

  lemma RecoverSteps(f: Flow, programId: string)
    requires Plain(f)
    ensures var s, r, e := Shop(f, map[], []), Rec(f, Prepared, 0), Quiet(f, 0);
            && Execute(s, RecoverLoad(f.wallet, f.request.key, f.request.tx, true), e, programId)
               == Effect(s, Some(Storing(r, Resubmit(f))))
            && Execute(s, Storing(r, Resubmit(f)), e, programId)
               == Effect(s.(payments := After(s.payments, r)), Some(Observing(r, Resubmit(f))))
            && Continue(r, Resubmit(f)) == Some(Reserving(f, r, true))
  {
    RecIs(f, Prepared, 0);
    hide Rec, After, InitialPayment;
    var r := f.request;
    assert Flow(f.wallet, Request(r.key, r.terms, r.tx, r.x402, r.order), f.mode) == f;
  }

  lemma ResendSteps(f: Flow, s: Store, r: Payment, programId: string)
    requires Plain(f)
    ensures Execute(s, Reserving(f, r, true), Quiet(f, 0), programId) == Effect(s, Some(MayResubmit(f, r)))
    ensures Execute(s, MayResubmit(f, r), Quiet(f, 0), programId) == Effect(s, Some(Sending(f, r, true)))
  {
  }

  /**
   * One worker at a time, clocks in order: a recovery sends a prepared payment and leaves it prepared;
   * the retry is refused.
   */
  lemma ResubmissionSendsTwice(f: Flow, programId: string) returns (t: Trace)
    requires Plain(f)
    ensures Meets(t, f.request.key, Conditions(true, false, true), programId) && SentTwiceAndFailed(t, f)
  {
    hide At, Meets, Execute, After, Continue, Rec, Sent, SentTwiceAndFailed;
    var c, q, r := Conditions(true, false, true), Quiet(f, 0), Rec(f, Prepared, 0);
    var s0, s1, s2 := Shop(f, map[], []), Shop(f, Stored(f, Prepared, 0), []), Shop(f, Stored(f, Prepared, 0),
        [Sent(f)]);
    var recover := RecoverLoad(f.wallet, f.request.key, f.request.tx, true);
    RecIs(f, Prepared, 0);
    RecoverSteps(f, programId);
    PutFresh(f, map[], Prepared, 0);
    PutFresh(f, Stored(f, Prepared, 0), Prepared, 0);
    t := ClaimAndCrash(f, c, programId);
    t := Enter(t, s0, recover, f, c, programId);
    t := Go(t, s0, recover, q, s0, Storing(r, Resubmit(f)), f, c, programId);
    t := Go(t, s0, Storing(r, Resubmit(f)), q, s1, Observing(r, Resubmit(f)), f, c, programId);
    ObserveUnknown(f, s1, Prepared, 0, Resubmit(f), 0, programId);
    t := Go(t, s1, Observing(r, Resubmit(f)), q, s1, Persisting(r, Resubmit(f)), f, c, programId);
    PersistStep(f, s1, r, r, Resubmit(f), q, programId);
    t := Go(t, s1, Persisting(r, Resubmit(f)), q, s1, Reserving(f, r, true), f, c, programId);
    ResendSteps(f, s1, r, programId);
    t := Go(t, s1, Reserving(f, r, true), q, s1, MayResubmit(f, r), f, c, programId);
    t := Go(t, s1, MayResubmit(f, r), q, s1, Sending(f, r, true), f, c, programId);
    t := SendAndReply(t, f, s1, r, true, Prepared, 0, c, programId);
    t := RetryAndFail(t, f, [Sent(f)], 0, 0, c, programId);
    assert [Sent(f)] + [Sent(f)] == [Sent(f), Sent(f)];
    FailsTwice(t, Idle(Shop(f, Stored(f, Failed, 0), [Sent(f)] + [Sent(f)]).(refused := [RefusalOf(f)])), f, 0, c,
        programId);
  }

  /** The first send goes out; the node does not know it yet, and the worker replies. */
  lemma SendAndReply(t: Trace, f: Flow, s: Store, r: Payment, resend: bool, status: Status, u: nat, c: Conditions,
        programId: string)
      returns (t': Trace)
    requires Plain(f) && status in {Prepared, Submitted} && u < U64_LIMIT && r == Rec(f, status, u)
    requires s == Shop(f, Stored(f, status, u), []) && At(t, One(s, Sending(f, r, resend)), f.request.key, c, programId)
    ensures At(t', Idle(Shop(f, Stored(f, status, u), [Sent(f)])), f.request.key, c, programId)
  {
    hide At, Execute, After, Rec, Sent;
    var q, s' := Quiet(f, u), Shop(f, Stored(f, status, u), [Sent(f)]);
    RecIs(f, status, u);
    SendSteps(f, s, r, resend, u, programId);
    assert [] + [Sent(f)] == [Sent(f)];
    t' := Go(t, s, Sending(f, r, resend), q, s', Observing(r, Reply), f, c, programId);
    ObserveUnknown(f, s', status, u, Reply, u, programId);
    t' := Go(t', s', Observing(r, Reply), q, s', Persisting(r, Reply), f, c, programId);
    PutFresh(f, s'.payments, status, u);
    PersistStep(f, s', r, r, Reply, q, programId);
    t' := End(t', s', Persisting(r, Reply), q, s', f, c, programId);
  }

  // ---------- a clock that falls behind ----------

  /** A first attempt the relay could not even hand over: the record is stored prepared as of `now`. */
  lemma BusyFirst(f: Flow, now: nat, c: Conditions, programId: string) returns (t: Trace)
    requires Plain(f) && now < U64_LIMIT
    ensures At(t, Idle(Shop(f, Stored(f, Prepared, now), [])), f.request.key, c, programId)
  {
    hide At, Execute, After, Rec, Sent;
    var r0, r1, s0, s1 := Rec(f, Prepared, 0), Rec(f, Submitted, now), Shop(f, map[], []), Shop(f,
        Stored(f, Submitted, now), []);
    RecIs(f, Prepared, 0); RecIs(f, Submitted, now); RecIs(f, Prepared, now);
    t := ReserveFirst(f, c, programId);
    SettleStep(f, s0, r0, now, programId);
    PutFresh(f, map[], Submitted, now);
    t := Go(t, s0, Settling(f, r0), Quiet(f, now), s1, Sending(f, r1, false), f, c, programId);
    SendSteps(f, s1, r1, false, now, programId);
    t := Go(t, s1, Sending(f, r1, false), Node(f, now, Some(Busy)), s1, Classifying(f, r1, Busy), f, c, programId);
    ClassifySteps(f, s1, now, now, programId);
    t := Go(t, s1, Classifying(f, r1, Busy), Quiet(f, now), s1, StoringLast(Rec(f, Prepared, now)), f, c, programId);
    StoreStep(s1, Rec(f, Prepared, now), Quiet(f, now), programId);
    PutFresh(f, s1.payments, Prepared, now);
    t := End(t, s1, StoringLast(Rec(f, Prepared, now)), Quiet(f, now), Shop(f, Stored(f, Prepared, now), []), f, c,
        programId);
  }

  lemma ReserveFirst(f: Flow, c: Conditions, programId: string) returns (t: Trace)
    requires Plain(f)
    ensures At(t, One(Shop(f, map[], []), Settling(f, Rec(f, Prepared, 0))), f.request.key, c, programId)
  {
    hide At, Execute, Plain, Shop, Rec;
    var empty, s, q, r := Store(map[], map[], [], [], []), Shop(f, map[], []), Quiet(f, 0), Rec(f, Prepared, 0);
    ClaimSteps(f, programId);
    ReserveSteps(f, true, programId);
    Begun(f, c, programId);
    IsEntry(f);
    ShopIsEmpty(f);
    t := Enter(START, empty, Lookup(f), f, c, programId);
    t := Go(t, empty, Lookup(f), q, empty, Claiming(f), f, c, programId);
    t := Go(t, empty, Claiming(f), q, s, LoadClaimed(f, true), f, c, programId);
    t := Go(t, s, LoadClaimed(f, true), q, s, ReservingNew(f, r, true), f, c, programId);
    t := Go(t, s, ReservingNew(f, r, true), q, s, Settling(f, r), f, c, programId);
  }

  lemma ShopIsEmpty(f: Flow)
    ensures forall now :: OnTime(Shop(f, map[], []), f, now)
  {
  }

  /** One worker at a time, no resubmission: a retry with a clock behind sends, and its writes are ignored as stale. */
  lemma LateClockSendsTwice(f: Flow, programId: string) returns (t: Trace)
    requires Plain(f)
    ensures Meets(t, f.request.key, Conditions(true, true, false), programId) && SentTwiceAndFailed(t, f)
  {
    hide At, Meets, Execute, After, Continue, Rec, Sent, SentTwiceAndFailed;
    var c, q := Conditions(true, true, false), Quiet(f, 0);
    var r5, r0, r1 := Rec(f, Prepared, 5), Rec(f, Prepared, 0), Rec(f, Submitted, 0);
    var s, s' := Shop(f, Stored(f, Prepared, 5), []), Shop(f, Stored(f, Prepared, 5), [Sent(f)]);
    RecIs(f, Prepared, 5); RecIs(f, Prepared, 0); RecIs(f, Submitted, 0);
    IsEntry(f);
    t := BusyFirst(f, 5, c, programId);
    t := Enter(t, s, Lookup(f), f, c, programId);
    RetrySteps(f, s, Prepared, 5, q, programId);
    t := Go(t, s, Lookup(f), q, s, LoadBound(f), f, c, programId);
    t := Go(t, s, LoadBound(f), q, s, Observing(r5, ResumeHuman(f)), f, c, programId);
    ObserveUnknown(f, s, Prepared, 5, ResumeHuman(f), 0, programId);
    t := Go(t, s, Observing(r5, ResumeHuman(f)), q, s, Persisting(r0, ResumeHuman(f)), f, c, programId);
    PutIgnored(f, Prepared, 5, Prepared, 0);
    PutIgnored(f, Prepared, 5, Submitted, 0);
    PersistStep(f, s, r0, r5, ResumeHuman(f), q, programId);
    t := Go(t, s, Persisting(r0, ResumeHuman(f)), q, s, Reserving(f, r5, false), f, c, programId);
    t := Go(t, s, Reserving(f, r5, false), q, s, Settling(f, r5), f, c, programId);
    SettleStep(f, s, r5, 0, programId);
    t := Go(t, s, Settling(f, r5), q, s, Sending(f, r1, false), f, c, programId);
    SendSteps(f, s, r1, false, 0, programId);
    assert [] + [Sent(f)] == [Sent(f)];
    t := Go(t, s, Sending(f, r1, false), q, s', Observing(r1, Reply), f, c, programId);
    ObserveUnknown(f, s', Submitted, 0, Reply, 0, programId);
    t := Go(t, s', Observing(r1, Reply), q, s', Persisting(r1, Reply), f, c, programId);
    PersistStep(f, s', r1, r5, Reply, q, programId);
    ReplyEnds(r5);
    t := End(t, s', Persisting(r1, Reply), q, s', f, c, programId);
    t := RetryAndFail(t, f, [Sent(f)], 5, 5, c, programId);
    assert [Sent(f)] + [Sent(f)] == [Sent(f), Sent(f)];
    FailsTwice(t, Idle(Shop(f, Stored(f, Failed, 5), [Sent(f)] + [Sent(f)]).(refused := [RefusalOf(f)])), f, 5, c,
        programId);
  }

  lemma ReplyEnds(p: Payment)
    ensures Continue(p, Reply) == None
  {
  }

  // ---------- two workers at once ----------

  function Pair(s: Store, a: Pc, b: Pc): World { World(s, map[0 := a, 1 := b]) }

  lemma EnterSecond(t: Trace, s: Store, a: Pc, b: Pc, f: Flow, c: Conditions, programId: string) returns (t': Trace)
    requires At(t, One(s, a), f.request.key, c, programId) && Entry(b) && !c.alone
    requires NoResubmit(Begin(1, b), f.request.key)
    ensures At(t', Pair(s, a, b), f.request.key, c, programId)
  {
    hide At;
    assert map[0 := a][1 := b] == map[0 := a, 1 := b];
    t' := Extend(t, One(s, a), Begin(1, b), Pair(s, a, b), f.request.key, c, programId);
  }

  lemma GoFirst(t: Trace, s: Store, a: Pc, b: Pc, e: Env, s': Store, a': Pc, f: Flow, c: Conditions,
        programId: string) returns (t': Trace)
    requires At(t, Pair(s, a, b), f.request.key, c, programId) && !c.alone && e.now < U64_LIMIT && OnTime(s, f, e.now)
    requires Execute(s, a, e, programId) == Effect(s', Some(a'))
    ensures At(t', Pair(s', a', b), f.request.key, c, programId)
  {
    hide At, Execute;
    assert map[0 := a, 1 := b][0 := a'] == map[0 := a', 1 := b];
    t' := Extend(t, Pair(s, a, b), Work(0, e), Pair(s', a', b), f.request.key, c, programId);
  }

  lemma GoSecond(t: Trace, s: Store, a: Pc, b: Pc, e: Env, s': Store, b': Pc, f: Flow, c: Conditions,
        programId: string) returns (t': Trace)
    requires At(t, Pair(s, a, b), f.request.key, c, programId) && !c.alone && e.now < U64_LIMIT && OnTime(s, f, e.now)
    requires Execute(s, b, e, programId) == Effect(s', Some(b'))
    ensures At(t', Pair(s', a, b'), f.request.key, c, programId)
  {
    hide At, Execute;
    assert map[0 := a, 1 := b][1 := b'] == map[0 := a, 1 := b'];
    t' := Extend(t, Pair(s, a, b), Work(1, e), Pair(s', a, b'), f.request.key, c, programId);
  }

  lemma EndSecond(t: Trace, s: Store, a: Pc, b: Pc, e: Env, s': Store, f: Flow, c: Conditions,
        programId: string) returns (t': Trace)
    requires At(t, Pair(s, a, b), f.request.key, c, programId) && !c.alone && e.now < U64_LIMIT && OnTime(s, f, e.now)
    requires Execute(s, b, e, programId) == Effect(s', None)
    ensures At(t', One(s', a), f.request.key, c, programId)
  {
    hide At, Execute;
    assert map[0 := a, 1 := b] - {1} == map[0 := a];
    t' := Extend(t, Pair(s, a, b), Work(1, e), One(s', a), f.request.key, c, programId);
  }

  lemma PollSteps(f: Flow, programId: string)
    requires Plain(f)
    ensures var s, r := Shop(f, map[], []), Rec(f, Prepared, 0);
            Execute(s, StatusLoad(f.request.key), Quiet(f, 0), programId) == Effect(s, Some(Observing(r, Reply)))
  {
    RecIs(f, Prepared, 0);
    hide Rec, InitialPayment;
  }

  /**
   * No resubmission, clocks in order, and the one overlap is a status poll: it read the payment before
   * the send and stores it as prepared after it, so the retry sends again.
   */
  lemma OverlappingPollSendsTwice(f: Flow, programId: string) returns (t: Trace)
    requires Plain(f)
    ensures Meets(t, f.request.key, Conditions(false, true, true), programId) && SentTwiceAndFailed(t, f)
  {
    hide At, Meets, Execute, After, Continue, Rec, Sent, SentTwiceAndFailed;
    var c, q, r0, r1 := Conditions(false, true, true), Quiet(f, 0), Rec(f, Prepared, 0), Rec(f, Submitted, 0);
    var s0, s1, s2 := Shop(f, map[], []), Shop(f, Stored(f, Submitted, 0), []), Shop(f, Stored(f, Submitted, 0),
        [Sent(f)]);
    var s3 := Shop(f, Stored(f, Prepared, 0), [Sent(f)]);
    RecIs(f, Prepared, 0); RecIs(f, Submitted, 0);
    // The poll is worker 0 and stops short of its write; the submission is worker 1.
    t := ClaimAndCrash(f, c, programId);
    t := Enter(t, s0, StatusLoad(f.request.key), f, c, programId);
    PollSteps(f, programId);
    t := Go(t, s0, StatusLoad(f.request.key), q, s0, Observing(r0, Reply), f, c, programId);
    ObserveUnknown(f, s0, Prepared, 0, Reply, 0, programId);
    t := Go(t, s0, Observing(r0, Reply), q, s0, Persisting(r0, Reply), f, c, programId);
    var poll := Persisting(r0, Reply);
    t := RetryBeside(t, f, poll, c, programId);
    SettleStep(f, s1.(payments := Stored(f, Prepared, 0)), r0, 0, programId);
    PutFresh(f, Stored(f, Prepared, 0), Submitted, 0);
    t := GoSecond(t, s1.(payments := Stored(f, Prepared, 0)), poll, Settling(f, r0), q, s1, Sending(f, r1, false), f,
        c, programId);
    SendSteps(f, s1, r1, false, 0, programId);
    assert [] + [Sent(f)] == [Sent(f)];
    t := GoSecond(t, s1, poll, Sending(f, r1, false), q, s2, Observing(r1, Reply), f, c, programId);
    ObserveUnknown(f, s2, Submitted, 0, Reply, 0, programId);
    t := GoSecond(t, s2, poll, Observing(r1, Reply), q, s2, Persisting(r1, Reply), f, c, programId);
    PutFresh(f, s2.payments, Submitted, 0);
    PersistStep(f, s2, r1, r1, Reply, q, programId);
    ReplyEnds(r1);
    t := EndSecond(t, s2, poll, Persisting(r1, Reply), q, s2, f, c, programId);
    PutFresh(f, s2.payments, Prepared, 0);
    PersistStep(f, s2, r0, r0, Reply, q, programId);
    ReplyEnds(r0);
    t := End(t, s2, poll, q, s3, f, c, programId);
    t := RetryAndFail(t, f, [Sent(f)], 0, 0, c, programId);
    assert [Sent(f)] + [Sent(f)] == [Sent(f), Sent(f)];
    FailsTwice(t, Idle(Shop(f, Stored(f, Failed, 0), [Sent(f)] + [Sent(f)]).(refused := [RefusalOf(f)])), f, 0, c,
        programId);
  }

  /** The submission resumes after its first worker crashed, up to the point of settling, beside another worker. */
  lemma RetryBeside(t: Trace, f: Flow, other: Pc, c: Conditions, programId: string) returns (t': Trace)
    requires Plain(f) && !c.alone && At(t, One(Shop(f, map[], []), other), f.request.key, c, programId)
    ensures At(t', Pair(Shop(f, Stored(f, Prepared, 0), []), other, Settling(f, Rec(f, Prepared, 0))),
               f.request.key, c, programId)
  {
    hide At, Execute, After, Continue, Rec;
    var q, r, s0, s1 := Quiet(f, 0), Rec(f, Prepared, 0), Shop(f, map[], []), Shop(f, Stored(f, Prepared, 0), []);
    RecIs(f, Prepared, 0);
    IsEntry(f);
    t' := EnterSecond(t, s0, other, Lookup(f), f, c, programId);
    ResumeSteps(f, programId);
    t' := GoSecond(t', s0, other, Lookup(f), q, s0, LoadBound(f), f, c, programId);
    t' := GoSecond(t', s0, other, LoadBound(f), q, s0, Observing(r, ResumeHuman(f)), f, c, programId);
    ObserveUnknown(f, s0, Prepared, 0, ResumeHuman(f), 0, programId);
    t' := GoSecond(t', s0, other, Observing(r, ResumeHuman(f)), q, s0, Persisting(r, ResumeHuman(f)), f, c, programId);
    PutFresh(f, map[], Prepared, 0);
    PersistStep(f, s0, r, r, ResumeHuman(f), q, programId);
    RetrySteps(f, s1, Prepared, 0, q, programId);
    t' := GoSecond(t', s0, other, Persisting(r, ResumeHuman(f)), q, s1, Reserving(f, r, false), f, c, programId);
    t' := GoSecond(t', s1, other, Reserving(f, r, false), q, s1, Settling(f, r), f, c, programId);
  }

  lemma ResumeSteps(f: Flow, programId: string)
    requires Plain(f)
    ensures var s, r := Shop(f, map[], []), Rec(f, Prepared, 0);
            && Execute(s, Lookup(f), Quiet(f, 0), programId) == Effect(s, Some(LoadBound(f)))
            && Execute(s, LoadBound(f), Quiet(f, 0), programId) == Effect(s, Some(Observing(r, ResumeHuman(f))))
  {
    RecIs(f, Prepared, 0);
    hide Rec, IntentOf, InitialPayment;
  }

  // ---------- and the transaction finalizes ----------

  function FinalizedWith(f: Flow, receipt: Receipt): Env {
    Quiet(f, 0).(status := Known(false, Finalized, None), receipt := Some(receipt))
  }

  function Seen(f: Flow, receipt: Receipt): Observation
    requires f.request.terms.receipt.Some?
  {
    Observation(f.request.key, f.request.tx.signature, f.request.terms.receipt.value, receipt)
  }

  lemma FinalizedSteps(f: Flow, s: Store, receipt: Receipt, programId: string)
    requires Plain(f) && f.request.terms.receipt.Some? && ReceiptMatches(receipt, f.request.terms, programId)
    ensures Execute(s, Observing(Rec(f, Submitted, 0), Reply), FinalizedWith(f, receipt), programId)
            == Effect(s.(seen := s.seen + [Seen(f, receipt)]), Some(Persisting(Rec(f, Confirmed, 0), Reply)))
  {
    RecIs(f, Submitted, 0);
    RecIs(f, Confirmed, 0);
    assert Rec(f, Confirmed, 0).body.(slot := None) == Rec(f, Confirmed, 0).body == Rec(f, Submitted, 0).body;
    AppendNothing(s.refused);
    hide Rec, ReceiptMatches;
  }

  /**
   * No resubmission, clocks in order: two workers carry the same submission. One broadcasts it, the
   * other is refused the same bytes and stores the payment failed; then the first sees them finalized
   * with the receipt asked for, and the payment stays failed.
   */
  lemma FailedDespiteBroadcast(f: Flow, receipt: Receipt, programId: string) returns (t: Trace)
    requires Plain(f) && f.request.terms.receipt.Some? && ReceiptMatches(receipt, f.request.terms, programId)
    ensures Meets(t, f.request.key, Conditions(false, true, true), programId) && SentTwiceAndFailed(t, f)
    ensures Seen(f, receipt) in Last(t).store.seen
  {
    hide At, Meets, Execute, After, Continue, Rec, Sent, SentTwiceAndFailed, ReceiptMatches;
    var c, q, r0, r1 := Conditions(false, true, true), Quiet(f, 0), Rec(f, Prepared, 0), Rec(f, Submitted, 0);
    RecIs(f, Prepared, 0); RecIs(f, Submitted, 0); RecIs(f, Failed, 0); RecIs(f, Confirmed, 0);
    t := BothReserve(f, c, programId);
    var s0, s1, s2 := Shop(f, map[], []), Shop(f, Stored(f, Submitted, 0), []), Shop(f, Stored(f, Submitted, 0),
        [Sent(f)]);
    var s3 := Shop(f, Stored(f, Submitted, 0), [Sent(f), Sent(f)]);
    var s4 := s3.(refused := [RefusalOf(f)]);
    var s5 := s4.(payments := Stored(f, Failed, 0));
    var s6 := s5.(seen := [Seen(f, receipt)]);
    var waiting := Observing(r1, Reply);
    SettleStep(f, s0, r0, 0, programId);
    PutFresh(f, map[], Submitted, 0);
    t := GoFirst(t, s0, Settling(f, r0), Settling(f, r0), q, s1, Sending(f, r1, false), f, c, programId);
    SendSteps(f, s1, r1, false, 0, programId);
    assert [] + [Sent(f)] == [Sent(f)];
    t := GoFirst(t, s1, Sending(f, r1, false), Settling(f, r0), q, s2, waiting, f, c, programId);
    SettleStep(f, s2, r0, 0, programId);
    PutFresh(f, s2.payments, Submitted, 0);
    t := GoSecond(t, s2, waiting, Settling(f, r0), q, s2, Sending(f, r1, false), f, c, programId);
    SendSteps(f, s2, r1, false, 0, programId);
    assert [Sent(f)] + [Sent(f)] == [Sent(f), Sent(f)];
    t := GoSecond(t, s2, waiting, Sending(f, r1, false), Node(f, 0, Some(TransactionFailed)), s3,
        Classifying(f, r1, TransactionFailed), f, c, programId);
    ClassifySteps(f, s3, 0, 0, programId);
    assert s3.refused + [RefusalOf(f)] == [RefusalOf(f)];
    t := GoSecond(t, s3, waiting, Classifying(f, r1, TransactionFailed), q, s4, StoringLast(Rec(f, Failed, 0)), f, c,
        programId);
    StoreStep(s4, Rec(f, Failed, 0), q, programId);
    PutFresh(f, s4.payments, Failed, 0);
    t := EndSecond(t, s4, waiting, StoringLast(Rec(f, Failed, 0)), q, s5, f, c, programId);
    FinalizedSteps(f, s5, receipt, programId);
    assert s5.seen + [Seen(f, receipt)] == [Seen(f, receipt)];
    t := Go(t, s5, waiting, FinalizedWith(f, receipt), s6, Persisting(Rec(f, Confirmed, 0), Reply), f, c, programId);
    PutIgnored(f, Failed, 0, Confirmed, 0);
    PersistStep(f, s6, Rec(f, Confirmed, 0), Rec(f, Failed, 0), Reply, q, programId);
    ReplyEnds(Rec(f, Failed, 0));
    t := End(t, s6, Persisting(Rec(f, Confirmed, 0), Reply), q, s6, f, c, programId);
    FailsTwice(t, Idle(s6), f, 0, c, programId);
    LastIs(t, Idle(s6), f.request.key, c, programId);
  }

  lemma LastIs(t: Trace, w: World, key: Key, c: Conditions, programId: string)
    requires At(t, w, key, c, programId)
    ensures t.worlds != [] && Last(t) == w
  {
  }

  /** Both workers look the key up before either claims it, so both go on to settle. */
  lemma BothReserve(f: Flow, c: Conditions, programId: string) returns (t: Trace)
    requires Plain(f) && !c.alone
    ensures At(t, Pair(Shop(f, map[], []), Settling(f, Rec(f, Prepared, 0)), Settling(f, Rec(f, Prepared, 0))),
               f.request.key, c, programId)
  {
    hide At, Execute, Plain, Shop, Rec;
    var empty, s, q, r := Store(map[], map[], [], [], []), Shop(f, map[], []), Quiet(f, 0), Rec(f, Prepared, 0);
    ClaimSteps(f, programId);
    ReserveSteps(f, true, programId);
    ReserveSteps(f, false, programId);
    Begun(f, c, programId);
    IsEntry(f);
    ShopIsEmpty(f);
    t := Enter(START, empty, Lookup(f), f, c, programId);
    t := EnterSecond(t, empty, Lookup(f), Lookup(f), f, c, programId);
    t := GoFirst(t, empty, Lookup(f), Lookup(f), q, empty, Claiming(f), f, c, programId);
    t := GoSecond(t, empty, Claiming(f), Lookup(f), q, empty, Claiming(f), f, c, programId);
    t := GoFirst(t, empty, Claiming(f), Claiming(f), q, s, LoadClaimed(f, true), f, c, programId);
    t := GoSecond(t, s, LoadClaimed(f, true), Claiming(f), q, s, LoadClaimed(f, false), f, c, programId);
    t := GoFirst(t, s, LoadClaimed(f, true), LoadClaimed(f, false), q, s, ReservingNew(f, r, true), f, c, programId);
    t := GoSecond(t, s, ReservingNew(f, r, true), LoadClaimed(f, false), q, s, ReservingNew(f, r, false), f, c,
        programId);
    t := GoFirst(t, s, ReservingNew(f, r, true), ReservingNew(f, r, false), q, s, Settling(f, r), f, c, programId);
    t := GoSecond(t, s, Settling(f, r), ReservingNew(f, r, false), q, s, Settling(f, r), f, c, programId);
  }
}
