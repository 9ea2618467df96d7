/** The order service as a step system.

    Any number of requests run at once. Each has its own phase and its own
    stale copy of an order; only one read and one save of the shared store are
    atomic. An event names the request that moves; events are deterministic, so
    an interleaving is a sequence of events. */
module Protocol {
  import opened Domain

  /** Which repository the service was built with. */
  datatype Backend = Memory | Postgres

  type Store = map<Uuid, Order>

  /** What one `Save` does to the stored records. The SQL upsert has no
      `created_at` in its update list. */
  function Upsert(b: Backend, db: Store, order: Order): Store {
    if b == Postgres && order.orderUuid in db then
      db[order.orderUuid := order.(createdAt := db[order.orderUuid].createdAt)]
    else
      db[order.orderUuid := order]
  }

  datatype Call =
    | CreateCall(input: CreateInput)
    | GetCall(id: Uuid)
    | PayCall(id: Uuid, payMethod: PaymentMethod)
    | CancelCall(id: Uuid)

  /** The external call a failed request was waiting for. */
  datatype Stage = InventoryStage | ReadStage | PaymentStage | SaveStage

  datatype Outcome =
    | Created(order: Order)
    | Fetched(order: Order)
    | PaidOk(order: Order)
    | CancelledOk(order: Order)
    | NotFound
    | AlreadyFinal
    | Failed(stage: Stage)

  datatype Phase =
    | Started                                      // nothing done yet
    | Checked(copy: Order)                         // pay: read a pending order, Payment not called
    | Saving(base: Option<Order>, record: Order)   // about to save; base is the copy it was read from
    | Done(outcome: Outcome)

  datatype Request = Request(call: Call, phase: Phase)

  /** Who drew an identifier with `uuid.New`, and what for. The Payment entries are the ledger. */
  datatype Issue =
    | OrderId(req: nat)
    | Payment(req: nat, order: Uuid, payMethod: ProtoMethod)

  datatype State = State(db: Store, ids: map<Uuid, Issue>, reqs: map<nat, Request>)

  const INIT := State(map[], map[], map[])

  datatype Event =
    | Arrive(r: nat, call: Call)
    | Build(r: nat, id: Uuid, total: Int64, now: Time)  // create: parts priced, order id drawn
    | Read(r: nat)                                      // repo.Get answers
    | Charge(r: nat, tx: Uuid)                          // Payment accepts and its answer arrives
    | ChargeLost(r: nat, tx: Uuid)                      // Payment accepts, the answer is lost
    | Save(r: nat)                                      // repo.Save commits
    | Fail(r: nat)                                      // the call waited for fails without effect

  predicate Enabled(s: State, e: Event) {
    match e
    case Arrive(r, _) => r !in s.reqs
    case Build(r, id, _, _) =>
      && r in s.reqs && s.reqs[r].phase.Started? && s.reqs[r].call.CreateCall?
      && id !in s.ids
    case Read(r) => r in s.reqs && s.reqs[r].phase.Started? && !s.reqs[r].call.CreateCall?
    case Charge(r, tx) => CanCharge(s, r, tx)
    case ChargeLost(r, tx) => CanCharge(s, r, tx)
    case Save(r) => r in s.reqs && s.reqs[r].phase.Saving?
    case Fail(r) => r in s.reqs && !s.reqs[r].phase.Done?
  }

  /** Payment rejects an unspecified method and draws a fresh transaction id. */
  predicate CanCharge(s: State, r: nat, tx: Uuid) {
    && r in s.reqs && s.reqs[r].phase.Checked? && s.reqs[r].call.PayCall?
    && PaymentMethodToProto(s.reqs[r].call.payMethod) != Unspecified
    && tx !in s.ids
  }

  /** What the request does with the answer of `repo.Get`. */
  function AfterRead(call: Call, db: Store): Phase
    requires !call.CreateCall?
  {
    if call.id !in db then Done(NotFound)
    else
      var copy := db[call.id];
      if call.GetCall? then Done(Fetched(copy))
      else if copy.status != PendingPayment then Done(AlreadyFinal)
      else if call.PayCall? then Checked(copy)
      else Saving(Some(copy), CancelledCopy(copy))
  }

  function SavedOutcome(call: Call, record: Order): Outcome {
    match call
    case CreateCall(_) => Created(record)
    case GetCall(_) => Fetched(record)
    case PayCall(_, _) => PaidOk(record)
    case CancelCall(_) => CancelledOk(record)
  }

  function FailedStage(call: Call, phase: Phase): Stage {
    match phase
    case Started => if call.CreateCall? then InventoryStage else ReadStage
    case Checked(_) => PaymentStage
    case Saving(_, _) => SaveStage
    case Done(_) => SaveStage
  }

  function Move(s: State, r: nat, p: Phase): State
    requires r in s.reqs
  {
    s.(reqs := s.reqs[r := s.reqs[r].(phase := p)])
  }

  function Apply(b: Backend, s: State, e: Event): State
    requires Enabled(s, e)
  {
    match e
    case Arrive(r, call) => s.(reqs := s.reqs[r := Request(call, Started)])
    case Build(r, id, total, now) =>
      Move(s, r, Saving(None, NewOrder(s.reqs[r].call.input, id, total, now))).(ids := s.ids[id := OrderId(r)])
    case Read(r) => Move(s, r, AfterRead(s.reqs[r].call, s.db))
    case Charge(r, tx) =>
      var call, copy := s.reqs[r].call, s.reqs[r].phase.copy;
      Move(s, r, Saving(Some(copy), PaidCopy(copy, tx, call.payMethod))).(ids := s.ids[tx := Ledger(s, r)])
    case ChargeLost(r, tx) =>
      Move(s, r, Done(Failed(PaymentStage))).(ids := s.ids[tx := Ledger(s, r)])
    case Save(r) =>
      var record := s.reqs[r].phase.record;
      Move(s, r, Done(SavedOutcome(s.reqs[r].call, record))).(db := Upsert(b, s.db, record))
    case Fail(r) => Move(s, r, Done(Failed(FailedStage(s.reqs[r].call, s.reqs[r].phase))))
  }

  function Ledger(s: State, r: nat): Issue
    requires r in s.reqs && s.reqs[r].phase.Checked? && s.reqs[r].call.PayCall?
  {
    Payment(r, s.reqs[r].phase.copy.orderUuid, PaymentMethodToProto(s.reqs[r].call.payMethod))
  }

  // ---- Runs ----

  predicate ValidFrom(b: Backend, s: State, es: seq<Event>)
    decreases |es|, 0
  {
    es == [] ||
    (var n := |es| - 1; ValidFrom(b, s, es[..n]) && Enabled(RunFrom(b, s, es[..n]), es[n]))
  }

  function RunFrom(b: Backend, s: State, es: seq<Event>): State
    requires ValidFrom(b, s, es)
    decreases |es|, 1
  {
    if es == [] then s else var n := |es| - 1; Apply(b, RunFrom(b, s, es[..n]), es[n])
  }

  predicate Valid(b: Backend, es: seq<Event>) { ValidFrom(b, INIT, es) }

  function Run(b: Backend, es: seq<Event>): State
    requires Valid(b, es)
  {
    RunFrom(b, INIT, es)
  }

  lemma {:induction false} RunSnoc(b: Backend, s: State, es: seq<Event>, e: Event)
    requires ValidFrom(b, s, es) && Enabled(RunFrom(b, s, es), e)
    ensures ValidFrom(b, s, es + [e]) && RunFrom(b, s, es + [e]) == Apply(b, RunFrom(b, s, es), e)
  {
    assert (es + [e])[..|es|] == es;
  }

  lemma {:induction false} RunConcat(b: Backend, s: State, xs: seq<Event>, ys: seq<Event>)
    requires ValidFrom(b, s, xs)
    ensures ValidFrom(b, s, xs + ys) <==> ValidFrom(b, RunFrom(b, s, xs), ys)
    ensures ValidFrom(b, s, xs + ys) ==> RunFrom(b, s, xs + ys) == RunFrom(b, RunFrom(b, s, xs), ys)
    decreases |ys|
  {
    hide Enabled, Apply;
    if ys == [] {
      assert xs + ys == xs;
    } else {
      var n := |ys| - 1;
      assert (xs + ys)[..|xs| + n] == xs + ys[..n];
      RunConcat(b, s, xs, ys[..n]);
    }
  }

  lemma {:induction false} PrefixValid(b: Backend, s: State, es: seq<Event>, i: nat)
    requires ValidFrom(b, s, es) && i <= |es|
    ensures ValidFrom(b, s, es[..i])
    decreases |es|
  {
    if i == |es| {
      assert es[..i] == es;
    } else {
      var n := |es| - 1;
      PrefixValid(b, s, es[..n], i);
      assert es[..n][..i] == es[..i];
    }
  }

  // ---- What every interleaving keeps ----

  /** The fields no operation changes after creation agree. */
  predicate SameOrigin(a: Order, c: Order) {
    && a.orderUuid == c.orderUuid
    && a.hull == c.hull && a.engine == c.engine && a.shield == c.shield && a.weapon == c.weapon
    && a.totalPrice == c.totalPrice && a.createdAt == c.createdAt
  }

  /** A record is PAID exactly when it carries a transaction and a method, and then
      Payment issued that transaction for this order and this method. */
  predicate Coherent(o: Order, ids: map<Uuid, Issue>) {
    && (o.status == Paid <==> o.transaction.Some?)
    && (o.status == Paid <==> o.payMethod.Some?)
    && (o.status == Paid ==>
          && ValidPaymentMethod(o.payMethod.value)
          && o.transaction.value in ids
          && ids[o.transaction.value].Payment?
          && ids[o.transaction.value].order == o.orderUuid
          && ids[o.transaction.value].payMethod == PaymentMethodToProto(o.payMethod.value))
  }

  predicate StoreOk(s: State) {
    forall id :: id in s.db ==>
      && s.db[id].orderUuid == id
      && id in s.ids && s.ids[id].OrderId?
      && Coherent(s.db[id], s.ids)
  }

  /** A private copy is an earlier, pending version of the stored record. */
  predicate StaleCopy(s: State, id: Uuid, copy: Order) {
    && id in s.db && SameOrigin(copy, s.db[id])
    && copy.status == PendingPayment && copy.transaction == None && copy.payMethod == None
  }

  predicate RequestOk(s: State, r: nat)
    requires r in s.reqs
  {
    var call := s.reqs[r].call;
    match s.reqs[r].phase
    case Started => true
    case Checked(copy) => call.PayCall? && StaleCopy(s, call.id, copy)
    case Saving(None, record) =>
      && call.CreateCall?
      && record == NewOrder(call.input, record.orderUuid, record.totalPrice, record.createdAt)
      && record.orderUuid !in s.db
      && record.orderUuid in s.ids && s.ids[record.orderUuid] == OrderId(r)
    case Saving(Some(copy), record) =>
      && (call.PayCall? || call.CancelCall?)
      && StaleCopy(s, call.id, copy)
      && (call.CancelCall? ==> record == CancelledCopy(copy))
      && (call.PayCall? ==>
            && record.transaction.Some?
            && record == PaidCopy(copy, record.transaction.value, call.payMethod)
            && Paying(s, r, call, record.transaction.value))
    case Done(PaidOk(o)) =>
      && call.PayCall? && o.orderUuid == call.id && o.status == Paid
      && o.transaction.Some? && o.payMethod == Some(call.payMethod)
      && Paying(s, r, call, o.transaction.value)
    case Done(CancelledOk(o)) => call.CancelCall? && o.orderUuid == call.id && o.status == Cancelled
    case Done(Created(o)) => call.CreateCall? && o.orderUuid in s.ids && s.ids[o.orderUuid] == OrderId(r)
    case Done(_) => true
  }

  predicate Paying(s: State, r: nat, call: Call, tx: Uuid)
    requires call.PayCall?
  {
    && tx in s.ids && s.ids[tx] == Payment(r, call.id, PaymentMethodToProto(call.payMethod))
    && ValidPaymentMethod(call.payMethod)
  }

  /** Where an issued identifier can be: carried by its request, in that request's
      result, or lost with a request that failed. */
  predicate IdOk(s: State, x: Uuid)
    requires x in s.ids
  {
    var r := s.ids[x].req;
    && r in s.reqs
    && match s.ids[x]
       case OrderId(_) =>
         && s.reqs[r].call.CreateCall?
         && (match s.reqs[r].phase
             case Saving(None, record) => record.orderUuid == x
             case Done(Created(o)) => o.orderUuid == x
             case Done(Failed(_)) => true
             case _ => false)
       case Payment(_, order, payMethod) =>
         && s.reqs[r].call.PayCall?
         && order == s.reqs[r].call.id && payMethod == PaymentMethodToProto(s.reqs[r].call.payMethod)
         && (match s.reqs[r].phase
             case Saving(Some(_), record) => record.transaction == Some(x)
             case Done(PaidOk(o)) => o.transaction == Some(x)
             case Done(Failed(_)) => true
             case _ => false)
  }

  ghost predicate Inv(s: State) {
    && StoreOk(s)
    && (forall r :: r in s.reqs ==> RequestOk(s, r))
    && (forall x :: x in s.ids ==> IdOk(s, x))
  }

  lemma {:induction false} StepKeepsStore(b: Backend, s: State, e: Event)
    requires Inv(s) && Enabled(s, e)
    ensures StoreOk(Apply(b, s, e))
  {
    hide IdOk;
    if e.Save? {
      assert RequestOk(s, e.r);
    }
  }

  /** What a step never undoes: records stay, with the same origin; a final record
      does not go back to pending; issued identifiers and results stay. */
  ghost predicate Evolves(s: State, s': State) {
    && (forall id :: id in s.db ==>
          && id in s'.db && SameOrigin(s.db[id], s'.db[id])
          && (s.db[id].status != PendingPayment ==> s'.db[id].status != PendingPayment))
    && (forall x :: x in s.ids ==> x in s'.ids && s'.ids[x] == s.ids[x])
    && (forall r :: r in s.reqs ==>
          && r in s'.reqs && s'.reqs[r].call == s.reqs[r].call
          && (s.reqs[r].phase.Done? ==> s'.reqs[r] == s.reqs[r]))
  }

  lemma {:induction false} StepEvolves(b: Backend, s: State, e: Event)
    requires Inv(s) && Enabled(s, e)
    ensures Evolves(s, Apply(b, s, e))
  {
    hide IdOk, Coherent;
    if e.Save? {
      assert RequestOk(s, e.r);
    }
  }

  lemma {:induction false} OtherRequestKept(b: Backend, s: State, e: Event, r: nat)
    requires Inv(s) && Enabled(s, e) && r in s.reqs && r != e.r
    ensures RequestOk(Apply(b, s, e), r)
  {
    StepEvolves(b, s, e);
    assert RequestOk(s, r);
    if e.Save? {
      assert RequestOk(s, e.r);
    }
  }

  lemma {:induction false} MovedRequestOk(b: Backend, s: State, e: Event)
    requires Inv(s) && Enabled(s, e)
    ensures RequestOk(Apply(b, s, e), e.r)
  {
    if e.r in s.reqs {
      assert RequestOk(s, e.r);
    }
  }

  lemma {:induction false} StepKeepsRequests(b: Backend, s: State, e: Event)
    requires Inv(s) && Enabled(s, e)
    ensures forall r :: r in Apply(b, s, e).reqs ==> RequestOk(Apply(b, s, e), r)
  {
    forall r | r in Apply(b, s, e).reqs
      ensures RequestOk(Apply(b, s, e), r)
    {
      if r == e.r {
        MovedRequestOk(b, s, e);
      } else {
        OtherRequestKept(b, s, e, r);
      }
    }
  }

  lemma {:induction false} StepKeepsIds(b: Backend, s: State, e: Event)
    requires Inv(s) && Enabled(s, e)
    ensures forall x :: x in Apply(b, s, e).ids ==> IdOk(Apply(b, s, e), x)
  {
    hide Coherent;
    if e.r in s.reqs {
      assert RequestOk(s, e.r);
    }
  }

  lemma {:induction false} StepKeepsInv(b: Backend, s: State, e: Event)
    requires Inv(s) && Enabled(s, e)
    ensures Inv(Apply(b, s, e))
  {
    StepKeepsStore(b, s, e);
    StepKeepsRequests(b, s, e);
    StepKeepsIds(b, s, e);
  }

  lemma {:induction false} RunKeepsInv(b: Backend, es: seq<Event>)
    requires Valid(b, es)
    ensures Inv(Run(b, es))
    decreases |es|
  {
    if es != [] {
      var n := |es| - 1;
      RunKeepsInv(b, es[..n]);
      StepKeepsInv(b, Run(b, es[..n]), es[n]);
    }
  }
}
