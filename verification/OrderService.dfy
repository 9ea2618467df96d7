/** The order service as it is written: read, check, call out, assign fields, save.

    Every operation is cut where another request may get in: before each call of the
    repository, of Payment and of Inventory. A piece takes one request from any state of
    the system to the next, and its contract says that this is exactly one event of the
    step system, with either repository. `Interleave` runs pieces of any number of requests in
    any order; an operation that is not interrupted runs its pieces one after the other. */
module OrderService {
  import opened Domain
  import opened Protocol
  import opened Inventory
  import opened Pricing
  import opened Repositories
  import Payments

  datatype ServiceError =
    | OrderNotFound
    | OrderAlreadyFinal
    | CreateRefused(reason: CreateError)
    | PaymentRefused
    | Unavailable(stage: Stage)

  /** What the environment decides during one call. */
  datatype Faults = Faults(read: bool, remote: RemoteFault, save: bool)

  /** A call to another service may not reach it, or its answer may not come back. */
  datatype RemoteFault = Fine | NotDelivered | AnswerLost

  function OutcomeOf(call: Call, res: Result<Order, ServiceError>): Outcome {
    match res
    case Ok(order) => SavedOutcome(call, order)
    case Err(OrderNotFound) => Protocol.NotFound
    case Err(OrderAlreadyFinal) => AlreadyFinal
    case Err(CreateRefused(_)) => Failed(InventoryStage)
    case Err(PaymentRefused) => Failed(PaymentStage)
    case Err(Unavailable(stage)) => Failed(stage)
  }

  predicate Pending(db: Store, id: Uuid) {
    id in db && db[id].status == PendingPayment
  }

  /** A request being served: where it stands, with its local copy of the order, and what it
      returns in the end. */
  class Running {
    ghost const r: nat
    const call: Call
    var phase: Phase
    var res: Option<Result<Order, ServiceError>>

    constructor (ghost r: nat, call: Call)
      ensures this.r == r && this.call == call && Valid() && phase == Started
    {
      this.r, this.call, phase, res := r, call, Started, None;
    }

    ghost predicate Valid()
      reads this
    {
      && (phase.Checked? ==> call.PayCall?)
      && (phase.Done? <==> res.Some?)
      && (phase.Done? ==> phase.outcome == OutcomeOf(call, res.value))
    }

    function Abs(): Request
      reads this
    {
      Request(call, phase)
    }

    method Return(res: Result<Order, ServiceError>)
      modifies this
      ensures Valid() && phase == Done(OutcomeOf(call, res)) && this.res == Some(res)
    {
      phase, this.res := Done(OutcomeOf(call, res)), Some(res);
    }
  }

  /** `es` are events of `r` alone that lead from `s` to `t`. */
  ghost predicate Leads(b: Backend, s: State, r: nat, es: seq<Event>, t: State) {
    && (forall i :: 0 <= i < |es| ==> es[i].r == r)
    && ValidFrom(b, s, es) && RunFrom(b, s, es) == t
  }

  /** Request `r` runs alone from `s`, leaves the store `db` and is answered. */
  ghost predicate RunsAlone(b: Backend, s: State, r: nat, call: Call, es: seq<Event>, db: Store, answer: Outcome) {
    exists t :: Leads(b, s, r, es, t) && t.db == db && r in t.reqs && t.reqs[r] == Request(call, Done(answer))
  }

  lemma {:induction false} Begin(b: Backend, s: State, r: nat, call: Call) returns (es: seq<Event>, t: State)
    requires r !in s.reqs
    ensures t == s.(reqs := s.reqs[r := Request(call, Started)]) && Leads(b, s, r, es, t)
  {
    es, t := Then(b, s, r, [], s, Arrive(r, call));
  }

  lemma {:induction false} Then(b: Backend, s: State, r: nat, es: seq<Event>, t: State, e: Event)
    returns (es': seq<Event>, t': State)
    requires Leads(b, s, r, es, t) && Enabled(t, e) && e.r == r
    ensures t' == Apply(b, t, e) && Leads(b, s, r, es', t')
  {
    es', t' := es + [e], Apply(b, t, e);
    RunSnoc(b, s, es, e);
  }

  class Service {
    const text: TextCodec
    const inventory: Inventory.MemoryRepository
    const repo: Repository

    constructor (text: TextCodec, inventory: Inventory.MemoryRepository, repo: Repository)
      ensures this.text == text && this.inventory == inventory && this.repo == repo
    {
      this.text, this.inventory, this.repo := text, inventory, repo;
    }

    /** The step system is in `s`: its store is the repository, and `q` stands where it says. */
    ghost predicate In(s: State, q: Running)
      reads q, repo.Footprint()
    {
      repo.Valid() && repo.Contents() == s.db && q.Valid() && q.r in s.reqs && s.reqs[q.r] == q.Abs()
    }

    /** Event `e` of `q` leads from `s` to where the program now is. */
    ghost predicate Stepped(s: State, e: Event, q: Running)
      reads q, repo.Footprint()
    {
      e.r == q.r && Enabled(s, e) && In(Apply(repo.Backend(), s, e), q)
    }

    /** The faults a call meets: the map has none of its own. */
    function Met(faults: Faults): Faults {
      faults.(read := repo.Hits(faults.read), save := repo.Hits(faults.save))
    }

    /** The event that resuming an open request performs: it depends on where the request
        stands and on the environment, and not on the rest of the system. */
    function Asked(r: nat, q: Request, drawn: Uuid, now: Time, faults: Faults): Event {
      match q.phase
      case Started =>
        if !q.call.CreateCall? then (if repo.Hits(faults.read) then Fail(r) else Read(r))
        else if faults.remote != Fine || PriceOrder(text, inventory.parts, q.call.input).Err? then Fail(r)
        else Build(r, drawn, PriceOrder(text, inventory.parts, q.call.input).value, now)
      case Checked(_) =>
        if faults.remote == NotDelivered || !q.call.PayCall? || !ValidPaymentMethod(q.call.payMethod) then Fail(r)
        else if faults.remote == AnswerLost then ChargeLost(r, drawn) else Charge(r, drawn)
      case _ => if repo.Hits(faults.save) then Fail(r) else Save(r)
    }

    // ---- The pieces ----

    /** `repo.Get`, the pending check, and for a cancel the change of status. */
    method ReadOrder(q: Running, fault: bool, ghost s: State) returns (ghost e: Event)
      requires In(s, q) && q.phase.Started? && !q.call.CreateCall?
      modifies q
      ensures Stepped(s, e, q) && repo.Contents() == old(repo.Contents())
      ensures e == if repo.Hits(fault) then Fail(q.r) else Read(q.r)
      ensures repo.Hits(fault) ==> q.res == Some(Err(Unavailable(ReadStage)))
      ensures !repo.Hits(fault) && q.call.id !in s.db ==> q.res == Some(Err(OrderNotFound))
      ensures !repo.Hits(fault) && q.call.id in s.db ==>
                var order := s.db[q.call.id];
                if q.call.GetCall? then q.res == Some(Ok(order))
                else if order.status != PendingPayment then q.res == Some(Err(OrderAlreadyFinal))
                else q.phase == if q.call.PayCall? then Checked(order) else Saving(Some(order), CancelledCopy(order))
    {
      e := if repo.Hits(fault) then Fail(q.r) else Read(q.r);
      var got := repo.Get(q.call.id, fault);
      if got == Err(ErrNotFound) {
        q.Return(Err(OrderNotFound));
        return;
      }
      if got.Err? {
        q.Return(Err(Unavailable(ReadStage)));
        return;
      }
      var order := got.value;
      if q.call.GetCall? {
        q.Return(Ok(order));
        return;
      }
      if order.status != PendingPayment {
        q.Return(Err(OrderAlreadyFinal));
        return;
      }
      if q.call.PayCall? {
        q.phase := Checked(order);
      } else {
        var before := order;
        order := order.(status := Cancelled);
        q.phase := Saving(Some(before), order);
      }
    }

    /** The call of Payment and the assignments that follow it. */
    method ChargeOrder(q: Running, drawn: Uuid, remote: RemoteFault, ghost s: State) returns (ghost e: Event)
      requires text.UuidsRoundTrip() && In(s, q) && q.phase.Checked? && drawn !in s.ids
      modifies q
      ensures Stepped(s, e, q) && repo.Contents() == old(repo.Contents())
      ensures e == if remote == NotDelivered || !ValidPaymentMethod(q.call.payMethod) then Fail(q.r)
                   else if remote == AnswerLost then ChargeLost(q.r, drawn) else Charge(q.r, drawn)
      ensures var copy := old(q.phase.copy);
        if remote == NotDelivered then q.res == Some(Err(Unavailable(PaymentStage)))
        else if !ValidPaymentMethod(q.call.payMethod) then q.res == Some(Err(PaymentRefused))
        else if remote == AnswerLost then q.res == Some(Err(Unavailable(PaymentStage)))
        else q.phase == Saving(Some(copy), PaidCopy(copy, drawn, q.call.payMethod))
    {
      hide ValidPaymentMethod, PaymentMethodToProto;
      var order := q.phase.copy;
      Payments.PayOrderExactly(text, order.orderUuid, q.call.payMethod, drawn);
      e := if remote == NotDelivered || !ValidPaymentMethod(q.call.payMethod) then Fail(q.r)
           else if remote == AnswerLost then ChargeLost(q.r, drawn) else Charge(q.r, drawn);
      var reply := Payments.PayOrder(text, text.printUuid(order.orderUuid), PaymentMethodToProto(q.call.payMethod), drawn);
      if remote == NotDelivered {
        q.Return(Err(Unavailable(PaymentStage)));
        return;
      }
      if reply.Err? {
        q.Return(Err(PaymentRefused));
        return;
      }
      if remote == AnswerLost {
        q.Return(Err(Unavailable(PaymentStage)));
        return;
      }
      var before := order;
      var transaction := text.parseUuid(reply.value);
      order := order.(status := Paid);
      order := order.(transaction := transaction);
      order := order.(payMethod := Some(q.call.payMethod));
      q.phase := Saving(Some(before), order);
    }

    /** The call of Inventory, the price loop, and the new record. */
    method BuildOrder(q: Running, drawn: Uuid, now: Time, remote: RemoteFault, ghost s: State) returns (ghost e: Event)
      requires In(s, q) && q.phase.Started? && q.call.CreateCall? && drawn !in s.ids
      modifies q
      ensures Stepped(s, e, q) && repo.Contents() == old(repo.Contents())
      ensures e == if remote != Fine || PriceOrder(text, inventory.parts, q.call.input).Err? then Fail(q.r)
                   else Build(q.r, drawn, PriceOrder(text, inventory.parts, q.call.input).value, now)
      ensures var price := PriceOrder(text, inventory.parts, q.call.input);
        if remote != Fine then q.res == Some(Err(Unavailable(InventoryStage)))
        else if price.Err? then q.res == Some(Err(CreateRefused(price.error)))
        else q.phase == Saving(None, NewOrder(q.call.input, drawn, price.value, now))
    {
      hide PriceOrder;
      e := Fail(q.r);
      if remote != Fine {
        q.Return(Err(Unavailable(InventoryStage)));
        return;
      }
      var total := Price(text, inventory, q.call.input);
      if total.Err? {
        q.Return(Err(CreateRefused(total.error)));
        return;
      }
      e := Build(q.r, drawn, total.value, now);
      q.phase := Saving(None, NewOrder(q.call.input, drawn, total.value, now));
    }

    /** `repo.Save` inside the transaction manager, and the return. */
    method SaveOrder(q: Running, fault: bool, ghost s: State) returns (ghost e: Event)
      requires In(s, q) && q.phase.Saving?
      modifies q, repo.Footprint()
      ensures Stepped(s, e, q)
      ensures e == if repo.Hits(fault) then Fail(q.r) else Save(q.r)
      ensures var order := old(q.phase.record);
        if repo.Hits(fault) then q.res == Some(Err(Unavailable(SaveStage))) && repo.Contents() == s.db
        else q.res == Some(Ok(order)) && repo.Contents() == Upsert(repo.Backend(), s.db, order)
    {
      e := if repo.Hits(fault) then Fail(q.r) else Save(q.r);
      var order := q.phase.record;
      var ok := repo.Save(order, fault);
      if !ok {
        q.Return(Err(Unavailable(SaveStage)));
        return;
      }
      q.Return(Ok(order));
    }

    /** The next piece of a request that is not finished. */
    method Resume(q: Running, drawn: Uuid, now: Time, faults: Faults, ghost s: State) returns (ghost e: Event)
      requires text.UuidsRoundTrip() && In(s, q) && !q.phase.Done? && drawn !in s.ids
      modifies q, repo.Footprint()
      ensures Stepped(s, e, q) && e == Asked(q.r, s.reqs[q.r], drawn, now, faults)
      ensures Apply(repo.Backend(), s, e).ids.Keys <= s.ids.Keys + {drawn}
    {
      assert q.r in s.reqs && s.reqs[q.r] == q.Abs() && (q.phase.Checked? ==> q.call.PayCall?);
      hide In, Apply, Enabled, PaymentMethodToProto, ValidPaymentMethod, PriceOrder;
      match q.phase {
        case Started =>
          if q.call.CreateCall? {
            e := BuildOrder(q, drawn, now, faults.remote, s);
          } else {
            e := ReadOrder(q, faults.read, s);
          }
        case Checked(_) => e := ChargeOrder(q, drawn, faults.remote, s);
        case Saving(_, _) => e := SaveOrder(q, faults.save, s);
      }
      assert Enabled(s, e);
      DrawsAtMost(repo.Backend(), s, e, drawn);
    }

    // ---- The operations, uninterrupted ----

    method GetOrder(id: Uuid, faults: Faults, ghost s: State, ghost r: nat)
      returns (res: Result<Order, ServiceError>, ghost es: seq<Event>)
      requires repo.Valid() && r !in s.reqs && s.db == repo.Contents()
      ensures var f := Met(faults);
        && (f.read ==> res == Err(Unavailable(ReadStage)))
        && (!f.read && id !in s.db ==> res == Err(OrderNotFound))
        && (!f.read && id in s.db ==> res == Ok(s.db[id]))
      ensures RunsAlone(repo.Backend(), s, r, GetCall(id), es, repo.Contents(), OutcomeOf(GetCall(id), res))
    {
      hide Leads, Apply, Enabled;
      var q := new Running(r, GetCall(id));
      ghost var t, e;
      es, t := Begin(repo.Backend(), s, r, GetCall(id));
      e := ReadOrder(q, faults.read, t);
      es, t := Then(repo.Backend(), s, r, es, t, e);
      return q.res.value, es;
    }

    method PayOrder(id: Uuid, payMethod: PaymentMethod, drawn: Uuid, faults: Faults, ghost s: State, ghost r: nat)
      returns (res: Result<Order, ServiceError>, ghost es: seq<Event>)
      requires text.UuidsRoundTrip() && repo.Valid()
      requires r !in s.reqs && s.db == repo.Contents() && drawn !in s.ids
      modifies repo.Footprint()
      ensures repo.Valid()
      ensures var f := Met(faults);
        && (f.read ==> res == Err(Unavailable(ReadStage)))
        && (!f.read && id !in s.db ==> res == Err(OrderNotFound))
        && (!f.read && id in s.db && s.db[id].status != PendingPayment ==> res == Err(OrderAlreadyFinal))
        && (!f.read && Pending(s.db, id) ==>
              res == if f.remote == NotDelivered then Err(Unavailable(PaymentStage))
                     else if !ValidPaymentMethod(payMethod) then Err(PaymentRefused)
                     else if f.remote == AnswerLost then Err(Unavailable(PaymentStage))
                     else if f.save then Err(Unavailable(SaveStage))
                     else Ok(PaidCopy(s.db[id], drawn, payMethod)))
      ensures repo.Contents() == if res.Ok? then s.db[id := res.value] else s.db
      ensures RunsAlone(repo.Backend(), s, r, PayCall(id, payMethod), es, repo.Contents(), OutcomeOf(PayCall(id, payMethod), res))
    {
      hide Leads, Apply, Enabled, ValidPaymentMethod;
      var q := new Running(r, PayCall(id, payMethod));
      ghost var t, e;
      es, t := Begin(repo.Backend(), s, r, PayCall(id, payMethod));
      e := ReadOrder(q, faults.read, t);
      es, t := Then(repo.Backend(), s, r, es, t, e);
      if q.phase.Checked? {
        DrawsNothing(repo.Backend(), s, r, PayCall(id, payMethod), e);
        e := ChargeOrder(q, drawn, faults.remote, t);
        es, t := Then(repo.Backend(), s, r, es, t, e);
      }
      if q.phase.Saving? {
        e := SaveOrder(q, faults.save, t);
        es, t := Then(repo.Backend(), s, r, es, t, e);
      }
      return q.res.value, es;
    }

    method CancelOrder(id: Uuid, faults: Faults, ghost s: State, ghost r: nat)
      returns (res: Result<Order, ServiceError>, ghost es: seq<Event>)
      requires repo.Valid() && r !in s.reqs && s.db == repo.Contents()
      modifies repo.Footprint()
      ensures repo.Valid()
      ensures var f := Met(faults);
        && (f.read ==> res == Err(Unavailable(ReadStage)))
        && (!f.read && id !in s.db ==> res == Err(OrderNotFound))
        && (!f.read && id in s.db && s.db[id].status != PendingPayment ==> res == Err(OrderAlreadyFinal))
        && (!f.read && Pending(s.db, id) ==>
              res == if f.save then Err(Unavailable(SaveStage)) else Ok(CancelledCopy(s.db[id])))
      ensures repo.Contents() == if res.Ok? then s.db[id := res.value] else s.db
      ensures RunsAlone(repo.Backend(), s, r, CancelCall(id), es, repo.Contents(), OutcomeOf(CancelCall(id), res))
    {
      hide Leads, Apply, Enabled;
      var q := new Running(r, CancelCall(id));
      ghost var t, e;
      es, t := Begin(repo.Backend(), s, r, CancelCall(id));
      e := ReadOrder(q, faults.read, t);
      es, t := Then(repo.Backend(), s, r, es, t, e);
      if q.phase.Saving? {
        e := SaveOrder(q, faults.save, t);
        es, t := Then(repo.Backend(), s, r, es, t, e);
      }
      return q.res.value, es;
    }

    method CreateOrder(input: CreateInput, drawn: Uuid, now: Time, faults: Faults, ghost s: State, ghost r: nat)
      returns (res: Result<Order, ServiceError>, ghost es: seq<Event>)
      requires repo.Valid() && r !in s.reqs && s.db == repo.Contents()
      requires drawn !in s.ids && drawn !in s.db
      modifies repo.Footprint()
      ensures repo.Valid()
      ensures var f, price := Met(faults), PriceOrder(text, inventory.parts, input);
        res == if f.remote != Fine then Err(Unavailable(InventoryStage))
               else if price.Err? then Err(CreateRefused(price.error))
               else if f.save then Err(Unavailable(SaveStage))
               else Ok(NewOrder(input, drawn, price.value, now))
      ensures repo.Contents() == if res.Ok? then s.db[drawn := res.value] else s.db
      ensures RunsAlone(repo.Backend(), s, r, CreateCall(input), es, repo.Contents(), OutcomeOf(CreateCall(input), res))
    {
      hide Leads, Apply, Enabled, PriceOrder;
      var q := new Running(r, CreateCall(input));
      ghost var t, e;
      es, t := Begin(repo.Backend(), s, r, CreateCall(input));
      e := BuildOrder(q, drawn, now, faults.remote, t);
      es, t := Then(repo.Backend(), s, r, es, t, e);
      if q.phase.Saving? {
        e := SaveOrder(q, faults.save, t);
        es, t := Then(repo.Backend(), s, r, es, t, e);
      }
      return q.res.value, es;
    }
  }

  lemma {:induction false} DrawsAtMost(b: Backend, s: State, e: Event, drawn: Uuid)
    requires Enabled(s, e)
    requires e.Build? ==> e.id == drawn
    requires e.Charge? || e.ChargeLost? ==> e.tx == drawn
    ensures Apply(b, s, e).ids.Keys <= s.ids.Keys + {drawn}
  {
  }

  /** What the environment must do for an open request to perform a given event. */
  predicate Possible(svc: Service, q: Request, e: Event) {
    && (e.Build? ==> q.call.CreateCall? && PriceOrder(svc.text, svc.inventory.parts, q.call.input) == Ok(e.total))
    && (e.Fail? && svc.repo.InMemory? ==> q.phase.Checked? || (q.phase.Started? && q.call.CreateCall?))
  }

  /** The pieces can perform every event of the step system, except that a new order has the
      price Inventory gives it and the map does not fail: an enabled event of an open request is
      asked for by some draw, instant and faults exactly when it is possible. */
  lemma {:induction false} AskedExactly(svc: Service, s: State, e: Event)
    requires Inv(s) && Enabled(s, e) && !e.Arrive?
    ensures (exists drawn, now, faults :: svc.Asked(e.r, s.reqs[e.r], drawn, now, faults) == e)
       <==> Possible(svc, s.reqs[e.r], e)
  {
    hide PriceOrder, StoreOk, IdOk;
    assert RequestOk(s, e.r);
    var q := s.reqs[e.r];
    if Possible(svc, q, e) {
      var drawn := if e.Build? then e.id else if e.Charge? || e.ChargeLost? then e.tx else 0;
      var now := if e.Build? then e.now else 0;
      var remote := if e.Fail? then NotDelivered else if e.ChargeLost? then AnswerLost else Fine;
      var faults := Faults(e.Fail?, remote, e.Fail?);
      assert svc.Asked(e.r, q, drawn, now, faults) == e;
    }
  }

  // ---- Any interleaving ----

  /** What happens next: a request arrives, or request `r` is resumed. */
  datatype Turn =
    | NewRequest(call: Call)
    | Continue(r: nat, drawn: Uuid, now: Time, faults: Faults)

  /** Draws of `uuid.New` never repeat. */
  ghost predicate DistinctDraws(turns: seq<Turn>) {
    forall i, j :: 0 <= i < j < |turns| && turns[i].Continue? && turns[j].Continue? ==> turns[i].drawn != turns[j].drawn
  }

  /** How many requests arrive. They are numbered in that order. */
  function Arrivals(turns: seq<Turn>): nat {
    if turns == [] then 0
    else Arrivals(turns[..|turns| - 1]) + if turns[|turns| - 1].NewRequest? then 1 else 0
  }

  predicate Open(s: State, r: nat) {
    r in s.reqs && !s.reqs[r].phase.Done?
  }

  /** The turns perform exactly the events `es`: an arrival is the arrival of the next request,
      resuming an open request performs the event it asks for, and resuming any other performs
      nothing. */
  ghost predicate Performs(svc: Service, turns: seq<Turn>, es: seq<Event>)
    decreases |turns|
  {
    && Valid(svc.repo.Backend(), es)
    && if turns == [] then es == []
       else
         var before, turn := turns[..|turns| - 1], turns[|turns| - 1];
         (turn.Continue? && Performs(svc, before, es) && !Open(Run(svc.repo.Backend(), es), turn.r))
         || (es != [] && Performs(svc, before, es[..|es| - 1])
             && PerformsLast(svc, before, turn, Run(svc.repo.Backend(), es[..|es| - 1]), es[|es| - 1]))
  }

  predicate PerformsLast(svc: Service, before: seq<Turn>, turn: Turn, s: State, e: Event) {
    match turn
    case NewRequest(call) => e == Arrive(Arrivals(before), call)
    case Continue(r, drawn, now, faults) => Open(s, r) && e == svc.Asked(r, s.reqs[r], drawn, now, faults)
  }

  /** The turns determine the run. */
  lemma {:induction false} OneRunPerTurns(svc: Service, turns: seq<Turn>, es: seq<Event>, es': seq<Event>)
    requires Performs(svc, turns, es) && Performs(svc, turns, es')
    ensures es == es'
    decreases |turns|
  {
    hide Valid, Run;
    if turns != [] {
      var b, before, turn := svc.repo.Backend(), turns[..|turns| - 1], turns[|turns| - 1];
      var xs := if turn.Continue? && Performs(svc, before, es) && !Open(Run(b, es), turn.r) then es else es[..|es| - 1];
      var xs' := if turn.Continue? && Performs(svc, before, es') && !Open(Run(b, es'), turn.r) then es' else es'[..|es'| - 1];
      OneRunPerTurns(svc, before, xs, xs');
    }
  }

  lemma {:induction false} PerformsIdle(svc: Service, turns: seq<Turn>, i: nat, es: seq<Event>)
    requires i < |turns| && turns[i].Continue? && Performs(svc, turns[..i], es)
    requires !Open(Run(svc.repo.Backend(), es), turns[i].r)
    ensures Performs(svc, turns[..i + 1], es) && Arrivals(turns[..i + 1]) == Arrivals(turns[..i])
  {
    hide Run;
    assert turns[..i + 1][..i] == turns[..i];
  }

  lemma {:induction false} PerformsNext(svc: Service, turns: seq<Turn>, i: nat, es: seq<Event>, e: Event)
    requires i < |turns| && Performs(svc, turns[..i], es)
    requires var s := Run(svc.repo.Backend(), es); Enabled(s, e) && PerformsLast(svc, turns[..i], turns[i], s, e)
    ensures Performs(svc, turns[..i + 1], es + [e]) && Valid(svc.repo.Backend(), es + [e])
    ensures Run(svc.repo.Backend(), es + [e]) == Apply(svc.repo.Backend(), Run(svc.repo.Backend(), es), e)
    ensures Arrivals(turns[..i + 1]) == Arrivals(turns[..i]) + if turns[i].NewRequest? then 1 else 0
  {
    hide PerformsLast, Enabled, Apply;
    RunSnoc(svc.repo.Backend(), INIT, es, e);
    assert turns[..i + 1][..i] == turns[..i] && (es + [e])[..|es|] == es;
  }

  /** The program matches the system: the repository has its store, and request object `k` is
      request `k`. */
  ghost predicate Matches(svc: Service, qs: seq<Running>, s: State)
    reads qs, svc.repo.Footprint()
  {
    && svc.repo.Valid() && svc.repo.Contents() == s.db
    && (forall k :: k in s.reqs <==> 0 <= k < |qs|)
    && (forall k :: 0 <= k < |qs| ==> qs[k].Valid() && qs[k].r == k && s.reqs[k] == qs[k].Abs())
    && (forall j, k :: 0 <= j < k < |qs| ==> qs[j] != qs[k])
  }

  method ResumeOne(svc: Service, qs: seq<Running>, r: nat, drawn: Uuid, now: Time, faults: Faults, ghost s: State)
    returns (ghost e: Event)
    requires svc.text.UuidsRoundTrip() && Matches(svc, qs, s) && Open(s, r) && drawn !in s.ids
    modifies qs[r], svc.repo.Footprint()
    ensures Enabled(s, e) && e == svc.Asked(r, s.reqs[r], drawn, now, faults)
    ensures Matches(svc, qs, Apply(svc.repo.Backend(), s, e))
    ensures Apply(svc.repo.Backend(), s, e).ids.Keys <= s.ids.Keys + {drawn}
  {
    hide Apply, Enabled;
    e := svc.Resume(qs[r], drawn, now, faults, s);
    OthersStay(svc.repo.Backend(), s, e);
  }

  method ArriveOne(svc: Service, qs: seq<Running>, call: Call, ghost s: State) returns (qs': seq<Running>)
    requires Matches(svc, qs, s)
    ensures |qs'| == |qs| + 1 && qs'[..|qs|] == qs && fresh(qs'[|qs|])
    ensures Enabled(s, Arrive(|qs|, call)) && Matches(svc, qs', Apply(svc.repo.Backend(), s, Arrive(|qs|, call)))
    ensures Apply(svc.repo.Backend(), s, Arrive(|qs|, call)).ids == s.ids
  {
    hide Apply, Enabled;
    var q := new Running(|qs|, call);
    ArriveStep(svc.repo.Backend(), s, |qs|, call);
    qs' := qs + [q];
  }

  /** Serving requests in any order of turns is a run: the turns perform the events `es` and
      no others, and these end with the store in the repository and every request object where
      the step system has that request. */
  method Interleave(svc: Service, turns: seq<Turn>) returns (qs: seq<Running>, ghost es: seq<Event>)
    requires svc.text.UuidsRoundTrip() && svc.repo.Contents() == map[] && DistinctDraws(turns)
    modifies svc.repo.Footprint()
    ensures Performs(svc, turns, es) && |qs| == Arrivals(turns)
    ensures Matches(svc, qs, Run(svc.repo.Backend(), es))
  {
    hide Apply, Enabled, Performs, Service.Asked, Valid, Run;
    qs, es := [], [];
    ghost var b := svc.repo.Backend();
    ghost var s := INIT;
    var i := 0;
    NothingPerformed(svc);
    while i < |turns|
      invariant 0 <= i <= |turns|
      invariant Performs(svc, turns[..i], es) && Valid(b, es) && Run(b, es) == s && |qs| == Arrivals(turns[..i])
      invariant Matches(svc, qs, s) && forall k :: 0 <= k < |qs| ==> fresh(qs[k])
      invariant forall x :: x in s.ids ==> exists k :: 0 <= k < i && turns[k].Continue? && turns[k].drawn == x
    {
      match turns[i] {
        case NewRequest(call) =>
          ghost var e := Arrive(|qs|, call);
          qs := ArriveOne(svc, qs, call, s);
          PerformsNext(svc, turns, i, es, e);
          es, s := es + [e], Apply(b, s, e);
        case Continue(r, drawn, now, faults) =>
          if r < |qs| && !qs[r].phase.Done? {
            ghost var e := ResumeOne(svc, qs, r, drawn, now, faults, s);
            PerformsNext(svc, turns, i, es, e);
            es, s := es + [e], Apply(b, s, e);
          } else {
            PerformsIdle(svc, turns, i, es);
          }
      }
      i := i + 1;
    }
    assert turns[..i] == turns;
  }

  lemma {:induction false} NothingPerformed(svc: Service)
    ensures Performs(svc, [], []) && Valid(svc.repo.Backend(), []) && Run(svc.repo.Backend(), []) == INIT
  {
  }

  lemma {:induction false} ArriveStep(b: Backend, s: State, r: nat, call: Call)
    requires r !in s.reqs
    ensures Enabled(s, Arrive(r, call))
    ensures Apply(b, s, Arrive(r, call)) == s.(reqs := s.reqs[r := Request(call, Started)])
  {
  }

  lemma {:induction false} OthersStay(b: Backend, s: State, e: Event)
    requires Enabled(s, e) && e.r in s.reqs
    ensures Apply(b, s, e).reqs.Keys == s.reqs.Keys
    ensures forall k :: k in s.reqs && k != e.r ==> Apply(b, s, e).reqs[k] == s.reqs[k]
  {
  }

  lemma {:induction false} DrawsNothing(b: Backend, s: State, r: nat, call: Call, e: Event)
    requires r !in s.reqs
    requires Enabled(s.(reqs := s.reqs[r := Request(call, Started)]), e)
    requires e == Read(r) || e == Fail(r)
    ensures Apply(b, s.(reqs := s.reqs[r := Request(call, Started)]), e).ids == s.ids
  {
  }
}
