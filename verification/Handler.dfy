/** The HTTP handlers: between the messages of the API and the order service. */
module Handler {
  import opened Domain
  import opened Codec
  import opened Messages
  import opened Http
  import opened OrderService
  import Inventory
  import Pricing
  import Protocol
  import Finality
  import Interleavings
  import Transparency

  // ---- Orders as messages ----

  function StatusText(status: OrderStatus): string {
    match status
    case PendingPayment => "PENDING_PAYMENT"
    case Paid => "PAID"
    case Cancelled => "CANCELLED"
  }

  /** `NewOptNil*` of a pointer that is not nil, and the zero value for one that is. */
  function NewOptNil<T>(o: Option<T>, zero: T): OptNil<T> {
    match o
    case Some(v) => OptNil(v, true, false)
    case None => OptNil(zero, false, false)
  }

  function DtoOf(o: Order): OrderDto {
    OrderDto(o.orderUuid, o.hull, o.engine, NewOptNil(o.shield, 0), NewOptNil(o.weapon, 0), o.totalPrice,
             NewOptNil(o.transaction, 0), NewOptNil(o.payMethod, ""), StatusText(o.status), o.createdAt)
  }

  function StatusOf(text: string): Option<OrderStatus> {
    if text == "PENDING_PAYMENT" then Some(PendingPayment)
    else if text == "PAID" then Some(Paid)
    else if text == "CANCELLED" then Some(Cancelled)
    else None
  }

  /** The order a message describes. */
  function OrderOf(d: OrderDto): Option<Order> {
    match StatusOf(d.status)
    case None => None
    case Some(status) =>
      Some(Order(d.orderUuid, d.hull, d.engine, d.shield.Get(), d.weapon.Get(), d.totalPrice,
                 d.transaction.Get(), d.payMethod.Get(), status, d.createdAt))
  }

  /** The message loses nothing, and its optional fields are canonical. */
  lemma {:induction false} DtoKeepsOrder(o: Order)
    ensures OrderOf(DtoOf(o)) == Some(o)
    ensures DtoOf(o).orderUuid == o.orderUuid && DtoOf(o).hull == o.hull && DtoOf(o).engine == o.engine
    ensures DtoOf(o).shield.Get() == o.shield && DtoOf(o).weapon.Get() == o.weapon && DtoOf(o).transaction.Get() == o.transaction
    ensures DtoOf(o).payMethod.Get() == o.payMethod && DtoOf(o).totalPrice == o.totalPrice && DtoOf(o).createdAt == o.createdAt
    ensures DtoOf(o).status == match o.status case PendingPayment => "PENDING_PAYMENT" case Paid => "PAID" case Cancelled => "CANCELLED"
    ensures NormalDto(DtoOf(o), o.createdAt) == DtoOf(o) && ValidStatus(DtoOf(o).status)
  {
    assert |"PAID"| != |"CANCELLED"| && |"PAID"| != |"PENDING_PAYMENT"| && |"CANCELLED"| != |"PENDING_PAYMENT"|;
  }

  method ToOrderDto(order: Order) returns (d: OrderDto)
    ensures OrderOf(d) == Some(order) && NormalDto(d, d.createdAt) == d
    ensures d.orderUuid == order.orderUuid && d.hull == order.hull && d.engine == order.engine
    ensures d.shield.Get() == order.shield && d.weapon.Get() == order.weapon && d.transaction.Get() == order.transaction
    ensures d.payMethod.Get() == order.payMethod && d.totalPrice == order.totalPrice && d.createdAt == order.createdAt
    ensures d.status == match order.status case PendingPayment => "PENDING_PAYMENT" case Paid => "PAID" case Cancelled => "CANCELLED"
    ensures d == DtoOf(order)
  {
    var shield := OptNil(0, false, false);
    if order.shield.Some? {
      shield := OptNil(order.shield.value, true, false);
    }
    var weapon := OptNil(0, false, false);
    if order.weapon.Some? {
      weapon := OptNil(order.weapon.value, true, false);
    }
    var transaction := OptNil(0, false, false);
    if order.transaction.Some? {
      transaction := OptNil(order.transaction.value, true, false);
    }
    var payMethod := OptNil("", false, false);
    if order.payMethod.Some? {
      payMethod := OptNil(order.payMethod.value, true, false);
    }
    d := OrderDto(order.orderUuid, order.hull, order.engine, shield, weapon, order.totalPrice,
                  transaction, payMethod, StatusText(order.status), order.createdAt);
    DtoKeepsOrder(order);
  }

  /** The message of an order arrives with the instant its text denotes, if the order's method,
      when it has one, is among the four; the client refuses it otherwise. */
  lemma {:induction false} DtoArrives(libs: Libs, o: Order)
    ensures Received(libs, GetOk(DtoOf(o))) ==
            match libs.text.parseTime(libs.text.printTime(o.createdAt))
            case None => Err(BadBody(BadField("created_at")))
            case Some(t) =>
              if o.payMethod.Some? && !ValidPaymentMethod(o.payMethod.value) then Err(InvalidBody(["payment_method"]))
              else Ok(GetOk(DtoOf(o.(createdAt := t))))
  {
    hide ValidPaymentMethod;
    DtoKeepsOrder(o);
    assert ["payment_method"] + [] == ["payment_method"];
  }

  /** What the caller of a get sees of an order with a valid method or none. */
  function Seen(libs: Libs, o: Order): Result<GetOrderRes, ClientError> {
    match libs.text.parseTime(libs.text.printTime(o.createdAt))
    case None => Err(BadBody(BadField("created_at")))
    case Some(t) => Ok(GetOk(DtoOf(o.(createdAt := t))))
  }

  function InputOf(q: CreateOrderRequest): CreateInput {
    CreateInput(q.hull, q.engine, q.shield.Get(), q.weapon.Get())
  }

  // ---- Service results as responses; `None` is an error return ----

  const ORDER_NOT_FOUND := ErrorBody(404, "order not found")
  const ORDER_FINAL := ErrorBody(409, "order is already paid or cancelled")

  function GetAnswer(res: Result<Order, ServiceError>): Option<GetOrderRes> {
    match res
    case Ok(order) => Some(GetOk(DtoOf(order)))
    case Err(OrderNotFound) => Some(GetNotFound(ORDER_NOT_FOUND))
    case Err(_) => None
  }

  function CreateAnswer(res: Result<Order, ServiceError>): Option<CreateOrderRes> {
    match res
    case Ok(order) => Some(CreateOk(CreateOrderResponse(order.orderUuid, order.totalPrice)))
    case Err(CreateRefused(ComponentNotFound(m))) =>
      Some(CreateNotFound(ErrorBody(404, "component not found: " + m)))
    case Err(CreateRefused(ComponentOutOfStock(u))) =>
      Some(CreateConflict(ErrorBody(409, "component out of stock: " + u)))
    case Err(_) => None
  }

  function PayAnswer(res: Result<Order, ServiceError>): Option<PayOrderRes>
    requires res.Ok? ==> res.value.transaction.Some?
  {
    match res
    case Ok(order) => Some(PayOk(PayOrderResponse(order.transaction.value)))
    case Err(OrderNotFound) => Some(PayNotFound(ORDER_NOT_FOUND))
    case Err(OrderAlreadyFinal) => Some(PayConflict(ORDER_FINAL))
    case Err(_) => None
  }

  function CancelAnswer(res: Result<Order, ServiceError>): Option<CancelOrderRes> {
    match res
    case Ok(_) => Some(CancelOk(CancelOrderResponse))
    case Err(OrderNotFound) => Some(CancelNotFound(ORDER_NOT_FOUND))
    case Err(OrderAlreadyFinal) => Some(CancelConflict(ORDER_FINAL))
    case Err(_) => None
  }

  // ---- What the handlers answer over a store ----

  /** The identifiers, the instant and the faults one call meets. */
  datatype Env = Env(drawn: Uuid, now: Time, faults: Faults)

  function GetAt(db: Protocol.Store, env: Env, id: Uuid): Option<GetOrderRes> {
    if env.faults.read then None
    else if id in db then Some(GetOk(DtoOf(db[id]))) else Some(GetNotFound(ORDER_NOT_FOUND))
  }

  function PayAt(db: Protocol.Store, env: Env, q: PayOrderRequest, id: Uuid): Option<PayOrderRes> {
    if env.faults.read then None
    else if id !in db then Some(PayNotFound(ORDER_NOT_FOUND))
    else if db[id].status != PendingPayment then Some(PayConflict(ORDER_FINAL))
    else if env.faults.remote == Fine && !env.faults.save && ValidPaymentMethod(q.payMethod)
    then Some(PayOk(PayOrderResponse(env.drawn)))
    else None
  }

  function CancelAt(db: Protocol.Store, env: Env, id: Uuid): Option<CancelOrderRes> {
    if env.faults.read then None
    else if id !in db then Some(CancelNotFound(ORDER_NOT_FOUND))
    else if db[id].status != PendingPayment then Some(CancelConflict(ORDER_FINAL))
    else if env.faults.save then None else Some(CancelOk(CancelOrderResponse))
  }

  function CreateAt(text: TextCodec, parts: Inventory.Catalogue, env: Env, q: CreateOrderRequest): Option<CreateOrderRes> {
    if env.faults.remote != Fine then None
    else match Pricing.PriceOrder(text, parts, InputOf(q))
         case Err(e) => CreateAnswer(Err(CreateRefused(e)))
         case Ok(total) =>
           if env.faults.save then None else Some(CreateOk(CreateOrderResponse(env.drawn, total)))
  }

  class Handler {
    const svc: Service

    constructor (svc: Service)
      ensures this.svc == svc
    {
      this.svc := svc;
    }

    /** The in-memory repository meets no faults of its own. */
    function Met(env: Env): Env {
      env.(faults := svc.Met(env.faults))
    }

    method GetOrder(id: Uuid, env: Env, ghost s: Protocol.State, ghost r: nat) returns (res: Option<GetOrderRes>)
      requires svc.repo.Valid() && r !in s.reqs && s.db == svc.repo.Contents()
      ensures res == GetAt(svc.repo.Contents(), Met(env), id)
      ensures var f, db := svc.Met(env.faults), svc.repo.Contents();
        if f.read then res == None
        else if id !in db then res == Some(GetNotFound(ErrorBody(404, "order not found")))
        else res.Some? && res.value.GetOk? && OrderOf(res.value.ok) == Some(db[id])
    {
      var order, es := svc.GetOrder(id, env.faults, s, r);
      if order.Err? {
        return GetAnswer(Err(order.error));
      }
      var d := ToOrderDto(order.value);
      return Some(GetOk(d));
    }

    method CreateOrder(q: CreateOrderRequest, env: Env, ghost s: Protocol.State, ghost r: nat)
      returns (res: Option<CreateOrderRes>)
      requires svc.repo.Valid() && r !in s.reqs && s.db == svc.repo.Contents()
      requires env.drawn !in s.ids && env.drawn !in s.db
      modifies svc.repo.Footprint()
      ensures svc.repo.Valid()
      ensures res == CreateAt(svc.text, svc.inventory.parts, Met(env), q)
      ensures svc.repo.Contents() ==
                if res.Some? && res.value.CreateOk?
                then old(svc.repo.Contents())[env.drawn :=
                       Order(env.drawn, q.hull, q.engine, q.shield.Get(), q.weapon.Get(), res.value.ok.totalPrice,
                             None, None, PendingPayment, env.now)]
                else old(svc.repo.Contents())
    {
      hide RunsAlone, Pricing.PriceOrder;
      var input := CreateInput(q.hull, q.engine, None, None);
      var shield := q.shield.Get();
      if shield.Some? {
        input := input.(shield := shield);
      }
      var weapon := q.weapon.Get();
      if weapon.Some? {
        input := input.(weapon := weapon);
      }
      assert input == InputOf(q);
      var order, es := svc.CreateOrder(input, env.drawn, env.now, env.faults, s, r);
      return CreateAnswer(order);
    }

    method PayOrder(q: PayOrderRequest, id: Uuid, env: Env, ghost s: Protocol.State, ghost r: nat)
      returns (res: Option<PayOrderRes>)
      requires svc.text.UuidsRoundTrip() && svc.repo.Valid()
      requires r !in s.reqs && s.db == svc.repo.Contents() && env.drawn !in s.ids
      modifies svc.repo.Footprint()
      ensures svc.repo.Valid()
      ensures res == PayAt(old(svc.repo.Contents()), Met(env), q, id)
      ensures var f, db := svc.Met(env.faults), old(svc.repo.Contents());
        if f.read then res == None && svc.repo.Contents() == db
        else if id !in db
        then res == Some(PayNotFound(ErrorBody(404, "order not found"))) && svc.repo.Contents() == db
        else if db[id].status != PendingPayment
        then res == Some(PayConflict(ErrorBody(409, "order is already paid or cancelled"))) && svc.repo.Contents() == db
        else if f.remote == Fine && !f.save && ValidPaymentMethod(q.payMethod)
        then && res == Some(PayOk(PayOrderResponse(env.drawn)))
             && svc.repo.Contents() ==
                db[id := db[id].(status := Paid, transaction := Some(env.drawn), payMethod := Some(q.payMethod))]
        else res == None && svc.repo.Contents() == db
    {
      hide RunsAlone, ValidPaymentMethod;
      var order, es := svc.PayOrder(id, q.payMethod, env.drawn, env.faults, s, r);
      return PayAnswer(order);
    }

    method CancelOrder(id: Uuid, env: Env, ghost s: Protocol.State, ghost r: nat)
      returns (res: Option<CancelOrderRes>)
      requires svc.repo.Valid() && r !in s.reqs && s.db == svc.repo.Contents()
      modifies svc.repo.Footprint()
      ensures svc.repo.Valid()
      ensures res == CancelAt(old(svc.repo.Contents()), Met(env), id)
      ensures var f, db := svc.Met(env.faults), old(svc.repo.Contents());
        if f.read then res == None && svc.repo.Contents() == db
        else if id !in db
        then res == Some(CancelNotFound(ErrorBody(404, "order not found"))) && svc.repo.Contents() == db
        else if db[id].status != PendingPayment
        then res == Some(CancelConflict(ErrorBody(409, "order is already paid or cancelled"))) && svc.repo.Contents() == db
        else if !f.save
        then && res == Some(CancelOk(CancelOrderResponse))
             && svc.repo.Contents() == db[id := db[id].(status := Cancelled)]
        else res == None && svc.repo.Contents() == db
    {
      hide RunsAlone;
      var order, es := svc.CancelOrder(id, env.faults, s, r);
      return CancelAnswer(order);
    }
  }

  // ---- End to end ----

  function HandlersAt(text: TextCodec, parts: Inventory.Catalogue, db: Protocol.Store, env: Env): Transparency.Handlers {
    Transparency.Handlers(q => CreateAt(text, parts, env, q), id => GetAt(db, env, id),
                          (q, id) => PayAt(db, env, q, id), id => CancelAt(db, env, id))
  }

  /** In every reachable state, overlap included, reading any identifier through the wire tells
      the caller what is stored: the stored order, with the instant its creation time's text
      denotes, or not found. */
  lemma {:induction false} GetOverTheWire(b: Protocol.Backend, es: seq<Protocol.Event>, libs: Libs,
                                          serverPath: string, prefix: string, parts: Inventory.Catalogue, env: Env, id: Uuid)
    requires Protocol.Valid(b, es)
    requires libs.Sound() && Transparency.TrimSlashes(serverPath) == prefix
    ensures var db := Protocol.Run(b, es).db;
            Transparency.CallGet(libs, serverPath, prefix, HandlersAt(libs.text, parts, db, env), id)
            == if env.faults.read then Err(UndeclaredReply)
               else if id in db then Seen(libs, db[id]) else Ok(GetNotFound(ErrorBody(404, "order not found")))
  {
    hide Transparency.CallGet, ValidPaymentMethod, Protocol.Run, Protocol.Valid, Received;
    var db := Protocol.Run(b, es).db;
    if id in db {
      Interleavings.StoredOrdersCoherent(b, es, id);
    }
    GetSees(libs, serverPath, prefix, parts, db, env, id);
  }

  lemma {:induction false} GetSees(libs: Libs, serverPath: string, prefix: string, parts: Inventory.Catalogue,
                                   db: Protocol.Store, env: Env, id: Uuid)
    requires libs.Sound() && Transparency.TrimSlashes(serverPath) == prefix
    requires id in db && db[id].payMethod.Some? ==> ValidPaymentMethod(db[id].payMethod.value)
    ensures Transparency.CallGet(libs, serverPath, prefix, HandlersAt(libs.text, parts, db, env), id)
            == if env.faults.read then Err(UndeclaredReply)
               else if id in db then Seen(libs, db[id]) else Ok(GetNotFound(ErrorBody(404, "order not found")))
  {
    hide Transparency.CallGet, ValidPaymentMethod;
    Transparency.GetTransparent(libs, serverPath, prefix, HandlersAt(libs.text, parts, db, env), id);
    if id in db {
      DtoArrives(libs, db[id]);
    }
  }

  /** Pay through the wire, in every case. An undeclared reply is an error page: the method is
      not one of the four, or something failed. */
  lemma {:induction false} PayOverTheWire(libs: Libs, serverPath: string, prefix: string, parts: Inventory.Catalogue,
                                          db: Protocol.Store, env: Env, q: PayOrderRequest, id: Uuid)
    requires libs.Sound() && Transparency.TrimSlashes(serverPath) == prefix
    ensures Transparency.CallPay(libs, serverPath, prefix, HandlersAt(libs.text, parts, db, env), q, id) ==
            if q.payMethod != "CARD" && q.payMethod != "SBP" && q.payMethod != "CREDIT_CARD" && q.payMethod != "INVESTOR_MONEY"
            then Err(UndeclaredReply)
            else if env.faults.read then Err(UndeclaredReply)
            else if id !in db then Ok(PayNotFound(ErrorBody(404, "order not found")))
            else if db[id].status != PendingPayment
            then Ok(PayConflict(ErrorBody(409, "order is already paid or cancelled")))
            else if env.faults.remote == Fine && !env.faults.save then Ok(PayOk(PayOrderResponse(env.drawn)))
            else Err(UndeclaredReply)
  {
    hide Transparency.Serve, Transparency.PayCall;
    var h := HandlersAt(libs.text, parts, db, env);
    Transparency.PayTransparent(libs, serverPath, prefix, h, q, id);
    if !ValidPaymentMethod(q.payMethod) {
      assert Transparency.CallPay(libs, serverPath, prefix, h, q, id) == Err(UndeclaredReply);
    }
  }

  /** Cancel through the wire, in every case. */
  lemma {:induction false} CancelOverTheWire(libs: Libs, serverPath: string, prefix: string, parts: Inventory.Catalogue,
                                             db: Protocol.Store, env: Env, id: Uuid)
    requires libs.Sound() && Transparency.TrimSlashes(serverPath) == prefix
    ensures Transparency.CallCancel(libs, serverPath, prefix, HandlersAt(libs.text, parts, db, env), id) ==
            if env.faults.read then Err(UndeclaredReply)
            else if id !in db then Ok(CancelNotFound(ErrorBody(404, "order not found")))
            else if db[id].status != PendingPayment
            then Ok(CancelConflict(ErrorBody(409, "order is already paid or cancelled")))
            else if !env.faults.save then Ok(CancelOk(CancelOrderResponse))
            else Err(UndeclaredReply)
  {
    hide Transparency.CallCancel;
    Transparency.CancelTransparent(libs, serverPath, prefix, HandlersAt(libs.text, parts, db, env), id);
  }

  /** Over a store in which the order is final, every caller is told so. */
  lemma {:induction false} FinalIsRefused(libs: Libs, serverPath: string, prefix: string, parts: Inventory.Catalogue,
                                          db: Protocol.Store, env: Env, q: PayOrderRequest, id: Uuid)
    requires libs.Sound() && Transparency.TrimSlashes(serverPath) == prefix && !env.faults.read
    requires id in db && db[id].status != PendingPayment && ValidPaymentMethod(q.payMethod)
    ensures var h := HandlersAt(libs.text, parts, db, env);
      && Transparency.CallPay(libs, serverPath, prefix, h, q, id)
         == Ok(PayConflict(ErrorBody(409, "order is already paid or cancelled")))
      && Transparency.CallCancel(libs, serverPath, prefix, h, id)
         == Ok(CancelConflict(ErrorBody(409, "order is already paid or cancelled")))
  {
    hide Transparency.CallPay, Transparency.CallCancel, HandlersAt;
    PayOverTheWire(libs, serverPath, prefix, parts, db, env, q, id);
    CancelOverTheWire(libs, serverPath, prefix, parts, db, env, id);
  }

  /** A valid payment of a pending order is accepted, when nothing fails. Over the store that
      the handler then leaves, a get through the wire shows the order PAID, with the transaction
      of the reply and the method that was sent, and otherwise as it was, and a pay or cancel is
      refused. */
  lemma {:induction false} PaidIsVisible(libs: Libs, serverPath: string, prefix: string, parts: Inventory.Catalogue,
                                         db: Protocol.Store, env: Env, env': Env, q: PayOrderRequest, q': PayOrderRequest, id: Uuid)
    requires libs.Sound() && Transparency.TrimSlashes(serverPath) == prefix
    requires ValidPaymentMethod(q.payMethod) && ValidPaymentMethod(q'.payMethod)
    requires !env.faults.read && env.faults.remote == Fine && !env.faults.save && !env'.faults.read
    requires id in db && db[id].status == PendingPayment
    ensures var h := HandlersAt(libs.text, parts, db, env);
      var paid := db[id].(status := Paid, transaction := Some(env.drawn), payMethod := Some(q.payMethod));
      var h' := HandlersAt(libs.text, parts, db[id := paid], env');
      && Transparency.CallPay(libs, serverPath, prefix, h, q, id) == Ok(PayOk(PayOrderResponse(env.drawn)))
      && Transparency.CallGet(libs, serverPath, prefix, h', id) == Seen(libs, paid)
      && Transparency.CallPay(libs, serverPath, prefix, h', q', id)
         == Ok(PayConflict(ErrorBody(409, "order is already paid or cancelled")))
      && Transparency.CallCancel(libs, serverPath, prefix, h', id)
         == Ok(CancelConflict(ErrorBody(409, "order is already paid or cancelled")))
  {
    hide Transparency.CallGet, Transparency.CallPay, Transparency.CallCancel, HandlersAt, Seen;
    PayOverTheWire(libs, serverPath, prefix, parts, db, env, q, id);
    var paid := db[id].(status := Paid, transaction := Some(env.drawn), payMethod := Some(q.payMethod));
    GetSees(libs, serverPath, prefix, parts, db[id := paid], env', id);
    FinalIsRefused(libs, serverPath, prefix, parts, db[id := paid], env', q', id);
  }

  /** A cancel of a pending order is accepted, when nothing fails. Over the store that the
      handler then leaves, a get through the wire shows the order CANCELLED and otherwise as it
      was, and a pay or cancel is refused. */
  lemma {:induction false} CancelledIsVisible(libs: Libs, serverPath: string, prefix: string, parts: Inventory.Catalogue,
                                              db: Protocol.Store, env: Env, env': Env, q': PayOrderRequest, id: Uuid)
    requires libs.Sound() && Transparency.TrimSlashes(serverPath) == prefix && ValidPaymentMethod(q'.payMethod)
    requires !env.faults.read && !env.faults.save && !env'.faults.read
    requires id in db && db[id].status == PendingPayment
    requires db[id].payMethod.Some? ==> ValidPaymentMethod(db[id].payMethod.value)
    ensures var h := HandlersAt(libs.text, parts, db, env);
      var cancelled := db[id].(status := Cancelled);
      var h' := HandlersAt(libs.text, parts, db[id := cancelled], env');
      && Transparency.CallCancel(libs, serverPath, prefix, h, id) == Ok(CancelOk(CancelOrderResponse))
      && Transparency.CallGet(libs, serverPath, prefix, h', id) == Seen(libs, cancelled)
      && Transparency.CallPay(libs, serverPath, prefix, h', q', id)
         == Ok(PayConflict(ErrorBody(409, "order is already paid or cancelled")))
      && Transparency.CallCancel(libs, serverPath, prefix, h', id)
         == Ok(CancelConflict(ErrorBody(409, "order is already paid or cancelled")))
  {
    hide Transparency.CallGet, Transparency.CallPay, Transparency.CallCancel, HandlersAt, Seen, ValidPaymentMethod;
    CancelOverTheWire(libs, serverPath, prefix, parts, db, env, id);
    var cancelled := db[id].(status := Cancelled);
    GetSees(libs, serverPath, prefix, parts, db[id := cancelled], env', id);
    FinalIsRefused(libs, serverPath, prefix, parts, db[id := cancelled], env', q', id);
  }

  /** And so it stays: in a run without a stale save, from the answer on, whatever else is
      going on, every get through the wire shows the paid record and every pay or cancel of the
      order is refused. */
  lemma {:induction false} PaidStaysVisible(b: Protocol.Backend, es: seq<Protocol.Event>, i: nat, j: nat, r: nat, o: Order,
                                            libs: Libs, serverPath: string, prefix: string, parts: Inventory.Catalogue,
                                            env: Env, q: PayOrderRequest)
    requires Protocol.Valid(b, es) && Finality.NoStaleSave(b, es) && i <= j <= |es|
    requires Protocol.Valid(b, es[..i]) && r in Protocol.Run(b, es[..i]).reqs
    requires Protocol.Run(b, es[..i]).reqs[r].phase == Protocol.Done(Protocol.PaidOk(o))
    requires libs.Sound() && Transparency.TrimSlashes(serverPath) == prefix && !env.faults.read
    requires ValidPaymentMethod(q.payMethod)
    ensures Protocol.Valid(b, es[..j]) && o.status == Paid && o.transaction.Some?
    ensures var h := HandlersAt(libs.text, parts, Protocol.Run(b, es[..j]).db, env);
      && Transparency.CallGet(libs, serverPath, prefix, h, o.orderUuid) == Seen(libs, o)
      && Transparency.CallPay(libs, serverPath, prefix, h, q, o.orderUuid)
         == Ok(PayConflict(ErrorBody(409, "order is already paid or cancelled")))
      && Transparency.CallCancel(libs, serverPath, prefix, h, o.orderUuid)
         == Ok(CancelConflict(ErrorBody(409, "order is already paid or cancelled")))
  {
    hide Transparency.CallGet, Transparency.CallPay, Transparency.CallCancel, ValidPaymentMethod, Seen;
    PaidStaysStored(b, es, i, j, r, o);
    var db := Protocol.Run(b, es[..j]).db;
    GetSees(libs, serverPath, prefix, parts, db, env, o.orderUuid);
    FinalIsRefused(libs, serverPath, prefix, parts, db, env, q, o.orderUuid);
  }

  lemma {:induction false} PaidStaysStored(b: Protocol.Backend, es: seq<Protocol.Event>, i: nat, j: nat, r: nat, o: Order)
    requires Protocol.Valid(b, es) && Finality.NoStaleSave(b, es) && i <= j <= |es|
    requires Protocol.Valid(b, es[..i]) && r in Protocol.Run(b, es[..i]).reqs
    requires Protocol.Run(b, es[..i]).reqs[r].phase == Protocol.Done(Protocol.PaidOk(o))
    ensures Protocol.Valid(b, es[..j])
    ensures o.status == Paid && o.transaction.Some? && o.payMethod.Some? && ValidPaymentMethod(o.payMethod.value)
    ensures var db := Protocol.Run(b, es[..j]).db; o.orderUuid in db && db[o.orderUuid] == o
  {
    hide ValidPaymentMethod, Protocol.Run, Protocol.Valid;
    Interleavings.RunEvolves(b, es, i, j);
    Finality.NoStaleSavePrefix(b, es, j);
    Finality.AnswerStoredExactly(b, es[..j]);
    Protocol.RunKeepsInv(b, es[..j]);
    var s := Protocol.Run(b, es[..j]);
    assert Protocol.RequestOk(s, r);
    assert Finality.Won(s, r, o);
  }

  /** Create through the wire, in every case, component by component. A missing component is a
      404 that names the first one, in the order hull, engine, shield, weapon, even if another has
      no stock; otherwise the first one without stock is named in a 409; otherwise the order is
      accepted at the sum of the prices, in 64 bits. */
  lemma {:induction false} CreateOverTheWire(libs: Libs, serverPath: string, prefix: string, parts: Inventory.Catalogue,
                                             db: Protocol.Store, env: Env, q: CreateOrderRequest)
    requires libs.Sound() && Transparency.TrimSlashes(serverPath) == prefix
    ensures var got := Transparency.CallCreate(libs, serverPath, prefix, HandlersAt(libs.text, parts, db, env), q);
      var shield, weapon := q.shield.Get(), q.weapon.Get();
      var missing := "component not found: part not found: ";
      var noStock := "component out of stock: ";
      if env.faults.remote != Fine then got == Err(UndeclaredReply)
      else if q.hull !in parts then got == Ok(CreateNotFound(ErrorBody(404, missing + libs.text.printUuid(q.hull))))
      else if q.engine !in parts then got == Ok(CreateNotFound(ErrorBody(404, missing + libs.text.printUuid(q.engine))))
      else if shield.Some? && shield.value !in parts
      then got == Ok(CreateNotFound(ErrorBody(404, missing + libs.text.printUuid(shield.value))))
      else if weapon.Some? && weapon.value !in parts
      then got == Ok(CreateNotFound(ErrorBody(404, missing + libs.text.printUuid(weapon.value))))
      else if parts[q.hull].stock <= 0 then got == Ok(CreateConflict(ErrorBody(409, noStock + parts[q.hull].uuid)))
      else if parts[q.engine].stock <= 0 then got == Ok(CreateConflict(ErrorBody(409, noStock + parts[q.engine].uuid)))
      else if shield.Some? && parts[shield.value].stock <= 0
      then got == Ok(CreateConflict(ErrorBody(409, noStock + parts[shield.value].uuid)))
      else if weapon.Some? && parts[weapon.value].stock <= 0
      then got == Ok(CreateConflict(ErrorBody(409, noStock + parts[weapon.value].uuid)))
      else if env.faults.save then got == Err(UndeclaredReply)
      else
        && got.Ok? && got.value.CreateOk? && got.value.ok.orderUuid == env.drawn
        && var sum := parts[q.hull].price as int + parts[q.engine].price as int
                      + (if shield.Some? then parts[shield.value].price as int else 0)
                      + (if weapon.Some? then parts[weapon.value].price as int else 0);
           (got.value.ok.totalPrice as int - sum) % 0x1_0000_0000_0000_0000 == 0
  {
    hide Transparency.CallCreate, Pricing.PriceOrder;
    Transparency.CreateTransparent(libs, serverPath, prefix, HandlersAt(libs.text, parts, db, env), q);
    Pricing.ComponentsExactly(libs.text, parts, q.hull, q.engine, q.shield.Get(), q.weapon.Get());
    var missing := "component not found: " + "part not found: ";
    assert missing == "component not found: part not found: ";
    assert forall u :: "component not found: " + ("part not found: " + u) == missing + u;
  }

  /** What was created can be read back through the wire, as it was requested. */
  lemma {:induction false} CreatedIsVisible(libs: Libs, serverPath: string, prefix: string, parts: Inventory.Catalogue,
                                            db: Protocol.Store, env: Env, env': Env, q: CreateOrderRequest, r: CreateOrderResponse)
    requires libs.Sound() && Transparency.TrimSlashes(serverPath) == prefix && !env'.faults.read
    ensures var order := Order(env.drawn, q.hull, q.engine, q.shield.Get(), q.weapon.Get(), r.totalPrice,
                               None, None, PendingPayment, env.now);
      Transparency.CallCreate(libs, serverPath, prefix, HandlersAt(libs.text, parts, db, env), q) == Ok(CreateOk(r)) ==>
        && r.orderUuid == env.drawn
        && Transparency.CallGet(libs, serverPath, prefix, HandlersAt(libs.text, parts, db[env.drawn := order], env'), r.orderUuid)
           == Seen(libs, order)
  {
    hide Transparency.CallCreate, Transparency.CallGet, Pricing.PriceOrder, Seen;
    Transparency.CreateTransparent(libs, serverPath, prefix, HandlersAt(libs.text, parts, db, env), q);
    var order := Order(env.drawn, q.hull, q.engine, q.shield.Get(), q.weapon.Get(), r.totalPrice,
                       None, None, PendingPayment, env.now);
    GetSees(libs, serverPath, prefix, parts, db[env.drawn := order], env', env.drawn);
  }
}
