/** One call over HTTP: the generated client on one side, the generated server on the
    other, and between them a method, a path, a media type and a JSON body. */
module Http {
  import opened Domain
  import opened Json
  import opened Codec
  import opened Messages
  import opened Router

  /** The library functions a call goes through. */
  datatype Libs = Libs(text: TextCodec, mediaType: string -> Option<string>) {
    ghost predicate Sound() {
      && text.UuidsRoundTrip()
      && mediaType(JSON) == Some(JSON)
      && mediaType(JSON_UTF8) == Some(JSON)
    }
  }

  const JSON := "application/json"
  const JSON_UTF8 := "application/json; charset=utf-8"

  datatype Request = Request(verb: string, path: string, contentType: string, body: Option<Json>)

  datatype Response = Response(status: int, contentType: string, body: Json)

  // ---- Response variants ----

  datatype CreateOrderRes =
    | CreateOk(ok: CreateOrderResponse) | CreateBadRequest(e: ErrorBody) | CreateNotFound(e: ErrorBody)
    | CreateConflict(e: ErrorBody) | CreateServerError(e: ErrorBody)

  datatype GetOrderRes =
    | GetOk(ok: OrderDto) | GetBadRequest(e: ErrorBody) | GetNotFound(e: ErrorBody) | GetServerError(e: ErrorBody)

  datatype PayOrderRes =
    | PayOk(ok: PayOrderResponse) | PayBadRequest(e: ErrorBody) | PayNotFound(e: ErrorBody)
    | PayConflict(e: ErrorBody) | PayServerError(e: ErrorBody)

  datatype CancelOrderRes =
    | CancelOk(ok: CancelOrderResponse) | CancelBadRequest(e: ErrorBody) | CancelNotFound(e: ErrorBody)
    | CancelConflict(e: ErrorBody) | CancelServerError(e: ErrorBody)

  datatype ClientError =
    | BadMediaType
    | InvalidContentType(mediaType: string)
    | BadBody(reason: DecodeError)
    | InvalidBody(failures: seq<string>)
    | UnexpectedStatus(status: int)
    | UndeclaredReply

  // ---- Encoding a response: variant to status code ----

  function Write(libs: Libs, status: int, schema: Schema, vals: seq<Val>): Response
    requires |vals| == |schema|
  {
    Response(status, JSON_UTF8, ToJson(libs.text, schema, vals))
  }

  function WriteError(libs: Libs, status: int, e: ErrorBody): Response {
    Write(libs, status, ERROR_BODY, ErrorVals(e))
  }

  function EncodeCreate(libs: Libs, res: CreateOrderRes): Response {
    match res
    case CreateOk(r) => Write(libs, 201, CREATE_RESPONSE, CreateResponseVals(r))
    case CreateBadRequest(e) => WriteError(libs, 400, e)
    case CreateNotFound(e) => WriteError(libs, 404, e)
    case CreateConflict(e) => WriteError(libs, 409, e)
    case CreateServerError(e) => WriteError(libs, 500, e)
  }

  function EncodeGet(libs: Libs, res: GetOrderRes): Response {
    match res
    case GetOk(d) => Write(libs, 200, ORDER_DTO, OrderDtoVals(d))
    case GetBadRequest(e) => WriteError(libs, 400, e)
    case GetNotFound(e) => WriteError(libs, 404, e)
    case GetServerError(e) => WriteError(libs, 500, e)
  }

  function EncodePay(libs: Libs, res: PayOrderRes): Response {
    match res
    case PayOk(r) => Write(libs, 200, PAY_RESPONSE, PayResponseVals(r))
    case PayBadRequest(e) => WriteError(libs, 400, e)
    case PayNotFound(e) => WriteError(libs, 404, e)
    case PayConflict(e) => WriteError(libs, 409, e)
    case PayServerError(e) => WriteError(libs, 500, e)
  }

  function EncodeCancel(libs: Libs, res: CancelOrderRes): Response {
    match res
    case CancelOk(_) => Write(libs, 200, CANCEL_RESPONSE, [])
    case CancelBadRequest(e) => WriteError(libs, 400, e)
    case CancelNotFound(e) => WriteError(libs, 404, e)
    case CancelConflict(e) => WriteError(libs, 409, e)
    case CancelServerError(e) => WriteError(libs, 500, e)
  }

  // ---- Decoding a response: status code to variant ----

  function ReadBody(libs: Libs, contentType: string, body: Json, schema: Schema): Result<seq<Val>, ClientError> {
    match libs.mediaType(contentType)
    case None => Err(BadMediaType)
    case Some(ct) =>
      if ct != JSON then Err(InvalidContentType(ct))
      else match FromJson(libs.text, schema, body)
           case Err(e) => Err(BadBody(e))
           case Ok(vs) => DecodedFits(libs.text, schema, body); Ok(vs)
  }

  function ReadError(libs: Libs, r: Response): Result<ErrorBody, ClientError> {
    match ReadBody(libs, r.contentType, r.body, ERROR_BODY)
    case Err(e) => Err(e)
    case Ok(vs) => DecodedFits(libs.text, ERROR_BODY, r.body); Ok(ErrorOf(vs))
  }

  function Map<A, B>(r: Result<A, ClientError>, f: A -> B): Result<B, ClientError> {
    match r
    case Err(e) => Err(e)
    case Ok(a) => Ok(f(a))
  }

  function DecodeCreate(libs: Libs, r: Response): Result<CreateOrderRes, ClientError> {
    if r.status == 201 then
      match ReadBody(libs, r.contentType, r.body, CREATE_RESPONSE)
      case Err(e) => Err(e)
      case Ok(vs) => DecodedFits(libs.text, CREATE_RESPONSE, r.body); Ok(CreateOk(CreateResponseOf(vs)))
    else if r.status == 400 then Map(ReadError(libs, r), e => CreateBadRequest(e))
    else if r.status == 404 then Map(ReadError(libs, r), e => CreateNotFound(e))
    else if r.status == 409 then Map(ReadError(libs, r), e => CreateConflict(e))
    else if r.status == 500 then Map(ReadError(libs, r), e => CreateServerError(e))
    else Err(UnexpectedStatus(r.status))
  }

  /** Only this decoder validates the body. */
  function DecodeGet(libs: Libs, r: Response): Result<GetOrderRes, ClientError> {
    if r.status == 200 then
      match ReadBody(libs, r.contentType, r.body, ORDER_DTO)
      case Err(e) => Err(e)
      case Ok(vs) =>
        DecodedFits(libs.text, ORDER_DTO, r.body);
        var d := OrderDtoOf(vs);
        if OrderDtoFailures(d) == [] then Ok(GetOk(d)) else Err(InvalidBody(OrderDtoFailures(d)))
    else if r.status == 400 then Map(ReadError(libs, r), e => GetBadRequest(e))
    else if r.status == 404 then Map(ReadError(libs, r), e => GetNotFound(e))
    else if r.status == 500 then Map(ReadError(libs, r), e => GetServerError(e))
    else Err(UnexpectedStatus(r.status))
  }

  function DecodePay(libs: Libs, r: Response): Result<PayOrderRes, ClientError> {
    if r.status == 200 then
      match ReadBody(libs, r.contentType, r.body, PAY_RESPONSE)
      case Err(e) => Err(e)
      case Ok(vs) => DecodedFits(libs.text, PAY_RESPONSE, r.body); Ok(PayOk(PayResponseOf(vs)))
    else if r.status == 400 then Map(ReadError(libs, r), e => PayBadRequest(e))
    else if r.status == 404 then Map(ReadError(libs, r), e => PayNotFound(e))
    else if r.status == 409 then Map(ReadError(libs, r), e => PayConflict(e))
    else if r.status == 500 then Map(ReadError(libs, r), e => PayServerError(e))
    else Err(UnexpectedStatus(r.status))
  }

  function DecodeCancel(libs: Libs, r: Response): Result<CancelOrderRes, ClientError> {
    if r.status == 200 then Map(ReadBody(libs, r.contentType, r.body, CANCEL_RESPONSE), _ => CancelOk(CancelOrderResponse))
    else if r.status == 400 then Map(ReadError(libs, r), e => CancelBadRequest(e))
    else if r.status == 404 then Map(ReadError(libs, r), e => CancelNotFound(e))
    else if r.status == 409 then Map(ReadError(libs, r), e => CancelConflict(e))
    else if r.status == 500 then Map(ReadError(libs, r), e => CancelServerError(e))
    else Err(UnexpectedStatus(r.status))
  }

  // ---- The variants survive ----

  lemma {:induction false} PlainBody(libs: Libs, status: int, schema: Schema, vals: seq<Val>)
    requires libs.Sound() && Fits(vals, schema)
    requires schema == ERROR_BODY || schema == CREATE_RESPONSE || schema == PAY_RESPONSE || schema == CANCEL_RESPONSE
    ensures var r := Write(libs, status, schema, vals); ReadBody(libs, r.contentType, r.body, schema) == Ok(vals)
  {
    hide FromJson, ToJson, GoodTable;
    SmallTables();
    if schema == ERROR_BODY {
      PlainMessagesRoundTrip(libs.text, schema, ERROR_BODY_MASKS, vals);
    } else if schema == CREATE_RESPONSE {
      PlainMessagesRoundTrip(libs.text, schema, CREATE_RESPONSE_MASKS, vals);
    } else if schema == PAY_RESPONSE {
      PlainMessagesRoundTrip(libs.text, schema, PAY_RESPONSE_MASKS, vals);
    } else {
      PlainMessagesRoundTrip(libs.text, schema, CANCEL_RESPONSE_MASKS, vals);
    }
  }

  lemma {:induction false} ErrorSurvives(libs: Libs, status: int, e: ErrorBody)
    requires libs.Sound()
    ensures ReadError(libs, WriteError(libs, status, e)) == Ok(e)
  {
    hide ReadBody, ToJson;
    PlainBody(libs, status, ERROR_BODY, ErrorVals(e));
  }

  /** Every create response comes back as the same variant with the same contents. */
  lemma {:induction false} CreateResSurvives(libs: Libs, res: CreateOrderRes)
    requires libs.Sound()
    ensures DecodeCreate(libs, EncodeCreate(libs, res)) == Ok(res)
  {
    hide ReadBody, ToJson, ReadError;
    if res.CreateOk? {
      PlainBody(libs, 201, CREATE_RESPONSE, CreateResponseVals(res.ok));
    } else {
      ErrorSurvives(libs, EncodeCreate(libs, res).status, res.e);
    }
  }

  lemma {:induction false} PayResSurvives(libs: Libs, res: PayOrderRes)
    requires libs.Sound()
    ensures DecodePay(libs, EncodePay(libs, res)) == Ok(res)
  {
    hide ReadBody, ToJson, ReadError;
    if res.PayOk? {
      PlainBody(libs, 200, PAY_RESPONSE, PayResponseVals(res.ok));
    } else {
      ErrorSurvives(libs, EncodePay(libs, res).status, res.e);
    }
  }

  lemma {:induction false} CancelResSurvives(libs: Libs, res: CancelOrderRes)
    requires libs.Sound()
    ensures DecodeCancel(libs, EncodeCancel(libs, res)) == Ok(res)
  {
    hide ReadBody, ToJson, ReadError;
    if res.CancelOk? {
      PlainBody(libs, 200, CANCEL_RESPONSE, []);
      assert res == CancelOk(CancelOrderResponse);
    } else {
      ErrorSurvives(libs, EncodeCancel(libs, res).status, res.e);
    }
  }

  /** What the client makes of a get response: an order has its optional fields
      canonicalised and its instant read back from its text, and is then validated. */
  function Received(libs: Libs, res: GetOrderRes): Result<GetOrderRes, ClientError> {
    match res
    case GetOk(d) =>
      (match libs.text.parseTime(libs.text.printTime(d.createdAt))
       case None => Err(BadBody(BadField("created_at")))
       case Some(t) => if EnumsValid(d) then Ok(GetOk(NormalDto(d, t))) else Err(InvalidBody(OrderDtoFailures(d))))
    case _ => Ok(res)
  }

  /** A get response arrives as `Received` says, whatever order it carries. */
  lemma {:induction false} GetResArrives(libs: Libs, res: GetOrderRes)
    requires libs.Sound()
    ensures DecodeGet(libs, EncodeGet(libs, res)) == Received(libs, res)
  {
    hide FromJson, ToJson, ReadError, ValidStatus, ValidPaymentMethod;
    if res.GetOk? {
      OrderDtoRoundTrip(libs.text, res.ok);
      SameFailures(res.ok, 0);
      match libs.text.parseTime(libs.text.printTime(res.ok.createdAt)) {
        case Some(t) => SameFailures(res.ok, t);
        case None =>
      }
    } else {
      ErrorSurvives(libs, EncodeGet(libs, res).status, res.e);
    }
  }

  lemma {:induction false} SameFailures(d: OrderDto, t: Time)
    ensures OrderDtoFailures(NormalDto(d, t)) == OrderDtoFailures(d)
  {
  }

  /** The client accepts this response as it is: its optional fields are canonical, its
      instant survives its text, and its status and payment method are declared values. */
  predicate GetResFits(libs: Libs, res: GetOrderRes) {
    res.GetOk? ==>
      && NormalDto(res.ok, res.ok.createdAt) == res.ok
      && libs.text.parseTime(libs.text.printTime(res.ok.createdAt)) == Some(res.ok.createdAt)
      && EnumsValid(res.ok)
  }

  /** A get response comes back unchanged exactly when it fits. */
  lemma {:induction false} GetResSurvivesExactly(libs: Libs, res: GetOrderRes)
    requires libs.Sound()
    ensures DecodeGet(libs, EncodeGet(libs, res)) == Ok(res) <==> GetResFits(libs, res)
  {
    hide DecodeGet, EncodeGet, EnumsValid;
    GetResArrives(libs, res);
  }

  // ---- Literally ----

  /** A create response on the wire: status, media type and document. */
  lemma {:induction false} CreateOnTheWire(libs: Libs, res: CreateOrderRes)
    ensures var w := EncodeCreate(libs, res);
      && w.contentType == "application/json; charset=utf-8"
      && w.status == (match res case CreateOk(_) => 201 case CreateBadRequest(_) => 400 case CreateNotFound(_) => 404 case CreateConflict(_) => 409 case CreateServerError(_) => 500)
      && w.body == if res.CreateOk? then
                     Obj([Member("order_uuid", Str(libs.text.printUuid(res.ok.orderUuid))), Member("total_price", Int(res.ok.totalPrice as int))])
                   else Obj([Member("code", Int(res.e.code as int)), Member("message", Str(res.e.message))])
  {
    hide ToJson;
    if res.CreateOk? {
      PlainMessagesWritten(libs.text, res.ok, PayOrderRequest(""), PayOrderResponse(0), ErrorBody(0, ""));
    } else {
      PlainMessagesWritten(libs.text, CreateOrderResponse(0, 0), PayOrderRequest(""), PayOrderResponse(0), res.e);
    }
  }

  /** A get response on the wire: status, media type and document. */
  lemma {:induction false} GetOnTheWire(libs: Libs, res: GetOrderRes)
    ensures var w := EncodeGet(libs, res);
      && w.contentType == "application/json; charset=utf-8"
      && w.status == (match res case GetOk(_) => 200 case GetBadRequest(_) => 400 case GetNotFound(_) => 404 case GetServerError(_) => 500)
      && w.body == if res.GetOk? then
                     var d := res.ok;
                     Obj([ Member("order_uuid", Str(libs.text.printUuid(d.orderUuid))), Member("hull_uuid", Str(libs.text.printUuid(d.hull))),
                   Member("engine_uuid", Str(libs.text.printUuid(d.engine))) ]
                 + (if !d.shield.isSet then [] else [Member("shield_uuid", if d.shield.isNull then Null else Str(libs.text.printUuid(d.shield.value)))])
                 + (if !d.weapon.isSet then [] else [Member("weapon_uuid", if d.weapon.isNull then Null else Str(libs.text.printUuid(d.weapon.value)))])
                 + [Member("total_price", Int(d.totalPrice as int))]
                 + (if !d.transaction.isSet then [] else [Member("transaction_uuid", if d.transaction.isNull then Null else Str(libs.text.printUuid(d.transaction.value)))])
                 + (if !d.payMethod.isSet then [] else [Member("payment_method", if d.payMethod.isNull then Null else Str(d.payMethod.value))])
                 + [Member("status", Str(d.status)), Member("created_at", Str(libs.text.printTime(d.createdAt)))])
                   else Obj([Member("code", Int(res.e.code as int)), Member("message", Str(res.e.message))])
  {
    hide ToJson;
    if res.GetOk? {
      OrderDtoWritten(libs.text, res.ok);
    } else {
      PlainMessagesWritten(libs.text, CreateOrderResponse(0, 0), PayOrderRequest(""), PayOrderResponse(0), res.e);
    }
  }

  /** A pay response on the wire: status, media type and document. */
  lemma {:induction false} PayOnTheWire(libs: Libs, res: PayOrderRes)
    ensures var w := EncodePay(libs, res);
      && w.contentType == "application/json; charset=utf-8"
      && w.status == (match res case PayOk(_) => 200 case PayBadRequest(_) => 400 case PayNotFound(_) => 404 case PayConflict(_) => 409 case PayServerError(_) => 500)
      && w.body == if res.PayOk? then
                     Obj([Member("transaction_uuid", Str(libs.text.printUuid(res.ok.transaction)))])
                   else Obj([Member("code", Int(res.e.code as int)), Member("message", Str(res.e.message))])
  {
    hide ToJson;
    if res.PayOk? {
      PlainMessagesWritten(libs.text, CreateOrderResponse(0, 0), PayOrderRequest(""), res.ok, ErrorBody(0, ""));
    } else {
      PlainMessagesWritten(libs.text, CreateOrderResponse(0, 0), PayOrderRequest(""), PayOrderResponse(0), res.e);
    }
  }

  /** A cancel response on the wire: status, media type and document. */
  lemma {:induction false} CancelOnTheWire(libs: Libs, res: CancelOrderRes)
    ensures var w := EncodeCancel(libs, res);
      && w.contentType == "application/json; charset=utf-8"
      && w.status == (match res case CancelOk(_) => 200 case CancelBadRequest(_) => 400 case CancelNotFound(_) => 404 case CancelConflict(_) => 409 case CancelServerError(_) => 500)
      && w.body == if res.CancelOk? then
                     Obj([])
                   else Obj([Member("code", Int(res.e.code as int)), Member("message", Str(res.e.message))])
  {
    hide ToJson;
    if res.CancelOk? {
      PlainMessagesWritten(libs.text, CreateOrderResponse(0, 0), PayOrderRequest(""), PayOrderResponse(0), ErrorBody(0, ""));
    } else {
      PlainMessagesWritten(libs.text, CreateOrderResponse(0, 0), PayOrderRequest(""), PayOrderResponse(0), res.e);
    }
  }

  /** The client refuses an undeclared status before it looks at the body. */
  lemma {:induction false} UndeclaredStatus(libs: Libs, r: Response)
    ensures r.status !in [201, 400, 404, 409, 500] ==> DecodeCreate(libs, r) == Err(UnexpectedStatus(r.status))
    ensures r.status !in [200, 400, 404, 500] ==> DecodeGet(libs, r) == Err(UnexpectedStatus(r.status))
    ensures r.status !in [200, 400, 404, 409, 500] ==> DecodePay(libs, r) == Err(UnexpectedStatus(r.status))
    ensures r.status !in [200, 400, 404, 409, 500] ==> DecodeCancel(libs, r) == Err(UnexpectedStatus(r.status))
  {
    hide ReadBody, ReadError;
  }

  /** And, for a declared one, a media type that does not parse or is not JSON. */
  lemma {:induction false} WrongMediaType(libs: Libs, r: Response)
    requires libs.mediaType(r.contentType) != Some("application/json")
    ensures var e: ClientError := match libs.mediaType(r.contentType)
                                  case None => BadMediaType
                                  case Some(m) => InvalidContentType(m);
      && (r.status in [201, 400, 404, 409, 500] ==> DecodeCreate(libs, r) == Err(e))
      && (r.status in [200, 400, 404, 500] ==> DecodeGet(libs, r) == Err(e))
      && (r.status in [200, 400, 404, 409, 500] ==> DecodePay(libs, r) == Err(e))
      && (r.status in [200, 400, 404, 409, 500] ==> DecodeCancel(libs, r) == Err(e))
  {
    hide FromJson;
  }

  // ---- The same, step by step ----

  /** The server's response under construction. */
  class ResponseWriter {
    var contentType: string
    var status: int
    var body: Json

    constructor ()
    {
      contentType, status, body := "", 0, Null;
    }

    function Sent(): Response
      reads this
    {
      Response(status, contentType, body)
    }

    method Reply(libs: Libs, code: int, schema: Schema, vals: seq<Val>)
      requires |vals| == |schema|
      modifies this
      ensures Sent() == Write(libs, code, schema, vals)
    {
      contentType := JSON_UTF8;
      status := code;
      body := WriteJson(libs.text, schema, vals);
    }
  }

  method WriteCreate(libs: Libs, res: CreateOrderRes, w: ResponseWriter)
    modifies w
    ensures w.Sent() == EncodeCreate(libs, res)
    ensures libs.Sound() ==> DecodeCreate(libs, w.Sent()) == Ok(res)
  {
    hide ToJson, DecodeCreate;
    if libs.Sound() {
      CreateResSurvives(libs, res);
    }
    match res {
      case CreateOk(r) => w.Reply(libs, 201, CREATE_RESPONSE, CreateResponseVals(r));
      case CreateBadRequest(e) => w.Reply(libs, 400, ERROR_BODY, ErrorVals(e));
      case CreateNotFound(e) => w.Reply(libs, 404, ERROR_BODY, ErrorVals(e));
      case CreateConflict(e) => w.Reply(libs, 409, ERROR_BODY, ErrorVals(e));
      case CreateServerError(e) => w.Reply(libs, 500, ERROR_BODY, ErrorVals(e));
    }
  }

  method WriteGet(libs: Libs, res: GetOrderRes, w: ResponseWriter)
    modifies w
    ensures w.Sent() == EncodeGet(libs, res)
    ensures libs.Sound() ==> DecodeGet(libs, w.Sent()) == Received(libs, res)
  {
    hide ToJson, DecodeGet, Received;
    if libs.Sound() {
      GetResArrives(libs, res);
    }
    match res {
      case GetOk(d) => w.Reply(libs, 200, ORDER_DTO, OrderDtoVals(d));
      case GetBadRequest(e) => w.Reply(libs, 400, ERROR_BODY, ErrorVals(e));
      case GetNotFound(e) => w.Reply(libs, 404, ERROR_BODY, ErrorVals(e));
      case GetServerError(e) => w.Reply(libs, 500, ERROR_BODY, ErrorVals(e));
    }
  }

  method WritePay(libs: Libs, res: PayOrderRes, w: ResponseWriter)
    modifies w
    ensures w.Sent() == EncodePay(libs, res)
    ensures libs.Sound() ==> DecodePay(libs, w.Sent()) == Ok(res)
  {
    hide ToJson, DecodePay;
    if libs.Sound() {
      PayResSurvives(libs, res);
    }
    match res {
      case PayOk(r) => w.Reply(libs, 200, PAY_RESPONSE, PayResponseVals(r));
      case PayBadRequest(e) => w.Reply(libs, 400, ERROR_BODY, ErrorVals(e));
      case PayNotFound(e) => w.Reply(libs, 404, ERROR_BODY, ErrorVals(e));
      case PayConflict(e) => w.Reply(libs, 409, ERROR_BODY, ErrorVals(e));
      case PayServerError(e) => w.Reply(libs, 500, ERROR_BODY, ErrorVals(e));
    }
  }

  method WriteCancel(libs: Libs, res: CancelOrderRes, w: ResponseWriter)
    modifies w
    ensures w.Sent() == EncodeCancel(libs, res)
    ensures libs.Sound() ==> DecodeCancel(libs, w.Sent()) == Ok(res)
  {
    hide ToJson, DecodeCancel;
    if libs.Sound() {
      CancelResSurvives(libs, res);
    }
    match res {
      case CancelOk(_) => w.Reply(libs, 200, CANCEL_RESPONSE, []);
      case CancelBadRequest(e) => w.Reply(libs, 400, ERROR_BODY, ErrorVals(e));
      case CancelNotFound(e) => w.Reply(libs, 404, ERROR_BODY, ErrorVals(e));
      case CancelConflict(e) => w.Reply(libs, 409, ERROR_BODY, ErrorVals(e));
      case CancelServerError(e) => w.Reply(libs, 500, ERROR_BODY, ErrorVals(e));
    }
  }

  /** Media type, then body, into a zero struct. */
  method ReadInto(libs: Libs, r: Response, schema: Schema, masks: seq<bv8>) returns (res: Result<seq<Val>, ClientError>)
    requires GoodTable(schema, masks)
    ensures res == ReadBody(libs, r.contentType, r.body, schema)
    ensures res.Ok? ==> Fits(res.value, schema)
  {
    hide GoodTable, FromJson;
    var ct := libs.mediaType(r.contentType);
    if ct.None? {
      return Err(BadMediaType);
    }
    if ct.value != JSON {
      return Err(InvalidContentType(ct.value));
    }
    var vs := ReadJson(libs.text, schema, masks, r.body);
    if vs.Ok? {
      DecodedFits(libs.text, schema, r.body);
    }
    return if vs.Ok? then Ok(vs.value) else Err(BadBody(vs.error));
  }

  method ReadErrorInto(libs: Libs, r: Response) returns (res: Result<ErrorBody, ClientError>)
    ensures res == ReadError(libs, r)
  {
    hide GoodTable, FromJson;
    SmallTables();
    var vs := ReadInto(libs, r, ERROR_BODY, ERROR_BODY_MASKS);
    if vs.Err? {
      return Err(vs.error);
    }
    return Ok(ErrorOf(vs.value));
  }

  method ReadCreate(libs: Libs, r: Response) returns (res: Result<CreateOrderRes, ClientError>)
    ensures res == DecodeCreate(libs, r)
  {
    hide GoodTable, FromJson, ReadError;
    SmallTables();
    if r.status == 201 {
      var vs := ReadInto(libs, r, CREATE_RESPONSE, CREATE_RESPONSE_MASKS);
      if vs.Err? {
        return Err(vs.error);
      }
      return Ok(CreateOk(CreateResponseOf(vs.value)));
    }
    if r.status != 400 && r.status != 404 && r.status != 409 && r.status != 500 {
      return Err(UnexpectedStatus(r.status));
    }
    var e := ReadErrorInto(libs, r);
    if e.Err? {
      return Err(e.error);
    }
    res := Ok(if r.status == 400 then CreateBadRequest(e.value) else if r.status == 404 then CreateNotFound(e.value)
              else if r.status == 409 then CreateConflict(e.value) else CreateServerError(e.value));
  }

  method ReadGet(libs: Libs, r: Response) returns (res: Result<GetOrderRes, ClientError>)
    ensures res == DecodeGet(libs, r)
  {
    hide GoodTable, FromJson, ReadError, OrderDtoFailures, EnumsValid;
    if r.status == 200 {
      OrderDtoTable();
      var vs := ReadInto(libs, r, ORDER_DTO, ORDER_DTO_MASKS);
      if vs.Err? {
        return Err(vs.error);
      }
      var d := OrderDtoOf(vs.value);
      var failures := ValidateOrderDto(d);
      return if failures == [] then Ok(GetOk(d)) else Err(InvalidBody(failures));
    }
    if r.status != 400 && r.status != 404 && r.status != 500 {
      return Err(UnexpectedStatus(r.status));
    }
    var e := ReadErrorInto(libs, r);
    if e.Err? {
      return Err(e.error);
    }
    res := Ok(if r.status == 400 then GetBadRequest(e.value) else if r.status == 404 then GetNotFound(e.value)
              else GetServerError(e.value));
  }

  method ReadPay(libs: Libs, r: Response) returns (res: Result<PayOrderRes, ClientError>)
    ensures res == DecodePay(libs, r)
  {
    hide GoodTable, FromJson, ReadError;
    SmallTables();
    if r.status == 200 {
      var vs := ReadInto(libs, r, PAY_RESPONSE, PAY_RESPONSE_MASKS);
      if vs.Err? {
        return Err(vs.error);
      }
      return Ok(PayOk(PayResponseOf(vs.value)));
    }
    if r.status != 400 && r.status != 404 && r.status != 409 && r.status != 500 {
      return Err(UnexpectedStatus(r.status));
    }
    var e := ReadErrorInto(libs, r);
    if e.Err? {
      return Err(e.error);
    }
    res := Ok(if r.status == 400 then PayBadRequest(e.value) else if r.status == 404 then PayNotFound(e.value)
              else if r.status == 409 then PayConflict(e.value) else PayServerError(e.value));
  }

  method ReadCancel(libs: Libs, r: Response) returns (res: Result<CancelOrderRes, ClientError>)
    ensures res == DecodeCancel(libs, r)
  {
    hide GoodTable, FromJson, ReadError;
    SmallTables();
    if r.status == 200 {
      var vs := ReadInto(libs, r, CANCEL_RESPONSE, CANCEL_RESPONSE_MASKS);
      if vs.Err? {
        return Err(vs.error);
      }
      return Ok(CancelOk(CancelOrderResponse));
    }
    if r.status != 400 && r.status != 404 && r.status != 409 && r.status != 500 {
      return Err(UnexpectedStatus(r.status));
    }
    var e := ReadErrorInto(libs, r);
    if e.Err? {
      return Err(e.error);
    }
    res := Ok(if r.status == 400 then CancelBadRequest(e.value) else if r.status == 404 then CancelNotFound(e.value)
              else if r.status == 409 then CancelConflict(e.value) else CancelServerError(e.value));
  }
}
