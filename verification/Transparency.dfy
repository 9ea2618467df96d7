/** A call through the generated client and server is a call of the handler. */
module Transparency {
  import opened Domain
  import opened Json
  import opened Codec
  import opened Messages
  import opened Router
  import opened Http

  /** The operations an implementation provides; `None` is an error return, which the
      server hands to its error handler. */
  datatype Handlers = Handlers(
    create: CreateOrderRequest -> Option<CreateOrderRes>,
    get: Uuid -> Option<GetOrderRes>,
    pay: (PayOrderRequest, Uuid) -> Option<PayOrderRes>,
    cancel: Uuid -> Option<CancelOrderRes>)

  datatype Stage = DecodeParams | DecodeRequest | Internal

  /** What the server sends: a declared response, the not-found or not-allowed page, or
      what the error handler makes of a failed stage. */
  datatype Reply =
    | Declared(response: Response)
    | NotFoundPage
    | NotAllowedPage(allowed: string)
    | ErrorPage(stage: Stage)

  // ---- Server ----

  /** `decode*Params`: the path parameter must be there and parse. */
  function DecodeParam(libs: Libs, arg: string): Option<Uuid> {
    if |arg| > 0 then libs.text.parseUuid(arg) else None
  }

  /** The body of a request with a JSON media type. */
  function RequestBody(libs: Libs, req: Request, schema: Schema): (r: Option<seq<Val>>)
    ensures r.Some? ==> Fits(r.value, schema)
  {
    if libs.mediaType(req.contentType) == Some(JSON) && req.body.Some? then
      match FromJson(libs.text, schema, req.body.value)
      case Ok(vs) => DecodedFits(libs.text, schema, req.body.value); Some(vs)
      case Err(_) => None
    else None
  }

  function DecodeCreateRequest(libs: Libs, req: Request): Option<CreateOrderRequest> {
    match RequestBody(libs, req, CREATE_REQUEST)
    case Some(vs) => Some(CreateRequestOf(vs))
    case None => None
  }

  /** Only the pay request is validated. */
  function DecodePayRequest(libs: Libs, req: Request): Option<PayOrderRequest> {
    match RequestBody(libs, req, PAY_REQUEST)
    case Some(vs) =>
      var q := PayRequestOf(vs);
      if ValidPaymentMethod(q.payMethod) then Some(q) else None
    case None => None
  }

  function HandleCreate(libs: Libs, h: Handlers, req: Request): Reply {
    match DecodeCreateRequest(libs, req)
    case None => ErrorPage(DecodeRequest)
    case Some(q) =>
      match h.create(q)
      case None => ErrorPage(Internal)
      case Some(res) => Declared(EncodeCreate(libs, res))
  }

  function HandleGet(libs: Libs, h: Handlers, arg: string): Reply {
    match DecodeParam(libs, arg)
    case None => ErrorPage(DecodeParams)
    case Some(id) =>
      match h.get(id)
      case None => ErrorPage(Internal)
      case Some(res) => Declared(EncodeGet(libs, res))
  }

  function HandlePay(libs: Libs, h: Handlers, req: Request, arg: string): Reply {
    match DecodeParam(libs, arg)
    case None => ErrorPage(DecodeParams)
    case Some(id) =>
      match DecodePayRequest(libs, req)
      case None => ErrorPage(DecodeRequest)
      case Some(q) =>
        match h.pay(q, id)
        case None => ErrorPage(Internal)
        case Some(res) => Declared(EncodePay(libs, res))
  }

  function HandleCancel(libs: Libs, h: Handlers, arg: string): Reply {
    match DecodeParam(libs, arg)
    case None => ErrorPage(DecodeParams)
    case Some(id) =>
      match h.cancel(id)
      case None => ErrorPage(Internal)
      case Some(res) => Declared(EncodeCancel(libs, res))
  }

  function Dispatched(libs: Libs, h: Handlers, req: Request, d: Dispatch): Reply {
    match d
    case NotFound => NotFoundPage
    case NotAllowed(allowed) => NotAllowedPage(allowed)
    case Handle(CreateOrder, _) => HandleCreate(libs, h, req)
    case Handle(GetOrder, arg) => HandleGet(libs, h, arg)
    case Handle(PayOrder, arg) => HandlePay(libs, h, req, arg)
    case Handle(CancelOrder, arg) => HandleCancel(libs, h, arg)
  }

  ghost function Serve(libs: Libs, prefix: string, h: Handlers, req: Request): Reply {
    Dispatched(libs, h, req, Expected(prefix, req.verb, req.path))
  }

  /** The server as it runs: the unrolled router, then the generated decoders. */
  method ServeRequest(libs: Libs, prefix: string, h: Handlers, req: Request) returns (reply: Reply)
    ensures reply == Serve(libs, prefix, h, req)
  {
    hide HandleCreate, HandleGet, HandlePay, HandleCancel, Expected;
    var d := ServeHTTP(prefix, req.verb, req.path);
    match d {
      case NotFound => reply := NotFoundPage;
      case NotAllowed(allowed) => reply := NotAllowedPage(allowed);
      case Handle(CreateOrder, _) => reply := RunCreate(libs, h, req);
      case Handle(GetOrder, arg) => reply := RunGet(libs, h, arg);
      case Handle(PayOrder, arg) => reply := RunPay(libs, h, req, arg);
      case Handle(CancelOrder, arg) => reply := RunCancel(libs, h, arg);
    }
  }

  method ReadRequest(libs: Libs, req: Request, schema: Schema, masks: seq<bv8>) returns (r: Option<seq<Val>>)
    requires GoodTable(schema, masks)
    ensures r == RequestBody(libs, req, schema)
  {
    if libs.mediaType(req.contentType) != Some(JSON) || req.body.None? {
      return None;
    }
    var res := ReadJson(libs.text, schema, masks, req.body.value);
    return if res.Ok? then Some(res.value) else None;
  }

  method RunCreate(libs: Libs, h: Handlers, req: Request) returns (reply: Reply)
    ensures reply == HandleCreate(libs, h, req)
  {
    hide EncodeCreate, FromJson, GoodTable;
    SmallTables();
    var vs := ReadRequest(libs, req, CREATE_REQUEST, CREATE_REQUEST_MASKS);
    if vs.None? {
      return ErrorPage(DecodeRequest);
    }
    var res := h.create(CreateRequestOf(vs.value));
    if res.None? {
      return ErrorPage(Internal);
    }
    var w := new ResponseWriter();
    WriteCreate(libs, res.value, w);
    return Declared(w.Sent());
  }

  method RunGet(libs: Libs, h: Handlers, arg: string) returns (reply: Reply)
    ensures reply == HandleGet(libs, h, arg)
  {
    hide EncodeGet;
    var id := DecodeParam(libs, arg);
    if id.None? {
      return ErrorPage(DecodeParams);
    }
    var res := h.get(id.value);
    if res.None? {
      return ErrorPage(Internal);
    }
    var w := new ResponseWriter();
    WriteGet(libs, res.value, w);
    return Declared(w.Sent());
  }

  method RunPay(libs: Libs, h: Handlers, req: Request, arg: string) returns (reply: Reply)
    ensures reply == HandlePay(libs, h, req, arg)
  {
    hide EncodePay, FromJson, GoodTable;
    SmallTables();
    var id := DecodeParam(libs, arg);
    if id.None? {
      return ErrorPage(DecodeParams);
    }
    var vs := ReadRequest(libs, req, PAY_REQUEST, PAY_REQUEST_MASKS);
    if vs.None? {
      return ErrorPage(DecodeRequest);
    }
    var q := PayRequestOf(vs.value);
    if !ValidPaymentMethod(q.payMethod) {
      return ErrorPage(DecodeRequest);
    }
    var res := h.pay(q, id.value);
    if res.None? {
      return ErrorPage(Internal);
    }
    var w := new ResponseWriter();
    WritePay(libs, res.value, w);
    return Declared(w.Sent());
  }

  method RunCancel(libs: Libs, h: Handlers, arg: string) returns (reply: Reply)
    ensures reply == HandleCancel(libs, h, arg)
  {
    hide EncodeCancel;
    var id := DecodeParam(libs, arg);
    if id.None? {
      return ErrorPage(DecodeParams);
    }
    var res := h.cancel(id.value);
    if res.None? {
      return ErrorPage(Internal);
    }
    var w := new ResponseWriter();
    WriteCancel(libs, res.value, w);
    return Declared(w.Sent());
  }

  // ---- Client ----

  /** `strings.TrimRight(path, "/")`, done once when the client is built. */
  function TrimSlashes(path: string): (trimmed: string)
    ensures trimmed <= path && (trimmed == "" || trimmed[|trimmed| - 1] != '/')
    ensures forall i :: |trimmed| <= i < |path| ==> path[i] == '/'
  {
    if path != "" && path[|path| - 1] == '/' then TrimSlashes(path[..|path| - 1]) else path
  }

  /** `pathParts`, filled slot by slot and appended to the path of the server URL. */
  method BuildPath(libs: Libs, base: string, op: Operation, id: Uuid) returns (path: string)
    ensures path == ClientPath(libs, base, op, id)
  {
    hide PathOf, HttpMethod;
    var parts: array<string>;
    if op == CreateOrder {
      parts := new string[1];
      parts[0] := "/api/v1/orders";
      path := base + parts[0];
    } else if op == GetOrder {
      parts := new string[2];
      parts[0] := "/api/v1/orders/";
      parts[1] := libs.text.printUuid(id);
      path := base + parts[0] + parts[1];
    } else {
      parts := new string[3];
      parts[0] := "/api/v1/orders/";
      parts[1] := libs.text.printUuid(id);
      parts[2] := if op == PayOrder then "/pay" else "/cancel";
      path := base + parts[0] + parts[1] + parts[2];
    }
    PartsJoin(base, op, libs.text.printUuid(id));
  }

  lemma {:induction false} PartsJoin(base: string, op: Operation, arg: string)
    ensures base + PathOf(op, if op == CreateOrder then "" else arg) ==
            match op
            case CreateOrder => base + "/api/v1/orders"
            case GetOrder => base + "/api/v1/orders/" + arg
            case PayOrder => base + "/api/v1/orders/" + arg + "/pay"
            case CancelOrder => base + "/api/v1/orders/" + arg + "/cancel"
  {
    assert "/api/v1/orders/" == ORDERS + "/";
  }

  function ClientPath(libs: Libs, base: string, op: Operation, id: Uuid): string {
    base + PathOf(op, if op == CreateOrder then "" else libs.text.printUuid(id))
  }

  function CreateCall(libs: Libs, base: string, q: CreateOrderRequest): Request {
    Request("POST", ClientPath(libs, base, CreateOrder, 0), JSON,
            Some(ToJson(libs.text, CREATE_REQUEST, CreateRequestVals(q))))
  }

  function GetCall(libs: Libs, base: string, id: Uuid): Request {
    Request("GET", ClientPath(libs, base, GetOrder, id), "", None)
  }

  function PayCall(libs: Libs, base: string, q: PayOrderRequest, id: Uuid): Request {
    Request("POST", ClientPath(libs, base, PayOrder, id), JSON,
            Some(ToJson(libs.text, PAY_REQUEST, PayRequestVals(q))))
  }

  function CancelCall(libs: Libs, base: string, id: Uuid): Request {
    Request("POST", ClientPath(libs, base, CancelOrder, id), "", None)
  }

  /** Routing the path the client builds gives back the operation and the UUID text. */
  lemma {:induction false} ClientPathRoutes(libs: Libs, prefix: string, verb: string, op: Operation, id: Uuid)
    requires libs.Sound() && verb == HttpMethod(op)
    ensures Expected(prefix, verb, ClientPath(libs, prefix, op, id)) ==
            Handle(op, if op == CreateOrder then "" else libs.text.printUuid(id))
  {
    var arg := if op == CreateOrder then "" else libs.text.printUuid(id);
    var path := ClientPath(libs, prefix, op, id);
    assert path[|prefix|..] == PathOf(op, arg);
    assert libs.text.parseUuid(libs.text.printUuid(id)) == Some(id);
    ExpectedIs(prefix, verb, path, op, arg);
  }

  /** The client reaches its operation exactly when the path of its server URL, without
      trailing slashes, is the server's prefix. The server does not trim its prefix. */
  lemma {:induction false} ClientRoutesExactly(libs: Libs, serverPath: string, prefix: string, op: Operation, id: Uuid)
    requires libs.Sound()
    ensures Expected(prefix, HttpMethod(op), ClientPath(libs, TrimSlashes(serverPath), op, id)) ==
            Handle(op, if op == CreateOrder then "" else libs.text.printUuid(id))
       <==> TrimSlashes(serverPath) == prefix
  {
    hide Expected, TrimSlashes, PathOf;
    var base := TrimSlashes(serverPath);
    var arg := if op == CreateOrder then "" else libs.text.printUuid(id);
    var path := ClientPath(libs, base, op, id);
    ExpectedExactly(prefix, HttpMethod(op), path, op, arg);
    if base == prefix {
      ClientPathRoutes(libs, prefix, HttpMethod(op), op, id);
    }
    if prefix <= path && path[|prefix|..] == PathOf(op, arg) {
      SameStart(base, prefix, PathOf(op, arg));
    }
  }

  lemma {:induction false} SameStart(base: string, prefix: string, rest: string)
    requires prefix <= base + rest && (base + rest)[|prefix|..] == rest
    ensures base == prefix
  {
    assert (base + rest)[..|prefix|] == prefix && (base + rest)[..|base|] == base;
  }

  /** So a server whose prefix ends in a slash is out of reach of the client, whatever its URL. */
  lemma {:induction false} SlashPrefixUnreachable(libs: Libs, serverPath: string, prefix: string, op: Operation, id: Uuid)
    requires libs.Sound() && prefix != "" && prefix[|prefix| - 1] == '/'
    ensures Expected(prefix, HttpMethod(op), ClientPath(libs, TrimSlashes(serverPath), op, id)) !=
            Handle(op, if op == CreateOrder then "" else libs.text.printUuid(id))
  {
    hide Expected, ClientPath;
    ClientRoutesExactly(libs, serverPath, prefix, op, id);
  }

  lemma {:induction false} ParamDecodes(libs: Libs, id: Uuid)
    requires libs.Sound()
    ensures DecodeParam(libs, libs.text.printUuid(id)) == Some(id)
  {
    assert libs.text.parseUuid(libs.text.printUuid(id)) == Some(id);
  }

  lemma {:induction false} CreateRequestDecodes(libs: Libs, base: string, q: CreateOrderRequest)
    requires libs.Sound()
    ensures DecodeCreateRequest(libs, CreateCall(libs, base, q)) == Some(NormalCreate(q))
  {
    hide FromJson, ToJson, ClientPath, NormalCreate;
    CreateRequestRoundTrip(libs.text, q);
  }

  lemma {:induction false} PayRequestDecodes(libs: Libs, base: string, q: PayOrderRequest, id: Uuid)
    requires libs.Sound()
    ensures DecodePayRequest(libs, PayCall(libs, base, q, id)) == if ValidPaymentMethod(q.payMethod) then Some(q) else None
  {
    hide FromJson, ToJson, ClientPath, ValidPaymentMethod, GoodTable;
    SmallTables();
    PlainMessagesRoundTrip(libs.text, PAY_REQUEST, PAY_REQUEST_MASKS, PayRequestVals(q));
  }

  // ---- Any request, from any client ----

  /** A get or cancel is handed to the handler iff its path argument is the text of a UUID, and
      then with that UUID; an empty or malformed one is a parameter error. */
  lemma {:induction false} ArgumentExactly(libs: Libs, prefix: string, h: Handlers, arg: string, contentType: string, body: Option<Json>)
    requires '/' !in arg
    ensures var get := Serve(libs, prefix, h, Request("GET", prefix + "/api/v1/orders/" + arg, contentType, body));
            get == if arg == "" || libs.text.parseUuid(arg).None? then ErrorPage(DecodeParams)
                   else match h.get(libs.text.parseUuid(arg).value)
                        case None => ErrorPage(Internal)
                        case Some(res) => Declared(EncodeGet(libs, res))
    ensures var cancel := Serve(libs, prefix, h, Request("POST", prefix + "/api/v1/orders/" + arg + "/cancel", contentType, body));
            cancel == if arg == "" || libs.text.parseUuid(arg).None? then ErrorPage(DecodeParams)
                      else match h.cancel(libs.text.parseUuid(arg).value)
                           case None => ErrorPage(Internal)
                           case Some(res) => Declared(EncodeCancel(libs, res))
  {
    hide Expected, EncodeGet, EncodeCancel;
    PathRoutes(prefix, GetOrder, arg);
    PathRoutes(prefix, CancelOrder, arg);
  }

  lemma {:induction false} PathRoutes(prefix: string, op: Operation, arg: string)
    requires '/' !in arg && (op == CreateOrder ==> arg == "")
    ensures var path := match op
                        case CreateOrder => prefix + "/api/v1/orders"
                        case GetOrder => prefix + "/api/v1/orders/" + arg
                        case PayOrder => prefix + "/api/v1/orders/" + arg + "/pay"
                        case CancelOrder => prefix + "/api/v1/orders/" + arg + "/cancel";
            Expected(prefix, if op == GetOrder then "GET" else "POST", path) == Handle(op, arg)
  {
    hide Expected;
    PartsJoin(prefix, op, arg);
    var path := prefix + PathOf(op, arg);
    assert path[|prefix|..] == PathOf(op, arg);
    ExpectedIs(prefix, if op == GetOrder then "GET" else "POST", path, op, arg);
  }

  /** A create request is handed to the handler iff its media type is JSON and its body is an
      object in which every hull, engine, shield and weapon is a UUID, or null for the last two,
      and a hull and an engine occur; and then with what the body says. Any other is a request
      error, whatever the handler is. */
  lemma {:induction false} CreateServedExactly(libs: Libs, prefix: string, h: Handlers, contentType: string, body: Option<Json>)
    ensures var reply := Serve(libs, prefix, h, Request("POST", prefix + "/api/v1/orders", contentType, body));
      && (reply != ErrorPage(DecodeRequest) <==>
            && libs.mediaType(contentType) == Some("application/json") && body.Some? && body.value.Obj?
            && var ms := body.value.members;
               && (forall i :: 0 <= i < |ms| && ms[i].key in ["hull_uuid", "engine_uuid"] ==>
                     ms[i].val.Str? && libs.text.parseUuid(ms[i].val.s).Some?)
               && (forall i :: 0 <= i < |ms| && ms[i].key in ["shield_uuid", "weapon_uuid"] ==>
                     ms[i].val == Null || (ms[i].val.Str? && libs.text.parseUuid(ms[i].val.s).Some?))
               && (exists i :: 0 <= i < |ms| && ms[i].key == "hull_uuid")
               && (exists i :: 0 <= i < |ms| && ms[i].key == "engine_uuid"))
      && (reply != ErrorPage(DecodeRequest) ==> exists q ::
            && SaysCreate(libs.text, body.value.members, q)
            && reply == match h.create(q)
                        case None => ErrorPage(Internal)
                        case Some(res) => Declared(EncodeCreate(libs, res)))
  {
    hide Expected, EncodeCreate, FromJson, SaysCreate;
    PathRoutes(prefix, CreateOrder, "");
    if body.Some? {
      CreateBodyExactly(libs.text, body.value);
      var res := FromJson(libs.text, CREATE_REQUEST, body.value);
      if res.Ok? && libs.mediaType(contentType) == Some("application/json") {
        var q := CreateRequestOf(res.value);
        assert SaysCreate(libs.text, body.value.members, q);
      }
    }
  }

  /** A pay request is handed to the handler iff its path argument is the text of a UUID, its
      media type is JSON, and its body is an object in which every payment method is a string
      and the last is one of the four. The argument is checked first. */
  lemma {:induction false} PayServedExactly(libs: Libs, prefix: string, h: Handlers, arg: string, contentType: string, body: Option<Json>)
    requires '/' !in arg
    ensures var reply := Serve(libs, prefix, h, Request("POST", prefix + "/api/v1/orders/" + arg + "/pay", contentType, body));
      && (reply == ErrorPage(DecodeParams) <==> arg == "" || libs.text.parseUuid(arg).None?)
      && (reply != ErrorPage(DecodeParams) && reply != ErrorPage(DecodeRequest) ==>
            && libs.mediaType(contentType) == Some("application/json") && body.Some? && body.value.Obj?
            && var ms := body.value.members;
               && (forall i :: 0 <= i < |ms| && ms[i].key == "payment_method" ==> ms[i].val.Str?)
               && exists i :: 0 <= i < |ms| && PayMember(ms, i))
      && (forall i :: reply != ErrorPage(DecodeParams) && libs.mediaType(contentType) == Some("application/json")
                      && body.Some? && body.value.Obj? && 0 <= i < |body.value.members| && PayMember(body.value.members, i)
                      && (forall k :: 0 <= k < |body.value.members| && body.value.members[k].key == "payment_method"
                            ==> body.value.members[k].val.Str?)
            ==> reply == match h.pay(PayOrderRequest(body.value.members[i].val.s), libs.text.parseUuid(arg).value)
                         case None => ErrorPage(Internal)
                         case Some(res) => Declared(EncodePay(libs, res)))
  {
    hide Expected, EncodePay, FromJson, DecodePayRequest, PayMember;
    PathRoutes(prefix, PayOrder, arg);
    PayBodyDecodes(libs, Request("POST", prefix + "/api/v1/orders/" + arg + "/pay", contentType, body));
  }

  lemma {:induction false} PayBodyDecodes(libs: Libs, req: Request)
    ensures DecodePayRequest(libs, req).Some? ==>
              && libs.mediaType(req.contentType) == Some("application/json") && req.body.Some? && req.body.value.Obj?
              && var ms := req.body.value.members;
                 && (forall i :: 0 <= i < |ms| && ms[i].key == "payment_method" ==> ms[i].val.Str?)
                 && exists i :: 0 <= i < |ms| && PayMember(ms, i)
    ensures libs.mediaType(req.contentType) == Some("application/json") && req.body.Some? && req.body.value.Obj? ==>
              var ms := req.body.value.members;
              (forall k :: 0 <= k < |ms| && ms[k].key == "payment_method" ==> ms[k].val.Str?) ==>
                forall i :: 0 <= i < |ms| && PayMember(ms, i) ==>
                  DecodePayRequest(libs, req) == Some(PayOrderRequest(ms[i].val.s))
  {
    hide FromJson;
    if req.body.Some? && req.body.value.Obj? {
      var ms := req.body.value.members;
      PayBodyExactly(libs.text, req.body.value);
      if DecodePayRequest(libs, req).Some? {
        var i := LastWith(ms, "payment_method");
        assert ms[i].val == Str(DecodePayRequest(libs, req).value.payMethod);
        assert PayMember(ms, i);
      }
      forall i | 0 <= i < |ms| && PayMember(ms, i) && libs.mediaType(req.contentType) == Some("application/json")
                 && forall k :: 0 <= k < |ms| && ms[k].key == "payment_method" ==> ms[k].val.Str?
        ensures DecodePayRequest(libs, req) == Some(PayOrderRequest(ms[i].val.s))
      {
        var q := PayRequestOf(FromJson(libs.text, PAY_REQUEST, req.body.value).value);
        assert ms[i].val == Str(q.payMethod);
      }
    } else if req.body.Some? {
      PayBodyExactly(libs.text, req.body.value);
    }
  }

  /** The last payment method of a body, and one of the four. */
  ghost predicate PayMember(ms: seq<Member>, i: nat)
    requires i < |ms|
  {
    && ms[i].key == "payment_method" && (forall k :: i < k < |ms| ==> ms[k].key != "payment_method")
    && (ms[i].val == Str("CARD") || ms[i].val == Str("SBP") || ms[i].val == Str("CREDIT_CARD") || ms[i].val == Str("INVESTOR_MONEY"))
  }

  lemma {:induction false} LastWith(ms: seq<Member>, key: string) returns (i: nat)
    requires exists j :: 0 <= j < |ms| && ms[j].key == key
    ensures i < |ms| && ms[i].key == key && forall k :: i < k < |ms| ==> ms[k].key != key
    decreases |ms|
  {
    var n := |ms| - 1;
    if ms[n].key == key {
      i := n;
    } else {
      assert forall j :: 0 <= j < n ==> ms[..n][j] == ms[j];
      i := LastWith(ms[..n], key);
    }
  }

  /** A path of the API with another method gets the not-allowed page with the method it has;
      a path that is none of them gets the not-found page. No handler is called. */
  lemma {:induction false} OtherRequests(libs: Libs, prefix: string, h: Handlers, verb: string, arg: string, path: string,
                                         contentType: string, body: Option<Json>)
    requires '/' !in arg
    ensures verb != "POST" ==> Serve(libs, prefix, h, Request(verb, prefix + "/api/v1/orders", contentType, body)) == NotAllowedPage("POST")
    ensures verb != "GET" ==>
              Serve(libs, prefix, h, Request(verb, prefix + "/api/v1/orders/" + arg, contentType, body)) == NotAllowedPage("GET")
    ensures verb != "POST" ==>
              Serve(libs, prefix, h, Request(verb, prefix + "/api/v1/orders/" + arg + "/pay", contentType, body)) == NotAllowedPage("POST")
    ensures verb != "POST" ==>
              Serve(libs, prefix, h, Request(verb, prefix + "/api/v1/orders/" + arg + "/cancel", contentType, body)) == NotAllowedPage("POST")
    ensures path != prefix + "/api/v1/orders"
            && (forall a :: '/' !in a ==>
                  && path != prefix + "/api/v1/orders/" + a
                  && path != prefix + "/api/v1/orders/" + a + "/pay"
                  && path != prefix + "/api/v1/orders/" + a + "/cancel")
            ==> Serve(libs, prefix, h, Request(verb, path, contentType, body)) == NotFoundPage
  {
    hide Expected, IsPathUnder, PathOf, HandleCreate, HandleGet, HandlePay, HandleCancel;
    OtherVerb(prefix, CreateOrder, "", verb);
    OtherVerb(prefix, GetOrder, arg, verb);
    OtherVerb(prefix, PayOrder, arg, verb);
    OtherVerb(prefix, CancelOrder, arg, verb);
    if path != prefix + "/api/v1/orders"
       && forall a :: '/' !in a ==>
            && path != prefix + "/api/v1/orders/" + a
            && path != prefix + "/api/v1/orders/" + a + "/pay"
            && path != prefix + "/api/v1/orders/" + a + "/cancel" {
      NoPath(prefix, verb, path);
    }
  }

  lemma {:induction false} OtherVerb(prefix: string, op: Operation, arg: string, verb: string)
    requires '/' !in arg && (op == CreateOrder ==> arg == "")
    ensures var path := match op
                        case CreateOrder => prefix + "/api/v1/orders"
                        case GetOrder => prefix + "/api/v1/orders/" + arg
                        case PayOrder => prefix + "/api/v1/orders/" + arg + "/pay"
                        case CancelOrder => prefix + "/api/v1/orders/" + arg + "/cancel";
            var allowed := if op == GetOrder then "GET" else "POST";
            verb != allowed ==> Expected(prefix, verb, path) == NotAllowed(allowed)
  {
    hide Expected;
    PartsJoin(prefix, op, arg);
    var path := prefix + PathOf(op, arg);
    assert path[|prefix|..] == PathOf(op, arg);
    ExpectedIs(prefix, verb, path, op, arg);
  }

  lemma {:induction false} NoPath(prefix: string, verb: string, path: string)
    requires path != prefix + "/api/v1/orders"
    requires forall a :: '/' !in a ==>
      && path != prefix + "/api/v1/orders/" + a
      && path != prefix + "/api/v1/orders/" + a + "/pay"
      && path != prefix + "/api/v1/orders/" + a + "/cancel"
    ensures Expected(prefix, verb, path) == NotFound
  {
    hide PathOf;
    forall op, arg
      ensures !IsPathUnder(prefix, op, arg, path)
    {
      if prefix <= path {
        assert path == prefix + path[|prefix|..];
        PartsJoin(prefix, op, arg);
      }
    }
  }

  /** The requests of the client on the wire: method, path, media type and document. */
  lemma {:induction false} RequestsOnTheWire(libs: Libs, base: string, q: CreateOrderRequest, p: PayOrderRequest, id: Uuid)
    ensures CreateCall(libs, base, q) == Request("POST", base + "/api/v1/orders", "application/json", Some(
              Obj([Member("hull_uuid", Str(libs.text.printUuid(q.hull))), Member("engine_uuid", Str(libs.text.printUuid(q.engine)))]
                  + (if !q.shield.isSet then [] else [Member("shield_uuid", if q.shield.isNull then Null else Str(libs.text.printUuid(q.shield.value)))])
                  + (if !q.weapon.isSet then [] else [Member("weapon_uuid", if q.weapon.isNull then Null else Str(libs.text.printUuid(q.weapon.value)))]))))
    ensures GetCall(libs, base, id) == Request("GET", base + "/api/v1/orders/" + libs.text.printUuid(id), "", None)
    ensures PayCall(libs, base, p, id) == Request("POST", base + "/api/v1/orders/" + libs.text.printUuid(id) + "/pay", "application/json",
                                                  Some(Obj([Member("payment_method", Str(p.payMethod))])))
    ensures CancelCall(libs, base, id) == Request("POST", base + "/api/v1/orders/" + libs.text.printUuid(id) + "/cancel", "", None)
  {
    hide ToJson, PathOf;
    CreateRequestWritten(libs.text, q);
    PlainMessagesWritten(libs.text, CreateOrderResponse(0, 0), p, PayOrderResponse(0), ErrorBody(0, ""));
    PartsJoin(base, CreateOrder, "");
    PartsJoin(base, GetOrder, libs.text.printUuid(id));
    PartsJoin(base, PayOrder, libs.text.printUuid(id));
    PartsJoin(base, CancelOrder, libs.text.printUuid(id));
  }

  // ---- Calls ----

  /** What the caller of the client gets, when the server URL has the path `serverPath`. */
  ghost function CallCreate(libs: Libs, serverPath: string, prefix: string, h: Handlers, q: CreateOrderRequest)
    : Result<CreateOrderRes, ClientError>
  {
    var reply := Serve(libs, prefix, h, CreateCall(libs, TrimSlashes(serverPath), q));
    if reply.Declared? then DecodeCreate(libs, reply.response) else Err(UndeclaredReply)
  }

  ghost function CallGet(libs: Libs, serverPath: string, prefix: string, h: Handlers, id: Uuid)
    : Result<GetOrderRes, ClientError>
  {
    var reply := Serve(libs, prefix, h, GetCall(libs, TrimSlashes(serverPath), id));
    if reply.Declared? then DecodeGet(libs, reply.response) else Err(UndeclaredReply)
  }

  ghost function CallPay(libs: Libs, serverPath: string, prefix: string, h: Handlers, q: PayOrderRequest, id: Uuid)
    : Result<PayOrderRes, ClientError>
  {
    var reply := Serve(libs, prefix, h, PayCall(libs, TrimSlashes(serverPath), q, id));
    if reply.Declared? then DecodePay(libs, reply.response) else Err(UndeclaredReply)
  }

  ghost function CallCancel(libs: Libs, serverPath: string, prefix: string, h: Handlers, id: Uuid)
    : Result<CancelOrderRes, ClientError>
  {
    var reply := Serve(libs, prefix, h, CancelCall(libs, TrimSlashes(serverPath), id));
    if reply.Declared? then DecodeCancel(libs, reply.response) else Err(UndeclaredReply)
  }

  // ---- Calls, as the client makes them ----

  method SendCreate(libs: Libs, serverPath: string, prefix: string, h: Handlers, q: CreateOrderRequest)
    returns (res: Result<CreateOrderRes, ClientError>)
    ensures res == CallCreate(libs, serverPath, prefix, h, q)
  {
    hide Serve, DecodeCreate, ToJson, ClientPath, TrimSlashes;
    var path := BuildPath(libs, TrimSlashes(serverPath), CreateOrder, 0);
    var body := WriteJson(libs.text, CREATE_REQUEST, CreateRequestVals(q));
    var reply := ServeRequest(libs, prefix, h, Request("POST", path, JSON, Some(body)));
    if !reply.Declared? {
      return Err(UndeclaredReply);
    }
    res := ReadCreate(libs, reply.response);
  }

  method SendGet(libs: Libs, serverPath: string, prefix: string, h: Handlers, id: Uuid)
    returns (res: Result<GetOrderRes, ClientError>)
    ensures res == CallGet(libs, serverPath, prefix, h, id)
  {
    hide Serve, DecodeGet, ClientPath, TrimSlashes;
    var path := BuildPath(libs, TrimSlashes(serverPath), GetOrder, id);
    var reply := ServeRequest(libs, prefix, h, Request("GET", path, "", None));
    if !reply.Declared? {
      return Err(UndeclaredReply);
    }
    res := ReadGet(libs, reply.response);
  }

  method SendPay(libs: Libs, serverPath: string, prefix: string, h: Handlers, q: PayOrderRequest, id: Uuid)
    returns (res: Result<PayOrderRes, ClientError>)
    ensures res == CallPay(libs, serverPath, prefix, h, q, id)
  {
    hide Serve, DecodePay, ToJson, ClientPath, TrimSlashes;
    var path := BuildPath(libs, TrimSlashes(serverPath), PayOrder, id);
    var body := WriteJson(libs.text, PAY_REQUEST, PayRequestVals(q));
    var reply := ServeRequest(libs, prefix, h, Request("POST", path, JSON, Some(body)));
    if !reply.Declared? {
      return Err(UndeclaredReply);
    }
    res := ReadPay(libs, reply.response);
  }

  method SendCancel(libs: Libs, serverPath: string, prefix: string, h: Handlers, id: Uuid)
    returns (res: Result<CancelOrderRes, ClientError>)
    ensures res == CallCancel(libs, serverPath, prefix, h, id)
  {
    hide Serve, DecodeCancel, ClientPath, TrimSlashes;
    var path := BuildPath(libs, TrimSlashes(serverPath), CancelOrder, id);
    var reply := ServeRequest(libs, prefix, h, Request("POST", path, "", None));
    if !reply.Declared? {
      return Err(UndeclaredReply);
    }
    res := ReadCancel(libs, reply.response);
  }

  // ---- Transparency ----

  /** What a caller of the handler itself would get; an error return has no declared response. */
  function Directly<R>(answer: Option<R>): Result<R, ClientError> {
    match answer
    case Some(res) => Ok(res)
    case None => Err(UndeclaredReply)
  }

  /** Create: the call is the handler's call, whatever it answers. The handler sees the two
      optional components in canonical form, so `Get` gives it what it gives the caller. */
  lemma {:induction false} CreateTransparent(libs: Libs, serverPath: string, prefix: string, h: Handlers,
                                             q: CreateOrderRequest)
    requires libs.Sound() && TrimSlashes(serverPath) == prefix
    ensures CallCreate(libs, serverPath, prefix, h, q) == Directly(h.create(NormalCreate(q)))
    ensures NormalCreate(q).shield.Get() == q.shield.Get() && NormalCreate(q).weapon.Get() == q.weapon.Get()
  {
    hide Expected, EncodeCreate, DecodeCreate, DecodeCreateRequest, ClientPath, TrimSlashes;
    ClientPathRoutes(libs, prefix, "POST", CreateOrder, 0);
    CreateRequestDecodes(libs, prefix, q);
    if h.create(NormalCreate(q)).Some? {
      CreateResSurvives(libs, h.create(NormalCreate(q)).value);
    }
  }

  /** Get: the caller receives what the handler answered, in the form the codec gives it. */
  lemma {:induction false} GetTransparent(libs: Libs, serverPath: string, prefix: string, h: Handlers, id: Uuid)
    requires libs.Sound() && TrimSlashes(serverPath) == prefix
    ensures CallGet(libs, serverPath, prefix, h, id) ==
            if h.get(id).Some? then Received(libs, h.get(id).value) else Err(UndeclaredReply)
  {
    hide Expected, EncodeGet, DecodeGet, DecodeParam, ClientPath, Received, TrimSlashes;
    ClientPathRoutes(libs, prefix, "GET", GetOrder, id);
    ParamDecodes(libs, id);
    if h.get(id).Some? {
      GetResArrives(libs, h.get(id).value);
    }
  }

  /** So the call is the handler's call exactly when the client accepts the response as it is. */
  lemma {:induction false} GetTransparentExactly(libs: Libs, serverPath: string, prefix: string, h: Handlers, id: Uuid)
    requires libs.Sound() && TrimSlashes(serverPath) == prefix
    ensures CallGet(libs, serverPath, prefix, h, id) == Directly(h.get(id))
       <==> (h.get(id).Some? ==> GetResFits(libs, h.get(id).value))
  {
    hide CallGet, Received, GetResFits, EncodeGet, DecodeGet, TrimSlashes;
    GetTransparent(libs, serverPath, prefix, h, id);
    if h.get(id).Some? {
      GetResArrives(libs, h.get(id).value);
      GetResSurvivesExactly(libs, h.get(id).value);
    }
  }

  /** Pay: for a valid method the call is the handler's call; with any other method the server
      stops the request before the handler, whatever the handler is. */
  lemma {:induction false} PayTransparent(libs: Libs, serverPath: string, prefix: string, h: Handlers,
                                          q: PayOrderRequest, id: Uuid)
    requires libs.Sound() && TrimSlashes(serverPath) == prefix
    ensures ValidPaymentMethod(q.payMethod) ==> CallPay(libs, serverPath, prefix, h, q, id) == Directly(h.pay(q, id))
    ensures !ValidPaymentMethod(q.payMethod) ==>
              Serve(libs, prefix, h, PayCall(libs, prefix, q, id)) == ErrorPage(DecodeRequest)
  {
    hide Expected, EncodePay, DecodePay, DecodeParam, DecodePayRequest, ClientPath, ValidPaymentMethod, TrimSlashes;
    ClientPathRoutes(libs, prefix, "POST", PayOrder, id);
    ParamDecodes(libs, id);
    PayRequestDecodes(libs, prefix, q, id);
    if h.pay(q, id).Some? {
      PayResSurvives(libs, h.pay(q, id).value);
    }
  }

  /** Cancel: the call is the handler's call. */
  lemma {:induction false} CancelTransparent(libs: Libs, serverPath: string, prefix: string, h: Handlers, id: Uuid)
    requires libs.Sound() && TrimSlashes(serverPath) == prefix
    ensures CallCancel(libs, serverPath, prefix, h, id) == Directly(h.cancel(id))
  {
    hide Expected, EncodeCancel, DecodeCancel, DecodeParam, ClientPath, TrimSlashes;
    ClientPathRoutes(libs, prefix, "POST", CancelOrder, id);
    ParamDecodes(libs, id);
    if h.cancel(id).Some? {
      CancelResSurvives(libs, h.cancel(id).value);
    }
  }
}
