/** The message types of the API: their structs, field tables and required-field masks. */
module Messages {
  import opened Domain
  import opened Json
  import opened RequiredFields
  import opened Codec

  datatype OrderDto = OrderDto(
    orderUuid: Uuid,
    hull: Uuid,
    engine: Uuid,
    shield: OptNil<Uuid>,
    weapon: OptNil<Uuid>,
    totalPrice: Int64,
    transaction: OptNil<Uuid>,
    payMethod: OptNil<string>,
    status: string,
    createdAt: Time)

  datatype CreateOrderRequest = CreateOrderRequest(hull: Uuid, engine: Uuid, shield: OptNil<Uuid>, weapon: OptNil<Uuid>)

  datatype CreateOrderResponse = CreateOrderResponse(orderUuid: Uuid, totalPrice: Int64)

  datatype PayOrderRequest = PayOrderRequest(payMethod: string)

  datatype PayOrderResponse = PayOrderResponse(transaction: Uuid)

  datatype CancelOrderResponse = CancelOrderResponse

  /** `Error`; the four kinds of error response are the same struct under other names. */
  datatype ErrorBody = ErrorBody(code: Int64, message: string)

  // ---- Tables ----

  const ORDER_DTO: Schema := [
    Field("order_uuid", KUuid), Field("hull_uuid", KUuid), Field("engine_uuid", KUuid),
    Field("shield_uuid", KOptUuid), Field("weapon_uuid", KOptUuid), Field("total_price", KInt),
    Field("transaction_uuid", KOptUuid), Field("payment_method", KOptText),
    Field("status", KText), Field("created_at", KTime) ]
  const ORDER_DTO_MASKS: seq<bv8> := [0x27, 0x03]

  const CREATE_REQUEST: Schema := [
    Field("hull_uuid", KUuid), Field("engine_uuid", KUuid),
    Field("shield_uuid", KOptUuid), Field("weapon_uuid", KOptUuid) ]
  const CREATE_REQUEST_MASKS: seq<bv8> := [0x03]

  const CREATE_RESPONSE: Schema := [Field("order_uuid", KUuid), Field("total_price", KInt)]
  const CREATE_RESPONSE_MASKS: seq<bv8> := [0x03]

  const PAY_REQUEST: Schema := [Field("payment_method", KText)]
  const PAY_REQUEST_MASKS: seq<bv8> := [0x01]

  const PAY_RESPONSE: Schema := [Field("transaction_uuid", KUuid)]
  const PAY_RESPONSE_MASKS: seq<bv8> := [0x01]

  const CANCEL_RESPONSE: Schema := []
  const CANCEL_RESPONSE_MASKS: seq<bv8> := []

  const ERROR_BODY: Schema := [Field("code", KInt), Field("message", KText)]
  const ERROR_BODY_MASKS: seq<bv8> := [0x03]

  /** A table that the generated template is sound for. */
  ghost predicate GoodTable(schema: Schema, masks: seq<bv8>) {
    DistinctNames(schema) && MasksFit(masks, schema)
  }

  lemma {:induction false} ByteBits(b: bv8, masks: seq<bv8>, i: nat)
    requires i < |masks| && masks[i] == b
    ensures forall k: nat :: k < 8 ==> (InSet(masks, 8 * i + k) <==> Bit(b, k))
  {
    hide Bit;
    forall k: nat | k < 8
      ensures InSet(masks, 8 * i + k) <==> Bit(b, k)
    {
      InSetAt(masks, i, k);
    }
  }

  lemma {:induction false} Bits27()
    ensures Bit(0x27, 0) && Bit(0x27, 1) && Bit(0x27, 2) && !Bit(0x27, 3) && !Bit(0x27, 4) && Bit(0x27, 5)
    ensures !Bit(0x27, 6) && !Bit(0x27, 7)
  {
  }

  lemma {:induction false} Bits03()
    ensures Bit(0x03, 0) && Bit(0x03, 1)
    ensures forall k: nat :: 2 <= k < 8 ==> !Bit(0x03, k)
    ensures Bit(0x01, 0)
    ensures forall k: nat :: 1 <= k < 8 ==> !Bit(0x01, k)
  {
  }

  lemma {:induction false} OrderDtoNames()
    ensures DistinctNames(ORDER_DTO)
  {
    var lengths := seq(10, i requires 0 <= i < 10 => |ORDER_DTO[i].name|);
    assert lengths == [10, 9, 11, 11, 11, 11, 16, 14, 6, 10];
    assert ORDER_DTO[2].name[0] == 'e' && ORDER_DTO[3].name[0] == 's' && ORDER_DTO[4].name[0] == 'w';
    assert ORDER_DTO[5].name[0] == 't' && ORDER_DTO[0].name[0] == 'o' && ORDER_DTO[9].name[0] == 'c';
    forall i, j | 0 <= i < j < 10
      ensures ORDER_DTO[i].name != ORDER_DTO[j].name
    {
      assert lengths[i] == |ORDER_DTO[i].name| && lengths[j] == |ORDER_DTO[j].name|;
    }
  }

  lemma {:induction false} OrderDtoTable()
    ensures GoodTable(ORDER_DTO, ORDER_DTO_MASKS)
  {
    hide Bit, InSet;
    OrderDtoNames();
    Bits27();
    Bits03();
    ByteBits(0x27, ORDER_DTO_MASKS, 0);
    ByteBits(0x03, ORDER_DTO_MASKS, 1);
    forall j: nat
      ensures InSet(ORDER_DTO_MASKS, j) <==> j < 10 && ORDER_DTO[j].Required()
    {
      OutOfRange(ORDER_DTO_MASKS, j);
      assert j < 8 ==> InSet(ORDER_DTO_MASKS, 8 * 0 + j) == Bit(0x27, j);
      assert 8 <= j < 16 ==> InSet(ORDER_DTO_MASKS, 8 * 1 + (j - 8)) == Bit(0x03, j - 8);
    }
  }

  lemma {:induction false} OutOfRange(masks: seq<bv8>, j: nat)
    ensures j >= 8 * |masks| ==> !InSet(masks, j)
  {
  }

  /** A one-byte mask whose first `n` bits are set fits a table whose first `n` fields are required. */
  lemma {:induction false} LowBitsFit(masks: seq<bv8>, schema: Schema, n: nat)
    requires |masks| == 1 && n <= |schema| <= 8
    requires forall k: nat :: k < 8 ==> (Bit(masks[0], k) <==> k < n)
    requires forall j :: 0 <= j < |schema| ==> (schema[j].Required() <==> j < n)
    ensures MasksFit(masks, schema)
  {
    hide Bit, InSet;
    ByteBits(masks[0], masks, 0);
    forall j: nat
      ensures InSet(masks, j) <==> j < |schema| && schema[j].Required()
    {
      OutOfRange(masks, j);
      assert j < 8 ==> InSet(masks, 8 * 0 + j) == Bit(masks[0], j);
    }
  }

  lemma {:induction false} SmallTables()
    ensures GoodTable(CREATE_REQUEST, CREATE_REQUEST_MASKS)
    ensures GoodTable(CREATE_RESPONSE, CREATE_RESPONSE_MASKS)
    ensures GoodTable(PAY_REQUEST, PAY_REQUEST_MASKS)
    ensures GoodTable(PAY_RESPONSE, PAY_RESPONSE_MASKS)
    ensures GoodTable(CANCEL_RESPONSE, CANCEL_RESPONSE_MASKS)
    ensures GoodTable(ERROR_BODY, ERROR_BODY_MASKS)
  {
    hide Bit, InSet;
    Bits03();
    assert CREATE_REQUEST[2].name[0] == 's' && CREATE_REQUEST[3].name[0] == 'w' && CREATE_REQUEST[1].name[0] == 'e';
    assert |CREATE_REQUEST[0].name| == 9 && |CREATE_REQUEST[1].name| == 11;
    assert |CREATE_REQUEST[2].name| == 11 && |CREATE_REQUEST[3].name| == 11;
    assert |CREATE_RESPONSE[0].name| == 10 && |CREATE_RESPONSE[1].name| == 11;
    assert |ERROR_BODY[0].name| == 4 && |ERROR_BODY[1].name| == 7;
    LowBitsFit(CREATE_REQUEST_MASKS, CREATE_REQUEST, 2);
    LowBitsFit(CREATE_RESPONSE_MASKS, CREATE_RESPONSE, 2);
    LowBitsFit(PAY_REQUEST_MASKS, PAY_REQUEST, 1);
    LowBitsFit(PAY_RESPONSE_MASKS, PAY_RESPONSE, 1);
    LowBitsFit(ERROR_BODY_MASKS, ERROR_BODY, 2);
    forall j: nat
      ensures !InSet(CANCEL_RESPONSE_MASKS, j)
    {
      OutOfRange(CANCEL_RESPONSE_MASKS, j);
    }
  }

  // ---- Structs as field lists ----

  function OrderDtoVals(d: OrderDto): (vs: seq<Val>)
    ensures Fits(vs, ORDER_DTO)
  {
    [ VUuid(d.orderUuid), VUuid(d.hull), VUuid(d.engine), VOptUuid(d.shield), VOptUuid(d.weapon),
      VInt(d.totalPrice), VOptUuid(d.transaction), VOptText(d.payMethod), VText(d.status), VTime(d.createdAt) ]
  }

  function OrderDtoOf(vs: seq<Val>): (d: OrderDto)
    requires Fits(vs, ORDER_DTO)
    ensures OrderDtoVals(d) == vs
  {
    OrderDto(vs[0].u, vs[1].u, vs[2].u, vs[3].ou, vs[4].ou, vs[5].n, vs[6].ou, vs[7].os, vs[8].s, vs[9].t)
  }

  function CreateRequestVals(q: CreateOrderRequest): (vs: seq<Val>)
    ensures Fits(vs, CREATE_REQUEST)
  {
    [VUuid(q.hull), VUuid(q.engine), VOptUuid(q.shield), VOptUuid(q.weapon)]
  }

  function CreateRequestOf(vs: seq<Val>): (q: CreateOrderRequest)
    requires Fits(vs, CREATE_REQUEST)
    ensures CreateRequestVals(q) == vs
  {
    CreateOrderRequest(vs[0].u, vs[1].u, vs[2].ou, vs[3].ou)
  }

  function CreateResponseVals(r: CreateOrderResponse): (vs: seq<Val>)
    ensures Fits(vs, CREATE_RESPONSE)
  {
    [VUuid(r.orderUuid), VInt(r.totalPrice)]
  }

  function CreateResponseOf(vs: seq<Val>): (r: CreateOrderResponse)
    requires Fits(vs, CREATE_RESPONSE)
    ensures CreateResponseVals(r) == vs
  {
    CreateOrderResponse(vs[0].u, vs[1].n)
  }

  function PayRequestVals(q: PayOrderRequest): (vs: seq<Val>)
    ensures Fits(vs, PAY_REQUEST)
  {
    [VText(q.payMethod)]
  }

  function PayRequestOf(vs: seq<Val>): (q: PayOrderRequest)
    requires Fits(vs, PAY_REQUEST)
    ensures PayRequestVals(q) == vs
  {
    PayOrderRequest(vs[0].s)
  }

  function PayResponseVals(r: PayOrderResponse): (vs: seq<Val>)
    ensures Fits(vs, PAY_RESPONSE)
  {
    [VUuid(r.transaction)]
  }

  function PayResponseOf(vs: seq<Val>): (r: PayOrderResponse)
    requires Fits(vs, PAY_RESPONSE)
    ensures PayResponseVals(r) == vs
  {
    PayOrderResponse(vs[0].u)
  }

  function ErrorVals(e: ErrorBody): (vs: seq<Val>)
    ensures Fits(vs, ERROR_BODY)
  {
    [VInt(e.code), VText(e.message)]
  }

  function ErrorOf(vs: seq<Val>): (e: ErrorBody)
    requires Fits(vs, ERROR_BODY)
    ensures ErrorVals(e) == vs
  {
    ErrorBody(vs[0].n, vs[1].s)
  }

  // ---- A JSON document against a table ----

  function ToJson(text: TextCodec, schema: Schema, vals: seq<Val>): Json
    requires |vals| == |schema|
  {
    Obj(EncodedFields(text, schema, vals, |schema|))
  }

  function FromJson(text: TextCodec, schema: Schema, j: Json): Result<seq<Val>, DecodeError> {
    if j.Obj? then Decoded(text, schema, j.members, ZeroStruct(schema)) else Err(NotAnObject)
  }

  lemma {:induction false} DecodedFits(text: TextCodec, schema: Schema, j: Json)
    requires FromJson(text, schema, j).Ok?
    ensures Fits(FromJson(text, schema, j).value, schema)
  {
    hide FirstBad, Missing, Last;
  }

  lemma {:induction false} JsonRoundTrip(text: TextCodec, schema: Schema, masks: seq<bv8>, vals: seq<Val>)
    requires text.UuidsRoundTrip() && GoodTable(schema, masks) && Fits(vals, schema)
    ensures var res := FromJson(text, schema, ToJson(text, schema, vals));
            if AllReadable(text, vals) then res == Ok(Normals(text, vals))
            else exists j :: 0 <= j < |vals| && Normal(text, vals[j]).None? && res == Err(BadField(schema[j].name))
  {
    hide Decoded;
    RoundTrip(text, schema, vals);
  }

  /** The generated `Encode` into a fresh buffer. */
  method WriteJson(text: TextCodec, schema: Schema, vals: seq<Val>) returns (j: Json)
    requires |vals| == |schema|
    ensures j == ToJson(text, schema, vals)
  {
    var e := new Encoder();
    EncodeFields(text, schema, vals, e);
    j := Obj(e.members);
  }

  /** The generated `Decode` of a body into a zero struct. */
  method ReadJson(text: TextCodec, schema: Schema, masks: seq<bv8>, j: Json) returns (res: Result<seq<Val>, DecodeError>)
    requires GoodTable(schema, masks)
    ensures res == FromJson(text, schema, j)
  {
    if !j.Obj? {
      return Err(NotAnObject);
    }
    var s := new Val[|schema|](k requires 0 <= k < |schema| => Zero(schema[k].kind));
    assert s[..] == ZeroStruct(schema);
    var err := Decode(text, schema, masks, j.members, s);
    if err.Some? {
      return Err(err.value);
    }
    return Ok(s[..]);
  }

  // ---- What a request body must be ----

  /** The members say what the request has: the last member with a key decides, null is kept
      apart from absent, and a component no member names is unset. */
  ghost predicate SaysCreate(text: TextCodec, ms: seq<Member>, q: CreateOrderRequest) {
    && (forall i :: 0 <= i < |ms| && (forall k :: i < k < |ms| ==> ms[k].key != ms[i].key) ==>
          && (ms[i].key == "hull_uuid" ==> ms[i].val.Str? && text.parseUuid(ms[i].val.s) == Some(q.hull))
          && (ms[i].key == "engine_uuid" ==> ms[i].val.Str? && text.parseUuid(ms[i].val.s) == Some(q.engine))
          && (ms[i].key == "shield_uuid" ==>
                if ms[i].val == Null then q.shield == OptNil(0, true, true)
                else ms[i].val.Str? && text.parseUuid(ms[i].val.s) == Some(q.shield.value) && q.shield.isSet && !q.shield.isNull)
          && (ms[i].key == "weapon_uuid" ==>
                if ms[i].val == Null then q.weapon == OptNil(0, true, true)
                else ms[i].val.Str? && text.parseUuid(ms[i].val.s) == Some(q.weapon.value) && q.weapon.isSet && !q.weapon.isNull))
    && ((forall i :: 0 <= i < |ms| ==> ms[i].key != "shield_uuid") ==> q.shield == OptNil(0, false, false))
    && ((forall i :: 0 <= i < |ms| ==> ms[i].key != "weapon_uuid") ==> q.weapon == OptNil(0, false, false))
  }

  /** A create request is accepted iff it is an object in which every hull, engine, shield and
      weapon is a UUID, or null for the last two, and a hull and an engine occur. */
  lemma {:induction false} CreateBodyExactly(text: TextCodec, j: Json)
    ensures var res := FromJson(text, CREATE_REQUEST, j);
      && (res.Ok? <==>
            && j.Obj?
            && (forall i :: 0 <= i < |j.members| && j.members[i].key in ["hull_uuid", "engine_uuid"] ==>
                  j.members[i].val.Str? && text.parseUuid(j.members[i].val.s).Some?)
            && (forall i :: 0 <= i < |j.members| && j.members[i].key in ["shield_uuid", "weapon_uuid"] ==>
                  j.members[i].val == Null || (j.members[i].val.Str? && text.parseUuid(j.members[i].val.s).Some?))
            && (exists i :: 0 <= i < |j.members| && j.members[i].key == "hull_uuid")
            && (exists i :: 0 <= i < |j.members| && j.members[i].key == "engine_uuid"))
      && (res.Ok? ==> Fits(res.value, CREATE_REQUEST) && SaysCreate(text, j.members, CreateRequestOf(res.value)))
  {
    hide Decoded, DecodeVal;
    if j.Obj? {
      SmallTables();
      var ms := j.members;
      DecodedExactly(text, CREATE_REQUEST, ms, ZeroStruct(CREATE_REQUEST));
      CreateMembers(text, ms);
      if FromJson(text, CREATE_REQUEST, j).Ok? {
        DecodedFits(text, CREATE_REQUEST, j);
        CreateSays(text, ms, FromJson(text, CREATE_REQUEST, j).value);
      }
    }
  }

  lemma {:induction false} CreateMembers(text: TextCodec, ms: seq<Member>)
    ensures (forall i, j :: 0 <= i < |ms| && 0 <= j < 4 && ms[i].key == CREATE_REQUEST[j].name
               ==> DecodeVal(text, CREATE_REQUEST[j].kind, ms[i].val).Some?)
       <==> && (forall i :: 0 <= i < |ms| && ms[i].key in ["hull_uuid", "engine_uuid"] ==>
                  ms[i].val.Str? && text.parseUuid(ms[i].val.s).Some?)
            && (forall i :: 0 <= i < |ms| && ms[i].key in ["shield_uuid", "weapon_uuid"] ==>
                  ms[i].val == Null || (ms[i].val.Str? && text.parseUuid(ms[i].val.s).Some?))
    ensures (forall j :: 0 <= j < 4 && CREATE_REQUEST[j].Required() ==> exists i :: 0 <= i < |ms| && ms[i].key == CREATE_REQUEST[j].name)
       <==> (exists i :: 0 <= i < |ms| && ms[i].key == "hull_uuid") && (exists i :: 0 <= i < |ms| && ms[i].key == "engine_uuid")
  {
    assert CREATE_REQUEST[0] == Field("hull_uuid", KUuid) && CREATE_REQUEST[1] == Field("engine_uuid", KUuid);
    assert CREATE_REQUEST[2] == Field("shield_uuid", KOptUuid) && CREATE_REQUEST[3] == Field("weapon_uuid", KOptUuid);
  }

  lemma {:induction false} CreateSays(text: TextCodec, ms: seq<Member>, vs: seq<Val>)
    requires Fits(vs, CREATE_REQUEST)
    requires forall j :: 0 <= j < 4 ==>
      && ((forall i :: 0 <= i < |ms| ==> ms[i].key != CREATE_REQUEST[j].name) ==> vs[j] == ZeroStruct(CREATE_REQUEST)[j])
      && (forall i :: 0 <= i < |ms| && ms[i].key == CREATE_REQUEST[j].name
                      && (forall k :: i < k < |ms| ==> ms[k].key != CREATE_REQUEST[j].name)
            ==> DecodeVal(text, CREATE_REQUEST[j].kind, ms[i].val) == Some(vs[j]))
    ensures SaysCreate(text, ms, CreateRequestOf(vs))
  {
    hide DecodeVal;
    var q := CreateRequestOf(vs);
    assert CREATE_REQUEST[0] == Field("hull_uuid", KUuid) && CREATE_REQUEST[1] == Field("engine_uuid", KUuid);
    assert CREATE_REQUEST[2] == Field("shield_uuid", KOptUuid) && CREATE_REQUEST[3] == Field("weapon_uuid", KOptUuid);
    forall i | 0 <= i < |ms|
      ensures DecodeVal(text, KUuid, ms[i].val) == Some(VUuid(q.hull)) ==>
                ms[i].val.Str? && text.parseUuid(ms[i].val.s) == Some(q.hull)
      ensures DecodeVal(text, KUuid, ms[i].val) == Some(VUuid(q.engine)) ==>
                ms[i].val.Str? && text.parseUuid(ms[i].val.s) == Some(q.engine)
      ensures DecodeVal(text, KOptUuid, ms[i].val) == Some(VOptUuid(q.shield)) ==>
                if ms[i].val == Null then q.shield == OptNil(0, true, true)
                else ms[i].val.Str? && text.parseUuid(ms[i].val.s) == Some(q.shield.value) && q.shield.isSet && !q.shield.isNull
      ensures DecodeVal(text, KOptUuid, ms[i].val) == Some(VOptUuid(q.weapon)) ==>
                if ms[i].val == Null then q.weapon == OptNil(0, true, true)
                else ms[i].val.Str? && text.parseUuid(ms[i].val.s) == Some(q.weapon.value) && q.weapon.isSet && !q.weapon.isNull
    {
      FitsExactly(text, ms[i].val, q.hull, 0, "", 0, q.shield, OptNil("", false, false));
      FitsExactly(text, ms[i].val, q.engine, 0, "", 0, q.weapon, OptNil("", false, false));
    }
  }

  /** A pay request is accepted iff it is an object in which every payment method is a string,
      and one occurs; the last one counts. */
  lemma {:induction false} PayBodyExactly(text: TextCodec, j: Json)
    ensures var res := FromJson(text, PAY_REQUEST, j);
      && (res.Ok? <==>
            && j.Obj?
            && (forall i :: 0 <= i < |j.members| && j.members[i].key == "payment_method" ==> j.members[i].val.Str?)
            && (exists i :: 0 <= i < |j.members| && j.members[i].key == "payment_method"))
      && (res.Ok? ==> Fits(res.value, PAY_REQUEST) && forall i ::
            && 0 <= i < |j.members| && j.members[i].key == "payment_method"
            && (forall k :: i < k < |j.members| ==> j.members[k].key != "payment_method")
            ==> j.members[i].val == Str(PayRequestOf(res.value).payMethod))
  {
    hide Decoded;
    if j.Obj? {
      SmallTables();
      assert PAY_REQUEST[0] == Field("payment_method", KText);
      DecodedExactly(text, PAY_REQUEST, j.members, ZeroStruct(PAY_REQUEST));
      if FromJson(text, PAY_REQUEST, j).Ok? {
        DecodedFits(text, PAY_REQUEST, j);
      }
    }
  }

  // ---- What is on the wire ----

  lemma {:induction false} EncodedLast(text: TextCodec, schema: Schema, vals: seq<Val>, n: nat)
    requires |vals| == |schema| && 0 < n <= |schema|
    ensures EncodedFields(text, schema, vals, n) == EncodedFields(text, schema, vals, n - 1)
              + (if IsWritten(vals[n - 1]) then [Member(schema[n - 1].name, EncodeVal(text, vals[n - 1]))] else [])
  {
  }

  /** An order as a document, key by key: an optional field is absent, null or a value. */
  lemma {:induction false} OrderDtoWritten(text: TextCodec, d: OrderDto)
    ensures ToJson(text, ORDER_DTO, OrderDtoVals(d)) ==
            Obj([ Member("order_uuid", Str(text.printUuid(d.orderUuid))), Member("hull_uuid", Str(text.printUuid(d.hull))),
                  Member("engine_uuid", Str(text.printUuid(d.engine))) ]
                + (if !d.shield.isSet then [] else [Member("shield_uuid", if d.shield.isNull then Null else Str(text.printUuid(d.shield.value)))])
                + (if !d.weapon.isSet then [] else [Member("weapon_uuid", if d.weapon.isNull then Null else Str(text.printUuid(d.weapon.value)))])
                + [Member("total_price", Int(d.totalPrice as int))]
                + (if !d.transaction.isSet then [] else [Member("transaction_uuid", if d.transaction.isNull then Null else Str(text.printUuid(d.transaction.value)))])
                + (if !d.payMethod.isSet then [] else [Member("payment_method", if d.payMethod.isNull then Null else Str(d.payMethod.value))])
                + [Member("status", Str(d.status)), Member("created_at", Str(text.printTime(d.createdAt)))])
  {
    hide EncodedFields;
    var vs := OrderDtoVals(d);
    OrderDtoStart(text, d);
    EncodedLast(text, ORDER_DTO, vs, 6);
    EncodedLast(text, ORDER_DTO, vs, 7);
    EncodedLast(text, ORDER_DTO, vs, 8);
    OrderDtoEnd(text, d);
  }

  lemma {:induction false} OrderDtoStart(text: TextCodec, d: OrderDto)
    ensures EncodedFields(text, ORDER_DTO, OrderDtoVals(d), 5) ==
            [ Member("order_uuid", Str(text.printUuid(d.orderUuid))), Member("hull_uuid", Str(text.printUuid(d.hull))),
              Member("engine_uuid", Str(text.printUuid(d.engine))) ]
            + (if !d.shield.isSet then [] else [Member("shield_uuid", if d.shield.isNull then Null else Str(text.printUuid(d.shield.value)))])
            + (if !d.weapon.isSet then [] else [Member("weapon_uuid", if d.weapon.isNull then Null else Str(text.printUuid(d.weapon.value)))])
  {
    hide EncodedFields;
    var vs := OrderDtoVals(d);
    NothingEncoded(text, ORDER_DTO, vs);
    EncodedLast(text, ORDER_DTO, vs, 1);
    EncodedLast(text, ORDER_DTO, vs, 2);
    EncodedLast(text, ORDER_DTO, vs, 3);
    EncodedLast(text, ORDER_DTO, vs, 4);
    EncodedLast(text, ORDER_DTO, vs, 5);
  }

  lemma {:induction false} OrderDtoEnd(text: TextCodec, d: OrderDto)
    ensures EncodedFields(text, ORDER_DTO, OrderDtoVals(d), 10) == EncodedFields(text, ORDER_DTO, OrderDtoVals(d), 8)
              + [Member("status", Str(d.status)), Member("created_at", Str(text.printTime(d.createdAt)))]
  {
    hide EncodedFields;
    EncodedLast(text, ORDER_DTO, OrderDtoVals(d), 9);
    EncodedLast(text, ORDER_DTO, OrderDtoVals(d), 10);
  }

  lemma {:induction false} NothingEncoded(text: TextCodec, schema: Schema, vals: seq<Val>)
    requires |vals| == |schema|
    ensures EncodedFields(text, schema, vals, 0) == []
  {
  }

  lemma {:induction false} CreateRequestWritten(text: TextCodec, q: CreateOrderRequest)
    ensures ToJson(text, CREATE_REQUEST, CreateRequestVals(q)) ==
            Obj([Member("hull_uuid", Str(text.printUuid(q.hull))), Member("engine_uuid", Str(text.printUuid(q.engine)))]
                + (if !q.shield.isSet then [] else [Member("shield_uuid", if q.shield.isNull then Null else Str(text.printUuid(q.shield.value)))])
                + (if !q.weapon.isSet then [] else [Member("weapon_uuid", if q.weapon.isNull then Null else Str(text.printUuid(q.weapon.value)))]))
  {
    hide EncodedFields;
    var vs := CreateRequestVals(q);
    NothingEncoded(text, CREATE_REQUEST, vs);
    EncodedLast(text, CREATE_REQUEST, vs, 1);
    EncodedLast(text, CREATE_REQUEST, vs, 2);
    EncodedLast(text, CREATE_REQUEST, vs, 3);
    EncodedLast(text, CREATE_REQUEST, vs, 4);
  }

  /** The messages without optional fields, key by key. */
  lemma {:induction false} PlainMessagesWritten(text: TextCodec, r: CreateOrderResponse, q: PayOrderRequest, p: PayOrderResponse, e: ErrorBody)
    ensures ToJson(text, CREATE_RESPONSE, CreateResponseVals(r)) ==
            Obj([Member("order_uuid", Str(text.printUuid(r.orderUuid))), Member("total_price", Int(r.totalPrice as int))])
    ensures ToJson(text, PAY_REQUEST, PayRequestVals(q)) == Obj([Member("payment_method", Str(q.payMethod))])
    ensures ToJson(text, PAY_RESPONSE, PayResponseVals(p)) ==
            Obj([Member("transaction_uuid", Str(text.printUuid(p.transaction)))])
    ensures ToJson(text, CANCEL_RESPONSE, []) == Obj([])
    ensures ToJson(text, ERROR_BODY, ErrorVals(e)) == Obj([Member("code", Int(e.code as int)), Member("message", Str(e.message))])
  {
    hide EncodedFields;
    NothingEncoded(text, CREATE_RESPONSE, CreateResponseVals(r));
    EncodedLast(text, CREATE_RESPONSE, CreateResponseVals(r), 1);
    EncodedLast(text, CREATE_RESPONSE, CreateResponseVals(r), 2);
    NothingEncoded(text, PAY_REQUEST, PayRequestVals(q));
    EncodedLast(text, PAY_REQUEST, PayRequestVals(q), 1);
    NothingEncoded(text, PAY_RESPONSE, PayResponseVals(p));
    EncodedLast(text, PAY_RESPONSE, PayResponseVals(p), 1);
    NothingEncoded(text, CANCEL_RESPONSE, []);
    NothingEncoded(text, ERROR_BODY, ErrorVals(e));
    EncodedLast(text, ERROR_BODY, ErrorVals(e), 1);
    EncodedLast(text, ERROR_BODY, ErrorVals(e), 2);
  }

  // ---- Validation ----

  predicate ValidStatus(status: string) {
    status == "PENDING_PAYMENT" || status == "PAID" || status == "CANCELLED"
  }

  /** The status and the payment method, if it has a value, are among the declared ones. */
  predicate EnumsValid(d: OrderDto) {
    ValidStatus(d.status) && (d.payMethod.Get().Some? ==> ValidPaymentMethod(d.payMethod.Get().value))
  }

  /** The names of the fields that fail, in order. */
  function OrderDtoFailures(d: OrderDto): (failures: seq<string>)
    ensures failures == [] <==> EnumsValid(d)
  {
    (if d.payMethod.Get().Some? && !ValidPaymentMethod(d.payMethod.Get().value) then ["payment_method"] else [])
    + (if ValidStatus(d.status) then [] else ["status"])
  }

  /** `OrderDto.Validate`: it reports nothing exactly when both enumerations are declared
      values, and otherwise names what is wrong, the method before the status. */
  method ValidateOrderDto(d: OrderDto) returns (failures: seq<string>)
    ensures failures == [] <==> EnumsValid(d)
    ensures "status" in failures <==> d.status != "PENDING_PAYMENT" && d.status != "PAID" && d.status != "CANCELLED"
    ensures "payment_method" in failures <==>
              && d.payMethod.isSet && !d.payMethod.isNull
              && d.payMethod.value != "CARD" && d.payMethod.value != "SBP"
              && d.payMethod.value != "CREDIT_CARD" && d.payMethod.value != "INVESTOR_MONEY"
    ensures failures == OrderDtoFailures(d)
  {
    failures := [];
    if d.payMethod.Get().Some? {
      if !ValidPaymentMethod(d.payMethod.Get().value) {
        failures := failures + ["payment_method"];
      }
    }
    assert |"payment_method"| != |"status"|;
    if !ValidStatus(d.status) {
      failures := failures + ["status"];
    }
  }

  // ---- Round trips of the messages ----

  /** The order a decoder makes of an encoded one, when its instant reads back as `t`. */
  function NormalDto(d: OrderDto, t: Time): OrderDto {
    d.(shield := d.shield.Canonical(0), weapon := d.weapon.Canonical(0), transaction := d.transaction.Canonical(0),
       payMethod := d.payMethod.Canonical(""), createdAt := t)
  }

  /** Encoding an order and decoding it canonicalises its optional fields and replaces its
      instant by the one its text denotes; if that text does not parse, decoding fails there. */
  lemma {:induction false} OrderDtoRoundTrip(text: TextCodec, d: OrderDto)
    requires text.UuidsRoundTrip()
    ensures FromJson(text, ORDER_DTO, ToJson(text, ORDER_DTO, OrderDtoVals(d))) ==
            match text.parseTime(text.printTime(d.createdAt))
            case Some(t) => Ok(OrderDtoVals(NormalDto(d, t)))
            case None => Err(BadField("created_at"))
  {
    hide FromJson, ToJson;
    OrderDtoTable();
    var vs := OrderDtoVals(d);
    JsonRoundTrip(text, ORDER_DTO, ORDER_DTO_MASKS, vs);
    forall j | 0 <= j < 9
      ensures Normal(text, vs[j]).Some?
    {
    }
    match text.parseTime(text.printTime(d.createdAt)) {
      case Some(t) => NormalDtoVals(text, d, t);
      case None => assert Normal(text, vs[9]).None?;
    }
  }

  lemma {:induction false} NormalDtoVals(text: TextCodec, d: OrderDto, t: Time)
    requires text.parseTime(text.printTime(d.createdAt)) == Some(t)
    ensures AllReadable(text, OrderDtoVals(d))
    ensures Normals(text, OrderDtoVals(d)) == OrderDtoVals(NormalDto(d, t))
  {
    var vs, ws := OrderDtoVals(d), OrderDtoVals(NormalDto(d, t));
    assert Normal(text, vs[0]) == Some(ws[0]) && Normal(text, vs[1]) == Some(ws[1]) && Normal(text, vs[2]) == Some(ws[2]);
    assert Normal(text, vs[3]) == Some(ws[3]) && Normal(text, vs[4]) == Some(ws[4]) && Normal(text, vs[5]) == Some(ws[5]);
    assert Normal(text, vs[6]) == Some(ws[6]) && Normal(text, vs[7]) == Some(ws[7]) && Normal(text, vs[8]) == Some(ws[8]);
    assert Normal(text, vs[9]) == Some(ws[9]);
  }

  function NormalCreate(q: CreateOrderRequest): CreateOrderRequest {
    q.(shield := q.shield.Canonical(0), weapon := q.weapon.Canonical(0))
  }

  /** A create request comes back with its two optional components canonicalised. */
  lemma {:induction false} CreateRequestRoundTrip(text: TextCodec, q: CreateOrderRequest)
    requires text.UuidsRoundTrip()
    ensures FromJson(text, CREATE_REQUEST, ToJson(text, CREATE_REQUEST, CreateRequestVals(q)))
            == Ok(CreateRequestVals(NormalCreate(q)))
  {
    hide FromJson, ToJson, GoodTable;
    SmallTables();
    var vs, ws := CreateRequestVals(q), CreateRequestVals(NormalCreate(q));
    JsonRoundTrip(text, CREATE_REQUEST, CREATE_REQUEST_MASKS, vs);
    assert Normal(text, vs[0]) == Some(ws[0]) && Normal(text, vs[1]) == Some(ws[1]);
    assert Normal(text, vs[2]) == Some(ws[2]) && Normal(text, vs[3]) == Some(ws[3]);
    assert AllReadable(text, vs) && Normals(text, vs) == ws;
  }

  /** The messages without optional fields and instants always come back. */
  lemma {:induction false} PlainMessagesRoundTrip(text: TextCodec, schema: Schema, masks: seq<bv8>, vals: seq<Val>)
    requires text.UuidsRoundTrip() && GoodTable(schema, masks) && Fits(vals, schema)
    requires forall j :: 0 <= j < |schema| ==> schema[j].kind.KUuid? || schema[j].kind.KInt? || schema[j].kind.KText?
    ensures FromJson(text, schema, ToJson(text, schema, vals)) == Ok(vals)
  {
    hide FromJson, ToJson;
    JsonRoundTrip(text, schema, masks, vals);
    forall j | 0 <= j < |vals|
      ensures Normal(text, vals[j]) == Some(vals[j])
    {
      assert HasKind(vals[j], schema[j].kind);
    }
    assert Normals(text, vals) == vals;
  }
}
