/** The payment service: it checks the request in a fixed order and draws a transaction id. */
module Payments {
  import opened Domain

  datatype PaymentError = ErrEmptyOrderUuid | ErrUnspecifiedMethod | ErrInvalidOrderUuid(raw: string)

  /** `drawn` is the id `uuid.New` would return. */
  function PayOrder(text: TextCodec, orderUuid: string, payMethod: ProtoMethod, drawn: Uuid)
    : Result<string, PaymentError>
  {
    if orderUuid == "" then Err(ErrEmptyOrderUuid)
    else if payMethod == Unspecified then Err(ErrUnspecifiedMethod)
    else if text.parseUuid(orderUuid) == None then Err(ErrInvalidOrderUuid(orderUuid))
    else Ok(text.printUuid(drawn))
  }

  /** What the order service gets for an order it stores: the drawn transaction, read back from
      its text, exactly when the caller's method is one of the four valid ones. */
  lemma {:induction false} PayOrderExactly(text: TextCodec, id: Uuid, payMethod: PaymentMethod, drawn: Uuid)
    requires text.UuidsRoundTrip()
    ensures var res := PayOrder(text, text.printUuid(id), PaymentMethodToProto(payMethod), drawn);
      && (res.Ok? <==> ValidPaymentMethod(payMethod))
      && (res.Ok? ==> text.parseUuid(res.value) == Some(drawn))
      && (res.Err? ==> res.error == ErrUnspecifiedMethod)
  {
    assert text.parseUuid(text.printUuid(id)) == Some(id);
    assert text.parseUuid(text.printUuid(drawn)) == Some(drawn);
  }

  /** The checks come in this order: an empty order id is refused before anything else, then an
      unspecified method, whatever the id, then an id that does not parse. Whatever is left is
      accepted with the text of the drawn id. */
  lemma {:induction false} PayOrderChecks(text: TextCodec, raw: string, payMethod: ProtoMethod, drawn: Uuid)
    ensures PayOrder(text, raw, payMethod, drawn) == Err(ErrEmptyOrderUuid) <==> raw == ""
    ensures PayOrder(text, raw, payMethod, drawn) == Err(ErrUnspecifiedMethod) <==> raw != "" && payMethod == Unspecified
    ensures PayOrder(text, raw, payMethod, drawn) == Err(ErrInvalidOrderUuid(raw))
       <==> raw != "" && payMethod != Unspecified && text.parseUuid(raw).None?
    ensures PayOrder(text, raw, payMethod, drawn) == Ok(text.printUuid(drawn))
       <==> raw != "" && payMethod != Unspecified && text.parseUuid(raw).Some?
  {
  }
}
