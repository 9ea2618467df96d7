/** Values shared by every part of the model: identifiers, machine integers,
    orders and the enumerations of the two gRPC services. */
module Domain {

  datatype Option<+T> = None | Some(value: T)

  datatype Result<+T, +E> = Ok(value: T) | Err(error: E)

  /** A UUID is a 16-byte value; the zero value is `uuid.Nil`. */
  newtype Uuid = u: int | 0 <= u < 0x1_0000_0000_0000_0000_0000_0000_0000_0000

  newtype Int64 = n: int | -0x8000_0000_0000_0000 <= n < 0x8000_0000_0000_0000

  /** An instant, in nanoseconds. */
  type Time = int

  /** Text form of UUIDs and instants. Both codecs are libraries, so they are
      parameters; what a theorem needs of them is in its `requires`. */
  datatype TextCodec = TextCodec(
    printUuid: Uuid -> string,
    parseUuid: string -> Option<Uuid>,
    printTime: Time -> string,
    parseTime: string -> Option<Time>)
  {
    /** Printed UUIDs parse back, are not empty and contain no slash. */
    ghost predicate UuidsRoundTrip() {
      forall u: Uuid ::
        && parseUuid(printUuid(u)) == Some(u)
        && printUuid(u) != ""
        && '/' !in printUuid(u)
    }
  }

  datatype OrderStatus = PendingPayment | Paid | Cancelled

  /** The payment method an order stores is any string a caller passed. */
  type PaymentMethod = string

  const CARD: PaymentMethod := "CARD"
  const SBP: PaymentMethod := "SBP"
  const CREDIT_CARD: PaymentMethod := "CREDIT_CARD"
  const INVESTOR_MONEY: PaymentMethod := "INVESTOR_MONEY"

  predicate ValidPaymentMethod(payMethod: PaymentMethod) {
    payMethod == CARD || payMethod == SBP || payMethod == CREDIT_CARD || payMethod == INVESTOR_MONEY
  }

  /** The PaymentMethod enumeration of the payment gRPC service. */
  datatype ProtoMethod = Unspecified | Card | Sbp | CreditCard | InvestorMoney

  /** The method a value of that enumeration stands for. */
  function MethodOf(p: ProtoMethod): Option<PaymentMethod> {
    match p
    case Unspecified => None
    case Card => Some(CARD)
    case Sbp => Some(SBP)
    case CreditCard => Some(CREDIT_CARD)
    case InvestorMoney => Some(INVESTOR_MONEY)
  }

  /** Valid methods can be told apart by their proto value; every other string has none. */
  function PaymentMethodToProto(payMethod: PaymentMethod): (p: ProtoMethod)
    ensures MethodOf(p) == if ValidPaymentMethod(payMethod) then Some(payMethod) else None
    ensures p != Unspecified <==> ValidPaymentMethod(payMethod)
    ensures p == Card <==> payMethod == "CARD"
    ensures p == Sbp <==> payMethod == "SBP"
    ensures p == CreditCard <==> payMethod == "CREDIT_CARD"
    ensures p == InvestorMoney <==> payMethod == "INVESTOR_MONEY"
  {
    if payMethod == CARD then Card
    else if payMethod == SBP then Sbp
    else if payMethod == CREDIT_CARD then CreditCard
    else if payMethod == INVESTOR_MONEY then InvestorMoney
    else Unspecified
  }

  datatype Order = Order(
    orderUuid: Uuid,
    hull: Uuid,
    engine: Uuid,
    shield: Option<Uuid>,
    weapon: Option<Uuid>,
    totalPrice: Int64,
    transaction: Option<Uuid>,
    payMethod: Option<PaymentMethod>,
    status: OrderStatus,
    createdAt: Time)

  datatype CreateInput = CreateInput(hull: Uuid, engine: Uuid, shield: Option<Uuid>, weapon: Option<Uuid>)

  /** The record CreateOrder builds. */
  function NewOrder(input: CreateInput, id: Uuid, total: Int64, now: Time): Order {
    Order(id, input.hull, input.engine, input.shield, input.weapon, total, None, None, PendingPayment, now)
  }

  function CancelledCopy(copy: Order): Order {
    copy.(status := Cancelled)
  }

  function PaidCopy(copy: Order, tx: Uuid, payMethod: PaymentMethod): Order {
    copy.(status := Paid, transaction := Some(tx), payMethod := Some(payMethod))
  }
}
