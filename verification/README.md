# Order service verification

A Dafny model of the spaceship-order system: the order service with its two repositories, the
inventory lookup and price calculation it composes with, the payment service it calls, and the
generated HTTP client and server in front of it. `dafny verify dfyconfig.toml` checks everything.

**The order protocol** (`Protocol`, `Interleavings`, `Finality`, `Serializability`). `PayOrder` and
`CancelOrder` read an order, check that it is pending, perhaps call Payment, and then save the whole
record; only the read and the save are atomic. The model is a step system with any number of
requests, each with its phase and its private stale copy, over a shared store and a ledger of every
identifier drawn. Saves, reads, Inventory and Payment calls may fail, and Payment may accept while
its answer is lost. A run is a list of events, so a theorem about runs is about every interleaving.

**The services as written** (`OrderService`, `Repositories`, `Payments`, `Inventory`, `Pricing`,
`Handler`). Classes and loops as in the source, proved against specification functions. Every
operation of the order service is cut into pieces where another request may get in, and each piece is
proved to be exactly one event of the step system, from any of its states and with either repository.
`OrderService.Interleave` serves pieces of any number of requests in any order, and its contract says that
what it performs is exactly the run that the turns ask for, so the theorems about runs are about this
code; the operations themselves are their pieces without interruption. `LostPayment` has the turns that
lose a payment.

**The wire** (`Json`, `RequiredFields`, `Codec`, `Messages`, `Router`, `Http`, `Transparency`). A JSON
object is an ordered list of members, which may repeat names (section 4 of RFC 8259). The generated
codecs of all types are one template over a table of fields, so the template is verified once for
every table and `Messages` has the tables and masks. The transparency theorems put client, router,
decoders, handler, encoders and client decoder together, for every handler.

Two properties one would expect are false of the code; the code is modelled as it is:

- The error table in `docs/architecture.md` (line 175) promises a 409 for an order that is already
  paid or cancelled. The save does not check the status again, so a cancel that read the order before
  a payment was saved still succeeds and overwrites the PAID record
  (`Finality.StaleCancelOverwritesPaid`; `LostPayment` proves that the code performs that run). What
  holds instead is exact. A *late* save is one that finds its order no longer pending: a run is
  serializable iff it has none (`Serializability.SerializableExactly`), and iff it has none every order
  has at most one winner (`Finality.OneWinnerExactly`). Final records stay iff no save is *stale*, that
  is, late and changing the record (`Finality.FinalityExactly`). Stored payments stay iff no save writes
  over a paid order (`Finality.PaymentsHeldExactly`).
- A decoded message is not always the encoded one. `Codec.RoundTrip` says what comes back for all
  values: optional fields in canonical form, and instants as their text denotes them.
  `Codec.RoundTripExactly` says when nothing changes.

Parameters and hypotheses: UUID and time text and the media type parser are functions passed in. The
theorems require that printed UUIDs parse back, are not empty and contain no slash, and that the two
media types the code writes parse as `application/json`; the transparency theorems also ask that the
path of the client's server URL, without trailing slashes, is the server's prefix, and
`Transparency.ClientRoutesExactly` shows that the client reaches its operation in no other case. An
identifier from `uuid.New` is one not drawn before in the run. Faults and instants are chosen by the
environment.

## Model

| member | source | states |
|---|---|---|
| `Protocol.StepKeepsStore` | `order/pkg/service/service.go:121-215` | One step of any request, whatever else is open, keeps every stored record under its own id and coherent: PAID iff it has a transaction iff it has a method, and then the Payment ledger has that transaction for this order and this method. |
| `Protocol.StepEvolves` | `order/pkg/service/service.go:156-220` | One step never removes an order, never changes its id, components, price or creation time, never returns it to pending, and never changes an identifier's issue or a given answer. |
| `Protocol.StepKeepsIds` | `order/pkg/service/service.go:121-191` | Every identifier ever drawn is carried by its own request, reported by it, or lost with its failure; a payment belongs to the order and method of the request that paid. |
| `Protocol.RunKeepsInv` | `order/pkg/service/service.go:90-220` | The full invariant (store, every request's stale copy and record to save, every identifier) holds after every interleaving of creates, gets, pays, cancels and failures. |
| `Interleavings.RunEvolves` | `order/pkg/service/service.go:121-215` | Between any two points of any run, overlap included: orders stay, their origin is unchanged, none goes back to PENDING_PAYMENT, answers stay. |
| `Interleavings.OriginNeverChanges` | `order/pkg/service/service.go:121-215` | Field by field, between any two points of any run: a stored order keeps its id, components, price and creation time, and does not become pending again. |
| `Interleavings.StoredOrdersCoherent` | `order/pkg/service/service.go:187-189` | In every state of every run a stored order is PAID iff it has a transaction and iff it has a method; the method is one of the four valid ones even when callers pass arbitrary strings, and the Payment ledger has the transaction for that order and for the value that stands for that very method. |
| `Interleavings.TransactionsNotShared` | `order/pkg/service/service.go:170-191` | No two stored orders ever hold the same transaction. |
| `Interleavings.PaymentsConserved` | `order/pkg/service/service.go:170-191` | In every run the transactions issued by Payment are the disjoint union of those a successful save wrote, those whose request failed after payment, and those still in flight. |
| `Interleavings.IssuedExactly` | `order/pkg/service/service.go:170-191` | The issued transactions are exactly those of the charges that Payment accepted during the run, whether or not its answer came back. |
| `Interleavings.LostExactly` | `order/pkg/service/service.go:170-191` | A transaction is lost iff the answer of its charge was lost or its request failed after it. |
| `Interleavings.WrittenIsReported` | `order/pkg/service/service.go:187-193` | The transactions that successful saves wrote during a run are exactly those held by requests that reported a payment. |
| `Interleavings.UpsertsAgreeExactly` | `order/pkg/repository/postgres.go:34-52` | The upsert (no created_at in its update list) and the whole-record replacement leave the same store iff the saved record does not try to change a stored creation time. |
| `Interleavings.BackendsAgree` | `order/pkg/repository/memory.go:24-44` | For every sequence of events, overlapping ones included, the two repositories allow the same events and reach the same state, so no get and no answer tells them apart. |
| `Finality.StepFinalExactly` | `order/pkg/service/service.go:207-215` | One step leaves every final record untouched iff it is not a stale save: a pay or cancel saving over an order another request has finished (a cancel over a cancelled order writes what is there). |
| `Finality.FinalityExactly` | `order/pkg/service/service.go:166-193` | A run keeps every PAID or CANCELLED record for ever iff none of its saves is stale. This is the exact condition under which the promised 409 protects a final order. |
| `Finality.OneWinnerExactly` | `order/pkg/service/service.go:166-220` | In every run, at most one pay or cancel of each order succeeds iff no save is late, that is, iff every pay and cancel that saves finds its order still pending. |
| `Finality.AnswerStoredExactly` | `order/pkg/service/service.go:187-219` | In every run, each order keeps the record every one of its winners was answered with iff no save is stale. |
| `Finality.PaymentsHeldExactly` | `order/pkg/service/service.go:187-193` | In every run, every payment a save ever wrote is still held by the order it was issued for iff no save writes over a paid order; then there is at most one stored payment per order. |
| `Finality.NonOverlappingExactly` | `order/pkg/service/service.go:156-220` | A run has no overlap iff at no point of it two requests that pay for or cancel the same order are both past the pending check and unanswered. |
| `Finality.FinalityWithoutOverlap` | `order/pkg/service/service.go:166-193` | If no two pay/cancel requests on one order are open together past the pending check, a final record is the same in every later state, whatever requests arrive and whatever fails. |
| `Finality.OneWinnerWithoutOverlap` | `order/pkg/service/service.go:156-220` | Without overlap at most one pay or cancel of an order ever succeeds, and the order keeps the record that request was answered with (from the two exact theorems above). |
| `Finality.OnePaymentPerOrder` | `order/pkg/service/service.go:166-193` | Without overlap at most one payment per order is ever stored and it is never lost (from the exact theorem above). |
| `Finality.StaleCancelOverwritesPaid` | `order/pkg/service/service.go:207-215` | A concrete run in which a cancel with a stale copy overwrites a PAID record: both callers get success and the transaction disappears from the store, so the no-overlap hypothesis is needed. |
| `Serializability.Simulation` | `order/pkg/service/service.go:156-220` | Forward simulation: putting all events of a request where it takes effect (a request that fails after the pending check at its read, any other at its last event) gives a valid run that ends with the store of the run and what the placed requests did. |
| `Serializability.SerializableExactly` | `order/pkg/service/service.go:156-220` | Exactly when a run is serializable: some serial run ends with the same store, the same identifiers of the answered requests and the same answers iff no save of the run is late. Overlap by itself, a failed save or a lost payment answer do no harm. |
| `Serializability.SerializableWithoutOverlap` | `order/pkg/service/service.go:156-220` | In particular every run without same-order overlap is serializable. |
| `Serializability.RunsElsewhere` | `order/pkg/service/service.go:156-220` | A request can be run alone, in one piece, from any store in which its reads go the same way, and does there what it did interleaved with others. |
| `Serializability.Serializable` | `order/pkg/service/service.go:156-220` | When no save is late, the run so built is serial and valid, has the answered requests with the same events in the same order, and ends with the same store, identifiers and answers. |
| `Serializability.SerializableComplete` | `order/pkg/service/service.go:156-220` | When every request is answered: some serial run ends in the very same state iff no save is late. |
| `Serializability.SerialiseIsSerial` | `order/pkg/service/service.go:156-220` | In the run so built nothing happens between two events of one request. |
| `Serializability.RespectsRealTime` | `order/pkg/service/service.go:156-220` | At every point of the run the requests placed so far come first in the serial run; every request answered by then is among them with all its events, and none that arrives later. |
| `Serializability.SerialRunsHaveOneWinner` | `order/pkg/service/service.go:156-220` | In a complete serial run two requests never both pay for or cancel one order. |
| `Serializability.OverlapIsNotSerializable` | `order/pkg/service/service.go:198-215` | A concrete failure: no complete serial run gives the two requests of the stale-cancel run the answers they got. |
| `Repositories.PostgresRepository.Save` | `order/pkg/repository/postgres.go:31-58` | Column by column the statement performs the specified upsert and keeps the key; on a fault nothing changes. |
| `Repositories.Repository.Save` | `order/pkg/repository/repository.go:49-52` | Through the interface, with either implementation: a save that does not fail can be read back (a new record exactly, a replaced one up to the stored creation time), every other record stays, and a failed save changes nothing. |
| `Domain.PaymentMethodToProto` | `order/pkg/service/service.go:73-86` | The strings CARD, SBP, CREDIT_CARD and INVESTOR_MONEY map to the enumeration values of those names, which can be told apart; every other string is UNSPECIFIED. |
| `Payments.PayOrderExactly` | `payment/pkg/service/service.go:33-55` | For an order the service stores, Payment accepts iff the caller's method is valid, and then the service reads back exactly the id that was drawn; the only refusal is the unspecified method. |
| `Payments.PayOrderChecks` | `payment/pkg/service/service.go:33-55` | For every request: an empty order id is refused first, then an unspecified method, then an id that does not parse; anything else is accepted with the text of the drawn id. |
| `OrderService.Service.ReadOrder` | `order/pkg/service/service.go:197-213` | The piece up to the next call (repository get, error mapping, pending check, change of status for a cancel): from any state of the system it is exactly one Read or Fail event, with the phase, local copy and answer it leads to. Get and pay begin with the same piece (lines 141-153 and 156-168). |
| `OrderService.Service.ChargeOrder` | `order/pkg/service/service.go:170-185` | The call of Payment and the assignments after it: exactly one event, Charge, ChargeLost or Fail as the method and the environment decide, from any state. |
| `OrderService.Service.BuildOrder` | `order/pkg/service/service.go:91-130` | The call of Inventory, the price loop and the new record: exactly one event, Build at the quoted price or Fail, from any state. |
| `OrderService.Service.SaveOrder` | `order/pkg/service/service.go:187-193` | The save inside the transaction manager and the return: exactly one Save or Fail event, from any state, with either repository. |
| `OrderService.Interleave` | `order/pkg/service/service.go:90-220` | Serving the pieces of any number of requests in any order of turns performs exactly the events the turns ask for: each arrival is accepted under the next number, each resumed open request performs the one event that its phase and the environment determine, and nothing else happens. These events are a run from the empty system, and it ends with the store in the repository and every request object where the step system has it. |
| `OrderService.OneRunPerTurns` | `order/pkg/service/service.go:90-220` | The turns determine the run: no two event lists are performed by the same turns. |
| `OrderService.AskedExactly` | `order/pkg/service/service.go:90-220` | Conversely an enabled event of an open request is performed under some draw, instant and faults iff it is possible: a new order has the price Inventory gives, and the map does not fail. |
| `LostPayment.CodePerformsStaleCancel` | `order/pkg/service/service.go:156-220` | With parts 1 and 2 in stock at 100 together, and nothing failing, a concrete list of ten turns performs exactly the stale-cancel run, with either repository. |
| `LostPayment.LosePayment` | `order/pkg/service/service.go:156-220` | Serving those turns on an empty store answers both the pay and the cancel with success and leaves the order cancelled without the transaction that was paid. |
| `OrderService.Service.GetOrder` | `order/pkg/service/service.go:141-153` | Uninterrupted: the answer in every case of fault, absence and presence; the call is a run of the step system for one request. |
| `OrderService.Service.PayOrder` | `order/pkg/service/service.go:156-194` | Uninterrupted: complete decision table (read fault, absent, final, Payment unreachable, invalid method, answer lost, save fault, success) with the whole new store, with either repository; the pieces one after the other are a run of the step system with this store and this answer. |
| `OrderService.Service.CancelOrder` | `order/pkg/service/service.go:197-220` | Uninterrupted: complete decision table with the whole new store, and the same run of the step system. |
| `OrderService.Service.CreateOrder` | `order/pkg/service/service.go:90-138` | Uninterrupted: Inventory failure, refusal, save fault or the stored new record at the quoted price; the store is otherwise unchanged; a run of the step system. |
| `Inventory.LookupAllPositional` | `inventory/pkg/service/service.go:71-93` | Lookup by UUIDs answers position by position, or with the error of the earliest bad position. |
| `Inventory.LookupAllExactly` | `inventory/pkg/service/service.go:71-93` | In terms of the catalogue: answered iff every UUID parses to a key, with the parts under those keys in order; otherwise the earliest that does not parse or has no part decides which error is given. |
| `Inventory.ListParts` | `inventory/pkg/service/service.go:66-115` | By UUIDs: exactly the positional lookup, type ignored. By type: for any two names in order, the first is a prefix of the second or is smaller at the first position where they differ; and every part of that type (any part for type 0) is listed as often as the catalogue holds it, and no other. |
| `Inventory.SortByName` | `inventory/pkg/service/service.go:110-112` | The in-place sort leaves the names in the order of Go strings (a prefix first, otherwise the first differing position decides) and the array a permutation of what it was. |
| `Inventory.AtMostExactly` | `inventory/pkg/service/service.go:110-112` | The recursive comparison is the order of Go strings. |
| `Inventory.MemoryRepository.ListParts` | `inventory/pkg/repository/memory.go:101-108` | The map walk, in any order, returns each catalogue entry exactly once. |
| `Inventory.GetPartIsListOfOne` | `inventory/pkg/service/service.go:42-62` | One lookup answers like a list of one, same error included; only the empty UUID has its own error, with the same gRPC code. |
| `Inventory.IndexAgreesWithScan` | `inventory/pkg/service/service.go:71-114` | In a catalogue keyed by each part's own UUID, a call of the service with the UUIDs of a non-empty type-filtered listing returns that listing in its order; with those of an empty one, that is with none, it lists by its own type. |
| `Inventory.ServeListParts` | `inventory/pkg/api/grpc.go:71-83` | The gRPC reply is the element-wise conversion of the list in order, or the status of its error. |
| `Inventory.ServeGetPart` | `inventory/pkg/api/grpc.go:59-68` | The gRPC reply for one UUID: the part field by field, or the status and message for an empty, a malformed and an unknown UUID. |
| `Inventory.ListReplyExactly` | `inventory/pkg/api/grpc.go:34-83` | The gRPC reply for a list of UUIDs: every part field by field and in order, or the status and message of the earliest bad UUID. |
| `Pricing.TotalPrice` | `order/pkg/service/service.go:111-119` | The accumulating loop computes the quote: stop at the first part without stock, otherwise the wrapped sum. |
| `Pricing.QuoteExactly` | `order/pkg/service/service.go:111-119` | The quote is a price iff every part has stock, and then the 64-bit wrap of the mathematical sum; otherwise it names the first part without stock. |
| `Pricing.TotalExactly` | `order/pkg/service/service.go:111-119` | The wrapped total is the true sum iff the true sum fits an int64. |
| `Pricing.WrapExactly` | `order/pkg/service/service.go:118-118` | The total is the one int64 that differs from the sum by a multiple of 2^64. |
| `Pricing.NeverWraps` | `order/pkg/service/service.go:111-119` | With n parts priced in 0..(2^63-1)/n the running total is the mathematical sum after every part. |
| `Pricing.Price` | `order/pkg/service/service.go:91-119` | Building the UUID list, calling Inventory and summing gives the specified price or refusal. |
| `Pricing.RequestedExactly` | `order/pkg/service/service.go:91-99` | Hull, engine, then the shield and the weapon if the order has them, and nothing else. |
| `Pricing.PriceOrderExactly` | `order/pkg/service/service.go:91-119` | Pricing succeeds iff every requested component is in the catalogue with positive stock, and gives the catalogue prices summed with multiplicity; any missing part is not-found even if another is out of stock; otherwise the first part without stock in request order is named. |
| `Pricing.ComponentsExactly` | `order/pkg/service/service.go:91-119` | Component by component: priced iff hull, engine and each optional component asked for are in the catalogue with stock, at the sum of exactly their prices in 64 bits; otherwise the first missing one is named, and if none is missing the first without stock. |
| `Pricing.OrdersDoNotWrap` | `order/pkg/service/service.go:111-119` | For the at most four parts of an order, prices up to (2^63-1)/4 give the exact sum. |
| `RequiredFields.MissingExactly` | `shared/pkg/openapi/order/v1/oas_json_gen.go:1149-1181` | The indices the loop reports are, for every bitset, exactly the required and unseen ones, each once, in ascending order. |
| `RequiredFields.MissingOfByte` | `shared/pkg/openapi/order/v1/oas_json_gen.go:1155-1176` | The bits of (seen & mask) ^ mask, lowest first, are the missing indices of that byte. |
| `RequiredFields.ClearLowest` | `shared/pkg/openapi/order/v1/oas_json_gen.go:1162-1175` | TrailingZeros8 picks the lowest set bit and clearing it removes that one from the ones left and nothing else. |
| `RequiredFields.CheckRequired` | `shared/pkg/openapi/order/v1/oas_json_gen.go:1149-1181` | The nested loop terminates in bounds and its failures are the names of the missing indices in order, for any number of bytes. |
| `RequiredFields.ItoaExactly` | `shared/pkg/openapi/order/v1/oas_json_gen.go:1167-1169` | The fallback name is the decimal text of the index: digits without a leading zero that denote it. |
| `Codec.FallbackUnreachable` | `shared/pkg/openapi/order/v1/oas_json_gen.go:1164-1169` | When the masks are those of the table, every reported index has a field name: the numeric fallback is never taken. |
| `Codec.FitsExactly` | `shared/pkg/openapi/order/v1/oas_json_gen.go:864-937` | For every kind of field, exactly which JSON values fit and what they give: a UUID is a string that parses, an integer is in the int64 range, text is a string, an instant is a string that parses, and the optional kinds also take null. |
| `Codec.FieldRoundTrip` | `shared/pkg/openapi/order/v1/oas_json_gen.go:901-937` | One field, written or left out, comes back in normal form: unset, null and value apart, an instant as its text denotes it, or not at all if that text does not parse. |
| `Codec.EncodeFields` | `shared/pkg/openapi/order/v1/oas_json_gen.go:959-1008` | The encoder buffer gains the members of the set fields, in table order, and nothing else. |
| `Codec.Decode` | `shared/pkg/openapi/order/v1/oas_json_gen.go:1024-1185` | The member-by-member loop that assigns struct fields and bits, followed by the required check, equals the last-occurrence lookup, with the same error otherwise. |
| `Codec.AcceptsExactly` | `shared/pkg/openapi/order/v1/oas_json_gen.go:1030-1181` | Decoding succeeds iff every known member fits its field and no required field is missing. |
| `Codec.DecodedExactly` | `shared/pkg/openapi/order/v1/oas_json_gen.go:1030-1181` | Member by member: accepted iff no member of a known name has a value that does not fit and every required name occurs; then a field is what the last member with its name says, or unchanged if there is none. |
| `Codec.ErrorExactly` | `shared/pkg/openapi/order/v1/oas_json_gen.go:1030-1185` | Which error: the first member whose value does not fit, or else exactly the required names that do not occur. |
| `Codec.OnlyLastCounts` | `shared/pkg/openapi/order/v1/oas_json_gen.go:1030-1148` | Two member lists that agree on every last occurrence, and on the first bad member, decode alike. |
| `Codec.UnknownMembersIgnored` | `shared/pkg/openapi/order/v1/oas_json_gen.go:1142-1143` | An unknown member anywhere changes neither the result nor the error. |
| `Codec.OrderIgnored` | `shared/pkg/openapi/order/v1/oas_json_gen.go:1030-1148` | Reordering members with distinct keys (section 4 of RFC 8259) does not change an accepted object's value. |
| `Codec.RoundTrip` | `shared/pkg/openapi/order/v1/oas_json_gen.go:952-1185` | For every table and all field values: decoding what was encoded succeeds iff every printed instant parses, and then gives the normal form of every field; otherwise the error names an instant that does not. |
| `Codec.RoundTripExactly` | `shared/pkg/openapi/order/v1/oas_json_gen.go:952-1185` | Decoding what was encoded gives the very same fields back iff every field is its own normal form. |
| `Messages.OrderDtoTable` | `shared/pkg/openapi/order/v1/oas_json_gen.go:1151-1153` | The two shipped mask bytes of OrderDto are exactly its required fields, and its ten names are distinct. |
| `Messages.SmallTables` | `shared/pkg/openapi/order/v1/oas_json_gen.go:464-466` | The same for the six other tables. |
| `Messages.WriteJson` | `shared/pkg/openapi/order/v1/oas_json_gen.go:952-956` | Encoding into a fresh buffer gives the object of the written members. |
| `Messages.ReadJson` | `shared/pkg/openapi/order/v1/oas_json_gen.go:1024-1148` | Decoding into a zero struct gives the last-occurrence reading of the object; anything but an object is an error. |
| `Messages.OrderDtoRoundTrip` | `shared/pkg/openapi/order/v1/oas_json_gen.go:952-1185` | For every order: Decode(Encode(d)) is d with its optional fields canonicalised and its instant as its text denotes it, or fails at created_at if that text does not parse. |
| `Messages.CreateRequestRoundTrip` | `shared/pkg/openapi/order/v1/oas_json_gen.go:365-497` | For every request: Decode(Encode(q)) is q with its two optional components canonicalised. |
| `Messages.PlainMessagesRoundTrip` | `shared/pkg/openapi/order/v1/oas_json_gen.go:512-723` | CreateOrderResponse, PayOrderRequest, PayOrderResponse, CancelOrderResponse and Error always come back. |
| `Messages.OrderDtoWritten` | `shared/pkg/openapi/order/v1/oas_json_gen.go:959-1008` | The document of an order, key by key; an optional field is absent, null or a value. |
| `Messages.CreateRequestWritten` | `shared/pkg/openapi/order/v1/oas_json_gen.go:372-393` | The document of a create request, key by key. |
| `Messages.PlainMessagesWritten` | `shared/pkg/openapi/order/v1/oas_json_gen.go:519-647` | The documents of the messages without optional fields, key by key. |
| `Messages.CreateBodyExactly` | `shared/pkg/openapi/order/v1/oas_json_gen.go:403-497` | Exactly which documents are create requests, and what request they say. |
| `Messages.PayBodyExactly` | `shared/pkg/openapi/order/v1/oas_json_gen.go:1413-1473` | Exactly which documents decode as pay requests, and the method they say. |
| `Messages.ValidateOrderDto` | `shared/pkg/openapi/order/v1/oas_validators_gen.go:10-49` | Nothing is reported iff the method, if present, is one of the four and the status one of the three; each of the two is named iff it is wrong. |
| `Http.WriteCreate` | `shared/pkg/openapi/order/v1/oas_response_encoders_gen.go:86-156` | What is written is what the client's decoder reads back: the same variant with the same contents, whatever the writer held before. |
| `Http.CreateOnTheWire` | `shared/pkg/openapi/order/v1/oas_response_encoders_gen.go:86-156` | Status, media type and document of every variant, literally. |
| `Http.WriteGet` | `shared/pkg/openapi/order/v1/oas_response_encoders_gen.go:158-215` | What is written arrives as Received says: error variants as they are, an order in the form the codec gives it, validated. |
| `Http.GetOnTheWire` | `shared/pkg/openapi/order/v1/oas_response_encoders_gen.go:158-215` | Status, media type and document of every variant, literally. |
| `Http.WritePay` | `shared/pkg/openapi/order/v1/oas_response_encoders_gen.go:217-287` | What is written is what the client's decoder reads back: the same variant with the same contents, whatever the writer held before. |
| `Http.PayOnTheWire` | `shared/pkg/openapi/order/v1/oas_response_encoders_gen.go:217-287` | Status, media type and document of every variant, literally. |
| `Http.WriteCancel` | `shared/pkg/openapi/order/v1/oas_response_encoders_gen.go:14-84` | What is written is what the client's decoder reads back: the same variant with the same contents, whatever the writer held before. |
| `Http.CancelOnTheWire` | `shared/pkg/openapi/order/v1/oas_response_encoders_gen.go:14-84` | Status, media type and document of every variant, literally. |
| `Http.ReadCreate` | `shared/pkg/openapi/order/v1/oas_response_decoders_gen.go:197-376` | The step-by-step client decoder (status, media type, decode into a zero struct) is the specified reading, for every status and body. |
| `Http.ReadGet` | `shared/pkg/openapi/order/v1/oas_response_decoders_gen.go:378-531` | The same, with validation of the order. |
| `Http.ReadPay` | `shared/pkg/openapi/order/v1/oas_response_decoders_gen.go:533-712` | The step-by-step client decoder is the specified reading, for every status and body. |
| `Http.ReadCancel` | `shared/pkg/openapi/order/v1/oas_response_decoders_gen.go:16-195` | The step-by-step client decoder is the specified reading, for every status and body. |
| `Http.CreateResSurvives` | `shared/pkg/openapi/order/v1/oas_response_decoders_gen.go:197-376` | Every create response comes back as the same variant with the same contents. |
| `Http.PayResSurvives` | `shared/pkg/openapi/order/v1/oas_response_decoders_gen.go:533-712` | Every pay response comes back as the same variant with the same contents. |
| `Http.CancelResSurvives` | `shared/pkg/openapi/order/v1/oas_response_decoders_gen.go:16-195` | Every cancel response comes back as the same variant with the same contents. |
| `Http.GetResArrives` | `shared/pkg/openapi/order/v1/oas_response_decoders_gen.go:378-531` | For every get response: an order arrives with its optional fields canonicalised and its instant as its text denotes it, is refused if a declared enumeration value is wrong or the instant does not parse; error variants arrive as they are. |
| `Http.GetResSurvivesExactly` | `shared/pkg/openapi/order/v1/oas_response_decoders_gen.go:378-531` | A get response comes back iff its order is canonical, its instant survives and it validates; its error variants always do. |
| `Http.UndeclaredStatus` | `shared/pkg/openapi/order/v1/oas_response_decoders_gen.go:197-712` | The client refuses every status that is not declared for the operation. |
| `Http.WrongMediaType` | `shared/pkg/openapi/order/v1/oas_response_decoders_gen.go:197-712` | For a declared status the client refuses a media type that does not parse or is not JSON. |
| `Router.OneReading` | `shared/pkg/openapi/order/v1/oas_router_gen.go:47-194` | A path below the prefix matches at most one pattern with one argument. |
| `Router.ExpectedExactly` | `shared/pkg/openapi/order/v1/oas_router_gen.go:47-194` | The specified dispatch is operation op with argument a iff the path is op's pattern filled with a, a has no slash, and the method is op's. |
| `Router.ServeHTTP` | `shared/pkg/openapi/order/v1/oas_router_gen.go:37-195` | The unrolled search is the specified dispatch for every prefix, method and path: the handler and argument, 405 with the allowed method, or not found. |
| `Router.FindPath` | `shared/pkg/openapi/order/v1/oas_router_gen.go:248-406` | The second copy of the search finds a route iff ServeHTTP's dispatch is a handler, with the same operation and argument; a wrong method is no match. |
| `Router.PrefixShifts` | `shared/pkg/openapi/order/v1/oas_router_gen.go:22-33` | A configured prefix only shifts the language, and a path without it is not found. |
| `Transparency.TrimSlashes` | `shared/pkg/openapi/order/v1/oas_client_gen.go:23-26` | The client's server path loses exactly its trailing slashes. |
| `Transparency.BuildPath` | `shared/pkg/openapi/order/v1/oas_client_gen.go:142-163` | The path parts, filled slot by slot, make the operation's pattern with the printed UUID below the server path. |
| `Transparency.RequestsOnTheWire` | `shared/pkg/openapi/order/v1/oas_client_gen.go:105-451` | Method, path, media type and document of the client's four requests, literally. |
| `Transparency.ClientPathRoutes` | `shared/pkg/openapi/order/v1/oas_client_gen.go:404-425` | Routing the path the client builds gives back the operation and the UUID text. |
| `Transparency.ClientRoutesExactly` | `shared/pkg/openapi/order/v1/oas_client_gen.go:23-26` | For every server URL, prefix, operation and UUID: the path the client builds is dispatched to its own operation and UUID text iff the URL's path, without trailing slashes, is the prefix. |
| `Transparency.SlashPrefixUnreachable` | `shared/pkg/openapi/order/v1/oas_router_gen.go:22-33` | So no server URL reaches a server whose prefix ends in a slash: the client trims, the server does not. |
| `Transparency.ServeRequest` | `shared/pkg/openapi/order/v1/oas_router_gen.go:37-195` | The running server (router, parameters, body, validation, handler, response writer) is the specified one for every request and every handler. |
| `Transparency.ArgumentExactly` | `shared/pkg/openapi/order/v1/oas_parameters_gen.go:35-166` | For every handler and request: a get or cancel reaches the handler iff its path argument is the text of a UUID, and then with that UUID and the handler's answer as reply; an empty or malformed argument is a parameter error. |
| `Transparency.CreateServedExactly` | `shared/pkg/openapi/order/v1/oas_request_decoders_gen.go:17-86` | For every handler and request: a create reaches the handler iff its media type is JSON and its body is an object whose known members all fit and that has a hull and an engine, and then with what the body says; any other is a request error. |
| `Transparency.PayServedExactly` | `shared/pkg/openapi/order/v1/oas_request_decoders_gen.go:88-165` | For every handler and request: a bad path argument is a parameter error before the body is looked at; otherwise the handler is reached iff the body is an object in which every payment method is a string and the last one is among the four. |
| `Transparency.OtherRequests` | `shared/pkg/openapi/order/v1/oas_router_gen.go:37-195` | Any other method on a path of the API gets the not-allowed page with the method it has, any other path the not-found page. |
| `Transparency.SendPay` | `shared/pkg/openapi/order/v1/oas_client_gen.go:367-451` | The client's pay, through the running server and back, is the specified call. |
| `Transparency.SendCreate` | `shared/pkg/openapi/order/v1/oas_client_gen.go:198-263` | The client's create, through the running server and back, is the specified call. |
| `Transparency.SendGet` | `shared/pkg/openapi/order/v1/oas_client_gen.go:275-355` | The client's get, through the running server and back, is the specified call. |
| `Transparency.SendCancel` | `shared/pkg/openapi/order/v1/oas_client_gen.go:105-186` | The client's cancel, through the running server and back, is the specified call. |
| `Transparency.CreateTransparent` | `shared/pkg/openapi/order/v1/oas_client_gen.go:198-263` | For every request and every handler the call over the wire is the handler's call, whatever it answers; the handler sees the optional components canonicalised, which Get does not tell apart. |
| `Transparency.GetTransparent` | `shared/pkg/openapi/order/v1/oas_client_gen.go:275-355` | For every handler the caller receives what the handler answered, in the form the codec gives it. |
| `Transparency.GetTransparentExactly` | `shared/pkg/openapi/order/v1/oas_client_gen.go:275-355` | So the call over the wire is the handler's call iff the client accepts the order it returned unchanged. |
| `Transparency.PayTransparent` | `shared/pkg/openapi/order/v1/oas_client_gen.go:367-451` | For a valid method the call over the wire is the handler's call; with any other method no handler is ever called. |
| `Transparency.CancelTransparent` | `shared/pkg/openapi/order/v1/oas_client_gen.go:105-186` | The call over the wire is the handler's call. |
| `Handler.ToOrderDto` | `order/pkg/api/handler.go:41-74` | The message has every field of the order and the status text of its status, with canonical optional fields. |
| `Handler.DtoKeepsOrder` | `order/pkg/api/handler.go:41-74` | The message loses nothing: each field is the order's, the status text is the status's, and the order can be read back. |
| `Handler.DtoArrives` | `order/pkg/api/handler.go:41-74` | For every order: its message arrives with the instant its text denotes; the client refuses it iff that text does not parse or the order has a method that is not one of the four. |
| `Handler.Handler.GetOrder` | `order/pkg/api/handler.go:76-92` | The stored order, 404 "order not found" exactly when it is not stored, an error return exactly on a read fault. |
| `Handler.Handler.CreateOrder` | `order/pkg/api/handler.go:94-132` | 201, 404, 409 or an error return as the catalogue and the faults decide; with a 201 the store has the requested order under the drawn id, and otherwise it is unchanged. |
| `Handler.Handler.PayOrder` | `order/pkg/api/handler.go:134-160` | In every case the answer and the new store: 404 and 409 with their texts, 200 with the drawn transaction and the order saved as PAID with it and with the method, or an error return; only a 200 changes the store. |
| `Handler.Handler.CancelOrder` | `order/pkg/api/handler.go:162-184` | In every case the answer and the new store: 404 and 409 with their texts, 200 and the order saved as CANCELLED, or an error return; only a 200 changes the store. |
| `Handler.GetOverTheWire` | `order/pkg/api/handler.go:76-92` | In every reachable state, overlap included, a get through client and server returns exactly what is stored, with the creation time its text denotes, or not found. |
| `Handler.CreateOverTheWire` | `order/pkg/api/handler.go:94-132` | Through client and server, in every case, stated on the hull, engine, shield and weapon of the request: 404 naming the first unknown component, otherwise 409 naming the first without stock, otherwise 201 with the drawn id at the sum of exactly their prices in 64 bits; no declared reply when something fails. |
| `Handler.CreatedIsVisible` | `order/pkg/api/handler.go:94-132` | An order the client saw created reads back over the wire as it was requested, pending and without a payment. |
| `Handler.PaidIsVisible` | `order/pkg/api/handler.go:134-160` | A valid payment of a pending order is accepted when nothing fails; over the store it leaves, a get over the wire shows the order PAID with the transaction of the reply and the method sent and every other field as it was, and a pay or cancel over the wire is a 409. |
| `Handler.PayOverTheWire` | `order/pkg/api/handler.go:134-160` | Pay through client and server in every case: 404, 409, the drawn transaction, or no declared reply for an invalid method or a fault. |
| `Handler.CancelOverTheWire` | `order/pkg/api/handler.go:162-184` | Cancel through client and server in every case. |
| `Handler.CancelledIsVisible` | `order/pkg/api/handler.go:162-184` | A cancel of a pending order is accepted when nothing fails; over the store it leaves, a get over the wire shows it CANCELLED and otherwise as it was, and a pay or cancel over the wire is a 409. |
| `Handler.PaidStaysVisible` | `order/pkg/api/handler.go:134-184` | In a run without a stale save, from the moment a pay is answered on, whatever else is going on, every get over the wire shows the record it was answered with and every pay or cancel of the order is a 409. |

## Left out

- Servers, configuration, metrics, tracing, middleware, mocks, migrations and scripts: no algorithm.
- Bytes of JSON: tokenizing, trailing data and number syntax belong to the jx library.
- Escaped paths: `RawPath` is empty, so percent-escaping and path normalisation do not occur.
- The error handler's pages and 500 bodies: library code, so an error return of a handler is only "no declared response" to the client.
- UUID and RFC 3339 syntax, and which digits the time text drops: theorems say that the instant its text denotes arrives, whichever that is.
- The precision of TIMESTAMPTZ, SQL beyond one upsert and one select by key, and the transaction manager beyond "the save happens or nothing does": a commit that succeeds while reporting an error is not modelled.
- The Postgres repository of Inventory and its read errors, which would become the Internal status: the catalogue is the in-memory map, fixed during a call.
- Stock reservation and part types of the four slots: the code checks neither.
- Stability of the sort by name: `sort.Slice` does not promise it.
- The close functions of the request decoders and the raw body they keep: resource handling.
- The optional wrappers' setters, `Or` and `Reset`: one assignment each; `Get` and the constructors are used.
- The generated types one by one: field decoding and encoding is one loop over a table instead of unrolled cases per type, and the four kinds of error body, the same struct under four names, are one table.
- Order status as text in the database: the model's status is one of the three values the service writes.
- Payment's gRPC layer and the name, summary and pattern getters of a route: constants and conversions.
- Memory effects of Go pointers to optional fields: they are options, since no code writes through them.
