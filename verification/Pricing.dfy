/** What CreateOrder asks of Inventory and how it adds the prices up. */
module Pricing {
  import opened Domain
  import opened Inventory

  const MAX_INT64: int := 0x7fff_ffff_ffff_ffff

  /** Two's-complement wrap-around of Go's int64. */
  function Wrap(x: int): Int64 {
    ((x + 0x8000_0000_0000_0000) % 0x1_0000_0000_0000_0000 - 0x8000_0000_0000_0000) as Int64
  }

  function Add(a: Int64, c: Int64): Int64 {
    Wrap(a as int + c as int)
  }

  /** The int64 that differs from the number by a multiple of 2^64: there is exactly one. */
  lemma {:induction false} WrapExactly(x: int, w: Int64)
    ensures w == Wrap(x) <==> (w as int - x) % 0x1_0000_0000_0000_0000 == 0
  {
  }

  lemma {:induction false} WrapAddsUp(x: int, c: Int64)
    ensures Add(Wrap(x), c) == Wrap(x + c as int)
  {
    var m := 0x1_0000_0000_0000_0000;
    var y := x + 0x8000_0000_0000_0000;
    assert (y % m + c as int) % m == (y + c as int) % m;
  }

  /** The mathematical sum of the prices. */
  function Sum(ps: seq<ProtoPart>): int {
    if ps == [] then 0 else Sum(ps[..|ps| - 1]) + ps[|ps| - 1].price as int
  }

  datatype CreateError =
    | ComponentNotFound(message: string)
    | ComponentOutOfStock(uuid: string)
    | InventoryDown(status: Status)

  predicate InStock(p: ProtoPart) { p.stock > 0 }

  /** The price loop: it stops at the first part without stock, and otherwise returns the sum
      of all prices, wrapped to 64 bits. */
  method TotalPrice(ps: seq<ProtoPart>) returns (res: Result<Int64, CreateError>)
    ensures res == Quote(ps)
  {
    var total: Int64 := 0;
    var i := 0;
    while i < |ps|
      invariant 0 <= i <= |ps|
      invariant total == Wrap(Sum(ps[..i]))
      invariant Quote(ps[..i]) == Ok(total)
    {
      assert ps[..i + 1][..i] == ps[..i];
      if ps[i].stock <= 0 {
        QuoteStops(ps, i + 1);
        return Err(ComponentOutOfStock(ps[i].uuid));
      }
      WrapAddsUp(Sum(ps[..i]), ps[i].price);
      total := Add(total, ps[i].price);
      i := i + 1;
    }
    assert ps[..i] == ps;
    return Ok(total);
  }

  function Quote(ps: seq<ProtoPart>): Result<Int64, CreateError> {
    if ps == [] then Ok(0)
    else
      var n := |ps| - 1;
      match Quote(ps[..n])
      case Err(e) => Err(e)
      case Ok(_) => if InStock(ps[n]) then Ok(Wrap(Sum(ps))) else Err(ComponentOutOfStock(ps[n].uuid))
  }

  lemma {:induction false} QuoteStops(ps: seq<ProtoPart>, i: nat)
    requires i <= |ps| && Quote(ps[..i]).Err?
    ensures Quote(ps) == Quote(ps[..i])
    decreases |ps|
  {
    if i == |ps| {
      assert ps[..i] == ps;
    } else {
      assert ps[..|ps| - 1][..i] == ps[..i];
      QuoteStops(ps[..|ps| - 1], i);
    }
  }

  /** The quote is a price exactly when every part is in stock; otherwise it names the first
      part without stock. */
  lemma {:induction false} QuoteExactly(ps: seq<ProtoPart>)
    ensures Quote(ps).Ok? <==> forall i :: 0 <= i < |ps| ==> InStock(ps[i])
    ensures Quote(ps).Ok? ==> Quote(ps).value == Wrap(Sum(ps))
    ensures Quote(ps).Err? ==> exists i ::
              && 0 <= i < |ps| && !InStock(ps[i]) && Quote(ps).error == ComponentOutOfStock(ps[i].uuid)
              && forall j :: 0 <= j < i ==> InStock(ps[j])
    decreases |ps|
  {
    if ps != [] {
      var n := |ps| - 1;
      QuoteExactly(ps[..n]);
      assert forall j :: 0 <= j < n ==> ps[..n][j] == ps[j];
      if Quote(ps[..n]).Err? {
        var i :| 0 <= i < n && !InStock(ps[..n][i]) && Quote(ps[..n]).error == ComponentOutOfStock(ps[..n][i].uuid)
                 && forall j :: 0 <= j < i ==> InStock(ps[..n][j]);
        assert !InStock(ps[i]) && forall j :: 0 <= j < i ==> InStock(ps[j]);
      }
    }
  }

  /** The wrapped total is the mathematical sum exactly when that sum fits an int64. */
  lemma {:induction false} TotalExactly(ps: seq<ProtoPart>)
    ensures Wrap(Sum(ps)) as int == Sum(ps) <==> -MAX_INT64 - 1 <= Sum(ps) <= MAX_INT64
  {
  }

  /** With n parts priced between 0 and (2^63 - 1) / n the running total never wraps: after
      every part it is the mathematical sum so far. */
  lemma {:induction false} NeverWraps(ps: seq<ProtoPart>, bound: nat, i: nat)
    requires i <= |ps| && bound * |ps| <= MAX_INT64
    requires forall j :: 0 <= j < |ps| ==> 0 <= ps[j].price as int <= bound
    ensures 0 <= Sum(ps[..i]) <= bound * i
    ensures Wrap(Sum(ps[..i])) as int == Sum(ps[..i])
    decreases i
  {
    hide Wrap;
    if i > 0 {
      NeverWraps(ps, bound, i - 1);
      assert ps[..i][..i - 1] == ps[..i - 1];
    }
    Products(bound, i, |ps|);
    TotalExactly(ps[..i]);
  }

  lemma {:induction false} Products(bound: nat, i: nat, n: nat)
    requires i <= n
    ensures bound * i <= bound * n
    ensures i > 0 ==> bound * i == bound * (i - 1) + bound
  {
  }

  // ---- Through Inventory ----

  /** The requested components: hull, engine, and the two optional ones. */
  function Requested(input: CreateInput): seq<Uuid> {
    [input.hull, input.engine]
    + (if input.shield.Some? then [input.shield.value] else [])
    + (if input.weapon.Some? then [input.weapon.value] else [])
  }

  /** Hull and engine, then the shield and the weapon if they are asked for. */
  lemma {:induction false} RequestedExactly(input: CreateInput)
    ensures var us := Requested(input);
      && |us| == 2 + (if input.shield.Some? then 1 else 0) + (if input.weapon.Some? then 1 else 0)
      && us[0] == input.hull && us[1] == input.engine
      && (input.shield.Some? ==> us[2] == input.shield.value)
      && (input.weapon.Some? ==> us[|us| - 1] == input.weapon.value)
  {
  }

  function Printed(text: TextCodec, us: seq<Uuid>): seq<string> {
    seq(|us|, i requires 0 <= i < |us| => text.printUuid(us[i]))
  }

  /** How CreateOrder reads the reply of Inventory. */
  function ReadReply(reply: Result<seq<ProtoPart>, Status>): Result<Int64, CreateError> {
    match reply
    case Ok(ps) => Quote(ps)
    case Err(st) =>
      if st.code == NotFoundCode then Err(ComponentNotFound(st.message)) else Err(InventoryDown(st))
  }

  function PriceOrder(text: TextCodec, parts: Catalogue, input: CreateInput): Result<Int64, CreateError> {
    ReadReply(ListReply(LookupAll(text, parts, Printed(text, Requested(input)))))
  }

  /** The part of CreateOrder before the save. */
  method Price(text: TextCodec, inventory: MemoryRepository, input: CreateInput)
    returns (res: Result<Int64, CreateError>)
    ensures res == PriceOrder(text, inventory.parts, input)
  {
    var uuids := [text.printUuid(input.hull), text.printUuid(input.engine)];
    if input.shield.Some? {
      uuids := uuids + [text.printUuid(input.shield.value)];
    }
    if input.weapon.Some? {
      uuids := uuids + [text.printUuid(input.weapon.value)];
    }
    assert uuids == Printed(text, Requested(input));
    var reply := ServeListParts(text, inventory, UNSPECIFIED_TYPE, uuids);
    if reply.Err? {
      if reply.error.code == NotFoundCode {
        return Err(ComponentNotFound(reply.error.message));
      }
      return Err(InventoryDown(reply.error));
    }
    res := TotalPrice(reply.value);
  }

  /** The catalogue prices of the requested list, with multiplicity. */
  function CatalogueTotal(parts: Catalogue, us: seq<Uuid>): int
    requires forall u :: u in us ==> u in parts
  {
    if us == [] then 0
    else CatalogueTotal(parts, us[..|us| - 1]) + parts[us[|us| - 1]].price as int
  }

  predicate AllKnown(parts: Catalogue, us: seq<Uuid>) {
    forall i :: 0 <= i < |us| ==> us[i] in parts
  }

  lemma {:induction false} LookupPrinted(text: TextCodec, parts: Catalogue, us: seq<Uuid>)
    requires text.UuidsRoundTrip()
    ensures var res := LookupAll(text, parts, Printed(text, us));
      && (res.Ok? <==> AllKnown(parts, us))
      && (res.Ok? ==> |res.value| == |us| && forall i :: 0 <= i < |us| ==> res.value[i] == parts[us[i]])
      && (res.Err? ==> exists i ::
            && 0 <= i < |us| && us[i] !in parts && res.error == PartNotFound(text.printUuid(us[i]))
            && forall j :: 0 <= j < i ==> us[j] in parts)
  {
    var raws := Printed(text, us);
    LookupAllPositional(text, parts, raws);
    forall i | 0 <= i < |us|
      ensures Lookup(text, parts, raws[i]) ==
              if us[i] in parts then Ok(parts[us[i]]) else Err(PartNotFound(raws[i]))
    {
      assert raws[i] == text.printUuid(us[i]);
    }
  }

  lemma {:induction false} SumIsCatalogueTotal(parts: Catalogue, us: seq<Uuid>, ps: seq<Part>)
    requires AllKnown(parts, us) && |ps| == |us| && forall i :: 0 <= i < |us| ==> ps[i] == parts[us[i]]
    ensures Sum(ToProtos(ps)) == CatalogueTotal(parts, us)
    decreases |us|
  {
    if us != [] {
      var n := |us| - 1;
      assert ToProtos(ps)[..n] == ToProtos(ps[..n]);
      SumIsCatalogueTotal(parts, us[..n], ps[..n]);
    }
  }

  /** Pricing an order through Inventory succeeds exactly when every requested component is in
      the catalogue with stock, and then gives the sum of their catalogue prices. Any missing
      component is a not-found, even when another has no stock; otherwise the first component
      without stock, in request order, is named. */
  lemma {:induction false} PriceOrderExactly(text: TextCodec, parts: Catalogue, input: CreateInput)
    requires text.UuidsRoundTrip()
    ensures var us := Requested(input);
      var res := PriceOrder(text, parts, input);
      && (res.Ok? <==> AllKnown(parts, us) && forall i :: 0 <= i < |us| ==> parts[us[i]].stock > 0)
      && (res.Ok? ==> res.value == Wrap(CatalogueTotal(parts, us)))
      && (res.Err? ==> (res.error.ComponentNotFound? <==> !AllKnown(parts, us)))
      && (res.Err? && AllKnown(parts, us) ==> exists i ::
            && 0 <= i < |us| && parts[us[i]].stock <= 0
            && res.error == ComponentOutOfStock(parts[us[i]].uuid)
            && forall j :: 0 <= j < i ==> parts[us[j]].stock > 0)
  {
    hide Wrap, Printed, Sum, Lookup;
    var us := Requested(input);
    LookupPrinted(text, parts, us);
    var found := LookupAll(text, parts, Printed(text, us));
    if found.Ok? {
      var ps := found.value;
      QuoteExactly(ToProtos(ps));
      SumIsCatalogueTotal(parts, us, ps);
      assert forall i :: 0 <= i < |us| ==> (InStock(ToProtos(ps)[i]) <==> parts[us[i]].stock > 0);
      if Quote(ToProtos(ps)).Err? {
        var i :| 0 <= i < |us| && !InStock(ToProtos(ps)[i])
                 && Quote(ToProtos(ps)).error == ComponentOutOfStock(ToProtos(ps)[i].uuid)
                 && forall j :: 0 <= j < i ==> InStock(ToProtos(ps)[j]);
        assert parts[us[i]].stock <= 0 && forall j :: 0 <= j < i ==> parts[us[j]].stock > 0;
      }
    }
  }

  lemma {:induction false} MissingIsNamed(text: TextCodec, parts: Catalogue, input: CreateInput)
    requires text.UuidsRoundTrip() && !AllKnown(parts, Requested(input))
    ensures var us := Requested(input); exists i ::
      && 0 <= i < |us| && us[i] !in parts && (forall j :: 0 <= j < i ==> us[j] in parts)
      && PriceOrder(text, parts, input) == Err(ComponentNotFound("part not found: " + text.printUuid(us[i])))
  {
    hide Quote, ToProtos;
    LookupPrinted(text, parts, Requested(input));
  }

  /** Component by component: an order is priced iff its hull, its engine, and its shield and
      its weapon if it asks for them are all in the catalogue with stock, at the sum of their
      prices in 64 bits. Otherwise the first missing one, in this order, is named, and if none
      is missing the first one without stock. */
  lemma {:induction false} ComponentsExactly(text: TextCodec, parts: Catalogue, hull: Uuid, engine: Uuid,
                                             shield: Option<Uuid>, weapon: Option<Uuid>)
    requires text.UuidsRoundTrip()
    ensures var res := PriceOrder(text, parts, CreateInput(hull, engine, shield, weapon));
      if hull !in parts then res == Err(ComponentNotFound("part not found: " + text.printUuid(hull)))
      else if engine !in parts then res == Err(ComponentNotFound("part not found: " + text.printUuid(engine)))
      else if shield.Some? && shield.value !in parts
      then res == Err(ComponentNotFound("part not found: " + text.printUuid(shield.value)))
      else if weapon.Some? && weapon.value !in parts
      then res == Err(ComponentNotFound("part not found: " + text.printUuid(weapon.value)))
      else if parts[hull].stock <= 0 then res == Err(ComponentOutOfStock(parts[hull].uuid))
      else if parts[engine].stock <= 0 then res == Err(ComponentOutOfStock(parts[engine].uuid))
      else if shield.Some? && parts[shield.value].stock <= 0 then res == Err(ComponentOutOfStock(parts[shield.value].uuid))
      else if weapon.Some? && parts[weapon.value].stock <= 0 then res == Err(ComponentOutOfStock(parts[weapon.value].uuid))
      else
        && res.Ok?
        && var sum := parts[hull].price as int + parts[engine].price as int
                      + (if shield.Some? then parts[shield.value].price as int else 0)
                      + (if weapon.Some? then parts[weapon.value].price as int else 0);
           (res.value as int - sum) % 0x1_0000_0000_0000_0000 == 0
  {
    hide PriceOrder, Wrap, Requested, CatalogueTotal;
    var input := CreateInput(hull, engine, shield, weapon);
    var us := Requested(input);
    RequestedExactly(input);
    PriceOrderExactly(text, parts, input);
    if !AllKnown(parts, us) {
      MissingIsNamed(text, parts, input);
    } else {
      TotalOfComponents(parts, input);
      WrapExactly(CatalogueTotal(parts, us), Wrap(CatalogueTotal(parts, us)));
    }
  }

  lemma {:induction false} TotalOfComponents(parts: Catalogue, input: CreateInput)
    requires AllKnown(parts, Requested(input))
    ensures input.hull in parts && input.engine in parts
    ensures (input.shield.Some? ==> input.shield.value in parts) && (input.weapon.Some? ==> input.weapon.value in parts)
    ensures CatalogueTotal(parts, Requested(input)) ==
            parts[input.hull].price as int + parts[input.engine].price as int
            + (if input.shield.Some? then parts[input.shield.value].price as int else 0)
            + (if input.weapon.Some? then parts[input.weapon.value].price as int else 0)
  {
    hide Requested;
    var us := Requested(input);
    RequestedExactly(input);
    forall i | 0 <= i < |us|
      ensures CatalogueTotal(parts, us[..i + 1]) == CatalogueTotal(parts, us[..i]) + parts[us[i]].price as int
    {
      assert us[..i + 1][..i] == us[..i];
    }
    assert us[..0] == [] && us[..|us|] == us;
    assert CatalogueTotal(parts, us[..0 + 1]) == parts[us[0]].price as int;
    assert CatalogueTotal(parts, us[..1 + 1]) == parts[us[0]].price as int + parts[us[1]].price as int;
    if |us| >= 3 {
      assert CatalogueTotal(parts, us[..2 + 1]) == CatalogueTotal(parts, us[..2]) + parts[us[2]].price as int;
    }
    if |us| == 4 {
      assert CatalogueTotal(parts, us[..3 + 1]) == CatalogueTotal(parts, us[..3]) + parts[us[3]].price as int;
    }
  }

  /** An order has two to four parts, so a price of at most (2^63 - 1) / 4 per part is safe:
      the total is the exact sum. */
  lemma {:induction false} OrdersDoNotWrap(text: TextCodec, parts: Catalogue, input: CreateInput)
    requires text.UuidsRoundTrip()
    requires forall u :: u in parts ==> 0 <= parts[u].price as int <= MAX_INT64 / 4
    requires PriceOrder(text, parts, input).Ok?
    ensures AllKnown(parts, Requested(input))
    ensures PriceOrder(text, parts, input).value as int == CatalogueTotal(parts, Requested(input))
  {
    var us := Requested(input);
    PriceOrderExactly(text, parts, input);
    LookupPrinted(text, parts, us);
    var ps := LookupAll(text, parts, Printed(text, us)).value;
    SumIsCatalogueTotal(parts, us, ps);
    var protos := ToProtos(ps);
    assert protos[..|protos|] == protos;
    NeverWraps(protos, MAX_INT64 / 4, |protos|);
  }
}
