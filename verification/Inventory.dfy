/** The inventory service: keyed lookup, the full listing, and its gRPC face. */
module Inventory {
  import opened Domain

  /** A protobuf enumeration is an open integer; 0 is PART_TYPE_UNSPECIFIED. */
  type PartType = int

  const UNSPECIFIED_TYPE: PartType := 0

  datatype Part = Part(uuid: string, name: string, description: string, price: Int64,
                       partType: PartType, stock: Int64, createdAt: Time)

  type Catalogue = map<Uuid, Part>

  datatype InventoryError = EmptyUuid | InvalidUuid(raw: string) | PartNotFound(raw: string)

  /** The error text, as `fmt.Errorf` builds it. */
  function Message(e: InventoryError): string {
    match e
    case EmptyUuid => "uuid must not be empty"
    case InvalidUuid(raw) => "invalid uuid format: " + raw
    case PartNotFound(raw) => "part not found: " + raw
  }

  /** One position of a lookup by UUID. */
  function Lookup(text: TextCodec, parts: Catalogue, raw: string): Result<Part, InventoryError> {
    match text.parseUuid(raw)
    case None => Err(InvalidUuid(raw))
    case Some(id) => if id in parts then Ok(parts[id]) else Err(PartNotFound(raw))
  }

  function GetPart(text: TextCodec, parts: Catalogue, raw: string): Result<Part, InventoryError> {
    if raw == "" then Err(EmptyUuid) else Lookup(text, parts, raw)
  }

  function LookupAll(text: TextCodec, parts: Catalogue, raws: seq<string>): Result<seq<Part>, InventoryError> {
    if raws == [] then Ok([])
    else
      var n := |raws| - 1;
      match LookupAll(text, parts, raws[..n])
      case Err(e) => Err(e)
      case Ok(ps) =>
        match Lookup(text, parts, raws[n])
        case Err(e) => Err(e)
        case Ok(p) => Ok(ps + [p])
  }

  /** Looking up a list answers position by position, or with the error of the earliest bad one. */
  lemma {:induction false} LookupAllPositional(text: TextCodec, parts: Catalogue, raws: seq<string>)
    ensures var res := LookupAll(text, parts, raws);
      && (res.Ok? <==> forall i :: 0 <= i < |raws| ==> Lookup(text, parts, raws[i]).Ok?)
      && (res.Ok? ==>
            && |res.value| == |raws|
            && forall i :: 0 <= i < |raws| ==> Lookup(text, parts, raws[i]) == Ok(res.value[i]))
      && (res.Err? ==> exists i ::
            && 0 <= i < |raws|
            && Lookup(text, parts, raws[i]) == Err(res.error)
            && forall j :: 0 <= j < i ==> Lookup(text, parts, raws[j]).Ok?)
    decreases |raws|
  {
    hide Lookup;
    if raws != [] {
      var n := |raws| - 1;
      LookupAllPositional(text, parts, raws[..n]);
      assert forall i :: 0 <= i < n ==> raws[..n][i] == raws[i];
      var rest := LookupAll(text, parts, raws[..n]);
      if rest.Err? {
        var i :| 0 <= i < n && Lookup(text, parts, raws[i]) == Err(rest.error)
                 && forall j :: 0 <= j < i ==> Lookup(text, parts, raws[..n][j]).Ok?;
        assert forall j :: 0 <= j < i ==> raws[..n][j] == raws[j];
      }
    }
  }

  /** In terms of the catalogue: a list of UUIDs is answered iff every one parses to a key of
      it, with the parts under those keys in order. Otherwise the earliest that does not decides
      the error: it does not parse, or no part has it. */
  lemma {:induction false} LookupAllExactly(text: TextCodec, parts: Catalogue, raws: seq<string>)
    ensures var res := LookupAll(text, parts, raws);
      && (res.Ok? <==> forall i :: 0 <= i < |raws| ==> text.parseUuid(raws[i]).Some? && text.parseUuid(raws[i]).value in parts)
      && (res.Ok? ==>
            && |res.value| == |raws|
            && forall i :: 0 <= i < |raws| ==> res.value[i] == parts[text.parseUuid(raws[i]).value])
      && (res.Err? ==> exists i ::
            && 0 <= i < |raws|
            && (forall j :: 0 <= j < i ==> text.parseUuid(raws[j]).Some? && text.parseUuid(raws[j]).value in parts)
            && if text.parseUuid(raws[i]).None? then res.error == InvalidUuid(raws[i])
               else text.parseUuid(raws[i]).value !in parts && res.error == PartNotFound(raws[i]))
  {
    LookupAllPositional(text, parts, raws);
    forall i | 0 <= i < |raws|
      ensures Lookup(text, parts, raws[i]).Ok? <==> text.parseUuid(raws[i]).Some? && text.parseUuid(raws[i]).value in parts
    {
    }
  }

  // ---- The listing ----

  /** Go's `<` on strings: lexicographic. */
  predicate Less(a: string, b: string) {
    b != [] && (a == [] || a[0] < b[0] || (a[0] == b[0] && Less(a[1..], b[1..])))
  }

  predicate AtMost(a: string, b: string) { !Less(b, a) }

  lemma {:induction false} AtMostTransitive(a: string, b: string, c: string)
    requires AtMost(a, b) && AtMost(b, c)
    ensures AtMost(a, c)
    decreases |a|
  {
    if a != [] && b != [] && c != [] && a[0] == c[0] && a[0] == b[0] {
      AtMostTransitive(a[1..], b[1..], c[1..]);
    }
  }

  lemma {:induction false} LessIsAtMost(a: string, b: string)
    requires Less(a, b)
    ensures AtMost(a, b)
    decreases |a|
  {
    if a != [] && b != [] && a[0] == b[0] {
      LessIsAtMost(a[1..], b[1..]);
    }
  }

  /** `AtMost` is the order of Go strings: a prefix comes first, and otherwise the first
      position where the two differ decides. */
  lemma {:induction false} AtMostExactly(a: string, b: string)
    ensures AtMost(a, b) <==> a <= b || exists k :: 0 <= k < |a| && k < |b| && a[..k] == b[..k] && a[k] < b[k]
    decreases |a|
  {
    if a != [] && b != [] && a[0] == b[0] {
      AtMostExactly(a[1..], b[1..]);
      assert a == [a[0]] + a[1..] && b == [b[0]] + b[1..];
      if k :| 0 <= k < |a[1..]| && k < |b[1..]| && a[1..][..k] == b[1..][..k] && a[1..][k] < b[1..][k] {
        assert a[..k + 1] == [a[0]] + a[1..][..k] && b[..k + 1] == [b[0]] + b[1..][..k];
        assert a[..k + 1] == b[..k + 1] && a[k + 1] < b[k + 1];
      }
      if k :| 0 <= k < |a| && k < |b| && a[..k] == b[..k] && a[k] < b[k] {
        assert k > 0;
        assert a[1..][..k - 1] == a[..k][1..] && b[1..][..k - 1] == b[..k][1..];
        assert a[1..][k - 1] < b[1..][k - 1];
      }
    } else if a != [] && b != [] {
      if a[0] < b[0] {
        assert a[..0] == b[..0];
      }
      if k :| 0 <= k < |a| && k < |b| && a[..k] == b[..k] && a[k] < b[k] {
        assert k > 0 ==> a[..k][0] == b[..k][0];
      }
    }
  }

  predicate SortedByName(ps: seq<Part>) {
    forall i, j :: 0 <= i < j < |ps| ==> AtMost(ps[i].name, ps[j].name)
  }

  lemma {:induction false} SortedExactly(ps: seq<Part>)
    ensures SortedByName(ps) <==> forall i, j :: 0 <= i < j < |ps| ==>
              var x, y := ps[i].name, ps[j].name;
              x <= y || exists k :: 0 <= k < |x| && k < |y| && x[..k] == y[..k] && x[k] < y[k]
  {
    hide AtMost;
    forall i, j | 0 <= i < j < |ps|
      ensures var x, y := ps[i].name, ps[j].name;
              AtMost(x, y) <==> x <= y || exists k :: 0 <= k < |x| && k < |y| && x[..k] == y[..k] && x[k] < y[k]
    {
      AtMostExactly(ps[i].name, ps[j].name);
    }
  }

  predicate OfType(p: Part, t: PartType) {
    t == UNSPECIFIED_TYPE || p.partType == t
  }

  /** The catalogue keys among `keys` that hold `p`. */
  function Holding(parts: Catalogue, keys: set<Uuid>, p: Part): set<Uuid>
    requires keys <= parts.Keys
  {
    set k | k in keys && parts[k] == p
  }

  lemma {:induction false} HoldingNothing(parts: Catalogue, p: Part)
    ensures Holding(parts, {}, p) == {}
  {
  }

  lemma {:induction false} HoldingGrows(parts: Catalogue, keys: set<Uuid>, k: Uuid, p: Part)
    requires keys <= parts.Keys && k in parts && k !in keys
    ensures |Holding(parts, keys + {k}, p)| == |Holding(parts, keys, p)| + if parts[k] == p then 1 else 0
  {
    assert Holding(parts, keys + {k}, p) == Holding(parts, keys, p) + if parts[k] == p then {k} else {};
  }

  /** `ps` is sorted by name and holds each part of the type as often as the catalogue does,
      and nothing else. */
  ghost predicate IsListing(parts: Catalogue, t: PartType, ps: seq<Part>) {
    && SortedByName(ps)
    && forall p :: multiset(ps)[p] == if OfType(p, t) then |Holding(parts, parts.Keys, p)| else 0
  }

  class MemoryRepository {
    const parts: Catalogue

    constructor (parts: Catalogue)
      ensures this.parts == parts
    {
      this.parts := parts;
    }

    method GetPart(id: Uuid) returns (part: Option<Part>)
      ensures part == if id in parts then Some(parts[id]) else None
    {
      part := if id in parts then Some(parts[id]) else None;
    }

    /** Every part of the catalogue, in the unspecified order of a map walk. */
    method ListParts() returns (ps: seq<Part>)
      ensures forall p :: multiset(ps)[p] == |Holding(parts, parts.Keys, p)|
    {
      hide Holding;
      ps := [];
      var rest := parts.Keys;
      assert parts.Keys - rest == {};
      forall p
        ensures |Holding(parts, {}, p)| == 0
      {
        HoldingNothing(parts, p);
      }
      while rest != {}
        invariant rest <= parts.Keys
        invariant forall p :: multiset(ps)[p] == |Holding(parts, parts.Keys - rest, p)|
        decreases |rest|
      {
        var k :| k in rest;
        ghost var seen := parts.Keys - rest;
        assert parts.Keys - (rest - {k}) == seen + {k};
        forall p
          ensures |Holding(parts, seen + {k}, p)| == |Holding(parts, seen, p)| + if parts[k] == p then 1 else 0
        {
          HoldingGrows(parts, seen, k, p);
        }
        ps := ps + [parts[k]];
        rest := rest - {k};
      }
      assert parts.Keys - rest == parts.Keys;
    }
  }

  // ---- Sorting in place ----

  method SmallestFrom(a: array<Part>, i: nat) returns (m: nat)
    requires i < a.Length
    ensures i <= m < a.Length
    ensures forall k :: i <= k < a.Length ==> AtMost(a[m].name, a[k].name)
  {
    m := i;
    var k := i + 1;
    assert AtMost(a[i].name, a[i].name) by { if Less(a[i].name, a[i].name) { LessIsAtMost(a[i].name, a[i].name); } }
    while k < a.Length
      invariant i <= m < k <= a.Length
      invariant forall j :: i <= j < k ==> AtMost(a[m].name, a[j].name)
    {
      if Less(a[k].name, a[m].name) {
        LessIsAtMost(a[k].name, a[m].name);
        forall j | i <= j < k
          ensures AtMost(a[k].name, a[j].name)
        {
          AtMostTransitive(a[k].name, a[m].name, a[j].name);
        }
        assert AtMost(a[k].name, a[k].name) by { if Less(a[k].name, a[k].name) { LessIsAtMost(a[k].name, a[k].name); } }
        m := k;
      }
      k := k + 1;
    }
  }

  method SortByName(a: array<Part>)
    modifies a
    ensures SortedByName(a[..])
    ensures forall i, j :: 0 <= i < j < a.Length ==>
              var x, y := a[..][i].name, a[..][j].name;
              x <= y || exists k :: 0 <= k < |x| && k < |y| && x[..k] == y[..k] && x[k] < y[k]
    ensures multiset(a[..]) == multiset(old(a[..]))
  {
    hide AtMost;
    var i := 0;
    while i < a.Length
      invariant 0 <= i <= a.Length
      invariant forall j, k :: 0 <= j < k < a.Length && j < i ==> AtMost(a[j].name, a[k].name)
      invariant multiset(a[..]) == multiset(old(a[..]))
    {
      var m := SmallestFrom(a, i);
      a[i], a[m] := a[m], a[i];
      i := i + 1;
    }
    SortedExactly(a[..]);
  }

  lemma {:induction false} ListingExactly(parts: Catalogue, t: PartType, ps: seq<Part>)
    requires IsListing(parts, t, ps)
    ensures forall i, j :: 0 <= i < j < |ps| ==>
              var a, b := ps[i].name, ps[j].name;
              a <= b || exists k :: 0 <= k < |a| && k < |b| && a[..k] == b[..k] && a[k] < b[k]
    ensures forall p ::
              multiset(ps)[p] == if t == 0 || p.partType == t then |set k | k in parts && parts[k] == p| else 0
  {
    hide AtMost, SortedByName;
    SortedExactly(ps);
    forall p
      ensures Holding(parts, parts.Keys, p) == (set k | k in parts && parts[k] == p)
    {
    }
  }

  lemma {:induction false} ListingFrom(parts: Catalogue, t: PartType, all: seq<Part>, ps: seq<Part>)
    requires SortedByName(ps)
    requires forall p :: multiset(all)[p] == |Holding(parts, parts.Keys, p)|
    requires forall p :: multiset(ps)[p] == if OfType(p, t) then multiset(all)[p] else 0
    ensures IsListing(parts, t, ps)
  {
    hide SortedByName, Holding;
  }

  /** What a call of `ListParts` may answer. */
  ghost predicate Answers(text: TextCodec, parts: Catalogue, t: PartType, raws: seq<string>, res: Result<seq<Part>, InventoryError>) {
    if raws != [] then res == LookupAll(text, parts, raws) else res.Ok? && IsListing(parts, t, res.value)
  }

  /** Those of the type, sorted by name. */
  method FilterAndSort(all: seq<Part>, t: PartType) returns (ps: seq<Part>)
    ensures SortedByName(ps)
    ensures forall p :: multiset(ps)[p] == if OfType(p, t) then multiset(all)[p] else 0
  {
    hide SortedByName;
    var kept: seq<Part> := [];
    var i := 0;
    while i < |all|
      invariant 0 <= i <= |all|
      invariant forall p :: multiset(kept)[p] == if OfType(p, t) then multiset(all[..i])[p] else 0
    {
      assert all[..i + 1] == all[..i] + [all[i]];
      if !(t != UNSPECIFIED_TYPE && all[i].partType != t) {
        kept := kept + [all[i]];
      }
      i := i + 1;
    }
    assert all[..i] == all;
    var a := new Part[|kept|](k requires 0 <= k < |kept| => kept[k]);
    assert a[..] == kept;
    SortByName(a);
    ps := a[..];
  }

  /** Lists parts by UUIDs, order preserved and the type ignored; with no UUIDs, by type
      and sorted by name. */
  method ListParts(text: TextCodec, repo: MemoryRepository, t: PartType, raws: seq<string>)
    returns (res: Result<seq<Part>, InventoryError>)
    ensures Answers(text, repo.parts, t, raws, res)
    ensures raws == [] ==> res.Ok?
    ensures raws == [] ==> forall i, j :: 0 <= i < j < |res.value| ==>
              var a, b := res.value[i].name, res.value[j].name;
              a <= b || exists k :: 0 <= k < |a| && k < |b| && a[..k] == b[..k] && a[k] < b[k]
    ensures raws == [] ==> forall p ::
              multiset(res.value)[p] == if t == 0 || p.partType == t then |set k | k in repo.parts && repo.parts[k] == p| else 0
  {
    hide SortedByName, Holding, IsListing;
    var ps: seq<Part> := [];
    if |raws| > 0 {
      var i := 0;
      while i < |raws|
        invariant 0 <= i <= |raws|
        invariant LookupAll(text, repo.parts, raws[..i]) == Ok(ps)
      {
        assert raws[..i + 1][..i] == raws[..i];
        var id := text.parseUuid(raws[i]);
        if id.None? {
          FirstErrorWins(text, repo.parts, raws, i + 1);
          return Err(InvalidUuid(raws[i]));
        }
        var part := repo.GetPart(id.value);
        if part.None? {
          FirstErrorWins(text, repo.parts, raws, i + 1);
          return Err(PartNotFound(raws[i]));
        }
        ps := ps + [part.value];
        i := i + 1;
      }
      assert raws[..i] == raws;
      return Ok(ps);
    }
    var all := repo.ListParts();
    ps := FilterAndSort(all, t);
    ListingFrom(repo.parts, t, all, ps);
    ListingExactly(repo.parts, t, ps);
    return Ok(ps);
  }

  lemma {:induction false} FirstErrorWins(text: TextCodec, parts: Catalogue, raws: seq<string>, i: nat)
    requires i <= |raws| && LookupAll(text, parts, raws[..i]).Err?
    ensures LookupAll(text, parts, raws) == LookupAll(text, parts, raws[..i])
    decreases |raws|
  {
    if i == |raws| {
      assert raws[..i] == raws;
    } else {
      assert raws[..|raws| - 1][..i] == raws[..i];
      FirstErrorWins(text, parts, raws[..|raws| - 1], i);
    }
  }

  // ---- Index agrees with scan ----

  /** Each part is stored under its own UUID. */
  ghost predicate KeyedByUuid(text: TextCodec, parts: Catalogue) {
    forall k :: k in parts ==> text.parseUuid(parts[k].uuid) == Some(k)
  }

  function Uuids(ps: seq<Part>): seq<string> {
    seq(|ps|, i requires 0 <= i < |ps| => ps[i].uuid)
  }

  /** Asking the service for the UUIDs of a listing gives that listing back, in its order. An
      empty listing has no UUIDs to ask for, and the call lists by type instead. */
  lemma {:induction false} IndexAgreesWithScan(text: TextCodec, parts: Catalogue, t: PartType, ps: seq<Part>,
                                               t': PartType, res: Result<seq<Part>, InventoryError>)
    requires KeyedByUuid(text, parts) && IsListing(parts, t, ps)
    requires Answers(text, parts, t', Uuids(ps), res)
    ensures ps != [] ==> res == Ok(ps)
    ensures ps == [] ==> res.Ok? && IsListing(parts, t', res.value)
  {
    var raws := Uuids(ps);
    forall i | 0 <= i < |ps|
      ensures Lookup(text, parts, raws[i]) == Ok(ps[i])
    {
      assert ps[i] in multiset(ps);
      assert |Holding(parts, parts.Keys, ps[i])| > 0;
      var k :| k in Holding(parts, parts.Keys, ps[i]);
    }
    LookupAllPositional(text, parts, raws);
    if ps != [] {
      assert LookupAll(text, parts, raws).value == ps;
    }
  }

  // ---- gRPC ----

  datatype Code = InvalidArgument | NotFoundCode | InternalCode

  datatype Status = Status(code: Code, message: string)

  function ToStatus(e: InventoryError): Status {
    match e
    case EmptyUuid => Status(InvalidArgument, Message(e))
    case InvalidUuid(_) => Status(InvalidArgument, Message(e))
    case PartNotFound(_) => Status(NotFoundCode, Message(e))
  }

  /** Looking one part up answers like a list of one; only an empty UUID is told apart, and
      even then the status code is the same. */
  lemma {:induction false} GetPartIsListOfOne(text: TextCodec, parts: Catalogue, raw: string)
    ensures raw != "" && GetPart(text, parts, raw).Ok?
            ==> LookupAll(text, parts, [raw]) == Ok([GetPart(text, parts, raw).value])
    ensures raw != "" && GetPart(text, parts, raw).Err?
            ==> LookupAll(text, parts, [raw]) == Err(GetPart(text, parts, raw).error)
    ensures raw == "" && text.parseUuid(raw) == None ==>
              && GetPart(text, parts, raw).Err? && LookupAll(text, parts, [raw]).Err?
              && ToStatus(GetPart(text, parts, raw).error).code == ToStatus(LookupAll(text, parts, [raw]).error).code
  {
    LookupAllPositional(text, parts, [raw]);
    if Lookup(text, parts, raw).Ok? {
      assert Lookup(text, parts, [raw][0]).Ok?;
      assert LookupAll(text, parts, [raw]).value == [Lookup(text, parts, raw).value];
    } else {
      assert !Lookup(text, parts, [raw][0]).Ok?;
    }
  }

  /** The protobuf Part has the same fields. */
  datatype ProtoPart = ProtoPart(uuid: string, name: string, description: string, price: Int64,
                                 partType: PartType, stock: Int64, createdAt: Time)

  function ToProto(p: Part): ProtoPart {
    ProtoPart(p.uuid, p.name, p.description, p.price, p.partType, p.stock, p.createdAt)
  }

  function ToProtos(ps: seq<Part>): seq<ProtoPart> {
    seq(|ps|, i requires 0 <= i < |ps| => ToProto(ps[i]))
  }

  function ListReply(res: Result<seq<Part>, InventoryError>): Result<seq<ProtoPart>, Status> {
    match res
    case Ok(ps) => Ok(ToProtos(ps))
    case Err(e) => Err(ToStatus(e))
  }

  /** The server's GetPart: the part under the UUID, field by field, or a status that tells an
      empty UUID, one that does not parse and an unknown one apart. */
  method ServeGetPart(text: TextCodec, repo: MemoryRepository, raw: string) returns (reply: Result<ProtoPart, Status>)
    ensures raw == "" ==> reply == Err(Status(InvalidArgument, "uuid must not be empty"))
    ensures raw != "" && text.parseUuid(raw).None? ==> reply == Err(Status(InvalidArgument, "invalid uuid format: " + raw))
    ensures raw != "" && text.parseUuid(raw).Some? && text.parseUuid(raw).value !in repo.parts
            ==> reply == Err(Status(NotFoundCode, "part not found: " + raw))
    ensures raw != "" && text.parseUuid(raw).Some? && text.parseUuid(raw).value in repo.parts ==>
            var p := repo.parts[text.parseUuid(raw).value];
            && reply.Ok?
            && reply.value.uuid == p.uuid && reply.value.name == p.name && reply.value.description == p.description
            && reply.value.price == p.price && reply.value.partType == p.partType
            && reply.value.stock == p.stock && reply.value.createdAt == p.createdAt
  {
    var res := GetPart(text, repo.parts, raw);
    return if res.Ok? then Ok(ToProto(res.value)) else Err(ToStatus(res.error));
  }

  /** A list of UUIDs over gRPC: the parts in order, field by field, or the status of the
      earliest UUID that does not parse or has no part. */
  lemma {:induction false} ListReplyExactly(text: TextCodec, parts: Catalogue, raws: seq<string>)
    ensures var reply := ListReply(LookupAll(text, parts, raws));
      && (reply.Ok? <==> forall i :: 0 <= i < |raws| ==> text.parseUuid(raws[i]).Some? && text.parseUuid(raws[i]).value in parts)
      && (reply.Ok? ==> |reply.value| == |raws| && forall i :: 0 <= i < |raws| ==>
            var p := parts[text.parseUuid(raws[i]).value];
            reply.value[i].uuid == p.uuid && reply.value[i].name == p.name && reply.value[i].description == p.description
            && reply.value[i].price == p.price && reply.value[i].partType == p.partType
            && reply.value[i].stock == p.stock && reply.value[i].createdAt == p.createdAt)
      && (reply.Err? ==> exists i ::
            && 0 <= i < |raws|
            && (forall j :: 0 <= j < i ==> text.parseUuid(raws[j]).Some? && text.parseUuid(raws[j]).value in parts)
            && if text.parseUuid(raws[i]).None?
               then reply.error == Status(InvalidArgument, "invalid uuid format: " + raws[i])
               else text.parseUuid(raws[i]).value !in parts
                    && reply.error == Status(NotFoundCode, "part not found: " + raws[i]))
  {
    LookupAllExactly(text, parts, raws);
  }

  /** The server's ListParts for a request by UUIDs. */
  method ServeListParts(text: TextCodec, repo: MemoryRepository, t: PartType, raws: seq<string>)
    returns (reply: Result<seq<ProtoPart>, Status>)
    ensures raws != [] ==> reply == ListReply(LookupAll(text, repo.parts, raws))
    ensures raws == [] ==> exists ps :: IsListing(repo.parts, t, ps) && reply == Ok(ToProtos(ps))
  {
    var res := ListParts(text, repo, t, raws);
    if res.Err? {
      return Err(ToStatus(res.error));
    }
    var protos: seq<ProtoPart> := [];
    var i := 0;
    while i < |res.value|
      invariant 0 <= i <= |res.value| && protos == ToProtos(res.value[..i])
    {
      protos := protos + [ToProto(res.value[i])];
      i := i + 1;
    }
    assert res.value[..i] == res.value;
    return Ok(protos);
  }
}
