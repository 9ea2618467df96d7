/** The generated JSON codec of an object type. All its types are one template over a
    table of fields: encode the fields in order, decode member by member into the
    fields of a struct, then check the required bits. The template is verified here
    for every table; `Messages` has the tables. */
module Codec {
  import opened Domain
  import opened Json
  import opened RequiredFields

  /** Optional and nullable: unset, null, or a value. */
  datatype OptNil<+T> = OptNil(value: T, isSet: bool, isNull: bool) {
    /** `Get`: the value, if it is set and not null. */
    function Get(): (v: Option<T>)
      ensures v.Some? <==> isSet && !isNull
      ensures v.Some? ==> v.value == value
    {
      if isNull then None else if !isSet then None else Some(value)
    }

    /** The same state with nothing in it but what the state says. */
    function Canonical(zero: T): (c: OptNil<T>)
      ensures c.Get() == Get() && c.isSet == isSet && (isSet ==> c.isNull == isNull)
    {
      if !isSet then OptNil(zero, false, false) else if isNull then OptNil(zero, true, true) else this
    }
  }

  datatype Kind = KUuid | KInt | KText | KTime | KOptUuid | KOptText

  datatype Val =
    | VUuid(u: Uuid)
    | VInt(n: Int64)
    | VText(s: string)
    | VTime(t: Time)
    | VOptUuid(ou: OptNil<Uuid>)
    | VOptText(os: OptNil<string>)

  /** A field is required unless it is optional; the generated tables have no other case. */
  datatype Field = Field(name: string, kind: Kind) {
    predicate Required() { !kind.KOptUuid? && !kind.KOptText? }
  }

  type Schema = seq<Field>

  predicate HasKind(v: Val, k: Kind) {
    match k
    case KUuid => v.VUuid?
    case KInt => v.VInt?
    case KText => v.VText?
    case KTime => v.VTime?
    case KOptUuid => v.VOptUuid?
    case KOptText => v.VOptText?
  }

  predicate Fits(vals: seq<Val>, schema: Schema) {
    |vals| == |schema| && forall j :: 0 <= j < |schema| ==> HasKind(vals[j], schema[j].kind)
  }

  predicate DistinctNames(schema: Schema) {
    forall i, j :: 0 <= i < j < |schema| ==> schema[i].name != schema[j].name
  }

  /** Go's zero value of a field. */
  function Zero(k: Kind): (v: Val)
    ensures HasKind(v, k)
  {
    match k
    case KUuid => VUuid(0)
    case KInt => VInt(0)
    case KText => VText("")
    case KTime => VTime(0)
    case KOptUuid => VOptUuid(OptNil(0, false, false))
    case KOptText => VOptText(OptNil("", false, false))
  }

  function ZeroStruct(schema: Schema): seq<Val> {
    seq(|schema|, j requires 0 <= j < |schema| => Zero(schema[j].kind))
  }

  function Names(schema: Schema): seq<string> {
    seq(|schema|, j requires 0 <= j < |schema| => schema[j].name)
  }

  // ---- One field ----

  function DecodeVal(text: TextCodec, k: Kind, j: Json): (r: Option<Val>)
    ensures r.Some? ==> HasKind(r.value, k)
  {
    match k
    case KUuid => (match DecodeUuid(text, j) case Some(u) => Some(VUuid(u)) case None => None)
    case KInt =>
      if j.Int? && -0x8000_0000_0000_0000 <= j.n < 0x8000_0000_0000_0000 then Some(VInt(j.n as Int64)) else None
    case KText => if j.Str? then Some(VText(j.s)) else None
    case KTime =>
      if j.Str? then (match text.parseTime(j.s) case Some(t) => Some(VTime(t)) case None => None) else None
    case KOptUuid =>
      if j.Null? then Some(VOptUuid(OptNil(0, true, true)))
      else (match DecodeUuid(text, j) case Some(u) => Some(VOptUuid(OptNil(u, true, false))) case None => None)
    case KOptText =>
      if j.Null? then Some(VOptText(OptNil("", true, true)))
      else if j.Str? then Some(VOptText(OptNil(j.s, true, false)))
      else None
  }

  function DecodeUuid(text: TextCodec, j: Json): Option<Uuid> {
    if j.Str? then text.parseUuid(j.s) else None
  }

  /** Exactly which JSON values fit a field of each kind, and what they give. */
  lemma {:induction false} FitsExactly(text: TextCodec, j: Json, u: Uuid, n: Int64, s: string, t: Time,
                                       ou: OptNil<Uuid>, os: OptNil<string>)
    ensures DecodeVal(text, KUuid, j) == Some(VUuid(u)) <==> j.Str? && text.parseUuid(j.s) == Some(u)
    ensures DecodeVal(text, KInt, j) == Some(VInt(n)) <==> j == Int(n as int)
    ensures DecodeVal(text, KText, j) == Some(VText(s)) <==> j == Str(s)
    ensures DecodeVal(text, KTime, j) == Some(VTime(t)) <==> j.Str? && text.parseTime(j.s) == Some(t)
    ensures DecodeVal(text, KOptUuid, j) == Some(VOptUuid(ou)) <==>
              if j == Null then ou == OptNil(0, true, true)
              else j.Str? && text.parseUuid(j.s) == Some(ou.value) && ou.isSet && !ou.isNull
    ensures DecodeVal(text, KOptText, j) == Some(VOptText(os)) <==>
              if j == Null then os == OptNil("", true, true) else j == Str(os.value) && os.isSet && !os.isNull
  {
  }

  /** An optional field that is not set is not written at all. */
  predicate IsWritten(v: Val) {
    match v
    case VOptUuid(o) => o.isSet
    case VOptText(o) => o.isSet
    case _ => true
  }

  function EncodeVal(text: TextCodec, v: Val): Json {
    match v
    case VUuid(u) => Str(text.printUuid(u))
    case VInt(n) => Int(n as int)
    case VText(s) => Str(s)
    case VTime(t) => Str(text.printTime(t))
    case VOptUuid(o) => if o.isNull then Null else Str(text.printUuid(o.value))
    case VOptText(o) => if o.isNull then Null else Str(o.value)
  }

  /** What comes back of a field: an unset one is the zero one, a null one has a zero value,
      and an instant is the one its text denotes. */
  function Normal(text: TextCodec, v: Val): Option<Val> {
    match v
    case VOptUuid(o) => Some(VOptUuid(o.Canonical(0)))
    case VOptText(o) => Some(VOptText(o.Canonical("")))
    case VTime(t) => (match text.parseTime(text.printTime(t)) case Some(t') => Some(VTime(t')) case None => None)
    case _ => Some(v)
  }

  /** One field comes back in normal form. */
  lemma {:induction false} FieldRoundTrip(text: TextCodec, k: Kind, v: Val)
    requires text.UuidsRoundTrip() && HasKind(v, k)
    ensures (if IsWritten(v) then DecodeVal(text, k, EncodeVal(text, v)) else Some(Zero(k))) == Normal(text, v)
  {
    match v {
      case VUuid(u) => assert text.parseUuid(text.printUuid(u)) == Some(u);
      case VOptUuid(o) => assert text.parseUuid(text.printUuid(o.value)) == Some(o.value);
      case _ =>
    }
  }

  // ---- Encode ----

  function EncodedFields(text: TextCodec, schema: Schema, vals: seq<Val>, n: nat): seq<Member>
    requires |vals| == |schema| && n <= |schema|
  {
    if n == 0 then []
    else EncodedFields(text, schema, vals, n - 1)
         + (if IsWritten(vals[n - 1]) then [Member(schema[n - 1].name, EncodeVal(text, vals[n - 1]))] else [])
  }

  /** The encoder buffer: the members written so far and the field that was started. */
  class Encoder {
    var members: seq<Member>
    var started: Option<string>

    constructor ()
      ensures members == [] && started == None
    {
      members, started := [], None;
    }

    method FieldStart(name: string)
      modifies this`started
      ensures started == Some(name)
    {
      started := Some(name);
    }

    method Value(j: Json)
      requires started.Some?
      modifies this
      ensures members == old(members) + [Member(old(started).value, j)] && started == None
    {
      members, started := members + [Member(started.value, j)], None;
    }
  }

  method EncodeFields(text: TextCodec, schema: Schema, vals: seq<Val>, e: Encoder)
    requires |vals| == |schema|
    modifies e
    ensures e.members == old(e.members) + EncodedFields(text, schema, vals, |schema|)
  {
    var j := 0;
    while j < |schema|
      invariant 0 <= j <= |schema|
      invariant e.members == old(e.members) + EncodedFields(text, schema, vals, j)
    {
      if IsWritten(vals[j]) {
        e.FieldStart(schema[j].name);
        e.Value(EncodeVal(text, vals[j]));
      }
      j := j + 1;
    }
  }

  // ---- Decode, as a lookup ----

  datatype DecodeError = NotAnObject | BadField(name: string) | MissingFields(names: seq<string>)

  /** The struct field a key selects, or `|schema|` for an unknown key. */
  function FieldIndex(schema: Schema, key: string): (j: nat)
    ensures j <= |schema|
    ensures j < |schema| ==> schema[j].name == key
    ensures forall i :: 0 <= i < j ==> schema[i].name != key
  {
    if schema == [] then 0
    else if schema[0].name == key then 0
    else 1 + FieldIndex(schema[1..], key)
  }

  /** An unknown member is fine; a known one must have a value of its field's kind. */
  predicate MemberOk(text: TextCodec, schema: Schema, m: Member) {
    var j := FieldIndex(schema, m.key);
    j < |schema| ==> DecodeVal(text, schema[j].kind, m.val).Some?
  }

  /** The key of the first member whose value does not fit its field. */
  function FirstBad(text: TextCodec, schema: Schema, ms: seq<Member>): Option<string> {
    if ms == [] then None
    else
      var n := |ms| - 1;
      var earlier := FirstBad(text, schema, ms[..n]);
      if earlier.Some? then earlier
      else if MemberOk(text, schema, ms[n]) then None
      else Some(ms[n].key)
  }

  /** The required fields below `n` that no member names, in table order. */
  function Missing(schema: Schema, ms: seq<Member>, n: nat): seq<string>
    requires n <= |schema|
  {
    if n == 0 then []
    else Missing(schema, ms, n - 1)
         + (if schema[n - 1].Required() && Last(ms, schema[n - 1].name).None? then [schema[n - 1].name] else [])
  }

  /** A field holds what the last member with its name says, or what it held before. */
  function FieldValue(text: TextCodec, f: Field, ms: seq<Member>, before: Val): Val {
    match Last(ms, f.name)
    case None => before
    case Some(j) => (match DecodeVal(text, f.kind, j) case Some(v) => v case None => before)
  }

  function StructOf(text: TextCodec, schema: Schema, ms: seq<Member>, before: seq<Val>): seq<Val>
    requires |before| == |schema|
  {
    seq(|schema|, j requires 0 <= j < |schema| => FieldValue(text, schema[j], ms, before[j]))
  }

  /** What decoding means: last-occurrence lookup, unless a value does not fit or a
      required field is missing. */
  function Decoded(text: TextCodec, schema: Schema, ms: seq<Member>, before: seq<Val>): Result<seq<Val>, DecodeError>
    requires |before| == |schema|
  {
    if FirstBad(text, schema, ms).Some? then Err(BadField(FirstBad(text, schema, ms).value))
    else if Missing(schema, ms, |schema|) != [] then Err(MissingFields(Missing(schema, ms, |schema|)))
    else Ok(StructOf(text, schema, ms, before))
  }

  // ---- Decode, as the generated loop ----

  /** The shipped masks have exactly the bits of the required fields. */
  ghost predicate MasksFit(masks: seq<bv8>, schema: Schema) {
    && |schema| <= 8 * |masks|
    && forall j: nat :: InSet(masks, j) <==> j < |schema| && schema[j].Required()
  }

  /** The bits say which required fields the members so far have named. */
  ghost predicate Tracks(seen: seq<bv8>, schema: Schema, ms: seq<Member>) {
    forall j :: 0 <= j < |schema| && schema[j].Required() ==> (InSet(seen, j) <==> Last(ms, schema[j].name).Some?)
  }

  lemma {:induction false} IndexOfName(schema: Schema, j: nat)
    requires DistinctNames(schema) && j < |schema|
    ensures FieldIndex(schema, schema[j].name) == j
  {
    var i := FieldIndex(schema, schema[j].name);
    assert i <= j && schema[i].name == schema[j].name;
  }

  lemma {:induction false} TracksNext(seen: seq<bv8>, seen': seq<bv8>, schema: Schema, ms: seq<Member>, m: Member)
    requires DistinctNames(schema) && Tracks(seen, schema, ms)
    requires var f := FieldIndex(schema, m.key);
             if f < |schema| && schema[f].Required()
             then forall i: nat :: InSet(seen', i) <==> InSet(seen, i) || i == f
             else seen' == seen
    ensures Tracks(seen', schema, ms + [m])
  {
    hide InSet;
    forall j | 0 <= j < |schema| && schema[j].Required()
      ensures InSet(seen', j) <==> Last(ms + [m], schema[j].name).Some?
    {
      LastSnoc(ms, m, schema[j].name);
      IndexOfName(schema, j);
    }
  }

  lemma {:induction false} StructNext(text: TextCodec, schema: Schema, ms: seq<Member>, m: Member, before: seq<Val>)
    requires DistinctNames(schema) && |before| == |schema| && MemberOk(text, schema, m)
    ensures var f := FieldIndex(schema, m.key);
            StructOf(text, schema, ms + [m], before) ==
            if f < |schema| then StructOf(text, schema, ms, before)[f := DecodeVal(text, schema[f].kind, m.val).value]
            else StructOf(text, schema, ms, before)
  {
    hide DecodeVal;
    forall j | 0 <= j < |schema|
      ensures Last(ms + [m], schema[j].name) ==
              if FieldIndex(schema, m.key) == j then Some(m.val) else Last(ms, schema[j].name)
    {
      LastSnoc(ms, m, schema[j].name);
      IndexOfName(schema, j);
    }
  }

  lemma {:induction false} FirstBadStays(text: TextCodec, schema: Schema, ms: seq<Member>, i: nat)
    requires i <= |ms| && FirstBad(text, schema, ms[..i]).Some?
    ensures FirstBad(text, schema, ms) == FirstBad(text, schema, ms[..i])
    decreases |ms|
  {
    if i == |ms| {
      assert ms[..i] == ms;
    } else {
      assert ms[..|ms| - 1][..i] == ms[..i];
      FirstBadStays(text, schema, ms[..|ms| - 1], i);
    }
  }

  lemma {:induction false} ReportedIsMissing(seen: seq<bv8>, masks: seq<bv8>, schema: Schema, ms: seq<Member>, n: nat)
    requires MasksFit(masks, schema) && Tracks(seen, schema, ms) && n <= 8 * |masks|
    ensures NamesAt(Names(schema), MissingBelow(seen, masks, n)) ==
            Missing(schema, ms, if n < |schema| then n else |schema|)
    decreases n
  {
    hide InSet;
    if n > 0 {
      ReportedIsMissing(seen, masks, schema, ms, n - 1);
      var before := MissingBelow(seen, masks, n - 1);
      NamesAtSnoc(Names(schema), before, n - 1);
    }
  }

  lemma {:induction false} NamesAtSnoc(names: seq<string>, ks: seq<nat>, k: nat)
    ensures NamesAt(names, ks + [k]) == NamesAt(names, ks) + [NameAt(names, k)]
    ensures NamesAt(names, ks + []) == NamesAt(names, ks)
  {
    assert ks + [] == ks;
  }

  /** With the shipped masks the numeric-name fallback is unreachable: every reported index
      is the index of a named field. */
  lemma {:induction false} FallbackUnreachable(seen: seq<bv8>, masks: seq<bv8>, schema: Schema, k: nat)
    requires MasksFit(masks, schema) && k in MissingBelow(seen, masks, 8 * |masks|)
    ensures k < |Names(schema)| && NameAt(Names(schema), k) == schema[k].name
  {
    MissingExactly(seen, masks, 8 * |masks|);
  }

  method Decode(text: TextCodec, schema: Schema, masks: seq<bv8>, ms: seq<Member>, s: array<Val>)
    returns (err: Option<DecodeError>)
    requires DistinctNames(schema) && MasksFit(masks, schema) && s.Length == |schema|
    modifies s
    ensures err.None? ==> Decoded(text, schema, ms, old(s[..])) == Ok(s[..])
    ensures err.Some? ==> Decoded(text, schema, ms, old(s[..])) == Err(err.value)
  {
    hide DecodeVal, InSet, FieldIndex, StructOf, Tracks, Last, MissingBelow, NamesAt, Mark;
    ghost var before := s[..];
    var seen: seq<bv8> := seq(|masks|, _ => 0);
    TracksNothing(seen, schema);
    StructOfNothing(text, schema, before);
    var i := 0;
    while i < |ms|
      invariant 0 <= i <= |ms| && |seen| == |masks|
      invariant FirstBad(text, schema, ms[..i]).None?
      invariant Tracks(seen, schema, ms[..i])
      invariant s[..] == StructOf(text, schema, ms[..i], before)
    {
      assert ms[..i + 1] == ms[..i] + [ms[i]] && ms[..i + 1][..i] == ms[..i];
      var f := FieldIndex(schema, ms[i].key);
      ghost var was := seen;
      if f < |schema| {
        if schema[f].Required() {
          seen := Mark(seen, f);
        }
        var v := DecodeVal(text, schema[f].kind, ms[i].val);
        if v.None? {
          FirstBadStays(text, schema, ms, i + 1);
          return Some(BadField(ms[i].key));
        }
        s[f] := v.value;
      }
      TracksNext(was, seen, schema, ms[..i], ms[i]);
      StructNext(text, schema, ms[..i], ms[i], before);
      i := i + 1;
    }
    assert ms[..i] == ms;
    var failures := CheckRequired(seen, masks, Names(schema));
    ReportedIsMissing(seen, masks, schema, ms, 8 * |masks|);
    if |failures| > 0 {
      return Some(MissingFields(failures));
    }
    return None;
  }

  lemma {:induction false} TracksNothing(seen: seq<bv8>, schema: Schema)
    requires forall i :: 0 <= i < |seen| ==> seen[i] == 0
    ensures Tracks(seen, schema, [])
  {
    forall j: nat
      ensures !InSet(seen, j)
    {
      if j / 8 < |seen| {
        NoBits(seen[j / 8]);
      }
    }
  }

  lemma {:induction false} StructOfNothing(text: TextCodec, schema: Schema, before: seq<Val>)
    requires |before| == |schema|
    ensures StructOf(text, schema, [], before) == before
  {
  }

  // ---- What decoding accepts, and what it does not look at ----

  lemma {:induction false} FirstBadExactly(text: TextCodec, schema: Schema, ms: seq<Member>)
    ensures FirstBad(text, schema, ms).None? <==> forall m :: m in ms ==> MemberOk(text, schema, m)
    decreases |ms|
  {
    hide MemberOk;
    if ms != [] {
      var n := |ms| - 1;
      assert ms == ms[..n] + [ms[n]];
      FirstBadExactly(text, schema, ms[..n]);
    }
  }

  lemma {:induction false} FirstBadIsFirst(text: TextCodec, schema: Schema, ms: seq<Member>)
    requires FirstBad(text, schema, ms).Some?
    ensures exists i :: 0 <= i < |ms| && !MemberOk(text, schema, ms[i]) && FirstBad(text, schema, ms) == Some(ms[i].key)
                        && forall k :: 0 <= k < i ==> MemberOk(text, schema, ms[k])
    decreases |ms|
  {
    hide MemberOk;
    var n := |ms| - 1;
    if FirstBad(text, schema, ms[..n]).Some? {
      FirstBadIsFirst(text, schema, ms[..n]);
      var i :| 0 <= i < n && !MemberOk(text, schema, ms[..n][i]) && FirstBad(text, schema, ms[..n]) == Some(ms[..n][i].key)
               && forall k :: 0 <= k < i ==> MemberOk(text, schema, ms[..n][k]);
      assert forall k :: 0 <= k < i ==> ms[..n][k] == ms[k];
    } else {
      FirstBadExactly(text, schema, ms[..n]);
      assert forall k :: 0 <= k < n ==> ms[k] in ms[..n];
    }
  }

  lemma {:induction false} MissingNothing(schema: Schema, ms: seq<Member>, n: nat)
    requires n <= |schema|
    ensures Missing(schema, ms, n) == [] <==>
            forall j :: 0 <= j < n && schema[j].Required() ==> Last(ms, schema[j].name).Some?
    decreases n
  {
    if n > 0 {
      MissingNothing(schema, ms, n - 1);
    }
  }

  /** Decoding succeeds exactly when every known member fits its field and no required
      field is missing. */
  lemma {:induction false} AcceptsExactly(text: TextCodec, schema: Schema, ms: seq<Member>, before: seq<Val>)
    requires |before| == |schema|
    ensures Decoded(text, schema, ms, before).Ok? <==>
            && (forall m :: m in ms ==> MemberOk(text, schema, m))
            && (forall j :: 0 <= j < |schema| && schema[j].Required() ==> Last(ms, schema[j].name).Some?)
  {
    FirstBadExactly(text, schema, ms);
    MissingNothing(schema, ms, |schema|);
  }

  lemma {:induction false} MemberOkExactly(text: TextCodec, schema: Schema, m: Member)
    requires DistinctNames(schema)
    ensures MemberOk(text, schema, m) <==>
            forall j :: 0 <= j < |schema| && m.key == schema[j].name ==> DecodeVal(text, schema[j].kind, m.val).Some?
  {
    hide DecodeVal;
    forall j | 0 <= j < |schema| && m.key == schema[j].name
      ensures FieldIndex(schema, m.key) == j
    {
      IndexOfName(schema, j);
    }
  }

  lemma {:induction false} LastExactly(ms: seq<Member>, key: string)
    ensures Last(ms, key).Some? <==> exists i :: 0 <= i < |ms| && ms[i].key == key
    ensures forall i :: 0 <= i < |ms| && ms[i].key == key && (forall k :: i < k < |ms| ==> ms[k].key != key)
              ==> Last(ms, key) == Some(ms[i].val)
    decreases |ms|
  {
    if ms != [] {
      var n := |ms| - 1;
      LastExactly(ms[..n], key);
      assert forall i :: 0 <= i < n ==> ms[..n][i] == ms[i];
      if ms[n].key != key {
        forall i | 0 <= i < |ms| && ms[i].key == key && (forall k :: i < k < |ms| ==> ms[k].key != key)
          ensures Last(ms, key) == Some(ms[i].val)
        {
          assert ms[..n][i].key == key;
        }
      }
    }
  }

  /** Decoding, member by member: it succeeds iff no member of a known name has a value that
      does not fit and every required name occurs; then a field no member names keeps its value,
      and any other holds what the last member with its name says. */
  lemma {:induction false} DecodedExactly(text: TextCodec, schema: Schema, ms: seq<Member>, before: seq<Val>)
    requires |before| == |schema| && DistinctNames(schema)
    ensures var res := Decoded(text, schema, ms, before);
      && (res.Ok? <==>
            && (forall i, j :: 0 <= i < |ms| && 0 <= j < |schema| && ms[i].key == schema[j].name
                  ==> DecodeVal(text, schema[j].kind, ms[i].val).Some?)
            && (forall j :: 0 <= j < |schema| && schema[j].Required() ==> exists i :: 0 <= i < |ms| && ms[i].key == schema[j].name))
      && (res.Ok? ==> |res.value| == |schema| && forall j :: 0 <= j < |schema| ==>
            && ((forall i :: 0 <= i < |ms| ==> ms[i].key != schema[j].name) ==> res.value[j] == before[j])
            && (forall i :: 0 <= i < |ms| && ms[i].key == schema[j].name
                            && (forall k :: i < k < |ms| ==> ms[k].key != schema[j].name)
                  ==> DecodeVal(text, schema[j].kind, ms[i].val) == Some(res.value[j])))
  {
    hide DecodeVal, MemberOk, Decoded;
    AcceptsExactly(text, schema, ms, before);
    AllMembersOk(text, schema, ms);
    forall j | 0 <= j < |schema|
      ensures Last(ms, schema[j].name).Some? <==> exists i :: 0 <= i < |ms| && ms[i].key == schema[j].name
      ensures forall i :: 0 <= i < |ms| && ms[i].key == schema[j].name && (forall k :: i < k < |ms| ==> ms[k].key != schema[j].name)
                ==> Last(ms, schema[j].name) == Some(ms[i].val)
    {
      LastExactly(ms, schema[j].name);
    }
    var res := Decoded(text, schema, ms, before);
    if res.Ok? {
      DecodedIsStruct(text, schema, ms, before);
    }
  }

  lemma {:induction false} AllMembersOk(text: TextCodec, schema: Schema, ms: seq<Member>)
    requires DistinctNames(schema)
    ensures (forall m :: m in ms ==> MemberOk(text, schema, m)) <==>
            forall i, j :: 0 <= i < |ms| && 0 <= j < |schema| && ms[i].key == schema[j].name
              ==> DecodeVal(text, schema[j].kind, ms[i].val).Some?
  {
    hide DecodeVal, MemberOk;
    forall i | 0 <= i < |ms|
      ensures MemberOk(text, schema, ms[i]) <==>
              forall j :: 0 <= j < |schema| && ms[i].key == schema[j].name ==> DecodeVal(text, schema[j].kind, ms[i].val).Some?
    {
      MemberOkExactly(text, schema, ms[i]);
    }
  }

  /** Which error decoding gives: a value that does not fit is reported at the first member that
      has one; when there is none, the required names that do not occur. */
  lemma {:induction false} ErrorExactly(text: TextCodec, schema: Schema, ms: seq<Member>, before: seq<Val>)
    requires |before| == |schema| && DistinctNames(schema) && Decoded(text, schema, ms, before).Err?
    ensures match Decoded(text, schema, ms, before).error
      case NotAnObject => false
      case BadField(name) => exists i, j ::
        && 0 <= i < |ms| && 0 <= j < |schema| && ms[i].key == schema[j].name == name
        && DecodeVal(text, schema[j].kind, ms[i].val).None?
        && forall k, l :: 0 <= k < i && 0 <= l < |schema| && ms[k].key == schema[l].name
             ==> DecodeVal(text, schema[l].kind, ms[k].val).Some?
      case MissingFields(names) =>
        && (forall i, j :: 0 <= i < |ms| && 0 <= j < |schema| && ms[i].key == schema[j].name
              ==> DecodeVal(text, schema[j].kind, ms[i].val).Some?)
        && forall name :: name in names <==>
             exists j :: 0 <= j < |schema| && schema[j].Required() && schema[j].name == name
                         && forall i :: 0 <= i < |ms| ==> ms[i].key != name
  {
    hide DecodeVal, MemberOk;
    if FirstBad(text, schema, ms).Some? {
      FirstBadIsFirst(text, schema, ms);
      var i :| 0 <= i < |ms| && !MemberOk(text, schema, ms[i]) && FirstBad(text, schema, ms) == Some(ms[i].key)
               && forall k :: 0 <= k < i ==> MemberOk(text, schema, ms[k]);
      MemberOkExactly(text, schema, ms[i]);
      forall k | 0 <= k < i
        ensures forall l :: 0 <= l < |schema| && ms[k].key == schema[l].name ==> DecodeVal(text, schema[l].kind, ms[k].val).Some?
      {
        MemberOkExactly(text, schema, ms[k]);
      }
    } else {
      FirstBadExactly(text, schema, ms);
      AllMembersOk(text, schema, ms);
      MissingNames(schema, ms, |schema|);
    }
  }

  lemma {:induction false} MissingNames(schema: Schema, ms: seq<Member>, n: nat)
    requires n <= |schema|
    ensures forall name :: name in Missing(schema, ms, n) <==>
              exists j :: 0 <= j < n && schema[j].Required() && schema[j].name == name
                          && forall i :: 0 <= i < |ms| ==> ms[i].key != name
    decreases n
  {
    hide Last;
    if n > 0 {
      MissingNames(schema, ms, n - 1);
      LastExactly(ms, schema[n - 1].name);
    }
  }

  /** Two member lists with the same first bad member, or none, that agree on every last
      occurrence decode alike. */
  lemma {:induction false} OnlyLastCounts(text: TextCodec, schema: Schema, ms: seq<Member>, ms': seq<Member>, before: seq<Val>)
    requires |before| == |schema|
    requires forall j :: 0 <= j < |schema| ==> Last(ms, schema[j].name) == Last(ms', schema[j].name)
    requires FirstBad(text, schema, ms) == FirstBad(text, schema, ms')
    ensures Decoded(text, schema, ms, before) == Decoded(text, schema, ms', before)
  {
    SameMissing(schema, ms, ms', |schema|);
    assert StructOf(text, schema, ms, before) == StructOf(text, schema, ms', before);
  }

  lemma {:induction false} SameMissing(schema: Schema, ms: seq<Member>, ms': seq<Member>, n: nat)
    requires n <= |schema|
    requires forall j :: 0 <= j < |schema| ==> Last(ms, schema[j].name) == Last(ms', schema[j].name)
    ensures Missing(schema, ms, n) == Missing(schema, ms', n)
    decreases n
  {
    if n > 0 {
      SameMissing(schema, ms, ms', n - 1);
    }
  }

  lemma {:induction false} FirstBadSkips(text: TextCodec, schema: Schema, xs: seq<Member>, m: Member, ys: seq<Member>)
    requires MemberOk(text, schema, m)
    ensures FirstBad(text, schema, xs + [m] + ys) == FirstBad(text, schema, xs + ys)
    decreases |ys|
  {
    hide MemberOk;
    if ys == [] {
      assert xs + [m] + ys == xs + [m] && (xs + [m])[..|xs|] == xs && xs + ys == xs;
    } else {
      var n := |ys| - 1;
      FirstBadSkips(text, schema, xs, m, ys[..n]);
      assert (xs + [m] + ys)[..|xs| + 1 + n] == xs + [m] + ys[..n];
      assert (xs + ys)[..|xs| + n] == xs + ys[..n];
    }
  }

  /** An unknown member, anywhere in the object, changes nothing: not the result, not the error. */
  lemma {:induction false} UnknownMembersIgnored(text: TextCodec, schema: Schema, xs: seq<Member>, m: Member, ys: seq<Member>, before: seq<Val>)
    requires |before| == |schema| && FieldIndex(schema, m.key) == |schema|
    ensures Decoded(text, schema, xs + [m] + ys, before) == Decoded(text, schema, xs + ys, before)
  {
    forall j | 0 <= j < |schema|
      ensures Last(xs + [m] + ys, schema[j].name) == Last(xs + ys, schema[j].name)
    {
      LastConcat(xs + [m], ys, schema[j].name);
      LastConcat(xs, ys, schema[j].name);
      LastSnoc(xs, m, schema[j].name);
    }
    FirstBadSkips(text, schema, xs, m, ys);
    OnlyLastCounts(text, schema, xs + [m] + ys, xs + ys, before);
  }

  /** Members with distinct keys may come in any order. */
  lemma {:induction false} OrderIgnored(text: TextCodec, schema: Schema, ms: seq<Member>, ms': seq<Member>, before: seq<Val>)
    requires |before| == |schema| && multiset(ms) == multiset(ms')
    requires forall m, m' :: m in ms && m' in ms && m.key == m'.key ==> m == m'
    requires Decoded(text, schema, ms, before).Ok?
    ensures Decoded(text, schema, ms', before) == Decoded(text, schema, ms, before)
  {
    hide Decoded, MemberOk;
    assert forall m :: m in ms <==> m in multiset(ms);
    assert forall m :: m in ms' <==> m in multiset(ms');
    AcceptsExactly(text, schema, ms, before);
    FirstBadExactly(text, schema, ms);
    FirstBadExactly(text, schema, ms');
    forall j | 0 <= j < |schema|
      ensures Last(ms, schema[j].name) == Last(ms', schema[j].name)
    {
      LastIsMember(ms, schema[j].name);
      LastIsMember(ms', schema[j].name);
    }
    OnlyLastCounts(text, schema, ms, ms', before);
  }

  // ---- Round trip ----

  lemma {:induction false} EncodedKeysKnown(text: TextCodec, schema: Schema, vals: seq<Val>, n: nat)
    requires |vals| == |schema| && n <= |schema| && DistinctNames(schema)
    ensures forall m :: m in EncodedFields(text, schema, vals, n) ==>
              exists j :: 0 <= j < n && IsWritten(vals[j]) && m == Member(schema[j].name, EncodeVal(text, vals[j]))
    decreases n
  {
    hide EncodeVal;
    if n > 0 {
      EncodedKeysKnown(text, schema, vals, n - 1);
    }
  }

  lemma {:induction false} LastEncoded(text: TextCodec, schema: Schema, vals: seq<Val>, n: nat, j: nat)
    requires |vals| == |schema| && n <= |schema| && j < |schema| && DistinctNames(schema)
    ensures Last(EncodedFields(text, schema, vals, n), schema[j].name) ==
            if j < n && IsWritten(vals[j]) then Some(EncodeVal(text, vals[j])) else None
    decreases n
  {
    hide EncodeVal;
    if n > 0 {
      LastEncoded(text, schema, vals, n - 1, j);
      var init := EncodedFields(text, schema, vals, n - 1);
      if IsWritten(vals[n - 1]) {
        LastSnoc(init, Member(schema[n - 1].name, EncodeVal(text, vals[n - 1])), schema[j].name);
      } else {
        assert init + [] == init;
      }
    }
  }

  /** Every printed instant parses. */
  ghost predicate AllReadable(text: TextCodec, vals: seq<Val>) {
    forall j :: 0 <= j < |vals| ==> Normal(text, vals[j]).Some?
  }

  ghost function Normals(text: TextCodec, vals: seq<Val>): seq<Val>
    requires AllReadable(text, vals)
  {
    seq(|vals|, j requires 0 <= j < |vals| => Normal(text, vals[j]).value)
  }

  /** Decoding into a zero struct what was encoded succeeds exactly when every printed instant
      parses, and then gives the normal form of every field; otherwise the error names an
      instant that does not parse. */
  lemma {:induction false} RoundTrip(text: TextCodec, schema: Schema, vals: seq<Val>)
    requires text.UuidsRoundTrip() && DistinctNames(schema) && Fits(vals, schema)
    ensures var res := Decoded(text, schema, EncodedFields(text, schema, vals, |schema|), ZeroStruct(schema));
            if AllReadable(text, vals) then res == Ok(Normals(text, vals))
            else exists j :: 0 <= j < |vals| && Normal(text, vals[j]).None? && res == Err(BadField(schema[j].name))
  {
    hide EncodeVal, DecodeVal, Normal, IsWritten, Decoded;
    var ms := EncodedFields(text, schema, vals, |schema|);
    forall j | 0 <= j < |schema|
      ensures Last(ms, schema[j].name) == if IsWritten(vals[j]) then Some(EncodeVal(text, vals[j])) else None
      ensures (if IsWritten(vals[j]) then DecodeVal(text, schema[j].kind, EncodeVal(text, vals[j]))
               else Some(Zero(schema[j].kind))) == Normal(text, vals[j])
    {
      LastEncoded(text, schema, vals, |schema|, j);
      FieldRoundTrip(text, schema[j].kind, vals[j]);
    }
    if AllReadable(text, vals) {
      EncodedIsAccepted(text, schema, vals);
      DecodedIsStruct(text, schema, ms, ZeroStruct(schema));
      assert StructOf(text, schema, ms, ZeroStruct(schema)) == Normals(text, vals);
    } else {
      var j :| 0 <= j < |vals| && Normal(text, vals[j]).None?;
      UnreadableIsBad(text, schema, vals, j);
    }
  }

  lemma {:induction false} DecodedIsStruct(text: TextCodec, schema: Schema, ms: seq<Member>, before: seq<Val>)
    requires |before| == |schema| && Decoded(text, schema, ms, before).Ok?
    ensures Decoded(text, schema, ms, before) == Ok(StructOf(text, schema, ms, before))
  {
  }

  lemma {:induction false} UnreadableIsBad(text: TextCodec, schema: Schema, vals: seq<Val>, j: nat)
    requires text.UuidsRoundTrip() && DistinctNames(schema) && Fits(vals, schema)
    requires j < |schema| && Normal(text, vals[j]).None?
    ensures var res := Decoded(text, schema, EncodedFields(text, schema, vals, |schema|), ZeroStruct(schema));
            exists i :: 0 <= i < |vals| && Normal(text, vals[i]).None? && res == Err(BadField(schema[i].name))
  {
    hide EncodeVal, DecodeVal, Normal, IsWritten;
    var ms := EncodedFields(text, schema, vals, |schema|);
    FieldRoundTrip(text, schema[j].kind, vals[j]);
    LastEncoded(text, schema, vals, |schema|, j);
    LastIsMember(ms, schema[j].name);
    IndexOfName(schema, j);
    FirstBadExactly(text, schema, ms);
    assert !MemberOk(text, schema, Member(schema[j].name, EncodeVal(text, vals[j])));
    FirstBadIsFirst(text, schema, ms);
    EncodedKeysKnown(text, schema, vals, |schema|);
    var k :| 0 <= k < |ms| && !MemberOk(text, schema, ms[k]) && FirstBad(text, schema, ms) == Some(ms[k].key);
    var m := ms[k];
    assert m in ms;
    var i :| 0 <= i < |schema| && IsWritten(vals[i]) && m == Member(schema[i].name, EncodeVal(text, vals[i]));
    IndexOfName(schema, i);
    FieldRoundTrip(text, schema[i].kind, vals[i]);
  }

  lemma {:induction false} EncodedIsAccepted(text: TextCodec, schema: Schema, vals: seq<Val>)
    requires text.UuidsRoundTrip() && DistinctNames(schema) && Fits(vals, schema) && AllReadable(text, vals)
    ensures Decoded(text, schema, EncodedFields(text, schema, vals, |schema|), ZeroStruct(schema)).Ok?
  {
    hide EncodeVal, DecodeVal, Normal;
    var ms := EncodedFields(text, schema, vals, |schema|);
    EncodedKeysKnown(text, schema, vals, |schema|);
    forall m | m in ms
      ensures MemberOk(text, schema, m)
    {
      var j :| 0 <= j < |schema| && IsWritten(vals[j]) && m == Member(schema[j].name, EncodeVal(text, vals[j]));
      IndexOfName(schema, j);
      FieldRoundTrip(text, schema[j].kind, vals[j]);
    }
    forall j | 0 <= j < |schema| && schema[j].Required()
      ensures Last(ms, schema[j].name).Some?
    {
      LastEncoded(text, schema, vals, |schema|, j);
    }
    AcceptsExactly(text, schema, ms, ZeroStruct(schema));
  }

  /** Nothing is lost exactly when every field is its own normal form. */
  lemma {:induction false} RoundTripExactly(text: TextCodec, schema: Schema, vals: seq<Val>)
    requires text.UuidsRoundTrip() && DistinctNames(schema) && Fits(vals, schema)
    ensures Decoded(text, schema, EncodedFields(text, schema, vals, |schema|), ZeroStruct(schema)) == Ok(vals)
       <==> forall j :: 0 <= j < |vals| ==> Normal(text, vals[j]) == Some(vals[j])
  {
    hide Normal, Decoded, EncodedFields;
    RoundTrip(text, schema, vals);
    if AllReadable(text, vals) && Normals(text, vals) == vals {
      forall j | 0 <= j < |vals|
        ensures Normal(text, vals[j]) == Some(vals[j])
      {
        assert Normals(text, vals)[j] == vals[j];
      }
    }
  }
}
