/** JSON values at the level the generated code sees them. An object is its list of members,
    in order and with duplicate names allowed (section 4 of RFC 8259). */
module Json {
  import opened Domain

  datatype Json =
    | Null
    | Bool(b: bool)
    | Int(n: int)
    | Fraction(digits: string)
    | Str(s: string)
    | Arr(items: seq<Json>)
    | Obj(members: seq<Member>)

  datatype Member = Member(key: string, val: Json)

  /** The value of the last member with this key. */
  function Last(ms: seq<Member>, key: string): Option<Json> {
    if ms == [] then None
    else if ms[|ms| - 1].key == key then Some(ms[|ms| - 1].val)
    else Last(ms[..|ms| - 1], key)
  }

  lemma {:induction false} LastSnoc(ms: seq<Member>, m: Member, key: string)
    ensures Last(ms + [m], key) == if m.key == key then Some(m.val) else Last(ms, key)
  {
    assert (ms + [m])[..|ms|] == ms;
  }

  lemma {:induction false} LastConcat(xs: seq<Member>, ys: seq<Member>, key: string)
    ensures Last(xs + ys, key) == if Last(ys, key).Some? then Last(ys, key) else Last(xs, key)
    decreases |ys|
  {
    if ys == [] {
      assert xs + ys == xs;
    } else {
      var n := |ys| - 1;
      assert (xs + ys)[..|xs| + n] == xs + ys[..n];
      LastConcat(xs, ys[..n], key);
    }
  }

  lemma {:induction false} LastIsMember(ms: seq<Member>, key: string)
    ensures Last(ms, key).Some? ==> Member(key, Last(ms, key).value) in ms
    ensures Last(ms, key).None? ==> forall m :: m in ms ==> m.key != key
    decreases |ms|
  {
    if ms != [] {
      LastIsMember(ms[..|ms| - 1], key);
      assert ms == ms[..|ms| - 1] + [ms[|ms| - 1]];
    }
  }
}
