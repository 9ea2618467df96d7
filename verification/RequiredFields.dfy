/** The required-field check at the end of every generated `Decode`: one bit per field, a
    mask of the required ones, and a loop that reports the missing fields by name. */
module RequiredFields {
  // ---- Single bits of a byte ----

  /** `1 << k`. */
  function Mask(k: nat): bv8
    requires k < 8
  {
    if k == 0 then 0x01 else if k == 1 then 0x02 else if k == 2 then 0x04 else if k == 3 then 0x08
    else if k == 4 then 0x10 else if k == 5 then 0x20 else if k == 6 then 0x40 else 0x80
  }

  predicate Bit(b: bv8, k: nat)
    requires k < 8
  {
    b & Mask(k) != 0
  }

  /** The required bits that were not seen. */
  function Unseen(seen: bv8, mask: bv8): bv8 {
    (seen & mask) ^ mask
  }

  /** `b &^ (1 << k)`. */
  function Clear(b: bv8, k: nat): bv8
    requires k < 8
  {
    b & !Mask(k)
  }

  lemma {:induction false} BitOfUnseen(seen: bv8, mask: bv8, k: nat)
    requires k < 8
    ensures Bit(Unseen(seen, mask), k) <==> Bit(mask, k) && !Bit(seen, k)
  {
  }

  lemma {:induction false} BitOfSet(b: bv8, k: nat, j: nat)
    requires k < 8 && j < 8
    ensures Bit(b | Mask(k), j) <==> Bit(b, j) || j == k
  {
  }

  lemma {:induction false} BitOfClear(b: bv8, k: nat, j: nat)
    requires k < 8 && j < 8
    ensures Bit(Clear(b, k), j) <==> Bit(b, j) && j != k
  {
  }

  lemma {:induction false} NoBits(b: bv8)
    ensures b == 0 <==> forall k: nat :: k < 8 ==> !Bit(b, k)
  {
    if b != 0 {
      assert Bit(b, 0) || Bit(b, 1) || Bit(b, 2) || Bit(b, 3)
          || Bit(b, 4) || Bit(b, 5) || Bit(b, 6) || Bit(b, 7);
    }
  }

  /** The set bits at `k` and above, in ascending order. */
  function BitsFrom(b: bv8, k: nat): seq<nat>
    requires k <= 8
    decreases 8 - k
  {
    if k == 8 then [] else (if Bit(b, k) then [k] else []) + BitsFrom(b, k + 1)
  }

  /** `bits.OnesCount8` and `bits.TrailingZeros8`. */
  function OnesCount(b: bv8, k: nat := 0): nat
    requires k <= 8
    decreases 8 - k
  {
    if k == 8 then 0 else (if Bit(b, k) then 1 else 0) + OnesCount(b, k + 1)
  }

  function TrailingZeros(b: bv8, k: nat := 0): (n: nat)
    requires k <= 8
    ensures k <= n <= 8
    ensures forall j :: k <= j < n ==> !Bit(b, j)
    ensures n < 8 ==> Bit(b, n)
    decreases 8 - k
  {
    if k == 8 then 8 else if Bit(b, k) then k else TrailingZeros(b, k + 1)
  }

  lemma {:induction false} CountIsLength(b: bv8, k: nat)
    requires k <= 8
    ensures OnesCount(b, k) == |BitsFrom(b, k)|
    decreases 8 - k
  {
    if k < 8 {
      CountIsLength(b, k + 1);
    }
  }

  lemma {:induction false} SameBits(b: bv8, c: bv8, k: nat)
    requires k <= 8 && forall j :: k <= j < 8 ==> (Bit(b, j) <==> Bit(c, j))
    ensures BitsFrom(b, k) == BitsFrom(c, k)
    decreases 8 - k
  {
    hide Bit, Clear, Unseen;
    if k < 8 {
      SameBits(b, c, k + 1);
    }
  }

  /** Clearing the lowest set bit removes the first entry. */
  lemma {:induction false} ClearLowest(b: bv8, k: nat)
    requires k <= 8 && TrailingZeros(b, k) < 8
    ensures BitsFrom(b, k) == [TrailingZeros(b, k)] + BitsFrom(Clear(b, TrailingZeros(b, k)), k)
    decreases 8 - k
  {
    hide Bit, Clear, Unseen;
    var z := TrailingZeros(b, k);
    var c := Clear(b, z);
    forall j: nat | j < 8
      ensures Bit(c, j) <==> Bit(b, j) && j != z
    {
      BitOfClear(b, z, j);
    }
    if z == k {
      SameBits(b, c, k + 1);
    } else {
      ClearLowest(b, k + 1);
    }
  }

  // ---- The bitset ----

  predicate InSet(set8: seq<bv8>, j: nat) {
    j / 8 < |set8| && Bit(set8[j / 8], j % 8)
  }

  /** `requiredBitSet[j/8] |= 1 << (j%8)`. */
  function Mark(seen: seq<bv8>, j: nat): (r: seq<bv8>)
    requires j / 8 < |seen|
    ensures |r| == |seen|
    ensures forall i: nat :: InSet(r, i) <==> InSet(seen, i) || i == j
  {
    var r := seen[j / 8 := seen[j / 8] | Mask(j % 8)];
    assert forall i: nat :: InSet(r, i) <==> InSet(seen, i) || i == j by {
      forall i: nat
        ensures InSet(r, i) <==> InSet(seen, i) || i == j
      {
        if i / 8 == j / 8 {
          BitOfSet(seen[j / 8], j % 8, i % 8);
        }
      }
    }
    r
  }

  /** The required and unseen fields below `n`, in ascending order. */
  function MissingBelow(seen: seq<bv8>, masks: seq<bv8>, n: nat): seq<nat> {
    if n == 0 then []
    else MissingBelow(seen, masks, n - 1)
         + (if InSet(masks, n - 1) && !InSet(seen, n - 1) then [n - 1] else [])
  }

  /** Each required and unseen field is there exactly once, in ascending order, and nothing else. */
  lemma {:induction false} MissingExactly(seen: seq<bv8>, masks: seq<bv8>, n: nat)
    ensures var ks := MissingBelow(seen, masks, n);
      && (forall j: nat :: j in ks <==> j < n && InSet(masks, j) && !InSet(seen, j))
      && (forall a, c :: 0 <= a < c < |ks| ==> ks[a] < ks[c])
    decreases n
  {
    hide Bit, Mask, InSet;
    if n > 0 {
      MissingExactly(seen, masks, n - 1);
      var ks := MissingBelow(seen, masks, n - 1);
      assert forall a :: 0 <= a < |ks| ==> ks[a] in ks;
    }
  }

  function Shift(ks: seq<nat>, base: nat): seq<nat> {
    seq(|ks|, i requires 0 <= i < |ks| => base + ks[i])
  }

  lemma {:induction false} InSetAt(set8: seq<bv8>, i: nat, k: nat)
    requires k < 8
    ensures InSet(set8, 8 * i + k) <==> i < |set8| && Bit(set8[i], k)
  {
    hide Bit;
    assert (8 * i + k) / 8 == i && (8 * i + k) % 8 == k;
  }

  lemma {:induction false} ShiftSplits(xs: seq<nat>, ys: seq<nat>, base: nat)
    ensures Shift(xs + ys, base) == Shift(xs, base) + Shift(ys, base)
  {
  }

  lemma {:induction false} MissingOfByte(seen: seq<bv8>, masks: seq<bv8>, i: nat, k: nat)
    requires i < |seen| && i < |masks| && k <= 8
    ensures var result := Unseen(seen[i], masks[i]);
            MissingBelow(seen, masks, 8 * i + 8) ==
            MissingBelow(seen, masks, 8 * i + k) + Shift(BitsFrom(result, k), 8 * i)
    decreases 8 - k
  {
    hide Bit, Clear, Unseen, InSet, Shift;
    var result := Unseen(seen[i], masks[i]);
    if k < 8 {
      MissingOfByte(seen, masks, i, k + 1);
      BitOfUnseen(seen[i], masks[i], k);
      InSetAt(seen, i, k);
      InSetAt(masks, i, k);
      var here: seq<nat> := if Bit(result, k) then [k] else [];
      ShiftSplits(here, BitsFrom(result, k + 1), 8 * i);
      ShiftOne(here, 8 * i);
    } else {
      ShiftOne([], 8 * i);
    }
  }

  lemma {:induction false} ShiftOne(ks: seq<nat>, base: nat)
    requires |ks| <= 1
    ensures Shift(ks, base) == if ks == [] then [] else [base + ks[0]]
  {
  }

  // ---- The loop ----

  /** `strconv.Itoa` of a non-negative number. */
  function Itoa(n: nat): string {
    var digit := ["0123456789"[n % 10]];
    if n < 10 then digit else Itoa(n / 10) + digit
  }

  function Digit(c: char): int {
    c as int - '0' as int
  }

  function Denoted(s: string): int {
    if s == "" then 0 else 10 * Denoted(s[..|s| - 1]) + Digit(s[|s| - 1])
  }

  /** The decimal text of a number: digits only, no leading zero, and it denotes the number. */
  lemma {:induction false} ItoaExactly(n: nat)
    ensures Denoted(Itoa(n)) == n && Itoa(n) != ""
    ensures forall i :: 0 <= i < |Itoa(n)| ==> '0' <= Itoa(n)[i] <= '9'
    ensures n > 0 ==> Itoa(n)[0] != '0'
    decreases n
  {
    var digit := ["0123456789"[n % 10]];
    assert Digit(digit[0]) == n % 10 && '0' <= digit[0] <= '9';
    if n < 10 {
      assert digit[..0] == "";
    } else {
      ItoaExactly(n / 10);
      assert Itoa(n)[..|Itoa(n)| - 1] == Itoa(n / 10);
    }
  }

  function NameAt(names: seq<string>, j: nat): string {
    if j < |names| then names[j] else Itoa(j)
  }

  function NamesAt(names: seq<string>, ks: seq<nat>): seq<string> {
    seq(|ks|, i requires 0 <= i < |ks| => NameAt(names, ks[i]))
  }

  lemma {:induction false} OneMore(names: seq<string>, before: seq<nat>, done: seq<nat>, k: nat, base: nat)
    ensures NamesAt(names, before + Shift(done + [k], base)) ==
            NamesAt(names, before + Shift(done, base)) + [NameAt(names, base + k)]
  {
    hide NameAt;
    assert before + Shift(done + [k], base) == before + Shift(done, base) + [base + k];
  }

  lemma {:induction false} NothingMissing(seen: seq<bv8>, masks: seq<bv8>)
    ensures MissingBelow(seen, masks, 0) == []
  {
  }

  lemma {:induction false} NothingYet(names: seq<string>, before: seq<nat>, base: nat)
    ensures NamesAt(names, []) == [] && before + Shift([], base) == before
  {
  }

  method CheckRequired(seen: seq<bv8>, masks: seq<bv8>, names: seq<string>) returns (failures: seq<string>)
    requires |seen| == |masks|
    ensures failures == NamesAt(names, MissingBelow(seen, masks, 8 * |masks|))
  {
    hide Bit, Clear, Unseen, InSet, NameAt, OnesCount, BitsFrom, NamesAt, Shift, TrailingZeros, MissingBelow;
    failures := [];
    var i := 0;
    NothingMissing(seen, masks);
    NothingYet(names, [], 0);
    while i < |masks|
      invariant 0 <= i <= |masks|
      invariant failures == NamesAt(names, MissingBelow(seen, masks, 8 * i))
    {
      var result := Unseen(seen[i], masks[i]);
      MissingOfByte(seen, masks, i, 0);
      if result != 0 {
        ghost var before, all := MissingBelow(seen, masks, 8 * i), BitsFrom(result, 0);
        ghost var done: seq<nat> := [];
        NothingYet(names, before, 8 * i);
        var missed := OnesCount(result);
        CountIsLength(result, 0);
        var bitN := 0;
        while bitN < missed
          invariant 0 <= bitN <= missed == |all|
          invariant |done| == bitN && done + BitsFrom(result, 0) == all
          invariant failures == NamesAt(names, before + Shift(done, 8 * i))
          decreases missed - bitN
        {
          CountIsLength(result, 0);
          HasLowest(result);
          var bitIdx := TrailingZeros(result);
          var fieldIdx := i * 8 + bitIdx;
          failures := failures + [NameAt(names, fieldIdx)];
          ClearLowest(result, 0);
          OneMore(names, before, done, bitIdx, 8 * i);
          done := done + [bitIdx];
          result := Clear(result, bitIdx);
          bitN := bitN + 1;
        }
        assert done == all;
      } else {
        NoBits(result);
        NoBitsNoneFrom(result, 0);
        NothingYet(names, MissingBelow(seen, masks, 8 * i), 8 * i);
      }
      i := i + 1;
    }
  }

  lemma {:induction false} NoBitsNoneFrom(b: bv8, k: nat)
    requires k <= 8 && forall j: nat :: j < 8 ==> !Bit(b, j)
    ensures BitsFrom(b, k) == []
    decreases 8 - k
  {
    if k < 8 {
      NoBitsNoneFrom(b, k + 1);
    }
  }

  lemma {:induction false} HasLowest(b: bv8)
    ensures TrailingZeros(b) == 8 ==> BitsFrom(b, 0) == []
  {
    if TrailingZeros(b) == 8 {
      NoBitsNoneFrom(b, 0);
    }
  }
}
