/**
 The varint writer and reader on 64-bit words, with the program's masks, shifts and ors, are
 the arithmetic of `Wire`: the groups of bits combined never collide.
 */
module Bits {
  import opened Basics
  import opened Wire

  function Low(v: bv64): (x: bv64)
    ensures x < 0x80
  {
    v & 0x7f
  }

  function High(v: bv64): bv64 { v >> 7 }

  lemma HighBound(v: bv64)
    ensures v >= 0x80 ==> 0 < High(v) < v
    ensures v < 0x80 ==> High(v) == 0 && Low(v) == v
  {
  }

  /** The seven bits of `x` put in above the lowest `s` bits of `v`. */
  function Put(v: bv64, x: bv64, s: bv64): bv64
    requires s <= 63
  {
    v | (x << s)
  }

  /** Only the lowest `s` bits are set. */
  predicate Under(v: bv64, s: bv64)
    requires s <= 63
  {
    v >> s == 0
  }

  /** A group of seven bits as a number. */
  function Small(x: bv64): (n: nat)
    requires x < 0x80
    ensures n < 128 && (n == 0 <==> x == 0)
  {
    var b := x as bv8;
    assert b < 0x80;
    b as nat
  }

  /** The number a word stands for, seven bits at a time. */
  function Num(v: bv64): nat
    decreases v
  {
    if v < 0x80 then Small(v)
    else
      HighBound(v);
      Small(Low(v)) + 128 * Num(High(v))
  }

  lemma {:induction false} NumPositive(v: bv64)
    ensures Num(v) == 0 <==> v == 0
    decreases v
  {
    hide Low, High, Small, Num;
    if v < 0x80 {
      NumSmall(v);
    } else {
      var h := High(v);
      HighBound(v);
      NumPositive(h);
      NumLargePositive(v, h);
    }
  }

  lemma NumLargePositive(v: bv64, h: bv64)
    requires v >= 0x80 && h == High(v) && Num(h) != 0
    ensures Num(v) != 0 && v != 0
  {
    hide Low, High, Small, Num;
    NumLarge(v);
  }

  lemma NumSmall(v: bv64)
    requires v < 0x80
    ensures Num(v) == Small(v)
  {
    hide Small;
  }

  lemma NumLarge(v: bv64)
    requires v >= 0x80
    ensures Num(v) == Small(Low(v)) + 128 * Num(High(v))
  {
    hide Low, High, Small;
  }

  lemma NumParts(v: bv64)
    ensures Num(v) == Small(Low(v)) + 128 * Num(High(v))
    ensures Num(v) < 128 <==> v < 0x80
  {
    hide Low, High, Small;
    HighBound(v);
    if v < 0x80 {
      NumPositive(High(v));
    } else {
      NumPositive(High(v));
    }
  }

  lemma DivMod(n: nat, low: nat, high: nat)
    requires n == low + 128 * high && low < 128
    ensures n % 128 == low && n / 128 == high
  {
  }

  lemma NumDivMod(v: bv64)
    ensures Num(v) % 128 == Small(Low(v)) && Num(v) / 128 == Num(High(v))
  {
    NumParts(v);
    DivMod(Num(v), Small(Low(v)), Num(High(v)));
  }

  lemma NumHalves(v: bv64, w: bv64)
    requires Num(v) == Num(w)
    ensures Small(Low(v)) == Small(Low(w)) && Num(High(v)) == Num(High(w))
  {
    hide Low, High, Small, Num;
    NumDivMod(v);
    NumDivMod(w);
  }

  lemma SmallExact(v: bv64, w: bv64)
    requires v < 0x80 && w < 0x80
    ensures Small(v) == Small(w) <==> v == w
  {
  }

  lemma SameParts(v: bv64, w: bv64)
    ensures Low(v) == Low(w) && High(v) == High(w) ==> v == w
  {
  }

  /** Different words stand for different numbers. */
  lemma {:induction false} NumExact(v: bv64, w: bv64)
    requires Num(v) == Num(w)
    ensures v == w
    decreases v
  {
    NumHalves(v, w);
    SmallExact(Low(v), Low(w));
    SameParts(v, w);
    hide Low, High, Small, Num;
    HighBound(v);
    HighBound(w);
    if v < 0x80 {
      NumPositive(High(v));
      NumPositive(High(w));
    } else {
      NumExact(High(v), High(w));
    }
  }

  // ---- the writer ----

  function Octet(b: bv8): byte { b as int }

  function Octets(bs: seq<bv8>): (r: seq<byte>)
    ensures |r| == |bs| && forall i | 0 <= i < |bs| :: r[i] == Octet(bs[i])
  {
    seq(|bs|, i requires 0 <= i < |bs| => Octet(bs[i]))
  }

  lemma TopBit(x: bv8)
    requires x < 0x80
    ensures (x | 0x80) as int == x as int + 128
  {
  }

  lemma SameOctet(v: bv64)
    ensures ((v & 0xff) as bv8) | 0x80 == (Low(v) as bv8) | 0x80
    ensures (Low(v) as bv8) < 0x80
  {
  }

  /** The continuation byte: the low seven bits and a mark. */
  lemma ContinuationByte(v: bv64)
    ensures Octet(((v & 0xff) as bv8) | 0x80) == Small(Low(v)) + 128
  {
    SameOctet(v);
    TopBit(Low(v) as bv8);
    hide Low;
  }

  lemma LastByteWritten(v: bv64)
    requires v < 0x80
    ensures Octet((v & 0xff) as bv8) == Num(v)
  {
    assert v & 0xff == v;
  }

  lemma OctetsSnoc(bs: seq<bv8>, b: bv8)
    ensures Octets(bs + [b]) == Octets(bs) + [Octet(b)]
    ensures Octets([]) == []
  {
  }

  /** The writer's loop, with the program's operators, writes what `Wire.Uvarint` says. */
  method WriteUvarint(v0: bv64) returns (b: seq<bv8>)
    ensures Octets(b) == Uvarint(Num(v0))
  {
    hide Num, Octets, Octet, Small, Low, Uvarint;
    var v := v0;
    b := [];
    OctetsSnoc([], 0);
    assert [] + Uvarint(Num(v)) == Uvarint(Num(v));
    while v >= 0x80
      invariant Octets(b) + Uvarint(Num(v)) == Uvarint(Num(v0))
      decreases v
    {
      var next := ((v & 0xff) as bv8) | 0x80;
      var rest := v >> 7;
      assert rest == High(v);
      HighBound(v);
      hide High;
      UvarintMore(v, next);
      OctetsSnoc(b, next);
      assert Octets(b) + ([Octet(next)] + Uvarint(Num(rest))) == (Octets(b) + [Octet(next)]) + Uvarint(Num(rest));
      b := b + [next];
      v := rest;
    }
    UvarintLast(v);
    OctetsSnoc(b, (v & 0xff) as bv8);
    b := b + [(v & 0xff) as bv8];
  }

  lemma UvarintMore(v: bv64, next: bv8)
    requires v >= 0x80 && next == ((v & 0xff) as bv8) | 0x80
    ensures Uvarint(Num(v)) == [Octet(next)] + Uvarint(Num(High(v)))
  {
    ContinuationByte(v);
    hide Num, Octet, Small, Low, High;
    NumParts(v);
    NumDivMod(v);
  }

  lemma UvarintLast(v: bv64)
    requires v < 0x80
    ensures Uvarint(Num(v)) == [Octet((v & 0xff) as bv8)]
  {
    LastByteWritten(v);
    hide Num, Octet, Small, Low, High;
    NumParts(v);
  }

  // ---- the reader ----

  function ShiftOf(k: nat): (s: bv64)
    requires k <= 9
    ensures s <= 63 && (s == 63 <==> k == 9) && (k < 9 ==> s <= 56) && (k > 0 ==> 7 <= s)
  {
    match k
    case 0 => 0
    case 1 => 7
    case 2 => 14
    case 3 => 21
    case 4 => 28
    case 5 => 35
    case 6 => 42
    case 7 => 49
    case 8 => 56
    case _ => 63
  }

  lemma ShiftSteps(k: nat)
    requires k < 9
    ensures ShiftOf(k + 1) == ShiftOf(k) + 7 && ShiftOf(0) == 0
  {
  }

  lemma PutAtZero(v: bv64, x: bv64)
    requires Under(v, 0)
    ensures v == 0 && Put(v, x, 0) == x
  {
  }

  lemma PutLow(v: bv64, x: bv64, s: bv64)
    requires 7 <= s <= 63
    ensures Low(Put(v, x, s)) == Low(v)
  {
  }

  lemma PutHigh(v: bv64, x: bv64, s: bv64)
    requires 7 <= s <= 56 && x < 0x80
    ensures High(Put(v, x, s)) == Put(High(v), x, s - 7)
  {
  }

  lemma PutTop(v: bv64, x: bv64)
    requires x < 2
    ensures High(Put(v, x, 63)) == Put(High(v), x, 56)
  {
  }

  lemma UnderHigh(v: bv64, s: bv64)
    requires 7 <= s <= 63 && Under(v, s)
    ensures Under(High(v), s - 7)
  {
  }

  lemma PutParts(v: bv64, x: bv64, k: nat)
    requires 1 <= k <= 9 && x < 0x80 && (k == 9 ==> x < 2) && Under(v, ShiftOf(k))
    ensures var y := Put(v, x, ShiftOf(k));
            Low(y) == Low(v) && High(y) == Put(High(v), x, ShiftOf(k - 1)) && Under(High(v), ShiftOf(k - 1))
  {
    hide Low, High, Put, Under;
    PutLow(v, x, ShiftOf(k));
    ShiftSteps(k - 1);
    if k == 9 {
      PutTop(v, x);
    } else {
      PutHigh(v, x, ShiftOf(k));
    }
    UnderHigh(v, ShiftOf(k));
  }

  lemma Scale(x: nat, p: nat, q: nat)
    requires q == 128 * p
    ensures 128 * (x * p) == x * q
  {
  }

  lemma SumOfParts(v: bv64, y: bv64, n: nat)
    requires Low(y) == Low(v) && Num(High(y)) == Num(High(v)) + n
    ensures Num(y) == Num(v) + 128 * n
  {
    hide Low, High, Small, Num;
    NumParts(v);
    NumParts(y);
  }

  lemma PowZero(n: nat)
    ensures n * Pow2(0) == n
  {
  }

  /** Putting the next seven bits in is addition: they never collide with those below them. */
  lemma {:induction false} PutAdds(v: bv64, x: bv64, k: nat)
    requires k <= 9 && x < 0x80 && (k == 9 ==> x < 2) && Under(v, ShiftOf(k))
    ensures Num(Put(v, x, ShiftOf(k))) == Num(v) + Num(x) * Pow2(7 * k)
    decreases k
  {
    hide Low, High, Small, Num, Put, Under, ShiftOf, Pow2;
    if k == 0 {
      ShiftSteps(0);
      PutAtZero(v, x);
      NumPositive(0);
      PowZero(Num(x));
    } else {
      var s := ShiftOf(k);
      ShiftSteps(k - 1);
      PutParts(v, x, k);
      PutAdds(High(v), x, k - 1);
      var n, p := Num(x), Pow2(7 * (k - 1));
      SumOfParts(v, Put(v, x, s), n * p);
      Pow2Plus7(7 * (k - 1));
      Scale(n, p, Pow2(7 * k));
    }
  }

  lemma PutUnder(v: bv64, x: bv64, s: bv64)
    requires s <= 56 && x < 0x80 && Under(v, s)
    ensures Under(Put(v, x, s), s + 7)
  {
  }

  /** At the last shift only the lowest bit stays. */
  lemma PutLast(v: bv64, x: bv64)
    requires x < 0x80
    ensures Put(v, x, 63) == Put(v, x & 1, 63) && x & 1 < 2
  {
  }

  lemma LowestBit(x: bv8)
    requires x < 0x80
    ensures (x & 1) as int == (x as int) % 2
  {
  }

  lemma NumLowest(x: bv64)
    requires x < 0x80
    ensures Num(x & 1) == Num(x) % 2
  {
    LowestBit(x as bv8);
    assert (x & 1) as bv8 == (x as bv8) & 1;
  }

  lemma LowBitsOfOctet(c: bv8)
    ensures (c & 0x7f) as int == (c as int) % 128
    ensures c < 0x80 <==> (c as int) < 128
  {
    OctetParts(c);
    var low := c & 0x7f;
    TopBit(low);
    LowIs(c as int, low as int, c < 0x80);
  }

  lemma LowIs(n: int, low: int, last: bool)
    requires 0 <= low < 128 && n == if last then low else low + 128
    ensures low == n % 128 && (last <==> n < 128)
  {
  }

  lemma OctetParts(c: bv8)
    ensures c < 0x80 ==> c & 0x7f == c
    ensures c >= 0x80 ==> c == (c & 0x7f) | 0x80
    ensures c & 0x7f < 0x80
  {
  }

  /** The group of an octet, as a word. */
  function Group(c: bv8): bv64 { (c & 0x7f) as bv64 }

  /** The seven bits of an octet. */
  lemma GroupOf(c: bv8)
    ensures Group(c) < 0x80 && Num(Group(c)) == Octet(c) % 128
    ensures c < 0x80 <==> Octet(c) < 128
  {
    LowBitsOfOctet(c);
    assert ((c & 0x7f) as bv64) as bv8 == c & 0x7f;
  }

  lemma TopProduct(x: nat)
    ensures x * Pow2(63) % TWO64 == (x % 2) * Pow2(63)
  {
    Pow2Of63();
    var q, r := x / 2, x % 2;
    assert x * Pow2(63) == q * TWO64 + r * Pow2(63);
  }

  lemma LowProduct(x: nat, k: nat)
    requires x < 128 && k <= 8
    ensures x * Pow2(7 * k) % TWO64 == x * Pow2(7 * k)
  {
    Pow2Of63();
    Pow2Grows(7 * k, 56);
    Pow2Plus7(56);
    ProductBelow(x, Pow2(7 * k), Pow2(56));
  }

  lemma ProductBelow(x: nat, p: nat, q: nat)
    requires x < 128 && p <= q && 128 * q < TWO64
    ensures 0 <= x * p < TWO64
  {
    assert x * p <= x * q <= 128 * q;
  }

  /** One group read with the program's operators, as `Wire.Varint` adds it. */
  lemma GroupRead(v: bv64, x: bv64, k: nat)
    requires k <= 9 && x < 0x80 && Under(v, ShiftOf(k))
    ensures Num(Put(v, x, ShiftOf(k))) == Num(v) + Num(x) * Pow2(7 * k) % TWO64
  {
    hide Low, High, Small, Num, Put, Under, ShiftOf, Pow2;
    if k < 9 {
      PutAdds(v, x, k);
      NumParts(x);
      LowProduct(Num(x), k);
    } else {
      PutLast(v, x);
      NumLowest(x);
      PutAdds(v, x & 1, 9);
      TopProduct(Num(x));
    }
  }

  /** One turn of the reader's loop. */
  lemma ReadGroup(b: seq<bv8>, i: nat, k: nat, v: bv64)
    requires i < |b| && k <= 9 && Under(v, ShiftOf(k))
    ensures var c, w := b[i], Put(v, Group(b[i]), ShiftOf(k));
            && Varint(Octets(b), i, 7 * k, Num(v)) ==
               (if c < 0x80 then Scan(i + 1, Some(Num(w)))
                else if k == 9 then Scan(i + 1, None)
                else Varint(Octets(b), i + 1, 7 * k + 7, Num(w)))
            && (k < 9 ==> Under(w, ShiftOf(k + 1)))
  {
    hide Num, Pow2, Octet, Under, Put, ShiftOf, Group, Varint;
    var c, x := b[i], Group(b[i]);
    GroupOf(c);
    GroupRead(v, x, k);
    VarintUnfolds(Octets(b), i, 7 * k, Num(v), Octet(c), Num(Put(v, x, ShiftOf(k))));
    if k < 9 {
      ShiftSteps(k);
      PutUnder(v, x, ShiftOf(k));
    }
  }

  /** The reader's loop, with the program's operators, reads what `Wire.Varint` reads; and what
      the writer wrote, it gives back as the same word. */
  method ReadVarint(b: seq<bv8>, at: nat) returns (v: bv64, ok: bool, i: nat)
    requires at <= |b|
    ensures var s := Varint(Octets(b), at, 0, 0);
            i == s.i && ok == s.val.Some? && (ok ==> Num(v) == s.val.value)
    ensures forall x | Written(b, at, x) :: ok && v == x && i == at + |Uvarint(Num(x))|
  {
    hide Num, Octets, Varint, Uvarint, Under, ShiftOf, Written, Put, Group;
    i, v := at, 0;
    var shift: bv64 := 0;
    ghost var k := 0;
    UnderNothing();
    ghost var s := Varint(Octets(b), at, 0, 0);
    while i < |b|
      invariant at <= i <= |b| && k <= 9 && shift == ShiftOf(k) && Under(v, shift)
      invariant s == Varint(Octets(b), i, 7 * k, Num(v))
      decreases |b| - i
    {
      var c := b[i];
      ReadGroup(b, i, k, v);
      i := i + 1;
      v := Put(v, Group(c), shift);
      if c < 0x80 {
        ComesBack(b, at, v);
        return v, true, i;
      }
      if shift >= 63 {
        NothingWritten(b, at);
        return 0, false, i;
      }
      ShiftSteps(k);
      shift := shift + 7;
      k := k + 1;
    }
    VarintEnds(Octets(b), 7 * k, Num(v));
    NothingWritten(b, at);
    return 0, false, i;
  }

  lemma UnderNothing()
    ensures ShiftOf(0) == 0 && Under(0, 0) && Num(0) == 0
  {
    NumPositive(0);
  }

  lemma VarintUnfolds(b: seq<byte>, i: nat, shift: nat, v: nat, c: byte, w: nat)
    requires i < |b| && b[i] == c && w == v + (c % 128) * Pow2(shift) % TWO64
    ensures Varint(b, i, shift, v) ==
            if c < 128 then Scan(i + 1, Some(w))
            else if shift >= 63 then Scan(i + 1, None)
            else Varint(b, i + 1, shift + 7, w)
  {
    hide Pow2;
  }

  lemma VarintEnds(b: seq<byte>, shift: nat, v: nat)
    ensures Varint(b, |b|, shift, v) == Scan(|b|, None)
  {
  }

  // ---- the range of a word, and the round trip on words ----

  lemma UnderSmall(v: bv64)
    requires Under(v, 1)
    ensures v < 0x80 && Small(v) < 2
  {
    assert v == 0 || v == 1;
  }

  lemma UnderGroup(v: bv64, j: nat)
    requires 1 <= j <= 8 && Under(v, ShiftOf(j) + 1)
    ensures Under(High(v), ShiftOf(j - 1) + 1)
  {
    UnderHigh(v, ShiftOf(j) + 1);
  }

  lemma {:induction false} NumUnder(v: bv64, j: nat)
    requires j <= 8 && Under(v, ShiftOf(j) + 1)
    ensures Num(v) < 2 * Pow2(7 * j)
    decreases j
  {
    hide Low, High, Small, Num, Under, ShiftOf, Pow2;
    if j == 0 {
      ShiftSteps(0);
      UnderSmall(v);
      NumSmall(v);
      PowZero(2);
    } else {
      UnderGroup(v, j);
      NumUnder(High(v), j - 1);
      NumParts(v);
      Pow2Plus7(7 * (j - 1));
    }
  }

  lemma HighUnder(v: bv64)
    ensures Under(High(v), ShiftOf(8) + 1)
  {
  }

  /** A word stands for a number of 64 bits. */
  lemma NumFits(v: bv64)
    ensures Num(v) < TWO64
  {
    hide Low, High, Small, Num, Under, Pow2;
    HighUnder(v);
    NumUnder(High(v), 8);
    NumParts(v);
    Pow2Plus7(56);
    Pow2Of63();
  }

  /** The base-128 form of the word stands at `at`. */
  ghost predicate Written(b: seq<bv8>, at: nat, x: bv64)
  {
    var u := Uvarint(Num(x));
    at + |u| <= |b| && Octets(b)[at..at + |u|] == u
  }

  /** Wherever the writer's bytes end up, they are the word's base-128 form. */
  lemma WrittenInside(before: seq<bv8>, b: seq<bv8>, after: seq<bv8>, x: bv64)
    requires Octets(b) == Uvarint(Num(x))
    ensures Written(before + b + after, |before|, x)
  {
    hide Num, Uvarint;
    var all := before + b + after;
    forall k | 0 <= k < |b|
      ensures Octets(all)[|before|..|before| + |b|][k] == Octets(b)[k]
    {
      assert all[|before| + k] == b[k];
    }
  }

  /** What the writer wrote of a word is read as the word's number, up to right after it. */
  lemma WordRoundTrip(b: seq<bv8>, at: nat, x: bv64)
    requires Written(b, at, x)
    ensures Varint(Octets(b), at, 0, 0) == Scan(at + |Uvarint(Num(x))|, Some(Num(x)))
  {
    hide Num, Uvarint, Varint, Octets;
    NumFits(x);
    VarintReadsBack(Octets(b), at, Num(x));
  }

  lemma ComesBack(b: seq<bv8>, at: nat, v: bv64)
    requires at <= |b| && var val := Varint(Octets(b), at, 0, 0).val; val == Some(Num(v))
    ensures forall x | Written(b, at, x) ::
              v == x && Varint(Octets(b), at, 0, 0).i == at + |Uvarint(Num(x))|
  {
    hide Num, Uvarint, Varint, Octets, Written;
    forall x | Written(b, at, x)
      ensures v == x && Varint(Octets(b), at, 0, 0).i == at + |Uvarint(Num(x))|
    {
      WordRoundTrip(b, at, x);
      NumExact(v, x);
    }
  }

  lemma NothingWritten(b: seq<bv8>, at: nat)
    requires at <= |b| && Varint(Octets(b), at, 0, 0).val.None?
    ensures forall x :: !Written(b, at, x)
  {
    hide Num, Uvarint, Varint, Octets, Written;
    forall x
      ensures !Written(b, at, x)
    {
      if Written(b, at, x) {
        WordRoundTrip(b, at, x);
      }
    }
  }

  // ---- tags ----

  /** A field tag: number and wire type side by side. */
  function Tag(num: bv64, wire: bv64): bv64 { (num << 3) | wire }

  /** The bits of a group that stay below the next seven once shifted by three, with `w` put in
      below them. */
  function Stay(l: bv64, w: bv64): (r: bv64)
    requires l < 0x80 && w < 8
    ensures r < 0x80
  {
    ((l & 0xf) << 3) | w
  }

  /** Those that move on. */
  function MoveOn(l: bv64): (r: bv64)
    requires l < 0x80
    ensures r < 8
  {
    l >> 4
  }

  /** Room for a wire type beside it. */
  predicate Narrow(v: bv64) { v < 1 << 61 }

  lemma TagLow(v: bv64, w: bv64)
    requires w < 8
    ensures Low(Tag(v, w)) == Stay(Low(v), w)
  {
  }

  lemma TagHigh(v: bv64, w: bv64)
    requires w < 8 && Narrow(v)
    ensures High(Tag(v, w)) == Tag(High(v), MoveOn(Low(v))) && Narrow(High(v))
  {
  }

  lemma TagOfZero(w: bv64)
    ensures Tag(0, w) == w
  {
  }

  lemma GroupShift(l: bv8, w: bv8)
    requires l < 0x80 && w < 8
    ensures (((l & 0xf) << 3) | w) as int == 8 * (l as int % 16) + w as int
    ensures (l >> 4) as int == l as int / 16
  {
  }

  lemma SmallShifted(l: bv64, w: bv64)
    requires l < 0x80 && w < 8
    ensures Small(Stay(l, w)) + 128 * Small(MoveOn(l)) == 8 * Small(l) + Small(w)
  {
    GroupShift(l as bv8, w as bv8);
    StayNarrow(l, w);
    MoveOnNarrow(l);
  }

  lemma StayNarrow(l: bv64, w: bv64)
    requires l < 0x80 && w < 8
    ensures Stay(l, w) as bv8 == (((l as bv8) & 0xf) << 3) | (w as bv8)
  {
  }

  lemma MoveOnNarrow(l: bv64)
    requires l < 0x80
    ensures MoveOn(l) as bv8 == (l as bv8) >> 4
  {
  }

  /** One group of a tag, when the groups above it are known. */
  lemma TagGroup(v: bv64, w: bv64)
    requires w < 8 && Narrow(v)
    requires Num(Tag(High(v), MoveOn(Low(v)))) == Num(High(v)) * 8 + Num(MoveOn(Low(v)))
    ensures Num(Tag(v, w)) == Num(v) * 8 + Num(w)
  {
    hide Low, High, Small, Num, Tag, Stay, MoveOn, Narrow;
    TagLow(v, w);
    TagHigh(v, w);
    SmallShifted(Low(v), w);
    NumSmall(w);
    NumSmall(MoveOn(Low(v)));
    NumParts(Tag(v, w));
    NumParts(v);
  }

  lemma ZeroGroup(w: bv64)
    ensures Num(Tag(0, w)) == Num(0) * 8 + Num(w)
  {
    hide Num, Tag;
    TagOfZero(w);
    NumPositive(0);
  }

  /** Side by side is eight times the number and the type: the tag the program writes is the
      one `Wire.Encode` does. */
  lemma {:induction false} TagIsSum(v: bv64, w: bv64)
    requires w < 8 && Narrow(v)
    ensures Num(Tag(v, w)) == Num(v) * 8 + Num(w)
    decreases Num(v)
  {
    hide Low, High, Small, Num, Tag, Stay, MoveOn, Narrow;
    NumPositive(v);
    if Num(v) == 0 {
      ZeroGroup(w);
    } else {
      TagHigh(v, w);
      NumParts(v);
      TagIsSum(High(v), MoveOn(Low(v)));
      TagGroup(v, w);
    }
  }

  lemma TagSplits(t: bv64)
    ensures Tag(t >> 3, t & 7) == t && Narrow(t >> 3) && t & 7 < 8
  {
  }

  lemma SmallOctal(w: bv64)
    requires w < 8
    ensures Small(w) < 8
  {
    assert (w as bv8) < 8;
  }

  /** What the reader takes a tag apart into is what `Wire.Next` does. */
  lemma TagTakenApart(t: bv64)
    ensures Num(t >> 3) == Num(t) / 8 && Num(t & 7) == Num(t) % 8
  {
    TagSplits(t);
    hide Small, Num, Tag, Narrow;
    TagIsSum(t >> 3, t & 7);
    NumSmall(t & 7);
    SmallOctal(t & 7);
  }
}
