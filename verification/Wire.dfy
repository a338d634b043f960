/**
 The hand-written protobuf wire codec: base-128 varints, field tags, and the four wire
 types used. Bytes and 64-bit words are numbers; `Bits` ties the arithmetic to the
 shifts and masks of the program.
 */
module Wire {
  import opened Basics

  lemma Pow2Plus7(n: nat)
    ensures Pow2(n + 7) == 128 * Pow2(n)
  {
    assert Pow2(n + 7) == 2 * Pow2(n + 6) == 4 * Pow2(n + 5) == 8 * Pow2(n + 4);
    assert Pow2(n + 4) == 2 * Pow2(n + 3) == 4 * Pow2(n + 2) == 8 * Pow2(n + 1);
  }

  lemma Pow2Of63()
    ensures Pow2(63) == 0x8000_0000_0000_0000
  {
    Pow2Of28();
    Pow2Plus7(28);
    Pow2Plus7(35);
    assert Pow2(42) == 0x400_0000_0000;
    Pow2Plus7(42);
    Pow2Plus7(49);
    Pow2Plus7(56);
  }

  lemma Pow2Of28()
    ensures Pow2(28) == 0x1000_0000
  {
    assert Pow2(0) == 1;
    Pow2Plus7(0);
    Pow2Plus7(7);
    Pow2Plus7(14);
    Pow2Plus7(21);
  }

  // ---- varints ----

  function Uvarint(v: nat): (b: seq<byte>)
    ensures |b| > 0
  {
    if v < 128 then [v] else [v % 128 + 128] + Uvarint(v / 128)
  }

  /** Where a read stopped, and the value if it was well formed. */
  datatype Scan = Scan(i: nat, val: Option<nat>)

  /** Read a varint at `i` with `v` accumulated from the bits below `shift`. */
  function Varint(b: seq<byte>, i: nat, shift: nat, v: nat): (s: Scan)
    requires i <= |b|
    ensures i <= s.i <= |b| && (s.val.Some? ==> i < s.i)
    decreases |b| - i
  {
    if i == |b| then Scan(i, None)
    else
      var c := b[i];
      var w := v + (c % 128) * Pow2(shift) % TWO64;
      if c < 128 then Scan(i + 1, Some(w))
      else if shift >= 63 then Scan(i + 1, None)
      else Varint(b, i + 1, shift + 7, w)
  }

  lemma ShiftBelow(x: nat, p: nat, v: nat)
    requires x < 128 && v < p
    ensures v + x * p < 128 * p
  {
    assert x * p <= 127 * p;
  }

  lemma ShiftTop(x: nat)
    ensures x * 0x8000_0000_0000_0000 % TWO64 <= 0x8000_0000_0000_0000
  {
    var q, r := x / 2, x % 2;
    assert x * 0x8000_0000_0000_0000 == q * TWO64 + r * 0x8000_0000_0000_0000;
    assert (q * TWO64 + r * 0x8000_0000_0000_0000) % TWO64 == r * 0x8000_0000_0000_0000;
  }

  /** The value of any varint read fits in 64 bits. */
  lemma {:induction false} VarintFits(b: seq<byte>, i: nat, shift: nat, v: nat)
    requires i <= |b| && shift % 7 == 0 && shift <= 63 && v < Pow2(shift)
    ensures var s := Varint(b, i, shift, v);
            s.val.Some? ==> s.val.value < TWO64
    decreases |b| - i
  {
    Pow2Of63();
    if i == |b| {
    } else {
      var c, p := b[i], Pow2(shift);
      if shift == 63 {
        ShiftTop(c % 128);
      } else {
        Pow2Plus7(shift);
        ShiftBelow(c % 128, p, v);
        Pow2Grows(shift + 7, 63);
        assert (c % 128) * p % TWO64 == (c % 128) * p;
        if c >= 128 {
          VarintFits(b, i + 1, shift + 7, v + (c % 128) * p);
        }
      }
    }
  }

  lemma {:induction false} Pow2Grows(m: nat, n: nat)
    requires m <= n
    ensures Pow2(m) <= Pow2(n)
  {
    if m == n {
    } else {
      Pow2Grows(m, n - 1);
    }
  }

  lemma SplitScaled(x: nat, p: nat)
    ensures x * p == (x % 128) * p + (x / 128) * (128 * p)
  {
    assert x == x % 128 + 128 * (x / 128);
    assert x * p == (x % 128 + 128 * (x / 128)) * p;
  }

  lemma MoveBitsBy(x: nat, p: nat, v: nat)
    requires x >= 128 && v < p && v + x * p < TWO64
    ensures 128 * p < TWO64
    ensures var low := (x % 128) * p;
            && 0 <= low < TWO64 && v + low < 128 * p
            && v + low + (x / 128) * (128 * p) == v + x * p
  {
    AtLeast128(x, p);
    SplitScaled(x, p);
    ShiftBelow(x % 128, p, v);
    NotNegative(x / 128, 128 * p);
    NotNegative(x % 128, p);
  }

  lemma AtLeast128(x: nat, p: nat)
    requires x >= 128
    ensures x * p >= 128 * p
  {
    assert (x - 128) * p >= 0;
    assert (x - 128) * p == x * p - 128 * p;
  }

  lemma NotNegative(a: nat, b: nat)
    ensures a * b >= 0
  {
  }

  /** Moving seven bits of `x` into the accumulated value. */
  lemma MoveBits(x: nat, shift: nat, v: nat)
    requires x >= 128 && shift % 7 == 0 && shift <= 63
    requires v < Pow2(shift) && v + x * Pow2(shift) < TWO64
    ensures shift < 63
    ensures var low := (x % 128) * Pow2(shift);
            && low >= 0 && low % TWO64 == low && v + low < Pow2(shift + 7)
            && v + low + (x / 128) * Pow2(shift + 7) == v + x * Pow2(shift)
  {
    hide Pow2;
    Pow2Of63();
    Pow2Plus7(shift);
    MoveBitsBy(x, Pow2(shift), v);
    SmallMod((x % 128) * Pow2(shift));
  }

  lemma SmallMod(n: nat)
    requires n < TWO64
    ensures n % TWO64 == n
  {
  }

  lemma SmallShift(x: nat, shift: nat)
    requires x * Pow2(shift) < TWO64
    ensures x * Pow2(shift) % TWO64 == x * Pow2(shift)
  {
  }

  lemma LastByte(b: seq<byte>, i: nat, shift: nat, v: nat, x: nat)
    requires x < 128 && i < |b| && b[i] == x && x * Pow2(shift) < TWO64
    ensures Varint(b, i, shift, v) == Scan(i + 1, Some(v + x * Pow2(shift)))
  {
    hide Pow2;
    SmallShift(x, shift);
  }

  lemma MoreBytes(b: seq<byte>, i: nat, shift: nat, v: nat, x: nat)
    requires x >= 128 && i < |b| && b[i] == x % 128 + 128 && shift < 63
    requires (x % 128) * Pow2(shift) >= 0 && (x % 128) * Pow2(shift) % TWO64 == (x % 128) * Pow2(shift)
    ensures Varint(b, i, shift, v) == Varint(b, i + 1, shift + 7, v + (x % 128) * Pow2(shift))
  {
    hide Pow2;
    assert (x % 128 + 128) % 128 == x % 128;
  }

  /** Reading a written varint gives the value back and stops right after it. */
  lemma {:induction false} VarintReads(b: seq<byte>, i: nat, shift: nat, v: nat, x: nat)
    requires shift % 7 == 0 && shift <= 63 && v < Pow2(shift) && v + x * Pow2(shift) < TWO64
    requires i + |Uvarint(x)| <= |b| && b[i..i + |Uvarint(x)|] == Uvarint(x)
    ensures Varint(b, i, shift, v) == Scan(i + |Uvarint(x)|, Some(v + x * Pow2(shift)))
    decreases x
  {
    hide Pow2, Varint;
    var u := Uvarint(x);
    assert b[i] == u[0];
    if x < 128 {
      LastByte(b, i, shift, v, x);
    } else {
      MoveBits(x, shift, v);
      MoreBytes(b, i, shift, v, x);
      assert u[1..] == Uvarint(x / 128);
      SubSlice(b, i, i + |u|, 1, |u|);
      VarintReads(b, i + 1, shift + 7, v + (x % 128) * Pow2(shift), x / 128);
    }
  }

  /** The same for a fresh read. */
  lemma VarintReadsBack(b: seq<byte>, i: nat, x: nat)
    requires x < TWO64 && i + |Uvarint(x)| <= |b| && b[i..i + |Uvarint(x)|] == Uvarint(x)
    ensures Varint(b, i, 0, 0) == Scan(i + |Uvarint(x)|, Some(x))
  {
    assert Pow2(0) == 1;
    VarintReads(b, i, 0, 0, x);
  }

  // ---- fields ----

  datatype Field =
    | VarintField(num: nat, val: nat)
    | Fixed64(num: nat, data: seq<byte>)
    | Bytes(num: nat, data: seq<byte>)
    | Fixed32(num: nat, data: seq<byte>)

  function WireType(f: Field): nat
  {
    match f
    case VarintField(_, _) => 0
    case Fixed64(_, _) => 1
    case Bytes(_, _) => 2
    case Fixed32(_, _) => 5
  }

  function Encode(f: Field): (b: seq<byte>)
    ensures |b| > 0
  {
    Uvarint(f.num * 8 + WireType(f)) +
    match f
    case VarintField(_, v) => Uvarint(v)
    case Fixed64(_, data) => data
    case Bytes(_, data) => Uvarint(|data|) + data
    case Fixed32(_, data) => data
  }

  function EncodeAll(fs: seq<Field>): seq<byte>
  {
    if fs == [] then [] else Encode(fs[0]) + EncodeAll(fs[1..])
  }

  /** What a 64-bit program can write. */
  ghost predicate Writable(f: Field)
  {
    && f.num * 8 + WireType(f) < TWO64
    && match f
       case VarintField(_, v) => v < TWO64
       case Fixed64(_, data) => |data| == 8
       case Bytes(_, data) => |data| < TWO64
       case Fixed32(_, data) => |data| == 4
  }

  datatype Read = Read(i: nat, field: Option<Field>)

  /** The next field of a message body and where the cursor is left. */
  function Next(b: seq<byte>, i: nat): (r: Read)
    requires i <= |b|
    ensures i <= r.i <= |b| && (r.field.Some? ==> i < r.i)
  {
    var t := Varint(b, i, 0, 0);
    if t.val.None? then Read(t.i, None)
    else
      var num, wire := t.val.value / 8, t.val.value % 8;
      if wire == 0 then
        var v := Varint(b, t.i, 0, 0);
        Read(v.i, if v.val.Some? then Some(VarintField(num, v.val.value)) else None)
      else if wire == 1 then
        if t.i + 8 > |b| then Read(t.i, None) else Read(t.i + 8, Some(Fixed64(num, b[t.i..t.i + 8])))
      else if wire == 2 then
        var n := Varint(b, t.i, 0, 0);
        if n.val.None? || n.val.value > |b| - n.i then Read(n.i, None)
        else Read(n.i + n.val.value, Some(Bytes(num, b[n.i..n.i + n.val.value])))
      else if wire == 5 then
        if t.i + 4 > |b| then Read(t.i, None) else Read(t.i + 4, Some(Fixed32(num, b[t.i..t.i + 4])))
      else Read(t.i, None)
  }

  /** The fields a reader sees from position `i` until the end or the first bad one. */
  function Fields(b: seq<byte>, i: nat): seq<Field>
    requires i <= |b|
    decreases |b| - i
  {
    var r := Next(b, i);
    if r.field.None? then [] else [r.field.value] + Fields(b, r.i)
  }

  /** A slice that is a concatenation splits into its parts. */
  lemma SplitAt(b: seq<byte>, i: nat, n: nat, x: seq<byte>, y: seq<byte>)
    requires i + n <= |b| && b[i..i + n] == x + y
    ensures n == |x| + |y| && b[i..i + |x|] == x && b[i + |x|..i + n] == y
  {
    SubSlice(b, i, i + n, 0, |x|);
    SubSlice(b, i, i + n, |x|, n);
    assert (x + y)[0..|x|] == x;
    assert (x + y)[|x|..n] == y;
  }

  lemma NextVarint(b: seq<byte>, i: nat, f: Field)
    requires f.VarintField? && Writable(f) && i + |Encode(f)| <= |b| && b[i..i + |Encode(f)|] == Encode(f)
    ensures Next(b, i) == Read(i + |Encode(f)|, Some(f))
  {
    hide Uvarint, Varint;
    var t, n := f.num * 8, |Encode(f)|;
    SplitAt(b, i, n, Uvarint(t), Uvarint(f.val));
    VarintReadsBack(b, i, t);
    VarintReadsBack(b, i + |Uvarint(t)|, f.val);
  }

  lemma NextBytes(b: seq<byte>, i: nat, f: Field)
    requires f.Bytes? && Writable(f) && i + |Encode(f)| <= |b| && b[i..i + |Encode(f)|] == Encode(f)
    ensures Next(b, i) == Read(i + |Encode(f)|, Some(f))
  {
    hide Uvarint, Varint;
    var t, n := f.num * 8 + 2, |Encode(f)|;
    var j := i + |Uvarint(t)|;
    SplitAt(b, i, n, Uvarint(t), Uvarint(|f.data|) + f.data);
    SplitAt(b, j, n - |Uvarint(t)|, Uvarint(|f.data|), f.data);
    VarintReadsBack(b, i, t);
    VarintReadsBack(b, j, |f.data|);
  }

  lemma NextReads(b: seq<byte>, i: nat, f: Field)
    requires Writable(f) && i + |Encode(f)| <= |b| && b[i..i + |Encode(f)|] == Encode(f)
    ensures Next(b, i) == Read(i + |Encode(f)|, Some(f))
  {
    hide Uvarint, Varint;
    if f.VarintField? {
      NextVarint(b, i, f);
    } else if f.Bytes? {
      NextBytes(b, i, f);
    } else {
      var t := f.num * 8 + WireType(f);
      SplitAt(b, i, |Encode(f)|, Uvarint(t), f.data);
      VarintReadsBack(b, i, t);
    }
  }

  lemma EndOfFields(b: seq<byte>)
    ensures Fields(b, |b|) == []
  {
  }

  /** A reader recovers exactly the fields that were written, in order. */
  lemma {:induction false} FieldsOfEncoding(b: seq<byte>, i: nat, fs: seq<Field>)
    requires i <= |b| && b[i..] == EncodeAll(fs)
    requires forall k | 0 <= k < |fs| :: Writable(fs[k])
    ensures Fields(b, i) == fs
    decreases |fs|
  {
    hide Next, Writable, Encode;
    if fs == [] {
      EndOfFields(b);
    } else {
      var e := Encode(fs[0]);
      assert b[i..][..|e|] == e;
      assert b[i..i + |e|] == e;
      NextReads(b, i, fs[0]);
      assert b[i + |e|..] == b[i..][|e|..];
      FieldsOfEncoding(b, i + |e|, fs[1..]);
    }
  }

  lemma {:induction false} EncodeAllAppend(a: seq<Field>, c: seq<Field>)
    ensures EncodeAll(a + c) == EncodeAll(a) + EncodeAll(c)
  {
    hide Encode;
    if a == [] {
      assert a + c == c;
    } else {
      assert (a + c)[1..] == a[1..] + c;
      EncodeAllAppend(a[1..], c);
    }
  }

  lemma {:induction false} EncodingNonEmpty(fs: seq<Field>)
    ensures EncodeAll(fs) == [] <==> fs == []
  {
  }

  // ---- zero omission ----

  function Uint(num: nat, v: nat): seq<Field>
  {
    if v == 0 then [] else [VarintField(num, v)]
  }

  function Str(num: nat, s: seq<byte>): seq<Field>
  {
    if s == [] then [] else [Bytes(num, s)]
  }

  /** A float field, by its 32 bits; both zeros of the format are omitted. */
  function F32(num: nat, bits: nat): seq<Field>
    requires bits < 0x1_0000_0000
  {
    if bits == 0 || bits == 0x8000_0000 then [] else [Fixed32(num, Le32(bits))]
  }

  function Le32(bits: nat): (b: seq<byte>)
    requires bits < 0x1_0000_0000
    ensures |b| == 4
  {
    [bits % 256, bits / 256 % 256, bits / 65536 % 256, bits / 16777216]
  }

  function FromLe32(b: seq<byte>): nat
    requires |b| == 4
  {
    var b0: int, b1: int, b2: int, b3: int := b[0], b[1], b[2], b[3];
    b0 + 256 * b1 + 65536 * b2 + 16777216 * b3
  }

  lemma Le32RoundTrip(bits: nat)
    requires bits < 0x1_0000_0000
    ensures FromLe32(Le32(bits)) == bits
  {
    TwoBytes(bits);
    TwoMoreBytes(bits);
    LastByteOf(bits, bits / 65536);
  }

  lemma TwoBytes(n: nat)
    ensures n == n % 256 + 256 * (n / 256 % 256) + 65536 * (n / 256 / 256)
  {
  }

  lemma TwoMoreBytes(n: nat)
    ensures n / 256 / 256 == n / 65536
  {
  }

  lemma LastByteOf(n: nat, q: nat)
    requires q == n / 65536
    ensures q == q % 256 + 256 * (n / 16777216)
  {
  }

  // ---- the writer and the reader ----

  class PBuf {
    var b: seq<byte>

    /** The fields written so far. */
    ghost var fields: seq<Field>

    ghost predicate Valid()
      reads this
    {
      b == EncodeAll(fields)
    }

    constructor ()
      ensures Valid() && fields == []
    {
      b, fields := [], [];
    }

    /** Record that the bytes just appended are one more field. */
    ghost method Wrote(f: Field, before: seq<byte>)
      requires before == EncodeAll(fields) && b == before + Encode(f)
      modifies `fields
      ensures Valid() && fields == old(fields) + [f]
    {
      OneField(f);
      EncodeAllAppend(fields, [f]);
      fields := fields + [f];
    }

    method PutUvarint(v: nat)
      modifies `b
      ensures b == old(b) + Uvarint(v)
    {
      var v := v;
      ghost var v0 := v;
      while v >= 128
        modifies `b
        invariant b + Uvarint(v) == old(b) + Uvarint(v0)
      {
        assert b + ([v % 128 + 128] + Uvarint(v / 128)) == (b + [v % 128 + 128]) + Uvarint(v / 128);
        b := b + [v % 128 + 128];
        v := v / 128;
      }
      b := b + [v];
    }

    method PutTag(num: nat, wire: nat)
      modifies `b
      ensures b == old(b) + Uvarint(num * 8 + wire)
    {
      PutUvarint(num * 8 + wire);
    }

    method PutUint(num: nat, v: nat)
      requires Valid()
      modifies this
      ensures Valid() && fields == old(fields) + Uint(num, v)
    {
      if v == 0 {
        return;
      }
      PutTag(num, 0);
      PutUvarint(v);
      Wrote(VarintField(num, v), old(b));
    }

    method PutStr(num: nat, s: seq<byte>)
      requires Valid()
      modifies this
      ensures Valid() && fields == old(fields) + Str(num, s)
    {
      if |s| == 0 {
        return;
      }
      PutTag(num, 2);
      PutUvarint(|s|);
      b := b + s;
      Wrote(Bytes(num, s), old(b));
    }

    method PutF32(num: nat, bits: nat)
      requires bits < 0x1_0000_0000
      requires Valid()
      modifies this
      ensures Valid() && fields == old(fields) + F32(num, bits)
    {
      if bits == 0 || bits == 0x8000_0000 {
        return;
      }
      PutTag(num, 5);
      b := b + [bits % 256, bits / 256 % 256, bits / 65536 % 256, bits / 16777216];
      Wrote(Fixed32(num, Le32(bits)), old(b));
    }

    /** A sub-message, omitted when its body is empty. */
    method PutMsg(num: nat, body: seq<byte>)
      requires Valid()
      modifies this
      ensures Valid() && fields == old(fields) + Str(num, body)
    {
      if |body| == 0 {
        return;
      }
      PutTag(num, 2);
      PutUvarint(|body|);
      b := b + body;
      Wrote(Bytes(num, body), old(b));
    }
  }

  lemma OneField(f: Field)
    ensures EncodeAll([f]) == Encode(f)
  {
    assert [f][1..] == [];
  }

  class PRead {
    const b: seq<byte>
    var i: nat

    constructor (b: seq<byte>)
      ensures this.b == b && i == 0 && Valid()
    {
      this.b, i := b, 0;
    }

    ghost predicate Valid()
      reads this
    {
      i <= |b|
    }

    method GetVarint() returns (v: nat, ok: bool)
      requires Valid()
      modifies this
      ensures Valid()
      ensures var s := Varint(b, old(i), 0, 0);
              i == s.i && ok == s.val.Some? && (ok ==> v == s.val.value)
    {
      v := 0;
      var shift := 0;
      while i < |b|
        invariant i <= |b|
        invariant Varint(b, old(i), 0, 0) == Varint(b, i, shift, v)
        decreases |b| - i
      {
        var c := b[i];
        i := i + 1;
        v := v + (c % 128) * Pow2(shift) % TWO64;
        if c < 128 {
          return v, true;
        }
        if shift >= 63 {
          return 0, false;
        }
        shift := shift + 7;
      }
      return 0, false;
    }

    method GetNext() returns (f: Option<Field>)
      requires Valid()
      modifies this
      ensures Valid() && Read(i, f) == Next(b, old(i))
      ensures old(i) <= i && (f.Some? ==> old(i) < i)
    {
      var t, ok := GetVarint();
      if !ok {
        return None;
      }
      var num, wire := t / 8, t % 8;
      if wire == 0 {
        var v;
        v, ok := GetVarint();
        return if ok then Some(VarintField(num, v)) else None;
      }
      if wire == 1 {
        if i + 8 > |b| {
          return None;
        }
        i := i + 8;
        return Some(Fixed64(num, b[i - 8..i]));
      }
      if wire == 2 {
        var n;
        n, ok := GetVarint();
        if !ok || n > |b| - i {
          return None;
        }
        i := i + n;
        return Some(Bytes(num, b[i - n..i]));
      }
      if wire == 5 {
        if i + 4 > |b| {
          return None;
        }
        i := i + 4;
        return Some(Fixed32(num, b[i - 4..i]));
      }
      return None;
    }

    /** Calling `GetNext` until it fails. */
    method GetAll() returns (fs: seq<Field>, ghost at: seq<nat>)
      requires Valid()
      modifies this
      ensures Valid() && fs == Fields(b, old(i)) && Advances(b, fs, at) && at[0] == old(i)
    {
      hide Next, Advances, Fields;
      fs, at := [], [i];
      var more := true;
      NoAdvance(b, i);
      while more
        invariant Valid() && Advances(b, fs, at)
        invariant |at| == |fs| + 1 && at[0] == old(i) && (more ==> at[|fs|] == i)
        invariant Fields(b, old(i)) == fs + if more then Fields(b, i) else []
        decreases more, |b| - i
      {
        FieldsFrom(b, i);
        ghost var before := i;
        var f := GetNext();
        if f.Some? {
          assert fs + ([f.value] + Fields(b, i)) == (fs + [f.value]) + Fields(b, i);
          OneAdvance(b, fs, at, f.value, i);
          fs, at := fs + [f.value], at + [i];
        } else {
          more := false;
        }
      }
    }
  }

  /** Field `k` is read between positions `at[k]` and `at[k + 1]`, strictly forward and within
      the body. */
  ghost predicate AdvancesAt(b: seq<byte>, fs: seq<Field>, at: seq<nat>, k: nat)
    requires |at| == |fs| + 1
  {
    k < |fs| ==> at[k] < at[k + 1] <= |b| && Next(b, at[k]) == Read(at[k + 1], Some(fs[k]))
  }

  ghost predicate Advances(b: seq<byte>, fs: seq<Field>, at: seq<nat>)
  {
    |at| == |fs| + 1 && forall k: nat :: AdvancesAt(b, fs, at, k)
  }

  lemma NoAdvance(b: seq<byte>, i: nat)
    ensures Advances(b, [], [i])
  {
  }

  lemma OneAdvance(b: seq<byte>, fs: seq<Field>, at: seq<nat>, f: Field, i: nat)
    requires Advances(b, fs, at) && at[|fs|] < i <= |b| && Next(b, at[|fs|]) == Read(i, Some(f))
    ensures Advances(b, fs + [f], at + [i])
  {
    hide Next;
    forall k: nat
      ensures AdvancesAt(b, fs + [f], at + [i], k)
    {
      assert AdvancesAt(b, fs, at, k);
    }
  }

  lemma FieldsFrom(b: seq<byte>, i: nat)
    requires i <= |b|
    ensures var r := Next(b, i);
            Fields(b, i) == if r.field.None? then [] else [r.field.value] + Fields(b, r.i)
  {
    hide Next;
  }
}
