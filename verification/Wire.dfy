/**
 Base 128 varints, record tags and the skipping of unknown fields, as the generated
 protobuf code reads and writes them.  Every reader is a function of the bytes that
 are left; the result says how many it takes.
 */
module Wire {
  import opened Basics

  const TWO_31: int := 0x8000_0000
  const TWO_32: int := 0x1_0000_0000
  const TWO_63: int := 0x8000_0000_0000_0000

  type byte = x: nat | x < 256

  /** A value and the number of bytes it took. */
  datatype Read = Read(v: nat, n: nat)

  // ----- varints -----

  function Varint(v: nat): (r: seq<byte>)
    ensures r != []
  {
    if v < 128 then [v] else [v % 128 + 128] + Varint(v / 128)
  }

  /** The reading loop: an eleventh byte is an overflow.  The sum is not yet cut to 64 bits. */
  function RawFrom(d: seq<byte>, k: nat): (r: Option<Read>)
    ensures r.Some? ==> 0 < r.value.n <= |d| && k + r.value.n <= 10
    decreases |d|
  {
    if k >= 10 || d == [] then None
    else if d[0] < 128 then Some(Read(d[0], 1))
    else match RawFrom(d[1..], k + 1)
         case None => None
         case Some(r) => Some(Read(d[0] - 128 + 128 * r.v, r.n + 1))
  }

  /** A 64-bit varint: higher bits are shifted out. */
  function ReadVarint(d: seq<byte>): (r: Option<Read>)
    ensures r.Some? ==> 0 < r.value.n <= |d| && r.value.v < TWO_64
  {
    match RawFrom(d, 0)
    case None => None
    case Some(r) => Some(Read(r.v % TWO_64, r.n))
  }

  function Pow128(k: nat): nat {
    if k == 0 then 1 else 128 * Pow128(k - 1)
  }

  lemma {:induction false} VarintLength(v: nat, k: nat)
    requires v < Pow128(k) && 0 < k
    ensures |Varint(v)| <= k
    decreases k
  {
    if v >= 128 {
      assert k > 1;
      VarintLength(v / 128, k - 1);
    }
  }

  lemma {:induction false} RawVarint(v: nat, x: seq<byte>, k: nat)
    requires k + |Varint(v)| <= 10
    ensures RawFrom(Varint(v) + x, k) == Some(Read(v, |Varint(v)|))
    decreases v
  {
    var d := Varint(v) + x;
    if v >= 128 {
      assert d[1..] == Varint(v / 128) + x;
      RawVarint(v / 128, x, k + 1);
    }
  }

  /** Reading a written number gives it back, whatever follows. */
  lemma VarintRoundTrip(v: nat, x: seq<byte>)
    requires v < TWO_64
    ensures ReadVarint(Varint(v) + x) == Some(Read(v, |Varint(v)|))
  {
    assert Pow128(10) == 0x40_0000_0000_0000_0000 by {
      assert Pow128(2) == 0x4000 && Pow128(4) == 0x1000_0000;
      assert Pow128(6) == 0x400_0000_0000 && Pow128(8) == 0x100_0000_0000_0000;
    }
    VarintLength(v, 10);
    RawVarint(v, x, 0);
  }

  lemma {:induction false} RawMonotone(d: seq<byte>, x: seq<byte>, k: nat)
    requires RawFrom(d, k).Some?
    ensures RawFrom(d + x, k) == RawFrom(d, k)
    decreases |d|
  {
    assert (d + x)[0] == d[0];
    if d[0] >= 128 {
      assert (d + x)[1..] == d[1..] + x;
      RawMonotone(d[1..], x, k + 1);
    }
  }

  /** What was read does not depend on what follows. */
  lemma ReadMonotone(d: seq<byte>, x: seq<byte>)
    requires ReadVarint(d).Some?
    ensures ReadVarint(d + x) == ReadVarint(d)
  {
    RawMonotone(d, x, 0);
  }

  // ----- sizes -----

  /** math/bits.Len64. */
  function BitLen(x: nat): nat {
    if x == 0 then 0 else 1 + BitLen(x / 2)
  }

  /** sovDockervmMessage: (Len64(x|1) + 6) / 7. */
  function Sov(x: nat): nat {
    (BitLen(if x % 2 == 0 then x + 1 else x) + 6) / 7
  }

  /** Seven bits fewer per byte. */
  lemma BitLenShift(x: nat)
    requires x >= 128
    ensures BitLen(x) == 7 + BitLen(x / 128)
  {
    var a := x / 2;
    var b := a / 2;
    var c := b / 2;
    var e := c / 2;
    var f := e / 2;
    var g := f / 2;
    assert g / 1 == x / 64;
    assert BitLen(x) == 1 + BitLen(a) && BitLen(a) == 1 + BitLen(b) && BitLen(b) == 1 + BitLen(c);
    assert BitLen(c) == 1 + BitLen(e) && BitLen(e) == 1 + BitLen(f) && BitLen(f) == 1 + BitLen(g);
    assert BitLen(g) == 1 + BitLen(g / 2) && g / 2 == x / 128;
  }

  lemma BitLenOdd(x: nat)
    requires x >= 2 && x % 2 == 0
    ensures BitLen(x + 1) == BitLen(x)
  {
    assert (x + 1) / 2 == x / 2;
  }

  lemma SmallBitLen(x: nat)
    requires 0 < x < 128
    ensures 1 <= BitLen(x) <= 7
  {
    var a := x / 2;
    var b := a / 2;
    var c := b / 2;
    var e := c / 2;
    var f := e / 2;
    var g := f / 2;
    assert g / 2 == 0 && BitLen(0) == 0;
    assert BitLen(g) <= 1 && BitLen(f) <= 2 && BitLen(e) <= 3 && BitLen(c) <= 4 && BitLen(b) <= 5 && BitLen(a) <= 6;
  }

  /** The size formula counts the bytes that the writer emits. */
  lemma {:induction false} SovIsLength(v: nat)
    ensures |Varint(v)| == Sov(v)
    decreases v
  {
    if v < 128 {
      SmallBitLen(if v % 2 == 0 then v + 1 else v);
    } else {
      SovIsLength(v / 128);
      if v % 2 == 0 {
        BitLenOdd(v);
      }
      BitLenShift(v);
      var w := v / 128;
      assert Sov(w) == (BitLen(if w % 2 == 0 then w + 1 else w) + 6) / 7;
      if w % 2 == 0 {
        assert w >= 2;
        BitLenOdd(w);
      }
    }
  }

  // ----- tags -----

  /** int32(wire >> 3): only 32 bits of the field number are looked at. */
  function FieldNum(wire: nat): int {
    var n := wire / 8 % TWO_32;
    if n < TWO_31 then n else n - TWO_32
  }

  function WireType(wire: nat): nat {
    wire % 8
  }

  function Tag(num: nat, wireType: nat): byte
    requires 0 < num < 16 && wireType < 8
  {
    num * 8 + wireType
  }

  /** A one-byte tag reads back as its field number and wire type. */
  lemma TagRoundTrip(num: nat, wireType: nat, x: seq<byte>)
    requires 0 < num < 16 && wireType < 8
    ensures var r := ReadVarint([Tag(num, wireType)] + x);
            r == Some(Read(Tag(num, wireType), 1))
            && FieldNum(Tag(num, wireType)) == num && WireType(Tag(num, wireType)) == wireType
  {
    var d := [Tag(num, wireType)] + x;
    assert d[0] == Tag(num, wireType) && d[0] < 128;
    assert RawFrom(d, 0) == Some(Read(d[0], 1));
  }

  // ----- skipping an unknown field -----

  /** How far a piece of a field reaches, and the group depth after it. */
  datatype Piece = Piece(bytes: nat, depth: nat)

  /** What follows a tag. */
  function Payload(d: seq<byte>, wireType: nat, depth: nat): Option<Piece> {
    match wireType
    case 0 => (match RawFrom(d, 0) case None => None case Some(r) => Some(Piece(r.n, depth)))
    case 1 => Some(Piece(8, depth))
    case 2 => (match ReadVarint(d)
               case None => None
               case Some(r) => if r.v >= TWO_63 then None else Some(Piece(r.n + r.v, depth)))
    case 3 => Some(Piece(0, depth + 1))
    case 4 => if depth == 0 then None else Some(Piece(0, depth - 1))
    case 5 => Some(Piece(4, depth))
    case _ => None
  }

  /** One iteration of skipDockervmMessage. */
  function SkipOne(d: seq<byte>, depth: nat): (r: Option<Piece>)
    ensures r.Some? ==> r.value.bytes > 0
  {
    match ReadVarint(d)
    case None => None
    case Some(tag) =>
      match Payload(d[tag.n..], WireType(tag.v), depth)
      case None => None
      case Some(p) => Some(Piece(tag.n + p.bytes, p.depth))
  }

  /** skipDockervmMessage: one field, or a group up to its end; the result may point past the end. */
  function SkipFrom(d: seq<byte>, depth: nat): (r: Option<nat>)
    ensures r.Some? ==> r.value > 0
    decreases |d|
  {
    match SkipOne(d, depth)
    case None => None
    case Some(p) =>
      if p.depth == 0 then Some(p.bytes)
      else if p.bytes >= |d| then None
      else match SkipFrom(d[p.bytes..], p.depth)
           case None => None
           case Some(rest) => Some(p.bytes + rest)
  }

  lemma PayloadMonotone(d: seq<byte>, x: seq<byte>, wireType: nat, depth: nat)
    requires Payload(d, wireType, depth).Some?
    ensures Payload(d + x, wireType, depth) == Payload(d, wireType, depth)
  {
    if wireType == 0 {
      RawMonotone(d, x, 0);
    } else if wireType == 2 {
      ReadMonotone(d, x);
    }
  }

  lemma SkipOneMonotone(d: seq<byte>, x: seq<byte>, depth: nat)
    requires SkipOne(d, depth).Some?
    ensures SkipOne(d + x, depth) == SkipOne(d, depth)
  {
    hide Payload;
    ReadMonotone(d, x);
    var tag := ReadVarint(d).value;
    assert (d + x)[tag.n..] == d[tag.n..] + x;
    PayloadMonotone(d[tag.n..], x, WireType(tag.v), depth);
  }

  lemma {:induction false} SkipMonotone(d: seq<byte>, x: seq<byte>, depth: nat)
    requires SkipFrom(d, depth).Some?
    ensures SkipFrom(d + x, depth) == SkipFrom(d, depth)
    decreases |d|
  {
    hide SkipOne;
    SkipOneMonotone(d, x, depth);
    var p := SkipOne(d, depth).value;
    if p.depth != 0 {
      assert (d + x)[p.bytes..] == d[p.bytes..] + x;
      SkipMonotone(d[p.bytes..], x, p.depth);
    }
  }
}
