/**
 Unmarshalling as the generated code does it: loops that move an index over the
 bytes.  Every index is in bounds and every loop ends, on every byte string.
 */
module Unmarshal {
  import opened Basics
  import opened Wire
  import opened Codec

  /** What the reading loop has so far, put in front of what is still to be read. */
  function Carry(raw: nat, k: nat, rest: Option<Read>): Option<Read> {
    match rest
    case None => None
    case Some(r) => Some(Read(raw + Pow128(k) * r.v, k + r.n))
  }

  /** A byte with its high bit set: its seven bits are added and the rest weighs more. */
  lemma CarryMore(raw: nat, d: seq<byte>, i: nat, k: nat)
    requires i < |d| && k < 10 && d[i] >= 128
    ensures Carry(raw, k, RawFrom(d[i..], k))
            == Carry(raw + Weighted(Pow128(k), d[i] % 128), k + 1, RawFrom(d[i + 1..], k + 1))
  {
    var rest := RawFrom(d[i + 1..], k + 1);
    RawStep(d, i, k);
    hide RawFrom;
    if rest.Some? {
      Distribute(Pow128(k), d[i] % 128, rest.value.v);
    }
  }

  lemma RawStep(d: seq<byte>, i: nat, k: nat)
    requires i < |d| && k < 10 && d[i] >= 128
    ensures var rest := RawFrom(d[i + 1..], k + 1);
            RawFrom(d[i..], k) == if rest.None? then None else Some(Read(d[i] % 128 + 128 * rest.value.v,
              rest.value.n + 1))
  {
    assert d[i..][1..] == d[i + 1..];
  }

  lemma Distribute(w: nat, a: nat, v: nat)
    ensures w * (a + 128 * v) == w * a + 128 * w * v
  {
  }

  lemma PowerUp(k: nat)
    ensures Pow128(k + 1) == 128 * Pow128(k)
  {
  }

  /** The last byte. */
  lemma CarryLast(raw: nat, d: seq<byte>, i: nat, k: nat)
    requires i < |d| && k < 10 && d[i] < 128
    ensures Carry(raw, k, RawFrom(d[i..], k)) == Some(Read(raw + Weighted(Pow128(k), d[i] % 128), k + 1))
  {
  }

  lemma CarryNone(raw: nat, d: seq<byte>, i: nat, k: nat)
    requires i <= |d| && (i == |d| || k >= 10)
    ensures Carry(raw, k, RawFrom(d[i..], k)) == None
  {
  }

  lemma AddMod(raw: nat, x: nat)
    ensures (raw % TWO_64 + x) % TWO_64 == (raw + x) % TWO_64
  {
    assert raw == TWO_64 * (raw / TWO_64) + raw % TWO_64;
    ModShift(raw % TWO_64 + x, raw / TWO_64);
  }

  lemma {:induction false} ModShift(y: nat, q: nat)
    ensures (y + TWO_64 * q) % TWO_64 == y % TWO_64
  {
    if q > 0 {
      ModShift(y, q - 1);
      assert y + TWO_64 * q == (y + TWO_64 * (q - 1)) + TWO_64;
    }
  }

  /** The varint loop: seven bits per byte, at most ten bytes, cut to 64 bits as they are added. */
  method DecodeVarint(d: seq<byte>, from: nat) returns (r: Option<Read>)
    requires from <= |d|
    ensures r == ReadVarint(d[from..])
  {
    var i, k := from, 0;
    var weight: nat, v: nat := 1, 0;
    ghost var raw: nat := 0;
    assert Carry(0, 0, RawFrom(d[from..], 0)) == RawFrom(d[from..], 0);
    hide RawFrom, Carry, Pow128;
    while true
      invariant from <= i <= |d| && k == i - from && k <= 10 && weight == Pow128(k) && v == raw % TWO_64
      invariant RawFrom(d[from..], 0) == Carry(raw, k, RawFrom(d[i..], k))
      decreases 10 - k
    {
      if k >= 10 || i >= |d| {
        CarryNone(raw, d, i, k);
        return None;
      }
      var bits := Weighted(weight, d[i] % 128);
      AddMod(raw, bits);
      if d[i] < 128 {
        CarryLast(raw, d, i, k);
        return Some(Read((v + bits) % TWO_64, k + 1));
      }
      CarryMore(raw, d, i, k);
      PowerUp(k);
      v := (v + bits) % TWO_64;
      raw := raw + bits;
      i, k, weight := i + 1, k + 1, 128 * weight;
    }
  }

  function Weighted(weight: nat, bits: nat): nat {
    weight * bits
  }

  method SkipOneAt(d: seq<byte>, i: nat, depth: nat) returns (p: Option<Piece>)
    requires i <= |d|
    ensures p == SkipOne(d[i..], depth)
  {
    hide ReadVarint, Payload;
    var tag := DecodeVarint(d, i);
    if tag.None? {
      return None;
    }
    p := PayloadAt(d, i + tag.value.n, WireType(tag.value.v), depth);
    assert d[i..][tag.value.n..] == d[i + tag.value.n..];
    return if p.None? then None else Some(Piece(tag.value.n + p.value.bytes, p.value.depth));
  }

  /** A skip that started at `from`, seen from position `i`. */
  function Resumed(from: nat, i: nat, rest: Option<nat>): Option<nat>
    requires from <= i
  {
    match rest
    case None => None
    case Some(n) => Some(i - from + n)
  }

  /** skipDockervmMessage. */
  method Skip(d: seq<byte>, from: nat) returns (r: Option<nat>)
    requires from <= |d|
    ensures r == SkipFrom(d[from..], 0)
  {
    hide SkipOne;
    var i, depth := from, 0;
    while i < |d|
      invariant from <= i <= |d|
      invariant SkipFrom(d[from..], 0) == Resumed(from, i, SkipFrom(d[i..], depth))
    {
      var p := SkipOneAt(d, i, depth);
      if p.None? {
        return None;
      }
      var next := i + p.value.bytes;
      if p.value.depth == 0 {
        return Some(next - from);
      }
      if next >= |d| {
        return None;
      }
      assert d[i..][p.value.bytes..] == d[next..];
      i, depth := next, p.value.depth;
    }
    assert SkipOne([], depth) == None by { EmptySkip(depth); }
    return None;
  }

  lemma EmptySkip(depth: nat)
    ensures SkipOne([], depth) == None
  {
  }

  method PayloadAt(d: seq<byte>, i: nat, wireType: nat, depth: nat) returns (p: Option<Piece>)
    requires i <= |d|
    ensures p == Payload(d[i..], wireType, depth)
  {
    if wireType == 0 {
      var r := DecodeVarint(d, i);
      return if r.None? then None else Some(Piece(r.value.n, depth));
    } else if wireType == 2 {
      var r := DecodeVarint(d, i);
      return if r.None? || r.value.v >= TWO_63 then None else Some(Piece(r.value.n + r.value.v, depth));
    }
    return Payload(d[i..], wireType, depth);
  }

  method SpanAt(d: seq<byte>, i: nat) returns (s: Option<Span>)
    requires i <= |d|
    ensures s == ReadSpan(d[i..])
  {
    var r := DecodeVarint(d, i);
    if r.None? || r.value.v >= TWO_63 || i + r.value.n + r.value.v > |d| {
      return None;
    }
    return Some(Span(r.value.n, r.value.n + r.value.v));
  }

  /** The loop over the parts of a map entry that ends at `end`. */
  method EntryAt(d: seq<byte>, from: nat, end: nat) returns (r: Option<Entry>)
    requires from <= end <= |d|
    ensures r == ReadEntry(d[from..], end - from, Entry([], []))
  {
    hide ReadPart;
    var i, e := from, Entry([], []);
    while i < end
      invariant from <= i <= |d|
      invariant ReadEntry(d[from..], end - from, Entry([], [])) == ReadEntry(d[i..], end - i, e)
      decreases |d| - i
    {
      var p := PartAt(d, i, end, e);
      if p.None? {
        return None;
      }
      assert d[i..][p.value.n..] == d[i + p.value.n..];
      i, e := i + p.value.n, p.value.e;
    }
    return Some(e);
  }

  method PartAt(d: seq<byte>, i: nat, end: nat, e: Entry) returns (p: Option<Part>)
    requires i < end <= |d|
    ensures p == ReadPart(d[i..], end - i, e)
  {
    hide ReadVarint, ReadSpan, SkipFrom, FieldNum;
    var tag := DecodeVarint(d, i);
    if tag.None? {
      return None;
    }
    var num := FieldNum(tag.value.v);
    if num == 1 || num == 2 {
      var at := i + tag.value.n;
      assert d[i..][tag.value.n..] == d[at..];
      var span := SpanAt(d, at);
      if span.None? {
        return None;
      }
      var part := d[at + span.value.from..at + span.value.to];
      assert d[at..][span.value.from..span.value.to] == part;
      return Some(Part(if num == 1 then e.(key := part) else e.(val := part), tag.value.n + span.value.to));
    }
    var n := Skip(d, i);
    return if n.None? || i + n.value > end then None else Some(Part(e, n.value));
  }

  method FieldAt(k: Kind, wireType: nat, d: seq<byte>, i: nat, v: Value) returns (f: Option<Field>)
    requires ShapedValue(k, v) && i <= |d|
    ensures f == ReadField(k, wireType, d[i..], v)
    decreases |d|, 0
  {
    hide ReadVarint, ReadSpan, ReadEntry, Decode, Put, NumFrom;
    if Numeric(k) {
      if wireType != 0 {
        return None;
      }
      var r := DecodeVarint(d, i);
      return if r.None? then None else Some(Field(Num(NumFrom(k, r.value.v)), r.value.n));
    }
    if wireType != 2 {
      return None;
    }
    var span := SpanAt(d, i);
    if span.None? {
      return None;
    }
    var from, end := i + span.value.from, i + span.value.to;
    var content := d[from..end];
    assert d[i..][span.value.from..span.value.to] == content;
    assert d[i..][span.value.from..] == d[from..];
    match k
    case Text => return Some(Field(Bytes(content), span.value.to));
    case Texts => return Some(Field(Strs(v.strs + [content]), span.value.to));
    case Dict =>
      var e := EntryAt(d, from, end);
      return if e.None? then None else Some(Field(Entries(Put(v.entries, e.value)), span.value.to));
    case One(fields) =>
      var m := Unmarshal(fields, content, if v.Nil? then Blank(fields) else v.msg);
      return if m.None? then None else Some(Field(Sub(m.value), span.value.to));
    case Many(fields) =>
      var m := Unmarshal(fields, content, Blank(fields));
      return if m.None? then None else Some(Field(Subs(v.msgs + [m.value]), span.value.to));
  }

  /** One iteration of the loop below: a record of a known field, or a skipped one. */
  method RecordAt(kinds: seq<Kind>, d: seq<byte>, i: nat, m: seq<Value>) returns (r: Option<Message>)
    requires Shaped(kinds, m) && i < |d|
    ensures r == ReadRecord(kinds, d[i..], m)
    decreases |d|, 1
  {
    hide ReadVarint, ReadField, SkipFrom, FieldNum;
    var tag := DecodeVarint(d, i);
    if tag.None? {
      return None;
    }
    var num, at := FieldNum(tag.value.v), i + tag.value.n;
    assert d[i..][tag.value.n..] == d[at..];
    if WireType(tag.value.v) == 4 || num <= 0 {
      return None;
    }
    if num <= |kinds| {
      var f := FieldAt(kinds[num - 1], WireType(tag.value.v), d, at, m[num - 1]);
      return if f.None? then None else Some(Message(m[num - 1 := f.value.v], tag.value.n + f.value.n));
    }
    var n := Skip(d, i);
    return if n.None? || i + n.value > |d| then None else Some(Message(m, n.value));
  }

  /** Unmarshal into a message. */
  method Unmarshal(kinds: seq<Kind>, d: seq<byte>, into: seq<Value>) returns (r: Option<seq<Value>>)
    requires Shaped(kinds, into)
    ensures r == Decode(kinds, d, into)
    decreases |d|, 2
  {
    hide ReadRecord;
    var i, m := 0, into;
    assert d[0..] == d;
    while i < |d|
      invariant 0 <= i <= |d| && Shaped(kinds, m)
      invariant Decode(kinds, d, into) == Decode(kinds, d[i..], m)
      decreases |d| - i
    {
      var next := RecordAt(kinds, d, i, m);
      if next.None? {
        return None;
      }
      assert d[i..][next.value.n..] == d[i + next.value.n..];
      i, m := i + next.value.n, next.value.m;
    }
    return Some(m);
  }
}
