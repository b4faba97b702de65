/**
 What decoding may depend on: a message that decodes by itself decodes the same in
 front of anything, unknown fields between such parts change nothing, and the one
 way in which a record can depend on what follows it is a map entry whose key or
 value runs past the entry's own end.
 */
module CodecContext {
  import opened Basics
  import opened Wire
  import opened Codec

  // ----- more bytes do not matter -----

  lemma SpanMonotone(d: seq<byte>, x: seq<byte>)
    requires ReadSpan(d).Some?
    ensures ReadSpan(d + x) == ReadSpan(d)
  {
    ReadMonotone(d, x);
  }

  lemma PartMonotone(d: seq<byte>, x: seq<byte>, left: int, e: Entry)
    requires left <= |d| && ReadPart(d, left, e).Some?
    ensures ReadPart(d + x, left, e) == ReadPart(d, left, e)
  {
    hide ReadVarint, ReadSpan, SkipFrom, FieldNum;
    ReadMonotone(d, x);
    var tag := ReadVarint(d).value;
    assert (d + x)[tag.n..] == d[tag.n..] + x;
    if FieldNum(tag.v) == 1 || FieldNum(tag.v) == 2 {
      SpanMonotone(d[tag.n..], x);
      var span := ReadSpan(d[tag.n..]).value;
      assert (d[tag.n..] + x)[span.from..span.to] == d[tag.n..][span.from..span.to];
    } else {
      SkipMonotone(d, x, 0);
    }
  }

  lemma {:induction false} EntryMonotone(d: seq<byte>, x: seq<byte>, left: int, e: Entry)
    requires left <= |d| && ReadEntry(d, left, e).Some?
    ensures ReadEntry(d + x, left, e) == ReadEntry(d, left, e)
    decreases |d|
  {
    hide ReadPart;
    if left > 0 {
      PartMonotone(d, x, left, e);
      var p := ReadPart(d, left, e).value;
      assert (d + x)[p.n..] == d[p.n..] + x;
      EntryMonotone(d[p.n..], x, left - p.n, p.e);
    }
  }

  lemma FieldMonotone(k: Kind, wireType: nat, d: seq<byte>, x: seq<byte>, v: Value)
    requires ShapedValue(k, v) && ReadField(k, wireType, d, v).Some?
    ensures ReadField(k, wireType, d + x, v) == ReadField(k, wireType, d, v)
  {
    hide ReadVarint, ReadSpan, Decode, ReadEntry;
    if Numeric(k) {
      ReadMonotone(d, x);
    } else {
      SpanMonotone(d, x);
      var span := ReadSpan(d).value;
      assert (d + x)[span.from..span.to] == d[span.from..span.to];
      assert (d + x)[span.from..] == d[span.from..] + x;
      if k.Dict? {
        EntryMonotone(d[span.from..], x, span.to - span.from, Entry([], []));
      }
    }
  }

  lemma RecordMonotone(kinds: seq<Kind>, d: seq<byte>, x: seq<byte>, m: seq<Value>)
    requires Shaped(kinds, m) && d != [] && ReadRecord(kinds, d, m).Some?
    ensures ReadRecord(kinds, d + x, m) == ReadRecord(kinds, d, m)
  {
    hide ReadVarint, ReadField, SkipFrom, FieldNum;
    ReadMonotone(d, x);
    var tag := ReadVarint(d).value;
    var num := FieldNum(tag.v);
    assert (d + x)[tag.n..] == d[tag.n..] + x;
    if num <= |kinds| {
      FieldMonotone(kinds[num - 1], WireType(tag.v), d[tag.n..], x, m[num - 1]);
    } else {
      SkipMonotone(d, x, 0);
    }
  }

  /** A part that decodes by itself is read the same in front of anything, and the rest continues from its message. */
  lemma {:induction false} DecodeFront(kinds: seq<Kind>, a: seq<byte>, x: seq<byte>, m: seq<Value>)
    requires Shaped(kinds, m) && Decode(kinds, a, m).Some?
    ensures Decode(kinds, a + x, m) == Decode(kinds, x, Decode(kinds, a, m).value)
    decreases |a|
  {
    hide ReadRecord;
    if a == [] {
      assert a + x == x;
    } else {
      RecordMonotone(kinds, a, x, m);
      var r := ReadRecord(kinds, a, m).value;
      assert (a + x)[r.n..] == a[r.n..] + x;
      DecodeFront(kinds, a[r.n..], x, r.m);
    }
  }

  // ----- unknown fields -----

  /** One well-formed field, or group of fields, of a number that the message type does not have. */
  predicate Unknown(kinds: seq<Kind>, u: seq<byte>) {
    && ReadVarint(u).Some? && FieldNum(ReadVarint(u).value.v) > |kinds| && WireType(ReadVarint(u).value.v) != 4
    && SkipFrom(u, 0) == Some(|u|)
  }

  lemma UnknownSkipped(kinds: seq<Kind>, u: seq<byte>, x: seq<byte>, m: seq<Value>)
    requires Shaped(kinds, m) && Unknown(kinds, u)
    ensures Decode(kinds, u + x, m) == Decode(kinds, x, m)
  {
    hide ReadVarint, SkipFrom, FieldNum, ReadField;
    ReadMonotone(u, x);
    SkipMonotone(u, x, 0);
    assert ReadRecord(kinds, u + x, m) == Some(Message(m, |u|));
    assert (u + x)[|u|..] == x;
  }

  /** An unknown field behind a part that decodes by itself changes nothing, whatever follows. */
  lemma UnknownIgnored(kinds: seq<Kind>, a: seq<byte>, u: seq<byte>, b: seq<byte>, m: seq<Value>)
    requires Shaped(kinds, m) && Decode(kinds, a, m).Some? && Unknown(kinds, u)
    ensures Decode(kinds, a + u + b, m) == Decode(kinds, a + b, m)
  {
    assert a + u + b == a + (u + b);
    DecodeFront(kinds, a, u + b, m);
    DecodeFront(kinds, a, b, m);
    UnknownSkipped(kinds, u, b, Decode(kinds, a, m).value);
  }

  // ----- fewer bytes do not matter either, as long as they are all there -----

  lemma {:induction false} RawShrink(d: seq<byte>, j: nat, k: nat)
    requires RawFrom(d, k).Some? && RawFrom(d, k).value.n <= j <= |d|
    ensures RawFrom(d[..j], k) == RawFrom(d, k)
    decreases |d|
  {
    assert d[..j][0] == d[0];
    if d[0] >= 128 {
      assert d[..j][1..] == d[1..][..j - 1];
      RawShrink(d[1..], j - 1, k + 1);
    }
  }

  lemma ReadShrink(d: seq<byte>, j: nat)
    requires ReadVarint(d).Some? && ReadVarint(d).value.n <= j <= |d|
    ensures ReadVarint(d[..j]) == ReadVarint(d)
  {
    RawShrink(d, j, 0);
  }

  lemma SpanShrink(d: seq<byte>, j: nat)
    requires ReadSpan(d).Some? && ReadSpan(d).value.to <= j <= |d|
    ensures ReadSpan(d[..j]) == ReadSpan(d)
  {
    ReadShrink(d, j);
  }

  lemma SkipOneShrink(d: seq<byte>, j: nat, depth: nat)
    requires SkipOne(d, depth).Some? && SkipOne(d, depth).value.bytes <= j <= |d|
    ensures SkipOne(d[..j], depth) == SkipOne(d, depth)
  {
    var tag := ReadVarint(d).value;
    ReadShrink(d, j);
    assert d[..j][tag.n..] == d[tag.n..][..j - tag.n];
    if WireType(tag.v) == 0 {
      RawShrink(d[tag.n..], j - tag.n, 0);
    } else if WireType(tag.v) == 2 {
      ReadShrink(d[tag.n..], j - tag.n);
    }
    hide RawFrom;
  }

  lemma {:induction false} SkipShrink(d: seq<byte>, j: nat, depth: nat)
    requires SkipFrom(d, depth).Some? && SkipFrom(d, depth).value <= j <= |d|
    ensures SkipFrom(d[..j], depth) == SkipFrom(d, depth)
    decreases |d|
  {
    hide SkipOne;
    var p := SkipOne(d, depth).value;
    SkipOneShrink(d, j, depth);
    if p.depth != 0 {
      assert d[..j][p.bytes..] == d[p.bytes..][..j - p.bytes];
      SkipShrink(d[p.bytes..], j - p.bytes, p.depth);
    }
  }

  lemma PartShrink(d: seq<byte>, left: nat, e: Entry)
    requires left <= |d| && ReadPart(d, left, e).Some? && ReadPart(d, left, e).value.n <= left
    ensures ReadPart(d[..left], left, e) == ReadPart(d, left, e)
  {
    hide ReadVarint, ReadSpan, SkipFrom, FieldNum;
    var tag := ReadVarint(d).value;
    if FieldNum(tag.v) == 1 || FieldNum(tag.v) == 2 {
      var span := ReadSpan(d[tag.n..]).value;
      ReadShrink(d, left);
      assert d[..left][tag.n..] == d[tag.n..][..left - tag.n];
      SpanShrink(d[tag.n..], left - tag.n);
      assert d[tag.n..][..left - tag.n][span.from..span.to] == d[tag.n..][span.from..span.to];
    } else {
      TagInsideSkip(d);
      ReadShrink(d, left);
      SkipShrink(d, left, 0);
    }
  }

  /** A skipped field includes its tag. */
  lemma TagInsideSkip(d: seq<byte>)
    requires SkipFrom(d, 0).Some?
    ensures ReadVarint(d).Some? && ReadVarint(d).value.n <= SkipFrom(d, 0).value
  {
  }

  // ----- the exact condition -----

  /** Keys and values of the entry end inside it. */
  predicate EntryInside(d: seq<byte>, left: int, e: Entry)
    requires left <= |d|
    decreases |d|
  {
    if left <= 0 then left == 0
    else ReadPart(d, left, e).Some? &&
         var p := ReadPart(d, left, e).value; EntryInside(d[p.n..], left - p.n, p.e)
  }

  lemma {:induction false} EntryExact(d: seq<byte>, left: nat, e: Entry)
    requires left <= |d| && ReadEntry(d, left, e).Some?
    ensures ReadEntry(d[..left], left, e) == if EntryInside(d, left, e) then ReadEntry(d, left, e) else None
    decreases |d|
  {
    hide ReadPart;
    assert d[..left] + d[left..] == d;
    if left > 0 {
      var p := ReadPart(d, left, e).value;
      if p.n <= left {
        PartShrink(d, left, e);
        assert d[..left][p.n..] == d[p.n..][..left - p.n];
        EntryExact(d[p.n..], left - p.n, p.e);
      } else if ReadPart(d[..left], left, e).Some? {
        PartMonotone(d[..left], d[left..], left, e);
      }
    }
  }

  /** The record at the front is not a map entry that runs past its end. */
  predicate Tidy(kinds: seq<Kind>, d: seq<byte>)
    requires d != []
  {
    match ReadVarint(d)
    case None => true
    case Some(tag) =>
      0 < FieldNum(tag.v) <= |kinds| && kinds[FieldNum(tag.v) - 1].Dict? ==>
        match ReadSpan(d[tag.n..])
        case None => true
        case Some(span) => EntryInside(d[tag.n..][span.from..], span.to - span.from, Entry([], []))
  }

  lemma FieldExact(k: Kind, wireType: nat, d: seq<byte>, v: Value)
    requires ShapedValue(k, v) && ReadField(k, wireType, d, v).Some?
    ensures var f := ReadField(k, wireType, d, v);
            ReadField(k, wireType, d[..f.value.n], v) == f <==>
            (k.Dict? ==> var span := ReadSpan(d).value; EntryInside(d[span.from..], span.to - span.from, Entry([], [])))
  {
    hide ReadVarint, ReadSpan, Decode, ReadEntry, EntryInside;
    var n := ReadField(k, wireType, d, v).value.n;
    if Numeric(k) {
      ReadShrink(d, n);
    } else {
      SpanShrink(d, n);
      var span := ReadSpan(d).value;
      assert d[..n][span.from..span.to] == d[span.from..span.to];
      if k.Dict? {
        assert d[..n][span.from..] == d[span.from..][..span.to - span.from];
        EntryExact(d[span.from..], span.to - span.from, Entry([], []));
      }
    }
  }

  lemma RecordShrinks(kinds: seq<Kind>, d: seq<byte>, m: seq<Value>)
    requires Shaped(kinds, m) && d != [] && ReadRecord(kinds, d, m).Some?
    ensures var r := ReadRecord(kinds, d, m); ReadRecord(kinds, d[..r.value.n], m) == r <==> Tidy(kinds, d)
  {
    hide ReadVarint, ReadField, SkipFrom, FieldNum, EntryInside, ReadSpan;
    var n := ReadRecord(kinds, d, m).value.n;
    var tag := ReadVarint(d).value;
    var num := FieldNum(tag.v);
    if num <= |kinds| {
      ReadShrink(d, n);
      assert d[..n][tag.n..] == d[tag.n..][..n - tag.n];
      FieldExact(kinds[num - 1], WireType(tag.v), d[tag.n..], m[num - 1]);
      if kinds[num - 1].Dict? {
        FieldHasSpan(kinds[num - 1], WireType(tag.v), d[tag.n..], m[num - 1]);
      }
    } else {
      TagInsideSkip(d);
      ReadShrink(d, n);
      SkipShrink(d, n, 0);
    }
  }

  lemma FieldHasSpan(k: Kind, wireType: nat, d: seq<byte>, v: Value)
    requires ShapedValue(k, v) && ReadField(k, wireType, d, v).Some? && k.Dict?
    ensures ReadSpan(d).Some?
  {
  }

  /** A record reads the same whatever follows it if and only if it is tidy. */
  lemma TidyExactly(kinds: seq<Kind>, d: seq<byte>, m: seq<Value>)
    requires Shaped(kinds, m) && d != [] && ReadRecord(kinds, d, m).Some?
    ensures var r := ReadRecord(kinds, d, m);
            (forall x :: ReadRecord(kinds, d[..r.value.n] + x, m) == r) <==> Tidy(kinds, d)
  {
    var r := ReadRecord(kinds, d, m);
    var own := d[..r.value.n];
    RecordShrinks(kinds, d, m);
    hide ReadRecord, Tidy;
    if Tidy(kinds, d) {
      forall x ensures ReadRecord(kinds, own + x, m) == r {
        RecordMonotone(kinds, own, x, m);
      }
    }
    assert own + [] == own;
  }

  lemma SmallVarint(v: byte, x: seq<byte>)
    requires v < 128
    ensures ReadVarint([v] + x) == Some(Read(v, 1)) && ([v] + x)[1..] == x
  {
    assert ([v] + x)[0] == v;
  }

  lemma UnknownVarint(kinds: seq<Kind>, num: nat, v: byte)
    requires |kinds| < num < 16 && v < 128
    ensures Unknown(kinds, [num * 8, v])
  {
    var u := [num * 8, v];
    assert u == [num * 8] + [v] && [v] == [v] + [];
    SmallVarint(num * 8, [v]);
    SmallVarint(v, []);
    assert Payload([v], 0, 0) == Some(Piece(1, 0));
    assert SkipOne(u, 0) == Some(Piece(2, 0));
  }

  /** A map entry that says its key is two bytes long but ends before them. */
  const SHORT_ENTRY: seq<byte> := [0x0a, 2, 0x0a, 2]

  lemma TwoBytes(x: seq<byte>)
    requires |x| >= 2
    ensures ReadSpan([2] + x) == Some(Span(1, 3)) && ([2] + x)[1..3] == x[..2] && ([2] + x)[1..] == x
  {
    SmallVarint(2, x);
  }

  lemma BorrowedPart(rest: seq<byte>)
    requires |rest| >= 2
    ensures ReadEntry([0x0a] + ([2] + rest), 2, Entry([], [])) == Some(Entry(rest[..2], []))
  {
    assert FieldNum(0x0a) == 1;
    hide ReadVarint, ReadSpan, ReadPart, FieldNum;
    var body := [0x0a] + ([2] + rest);
    SmallVarint(0x0a, [2] + rest);
    TwoBytes(rest);
    PartReads(body, 2, Entry([], []), 0x0a, Span(1, 3));
  }

  lemma DictField(d: seq<byte>, span: Span, es: seq<Entry>, e: Entry)
    requires ReadSpan(d) == Some(span) && ReadEntry(d[span.from..], span.to - span.from, Entry([], [])) == Some(e)
    ensures ReadField(Dict, 2, d, Entries(es)) == Some(Field(Entries(Put(es, e)), span.to))
  {
    hide ReadSpan, ReadEntry, Put;
  }

  lemma PutFirst(e: Entry)
    ensures Put([], e) == [e]
  {
  }

  lemma BorrowedField(rest: seq<byte>)
    requires |rest| >= 2
    ensures ReadField(Dict, 2, [2] + ([0x0a] + ([2] + rest)), Entries([])) ==
      Some(Field(Entries([Entry(rest[..2], [])]), 3))
  {
    hide *;
    var body := [0x0a] + ([2] + rest);
    TwoBytes(body);
    BorrowedPart(rest);
    DictField([2] + body, Span(1, 3), [], Entry(rest[..2], []));
    PutFirst(Entry(rest[..2], []));
  }

  /** A record of the first field of a message type. */
  lemma FirstFieldRecord(kinds: seq<Kind>, body: seq<byte>, f: Field)
    requires kinds != [] && !Numeric(kinds[0]) && ReadField(kinds[0], 2, body, Zero(kinds[0])) == Some(f)
    ensures ReadRecord(kinds, [0x0a] + body, Blank(kinds)) == Some(Message(Blank(kinds)[0 := f.v], 1 + f.n))
  {
    TenIsFieldOne();
    hide ReadVarint, ReadField, SkipFrom, FieldNum, WireType, Zero;
    SmallVarint(0x0a, body);
    assert Blank(kinds)[0] == Zero(kinds[0]);
  }

  lemma TenIsFieldOne()
    ensures FieldNum(0x0a) == 1 && WireType(0x0a) == 2
  {
  }

  /** A message with one map entry in its first field. */
  function OnlyKey(kinds: seq<Kind>, key: seq<byte>): (m: seq<Value>)
    requires kinds != [] && kinds[0].Dict?
    ensures Shaped(kinds, m)
  {
    Blank(kinds)[0 := Entries([Entry(key, [])])]
  }

  lemma BorrowedKey(kinds: seq<Kind>, rest: seq<byte>)
    requires |rest| >= 2 && kinds != [] && kinds[0] == Dict
    ensures ReadRecord(kinds, SHORT_ENTRY + rest, Blank(kinds)) == Some(Message(OnlyKey(kinds, rest[..2]), 4))
  {
    hide *;
    var body := [2] + ([0x0a] + ([2] + rest));
    ShortEntryBytes(rest);
    BorrowedField(rest);
    ZeroDict();
    FirstFieldRecord(kinds, body, Field(Entries([Entry(rest[..2], [])]), 3));
    KeyOnly(kinds, rest[..2]);
  }

  lemma KeyOnly(kinds: seq<Kind>, key: seq<byte>)
    requires kinds != [] && kinds[0].Dict?
    ensures OnlyKey(kinds, key) == Blank(kinds)[0 := Entries([Entry(key, [])])]
  {
  }

  lemma ZeroDict()
    ensures Zero(Dict) == Entries([]) && !Numeric(Dict)
  {
  }

  lemma ShortEntryBytes(rest: seq<byte>)
    ensures SHORT_ENTRY + rest == [0x0a] + ([2] + ([0x0a] + ([2] + rest)))
  {
  }

  /** The same entry with nothing behind it. */
  lemma ShortPart()
    ensures ReadEntry([0x0a] + [2], 2, Entry([], [])) == None
  {
    assert [2] == [2] + [];
    SmallVarint(2, []);
    assert ReadSpan([2]) == None && FieldNum(0x0a) == 1;
    hide ReadVarint, ReadSpan, SkipFrom, FieldNum;
    SmallVarint(0x0a, [2]);
    assert ReadPart([0x0a] + [2], 2, Entry([], [])) == None;
  }

  lemma ShortField()
    ensures ReadField(Dict, 2, [2] + ([0x0a] + [2]), Entries([])) == None
  {
    hide ReadVarint, ReadSpan, SkipFrom, ReadEntry;
    var body: seq<byte> := [0x0a] + [2];
    TwoBytes(body);
    ShortPart();
  }

  lemma ShortEntryAlone(kinds: seq<Kind>)
    requires kinds != [] && kinds[0] == Dict
    ensures Decode(kinds, SHORT_ENTRY, Blank(kinds)) == None
  {
    TenIsFieldOne();
    ShortField();
    ZeroDict();
    hide ReadVarint, ReadField, SkipFrom, FieldNum, WireType, Zero;
    var body: seq<byte> := [2] + ([0x0a] + [2]);
    SmallVarint(0x0a, body);
    assert SHORT_ENTRY == [0x0a] + body && Blank(kinds)[0] == Zero(kinds[0]);
  }

  /** Such a record exists for every message type that starts with a map: an entry of two bytes whose key is whatever
      two bytes come next, which are then read once more as what they are. */
  lemma UntidyEntry(kinds: seq<Kind>, rest: seq<byte>)
    requires kinds != [] && kinds[0] == Dict && |rest| >= 2
    ensures Decode(kinds, SHORT_ENTRY + rest, Blank(kinds)) == Decode(kinds, rest, OnlyKey(kinds, rest[..2]))
  {
    BorrowedKey(kinds, rest);
    assert (SHORT_ENTRY + rest)[4..] == rest;
    hide ReadRecord, OnlyKey, Blank, SHORT_ENTRY;
  }

  lemma UnknownLast(kinds: seq<Kind>, u: seq<byte>, m: seq<Value>)
    requires Shaped(kinds, m) && Unknown(kinds, u)
    ensures Decode(kinds, u, m) == Some(m)
  {
    UnknownSkipped(kinds, u, [], m);
    assert u + [] == u;
  }
}
