/**
 The generated protobuf codec for all message types of the engine.  A message type
 is the list of its field kinds, field numbers counting from one; a message is the
 list of its field values.  A map field is the list of its entries in the order in
 which the bytes hold them, so a statement about every message is one about every
 map iteration order.  Which of its errors the decoder reports is not modelled.
 */
module Codec {
  import opened Basics
  import opened Wire

  datatype Kind =
    | Int32 | Uint32 | Uint64 | Int64    // int32 stands for the enumerations, too
    | Text                               // string or bytes
    | Texts                              // repeated string
    | Dict                               // map<string, bytes>
    | One(fields: seq<Kind>)             // optional message
    | Many(fields: seq<Kind>)            // repeated message

  datatype Entry = Entry(key: seq<byte>, val: seq<byte>)

  datatype Value =
    | Num(n: int)
    | Bytes(b: seq<byte>)
    | Strs(strs: seq<seq<byte>>)
    | Entries(entries: seq<Entry>)
    | Nil
    | Sub(msg: seq<Value>)
    | Subs(msgs: seq<seq<Value>>)

  // ----- message types and messages -----

  predicate Numeric(k: Kind) {
    k.Int32? || k.Uint32? || k.Uint64? || k.Int64?
  }

  /** Field numbers below 16, so that every tag is one byte. */
  predicate Schema(kinds: seq<Kind>) {
    |kinds| < 16 && forall i | 0 <= i < |kinds| :: (kinds[i].One? || kinds[i].Many? ==> Schema(kinds[i].fields))
  }

  predicate Shaped(kinds: seq<Kind>, m: seq<Value>)
    decreases kinds, 1
  {
    |m| == |kinds| && forall i | 0 <= i < |kinds| :: ShapedValue(kinds[i], m[i])
  }

  predicate ShapedValue(k: Kind, v: Value)
    decreases k, 0
  {
    match k
    case Text => v.Bytes?
    case Texts => v.Strs?
    case Dict => v.Entries?
    case One(fields) => v.Nil? || (v.Sub? && Shaped(fields, v.msg))
    case Many(fields) => v.Subs? && forall i | 0 <= i < |v.msgs| :: Shaped(fields, v.msgs[i])
    case _ => v.Num?
  }

  /** The zero value of a field. */
  function Zero(k: Kind): (v: Value)
    ensures ShapedValue(k, v)
  {
    match k
    case Text => Bytes([])
    case Texts => Strs([])
    case Dict => Entries([])
    case One(_) => Nil
    case Many(_) => Subs([])
    case _ => Num(0)
  }

  function Blank(kinds: seq<Kind>): (m: seq<Value>)
    ensures Shaped(kinds, m)
  {
    seq(|kinds|, i requires 0 <= i < |kinds| => Zero(kinds[i]))
  }

  // ----- numbers -----

  predicate InRange(k: Kind, n: int) {
    match k
    case Int32 => -TWO_31 <= n < TWO_31
    case Uint32 => 0 <= n < TWO_32
    case Uint64 => 0 <= n < TWO_64
    case Int64 => -TWO_63 <= n < TWO_63
    case _ => false
  }

  /** uint64(n): negative numbers are sign-extended. */
  function AsU64(n: int): (r: nat)
    ensures r < TWO_64
  {
    n % TWO_64
  }

  /** The low bits of a varint, as the field's type reads them. */
  function NumFrom(k: Kind, v: nat): int {
    match k
    case Int32 => (var w := v % TWO_32; if w < TWO_31 then w else w - TWO_32)
    case Uint32 => v % TWO_32
    case Int64 => (var w := v % TWO_64; if w < TWO_63 then w else w - TWO_64)
    case _ => v % TWO_64
  }

  lemma NumRoundTrip(k: Kind, n: int)
    requires InRange(k, n)
    ensures NumFrom(k, AsU64(n)) == n
  {
    if n < 0 {
      assert AsU64(n) == n + TWO_64;
      if k.Int32? {
        assert (n + TWO_64) % TWO_32 == n + TWO_32;
      }
    }
  }

  // ----- encoding -----

  function Delimited(b: seq<byte>): seq<byte> {
    Varint(|b|) + b
  }

  function Record(num: nat, b: seq<byte>): seq<byte>
    requires 0 < num < 16
  {
    [Tag(num, 2)] + Delimited(b)
  }

  /** An empty map value is not written. */
  function EncodeEntry(e: Entry): seq<byte> {
    Record(1, e.key) + if e.val == [] then [] else Record(2, e.val)
  }

  function EncodeEntries(num: nat, es: seq<Entry>): seq<byte>
    requires 0 < num < 16
  {
    if es == [] then [] else Record(num, EncodeEntry(es[0])) + EncodeEntries(num, es[1..])
  }

  function EncodeStrs(num: nat, ss: seq<seq<byte>>): seq<byte>
    requires 0 < num < 16
  {
    if ss == [] then [] else Record(num, ss[0]) + EncodeStrs(num, ss[1..])
  }

  function EncodeValue(k: Kind, num: nat, v: Value): seq<byte>
    requires ShapedValue(k, v) && 0 < num < 16 && (k.One? || k.Many? ==> Schema(k.fields))
    decreases k, 0, 0
  {
    match k
    case Text => if v.b == [] then [] else Record(num, v.b)
    case Texts => EncodeStrs(num, v.strs)
    case Dict => EncodeEntries(num, v.entries)
    case One(fields) => if v.Nil? then [] else Record(num, EncodeFrom(fields, v.msg, 0))
    case Many(fields) => EncodeMsgs(fields, num, v.msgs)
    case _ => if v.n == 0 then [] else [Tag(num, 0)] + Varint(AsU64(v.n))
  }

  function EncodeMsgs(fields: seq<Kind>, num: nat, msgs: seq<seq<Value>>): seq<byte>
    requires 0 < num < 16 && Schema(fields) && forall i | 0 <= i < |msgs| :: Shaped(fields, msgs[i])
    decreases fields, |fields| + 1, |msgs|
  {
    if msgs == [] then [] else Record(num, EncodeFrom(fields, msgs[0], 0)) + EncodeMsgs(fields, num, msgs[1..])
  }

  /** The fields from position `i` on, in the order of their numbers. */
  function EncodeFrom(kinds: seq<Kind>, m: seq<Value>, i: nat): seq<byte>
    requires Schema(kinds) && Shaped(kinds, m) && i <= |kinds|
    decreases kinds, |kinds| - i, 0
  {
    if i == |kinds| then [] else EncodeValue(kinds[i], i + 1, m[i]) + EncodeFrom(kinds, m, i + 1)
  }

  function Encode(kinds: seq<Kind>, m: seq<Value>): seq<byte>
    requires Schema(kinds) && Shaped(kinds, m)
  {
    EncodeFrom(kinds, m, 0)
  }

  // ----- Size() -----

  function SizeRecord(len: nat): nat {
    1 + len + Sov(len)
  }

  function SizeEntry(e: Entry): nat {
    1 + |e.key| + Sov(|e.key|) + if |e.val| > 0 then 1 + |e.val| + Sov(|e.val|) else 0
  }

  function SizeEntries(es: seq<Entry>): nat {
    if es == [] then 0 else SizeEntry(es[0]) + 1 + Sov(SizeEntry(es[0])) + SizeEntries(es[1..])
  }

  function SizeStrs(ss: seq<seq<byte>>): nat {
    if ss == [] then 0 else SizeRecord(|ss[0]|) + SizeStrs(ss[1..])
  }

  function SizeValue(k: Kind, v: Value): nat
    requires ShapedValue(k, v)
    decreases k, 0, 0
  {
    match k
    case Text => if |v.b| > 0 then SizeRecord(|v.b|) else 0
    case Texts => SizeStrs(v.strs)
    case Dict => SizeEntries(v.entries)
    case One(fields) => if v.Nil? then 0 else SizeRecord(SizeFrom(fields, v.msg, 0))
    case Many(fields) => SizeMsgs(fields, v.msgs)
    case _ => if v.n == 0 then 0 else 1 + Sov(AsU64(v.n))
  }

  function SizeMsgs(fields: seq<Kind>, msgs: seq<seq<Value>>): nat
    requires forall i | 0 <= i < |msgs| :: Shaped(fields, msgs[i])
    decreases fields, |fields| + 1, |msgs|
  {
    if msgs == [] then 0 else SizeRecord(SizeFrom(fields, msgs[0], 0)) + SizeMsgs(fields, msgs[1..])
  }

  function SizeFrom(kinds: seq<Kind>, m: seq<Value>, i: nat): nat
    requires Shaped(kinds, m) && i <= |kinds|
    decreases kinds, |kinds| - i, 0
  {
    if i == |kinds| then 0 else SizeValue(kinds[i], m[i]) + SizeFrom(kinds, m, i + 1)
  }

  function Size(kinds: seq<Kind>, m: seq<Value>): nat
    requires Shaped(kinds, m)
  {
    SizeFrom(kinds, m, 0)
  }

  lemma RecordLength(num: nat, b: seq<byte>)
    requires 0 < num < 16
    ensures |Record(num, b)| == SizeRecord(|b|)
  {
    SovIsLength(|b|);
  }

  lemma EntryLength(e: Entry)
    ensures |EncodeEntry(e)| == SizeEntry(e)
  {
    RecordLength(1, e.key);
    RecordLength(2, e.val);
  }

  lemma {:induction false} EntriesLength(num: nat, es: seq<Entry>)
    requires 0 < num < 16
    ensures |EncodeEntries(num, es)| == SizeEntries(es)
  {
    if es != [] {
      EntryLength(es[0]);
      RecordLength(num, EncodeEntry(es[0]));
      EntriesLength(num, es[1..]);
    }
  }

  lemma {:induction false} StrsLength(num: nat, ss: seq<seq<byte>>)
    requires 0 < num < 16
    ensures |EncodeStrs(num, ss)| == SizeStrs(ss)
  {
    if ss != [] {
      RecordLength(num, ss[0]);
      StrsLength(num, ss[1..]);
    }
  }

  lemma {:induction false} ValueLength(k: Kind, num: nat, v: Value)
    requires ShapedValue(k, v) && 0 < num < 16 && (k.One? || k.Many? ==> Schema(k.fields))
    ensures |EncodeValue(k, num, v)| == SizeValue(k, v)
    decreases k, 0, 0
  {
    match k
    case Text => RecordLength(num, v.b);
    case Texts => StrsLength(num, v.strs);
    case Dict => EntriesLength(num, v.entries);
    case One(fields) =>
      if v.Sub? {
        LengthFrom(fields, v.msg, 0);
        RecordLength(num, EncodeFrom(fields, v.msg, 0));
      }
    case Many(fields) => MsgsLength(fields, num, v.msgs);
    case _ => SovIsLength(AsU64(v.n));
  }

  lemma {:induction false} MsgsLength(fields: seq<Kind>, num: nat, msgs: seq<seq<Value>>)
    requires 0 < num < 16 && Schema(fields) && forall i | 0 <= i < |msgs| :: Shaped(fields, msgs[i])
    ensures |EncodeMsgs(fields, num, msgs)| == SizeMsgs(fields, msgs)
    decreases fields, |fields| + 1, |msgs|
  {
    if msgs != [] {
      LengthFrom(fields, msgs[0], 0);
      RecordLength(num, EncodeFrom(fields, msgs[0], 0));
      MsgsLength(fields, num, msgs[1..]);
    }
  }

  lemma {:induction false} LengthFrom(kinds: seq<Kind>, m: seq<Value>, i: nat)
    requires Schema(kinds) && Shaped(kinds, m) && i <= |kinds|
    ensures |EncodeFrom(kinds, m, i)| == SizeFrom(kinds, m, i)
    decreases kinds, |kinds| - i, 0
  {
    if i < |kinds| {
      ValueLength(kinds[i], i + 1, m[i]);
      LengthFrom(kinds, m, i + 1);
    }
  }

  /** Size() is the number of bytes that marshalling writes. */
  lemma SizeIsLength(kinds: seq<Kind>, m: seq<Value>)
    requires Schema(kinds) && Shaped(kinds, m)
    ensures |Encode(kinds, m)| == Size(kinds, m)
  {
    LengthFrom(kinds, m, 0);
  }

  // ----- decoding -----

  /** A length-delimited record: where its content starts and ends. */
  datatype Span = Span(from: nat, to: nat)

  function ReadSpan(d: seq<byte>): (r: Option<Span>)
    ensures r.Some? ==> 0 < r.value.from <= r.value.to <= |d|
  {
    match ReadVarint(d)
    case None => None
    case Some(r) => if r.v >= TWO_63 || r.n + r.v > |d| then None else Some(Span(r.n, r.n + r.v))
  }

  /** Assignment to a map. */
  function Put(es: seq<Entry>, e: Entry): seq<Entry> {
    if es == [] then [e]
    else if es[0].key == e.key then [e] + es[1..]
    else [es[0]] + Put(es[1..], e)
  }

  /** A map entry after one more part, and the bytes the part took. */
  datatype Part = Part(e: Entry, n: nat)

  /** Key or value of a map entry of which `left` bytes remain.  It is only checked against the end of the whole
      message, and its wire type is not checked at all. */
  function ReadPart(d: seq<byte>, left: int, e: Entry): (r: Option<Part>)
    requires left <= |d|
    ensures r.Some? ==> 0 < r.value.n <= |d|
  {
    match ReadVarint(d)
    case None => None
    case Some(tag) =>
      if FieldNum(tag.v) == 1 || FieldNum(tag.v) == 2 then
        match ReadSpan(d[tag.n..])
        case None => None
        case Some(span) =>
          var part := d[tag.n..][span.from..span.to];
          Some(Part(if FieldNum(tag.v) == 1 then e.(key := part) else e.(val := part), tag.n + span.to))
      else
        match SkipFrom(d, 0)
        case None => None
        case Some(n) => if n > left then None else Some(Part(e, n))
  }

  /** A part with the tag of key or value and well-delimited content. */
  lemma PartReads(d: seq<byte>, left: int, e: Entry, tag: nat, span: Span)
    requires left <= |d| && ReadVarint(d) == Some(Read(tag, 1)) && (FieldNum(tag) == 1 || FieldNum(tag) == 2)
    requires ReadSpan(d[1..]) == Some(span)
    ensures var b := d[1..][span.from..span.to];
            ReadPart(d, left, e) == Some(Part(if FieldNum(tag) == 1 then e.(key := b) else e.(val := b), 1 + span.to))
  {
    hide ReadVarint, ReadSpan, SkipFrom, FieldNum;
  }

  function ReadEntry(d: seq<byte>, left: int, e: Entry): Option<Entry>
    requires left <= |d|
    decreases |d|
  {
    if left <= 0 then Some(e)
    else match ReadPart(d, left, e)
         case None => None
         case Some(p) => ReadEntry(d[p.n..], left - p.n, p.e)
  }

  /** A field value after one more record, and the bytes the record took. */
  datatype Field = Field(v: Value, n: nat)

  datatype Message = Message(m: seq<Value>, n: nat)

  function ReadField(k: Kind, wireType: nat, d: seq<byte>, v: Value): (r: Option<Field>)
    requires ShapedValue(k, v)
    ensures r.Some? ==> ShapedValue(k, r.value.v) && r.value.n <= |d|
    decreases |d|, 0
  {
    if Numeric(k) then
      if wireType != 0 then None
      else match ReadVarint(d)
           case None => None
           case Some(r) => Some(Field(Num(NumFrom(k, r.v)), r.n))
    else if wireType != 2 then None
    else match ReadSpan(d)
         case None => None
         case Some(span) =>
           var content := d[span.from..span.to];
           match k
           case Text => Some(Field(Bytes(content), span.to))
           case Texts => Some(Field(Strs(v.strs + [content]), span.to))
           case Dict =>
             (match ReadEntry(d[span.from..], span.to - span.from, Entry([], []))
              case None => None
              case Some(e) => Some(Field(Entries(Put(v.entries, e)), span.to)))
           case One(fields) =>
             (match Decode(fields, content, if v.Nil? then Blank(fields) else v.msg)
              case None => None
              case Some(m) => Some(Field(Sub(m), span.to)))
           case Many(fields) =>
             (match Decode(fields, content, Blank(fields))
              case None => None
              case Some(m) => Some(Field(Subs(v.msgs + [m]), span.to)))
  }

  /** One iteration of Unmarshal: a record of a known field, or a skipped one. */
  function ReadRecord(kinds: seq<Kind>, d: seq<byte>, m: seq<Value>): (r: Option<Message>)
    requires Shaped(kinds, m) && d != []
    ensures r.Some? ==> Shaped(kinds, r.value.m) && 0 < r.value.n <= |d|
    decreases |d|, 1
  {
    match ReadVarint(d)
    case None => None
    case Some(tag) =>
      var num := FieldNum(tag.v);
      if WireType(tag.v) == 4 || num <= 0 then None
      else if num <= |kinds| then
        match ReadField(kinds[num - 1], WireType(tag.v), d[tag.n..], m[num - 1])
        case None => None
        case Some(f) => Some(Message(m[num - 1 := f.v], tag.n + f.n))
      else
        match SkipFrom(d, 0)
        case None => None
        case Some(n) => if n > |d| then None else Some(Message(m, n))
  }

  /** Unmarshal into a message: fields that are set before are merged. */
  function Decode(kinds: seq<Kind>, d: seq<byte>, m: seq<Value>): (r: Option<seq<Value>>)
    requires Shaped(kinds, m)
    ensures r.Some? ==> Shaped(kinds, r.value)
    decreases |d|, 2
  {
    if d == [] then Some(m)
    else match ReadRecord(kinds, d, m)
         case None => None
         case Some(r) => Decode(kinds, d[r.n..], r.m)
  }
}
