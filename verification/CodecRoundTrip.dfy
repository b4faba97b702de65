/** Unmarshalling what was marshalled gives the message back, for every message type and every map order. */
module CodecRoundTrip {
  import opened Basics
  import opened Wire
  import opened Codec

  /** Numbers fit their types and maps have each key once. */
  predicate Valid(kinds: seq<Kind>, m: seq<Value>)
    requires Shaped(kinds, m)
    decreases kinds, 1
  {
    forall i | 0 <= i < |kinds| :: ValidValue(kinds[i], m[i])
  }

  predicate ValidValue(k: Kind, v: Value)
    requires ShapedValue(k, v)
    decreases k, 0
  {
    match k
    case Text => true
    case Texts => true
    case Dict => OnceEach(v.entries)
    case One(fields) => v.Nil? || Valid(fields, v.msg)
    case Many(fields) => forall i | 0 <= i < |v.msgs| :: Valid(fields, v.msgs[i])
    case _ => InRange(k, v.n)
  }

  predicate OnceEach(es: seq<Entry>) {
    forall i, j | 0 <= i < j < |es| :: es[i].key != es[j].key
  }

  // ----- one record -----

  lemma SpanRoundTrip(b: seq<byte>, rest: seq<byte>)
    requires |b| < TWO_63
    ensures var d := Delimited(b) + rest; var n := |Varint(|b|)|;
            ReadSpan(d) == Some(Span(n, n + |b|)) && d[n..n + |b|] == b && d[n..] == b + rest
            && |Delimited(b)| == n + |b|
  {
    var d := Delimited(b) + rest;
    assert d == Varint(|b|) + (b + rest);
    VarintRoundTrip(|b|, b + rest);
  }

  /** A record whose payload reads as `v` sets field `i` to `v` and leaves the rest to be read. */
  lemma RecordStep(kinds: seq<Kind>, i: nat, wireType: nat, p: seq<byte>, rest: seq<byte>, m: seq<Value>, v: Value)
    requires Schema(kinds) && Shaped(kinds, m) && i < |kinds| && wireType < 8 && wireType != 4
    requires ReadField(kinds[i], wireType, p + rest, m[i]) == Some(Field(v, |p|))
    ensures ShapedValue(kinds[i], v)
    ensures Decode(kinds, [Tag(i + 1, wireType)] + p + rest, m) == Decode(kinds, rest, m[i := v])
  {
    var d := [Tag(i + 1, wireType)] + p + rest;
    assert d == [Tag(i + 1, wireType)] + (p + rest);
    TagRoundTrip(i + 1, wireType, p + rest);
    assert d[1..] == p + rest;
    assert ReadRecord(kinds, d, m) == Some(Message(m[i := v], 1 + |p|));
    assert d[1 + |p|..] == rest;
  }

  lemma NumStep(kinds: seq<Kind>, i: nat, n: int, rest: seq<byte>, m: seq<Value>)
    requires Schema(kinds) && Shaped(kinds, m) && i < |kinds| && Numeric(kinds[i]) && InRange(kinds[i], n)
    ensures Decode(kinds, [Tag(i + 1, 0)] + Varint(AsU64(n)) + rest, m) == Decode(kinds, rest, m[i := Num(n)])
  {
    VarintRoundTrip(AsU64(n), rest);
    NumRoundTrip(kinds[i], n);
    RecordStep(kinds, i, 0, Varint(AsU64(n)), rest, m, Num(n));
  }

  lemma TextStep(kinds: seq<Kind>, i: nat, b: seq<byte>, rest: seq<byte>, m: seq<Value>)
    requires Schema(kinds) && Shaped(kinds, m) && i < |kinds| && kinds[i].Text? && |b| < TWO_63
    ensures Decode(kinds, Record(i + 1, b) + rest, m) == Decode(kinds, rest, m[i := Bytes(b)])
  {
    SpanRoundTrip(b, rest);
    RecordStep(kinds, i, 2, Delimited(b), rest, m, Bytes(b));
  }

  lemma StrStep(kinds: seq<Kind>, i: nat, b: seq<byte>, rest: seq<byte>, m: seq<Value>, had: seq<seq<byte>>)
    requires Schema(kinds) && Shaped(kinds, m) && i < |kinds| && kinds[i].Texts? && |b| < TWO_63 && m[i] == Strs(had)
    ensures Decode(kinds, Record(i + 1, b) + rest, m) == Decode(kinds, rest, m[i := Strs(had + [b])])
  {
    SpanRoundTrip(b, rest);
    RecordStep(kinds, i, 2, Delimited(b), rest, m, Strs(had + [b]));
  }

  lemma OneStep(kinds: seq<Kind>, i: nat, b: seq<byte>, msg: seq<Value>, rest: seq<byte>, m: seq<Value>)
    requires Schema(kinds) && Shaped(kinds, m) && i < |kinds| && kinds[i].One? && |b| < TWO_63 && m[i].Nil?
    requires Decode(kinds[i].fields, b, Blank(kinds[i].fields)) == Some(msg)
    ensures Decode(kinds, Record(i + 1, b) + rest, m) == Decode(kinds, rest, m[i := Sub(msg)])
  {
    SpanRoundTrip(b, rest);
    RecordStep(kinds, i, 2, Delimited(b), rest, m, Sub(msg));
  }

  lemma ManyStep(kinds: seq<Kind>, i: nat, b: seq<byte>, msg: seq<Value>, rest: seq<byte>, m: seq<Value>,
                 had: seq<seq<Value>>)
    requires Schema(kinds) && Shaped(kinds, m) && i < |kinds| && kinds[i].Many? && |b| < TWO_63 && m[i] == Subs(had)
    requires Decode(kinds[i].fields, b, Blank(kinds[i].fields)) == Some(msg)
    ensures Shaped(kinds, m[i := Subs(had + [msg])])
    ensures Decode(kinds, Record(i + 1, b) + rest, m) == Decode(kinds, rest, m[i := Subs(had + [msg])])
  {
    SpanRoundTrip(b, rest);
    RecordStep(kinds, i, 2, Delimited(b), rest, m, Subs(had + [msg]));
  }

  // ----- map entries -----

  lemma PartRoundTrip(num: nat, b: seq<byte>, rest: seq<byte>, left: int, e: Entry)
    requires (num == 1 || num == 2) && |b| < TWO_63 && left <= |Record(num, b) + rest|
    ensures ReadPart(Record(num, b) + rest, left, e)
            == Some(Part(if num == 1 then e.(key := b) else e.(val := b), |Record(num, b)|))
  {
    hide ReadVarint, ReadSpan, SkipFrom, Varint, FieldNum, ReadPart, Tag;
    var d := Record(num, b) + rest;
    var body := Delimited(b) + rest;
    var n := |Varint(|b|)|;
    assert d == [Tag(num, 2)] + body && d[1..] == body;
    TagRoundTrip(num, 2, body);
    SpanRoundTrip(b, rest);
    PartReads(d, left, e, Tag(num, 2), Span(n, n + |b|));
  }

  lemma PartStep(num: nat, b: seq<byte>, rest: seq<byte>, left: int, e: Entry)
    requires (num == 1 || num == 2) && |b| < TWO_63 && 0 < left <= |Record(num, b) + rest|
    ensures ReadEntry(Record(num, b) + rest, left, e)
            == ReadEntry(rest, left - |Record(num, b)|, if num == 1 then e.(key := b) else e.(val := b))
  {
    hide ReadPart, Record;
    var d := Record(num, b) + rest;
    PartRoundTrip(num, b, rest, left, e);
    assert d[|Record(num, b)|..] == rest;
  }

  lemma EntryRoundTrip(e: Entry, rest: seq<byte>)
    requires |EncodeEntry(e)| < TWO_63
    ensures ReadEntry(EncodeEntry(e) + rest, |EncodeEntry(e)|, Entry([], [])) == Some(e)
  {
    var tail := if e.val == [] then [] else Record(2, e.val);
    var d := EncodeEntry(e) + rest;
    assert d == Record(1, e.key) + (tail + rest);
    PartStep(1, e.key, tail + rest, |EncodeEntry(e)|, Entry([], []));
    if e.val == [] {
      assert tail + rest == rest;
    } else {
      PartStep(2, e.val, rest, |tail|, Entry(e.key, []));
    }
  }

  lemma {:induction false} PutNew(es: seq<Entry>, e: Entry)
    requires forall i | 0 <= i < |es| :: es[i].key != e.key
    ensures Put(es, e) == es + [e]
  {
    if es != [] {
      PutNew(es[1..], e);
    }
  }

  lemma EntryStep(kinds: seq<Kind>, i: nat, e: Entry, rest: seq<byte>, m: seq<Value>, had: seq<Entry>)
    requires Schema(kinds) && Shaped(kinds, m) && i < |kinds| && kinds[i].Dict? && |EncodeEntry(e)| < TWO_63
    requires m[i] == Entries(had) && forall j | 0 <= j < |had| :: had[j].key != e.key
    ensures Decode(kinds, Record(i + 1, EncodeEntry(e)) + rest, m) == Decode(kinds, rest, m[i := Entries(had + [e])])
  {
    var b := EncodeEntry(e);
    SpanRoundTrip(b, rest);
    EntryRoundTrip(e, rest);
    PutNew(had, e);
    hide ReadEntry, ReadSpan, EncodeEntry, Varint, ReadVarint;
    EntryField(b, e, rest, had);
    RecordStep(kinds, i, 2, Delimited(b), rest, m, Entries(had + [e]));
  }

  lemma EntryField(b: seq<byte>, e: Entry, rest: seq<byte>, had: seq<Entry>)
    requires |b| < TWO_63 && ReadEntry(b + rest, |b|, Entry([], [])) == Some(e) && Put(had, e) == had + [e]
    ensures ReadField(Dict, 2, Delimited(b) + rest, Entries(had)) == Some(Field(Entries(had + [e]), |Delimited(b)|))
  {
    hide ReadEntry, ReadSpan, Varint, ReadVarint, Put;
    SpanRoundTrip(b, rest);
  }

  // ----- repeated fields -----

  lemma {:induction false} StrsStep(kinds: seq<Kind>, i: nat, ss: seq<seq<byte>>, rest: seq<byte>, m: seq<Value>,
                                    had: seq<seq<byte>>)
    requires Schema(kinds) && Shaped(kinds, m) && i < |kinds| && kinds[i].Texts? && |EncodeStrs(i + 1, ss)| < TWO_63
    requires m[i] == Strs(had)
    ensures Decode(kinds, EncodeStrs(i + 1, ss) + rest, m) == Decode(kinds, rest, m[i := Strs(had + ss)])
    decreases |ss|
  {
    hide Decode;
    if ss == [] {
      assert EncodeStrs(i + 1, ss) + rest == rest && had + ss == had;
      assert m[i := Strs(had + ss)] == m;
    } else {
      var tail := EncodeStrs(i + 1, ss[1..]);
      assert EncodeStrs(i + 1, ss) + rest == Record(i + 1, ss[0]) + (tail + rest);
      StrStep(kinds, i, ss[0], tail + rest, m, had);
      var m1 := m[i := Strs(had + [ss[0]])];
      StrsStep(kinds, i, ss[1..], rest, m1, had + [ss[0]]);
      assert had + [ss[0]] + ss[1..] == had + ss;
      assert m1[i := Strs(had + ss)] == m[i := Strs(had + ss)];
    }
  }

  lemma {:induction false} EntriesStep(kinds: seq<Kind>, i: nat, es: seq<Entry>, rest: seq<byte>, m: seq<Value>,
                                       had: seq<Entry>)
    requires Schema(kinds) && Shaped(kinds, m) && i < |kinds| && kinds[i].Dict? && |EncodeEntries(i + 1, es)| < TWO_63
    requires m[i] == Entries(had) && OnceEach(had + es)
    ensures Decode(kinds, EncodeEntries(i + 1, es) + rest, m) == Decode(kinds, rest, m[i := Entries(had + es)])
    decreases |es|
  {
    hide Decode, EncodeEntry;
    if es == [] {
      assert EncodeEntries(i + 1, es) + rest == rest && had + es == had;
      assert m[i := Entries(had + es)] == m;
    } else {
      var tail := EncodeEntries(i + 1, es[1..]);
      assert EncodeEntries(i + 1, es) + rest == Record(i + 1, EncodeEntry(es[0])) + (tail + rest);
      assert (had + es)[|had|] == es[0] && forall j | 0 <= j < |had| :: (had + es)[j] == had[j];
      EntryStep(kinds, i, es[0], tail + rest, m, had);
      var m1 := m[i := Entries(had + [es[0]])];
      assert had + [es[0]] + es[1..] == had + es;
      EntriesStep(kinds, i, es[1..], rest, m1, had + [es[0]]);
      assert m1[i := Entries(had + es)] == m[i := Entries(had + es)];
    }
  }

  // ----- messages -----

  /** The message with the fields before position `i` set. */
  function Upto(kinds: seq<Kind>, m: seq<Value>, i: nat): seq<Value>
    requires Shaped(kinds, m) && i <= |kinds|
  {
    m[..i] + Blank(kinds)[i..]
  }

  lemma UptoShaped(kinds: seq<Kind>, m: seq<Value>, i: nat)
    requires Shaped(kinds, m) && i <= |kinds|
    ensures Shaped(kinds, Upto(kinds, m, i))
    ensures i < |kinds| ==>
              Upto(kinds, m, i)[i] == Zero(kinds[i]) && Upto(kinds, m, i)[i := m[i]] == Upto(kinds, m, i + 1)
  {
    var u := Upto(kinds, m, i);
    forall j | 0 <= j < |kinds| ensures ShapedValue(kinds[j], u[j]) {
      assert u[j] == if j < i then m[j] else Zero(kinds[j]);
    }
  }

  lemma {:induction false} MsgsStep(kinds: seq<Kind>, i: nat, msgs: seq<seq<Value>>, rest: seq<byte>, m: seq<Value>,
                                    had: seq<seq<Value>>)
    requires Schema(kinds) && Shaped(kinds, m) && i < |kinds| && kinds[i].Many? && m[i] == Subs(had)
    requires Schema(kinds[i].fields)
    requires forall j | 0 <= j < |msgs| :: Shaped(kinds[i].fields, msgs[j]) && Valid(kinds[i].fields, msgs[j])
    requires |EncodeMsgs(kinds[i].fields, i + 1, msgs)| < TWO_63
    ensures Shaped(kinds, m[i := Subs(had + msgs)])
    ensures Decode(kinds, EncodeMsgs(kinds[i].fields, i + 1, msgs) + rest, m) ==
      Decode(kinds, rest, m[i := Subs(had + msgs)])
    decreases kinds[i].fields, |kinds[i].fields| + 1, |msgs|
  {
    hide Decode, EncodeFrom;
    var fields := kinds[i].fields;
    if msgs == [] {
      assert EncodeMsgs(fields, i + 1, msgs) + rest == rest && had + msgs == had;
      assert m[i := Subs(had + msgs)] == m;
    } else {
      var b := EncodeFrom(fields, msgs[0], 0);
      var tail := EncodeMsgs(fields, i + 1, msgs[1..]);
      assert EncodeMsgs(fields, i + 1, msgs) + rest == Record(i + 1, b) + (tail + rest);
      MessageRoundTrip(fields, msgs[0]);
      ManyStep(kinds, i, b, msgs[0], tail + rest, m, had);
      var m1 := m[i := Subs(had + [msgs[0]])];
      MsgsStep(kinds, i, msgs[1..], rest, m1, had + [msgs[0]]);
      assert had + [msgs[0]] + msgs[1..] == had + msgs;
      assert m1[i := Subs(had + msgs)] == m[i := Subs(had + msgs)];
    }
  }

  lemma {:induction false} ValueStep(kinds: seq<Kind>, i: nat, v: Value, rest: seq<byte>, m: seq<Value>)
    requires Schema(kinds) && Shaped(kinds, m) && i < |kinds| && m[i] == Zero(kinds[i])
    requires ShapedValue(kinds[i], v) && ValidValue(kinds[i], v)
    requires kinds[i].One? || kinds[i].Many? ==> Schema(kinds[i].fields)
    requires |EncodeValue(kinds[i], i + 1, v)| < TWO_63
    ensures Shaped(kinds, m[i := v])
    ensures Decode(kinds, EncodeValue(kinds[i], i + 1, v) + rest, m) == Decode(kinds, rest, m[i := v])
    decreases kinds[i], 1, 0
  {
    hide Decode;
    var d := EncodeValue(kinds[i], i + 1, v);
    if d == [] {
      assert d + rest == rest;
      assert m[i := v] == m;
    } else {
      match kinds[i]
      case Text => TextStep(kinds, i, v.b, rest, m);
      case Texts =>
        assert [] + v.strs == v.strs;
        StrsStep(kinds, i, v.strs, rest, m, []);
      case Dict =>
        assert [] + v.entries == v.entries;
        EntriesStep(kinds, i, v.entries, rest, m, []);
      case One(fields) =>
        MessageRoundTrip(fields, v.msg);
        OneStep(kinds, i, EncodeFrom(fields, v.msg, 0), v.msg, rest, m);
      case Many(fields) =>
        assert [] + v.msgs == v.msgs;
        MsgsStep(kinds, i, v.msgs, rest, m, []);
      case _ => NumStep(kinds, i, v.n, rest, m);
    }
  }

  lemma {:induction false} FieldsRoundTrip(kinds: seq<Kind>, m: seq<Value>, i: nat)
    requires Schema(kinds) && Shaped(kinds, m) && Valid(kinds, m) && i <= |kinds|
    requires |EncodeFrom(kinds, m, i)| < TWO_63
    ensures Shaped(kinds, Upto(kinds, m, i))
    ensures Decode(kinds, EncodeFrom(kinds, m, i), Upto(kinds, m, i)) == Some(m)
    decreases kinds, |kinds| - i, 0
  {
    UptoShaped(kinds, m, i);
    if i == |kinds| {
      assert Upto(kinds, m, i) == m;
    } else {
      hide Decode, EncodeValue, Upto, Blank;
      ValueStep(kinds, i, m[i], EncodeFrom(kinds, m, i + 1), Upto(kinds, m, i));
      FieldsRoundTrip(kinds, m, i + 1);
    }
  }

  lemma {:induction false} MessageRoundTrip(kinds: seq<Kind>, m: seq<Value>)
    requires Schema(kinds) && Shaped(kinds, m) && Valid(kinds, m) && |EncodeFrom(kinds, m, 0)| < TWO_63
    ensures Decode(kinds, EncodeFrom(kinds, m, 0), Blank(kinds)) == Some(m)
    decreases kinds, |kinds|, 1
  {
    hide Decode, EncodeFrom;
    FieldsRoundTrip(kinds, m, 0);
    assert Upto(kinds, m, 0) == Blank(kinds);
  }

  /** For every message and every map order, unmarshalling the marshalled bytes gives the message back. */
  lemma RoundTrip(kinds: seq<Kind>, m: seq<Value>)
    requires Schema(kinds) && Shaped(kinds, m) && Valid(kinds, m) && Size(kinds, m) < TWO_63
    ensures Decode(kinds, Encode(kinds, m), Blank(kinds)) == Some(m)
  {
    SizeIsLength(kinds, m);
    MessageRoundTrip(kinds, m);
  }
}
