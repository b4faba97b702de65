/**
 Whatever the decoder accepts is a message that fits its types: numbers are in range
 and maps have each key once, even though the bytes may repeat fields, run past the
 end of a map entry or hold unknown fields.  So decoding, writing and decoding again
 gives the same message for every byte string.
 */
module CodecValid {
  import opened Basics
  import opened Wire
  import opened Codec
  import opened CodecRoundTrip

  lemma NumFits(k: Kind, v: nat)
    requires Numeric(k)
    ensures InRange(k, NumFrom(k, v))
  {
  }

  /** Assignment keeps every key once. */
  lemma {:induction false} PutOnce(es: seq<Entry>, e: Entry)
    requires OnceEach(es)
    ensures OnceEach(Put(es, e))
    ensures forall i :: 0 <= i < |Put(es, e)| ==> Put(es, e)[i] == e || Put(es, e)[i] in es
  {
    if es != [] && es[0].key != e.key {
      assert OnceEach(es[1..]);
      PutOnce(es[1..], e);
      forall i | 0 <= i < |Put(es[1..], e)| ensures Put(es[1..], e)[i].key != es[0].key {
        if Put(es[1..], e)[i] != e {
          var j :| 0 <= j < |es[1..]| && es[1..][j] == Put(es[1..], e)[i];
          assert es[j + 1] == es[1..][j];
        }
      }
    }
  }

  lemma BlankValid(kinds: seq<Kind>)
    ensures Valid(kinds, Blank(kinds))
  {
    forall i | 0 <= i < |kinds| ensures ValidValue(kinds[i], Blank(kinds)[i]) {
      assert Blank(kinds)[i] == Zero(kinds[i]);
    }
  }

  lemma {:induction false} FieldValid(k: Kind, wireType: nat, d: seq<byte>, v: Value)
    requires ShapedValue(k, v) && ValidValue(k, v) && ReadField(k, wireType, d, v).Some?
    ensures ValidValue(k, ReadField(k, wireType, d, v).value.v)
    decreases |d|, 0
  {
    hide ReadVarint, ReadSpan, ReadEntry, Decode, NumFrom, Put, OnceEach, InRange;
    if Numeric(k) {
      NumFits(k, ReadVarint(d).value.v);
    } else {
      var span := ReadSpan(d).value;
      var content := d[span.from..span.to];
      match k
      case Dict => PutOnce(v.entries, ReadEntry(d[span.from..], span.to - span.from, Entry([], [])).value);
      case One(fields) =>
        BlankValid(fields);
        DecodeValid(fields, content, if v.Nil? then Blank(fields) else v.msg);
      case Many(fields) =>
        BlankValid(fields);
        DecodeValid(fields, content, Blank(fields));
      case _ =>
    }
  }

  lemma {:induction false} RecordValid(kinds: seq<Kind>, d: seq<byte>, m: seq<Value>)
    requires Shaped(kinds, m) && Valid(kinds, m) && d != [] && ReadRecord(kinds, d, m).Some?
    ensures Valid(kinds, ReadRecord(kinds, d, m).value.m)
    decreases |d|, 1
  {
    hide ReadVarint, ReadField, SkipFrom, FieldNum, WireType, ValidValue;
    var tag := ReadVarint(d).value;
    var num := FieldNum(tag.v);
    if num <= |kinds| {
      FieldValid(kinds[num - 1], WireType(tag.v), d[tag.n..], m[num - 1]);
    }
  }

  /** Decoding into a valid message gives a valid message. */
  lemma {:induction false} DecodeValid(kinds: seq<Kind>, d: seq<byte>, m: seq<Value>)
    requires Shaped(kinds, m) && Valid(kinds, m) && Decode(kinds, d, m).Some?
    ensures Valid(kinds, Decode(kinds, d, m).value)
    decreases |d|, 2
  {
    hide ReadRecord, Valid;
    if d != [] {
      RecordValid(kinds, d, m);
      var r := ReadRecord(kinds, d, m).value;
      DecodeValid(kinds, d[r.n..], r.m);
    }
  }

  /** Whatever bytes a message was decoded from, it comes back from the bytes it is written as. */
  lemma DecodedRoundTrip(kinds: seq<Kind>, d: seq<byte>, m: seq<Value>)
    requires Schema(kinds) && Shaped(kinds, m) && Decode(kinds, d, Blank(kinds)) == Some(m) && Size(kinds, m) < TWO_63
    ensures Valid(kinds, m) && Decode(kinds, Encode(kinds, m), Blank(kinds)) == Some(m)
  {
    hide *;
    BlankValid(kinds);
    DecodeValid(kinds, d, Blank(kinds));
    RoundTrip(kinds, m);
  }
}
