/**
 Marshalling as the generated code does it: fields, entries and bytes are written
 from the back of the buffer to its front.
 */
module Marshal {
  import opened Wire
  import opened Codec

  /** `now` is `was` with the bytes written from `j` up to `i`. */
  predicate Wrote(was: seq<byte>, now: seq<byte>, i: nat, j: nat, bytes: seq<byte>) {
    j <= i <= |was| && |bytes| == i - j && now == was[..j] + bytes + was[i..]
  }

  /** One piece written in front of another. */
  lemma Compose(a: seq<byte>, b: seq<byte>, c: seq<byte>, i: nat, j: nat, k: nat, x: seq<byte>, y: seq<byte>)
    requires Wrote(a, b, i, j, x) && Wrote(b, c, j, k, y)
    ensures Wrote(a, c, i, k, y + x)
  {
    assert b[..k] == a[..k];
    assert b[j..] == x + a[i..];
    assert c == a[..k] + (y + x) + a[i..];
  }

  lemma Nothing(a: seq<byte>, i: nat)
    requires i <= |a|
    ensures Wrote(a, a, i, i, [])
  {
    assert a == a[..i] + [] + a[i..];
  }

  /** A piece of which the bytes up to `offset` are written. */
  predicate Begun(was: seq<byte>, now: seq<byte>, base: nat, offset: nat, all: seq<byte>) {
    && base <= offset <= |was| && offset - base <= |all|
    && now == was[..base] + all[..offset - base] + was[offset..]
  }

  lemma Begin(was: seq<byte>, base: nat, all: seq<byte>)
    requires base <= |was|
    ensures Begun(was, was, base, base, all)
  {
    assert was == was[..base] + all[..0] + was[base..];
  }

  lemma Continue(was: seq<byte>, now: seq<byte>, base: nat, offset: nat, all: seq<byte>)
    requires Begun(was, now, base, offset, all) && offset < |was| && offset - base < |all|
    ensures |now| == |was| && Begun(was, now[offset := all[offset - base]], base, offset + 1, all)
  {
  }

  lemma Finish(was: seq<byte>, now: seq<byte>, base: nat, i: nat, all: seq<byte>)
    requires Begun(was, now, base, i, all) && i - base == |all|
    ensures Wrote(was, now, i, base, all)
  {
    assert all[..i - base] == all;
  }

  method StoreByte(buf: array<byte>, at: nat, b: byte)
    requires at < buf.Length
    modifies buf
    ensures buf[..] == old(buf[..])[at := b]
  {
    buf[at] := b;
  }

  /** encodeVarintDockervmMessage. */
  method EncodeVarint(buf: array<byte>, i: nat, v: nat) returns (base: nat)
    requires Sov(v) <= i <= buf.Length
    modifies buf
    ensures Wrote(old(buf[..]), buf[..], i, base, Varint(v))
  {
    ghost var was, all := buf[..], Varint(v);
    assert |all| == Sov(v) by { SovIsLength(v); }
    hide Sov, Begun, Wrote, Varint;
    base := i - Sov(v);
    var offset, w := base, v;
    Begin(was, base, all);
    while w >= 128
      invariant base <= offset < i && all[offset - base..] == Varint(w)
      invariant Begun(was, buf[..], base, offset, all)
      decreases w
    {
      VarintStep(all, offset - base, w);
      Continue(was, buf[..], base, offset, all);
      StoreByte(buf, offset, w % 128 + 128);
      w := w / 128;
      offset := offset + 1;
    }
    VarintEnd(all, offset - base, w);
    Continue(was, buf[..], base, offset, all);
    StoreByte(buf, offset, w);
    Finish(was, buf[..], base, i, all);
  }

  lemma VarintStep(all: seq<byte>, k: nat, w: nat)
    requires k < |all| && all[k..] == Varint(w) && w >= 128
    ensures k + 1 < |all| && all[k] == w % 128 + 128 && all[k + 1..] == Varint(w / 128)
  {
    assert all[k + 1..] == all[k..][1..];
    assert all[k] == all[k..][0];
  }

  lemma VarintEnd(all: seq<byte>, k: nat, w: nat)
    requires k < |all| && all[k..] == Varint(w) && w < 128
    ensures k + 1 == |all| && all[k] == w
  {
    assert all[k] == all[k..][0];
  }

  method PutByte(buf: array<byte>, i: nat, b: byte) returns (j: nat)
    requires 0 < i <= buf.Length
    modifies buf
    ensures Wrote(old(buf[..]), buf[..], i, j, [b])
  {
    j := i - 1;
    buf[j] := b;
    assert buf[..] == old(buf[..])[..j] + [b] + old(buf[..])[i..];
  }

  /** copy(dAtA[i:], bytes). */
  method PutBytes(buf: array<byte>, i: nat, bytes: seq<byte>) returns (j: nat)
    requires |bytes| <= i <= buf.Length
    modifies buf
    ensures Wrote(old(buf[..]), buf[..], i, j, bytes)
  {
    hide Begun, Wrote;
    j := i - |bytes|;
    ghost var was := buf[..];
    Begin(was, j, bytes);
    for k := 0 to |bytes|
      invariant Begun(was, buf[..], j, j + k, bytes)
    {
      Continue(was, buf[..], j, j + k, bytes);
      ghost var now := buf[..];
      buf[j + k] := bytes[k];
      assert buf[..] == now[j + k := bytes[k]];
    }
    Finish(was, buf[..], j, i, bytes);
  }

  method PutRecord(buf: array<byte>, i: nat, num: nat, bytes: seq<byte>) returns (j: nat)
    requires 0 < num < 16 && |Record(num, bytes)| <= i <= buf.Length
    modifies buf
    ensures Wrote(old(buf[..]), buf[..], i, j, Record(num, bytes))
  {
    SovIsLength(|bytes|);
    hide Varint, Sov, Tag;
    ghost var was := buf[..];
    var body := PutBytes(buf, i, bytes);
    ghost var mid := buf[..];
    j := FinishRecord(buf, i, body, num, bytes);
    Compose(was, mid, buf[..], i, body, j, bytes, [Tag(num, 2)] + Varint(|bytes|));
    assert Record(num, bytes) == [Tag(num, 2)] + Varint(|bytes|) + bytes;
  }

  /** Length and tag in front of a content that lies from `body` up to `i`. */
  method FinishRecord(buf: array<byte>, i: nat, body: nat, num: nat, ghost bytes: seq<byte>) returns (j: nat)
    requires 0 < num < 16 && body <= i <= buf.Length && |bytes| == i - body && 1 + Sov(i - body) <= body
    modifies buf
    ensures Wrote(old(buf[..]), buf[..], body, j, [Tag(num, 2)] + Varint(|bytes|))
  {
    hide Varint, Sov, Tag;
    ghost var was := buf[..];
    var k := EncodeVarint(buf, body, i - body);
    SovIsLength(i - body);
    ghost var mid := buf[..];
    j := PutByte(buf, k, Tag(num, 2));
    Compose(was, mid, buf[..], body, k, j, Varint(|bytes|), [Tag(num, 2)]);
  }

  /** One map entry: value, key, length, tag, from the back. */
  method PutEntry(buf: array<byte>, i: nat, num: nat, e: Entry) returns (j: nat)
    requires 0 < num < 16 && |Record(num, EncodeEntry(e))| <= i <= buf.Length
    modifies buf
    ensures Wrote(old(buf[..]), buf[..], i, j, Record(num, EncodeEntry(e)))
  {
    ghost var was, bytes := buf[..], EncodeEntry(e);
    ghost var val := if e.val == [] then [] else Record(2, e.val);
    assert bytes == Record(1, e.key) + val;
    assert |Record(num, bytes)| == 1 + Sov(|bytes|) + |bytes| by { SovIsLength(|bytes|); }
    assert Record(num, bytes) == [Tag(num, 2)] + Varint(|bytes|) + bytes;
    hide Varint, Sov, Tag, Record, EncodeEntry;
    var k := i;
    Nothing(was, i);
    if |e.val| > 0 {
      k := PutRecord(buf, i, 2, e.val);
    }
    ghost var mid := buf[..];
    var body := PutRecord(buf, k, 1, e.key);
    Compose(was, mid, buf[..], i, k, body, val, Record(1, e.key));
    ghost var full := buf[..];
    j := FinishRecord(buf, i, body, num, bytes);
    Compose(was, full, buf[..], i, body, j, bytes, [Tag(num, 2)] + Varint(|bytes|));
  }

  /** The map loop.  `es` lists the entries in the opposite of the iteration order. */
  method PutEntries(buf: array<byte>, i: nat, num: nat, es: seq<Entry>) returns (j: nat)
    requires 0 < num < 16 && |EncodeEntries(num, es)| <= i <= buf.Length
    modifies buf
    ensures Wrote(old(buf[..]), buf[..], i, j, EncodeEntries(num, es))
  {
    hide EncodeEntry, Record, Wrote;
    ghost var was := buf[..];
    j := i;
    var k := |es|;
    Nothing(was, i);
    while k > 0
      invariant 0 <= k <= |es| && Wrote(was, buf[..], i, j, EncodeEntries(num, es[k..])) && 0 <= j <= i
      invariant j == i - |EncodeEntries(num, es[k..])|
    {
      k := k - 1;
      EntriesSplit(num, es, k);
      assert es[k..][1..] == es[k + 1..];
      ghost var now := buf[..];
      var n := PutEntry(buf, j, num, es[k]);
      Compose(was, now, buf[..], i, j, n, EncodeEntries(num, es[k + 1..]), Record(num, EncodeEntry(es[k])));
      Length(now, buf[..], j, n, Record(num, EncodeEntry(es[k])));
      j := n;
    }
    assert es[0..] == es;
  }

  lemma Length(was: seq<byte>, now: seq<byte>, i: nat, j: nat, bytes: seq<byte>)
    requires Wrote(was, now, i, j, bytes)
    ensures j <= i && j == i - |bytes|
  {
  }

  /** A suffix of the entries takes no more room than all of them. */
  lemma {:induction false} EntriesSplit(num: nat, es: seq<Entry>, k: nat)
    requires 0 < num < 16 && k <= |es|
    ensures |EncodeEntries(num, es[k..])| <= |EncodeEntries(num, es)|
  {
    if k == 0 {
      assert es[0..] == es;
    } else {
      assert es[1..][k - 1..] == es[k..];
      EntriesSplit(num, es[1..], k - 1);
    }
  }

  method PutStrs(buf: array<byte>, i: nat, num: nat, ss: seq<seq<byte>>) returns (j: nat)
    requires 0 < num < 16 && |EncodeStrs(num, ss)| <= i <= buf.Length
    modifies buf
    ensures Wrote(old(buf[..]), buf[..], i, j, EncodeStrs(num, ss))
  {
    hide Record, Wrote;
    ghost var was := buf[..];
    j := i;
    var k := |ss|;
    Nothing(was, i);
    while k > 0
      invariant 0 <= k <= |ss| && Wrote(was, buf[..], i, j, EncodeStrs(num, ss[k..])) && 0 <= j <= i
      invariant j == i - |EncodeStrs(num, ss[k..])|
    {
      k := k - 1;
      StrsSplit(num, ss, k);
      assert ss[k..][1..] == ss[k + 1..];
      ghost var now := buf[..];
      var n := PutRecord(buf, j, num, ss[k]);
      Compose(was, now, buf[..], i, j, n, EncodeStrs(num, ss[k + 1..]), Record(num, ss[k]));
      Length(now, buf[..], j, n, Record(num, ss[k]));
      j := n;
    }
    assert ss[0..] == ss;
  }

  lemma {:induction false} StrsSplit(num: nat, ss: seq<seq<byte>>, k: nat)
    requires 0 < num < 16 && k <= |ss|
    ensures |EncodeStrs(num, ss[k..])| <= |EncodeStrs(num, ss)|
  {
    if k == 0 {
      assert ss[0..] == ss;
    } else {
      assert ss[1..][k - 1..] == ss[k..];
      StrsSplit(num, ss[1..], k - 1);
    }
  }

  /** A nested message, its length and its tag. */
  method PutMessage(buf: array<byte>, i: nat, num: nat, fields: seq<Kind>, m: seq<Value>) returns (j: nat)
    requires 0 < num < 16 && Schema(fields) && Shaped(fields, m)
    requires |Record(num, EncodeFrom(fields, m, 0))| <= i <= buf.Length
    modifies buf
    ensures Wrote(old(buf[..]), buf[..], i, j, Record(num, EncodeFrom(fields, m, 0)))
    decreases fields, |fields|, 1
  {
    ghost var was, bytes := buf[..], EncodeFrom(fields, m, 0);
    SovIsLength(|bytes|);
    hide Varint, Sov, Tag, EncodeFrom;
    var body := MarshalFields(buf, i, fields, m);
    ghost var mid := buf[..];
    j := FinishRecord(buf, i, body, num, bytes);
    Compose(was, mid, buf[..], i, body, j, bytes, [Tag(num, 2)] + Varint(|bytes|));
    assert Record(num, bytes) == [Tag(num, 2)] + Varint(|bytes|) + bytes;
  }

  method PutMsgs(buf: array<byte>, i: nat, num: nat, fields: seq<Kind>, msgs: seq<seq<Value>>) returns (j: nat)
    requires 0 < num < 16 && Schema(fields) && forall k | 0 <= k < |msgs| :: Shaped(fields, msgs[k])
    requires |EncodeMsgs(fields, num, msgs)| <= i <= buf.Length
    modifies buf
    ensures Wrote(old(buf[..]), buf[..], i, j, EncodeMsgs(fields, num, msgs))
    decreases fields, |fields| + 1, 0
  {
    hide Record, Wrote, EncodeFrom;
    ghost var was := buf[..];
    j := i;
    var k := |msgs|;
    Nothing(was, i);
    while k > 0
      invariant 0 <= k <= |msgs| && Wrote(was, buf[..], i, j, EncodeMsgs(fields, num, msgs[k..])) && 0 <= j <= i
      invariant j == i - |EncodeMsgs(fields, num, msgs[k..])|
    {
      k := k - 1;
      MsgsSplit(fields, num, msgs, k);
      assert msgs[k..][1..] == msgs[k + 1..];
      ghost var now := buf[..];
      ghost var bytes := Record(num, EncodeFrom(fields, msgs[k], 0));
      var n := PutMessage(buf, j, num, fields, msgs[k]);
      Compose(was, now, buf[..], i, j, n, EncodeMsgs(fields, num, msgs[k + 1..]), bytes);
      Length(now, buf[..], j, n, bytes);
      j := n;
    }
    assert msgs[0..] == msgs;
  }

  lemma {:induction false} MsgsSplit(fields: seq<Kind>, num: nat, msgs: seq<seq<Value>>, k: nat)
    requires 0 < num < 16 && Schema(fields) && (forall j | 0 <= j < |msgs| :: Shaped(fields, msgs[j])) && k <= |msgs|
    ensures |EncodeMsgs(fields, num, msgs[k..])| <= |EncodeMsgs(fields, num, msgs)|
    decreases |msgs|
  {
    hide EncodeFrom;
    if k == 0 {
      assert msgs[0..] == msgs;
    } else {
      assert msgs[1..][k - 1..] == msgs[k..];
      MsgsSplit(fields, num, msgs[1..], k - 1);
    }
  }

  method PutValue(buf: array<byte>, i: nat, k: Kind, num: nat, v: Value) returns (j: nat)
    requires ShapedValue(k, v) && 0 < num < 16 && (k.One? || k.Many? ==> Schema(k.fields))
    requires |EncodeValue(k, num, v)| <= i <= buf.Length
    modifies buf
    ensures Wrote(old(buf[..]), buf[..], i, j, EncodeValue(k, num, v))
    decreases k, 0, 0
  {
    hide Wrote, EncodeFrom;
    j := i;
    Nothing(buf[..], i);
    match k
    case Text => if |v.b| > 0 { j := PutRecord(buf, i, num, v.b); }
    case Texts => j := PutStrs(buf, i, num, v.strs);
    case Dict => j := PutEntries(buf, i, num, v.entries);
    case One(fields) => if v.Sub? { j := PutMessage(buf, i, num, fields, v.msg); }
    case Many(fields) => j := PutMsgs(buf, i, num, fields, v.msgs);
    case _ => if v.n != 0 { j := PutNumber(buf, i, num, v.n); }
  }

  method PutNumber(buf: array<byte>, i: nat, num: nat, n: int) returns (j: nat)
    requires 0 < num < 16 && 1 + |Varint(AsU64(n))| <= i <= buf.Length
    modifies buf
    ensures Wrote(old(buf[..]), buf[..], i, j, [Tag(num, 0)] + Varint(AsU64(n)))
  {
    SovIsLength(AsU64(n));
    hide Varint, Sov, Tag, AsU64;
    ghost var was := buf[..];
    var k := EncodeVarint(buf, i, AsU64(n));
    ghost var mid := buf[..];
    j := PutByte(buf, k, Tag(num, 0));
    Compose(was, mid, buf[..], i, k, j, Varint(AsU64(n)), [Tag(num, 0)]);
  }

  /** MarshalToSizedBuffer: the last field first. */
  method MarshalFields(buf: array<byte>, i: nat, kinds: seq<Kind>, m: seq<Value>) returns (j: nat)
    requires Schema(kinds) && Shaped(kinds, m) && |EncodeFrom(kinds, m, 0)| <= i <= buf.Length
    modifies buf
    ensures Wrote(old(buf[..]), buf[..], i, j, EncodeFrom(kinds, m, 0))
    decreases kinds, |kinds|, 0
  {
    hide Wrote, EncodeValue;
    ghost var was := buf[..];
    j := i;
    var k := |kinds|;
    Nothing(was, i);
    while k > 0
      invariant 0 <= k <= |kinds| && Wrote(was, buf[..], i, j, EncodeFrom(kinds, m, k)) && 0 <= j <= i
      invariant j == i - |EncodeFrom(kinds, m, k)|
    {
      k := k - 1;
      FieldsSplit(kinds, m, k);
      ghost var now := buf[..];
      assert ShapedValue(kinds[k], m[k]);
      var n := PutValue(buf, j, kinds[k], k + 1, m[k]);
      Compose(was, now, buf[..], i, j, n, EncodeFrom(kinds, m, k + 1), EncodeValue(kinds[k], k + 1, m[k]));
      Length(now, buf[..], j, n, EncodeValue(kinds[k], k + 1, m[k]));
      j := n;
    }
  }

  lemma {:induction false} FieldsSplit(kinds: seq<Kind>, m: seq<Value>, k: nat)
    requires Schema(kinds) && Shaped(kinds, m) && k <= |kinds|
    ensures |EncodeFrom(kinds, m, k)| <= |EncodeFrom(kinds, m, 0)|
    decreases k
  {
    hide EncodeValue;
    if k > 0 {
      FieldsSplit(kinds, m, k - 1);
    }
  }

  /** Marshal: exactly Size() bytes, all of them written, and they are the message's encoding. */
  method Marshal(kinds: seq<Kind>, m: seq<Value>) returns (buf: array<byte>)
    requires Schema(kinds) && Shaped(kinds, m)
    ensures fresh(buf) && buf.Length == Size(kinds, m) && buf[..] == Encode(kinds, m)
  {
    SizeIsLength(kinds, m);
    buf := new byte[Size(kinds, m)];
    ghost var was := buf[..];
    var j := MarshalFields(buf, buf.Length, kinds, m);
    assert buf[..] == was[..0] + Encode(kinds, m) + was[buf.Length..];
  }
}
