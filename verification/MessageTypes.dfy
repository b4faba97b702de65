/** The engine's message types, and what the codec's theorems say about them. */
module MessageTypes {
  import opened Basics
  import opened Wire
  import opened Codec
  import opened CodecRoundTrip
  import opened CodecContext
  import opened CodecValid

  const CROSS_CONTEXT: seq<Kind> := [Uint32, Text, Uint64]
  const SYS_CALL_MESSAGE: seq<Kind> := [Int32, Text, Dict]
  const STEP_DURATION: seq<Kind> := [Int32, Int64, Int64, Int64, Text]
  const TX_CONTEXT: seq<Kind> := [Dict, Dict]
  const TX_REQUEST: seq<Kind> := [Text, Text, Text, Dict, One(TX_CONTEXT), Text]
  const EVENT: seq<Kind> := [Text, Text, Texts]    // DockerContractEvent, too
  const TX_RESPONSE: seq<Kind> := [Text, Int32, Text, Text, Dict, Dict, Many(EVENT), Text, Text, Text]
  const CALL_CONTRACT_REQUEST: seq<Kind> := [Text, Text, Dict]
  const RESPONSE: seq<Kind> := [Int32, Text, Text]
  const CONTRACT_RESPONSE: seq<Kind> := [One(RESPONSE), Dict, Dict, Many(EVENT)]
  const DOCKER_VM_MESSAGE: seq<Kind> :=
    [Text, Int32, One(CROSS_CONTEXT), One(SYS_CALL_MESSAGE), One(TX_REQUEST), One(TX_RESPONSE), Text,
      Many(STEP_DURATION)]

  predicate Known(kinds: seq<Kind>) {
    kinds == CROSS_CONTEXT || kinds == SYS_CALL_MESSAGE || kinds == STEP_DURATION || kinds == TX_CONTEXT
    || kinds == TX_REQUEST || kinds == EVENT || kinds == TX_RESPONSE || kinds == CALL_CONTRACT_REQUEST
    || kinds == RESPONSE || kinds == CONTRACT_RESPONSE || kinds == DOCKER_VM_MESSAGE
  }

  lemma KnownSchemas(kinds: seq<Kind>)
    requires Known(kinds)
    ensures Schema(kinds)
  {
    assert Schema(TX_CONTEXT) && Schema(EVENT) && Schema(RESPONSE) && Schema(CROSS_CONTEXT);
    assert Schema(SYS_CALL_MESSAGE) && Schema(STEP_DURATION) && Schema(CALL_CONTRACT_REQUEST);
    assert Schema(TX_REQUEST) && Schema(TX_RESPONSE) && Schema(CONTRACT_RESPONSE);
    assert Schema(DOCKER_VM_MESSAGE);
  }

  /** The tag bytes, in field order. */
  function Tags(kinds: seq<Kind>): seq<byte>
    requires |kinds| < 16
  {
    seq(|kinds|, i requires 0 <= i < |kinds| => Tag(i + 1, if Numeric(kinds[i]) then 0 else 2))
  }

  /** They are the ones that the generated writers have as constants. */
  lemma WrittenTags()
    ensures Tags(DOCKER_VM_MESSAGE) == [0x0a, 0x10, 0x1a, 0x22, 0x2a, 0x32, 0x3a, 0x42]
    ensures Tags(SYS_CALL_MESSAGE) == [0x08, 0x12, 0x1a] && Tags(CROSS_CONTEXT) == [0x08, 0x12, 0x18]
    ensures Tags(STEP_DURATION) == [0x08, 0x10, 0x18, 0x20, 0x2a]
    ensures Tags(TX_REQUEST) == [0x0a, 0x12, 0x1a, 0x22, 0x2a, 0x32] && Tags(TX_CONTEXT) == [0x0a, 0x12]
    ensures Tags(TX_RESPONSE) == [0x0a, 0x10, 0x1a, 0x22, 0x2a, 0x32, 0x3a, 0x42, 0x4a, 0x52]
    ensures Tags(EVENT) == [0x0a, 0x12, 0x1a] && Tags(CALL_CONTRACT_REQUEST) == [0x0a, 0x12, 0x1a]
    ensures Tags(RESPONSE) == [0x08, 0x12, 0x1a] && Tags(CONTRACT_RESPONSE) == [0x0a, 0x12, 0x1a, 0x22]
  {
  }

  lemma {:induction false} FirstByte(k: Kind, num: nat, v: Value)
    requires ShapedValue(k, v) && 0 < num < 16 && (k.One? || k.Many? ==> Schema(k.fields)) &&
      EncodeValue(k, num, v) != []
    ensures EncodeValue(k, num, v)[0] == Tag(num, if Numeric(k) then 0 else 2)
  {
    hide Tag, Varint, EncodeEntry, EncodeFrom;
  }

  /** Whatever a field writes starts with that tag. */
  lemma WritesTag(kinds: seq<Kind>, i: nat, v: Value)
    requires Schema(kinds) && i < |kinds| && ShapedValue(kinds[i], v) && EncodeValue(kinds[i], i + 1, v) != []
    ensures EncodeValue(kinds[i], i + 1, v)[0] == Tags(kinds)[i]
  {
    FirstByte(kinds[i], i + 1, v);
    hide EncodeValue, Tag;
  }

  // ----- round trips -----

  /** For every message type of the engine: every message that fits its types comes back from its bytes, and every
      message that was decoded from any bytes comes back from the bytes it is written as. */
  lemma KnownRoundTrips(kinds: seq<Kind>, m: seq<Value>, d: seq<byte>)
    requires Known(kinds) && Shaped(kinds, m) && Size(kinds, m) < TWO_63
    ensures Schema(kinds)
    ensures Valid(kinds, m) ==> Decode(kinds, Encode(kinds, m), Blank(kinds)) == Some(m)
    ensures Decode(kinds, d, Blank(kinds)) == Some(m) ==> Decode(kinds, Encode(kinds, m), Blank(kinds)) == Some(m)
  {
    KnownSchemas(kinds);
    hide *;
    if Valid(kinds, m) {
      RoundTrip(kinds, m);
    }
    if Decode(kinds, d, Blank(kinds)) == Some(m) {
      DecodedRoundTrip(kinds, d, m);
    }
  }

  function OneKey(key: seq<byte>): (m: seq<Value>)
    ensures Shaped(TX_CONTEXT, m)
  {
    [Entries([Entry(key, [])]), Entries([])]
  }

  lemma OneKeyOnly(key: seq<byte>)
    ensures OnlyKey(TX_CONTEXT, key) == OneKey(key)
  {
    var m := Blank(TX_CONTEXT);
    assert |m| == 2 && m[1] == Entries([]);
  }

  lemma UntidyContext(u: seq<byte>)
    requires |u| == 2 && Unknown(TX_CONTEXT, u)
    ensures Decode(TX_CONTEXT, SHORT_ENTRY + u, Blank(TX_CONTEXT)) == Some(OneKey(u))
  {
    assert TX_CONTEXT[0] == Dict && u[..2] == u;
    hide *;
    UntidyEntry(TX_CONTEXT, u);
    OneKeyOnly(u);
    UnknownLast(TX_CONTEXT, u, OneKey(u));
  }

  lemma UntidyBefore(u: seq<byte>, b: seq<byte>)
    requires |u| == 2 && Unknown(TX_CONTEXT, u) && Unknown(TX_CONTEXT, b)
    ensures Decode(TX_CONTEXT, SHORT_ENTRY + (u + b), Blank(TX_CONTEXT)) == Some(OneKey(u))
  {
    assert TX_CONTEXT[0] == Dict && (u + b)[..2] == u;
    hide *;
    UntidyEntry(TX_CONTEXT, u + b);
    OneKeyOnly(u);
    UnknownSkipped(TX_CONTEXT, u, b, OneKey(u));
    UnknownLast(TX_CONTEXT, b, OneKey(u));
  }

  /** A transaction context whose first map has an entry that ends before its key: the bytes of an unknown field behind
      it become the key, so another unknown field put in between changes it, and without any the message is refused. */
  lemma UntidyTxContext()
    ensures var u: seq<byte> := [0x18, 1]; var b: seq<byte> := [0x20, 5];
            && Unknown(TX_CONTEXT, u) && Unknown(TX_CONTEXT, b)
            && Decode(TX_CONTEXT, SHORT_ENTRY + b, Blank(TX_CONTEXT)) == Some(OneKey(b))
            && Decode(TX_CONTEXT, SHORT_ENTRY + (u + b), Blank(TX_CONTEXT)) == Some(OneKey(u))
            && Decode(TX_CONTEXT, SHORT_ENTRY, Blank(TX_CONTEXT)) == None
  {
    assert TX_CONTEXT[0] == Dict && |TX_CONTEXT| == 2;
    hide *;
    UnknownVarint(TX_CONTEXT, 3, 1);
    UnknownVarint(TX_CONTEXT, 4, 5);
    UntidyContext([0x20, 5]);
    UntidyBefore([0x18, 1], [0x20, 5]);
    ShortEntryAlone(TX_CONTEXT);
  }

  // ----- maps -----

  function Lookup(es: seq<Entry>, k: seq<byte>): Option<seq<byte>> {
    if es == [] then None else if es[0].key == k then Some(es[0].val) else Lookup(es[1..], k)
  }

  ghost predicate SameMap(a: seq<Entry>, b: seq<Entry>) {
    forall k :: Lookup(a, k) == Lookup(b, k)
  }

  /** What the decoder does to a map field is Go's map assignment. */
  lemma {:induction false} PutAssigns(es: seq<Entry>, e: Entry, k: seq<byte>)
    ensures Lookup(Put(es, e), k) == if k == e.key then Some(e.val) else Lookup(es, k)
  {
    if es != [] && es[0].key != e.key {
      PutAssigns(es[1..], e, k);
    }
  }

  /** Whatever order a map is written in, decoding gives the same map, and all other fields as they were. */
  lemma AnyMapOrder(kinds: seq<Kind>, m: seq<Value>, i: nat, es: seq<Entry>, other: seq<Entry>)
    requires Schema(kinds) && Shaped(kinds, m) && Valid(kinds, m) && i < |kinds| && kinds[i].Dict? &&
      m[i] == Entries(es)
    requires OnceEach(other) && SameMap(es, other)
    requires Shaped(kinds, m[i := Entries(other)]) && Size(kinds, m[i := Entries(other)]) < TWO_63
    ensures var r := Decode(kinds, Encode(kinds, m[i := Entries(other)]), Blank(kinds));
            && r.Some? && r.value[i].Entries? && SameMap(r.value[i].entries, es)
            && forall j :: 0 <= j < |kinds| && j != i ==> r.value[j] == m[j]
  {
    var m' := m[i := Entries(other)];
    forall j | 0 <= j < |kinds| ensures ValidValue(kinds[j], m'[j]) {
      assert ValidValue(kinds[j], m[j]);
    }
    RoundTrip(kinds, m');
  }
}
