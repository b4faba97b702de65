/**
 The engine's messages as records with the fields of the Go structs and the ranges of
 their Go types; the bytes that a record is written as, field by field with the tag
 bytes of the generated writers; and the round trips.  A string or byte slice is a byte
 sequence; a map is the list of its entries in the order in which they are written,
 each key once.
 */
module Messages {
  import opened Basics
  import opened Wire
  import opened Codec
  import opened CodecRoundTrip
  import opened CodecValid
  import opened MessageTypes

  type int32 = x: int | -0x8000_0000 <= x < 0x8000_0000
  type uint32 = x: int | 0 <= x < 0x1_0000_0000
  type int64 = x: int | -0x8000_0000_0000_0000 <= x < 0x8000_0000_0000_0000
  type uint64 = x: int | 0 <= x < 0x1_0000_0000_0000_0000
  type text = seq<byte>
  type dict = es: seq<Entry> | OnceEach(es)

  datatype CrossContext = CrossContext(currentDepth: uint32, processName: text, crossInfo: uint64)
  datatype SysCallMessage = SysCallMessage(code: int32, message: text, payload: dict)
  datatype StepDuration = StepDuration(kind: int32, startTime: int64, stepDuration: int64, untilDuration: int64,
    msg: text)
  datatype TxContext = TxContext(writeMap: dict, readMap: dict)
  datatype TxRequest = TxRequest(contractName: text, contractVersion: text, methodName: text, parameters: dict,
    txContext: Option<TxContext>, chainId: text)
  datatype ContractEvent = ContractEvent(topic: text, contractName: text, data: seq<text>)
  datatype TxResponse = TxResponse(txId: text, code: int32, result: text, message: text, writeMap: dict,
    readMap: dict, events: seq<ContractEvent>, contractName: text, contractVersion: text, chainId: text)
  datatype CallContractRequest = CallContractRequest(contractName: text, contractMethod: text, args: dict)
  datatype Response = Response(status: int32, message: text, payload: text)
  datatype ContractResponse = ContractResponse(response: Option<Response>, writeMap: dict, readMap: dict,
    events: seq<ContractEvent>)
  datatype DockerVMMessage = DockerVMMessage(txId: text, kind: int32, crossContext: Option<CrossContext>,
    sysCallMessage: Option<SysCallMessage>, request: Option<TxRequest>, response: Option<TxResponse>, chainId: text,
    stepDurations: seq<StepDuration>)

  // ----- the bytes of a field -----

  /** A number, cut to 64 bits; zero is not written. */
  function NumAt(tag: byte, n: int): seq<byte> {
    if n == 0 then [] else [tag] + Varint(n % 0x1_0000_0000_0000_0000)
  }

  /** Tag, length, content. */
  function Block(tag: byte, b: seq<byte>): seq<byte> {
    [tag] + (Varint(|b|) + b)
  }

  function TextAt(tag: byte, b: text): seq<byte> {
    if b == [] then [] else Block(tag, b)
  }

  function BlocksAt(tag: byte, bs: seq<seq<byte>>): seq<byte> {
    if bs == [] then [] else Block(tag, bs[0]) + BlocksAt(tag, bs[1..])
  }

  /** A map entry: the key with tag 0x0a and, unless it is empty, the value with tag 0x12. */
  function EntryBytes(e: Entry): seq<byte> {
    Block(0x0a, e.key) + if e.val == [] then [] else Block(0x12, e.val)
  }

  function DictAt(tag: byte, es: seq<Entry>): seq<byte> {
    if es == [] then [] else Block(tag, EntryBytes(es[0])) + DictAt(tag, es[1..])
  }

  function Join(parts: seq<seq<byte>>): seq<byte> {
    if parts == [] then [] else parts[0] + Join(parts[1..])
  }

  // ----- records and field values -----

  /** A message that fits its type. */
  ghost predicate Fits(kinds: seq<Kind>, m: seq<Value>) {
    Shaped(kinds, m) && Valid(kinds, m)
  }

  ghost predicate FitsKind(k: Kind, v: Value) {
    match k
    case Text => v.Bytes?
    case Texts => v.Strs?
    case Dict => v.Entries? && OnceEach(v.entries)
    case One(fields) => v.Nil? || (v.Sub? && Fits(fields, v.msg))
    case Many(fields) => v.Subs? && forall i | 0 <= i < |v.msgs| :: Fits(fields, v.msgs[i])
    case _ => v.Num? && InRange(k, v.n)
  }

  lemma KindFits(k: Kind, v: Value)
    ensures FitsKind(k, v) <==> ShapedValue(k, v) && ValidValue(k, v)
  {
  }

  lemma FieldFits(kinds: seq<Kind>, m: seq<Value>)
    ensures Fits(kinds, m) <==> |m| == |kinds| && forall i | 0 <= i < |kinds| :: FitsKind(kinds[i], m[i])
  {
    hide FitsKind, ShapedValue, ValidValue;
    forall i | 0 <= i < |kinds| && i < |m|
      ensures FitsKind(kinds[i], m[i]) <==> ShapedValue(kinds[i], m[i]) && ValidValue(kinds[i], m[i])
    {
      KindFits(kinds[i], m[i]);
    }
  }

  // ----- CrossContext -----

  function CrossContextFields(r: CrossContext): (m: seq<Value>)
    ensures Fits(CROSS_CONTEXT, m)
  {
    var m := [Num(r.currentDepth), Bytes(r.processName), Num(r.crossInfo)];
    FieldFits(CROSS_CONTEXT, m);
    m
  }

  function CrossContextOf(m: seq<Value>): (r: CrossContext)
    requires Fits(CROSS_CONTEXT, m)
    ensures CrossContextFields(r) == m
  {
    FieldFits(CROSS_CONTEXT, m);
    CrossContext(m[0].n, m[1].b, m[2].n)
  }

  /** What the generated writer puts out, by field. */
  function CrossContextParts(r: CrossContext): seq<seq<byte>> {
    [NumAt(0x08, r.currentDepth), TextAt(0x12, r.processName), NumAt(0x18, r.crossInfo)]
  }

  function CrossContextBytes(r: CrossContext): seq<byte> {
    Join(CrossContextParts(r))
  }

  // ----- SysCallMessage -----

  function SysCallMessageFields(r: SysCallMessage): (m: seq<Value>)
    ensures Fits(SYS_CALL_MESSAGE, m)
  {
    var m := [Num(r.code), Bytes(r.message), Entries(r.payload)];
    FieldFits(SYS_CALL_MESSAGE, m);
    m
  }

  function SysCallMessageOf(m: seq<Value>): (r: SysCallMessage)
    requires Fits(SYS_CALL_MESSAGE, m)
    ensures SysCallMessageFields(r) == m
  {
    FieldFits(SYS_CALL_MESSAGE, m);
    SysCallMessage(m[0].n, m[1].b, m[2].entries)
  }

  /** What the generated writer puts out, by field. */
  function SysCallMessageParts(r: SysCallMessage): seq<seq<byte>> {
    [NumAt(0x08, r.code), TextAt(0x12, r.message), DictAt(0x1a, r.payload)]
  }

  function SysCallMessageBytes(r: SysCallMessage): seq<byte> {
    Join(SysCallMessageParts(r))
  }

  // ----- StepDuration -----

  function StepDurationFields(r: StepDuration): (m: seq<Value>)
    ensures Fits(STEP_DURATION, m)
  {
    var m := [Num(r.kind), Num(r.startTime), Num(r.stepDuration), Num(r.untilDuration), Bytes(r.msg)];
    FieldFits(STEP_DURATION, m);
    m
  }

  function StepDurationOf(m: seq<Value>): (r: StepDuration)
    requires Fits(STEP_DURATION, m)
    ensures StepDurationFields(r) == m
  {
    FieldFits(STEP_DURATION, m);
    StepDuration(m[0].n, m[1].n, m[2].n, m[3].n, m[4].b)
  }

  /** What the generated writer puts out, by field. */
  function StepDurationParts(r: StepDuration): seq<seq<byte>> {
    [NumAt(0x08, r.kind), NumAt(0x10, r.startTime), NumAt(0x18, r.stepDuration), NumAt(0x20, r.untilDuration),
      TextAt(0x2a, r.msg)]
  }

  function StepDurationBytes(r: StepDuration): seq<byte> {
    Join(StepDurationParts(r))
  }

  function StepDurationList(rs: seq<StepDuration>): (ms: seq<seq<Value>>)
    ensures |ms| == |rs| && forall i | 0 <= i < |rs| :: ms[i] == StepDurationFields(rs[i])
  {
    seq(|rs|, i requires 0 <= i < |rs| => StepDurationFields(rs[i]))
  }

  function StepDurationsOf(ms: seq<seq<Value>>): (rs: seq<StepDuration>)
    requires forall i | 0 <= i < |ms| :: Fits(STEP_DURATION, ms[i])
    ensures StepDurationList(rs) == ms
  {
    seq(|ms|, i requires 0 <= i < |ms| => StepDurationOf(ms[i]))
  }

  function StepDurationBytesList(rs: seq<StepDuration>): (bs: seq<seq<byte>>)
    ensures |bs| == |rs| && forall i | 0 <= i < |rs| :: bs[i] == StepDurationBytes(rs[i])
  {
    seq(|rs|, i requires 0 <= i < |rs| => StepDurationBytes(rs[i]))
  }

  // ----- TxContext -----

  function TxContextFields(r: TxContext): (m: seq<Value>)
    ensures Fits(TX_CONTEXT, m)
  {
    var m := [Entries(r.writeMap), Entries(r.readMap)];
    FieldFits(TX_CONTEXT, m);
    m
  }

  function TxContextOf(m: seq<Value>): (r: TxContext)
    requires Fits(TX_CONTEXT, m)
    ensures TxContextFields(r) == m
  {
    FieldFits(TX_CONTEXT, m);
    TxContext(m[0].entries, m[1].entries)
  }

  /** What the generated writer puts out, by field. */
  function TxContextParts(r: TxContext): seq<seq<byte>> {
    [DictAt(0x0a, r.writeMap), DictAt(0x12, r.readMap)]
  }

  function TxContextBytes(r: TxContext): seq<byte> {
    Join(TxContextParts(r))
  }

  // ----- TxRequest -----

  function TxRequestFields(r: TxRequest): (m: seq<Value>)
    ensures Fits(TX_REQUEST, m)
  {
    var m := [Bytes(r.contractName), Bytes(r.contractVersion), Bytes(r.methodName), Entries(r.parameters),
      if r.txContext.None? then Nil else Sub(TxContextFields(r.txContext.value)), Bytes(r.chainId)];
    FieldFits(TX_REQUEST, m);
    m
  }

  function TxRequestOf(m: seq<Value>): (r: TxRequest)
    requires Fits(TX_REQUEST, m)
    ensures TxRequestFields(r) == m
  {
    FieldFits(TX_REQUEST, m);
    TxRequest(m[0].b, m[1].b, m[2].b, m[3].entries, if m[4].Nil? then None else Some(TxContextOf(m[4].msg)), m[5].b)
  }

  /** What the generated writer puts out, by field. */
  function TxRequestParts(r: TxRequest): seq<seq<byte>> {
    [TextAt(0x0a, r.contractName), TextAt(0x12, r.contractVersion), TextAt(0x1a, r.methodName),
      DictAt(0x22, r.parameters),
      if r.txContext.None? then [] else Block(0x2a, TxContextBytes(r.txContext.value)), TextAt(0x32, r.chainId)]
  }

  function TxRequestBytes(r: TxRequest): seq<byte> {
    Join(TxRequestParts(r))
  }

  // ----- ContractEvent -----

  function ContractEventFields(r: ContractEvent): (m: seq<Value>)
    ensures Fits(EVENT, m)
  {
    var m := [Bytes(r.topic), Bytes(r.contractName), Strs(r.data)];
    FieldFits(EVENT, m);
    m
  }

  function ContractEventOf(m: seq<Value>): (r: ContractEvent)
    requires Fits(EVENT, m)
    ensures ContractEventFields(r) == m
  {
    FieldFits(EVENT, m);
    ContractEvent(m[0].b, m[1].b, m[2].strs)
  }

  /** What the generated writer puts out, by field. */
  function ContractEventParts(r: ContractEvent): seq<seq<byte>> {
    [TextAt(0x0a, r.topic), TextAt(0x12, r.contractName), BlocksAt(0x1a, r.data)]
  }

  function ContractEventBytes(r: ContractEvent): seq<byte> {
    Join(ContractEventParts(r))
  }

  function ContractEventList(rs: seq<ContractEvent>): (ms: seq<seq<Value>>)
    ensures |ms| == |rs| && forall i | 0 <= i < |rs| :: ms[i] == ContractEventFields(rs[i])
  {
    seq(|rs|, i requires 0 <= i < |rs| => ContractEventFields(rs[i]))
  }

  function ContractEventsOf(ms: seq<seq<Value>>): (rs: seq<ContractEvent>)
    requires forall i | 0 <= i < |ms| :: Fits(EVENT, ms[i])
    ensures ContractEventList(rs) == ms
  {
    seq(|ms|, i requires 0 <= i < |ms| => ContractEventOf(ms[i]))
  }

  function ContractEventBytesList(rs: seq<ContractEvent>): (bs: seq<seq<byte>>)
    ensures |bs| == |rs| && forall i | 0 <= i < |rs| :: bs[i] == ContractEventBytes(rs[i])
  {
    seq(|rs|, i requires 0 <= i < |rs| => ContractEventBytes(rs[i]))
  }

  // ----- TxResponse -----

  function TxResponseFields(r: TxResponse): (m: seq<Value>)
    ensures Fits(TX_RESPONSE, m)
  {
    var m := [Bytes(r.txId), Num(r.code), Bytes(r.result), Bytes(r.message), Entries(r.writeMap), Entries(r.readMap),
      Subs(ContractEventList(r.events)), Bytes(r.contractName), Bytes(r.contractVersion), Bytes(r.chainId)];
    FieldFits(TX_RESPONSE, m);
    m
  }

  function TxResponseOf(m: seq<Value>): (r: TxResponse)
    requires Fits(TX_RESPONSE, m)
    ensures TxResponseFields(r) == m
  {
    FieldFits(TX_RESPONSE, m);
    TxResponse(m[0].b, m[1].n, m[2].b, m[3].b, m[4].entries, m[5].entries, ContractEventsOf(m[6].msgs), m[7].b,
      m[8].b, m[9].b)
  }

  /** What the generated writer puts out, by field. */
  function TxResponseParts(r: TxResponse): seq<seq<byte>> {
    [TextAt(0x0a, r.txId), NumAt(0x10, r.code), TextAt(0x1a, r.result), TextAt(0x22, r.message),
      DictAt(0x2a, r.writeMap), DictAt(0x32, r.readMap), BlocksAt(0x3a, ContractEventBytesList(r.events)),
      TextAt(0x42, r.contractName), TextAt(0x4a, r.contractVersion), TextAt(0x52, r.chainId)]
  }

  function TxResponseBytes(r: TxResponse): seq<byte> {
    Join(TxResponseParts(r))
  }

  // ----- CallContractRequest -----

  function CallContractRequestFields(r: CallContractRequest): (m: seq<Value>)
    ensures Fits(CALL_CONTRACT_REQUEST, m)
  {
    var m := [Bytes(r.contractName), Bytes(r.contractMethod), Entries(r.args)];
    FieldFits(CALL_CONTRACT_REQUEST, m);
    m
  }

  function CallContractRequestOf(m: seq<Value>): (r: CallContractRequest)
    requires Fits(CALL_CONTRACT_REQUEST, m)
    ensures CallContractRequestFields(r) == m
  {
    FieldFits(CALL_CONTRACT_REQUEST, m);
    CallContractRequest(m[0].b, m[1].b, m[2].entries)
  }

  /** What the generated writer puts out, by field. */
  function CallContractRequestParts(r: CallContractRequest): seq<seq<byte>> {
    [TextAt(0x0a, r.contractName), TextAt(0x12, r.contractMethod), DictAt(0x1a, r.args)]
  }

  function CallContractRequestBytes(r: CallContractRequest): seq<byte> {
    Join(CallContractRequestParts(r))
  }

  // ----- Response -----

  function ResponseFields(r: Response): (m: seq<Value>)
    ensures Fits(RESPONSE, m)
  {
    var m := [Num(r.status), Bytes(r.message), Bytes(r.payload)];
    FieldFits(RESPONSE, m);
    m
  }

  function ResponseOf(m: seq<Value>): (r: Response)
    requires Fits(RESPONSE, m)
    ensures ResponseFields(r) == m
  {
    FieldFits(RESPONSE, m);
    Response(m[0].n, m[1].b, m[2].b)
  }

  /** What the generated writer puts out, by field. */
  function ResponseParts(r: Response): seq<seq<byte>> {
    [NumAt(0x08, r.status), TextAt(0x12, r.message), TextAt(0x1a, r.payload)]
  }

  function ResponseBytes(r: Response): seq<byte> {
    Join(ResponseParts(r))
  }

  // ----- ContractResponse -----

  function ContractResponseFields(r: ContractResponse): (m: seq<Value>)
    ensures Fits(CONTRACT_RESPONSE, m)
  {
    var m := [if r.response.None? then Nil else Sub(ResponseFields(r.response.value)),
      Entries(r.writeMap), Entries(r.readMap),
      Subs(ContractEventList(r.events))];
    FieldFits(CONTRACT_RESPONSE, m);
    m
  }

  function ContractResponseOf(m: seq<Value>): (r: ContractResponse)
    requires Fits(CONTRACT_RESPONSE, m)
    ensures ContractResponseFields(r) == m
  {
    FieldFits(CONTRACT_RESPONSE, m);
    ContractResponse(if m[0].Nil? then None else Some(ResponseOf(m[0].msg)), m[1].entries, m[2].entries,
      ContractEventsOf(m[3].msgs))
  }

  /** What the generated writer puts out, by field. */
  function ContractResponseParts(r: ContractResponse): seq<seq<byte>> {
    [if r.response.None? then [] else Block(0x0a, ResponseBytes(r.response.value)), DictAt(0x12, r.writeMap),
      DictAt(0x1a, r.readMap), BlocksAt(0x22, ContractEventBytesList(r.events))]
  }

  function ContractResponseBytes(r: ContractResponse): seq<byte> {
    Join(ContractResponseParts(r))
  }

  // ----- DockerVMMessage -----

  function DockerVMMessageFields(r: DockerVMMessage): (m: seq<Value>)
    ensures Fits(DOCKER_VM_MESSAGE, m)
  {
    var m := [Bytes(r.txId), Num(r.kind),
      if r.crossContext.None? then Nil else Sub(CrossContextFields(r.crossContext.value)),
      if r.sysCallMessage.None? then Nil else Sub(SysCallMessageFields(r.sysCallMessage.value)),
      if r.request.None? then Nil else Sub(TxRequestFields(r.request.value)),
      if r.response.None? then Nil else Sub(TxResponseFields(r.response.value)), Bytes(r.chainId),
      Subs(StepDurationList(r.stepDurations))];
    FieldFits(DOCKER_VM_MESSAGE, m);
    m
  }

  function DockerVMMessageOf(m: seq<Value>): (r: DockerVMMessage)
    requires Fits(DOCKER_VM_MESSAGE, m)
    ensures DockerVMMessageFields(r) == m
  {
    FieldFits(DOCKER_VM_MESSAGE, m);
    DockerVMMessage(m[0].b, m[1].n, if m[2].Nil? then None else Some(CrossContextOf(m[2].msg)),
      if m[3].Nil? then None else Some(SysCallMessageOf(m[3].msg)),
      if m[4].Nil? then None else Some(TxRequestOf(m[4].msg)),
      if m[5].Nil? then None else Some(TxResponseOf(m[5].msg)), m[6].b, StepDurationsOf(m[7].msgs))
  }

  /** What the generated writer puts out, by field. */
  function DockerVMMessageParts(r: DockerVMMessage): seq<seq<byte>> {
    [TextAt(0x0a, r.txId), NumAt(0x10, r.kind),
      if r.crossContext.None? then [] else Block(0x1a, CrossContextBytes(r.crossContext.value)),
      if r.sysCallMessage.None? then [] else Block(0x22, SysCallMessageBytes(r.sysCallMessage.value)),
      if r.request.None? then [] else Block(0x2a, TxRequestBytes(r.request.value)),
      if r.response.None? then [] else Block(0x32, TxResponseBytes(r.response.value)), TextAt(0x3a, r.chainId),
      BlocksAt(0x42, StepDurationBytesList(r.stepDurations))]
  }

  function DockerVMMessageBytes(r: DockerVMMessage): seq<byte> {
    Join(DockerVMMessageParts(r))
  }

  // ----- written field by field -----

  lemma {:induction false} WrittenFrom(kinds: seq<Kind>, m: seq<Value>, parts: seq<seq<byte>>, i: nat)
    requires Schema(kinds) && Shaped(kinds, m) && |parts| == |kinds| && i <= |kinds|
    requires forall j | 0 <= j < |kinds| :: EncodeValue(kinds[j], j + 1, m[j]) == parts[j]
    ensures EncodeFrom(kinds, m, i) == Join(parts[i..])
    decreases |kinds| - i
  {
    hide EncodeValue;
    if i < |kinds| {
      WrittenFrom(kinds, m, parts, i + 1);
      assert parts[i..][1..] == parts[i + 1..];
    }
  }

  lemma Written(kinds: seq<Kind>, m: seq<Value>, parts: seq<seq<byte>>)
    requires Schema(kinds) && Shaped(kinds, m) && |parts| == |kinds|
    requires forall j | 0 <= j < |kinds| :: EncodeValue(kinds[j], j + 1, m[j]) == parts[j]
    ensures Encode(kinds, m) == Join(parts)
  {
    hide EncodeValue;
    WrittenFrom(kinds, m, parts, 0);
    assert parts[0..] == parts;
  }

  lemma NumPart(k: Kind, num: nat, n: int)
    requires Numeric(k) && 0 < num < 16
    ensures EncodeValue(k, num, Num(n)) == NumAt(num * 8, n)
  {
    hide Varint;
  }

  lemma BlockIs(num: nat, b: seq<byte>)
    requires 0 < num < 16
    ensures Record(num, b) == Block(num * 8 + 2, b)
  {
    hide Varint;
  }

  lemma TextPart(num: nat, b: text)
    requires 0 < num < 16
    ensures EncodeValue(Text, num, Bytes(b)) == TextAt(num * 8 + 2, b)
  {
    BlockIs(num, b);
    hide Record, Block;
  }

  lemma {:induction false} TextsPart(num: nat, ss: seq<text>)
    requires 0 < num < 16
    ensures EncodeValue(Texts, num, Strs(ss)) == BlocksAt(num * 8 + 2, ss)
    decreases |ss|
  {
    if ss != [] {
      BlockIs(num, ss[0]);
      TextsPart(num, ss[1..]);
      hide Record, Block;
    }
  }

  lemma EntryIs(e: Entry)
    ensures EncodeEntry(e) == EntryBytes(e)
  {
    BlockIs(1, e.key);
    BlockIs(2, e.val);
    hide Record, Block;
  }

  lemma {:induction false} DictPart(num: nat, es: seq<Entry>)
    requires 0 < num < 16
    ensures EncodeValue(Dict, num, Entries(es)) == DictAt(num * 8 + 2, es)
    decreases |es|
  {
    if es != [] {
      EntryIs(es[0]);
      BlockIs(num, EntryBytes(es[0]));
      DictPart(num, es[1..]);
      hide Record, Block, EncodeEntry, EntryBytes;
    }
  }

  lemma OnePart(fields: seq<Kind>, num: nat, m: seq<Value>)
    requires 0 < num < 16 && Schema(fields) && Shaped(fields, m)
    ensures EncodeValue(One(fields), num, Sub(m)) == Block(num * 8 + 2, Encode(fields, m))
  {
    BlockIs(num, Encode(fields, m));
    hide Record, Block, EncodeFrom;
  }

  lemma NilPart(fields: seq<Kind>, num: nat)
    requires 0 < num < 16 && Schema(fields)
    ensures EncodeValue(One(fields), num, Nil) == []
  {
  }

  lemma {:induction false} ManyPart(fields: seq<Kind>, num: nat, ms: seq<seq<Value>>, bs: seq<seq<byte>>)
    requires 0 < num < 16 && Schema(fields) && |bs| == |ms|
    requires forall i | 0 <= i < |ms| :: Shaped(fields, ms[i]) && Encode(fields, ms[i]) == bs[i]
    ensures EncodeValue(Many(fields), num, Subs(ms)) == BlocksAt(num * 8 + 2, bs)
    decreases |ms|
  {
    if ms != [] {
      BlockIs(num, bs[0]);
      ManyPart(fields, num, ms[1..], bs[1..]);
      hide Record, Block, EncodeFrom;
    }
  }

  // ----- round trips -----

  lemma Exchanged(kinds: seq<Kind>, m: seq<Value>)
    requires Fits(kinds, m) && Schema(kinds) && |Encode(kinds, m)| < TWO_63
    ensures Decode(kinds, Encode(kinds, m), Blank(kinds)) == Some(m)
  {
    hide Shaped, Valid, Encode, Decode;
    SizeIsLength(kinds, m);
    RoundTrip(kinds, m);
  }

  /** Whatever bytes arrive: a message that is accepted is one of the records, with numbers in their Go ranges. */
  lemma Received(kinds: seq<Kind>, d: seq<byte>)
    requires Decode(kinds, d, Blank(kinds)).Some?
    ensures Fits(kinds, Decode(kinds, d, Blank(kinds)).value)
  {
    BlankValid(kinds);
    DecodeValid(kinds, d, Blank(kinds));
    hide Decode, Valid;
  }

  lemma CrossContextWritten(r: CrossContext)
    ensures Schema(CROSS_CONTEXT) && Encode(CROSS_CONTEXT, CrossContextFields(r)) == CrossContextBytes(r)
  {
    hide Schema, Shaped, Valid, Encode, EncodeValue, Join, NumAt, TextAt, DictAt, BlocksAt, Block;
    KnownSchemas(CROSS_CONTEXT);
    NumPart(Uint32, 1, r.currentDepth);
    TextPart(2, r.processName);
    NumPart(Uint64, 3, r.crossInfo);
    assert |CROSS_CONTEXT| == |CrossContextParts(r)|;
    Written(CROSS_CONTEXT, CrossContextFields(r), CrossContextParts(r));
  }

  /** A CrossContext comes back from its bytes, field by field. */
  lemma CrossContextRoundTrip(r: CrossContext)
    requires |CrossContextBytes(r)| < 0x8000_0000_0000_0000
    ensures Decode(CROSS_CONTEXT, CrossContextBytes(r), Blank(CROSS_CONTEXT)) == Some(CrossContextFields(r))
    ensures CrossContextOf(CrossContextFields(r)) == r
  {
    CrossContextWritten(r);
    hide Encode, Decode, Schema, Fits, CrossContextBytes;
    Exchanged(CROSS_CONTEXT, CrossContextFields(r));
  }

  lemma SysCallMessageWritten(r: SysCallMessage)
    ensures Schema(SYS_CALL_MESSAGE) && Encode(SYS_CALL_MESSAGE, SysCallMessageFields(r)) == SysCallMessageBytes(r)
  {
    hide Schema, Shaped, Valid, Encode, EncodeValue, Join, NumAt, TextAt, DictAt, BlocksAt, Block;
    KnownSchemas(SYS_CALL_MESSAGE);
    NumPart(Int32, 1, r.code);
    TextPart(2, r.message);
    DictPart(3, r.payload);
    assert |SYS_CALL_MESSAGE| == |SysCallMessageParts(r)|;
    Written(SYS_CALL_MESSAGE, SysCallMessageFields(r), SysCallMessageParts(r));
  }

  /** A SysCallMessage comes back from its bytes, field by field. */
  lemma SysCallMessageRoundTrip(r: SysCallMessage)
    requires |SysCallMessageBytes(r)| < 0x8000_0000_0000_0000
    ensures Decode(SYS_CALL_MESSAGE, SysCallMessageBytes(r), Blank(SYS_CALL_MESSAGE)) == Some(SysCallMessageFields(r))
    ensures SysCallMessageOf(SysCallMessageFields(r)) == r
  {
    SysCallMessageWritten(r);
    hide Encode, Decode, Schema, Fits, SysCallMessageBytes;
    Exchanged(SYS_CALL_MESSAGE, SysCallMessageFields(r));
  }

  lemma StepDurationWritten(r: StepDuration)
    ensures Schema(STEP_DURATION) && Encode(STEP_DURATION, StepDurationFields(r)) == StepDurationBytes(r)
  {
    hide Schema, Shaped, Valid, Encode, EncodeValue, Join, NumAt, TextAt, DictAt, BlocksAt, Block;
    KnownSchemas(STEP_DURATION);
    NumPart(Int32, 1, r.kind);
    NumPart(Int64, 2, r.startTime);
    NumPart(Int64, 3, r.stepDuration);
    NumPart(Int64, 4, r.untilDuration);
    TextPart(5, r.msg);
    assert |STEP_DURATION| == |StepDurationParts(r)|;
    Written(STEP_DURATION, StepDurationFields(r), StepDurationParts(r));
  }

  lemma StepDurationsWritten(num: nat, rs: seq<StepDuration>)
    requires 0 < num < 16
    ensures Schema(STEP_DURATION)
    ensures EncodeValue(Many(STEP_DURATION), num, Subs(StepDurationList(rs)))
            == BlocksAt(num * 8 + 2, StepDurationBytesList(rs))
  {
    KnownSchemas(STEP_DURATION);
    hide Schema, Encode, EncodeValue, StepDurationBytes, StepDurationFields;
    forall i | 0 <= i < |rs| ensures Encode(STEP_DURATION, StepDurationFields(rs[i])) == StepDurationBytes(rs[i]) {
      StepDurationWritten(rs[i]);
    }
    ManyPart(STEP_DURATION, num, StepDurationList(rs), StepDurationBytesList(rs));
  }

  /** A StepDuration comes back from its bytes, field by field. */
  lemma StepDurationRoundTrip(r: StepDuration)
    requires |StepDurationBytes(r)| < 0x8000_0000_0000_0000
    ensures Decode(STEP_DURATION, StepDurationBytes(r), Blank(STEP_DURATION)) == Some(StepDurationFields(r))
    ensures StepDurationOf(StepDurationFields(r)) == r
  {
    StepDurationWritten(r);
    hide Encode, Decode, Schema, Fits, StepDurationBytes;
    Exchanged(STEP_DURATION, StepDurationFields(r));
  }

  lemma TxContextWritten(r: TxContext)
    ensures Schema(TX_CONTEXT) && Encode(TX_CONTEXT, TxContextFields(r)) == TxContextBytes(r)
  {
    hide Schema, Shaped, Valid, Encode, EncodeValue, Join, NumAt, TextAt, DictAt, BlocksAt, Block;
    KnownSchemas(TX_CONTEXT);
    DictPart(1, r.writeMap);
    DictPart(2, r.readMap);
    assert |TX_CONTEXT| == |TxContextParts(r)|;
    Written(TX_CONTEXT, TxContextFields(r), TxContextParts(r));
  }

  /** A TxContext comes back from its bytes, field by field. */
  lemma TxContextRoundTrip(r: TxContext)
    requires |TxContextBytes(r)| < 0x8000_0000_0000_0000
    ensures Decode(TX_CONTEXT, TxContextBytes(r), Blank(TX_CONTEXT)) == Some(TxContextFields(r))
    ensures TxContextOf(TxContextFields(r)) == r
  {
    TxContextWritten(r);
    hide Encode, Decode, Schema, Fits, TxContextBytes;
    Exchanged(TX_CONTEXT, TxContextFields(r));
  }

  lemma TxRequestWritten(r: TxRequest)
    ensures Schema(TX_REQUEST) && Encode(TX_REQUEST, TxRequestFields(r)) == TxRequestBytes(r)
  {
    hide Schema, Shaped, Valid, Encode, EncodeValue, Join, NumAt, TextAt, DictAt, BlocksAt, Block;
    KnownSchemas(TX_REQUEST);
    TextPart(1, r.contractName);
    TextPart(2, r.contractVersion);
    TextPart(3, r.methodName);
    DictPart(4, r.parameters);
    if r.txContext.Some? {
      TxContextWritten(r.txContext.value);
      OnePart(TX_CONTEXT, 5, TxContextFields(r.txContext.value));
    } else {
      KnownSchemas(TX_CONTEXT);
      NilPart(TX_CONTEXT, 5);
    }
    TextPart(6, r.chainId);
    assert |TX_REQUEST| == |TxRequestParts(r)|;
    Written(TX_REQUEST, TxRequestFields(r), TxRequestParts(r));
  }

  /** A TxRequest comes back from its bytes, field by field. */
  lemma TxRequestRoundTrip(r: TxRequest)
    requires |TxRequestBytes(r)| < 0x8000_0000_0000_0000
    ensures Decode(TX_REQUEST, TxRequestBytes(r), Blank(TX_REQUEST)) == Some(TxRequestFields(r))
    ensures TxRequestOf(TxRequestFields(r)) == r
  {
    TxRequestWritten(r);
    hide Encode, Decode, Schema, Fits, TxRequestBytes;
    Exchanged(TX_REQUEST, TxRequestFields(r));
  }

  lemma ContractEventWritten(r: ContractEvent)
    ensures Schema(EVENT) && Encode(EVENT, ContractEventFields(r)) == ContractEventBytes(r)
  {
    hide Schema, Shaped, Valid, Encode, EncodeValue, Join, NumAt, TextAt, DictAt, BlocksAt, Block;
    KnownSchemas(EVENT);
    TextPart(1, r.topic);
    TextPart(2, r.contractName);
    TextsPart(3, r.data);
    assert |EVENT| == |ContractEventParts(r)|;
    Written(EVENT, ContractEventFields(r), ContractEventParts(r));
  }

  lemma ContractEventsWritten(num: nat, rs: seq<ContractEvent>)
    requires 0 < num < 16
    ensures Schema(EVENT)
    ensures EncodeValue(Many(EVENT), num, Subs(ContractEventList(rs)))
            == BlocksAt(num * 8 + 2, ContractEventBytesList(rs))
  {
    KnownSchemas(EVENT);
    hide Schema, Encode, EncodeValue, ContractEventBytes, ContractEventFields;
    forall i | 0 <= i < |rs| ensures Encode(EVENT, ContractEventFields(rs[i])) == ContractEventBytes(rs[i]) {
      ContractEventWritten(rs[i]);
    }
    ManyPart(EVENT, num, ContractEventList(rs), ContractEventBytesList(rs));
  }

  /** A ContractEvent comes back from its bytes, field by field. */
  lemma ContractEventRoundTrip(r: ContractEvent)
    requires |ContractEventBytes(r)| < 0x8000_0000_0000_0000
    ensures Decode(EVENT, ContractEventBytes(r), Blank(EVENT)) == Some(ContractEventFields(r))
    ensures ContractEventOf(ContractEventFields(r)) == r
  {
    ContractEventWritten(r);
    hide Encode, Decode, Schema, Fits, ContractEventBytes;
    Exchanged(EVENT, ContractEventFields(r));
  }

  lemma TxResponseWritten(r: TxResponse)
    ensures Schema(TX_RESPONSE) && Encode(TX_RESPONSE, TxResponseFields(r)) == TxResponseBytes(r)
  {
    hide Schema, Shaped, Valid, Encode, EncodeValue, Join, NumAt, TextAt, DictAt, BlocksAt, Block;
    KnownSchemas(TX_RESPONSE);
    TextPart(1, r.txId);
    NumPart(Int32, 2, r.code);
    TextPart(3, r.result);
    TextPart(4, r.message);
    DictPart(5, r.writeMap);
    DictPart(6, r.readMap);
    ContractEventsWritten(7, r.events);
    TextPart(8, r.contractName);
    TextPart(9, r.contractVersion);
    TextPart(10, r.chainId);
    assert |TX_RESPONSE| == |TxResponseParts(r)|;
    Written(TX_RESPONSE, TxResponseFields(r), TxResponseParts(r));
  }

  /** A TxResponse comes back from its bytes, field by field. */
  lemma TxResponseRoundTrip(r: TxResponse)
    requires |TxResponseBytes(r)| < 0x8000_0000_0000_0000
    ensures Decode(TX_RESPONSE, TxResponseBytes(r), Blank(TX_RESPONSE)) == Some(TxResponseFields(r))
    ensures TxResponseOf(TxResponseFields(r)) == r
  {
    TxResponseWritten(r);
    hide Encode, Decode, Schema, Fits, TxResponseBytes;
    Exchanged(TX_RESPONSE, TxResponseFields(r));
  }

  lemma CallContractRequestWritten(r: CallContractRequest)
    ensures Schema(CALL_CONTRACT_REQUEST)
    ensures Encode(CALL_CONTRACT_REQUEST, CallContractRequestFields(r)) == CallContractRequestBytes(r)
  {
    hide Schema, Shaped, Valid, Encode, EncodeValue, Join, NumAt, TextAt, DictAt, BlocksAt, Block;
    KnownSchemas(CALL_CONTRACT_REQUEST);
    TextPart(1, r.contractName);
    TextPart(2, r.contractMethod);
    DictPart(3, r.args);
    assert |CALL_CONTRACT_REQUEST| == |CallContractRequestParts(r)|;
    Written(CALL_CONTRACT_REQUEST, CallContractRequestFields(r), CallContractRequestParts(r));
  }

  /** A CallContractRequest comes back from its bytes, field by field. */
  lemma CallContractRequestRoundTrip(r: CallContractRequest)
    requires |CallContractRequestBytes(r)| < 0x8000_0000_0000_0000
    ensures Decode(CALL_CONTRACT_REQUEST, CallContractRequestBytes(r), Blank(CALL_CONTRACT_REQUEST))
            == Some(CallContractRequestFields(r))
    ensures CallContractRequestOf(CallContractRequestFields(r)) == r
  {
    CallContractRequestWritten(r);
    hide Encode, Decode, Schema, Fits, CallContractRequestBytes;
    Exchanged(CALL_CONTRACT_REQUEST, CallContractRequestFields(r));
  }

  lemma ResponseWritten(r: Response)
    ensures Schema(RESPONSE) && Encode(RESPONSE, ResponseFields(r)) == ResponseBytes(r)
  {
    hide Schema, Shaped, Valid, Encode, EncodeValue, Join, NumAt, TextAt, DictAt, BlocksAt, Block;
    KnownSchemas(RESPONSE);
    NumPart(Int32, 1, r.status);
    TextPart(2, r.message);
    TextPart(3, r.payload);
    assert |RESPONSE| == |ResponseParts(r)|;
    Written(RESPONSE, ResponseFields(r), ResponseParts(r));
  }

  /** A Response comes back from its bytes, field by field. */
  lemma ResponseRoundTrip(r: Response)
    requires |ResponseBytes(r)| < 0x8000_0000_0000_0000
    ensures Decode(RESPONSE, ResponseBytes(r), Blank(RESPONSE)) == Some(ResponseFields(r))
    ensures ResponseOf(ResponseFields(r)) == r
  {
    ResponseWritten(r);
    hide Encode, Decode, Schema, Fits, ResponseBytes;
    Exchanged(RESPONSE, ResponseFields(r));
  }

  lemma ContractResponseWritten(r: ContractResponse)
    ensures Schema(CONTRACT_RESPONSE)
    ensures Encode(CONTRACT_RESPONSE, ContractResponseFields(r)) == ContractResponseBytes(r)
  {
    hide Schema, Shaped, Valid, Encode, EncodeValue, Join, NumAt, TextAt, DictAt, BlocksAt, Block;
    KnownSchemas(CONTRACT_RESPONSE);
    if r.response.Some? {
      ResponseWritten(r.response.value);
      OnePart(RESPONSE, 1, ResponseFields(r.response.value));
    } else {
      KnownSchemas(RESPONSE);
      NilPart(RESPONSE, 1);
    }
    DictPart(2, r.writeMap);
    DictPart(3, r.readMap);
    ContractEventsWritten(4, r.events);
    assert |CONTRACT_RESPONSE| == |ContractResponseParts(r)|;
    Written(CONTRACT_RESPONSE, ContractResponseFields(r), ContractResponseParts(r));
  }

  /** A ContractResponse comes back from its bytes, field by field. */
  lemma ContractResponseRoundTrip(r: ContractResponse)
    requires |ContractResponseBytes(r)| < 0x8000_0000_0000_0000
    ensures Decode(CONTRACT_RESPONSE, ContractResponseBytes(r), Blank(CONTRACT_RESPONSE))
            == Some(ContractResponseFields(r))
    ensures ContractResponseOf(ContractResponseFields(r)) == r
  {
    ContractResponseWritten(r);
    hide Encode, Decode, Schema, Fits, ContractResponseBytes;
    Exchanged(CONTRACT_RESPONSE, ContractResponseFields(r));
  }

  lemma DockerVMMessageWritten(r: DockerVMMessage)
    ensures Schema(DOCKER_VM_MESSAGE) && Encode(DOCKER_VM_MESSAGE, DockerVMMessageFields(r)) == DockerVMMessageBytes(r)
  {
    hide Schema, Shaped, Valid, Encode, EncodeValue, Join, NumAt, TextAt, DictAt, BlocksAt, Block;
    KnownSchemas(DOCKER_VM_MESSAGE);
    TextPart(1, r.txId);
    NumPart(Int32, 2, r.kind);
    if r.crossContext.Some? {
      CrossContextWritten(r.crossContext.value);
      OnePart(CROSS_CONTEXT, 3, CrossContextFields(r.crossContext.value));
    } else {
      KnownSchemas(CROSS_CONTEXT);
      NilPart(CROSS_CONTEXT, 3);
    }
    if r.sysCallMessage.Some? {
      SysCallMessageWritten(r.sysCallMessage.value);
      OnePart(SYS_CALL_MESSAGE, 4, SysCallMessageFields(r.sysCallMessage.value));
    } else {
      KnownSchemas(SYS_CALL_MESSAGE);
      NilPart(SYS_CALL_MESSAGE, 4);
    }
    if r.request.Some? {
      TxRequestWritten(r.request.value);
      OnePart(TX_REQUEST, 5, TxRequestFields(r.request.value));
    } else {
      KnownSchemas(TX_REQUEST);
      NilPart(TX_REQUEST, 5);
    }
    if r.response.Some? {
      TxResponseWritten(r.response.value);
      OnePart(TX_RESPONSE, 6, TxResponseFields(r.response.value));
    } else {
      KnownSchemas(TX_RESPONSE);
      NilPart(TX_RESPONSE, 6);
    }
    TextPart(7, r.chainId);
    StepDurationsWritten(8, r.stepDurations);
    assert |DOCKER_VM_MESSAGE| == |DockerVMMessageParts(r)|;
    Written(DOCKER_VM_MESSAGE, DockerVMMessageFields(r), DockerVMMessageParts(r));
  }

  lemma StepDurationsBack(rs: seq<StepDuration>)
    ensures StepDurationsOf(StepDurationList(rs)) == rs
  {
  }

  lemma PartsBack(r: DockerVMMessage)
    ensures r.crossContext.Some? ==> CrossContextOf(CrossContextFields(r.crossContext.value)) == r.crossContext.value
    ensures r.sysCallMessage.Some? ==>
              SysCallMessageOf(SysCallMessageFields(r.sysCallMessage.value)) == r.sysCallMessage.value
    ensures r.request.Some? ==> TxRequestOf(TxRequestFields(r.request.value)) == r.request.value
    ensures r.response.Some? ==> TxResponseOf(TxResponseFields(r.response.value)) == r.response.value
  {
  }

  lemma DockerVMMessageBack(r: DockerVMMessage)
    ensures DockerVMMessageOf(DockerVMMessageFields(r)) == r
  {
    PartsBack(r);
    StepDurationsBack(r.stepDurations);
    hide Fits, CrossContextFields, SysCallMessageFields, TxRequestFields, TxResponseFields, StepDurationList;
    hide CrossContextOf, SysCallMessageOf, TxRequestOf, TxResponseOf, StepDurationsOf;
  }

  /** A DockerVMMessage comes back from its bytes, field by field. */
  lemma DockerVMMessageRoundTrip(r: DockerVMMessage)
    requires |DockerVMMessageBytes(r)| < 0x8000_0000_0000_0000
    ensures Decode(DOCKER_VM_MESSAGE, DockerVMMessageBytes(r), Blank(DOCKER_VM_MESSAGE))
            == Some(DockerVMMessageFields(r))
    ensures DockerVMMessageOf(DockerVMMessageFields(r)) == r
  {
    DockerVMMessageBack(r);
    hide DockerVMMessageOf, DockerVMMessageFields;
    DockerVMMessageWritten(r);
    hide Encode, Decode, Schema, Fits, DockerVMMessageBytes;
    Exchanged(DOCKER_VM_MESSAGE, DockerVMMessageFields(r));
  }
}
