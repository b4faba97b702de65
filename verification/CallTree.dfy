/**
 The time statistics of one original transaction: a tree of nested contract calls.
 A node is known by the order in which it was added; the original transaction is
 node 0.  Counters are unbounded.
 */
module CallTree {

  /** The counters that FinishTx adds up: number and duration of system calls, of bytecode requests, and of calls to
      other contracts.  The model follows one of them, whichever it is. */
  datatype Counter = SysCallCnt | SysCallDuration | ContingentSysCallCnt | ContingentSysCallDuration
                   | CrossCallCnt | CrossCallDuration

  /** The requests that a sandbox makes of the chain. */
  datatype Op = GetBytecode | GetState | GetBatchState | CreateKvIterator | ConsumeKvIterator
              | CreateKeyHistoryIter | ConsumeKeyHistoryIter | GetSenderAddress | CallContract | Other

  /** addSysCallDuration: what a system call adds to a counter. */
  function Recorded(which: Counter, op: Op, time: int): int {
    match op
    case GetBytecode =>
      if which == ContingentSysCallCnt then 1 else if which == ContingentSysCallDuration then time else 0
    case CallContract => if which == CrossCallCnt then 1 else if which == CrossCallDuration then time else 0
    case Other => 0
    case _ => if which == SysCallCnt then 1 else if which == SysCallDuration then time else 0
  }

  datatype Node = Node(children: seq<nat>, closed: bool, count: int)

  const FRESH := Node([], false, 0)

  /** Children are added later than their parents. */
  predicate Shape(nodes: seq<Node>) {
    nodes != [] && forall i, j :: 0 <= i < |nodes| && 0 <= j < |nodes[i].children| ==>
      i < nodes[i].children[j] < |nodes|
  }

  /** getCallerNode: the first open child is asked, from position `j` on; without one it is the node itself. */
  function CallerFrom(nodes: seq<Node>, i: nat, j: nat): (r: nat)
    requires Shape(nodes) && i < |nodes| && j <= |nodes[i].children|
    ensures i <= r < |nodes|
    decreases |nodes| - i, |nodes[i].children| - j
  {
    if j == |nodes[i].children| then i
    else if nodes[nodes[i].children[j]].closed then CallerFrom(nodes, i, j + 1)
    else CallerFrom(nodes, nodes[i].children[j], 0)
  }

  function Caller(nodes: seq<Node>): (r: nat)
    requires Shape(nodes)
    ensures r < |nodes|
  {
    CallerFrom(nodes, 0, 0)
  }

  /** AddTxDuration of a call: it is appended to the caller's list. */
  function AddCall(nodes: seq<Node>): seq<Node>
    requires Shape(nodes)
  {
    var c := Caller(nodes);
    nodes[c := nodes[c].(children := nodes[c].children + [|nodes|])] + [FRESH]
  }

  function Count(nodes: seq<Node>, i: nat, c: int): seq<Node>
    requires i < |nodes|
  {
    nodes[i := nodes[i].(count := nodes[i].count + c)]
  }

  /** FinishTx: the node is sealed and its counters are added to the root's. */
  function Finish(nodes: seq<Node>, i: nat): seq<Node>
    requires i < |nodes|
  {
    var sealed := nodes[i := nodes[i].(closed := true)];
    Count(sealed, 0, sealed[i].count)
  }

  // ----- well-nested runs -----

  /** The tree, and the stack of running calls with the innermost last. */
  datatype Calls = Calls(which: Counter, nodes: seq<Node>, stack: seq<nat>)

  function Start(which: Counter): Calls {
    Calls(which, [FRESH], [0])
  }

  datatype Event = Call | Return | Record(k: nat, op: Op, time: int)

  /** Calls return innermost first; a running call records its system calls. */
  predicate May(s: Calls, ev: Event) {
    Shape(s.nodes) && s.stack != [] && (forall k :: 0 <= k < |s.stack| ==> s.stack[k] < |s.nodes|)
    && (ev.Record? ==> ev.k < |s.stack|)
  }

  function Step(s: Calls, ev: Event): Calls
    requires May(s, ev)
  {
    match ev
    case Call => s.(nodes := AddCall(s.nodes), stack := s.stack + [|s.nodes|])
    case Return => s.(nodes := Finish(s.nodes, s.stack[|s.stack| - 1]), stack := s.stack[..|s.stack| - 1])
    case Record(k, op, time) => s.(nodes := Count(s.nodes, s.stack[k], Recorded(s.which, op, time)))
  }

  predicate OnStack(stack: seq<nat>, i: nat) {
    exists k :: 0 <= k < |stack| && stack[k] == i
  }

  /** An open child of a node is the call that the node is running. */
  predicate Runs(stack: seq<nat>, i: nat, c: nat) {
    exists k :: 0 <= k < |stack| - 1 && stack[k] == i && stack[k + 1] == c
  }

  /** From the root down, later calls deeper. */
  predicate Ascending(stack: seq<nat>, n: nat) {
    && stack != [] && stack[0] == 0
    && (forall k :: 0 <= k < |stack| ==> stack[k] < n)
    && (forall k, l :: 0 <= k < l < |stack| ==> stack[k] < stack[l])
  }

  predicate Child(nodes: seq<Node>, i: nat, c: nat) {
    i < |nodes| && exists j :: 0 <= j < |nodes[i].children| && nodes[i].children[j] == c
  }

  predicate Chained(nodes: seq<Node>, stack: seq<nat>) {
    forall k :: 0 <= k < |stack| - 1 ==> Child(nodes, stack[k], stack[k + 1])
  }

  ghost predicate OpenRuns(nodes: seq<Node>, stack: seq<nat>) {
    forall i: nat, c: nat :: Child(nodes, i, c) && c < |nodes| && !nodes[c].closed ==> Runs(stack, i, c)
  }

  predicate OpenStacked(nodes: seq<Node>, stack: seq<nat>) {
    forall i :: 0 <= i < |nodes| ==> (!nodes[i].closed <==> OnStack(stack, i))
  }

  ghost predicate Linked(nodes: seq<Node>, stack: seq<nat>) {
    Ascending(stack, |nodes|) && Chained(nodes, stack) && OpenRuns(nodes, stack) && OpenStacked(nodes, stack)
  }

  ghost predicate Good(s: Calls) {
    Shape(s.nodes) && Linked(s.nodes, s.stack)
  }

  // ----- the caller is the innermost running call -----

  /** A node on the stack runs only the next one. */
  lemma OnlyNext(stack: seq<nat>, n: nat, k: nat, c: nat)
    requires Ascending(stack, n) && k < |stack| && Runs(stack, stack[k], c)
    ensures k + 1 < |stack| && stack[k + 1] == c
  {
    var x :| 0 <= x < |stack| - 1 && stack[x] == stack[k] && stack[x + 1] == c;
    assert x == k;
  }

  /** Whichever child comes first, the innermost call is found behind the open one. */
  lemma {:induction false} CallerIsInnermost(nodes: seq<Node>, stack: seq<nat>, k: nat, j: nat)
    requires Shape(nodes) && Linked(nodes, stack) && k < |stack| && j <= |nodes[stack[k]].children|
    requires k + 1 < |stack| ==>
               exists x :: j <= x < |nodes[stack[k]].children| && nodes[stack[k]].children[x] == stack[k + 1]
    ensures CallerFrom(nodes, stack[k], j) == stack[|stack| - 1]
    decreases |nodes| - stack[k], |nodes[stack[k]].children| - j
  {
    var i := stack[k];
    if j < |nodes[i].children| {
      var c := nodes[i].children[j];
      if nodes[c].closed {
        if k + 1 < |stack| {
          assert OnStack(stack, stack[k + 1]);
          var x :| j <= x < |nodes[i].children| && nodes[i].children[x] == stack[k + 1];
          assert x != j;
        }
        CallerIsInnermost(nodes, stack, k, j + 1);
      } else {
        assert Child(nodes, i, c);
        OnlyNext(stack, |nodes|, k, c);
        if k + 2 < |stack| {
          assert Child(nodes, stack[k + 1], stack[k + 2]);
        }
        CallerIsInnermost(nodes, stack, k + 1, 0);
      }
    }
  }

  lemma CallerFound(nodes: seq<Node>, stack: seq<nat>)
    requires Shape(nodes) && Linked(nodes, stack)
    ensures Caller(nodes) == stack[|stack| - 1]
  {
    if 1 < |stack| {
      assert Child(nodes, stack[0], stack[1]);
    }
    CallerIsInnermost(nodes, stack, 0, 0);
  }

  // ----- every event keeps the tree in order -----

  lemma ChildAfterCall(nodes: seq<Node>, i: nat, c: nat)
    requires Shape(nodes)
    ensures Child(AddCall(nodes), i, c) <==> Child(nodes, i, c) || (i == Caller(nodes) && c == |nodes|)
  {
    var r := AddCall(nodes);
    var x := Caller(nodes);
    assert r[|nodes|].children == [];
    if Child(nodes, i, c) {
      var j :| 0 <= j < |nodes[i].children| && nodes[i].children[j] == c;
      assert r[i].children[j] == c;
    }
    if i == x && c == |nodes| {
      assert r[i].children[|nodes[i].children|] == c;
    }
  }

  lemma RunsLonger(stack: seq<nat>, x: nat, i: nat, c: nat)
    requires Runs(stack, i, c) || (stack != [] && i == stack[|stack| - 1] && c == x)
    ensures Runs(stack + [x], i, c)
  {
    if Runs(stack, i, c) {
      var k :| 0 <= k < |stack| - 1 && stack[k] == i && stack[k + 1] == c;
      assert (stack + [x])[k] == i && (stack + [x])[k + 1] == c;
    } else {
      assert (stack + [x])[|stack| - 1] == i && (stack + [x])[|stack|] == c;
    }
  }

  lemma StackLonger(stack: seq<nat>, x: nat, i: nat)
    ensures OnStack(stack + [x], i) <==> OnStack(stack, i) || i == x
  {
    if OnStack(stack, i) {
      var k :| 0 <= k < |stack| && stack[k] == i;
      assert (stack + [x])[k] == i;
    }
    assert (stack + [x])[|stack|] == x;
  }

  lemma CallLinked(nodes: seq<Node>, stack: seq<nat>)
    requires Shape(nodes) && Linked(nodes, stack) && Caller(nodes) == stack[|stack| - 1]
    ensures Shape(AddCall(nodes)) && Linked(AddCall(nodes), stack + [|nodes|])
  {
    var c := stack[|stack| - 1];
    var r, st := AddCall(nodes), stack + [|nodes|];
    assert forall i :: 0 <= i < |nodes| ==> r[i].closed == nodes[i].closed;
    assert r[|nodes|] == FRESH;
    assert Shape(r);
    hide Child, Runs, OnStack, AddCall, Caller;
    assert Ascending(st, |r|);
    forall k | 0 <= k < |st| - 1 ensures Child(r, st[k], st[k + 1]) {
      ChildAfterCall(nodes, st[k], st[k + 1]);
    }
    forall i: nat, x: nat | Child(r, i, x) && x < |r| && !r[x].closed ensures Runs(st, i, x) {
      ChildAfterCall(nodes, i, x);
      ChildBelow(nodes, i, x);
      RunsLonger(stack, |nodes|, i, x);
    }
    forall i | 0 <= i < |r| ensures !r[i].closed <==> OnStack(st, i) {
      StackLonger(stack, |nodes|, i);
      NotYet(nodes, stack);
    }
  }

  lemma ChildBelow(nodes: seq<Node>, i: nat, c: nat)
    requires Shape(nodes)
    ensures Child(nodes, i, c) ==> c < |nodes|
  {
  }

  lemma NotYet(nodes: seq<Node>, stack: seq<nat>)
    requires Ascending(stack, |nodes|)
    ensures !OnStack(stack, |nodes|)
  {
  }

  lemma GoodMay(s: Calls, ev: Event)
    requires Good(s) && (ev.Record? ==> ev.k < |s.stack|)
    ensures May(s, ev)
  {
    hide Chained, OpenRuns, OpenStacked;
  }

  lemma CallGood(s: Calls)
    requires Good(s)
    ensures May(s, Call) && Good(Step(s, Call))
  {
    GoodMay(s, Call);
    hide Linked, Shape, AddCall, May;
    CallerFound(s.nodes, s.stack);
    CallLinked(s.nodes, s.stack);
  }

  lemma FinishShape(nodes: seq<Node>, c: nat)
    requires Shape(nodes) && 0 < c < |nodes|
    ensures var r := Finish(nodes, c);
            && Shape(r) && |r| == |nodes|
            && (forall i :: 0 <= i < |nodes| ==>
                  r[i].children == nodes[i].children && r[i].closed == (nodes[i].closed || i == c))
            && (forall i :: 0 < i < |nodes| ==> r[i].count == nodes[i].count)
            && r[0].count == nodes[0].count + nodes[c].count
            && (forall i: nat, x: nat :: Child(r, i, x) <==> Child(nodes, i, x))
  {
  }

  lemma RunsShorter(stack: seq<nat>, n: nat, i: nat, c: nat)
    requires Ascending(stack, n) && Runs(stack, i, c) && c != stack[|stack| - 1]
    ensures Runs(stack[..|stack| - 1], i, c)
  {
    var st := stack[..|stack| - 1];
    var k :| 0 <= k < |stack| - 1 && stack[k] == i && stack[k + 1] == c;
    assert st[k] == i && st[k + 1] == c;
  }

  lemma StackShorter(stack: seq<nat>, n: nat, i: nat)
    requires Ascending(stack, n)
    ensures OnStack(stack[..|stack| - 1], i) <==> OnStack(stack, i) && i != stack[|stack| - 1]
  {
    var st := stack[..|stack| - 1];
    if OnStack(stack, i) && i != stack[|stack| - 1] {
      var k :| 0 <= k < |stack| && stack[k] == i;
      assert st[k] == i;
    }
    if OnStack(st, i) {
      var k :| 0 <= k < |st| && st[k] == i;
      assert stack[k] < stack[|stack| - 1];
    }
  }

  lemma ReturnLinked(nodes: seq<Node>, stack: seq<nat>)
    requires Shape(nodes) && Linked(nodes, stack) && |stack| > 1
    ensures Linked(Finish(nodes, stack[|stack| - 1]), stack[..|stack| - 1])
  {
    var c := stack[|stack| - 1];
    FinishShape(nodes, c);
    var r, st := Finish(nodes, c), stack[..|stack| - 1];
    hide Child, Runs, OnStack, Finish;
    assert Ascending(st, |r|);
    forall k | 0 <= k < |st| - 1 ensures Child(r, st[k], st[k + 1]) {
      assert Child(nodes, stack[k], stack[k + 1]);
    }
    forall i: nat, x: nat | Child(r, i, x) && x < |r| && !r[x].closed ensures Runs(st, i, x) {
      RunsShorter(stack, |nodes|, i, x);
    }
    forall i | 0 <= i < |r| ensures !r[i].closed <==> OnStack(st, i) {
      StackShorter(stack, |nodes|, i);
    }
  }

  lemma ReturnGood(s: Calls)
    requires Good(s) && |s.stack| > 1
    ensures May(s, Return) && Good(Step(s, Return))
  {
    var c := s.stack[|s.stack| - 1];
    assert 0 < c;
    FinishShape(s.nodes, c);
    ReturnLinked(s.nodes, s.stack);
    hide Linked, Shape, Finish, Child;
  }

  lemma RecordGood(s: Calls, k: nat, op: Op, time: int)
    requires Good(s) && k < |s.stack|
    ensures May(s, Record(k, op, time)) && Good(Step(s, Record(k, op, time)))
  {
    var i := s.stack[k];
    GoodMay(s, Record(k, op, time));
    hide Linked, Shape, Recorded, Count;
    CountShape(s.nodes, i, Recorded(s.which, op, time), s.stack);
  }

  lemma CountShape(nodes: seq<Node>, i: nat, c: int, stack: seq<nat>)
    requires Shape(nodes) && Linked(nodes, stack) && i < |nodes|
    ensures Shape(Count(nodes, i, c)) && Linked(Count(nodes, i, c), stack)
  {
    var r := Count(nodes, i, c);
    hide Runs, OnStack;
    assert forall j :: 0 <= j < |nodes| ==> r[j].children == nodes[j].children && r[j].closed == nodes[j].closed;
    assert forall j: nat, x: nat :: Child(r, j, x) <==> Child(nodes, j, x);
  }

  // ----- runs -----

  /** Events before the original transaction itself finishes. */
  predicate Possible(s: Calls, evs: seq<Event>)
    decreases |evs|
  {
    evs == [] || (May(s, evs[0]) && (evs[0].Return? ==> |s.stack| > 1) && Possible(Step(s, evs[0]), evs[1..]))
  }

  function After(s: Calls, evs: seq<Event>): Calls
    requires Possible(s, evs)
    decreases |evs|
  {
    if evs == [] then s else After(Step(s, evs[0]), evs[1..])
  }

  lemma StepGood(s: Calls, ev: Event)
    requires Good(s) && May(s, ev) && (ev.Return? ==> |s.stack| > 1)
    ensures Good(Step(s, ev))
  {
    hide Good, Step;
    match ev
    case Call => CallGood(s);
    case Return => ReturnGood(s);
    case Record(k, op, time) => RecordGood(s, k, op, time);
  }

  lemma {:induction false} RunGood(s: Calls, evs: seq<Event>)
    requires Good(s) && Possible(s, evs)
    ensures Good(After(s, evs))
    decreases |evs|
  {
    hide Good, Step, May;
    if evs != [] {
      StepGood(s, evs[0]);
      RunGood(Step(s, evs[0]), evs[1..]);
    }
  }

  lemma StartGood(which: Counter)
    ensures Good(Start(which))
  {
    assert [0][0] == 0 && OnStack([0], 0);
    assert forall i: nat, c: nat :: !Child([FRESH], i, c);
    assert Linked([FRESH], [0]);
    hide Linked;
  }

  // ----- the totals, from the history of events alone -----

  /** The running calls after some events, by the number of events up to and including their start; the original
      transaction is 0. */
  function Open(evs: seq<Event>): (r: seq<nat>)
    ensures forall k :: 0 <= k < |r| ==> r[k] <= |evs|
  {
    if evs == [] then [0]
    else
      var before := Open(evs[..|evs| - 1]);
      match evs[|evs| - 1]
      case Call => before + [|evs|]
      case Return => if before == [] then [] else before[..|before| - 1]
      case Record(_, _, _) => before
  }

  /** The p-th event is a request of that kind, made by the call `maker`. */
  predicate MadeBy(evs: seq<Event>, ops: set<Op>, p: nat, maker: nat) {
    && p < |evs| && evs[p].Record? && evs[p].op in ops
    && evs[p].k < |Open(evs[..p])| && Open(evs[..p])[evs[p].k] == maker
  }

  predicate In(calls: seq<nat>, c: nat) {
    exists k :: 0 <= k < |calls| && calls[k] == c
  }

  /** The p-th event is a request of that kind, made by the original transaction or by a call that is not running. */
  ghost predicate Settled(evs: seq<Event>, ops: set<Op>, p: nat, running: seq<nat>) {
    exists maker: nat :: MadeBy(evs, ops, p, maker) && (maker == 0 || !In(running, maker))
  }

  /** One request: counted, or with its time. */
  function Worth(ev: Event, timed: bool): int {
    if !ev.Record? then 0 else if timed then ev.time else 1
  }

  /** How many requests among the first n events are settled, or how long they took. */
  ghost function Total(evs: seq<Event>, ops: set<Op>, timed: bool, running: seq<nat>, n: nat): int
    requires n <= |evs|
  {
    if n == 0 then 0
    else Total(evs, ops, timed, running, n - 1)
         + if Settled(evs, ops, n - 1, running) then Worth(evs[n - 1], timed) else 0
  }

  /** The same for the requests of one call. */
  function OwnTotal(evs: seq<Event>, ops: set<Op>, timed: bool, maker: nat, n: nat): int
    requires n <= |evs|
  {
    if n == 0 then 0
    else OwnTotal(evs, ops, timed, maker, n - 1)
         + if MadeBy(evs, ops, n - 1, maker) then Worth(evs[n - 1], timed) else 0
  }

  /** Number of the settled requests in the whole history. */
  ghost function Number(evs: seq<Event>, ops: set<Op>): int {
    Total(evs, ops, false, Open(evs), |evs|)
  }

  /** Their time. */
  ghost function Spent(evs: seq<Event>, ops: set<Op>): int {
    Total(evs, ops, true, Open(evs), |evs|)
  }

  const STATE_OPS := {GetState, GetBatchState, CreateKvIterator, ConsumeKvIterator, CreateKeyHistoryIter,
                      ConsumeKeyHistoryIter, GetSenderAddress}

  function OpsOf(which: Counter): set<Op> {
    if which == SysCallCnt || which == SysCallDuration then STATE_OPS
    else if which == CrossCallCnt || which == CrossCallDuration then {CallContract}
    else {GetBytecode}
  }

  predicate IsTime(which: Counter) {
    which == SysCallDuration || which == CrossCallDuration || which == ContingentSysCallDuration
  }

  lemma RecordedIs(which: Counter, k: nat, op: Op, time: int)
    ensures Recorded(which, op, time) == if op in OpsOf(which) then Worth(Record(k, op, time), IsTime(which)) else 0
  {
  }

  // ----- one more event -----

  lemma OpenMore(evs: seq<Event>, ev: Event)
    ensures var b, r := Open(evs), Open(evs + [ev]);
            match ev
            case Call => r == b + [|evs| + 1]
            case Return => r == if b == [] then [] else b[..|b| - 1]
            case Record(_, _, _) => r == b
  {
    assert (evs + [ev])[..|evs|] == evs;
  }

  lemma MadeByMore(evs: seq<Event>, ev: Event, ops: set<Op>, p: nat, maker: nat)
    requires p < |evs|
    ensures MadeBy(evs + [ev], ops, p, maker) <==> MadeBy(evs, ops, p, maker)
  {
    assert (evs + [ev])[..p] == evs[..p];
  }

  lemma MadeByLast(evs: seq<Event>, ev: Event, ops: set<Op>, maker: nat)
    ensures MadeBy(evs + [ev], ops, |evs|, maker) <==>
            ev.Record? && ev.op in ops && ev.k < |Open(evs)| && Open(evs)[ev.k] == maker
  {
    assert (evs + [ev])[..|evs|] == evs;
  }

  /** A request was made by a call that had started. */
  lemma MadeByEarlier(evs: seq<Event>, ops: set<Op>, p: nat, maker: nat)
    ensures MadeBy(evs, ops, p, maker) ==> maker <= |evs|
  {
  }

  lemma {:induction false} OwnMore(evs: seq<Event>, ev: Event, ops: set<Op>, timed: bool, maker: nat, n: nat)
    requires n <= |evs|
    ensures OwnTotal(evs + [ev], ops, timed, maker, n) == OwnTotal(evs, ops, timed, maker, n)
    decreases n
  {
    if n > 0 {
      MadeByMore(evs, ev, ops, n - 1, maker);
      OwnMore(evs, ev, ops, timed, maker, n - 1);
    }
  }

  lemma {:induction false} OwnNone(evs: seq<Event>, ops: set<Op>, timed: bool, maker: nat, n: nat)
    requires n <= |evs| && maker > |evs|
    ensures OwnTotal(evs, ops, timed, maker, n) == 0
    decreases n
  {
    if n > 0 {
      OwnNone(evs, ops, timed, maker, n - 1);
      MadeByEarlier(evs, ops, n - 1, maker);
    }
  }

  /** The running calls may change as long as none of those that made the requests comes or goes. */
  lemma {:induction false} TotalSame(evs: seq<Event>, ev: Event, ops: set<Op>, timed: bool, a: seq<nat>, b: seq<nat>,
                                     n: nat)
    requires n <= |evs| && forall c: nat :: 0 < c <= |evs| ==> (In(a, c) <==> In(b, c))
    ensures Total(evs + [ev], ops, timed, b, n) == Total(evs, ops, timed, a, n)
    decreases n
  {
    hide MadeBy, In;
    if n > 0 {
      var p: nat := n - 1;
      TotalSame(evs, ev, ops, timed, a, b, n - 1);
      forall maker: nat ensures MadeBy(evs + [ev], ops, p, maker) <==> MadeBy(evs, ops, p, maker) {
        MadeByMore(evs, ev, ops, p, maker);
      }
      forall maker: nat ensures MadeBy(evs, ops, p, maker) ==> maker <= |evs| {
        MadeByEarlier(evs, ops, p, maker);
      }
    }
  }

  lemma OneMaker(evs: seq<Event>, ops: set<Op>, p: nat, c: nat, d: nat)
    requires MadeBy(evs, ops, p, c) && MadeBy(evs, ops, p, d)
    ensures c == d
  {
  }

  /** When a call returns, its requests are settled with the others. */
  lemma {:induction false} TotalReturn(evs: seq<Event>, ops: set<Op>, timed: bool, a: seq<nat>, b: seq<nat>, c: nat,
                                       n: nat)
    requires n <= |evs| && c > 0 && In(a, c) && !In(b, c) && forall d: nat :: d != c ==> (In(a, d) <==> In(b, d))
    ensures Total(evs + [Return], ops, timed, b, n) == Total(evs, ops, timed, a, n) + OwnTotal(evs, ops, timed, c, n)
    decreases n
  {
    hide MadeBy, In;
    if n > 0 {
      var p: nat := n - 1;
      TotalReturn(evs, ops, timed, a, b, c, n - 1);
      var all := evs + [Return];
      forall maker: nat ensures MadeBy(all, ops, p, maker) <==> MadeBy(evs, ops, p, maker) {
        MadeByMore(evs, Return, ops, p, maker);
      }
      if maker: nat :| MadeBy(evs, ops, p, maker) {
        forall d: nat | MadeBy(evs, ops, p, d) ensures d == maker {
          OneMaker(evs, ops, p, maker, d);
        }
        assert Settled(evs, ops, p, a) <==> maker == 0 || !In(a, maker);
        assert Settled(all, ops, p, b) <==> maker == 0 || !In(b, maker);
      }
    }
  }

  /** A request of the original transaction is settled at once, one of a running call is not. */
  lemma TotalRecord(evs: seq<Event>, k: nat, op: Op, time: int, ops: set<Op>, timed: bool)
    requires k < |Open(evs)| && Open(evs)[0] == 0 && (k > 0 ==> Open(evs)[k] > 0)
    ensures var ev := Record(k, op, time);
            Total(evs + [ev], ops, timed, Open(evs), |evs| + 1)
            == Total(evs, ops, timed, Open(evs), |evs|) + if k == 0 && op in ops then Worth(ev, timed) else 0
  {
    var ev := Record(k, op, time);
    var maker := Open(evs)[k];
    TotalSame(evs, ev, ops, timed, Open(evs), Open(evs), |evs|);
    forall d: nat ensures MadeBy(evs + [ev], ops, |evs|, d) <==> op in ops && d == maker {
      MadeByLast(evs, ev, ops, d);
    }
    assert In(Open(evs), maker);
    hide MadeBy, In, Open;
    assert Settled(evs + [ev], ops, |evs|, Open(evs)) <==> op in ops && maker == 0;
  }

  // ----- the counters show the totals -----

  /** The history has the same running calls as the tree, the root shows the settled requests and every running call
      below it its own. */
  ghost predicate Shows(s: Calls, evs: seq<Event>) {
    var open := Open(evs);
    && |open| == |s.stack| && open != [] && open[0] == 0
    && (forall k, l :: 0 <= k < l < |open| ==> open[k] < open[l])
    && s.nodes != [] && s.nodes[0].count == Total(evs, OpsOf(s.which), IsTime(s.which), open, |evs|)
    && forall k :: 0 < k < |open| ==>
         s.stack[k] < |s.nodes|
         && s.nodes[s.stack[k]].count == OwnTotal(evs, OpsOf(s.which), IsTime(s.which), open[k], |evs|)
  }

  lemma CallCounts(nodes: seq<Node>)
    requires Shape(nodes)
    ensures var r := AddCall(nodes);
            |r| == |nodes| + 1 && r[|nodes|].count == 0 && forall i :: 0 <= i < |nodes| ==> r[i].count == nodes[i].count
  {
  }

  lemma CallShows(s: Calls, evs: seq<Event>)
    requires Good(s) && Shows(s, evs) && May(s, Call)
    ensures Shows(Step(s, Call), evs + [Call])
  {
    var ops, timed, open := OpsOf(s.which), IsTime(s.which), Open(evs);
    var r, all := Step(s, Call), evs + [Call];
    CallCounts(s.nodes);
    OpenMore(evs, Call);
    forall c: nat | 0 < c <= |evs| ensures In(open, c) <==> In(Open(all), c) {
      if k :| 0 <= k < |open| && open[k] == c {
        assert Open(all)[k] == c;
      }
    }
    assert forall k :: 0 <= k < |s.stack| ==> s.stack[k] < |s.nodes| && r.stack[k] == s.stack[k];
    assert r.stack[|s.stack|] == |s.nodes|;
    hide Good, AddCall, Shape, MadeBy, Open, OpsOf, In;
    TotalSame(evs, Call, ops, timed, open, Open(all), |evs|);
    LastNothing(evs, Call, ops, timed, Open(all));
    forall k | 0 < k < |Open(all)|
      ensures r.stack[k] < |r.nodes| && r.nodes[r.stack[k]].count == OwnTotal(all, ops, timed, Open(all)[k], |all|)
    {
      OwnLast(evs, Call, ops, timed, Open(all)[k]);
      if k == |open| {
        OwnNone(evs, ops, timed, |evs| + 1, |evs|);
      }
    }
  }

  /** Calls and returns are no requests. */
  lemma LastNothing(evs: seq<Event>, ev: Event, ops: set<Op>, timed: bool, running: seq<nat>)
    requires !ev.Record?
    ensures Total(evs + [ev], ops, timed, running, |evs| + 1) == Total(evs + [ev], ops, timed, running, |evs|)
  {
  }

  lemma OwnLast(evs: seq<Event>, ev: Event, ops: set<Op>, timed: bool, maker: nat)
    ensures OwnTotal(evs + [ev], ops, timed, maker, |evs| + 1)
            == OwnTotal(evs, ops, timed, maker, |evs|)
               + if MadeBy(evs + [ev], ops, |evs|, maker) then Worth(ev, timed) else 0
    ensures MadeBy(evs + [ev], ops, |evs|, maker) <==>
            ev.Record? && ev.op in ops && ev.k < |Open(evs)| && Open(evs)[ev.k] == maker
  {
    OwnMore(evs, ev, ops, timed, maker, |evs|);
    MadeByLast(evs, ev, ops, maker);
  }

  lemma ReturnCounts(s: Calls)
    requires Good(s) && May(s, Return) && |s.stack| > 1
    ensures var r, n := Step(s, Return), |s.stack| - 1;
            var c := s.stack[n];
            && 0 < c < |s.nodes| == |r.nodes| && r.stack == s.stack[..n] && r.which == s.which
            && r.nodes[0].count == s.nodes[0].count + s.nodes[c].count
            && forall k :: 0 < k < n ==>
                 0 < s.stack[k] < |s.nodes| && r.nodes[s.stack[k]].count == s.nodes[s.stack[k]].count
  {
    var n := |s.stack| - 1;
    assert Ascending(s.stack, |s.nodes|);
    assert forall k :: 0 < k <= n ==> s.stack[0] < s.stack[k] < |s.nodes|;
    hide Child, Runs, OnStack, Finish, Linked;
    FinishShape(s.nodes, s.stack[n]);
  }

  lemma ReturnShows(s: Calls, evs: seq<Event>)
    requires Good(s) && Shows(s, evs) && May(s, Return) && |s.stack| > 1
    ensures Shows(Step(s, Return), evs + [Return])
  {
    hide Good, Step, MadeBy, Open, OpsOf, In;
    var ops, timed, open := OpsOf(s.which), IsTime(s.which), Open(evs);
    var r, all, n := Step(s, Return), evs + [Return], |open| - 1;
    ReturnCounts(s);
    OpenMore(evs, Return);
    assert Open(all) == open[..n] && open[n] > 0;
    ShorterIn(open);
    TotalReturn(evs, ops, timed, open, Open(all), open[n], |evs|);
    LastNothing(evs, Return, ops, timed, Open(all));
    forall k | 0 < k < n
      ensures r.stack[k] < |r.nodes| && r.nodes[r.stack[k]].count == OwnTotal(all, ops, timed, Open(all)[k], |all|)
    {
      OwnLast(evs, Return, ops, timed, open[k]);
    }
  }

  lemma ShorterIn(open: seq<nat>)
    requires open != [] && forall k, l :: 0 <= k < l < |open| ==> open[k] < open[l]
    ensures var n := |open| - 1;
            In(open, open[n]) && !In(open[..n], open[n])
            && forall d: nat :: d != open[n] ==> (In(open, d) <==> In(open[..n], d))
  {
    var n := |open| - 1;
    forall d: nat | d != open[n] && In(open, d) ensures In(open[..n], d) {
      var k :| 0 <= k < |open| && open[k] == d;
      assert open[..n][k] == d;
    }
  }

  lemma RecordShows(s: Calls, evs: seq<Event>, k: nat, op: Op, time: int)
    requires Good(s) && Shows(s, evs) && May(s, Record(k, op, time))
    ensures Shows(Step(s, Record(k, op, time)), evs + [Record(k, op, time)])
  {
    var ops, timed, open, ev := OpsOf(s.which), IsTime(s.which), Open(evs), Record(k, op, time);
    var r, all := Step(s, ev), evs + [ev];
    OpenMore(evs, ev);
    RecordedIs(s.which, k, op, time);
    assert s.stack[0] == 0 && forall j, l :: 0 <= j < l < |s.stack| ==> s.stack[j] < s.stack[l];
    hide Good, Shape, MadeBy, Open, OpsOf, In, Recorded;
    TotalRecord(evs, k, op, time, ops, timed);
    forall j | 0 < j < |open|
      ensures r.stack[j] < |r.nodes| && r.nodes[r.stack[j]].count == OwnTotal(all, ops, timed, open[j], |all|)
    {
      OwnLast(evs, ev, ops, timed, open[j]);
    }
  }

  lemma StepShows(s: Calls, evs: seq<Event>, ev: Event)
    requires Good(s) && Shows(s, evs) && May(s, ev) && (ev.Return? ==> |s.stack| > 1)
    ensures Shows(Step(s, ev), evs + [ev])
  {
    hide Good, Step, Shows, May;
    match ev
    case Call => CallShows(s, evs);
    case Return => ReturnShows(s, evs);
    case Record(k, op, time) => RecordShows(s, evs, k, op, time);
  }

  lemma {:induction false} RunShows(s: Calls, past: seq<Event>, evs: seq<Event>)
    requires Good(s) && Shows(s, past) && Possible(s, evs)
    ensures Shows(After(s, evs), past + evs) && After(s, evs).which == s.which
    decreases |evs|
  {
    if evs != [] {
      assert Step(s, evs[0]).which == s.which;
    }
    hide Good, Step, May, Shows;
    if evs == [] {
      assert past + evs == past;
    } else {
      StepGood(s, evs[0]);
      StepShows(s, past, evs[0]);
      assert past + [evs[0]] + evs[1..] == past + evs;
      RunShows(Step(s, evs[0]), past + [evs[0]], evs[1..]);
    }
  }

  lemma StartShows(which: Counter)
    ensures Shows(Start(which), [])
  {
  }

  /** In every well-nested run: the open nodes are a single path from the root, each the child of the one before, and
      the next call is attached to the innermost running one. */
  lemma InnermostCaller(which: Counter, evs: seq<Event>)
    requires Possible(Start(which), evs)
    ensures var s := After(Start(which), evs);
            && Ascending(s.stack, |s.nodes|) && Chained(s.nodes, s.stack) && OpenStacked(s.nodes, s.stack)
            && Shape(s.nodes) && Caller(s.nodes) == s.stack[|s.stack| - 1]
  {
    StartGood(which);
    RunGood(Start(which), evs);
    hide Possible, After, Chained, OpenRuns, OpenStacked, Shape;
    var s := After(Start(which), evs);
    CallerFound(s.nodes, s.stack);
  }

  /** In every well-nested run until the original transaction finishes: its six counters show number and time of the
      state requests, the cross-contract calls and the bytecode requests that it and the finished calls have made.
      Other requests count nowhere. */
  lemma RootShowsTotals(which: Counter, evs: seq<Event>)
    requires Possible(Start(which), evs)
    ensures After(Start(which), evs).nodes != []
    ensures var count := After(Start(which), evs).nodes[0].count;
            match which
            case SysCallCnt => count == Number(evs, STATE_OPS)
            case SysCallDuration => count == Spent(evs, STATE_OPS)
            case CrossCallCnt => count == Number(evs, {CallContract})
            case CrossCallDuration => count == Spent(evs, {CallContract})
            case ContingentSysCallCnt => count == Number(evs, {GetBytecode})
            case ContingentSysCallDuration => count == Spent(evs, {GetBytecode})
  {
    hide Possible, After, Total, Open, Good;
    StartGood(which);
    StartShows(which);
    RunShows(Start(which), [], evs);
    assert [] + evs == evs;
  }

  /** Finishing the original transaction adds its counts to themselves: the root then shows everything twice. */
  lemma RootFinishDoubles(which: Counter, evs: seq<Event>)
    requires Possible(Start(which), evs) && |After(Start(which), evs).stack| == 1
    ensures var s := After(Start(which), evs);
            && May(s, Return) && s.nodes != [] && Step(s, Return).nodes != []
            && Step(s, Return).nodes[0].count == 2 * s.nodes[0].count && Step(s, Return).nodes[0].closed
  {
    StartGood(which);
    RunGood(Start(which), evs);
    var s := After(Start(which), evs);
    assert s.stack[0] == 0;
    hide Possible, After, OpenRuns, OpenStacked, Chained;
  }

  /** The search looks at children and seals only. */
  lemma {:induction false} SameCaller(a: seq<Node>, b: seq<Node>, i: nat, j: nat)
    requires Shape(a) && Shape(b) && |a| == |b| && i < |a| && j <= |a[i].children|
    requires forall k :: 0 <= k < |a| ==> a[k].children == b[k].children && a[k].closed == b[k].closed
    ensures CallerFrom(a, i, j) == CallerFrom(b, i, j)
    decreases |a| - i, |a[i].children| - j
  {
    if j < |a[i].children| {
      if a[a[i].children[j]].closed {
        SameCaller(a, b, i, j + 1);
      } else {
        SameCaller(a, b, a[i].children[j], 0);
      }
    }
  }

  // ----- the recorder -----

  /** The nodes of one original transaction, updated in place. */
  class TxDurations {
    const which: Counter
    var nodes: seq<Node>

    constructor (counter: Counter)
      ensures which == counter && nodes == Start(counter).nodes
    {
      which, nodes := counter, [FRESH];
    }

    /** getCallerNode from node `e`. */
    method GetCallerNode(e: nat) returns (r: nat)
      requires Shape(nodes) && e < |nodes|
      ensures r == CallerFrom(nodes, e, 0)
      decreases |nodes| - e
    {
      var j := 0;
      while j < |nodes[e].children|
        invariant j <= |nodes[e].children| && CallerFrom(nodes, e, 0) == CallerFrom(nodes, e, j)
      {
        var item := nodes[e].children[j];
        if !nodes[item].closed {
          r := GetCallerNode(item);
          return;
        }
        j := j + 1;
      }
      r := e;
    }

    method AddTxDuration()
      requires Shape(nodes)
      modifies this
      ensures nodes == AddCall(old(nodes))
    {
      var c := GetCallerNode(0);
      nodes := nodes[c := nodes[c].(children := nodes[c].children + [|nodes|])] + [FRESH];
    }

    /** The call's own counter grows, and nothing else does: tree, open calls and all other counts stay. */
    method EndSysCall(i: nat, op: Op, time: int)
      requires i < |nodes|
      modifies this
      ensures nodes == Count(old(nodes), i, Recorded(which, op, time))
      ensures |nodes| == |old(nodes)| && (Shape(old(nodes)) ==> Shape(nodes) && Caller(nodes) == Caller(old(nodes)))
      ensures forall j :: 0 <= j < |nodes| && j != i ==> nodes[j] == old(nodes)[j]
    {
      if Shape(nodes) {
        SameCaller(nodes, Count(nodes, i, Recorded(which, op, time)), 0, 0);
      }
      nodes := nodes[i := nodes[i].(count := nodes[i].count + Recorded(which, op, time))];
    }

    method FinishTx(i: nat)
      requires i < |nodes|
      modifies this
      ensures nodes == Finish(old(nodes), i)
    {
      nodes := nodes[i := nodes[i].(closed := true)];
      nodes := nodes[0 := nodes[0].(count := nodes[0].count + nodes[i].count)];
    }
  }
}
