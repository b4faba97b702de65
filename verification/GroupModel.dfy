/**
 One request group: the three-state contract loader, its buffer, the two
 transaction queues that processes read, and the two flags that stop a group from
 asking its process managers twice.
 */
module GroupModel {
  import opened Keys
  import opened Transactions

  datatype Msg = TxMsg(tx: Tx) | CodeMsg(ok: bool)

  datatype Load = Empty | Waiting | Ready

  /** The bytecode timer; the initial, never triggered setting counts as not armed. */
  datatype Timer = Timer(armed: bool, tick: bool)

  datatype Controller = Controller(queue: seq<Tx>, waiting: bool)

  datatype Group = Group(
    key: GroupKey,
    load: Load,
    timer: Timer,
    version: int,
    inbox: seq<Msg>,       // txCh
    bad: seq<int>,         // BadContractResp messages, by contract file version
    buf: seq<Tx>,          // bufCh
    orig: Controller,
    cross: Controller,
    blocked: bool)         // the event loop waits for the empty buffer

  function NewGroup(key: GroupKey): Group {
    Group(key, Empty, Timer(false, false), 0, [], [], [], Controller([], false), Controller([], false), false)
  }

  function Ctl(g: Group, isOrig: bool): Controller {
    if isOrig then g.orig else g.cross
  }

  function WithCtl(g: Group, isOrig: bool, c: Controller): Group {
    if isOrig then g.(orig := c) else g.(cross := c)
  }

  /** What the group reads from a process manager: processes of its contract, and those ready or busy. */
  datatype Counts = Counts(live: nat, active: nat)

  /** The group after a step, the process numbers it asks its two managers for (zero: no message), the transactions
      it answers with an error, and its requests to the contract manager. */
  datatype Out = Out(g: Group, askOrig: nat, askCross: nat, errors: seq<Tx>, loads: nat)

  /** getProcesses. */
  function GetProcesses(g: Group, isOrig: bool, c: Counts): Out {
    var need := |Ctl(g, isOrig).queue| - (c.live - c.active);
    if Ctl(g, isOrig).waiting || g.load != Ready || need <= 0 then Out(g, 0, 0, [], 0)
    else Out(WithCtl(g, isOrig, Ctl(g, isOrig).(waiting := true)), if isOrig then need else 0, if isOrig then
      0 else need, [], 0)
  }

  /** enqueueCh. */
  function Enqueue(g: Group, tx: Tx): Group {
    WithCtl(g, IsOrig(tx), Ctl(g, IsOrig(tx)).(queue := Ctl(g, IsOrig(tx)).queue + [tx]))
  }

  function EnqueueAll(g: Group, txs: seq<Tx>): Group
    decreases |txs|
  {
    if txs == [] then g else EnqueueAll(Enqueue(g, txs[0]), txs[1..])
  }

  /** sendGetContractReq: the timer is reset and further transactions only wait. */
  function Request(g: Group): Group {
    g.(timer := g.timer.(armed := true), load := Waiting)
  }

  function HandleTx(g: Group, tx: Tx, depthLimit: nat, c: Counts): Out {
    match g.load
    case Empty => Out(Request(g.(buf := g.buf + [tx])), 0, 0, [], 1)
    case Waiting => Out(g.(buf := g.buf + [tx]), 0, 0, [], 0)
    case Ready =>
      if tx.depth > depthLimit then Out(g, 0, 0, [tx], 0)
      else GetProcesses(Enqueue(g, tx), IsOrig(tx), c)
  }

  /** handleGetBytecodeErr: the receive from an empty buffer never returns. */
  function HandleLoadError(g: Group): Out {
    var g1 := g.(load := Empty);
    if g.buf == [] then Out(g1.(blocked := true), 0, 0, [], 0)
    else
      var g2 := g1.(buf := g.buf[1..]);
      if g2.buf == [] then Out(g2, 0, 0, [g.buf[0]], 0) else Out(Request(g2), 0, 0, [g.buf[0]], 1)
  }

  function HandleCode(g: Group, ok: bool, now: int, co: Counts, cc: Counts): Out {
    var g1 := g.(timer := Timer(false, false));
    if !ok then HandleLoadError(g1)
    else
      var g2 := EnqueueAll(g1.(load := Ready, version := now, buf := []), g.buf);
      var o := GetProcesses(g2, true, co);
      var x := GetProcesses(o.g, false, cc);
      Out(x.g, o.askOrig, x.askCross, [], 0)
  }

  function HandleReady(g: Group, isOrig: bool, c: Counts): Out {
    GetProcesses(WithCtl(g, isOrig, Ctl(g, isOrig).(waiting := false)), isOrig, c)
  }

  function HandleBad(g: Group, version: int): Out {
    if g.load != Ready || version != g.version then Out(g, 0, 0, [], 0)
    else if g.orig.queue != [] || g.cross.queue != [] then Out(Request(g.(load := Empty)), 0, 0, [], 1)
    else Out(g.(load := Empty), 0, 0, [], 0)
  }

  /** A process receives from a queue. */
  function Pop(g: Group, isOrig: bool): Group
    requires Ctl(g, isOrig).queue != []
  {
    WithCtl(g, isOrig, Ctl(g, isOrig).(queue := Ctl(g, isOrig).queue[1..]))
  }

  datatype Event =
    | PutTx(tx: Tx)
    | PutCode(ok: bool)
    | PutBad(version: int)
    | TakeMsg(depthLimit: nat, now: int, co: Counts, cc: Counts)
    | TakeReady(isOrig: bool, c: Counts)
    | TakeBad
    | Fire
    | TakeTick
    | Consume(isOrig: bool)    // a process takes the oldest queued transaction

  predicate Enabled(g: Group, ev: Event) {
    match ev
    case PutTx(_) => true
    case PutCode(_) => true
    case PutBad(_) => true
    case TakeMsg(_, _, _, _) => !g.blocked && g.inbox != []
    case TakeReady(_, _) => !g.blocked
    case TakeBad => !g.blocked && g.bad != []
    case Fire => g.timer.armed
    case TakeTick => !g.blocked && g.timer.tick
    case Consume(isOrig) => Ctl(g, isOrig).queue != []
  }

  function Apply(g: Group, ev: Event): Out
    requires Enabled(g, ev)
  {
    match ev
    case PutTx(tx) => Out(g.(inbox := g.inbox + [TxMsg(tx)]), 0, 0, [], 0)
    case PutCode(ok) => Out(g.(inbox := g.inbox + [CodeMsg(ok)]), 0, 0, [], 0)
    case PutBad(v) => Out(g.(bad := g.bad + [v]), 0, 0, [], 0)
    case TakeMsg(limit, now, co, cc) =>
      var g1 := g.(inbox := g.inbox[1..]);
      (match g.inbox[0]
       case TxMsg(tx) => HandleTx(g1, tx, limit, if IsOrig(tx) then co else cc)
       case CodeMsg(ok) => HandleCode(g1, ok, now, co, cc))
    case TakeReady(isOrig, c) => HandleReady(g, isOrig, c)
    case TakeBad => HandleBad(g.(bad := g.bad[1..]), g.bad[0])
    case Fire => Out(g.(timer := Timer(false, true)), 0, 0, [], 0)
    case TakeTick => HandleLoadError(g.(timer := g.timer.(tick := false)))
    case Consume(isOrig) => Out(Pop(g, isOrig), 0, 0, [], 0)
  }

  // ----- what draining the buffer does -----

  function Only(txs: seq<Tx>, isOrig: bool): seq<Tx> {
    if txs == [] then []
    else (if IsOrig(txs[0]) == isOrig then [txs[0]] else []) + Only(txs[1..], isOrig)
  }

  lemma {:induction false} OnlyAppend(a: seq<Tx>, b: seq<Tx>, isOrig: bool)
    ensures Only(a + b, isOrig) == Only(a, isOrig) + Only(b, isOrig)
  {
    if a == [] {
      assert a + b == b;
    } else {
      assert (a + b)[1..] == a[1..] + b;
      OnlyAppend(a[1..], b, isOrig);
    }
  }

  /** Draining sends every buffered transaction to its own queue, in order. */
  lemma {:induction false} DrainQueues(g: Group, txs: seq<Tx>)
    ensures EnqueueAll(g, txs) == g.(orig := g.orig.(queue := g.orig.queue + Only(txs, true)),
                                     cross := g.cross.(queue := g.cross.queue + Only(txs, false)))
    decreases |txs|
  {
    if txs == [] {
      assert g.orig.queue + [] == g.orig.queue && g.cross.queue + [] == g.cross.queue;
    } else {
      DrainQueues(Enqueue(g, txs[0]), txs[1..]);
      var isOrig := IsOrig(txs[0]);
      assert Ctl(g, isOrig).queue + [txs[0]] + Only(txs[1..], isOrig) == Ctl(g, isOrig).queue + Only(txs, isOrig);
    }
  }

  // ----- one message -----

  /** A transaction that meets a ready group is refused if and only if it is too deep; otherwise it is the last of its
      queue: the original one at depth zero or when no Go contract was called before, else the cross one.  While the
      contract is not there it is the last one buffered. */
  lemma DepthExactly(g: Group, limit: nat, now: int, co: Counts, cc: Counts)
    requires !g.blocked && g.inbox != [] && g.inbox[0].TxMsg?
    ensures var tx := g.inbox[0].tx; var o := Apply(g, TakeMsg(limit, now, co, cc));
            var orig := tx.depth == 0 || !tx.usedGo;
            && (o.errors == [tx] <==> g.load == Ready && tx.depth > limit) && (o.errors == [tx] || o.errors == [])
            && o.g.orig.queue == g.orig.queue + (if g.load == Ready && tx.depth <= limit && orig then [tx] else [])
            && o.g.cross.queue == g.cross.queue + (if g.load == Ready && tx.depth <= limit && !orig then [tx] else [])
            && o.g.buf == g.buf + (if g.load == Ready then [] else [tx])
  {
    var tx := g.inbox[0].tx;
    var c := if IsOrig(tx) then co else cc;
    AskingMovesNone(Enqueue(g.(inbox := g.inbox[1..]), tx), IsOrig(tx), c);
    assert g.orig.queue + [] == g.orig.queue && g.cross.queue + [] == g.cross.queue && g.buf + [] == g.buf;
    hide GetProcesses;
  }

  lemma AskingMovesNone(g: Group, isOrig: bool, c: Counts)
    ensures var o := GetProcesses(g, isOrig, c);
            o.g.orig.queue == g.orig.queue && o.g.cross.queue == g.cross.queue && o.g.buf == g.buf && o.errors == []
  {
  }

  /** A ready group without a request out asks for just as many processes as, with those that are neither ready nor
      busy yet, there are queued transactions; it asks for none if and only if these are enough, and its flag tells
      whether it asked. */
  lemma AsksExactly(g: Group, isOrig: bool, c: Counts)
    requires c.active <= c.live
    ensures var o := HandleReady(g, isOrig, c); var ask := if isOrig then o.askOrig else o.askCross;
            var queued := |Ctl(g, isOrig).queue|; var coming := c.live - c.active;
            && (g.load == Ready && queued > coming ==> coming + ask == queued)
            && (ask == 0 <==> g.load != Ready || queued <= coming)
            && (Ctl(o.g, isOrig).waiting <==> ask > 0) && (if isOrig then o.askCross else o.askOrig) == 0
  {
  }

  /** A report of a bad contract is heeded if and only if it is about the file in use; then the contract is not ready
      any more, and asked for again if and only if transactions are queued. */
  lemma BadExactly(g: Group)
    requires !g.blocked && g.bad != [] && Loading(g)
    ensures var o := Apply(g, TakeBad);
            && (g.load == Ready && o.g.load != Ready <==> g.load == Ready && g.bad[0] == g.version)
            && (o.loads == 1 <==>
                  g.load == Ready && g.bad[0] == g.version && (g.orig.queue != [] || g.cross.queue != []))
            && (o.loads == 0 || o.loads == 1) && (o.loads == 1 ==> o.g.load == Waiting)
  {
  }

  // ----- contract loading -----

  /** The buffer holds transactions only while the group waits for bytecode, and the group waits exactly while the
      timer is armed or its tick is pending. */
  predicate Loading(g: Group) {
    && (g.buf != [] ==> g.load == Waiting)
    && (g.load == Waiting <==> g.timer.armed || g.timer.tick)
    && !(g.timer.armed && g.timer.tick)
    && (g.blocked ==> g.load == Empty && g.buf == [])
  }

  /** With the bytecode the group is ready and its buffer empty. */
  lemma CodeLoaded(g: Group, now: int, co: Counts, cc: Counts)
    ensures var r := HandleCode(g, true, now, co, cc).g;
            && r.load == Ready && r.version == now && r.buf == [] && r.timer == Timer(false, false)
            && r.blocked == g.blocked
  {
    DrainQueues(g.(timer := Timer(false, false), load := Ready, version := now, buf := []), g.buf);
    hide EnqueueAll;
  }

  lemma LoadingStep(g: Group, ev: Event)
    requires Loading(g) && Enabled(g, ev)
    ensures Loading(Apply(g, ev).g)
  {
    if ev.TakeMsg? && g.inbox[0] == CodeMsg(true) {
      CodeLoaded(g.(inbox := g.inbox[1..]), ev.now, ev.co, ev.cc);
      hide HandleCode;
    }
  }

  /** A blocked group never answers, asks or moves a transaction again. */
  lemma BlockedForever(g: Group, ev: Event)
    requires Loading(g) && g.blocked && Enabled(g, ev) && !ev.Consume?
    ensures var o := Apply(g, ev);
            o.g.blocked && o.askOrig == 0 && o.askCross == 0 && o.errors == [] && o.g.orig == g.orig &&
              o.g.cross == g.cross && g.inbox <= o.g.inbox
  {
  }

  /** The bytecode could not be got, or not in time. */
  predicate Fails(g: Group, ev: Event)
    requires Enabled(g, ev)
  {
    ev.TakeTick? || (ev.TakeMsg? && g.inbox[0] == CodeMsg(false))
  }

  /** A step blocks the group exactly when a failed load finds no buffered transaction. */
  lemma BlocksExactlyWhen(g: Group, ev: Event)
    requires Loading(g) && !g.blocked && Enabled(g, ev)
    ensures Apply(g, ev).g.blocked <==>
            g.buf == [] && Fails(g, ev)
  {
    if ev.TakeMsg? && g.inbox[0] == CodeMsg(true) {
      CodeLoaded(g.(inbox := g.inbox[1..]), ev.now, ev.co, ev.cc);
      hide HandleCode;
    }
  }

  /** Transactions are queued, but the group has no contract, is not getting it, and has asked for no process. */
  predicate Unattended(g: Group, isOrig: bool) {
    g.load == Empty && Ctl(g, isOrig).queue != [] && !Ctl(g, isOrig).waiting
  }

  /** That comes about exactly when a load fails with no or one transaction buffered, others queued and the flag off,
      or when the flag goes off after such a failure. */
  lemma UnattendedExactlyWhen(g: Group, ev: Event, isOrig: bool)
    requires Loading(g) && Enabled(g, ev) && !Unattended(g, isOrig)
    ensures Unattended(Apply(g, ev).g, isOrig) <==>
            && Ctl(g, isOrig).queue != []
            && if Ctl(g, isOrig).waiting then g.load == Empty && ev.TakeReady? && ev.isOrig == isOrig
               else Fails(g, ev) && |g.buf| <= 1
  {
    if ev.TakeMsg? && g.inbox[0] == CodeMsg(true) {
      CodeLoaded(g.(inbox := g.inbox[1..]), ev.now, ev.co, ev.cc);
      hide HandleCode;
    }
  }

  // ----- runs of one group -----

  predicate Possible(g: Group, evs: seq<Event>)
    decreases |evs|
  {
    evs == [] || (Enabled(g, evs[0]) && Possible(Apply(g, evs[0]).g, evs[1..]))
  }

  function After(g: Group, evs: seq<Event>): Group
    requires Possible(g, evs)
    decreases |evs|
  {
    if evs == [] then g else After(Apply(g, evs[0]).g, evs[1..])
  }

  lemma {:induction false} LoadingRun(g: Group, evs: seq<Event>)
    requires Loading(g) && Possible(g, evs)
    ensures Loading(After(g, evs))
    decreases |evs|
  {
    if evs != [] {
      LoadingStep(g, evs[0]);
      LoadingRun(Apply(g, evs[0]).g, evs[1..]);
    }
  }

  /** In every reachable state of a group the loader's three parts agree. */
  lemma ContractLoading(key: GroupKey, evs: seq<Event>)
    requires Possible(NewGroup(key), evs)
    ensures Loading(After(NewGroup(key), evs))
  {
    LoadingRun(NewGroup(key), evs);
  }

  // ----- one request to the contract manager per wait -----

  function Outstanding(g: Group): nat {
    if g.load == Waiting then 1 else 0
  }

  /** The event ends a wait: bytecode, a refusal or the timer. */
  predicate EndsWait(g: Group, ev: Event) {
    g.load == Waiting && (ev.TakeTick? || (ev.TakeMsg? && g.inbox != [] && g.inbox[0].CodeMsg?))
  }

  function Requested(g: Group, evs: seq<Event>): nat
    requires Possible(g, evs)
    decreases |evs|
  {
    if evs == [] then 0 else Apply(g, evs[0]).loads + Requested(Apply(g, evs[0]).g, evs[1..])
  }

  function Ended(g: Group, evs: seq<Event>): nat
    requires Possible(g, evs)
    decreases |evs|
  {
    if evs == [] then 0 else (if EndsWait(g, evs[0]) then 1 else 0) + Ended(Apply(g, evs[0]).g, evs[1..])
  }

  lemma StepRequests(g: Group, ev: Event)
    requires Loading(g) && Enabled(g, ev)
    ensures var o := Apply(g, ev);
            Outstanding(o.g) + (if EndsWait(g, ev) then 1 else 0) == Outstanding(g) + o.loads
  {
    if ev.TakeMsg? && g.inbox[0].CodeMsg? && g.inbox[0].ok {
      CodeLoaded(g.(inbox := g.inbox[1..]), ev.now, ev.co, ev.cc);
    }
    hide EnqueueAll, Enqueue;
  }

  lemma {:induction false} RunRequests(g: Group, evs: seq<Event>)
    requires Loading(g) && Possible(g, evs)
    ensures Outstanding(After(g, evs)) + Ended(g, evs) == Outstanding(g) + Requested(g, evs)
    decreases |evs|
  {
    hide Apply, Enabled, Loading;
    if evs != [] {
      LoadingStep(g, evs[0]);
      StepRequests(g, evs[0]);
      RunRequests(Apply(g, evs[0]).g, evs[1..]);
    }
  }

  /** Over every run the contract is requested once for each wait for it: requests are as many as waits that ended, and
      one more exactly while the group waits. */
  lemma OneRequestPerWait(key: GroupKey, evs: seq<Event>)
    requires Possible(NewGroup(key), evs)
    ensures var g := After(NewGroup(key), evs);
            Requested(NewGroup(key), evs) == Ended(NewGroup(key), evs) + if g.load == Waiting then 1 else 0
  {
    RunRequests(NewGroup(key), evs);
  }
}
