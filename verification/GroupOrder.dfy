/**
 Order inside a group: what reaches a queue is the arrival order of that queue's
 transactions with only the answered-with-an-error ones taken out, whatever the
 loads, failures, timeouts and reloads in between.
 */
module GroupOrder {
  import opened Keys
  import opened Transactions
  import opened GroupModel

  /** One handled transaction; `dead` once it has been answered with an error. */
  datatype Arrival = Arrival(tx: Tx, dead: bool)

  /** A group with its past: every transaction taken from the inbox, and those that processes have received. */
  datatype Journal = Journal(g: Group, log: seq<Arrival>, takenOrig: seq<Tx>, takenCross: seq<Tx>)

  function Taken(j: Journal, isOrig: bool): seq<Tx> {
    if isOrig then j.takenOrig else j.takenCross
  }

  /** The surviving arrivals of one kind, in arrival order. */
  function Survivors(log: seq<Arrival>, isOrig: bool): seq<Tx> {
    if log == [] then []
    else Survivors(log[..|log| - 1], isOrig) + Keep(log[|log| - 1], isOrig)
  }

  function Keep(a: Arrival, isOrig: bool): seq<Tx> {
    if !a.dead && IsOrig(a.tx) == isOrig then [a.tx] else []
  }

  function Bury(log: seq<Arrival>, i: nat): seq<Arrival>
    requires i < |log|
  {
    log[i := log[i].(dead := true)]
  }

  /** Book-keeping of one step: arrivals are logged, an error buries the arrival it answers. */
  function Step(j: Journal, ev: Event): Journal
    requires Enabled(j.g, ev) && |j.g.buf| <= |j.log|
  {
    var o := Apply(j.g, ev);
    if ev.Consume? then
      var tx := Ctl(j.g, ev.isOrig).queue[0];
      if ev.isOrig then j.(g := o.g, takenOrig := j.takenOrig + [tx]) else j.(g := o.g,
        takenCross := j.takenCross + [tx])
    else if ev.TakeMsg? && j.g.inbox[0].TxMsg? then
      j.(g := o.g, log := j.log + [Arrival(j.g.inbox[0].tx, o.errors != [])])
    else if o.errors != [] && j.g.buf != [] then
      j.(g := o.g, log := Bury(j.log, |j.log| - |j.g.buf|))
    else j.(g := o.g)
  }

  /** What has been put on a queue so far. */
  function Queued(j: Journal, isOrig: bool): seq<Tx> {
    Taken(j, isOrig) + Ctl(j.g, isOrig).queue
  }

  /** The last arrivals are exactly the buffer; the ones before it have been queued or answered with an error. */
  ghost predicate Ordered(log: seq<Arrival>, buf: seq<Tx>, queued: seq<Tx>, b: bool) {
    && |buf| <= |log|
    && (forall i :: 0 <= i < |buf| ==> log[|log| - |buf| + i] == Arrival(buf[i], false))
    && Survivors(log[..|log| - |buf|], b) == queued
  }

  ghost predicate InOrder(j: Journal) {
    && Loading(j.g) && |j.g.buf| <= |j.log|
    && Ordered(j.log, j.g.buf, Queued(j, true), true) && Ordered(j.log, j.g.buf, Queued(j, false), false)
  }

  lemma OnlyOne(tx: Tx, b: bool)
    ensures Only([tx], b) == Keep(Arrival(tx, false), b)
  {
    assert [tx][1..] == [];
  }

  lemma SurvivorsExtend(log: seq<Arrival>, a: Arrival, b: bool)
    ensures Survivors(log + [a], b) == Survivors(log, b) + Keep(a, b)
  {
    assert (log + [a])[..|log|] == log;
  }

  function Alive(buf: seq<Tx>): seq<Arrival> {
    seq(|buf|, i requires 0 <= i < |buf| => Arrival(buf[i], false))
  }

  lemma {:induction false} SurvivorsAppend(rest: seq<Arrival>, buf: seq<Tx>, b: bool)
    ensures Survivors(rest + Alive(buf), b) == Survivors(rest, b) + Only(buf, b)
    decreases |buf|
  {
    hide Survivors, Only, Keep;
    if buf == [] {
      assert rest + Alive(buf) == rest;
      OnlyNone(b);
    } else {
      var n := |buf| - 1;
      var front, last := buf[..n], Arrival(buf[n], false);
      SurvivorsAppend(rest, front, b);
      assert rest + Alive(buf) == (rest + Alive(front)) + [last];
      SurvivorsExtend(rest + Alive(front), last, b);
      assert buf == front + [buf[n]];
      OnlyAppend(front, [buf[n]], b);
      OnlyOne(buf[n], b);
    }
  }

  lemma OnlyNone(b: bool)
    ensures Only([], b) == []
  {
  }

  lemma SurvivorsOfBuffer(log: seq<Arrival>, buf: seq<Tx>, b: bool)
    requires |buf| <= |log|
    requires forall i :: 0 <= i < |buf| ==> log[|log| - |buf| + i] == Arrival(buf[i], false)
    ensures Survivors(log, b) == Survivors(log[..|log| - |buf|], b) + Only(buf, b)
  {
    hide Survivors, Only;
    var rest := log[..|log| - |buf|];
    assert log == rest + Alive(buf);
    SurvivorsAppend(rest, buf, b);
  }

  lemma Buffered(log: seq<Arrival>, buf: seq<Tx>, queued: seq<Tx>, b: bool, tx: Tx)
    requires Ordered(log, buf, queued, b)
    ensures Ordered(log + [Arrival(tx, false)], buf + [tx], queued, b)
  {
    assert (log + [Arrival(tx, false)])[..|log| - |buf|] == log[..|log| - |buf|];
  }

  lemma Direct(log: seq<Arrival>, queued: seq<Tx>, b: bool, a: Arrival)
    requires Ordered(log, [], queued, b)
    ensures Ordered(log + [a], [], queued + Keep(a, b), b)
  {
    assert log[..|log|] == log && (log + [a])[..|log| + 1] == log + [a];
    SurvivorsExtend(log, a, b);
  }

  lemma Drained(log: seq<Arrival>, buf: seq<Tx>, queued: seq<Tx>, b: bool)
    requires Ordered(log, buf, queued, b)
    ensures Ordered(log, [], queued + Only(buf, b), b)
  {
    assert log[..|log|] == log;
    SurvivorsOfBuffer(log, buf, b);
  }

  lemma Buried(log: seq<Arrival>, buf: seq<Tx>, queued: seq<Tx>, b: bool)
    requires Ordered(log, buf, queued, b) && buf != []
    ensures Ordered(Bury(log, |log| - |buf|), buf[1..], queued, b)
  {
    var k := |log| - |buf|;
    var after := Bury(log, k);
    assert after[..k + 1] == log[..k] + [Arrival(buf[0], true)];
    SurvivorsExtend(log[..k], Arrival(buf[0], true), b);
  }

  // ----- what the handlers do to buffer and queues -----

  /** Buffer and queues are untouched. */
  ghost predicate Still(g: Group, h: Group) {
    h.buf == g.buf && h.orig.queue == g.orig.queue && h.cross.queue == g.cross.queue
  }

  lemma AskingIsStill(g: Group, isOrig: bool, c: Counts)
    ensures Still(g, GetProcesses(g, isOrig, c).g) && GetProcesses(g, isOrig, c).g.load == g.load
  {
  }

  lemma OrderTx(j: Journal, ev: Event)
    requires InOrder(j) && Enabled(j.g, ev) && ev.TakeMsg? && j.g.inbox[0].TxMsg?
    ensures InOrder(Step(j, ev))
  {
    hide Ordered, Survivors;
    var tx := j.g.inbox[0].tx;
    LoadingStep(j.g, ev);
    if j.g.load == Ready {
      var a := Arrival(tx, tx.depth > ev.depthLimit);
      Direct(j.log, Queued(j, true), true, a);
      Direct(j.log, Queued(j, false), false, a);
      AppendQueue(j.takenOrig, j.g.orig.queue, Keep(a, true));
      AppendQueue(j.takenCross, j.g.cross.queue, Keep(a, false));
    } else {
      Buffered(j.log, j.g.buf, Queued(j, true), true, tx);
      Buffered(j.log, j.g.buf, Queued(j, false), false, tx);
    }
  }

  lemma AppendQueue(a: seq<Tx>, b: seq<Tx>, c: seq<Tx>)
    ensures (a + b) + c == a + (b + c)
    ensures c == [] ==> b + c == b
  {
  }

  lemma OrderLoaded(j: Journal, ev: Event)
    requires InOrder(j) && Enabled(j.g, ev) && ev.TakeMsg? && j.g.inbox[0] == CodeMsg(true)
    ensures InOrder(Step(j, ev))
  {
    hide Ordered, Survivors;
    LoadingStep(j.g, ev);
    var g1 := j.g.(inbox := j.g.inbox[1..], timer := Timer(false, false), load := Ready, version := ev.now, buf := []);
    DrainQueues(g1, j.g.buf);
    var g2 := EnqueueAll(g1, j.g.buf);
    AskingIsStill(g2, true, ev.co);
    AskingIsStill(GetProcesses(g2, true, ev.co).g, false, ev.cc);
    Drained(j.log, j.g.buf, Queued(j, true), true);
    Drained(j.log, j.g.buf, Queued(j, false), false);
    AppendQueue(j.takenOrig, j.g.orig.queue, Only(j.g.buf, true));
    AppendQueue(j.takenCross, j.g.cross.queue, Only(j.g.buf, false));
  }

  lemma OrderFailed(j: Journal, ev: Event)
    requires InOrder(j) && Enabled(j.g, ev)
    requires ev.TakeTick? || (ev.TakeMsg? && j.g.inbox[0] == CodeMsg(false))
    ensures InOrder(Step(j, ev))
  {
    hide Ordered, Survivors;
    LoadingStep(j.g, ev);
    if j.g.buf != [] {
      Buried(j.log, j.g.buf, Queued(j, true), true);
      Buried(j.log, j.g.buf, Queued(j, false), false);
    }
  }

  lemma OrderConsume(j: Journal, isOrig: bool)
    requires InOrder(j) && Enabled(j.g, Consume(isOrig))
    ensures InOrder(Step(j, Consume(isOrig)))
  {
    hide Ordered, Survivors;
    var q := Ctl(j.g, isOrig).queue;
    assert Taken(j, isOrig) + q == (Taken(j, isOrig) + [q[0]]) + q[1..];
    LoadingStep(j.g, Consume(isOrig));
  }

  lemma OrderStep(j: Journal, ev: Event)
    requires InOrder(j) && Enabled(j.g, ev)
    ensures InOrder(Step(j, ev))
  {
    hide Ordered, Survivors, EnqueueAll;
    if ev.TakeTick? || (ev.TakeMsg? && j.g.inbox[0] == CodeMsg(false)) {
      OrderFailed(j, ev);
    } else if ev.TakeMsg? && j.g.inbox[0].TxMsg? {
      OrderTx(j, ev);
    } else if ev.TakeMsg? {
      OrderLoaded(j, ev);
    } else if ev.Consume? {
      OrderConsume(j, ev.isOrig);
    } else {
      LoadingStep(j.g, ev);
    }
  }

  /** The journal after a sequence of events. */
  ghost predicate Recorded(j: Journal, evs: seq<Event>, r: Journal)
    decreases |evs|
  {
    if evs == [] then r == j
    else Enabled(j.g, evs[0]) && |j.g.buf| <= |j.log| && Recorded(Step(j, evs[0]), evs[1..], r)
  }

  lemma {:induction false} OrderRun(j: Journal, evs: seq<Event>, r: Journal)
    requires InOrder(j) && Recorded(j, evs, r)
    ensures InOrder(r)
    decreases |evs|
  {
    if evs != [] {
      OrderStep(j, evs[0]);
      OrderRun(Step(j, evs[0]), evs[1..], r);
    }
  }

  /** What processes have received, what is queued and what is still buffered of one kind is, in this order, the
      arrival order of that kind with only the errored ones removed. */
  lemma OrderPreserved(key: GroupKey, evs: seq<Event>, r: Journal, isOrig: bool)
    requires Recorded(Journal(NewGroup(key), [], [], []), evs, r)
    ensures Survivors(r.log, isOrig) == Taken(r, isOrig) + Ctl(r.g, isOrig).queue + Only(r.g.buf, isOrig)
  {
    OrderRun(Journal(NewGroup(key), [], [], []), evs, r);
    SurvivorsOfBuffer(r.log, r.g.buf, isOrig);
  }
}
