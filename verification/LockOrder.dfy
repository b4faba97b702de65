/**
 The two lock orders of manager and process.  A handler takes the manager lock and
 then, in one worker per process, the process lock; a listener whose ready timer
 fires takes its process lock and then the manager lock.  Here locking, unlocking,
 the unlocked state test and every state or table update are separate steps.
 */
module LockOrder {
  import P = ProcessModel

  datatype Listing = InIdle | InBusy | Gone

  datatype Holder = Free | ByListener | ByWorker | ByStream

  /** Where a process's listener is: in its loop, in a section that needs only the process lock (transaction,
      response, busy timeout), in the ready timeout, or handing back a transaction that came while idle. */
  datatype Listener =
    | Loop | Returned
    | WantsLock(to: P.State) | HasLock(to: P.State)
    | Ready1                   // waits for the process lock
    | Ready2                   // has it, waits for the manager lock
    | Ready3                   // has both, moves the process to idle
    | Ready4(moved: bool)      // has the process lock, sets the state
    | Ready5                   // has the process lock, done
    | Back1                    // waits for the manager lock
    | Back2                    // has it, moves the process to busy
    | Back3                    // moved; waits for the process lock
    | Back4                    // has it, sets the state

  /** A handler's worker on one process: before the unlocked idle test, waiting for the process lock, inside, and
      before recording the outcome in the tables. */
  datatype Worker = Absent | Test | Want | In | Record(closing: bool)

  datatype Stream = Quiet | WantsStream | HasStream

  datatype Cell = Cell(state: P.State, listed: Listing, lock: Holder, listener: Listener, worker: Worker,
    stream: Stream)

  datatype Pm = PmFree | PmHandler | PmListener(i: nat) | PmReader

  datatype World = World(pm: Pm, cells: seq<Cell>)

  // ----- the listener -----

  predicate NeedsPm(c: Cell) {
    c.listener.Ready2? || c.listener.Back1?
  }

  predicate NeedsLock(c: Cell) {
    c.listener.WantsLock? || c.listener.Ready1? || c.listener.Back3?
  }

  predicate ListenerMoves(w: World, i: nat) {
    && i < |w.cells| && !w.cells[i].listener.Loop? && !w.cells[i].listener.Returned?
    && (NeedsPm(w.cells[i]) ==> w.pm.PmFree?)
    && (NeedsLock(w.cells[i]) ==> w.cells[i].lock.Free?)
  }

  /** The listener takes its next step inside a handler of its own. */
  function ListenerNext(c: Cell): Cell {
    match c.listener
    case Loop => c
    case Returned => c
    case WantsLock(to) => c.(lock := ByListener, listener := HasLock(to))
    case HasLock(to) => c.(state := to, lock := Free, listener := Loop)
    case Ready1 => c.(lock := ByListener, listener := Ready2)
    case Ready2 => c.(listener := Ready3)
    case Ready3 => c.(listed := if c.listed.InBusy? then InIdle else c.listed, listener := Ready4(c.listed.InBusy?))
    case Ready4(moved) => c.(state := if moved then P.Idle else c.state, listener := Ready5)
    case Ready5 => c.(lock := Free, listener := Loop)
    case Back1 => c.(listener := Back2)
    case Back2 => if c.listed.InIdle? then c.(listed := InBusy, listener := Back3) else c.(listener := Loop)
    case Back3 => c.(lock := ByListener, listener := Back4)
    case Back4 => c.(state := P.Listening, lock := Free, listener := Loop)
  }

  function PmAfterListener(pm: Pm, c: Cell, i: nat): Pm {
    if NeedsPm(c) then PmListener(i) else if c.listener.Ready3? || c.listener.Back2? then PmFree else pm
  }

  // ----- the worker -----

  predicate WorkerMoves(w: World, i: nat) {
    i < |w.cells| && !w.cells[i].worker.Absent? && (w.cells[i].worker.Want? ==> w.cells[i].lock.Free?)
  }

  /** `closing` tells CloseSandbox from ChangeSandbox. */
  function WorkerNext(c: Cell, closing: bool): Cell {
    match c.worker
    case Absent => c
    case Test => c.(worker := if c.state == P.Idle then Want else Absent)
    case Want => c.(lock := ByWorker, worker := In)
    case In =>
      if c.state != P.Idle then c.(lock := Free, worker := Absent)
      else c.(state := if closing then P.Closing else P.Changing, lock := Free, worker := Record(closing))
    case Record(cl) => c.(listed := if cl then Gone else InBusy, worker := Absent)
  }

  // ----- the sandbox stream -----

  predicate StreamMoves(w: World, i: nat) {
    i < |w.cells| && !w.cells[i].stream.Quiet? && (w.cells[i].stream.WantsStream? ==> w.cells[i].lock.Free?)
  }

  function StreamNext(c: Cell): Cell {
    match c.stream
    case Quiet => c
    case WantsStream => c.(lock := ByStream, stream := HasStream)
    case HasStream => c.(state := P.Listening, lock := Free, stream := Quiet)
  }

  // ----- steps -----

  datatype Step =
    | Listen(i: nat) | Serve(i: nat, closing: bool) | Attach(i: nat)   // a thread inside a section goes on
    | EndHandler | EndReader
    | BeginHandler | BeginReader | Spawn(i: nat) | Create | Remove(i: nat)
    | BeginWork(i: nat, to: P.State) | BeginTimeout(i: nat) | BeginBack(i: nat) | BeginStream(i: nat)
    | Exit(i: nat)

  predicate Advance(st: Step) {
    st.Listen? || st.Serve? || st.Attach? || st.EndHandler? || st.EndReader?
  }

  predicate InLoop(w: World, i: nat) {
    i < |w.cells| && w.cells[i].listener.Loop?
  }

  predicate May(w: World, st: Step) {
    match st
    case Listen(i) => ListenerMoves(w, i)
    case Serve(i, _) => WorkerMoves(w, i)
    case Attach(i) => StreamMoves(w, i)
    case EndHandler => w.pm.PmHandler? && forall i :: 0 <= i < |w.cells| ==> w.cells[i].worker.Absent?
    case EndReader => w.pm.PmReader?
    case BeginHandler => w.pm.PmFree?
    case BeginReader => w.pm.PmFree?
    case Spawn(i) => w.pm.PmHandler? && i < |w.cells| && w.cells[i].listed.InIdle? && w.cells[i].worker.Absent?
    case Create => w.pm.PmHandler?
    case Remove(i) => w.pm.PmHandler? && i < |w.cells| && w.cells[i].listener.Returned? && w.cells[i].worker.Absent?
    case BeginWork(i, to) =>
      InLoop(w, i) && ((w.cells[i].state == P.Listening && to in {P.Listening, P.Busy})
                       || (w.cells[i].state == P.Busy && to in {P.Listening, P.TimedOut}))
    case BeginTimeout(i) => InLoop(w, i) && w.cells[i].state == P.Listening
    case BeginBack(i) => InLoop(w, i) && w.cells[i].state in {P.Idle, P.Changing, P.Closing}
    case BeginStream(i) => i < |w.cells| && w.cells[i].state == P.Created && w.cells[i].stream.Quiet?
    case Exit(i) => InLoop(w, i) && (w.cells[i].state == P.Created ==> w.cells[i].stream.Quiet?)
  }

  function NewCell(): Cell {
    Cell(P.Created, InBusy, Free, Loop, Absent, Quiet)
  }

  /** handleProcessExit takes no lock: a changed sandbox starts again, any other listener returns. */
  function ExitCell(c: Cell): Cell {
    match c.state
    case Changing => c.(state := P.Created)
    case Busy => c.(state := P.Created, listener := Returned)
    case TimedOut => c.(state := P.Created, listener := Returned)
    case _ => c.(listener := Returned)
  }

  function With(w: World, i: nat, c: Cell, pm: Pm): World
    requires i < |w.cells|
  {
    World(pm, w.cells[i := c])
  }

  function Next(w: World, st: Step): World
    requires May(w, st)
  {
    match st
    case Listen(i) => With(w, i, ListenerNext(w.cells[i]), PmAfterListener(w.pm, w.cells[i], i))
    case Serve(i, closing) => With(w, i, WorkerNext(w.cells[i], closing), w.pm)
    case Attach(i) => With(w, i, StreamNext(w.cells[i]), w.pm)
    case EndHandler => w.(pm := PmFree)
    case EndReader => w.(pm := PmFree)
    case BeginHandler => w.(pm := PmHandler)
    case BeginReader => w.(pm := PmReader)
    case Spawn(i) => With(w, i, w.cells[i].(worker := Test), w.pm)
    case Create => w.(cells := w.cells + [NewCell()])
    case Remove(i) => With(w, i, w.cells[i].(listed := Gone), w.pm)
    case BeginWork(i, to) => With(w, i, w.cells[i].(listener := WantsLock(to)), w.pm)
    case BeginTimeout(i) => With(w, i, w.cells[i].(listener := Ready1), w.pm)
    case BeginBack(i) => With(w, i, w.cells[i].(listener := Back1), w.pm)
    case BeginStream(i) => With(w, i, w.cells[i].(stream := WantsStream), w.pm)
    case Exit(i) => With(w, i, ExitCell(w.cells[i]), w.pm)
  }

  // ----- the invariant -----

  predicate ListenerHasLock(l: Listener) {
    l.HasLock? || l.Ready2? || l.Ready3? || l.Ready4? || l.Ready5? || l.Back4?
  }

  predicate ListenerHasPm(l: Listener) {
    l.Ready3? || l.Back2?
  }

  predicate CellOk(c: Cell, i: nat, pm: Pm) {
    // who holds what
    && (c.lock == ByListener <==> ListenerHasLock(c.listener))
    && (c.lock == ByWorker <==> c.worker.In?)
    && (c.lock == ByStream <==> c.stream.HasStream?)
    && (pm == PmListener(i) <==> ListenerHasPm(c.listener))
    && (!c.worker.Absent? ==> pm == PmHandler)
    // state against position
    && (c.listener.WantsLock? || c.listener.HasLock? ==> c.state == P.Listening || c.state == P.Busy)
    && (c.listener.WantsLock? || c.listener.HasLock? ==> c.listener.to in {P.Listening, P.Busy, P.TimedOut})
    && (c.listener.Ready1? || c.listener.Ready2? || c.listener.Ready3? || c.listener.Ready4? ==> c.state == P.Listening)
    && (c.listener.Ready5? ==> c.state == P.Listening || c.state == P.Idle)
    && (c.listener.Back1? || c.listener.Back2? ==> c.state in {P.Idle, P.Changing, P.Closing})
    && (!c.stream.Quiet? ==> c.state == P.Created)
    && (c.worker.Want? || c.worker.In? ==> c.state == P.Idle)
    && (c.worker.Test? || c.worker.Want? || c.worker.In? || c.worker.Record? ==> c.listed == InIdle)
    && (c.worker.Record? ==> c.state != P.Idle && (c.worker.closing ==> c.state == P.Closing))
    && (c.worker.Record? ==> !c.listener.Ready4? && !c.listener.Ready5?)
    // tables against state
    && (c.listed == InIdle ==> c.state == P.Idle || c.listener == Ready4(true) || c.worker.Record?)
    && (c.listed == InBusy ==> c.state != P.Idle || c.listener.Back3? || c.listener.Back4?)
    && (c.listener == Ready4(true) ==> c.listed == InIdle)
    && (c.listener.Back3? || c.listener.Back4? ==> c.listed == InBusy && c.state == P.Idle)
  }

  ghost predicate Inv(w: World) {
    && (forall i :: 0 <= i < |w.cells| ==> CellOk(w.cells[i], i, w.pm))
    && (w.pm.PmListener? ==> w.pm.i < |w.cells|)
  }

  /** The other processes do not notice. */
  lemma OthersOk(c: Cell, i: nat, pm: Pm, pm': Pm)
    requires CellOk(c, i, pm) && (pm == PmListener(i) <==> pm' == PmListener(i))
    requires pm.PmHandler? && !pm'.PmHandler? ==> c.worker.Absent?
    ensures CellOk(c, i, pm')
  {
  }

  lemma ListenOk(w: World, i: nat)
    requires Inv(w) && ListenerMoves(w, i)
    ensures Inv(Next(w, Listen(i)))
  {
    var c := w.cells[i];
    var pm' := PmAfterListener(w.pm, c, i);
    assert CellOk(ListenerNext(c), i, pm');
    var w' := Next(w, Listen(i));
    forall j | 0 <= j < |w'.cells| ensures CellOk(w'.cells[j], j, w'.pm) {
      if j != i {
        OthersOk(w.cells[j], j, w.pm, pm');
      }
    }
  }

  lemma ServeOk(w: World, i: nat, closing: bool)
    requires Inv(w) && WorkerMoves(w, i)
    ensures Inv(Next(w, Serve(i, closing)))
  {
    ReplaceOk(w, i, WorkerNext(w.cells[i], closing));
  }

  lemma ReplaceOk(w: World, i: nat, c: Cell)
    requires Inv(w) && i < |w.cells| && CellOk(c, i, w.pm)
    ensures Inv(With(w, i, c, w.pm))
  {
    hide CellOk;
  }

  lemma BeginOk(w: World, st: Step)
    requires Inv(w) && May(w, st) && !Advance(st)
    ensures Inv(Next(w, st))
  {
    match st
    case BeginHandler => forall i | 0 <= i < |w.cells| ensures CellOk(w.cells[i], i,
      PmHandler) { OthersOk(w.cells[i], i, w.pm, PmHandler); }
    case BeginReader => forall i | 0 <= i < |w.cells| ensures CellOk(w.cells[i], i,
      PmReader) { OthersOk(w.cells[i], i, w.pm, PmReader); }
    case Spawn(i) => ReplaceOk(w, i, w.cells[i].(worker := Test));
    case Create => assert CellOk(NewCell(), |w.cells|, w.pm);
    case Remove(i) => ReplaceOk(w, i, w.cells[i].(listed := Gone));
    case BeginWork(i, to) => ReplaceOk(w, i, w.cells[i].(listener := WantsLock(to)));
    case BeginTimeout(i) => ReplaceOk(w, i, w.cells[i].(listener := Ready1));
    case BeginBack(i) => ReplaceOk(w, i, w.cells[i].(listener := Back1));
    case BeginStream(i) => ReplaceOk(w, i, w.cells[i].(stream := WantsStream));
    case Exit(i) => ReplaceOk(w, i, ExitCell(w.cells[i]));
  }

  lemma EndOk(w: World)
    requires Inv(w) && (May(w, EndHandler) || May(w, EndReader))
    ensures Inv(w.(pm := PmFree))
  {
    forall i | 0 <= i < |w.cells| ensures CellOk(w.cells[i], i, PmFree) {
      OthersOk(w.cells[i], i, w.pm, PmFree);
    }
  }

  lemma StepOk(w: World, st: Step)
    requires Inv(w) && May(w, st)
    ensures Inv(Next(w, st))
  {
    hide CellOk, Inv;
    match st
    case Listen(i) => ListenOk(w, i);
    case Serve(i, closing) => ServeOk(w, i, closing);
    case Attach(i) => AttachOk(w, i);
    case EndHandler => EndOk(w);
    case EndReader => EndOk(w);
    case _ => BeginOk(w, st);
  }

  lemma AttachOk(w: World, i: nat)
    requires Inv(w) && StreamMoves(w, i)
    ensures Inv(Next(w, Attach(i)))
  {
    ReplaceOk(w, i, StreamNext(w.cells[i]));
  }

  ghost predicate Possible(w: World, sts: seq<Step>)
    decreases |sts|
  {
    sts == [] || (May(w, sts[0]) && Possible(Next(w, sts[0]), sts[1..]))
  }

  ghost function After(w: World, sts: seq<Step>): World
    requires Possible(w, sts)
    decreases |sts|
  {
    if sts == [] then w else After(Next(w, sts[0]), sts[1..])
  }

  const START := World(PmFree, [])

  lemma {:induction false} RunOk(w: World, sts: seq<Step>)
    requires Inv(w) && Possible(w, sts)
    ensures Inv(After(w, sts))
    decreases |sts|
  {
    hide Inv, May, Next;
    if sts != [] {
      StepOk(w, sts[0]);
      RunOk(Next(w, sts[0]), sts[1..]);
    }
  }

  // ----- deadlock freedom -----

  /** Nobody holds a lock or waits for one. */
  predicate Resting(c: Cell) {
    (c.listener.Loop? || c.listener.Returned?) && c.worker.Absent? && c.stream.Quiet?
  }

  ghost predicate AllResting(w: World) {
    w.pm == PmFree && forall i :: 0 <= i < |w.cells| ==> Resting(w.cells[i])
  }

  /** A worker that waits can go on, or the listener that holds the lock is on its way out and needs nothing. */
  lemma WorkerProgress(w: World, i: nat) returns (st: Step)
    requires Inv(w) && i < |w.cells| && !w.cells[i].worker.Absent?
    ensures Advance(st) && May(w, st)
  {
    assert CellOk(w.cells[i], i, w.pm);
    if w.cells[i].worker.Want? && !w.cells[i].lock.Free? {
      assert w.cells[i].listener.Ready5?;
      st := Listen(i);
    } else {
      st := Serve(i, false);
    }
  }

  /** The manager lock's holder can go on. */
  lemma ManagerProgress(w: World) returns (st: Step)
    requires Inv(w) && w.pm != PmFree
    ensures Advance(st) && May(w, st)
  {
    if w.pm.PmListener? {
      assert CellOk(w.cells[w.pm.i], w.pm.i, w.pm);
      st := Listen(w.pm.i);
    } else if w.pm.PmReader? {
      st := EndReader;
    } else if i :| 0 <= i < |w.cells| && !w.cells[i].worker.Absent? {
      st := WorkerProgress(w, i);
    } else {
      st := EndHandler;
    }
  }

  lemma Progress(w: World) returns (st: Step)
    requires Inv(w) && !AllResting(w)
    ensures Advance(st) && May(w, st)
  {
    if w.pm != PmFree {
      st := ManagerProgress(w);
    } else {
      var i :| 0 <= i < |w.cells| && !Resting(w.cells[i]);
      var c := w.cells[i];
      assert CellOk(c, i, w.pm);
      if c.stream.HasStream? || (c.stream.WantsStream? && c.lock.Free?) {
        st := Attach(i);
      } else {
        st := Listen(i);
      }
    }
  }

  function ListenerRank(l: Listener): nat {
    match l
    case Loop => 0 case Returned => 0
    case WantsLock(_) => 2 case HasLock(_) => 1
    case Ready1 => 5 case Ready2 => 4 case Ready3 => 3 case Ready4(_) => 2 case Ready5 => 1
    case Back1 => 4 case Back2 => 3 case Back3 => 2 case Back4 => 1
  }

  function WorkerRank(k: Worker): nat {
    match k
    case Absent => 0 case Test => 4 case Want => 3 case In => 2 case Record(_) => 1
  }

  /** Steps that the threads inside a process's sections still need. */
  function Rank(c: Cell): nat {
    ListenerRank(c.listener) + WorkerRank(c.worker)
    + (match c.stream case Quiet => 0 case WantsStream => 2 case HasStream => 1)
  }

  function TotalRank(cells: seq<Cell>): nat {
    if cells == [] then 0 else Rank(cells[0]) + TotalRank(cells[1..])
  }

  function WorldRank(w: World): nat {
    TotalRank(w.cells) + (if w.pm.PmHandler? || w.pm.PmReader? then 1 else 0)
  }

  lemma {:induction false} RankUpdate(cells: seq<Cell>, i: nat, c: Cell)
    requires i < |cells|
    ensures TotalRank(cells[i := c]) + Rank(cells[i]) == TotalRank(cells) + Rank(c)
  {
    if i == 0 {
      assert cells[0 := c][1..] == cells[1..];
    } else {
      assert cells[i := c][1..] == cells[1..][i - 1 := c];
      RankUpdate(cells[1..], i - 1, c);
    }
  }

  lemma AdvanceShrinks(w: World, st: Step)
    requires Inv(w) && Advance(st) && May(w, st)
    ensures WorldRank(Next(w, st)) < WorldRank(w)
  {
    hide TotalRank;
    match st
    case Listen(i) => RankUpdate(w.cells, i, ListenerNext(w.cells[i]));
    case Serve(i, closing) => RankUpdate(w.cells, i, WorkerNext(w.cells[i], closing));
    case Attach(i) => RankUpdate(w.cells, i, StreamNext(w.cells[i]));
    case _ =>
  }

  /** Letting the threads inside go on, in whatever order they can, ends with every lock free. */
  lemma {:induction false} Drains(w: World) returns (sts: seq<Step>)
    requires Inv(w)
    ensures Possible(w, sts) && AllResting(After(w, sts)) && |sts| <= WorldRank(w)
    ensures forall i :: 0 <= i < |sts| ==> Advance(sts[i])
    decreases WorldRank(w)
  {
    if AllResting(w) {
      sts := [];
    } else {
      var st := Progress(w);
      StepOk(w, st);
      AdvanceShrinks(w, st);
      var rest := Drains(Next(w, st));
      sts := [st] + rest;
      assert sts[1..] == rest;
    }
  }

  /** In every reachable state: no worker waits for the lock of a listener that waits for the manager lock; a process
      listed idle is idle unless its listener is inside the ready timeout or the handler is about to record what it
      did with it; and the threads inside can always finish by themselves. */
  lemma NoDeadlock(sts: seq<Step>) returns (rest: seq<Step>)
    requires Possible(START, sts)
    ensures var w := After(START, sts);
            && (forall i :: 0 <= i < |w.cells| ==>
                  && !(w.pm == PmHandler && w.cells[i].worker.Want? && w.cells[i].listener.Ready2?)
                  && (w.cells[i].listed == InIdle && w.cells[i].state != P.Idle ==>
                        w.cells[i].listener == Ready4(true) || (w.pm == PmHandler && w.cells[i].worker.Record?)))
            && Possible(w, rest) && AllResting(After(w, rest)) && forall i :: 0 <= i < |rest| ==> Advance(rest[i])
  {
    RunOk(START, sts);
    var w := After(START, sts);
    forall i | 0 <= i < |w.cells|
      ensures !(w.pm == PmHandler && w.cells[i].worker.Want? && w.cells[i].listener.Ready2?)
      ensures w.cells[i].listed == InIdle && w.cells[i].state != P.Idle ==>
                w.cells[i].listener == Ready4(true) || (w.pm == PmHandler && w.cells[i].worker.Record?)
    {
      assert CellOk(w.cells[i], i, w.pm);
    }
    rest := Drains(w);
  }
}
