/**
 One sandbox process: the seven-state machine of its listener, with the timer
 discipline and the ten ways in which a sandbox exit is handled.  Killing the
 sandbox and updating the state is one step, as is timer firing and sending the
 tick; sends on the sandbox stream succeed.
 */
module ProcessModel {
  import opened Basics
  import opened Transactions

  datatype State = Created | Listening | Busy | Idle | Changing | Closing | TimedOut

  /** A Go timer with the flag timerPopped; `since` is the state that started it last. */
  datatype Clock = Clock(armed: bool, tick: bool, popped: bool, since: State)

  /** popTimer would wait for ever. */
  predicate PopBlocks(c: Clock) {
    !c.armed && !c.popped && !c.tick
  }

  /** Stop, and drain the channel unless the tick has been received already. */
  function Pop(c: Clock): Clock {
    if c.armed then c.(armed := false) else if !c.popped then c.(tick := false) else c
  }

  /** startReadyTimer, startBusyTimer. */
  function Start(c: Clock, s: State): Clock {
    Pop(c).(armed := true, popped := false, since := s)
  }

  datatype Proc = Proc(
    id: nat,               // overall index inside the process name
    group: nat,
    user: nat,
    isOrig: bool,
    state: State,
    tx: Option<Tx>,        // the last transaction sent to the sandbox
    idleOn: Option<nat>,   // the listener waits as idle, on the queue of this group
    holding: Option<Tx>,   // taken from the queue while idle, not yet handed back
    clock: Clock,
    owing: bool,           // the sandbox was started by a returning listener, whose popTimer waits for its exit
    latePops: nat,         // listeners whose popTimer waits no longer and is still to come
    done: bool)            // the listener has returned

  function NewProc(id: nat, group: nat, user: nat, isOrig: bool): Proc {
    Proc(id, group, user, isOrig, Created, None, None, None, Clock(true, false, false, Created), false, 0, false)
  }

  /** updateProcessState. */
  function Enter(p: Proc, s: State): Proc {
    if s == Listening || s == Busy then p.(state := s, clock := Start(p.clock, s)) else p.(state := s)
  }

  /** What a step sends out: a transaction back to the scheduler, answered with an error, dropped as expired or
      answered by its sandbox, a SandboxExitMsg, a BadContractResp. */
  datatype Effects = Effects(requeued: Option<Tx>, failed: Option<Tx>, expired: Option<Tx>, answered: Option<Tx>,
                             exit: bool, bad: bool)

  const NOTHING := Effects(None, None, None, None, false, false)

  /** Time since the transaction was queued, against ExecTxTimeout and _removeTxTime. */
  datatype Age = Fresh | Late | Expired

  /** Why launchProcess returned: the file could not be executed, was not there, or anything else. */
  datatype Cause = ExecFailed | Missing | Other

  datatype Event =
    | Register                          // SetStream
    | TakeTx(tx: Tx, age: Age)          // handleTxRequest
    | Respond                           // handleTxResp
    | Fire
    | Tick(moved: bool)                 // handleTimeout; `moved`: the manager listed the process as idle
    | IdleTake(tx: Tx)                  // handleIdleTxRequest receives, maybe while the sandbox changes or closes, ...
    | IdleReturn(moved: bool)           // ... and returns the transaction; `moved`: listed as busy
    | Change(id: nat, group: nat)       // ChangeSandbox
    | Close                             // CloseSandbox
    | Exit(cause: Cause, next: Option<Tx>)
    | LatePop

  predicate Enabled(p: Proc, ev: Event) {
    match ev
    case Register => p.state == Created && !p.done
    case TakeTx(_, _) => p.state == Listening && !p.done
    case Respond => p.state == Busy && !p.done && p.tx.Some?
    case Fire => p.clock.armed
    case Tick(_) => (p.state == Listening || p.state == Busy) && p.clock.tick && !p.done
    case IdleTake(_) => p.idleOn.Some? && p.holding.None? && !p.done
    case IdleReturn(moved) => p.holding.Some? && (moved ==> p.state == Idle)
    case Change(_, _) => p.state == Idle && !p.done
    case Close => p.state == Idle && !p.done
    case Exit(cause, next) =>
      && !p.done && p.holding.None?
      && (cause != Other ==> p.state == Created)
      && (cause == Other ==> next.None?)
      && (p.state == Busy || p.state == TimedOut ==> p.tx.Some?)
    case LatePop => p.latePops > 0
  }

  /** How often a transaction occurs in an optional one. */
  function Has(t: Option<Tx>, x: Tx): nat {
    if t == Some(x) then 1 else 0
  }

  predicate LastIsAdmin(p: Proc) {
    p.tx.Some? && p.tx.value.admin
  }

  /** The deferred popTimer and timerPopped := true. */
  function Settle(p: Proc): Proc {
    p.(clock := Pop(p.clock).(popped := true))
  }

  /** The listener that started this sandbox after a change gets rid of its exit, so its own popTimer comes next. */
  function Due(p: Proc): Proc {
    if p.owing then p.(owing := false, latePops := p.latePops + 1) else p
  }

  /** handleProcessExit, case by case. */
  function DoExit(p: Proc, cause: Cause, next: Option<Tx>): (Proc, Effects)
    requires Enabled(p, Exit(cause, next))
  {
    match cause
    case ExecFailed =>
      (Settle(p.(tx := if next.Some? then next else p.tx, done := true)),
       NOTHING.(failed := next, exit := true, bad := next.Some?))
    case Missing =>
      (Settle(p.(tx := if next.Some? then next else p.tx, done := true)),
       NOTHING.(requeued := next, exit := true, bad := next.Some?))
    case Other =>
      match p.state
      case Created => (Settle(p), NOTHING)
      case Listening => (Settle(p.(done := true)), NOTHING.(exit := true, bad := LastIsAdmin(p)))
      case Idle => (Settle(p.(done := true)), NOTHING.(exit := true))
      case Busy => (Settle(Enter(p, Created).(done := true)),
                    NOTHING.(failed := p.tx, exit := true, bad := LastIsAdmin(p)))
      case Changing => (Enter(p, Created).(owing := true), NOTHING)
      case Closing => (Settle(p.(done := true)), NOTHING)
      case TimedOut => (Settle(Enter(p, Created).(done := true)), NOTHING.(failed := p.tx, exit := true))
  }

  function Apply(p: Proc, ev: Event): (Proc, Effects)
    requires Enabled(p, ev)
  {
    match ev
    case Register => (Enter(p, Listening), NOTHING)
    case TakeTx(tx, age) =>
      (match age
       case Expired => (p, NOTHING.(expired := Some(tx)))
       case Late => (p, NOTHING.(failed := Some(tx)))
       case Fresh => (Enter(p.(tx := Some(tx)), Busy), NOTHING))
    case Respond => (Enter(p, Listening), NOTHING.(answered := p.tx))
    case Fire => (p.(clock := p.clock.(armed := false, tick := true)), NOTHING)
    case Tick(moved) =>
      var p1 := p.(clock := p.clock.(tick := false, popped := true));
      if p.state == Busy then (Enter(p1, TimedOut), NOTHING)
      else if moved then (Enter(p1, Idle).(idleOn := Some(p.group)), NOTHING)
      else (p1, NOTHING)
    case IdleTake(tx) => (p.(holding := Some(tx), idleOn := None), NOTHING)
    case IdleReturn(moved) =>
      (if moved then Enter(p.(holding := None), Listening)
       else p.(holding := None, idleOn := if p.state == Idle then Some(p.group) else None),
       NOTHING.(requeued := p.holding))
    case Change(id, group) => (Enter(p.(id := id, group := group), Changing), NOTHING)
    case Close => (Enter(p, Closing), NOTHING)
    case Exit(cause, next) => DoExit(Due(p).(idleOn := None), cause, next)
    case LatePop => (Settle(p).(latePops := p.latePops - 1), NOTHING)
  }

  // ----- transactions -----

  /** How often a transaction is with the process: running in its sandbox, or held by its idle listener. */
  function Held(p: Proc, x: Tx): nat {
    (if p.state == Busy || p.state == TimedOut then Has(p.tx, x) else 0) + Has(p.holding, x)
  }

  /** The transaction that a step brings in. */
  function Incoming(ev: Event): Option<Tx> {
    match ev
    case TakeTx(tx, _) => Some(tx)
    case IdleTake(tx) => Some(tx)
    case Exit(_, next) => next
    case _ => None
  }

  function Outgoing(e: Effects, x: Tx): nat {
    Has(e.requeued, x) + Has(e.failed, x) + Has(e.expired, x) + Has(e.answered, x)
  }

  /** A running process has the transaction it runs. */
  predicate Running(p: Proc) {
    p.state == Busy || p.state == TimedOut ==> p.tx.Some?
  }

  lemma ExitConserves(p: Proc, cause: Cause, next: Option<Tx>, x: Tx)
    requires Enabled(p, Exit(cause, next)) && Running(p)
    ensures var (q, e) := DoExit(p, cause, next);
            Held(p, x) + Has(next, x) == Held(q, x) + Outgoing(e, x) && Running(q)
  {
    hide Start, Pop;
  }

  /** Every step passes on exactly what it no longer holds, including the hand-back and all exits. */
  lemma StepConserves(p: Proc, ev: Event, x: Tx)
    requires Enabled(p, ev) && Running(p)
    ensures Held(p, x) + Has(Incoming(ev), x) == Held(Apply(p, ev).0, x) + Outgoing(Apply(p, ev).1, x)
    ensures Running(Apply(p, ev).0)
  {
    hide Start, Pop, DoExit;
    if ev.Exit? {
      ExitConserves(Due(p).(idleOn := None), ev.cause, ev.next, x);
    }
  }

  // ----- the exit -----

  /** An exit ends the process unless its sandbox was being started or changed, and then it is started again; the
      manager hears of every end that it did not ask for; and the contract is reported as bad if and only if its file
      could not be started for a transaction, or the sandbox of a listening or busy process died after an init or
      upgrade. */
  lemma ExitExactly(p: Proc, cause: Cause, next: Option<Tx>)
    requires Enabled(p, Exit(cause, next))
    ensures var (q, e) := Apply(p, Exit(cause, next));
            var started := cause == Other && (p.state == Created || p.state == Changing);
            && (q.done <==> !started) && (started ==> q.state == Created && e == NOTHING)
            && (e.exit <==> q.done && !(cause == Other && p.state == Closing))
            && (e.bad <==> if cause != Other then next.Some?
                           else (p.state == Listening || p.state == Busy) && p.tx.Some? && p.tx.value.admin)
  {
  }

  // ----- the timer -----

  /** Exactly one of armed, tick pending and popped; while listening or busy it is the timer of that very state. */
  predicate Disciplined(p: Proc) {
    var c := p.clock;
    && (c.armed || c.tick || c.popped)
    && !(c.armed && c.tick) && !(c.armed && c.popped) && !(c.tick && c.popped)
    && ((p.state == Listening || p.state == Busy) && !c.popped ==> c.since == p.state)
  }

  lemma ExitTimed(p: Proc, cause: Cause, next: Option<Tx>)
    requires Enabled(p, Exit(cause, next)) && Disciplined(p)
    ensures Disciplined(DoExit(p, cause, next).0)
  {
  }

  /** popTimer never blocks at any of its calls, no tick is left behind, and the discipline is kept. */
  lemma TimerStep(p: Proc, ev: Event)
    requires Enabled(p, ev) && Disciplined(p)
    ensures Disciplined(Apply(p, ev).0) && !PopBlocks(p.clock)
    ensures p.clock.popped ==> !p.clock.tick
    ensures ev.Tick? ==> p.clock.since == p.state
  {
    hide DoExit;
    if ev.Exit? {
      ExitTimed(Due(p).(idleOn := None), ev.cause, ev.next);
    }
  }

  predicate Possible(p: Proc, evs: seq<Event>)
    decreases |evs|
  {
    evs == [] || (Enabled(p, evs[0]) && Possible(Apply(p, evs[0]).0, evs[1..]))
  }

  function After(p: Proc, evs: seq<Event>): Proc
    requires Possible(p, evs)
    decreases |evs|
  {
    if evs == [] then p else After(Apply(p, evs[0]).0, evs[1..])
  }

  lemma {:induction false} TimerRun(p: Proc, evs: seq<Event>)
    requires Disciplined(p) && Possible(p, evs)
    ensures Disciplined(After(p, evs))
    decreases |evs|
  {
    if evs != [] {
      TimerStep(p, evs[0]);
      TimerRun(Apply(p, evs[0]).0, evs[1..]);
    }
  }

  /** In every run of a process, across exits, restarts and sandbox changes: popTimer cannot block, a received tick
      leaves none behind, and a tick handled while listening or busy is that state's own. */
  lemma TimerDiscipline(p: Proc, evs: seq<Event>)
    requires p == NewProc(p.id, p.group, p.user, p.isOrig) && Possible(p, evs)
    ensures var c := After(p, evs).clock;
            && !PopBlocks(c)
            && (c.popped ==> !c.tick)
            && (c.tick && After(p, evs).state in {Listening, Busy} ==> c.since == After(p, evs).state)
  {
    TimerRun(p, evs);
  }

  lemma {:induction false} RunExtends(p: Proc, evs: seq<Event>, ev: Event)
    requires Possible(p, evs) && Enabled(After(p, evs), ev)
    ensures Possible(p, evs + [ev]) && After(p, evs + [ev]) == Apply(After(p, evs), ev).0
    decreases |evs|
  {
    if evs == [] {
      assert evs + [ev] == [ev] && [ev][1..] == [];
      assert After(Apply(p, ev).0, []) == Apply(p, ev).0;
    } else {
      assert (evs + [ev])[1..] == evs[1..] + [ev];
      RunExtends(Apply(p, evs[0]).0, evs[1..], ev);
    }
  }

  ghost predicate Reachable(p: Proc, q: Proc) {
    exists evs :: Possible(p, evs) && After(p, evs) == q
  }

  lemma ReachStep(p: Proc, q: Proc, ev: Event)
    requires Reachable(p, q) && Enabled(q, ev)
    ensures Reachable(p, Apply(q, ev).0)
  {
    var evs :| Possible(p, evs) && After(p, evs) == q;
    RunExtends(p, evs, ev);
  }

  /** A listening or busy process has a timeout coming. */
  predicate Timed(p: Proc) {
    (p.state == Listening || p.state == Busy) && !p.done ==> p.clock.armed || p.clock.tick
  }

  /** A step loses a process's timeout exactly when a late popTimer hits it while it is listening or busy, or the
      manager does not list it as idle. */
  lemma TimeoutLostExactly(p: Proc, ev: Event)
    requires Enabled(p, ev) && Disciplined(p) && Timed(p)
    ensures !Timed(Apply(p, ev).0) <==>
            !p.done && (p.state == Listening || (p.state == Busy && ev.LatePop?)) && (ev.LatePop? || ev == Tick(false))
  {
  }

  function Exits(evs: seq<Event>): nat {
    if evs == [] then 0 else Exits(evs[1..]) + if evs[0].Exit? then 1 else 0
  }

  lemma {:induction false} OwedPops(p: Proc, evs: seq<Event>)
    requires Possible(p, evs)
    ensures var r := After(p, evs);
            && (r.owing ==> p.owing || Exits(evs) >= 1)
            && (r.latePops > 0 ==> p.latePops > 0 || (p.owing && Exits(evs) >= 1) || Exits(evs) >= 2)
    decreases |evs|
  {
    if evs != [] {
      OwedPops(Apply(p, evs[0]).0, evs[1..]);
    }
  }

  /** A late popTimer comes only after two exits: that of the changed sandbox and that of its successor. */
  lemma LatePopNeedsTwoExits(p: Proc, evs: seq<Event>)
    requires p == NewProc(p.id, p.group, p.user, p.isOrig) && Possible(p, evs) && Enabled(After(p, evs), LatePop)
    ensures Exits(evs) >= 2
  {
    OwedPops(p, evs);
  }

  lemma ReachableTimed(p: Proc, q: Proc)
    requires p == NewProc(p.id, p.group, p.user, p.isOrig) && Reachable(p, q)
    ensures Disciplined(q)
  {
    var evs :| Possible(p, evs) && After(p, evs) == q;
    TimerRun(p, evs);
  }

  lemma ReachesIdle(p: Proc)
    requires p == NewProc(p.id, p.group, p.user, p.isOrig)
    ensures exists q :: Reachable(p, q) && q.state == Idle && !q.done && q.holding == None
  {
    var p1 := Apply(p, Register).0;
    var p2 := Apply(p1, Fire).0;
    assert Possible(p, []) && After(p, []) == p;
    assert Enabled(p1, Fire) && Enabled(p2, Tick(true));
    hide Reachable, Possible, After;
    ReachStep(p, p, Register);
    ReachStep(p, p1, Fire);
    ReachStep(p, p2, Tick(true));
    assert Apply(p2, Tick(true)).0.state == Idle;
  }

  lemma ReachesRestart(p: Proc, p3: Proc)
    requires Reachable(p, p3) && p3.state == Idle && !p3.done && p3.holding == None
    ensures exists q :: Reachable(p, q) && q.state == Created && !q.done && q.latePops > 0
  {
    var p4 := Apply(p3, Change(1, 1)).0;
    var p5 := Apply(p4, Exit(Other, None)).0;
    var p6 := Apply(p5, Exit(Other, None)).0;
    assert p5.state == Created && p5.owing && p6.state == Created && p6.latePops > 0;
    hide Reachable, Apply;
    ReachStep(p, p3, Change(1, 1));
    ReachStep(p, p4, Exit(Other, None));
    ReachStep(p, p5, Exit(Other, None));
  }

  /** It does happen: the popTimer deferred by a sandbox change runs only after the next sandbox has exited, too; when
      that one is started once more, the late popTimer can cancel the ready timer of the third. */
  lemma LatePopCancelsTimer(p: Proc)
    requires p == NewProc(p.id, p.group, p.user, p.isOrig)
    ensures exists q :: Reachable(p, q) && q.state == Listening && !q.done && !Timed(q)
  {
    ReachesIdle(p);
    var p3 :| Reachable(p, p3) && p3.state == Idle && !p3.done && p3.holding == None;
    ReachesRestart(p, p3);
    var p6 :| Reachable(p, p6) && p6.state == Created && !p6.done && p6.latePops > 0;
    ReachableTimed(p, p6);
    var p7 := Apply(p6, Register).0;
    var p8 := Apply(p7, LatePop).0;
    assert p7.latePops > 0 && p8.state == Listening && !p8.done && !Timed(p8);
    hide Reachable, Apply;
    ReachStep(p, p6, Register);
    ReachStep(p, p7, LatePop);
  }
}
