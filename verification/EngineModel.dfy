/**
 The whole contract engine: scheduler, request groups, the two process managers,
 the processes and the shared user pool, put together from the component models.
 Every handler section that runs under a lock is one step, and steps of different
 components interleave freely.  The chain, the contract manager and the sandboxes
 are the environment: they choose which steps happen.
 */
module EngineModel {
  import opened Basics
  import opened Keys
  import opened Transactions
  import G = GroupModel
  import M = ManagerModel
  import P = ProcessModel
  import F = FixedFifo

  /** The scheduler's queues (transaction requests, errors for the chain) and its group dictionary. */
  datatype Sched = Sched(txCh: seq<Tx>, errs: seq<Tx>, index: map<string, nat>)

  /** How transactions entered and left the engine. */
  datatype Past = Past(accepted: seq<Tx>, answered: seq<Tx>, failed: seq<Tx>, expired: seq<Tx>)

  datatype Sys = Sys(
    limit: nat,                // CallContractDepth
    sched: Sched,
    groups: seq<G.Group>,
    orig: M.Manager,
    cross: M.Manager,
    procs: seq<P.Proc>,
    users: F.Fifo<nat>,
    past: Past)

  /** Start of the engine: maxOrig original and maxOrig * limit cross processes, and the created users. */
  function Initial(limit: nat, maxOrig: nat, rate: real, uids: seq<nat>): Sys {
    Sys(limit, Sched([], [], map[]), [],
        M.Initial(M.Config(true, maxOrig, rate)), M.Initial(M.Config(false, maxOrig * limit, rate)),
        [], F.Fifo(maxOrig * (limit + 1), uids, []), Past([], [], [], []))
  }

  function Mgr(s: Sys, isOrig: bool): M.Manager {
    if isOrig then s.orig else s.cross
  }

  function WithMgr(s: Sys, isOrig: bool, m: M.Manager): Sys {
    if isOrig then s.(orig := m) else s.(cross := m)
  }

  // ----- scheduler -----

  /** Every dictionary entry is the position of a group. */
  predicate Indexed(s: Sys) {
    forall k :: k in s.sched.index ==> s.sched.index[k] < |s.groups|
  }

  /** handleTxReq: a new contract key gets a request group, and both managers can resolve it from then on. */
  function Register(s: Sys, key: GroupKey): Sys {
    if ContractKey(key) in s.sched.index then s
    else s.(sched := s.sched.(index := s.sched.index[ContractKey(key) := |s.groups|]),
            groups := s.groups + [G.NewGroup(key)],
            orig := M.Apply(s.orig, M.Learn(key)), cross := M.Apply(s.cross, M.Learn(key)))
  }

  function GroupFor(s: Sys, key: GroupKey): nat {
    if ContractKey(key) in s.sched.index then s.sched.index[ContractKey(key)] else |s.groups|
  }

  function DoDispatch(s: Sys): Sys
    requires s.sched.txCh != [] && Indexed(s)
  {
    var tx := s.sched.txCh[0];
    var r := Register(s, tx.key);
    var g := GroupFor(s, tx.key);
    r.(sched := r.sched.(txCh := s.sched.txCh[1..]), groups := r.groups[g := G.Apply(r.groups[g], G.PutTx(tx)).g])
  }

  // ----- groups -----

  datatype GroupAct =
    | Own(ev: G.Event)
    | TakeReady(isOrig: bool, i: nat)    // takes the i-th response of a manager's channel

  predicate Active(procs: seq<P.Proc>, t: M.Tables, id: nat) {
    M.Listed(t, id) && M.EntryOf(t, id).pid < |procs|
    && (procs[M.EntryOf(t, id).pid].state == P.Listening || procs[M.EntryOf(t, id).pid].state == P.Busy)
  }

  /** GetProcessNumByContractKey and GetReadyOrBusyProcessNum. */
  function CountsFor(s: Sys, g: nat, isOrig: bool): G.Counts {
    var t := Mgr(s, isOrig).t;
    if g !in t.groups then G.Counts(0, 0)
    else G.Counts(|t.groups[g]|, |set n | n in t.groups[g] && Active(s.procs, t, n)|)
  }

  function GroupEvent(s: Sys, g: nat, act: GroupAct): G.Event {
    match act
    case Own(ev) => ev
    case TakeReady(b, _) => G.TakeReady(b, CountsFor(s, g, b))
  }

  /** Messages come from the contract manager, ticks from the timer, counts from the managers as they are now. */
  predicate MayGroup(s: Sys, g: nat, act: GroupAct) {
    && g < |s.groups| && G.Enabled(s.groups[g], GroupEvent(s, g, act))
    && match act
       case Own(ev) =>
         && (ev.PutCode? || ev.TakeMsg? || ev.TakeBad? || ev.Fire? || ev.TakeTick?)
         && (ev.TakeMsg? ==>
               ev.depthLimit == s.limit && ev.co == CountsFor(s, g, true) && ev.cc == CountsFor(s, g, false))
       case TakeReady(b, i) => i < |Mgr(s, b).desk.outbox| && Mgr(s, b).desk.outbox[i].group == g
  }

  function AskFor(m: M.Manager, g: nat, num: nat): M.Manager {
    if num == 0 then m else M.Apply(m, M.Ask(g, num))
  }

  function ManagerAfterGroup(s: Sys, g: nat, act: GroupAct, isOrig: bool, num: nat): M.Manager
    requires MayGroup(s, g, act)
  {
    var m := Mgr(s, isOrig);
    AskFor(if act.TakeReady? && act.isOrig == isOrig then M.Apply(m, M.Deliver(act.i)) else m, g, num)
  }

  function DoGroup(s: Sys, g: nat, act: GroupAct): Sys
    requires MayGroup(s, g, act)
  {
    var o := G.Apply(s.groups[g], GroupEvent(s, g, act));
    s.(groups := s.groups[g := o.g], sched := s.sched.(errs := s.sched.errs + o.errors),
       orig := ManagerAfterGroup(s, g, act, true, o.askOrig), cross := ManagerAfterGroup(s, g, act, false, o.askCross))
  }

  // ----- managers -----

  datatype ManagerAct =
    | Inner(ev: M.Event)           // touches nothing but the manager
    | Create
    | Launch(i: nat)
    | Reuse(i: nat, ok: bool)      // `ok`: the idle process agreed to change or to close
    | Hand(i: nat, ok: bool)
    | CloseIdle(i: nat, ok: bool)
    | HandleExit

  predicate Internal(ev: M.Event) {
    ev.BeginRequest? || ev.BeginReuse? || ev.EndRequest? || ev.CleanTick? || ev.EndClean?
    || ev.BeginIdle? || ev.EndIdle? || ev.BeginNew? || ev.EndNew?
  }

  /** createNewProcess takes a user; an empty pool makes it wait, a full waiting room makes it fail. */
  function MadeFrom(users: F.Fifo<nat>, pid: nat): M.Made {
    var r := F.Take(users, 0).1;
    if r.Got? then M.Made(pid, r.value) else M.Failed
  }

  /** Giving a user back fails when the queue is full. */
  predicate Frees(users: F.Fifo<nat>, user: nat) {
    !F.Put(users, user).1.Full?
  }

  /** The idle process that the step is about. */
  function Target(m: M.Manager, act: ManagerAct): (id: nat)
    requires act.Reuse? ==> m.job.Reusing? && act.i < |m.job.picks|
    requires act.Hand? ==> m.job.Pairing? && act.i < |m.job.pairs|
    requires act.CloseIdle? ==> m.job.Cleaning? && act.i < |m.job.victims|
    requires act.HandleExit? ==> m.inbox != [] && m.inbox[0].SandboxExit?
  {
    match act
    case Reuse(i, _) => m.job.picks[i]
    case Hand(i, _) => m.job.pairs[i].id
    case CloseIdle(i, _) => m.job.victims[i]
    case HandleExit => m.inbox[0].id
    case _ => 0
  }

  /** ChangeSandbox and CloseSandbox succeed only on an idle process whose sandbox runs. */
  predicate Agrees(procs: seq<P.Proc>, pid: nat) {
    pid < |procs| && procs[pid].state == P.Idle && !procs[pid].done
  }

  /** A handler reaches the step; a creation that has to wait for a user is no step, and name counters stay below
      2^64. */
  ghost predicate MayManager(s: Sys, isOrig: bool, act: ManagerAct) {
    var m := Mgr(s, isOrig);
    match act
    case Inner(ev) => Internal(ev) && M.Enabled(m, ev) && M.Runnable(m, ev)
    case Create => m.job.Creating? && m.job.left > 0 && m.job.need > 0 && m.serial + 1 < TWO_64
                   && !F.Take(s.users, 0).1.Parked?
    case Launch(i) => m.job.Launching? && i < |m.job.todo| && m.job.todo[i] < |m.known| && m.serial + 1 < TWO_64
                      && !F.Take(s.users, 0).1.Parked?
    case Reuse(i, ok) => m.job.Reusing? && i < |m.job.picks| && m.job.need > 0 && m.serial + 1 < TWO_64
                         && m.job.picks[i] in m.t.idle && (ok ==> Agrees(s.procs, m.t.idle[m.job.picks[i]].pid))
    case Hand(i, ok) => m.job.Pairing? && i < |m.job.pairs| && m.serial + 1 < TWO_64
                        && m.job.pairs[i].id in m.t.idle && (ok ==> Agrees(s.procs, m.t.idle[m.job.pairs[i].id].pid))
    case CloseIdle(i, ok) => m.job.Cleaning? && i < |m.job.victims|
                             && m.job.victims[i] in m.t.idle && (ok ==> Agrees(s.procs, m.t.idle[m.job.victims[i]].pid))
    case HandleExit => m.job.NoJob? && m.inbox != [] && m.inbox[0].SandboxExit? && M.Listed(m.t, m.inbox[0].id)
  }

  function ManagerEvent(s: Sys, isOrig: bool, act: ManagerAct): M.Event
    requires MayManager(s, isOrig, act)
  {
    var m := Mgr(s, isOrig);
    match act
    case Inner(ev) => ev
    case Create => M.Create(MadeFrom(s.users, |s.procs|))
    case Launch(i) => M.Launch(i, MadeFrom(s.users, |s.procs|))
    case Reuse(i, ok) => M.Reuse(i, ok)
    case Hand(i, ok) => M.Hand(i, ok)
    case CloseIdle(i, ok) => M.Close(i, ok, ok && Frees(s.users, m.t.idle[Target(m, act)].user))
    case HandleExit => M.HandleExit(Frees(s.users, M.EntryOf(m.t, Target(m, act)).user))
  }

  /** A new process takes a user; closing a sandbox and handling its exit give the user back. */
  function UsersAfter(s: Sys, isOrig: bool, act: ManagerAct): F.Fifo<nat>
    requires MayManager(s, isOrig, act)
  {
    var m := Mgr(s, isOrig);
    match act
    case Create => F.Take(s.users, 0).0
    case Launch(_) => F.Take(s.users, 0).0
    case CloseIdle(_, ok) => if ok then F.Put(s.users, m.t.idle[Target(m, act)].user).0 else s.users
    case HandleExit => F.Put(s.users, M.EntryOf(m.t, Target(m, act)).user).0
    case _ => s.users
  }

  function WithNew(s: Sys, isOrig: bool, group: nat): seq<P.Proc> {
    var made := MadeFrom(s.users, |s.procs|);
    if made.Made? then s.procs + [P.NewProc(Mgr(s, isOrig).serial + 1, group, made.user, isOrig)] else s.procs
  }

  /** The process object gets the new name and contract, unless it already runs this contract. */
  function WithChange(s: Sys, m: M.Manager, id: nat, group: nat): seq<P.Proc>
    requires id in m.t.idle && Agrees(s.procs, m.t.idle[id].pid)
  {
    var pid := m.t.idle[id].pid;
    if M.SameContract(m, group, m.t.idle[id].group) then s.procs
    else s.procs[pid := P.Apply(s.procs[pid], P.Change(m.serial + 1, group)).0]
  }

  function ProcsAfter(s: Sys, isOrig: bool, act: ManagerAct): seq<P.Proc>
    requires MayManager(s, isOrig, act)
  {
    var m := Mgr(s, isOrig);
    match act
    case Create => WithNew(s, isOrig, m.job.group)
    case Launch(i) => WithNew(s, isOrig, m.job.todo[i])
    case Reuse(_, ok) => if ok then WithChange(s, m, Target(m, act), m.job.group) else s.procs
    case Hand(i, ok) => if ok then WithChange(s, m, Target(m, act), m.job.pairs[i].group) else s.procs
    case CloseIdle(_, ok) =>
      var pid := m.t.idle[Target(m, act)].pid;
      if ok then s.procs[pid := P.Apply(s.procs[pid], P.Close).0] else s.procs
    case _ => s.procs
  }

  lemma ManagerRuns(s: Sys, isOrig: bool, act: ManagerAct)
    requires MayManager(s, isOrig, act)
    ensures M.Runnable(Mgr(s, isOrig), ManagerEvent(s, isOrig, act))
  {
  }

  function DoManager(s: Sys, isOrig: bool, act: ManagerAct): Sys
    requires MayManager(s, isOrig, act)
  {
    ManagerRuns(s, isOrig, act);
    WithMgr(s, isOrig, M.Apply(Mgr(s, isOrig), ManagerEvent(s, isOrig, act)))
      .(users := UsersAfter(s, isOrig, act), procs := ProcsAfter(s, isOrig, act))
  }

  // ----- processes -----

  datatype ProcAct =
    | Plain(ev: P.Event)           // touches nothing but the process
    | TakeTx(age: P.Age)
    | ReadyTimeout
    | IdleTake
    | IdleReturn
    | Exit(cause: P.Cause, version: int)

  /** The group whose queue the step reads: an idle listener still reads the queue it waited on when its process
      was moved to another group. */
  function Source(p: P.Proc, act: ProcAct): nat {
    if act.IdleTake? && p.idleOn.Some? then p.idleOn.value else p.group
  }

  function QueueOf(s: Sys, g: nat, isOrig: bool): seq<Tx> {
    if g < |s.groups| then G.Ctl(s.groups[g], isOrig).queue else []
  }

  function Head(q: seq<Tx>): Option<Tx> {
    if q == [] then None else Some(q[0])
  }

  /** The transaction the step takes from that queue.  handleProcessExit takes one when the contract file could not
      be started. */
  function Taken(s: Sys, p: P.Proc, act: ProcAct): Option<Tx> {
    if act.TakeTx? || act.IdleTake? || (act.Exit? && act.cause != P.Other) then
      Head(QueueOf(s, Source(p, act), p.isOrig))
    else None
  }

  /** A ready timeout and a transaction for an idle process call ChangeProcessState, which waits until no handler
      holds the manager lock. */
  predicate MayProc(s: Sys, pid: nat, act: ProcAct) {
    && pid < |s.procs|
    && (act.Plain? ==> act.ev.Register? || act.ev.Respond? || act.ev.Fire? || act.ev.LatePop?
                       || (act.ev.Tick? && s.procs[pid].state == P.Busy))
    && (act.ReadyTimeout? ==> s.procs[pid].state == P.Listening)
    && (act.ReadyTimeout? || act.IdleReturn? ==> Mgr(s, s.procs[pid].isOrig).job.NoJob?)
    && (act.TakeTx? || act.IdleTake? ==> Taken(s, s.procs[pid], act).Some?)
    && P.Enabled(s.procs[pid], ProcEvent(s, s.procs[pid], act))
  }

  function ProcEvent(s: Sys, p: P.Proc, act: ProcAct): P.Event
    requires act.TakeTx? || act.IdleTake? ==> Taken(s, p, act).Some?
  {
    match act
    case Plain(ev) => ev
    case TakeTx(age) => P.TakeTx(Taken(s, p, act).value, age)
    case ReadyTimeout => P.Tick(p.id in Mgr(s, p.isOrig).t.busy)
    case IdleTake => P.IdleTake(Taken(s, p, act).value)
    case IdleReturn => P.IdleReturn(p.id in Mgr(s, p.isOrig).t.idle)
    case Exit(cause, _) => P.Exit(cause, Taken(s, p, act))
  }

  function Opt(t: Option<Tx>): seq<Tx> {
    if t.Some? then [t.value] else []
  }

  /** What the process's manager hears of the step. */
  function ManagerAfterProc(m: M.Manager, p: P.Proc, act: ProcAct, e: P.Effects): M.Manager {
    if act.ReadyTimeout? then M.Apply(m, M.MarkIdle(p.id))
    else if act.IdleReturn? then M.Apply(m, M.MarkBusy(p.id))
    else if e.exit then M.Apply(m, M.ReportExit(p.group, p.id))
    else m
  }

  /** The group loses the transaction taken and learns of a bad contract. */
  function GroupsAfterProc(s: Sys, p: P.Proc, act: ProcAct, e: P.Effects): seq<G.Group> {
    if Source(p, act) >= |s.groups| then s.groups
    else
      var g := s.groups[Source(p, act)];
      var g1 := if Taken(s, p, act).Some? then G.Apply(g, G.Consume(p.isOrig)).g else g;
      var g2 := if e.bad && act.Exit? then G.Apply(g1, G.PutBad(act.version)).g else g1;
      s.groups[Source(p, act) := g2]
  }

  function DoProc(s: Sys, pid: nat, act: ProcAct): Sys
    requires MayProc(s, pid, act)
  {
    var p := s.procs[pid];
    var (q, e) := P.Apply(p, ProcEvent(s, p, act));
    WithMgr(s, p.isOrig, ManagerAfterProc(Mgr(s, p.isOrig), p, act, e))
      .(procs := s.procs[pid := q], groups := GroupsAfterProc(s, p, act, e),
        sched := s.sched.(txCh := s.sched.txCh + Opt(e.requeued), errs := s.sched.errs + Opt(e.failed)),
        past := s.past.(expired := s.past.expired + Opt(e.expired), answered := s.past.answered + Opt(e.answered)))
  }

  // ----- steps -----

  datatype Label =
    | Arrive(tx: Tx)                                    // the chain sends a transaction
    | Dispatch
    | Forward                                           // an error response goes to the chain
    | OfGroup(g: nat, ga: GroupAct)
    | OfManager(isOrig: bool, ma: ManagerAct)
    | OfProc(pid: nat, pa: ProcAct)

  ghost predicate May(s: Sys, l: Label) {
    match l
    case Arrive(_) => true
    case Dispatch => s.sched.txCh != [] && Indexed(s)
    case Forward => s.sched.errs != []
    case OfGroup(g, act) => MayGroup(s, g, act)
    case OfManager(b, act) => MayManager(s, b, act)
    case OfProc(pid, act) => MayProc(s, pid, act)
  }

  function Next(s: Sys, l: Label): Sys
    requires May(s, l)
  {
    match l
    case Arrive(tx) =>
      s.(sched := s.sched.(txCh := s.sched.txCh + [tx]), past := s.past.(accepted := s.past.accepted + [tx]))
    case Dispatch => DoDispatch(s)
    case Forward =>
      s.(sched := s.sched.(errs := s.sched.errs[1..]), past := s.past.(failed := s.past.failed + [s.sched.errs[0]]))
    case OfGroup(g, act) => DoGroup(s, g, act)
    case OfManager(b, act) => DoManager(s, b, act)
    case OfProc(pid, act) => DoProc(s, pid, act)
  }

  // ----- runs -----

  ghost predicate Possible(s: Sys, ls: seq<Label>)
    decreases |ls|
  {
    ls == [] || (May(s, ls[0]) && Possible(Next(s, ls[0]), ls[1..]))
  }

  ghost function After(s: Sys, ls: seq<Label>): Sys
    requires Possible(s, ls)
    decreases |ls|
  {
    if ls == [] then s else After(Next(s, ls[0]), ls[1..])
  }
}
