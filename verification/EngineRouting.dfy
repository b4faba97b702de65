/**
 Transactions reach their own contract: whatever is renamed, handed over or sent
 back, a group holds only transactions of its contract key and a process runs only
 transactions of the group it works for.
 */
module EngineRouting {
  import opened Basics
  import opened Keys
  import opened Transactions
  import opened EngineModel
  import opened EngineSafety
  import opened EngineSteps
  import G = GroupModel
  import M = ManagerModel
  import P = ProcessModel

  // ----- one group -----

  predicate For(tx: Tx, k: string) {
    ContractKey(tx.key) == k
  }

  ghost predicate AllFor(txs: seq<Tx>, k: string) {
    forall i :: 0 <= i < |txs| ==> For(txs[i], k)
  }

  ghost predicate InboxFor(msgs: seq<G.Msg>, k: string) {
    forall i :: 0 <= i < |msgs| && msgs[i].TxMsg? ==> For(msgs[i].tx, k)
  }

  ghost predicate Keyed(g: G.Group, k: string) {
    && ContractKey(g.key) == k
    && InboxFor(g.inbox, k) && AllFor(g.buf, k) && AllFor(g.orig.queue, k) && AllFor(g.cross.queue, k)
  }

  lemma {:induction false} OnlyFor(txs: seq<Tx>, isOrig: bool, k: string)
    requires AllFor(txs, k)
    ensures AllFor(G.Only(txs, isOrig), k)
  {
    if txs != [] {
      OnlyFor(txs[1..], isOrig, k);
      assert For(txs[0], k);
    }
  }

  lemma AskKeyed(g: G.Group, isOrig: bool, c: G.Counts, k: string)
    requires Keyed(g, k)
    ensures Keyed(G.GetProcesses(g, isOrig, c).g, k)
  {
    hide AllFor, InboxFor, ContractKey;
  }

  lemma CodeKeyed(g: G.Group, now: int, co: G.Counts, cc: G.Counts, k: string)
    requires Keyed(g, k)
    ensures Keyed(G.HandleCode(g, true, now, co, cc).g, k)
  {
    var g2 := g.(timer := G.Timer(false, false), load := G.Ready, version := now, buf := []);
    G.DrainQueues(g2, g.buf);
    OnlyFor(g.buf, true, k);
    OnlyFor(g.buf, false, k);
    var g3 := G.EnqueueAll(g2, g.buf);
    assert Keyed(g3, k);
    hide Keyed;
    AskKeyed(g3, true, co, k);
    AskKeyed(G.GetProcesses(g3, true, co).g, false, cc, k);
  }

  lemma GroupKeyed(g: G.Group, ev: G.Event, k: string)
    requires G.Enabled(g, ev) && Keyed(g, k) && (ev.PutTx? ==> For(ev.tx, k))
    ensures Keyed(G.Apply(g, ev).g, k)
  {
    hide ContractKey, For;
    if ev.TakeMsg? {
      var g1 := g.(inbox := g.inbox[1..]);
      assert Keyed(g1, k);
      if g.inbox[0].TxMsg? {
        var tx := g.inbox[0].tx;
        assert For(tx, k);
        assert Keyed(G.Enqueue(g1, tx), k);
        AskKeyed(G.Enqueue(g1, tx), IsOrig(tx), if IsOrig(tx) then ev.co else ev.cc, k);
      } else if g.inbox[0].ok {
        CodeKeyed(g1, ev.now, ev.co, ev.cc, k);
      }
    } else if ev.TakeReady? {
      AskKeyed(G.WithCtl(g, ev.isOrig, G.Ctl(g, ev.isOrig).(waiting := false)), ev.isOrig, ev.c, k);
    }
  }

  // ----- the engine -----

  /** The dictionary and the groups name each other. */
  ghost predicate Registered(s: Sys) {
    && (forall k :: k in s.sched.index ==> s.sched.index[k] < |s.groups| && Keyed(s.groups[s.sched.index[k]], k))
    && (forall i :: 0 <= i < |s.groups| ==>
          ContractKey(s.groups[i].key) in s.sched.index && s.sched.index[ContractKey(s.groups[i].key)] == i)
  }

  /** A process that runs a transaction runs one of its group's. */
  ghost predicate RunsOwn(p: P.Proc, groups: seq<G.Group>) {
    && p.group < |groups|
    && (p.state == P.Busy || p.state == P.TimedOut ==>
          p.tx.Some? && For(p.tx.value, ContractKey(groups[p.group].key)))
  }

  ghost predicate Routed(s: Sys) {
    Registered(s) && forall i :: 0 <= i < |s.procs| ==> RunsOwn(s.procs[i], s.groups)
  }

  /** A group's contents change, not its key. */
  ghost predicate SameKeys(groups: seq<G.Group>, groups': seq<G.Group>) {
    |groups| <= |groups'| && forall i :: 0 <= i < |groups| ==> ContractKey(groups'[i].key) == ContractKey(groups[i].key)
  }

  lemma UpdateRegistered(s: Sys, s': Sys, i: nat, g: G.Group)
    requires Registered(s) && i < |s.groups| && Keyed(g, ContractKey(s.groups[i].key))
    requires s'.groups == s.groups[i := g] && s'.sched.index == s.sched.index
    ensures Registered(s') && SameKeys(s.groups, s'.groups)
  {
    hide ContractKey;
  }

  lemma GroupOf(s: Sys, i: nat)
    requires Registered(s) && i < |s.groups|
    ensures Keyed(s.groups[i], ContractKey(s.groups[i].key))
  {
    hide ContractKey;
  }

  lemma RunsOwnKept(p: P.Proc, groups: seq<G.Group>, groups': seq<G.Group>)
    requires RunsOwn(p, groups) && SameKeys(groups, groups')
    ensures RunsOwn(p, groups')
  {
    hide ContractKey;
  }

  lemma KeepsProcs(s: Sys, s': Sys)
    requires Routed(s) && Registered(s') && SameKeys(s.groups, s'.groups) && s'.procs == s.procs
    ensures Routed(s')
  {
    hide Registered, ContractKey;
    forall i | 0 <= i < |s'.procs| ensures RunsOwn(s'.procs[i], s'.groups) {
      RunsOwnKept(s.procs[i], s.groups, s'.groups);
    }
  }

  lemma GroupStepRoutes(s: Sys, g: nat, act: GroupAct)
    requires Routed(s) && MayGroup(s, g, act)
    ensures Routed(DoGroup(s, g, act))
  {
    var ev := GroupEvent(s, g, act);
    assert !ev.PutTx?;
    GroupOf(s, g);
    GroupKeyed(s.groups[g], ev, ContractKey(s.groups[g].key));
    var r := DoGroup(s, g, act);
    hide Registered, ContractKey, G.Apply, ManagerAfterGroup, Keyed, CountsFor, RunsOwn;
    UpdateRegistered(s, r, g, G.Apply(s.groups[g], ev).g);
    KeepsProcs(s, r);
  }

  lemma RegisterRoutes(s: Sys, key: GroupKey)
    requires Routed(s)
    ensures var r := Register(s, key);
            Routed(r) && ContractKey(key) in r.sched.index && r.sched.index[ContractKey(key)] == GroupFor(s, key)
  {
    var r := Register(s, key);
    hide ContractKey, M.Apply;
    assert SameKeys(s.groups, r.groups);
    KeepsProcs(s, r);
  }

  lemma DispatchRoutes(s: Sys)
    requires Routed(s) && May(s, Dispatch)
    ensures Routed(DoDispatch(s))
  {
    var tx := s.sched.txCh[0];
    RegisterRoutes(s, tx.key);
    var r := Register(s, tx.key);
    var g := GroupFor(s, tx.key);
    assert Keyed(r.groups[g], ContractKey(tx.key));
    GroupKeyed(r.groups[g], G.PutTx(tx), ContractKey(tx.key));
    var d := DoDispatch(s);
    hide Registered, ContractKey, Register, Keyed, RunsOwn, G.Apply, GroupFor;
    assert ContractKey(r.groups[g].key) == ContractKey(tx.key);
    UpdateRegistered(r, d, g, G.Apply(r.groups[g], G.PutTx(tx)).g);
    KeepsProcs(r, d);
  }

  predicate RunsTx(p: P.Proc) {
    p.state == P.Busy || p.state == P.TimedOut
  }

  /** A manager step starts no transaction. */
  lemma ManagerStartsNone(s: Sys, isOrig: bool, act: ManagerAct)
    requires MayManager(s, isOrig, act)
    ensures var procs := ProcsAfter(s, isOrig, act);
            forall i :: 0 <= i < |procs| ==> (i < |s.procs| && procs[i] == s.procs[i]) || !RunsTx(procs[i])
  {
    hide M.SameContract;
  }

  lemma ManagerShape(s: Sys, isOrig: bool, act: ManagerAct)
    requires MayManager(s, isOrig, act)
    ensures var r := DoManager(s, isOrig, act);
            r.procs == ProcsAfter(s, isOrig, act) && r.groups == s.groups && r.sched == s.sched
  {
    ManagerRuns(s, isOrig, act);
    hide MayManager, M.Apply, ProcsAfter, UsersAfter, ManagerEvent;
  }

  lemma NotRunning(q: P.Proc, groups: seq<G.Group>)
    requires !RunsTx(q) && q.group < |groups|
    ensures RunsOwn(q, groups)
  {
    hide ContractKey;
  }

  lemma ManagerRoutes(s: Sys, isOrig: bool, act: ManagerAct)
    requires Routed(s) && Wired(s) && MayManager(s, isOrig, act)
    ensures Routed(DoManager(s, isOrig, act))
  {
    var r := DoManager(s, isOrig, act);
    hide Wired, MayManager, DoManager, ContractKey, Keyed, ProcsAfter, RunsTx, RunsOwn;
    ManagerShape(s, isOrig, act);
    ManagerStartsNone(s, isOrig, act);
    ManagerPopulates(s, isOrig, act);
    forall i | 0 <= i < |r.procs| ensures RunsOwn(r.procs[i], r.groups) {
      if i < |s.procs| && r.procs[i] == s.procs[i] {
      } else {
        NotRunning(r.procs[i], r.groups);
      }
    }
  }

  /** A process runs what it ran before, or what it has just taken. */
  lemma ProcTx(p: P.Proc, ev: P.Event)
    requires P.Enabled(p, ev)
    ensures var q := P.Apply(p, ev).0;
            RunsTx(q) ==> (RunsTx(p) && q.tx == p.tx) || (ev.TakeTx? && q.tx == Some(ev.tx))
  {
    hide P.Start, P.Pop;
  }

  lemma TakenFor(s: Sys, p: P.Proc, act: ProcAct)
    requires Routed(s) && p.group < |s.groups| && Taken(s, p, act).Some? && act.TakeTx?
    ensures For(Taken(s, p, act).value, ContractKey(s.groups[p.group].key))
  {
    GroupOf(s, p.group);
    hide ContractKey, Routed;
  }

  lemma ProcKeepsGroups(s: Sys, p: P.Proc, act: ProcAct, e: P.Effects, r: Sys)
    requires Routed(s) && r.groups == GroupsAfterProc(s, p, act, e) && r.sched.index == s.sched.index
    ensures Registered(r) && SameKeys(s.groups, r.groups)
  {
    var i := Source(p, act);
    if i < |s.groups| {
      var k := ContractKey(s.groups[i].key);
      GroupOf(s, i);
      var g := s.groups[i];
      var g1 := if Taken(s, p, act).Some? then G.Apply(g, G.Consume(p.isOrig)).g else g;
      assert Keyed(g1, k) by {
        if Taken(s, p, act).Some? { GroupKeyed(g, G.Consume(p.isOrig), k); }
      }
      hide ContractKey, Registered;
      UpdateRegistered(s, r, i, r.groups[i]);
    }
  }

  lemma ProcRunsOwn(s: Sys, pid: nat, act: ProcAct)
    requires Routed(s) && MayProc(s, pid, act) && P.Running(s.procs[pid])
    ensures RunsOwn(P.Apply(s.procs[pid], ProcEvent(s, s.procs[pid], act)).0, s.groups)
  {
    var p := s.procs[pid];
    var ev := ProcEvent(s, p, act);
    StaysPut(p, ev);
    ProcTx(p, ev);
    assert RunsOwn(p, s.groups);
    hide P.Apply, Routed, ContractKey, P.Running;
    if ev.TakeTx? {
      TakenFor(s, p, act);
    }
  }

  lemma ProcRoutes(s: Sys, pid: nat, act: ProcAct)
    requires Routed(s) && Wired(s) && MayProc(s, pid, act)
    ensures Routed(DoProc(s, pid, act))
  {
    var (q, e) := P.Apply(s.procs[pid], ProcEvent(s, s.procs[pid], act));
    var r := DoProc(s, pid, act);
    assert P.Running(s.procs[pid]) by { ProcIsOurs(s, pid); }
    hide Wired, P.Apply, DoProc, ContractKey, Registered, MayProc, ProcEvent, RunsOwn, SameKeys, GroupsAfterProc;
    ProcShape(s, pid, act);
    ProcRunsOwn(s, pid, act);
    ProcKeepsGroups(s, s.procs[pid], act, e, r);
    forall i | 0 <= i < |r.procs| ensures RunsOwn(r.procs[i], r.groups) {
      RunsOwnKept(if i == pid then q else s.procs[i], s.groups, r.groups);
    }
  }

  lemma StepRoutes(s: Sys, l: Label)
    requires Routed(s) && Wired(s) && May(s, l)
    ensures Routed(Next(s, l))
  {
    match l
    case Dispatch => hide Wired, Routed, DoDispatch; DispatchRoutes(s);
    case OfGroup(g, act) => hide Wired, Routed, DoGroup; GroupStepRoutes(s, g, act);
    case OfManager(b, act) => hide Wired, Routed, DoManager; ManagerRoutes(s, b, act);
    case OfProc(pid, act) => hide Wired, Routed, DoProc; ProcRoutes(s, pid, act);
    case _ => hide Wired, Keyed, RunsOwn, ContractKey;
  }

  lemma {:induction false} RunRoutes(s: Sys, ls: seq<Label>)
    requires Routed(s) && Wired(s) && Possible(s, ls)
    ensures Routed(After(s, ls))
    decreases |ls|
  {
    hide Wired, May, Next, Routed;
    if ls != [] {
      StepWired(s, ls[0]);
      StepRoutes(s, ls[0]);
      RunRoutes(Next(s, ls[0]), ls[1..]);
    }
  }

  /** In every run: a process that runs a transaction works for the one group of that transaction's contract key;
      with '#'-free names in the transaction, transaction and group have the same chain, contract and version. */
  lemma RightContract(limit: nat, maxOrig: nat, rate: real, uids: seq<nat>, ls: seq<Label>, pid: nat)
    requires Configured(limit, maxOrig, uids) && Possible(Initial(limit, maxOrig, rate, uids), ls)
    requires var s := After(Initial(limit, maxOrig, rate, uids), ls);
             pid < |s.procs| && (s.procs[pid].state == P.Busy || s.procs[pid].state == P.TimedOut)
    ensures var s := After(Initial(limit, maxOrig, rate, uids), ls); var p := s.procs[pid];
            && p.tx.Some? && p.group < |s.groups|
            && ContractKey(p.tx.value.key) == ContractKey(s.groups[p.group].key)
            && (forall i :: 0 <= i < |s.groups| && ContractKey(s.groups[i].key) == ContractKey(p.tx.value.key) ==>
                  i == p.group)
            && (PlainKey(p.tx.value.key) ==> p.tx.value.key == s.groups[p.group].key)
  {
    var s0 := Initial(limit, maxOrig, rate, uids);
    InitialWired(limit, maxOrig, rate, uids);
    RunRoutes(s0, ls);
    var s := After(s0, ls);
    hide Wired, Possible, ContractKey;
    assert RunsOwn(s.procs[pid], s.groups);
    if PlainKey(s.procs[pid].tx.value.key) {
      KeyUniqueExactly(s.procs[pid].tx.value.key);
    }
  }
}
