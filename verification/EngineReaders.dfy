/**
 A queued transaction is within reach of its contract's processes: in every run of the
 engine a ready process can take it at once, and an idle one still listens to its
 group's queue, gives the transaction back to the scheduler and is ready again.
 */
module EngineReaders {
  import opened Basics
  import opened Keys
  import opened Transactions
  import opened EngineModel
  import opened EngineWiring
  import opened EngineSafety
  import opened EngineSteps
  import G = GroupModel
  import M = ManagerModel
  import P = ProcessModel

  /** An idle process listens to the queue of its own group, unless it holds a transaction from it. */
  predicate Listens(p: P.Proc) {
    p.state == P.Idle && !p.done && p.holding.None? ==> p.idleOn == Some(p.group)
  }

  ghost predicate AllListen(procs: seq<P.Proc>) {
    forall i :: 0 <= i < |procs| ==> Listens(procs[i])
  }

  lemma EventListens(p: P.Proc, ev: P.Event)
    requires P.Enabled(p, ev) && Listens(p)
    ensures Listens(P.Apply(p, ev).0)
  {
    hide P.Pop, P.Start;
  }

  lemma ManagerListens(s: Sys, isOrig: bool, act: ManagerAct)
    requires MayManager(s, isOrig, act) && AllListen(s.procs)
    ensures AllListen(DoManager(s, isOrig, act).procs)
  {
    var procs := ProcsAfter(s, isOrig, act);
    assert forall i :: 0 <= i < |procs| ==> Listens(procs[i]) by { hide M.SameContract; }
    ManagerRuns(s, isOrig, act);
    hide MayManager, ProcsAfter, UsersAfter, M.Apply, ManagerEvent;
  }

  lemma StepListens(s: Sys, l: Label)
    requires May(s, l) && AllListen(s.procs)
    ensures AllListen(Next(s, l).procs)
  {
    match l
    case OfManager(b, act) => hide AllListen, DoManager; ManagerListens(s, b, act);
    case OfProc(pid, act) =>
      EventListens(s.procs[pid], ProcEvent(s, s.procs[pid], act));
      ProcShape(s, pid, act);
      hide DoProc, P.Apply, Listens, ProcEvent;
    case OfGroup(_, _) => hide Listens, G.Apply;
    case _ => hide Listens, ContractKey;
  }

  lemma {:induction false} RunListens(s: Sys, ls: seq<Label>)
    requires Wired(s) && AllListen(s.procs) && Possible(s, ls)
    ensures Wired(After(s, ls)) && AllListen(After(s, ls).procs)
    decreases |ls|
  {
    hide Wired, AllListen, May, Next;
    if ls != [] {
      StepWired(s, ls[0]);
      StepListens(s, ls[0]);
      RunListens(Next(s, ls[0]), ls[1..]);
    }
  }

  /** A process that has not ended, and the transaction at the head of its group's queue. */
  ghost predicate Faces(s: Sys, pid: nat, x: Tx) {
    pid < |s.procs| && !s.procs[pid].done
    && Head(QueueOf(s, s.procs[pid].group, s.procs[pid].isOrig)) == Some(x)
  }

  /** In every state a ready process can take it, and then runs it, if it is not too old. */
  lemma ReadyTakes(s: Sys, pid: nat, x: Tx)
    requires Faces(s, pid, x) && s.procs[pid].state == P.Listening
    ensures forall age :: May(s, OfProc(pid, TakeTx(age)))
    ensures var r := Next(s, OfProc(pid, TakeTx(P.Fresh)));
            && pid < |r.procs| && r.procs[pid].state == P.Busy && r.procs[pid].tx == Some(x)
            && QueueOf(r, s.procs[pid].group, s.procs[pid].isOrig)
               == QueueOf(s, s.procs[pid].group, s.procs[pid].isOrig)[1..]
  {
  }

  lemma IdleListed(s: Sys, pid: nat)
    requires Wired(s) && pid < |s.procs| && s.procs[pid].state == P.Idle && !s.procs[pid].done
    ensures s.procs[pid].id in Mgr(s, s.procs[pid].isOrig).t.idle
  {
    var p := s.procs[pid];
    var m := Mgr(s, p.isOrig);
    assert Linked(m.t, m.inbox, s.procs, p.isOrig);
    hide Wired;
    assert Alive(m.t, s.procs, p.isOrig, pid) && Matches(m.t, s.procs, p.isOrig, p.id);
  }

  lemma IdleTakes(s: Sys, pid: nat, x: Tx)
    requires Faces(s, pid, x) && s.procs[pid].state == P.Idle && s.procs[pid].holding.None? && Listens(s.procs[pid])
    ensures May(s, OfProc(pid, IdleTake))
    ensures var p := s.procs[pid]; var q := Next(s, OfProc(pid, IdleTake));
            && q.procs == s.procs[pid := p.(holding := Some(x), idleOn := None)] && q.sched == s.sched
            && q.orig == s.orig && q.cross == s.cross
            && QueueOf(q, p.group, p.isOrig) == QueueOf(s, p.group, p.isOrig)[1..]
  {
  }

  lemma IdleReturns(q: Sys, pid: nat, x: Tx)
    requires pid < |q.procs| && q.procs[pid].holding == Some(x) && q.procs[pid].state == P.Idle
    requires Mgr(q, q.procs[pid].isOrig).job.NoJob? && q.procs[pid].id in Mgr(q, q.procs[pid].isOrig).t.idle
    ensures May(q, OfProc(pid, IdleReturn))
    ensures var p := q.procs[pid]; var r := Next(q, OfProc(pid, IdleReturn));
            && pid < |r.procs| && r.procs[pid].state == P.Listening && r.sched.txCh == q.sched.txCh + [x]
            && QueueOf(r, p.group, p.isOrig) == QueueOf(q, p.group, p.isOrig)
  {
  }

  /** In every run an idle process of the contract takes it while the manager's lock is free, gives it back to the
      scheduler, and is ready again. */
  lemma IdleComesBack(limit: nat, maxOrig: nat, rate: real, uids: seq<nat>, ls: seq<Label>, pid: nat, x: Tx)
    requires Configured(limit, maxOrig, uids) && Possible(Initial(limit, maxOrig, rate, uids), ls)
    requires var s := After(Initial(limit, maxOrig, rate, uids), ls);
             && Faces(s, pid, x) && s.procs[pid].state == P.Idle && s.procs[pid].holding.None?
             && Mgr(s, s.procs[pid].isOrig).job.NoJob?
    ensures var s := After(Initial(limit, maxOrig, rate, uids), ls);
            May(s, OfProc(pid, IdleTake)) && May(Next(s, OfProc(pid, IdleTake)), OfProc(pid, IdleReturn))
    ensures var s := After(Initial(limit, maxOrig, rate, uids), ls); var p := s.procs[pid];
            var r := Next(Next(s, OfProc(pid, IdleTake)), OfProc(pid, IdleReturn));
            && pid < |r.procs| && r.procs[pid].state == P.Listening && r.sched.txCh == s.sched.txCh + [x]
            && QueueOf(r, p.group, p.isOrig) == QueueOf(s, p.group, p.isOrig)[1..]
  {
    var s0 := Initial(limit, maxOrig, rate, uids);
    InitialWired(limit, maxOrig, rate, uids);
    assert AllListen(s0.procs);
    hide Wired, May, Next, QueueOf, Initial, Configured;
    RunListens(s0, ls);
    var s := After(s0, ls);
    IdleListed(s, pid);
    IdleTakes(s, pid, x);
    IdleReturns(Next(s, OfProc(pid, IdleTake)), pid, x);
  }
}
