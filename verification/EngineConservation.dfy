/**
 No transaction is lost or duplicated: every accepted transaction is, at every
 moment of every run and as often as it was accepted, in the scheduler, in one
 request group, with one process, or answered, failed or expired.
 */
module EngineConservation {
  import opened Basics
  import opened Keys
  import opened Transactions
  import opened EngineModel
  import opened EngineSafety
  import opened EngineSteps
  import G = GroupModel
  import M = ManagerModel
  import P = ProcessModel

  // ----- one group -----

  function InMsg(m: G.Msg, x: Tx): nat {
    if m == G.TxMsg(x) then 1 else 0
  }

  function InInbox(s: seq<G.Msg>, x: Tx): nat {
    if s == [] then 0 else InMsg(s[0], x) + InInbox(s[1..], x)
  }

  function InGroup(g: G.Group, x: Tx): nat {
    InInbox(g.inbox, x) + Count(g.buf, x) + Count(g.orig.queue, x) + Count(g.cross.queue, x)
  }

  lemma {:induction false} InboxAppend(s: seq<G.Msg>, m: G.Msg, x: Tx)
    ensures InInbox(s + [m], x) == InInbox(s, x) + InMsg(m, x)
  {
    if s == [] {
      assert s + [m] == [m] && [m][1..] == [];
      assert InInbox([m], x) == InMsg(m, x) + InInbox([m][1..], x);
    } else {
      assert (s + [m])[1..] == s[1..] + [m];
      InboxAppend(s[1..], m, x);
    }
  }

  lemma {:induction false} OnlyCount(txs: seq<Tx>, x: Tx)
    ensures Count(G.Only(txs, true), x) + Count(G.Only(txs, false), x) == Count(txs, x)
  {
    if txs != [] {
      OnlyCount(txs[1..], x);
      var b := IsOrig(txs[0]);
      assert G.Only(txs, b) == [txs[0]] + G.Only(txs[1..], b) && G.Only(txs, !b) == G.Only(txs[1..], !b);
      CountAppend([txs[0]], G.Only(txs[1..], b), x);
      CountOne(txs[0], x);
    }
  }

  lemma AskKeeps(g: G.Group, isOrig: bool, c: G.Counts, x: Tx)
    ensures InGroup(G.GetProcesses(g, isOrig, c).g, x) == InGroup(g, x) && G.GetProcesses(g, isOrig, c).errors == []
  {
  }

  lemma EnqueueCounts(g: G.Group, tx: Tx, x: Tx)
    ensures InGroup(G.Enqueue(g, tx), x) == InGroup(g, x) + Count([tx], x)
  {
    CountAppend(G.Ctl(g, IsOrig(tx)).queue, [tx], x);
  }

  lemma TxConserved(g: G.Group, tx: Tx, limit: nat, c: G.Counts, x: Tx)
    ensures var o := G.HandleTx(g, tx, limit, c);
            InGroup(g, x) + Count([tx], x) == InGroup(o.g, x) + Count(o.errors, x)
  {
    CountAppend(g.buf, [tx], x);
    EnqueueCounts(g, tx, x);
    AskKeeps(G.Enqueue(g, tx), IsOrig(tx), c, x);
    hide G.Enqueue, G.GetProcesses;
  }

  lemma LoadErrorConserved(g: G.Group, x: Tx)
    ensures var o := G.HandleLoadError(g); InGroup(g, x) == InGroup(o.g, x) + Count(o.errors, x)
  {
    if g.buf != [] {
      CountOne(g.buf[0], x);
    }
  }

  lemma CodeConserved(g: G.Group, ok: bool, now: int, co: G.Counts, cc: G.Counts, x: Tx)
    ensures var o := G.HandleCode(g, ok, now, co, cc); InGroup(g, x) == InGroup(o.g, x) + Count(o.errors, x)
  {
    var g1 := g.(timer := G.Timer(false, false));
    if !ok {
      LoadErrorConserved(g1, x);
    } else {
      var g2 := g1.(load := G.Ready, version := now, buf := []);
      G.DrainQueues(g2, g.buf);
      CountAppend(g.orig.queue, G.Only(g.buf, true), x);
      CountAppend(g.cross.queue, G.Only(g.buf, false), x);
      OnlyCount(g.buf, x);
      var g3 := G.EnqueueAll(g2, g.buf);
      AskKeeps(g3, true, co, x);
      AskKeeps(G.GetProcesses(g3, true, co).g, false, cc, x);
    }
  }

  /** What an event brings into a group, and what a process takes out of it. */
  function Brought(ev: G.Event, x: Tx): nat {
    if ev == G.PutTx(x) then 1 else 0
  }

  function Removed(g: G.Group, ev: G.Event, x: Tx): nat
    requires G.Enabled(g, ev)
  {
    if ev.Consume? && G.Ctl(g, ev.isOrig).queue[0] == x then 1 else 0
  }

  /** A group passes every transaction on exactly once: to a queue reader, or back as an error. */
  lemma GroupConserves(g: G.Group, ev: G.Event, x: Tx)
    requires G.Enabled(g, ev)
    ensures var o := G.Apply(g, ev);
            InGroup(g, x) + Brought(ev, x) == InGroup(o.g, x) + Count(o.errors, x) + Removed(g, ev, x)
  {
    match ev
    case PutTx(tx) => InboxAppend(g.inbox, G.TxMsg(tx), x);
    case PutCode(ok) => InboxAppend(g.inbox, G.CodeMsg(ok), x);
    case TakeMsg(limit, now, co, cc) =>
      var g1 := g.(inbox := g.inbox[1..]);
      if g.inbox[0].TxMsg? {
        CountOne(g.inbox[0].tx, x);
        TxConserved(g1, g.inbox[0].tx, limit, if IsOrig(g.inbox[0].tx) then co else cc, x);
      } else {
        CodeConserved(g1, g.inbox[0].ok, now, co, cc, x);
      }
    case TakeReady(b, c) => AskKeeps(G.WithCtl(g, b, G.Ctl(g, b).(waiting := false)), b, c, x);
    case TakeTick => LoadErrorConserved(g.(timer := g.timer.(tick := false)), x);
    case _ =>
  }

  // ----- all groups and all processes -----

  function InGroups(groups: seq<G.Group>, x: Tx): nat {
    if groups == [] then 0 else InGroup(groups[0], x) + InGroups(groups[1..], x)
  }

  lemma {:induction false} GroupsUpdate(groups: seq<G.Group>, i: nat, g: G.Group, x: Tx)
    requires i < |groups|
    ensures InGroups(groups[i := g], x) + InGroup(groups[i], x) == InGroups(groups, x) + InGroup(g, x)
  {
    if i == 0 {
      assert groups[0 := g][1..] == groups[1..];
    } else {
      assert groups[i := g][1..] == groups[1..][i - 1 := g];
      GroupsUpdate(groups[1..], i - 1, g, x);
    }
  }

  lemma {:induction false} GroupsAppend(groups: seq<G.Group>, g: G.Group, x: Tx)
    ensures InGroups(groups + [g], x) == InGroups(groups, x) + InGroup(g, x)
  {
    if groups == [] {
      assert groups + [g] == [g];
      assert InGroups([g], x) == InGroup(g, x) + InGroups([g][1..], x);
    } else {
      assert (groups + [g])[1..] == groups[1..] + [g];
      GroupsAppend(groups[1..], g, x);
    }
  }

  function InProcs(procs: seq<P.Proc>, x: Tx): nat {
    if procs == [] then 0 else P.Held(procs[0], x) + InProcs(procs[1..], x)
  }

  lemma {:induction false} ProcsUpdate(procs: seq<P.Proc>, i: nat, p: P.Proc, x: Tx)
    requires i < |procs|
    ensures InProcs(procs[i := p], x) + P.Held(procs[i], x) == InProcs(procs, x) + P.Held(p, x)
  {
    if i == 0 {
      assert procs[0 := p][1..] == procs[1..];
    } else {
      assert procs[i := p][1..] == procs[1..][i - 1 := p];
      ProcsUpdate(procs[1..], i - 1, p, x);
    }
  }

  lemma {:induction false} ProcsAppend(procs: seq<P.Proc>, p: P.Proc, x: Tx)
    ensures InProcs(procs + [p], x) == InProcs(procs, x) + P.Held(p, x)
  {
    if procs == [] {
      assert procs + [p] == [p];
      assert InProcs([p], x) == P.Held(p, x) + InProcs([p][1..], x);
    } else {
      assert (procs + [p])[1..] == procs[1..] + [p];
      ProcsAppend(procs[1..], p, x);
    }
  }

  // ----- the whole engine -----

  /** Copies of a transaction under way. */
  function UnderWay(s: Sys, x: Tx): nat {
    Count(s.sched.txCh, x) + Count(s.sched.errs, x) + InGroups(s.groups, x) + InProcs(s.procs, x)
  }

  function Finished(past: Past, x: Tx): nat {
    Count(past.answered, x) + Count(past.failed, x) + Count(past.expired, x)
  }

  ghost predicate Conserved(s: Sys, x: Tx) {
    Count(s.past.accepted, x) == UnderWay(s, x) + Finished(s.past, x)
  }

  lemma SchedulerConserves(s: Sys, l: Label, x: Tx)
    requires May(s, l) && (l.Arrive? || l.Forward?) && Conserved(s, x)
    ensures Conserved(Next(s, l), x)
  {
    if l.Arrive? {
      CountAppend(s.sched.txCh, [l.tx], x);
      CountAppend(s.past.accepted, [l.tx], x);
    } else {
      CountOne(s.sched.errs[0], x);
      CountAppend(s.past.failed, [s.sched.errs[0]], x);
    }
  }

  lemma DispatchConserves(s: Sys, x: Tx)
    requires May(s, Dispatch) && Conserved(s, x)
    ensures Conserved(DoDispatch(s), x)
  {
    var tx := s.sched.txCh[0];
    var g := GroupFor(s, tx.key);
    GroupsAppend(s.groups, G.NewGroup(tx.key), x);
    var groups := Register(s, tx.key).groups;
    GroupConserves(groups[g], G.PutTx(tx), x);
    GroupsUpdate(groups, g, G.Apply(groups[g], G.PutTx(tx)).g, x);
    hide ContractKey, M.Apply;
  }

  lemma GroupStepConserves(s: Sys, g: nat, act: GroupAct, x: Tx)
    requires MayGroup(s, g, act) && Conserved(s, x)
    ensures Conserved(DoGroup(s, g, act), x)
  {
    var ev := GroupEvent(s, g, act);
    var o := G.Apply(s.groups[g], ev);
    GroupConserves(s.groups[g], ev, x);
    GroupsUpdate(s.groups, g, o.g, x);
    CountAppend(s.sched.errs, o.errors, x);
    hide G.Apply, InGroup, ManagerAfterGroup, CountsFor;
  }

  lemma WithNewConserves(s: Sys, isOrig: bool, group: nat, x: Tx)
    ensures InProcs(WithNew(s, isOrig, group), x) == InProcs(s.procs, x)
  {
    var made := MadeFrom(s.users, |s.procs|);
    if made.Made? {
      ProcsAppend(s.procs, P.NewProc(Mgr(s, isOrig).serial + 1, group, made.user, isOrig), x);
    }
  }

  lemma WithChangeConserves(s: Sys, m: M.Manager, id: nat, group: nat, x: Tx)
    requires id in m.t.idle && Agrees(s.procs, m.t.idle[id].pid)
    ensures InProcs(WithChange(s, m, id, group), x) == InProcs(s.procs, x)
  {
    var pid := m.t.idle[id].pid;
    ProcsUpdate(s.procs, pid, P.Apply(s.procs[pid], P.Change(m.serial + 1, group)).0, x);
  }

  lemma ManagerProcs(s: Sys, isOrig: bool, act: ManagerAct, x: Tx)
    requires MayManager(s, isOrig, act)
    ensures InProcs(ProcsAfter(s, isOrig, act), x) == InProcs(s.procs, x)
  {
    hide InProcs, WithNew, WithChange;
    var m := Mgr(s, isOrig);
    match act
    case Create => WithNewConserves(s, isOrig, m.job.group, x);
    case Launch(i) => WithNewConserves(s, isOrig, m.job.todo[i], x);
    case Reuse(_, ok) => if ok { WithChangeConserves(s, m, Target(m, act), m.job.group, x); }
    case Hand(i, ok) => if ok { WithChangeConserves(s, m, Target(m, act), m.job.pairs[i].group, x); }
    case CloseIdle(_, ok) =>
      if ok {
        var pid := m.t.idle[Target(m, act)].pid;
        ProcsUpdate(s.procs, pid, P.Apply(s.procs[pid], P.Close).0, x);
      }
    case _ =>
  }

  lemma ManagerConserves(s: Sys, isOrig: bool, act: ManagerAct, x: Tx)
    requires MayManager(s, isOrig, act) && Conserved(s, x)
    ensures Conserved(DoManager(s, isOrig, act), x)
  {
    ManagerProcs(s, isOrig, act, x);
    ManagerRuns(s, isOrig, act);
    hide InProcs, InGroups, ProcsAfter, UsersAfter, M.Apply, MayManager, ManagerEvent;
  }

  /** What a process step takes from its group's queue. */
  lemma TakenConserves(s: Sys, p: P.Proc, act: ProcAct, e: P.Effects, x: Tx)
    ensures InGroups(GroupsAfterProc(s, p, act, e), x) + P.Has(Taken(s, p, act), x) == InGroups(s.groups, x)
  {
    if Source(p, act) < |s.groups| {
      var g := s.groups[Source(p, act)];
      var taken := Taken(s, p, act);
      var g1 := if taken.Some? then G.Apply(g, G.Consume(p.isOrig)).g else g;
      assert InGroup(g1, x) + P.Has(taken, x) == InGroup(g, x) by {
        if taken.Some? {
          GroupConserves(g, G.Consume(p.isOrig), x);
        }
      }
      var g2 := GroupsAfterProc(s, p, act, e)[Source(p, act)];
      assert InGroup(g2, x) == InGroup(g1, x);
      GroupsUpdate(s.groups, Source(p, act), g2, x);
    }
  }

  lemma OptCount(t: Option<Tx>, x: Tx)
    ensures Count(Opt(t), x) == P.Has(t, x)
  {
    if t.Some? {
      CountOne(t.value, x);
    }
  }

  lemma ProcPasses(s: Sys, pid: nat, act: ProcAct, x: Tx)
    requires MayProc(s, pid, act) && P.Running(s.procs[pid])
    ensures var p := s.procs[pid]; var (q, e) := P.Apply(p, ProcEvent(s, p, act));
            P.Held(p, x) + P.Has(Taken(s, p, act), x) == P.Held(q, x) + P.Outgoing(e, x)
  {
    var p := s.procs[pid];
    P.StepConserves(p, ProcEvent(s, p, act), x);
    hide P.Apply, P.Held, P.Outgoing;
    assert P.Incoming(ProcEvent(s, p, act)) == Taken(s, p, act);
  }

  lemma AppendOpt(a: seq<Tx>, t: Option<Tx>, x: Tx)
    ensures Count(a + Opt(t), x) == Count(a, x) + P.Has(t, x)
  {
    OptCount(t, x);
    CountAppend(a, Opt(t), x);
  }

  lemma ProcConserves(s: Sys, pid: nat, act: ProcAct, x: Tx)
    requires Wired(s) && MayProc(s, pid, act) && Conserved(s, x)
    ensures Conserved(DoProc(s, pid, act), x)
  {
    hide *;
    RunningHere(s, pid, act);
    ProcConservesStep(s, pid, act, x);
  }

  lemma RunningHere(s: Sys, pid: nat, act: ProcAct)
    requires Wired(s) && MayProc(s, pid, act)
    ensures pid < |s.procs| && P.Running(s.procs[pid])
  {
    hide Side, P.Running, P.Enabled;
  }

  lemma ProcConservesStep(s: Sys, pid: nat, act: ProcAct, x: Tx)
    requires MayProc(s, pid, act) && P.Running(s.procs[pid]) && Conserved(s, x)
    ensures Conserved(DoProc(s, pid, act), x)
  {
    var p := s.procs[pid];
    ProcPasses(s, pid, act, x);
    var (q, e) := P.Apply(p, ProcEvent(s, p, act));
    hide P.Apply, GroupsAfterProc, InGroups, InProcs, P.Held, ManagerAfterProc, MayProc, ProcEvent, P.Running, Taken,
      P.Has, Count, Opt;
    TakenConserves(s, p, act, e, x);
    ProcsUpdate(s.procs, pid, q, x);
    AppendOpt(s.sched.txCh, e.requeued, x);
    AppendOpt(s.sched.errs, e.failed, x);
    AppendOpt(s.past.answered, e.answered, x);
    AppendOpt(s.past.expired, e.expired, x);
  }

  lemma StepConserved(s: Sys, l: Label, x: Tx)
    requires Wired(s) && May(s, l) && Conserved(s, x)
    ensures Conserved(Next(s, l), x)
  {
    match l
    case Arrive(_) => hide Wired, Conserved; SchedulerConserves(s, l, x);
    case Dispatch => hide Wired, Conserved, DoDispatch; DispatchConserves(s, x);
    case Forward => hide Wired, Conserved; SchedulerConserves(s, l, x);
    case OfGroup(g, act) => hide Wired, Conserved, DoGroup; GroupStepConserves(s, g, act, x);
    case OfManager(b, act) => hide Wired, Conserved, DoManager; ManagerConserves(s, b, act, x);
    case OfProc(pid, act) => hide Wired, Conserved, DoProc; ProcConserves(s, pid, act, x);
  }

  lemma {:induction false} RunConserved(s: Sys, ls: seq<Label>, x: Tx)
    requires Wired(s) && Possible(s, ls) && Conserved(s, x)
    ensures Conserved(After(s, ls), x)
    decreases |ls|
  {
    hide Wired, May, Next, Conserved;
    if ls != [] {
      StepWired(s, ls[0]);
      StepConserved(s, ls[0], x);
      RunConserved(Next(s, ls[0]), ls[1..], x);
    }
  }

  /** In every run, as many copies of a transaction are under way or finished as were accepted.  So one that was
      accepted once ends at most once, in one way, and once it has ended no copy is left. */
  lemma NothingLostOrDuplicated(limit: nat, maxOrig: nat, rate: real, uids: seq<nat>, ls: seq<Label>, x: Tx)
    requires Configured(limit, maxOrig, uids) && Possible(Initial(limit, maxOrig, rate, uids), ls)
    ensures var s := After(Initial(limit, maxOrig, rate, uids), ls);
            && Count(s.past.accepted, x) == UnderWay(s, x) + Finished(s.past, x)
            && (Count(s.past.accepted, x) == 1 ==>
                  Finished(s.past, x) <= 1 && (UnderWay(s, x) == 0 <==> Finished(s.past, x) == 1))
  {
    InitialWired(limit, maxOrig, rate, uids);
    RunConserved(Initial(limit, maxOrig, rate, uids), ls, x);
  }
}
