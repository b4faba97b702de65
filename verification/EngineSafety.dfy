/**
 The invariant of the whole engine, kept by every step: both managers' tables
 agree, they are wired to the process objects, and the user pool is conserved.
 Hence taking a user never waits or fails and giving one back always succeeds.
 */
module EngineSafety {
  import opened EngineModel
  import opened EngineWiring
  import M = ManagerModel
  import I = ManagerIndexes
  import P = ProcessModel
  import F = FixedFifo

  /** Process names of a manager come from its counter. */
  ghost predicate Numbered(procs: seq<P.Proc>, isOrig: bool, serial: nat) {
    forall i :: 0 <= i < |procs| && procs[i].isOrig == isOrig ==> procs[i].id <= serial
  }

  /** One manager with its part of the processes. */
  ghost predicate Side(m: M.Manager, procs: seq<P.Proc>, isOrig: bool, groups: nat) {
    && I.Good(m) && I.Counted(m.t) && |m.known| == groups && Numbered(procs, isOrig, m.serial)
    && Linked(m.t, m.inbox, procs, isOrig)
  }

  /** Every process reads a queue of an existing group, and one that runs a transaction knows which. */
  ghost predicate Placed(procs: seq<P.Proc>, groups: nat) {
    forall i :: 0 <= i < |procs| ==> procs[i].group < groups && P.Running(procs[i])
  }

  ghost predicate Wired(s: Sys) {
    && Side(s.orig, s.procs, true, |s.groups|) && Side(s.cross, s.procs, false, |s.groups|)
    && Placed(s.procs, |s.groups|)
    && s.users.parked == [] && s.orig.cfg.max + s.cross.cfg.max == s.users.capacity
    && Pool(s.users.queue, s.orig.t, s.cross.t, s.users.capacity)
  }

  ghost predicate PoolFor(s: Sys, isOrig: bool) {
    Pool(s.users.queue, Mgr(s, isOrig).t, Mgr(s, !isOrig).t, s.users.capacity)
  }

  lemma WiredSides(s: Sys, isOrig: bool)
    requires Wired(s)
    ensures Side(Mgr(s, isOrig), s.procs, isOrig, |s.groups|) && PoolFor(s, isOrig)
  {
    hide Side;
    if !isOrig {
      PoolSwap(s.users.queue, s.orig.t, s.cross.t, s.users.capacity);
    }
  }

  // ----- what the manager's surroundings promise -----

  /** With a free slot in a manager there is a free user. */
  lemma SlotHasUser(s: Sys, isOrig: bool)
    requires Wired(s) && M.Available(Mgr(s, isOrig)) > 0
    ensures F.Take(s.users, 0).1.Got? && MadeFrom(s.users, |s.procs|).Made?
    ensures M.FreshMade(Mgr(s, isOrig).t, MadeFrom(s.users, |s.procs|))
  {
    hide I.Distinct, I.TablesOk;
    WiredSides(s, isOrig);
    var t := Mgr(s, isOrig).t;
    assert I.JobFits(s.orig.job, s.orig.t, M.Available(s.orig)) &&
      I.JobFits(s.cross.job, s.cross.t, M.Available(s.cross));
    assert |s.users.queue| == M.Available(s.orig) + M.Available(s.cross);
    forall n: nat | M.Listed(t, n) ensures M.EntryOf(t, n).pid != |s.procs| &&
      M.EntryOf(t, n).user != s.users.queue[0] {
      assert Matches(t, s.procs, isOrig, n);
    }
  }

  /** A listed process's user can always be given back. */
  lemma UserFits(s: Sys, isOrig: bool, id: nat)
    requires Wired(s) && M.Listed(Mgr(s, isOrig).t, id)
    ensures Frees(s.users, M.EntryOf(Mgr(s, isOrig).t, id).user)
    ensures F.Put(s.users, M.EntryOf(Mgr(s, isOrig).t, id).user).0
            == s.users.(queue := s.users.queue + [M.EntryOf(Mgr(s, isOrig).t, id).user])
  {
    WiredSides(s, isOrig);
    WiredSides(s, !isOrig);
    var t := Mgr(s, isOrig).t;
    assert I.Disjoint(t);
    assert Size(t) >= 1 && Size(Mgr(s, !isOrig).t) >= 0;
  }

  /** An idle process that agrees to change or close has no reported exit. */
  lemma AgreesUnreported(s: Sys, isOrig: bool, id: nat)
    requires Wired(s) && id in Mgr(s, isOrig).t.idle && Agrees(s.procs, Mgr(s, isOrig).t.idle[id].pid)
    ensures !M.Reported(Mgr(s, isOrig).inbox, id)
  {
    hide I.Good;
    WiredSides(s, isOrig);
    var m := Mgr(s, isOrig);
    assert Matches(m.t, s.procs, isOrig, id) && Reports(m.t, m.inbox, s.procs, id);
  }

  lemma MakingEnabled(s: Sys, isOrig: bool, act: ManagerAct)
    requires Wired(s) && MayManager(s, isOrig, act) && (act.Create? || act.Launch?)
    ensures M.Enabled(Mgr(s, isOrig), ManagerEvent(s, isOrig, act)) && MadeFrom(s.users, |s.procs|).Made?
  {
    hide M.FreshMade, F.Take, I.TablesOk, I.DeskOk, I.ExitsLive, Linked, Pool, M.Reported;
    WiredSides(s, isOrig);
    SlotHasUser(s, isOrig);
  }

  lemma ChangingEnabled(s: Sys, isOrig: bool, act: ManagerAct)
    requires Wired(s) && MayManager(s, isOrig, act) && (act.Reuse? || act.Hand?)
    ensures M.Enabled(Mgr(s, isOrig), ManagerEvent(s, isOrig, act))
  {
    hide Wired, M.Reported;
    if act.ok {
      AgreesUnreported(s, isOrig, Target(Mgr(s, isOrig), act));
    }
  }

  lemma LeavingEnabled(s: Sys, isOrig: bool, act: ManagerAct)
    requires Wired(s) && MayManager(s, isOrig, act) && ((act.CloseIdle? && act.ok) || act.HandleExit?)
    ensures M.Enabled(Mgr(s, isOrig), ManagerEvent(s, isOrig, act)) && ManagerEvent(s, isOrig, act).freed
  {
    hide Wired, M.Reported, F.Put;
    var id := Target(Mgr(s, isOrig), act);
    UserFits(s, isOrig, id);
    if act.CloseIdle? {
      AgreesUnreported(s, isOrig, id);
    }
  }

  /** Everything the manager model takes from its surroundings holds in the engine. */
  lemma ManagerEnabled(s: Sys, isOrig: bool, act: ManagerAct)
    requires Wired(s) && MayManager(s, isOrig, act)
    ensures M.Enabled(Mgr(s, isOrig), ManagerEvent(s, isOrig, act))
    ensures M.Runnable(Mgr(s, isOrig), ManagerEvent(s, isOrig, act))
  {
    ManagerRuns(s, isOrig, act);
    if act.Create? || act.Launch? {
      MakingEnabled(s, isOrig, act);
    } else if act.Reuse? || act.Hand? {
      ChangingEnabled(s, isOrig, act);
    } else if act.HandleExit? || (act.CloseIdle? && act.ok) {
      LeavingEnabled(s, isOrig, act);
    }
  }

  // ----- manager steps -----

  /** Both managers' tables match the process objects, and the pool is whole. */
  ghost predicate Joined(t: M.Tables, inbox: seq<M.Request>, x: M.Manager, procs: seq<P.Proc>, users: F.Fifo<nat>,
                         isOrig: bool) {
    && Linked(t, inbox, procs, isOrig) && Linked(x.t, x.inbox, procs, !isOrig)
    && Pool(users.queue, t, x.t, users.capacity)
  }

  /** The parts of the engine that a step of manager `isOrig` changes. */
  ghost predicate Becomes(s: Sys, s': Sys, isOrig: bool, t: M.Tables, inbox: seq<M.Request>, procs: seq<P.Proc>,
                          queue: seq<nat>) {
    && Mgr(s', isOrig).t == t && Mgr(s', isOrig).inbox == inbox && Mgr(s', !isOrig) == Mgr(s, !isOrig)
    && s'.procs == procs && s'.users == s.users.(queue := queue)
  }

  lemma FreshName(m: M.Manager)
    requires I.Good(m)
    ensures !M.Listed(m.t, m.serial + 1) && !M.Reported(m.inbox, m.serial + 1)
  {
    assert I.Named(m.t, m.serial, |m.known|) && I.ExitsLive(m.t, m.inbox);
  }

  function MakingGroup(m: M.Manager, act: ManagerAct): nat
    requires act.Create? ==> m.job.Creating?
    requires act.Launch? ==> m.job.Launching? && act.i < |m.job.todo|
  {
    match act
    case Create => m.job.group
    case Launch(i) => m.job.todo[i]
    case _ => 0
  }

  lemma MakingShape(s: Sys, isOrig: bool, act: ManagerAct)
    requires MayManager(s, isOrig, act) && (act.Create? || act.Launch?) && s.users.queue != []
    ensures var m := Mgr(s, isOrig); var u := s.users.queue[0]; var g := MakingGroup(m, act);
            Becomes(s, DoManager(s, isOrig, act), isOrig,
                    M.Insert(m.t, m.serial + 1, M.Entry(|s.procs|, g, u)), m.inbox,
                    s.procs + [P.NewProc(m.serial + 1, g, u, isOrig)], s.users.queue[1..])
  {
    hide M.Insert, M.Wake, M.Send, P.NewProc;
  }

  lemma MakingJoins(m: M.Manager, x: M.Manager, procs: seq<P.Proc>, users: F.Fifo<nat>, isOrig: bool, group: nat,
      n: nat)
    requires Side(m, procs, isOrig, n) && Side(x, procs, !isOrig, n)
    requires Pool(users.queue, m.t, x.t, users.capacity) && users.queue != []
    ensures Joined(M.Insert(m.t, m.serial + 1, M.Entry(|procs|, group, users.queue[0])), m.inbox, x,
                   procs + [P.NewProc(m.serial + 1, group, users.queue[0], isOrig)],
                     users.(queue := users.queue[1..]), isOrig)
  {
    FreshName(m);
    var e := M.Entry(|procs|, group, users.queue[0]);
    assert NewName(procs, isOrig, m.serial + 1);
    hide I.Good, M.Insert, M.Reported, Linked, Pool, M.Listed;
    LinkInsert(m.t, m.inbox, procs, isOrig, m.serial + 1, e);
    LinkOther(x.t, x.inbox, procs, !isOrig, |procs|, P.NewProc(m.serial + 1, group, e.user, isOrig));
    PoolInsert(users.queue, m.t, x.t, users.capacity, m.serial + 1, e);
  }

  function ChangingGroup(m: M.Manager, act: ManagerAct): nat
    requires act.Reuse? ==> m.job.Reusing?
    requires act.Hand? ==> m.job.Pairing? && act.i < |m.job.pairs|
  {
    match act
    case Reuse(_, _) => m.job.group
    case Hand(i, _) => m.job.pairs[i].group
    case _ => 0
  }

  /** The process moves to the other contract. */
  ghost predicate Moves(s: Sys, isOrig: bool, act: ManagerAct)
    requires MayManager(s, isOrig, act) && (act.Reuse? || act.Hand?)
  {
    var m := Mgr(s, isOrig);
    act.ok && !M.SameContract(m, ChangingGroup(m, act), m.t.idle[Target(m, act)].group)
  }

  lemma ChangingShape(s: Sys, isOrig: bool, act: ManagerAct)
    requires MayManager(s, isOrig, act) && (act.Reuse? || act.Hand?)
    ensures var m := Mgr(s, isOrig); var id := Target(m, act); var pid := m.t.idle[id].pid;
      var g := ChangingGroup(m, act);
            if Moves(s, isOrig, act) then
              Becomes(s, DoManager(s, isOrig, act), isOrig, M.Transfer(m.t, id, g, m.serial + 1), m.inbox,
                      s.procs[pid := Changed(s.procs[pid], m.serial + 1, g)], s.users.queue)
            else Becomes(s, DoManager(s, isOrig, act), isOrig, m.t, m.inbox, s.procs, s.users.queue)
  {
    hide M.Transfer, M.Wake, M.Send, M.AfterDelete, M.SameContract;
  }

  lemma ChangingJoins(m: M.Manager, x: M.Manager, procs: seq<P.Proc>, users: F.Fifo<nat>, isOrig: bool,
                      id: nat, group: nat, n: nat)
    requires Side(m, procs, isOrig, n) && Side(x, procs, !isOrig, n) && Pool(users.queue, m.t, x.t, users.capacity)
    requires id in m.t.idle && Agrees(procs, m.t.idle[id].pid)
    ensures var pid := m.t.idle[id].pid;
            pid < |procs| && Joined(M.Transfer(m.t, id, group, m.serial + 1), m.inbox, x,
                   procs[pid := Changed(procs[pid], m.serial + 1, group)], users, isOrig)
  {
    FreshName(m);
    var pid := m.t.idle[id].pid;
    assert I.Unique(m.t) && I.Disjoint(m.t);
    assert Matches(m.t, procs, isOrig, id);
    var q := Changed(procs[pid], m.serial + 1, group);
    assert q.isOrig == isOrig && NewName(procs, isOrig, m.serial + 1);
    hide *;
    LinkTransfer(m.t, m.inbox, procs, isOrig, id, group, m.serial + 1);
    LinkOther(x.t, x.inbox, procs, !isOrig, pid, q);
    PoolTransfer(users.queue, m.t, x.t, users.capacity, id, group, m.serial + 1);
  }

  lemma ClosingShape(s: Sys, isOrig: bool, act: ManagerAct)
    requires Wired(s) && MayManager(s, isOrig, act) && act.CloseIdle?
    ensures var m := Mgr(s, isOrig); var id := Target(m, act); var e := m.t.idle[id];
            if act.ok then
              Becomes(s, DoManager(s, isOrig, act), isOrig, M.Delete(m.t, e.group, id), m.inbox,
                      s.procs[e.pid := Closed(s.procs[e.pid])], s.users.queue + [e.user])
            else Becomes(s, DoManager(s, isOrig, act), isOrig, m.t, m.inbox, s.procs, s.users.queue)
  {
    hide Wired, M.Delete, M.AfterDelete, F.Put;
    if act.ok {
      UserFits(s, isOrig, Target(Mgr(s, isOrig), act));
    }
  }

  lemma ExitShape(s: Sys, isOrig: bool)
    requires Wired(s) && MayManager(s, isOrig, HandleExit)
    ensures var m := Mgr(s, isOrig); var id := m.inbox[0].id; var e := M.EntryOf(m.t, id);
            Becomes(s, DoManager(s, isOrig, HandleExit), isOrig, M.Delete(m.t, e.group, id), m.inbox[1..], s.procs,
                    s.users.queue + [e.user])
  {
    hide Wired, M.Delete, M.AfterDelete, F.Put;
    UserFits(s, isOrig, Mgr(s, isOrig).inbox[0].id);
    ExitGroup(s, isOrig);
  }

  lemma ExitGroup(s: Sys, isOrig: bool)
    requires Wired(s) && MayManager(s, isOrig, HandleExit)
    ensures var m := Mgr(s, isOrig); M.EntryOf(m.t, m.inbox[0].id).group == m.inbox[0].group
  {
    WiredSides(s, isOrig);
    var m := Mgr(s, isOrig);
    assert I.ExitsLive(m.t, m.inbox);
  }

  lemma ClosingJoins(m: M.Manager, x: M.Manager, procs: seq<P.Proc>, users: F.Fifo<nat>, isOrig: bool, id: nat, n: nat)
    requires Side(m, procs, isOrig, n) && Side(x, procs, !isOrig, n) && Pool(users.queue, m.t, x.t, users.capacity)
    requires id in m.t.idle && Agrees(procs, m.t.idle[id].pid)
    ensures var e := m.t.idle[id];
            e.pid < |procs| && Joined(M.Delete(m.t, e.group, id), m.inbox, x, procs[e.pid := Closed(procs[e.pid])],
                   users.(queue := users.queue + [e.user]), isOrig)
  {
    var e := m.t.idle[id];
    assert I.Unique(m.t) && I.Disjoint(m.t);
    assert Matches(m.t, procs, isOrig, id);
    var q := Closed(procs[e.pid]);
    assert q.isOrig == isOrig && q.id == id && q.state == P.Closing;
    hide *;
    LinkDelete(m.t, m.inbox, procs, isOrig, id, q);
    LinkOther(x.t, x.inbox, procs, !isOrig, e.pid, q);
    PoolDelete(users.queue, m.t, x.t, users.capacity, id);
  }

  lemma ReportedPopped(inbox: seq<M.Request>, n: nat)
    requires inbox != [] && !(inbox[0].SandboxExit? && inbox[0].id == n)
    ensures M.Reported(inbox[1..], n) <==> M.Reported(inbox, n)
  {
    if M.Reported(inbox, n) {
      var i :| 0 <= i < |inbox| && inbox[i].SandboxExit? && inbox[i].id == n;
      assert inbox[1..][i - 1] == inbox[i];
    }
  }

  lemma ExitJoins(m: M.Manager, x: M.Manager, procs: seq<P.Proc>, users: F.Fifo<nat>, isOrig: bool, n: nat)
    requires Side(m, procs, isOrig, n) && Side(x, procs, !isOrig, n) && Pool(users.queue, m.t, x.t, users.capacity)
    requires m.inbox != [] && m.inbox[0].SandboxExit? && M.Listed(m.t, m.inbox[0].id)
    ensures var id := m.inbox[0].id; var e := M.EntryOf(m.t, id);
            Joined(M.Delete(m.t, e.group, id), m.inbox[1..], x, procs, users.(queue := users.queue + [e.user]), isOrig)
  {
    var id := m.inbox[0].id;
    var e := M.EntryOf(m.t, id);
    assert I.Unique(m.t) && I.Disjoint(m.t);
    assert Matches(m.t, procs, isOrig, id) && Reports(m.t, m.inbox, procs, id);
    assert M.Reported(m.inbox, id);
    hide I.Good, I.Unique, Linked, Pool, M.Reported;
    LinkDelete(m.t, m.inbox, procs, isOrig, id, procs[e.pid]);
    assert procs[e.pid := procs[e.pid]] == procs;
    PoolDelete(users.queue, m.t, x.t, users.capacity, id);
    var t := M.Delete(m.t, e.group, id);
    forall k: nat | M.Listed(t, k) ensures M.Reported(m.inbox[1..], k) <==> M.Reported(m.inbox, k) {
      ReportedPopped(m.inbox, k);
    }
    LinkInbox(t, m.inbox, m.inbox[1..], procs, isOrig);
  }

  lemma InnerShape(s: Sys, isOrig: bool, act: ManagerAct)
    requires MayManager(s, isOrig, act) && act.Inner?
    ensures var m := Mgr(s, isOrig);
            Becomes(s, DoManager(s, isOrig, act), isOrig, m.t,
                    if act.ev.BeginRequest? then m.inbox[1..] else m.inbox, s.procs, s.users.queue)
  {
    hide M.Wake, M.Send;
  }

  lemma PopJoins(m: M.Manager, x: M.Manager, procs: seq<P.Proc>, users: F.Fifo<nat>, isOrig: bool)
    requires Joined(m.t, m.inbox, x, procs, users, isOrig) && m.inbox != [] && m.inbox[0].GetProcess?
    ensures Joined(m.t, m.inbox[1..], x, procs, users, isOrig)
  {
    hide Linked, Pool;
    forall k: nat | M.Listed(m.t, k) ensures M.Reported(m.inbox[1..], k) <==> M.Reported(m.inbox, k) {
      ReportedPopped(m.inbox, k);
    }
    LinkInbox(m.t, m.inbox, m.inbox[1..], procs, isOrig);
  }

  ghost predicate SysJoined(s: Sys, isOrig: bool) {
    Joined(Mgr(s, isOrig).t, Mgr(s, isOrig).inbox, Mgr(s, !isOrig), s.procs, s.users, isOrig)
  }

  lemma WiredJoined(s: Sys, isOrig: bool)
    requires Wired(s)
    ensures SysJoined(s, isOrig)
  {
    WiredSides(s, isOrig);
    WiredSides(s, !isOrig);
    hide Linked, Pool, I.Good;
  }

  lemma MakingKeeps(s: Sys, isOrig: bool, act: ManagerAct)
    requires Wired(s) && MayManager(s, isOrig, act) && (act.Create? || act.Launch?)
    ensures SysJoined(DoManager(s, isOrig, act), isOrig)
  {
    hide Wired, Side, Pool, Joined, DoManager, M.Insert;
    WiredSides(s, isOrig);
    WiredSides(s, !isOrig);
    MakingEnabled(s, isOrig, act);
    MakingShape(s, isOrig, act);
    MakingJoins(Mgr(s, isOrig), Mgr(s, !isOrig), s.procs, s.users, isOrig, MakingGroup(Mgr(s, isOrig), act),
      |s.groups|);
  }

  lemma ChangingKeeps(s: Sys, isOrig: bool, act: ManagerAct)
    requires Wired(s) && MayManager(s, isOrig, act) && (act.Reuse? || act.Hand?)
    ensures SysJoined(DoManager(s, isOrig, act), isOrig)
  {
    hide Wired, Side, Pool, Joined, DoManager, M.Transfer, M.SameContract, Changed;
    WiredSides(s, isOrig);
    WiredSides(s, !isOrig);
    WiredJoined(s, isOrig);
    var m := Mgr(s, isOrig);
    ChangingShape(s, isOrig, act);
    if Moves(s, isOrig, act) {
      ChangingJoins(m, Mgr(s, !isOrig), s.procs, s.users, isOrig, Target(m, act), ChangingGroup(m, act), |s.groups|);
    }
  }

  lemma LeavingKeeps(s: Sys, isOrig: bool, act: ManagerAct)
    requires Wired(s) && MayManager(s, isOrig, act) && (act.CloseIdle? || act.HandleExit?)
    ensures SysJoined(DoManager(s, isOrig, act), isOrig)
  {
    hide Wired, Side, Pool, Joined, DoManager, M.Delete, Closed;
    WiredSides(s, isOrig);
    WiredSides(s, !isOrig);
    WiredJoined(s, isOrig);
    var m := Mgr(s, isOrig);
    if act.HandleExit? {
      ExitShape(s, isOrig);
      ExitJoins(m, Mgr(s, !isOrig), s.procs, s.users, isOrig, |s.groups|);
    } else {
      ClosingShape(s, isOrig, act);
      if act.ok {
        ClosingJoins(m, Mgr(s, !isOrig), s.procs, s.users, isOrig, Target(m, act), |s.groups|);
      }
    }
  }

  lemma InnerKeeps(s: Sys, isOrig: bool, act: ManagerAct)
    requires Wired(s) && MayManager(s, isOrig, act) && act.Inner?
    ensures SysJoined(DoManager(s, isOrig, act), isOrig)
  {
    hide Wired, Side, Pool, Joined, DoManager;
    WiredJoined(s, isOrig);
    InnerShape(s, isOrig, act);
    if act.ev.BeginRequest? {
      PopJoins(Mgr(s, isOrig), Mgr(s, !isOrig), s.procs, s.users, isOrig);
    }
  }

  lemma ManagerJoins(s: Sys, isOrig: bool, act: ManagerAct)
    requires Wired(s) && MayManager(s, isOrig, act)
    ensures SysJoined(DoManager(s, isOrig, act), isOrig)
  {
    hide *;
    if act.Create? || act.Launch? {
      MakingKeeps(s, isOrig, act);
    } else if act.Reuse? || act.Hand? {
      ChangingKeeps(s, isOrig, act);
    } else if act.CloseIdle? || act.HandleExit? {
      LeavingKeeps(s, isOrig, act);
    } else {
      InnerKeeps(s, isOrig, act);
    }
  }
}
