/** Every step of the engine keeps its invariant, so every run does. */
module EngineSteps {
  import opened Basics
  import opened Keys
  import opened Transactions
  import opened EngineModel
  import opened EngineWiring
  import opened EngineSafety
  import G = GroupModel
  import M = ManagerModel
  import I = ManagerIndexes
  import P = ProcessModel
  import F = FixedFifo

  // ----- manager steps -----

  /** Handlers leave the registered groups and the configuration alone, and the name counter never goes back. */
  lemma HandlerKeeps(m: M.Manager, ev: M.Event)
    requires M.Runnable(m, ev) && !ev.Learn?
    ensures M.Apply(m, ev).known == m.known && M.Apply(m, ev).cfg == m.cfg && M.Apply(m, ev).serial >= m.serial
  {
    hide M.Insert, M.Delete, M.Wake, M.Send, M.AfterDelete, M.SameContract, M.Transfer;
  }

  lemma UsersKept(s: Sys, isOrig: bool, act: ManagerAct)
    requires Wired(s) && MayManager(s, isOrig, act)
    ensures UsersAfter(s, isOrig, act).parked == [] && UsersAfter(s, isOrig, act).capacity == s.users.capacity
  {
    if act.Create? || act.Launch? {
      MakingEnabled(s, isOrig, act);
    }
    hide Side, Pool;
  }

  /** Every process is placed, and named below both managers' counters. */
  ghost predicate Populated(procs: seq<P.Proc>, groups: nat, isOrig: bool, serial: nat, other: nat) {
    Placed(procs, groups) && Numbered(procs, isOrig, serial) && Numbered(procs, !isOrig, other)
  }

  lemma PopulatedMore(procs: seq<P.Proc>, groups: nat, isOrig: bool, serial: nat, other: nat, id: nat, group: nat,
      user: nat)
    requires Populated(procs, groups, isOrig, serial, other) && group < groups && serial <= id
    ensures Populated(procs + [P.NewProc(id, group, user, isOrig)], groups, isOrig, id, other)
  {
  }

  lemma PopulatedChange(procs: seq<P.Proc>, groups: nat, isOrig: bool, serial: nat, other: nat, pid: nat, q: P.Proc)
    requires Populated(procs, groups, isOrig, serial, other) && pid < |procs| && q.group < groups && P.Running(q)
    requires q.isOrig == isOrig && q.id <= serial
    ensures Populated(procs[pid := q], groups, isOrig, serial, other)
  {
  }

  lemma PopulatedLater(procs: seq<P.Proc>, groups: nat, isOrig: bool, serial: nat, other: nat, later: nat)
    requires Populated(procs, groups, isOrig, serial, other) && serial <= later
    ensures Populated(procs, groups, isOrig, later, other)
  {
  }

  lemma WiredPopulated(s: Sys, isOrig: bool)
    requires Wired(s)
    ensures Populated(s.procs, |s.groups|, isOrig, Mgr(s, isOrig).serial, Mgr(s, !isOrig).serial)
  {
  }

  /** A step that makes or renames a process uses up one name. */
  lemma SerialStep(s: Sys, isOrig: bool, act: ManagerAct)
    requires MayManager(s, isOrig, act) && M.Runnable(Mgr(s, isOrig), ManagerEvent(s, isOrig, act))
    requires act.Create? || act.Launch? || ((act.Reuse? || act.Hand?) && Moves(s, isOrig, act))
    ensures M.Apply(Mgr(s, isOrig), ManagerEvent(s, isOrig, act)).serial == Mgr(s, isOrig).serial + 1
  {
    hide M.Wake, M.Send, M.Insert, M.AfterDelete, M.Transfer, M.SameContract, MadeFrom;
  }

  lemma JobGroups(s: Sys, isOrig: bool, act: ManagerAct)
    requires Wired(s) && MayManager(s, isOrig, act)
    ensures act.Create? || act.Launch? ==> MakingGroup(Mgr(s, isOrig), act) < |s.groups|
    ensures act.Reuse? || act.Hand? ==> ChangingGroup(Mgr(s, isOrig), act) < |s.groups|
  {
    WiredSides(s, isOrig);
    assert I.JobKnown(Mgr(s, isOrig).job, |s.groups|);
    hide Wired, Side, PoolFor;
  }

  lemma MakingPopulates(s: Sys, isOrig: bool, act: ManagerAct)
    requires Wired(s) && MayManager(s, isOrig, act) && (act.Create? || act.Launch?)
    ensures Populated(ProcsAfter(s, isOrig, act), |s.groups|, isOrig, Mgr(s, isOrig).serial + 1, Mgr(s, !isOrig).serial)
  {
    var m := Mgr(s, isOrig);
    WiredPopulated(s, isOrig);
    MakingEnabled(s, isOrig, act);
    JobGroups(s, isOrig, act);
    hide Wired, Populated, P.NewProc;
    PopulatedMore(s.procs, |s.groups|, isOrig, m.serial, Mgr(s, !isOrig).serial, m.serial + 1, MakingGroup(m, act),
      s.users.queue[0]);
  }

  lemma ChangingPopulates(s: Sys, isOrig: bool, act: ManagerAct)
    requires Wired(s) && MayManager(s, isOrig, act) && (act.Reuse? || act.Hand?) && Moves(s, isOrig, act)
    ensures Populated(ProcsAfter(s, isOrig, act), |s.groups|, isOrig, Mgr(s, isOrig).serial + 1, Mgr(s, !isOrig).serial)
  {
    hide Wired, Populated, M.SameContract, Placed, Numbered;
    var m := Mgr(s, isOrig);
    var id := Target(m, act);
    var pid := m.t.idle[id].pid;
    WiredPopulated(s, isOrig);
    JobGroups(s, isOrig, act);
    TargetIsOurs(s, isOrig, id);
    PopulatedLater(s.procs, |s.groups|, isOrig, m.serial, Mgr(s, !isOrig).serial, m.serial + 1);
    PopulatedChange(s.procs, |s.groups|, isOrig, m.serial + 1, Mgr(s, !isOrig).serial, pid,
                    Changed(s.procs[pid], m.serial + 1, ChangingGroup(m, act)));
  }

  lemma TargetIsOurs(s: Sys, isOrig: bool, id: nat)
    requires Wired(s) && id in Mgr(s, isOrig).t.idle
    ensures var pid := Mgr(s, isOrig).t.idle[id].pid;
            pid < |s.procs| && s.procs[pid].isOrig == isOrig && s.procs[pid].id == id && id <= Mgr(s, isOrig).serial
            && s.procs[pid].group < |s.groups|
  {
    WiredSides(s, isOrig);
    assert Matches(Mgr(s, isOrig).t, s.procs, isOrig, id);
  }

  lemma ClosingPopulates(s: Sys, isOrig: bool, act: ManagerAct)
    requires Wired(s) && MayManager(s, isOrig, act) && act.CloseIdle? && act.ok
    ensures Populated(ProcsAfter(s, isOrig, act), |s.groups|, isOrig, Mgr(s, isOrig).serial, Mgr(s, !isOrig).serial)
  {
    var m := Mgr(s, isOrig);
    var id := Target(m, act);
    var pid := m.t.idle[id].pid;
    hide Wired, Populated;
    WiredPopulated(s, isOrig);
    TargetIsOurs(s, isOrig, id);
    PopulatedChange(s.procs, |s.groups|, isOrig, m.serial, Mgr(s, !isOrig).serial, pid, Closed(s.procs[pid]));
  }

  lemma ManagerPopulates(s: Sys, isOrig: bool, act: ManagerAct)
    requires Wired(s) && MayManager(s, isOrig, act)
    ensures M.Runnable(Mgr(s, isOrig), ManagerEvent(s, isOrig, act))
    ensures Populated(ProcsAfter(s, isOrig, act), |s.groups|, isOrig,
                      M.Apply(Mgr(s, isOrig), ManagerEvent(s, isOrig, act)).serial, Mgr(s, !isOrig).serial)
  {
    hide Wired, Populated, M.Apply, M.SameContract;
    ManagerRuns(s, isOrig, act);
    if act.Create? || act.Launch? {
      MakingPopulates(s, isOrig, act);
      SerialStep(s, isOrig, act);
    } else if (act.Reuse? || act.Hand?) && Moves(s, isOrig, act) {
      ChangingPopulates(s, isOrig, act);
      SerialStep(s, isOrig, act);
    } else {
      var ev := ManagerEvent(s, isOrig, act);
      HandlerKeeps(Mgr(s, isOrig), ev);
      WiredPopulated(s, isOrig);
      if act.CloseIdle? && act.ok {
        ClosingPopulates(s, isOrig, act);
      }
      PopulatedLater(ProcsAfter(s, isOrig, act), |s.groups|, isOrig, Mgr(s, isOrig).serial, Mgr(s, !isOrig).serial,
                     M.Apply(Mgr(s, isOrig), ev).serial);
    }
  }

  /** The pieces of the invariant, for the manager that moved and the other one. */
  lemma Assemble(s: Sys, isOrig: bool)
    requires I.Good(Mgr(s, isOrig)) && I.Counted(Mgr(s, isOrig).t) && |Mgr(s, isOrig).known| == |s.groups|
    requires I.Good(Mgr(s, !isOrig)) && I.Counted(Mgr(s, !isOrig).t) && |Mgr(s, !isOrig).known| == |s.groups|
    requires Populated(s.procs, |s.groups|, isOrig, Mgr(s, isOrig).serial, Mgr(s, !isOrig).serial)
    requires SysJoined(s, isOrig) && s.users.parked == [] && s.orig.cfg.max + s.cross.cfg.max == s.users.capacity
    ensures Wired(s)
  {
    hide I.Good, Linked, Pool, Placed, Numbered;
    if !isOrig {
      PoolSwap(s.users.queue, s.cross.t, s.orig.t, s.users.capacity);
    }
  }

  lemma ManagerStep(s: Sys, isOrig: bool, act: ManagerAct)
    requires Wired(s) && MayManager(s, isOrig, act)
    ensures Wired(DoManager(s, isOrig, act))
  {
    var m, x := Mgr(s, isOrig), Mgr(s, !isOrig);
    WiredSides(s, isOrig);
    WiredSides(s, !isOrig);
    ManagerEnabled(s, isOrig, act);
    var ev := ManagerEvent(s, isOrig, act);
    assert !ev.Learn?;
    I.StepGood(m, ev);
    I.CountedStep(m, ev);
    HandlerKeeps(m, ev);
    ManagerPopulates(s, isOrig, act);
    UsersKept(s, isOrig, act);
    ManagerJoins(s, isOrig, act);
    hide I.Good, Linked, Pool, Populated, Joined, M.Apply, ProcsAfter, UsersAfter, ManagerEvent, I.Counted,
      MayManager, Placed, Numbered;
    Assemble(DoManager(s, isOrig, act), isOrig);
  }

  // ----- process steps -----

  lemma ExitStays(p: P.Proc, cause: P.Cause, next: Option<Tx>)
    requires P.Enabled(p, P.Exit(cause, next)) && P.Running(p)
    ensures var (q, e) := P.DoExit(p, cause, next);
            && q.id == p.id && q.group == p.group && q.user == p.user && q.isOrig == p.isOrig && P.Running(q)
            && (q.state == P.Closing <==> p.state == P.Closing) && (q.state == P.Idle <==> p.state == P.Idle)
            && (e.exit ==> q.done && p.state != P.Closing) && (!e.exit && p.state != P.Closing ==> q.done == p.done)
  {
    hide P.Start, P.Pop;
  }

  /** Only the manager renames and closes a process; only a ready timeout and a returned transaction move it between
      idle and not idle; a listener returns with a report, or because it was closed. */
  lemma StaysPut(p: P.Proc, ev: P.Event)
    requires P.Enabled(p, ev) && !ev.Change? && !ev.Close? && P.Running(p)
    ensures var (q, e) := P.Apply(p, ev);
            && q.id == p.id && q.group == p.group && q.user == p.user && q.isOrig == p.isOrig && P.Running(q)
            && (q.state == P.Closing <==> p.state == P.Closing)
            && (!ev.Tick? && !ev.IdleReturn? ==> (q.state == P.Idle <==> p.state == P.Idle))
            && (e.exit ==> ev.Exit? && q.done && !p.done && p.state != P.Closing)
            && (!e.exit && p.state != P.Closing ==> q.done == p.done)
  {
    hide P.Start, P.Pop, P.DoExit;
    if ev.Exit? {
      ExitStays(P.Due(p).(idleOn := None), ev.cause, ev.next);
    }
  }

  /** The parts of the engine that a process step changes. */
  lemma ProcShape(s: Sys, pid: nat, act: ProcAct)
    requires MayProc(s, pid, act)
    ensures var p := s.procs[pid]; var (q, e) := P.Apply(p, ProcEvent(s, p, act)); var r := DoProc(s, pid, act);
            && r.procs == s.procs[pid := q] && r.groups == GroupsAfterProc(s, p, act, e) && r.users == s.users
            && r.sched.index == s.sched.index
            && Mgr(r, p.isOrig) == ManagerAfterProc(Mgr(s, p.isOrig), p, act, e) &&
                Mgr(r, !p.isOrig) == Mgr(s, !p.isOrig)
  {
    hide P.Apply, GroupsAfterProc, ManagerAfterProc;
  }

  /** What a process step finds: the process is one of its manager's. */
  lemma ProcIsOurs(s: Sys, pid: nat)
    requires Wired(s) && pid < |s.procs|
    ensures var p := s.procs[pid]; var m := Mgr(s, p.isOrig);
            && I.Good(m) && P.Running(p) && p.group < |s.groups| && p.id <= m.serial
            && Alive(m.t, s.procs, p.isOrig, pid) && Matches(m.t, s.procs, p.isOrig, p.id)
            && Reports(m.t, m.inbox, s.procs, p.id) && I.Unique(m.t) && I.Disjoint(m.t)
  {
    WiredSides(s, s.procs[pid].isOrig);
    WiredPopulated(s, s.procs[pid].isOrig);
  }

  lemma ExitReported(s: Sys, pid: nat, act: ProcAct)
    requires Wired(s) && MayProc(s, pid, act) && P.Apply(s.procs[pid], ProcEvent(s, s.procs[pid], act)).1.exit
    ensures var p := s.procs[pid]; M.Enabled(Mgr(s, p.isOrig), M.ReportExit(p.group, p.id))
  {
    ProcIsOurs(s, pid);
    StaysPut(s.procs[pid], ProcEvent(s, s.procs[pid], act));
    hide P.Apply, Wired, I.Good, I.Unique, I.Disjoint;
  }

  /** The manager after the step: its invariant, its tables against the changed process object, its users. */
  ghost predicate Handled(m: M.Manager, m': M.Manager, procs: seq<P.Proc>, isOrig: bool) {
    && I.Good(m') && I.Counted(m'.t) && m'.known == m.known && m'.cfg == m.cfg && m'.serial == m.serial
    && Linked(m'.t, m'.inbox, procs, isOrig)
    && Size(m'.t) == Size(m.t)
    && forall n: nat :: M.Listed(m'.t, n) == M.Listed(m.t, n) &&
        (M.Listed(m.t, n) ==> M.EntryOf(m'.t, n) == M.EntryOf(m.t, n))
  }

  lemma ReportHandled(s: Sys, pid: nat, q: P.Proc)
    requires Wired(s) && pid < |s.procs| && !s.procs[pid].done && s.procs[pid].state != P.Closing
    requires var p := s.procs[pid]; M.Enabled(Mgr(s, p.isOrig), M.ReportExit(p.group, p.id))
    requires var p := s.procs[pid];
             && q.done && q.state != P.Closing && (q.state == P.Idle <==> p.state == P.Idle)
             && q.id == p.id && q.group == p.group && q.user == p.user && q.isOrig == p.isOrig
    ensures var p := s.procs[pid]; var m := Mgr(s, p.isOrig);
            Handled(m, M.Apply(m, M.ReportExit(p.group, p.id)), s.procs[pid := q], p.isOrig)
  {
    var p := s.procs[pid];
    var m := Mgr(s, p.isOrig);
    WiredSides(s, p.isOrig);
    I.StepGood(m, M.ReportExit(p.group, p.id));
    hide I.Good, Linked;
    assert I.Unique(m.t) by { ProcIsOurs(s, pid); }
    LinkExit(m.t, m.inbox, s.procs, p.isOrig, pid, q);
  }

  lemma MarkHandled(s: Sys, pid: nat, q: P.Proc, ev: M.Event)
    requires Wired(s) && pid < |s.procs|
    requires var p := s.procs[pid];
             M.Enabled(Mgr(s, p.isOrig), ev) && (ev == M.MarkIdle(p.id) || ev == M.MarkBusy(p.id))
    requires var p := s.procs[pid]; var t := Mgr(s, p.isOrig).t;
             && q.done == p.done && q.id == p.id && q.group == p.group && q.user == p.user && q.isOrig == p.isOrig
             && (q.state == P.Closing <==> p.state == P.Closing)
             && (if ev.MarkIdle? then p.id in t.busy && q.state == P.Idle
                 else if p.id in t.idle then q.state == P.Listening else q.state == p.state)
    ensures var p := s.procs[pid]; var m := Mgr(s, p.isOrig);
            Handled(m, M.Apply(m, ev), s.procs[pid := q], p.isOrig)
  {
    var p := s.procs[pid];
    var m := Mgr(s, p.isOrig);
    WiredSides(s, p.isOrig);
    ProcIsOurs(s, pid);
    I.StepGood(m, ev);
    I.CountedStep(m, ev);
    var r := M.Apply(m, ev);
    if M.Listed(m.t, p.id) && (ev.MarkIdle? || p.id in m.t.idle) {
      assert M.EntryOf(m.t, p.id).pid == pid;
      MoveSame(m, ev, p.id);
      LinkMove(m.t, r.t, m.inbox, s.procs, p.isOrig, p.id, q);
    } else {
      LinkProc(m.t, m.inbox, s.procs, p.isOrig, pid, q);
    }
  }

  /** Moving between idle and busy lists the same processes. */
  lemma MoveSame(m: M.Manager, ev: M.Event, id: nat)
    requires I.Disjoint(m.t) && (ev == M.MarkIdle(id) || ev == M.MarkBusy(id)) && M.Listed(m.t, id)
    ensures var r := M.Apply(m, ev);
            && Size(r.t) == Size(m.t) && r.inbox == m.inbox
            && (forall n: nat :: M.Listed(r.t, n) == M.Listed(m.t, n) &&
                  (M.Listed(m.t, n) ==> M.EntryOf(r.t, n) == M.EntryOf(m.t, n)))
            && (forall n: nat :: n != id ==> (n in r.t.idle <==> n in m.t.idle))
            && (id in r.t.idle <==> ev.MarkIdle?)
  {
    hide M.Wake, I.Distinct;
  }

  lemma QuietHandled(s: Sys, pid: nat, q: P.Proc)
    requires Wired(s) && pid < |s.procs|
    requires var p := s.procs[pid];
             && (q.state == P.Idle <==> p.state == P.Idle) && (q.state == P.Closing <==> p.state == P.Closing)
             && (q.done == p.done || p.state == P.Closing)
             && q.id == p.id && q.group == p.group && q.user == p.user && q.isOrig == p.isOrig
    ensures var m := Mgr(s, s.procs[pid].isOrig); Handled(m, m, s.procs[pid := q], s.procs[pid].isOrig)
  {
    var b := s.procs[pid].isOrig;
    WiredSides(s, b);
    hide I.Good, Linked, Wired;
    LinkProc(Mgr(s, b).t, Mgr(s, b).inbox, s.procs, b, pid, q);
  }

  /** A listening process is listed as busy, so its ready timeout always makes it idle. */
  lemma TimeoutMoves(s: Sys, pid: nat)
    requires Wired(s) && MayProc(s, pid, ReadyTimeout)
    ensures s.procs[pid].id in Mgr(s, s.procs[pid].isOrig).t.busy
  {
    ProcIsOurs(s, pid);
    hide Wired, I.Good;
  }

  /** A process step that a manager hears of by MarkIdle or MarkBusy. */
  lemma ProcMarks(s: Sys, pid: nat, act: ProcAct)
    requires Wired(s) && MayProc(s, pid, act) && (act.ReadyTimeout? || act.IdleReturn?)
    ensures var p := s.procs[pid]; var m := Mgr(s, p.isOrig); var (q, e) := P.Apply(p, ProcEvent(s, p, act));
            Handled(m, ManagerAfterProc(m, p, act, e), s.procs[pid := q], p.isOrig)
  {
    var p := s.procs[pid];
    var ev := ProcEvent(s, p, act);
    assert P.Running(p) by { ProcIsOurs(s, pid); }
    StaysPut(p, ev);
    var (q, e) := P.Apply(p, ev);
    if act.ReadyTimeout? {
      TimeoutMoves(s, pid);
      assert q.state == P.Idle;
      hide Wired, Handled, P.Apply, M.Apply;
      MarkHandled(s, pid, q, M.MarkIdle(p.id));
    } else {
      assert if ev.moved then q.state == P.Listening else q.state == p.state;
      hide Wired, Handled, P.Apply, M.Apply;
      MarkHandled(s, pid, q, M.MarkBusy(p.id));
    }
  }

  lemma ProcHandled(s: Sys, pid: nat, act: ProcAct)
    requires Wired(s) && MayProc(s, pid, act)
    ensures var p := s.procs[pid]; var m := Mgr(s, p.isOrig); var (q, e) := P.Apply(p, ProcEvent(s, p, act));
            Handled(m, ManagerAfterProc(m, p, act, e), s.procs[pid := q], p.isOrig)
  {
    if act.ReadyTimeout? || act.IdleReturn? {
      hide *;
      ProcMarks(s, pid, act);
      return;
    }
    var p := s.procs[pid];
    var ev := ProcEvent(s, p, act);
    assert P.Running(p) by { ProcIsOurs(s, pid); }
    StaysPut(p, ev);
    var (q, e) := P.Apply(p, ev);
    if e.exit {
      ExitReported(s, pid, act);
      hide Wired, Handled, P.Apply, M.Apply;
      ReportHandled(s, pid, q);
    } else {
      hide Wired, Handled, P.Apply, M.Apply;
      QuietHandled(s, pid, q);
    }
  }

  lemma ProcPopulates(s: Sys, pid: nat, act: ProcAct)
    requires Wired(s) && MayProc(s, pid, act)
    ensures var p := s.procs[pid];
            Populated(s.procs[pid := P.Apply(p, ProcEvent(s, p, act)).0], |s.groups|, p.isOrig,
                      Mgr(s, p.isOrig).serial, Mgr(s, !p.isOrig).serial)
  {
    var p := s.procs[pid];
    var ev := ProcEvent(s, p, act);
    ProcIsOurs(s, pid);
    StaysPut(p, ev);
    hide Wired, P.Apply, Populated, I.Good, I.Unique, I.Disjoint, Alive, Matches, Reports;
    WiredPopulated(s, p.isOrig);
    PopulatedChange(s.procs, |s.groups|, p.isOrig, Mgr(s, p.isOrig).serial, Mgr(s, !p.isOrig).serial, pid,
      P.Apply(p, ev).0);
  }

  /** Both managers around a changed process object. */
  lemma HandledJoined(s: Sys, r: Sys, pid: nat, q: P.Proc)
    requires Wired(s) && pid < |s.procs| && q.isOrig == s.procs[pid].isOrig
    requires var b := s.procs[pid].isOrig;
             && r.procs == s.procs[pid := q] && r.users == s.users && Mgr(r, !b) == Mgr(s, !b)
             && Handled(Mgr(s, b), Mgr(r, b), r.procs, b)
    ensures SysJoined(r, s.procs[pid].isOrig)
  {
    var b := s.procs[pid].isOrig;
    var m, x := Mgr(s, b), Mgr(s, !b);
    WiredSides(s, b);
    WiredSides(s, !b);
    hide I.Good, Linked, Pool, Wired, I.Counted;
    LinkOther(x.t, x.inbox, s.procs, !b, pid, q);
    PoolSame(s.users.queue, m.t, Mgr(r, b).t, x.t, s.users.capacity);
  }

  lemma ProcStep(s: Sys, pid: nat, act: ProcAct)
    requires Wired(s) && MayProc(s, pid, act)
    ensures Wired(DoProc(s, pid, act))
  {
    var p := s.procs[pid];
    var (q, e) := P.Apply(p, ProcEvent(s, p, act));
    var r := DoProc(s, pid, act);
    assert q.isOrig == p.isOrig by {
      ProcIsOurs(s, pid);
      StaysPut(p, ProcEvent(s, p, act));
    }
    assert |GroupsAfterProc(s, p, act, e)| == |s.groups|;
    WiredSides(s, !p.isOrig);
    WiredSides(s, p.isOrig);
    hide I.Good, Linked, Pool, Populated, P.Apply, M.Apply, MayProc, DoProc, GroupsAfterProc, ManagerAfterProc,
      ProcEvent, Placed, Numbered, I.Counted, Joined;
    ProcShape(s, pid, act);
    ProcHandled(s, pid, act);
    ProcPopulates(s, pid, act);
    HandledJoined(s, r, pid, q);
    Assemble(r, p.isOrig);
  }

  // ----- group and scheduler steps -----

  /** Messages to and from a manager change neither its tables nor what it knows. */
  ghost predicate Untouched(m: M.Manager, m': M.Manager, procs: seq<P.Proc>, isOrig: bool) {
    && I.Good(m') && I.Counted(m'.t) && m'.known == m.known && m'.cfg == m.cfg && m'.serial == m.serial && m'.t == m.t
    && Linked(m'.t, m'.inbox, procs, isOrig)
  }

  lemma AskUntouched(m: M.Manager, procs: seq<P.Proc>, isOrig: bool, g: nat, num: nat)
    requires Side(m, procs, isOrig, |m.known|) && g < |m.known|
    ensures Untouched(m, AskFor(m, g, num), procs, isOrig)
  {
    if num > 0 {
      I.StepGood(m, M.Ask(g, num));
      hide I.Good, Linked;
      forall n: nat | M.Listed(m.t, n)
        ensures M.Reported(m.inbox + [M.GetProcess(g, num)], n) <==> M.Reported(m.inbox, n)
      {
        ReportedPushed(m.inbox, M.GetProcess(g, num), n);
      }
      LinkInbox(m.t, m.inbox, m.inbox + [M.GetProcess(g, num)], procs, isOrig);
    }
  }

  lemma GroupManager(s: Sys, g: nat, act: GroupAct, isOrig: bool, num: nat)
    requires Wired(s) && MayGroup(s, g, act)
    ensures Untouched(Mgr(s, isOrig), ManagerAfterGroup(s, g, act, isOrig, num), s.procs, isOrig)
  {
    var m := Mgr(s, isOrig);
    WiredSides(s, isOrig);
    if act.TakeReady? && act.isOrig == isOrig {
      var d := M.Apply(m, M.Deliver(act.i));
      I.StepGood(m, M.Deliver(act.i));
      hide I.Good, Linked, MayGroup, Wired;
      assert d.t == m.t && d.inbox == m.inbox && d.known == m.known && d.serial == m.serial;
      AskUntouched(d, s.procs, isOrig, g, num);
    } else {
      hide I.Good, Linked, MayGroup, Wired;
      AskUntouched(m, s.procs, isOrig, g, num);
    }
  }

  lemma GroupStep(s: Sys, g: nat, act: GroupAct)
    requires Wired(s) && MayGroup(s, g, act)
    ensures Wired(DoGroup(s, g, act))
  {
    var o := G.Apply(s.groups[g], GroupEvent(s, g, act));
    GroupManager(s, g, act, true, o.askOrig);
    GroupManager(s, g, act, false, o.askCross);
    WiredPopulated(s, true);
    WiredSides(s, true);
    WiredSides(s, false);
    hide I.Good, Linked, Pool, Populated, G.Apply, ManagerAfterGroup, MayGroup, GroupEvent;
    Assemble(DoGroup(s, g, act), true);
  }

  lemma LearnKept(m: M.Manager, procs: seq<P.Proc>, isOrig: bool, groups: nat, key: GroupKey)
    requires Side(m, procs, isOrig, groups)
    ensures Side(M.Apply(m, M.Learn(key)), procs, isOrig, groups + 1)
  {
    I.StepGood(m, M.Learn(key));
    hide I.Good, Linked;
  }

  lemma RegisterStep(s: Sys, key: GroupKey)
    requires Wired(s)
    ensures Wired(Register(s, key))
  {
    LearnKept(s.orig, s.procs, true, |s.groups|, key);
    LearnKept(s.cross, s.procs, false, |s.groups|, key);
    hide Side, Pool, Linked;
  }

  lemma DispatchStep(s: Sys)
    requires Wired(s) && May(s, Dispatch)
    ensures Wired(DoDispatch(s))
  {
    RegisterStep(s, s.sched.txCh[0].key);
    hide Side, Pool, Register, ContractKey;
  }

  /** Every step keeps the engine wired. */
  lemma StepWired(s: Sys, l: Label)
    requires Wired(s) && May(s, l)
    ensures Wired(Next(s, l))
  {
    match l
    case Arrive(_) => hide Side, Pool;
    case Dispatch => DispatchStep(s);
    case Forward => hide Side, Pool;
    case OfGroup(g, act) => GroupStep(s, g, act);
    case OfManager(b, act) => hide Wired, MayManager, DoManager; ManagerStep(s, b, act);
    case OfProc(pid, act) => ProcStep(s, pid, act);
  }

  lemma InitialSide(cfg: M.Config, isOrig: bool)
    ensures Side(M.Initial(cfg), [], isOrig, 0)
  {
    I.InitialGood(cfg);
    hide I.Good;
  }

  lemma InitialWired(limit: nat, maxOrig: nat, rate: real, uids: seq<nat>)
    requires I.Distinct(uids) && |uids| == maxOrig * (limit + 1)
    ensures Wired(Initial(limit, maxOrig, rate, uids))
  {
    InitialSide(M.Config(true, maxOrig, rate), true);
    InitialSide(M.Config(false, maxOrig * limit, rate), false);
    hide Side;
    assert maxOrig + maxOrig * limit == maxOrig * (limit + 1);
  }

  lemma {:induction false} RunWired(s: Sys, ls: seq<Label>)
    requires Wired(s) && Possible(s, ls)
    ensures Wired(After(s, ls))
    decreases |ls|
  {
    hide Wired, May, Next;
    if ls != [] {
      StepWired(s, ls[0]);
      RunWired(Next(s, ls[0]), ls[1..]);
    }
  }

  /** The engine starts with one user per process slot, as the configuration creates them. */
  ghost predicate Configured(limit: nat, maxOrig: nat, uids: seq<nat>) {
    I.Distinct(uids) && |uids| == maxOrig * (limit + 1)
  }

  /** In every run: a handler that is about to create a process gets a user at once, giving a live process's user
      back never meets a full queue, nobody waits for a user, free users and users in use add up to all users, and
      no two live processes of either manager share one. */
  lemma UsersNeverRunOut(limit: nat, maxOrig: nat, rate: real, uids: seq<nat>, ls: seq<Label>)
    requires Configured(limit, maxOrig, uids) && Possible(Initial(limit, maxOrig, rate, uids), ls)
    ensures var s := After(Initial(limit, maxOrig, rate, uids), ls);
            && s.users.parked == []
            && |s.users.queue| + |s.orig.t.idle| + |s.orig.t.busy| + |s.cross.t.idle| + |s.cross.t.busy| == |uids|
            && (forall b: bool :: CreatesNext(Mgr(s, b).job) ==> F.Take(s.users, 0).1.Got?)
            && (forall b: bool, n: nat :: M.Listed(Mgr(s, b).t, n) ==>
                  F.Put(s.users, M.EntryOf(Mgr(s, b).t, n).user).1 == F.Stored)
            && (forall b: bool, c: bool, n: nat, k: nat ::
                  M.Listed(Mgr(s, b).t, n) && M.Listed(Mgr(s, c).t, k) && (b != c || n != k) ==>
                  M.EntryOf(Mgr(s, b).t, n).user != M.EntryOf(Mgr(s, c).t, k).user)
  {
    var s0 := Initial(limit, maxOrig, rate, uids);
    InitialWired(limit, maxOrig, rate, uids);
    RunWired(s0, ls);
    RunCapacity(s0, ls);
    UsersFacts(After(s0, ls));
  }

  predicate CreatesNext(job: M.Job) {
    (job.Creating? && job.left > 0) || (job.Launching? && job.todo != [])
  }

  lemma UsersFacts(s: Sys)
    requires Wired(s)
    ensures |s.users.queue| + |s.orig.t.idle| + |s.orig.t.busy| + |s.cross.t.idle| + |s.cross.t.busy| ==
      s.users.capacity
    ensures forall b: bool :: CreatesNext(Mgr(s, b).job) ==> F.Take(s.users, 0).1.Got?
    ensures forall b: bool, n: nat :: M.Listed(Mgr(s, b).t, n) ==>
      F.Put(s.users, M.EntryOf(Mgr(s, b).t, n).user).1 == F.Stored
    ensures forall b: bool, c: bool, n: nat, k: nat ::
              M.Listed(Mgr(s, b).t, n) && M.Listed(Mgr(s, c).t, k) && (b != c || n != k) ==>
              M.EntryOf(Mgr(s, b).t, n).user != M.EntryOf(Mgr(s, c).t, k).user
  {
    WiredSides(s, true);
    WiredSides(s, false);
    assert I.Disjoint(s.orig.t) && I.Disjoint(s.cross.t) && I.Unique(s.orig.t) && I.Unique(s.cross.t);
    I.OrderSize(s.orig.t);
    I.OrderSize(s.cross.t);
    assert |s.users.queue| + |s.orig.t.idle| + |s.orig.t.busy| + |s.cross.t.idle| + |s.cross.t.busy| ==
      s.users.capacity;
    forall b: bool | CreatesNext(Mgr(s, b).job) ensures F.Take(s.users, 0).1.Got? {
      assert I.JobFits(Mgr(s, b).job, Mgr(s, b).t, M.Available(Mgr(s, b))) by { WiredSides(s, b); }
      SlotHasUser(s, b);
    }
    forall b: bool, n: nat | M.Listed(Mgr(s, b).t, n) ensures F.Put(s.users, M.EntryOf(Mgr(s, b).t, n).user).1 ==
      F.Stored {
      UserFits(s, b, n);
    }
  }

  lemma {:induction false} RunCapacity(s: Sys, ls: seq<Label>)
    requires Wired(s) && Possible(s, ls)
    ensures After(s, ls).users.capacity == s.users.capacity
    decreases |ls|
  {
    if ls != [] {
      StepWired(s, ls[0]);
      StepCapacity(s, ls[0]);
      hide Wired, May, Next;
      RunCapacity(Next(s, ls[0]), ls[1..]);
    }
  }

  lemma StepCapacity(s: Sys, l: Label)
    requires Wired(s) && May(s, l)
    ensures Next(s, l).users.capacity == s.users.capacity
  {
    if l.OfManager? {
      UsersKept(s, l.isOrig, l.ma);
    }
    hide Wired, UsersAfter, ProcsAfter, M.Apply;
  }
}
