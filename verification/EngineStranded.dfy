/**
 Transactions that the engine leaves behind.  When a contract turns out bad while
 transactions are queued, the group asks for its bytecode again; if that fails, the
 queued transactions stay where they are.  With nothing buffered the group's event
 loop is stuck and they stay for ever; with one transaction buffered they stay until
 a further transaction of that contract arrives.
 */
module EngineStranded {
  import opened Basics
  import opened Keys
  import opened Transactions
  import opened EngineModel
  import opened EngineSafety
  import opened EngineSteps
  import opened EngineWakeups
  import G = GroupModel
  import M = ManagerModel
  import W = ManagerWakeups
  import P = ProcessModel

  /** The process may still take transactions from the group's queue. */
  predicate Reads(p: P.Proc, g: nat, isOrig: bool) {
    p.isOrig == isOrig && !p.done && ((p.group == g && p.state != P.Closing) || p.idleOn == Some(g))
  }

  ghost predicate Unread(procs: seq<P.Proc>, g: nat, isOrig: bool) {
    forall i :: 0 <= i < |procs| ==> !Reads(procs[i], g, isOrig)
  }

  /** The running handler works for other groups. */
  ghost predicate Elsewhere(job: M.Job, g: nat) {
    match job
    case Creating(group, _, _, _) => group != g
    case Reusing(group, _, _, _) => group != g
    case Pairing(pairs) => forall i :: 0 <= i < |pairs| ==> pairs[i].group != g
    case Launching(todo) => g !in todo
    case _ => true
  }

  /** The manager has nothing to do for the group. */
  ghost predicate Forgotten(m: M.Manager, g: nat) {
    !W.Asked(m.inbox, g) && g !in m.desk.waiting && Elsewhere(m.job, g)
  }

  /** Nothing is on its way to the group's event loop, or the loop is stuck. */
  predicate Silent(g: G.Group) {
    g.buf == [] && (g.blocked || (g.inbox == [] && !g.timer.armed && !g.timer.tick))
  }

  /** Queued transactions that no process reads, in a group that gets neither contract nor process. */
  ghost predicate Stranded(s: Sys, g: nat, isOrig: bool) {
    && g < |s.groups| && G.Unattended(s.groups[g], isOrig) && Silent(s.groups[g])
    && Forgotten(Mgr(s, isOrig), g) && Unread(s.procs, g, isOrig)
  }

  /** A further transaction of the contract, or bytecode that nobody asked for. */
  predicate Rouses(s: Sys, l: Label, g: nat) {
    (l.Dispatch? && s.sched.txCh != [] && GroupFor(s, s.sched.txCh[0].key) == g)
    || (l.OfGroup? && l.g == g && l.ga.Own? && l.ga.ev.PutCode?)
  }

  // ----- nothing else changes it -----

  lemma InboxForgets(m: M.Manager, ev: M.Event, g: nat)
    requires !W.Asked(m.inbox, g) && M.Enabled(m, ev) && M.Runnable(m, ev) && (ev.Ask? ==> ev.group != g)
    ensures !W.Asked(M.Apply(m, ev).inbox, g)
  {
    hide M.SameContract, M.Transfer, M.Insert, M.Delete, M.FreshMade, M.Reported, M.Wake, M.Send, M.AfterDelete;
  }

  /** The waiting list shows none of the group. */
  predicate Off(d: M.Desk, g: nat) {
    g !in d.waiting
  }

  lemma SendOff(d: M.Desk, known: nat, group: nat, num: nat, g: nat)
    ensures Off(M.Send(d, known, group, num), g) == Off(d, g)
  {
  }

  lemma DeliverOff(d: M.Desk, i: nat, g: nat)
    requires i < |d.outbox|
    ensures Off(d.(outbox := M.DropAt(d.outbox, i)), g) == Off(d, g)
  {
  }

  lemma WakeOff(d: M.Desk, known: nat, group: nat, g: nat)
    requires Off(d, g)
    ensures Off(M.Wake(d, known, group), g)
  {
    hide M.Drop;
  }

  lemma AfterDeleteOff(d: M.Desk, t: M.Tables, known: nat, group: nat, id: nat, g: nat)
    requires Off(d, g)
    ensures Off(M.AfterDelete(d, t, known, group, id), g)
  {
    hide M.Wake, M.WithoutMember;
    WakeOff(d, known, group, g);
  }

  lemma HandOff(m: M.Manager, i: nat, ok: bool, g: nat)
    requires Off(m.desk, g) && M.Runnable(m, M.Hand(i, ok))
    ensures Off(M.DoHand(m, i, ok).desk, g)
  {
    hide M.Wake, M.Send, M.AfterDelete, M.Transfer, M.SameContract, Off;
    var id, group := m.job.pairs[i].id, m.job.pairs[i].group;
    var n, told := |m.known|, M.Send(m.desk, |m.known|, group, 1);
    SendOff(m.desk, n, group, 1, g);
    WakeOff(told, n, group, g);
    AfterDeleteOff(M.Wake(told, n, group), m.t, n, m.t.idle[id].group, id, g);
    WakeOff(m.desk, n, group, g);
    SendOff(M.Wake(m.desk, n, group), n, group, 0, g);
  }

  lemma LaunchOff(m: M.Manager, i: nat, made: M.Made, g: nat)
    requires Off(m.desk, g) && M.Runnable(m, M.Launch(i, made))
    ensures Off(M.DoLaunch(m, i, made).desk, g)
  {
    hide M.Wake, M.Send, M.Insert, Off;
    var group := m.job.todo[i];
    SendOff(m.desk, |m.known|, group, 1, g);
    WakeOff(M.Send(m.desk, |m.known|, group, 1), |m.known|, group, g);
  }

  lemma EndRequestOff(m: M.Manager, g: nat)
    requires Off(m.desk, g) && Elsewhere(m.job, g) && M.Runnable(m, M.EndRequest)
    ensures Off(M.DoEndRequest(m).desk, g)
  {
    SendOff(m.desk, |m.known|, m.job.group, m.job.total - m.job.need, g);
    hide M.Send;
  }

  lemma DeskForgets(m: M.Manager, ev: M.Event, g: nat)
    requires Off(m.desk, g) && Elsewhere(m.job, g) && M.Enabled(m, ev) && M.Runnable(m, ev)
    ensures Off(M.Apply(m, ev).desk, g)
  {
    hide M.SameContract, M.Transfer, M.Insert, M.Delete, M.FreshMade, M.Reported, M.Wake, M.Send, M.AfterDelete, Off;
    hide M.DoHand, M.DoLaunch, M.DoEndRequest, M.Drop;
    var n := |m.known|;
    match ev
    case Deliver(i) => DeliverOff(m.desk, i, g);
    case MarkIdle(id) =>
      if id in m.t.busy {
        WakeOff(m.desk, n, m.t.busy[id].group, g);
      }
    case BeginRequest => WakeOff(m.desk, n, m.inbox[0].group, g);
    case Reuse(i, _) =>
      var id := m.job.picks[i];
      AfterDeleteOff(m.desk, m.t, n, m.t.idle[id].group, id, g);
    case EndRequest => EndRequestOff(m, g);
    case HandleExit(_) => AfterDeleteOff(m.desk, m.t, n, m.inbox[0].group, m.inbox[0].id, g);
    case Close(i, _, _) =>
      var id := m.job.victims[i];
      AfterDeleteOff(m.desk, m.t, n, m.t.idle[id].group, id, g);
    case Hand(i, ok) => HandOff(m, i, ok, g);
    case Launch(i, made) => LaunchOff(m, i, made, g);
    case _ =>
  }

  lemma JobForgets(m: M.Manager, ev: M.Event, g: nat)
    requires Forgotten(m, g) && M.Enabled(m, ev) && M.Runnable(m, ev)
    ensures Elsewhere(M.Apply(m, ev).job, g)
  {
    hide M.SameContract, M.Transfer, M.Insert, M.Delete, M.FreshMade, M.Reported, M.Wake, M.Send, M.AfterDelete;
  }

  /** No event of the manager brings the group back. */
  lemma EventForgets(m: M.Manager, ev: M.Event, g: nat)
    requires Forgotten(m, g) && M.Enabled(m, ev) && M.Runnable(m, ev) && (ev.Ask? ==> ev.group != g)
    ensures Forgotten(M.Apply(m, ev), g)
  {
    hide M.Apply, M.Enabled, M.Runnable, Elsewhere;
    InboxForgets(m, ev, g);
    DeskForgets(m, ev, g);
    JobForgets(m, ev, g);
  }

  lemma AskForgets(m: M.Manager, h: nat, num: nat, g: nat)
    requires Forgotten(m, g) && (h != g || num == 0)
    ensures Forgotten(AskFor(m, h, num), g)
  {
  }

  // ----- every step -----

  lemma ManagerStrands(s: Sys, c: bool, act: ManagerAct, g: nat, b: bool)
    requires Wired(s) && MayManager(s, c, act) && Stranded(s, g, b)
    ensures Forgotten(Mgr(DoManager(s, c, act), b), g) && DoManager(s, c, act).groups == s.groups
  {
    ManagerEnabled(s, c, act);
    var ev := ManagerEvent(s, c, act);
    assert !ev.Ask?;
    hide Wired, MayManager, M.Apply, M.Enabled, M.Runnable, ManagerEvent, UsersAfter, ProcsAfter, Forgotten, Unread;
    if b == c {
      EventForgets(Mgr(s, b), ev, g);
    }
  }

  lemma UnreadUpdate(procs: seq<P.Proc>, pid: nat, q: P.Proc, g: nat, b: bool)
    requires pid < |procs| && Unread(procs, g, b) && (!Reads(procs[pid], g, b) ==> !Reads(q, g, b))
    ensures Unread(procs[pid := q], g, b)
  {
    hide Reads;
  }

  lemma UnreadAppend(procs: seq<P.Proc>, q: P.Proc, g: nat, b: bool)
    requires Unread(procs, g, b) && !Reads(q, g, b)
    ensures Unread(procs + [q], g, b)
  {
    hide Reads;
  }

  lemma MakingUnread(s: Sys, c: bool, act: ManagerAct, g: nat, b: bool)
    requires MayManager(s, c, act) && (act.Create? || act.Launch?) && Elsewhere(Mgr(s, b).job, g) &&
      Unread(s.procs, g, b)
    ensures Unread(ProcsAfter(s, c, act), g, b)
  {
    var m := Mgr(s, c);
    var group := if act.Create? then m.job.group else m.job.todo[act.i];
    var made := MadeFrom(s.users, |s.procs|);
    hide Unread, MadeFrom;
    assert c == b ==> group != g;
    if made.Made? {
      UnreadAppend(s.procs, P.NewProc(m.serial + 1, group, made.user, c), g, b);
    }
  }

  lemma MovedUnread(p: P.Proc, ev: P.Event, g: nat, b: bool)
    requires P.Enabled(p, ev) && (ev.Close? || (ev.Change? && (p.isOrig == b ==> ev.group != g)))
    ensures !Reads(p, g, b) ==> !Reads(P.Apply(p, ev).0, g, b)
  {
  }

  lemma ChangeElsewhere(job: M.Job, act: ManagerAct, g: nat)
    requires Elsewhere(job, g)
    ensures act.Reuse? && job.Reusing? ==> job.group != g
    ensures act.Hand? && job.Pairing? && act.i < |job.pairs| ==> job.pairs[act.i].group != g
  {
  }

  lemma ChangingUnread(s: Sys, c: bool, act: ManagerAct, g: nat, b: bool)
    requires Wired(s) && MayManager(s, c, act) && Elsewhere(Mgr(s, b).job, g) && Unread(s.procs, g, b)
    requires (act.Reuse? || act.Hand? || act.CloseIdle?) && act.ok
    ensures Unread(ProcsAfter(s, c, act), g, b)
  {
    hide Wired, Unread, M.SameContract, P.Apply, Reads, Elsewhere;
    var m := Mgr(s, c);
    var id := Target(m, act);
    TargetIsOurs(s, c, id);
    var pid := m.t.idle[id].pid;
    if c == b {
      ChangeElsewhere(m.job, act, g);
    }
    var ev := if act.CloseIdle? then P.Close
              else P.Change(m.serial + 1, if act.Reuse? then m.job.group else m.job.pairs[act.i].group);
    MovedUnread(s.procs[pid], ev, g, b);
    UnreadUpdate(s.procs, pid, P.Apply(s.procs[pid], ev).0, g, b);
  }

  lemma ManagerUnread(s: Sys, c: bool, act: ManagerAct, g: nat, b: bool)
    requires Wired(s) && MayManager(s, c, act) && Elsewhere(Mgr(s, b).job, g) && Unread(s.procs, g, b)
    ensures Unread(ProcsAfter(s, c, act), g, b)
  {
    hide Wired, Unread, Elsewhere;
    if act.Create? || act.Launch? {
      hide *;
      MakingUnread(s, c, act, g, b);
    } else if (act.Reuse? || act.Hand? || act.CloseIdle?) && act.ok {
      hide *;
      ChangingUnread(s, c, act, g, b);
    }
  }

  lemma ProcUnread(p: P.Proc, ev: P.Event, g: nat, b: bool)
    requires P.Enabled(p, ev) && !ev.Change? && !ev.Close? && P.Running(p) && !Reads(p, g, b)
    ensures !Reads(P.Apply(p, ev).0, g, b)
  {
    StaysPut(p, ev);
    hide P.Start, P.Pop;
  }

  /** Consuming on the other side and reports of a bad contract do not touch it. */
  lemma ProcGroupStays(s: Sys, p: P.Proc, act: ProcAct, e: P.Effects, g: nat, b: bool)
    requires g < |s.groups| && G.Unattended(s.groups[g], b) && Silent(s.groups[g])
    requires Taken(s, p, act).Some? && Source(p, act) == g ==> p.isOrig != b
    ensures var r := GroupsAfterProc(s, p, act, e);
            && |r| == |s.groups| && G.Unattended(r[g], b) && Silent(r[g])
            && G.Ctl(r[g], b).queue == G.Ctl(s.groups[g], b).queue && r[g].blocked == s.groups[g].blocked
  {
  }

  lemma TakerReads(s: Sys, pid: nat, act: ProcAct, g: nat)
    requires MayProc(s, pid, act) && Taken(s, s.procs[pid], act).Some? && Source(s.procs[pid], act) == g
    ensures Reads(s.procs[pid], g, s.procs[pid].isOrig)
  {
  }

  lemma ProcForgets(s: Sys, pid: nat, act: ProcAct, g: nat, b: bool)
    requires Wired(s) && MayProc(s, pid, act) && Forgotten(Mgr(s, b), g)
    ensures Forgotten(Mgr(DoProc(s, pid, act), b), g)
  {
    hide Wired, DoProc, P.Apply, ProcEvent, M.Apply, M.Enabled, M.Runnable, ManagerAfterProc, GroupsAfterProc,
      Forgotten;
    var p := s.procs[pid];
    ProcShape(s, pid, act);
    if b == p.isOrig {
      var m := Mgr(s, b);
      NoticeEnabled(s, pid, act);
      var m' := ManagerAfterProc(m, p, act, P.Apply(p, ProcEvent(s, p, act)).1);
      if m' != m {
        var note :| Notice(note) && M.Enabled(m, note) && M.Runnable(m, note) && m' == M.Apply(m, note);
        EventForgets(m, note, g);
      }
    }
  }

  lemma ProcRuns(s: Sys, pid: nat, act: ProcAct)
    requires Wired(s) && MayProc(s, pid, act)
    ensures var p := s.procs[pid]; var ev := ProcEvent(s, p, act);
            P.Running(p) && P.Enabled(p, ev) && !ev.Change? && !ev.Close?
  {
    hide P.Enabled;
  }

  lemma ProcStrands(s: Sys, pid: nat, act: ProcAct, g: nat, b: bool)
    requires Wired(s) && MayProc(s, pid, act) && Stranded(s, g, b)
    ensures Stranded(DoProc(s, pid, act), g, b) && SameQueue(s, DoProc(s, pid, act), g, b)
  {
    var p := s.procs[pid];
    var ev := ProcEvent(s, p, act);
    hide Wired, MayProc, DoProc, P.Apply, P.Enabled, ProcEvent, M.Apply, ManagerAfterProc, GroupsAfterProc;
    hide Forgotten, G.Unattended, Silent;
    ProcShape(s, pid, act);
    ProcForgets(s, pid, act, g, b);
    ProcRuns(s, pid, act);
    assert !Reads(p, g, b);
    hide Reads, Unread;
    ProcUnread(p, ev, g, b);
    UnreadUpdate(s.procs, pid, P.Apply(p, ev).0, g, b);
    if Taken(s, p, act).Some? && Source(p, act) == g {
      TakerReads(s, pid, act, g);
    }
    ProcGroupStays(s, p, act, P.Apply(p, ev).1, g, b);
  }

  /** The group's own events, except new input to a loop that still runs. */
  lemma GroupStays(r: G.Group, ev: G.Event, b: bool)
    requires G.Unattended(r, b) && Silent(r) && G.Enabled(r, ev) && !ev.Consume?
    requires ev.PutTx? || ev.PutCode? ==> r.blocked
    ensures var o := G.Apply(r, ev);
            && G.Unattended(o.g, b) && Silent(o.g) && G.Ctl(o.g, b).queue == G.Ctl(r, b).queue &&
                o.g.blocked == r.blocked
            && o.askOrig == 0 && o.askCross == 0
  {
  }

  lemma GroupStrands(s: Sys, h: nat, act: GroupAct, g: nat, b: bool)
    requires MayGroup(s, h, act) && Stranded(s, g, b) && (s.groups[g].blocked || !Rouses(s, OfGroup(h, act), g))
    ensures Stranded(DoGroup(s, h, act), g, b) && SameQueue(s, DoGroup(s, h, act), g, b)
  {
    var ev := GroupEvent(s, h, act);
    var o := G.Apply(s.groups[h], ev);
    if h == g {
      GroupStays(s.groups[g], ev, b);
    }
    assert Forgotten(Before(s, act, b), g);
    AskForgets(Before(s, act, b), h, AskOf(o, b), g);
    hide G.Apply, GroupEvent, Forgotten, Unread, G.Unattended, Silent;
  }

  lemma DispatchStrands(s: Sys, g: nat, b: bool)
    requires May(s, Dispatch) && Stranded(s, g, b) && (s.groups[g].blocked || !Rouses(s, Dispatch, g))
    ensures Stranded(DoDispatch(s), g, b) && SameQueue(s, DoDispatch(s), g, b)
  {
    hide ContractKey, Unread;
    var tx := s.sched.txCh[0];
    if GroupFor(s, tx.key) == g {
      GroupStays(s.groups[g], G.PutTx(tx), b);
    }
  }

  ghost predicate SameQueue(s: Sys, r: Sys, g: nat, b: bool)
    requires g < |s.groups|
  {
    && g < |r.groups| && G.Ctl(r.groups[g], b).queue == G.Ctl(s.groups[g], b).queue
    && r.groups[g].blocked == s.groups[g].blocked
  }

  /** Only a further transaction of the contract or unasked bytecode can end it, and not even those if the loop is
      stuck. */
  lemma StepStrands(s: Sys, l: Label, g: nat, b: bool)
    requires Wired(s) && May(s, l) && Stranded(s, g, b) && (s.groups[g].blocked || !Rouses(s, l, g))
    ensures Stranded(Next(s, l), g, b) && SameQueue(s, Next(s, l), g, b)
  {
    match l
    case Dispatch => hide Wired, Stranded, SameQueue, DoDispatch; DispatchStrands(s, g, b);
    case OfGroup(h, act) => hide Wired, DoGroup, Rouses, Stranded, SameQueue; GroupStrands(s, h, act, g, b);
    case OfManager(c, act) =>
      ManagerStrands(s, c, act, g, b);
      ManagerUnread(s, c, act, g, b);
      hide Wired, MayManager, M.Apply, ManagerEvent, ProcsAfter, UsersAfter, Forgotten, Unread;
    case OfProc(pid, act) => hide Wired, DoProc, Stranded, SameQueue; ProcStrands(s, pid, act, g, b);
    case _ => hide Wired, Forgotten, Unread;
  }

  // ----- runs -----

  /** No step of the run rouses the group. */
  ghost predicate Undisturbed(s: Sys, ls: seq<Label>, g: nat)
    requires Possible(s, ls)
    decreases |ls|
  {
    ls == [] || (!Rouses(s, ls[0], g) && Undisturbed(Next(s, ls[0]), ls[1..], g))
  }

  /** Stranded transactions stay queued over every run in which nothing rouses the group, and over every run at all
      when its event loop is stuck. */
  lemma {:induction false} RunStrands(s: Sys, ls: seq<Label>, g: nat, b: bool)
    requires Wired(s) && Possible(s, ls) && Stranded(s, g, b) && (s.groups[g].blocked || Undisturbed(s, ls, g))
    ensures Stranded(After(s, ls), g, b) && SameQueue(s, After(s, ls), g, b)
    decreases |ls|
  {
    hide Wired, May, Next, Rouses;
    if ls != [] {
      StepStrands(s, ls[0], g, b);
      StepWired(s, ls[0]);
      hide Stranded;
      RunStrands(Next(s, ls[0]), ls[1..], g, b);
    }
  }
}
