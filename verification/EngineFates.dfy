/**
 What becomes of a transaction, and why.  Every step of the engine is given, by its
 cause, the transaction that it starts in a sandbox, answers, fails, drops as expired
 or gives back to the scheduler.  Over every run it follows that a transaction is
 started at most as often as it was accepted, that one whose sandbox crashed ends as
 one error, that only transactions never started are given back, and that one within
 the call depth fails only by a failed load, lateness or its process's exit.
 */
module EngineFates {
  import opened Basics
  import opened Keys
  import opened Transactions
  import opened EngineModel
  import opened EngineSafety
  import opened EngineSteps
  import opened EngineConservation
  import G = GroupModel
  import M = ManagerModel
  import P = ProcessModel

  // ----- causes -----

  predicate InSandbox(p: P.Proc) {
    p.state == P.Busy || p.state == P.TimedOut
  }

  /** A process sends the transaction it takes to its sandbox. */
  function Started(s: Sys, l: Label): Option<Tx> {
    if l.OfProc? && l.pid < |s.procs| && l.pa == TakeTx(P.Fresh) then Taken(s, s.procs[l.pid], l.pa) else None
  }

  /** The sandbox responds. */
  function Answered(s: Sys, l: Label): Option<Tx> {
    if l.OfProc? && l.pid < |s.procs| && l.pa == Plain(P.Respond) then s.procs[l.pid].tx else None
  }

  /** The transaction taken had waited too long for anyone to ask. */
  function Dropped(s: Sys, l: Label): Option<Tx> {
    if l.OfProc? && l.pid < |s.procs| && l.pa == TakeTx(P.Expired) then Taken(s, s.procs[l.pid], l.pa) else None
  }

  /** The sandbox exits while it runs the transaction. */
  function Crashed(s: Sys, l: Label): Option<Tx> {
    if l.OfProc? && l.pid < |s.procs| && l.pa.Exit? && l.pa.cause == P.Other && InSandbox(s.procs[l.pid])
    then s.procs[l.pid].tx else None
  }

  /** The contract file cannot be executed: the oldest queued transaction pays for it. */
  function Unexecutable(s: Sys, l: Label): Option<Tx> {
    if l.OfProc? && l.pid < |s.procs| && l.pa.Exit? && l.pa.cause == P.ExecFailed then Taken(s, s.procs[l.pid], l.pa)
    else None
  }

  /** The transaction taken had waited longer than it may. */
  function Late(s: Sys, l: Label): Option<Tx> {
    if l.OfProc? && l.pid < |s.procs| && l.pa == TakeTx(P.Late) then Taken(s, s.procs[l.pid], l.pa) else None
  }

  /** The bytecode could not be got: the oldest buffered transaction pays for it. */
  function Unloaded(s: Sys, l: Label): Option<Tx> {
    if l.OfGroup? && l.g < |s.groups| && l.ga.Own? && G.Enabled(s.groups[l.g], l.ga.ev)
       && G.Fails(s.groups[l.g], l.ga.ev) && s.groups[l.g].buf != []
    then Some(s.groups[l.g].buf[0]) else None
  }

  /** A ready group receives a transaction beyond the call depth. */
  function TooDeep(s: Sys, l: Label): Option<Tx> {
    if l.OfGroup? && l.g < |s.groups| && l.ga.Own? && l.ga.ev.TakeMsg? && s.groups[l.g].load == G.Ready
       && s.groups[l.g].inbox != [] && s.groups[l.g].inbox[0].TxMsg? && s.groups[l.g].inbox[0].tx.depth > s.limit
    then Some(s.groups[l.g].inbox[0].tx) else None
  }

  /** An error goes to the chain. */
  function Failing(s: Sys, l: Label): Option<Tx> {
    if Crashed(s, l).Some? then Crashed(s, l)
    else if Unexecutable(s, l).Some? then Unexecutable(s, l)
    else if Late(s, l).Some? then Late(s, l)
    else if Unloaded(s, l).Some? then Unloaded(s, l)
    else TooDeep(s, l)
  }

  /** The transaction goes back to the scheduler: an idle process hands it back, or the contract file is missing. */
  function Returned(s: Sys, l: Label): Option<Tx> {
    if !l.OfProc? || l.pid >= |s.procs| then None
    else if l.pa.IdleReturn? then s.procs[l.pid].holding
    else if l.pa.Exit? && l.pa.cause == P.Missing then Taken(s, s.procs[l.pid], l.pa)
    else None
  }

  // ----- every step does what its cause says, and nothing else -----

  /** What a step leaves in the channels to the chain and the scheduler. */
  ghost predicate AsCaused(s: Sys, l: Label, r: Sys) {
    && r.sched.errs == (if l.Forward? && s.sched.errs != [] then s.sched.errs[1..]
                        else s.sched.errs + Opt(Failing(s, l)))
    && r.past.failed == s.past.failed + (if l.Forward? && s.sched.errs != [] then [s.sched.errs[0]] else [])
    && r.past.answered == s.past.answered + Opt(Answered(s, l))
    && r.past.expired == s.past.expired + Opt(Dropped(s, l))
    && r.past.accepted == s.past.accepted + (if l.Arrive? then [l.tx] else [])
    && r.sched.txCh == (if l.Dispatch? && s.sched.txCh != [] then s.sched.txCh[1..] else s.sched.txCh)
                       + (if l.Arrive? then [l.tx] else Opt(Returned(s, l)))
  }

  lemma EffectsOf(p: P.Proc, ev: P.Event)
    requires P.Enabled(p, ev)
    ensures var e := P.Apply(p, ev).1;
            && e.answered == (if ev.Respond? then p.tx else None)
            && e.expired == (if ev.TakeTx? && ev.age == P.Expired then Some(ev.tx) else None)
            && e.requeued == (if ev.IdleReturn? then p.holding
                              else if ev.Exit? && ev.cause == P.Missing then ev.next else None)
            && e.failed == (if ev.TakeTx? && ev.age == P.Late then Some(ev.tx)
                            else if ev.Exit? && ev.cause == P.ExecFailed then ev.next
                            else if ev.Exit? && ev.cause == P.Other && InSandbox(p) then p.tx else None)
  {
    hide P.Start, P.Pop, P.Settle, P.Enter;
  }

  lemma ProcCaused(s: Sys, pid: nat, act: ProcAct)
    requires MayProc(s, pid, act)
    ensures AsCaused(s, OfProc(pid, act), DoProc(s, pid, act))
  {
    hide P.Apply, P.Enabled, ManagerAfterProc, GroupsAfterProc, Taken;
    var p := s.procs[pid];
    EffectsOf(p, ProcEvent(s, p, act));
  }

  lemma GroupErrors(g: G.Group, ev: G.Event)
    requires G.Enabled(g, ev)
    ensures G.Apply(g, ev).errors
            == if G.Fails(g, ev) && g.buf != [] then [g.buf[0]]
               else if ev.TakeMsg? && g.load == G.Ready && g.inbox[0].TxMsg? && g.inbox[0].tx.depth > ev.depthLimit
               then [g.inbox[0].tx] else []
  {
    hide G.GetProcesses, G.EnqueueAll;
    if ev.TakeMsg? && g.inbox[0].TxMsg? {
      var tx := g.inbox[0].tx;
      AskKeeps(G.Enqueue(g.(inbox := g.inbox[1..]), tx), IsOrig(tx), if IsOrig(tx) then ev.co else ev.cc, tx);
    } else if ev.TakeReady? {
      AskNothing(G.WithCtl(g, ev.isOrig, G.Ctl(g, ev.isOrig).(waiting := false)), ev.isOrig, ev.c);
    }
  }

  lemma AskNothing(g: G.Group, isOrig: bool, c: G.Counts)
    ensures G.GetProcesses(g, isOrig, c).errors == []
  {
  }

  lemma GroupCaused(s: Sys, g: nat, act: GroupAct)
    requires MayGroup(s, g, act)
    ensures AsCaused(s, OfGroup(g, act), DoGroup(s, g, act))
  {
    GroupErrors(s.groups[g], GroupEvent(s, g, act));
    hide G.Apply, ManagerAfterGroup, CountsFor;
  }

  lemma ManagerCaused(s: Sys, isOrig: bool, act: ManagerAct)
    requires MayManager(s, isOrig, act)
    ensures AsCaused(s, OfManager(isOrig, act), DoManager(s, isOrig, act))
  {
    ManagerRuns(s, isOrig, act);
    hide MayManager, M.Apply, ManagerEvent, ProcsAfter, UsersAfter;
  }

  /** Every end of a transaction, and every return to the scheduler, has exactly its cause. */
  lemma StepCaused(s: Sys, l: Label)
    requires May(s, l)
    ensures AsCaused(s, l, Next(s, l))
  {
    match l
    case OfProc(pid, act) => hide AsCaused, DoProc; ProcCaused(s, pid, act);
    case OfGroup(g, act) => hide AsCaused, DoGroup; GroupCaused(s, g, act);
    case OfManager(b, act) => hide AsCaused, DoManager; ManagerCaused(s, b, act);
    case _ => hide ContractKey, M.Apply;
  }

  // ----- what is in the sandboxes -----

  function Runs(p: P.Proc, x: Tx): nat {
    if InSandbox(p) then P.Has(p.tx, x) else 0
  }

  function Running(procs: seq<P.Proc>, x: Tx): nat {
    if procs == [] then 0 else Runs(procs[0], x) + Running(procs[1..], x)
  }

  lemma {:induction false} RunningUpdate(procs: seq<P.Proc>, i: nat, p: P.Proc, x: Tx)
    requires i < |procs|
    ensures Running(procs[i := p], x) + Runs(procs[i], x) == Running(procs, x) + Runs(p, x)
  {
    if i == 0 {
      assert procs[0 := p][1..] == procs[1..];
    } else {
      assert procs[i := p][1..] == procs[1..][i - 1 := p];
      RunningUpdate(procs[1..], i - 1, p, x);
    }
  }

  lemma {:induction false} RunningAppend(procs: seq<P.Proc>, p: P.Proc, x: Tx)
    ensures Running(procs + [p], x) == Running(procs, x) + Runs(p, x)
  {
    if procs == [] {
      assert procs + [p] == [p];
      assert Running([p], x) == Runs(p, x) + Running([p][1..], x);
    } else {
      assert (procs + [p])[1..] == procs[1..] + [p];
      RunningAppend(procs[1..], p, x);
    }
  }

  /** A process runs what it is sent, until its sandbox answers or exits. */
  lemma EventRuns(p: P.Proc, ev: P.Event, x: Tx)
    requires P.Enabled(p, ev)
    ensures var q := P.Apply(p, ev).0;
            Runs(q, x)
            + (if ev.Respond? || (ev.Exit? && ev.cause == P.Other && InSandbox(p)) then P.Has(p.tx, x) else 0)
            == Runs(p, x) + (if ev.TakeTx? && ev.age == P.Fresh then P.Has(Some(ev.tx), x) else 0)
  {
    hide P.Start, P.Pop;
  }

  lemma ProcRuns(s: Sys, pid: nat, act: ProcAct, x: Tx)
    requires MayProc(s, pid, act)
    ensures var l := OfProc(pid, act);
            Running(DoProc(s, pid, act).procs, x) + P.Has(Answered(s, l), x) + P.Has(Crashed(s, l), x)
            == Running(s.procs, x) + P.Has(Started(s, l), x)
  {
    var p := s.procs[pid];
    var ev := ProcEvent(s, p, act);
    EventRuns(p, ev, x);
    RunningUpdate(s.procs, pid, P.Apply(p, ev).0, x);
    ProcShape(s, pid, act);
    hide DoProc, P.Apply, P.Enabled, Running, Runs, Taken, GroupsAfterProc, ManagerAfterProc;
  }

  lemma NewRuns(s: Sys, isOrig: bool, group: nat, x: Tx)
    ensures Running(WithNew(s, isOrig, group), x) == Running(s.procs, x)
  {
    var made := MadeFrom(s.users, |s.procs|);
    if made.Made? {
      RunningAppend(s.procs, P.NewProc(Mgr(s, isOrig).serial + 1, group, made.user, isOrig), x);
    }
  }

  lemma ChangeRuns(s: Sys, m: M.Manager, id: nat, group: nat, x: Tx)
    requires id in m.t.idle && Agrees(s.procs, m.t.idle[id].pid)
    ensures Running(WithChange(s, m, id, group), x) == Running(s.procs, x)
  {
    var pid := m.t.idle[id].pid;
    RunningUpdate(s.procs, pid, P.Apply(s.procs[pid], P.Change(m.serial + 1, group)).0, x);
  }

  lemma ManagerRunsNone(s: Sys, isOrig: bool, act: ManagerAct, x: Tx)
    requires MayManager(s, isOrig, act)
    ensures Running(ProcsAfter(s, isOrig, act), x) == Running(s.procs, x)
  {
    hide Running, WithNew, WithChange;
    var m := Mgr(s, isOrig);
    match act
    case Create => NewRuns(s, isOrig, m.job.group, x);
    case Launch(i) => NewRuns(s, isOrig, m.job.todo[i], x);
    case Reuse(_, ok) => if ok { ChangeRuns(s, m, Target(m, act), m.job.group, x); }
    case Hand(i, ok) => if ok { ChangeRuns(s, m, Target(m, act), m.job.pairs[i].group, x); }
    case CloseIdle(_, ok) =>
      if ok {
        var pid := m.t.idle[Target(m, act)].pid;
        RunningUpdate(s.procs, pid, P.Apply(s.procs[pid], P.Close).0, x);
      }
    case _ =>
  }

  /** Over every step: what a sandbox is sent it answers, loses in a crash, or still has. */
  lemma StepRuns(s: Sys, l: Label, x: Tx)
    requires May(s, l)
    ensures Running(Next(s, l).procs, x) + P.Has(Answered(s, l), x) + P.Has(Crashed(s, l), x)
            == Running(s.procs, x) + P.Has(Started(s, l), x)
  {
    match l
    case OfProc(pid, act) => hide Running, DoProc, Answered, Crashed, Started; ProcRuns(s, pid, act, x);
    case OfManager(b, act) =>
      ManagerRunsNone(s, b, act, x);
      ManagerRuns(s, b, act);
      hide MayManager, ProcsAfter, UsersAfter, M.Apply, ManagerEvent, Running;
    case OfGroup(_, _) => hide Running, G.Apply;
    case _ => hide Running, ContractKey, M.Apply;
  }

  // ----- runs -----

  /** The things that can happen to a transaction at a step. */
  datatype Fate = Start | Answer | Crash | Fail

  function At(f: Fate, s: Sys, l: Label): Option<Tx> {
    match f
    case Start => Started(s, l)
    case Answer => Answered(s, l)
    case Crash => Crashed(s, l)
    case Fail => Failing(s, l)
  }

  /** How often it happens in a run. */
  ghost function Times(f: Fate, s: Sys, ls: seq<Label>, x: Tx): nat
    requires Possible(s, ls)
    decreases |ls|
  {
    if ls == [] then 0 else P.Has(At(f, s, ls[0]), x) + Times(f, Next(s, ls[0]), ls[1..], x)
  }

  lemma {:induction false} RunSandboxes(s: Sys, ls: seq<Label>, x: Tx)
    requires Possible(s, ls)
    ensures Running(After(s, ls).procs, x) + Times(Answer, s, ls, x) + Times(Crash, s, ls, x)
            == Running(s.procs, x) + Times(Start, s, ls, x)
    decreases |ls|
  {
    hide May, Next, Running, P.Has, Started, Answered, Crashed, Failing;
    if ls != [] {
      StepRuns(s, ls[0], x);
      RunSandboxes(Next(s, ls[0]), ls[1..], x);
    }
  }

  /** Errors for the chain, forwarded or not. */
  function Errors(s: Sys, x: Tx): nat {
    Count(s.sched.errs, x) + Count(s.past.failed, x)
  }

  lemma StepCounts(s: Sys, l: Label, x: Tx)
    requires May(s, l)
    ensures Errors(Next(s, l), x) == Errors(s, x) + P.Has(Failing(s, l), x)
    ensures Count(Next(s, l).past.answered, x) == Count(s.past.answered, x) + P.Has(Answered(s, l), x)
  {
    StepCaused(s, l);
    var r := Next(s, l);
    hide May, Next, Failing, Answered, Dropped, Returned, Opt, Count, P.Has;
    AppendOpt(s.past.answered, Answered(s, l), x);
    if l.Forward? {
      ForwardCounts(s.sched.errs, s.past.failed, x);
      NotFailing(s, l);
    } else {
      AppendOpt(s.sched.errs, Failing(s, l), x);
      assert s.past.failed + [] == s.past.failed;
    }
  }

  lemma NotFailing(s: Sys, l: Label)
    requires l.Forward?
    ensures Failing(s, l) == None
    ensures forall x :: P.Has(Failing(s, l), x) == 0
  {
  }

  lemma ForwardCounts(errs: seq<Tx>, failed: seq<Tx>, x: Tx)
    requires errs != []
    ensures Count(errs[1..], x) + Count(failed + [errs[0]], x) == Count(errs, x) + Count(failed, x)
  {
    CountOne(errs[0], x);
    CountAppend(failed, [errs[0]], x);
  }

  /** The errors and answers of a run are its failing and answering steps. */
  lemma {:induction false} RunCounts(s: Sys, ls: seq<Label>, x: Tx)
    requires Possible(s, ls)
    ensures Errors(After(s, ls), x) == Errors(s, x) + Times(Fail, s, ls, x)
    ensures Count(After(s, ls).past.answered, x) == Count(s.past.answered, x) + Times(Answer, s, ls, x)
    decreases |ls|
  {
    hide May, Next, P.Has, Started, Answered, Crashed, Failing, Errors, Count;
    if ls != [] {
      StepCounts(s, ls[0], x);
      RunCounts(Next(s, ls[0]), ls[1..], x);
    }
  }

  /** A crash is a failure. */
  lemma {:induction false} CrashesFail(s: Sys, ls: seq<Label>, x: Tx)
    requires Possible(s, ls)
    ensures Times(Crash, s, ls, x) <= Times(Fail, s, ls, x)
    decreases |ls|
  {
    if ls != [] {
      CrashesFail(Next(s, ls[0]), ls[1..], x);
      hide May, Next, Crashed;
    }
  }

  /** A process holds what it runs and what its idle listener has in hand. */
  lemma {:induction false} HeldRunning(procs: seq<P.Proc>, x: Tx)
    ensures Running(procs, x) <= InProcs(procs, x)
  {
    if procs != [] {
      HeldRunning(procs[1..], x);
    }
  }

  /** Where a transaction is that has not been started: at the scheduler, in a group, or in an idle listener's hand. */
  function Pending(s: Sys, x: Tx): int {
    Count(s.sched.txCh, x) + InGroups(s.groups, x) + InProcs(s.procs, x) - Running(s.procs, x)
  }

  /** The balance of a run from the start. */
  lemma Balance(limit: nat, maxOrig: nat, rate: real, uids: seq<nat>, ls: seq<Label>, x: Tx)
    requires Configured(limit, maxOrig, uids) && Possible(Initial(limit, maxOrig, rate, uids), ls)
    ensures var s0 := Initial(limit, maxOrig, rate, uids); var s := After(s0, ls);
            && Count(s.past.accepted, x)
               == Pending(s, x) + Running(s.procs, x) + Errors(s, x) + Count(s.past.answered, x)
                  + Count(s.past.expired, x)
            && Times(Start, s0, ls, x) == Running(s.procs, x) + Count(s.past.answered, x) + Times(Crash, s0, ls, x)
            && Times(Crash, s0, ls, x) <= Times(Fail, s0, ls, x) == Errors(s, x) && Pending(s, x) >= 0
  {
    var s0 := Initial(limit, maxOrig, rate, uids);
    NothingLostOrDuplicated(limit, maxOrig, rate, uids, ls, x);
    RunSandboxes(s0, ls, x);
    RunCounts(s0, ls, x);
    CrashesFail(s0, ls, x);
    HeldRunning(After(s0, ls).procs, x);
    hide Possible, After, Times, Configured;
  }

  /** At most once: in every run a transaction is sent to a sandbox no more often than it was accepted, and as often as
      it was answered, crashed its sandbox or is still running. */
  lemma StartedAtMostOnce(limit: nat, maxOrig: nat, rate: real, uids: seq<nat>, ls: seq<Label>, x: Tx)
    requires Configured(limit, maxOrig, uids) && Possible(Initial(limit, maxOrig, rate, uids), ls)
    ensures var s0 := Initial(limit, maxOrig, rate, uids); var s := After(s0, ls);
            && Times(Start, s0, ls, x) <= Count(s.past.accepted, x)
            && Times(Start, s0, ls, x) == Running(s.procs, x) + Count(s.past.answered, x) + Times(Crash, s0, ls, x)
  {
    Balance(limit, maxOrig, rate, uids, ls, x);
    hide Possible, After, Times, Configured, Pending;
  }

  /** A transaction accepted once whose sandbox exited while it ran ends as one error for the chain, and is nowhere
      else. */
  lemma CrashIsOneError(limit: nat, maxOrig: nat, rate: real, uids: seq<nat>, ls: seq<Label>, x: Tx)
    requires Configured(limit, maxOrig, uids) && Possible(Initial(limit, maxOrig, rate, uids), ls)
    requires var s0 := Initial(limit, maxOrig, rate, uids);
             Times(Crash, s0, ls, x) > 0 && Count(After(s0, ls).past.accepted, x) == 1
    ensures var s := After(Initial(limit, maxOrig, rate, uids), ls);
            && Count(s.sched.errs, x) + Count(s.past.failed, x) == 1
            && Count(s.past.answered, x) == 0 && Count(s.past.expired, x) == 0 && Running(s.procs, x) == 0
            && Count(s.sched.txCh, x) == 0 && InGroups(s.groups, x) == 0 && InProcs(s.procs, x) == 0
  {
    Balance(limit, maxOrig, rate, uids, ls, x);
    hide Possible, After, Times, Configured;
  }

  lemma ReturnedPending(s: Sys, l: Label, x: Tx)
    requires May(s, l) && Returned(s, l) == Some(x)
    ensures Pending(s, x) >= 1
  {
    var p := s.procs[l.pid];
    HeldRunning(s.procs, x);
    if l.pa.IdleReturn? {
      HandPending(s.procs, l.pid, x);
    } else {
      HeadPending(s, Source(p, l.pa), p.isOrig, x);
    }
    hide May, Running, InProcs;
  }

  lemma {:induction false} HandPending(procs: seq<P.Proc>, i: nat, x: Tx)
    requires i < |procs| && procs[i].holding == Some(x)
    ensures InProcs(procs, x) - Running(procs, x) >= 1
  {
    HeldRunning(procs[1..], x);
    if i > 0 {
      HandPending(procs[1..], i - 1, x);
    }
  }

  lemma HeadPending(s: Sys, g: nat, isOrig: bool, x: Tx)
    requires Head(QueueOf(s, g, isOrig)) == Some(x)
    ensures InGroups(s.groups, x) >= 1
  {
    GroupsAtLeast(s.groups, g, x);
    var q := QueueOf(s, g, isOrig);
    assert Count(q, x) >= 1;
  }

  lemma {:induction false} GroupsAtLeast(groups: seq<G.Group>, i: nat, x: Tx)
    requires i < |groups|
    ensures InGroups(groups, x) >= InGroup(groups[i], x)
  {
    if i > 0 {
      GroupsAtLeast(groups[1..], i - 1, x);
    }
  }

  /** Only the idle hand-back and a missing contract file give a transaction back, and one accepted once had not been
      started then. */
  lemma ReturnedUnstarted(limit: nat, maxOrig: nat, rate: real, uids: seq<nat>, ls: seq<Label>, l: Label, x: Tx)
    requires Configured(limit, maxOrig, uids) && Possible(Initial(limit, maxOrig, rate, uids), ls)
    requires var s := After(Initial(limit, maxOrig, rate, uids), ls);
             May(s, l) && Returned(s, l) == Some(x) && Count(s.past.accepted, x) == 1
    ensures Times(Start, Initial(limit, maxOrig, rate, uids), ls, x) == 0
    ensures l.OfProc? && (l.pa.IdleReturn? || (l.pa.Exit? && l.pa.cause == P.Missing))
  {
    Balance(limit, maxOrig, rate, uids, ls, x);
    ReturnedPending(After(Initial(limit, maxOrig, rate, uids), ls), l, x);
    hide Possible, After, Times, Configured, Pending, May;
  }

  /** The k-th step of the run fails the transaction. */
  ghost predicate FailsAt(s: Sys, ls: seq<Label>, k: nat, x: Tx) {
    k < |ls| && Possible(s, ls[..k]) && Failing(After(s, ls[..k]), ls[k]) == Some(x)
  }

  lemma {:induction false} FindFailure(s: Sys, ls: seq<Label>, x: Tx) returns (k: nat)
    requires Possible(s, ls) && Times(Fail, s, ls, x) > 0
    ensures FailsAt(s, ls, k, x) && Possible(s, ls[..k]) && After(s, ls[..k]).limit == s.limit
    decreases |ls|
  {
    LimitStays(s, ls[0]);
    hide May, Next, Failing;
    if Failing(s, ls[0]) == Some(x) {
      k := 0;
      assert ls[..0] == [];
    } else {
      k := FindFailure(Next(s, ls[0]), ls[1..], x);
      assert ls[..k + 1][1..] == ls[1..][..k];
      k := k + 1;
    }
  }

  lemma LimitStays(s: Sys, l: Label)
    requires May(s, l)
    ensures Next(s, l).limit == s.limit
  {
    if l.OfManager? {
      ManagerRuns(s, l.isOrig, l.ma);
    }
    hide MayManager, M.Apply, ManagerEvent, ProcsAfter, UsersAfter, ContractKey, G.Apply, P.Apply;
  }

  /** In every run an error for a transaction within the call depth comes from a step at which its contract could not be
      loaded or executed, it had waited too long, or its sandbox exited. */
  lemma WithinDepthFailsOnly(limit: nat, maxOrig: nat, rate: real, uids: seq<nat>, ls: seq<Label>, x: Tx)
    returns (k: nat)
    requires Configured(limit, maxOrig, uids) && Possible(Initial(limit, maxOrig, rate, uids), ls)
    requires x.depth <= limit && Errors(After(Initial(limit, maxOrig, rate, uids), ls), x) > 0
    ensures var s0 := Initial(limit, maxOrig, rate, uids);
            k < |ls| && Possible(s0, ls[..k])
            && var s := After(s0, ls[..k]); var l := ls[k];
               || Unloaded(s, l) == Some(x) || Unexecutable(s, l) == Some(x) || Late(s, l) == Some(x)
               || Crashed(s, l) == Some(x)
  {
    var s0 := Initial(limit, maxOrig, rate, uids);
    RunCounts(s0, ls, x);
    k := FindFailure(s0, ls, x);
    hide Possible, After, Times, Configured, Unloaded, Unexecutable, Late, Crashed;
  }
}
