/**
 A manager's handler never gets stuck: whatever it still has to do, it can go on by
 itself, whether or not processes agree, and it ends.  In particular it never waits
 for a user while it holds the manager lock.
 */
module EngineProgress {
  import opened Basics
  import opened Keys
  import opened EngineModel
  import opened EngineWiring
  import opened EngineSafety
  import opened EngineSteps
  import G = GroupModel
  import M = ManagerModel
  import I = ManagerIndexes
  import P = ProcessModel
  import F = FixedFifo

  /** Steps that a handler has left at most. */
  function Left(job: M.Job): nat {
    match job
    case NoJob => 0
    case Creating(_, _, need, left) => left + need + 3
    case Reusing(_, _, _, picks) => |picks| + 1
    case Cleaning(victims, _) => |victims| + 1
    case Pairing(pairs) => |pairs| + 1
    case Launching(todo) => |todo| + 1
  }

  /** The next step of a handler, if no process agrees to anything. */
  function NextAct(job: M.Job): ManagerAct
    requires !job.NoJob?
  {
    match job
    case Creating(_, _, _, left) => if left > 0 then Create else Inner(M.BeginReuse)
    case Reusing(_, _, _, picks) => if picks != [] then Reuse(0, false) else Inner(M.EndRequest)
    case Cleaning(victims, _) => if victims != [] then CloseIdle(0, false) else Inner(M.EndClean)
    case Pairing(pairs) => if pairs != [] then Hand(0, false) else Inner(M.EndIdle)
    case Launching(todo) => if todo != [] then Launch(0) else Inner(M.EndNew)
  }

  /** What a handler that creates no process needs for its next step is at hand. */
  lemma ItemsGoOn(s: Sys, isOrig: bool)
    requires var m := Mgr(s, isOrig);
             && !m.job.NoJob? && !CreatesNext(m.job) && m.serial + 1 < TWO_64
             && I.JobFits(m.job, m.t, M.Available(m)) && I.JobKnown(m.job, |m.known|)
    ensures MayManager(s, isOrig, NextAct(Mgr(s, isOrig).job))
  {
    var m := Mgr(s, isOrig);
    hide F.Take;
    match m.job
    case Reusing(_, _, need, picks) => assert |picks| <= need && (picks != [] ==> picks[0] in picks);
    case Cleaning(victims, _) => assert victims != [] ==> victims[0] in victims;
    case _ =>
  }

  /** A handler that creates a process gets its user. */
  lemma CreationGoesOn(s: Sys, isOrig: bool)
    requires Wired(s) && CreatesNext(Mgr(s, isOrig).job) && Mgr(s, isOrig).serial + 1 < TWO_64
    ensures MayManager(s, isOrig, NextAct(Mgr(s, isOrig).job))
  {
    var m := Mgr(s, isOrig);
    HandlerFits(s, isOrig);
    hide Wired, F.Take;
    SlotHasUser(s, isOrig);
    if m.job.Launching? {
      assert m.job.todo[0] in m.job.todo;
    }
  }

  lemma HandlerFits(s: Sys, isOrig: bool)
    requires Wired(s)
    ensures var m := Mgr(s, isOrig); I.JobFits(m.job, m.t, M.Available(m)) && I.JobKnown(m.job, |m.known|)
  {
    WiredSides(s, isOrig);
    hide Linked, Pool, I.JobFits, I.JobKnown;
  }

  lemma CanGoOn(s: Sys, isOrig: bool)
    requires Wired(s) && !Mgr(s, isOrig).job.NoJob? && Mgr(s, isOrig).serial + 1 < TWO_64
    ensures MayManager(s, isOrig, NextAct(Mgr(s, isOrig).job))
  {
    hide *;
    if CreatesNext(Mgr(s, isOrig).job) {
      CreationGoesOn(s, isOrig);
    } else {
      HandlerFits(s, isOrig);
      ItemsGoOn(s, isOrig);
    }
  }

  /** Events of others that may come while a handler holds the lock. */
  predicate Outside(ev: M.Event) {
    ev.Learn? || ev.Ask? || ev.ReportExit? || ev.Deliver?
  }

  ghost predicate Shortens(m: M.Manager, r: M.Manager) {
    Left(r.job) < Left(m.job) && r.serial <= m.serial + 1
  }

  lemma RequestShortens(m: M.Manager, ev: M.Event)
    requires M.Enabled(m, ev) && M.Runnable(m, ev) && (m.job.Creating? || m.job.Reusing?) && !Outside(ev)
    ensures Shortens(m, M.Apply(m, ev))
  {
    hide M.Insert, M.Wake, M.Send, M.SameContract;
  }

  /** Whichever item a running handler takes next, and whatever comes of it, less is left. */
  lemma EventShortens(m: M.Manager, ev: M.Event)
    requires M.Enabled(m, ev) && M.Runnable(m, ev) && !m.job.NoJob?
    ensures if Outside(ev) then M.Apply(m, ev).job == m.job else Shortens(m, M.Apply(m, ev))
  {
    if (m.job.Creating? || m.job.Reusing?) && !Outside(ev) {
      hide *;
      RequestShortens(m, ev);
    } else {
      hide M.Insert, M.Wake, M.Send, M.SameContract, M.Transfer, M.AfterDelete, M.Delete;
    }
  }

  lemma ManagerShortens(s: Sys, isOrig: bool, act: ManagerAct)
    requires Wired(s) && MayManager(s, isOrig, act) && !Mgr(s, isOrig).job.NoJob?
    ensures Shortens(Mgr(s, isOrig), Mgr(DoManager(s, isOrig, act), isOrig))
  {
    ManagerEnabled(s, isOrig, act);
    assert !Outside(ManagerEvent(s, isOrig, act));
    hide Wired, MayManager, M.Apply, M.Runnable, M.Enabled, ManagerEvent, UsersAfter, ProcsAfter, Left;
    EventShortens(Mgr(s, isOrig), ManagerEvent(s, isOrig, act));
  }

  /** A process waits for the lock before it changes anything that the handler works on. */
  lemma ProcLeavesJob(s: Sys, pid: nat, act: ProcAct, b: bool)
    requires MayProc(s, pid, act)
    ensures Mgr(DoProc(s, pid, act), b).job == Mgr(s, b).job
  {
    ProcShape(s, pid, act);
    hide DoProc, MayProc, P.Apply, ProcEvent, GroupsAfterProc;
  }

  /** Every step of a running handler, in whatever order and with whatever outcome, shortens its work; no other step of
      the engine touches it. */
  lemma StepShortens(s: Sys, l: Label, b: bool)
    requires Wired(s) && May(s, l) && !Mgr(s, b).job.NoJob?
    ensures if l.OfManager? && l.isOrig == b then Shortens(Mgr(s, b), Mgr(Next(s, l), b))
            else Mgr(Next(s, l), b).job == Mgr(s, b).job
  {
    match l
    case OfManager(c, act) =>
      if c == b {
        hide DoManager, Shortens, Wired;
        ManagerShortens(s, c, act);
      } else {
        ManagerRuns(s, c, act);
        hide Wired, MayManager, M.Apply, ManagerEvent, ProcsAfter, UsersAfter;
      }
    case OfProc(pid, act) => hide Wired, DoProc; ProcLeavesJob(s, pid, act, b);
    case OfGroup(_, _) => hide Wired, G.Apply, GroupEvent;
    case _ => hide Wired, ContractKey;
  }

  /** The handler is at work before every step of the run. */
  ghost predicate AtWork(s: Sys, ls: seq<Label>, b: bool)
    requires Possible(s, ls)
    decreases |ls|
  {
    ls == [] || (!Mgr(s, b).job.NoJob? && AtWork(Next(s, ls[0]), ls[1..], b))
  }

  /** How many steps of the run are that manager's. */
  function OwnSteps(ls: seq<Label>, b: bool): nat {
    if ls == [] then 0 else OwnSteps(ls[1..], b) + if ls[0].OfManager? && ls[0].isOrig == b then 1 else 0
  }

  /** However a handler's steps are ordered and whatever comes of them, it takes no more of them than it has left. */
  lemma {:induction false} EveryOrderEnds(s: Sys, ls: seq<Label>, b: bool)
    requires Wired(s) && Possible(s, ls) && AtWork(s, ls, b)
    ensures OwnSteps(ls, b) + Left(Mgr(After(s, ls), b).job) <= Left(Mgr(s, b).job)
    decreases |ls|
  {
    hide Wired, May, Next, Mgr, Left;
    if ls != [] {
      StepShortens(s, ls[0], b);
      StepWired(s, ls[0]);
      EveryOrderEnds(Next(s, ls[0]), ls[1..], b);
    }
  }

  /** One step of a running handler. */
  lemma HandlerStep(s: Sys, isOrig: bool) returns (l: Label)
    requires Wired(s) && !Mgr(s, isOrig).job.NoJob? && Mgr(s, isOrig).serial + 1 < TWO_64
    ensures l.OfManager? && l.isOrig == isOrig && May(s, l) && Wired(Next(s, l))
    ensures Left(Mgr(Next(s, l), isOrig).job) < Left(Mgr(s, isOrig).job)
    ensures Mgr(Next(s, l), isOrig).serial <= Mgr(s, isOrig).serial + 1
  {
    HandlerFits(s, isOrig);
    hide Wired, DoManager, MayManager, Left, NextAct;
    CanGoOn(s, isOrig);
    ManagerShortens(s, isOrig, NextAct(Mgr(s, isOrig).job));
    l := OfManager(isOrig, NextAct(Mgr(s, isOrig).job));
    StepWired(s, l);
  }

  /** The handler that is running ends within the steps it has left. */
  lemma {:induction false} HandlerEnds(s: Sys, isOrig: bool) returns (ls: seq<Label>)
    requires Wired(s) && Mgr(s, isOrig).serial + Left(Mgr(s, isOrig).job) < TWO_64
    ensures Possible(s, ls) && Mgr(After(s, ls), isOrig).job.NoJob? && |ls| <= Left(Mgr(s, isOrig).job)
    ensures forall i :: 0 <= i < |ls| ==> ls[i].OfManager? && ls[i].isOrig == isOrig
    decreases Left(Mgr(s, isOrig).job)
  {
    hide Wired, May, Next, Mgr;
    if Mgr(s, isOrig).job.NoJob? {
      ls := [];
    } else {
      var l := HandlerStep(s, isOrig);
      var rest := HandlerEnds(Next(s, l), isOrig);
      ls := [l] + rest;
      assert ls[1..] == rest;
    }
  }

  /** In every run: whatever handlers are running, each can end by itself, and does so within its remaining steps,
      however these are ordered and whatever comes of them. */
  lemma HandlersEnd(limit: nat, maxOrig: nat, rate: real, uids: seq<nat>, run: seq<Label>, isOrig: bool)
      returns (ls: seq<Label>)
    requires Configured(limit, maxOrig, uids) && Possible(Initial(limit, maxOrig, rate, uids), run)
    requires var m := Mgr(After(Initial(limit, maxOrig, rate, uids), run), isOrig); m.serial + Left(m.job) < TWO_64
    ensures var s := After(Initial(limit, maxOrig, rate, uids), run);
            && Possible(s, ls) && Mgr(After(s, ls), isOrig).job.NoJob? && |ls| <= Left(Mgr(s, isOrig).job)
            && (forall i :: 0 <= i < |ls| ==> ls[i].OfManager? && ls[i].isOrig == isOrig)
            && (forall other :: Possible(s, other) && AtWork(s, other, isOrig) ==>
                  OwnSteps(other, isOrig) <= Left(Mgr(s, isOrig).job))
  {
    InitialWired(limit, maxOrig, rate, uids);
    RunWired(Initial(limit, maxOrig, rate, uids), run);
    var s := After(Initial(limit, maxOrig, rate, uids), run);
    hide Wired, Possible;
    ls := HandlerEnds(s, isOrig);
    forall other | Possible(s, other) && AtWork(s, other, isOrig)
      ensures OwnSteps(other, isOrig) <= Left(Mgr(s, isOrig).job)
    {
      EveryOrderEnds(s, other, isOrig);
    }
  }
}
