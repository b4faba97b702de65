/**
 When a process of the engine loses its timeout: a live process that listens or runs
 a transaction has a timer armed or a tick pending, unless the popTimer that a
 sandbox change left behind has cancelled it.
 */
module EngineTimeouts {
  import opened EngineModel
  import opened EngineSafety
  import opened EngineSteps
  import C = EngineComponents
  import M = ManagerModel
  import P = ProcessModel

  /** The step is a late popTimer of a live process that listens or is busy. */
  ghost predicate Cancels(s: Sys, l: Label, pid: nat) {
    && l == OfProc(pid, Plain(P.LatePop)) && pid < |s.procs|
    && (s.procs[pid].state == P.Listening || s.procs[pid].state == P.Busy) && !s.procs[pid].done
  }

  lemma ProcTimeout(s: Sys, pid: nat, act: ProcAct)
    requires Wired(s) && MayProc(s, pid, act) && P.Disciplined(s.procs[pid]) && P.Timed(s.procs[pid])
    ensures !P.Timed(P.Apply(s.procs[pid], ProcEvent(s, s.procs[pid], act)).0) <==> Cancels(s, OfProc(pid, act), pid)
  {
    P.TimeoutLostExactly(s.procs[pid], ProcEvent(s, s.procs[pid], act));
    if act.ReadyTimeout? {
      TimeoutMoves(s, pid);
    }
    hide Wired, P.Apply, P.Timed, P.Disciplined;
  }

  lemma ManagerTimeout(s: Sys, isOrig: bool, act: ManagerAct, pid: nat)
    requires MayManager(s, isOrig, act) && (pid < |s.procs| ==> P.Timed(s.procs[pid]))
    requires pid < |ProcsAfter(s, isOrig, act)|
    ensures P.Timed(ProcsAfter(s, isOrig, act)[pid])
  {
    hide M.SameContract;
  }

  /** A step of the engine takes a process's timeout away exactly when it is such a late popTimer. */
  lemma StepTimeout(s: Sys, l: Label, pid: nat)
    requires Wired(s) && C.Timed(s) && May(s, l) && (pid < |s.procs| ==> P.Timed(s.procs[pid])) &&
      pid < |Next(s, l).procs|
    ensures !P.Timed(Next(s, l).procs[pid]) <==> Cancels(s, l, pid)
  {
    match l
    case OfManager(b, act) =>
      ManagerTimeout(s, b, act, pid);
      ManagerRuns(s, b, act);
      hide Wired, MayManager, ProcsAfter, UsersAfter, M.Apply, ManagerEvent, P.Timed;
    case OfProc(i, act) =>
      if i == pid {
        ProcTimeout(s, pid, act);
      }
      ProcShape(s, i, act);
      hide Wired, DoProc, MayProc, P.Apply, P.Timed, ProcEvent;
    case _ => hide Wired, P.Timed;
  }

  /** The k-th step of the run is one. */
  ghost predicate CancelledAt(s: Sys, ls: seq<Label>, k: nat, pid: nat) {
    k < |ls| && Possible(s, ls[..k]) && Cancels(After(s, ls[..k]), ls[k], pid)
  }

  lemma {:induction false} RunTimeout(s: Sys, ls: seq<Label>, pid: nat) returns (k: nat)
    requires Wired(s) && C.Timed(s) && Possible(s, ls) && (pid < |s.procs| ==> P.Timed(s.procs[pid]))
    requires pid < |After(s, ls).procs| && !P.Timed(After(s, ls).procs[pid])
    ensures CancelledAt(s, ls, k, pid)
    decreases |ls|
  {
    hide Wired, C.Timed, May, Next, P.Timed, Cancels;
    var r := Next(s, ls[0]);
    if pid < |r.procs| {
      StepTimeout(s, ls[0], pid);
    }
    if pid < |r.procs| && !P.Timed(r.procs[pid]) {
      k := 0;
      assert ls[..0] == [];
    } else {
      StepWired(s, ls[0]);
      C.StepTimes(s, ls[0]);
      k := RunTimeout(r, ls[1..], pid);
      assert ls[..k + 1][1..] == ls[1..][..k];
      k := k + 1;
    }
  }

  /** In every run of the engine: a live process that listens or is busy and has no timeout has had it cancelled by a
      late popTimer. */
  lemma LostByLatePop(limit: nat, maxOrig: nat, rate: real, uids: seq<nat>, ls: seq<Label>, pid: nat) returns (k: nat)
    requires Configured(limit, maxOrig, uids) && Possible(Initial(limit, maxOrig, rate, uids), ls)
    requires var s := After(Initial(limit, maxOrig, rate, uids), ls); pid < |s.procs| && !P.Timed(s.procs[pid])
    ensures CancelledAt(Initial(limit, maxOrig, rate, uids), ls, k, pid)
  {
    InitialWired(limit, maxOrig, rate, uids);
    k := RunTimeout(Initial(limit, maxOrig, rate, uids), ls, pid);
  }
}
