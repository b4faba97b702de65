/**
 The process as an object: state, last transaction, timer and names are updated in
 place by the listener's handlers, by the manager's two calls and by the stream.
 */
module Processes {
  import opened Basics
  import opened Transactions
  import opened ProcessModel

  class Process {
    var processName: nat
    var requestGroup: nat
    const user: nat
    const isOrigProcess: bool
    var processState: State
    var tx: Option<Tx>
    var idleOn: Option<nat>
    var holding: Option<Tx>
    var timerArmed: bool
    var timerTick: bool
    var timerPopped: bool
    var timerSince: State
    var owing: bool
    var latePops: nat
    var done: bool

    ghost function Timer(): Clock
      reads this
    {
      Clock(timerArmed, timerTick, timerPopped, timerSince)
    }

    ghost function View(): Proc
      reads this
    {
      Proc(processName, requestGroup, user, isOrigProcess, processState, tx, idleOn, holding, Timer(), owing,
           latePops, done)
    }

    constructor (name: nat, group: nat, uid: nat, orig: bool)
      ensures View() == NewProc(name, group, uid, orig)
    {
      processName, requestGroup, user, isOrigProcess := name, group, uid, orig;
      processState, tx, idleOn, holding := Created, None, None, None;
      timerArmed, timerTick, timerPopped, timerSince := true, false, false, Created;
      owing, latePops, done := false, 0, false;
    }

    /** popTimer: stops the timer, or takes its tick unless that was received before. */
    method PopTimer()
      requires !PopBlocks(Timer())
      modifies `timerArmed, `timerTick
      ensures Timer() == Pop(old(Timer()))
    {
      if timerArmed {
        timerArmed := false;
      } else if !timerPopped {
        timerTick := false;
      }
    }

    /** updateProcessState, with the timers of ready and busy. */
    method UpdateProcessState(s: State)
      requires !PopBlocks(Timer())
      modifies `processState, `timerArmed, `timerTick, `timerPopped, `timerSince
      ensures View() == Enter(old(View()), s)
    {
      processState := s;
      if s == Listening || s == Busy {
        PopTimer();
        timerArmed, timerPopped, timerSince := true, false, s;
      }
    }

    method SetStream()
      requires Enabled(View(), Register) && Disciplined(View())
      modifies this
      ensures (View(), NOTHING) == Apply(old(View()), Register)
    {
      UpdateProcessState(Listening);
    }

    /** ChangeSandbox: refused unless idle. */
    method ChangeSandbox(name: nat, group: nat) returns (ok: bool)
      requires !done && Disciplined(View())
      modifies this
      ensures ok == old(Enabled(View(), Change(name, group)))
      ensures View() == if ok then Apply(old(View()), Change(name, group)).0 else old(View())
    {
      if processState != Idle {
        return false;
      }
      processName, requestGroup := name, group;
      UpdateProcessState(Changing);
      return true;
    }

    method CloseSandbox() returns (ok: bool)
      requires !done && Disciplined(View())
      modifies this
      ensures ok == old(Enabled(View(), Close))
      ensures View() == if ok then Apply(old(View()), Close).0 else old(View())
    {
      if processState != Idle {
        return false;
      }
      UpdateProcessState(Closing);
      return true;
    }

    method HandleTxRequest(t: Tx, age: Age) returns (e: Effects)
      requires Enabled(View(), TakeTx(t, age)) && Disciplined(View())
      modifies this
      ensures (View(), e) == Apply(old(View()), TakeTx(t, age))
    {
      if age.Expired? {
        return NOTHING.(expired := Some(t));
      } else if age.Late? {
        return NOTHING.(failed := Some(t));
      }
      tx := Some(t);
      UpdateProcessState(Busy);
      return NOTHING;
    }

    method HandleTxResp() returns (e: Effects)
      requires Enabled(View(), Respond) && Disciplined(View())
      modifies this
      ensures (View(), e) == Apply(old(View()), Respond)
    {
      e := NOTHING.(answered := tx);
      UpdateProcessState(Listening);
    }

    /** handleTimeout; `moved`: ChangeProcessState succeeded. */
    method HandleTimeout(moved: bool)
      requires Enabled(View(), Tick(moved)) && Disciplined(View())
      modifies this
      ensures (View(), NOTHING) == Apply(old(View()), Tick(moved))
    {
      timerTick, timerPopped := false, true;
      if processState == Busy {
        UpdateProcessState(TimedOut);
      } else if moved {
        UpdateProcessState(Idle);
        idleOn := Some(requestGroup);
      }
    }

    /** handleIdleTxRequest after ChangeProcessState: the transaction goes back to the scheduler in any case. */
    method ReturnIdleTx(moved: bool) returns (e: Effects)
      requires Enabled(View(), IdleReturn(moved)) && Disciplined(View())
      modifies this
      ensures (View(), e) == Apply(old(View()), IdleReturn(moved))
    {
      e := NOTHING.(requeued := holding);
      holding := None;
      if moved {
        UpdateProcessState(Listening);
      } else {
        idleOn := if processState == Idle then Some(requestGroup) else None;
      }
    }

    /** The deferred popTimer and timerPopped := true. */
    method SettleTimer()
      requires !PopBlocks(Timer())
      modifies `timerArmed, `timerTick, `timerPopped
      ensures View() == Settle(old(View()))
    {
      PopTimer();
      timerPopped := true;
    }

    /** The sandbox could not be started: the oldest queued transaction fails or goes back. */
    method HandleLaunchFailure(cause: Cause, next: Option<Tx>) returns (e: Effects)
      requires Enabled(View(), Exit(cause, next)) && Disciplined(View()) && cause != Other && idleOn.None?
      modifies this
      ensures (View(), e) == DoExit(old(View()), cause, next)
    {
      hide Settle, Enter;
      tx, done := if next.Some? then next else tx, true;
      e := NOTHING.(exit := true, bad := next.Some?);
      e := if cause == ExecFailed then e.(failed := next) else e.(requeued := next);
      SettleTimer();
    }

    /** A running sandbox exited: the state decides.  After a change the listener is started again, and its popTimer
        runs only after the new sandbox's exit. */
    method HandleRunningExit() returns (e: Effects)
      requires Enabled(View(), Exit(Other, None)) && Disciplined(View()) && idleOn.None?
      modifies this
      ensures (View(), e) == DoExit(old(View()), Other, None)
    {
      hide Settle, Enter;
      e := NOTHING;
      var was := processState;
      if was == Busy || was == Changing || was == TimedOut {
        KeepsTimer(View());
        UpdateProcessState(Created);
      }
      if was == Changing {
        owing := true;
        return;
      }
      done := was != Created || done;
      e := e.(exit := was != Created && was != Closing, failed := if was == Busy || was == TimedOut then tx else None,
              bad := (was == Listening || was == Busy) && tx.Some? && tx.value.admin);
      SettleTimer();
    }

    /** handleProcessExit. */
    method HandleProcessExit(cause: Cause, next: Option<Tx>) returns (e: Effects)
      requires Enabled(View(), Exit(cause, next)) && Disciplined(View())
      modifies this
      ensures (View(), e) == Apply(old(View()), Exit(cause, next))
    {
      hide DoExit;
      idleOn := None;
      if owing {
        owing, latePops := false, latePops + 1;
      }
      if cause != Other {
        e := HandleLaunchFailure(cause, next);
      } else {
        e := HandleRunningExit();
      }
    }
  }

  lemma KeepsTimer(p: Proc)
    ensures Enter(p, Created) == p.(state := Created)
  {
  }
}
