/**
 The request group as an object: its handlers update the loader state, the buffer,
 the two queues and the two flags in place.  What a handler sends is its result: the
 group's part of `Out`.
 */
module RequestGroups {
  import opened Keys
  import opened Transactions
  import opened GroupModel

  class RequestGroup {
    const key: GroupKey
    var contractState: Load
    var timerArmed: bool
    var timerTick: bool
    var contractFileVersion: int
    var txCh: seq<Msg>
    var badCh: seq<int>
    var bufCh: seq<Tx>
    var origTxCh: seq<Tx>
    var origWaiting: bool
    var crossTxCh: seq<Tx>
    var crossWaiting: bool
    var blocked: bool

    ghost function View(): Group
      reads this
    {
      Group(key, contractState, Timer(timerArmed, timerTick), contractFileVersion, txCh, badCh, bufCh,
            Controller(origTxCh, origWaiting), Controller(crossTxCh, crossWaiting), blocked)
    }

    constructor (groupKey: GroupKey)
      ensures View() == NewGroup(groupKey)
    {
      key, contractState, timerArmed, timerTick, contractFileVersion := groupKey, Empty, false, false, 0;
      txCh, badCh, bufCh, origTxCh, crossTxCh := [], [], [], [], [];
      origWaiting, crossWaiting, blocked := false, false, false;
    }

    method EnqueueCh(tx: Tx)
      modifies `origTxCh, `crossTxCh
      ensures View() == Enqueue(old(View()), tx)
    {
      if IsOrig(tx) {
        origTxCh := origTxCh + [tx];
      } else {
        crossTxCh := crossTxCh + [tx];
      }
    }

    /** updateControllerState. */
    method UpdateControllerState(isOrig: bool, waiting: bool)
      modifies `origWaiting, `crossWaiting
      ensures View() == WithCtl(old(View()), isOrig, Ctl(old(View()), isOrig).(waiting := waiting))
    {
      if isOrig {
        origWaiting := waiting;
      } else {
        crossWaiting := waiting;
      }
    }

    /** getProcesses: the number of processes asked for, zero for no request. */
    method GetProcesses(isOrig: bool, c: Counts) returns (ask: nat)
      modifies `origWaiting, `crossWaiting
      ensures Out(View(), if isOrig then ask else 0, if isOrig then 0 else ask, [], 0) ==
        GroupModel.GetProcesses(old(View()), isOrig, c)
    {
      var waiting, queued := if isOrig then origWaiting else crossWaiting, if isOrig then |origTxCh| else |crossTxCh|;
      if waiting || contractState != Ready {
        return 0;
      }
      var need := queued - (c.live - c.active);
      if need > 0 {
        UpdateControllerState(isOrig, true);
        return need;
      }
      return 0;
    }

    method SendGetContractReq()
      modifies `timerArmed, `contractState
      ensures View() == Request(old(View()))
    {
      timerArmed := true;
      contractState := Waiting;
    }

    method HandleTxReq(tx: Tx, limit: nat, c: Counts) returns (askOrig: nat, askCross: nat, errors: seq<Tx>, loads: nat)
      modifies this
      ensures Out(View(), askOrig, askCross, errors, loads) == HandleTx(old(View()), tx, limit, c)
    {
      askOrig, askCross, errors, loads := 0, 0, [], 0;
      match contractState
      case Empty =>
        bufCh := bufCh + [tx];
        SendGetContractReq();
        loads := 1;
      case Waiting =>
        bufCh := bufCh + [tx];
      case Ready =>
        if tx.depth > limit {
          return 0, 0, [tx], 0;
        }
        EnqueueCh(tx);
        var ask := GetProcesses(IsOrig(tx), c);
        askOrig, askCross := if IsOrig(tx) then ask else 0, if IsOrig(tx) then 0 else ask;
    }

    /** handleGetBytecodeErr: the first buffered transaction fails, the next one tries again; with an empty buffer the
        receive waits for ever. */
    method HandleGetBytecodeErr() returns (errors: seq<Tx>, loads: nat)
      modifies this
      ensures Out(View(), 0, 0, errors, loads) == HandleLoadError(old(View()))
    {
      contractState := Empty;
      if bufCh == [] {
        blocked := true;
        return [], 0;
      }
      errors, loads := [bufCh[0]], 0;
      bufCh := bufCh[1..];
      if |bufCh| > 0 {
        SendGetContractReq();
        loads := 1;
      }
    }

    /** The loop that moves the buffer to the queues. */
    method MoveTxs()
      modifies `bufCh, `origTxCh, `crossTxCh
      ensures View() == EnqueueAll(old(View()).(buf := []), old(bufCh))
    {
      ghost var start, all := View().(buf := []), bufCh;
      while bufCh != []
        invariant EnqueueAll(start, all) == EnqueueAll(View().(buf := []), bufCh)
        decreases |bufCh|
      {
        var tx := bufCh[0];
        bufCh := bufCh[1..];
        EnqueueCh(tx);
      }
    }

    method HandleContractReadyResp(ok: bool, now: int, co: Counts, cc: Counts)
      returns (askOrig: nat, askCross: nat, errors: seq<Tx>, loads: nat)
      modifies this
      ensures Out(View(), askOrig, askCross, errors, loads) == HandleCode(old(View()), ok, now, co, cc)
    {
      timerArmed, timerTick := false, false;
      if !ok {
        errors, loads := HandleGetBytecodeErr();
        return 0, 0, errors, loads;
      }
      contractState, contractFileVersion := Ready, now;
      hide EnqueueAll, GroupModel.GetProcesses;
      MoveTxs();
      askOrig := GetProcesses(true, co);
      askCross := GetProcesses(false, cc);
      errors, loads := [], 0;
    }

    method HandleProcessReadyResp(isOrig: bool, c: Counts) returns (ask: nat)
      modifies `origWaiting, `crossWaiting
      ensures Out(View(), if isOrig then ask else 0, if isOrig then 0 else ask, [], 0) ==
        HandleReady(old(View()), isOrig, c)
    {
      UpdateControllerState(isOrig, false);
      ask := GetProcesses(isOrig, c);
    }

    method HandleBadContractResp(version: int) returns (loads: nat)
      modifies this
      ensures Out(View(), 0, 0, [], loads) == HandleBad(old(View()), version)
    {
      if contractState != Ready || version != contractFileVersion {
        return 0;
      }
      contractState := Empty;
      if |origTxCh| > 0 || |crossTxCh| > 0 {
        SendGetContractReq();
        return 1;
      }
      return 0;
    }
  }
}
