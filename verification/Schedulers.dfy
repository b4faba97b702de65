/** The user manager and the request scheduler as objects. */
module Schedulers {
  import opened Keys
  import opened Transactions
  import F = FixedFifo
  import G = GroupModel
  import E = EngineModel
  import S = EngineSteps

  /** _baseUid. */
  const BASE_UID: nat := 10000

  function Uids(n: nat): (s: seq<nat>)
    ensures |s| == n && forall i :: 0 <= i < n ==> s[i] == BASE_UID + i
  {
    seq(n, i requires 0 <= i < n => BASE_UID + i)
  }

  class UserManager {
    const userQueue: F.FixedFIFO<nat>

    /** NewUsersManager and BatchCreateUsers, when every user can be created: the engine starts with exactly the users
        that its two managers can use. */
    constructor (maxOriginalProcessNum: nat, callContractDepth: nat)
      ensures fresh(userQueue)
      ensures var n := maxOriginalProcessNum * (callContractDepth + 1); userQueue.Contents() == F.Fifo(n, Uids(n), [])
      ensures S.Configured(callContractDepth, maxOriginalProcessNum, userQueue.Contents().queue)
    {
      var totalNum := maxOriginalProcessNum * (callContractDepth + 1);
      userQueue := new F.FixedFIFO(totalNum);
      new;
      for i := 0 to totalNum
        invariant userQueue.Contents() == F.Fifo(totalNum, Uids(totalNum)[..i], []) && fresh(userQueue)
      {
        var r := userQueue.Enqueue(BASE_UID + i);
        assert Uids(totalNum)[..i + 1] == Uids(totalNum)[..i] + [BASE_UID + i];
      }
      assert Uids(totalNum)[..totalNum] == Uids(totalNum);
    }

    method GetAvailableUser(ticket: nat) returns (r: F.TakeResult<nat>)
      modifies userQueue
      ensures (userQueue.Contents(), r) == F.Take(old(userQueue.Contents()), ticket)
    {
      r := userQueue.DequeueOrWaitForNextElement(ticket);
    }

    method FreeUser(user: nat) returns (ok: bool)
      modifies userQueue
      ensures userQueue.Contents() == F.Put(old(userQueue.Contents()), user).0
      ensures ok == E.Frees(old(userQueue.Contents()), user)
    {
      var r := userQueue.Enqueue(user);
      ok := !r.Full?;
    }
  }

  /** What arrives at the scheduler: transactions, error responses, bytecode requests and responses, requests to close
      a group, and anything else. */
  datatype Message =
    | TxRequest(tx: Tx)
    | ErrorResp(tx: Tx)
    | BytecodeRequest(key: GroupKey)
    | BytecodeResponse(key: GroupKey, ok: bool)
    | CloseGroup(key: GroupKey)
    | Unknown

  /** The error responses among the events, in order. */
  function Errors(events: seq<Message>): seq<Tx> {
    if events == [] then []
    else (if events[0].ErrorResp? then [events[0].tx] else []) + Errors(events[1..])
  }

  lemma {:induction false} ErrorsAppend(events: seq<Message>, msg: Message)
    ensures Errors(events + [msg]) == Errors(events) + if msg.ErrorResp? then [msg.tx] else []
  {
    if events == [] {
      assert events + [msg] == [msg];
    } else {
      assert (events + [msg])[1..] == events[1..] + [msg];
      ErrorsAppend(events[1..], msg);
    }
  }

  class RequestScheduler {
    var txCh: seq<Tx>
    var eventCh: seq<Message>
    var closeCh: seq<GroupKey>
    var requestGroups: map<string, nat>
    var groups: seq<G.Group>

    ghost function View(): E.Sched
      reads this
    {
      E.Sched(txCh, Errors(eventCh), requestGroups)
    }

    /** The dictionary and the groups name each other. */
    ghost predicate Registered()
      reads this
    {
      && (forall k :: k in requestGroups ==>
            requestGroups[k] < |groups| && ContractKey(groups[requestGroups[k]].key) == k)
      && (forall i :: 0 <= i < |groups| ==>
            ContractKey(groups[i].key) in requestGroups && requestGroups[ContractKey(groups[i].key)] == i)
    }

    constructor ()
      ensures View() == E.Sched([], [], map[]) && groups == [] && closeCh == [] && Registered()
    {
      txCh, eventCh, closeCh, requestGroups, groups := [], [], [], map[], [];
    }

    /** PutMsg.  To the engine only transactions and error responses matter: each joins the end of its queue; bytecode
        messages go with the errors, and a request to close a group has a channel of its own. */
    method PutMsg(msg: Message) returns (ok: bool)
      modifies `txCh, `eventCh, `closeCh
      ensures ok == !msg.Unknown?
      ensures View() == old(View()).(txCh := old(txCh) + if msg.TxRequest? then [msg.tx] else [],
                                     errs := old(View()).errs + if msg.ErrorResp? then [msg.tx] else [])
      ensures eventCh == old(eventCh) + if msg.ErrorResp? || msg.BytecodeRequest? || msg.BytecodeResponse? then
        [msg] else []
      ensures closeCh == old(closeCh) + if msg.CloseGroup? then [msg.key] else []
    {
      ErrorsAppend(eventCh, msg);
      ok := !msg.Unknown?;
      match msg
      case TxRequest(tx) => txCh := txCh + [tx];
      case CloseGroup(key) => closeCh := closeCh + [key];
      case Unknown =>
      case _ => eventCh := eventCh + [msg];
    }

    /** handleTxReq does to the scheduler and the groups what a dispatch step of the engine does. */
    method HandleTxReq(ghost s: E.Sys)
      requires s.sched == View() && s.groups == groups && txCh != [] && Registered()
      modifies this
      ensures E.Indexed(s) && E.DoDispatch(s).sched == View() && E.DoDispatch(s).groups == groups && Registered()
    {
      hide ContractKey;
      var tx := txCh[0];
      txCh := txCh[1..];
      var k := ContractKey(tx.key);
      if k !in requestGroups {
        requestGroups := requestGroups[k := |groups|];
        groups := groups + [G.NewGroup(tx.key)];
      }
      var g := requestGroups[k];
      groups := groups[g := groups[g].(inbox := groups[g].inbox + [G.TxMsg(tx)])];
    }

    /** GetRequestGroup finds the one group with the contract key, if there is one; a key without '#' in its parts finds
        the group of that very contract. */
    method GetRequestGroup(key: GroupKey) returns (g: nat, ok: bool)
      requires Registered()
      ensures ok <==> exists i :: 0 <= i < |groups| && ContractKey(groups[i].key) == ContractKey(key)
      ensures ok ==> g < |groups|
      ensures ok ==> forall i :: 0 <= i < |groups| && ContractKey(groups[i].key) == ContractKey(key) ==> i == g
      ensures ok && PlainKey(key) ==> groups[g].key == key
    {
      ok := ContractKey(key) in requestGroups;
      g := if ok then requestGroups[ContractKey(key)] else 0;
      KeyUniqueExactly(key);
      hide ContractKey, PlainKey;
    }
  }
}
