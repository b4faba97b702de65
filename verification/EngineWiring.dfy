/**
 The managers' tables, the process objects and the user pool stay wired together:
 what a manager lists is a process object of that name, contract and user, idle in
 the table exactly when the object is idle, and its reported exits are the
 listeners that returned.  From this follows all that the manager model takes from
 its surroundings.
 */
module EngineWiring {
  import opened EngineModel
  import M = ManagerModel
  import I = ManagerIndexes
  import P = ProcessModel

  // ----- tables and process objects -----

  /** The process object after ChangeSandbox and after CloseSandbox. */
  function Changed(p: P.Proc, id: nat, group: nat): P.Proc {
    p.(id := id, group := group, state := P.Changing)
  }

  function Closed(p: P.Proc): P.Proc {
    p.(state := P.Closing)
  }

  /** The listed name is the process object's own, with its contract and user. */
  ghost predicate Matches(t: M.Tables, procs: seq<P.Proc>, isOrig: bool, n: nat) {
    M.Listed(t, n) ==>
      var e := M.EntryOf(t, n);
      && e.pid < |procs|
      && procs[e.pid].id == n && procs[e.pid].group == e.group && procs[e.pid].user == e.user
      && procs[e.pid].isOrig == isOrig && procs[e.pid].state != P.Closing
      && (n in t.idle <==> procs[e.pid].state == P.Idle)
  }

  /** A listed process has returned exactly when its exit is reported. */
  ghost predicate Reports(t: M.Tables, inbox: seq<M.Request>, procs: seq<P.Proc>, n: nat) {
    M.Listed(t, n) && M.EntryOf(t, n).pid < |procs| ==>
      (M.Reported(inbox, n) <==> procs[M.EntryOf(t, n).pid].done)
  }

  /** Under a process object's own name nothing else is listed; an object that has neither returned nor been closed
      is listed. */
  ghost predicate Alive(t: M.Tables, procs: seq<P.Proc>, isOrig: bool, pid: nat) {
    pid < |procs| && procs[pid].isOrig == isOrig ==>
      && (M.Listed(t, procs[pid].id) ==> M.EntryOf(t, procs[pid].id).pid == pid)
      && (!procs[pid].done && procs[pid].state != P.Closing ==> M.Listed(t, procs[pid].id))
  }

  /** The name has not been given to a process of this manager. */
  ghost predicate NewName(procs: seq<P.Proc>, isOrig: bool, id: nat) {
    forall pid: nat :: pid < |procs| && procs[pid].isOrig == isOrig ==> procs[pid].id != id
  }

  ghost predicate Linked(t: M.Tables, inbox: seq<M.Request>, procs: seq<P.Proc>, isOrig: bool) {
    && (forall n: nat :: Matches(t, procs, isOrig, n))
    && (forall n: nat :: Reports(t, inbox, procs, n))
    && (forall pid: nat :: Alive(t, procs, isOrig, pid))
  }

  lemma LinkInsert(t: M.Tables, inbox: seq<M.Request>, procs: seq<P.Proc>, isOrig: bool, id: nat, e: M.Entry)
    requires Linked(t, inbox, procs, isOrig) && !M.Listed(t, id) && !M.Reported(inbox, id) && e.pid == |procs|
    requires NewName(procs, isOrig, id)
    ensures Linked(M.Insert(t, id, e), inbox, procs + [P.NewProc(id, e.group, e.user, isOrig)], isOrig)
  {
    var r := M.Insert(t, id, e);
    var ps := procs + [P.NewProc(id, e.group, e.user, isOrig)];
    forall n: nat ensures Matches(r, ps, isOrig, n) && Reports(r, inbox, ps, n) {
      assert Matches(t, procs, isOrig, n) && Reports(t, inbox, procs, n);
    }
    forall pid: nat ensures Alive(r, ps, isOrig, pid) {
      assert Alive(t, procs, isOrig, pid);
    }
  }

  /** A process object that the table does not list any more, or does not list yet, may end or close. */
  lemma LinkDelete(t: M.Tables, inbox: seq<M.Request>, procs: seq<P.Proc>, isOrig: bool, id: nat, q: P.Proc)
    requires Linked(t, inbox, procs, isOrig) && M.Listed(t, id) && I.Unique(t)
    requires (id in t.idle ==> id !in t.busy)
    requires q.isOrig == isOrig && q.id == id && (q.done || q.state == P.Closing)
    ensures var pid := M.EntryOf(t, id).pid;
            pid < |procs| && Linked(M.Delete(t, M.EntryOf(t, id).group, id), inbox, procs[pid := q], isOrig)
  {
    var pid := M.EntryOf(t, id).pid;
    assert Matches(t, procs, isOrig, id);
    var r := M.Delete(t, M.EntryOf(t, id).group, id);
    var ps := procs[pid := q];
    forall n: nat ensures Matches(r, ps, isOrig, n) && Reports(r, inbox, ps, n) {
      assert Matches(t, procs, isOrig, n) && Reports(t, inbox, procs, n);
      assert M.Listed(r, n) ==> M.Listed(t, n) && n != id;
    }
    forall x: nat ensures Alive(r, ps, isOrig, x) {
      assert Alive(t, procs, isOrig, x);
    }
  }

  lemma LinkTransfer(t: M.Tables, inbox: seq<M.Request>, procs: seq<P.Proc>, isOrig: bool, id: nat, group: nat, to: nat)
    requires Linked(t, inbox, procs, isOrig) && id in t.idle && id !in t.busy && I.Unique(t)
    requires Agrees(procs, t.idle[id].pid) && !M.Listed(t, to) && !M.Reported(inbox, to)
    requires NewName(procs, isOrig, to)
    ensures var pid := t.idle[id].pid;
            Linked(M.Transfer(t, id, group, to), inbox, procs[pid := Changed(procs[pid], to, group)], isOrig)
  {
    var pid := t.idle[id].pid;
    var q := Changed(procs[pid], to, group);
    assert Matches(t, procs, isOrig, id) && Reports(t, inbox, procs, id);
    var r := M.Transfer(t, id, group, to);
    var ps := procs[pid := q];
    forall n: nat ensures Matches(r, ps, isOrig, n) && Reports(r, inbox, ps, n) {
      assert Matches(t, procs, isOrig, n) && Reports(t, inbox, procs, n);
      assert M.Listed(r, n) ==> n == to || (M.Listed(t, n) && n != id);
    }
    forall x: nat ensures Alive(r, ps, isOrig, x) {
      assert Alive(t, procs, isOrig, x);
    }
  }

  /** The process object and its listing change state together. */
  lemma LinkMove(t: M.Tables, r: M.Tables, inbox: seq<M.Request>, procs: seq<P.Proc>, isOrig: bool, id: nat, q: P.Proc)
    requires Linked(t, inbox, procs, isOrig) && M.Listed(t, id) && I.Unique(t)
    requires forall n: nat ::
               M.Listed(r, n) == M.Listed(t, n) && (M.Listed(t, n) ==> M.EntryOf(r, n) == M.EntryOf(t, n))
    requires forall n: nat :: n != id ==> (n in r.idle <==> n in t.idle)
    requires var pid := M.EntryOf(t, id).pid;
             pid < |procs| && q.id == procs[pid].id && q.group == procs[pid].group && q.user == procs[pid].user
             && q.isOrig == procs[pid].isOrig && q.done == procs[pid].done
    requires q.state != P.Closing && (id in r.idle <==> q.state == P.Idle)
    ensures Linked(r, inbox, procs[M.EntryOf(t, id).pid := q], isOrig)
  {
    var pid := M.EntryOf(t, id).pid;
    var ps := procs[pid := q];
    assert Matches(t, procs, isOrig, id);
    forall n: nat ensures Matches(r, ps, isOrig, n) && Reports(r, inbox, ps, n) {
      assert Matches(t, procs, isOrig, n) && Reports(t, inbox, procs, n);
    }
    forall x: nat ensures Alive(r, ps, isOrig, x) {
      assert Alive(t, procs, isOrig, x);
    }
  }

  /** A process object changes without the table. */
  lemma LinkProc(t: M.Tables, inbox: seq<M.Request>, procs: seq<P.Proc>, isOrig: bool, pid: nat, q: P.Proc)
    requires Linked(t, inbox, procs, isOrig) && pid < |procs| && procs[pid].isOrig == isOrig && q.isOrig == isOrig
    requires q.id == procs[pid].id && q.group == procs[pid].group && q.user == procs[pid].user
    requires (q.state == P.Idle <==> procs[pid].state == P.Idle)
    requires (q.state == P.Closing <==> procs[pid].state == P.Closing)
    requires procs[pid].done == q.done || procs[pid].state == P.Closing
    ensures Linked(t, inbox, procs[pid := q], isOrig)
  {
    var ps := procs[pid := q];
    assert Alive(t, procs, isOrig, pid);
    forall n: nat ensures Matches(t, ps, isOrig, n) && Reports(t, inbox, ps, n) {
      assert Matches(t, procs, isOrig, n) && Reports(t, inbox, procs, n);
    }
    forall x: nat ensures Alive(t, ps, isOrig, x) {
      assert Alive(t, procs, isOrig, x);
    }
  }

  /** A listener returns and reports. */
  lemma LinkExit(t: M.Tables, inbox: seq<M.Request>, procs: seq<P.Proc>, isOrig: bool, pid: nat, q: P.Proc)
    requires Linked(t, inbox, procs, isOrig) && I.Unique(t)
    requires pid < |procs| && procs[pid].isOrig == isOrig && q.isOrig == isOrig
    requires !procs[pid].done && procs[pid].state != P.Closing && q.done && q.state != P.Closing
    requires q.id == procs[pid].id && q.group == procs[pid].group && q.user == procs[pid].user
    requires (q.state == P.Idle <==> procs[pid].state == P.Idle)
    ensures Linked(t, inbox + [M.SandboxExit(q.group, q.id)], procs[pid := q], isOrig)
  {
    var ps := procs[pid := q];
    var inbox' := inbox + [M.SandboxExit(q.group, q.id)];
    assert Alive(t, procs, isOrig, pid);
    forall n: nat ensures Matches(t, ps, isOrig, n) && Reports(t, inbox', ps, n) {
      assert Matches(t, procs, isOrig, n) && Reports(t, inbox, procs, n);
      ReportedPushed(inbox, M.SandboxExit(q.group, q.id), n);
    }
    forall x: nat ensures Alive(t, ps, isOrig, x) {
      assert Alive(t, procs, isOrig, x);
    }
  }

  lemma ReportedPushed(inbox: seq<M.Request>, r: M.Request, n: nat)
    ensures M.Reported(inbox + [r], n) <==> M.Reported(inbox, n) || (r.SandboxExit? && r.id == n)
  {
    if M.Reported(inbox, n) {
      var i :| 0 <= i < |inbox| && inbox[i].SandboxExit? && inbox[i].id == n;
      assert (inbox + [r])[i] == inbox[i];
    }
    if r.SandboxExit? && r.id == n {
      assert (inbox + [r])[|inbox|] == r;
    }
  }

  /** Whatever happens to the other manager's processes. */
  lemma LinkOther(t: M.Tables, inbox: seq<M.Request>, procs: seq<P.Proc>, isOrig: bool, pid: nat, q: P.Proc)
    requires Linked(t, inbox, procs, isOrig) && pid <= |procs| && q.isOrig != isOrig
    requires pid < |procs| ==> procs[pid].isOrig != isOrig
    ensures Linked(t, inbox, if pid < |procs| then procs[pid := q] else procs + [q], isOrig)
  {
    var ps := if pid < |procs| then procs[pid := q] else procs + [q];
    forall n: nat ensures Matches(t, ps, isOrig, n) && Reports(t, inbox, ps, n) {
      assert Matches(t, procs, isOrig, n) && Reports(t, inbox, procs, n);
    }
    forall x: nat ensures Alive(t, ps, isOrig, x) {
      assert Alive(t, procs, isOrig, x);
    }
  }

  lemma LinkInbox(t: M.Tables, inbox: seq<M.Request>, inbox': seq<M.Request>, procs: seq<P.Proc>, isOrig: bool)
    requires Linked(t, inbox, procs, isOrig)
    requires forall n: nat :: M.Listed(t, n) ==> (M.Reported(inbox', n) <==> M.Reported(inbox, n))
    ensures Linked(t, inbox', procs, isOrig)
  {
    forall n: nat ensures Reports(t, inbox', procs, n) {
      assert Reports(t, inbox, procs, n);
    }
  }

  // ----- the user pool -----

  function Size(t: M.Tables): int {
    |t.order| + t.busyLen
  }

  ghost predicate NotFree(queue: seq<nat>, t: M.Tables) {
    forall n: nat :: M.Listed(t, n) ==> M.EntryOf(t, n).user !in queue
  }

  ghost predicate NotShared(t: M.Tables, x: M.Tables) {
    forall a: nat, b: nat :: M.Listed(t, a) && M.Listed(x, b) ==> M.EntryOf(t, a).user != M.EntryOf(x, b).user
  }

  /** Free users and the users of live processes are different users, and together all of them. */
  ghost predicate Pool(queue: seq<nat>, t: M.Tables, x: M.Tables, capacity: nat) {
    && I.Distinct(queue) && |queue| + Size(t) + Size(x) == capacity
    && NotFree(queue, t) && NotFree(queue, x) && NotShared(t, x)
  }

  lemma PoolSwap(queue: seq<nat>, t: M.Tables, x: M.Tables, capacity: nat)
    requires Pool(queue, t, x, capacity)
    ensures Pool(queue, x, t, capacity)
  {
    hide I.Distinct;
  }

  lemma PoolInsert(queue: seq<nat>, t: M.Tables, x: M.Tables, capacity: nat, id: nat, e: M.Entry)
    requires Pool(queue, t, x, capacity) && queue != [] && e.user == queue[0] && !M.Listed(t, id)
    ensures Pool(queue[1..], M.Insert(t, id, e), x, capacity)
  {
    var r := M.Insert(t, id, e);
    assert forall n: nat :: M.Listed(r, n) && n != id ==> M.Listed(t, n) && M.EntryOf(r, n) == M.EntryOf(t, n);
    assert forall u :: u in queue[1..] ==> u in queue && u != queue[0];
  }

  lemma PoolDelete(queue: seq<nat>, t: M.Tables, x: M.Tables, capacity: nat, id: nat)
    requires Pool(queue, t, x, capacity) && M.Listed(t, id) && I.Unique(t) && I.Disjoint(t)
    ensures Pool(queue + [M.EntryOf(t, id).user], M.Delete(t, M.EntryOf(t, id).group, id), x, capacity)
  {
    var r := M.Delete(t, M.EntryOf(t, id).group, id);
    var u := M.EntryOf(t, id).user;
    assert forall n: nat :: M.Listed(r, n) ==> n != id && M.Listed(t, n) && M.EntryOf(r, n) == M.EntryOf(t, n);
    assert u !in queue;
    assert I.Distinct(queue + [u]);
  }

  /** Renaming and moving between idle and busy change no user. */
  lemma PoolTransfer(queue: seq<nat>, t: M.Tables, x: M.Tables, capacity: nat, id: nat, group: nat, to: nat)
    requires Pool(queue, t, x, capacity) && id in t.idle && I.Disjoint(t) && !M.Listed(t, to)
    ensures Pool(queue, M.Transfer(t, id, group, to), x, capacity)
  {
    hide I.Distinct;
    var r := M.Transfer(t, id, group, to);
    I.RenameSize(t, id, group, to);
    assert forall n: nat :: M.Listed(r, n) && n != to ==> M.Listed(t, n) && M.EntryOf(r, n) == M.EntryOf(t, n);
    assert M.Listed(t, id) && M.EntryOf(r, to).user == M.EntryOf(t, id).user;
  }

  lemma PoolSame(queue: seq<nat>, t: M.Tables, r: M.Tables, x: M.Tables, capacity: nat)
    requires Pool(queue, t, x, capacity) && Size(r) == Size(t)
    requires forall n: nat ::
               M.Listed(r, n) == M.Listed(t, n) && (M.Listed(t, n) ==> M.EntryOf(r, n) == M.EntryOf(t, n))
    ensures Pool(queue, r, x, capacity)
  {
    hide I.Distinct;
  }
}
