/**
 The engine does serve: from the start, with room for one process, there is a run in
 which a transaction arrives, its contract is loaded, a process is created for it,
 and it is answered.
 */
module EngineExample {
  import opened Basics
  import opened Keys
  import opened Transactions
  import opened EngineModel
  import opened EngineRuns
  import G = GroupModel
  import M = ManagerModel
  import P = ProcessModel
  import F = FixedFifo

  // ----- the run -----

  function At(c: Setup, tx: Tx, g: G.Group, m: M.Manager, procs: seq<P.Proc>, free: seq<nat>, answered: seq<Tx>): Sys {
    Full(c, tx.key, Snap(g, m, procs, free, [], [], [tx], answered, false))
  }

  const START := M.Initial(M.Config(true, 1, 0.0))

  function Asking(tx: Tx): M.Manager {
    START.(known := [tx.key], inbox := [M.GetProcess(0, 1)])
  }

  lemma Arrives(c: Setup, tx: Tx)
    ensures Reaches(Begin(c), At(c, tx, G.NewGroup(tx.key).(inbox := [G.TxMsg(tx)]), START, [], [USER],
      []))
  {
    var s := Begin(c);
    assert Possible(s, []) && After(s, []) == s;
    var s1 := Next(s, Arrive(tx));
    assert s1.sched.txCh == [tx];
    ReachNext(s, s, Arrive(tx), s1);
    var s2 := At(c, tx, G.NewGroup(tx.key).(inbox := [G.TxMsg(tx)]), START, [], [USER], []);
    var empty: seq<G.Msg> := [];
    assert [tx][1..] == [] && empty + [G.TxMsg(tx)] == [G.TxMsg(tx)];
    hide ContractKey;
    assert Next(s1, Dispatch).groups[0] == s2.groups[0];
    assert Next(s1, Dispatch).groups == s2.groups;
    ReachNext(s, s1, Dispatch, s2);
  }

  function Waits(tx: Tx): G.Group {
    G.NewGroup(tx.key).(load := G.Waiting, timer := G.Timer(true, false), buf := [tx])
  }

  function Asks(tx: Tx): G.Group {
    G.NewGroup(tx.key).(load := G.Ready, orig := G.Controller([tx], true))
  }

  function TakeNow(c: Setup): G.Event {
    G.TakeMsg(c.limit, 0, NONE, NONE)
  }

  lemma CodeArrives(c: Setup, tx: Tx)
    requires tx.depth == 0
    ensures G.Apply(Waits(tx).(inbox := [G.CodeMsg(true)]), TakeNow(c)) == G.Out(Asks(tx), 1, 0, [], 0)
  {
    var g := Waits(tx).(inbox := [G.CodeMsg(true)]);
    var ready := G.NewGroup(tx.key).(load := G.Ready);
    var empty: seq<Tx> := [];
    assert [G.CodeMsg(true)][1..] == [] && empty + [tx] == [tx] && [tx][1..] == [];
    assert G.EnqueueAll(G.Enqueue(ready, tx), []) == G.Enqueue(ready, tx);
    assert G.EnqueueAll(ready, [tx]) == ready.(orig := G.Controller([tx], false));
  }

  /** The group asks for the contract and, when it is there, for a process. */
  lemma Loads(c: Setup, s: Sys, tx: Tx)
    requires tx.depth == 0
    requires Reaches(s, At(c, tx, G.NewGroup(tx.key).(inbox := [G.TxMsg(tx)]), START, [], [USER], []))
    ensures Reaches(s, At(c, tx, Asks(tx), Asking(tx), [], [USER], []))
  {
    var g0 := G.NewGroup(tx.key).(inbox := [G.TxMsg(tx)]);
    var g2 := Waits(tx).(inbox := [G.CodeMsg(true)]);
    var txs: seq<Tx>, msgs: seq<G.Msg>, asked: seq<M.Request> := [], [], [];
    assert [G.TxMsg(tx)][1..] == [] && txs + [tx] == [tx] && msgs + [G.CodeMsg(true)] == [G.CodeMsg(true)];
    assert asked + [M.GetProcess(0, 1)] == [M.GetProcess(0, 1)];
    assert G.Apply(g0, TakeNow(c)) == G.Out(Waits(tx), 0, 0, [], 1) &&
      G.Apply(Waits(tx), G.PutCode(true)) == G.Out(g2, 0, 0, [], 0);
    CodeArrives(c, tx);
    hide ContractKey, G.Apply, Reaches, At;
    GroupMoves(c, s, tx, g0, TakeNow(c), G.Out(Waits(tx), 0, 0, [], 1), START, START);
    GroupMoves(c, s, tx, Waits(tx), G.PutCode(true), G.Out(g2, 0, 0, [], 0), START, START);
    GroupMoves(c, s, tx, g2, TakeNow(c), G.Out(Asks(tx), 1, 0, [], 0), START, Asking(tx));
  }

  lemma GroupMoves(c: Setup, s: Sys, tx: Tx, g: G.Group, ev: G.Event, o: G.Out, m: M.Manager, m': M.Manager)
    requires Reaches(s, At(c, tx, g, m, [], [USER], [])) && G.Enabled(g, ev) && G.Apply(g, ev) == o
    requires ev == G.PutCode(true) || ev == TakeNow(c)
    requires m.t.groups == map[] && o.errors == [] && o.askCross == 0 &&
      m'.(known := [tx.key]) == AskFor(m.(known := [tx.key]), 0, o.askOrig)
    ensures Reaches(s, At(c, tx, o.g, m', [], [USER], []))
  {
    hide ContractKey, G.Apply, G.Enabled;
    var r, t := At(c, tx, g, m, [], [USER], []), At(c, tx, o.g, m', [], [USER], []);
    var l := OfGroup(0, Own(ev));
    assert CountsFor(r, 0, true) == NONE && CountsFor(r, 0, false) == NONE;
    assert Next(r, l).groups == t.groups;
    ReachNext(s, r, l, t);
  }

  // ----- the manager creates a process -----

  const ENTRY := M.Entry(0, 0, USER)
  const BORN := P.NewProc(1, 0, USER, true)

  function Making(tx: Tx, job: M.Job): M.Manager {
    START.(known := [tx.key], job := job)
  }

  function Made(tx: Tx, job: M.Job): M.Manager {
    START.(known := [tx.key], job := job, serial := 1, t := M.Tables(map[], [], map[1 := ENTRY], 1, map[0 := {1}]))
  }

  lemma ManagerMoves(c: Setup, s: Sys, tx: Tx, m: M.Manager, act: ManagerAct, m': M.Manager)
    requires m.known == [tx.key] && m'.known == [tx.key] && act.Inner?
    requires Internal(act.ev) && M.Enabled(m, act.ev) && M.Runnable(m, act.ev) && M.Apply(m, act.ev) == m'
    requires Reaches(s, At(c, tx, Asks(tx), m, [BORN], [], []))
    ensures Reaches(s, At(c, tx, Asks(tx), m', [BORN], [], []))
  {
    hide ContractKey, M.Apply, M.Enabled, M.Runnable;
    ReachNext(s, At(c, tx, Asks(tx), m, [BORN], [], []), OfManager(true, act), At(c, tx, Asks(tx), m', [BORN], [], []));
  }

  lemma Begins(c: Setup, s: Sys, tx: Tx)
    requires Reaches(s, At(c, tx, Asks(tx), Asking(tx), [], [USER], []))
    ensures Reaches(s, At(c, tx, Asks(tx), Making(tx, M.Creating(0, 1, 1, 1)), [], [USER], []))
  {
    hide ContractKey;
    assert [M.GetProcess(0, 1)][1..] == [];
    assert M.Apply(Asking(tx), M.BeginRequest) == Making(tx, M.Creating(0, 1, 1, 1));
    ReachNext(s, At(c, tx, Asks(tx), Asking(tx), [], [USER], []), OfManager(true, Inner(M.BeginRequest)),
              At(c, tx, Asks(tx), Making(tx, M.Creating(0, 1, 1, 1)), [], [USER], []));
  }

  lemma Creates(c: Setup, s: Sys, tx: Tx)
    requires Reaches(s, At(c, tx, Asks(tx), Making(tx, M.Creating(0, 1, 1, 1)), [], [USER], []))
    ensures Reaches(s, At(c, tx, Asks(tx), Made(tx, M.Creating(0, 1, 0, 0)), [BORN], [], []))
  {
    hide ContractKey;
    var m := Making(tx, M.Creating(0, 1, 1, 1));
    var r := At(c, tx, Asks(tx), m, [], [USER], []);
    var none: seq<P.Proc> := [];
    assert [USER][1..] == [] && none + [BORN] == [BORN];
    assert MadeFrom(r.users, 0) == M.Made(0, USER);
    var names: set<nat> := {};
    assert names + {1} == {1};
    assert M.Insert(m.t, 1, ENTRY) == M.Tables(map[], [], map[1 := ENTRY], 1, map[0 := {1}]);
    assert M.Apply(m, M.Create(M.Made(0, USER))) == Made(tx, M.Creating(0, 1, 0, 0));
    ReachNext(s, r, OfManager(true, Create), At(c, tx, Asks(tx), Made(tx, M.Creating(0, 1, 0, 0)), [BORN], [], []));
  }

  /** The manager after the request: the process is listed and the group is told. */
  function Told(tx: Tx): M.Manager {
    Made(tx, M.NoJob).(desk := M.Desk([], [M.Response(0, 1)]))
  }

  lemma Answers(c: Setup, s: Sys, tx: Tx)
    requires Reaches(s, At(c, tx, Asks(tx), Made(tx, M.Creating(0, 1, 0, 0)), [BORN], [], []))
    ensures Reaches(s, At(c, tx, Asks(tx), Told(tx), [BORN], [], []))
  {
    var out: seq<M.Response> := [];
    assert out + [M.Response(0, 1)] == [M.Response(0, 1)];
    var m, m' := Made(tx, M.Creating(0, 1, 0, 0)), Made(tx, M.Reusing(0, 1, 0, []));
    assert M.Apply(m, M.BeginReuse) == m' && M.Apply(m', M.EndRequest) == Told(tx);
    hide ContractKey, Reaches, At, M.Apply;
    ManagerMoves(c, s, tx, m, Inner(M.BeginReuse), m');
    ManagerMoves(c, s, tx, m', Inner(M.EndRequest), Told(tx));
  }

  // ----- the process answers -----

  lemma ProcMoves(c: Setup, s: Sys, tx: Tx, g: G.Group, g': G.Group, p: P.Proc, act: ProcAct, p': P.Proc,
                  answered: seq<Tx>)
    requires Reaches(s, At(c, tx, g, Told(tx), [p], [], [])) && p.isOrig && p.group == 0
    requires var r := At(c, tx, g, Told(tx), [p], [], []);
             && MayProc(r, 0, act) && !act.ReadyTimeout? && !act.IdleReturn?
             && P.Apply(p, ProcEvent(r, p, act)) == (p', P.NOTHING.(answered := if answered == [] then
                 None else Some(tx)))
             && GroupsAfterProc(r, p, act, P.NOTHING) == [g'] && (answered == [] || answered == [tx])
    ensures Reaches(s, At(c, tx, g', Told(tx), [p'], [], answered))
  {
    hide ContractKey, P.Apply, MayProc, ProcEvent, M.Apply;
    var r, t := At(c, tx, g, Told(tx), [p], [], []), At(c, tx, g', Told(tx), [p'], [], answered);
    var e := P.NOTHING.(answered := if answered == [] then None else Some(tx));
    assert GroupsAfterProc(r, p, act, e) == GroupsAfterProc(r, p, act, P.NOTHING);
    var none: seq<Tx> := [];
    assert none + Opt(e.answered) == answered && none + [] == none;
    assert [p][0 := p'] == [p'];
    ReachNext(s, r, OfProc(0, act), t);
  }

  const READY := P.Apply(BORN, P.Register).0

  function Running(tx: Tx): P.Proc {
    P.Apply(READY, P.TakeTx(tx, P.Fresh)).0
  }

  function Emptied(tx: Tx): G.Group {
    Asks(tx).(orig := G.Controller([], true))
  }

  lemma Registers(c: Setup, s: Sys, tx: Tx)
    requires Reaches(s, At(c, tx, Asks(tx), Told(tx), [BORN], [], []))
    ensures Reaches(s, At(c, tx, Asks(tx), Told(tx), [READY], [], []))
  {
    hide ContractKey, Reaches, M.Apply;
    ProcMoves(c, s, tx, Asks(tx), Asks(tx), BORN, Plain(P.Register), READY, []);
  }

  lemma Takes(c: Setup, s: Sys, tx: Tx)
    requires Reaches(s, At(c, tx, Asks(tx), Told(tx), [READY], [], []))
    ensures Reaches(s, At(c, tx, Emptied(tx), Told(tx), [Running(tx)], [], []))
  {
    hide ContractKey, Reaches, M.Apply;
    assert [tx][1..] == [];
    ProcMoves(c, s, tx, Asks(tx), Emptied(tx), READY, TakeTx(P.Fresh), Running(tx), []);
  }

  /** The process has answered and listens again. */
  function Free(tx: Tx): P.Proc {
    P.Apply(Running(tx), P.Respond).0
  }

  lemma Responds(c: Setup, s: Sys, tx: Tx)
    requires Reaches(s, At(c, tx, Emptied(tx), Told(tx), [Running(tx)], [], []))
    ensures Reaches(s, At(c, tx, Emptied(tx), Told(tx), [Free(tx)], [], [tx]))
  {
    hide ContractKey, Reaches, M.Apply;
    ProcMoves(c, s, tx, Emptied(tx), Emptied(tx), Running(tx), Plain(P.Respond), Free(tx), [tx]);
  }

  /** A first transaction is answered. */
  lemma ServedFirst(c: Setup, tx: Tx)
    requires tx.depth == 0
    ensures Reaches(Begin(c), At(c, tx, Emptied(tx), Told(tx), [Free(tx)], [], [tx]))
  {
    hide *;
    var s := Begin(c);
    Arrives(c, tx);
    Loads(c, s, tx);
    Begins(c, s, tx);
    Creates(c, s, tx);
    Answers(c, s, tx);
    Registers(c, s, tx);
    Takes(c, s, tx);
    Responds(c, s, tx);
  }

  // ----- and a second one, which meets a ready group -----

  /** One live process of the group, and it listens. */
  const ONE_READY := G.Counts(1, 1)

  function Then(tx: Tx, next: Tx, g: G.Group, p: P.Proc, answered: seq<Tx>): Snap {
    Snap(g, Told(tx), [p], [], [], [], [tx, next], answered, false)
  }

  lemma OneListens(c: Setup, tx: Tx, next: Tx, g: G.Group, p: P.Proc)
    requires p.state == P.Listening
    ensures var s := Full(c, tx.key, Then(tx, next, g, p, [tx]));
            CountsFor(s, 0, true) == ONE_READY && CountsFor(s, 0, false) == NONE
  {
    hide ContractKey;
    var s := Full(c, tx.key, Then(tx, next, g, p, [tx]));
    var t := s.orig.t;
    assert t.groups[0] == {1} && Active(s.procs, t, 1);
    assert (set n | n in t.groups[0] && Active(s.procs, t, n)) == {1};
  }

  /** A ready group queues a transaction within the depth at once. */
  lemma QueuesNext(c: Setup, tx: Tx, next: Tx)
    requires next.key == tx.key && next.depth <= c.limit && IsOrig(next)
    requires Got(c, tx.key, Then(tx, next, Emptied(tx).(inbox := [G.TxMsg(next)]), Free(tx), [tx]))
    ensures Got(c, tx.key, Then(tx, next, Emptied(tx).(orig := G.Controller([next], true)), Free(tx), [tx]))
  {
    var g, g1 := Emptied(tx).(inbox := [G.TxMsg(next)]), Emptied(tx).(orig := G.Controller([next], true));
    var take := G.TakeMsg(c.limit, 0, ONE_READY, NONE);
    var txs: seq<Tx> := [];
    assert [G.TxMsg(next)][1..] == [] && txs + [next] == [next] && txs + [] == txs;
    assert G.Apply(g, take) == G.Out(g1, 0, 0, [], 0);
    OneListens(c, tx, next, g, Free(tx));
    hide ContractKey, Got, CountsFor, G.Apply;
    assert Full(c, tx.key, Then(tx, next, g, Free(tx), [tx])).groups == [g];
    GroupGoes(c, tx.key, Then(tx, next, g, Free(tx), [tx]), take, G.Out(g1, 0, 0, [], 0));
  }

  function RunningNext(tx: Tx, next: Tx): P.Proc {
    P.Apply(Free(tx), P.TakeTx(next, P.Fresh)).0
  }

  lemma NextMoves(c: Setup, tx: Tx, next: Tx, g: G.Group, g': G.Group, p: P.Proc, act: ProcAct, p': P.Proc, done: bool)
    requires Got(c, tx.key, Then(tx, next, g, p, [tx])) && p.isOrig && p.group == 0
    requires var r := Full(c, tx.key, Then(tx, next, g, p, [tx]));
             && MayProc(r, 0, act) && !act.ReadyTimeout? && !act.IdleReturn?
             && P.Apply(p, ProcEvent(r, p, act)) == (p', P.NOTHING.(answered := if done then Some(next) else None))
             && GroupsAfterProc(r, p, act, P.NOTHING) == [g']
    ensures Got(c, tx.key, Then(tx, next, g', p', if done then [tx, next] else [tx]))
  {
    hide ContractKey, P.Apply, MayProc, ProcEvent, M.Apply;
    var r := Full(c, tx.key, Then(tx, next, g, p, [tx]));
    var t := Full(c, tx.key, Then(tx, next, g', p', if done then [tx, next] else [tx]));
    var e := P.NOTHING.(answered := if done then Some(next) else None);
    assert GroupsAfterProc(r, p, act, e) == GroupsAfterProc(r, p, act, P.NOTHING);
    var none: seq<Tx> := [];
    assert [tx] + Opt(e.answered) == t.past.answered && none + [] == none;
    assert [p][0 := p'] == [p'];
    ReachNext(Begin(c), r, OfProc(0, act), t);
  }

  lemma TakesNext(c: Setup, tx: Tx, next: Tx)
    requires Got(c, tx.key, Then(tx, next, Emptied(tx).(orig := G.Controller([next], true)), Free(tx), [tx]))
    ensures Got(c, tx.key, Then(tx, next, Emptied(tx), RunningNext(tx, next), [tx]))
  {
    hide ContractKey, Got, M.Apply;
    var g := Emptied(tx).(orig := G.Controller([next], true));
    assert [next][1..] == [];
    NextMoves(c, tx, next, g, Emptied(tx), Free(tx), TakeTx(P.Fresh), RunningNext(tx, next), false);
  }

  lemma RespondsNext(c: Setup, tx: Tx, next: Tx)
    requires Got(c, tx.key, Then(tx, next, Emptied(tx), RunningNext(tx, next), [tx]))
    ensures exists p :: Got(c, tx.key, Then(tx, next, Emptied(tx), p, [tx, next]))
  {
    hide ContractKey, Got, M.Apply;
    var p := P.Apply(RunningNext(tx, next), P.Respond).0;
    NextMoves(c, tx, next, Emptied(tx), Emptied(tx), RunningNext(tx, next), Plain(P.Respond), p, true);
  }

  /** Whatever the call depth allowed: a first transaction is answered, and so is a second one of the same contract that
      is within the depth and counts as original, by the process that is already there. */
  lemma Served(c: Setup, tx: Tx, next: Tx)
    requires |c.more| == c.limit && tx.depth == 0
    requires next.key == tx.key && next.depth <= c.limit && (next.depth == 0 || !next.usedGo)
    ensures exists r :: Reaches(Initial(c.limit, 1, 0.0, [USER] + c.more), r)
                        && r.past.accepted == [tx, next] && r.past.answered == [tx, next]
  {
    var x := Snap(Emptied(tx), Told(tx), [Free(tx)], [], [], [], [tx], [tx], false);
    var msgs: seq<G.Msg> := [];
    assert msgs + [G.TxMsg(next)] == [G.TxMsg(next)] && [tx] + [next] == [tx, next];
    hide ContractKey, Reaches, M.Apply, Free, RunningNext;
    ServedFirst(c, tx);
    Comes(c, tx.key, x, next);
    QueuesNext(c, tx, next);
    TakesNext(c, tx, next);
    RespondsNext(c, tx, next);
    var p :| Got(c, tx.key, Then(tx, next, Emptied(tx), p, [tx, next]));
    var r := Full(c, tx.key, Then(tx, next, Emptied(tx), p, [tx, next]));
    assert r.past.accepted == [tx, next] && r.past.answered == [tx, next];
  }
}
