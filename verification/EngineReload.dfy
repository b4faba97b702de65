/**
 Two runs of the engine that leave a transaction behind.  The contract of a first
 transaction cannot be executed: its process takes it from the queue, fails it and
 reports the contract as bad, with a second transaction queued.  The group asks for
 the bytecode again and is refused: with nothing buffered its event loop is stuck,
 with a third transaction buffered that one fails and the second stays queued.
 */
module EngineReload {
  import opened Basics
  import opened Keys
  import opened Transactions
  import opened EngineModel
  import opened EngineSteps
  import opened EngineSafety
  import opened EngineStranded
  import opened EngineRuns
  import opened EngineExample
  import G = GroupModel
  import M = ManagerModel
  import P = ProcessModel
  import F = FixedFifo

  /** The group takes the only response. */
  lemma ResponseTaken(c: Setup, key: GroupKey, x: Snap, num: nat, n: G.Counts)
    requires Got(c, key, x) && x.m.desk.outbox == [M.Response(0, num)] && !x.g.blocked &&
      CountsFor(Full(c, key, x), 0, true) == n
    requires x.g.load != G.Ready || |x.g.orig.queue| <= n.live - n.active
    ensures Got(c, key, x.(g := x.g.(orig := x.g.orig.(waiting := false)), m := x.m.(desk := x.m.desk.(outbox := []))))
  {
    hide ContractKey, CountsFor;
    var t := x.(g := x.g.(orig := x.g.orig.(waiting := false)), m := x.m.(desk := x.m.desk.(outbox := [])));
    assert M.DropAt([M.Response(0, num)], 0) == [];
    var l := OfGroup(0, TakeReady(true, 0));
    assert G.Apply(x.g, G.TakeReady(true, n)) == G.Out(t.g, 0, 0, [], 0);
    assert Next(Full(c, key, x), l).groups == [t.g];
    assert x.errs + [] == x.errs;
    ReachNext(Begin(c), Full(c, key, x), l, Full(c, key, t));
  }

  // ----- the first transaction has its process -----

  const ONE := G.Counts(1, 0)

  lemma OneCreated(c: Setup, key: GroupKey, x: Snap, tx: Tx)
    requires x.m.t == Made(tx, M.NoJob).t && |x.procs| == 1 && x.procs[0].state == P.Created
    ensures CountsFor(Full(c, key, x), 0, true) == ONE && CountsFor(Full(c, key, x), 0, false) == NONE
  {
    hide ContractKey;
    var t := x.m.t;
    assert (set n | n in t.groups[0] && Active(x.procs, t, n)) == {};
    assert t.groups[0] == {1};
  }

  lemma NoneLive(c: Setup, key: GroupKey, x: Snap)
    requires x.m.t.groups == map[]
    ensures CountsFor(Full(c, key, x), 0, true) == NONE && CountsFor(Full(c, key, x), 0, false) == NONE
  {
    hide ContractKey;
  }

  /** The group with its first transaction queued and a process on its way. */
  function Queued(tx: Tx): Snap {
    Snap(G.NewGroup(tx.key).(load := G.Ready, orig := G.Controller([tx], false)), Made(tx, M.NoJob), [BORN], [], [],
      [], [tx], [], false)
  }

  lemma Prepared(c: Setup, tx: Tx)
    requires tx.depth == 0
    ensures Got(c, tx.key, Queued(tx))
  {
    var x := Snap(Asks(tx), Told(tx), [BORN], [], [], [], [tx], [], false);
    assert Full(c, tx.key, x) == At(c, tx, Asks(tx), Told(tx), [BORN], [], []);
    assert x.(g := x.g.(orig := x.g.orig.(waiting := false)), m := x.m.(desk := x.m.desk.(outbox := []))) == Queued(tx);
    OneCreated(c, tx.key, x, tx);
    hide ContractKey, Reaches, At, Full, CountsFor;
    Arrives(c, tx);
    Loads(c, Begin(c), tx);
    Begins(c, Begin(c), tx);
    Creates(c, Begin(c), tx);
    Answers(c, Begin(c), tx);
    ResponseTaken(c, tx.key, x, 1, ONE);
  }

  // ----- its contract cannot be executed -----

  function Dead(tx: Tx): P.Proc {
    P.Apply(BORN, P.Exit(P.ExecFailed, Some(tx))).0
  }

  /** The second transaction has come, the first has failed with its process. */
  function Reported(tx: Tx, other: Tx): Snap {
    Snap(G.NewGroup(tx.key).(load := G.Ready, inbox := [G.TxMsg(other)], bad := [0]),
         Made(tx, M.NoJob).(inbox := [M.SandboxExit(0, 1)]), [Dead(tx)], [], [], [tx], [tx, other], [], false)
  }

  function Doomed(tx: Tx, other: Tx): Snap {
    Queued(tx).(g := Queued(tx).g.(inbox := [G.TxMsg(other)]), accepted := [tx, other])
  }

  const FAILS := Exit(P.ExecFailed, 0)

  lemma BreaksHow(c: Setup, tx: Tx, other: Tx)
    ensures var s := Full(c, tx.key, Doomed(tx, other)); var e := P.NOTHING.(failed := Some(tx), exit := true,
      bad := true);
            && MayProc(s, 0, FAILS) && ProcEvent(s, BORN, FAILS) == P.Exit(P.ExecFailed, Some(tx))
            && P.Apply(BORN, P.Exit(P.ExecFailed, Some(tx))) == (Dead(tx), e)
            && GroupsAfterProc(s, BORN, FAILS, e) == [Reported(tx, other).g]
  {
    hide ContractKey;
    var vs: seq<int> := [];
    assert vs + [0] == [0] && [tx][1..] == [];
    assert Taken(Full(c, tx.key, Doomed(tx, other)), BORN, FAILS) == Some(tx);
  }

  lemma Breaks(c: Setup, tx: Tx, other: Tx)
    requires Got(c, tx.key, Doomed(tx, other))
    ensures Got(c, tx.key, Reported(tx, other))
  {
    BreaksHow(c, tx, other);
    var x, t := Full(c, tx.key, Doomed(tx, other)), Full(c, tx.key, Reported(tx, other));
    var txs: seq<Tx>, rs: seq<M.Request> := [], [];
    assert txs + [tx] == [tx] && txs + [] == txs && rs + [M.SandboxExit(0, 1)] == [M.SandboxExit(0, 1)];
    assert [BORN][0 := Dead(tx)] == [Dead(tx)];
    hide ContractKey, P.Apply, ProcEvent, GroupsAfterProc, MayProc;
    ReachNext(Begin(c), x, OfProc(0, FAILS), t);
  }

  // ----- the group reloads -----

  /** The second transaction is queued, the contract asked for again. */
  function Reloading(tx: Tx, other: Tx): G.Group {
    G.NewGroup(tx.key).(load := G.Waiting, timer := G.Timer(true, false), orig := G.Controller([other], false))
  }

  /** The group with the second transaction queued, before it hears the report. */
  function Hears(tx: Tx, other: Tx): G.Group {
    Reported(tx, other).g.(inbox := [], orig := G.Controller([other], false))
  }

  lemma QueuesOther(c: Setup, tx: Tx, other: Tx)
    requires Got(c, tx.key, Reported(tx, other)) && other.depth == 0
    ensures Got(c, tx.key, Reported(tx, other).(g := Hears(tx, other)))
  {
    var x := Reported(tx, other);
    var take := G.TakeMsg(c.limit, 0, ONE, NONE);
    var txs: seq<Tx> := [];
    assert txs + [other] == [other] && [G.TxMsg(other)][1..] == [] && [tx] + [] == [tx];
    assert G.Apply(x.g, take) == G.Out(Hears(tx, other), 0, 0, [], 0);
    OneCreated(c, tx.key, x, tx);
    assert Full(c, tx.key, x).groups == [x.g] && Full(c, tx.key, x).limit == c.limit;
    hide ContractKey, Got, G.Apply, CountsFor, Full;
    GroupGoes(c, tx.key, x, take, G.Out(Hears(tx, other), 0, 0, [], 0));
  }

  lemma Reloads(c: Setup, tx: Tx, other: Tx)
    requires Got(c, tx.key, Reported(tx, other)) && other.depth == 0
    ensures Got(c, tx.key, Reported(tx, other).(g := Reloading(tx, other)))
  {
    var x := Reported(tx, other).(g := Hears(tx, other));
    assert [0][1..] == [] && [tx] + [] == [tx];
    assert G.Apply(x.g, G.TakeBad) == G.Out(Reloading(tx, other), 0, 0, [], 1);
    assert Full(c, tx.key, x).groups == [x.g];
    hide ContractKey, Got, G.Apply, CountsFor, Full;
    QueuesOther(c, tx, other);
    GroupGoes(c, tx.key, x, G.TakeBad, G.Out(Reloading(tx, other), 0, 0, [], 1));
  }

  /** The manager has dropped the process and given its user back. */
  function Dropped(key: GroupKey): M.Manager {
    START.(known := [key], serial := 1, newTokens := 1)
  }

  const GONE := M.Desk([], [M.Response(0, 0)])

  lemma DropsHow(tx: Tx, other: Tx)
    ensures var m := Reported(tx, other).m;
            M.Runnable(m, M.HandleExit(true)) && M.Apply(m, M.HandleExit(true)) == Dropped(tx.key).(desk := GONE)
  {
    var m := Reported(tx, other).m;
    var out: seq<M.Response> := [];
    assert out + GONE.outbox == GONE.outbox && [M.SandboxExit(0, 1)][1..] == [];
    assert {1} - {1} == {};
    assert M.WithoutMember(m.t.groups, 0, 1) == map[];
    assert M.Delete(m.t, 0, 1) == START.t;
    assert M.AfterDelete(m.desk, m.t, 1, 0, 1) == GONE;
    hide M.Delete, M.AfterDelete;
  }

  lemma Drops(c: Setup, tx: Tx, other: Tx)
    requires |c.more| == c.limit && Got(c, tx.key, Reported(tx, other).(g := Reloading(tx, other)))
    ensures Got(c, tx.key, Reported(tx, other).(g := Reloading(tx, other), m := Dropped(tx.key).(desk := GONE),
                                                behind := true))
  {
    var x := Reported(tx, other).(g := Reloading(tx, other));
    var t := x.(m := Dropped(tx.key).(desk := GONE), behind := true);
    DropsHow(tx, other);
    hide ContractKey, M.Apply;
    assert x.free + c.more == c.more;
    ReachNext(Begin(c), Full(c, tx.key, x), OfManager(true, HandleExit), Full(c, tx.key, t));
  }

  /** What is left before the reload is answered. */
  function Pending(tx: Tx, other: Tx): Snap {
    Snap(Reloading(tx, other), Dropped(tx.key), [Dead(tx)], [], [], [tx], [tx, other], [], true)
  }

  lemma Reaches0(c: Setup, tx: Tx, other: Tx)
    requires |c.more| == c.limit && tx.depth == 0 && other.depth == 0 && other.key == tx.key
    ensures Got(c, tx.key, Pending(tx, other))
  {
    var x := Reported(tx, other).(g := Reloading(tx, other), m := Dropped(tx.key).(desk := GONE), behind := true);
    var msgs: seq<G.Msg> := [];
    assert msgs + [G.TxMsg(other)] == [G.TxMsg(other)] && [tx] + [other] == [tx, other];
    NoneLive(c, tx.key, x);
    hide ContractKey, Got, CountsFor, Full;
    Prepared(c, tx);
    Comes(c, tx.key, Queued(tx), other);
    Breaks(c, tx, other);
    Reloads(c, tx, other);
    Drops(c, tx, other);
    ResponseTaken(c, tx.key, x, 0, NONE);
  }

  // ----- and is refused -----

  /** A refused load, with what the group makes of it. */
  lemma Refused(c: Setup, key: GroupKey, x: Snap, o: G.Out)
    requires Got(c, key, x) && x.g.inbox == [] && !x.g.blocked && x.m.t.groups == map[]
    requires G.HandleLoadError(x.g.(timer := G.Timer(false, false))) == o && o.askOrig == 0 && o.askCross == 0
    ensures Got(c, key, x.(g := o.g, errs := x.errs + o.errors))
  {
    var x1 := x.(g := x.g.(inbox := [G.CodeMsg(false)]));
    var msgs: seq<G.Msg> := [];
    assert msgs + [G.CodeMsg(false)] == [G.CodeMsg(false)] && [G.CodeMsg(false)][1..] == [] && x.errs + [] == x.errs;
    assert G.Apply(x.g, G.PutCode(false)) == G.Out(x1.g, 0, 0, [], 0);
    assert x1.g.(inbox := []) == x.g;
    assert G.Apply(x1.g, TakeNow(c)) == o;
    NoneLive(c, key, x);
    NoneLive(c, key, x1);
    assert Full(c, key, x).groups == [x.g] && Full(c, key, x1).groups == [x1.g];
    hide ContractKey, Got, CountsFor, G.Apply, G.HandleLoadError;
    GroupGoes(c, key, x, G.PutCode(false), G.Out(x1.g, 0, 0, [], 0));
    GroupGoes(c, key, x1, TakeNow(c), o);
  }

  lemma Buffers(c: Setup, tx: Tx, other: Tx, third: Tx)
    requires Got(c, tx.key, Pending(tx, other)) && third.key == tx.key
    ensures Got(c, tx.key, Pending(tx, other).(g := Reloading(tx, other).(buf := [third]),
                                               accepted := [tx, other, third]))
  {
    var x := Pending(tx, other).(g := Reloading(tx, other).(inbox := [G.TxMsg(third)]), accepted := [tx, other, third]);
    var g1 := Reloading(tx, other).(buf := [third]);
    var msgs: seq<G.Msg>, txs: seq<Tx> := [], [];
    assert msgs + [G.TxMsg(third)] == [G.TxMsg(third)] && [tx, other] + [third] == [tx, other, third] &&
      txs + [third] == [third];
    assert [G.TxMsg(third)][1..] == [] && [tx] + [] == [tx];
    assert G.Apply(x.g, TakeNow(c)) == G.Out(g1, 0, 0, [], 0);
    NoneLive(c, tx.key, x);
    assert Full(c, tx.key, x).groups == [x.g];
    hide ContractKey, Got, CountsFor, G.Apply;
    Comes(c, tx.key, Pending(tx, other), third);
    GroupGoes(c, tx.key, x, TakeNow(c), G.Out(g1, 0, 0, [], 0));
  }

  /** The second transaction's end. */
  function Stuck(tx: Tx, other: Tx): Snap {
    Pending(tx, other).(g := G.NewGroup(tx.key).(orig := G.Controller([other], false), blocked := true))
  }

  function Idling(tx: Tx, other: Tx, third: Tx): Snap {
    Pending(tx, other).(g := G.NewGroup(tx.key).(orig := G.Controller([other], false)),
                        errs := [tx, third], accepted := [tx, other, third])
  }

  lemma IsStranded(c: Setup, key: GroupKey, x: Snap)
    requires x.g.load == G.Empty && x.g.orig.queue != [] && !x.g.orig.waiting && Silent(x.g)
    requires x.m.inbox == [] && x.m.desk.waiting == [] && x.m.job.NoJob? && forall i :: 0 <= i < |x.procs| ==>
      x.procs[i].done
    ensures Stranded(Full(c, key, x), 0, true)
  {
    hide ContractKey;
  }

  /** With nothing buffered, the refusal leaves the second transaction in a group that is stuck: over every run from
      there it stays in its queue. */
  lemma LeftForEver(c: Setup, tx: Tx, other: Tx)
    requires Configured(c.limit, 1, [USER] + c.more)
    requires tx.depth == 0 && other.depth == 0 && other.key == tx.key
    ensures exists s ::
              && Reaches(Begin(c), s) && Stranded(s, 0, true) && s.groups[0].blocked
              && s.groups[0].orig.queue == [other]
              && forall ls :: Possible(s, ls) ==>
                   Stranded(After(s, ls), 0, true) && After(s, ls).groups[0].orig.queue == [other]
  {
    var x := Pending(tx, other);
    assert [tx] + [] == [tx];
    Reaches0(c, tx, other);
    Refused(c, tx.key, x, G.Out(Stuck(tx, other).g, 0, 0, [], 0));
    var s := Full(c, tx.key, Stuck(tx, other));
    IsStranded(c, tx.key, Stuck(tx, other));
    hide ContractKey;
    ReachesWired(c, s);
    forall ls | Possible(s, ls) ensures Stranded(After(s, ls), 0, true) &&
      After(s, ls).groups[0].orig.queue == [other] {
      RunStrands(s, ls, 0, true);
    }
  }

  /** With a third one buffered, that one fails and the second stays queued until something rouses the group. */
  lemma LeftUntilRoused(c: Setup, tx: Tx, other: Tx, third: Tx)
    requires Configured(c.limit, 1, [USER] + c.more)
    requires tx.depth == 0 && other.depth == 0 && other.key == tx.key && third.key == tx.key
    ensures exists s ::
              && Reaches(Begin(c), s) && Stranded(s, 0, true) && !s.groups[0].blocked
              && s.groups[0].orig.queue == [other]
              && forall ls :: Possible(s, ls) && Undisturbed(s, ls, 0) ==>
                   Stranded(After(s, ls), 0, true) && After(s, ls).groups[0].orig.queue == [other]
  {
    var x := Pending(tx, other).(g := Reloading(tx, other).(buf := [third]), accepted := [tx, other, third]);
    assert [tx] + [third] == [tx, third] && [third][1..] == [];
    Reaches0(c, tx, other);
    Buffers(c, tx, other, third);
    Refused(c, tx.key, x, G.Out(Idling(tx, other, third).g, 0, 0, [third], 0));
    var s := Full(c, tx.key, Idling(tx, other, third));
    IsStranded(c, tx.key, Idling(tx, other, third));
    hide ContractKey;
    ReachesWired(c, s);
    forall ls | Possible(s, ls) && Undisturbed(s, ls, 0)
      ensures Stranded(After(s, ls), 0, true) && After(s, ls).groups[0].orig.queue == [other]
    {
      RunStrands(s, ls, 0, true);
    }
  }

  lemma ReachesWired(c: Setup, s: Sys)
    requires Configured(c.limit, 1, [USER] + c.more) && Reaches(Begin(c), s)
    ensures Wired(s)
  {
    var ls :| Possible(Begin(c), ls) && After(Begin(c), ls) == s;
    InitialWired(c.limit, 1, 0.0, [USER] + c.more);
    RunWired(Begin(c), ls);
  }
}
