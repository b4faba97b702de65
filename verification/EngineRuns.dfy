/**
 Runs of the engine that are walked step by step: the engine with room for one
 original process and one group, for every call depth.
 */
module EngineRuns {
  import opened Keys
  import opened Transactions
  import opened EngineModel
  import G = GroupModel
  import M = ManagerModel
  import P = ProcessModel
  import F = FixedFifo

  // ----- reachability -----

  ghost predicate Reaches(s: Sys, r: Sys) {
    exists ls :: Possible(s, ls) && After(s, ls) == r
  }

  lemma {:induction false} RunExtends(s: Sys, ls: seq<Label>, l: Label)
    requires Possible(s, ls) && May(After(s, ls), l)
    ensures Possible(s, ls + [l]) && After(s, ls + [l]) == Next(After(s, ls), l)
    decreases |ls|
  {
    hide May, Next;
    if ls == [] {
      assert ls + [l] == [l] && [l][1..] == [];
      assert Possible(Next(s, l), []) && After(Next(s, l), []) == Next(s, l);
    } else {
      assert (ls + [l])[1..] == ls[1..] + [l];
      RunExtends(Next(s, ls[0]), ls[1..], l);
    }
  }

  lemma ReachNext(s: Sys, r: Sys, l: Label, t: Sys)
    requires Reaches(s, r) && May(r, l) && Next(r, l) == t
    ensures Reaches(s, t)
  {
    hide May, Next;
    var ls :| Possible(s, ls) && After(s, ls) == r;
    RunExtends(s, ls, l);
  }

  // ----- snapshots -----

  const NONE := G.Counts(0, 0)
  const USER: nat := 10000

  /** CallContractDepth, and the users beyond the first. */
  datatype Setup = Setup(limit: nat, more: seq<nat>)

  /** The engine with one group, and what changes during the runs. */
  datatype Snap = Snap(g: G.Group, m: M.Manager, procs: seq<P.Proc>, free: seq<nat>, txCh: seq<Tx>, errs: seq<Tx>,
                       accepted: seq<Tx>, answered: seq<Tx>, behind: bool)

  /** The free users: the first one is in front of the others, in use, or given back behind them. */
  function Users(c: Setup, x: Snap): seq<nat> {
    if x.behind then c.more + [USER] else x.free + c.more
  }

  function Begin(c: Setup): Sys {
    Initial(c.limit, 1, 0.0, [USER] + c.more)
  }

  function Full(c: Setup, key: GroupKey, x: Snap): Sys {
    Sys(c.limit, Sched(x.txCh, x.errs, map[ContractKey(key) := 0]), [x.g], x.m.(known := [key]),
        M.Initial(M.Config(false, c.limit, 0.0)).(known := [key]), x.procs, F.Fifo(c.limit + 1, Users(c, x), []),
        Past(x.accepted, x.answered, [], []))
  }

  /** Some run from the start leads there. */
  ghost predicate Got(c: Setup, key: GroupKey, x: Snap) {
    Reaches(Begin(c), Full(c, key, x))
  }

  /** A further transaction of the contract comes to the group. */
  lemma Comes(c: Setup, key: GroupKey, x: Snap, tx: Tx)
    requires Got(c, key, x) && x.txCh == [] && tx.key == key
    ensures Got(c, key, x.(g := x.g.(inbox := x.g.inbox + [G.TxMsg(tx)]), accepted := x.accepted + [tx]))
  {
    hide ContractKey;
    var x1 := x.(txCh := [tx], accepted := x.accepted + [tx]);
    var x2 := x.(g := x.g.(inbox := x.g.inbox + [G.TxMsg(tx)]), accepted := x.accepted + [tx]);
    var none: seq<Tx> := [];
    assert none + [tx] == [tx] && [tx][1..] == [];
    ReachNext(Begin(c), Full(c, key, x), Arrive(tx), Full(c, key, x1));
    assert Next(Full(c, key, x1), Dispatch).groups == [x2.g];
    ReachNext(Begin(c), Full(c, key, x1), Dispatch, Full(c, key, x2));
  }

  /** A step of the group that asks for no process. */
  lemma GroupGoes(c: Setup, key: GroupKey, x: Snap, ev: G.Event, o: G.Out)
    requires Got(c, key, x) && MayGroup(Full(c, key, x), 0, Own(ev)) && G.Apply(x.g, ev) == o && o.askOrig == 0 &&
      o.askCross == 0
    ensures Got(c, key, x.(g := o.g, errs := x.errs + o.errors))
  {
    hide ContractKey, G.Apply, CountsFor, G.Enabled;
    var t := x.(g := o.g, errs := x.errs + o.errors);
    assert Next(Full(c, key, x), OfGroup(0, Own(ev))).groups == [t.g];
    ReachNext(Begin(c), Full(c, key, x), OfGroup(0, Own(ev)), Full(c, key, t));
  }
}
