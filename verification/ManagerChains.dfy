/**
 What a manager does when contracts of two chains share name and version.  Whether an
 idle process already serves a group is decided by name and version alone, so a group
 may be counted as served by a process of another chain.  On one chain an answer that
 promises processes comes with one; across chains it need not, and a group may wait
 beside an idle process that nobody will give it.
 */
module ManagerChains {
  import opened Keys
  import opened ManagerModel
  import opened ManagerIndexes
  import opened ManagerWakeups

  // ----- what an answer promises -----

  /** A request that has been given something has a live process of its group. */
  predicate Supplied(m: Manager) {
    (m.job.Creating? || m.job.Reusing?) && m.job.need < m.job.total ==> m.job.group in m.t.groups
  }

  /** A process of another group is counted for a group that has none. */
  predicate Borrows(m: Manager, ev: Event)
    requires Runnable(m, ev)
  {
    ev.Reuse? && SameContract(m, m.job.group, m.t.idle[m.job.picks[ev.i]].group) && m.job.group !in m.t.groups
  }

  /** The event sends the group a response that promises at least one process. */
  predicate Promises(m: Manager, r: Manager, g: nat) {
    exists i | |m.desk.outbox| <= i < |r.desk.outbox| :: r.desk.outbox[i].group == g && r.desk.outbox[i].num > 0
  }

  lemma TransferJoins(t: Tables, id: nat, group: nat, to: nat)
    requires id in t.idle
    ensures group in Transfer(t, id, group, to).groups
  {
  }

  lemma SuppliedReuse(m: Manager, i: nat, ok: bool)
    requires Good(m) && Supplied(m) && Enabled(m, Reuse(i, ok)) && Runnable(m, Reuse(i, ok))
    ensures Supplied(DoReuse(m, i, ok)) <==> !Borrows(m, Reuse(i, ok))
  {
    hide ExitsLive, DeskOk, TablesOk, AfterDelete, Transfer;
    TransferJoins(m.t, m.job.picks[i], m.job.group, m.serial + 1);
  }

  /** Exactly such a count breaks it. */
  lemma SuppliedExactly(m: Manager, ev: Event)
    requires Good(m) && Supplied(m) && Enabled(m, ev) && Runnable(m, ev)
    ensures Supplied(Apply(m, ev)) <==> !Borrows(m, ev)
  {
    hide ExitsLive, DeskOk, TablesOk, JobFits, AfterDelete, Transfer, Wake, Send, Delete, SameContract;
    if ev.Reuse? {
      hide Good, Borrows;
      SuppliedReuse(m, ev.i, ev.ok);
    }
  }

  /** On one chain no process is counted for another group. */
  lemma NeverBorrows(m: Manager, ev: Event)
    requires Good(m) && OneChain(m) && Runnable(m, ev)
    ensures !Borrows(m, ev)
  {
    if ev.Reuse? {
      var id := m.job.picks[ev.i];
      var g := m.t.idle[id].group;
      assert Listed(m.t, id) && Member(m.t.groups, g, id);
    }
  }

  lemma HandPromises(m: Manager, i: nat, ok: bool, g: nat)
    requires Good(m) && Enabled(m, Hand(i, ok)) && Runnable(m, Hand(i, ok)) && Promises(m, DoHand(m, i, ok), g)
    ensures g in DoHand(m, i, ok).t.groups
  {
    hide ExitsLive, DeskOk, TablesOk, Transfer, Drop, WithoutMember;
    var Match(id, group) := m.job.pairs[i];
    TransferJoins(m.t, id, group, m.serial + 1);
  }

  /** A response that promises processes goes to a group with a live one, unless the creation it counts on failed. */
  lemma PromiseKept(m: Manager, ev: Event, g: nat)
    requires Good(m) && Supplied(m) && Enabled(m, ev) && Runnable(m, ev) && Promises(m, Apply(m, ev), g) && Reliable(ev)
    ensures g in Apply(m, ev).t.groups
  {
    hide ExitsLive, DeskOk, TablesOk, JobFits, Transfer, Drop, WithoutMember, SameContract;
    if ev.Hand? {
      hide *;
      HandPromises(m, ev.i, ev.ok, g);
    }
  }

  lemma {:induction false} SuppliedRun(m: Manager, evs: seq<Event>)
    requires Good(m) && Supplied(m) && Possible(m, evs) && OneChain(After(m, evs))
    ensures Supplied(After(m, evs)) && Good(After(m, evs))
    decreases |evs|
  {
    hide Good, Supplied, Enabled, Runnable, Apply, Borrows;
    if evs != [] {
      OneChainEarlier(m, evs);
      NeverBorrows(m, evs[0]);
      SuppliedExactly(m, evs[0]);
      StepGood(m, evs[0]);
      SuppliedRun(Apply(m, evs[0]), evs[1..]);
    }
  }

  /** In every run on one chain, with working creations: a response that promises processes is sent only to a group
      that has a live process of its own. */
  lemma AnswerMeansProcess(cfg: Config, evs: seq<Event>, ev: Event, g: nat)
    requires Possible(Initial(cfg), evs) && OneChain(After(Initial(cfg), evs))
    requires var m := After(Initial(cfg), evs);
             Enabled(m, ev) && Runnable(m, ev) && Reliable(ev) && Promises(m, Apply(m, ev), g)
    ensures g in Apply(After(Initial(cfg), evs), ev).t.groups
  {
    InitialGood(cfg);
    SuppliedRun(Initial(cfg), evs);
    PromiseKept(After(Initial(cfg), evs), ev, g);
  }

  // ----- runs across chains, with room for one process -----

  const CFG := Config(true, 1, 0.0)
  const ENTRY := Entry(0, 0, 7)

  /** Process 1 of group 0 is the only one, busy or idle. */
  function With(known: seq<GroupKey>, idle: bool, waiting: seq<nat>, outbox: seq<Response>, inbox: seq<Request>,
      job: Job,
                tokens: nat): Manager
  {
    Manager(CFG, known,
            if idle then Tables(map[1 := ENTRY], [1], map[], 0, map[0 := {1}])
            else Tables(map[], [], map[1 := ENTRY], 1, map[0 := {1}]),
            Desk(waiting, outbox), inbox, tokens, 0, 1, true, job)
  }

  /** Some run from the start leads there. */
  ghost predicate Reached(m: Manager) {
    Reaches(Initial(CFG), m)
  }

  lemma Step(m: Manager, ev: Event, r: Manager)
    requires Reached(m) && Enabled(m, ev) && Runnable(m, ev) && Apply(m, ev) == r
    ensures Reached(r)
  {
    hide Enabled, Runnable, Apply;
    ReachNext(Initial(CFG), m, ev, r);
  }

  lemma {:induction false} Registers(known: seq<GroupKey>)
    ensures Reached(Initial(CFG).(known := known))
    decreases |known|
  {
    var m := Initial(CFG);
    if known == [] {
      assert Possible(m, []) && After(m, []) == m;
    } else {
      var n := |known| - 1;
      Registers(known[..n]);
      assert known[..n] + [known[n]] == known;
      Step(m.(known := known[..n]), Learn(known[n]), m.(known := known));
    }
  }

  /** A group's request for one process is taken. */
  lemma Asks(m: Manager, g: nat)
    requires Reached(m) && m.job.NoJob? && m.inbox == [] && g < |m.known|
    ensures Reached(m.(job := Creating(g, 1, 1, if Available(m) > 0 then 1 else 0)))
  {
    var asked: seq<Request> := [];
    assert asked + [GetProcess(g, 1)] == [GetProcess(g, 1)] && [GetProcess(g, 1)][1..] == [];
    var m1 := m.(inbox := [GetProcess(g, 1)]);
    hide Reached;
    Step(m, Ask(g, 1), m1);
    Step(m1, BeginRequest, m.(job := Creating(g, 1, 1, if Available(m) > 0 then 1 else 0)));
  }

  /** The handler ends with what it has: a process, or a place on the waiting list. */
  lemma Answers(m: Manager, g: nat, need: nat)
    requires Reached(m) && m.job == Reusing(g, 1, need, []) && need <= 1 && g < |m.known| && g !in m.desk.waiting
    ensures Reached(m.(job := NoJob, desk := if need == 1 then Desk(m.desk.waiting + [g], m.desk.outbox)
                                             else Desk(m.desk.waiting, m.desk.outbox + [Response(g, 1)])))
  {
    hide Reached;
    Step(m, EndRequest, m.(job := NoJob, desk := if need == 1 then Desk(m.desk.waiting + [g], m.desk.outbox)
                                                 else Desk(m.desk.waiting, m.desk.outbox + [Response(g, 1)])));
  }

  const GIVEN := [Response(0, 1)]

  lemma Creates(known: seq<GroupKey>)
    requires |known| > 0 && Reached(Initial(CFG).(known := known, job := Creating(0, 1, 1, 1)))
    ensures Reached(With(known, false, [], [], [], Creating(0, 1, 0, 0), 0))
  {
    var m2 := Initial(CFG).(known := known, job := Creating(0, 1, 1, 1));
    var m3 := With(known, false, [], [], [], Creating(0, 1, 0, 0), 0);
    var names: set<nat> := {};
    assert names + {1} == {1};
    assert Insert(m2.t, 1, ENTRY) == m3.t;
    hide Reached, Insert;
    Step(m2, Create(Made(0, 7)), m3);
  }

  /** Group 0 asks and gets its process. */
  lemma Starts(known: seq<GroupKey>)
    requires |known| > 0
    ensures Reached(With(known, false, [], GIVEN, [], NoJob, 0))
  {
    Registers(known);
    var m3 := With(known, false, [], [], [], Creating(0, 1, 0, 0), 0);
    var m4 := With(known, false, [], [], [], Reusing(0, 1, 0, []), 0);
    var sent: seq<Response> := [];
    assert sent + GIVEN == GIVEN;
    assert Apply(m3, BeginReuse) == m4;
    hide Reached, Apply;
    Asks(Initial(CFG).(known := known), 0);
    Creates(known);
    Step(m3, BeginReuse, m4);
    Answers(m4, 0, 0);
  }

  /** Another group asks while the process is busy, and waits. */
  lemma Waits(known: seq<GroupKey>, waiting: seq<nat>, g: nat)
    requires g < |known| && g !in waiting && Reached(With(known, false, waiting, GIVEN, [], NoJob, 0))
    ensures Reached(With(known, false, waiting + [g], GIVEN, [], NoJob, 0))
  {
    var m2 := With(known, false, waiting, GIVEN, [], Creating(g, 1, 1, 0), 0);
    var m3 := With(known, false, waiting, GIVEN, [], Reusing(g, 1, 1, []), 0);
    assert Apply(m2, BeginReuse) == m3;
    hide Reached, Apply;
    Asks(With(known, false, waiting, GIVEN, [], NoJob, 0), g);
    Step(m2, BeginReuse, m3);
    Answers(m3, g, 1);
  }

  lemma Rests(known: seq<GroupKey>, waiting: seq<nat>)
    requires |known| > 0 && 0 !in waiting && Reached(With(known, false, waiting, GIVEN, [], NoJob, 0))
    ensures Reached(With(known, true, waiting, GIVEN, [], NoJob, if waiting == [] then 0 else 1))
  {
    var m := With(known, false, waiting, GIVEN, [], NoJob, 0);
    var r := With(known, true, waiting, GIVEN, [], NoJob, if waiting == [] then 0 else 1);
    assert BusyToIdle(m.t, 1) == r.t by {
      assert map[1 := ENTRY] - {1} == map[];
      var none: map<nat, Entry>, names: seq<nat> := map[], [];
      assert none[1 := ENTRY] == map[1 := ENTRY] && names + [1] == [1];
    }
    Step(m, MarkIdle(1), r);
  }

  /** Two keys that differ in the chain only. */
  predicate Twins(j: GroupKey, k: GroupKey) {
    j.name == k.name && j.version == k.version && j != k
  }

  lemma Borrowed(known: seq<GroupKey>)
    requires |known| == 2 && Twins(known[0], known[1]) && Reached(With(known, true, [], GIVEN, [],
      Creating(1, 1, 1, 0), 0))
    ensures Reached(With(known, true, [], GIVEN, [], Reusing(1, 1, 0, []), 0))
  {
    var m2 := With(known, true, [], GIVEN, [], Creating(1, 1, 1, 0), 0);
    var m3 := With(known, true, [], GIVEN, [], Reusing(1, 1, 1, [1]), 0);
    var m4 := With(known, true, [], GIVEN, [], Reusing(1, 1, 0, []), 0);
    assert [1][..1] == [1] && DropAt([1], 0) == [];
    assert Apply(m2, BeginReuse) == m3 && Apply(m3, Reuse(0, true)) == m4;
    hide Reached, Apply;
    Step(m2, BeginReuse, m3);
    Step(m3, Reuse(0, true), m4);
  }

  /** It fails across chains: a group is told that it has a process while its only counterpart on another chain does. */
  lemma PromiseBroken(known: seq<GroupKey>)
    requires |known| == 2 && Twins(known[0], known[1])
    ensures exists m :: Reached(m) && Response(1, 1) in m.desk.outbox && 1 !in m.t.groups
  {
    var m5 := With(known, true, [], GIVEN + [Response(1, 1)], [], NoJob, 0);
    assert Response(1, 1) in m5.desk.outbox && 1 !in m5.t.groups;
    hide Reached, Twins;
    Starts(known);
    Rests(known, []);
    Asks(With(known, true, [], GIVEN, [], NoJob, 0), 1);
    Borrowed(known);
    Answers(With(known, true, [], GIVEN, [], Reusing(1, 1, 0, []), 0), 1, 0);
  }

  lemma Paired(known: seq<GroupKey>)
    requires |known| == 3 && Reached(With(known, true, [1, 2], GIVEN, [], NoJob, 1))
    ensures Reached(With(known, true, [1, 2], GIVEN, [], Pairing([Match(1, 1)]), 0))
  {
    var m := With(known, true, [1, 2], GIVEN, [], NoJob, 1);
    var m1 := With(known, true, [1, 2], GIVEN, [], Pairing([Match(1, 1)]), 0);
    assert [1][..1] == [1] && [1, 2][..1] == [1];
    assert Zip([1], [1]) == [Match(1, 1)];
    assert Apply(m, BeginIdle) == m1;
    hide Reached, Apply;
    Step(m, BeginIdle, m1);
  }

  const TOLD := GIVEN + [Response(1, 0)] + [Response(1, 0)]

  lemma NotMoved(known: seq<GroupKey>)
    requires |known| == 3 && Twins(known[0], known[1])
    requires Reached(With(known, true, [1, 2], GIVEN, [], Pairing([Match(1, 1)]), 0))
    ensures Reached(With(known, true, [2], TOLD, [], Pairing([]), 0))
  {
    var m1 := With(known, true, [1, 2], GIVEN, [], Pairing([Match(1, 1)]), 0);
    var m2 := With(known, true, [2], TOLD, [], Pairing([]), 0);
    assert DropAt([Match(1, 1)], 0) == [];
    assert Drop([1, 2], 1) == [2] by {
      assert IndexFrom([1, 2], 1, 0) == 0;
    }
    hide Drop;
    assert Apply(m1, Hand(0, true)) == m2;
    hide Reached, Apply;
    Step(m1, Hand(0, true), m2);
  }

  /** A group waits beside an idle process, the lock is free and no token is pending: the process was paired with its
      twin from another chain. */
  lemma IdleLost(known: seq<GroupKey>)
    requires |known| == 3 && Twins(known[0], known[1])
    ensures exists m :: Reached(m) && m.job.NoJob? && m.desk.waiting == [2] && m.t.order == [1] && m.idleTokens == 0
  {
    var none: seq<nat> := [];
    assert none + [1] == [1] && [1] + [2] == [1, 2];
    var m2 := With(known, true, [2], TOLD, [], Pairing([]), 0);
    var m3 := With(known, true, [2], TOLD, [], NoJob, 0);
    assert Apply(m2, EndIdle) == m3;
    hide Reached, Twins, Apply;
    Starts(known);
    Waits(known, [], 1);
    Waits(known, [1], 2);
    Rests(known, [1, 2]);
    Paired(known);
    NotMoved(known);
    Step(m2, EndIdle, m3);
  }
}
