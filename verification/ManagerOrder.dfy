/**
 The manager's two lists are queues in time: over every run an idle process that has
 been idle longer, and a group that has waited longer, stands further in front.
 */
module ManagerOrder {
  import opened ManagerModel
  import opened ManagerIndexes

  ghost predicate Before(s: seq<nat>, x: nat, y: nat) {
    exists i, j :: 0 <= i < j < |s| && s[i] == x && s[j] == y
  }

  /** Who stays keeps its place before those behind it and those who come. */
  ghost predicate Queues(s: seq<nat>, r: seq<nat>) {
    forall x: nat, y: nat :: x in s && x in r && y in r && x != y && (y in s ==> Before(s, x, y)) ==> Before(r, x, y)
  }

  lemma QueuesSame(s: seq<nat>)
    ensures Queues(s, s)
  {
  }

  lemma DropAtBefore(s: seq<nat>, k: nat, x: nat, y: nat)
    requires k < |s| && Before(s, x, y) && x != s[k] && y != s[k]
    ensures Before(DropAt(s, k), x, y)
  {
    var i, j :| 0 <= i < j < |s| && s[i] == x && s[j] == y;
    var r := DropAt(s, k);
    var a, b := if i < k then i else i - 1, if j < k then j else j - 1;
    assert r[a] == x && r[b] == y;
  }

  lemma QueuesDrop(s: seq<nat>, z: nat)
    requires Distinct(s)
    ensures Queues(s, Drop(s, z)) && Distinct(Drop(s, z)) && (forall x :: x in Drop(s, z) ==> x in s)
  {
    DropShape(s, z);
    var k := IndexFrom(s, z, 0);
    var r := Drop(s, z);
    forall x: nat, y: nat | x in s && x in r && y in r && x != y && (y in s ==> Before(s, x, y))
      ensures Before(r, x, y)
    {
      if k < |s| {
        DropAtBefore(s, k, x, y);
      }
    }
  }

  lemma QueuesDropTwice(s: seq<nat>, z: nat, w: nat)
    requires Distinct(s)
    ensures Queues(s, Drop(Drop(s, z), w))
  {
    QueuesDrop(s, z);
    QueuesDrop(Drop(s, z), w);
    hide Drop, Distinct, Before;
  }

  lemma QueuesPush(s: seq<nat>, z: nat)
    ensures Queues(s, Push(s, z))
  {
    var r := Push(s, z);
    forall x: nat, y: nat | x in s && x in r && y in r && x != y && (y in s ==> Before(s, x, y))
      ensures Before(r, x, y)
    {
      if y in s {
        var i, j :| 0 <= i < j < |s| && s[i] == x && s[j] == y;
        assert r[i] == x && r[j] == y;
      } else {
        var i :| 0 <= i < |s| && s[i] == x;
        assert r[i] == x && r[|s|] == y;
      }
    }
  }

  // ----- every event -----

  /** One event does to a list nothing but taking out, once or twice, or adding at the end. */
  predicate Shifts(s: seq<nat>, r: seq<nat>, z: nat, w: nat) {
    r == s || r == Drop(s, z) || r == Drop(Drop(s, z), w) || r == Push(s, z)
  }

  lemma ShiftsQueue(s: seq<nat>, r: seq<nat>, z: nat, w: nat)
    requires Distinct(s) && Shifts(s, r, z, w)
    ensures Queues(s, r)
  {
    QueuesSame(s);
    QueuesDrop(s, z);
    QueuesDropTwice(s, z, w);
    QueuesPush(s, z);
  }

  lemma OrderShifts(m: Manager, ev: Event) returns (z: nat)
    requires Runnable(m, ev)
    ensures Shifts(m.t.order, Apply(m, ev).t.order, z, 0)
  {
    hide Drop, Push, WithMember, WithoutMember, AfterDelete, Wake, SameContract;
    match ev
    case MarkBusy(id) => z := id;
    case MarkIdle(id) => z := id;
    case HandleExit(_) => z := m.inbox[0].id;
    case Close(i, _, _) => z := m.job.victims[i];
    case Reuse(i, _) => z := m.job.picks[i];
    case Hand(i, _) => z := m.job.pairs[i].id;
    case _ => z := 0;
  }

  lemma WaitingShifts(m: Manager, ev: Event) returns (z: nat, w: nat)
    requires Runnable(m, ev)
    ensures Shifts(m.desk.waiting, Apply(m, ev).desk.waiting, z, w)
  {
    hide Drop, Push, WithMember, WithoutMember, SameContract, Insert, Delete;
    z, w := 0, 0;
    match ev
    case MarkIdle(id) => if id in m.t.busy { z := m.t.busy[id].group; }
    case BeginRequest => z := m.inbox[0].group;
    case EndRequest => z := m.job.group;
    case HandleExit(_) => z := m.inbox[0].group;
    case Close(i, _, _) => z := m.t.idle[m.job.victims[i]].group;
    case Reuse(i, _) => z := m.t.idle[m.job.picks[i]].group;
    case Hand(i, _) => z, w := m.job.pairs[i].group, m.t.idle[m.job.pairs[i].id].group;
    case Launch(i, _) => z := m.job.todo[i];
    case _ =>
  }

  /** Every event of a manager leaves both lists as queues in time. */
  lemma StepQueues(m: Manager, ev: Event)
    requires Good(m) && Enabled(m, ev)
    ensures Runnable(m, ev) && Queues(m.t.order, Apply(m, ev).t.order)
    ensures Queues(m.desk.waiting, Apply(m, ev).desk.waiting)
  {
    StepGood(m, ev);
    assert Distinct(m.t.order) && Distinct(m.desk.waiting);
    hide Good, Enabled, Runnable, Apply, Shifts, Queues, Distinct;
    var z := OrderShifts(m, ev);
    ShiftsQueue(m.t.order, Apply(m, ev).t.order, z, 0);
    var a, b := WaitingShifts(m, ev);
    ShiftsQueue(m.desk.waiting, Apply(m, ev).desk.waiting, a, b);
  }

  // ----- every run -----

  /** Idle throughout the run. */
  ghost predicate StaysIdle(m: Manager, evs: seq<Event>, x: nat)
    requires Possible(m, evs)
    decreases |evs|
  {
    x in m.t.order && (evs != [] ==> StaysIdle(Apply(m, evs[0]), evs[1..], x))
  }

  /** On the waiting list throughout the run. */
  ghost predicate StaysWaiting(m: Manager, evs: seq<Event>, g: nat)
    requires Possible(m, evs)
    decreases |evs|
  {
    g in m.desk.waiting && (evs != [] ==> StaysWaiting(Apply(m, evs[0]), evs[1..], g))
  }

  /** Over every run from any good state: of two idle processes the one that has been idle longer is in front, so that
      the front of the list is what has been idle longest. */
  lemma {:induction false} IdleLongestFirst(m: Manager, evs: seq<Event>, x: nat, y: nat)
    requires Good(m) && Possible(m, evs) && StaysIdle(m, evs, x) && x != y
    requires y in m.t.order ==> Before(m.t.order, x, y)
    ensures y in After(m, evs).t.order ==> Before(After(m, evs).t.order, x, y)
    decreases |evs|
  {
    if evs != [] {
      StepQueues(m, evs[0]);
      StepGood(m, evs[0]);
      hide Good, Enabled, Runnable, Apply, Before;
      assert evs[1..] == [] ==> x in Apply(m, evs[0]).t.order;
      IdleLongestFirst(Apply(m, evs[0]), evs[1..], x, y);
    }
  }

  /** Over every run from any good state: of two waiting groups the one that has waited longer is in front. */
  lemma {:induction false} WaitingLongestFirst(m: Manager, evs: seq<Event>, g: nat, h: nat)
    requires Good(m) && Possible(m, evs) && StaysWaiting(m, evs, g) && g != h
    requires h in m.desk.waiting ==> Before(m.desk.waiting, g, h)
    ensures h in After(m, evs).desk.waiting ==> Before(After(m, evs).desk.waiting, g, h)
    decreases |evs|
  {
    if evs != [] {
      StepQueues(m, evs[0]);
      StepGood(m, evs[0]);
      hide Good, Enabled, Runnable, Apply, Before;
      assert evs[1..] == [] ==> g in Apply(m, evs[0]).desk.waiting;
      WaitingLongestFirst(Apply(m, evs[0]), evs[1..], g, h);
    }
  }
}
