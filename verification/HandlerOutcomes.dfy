/**
 What the process manager's handlers do from beginning to end, in any order of their
 goroutines and whatever the surroundings answer, said of the tables before and after:
 how many processes a request gives a group and which, what it is told, and what a
 cleaning or an allocation leaves.
 */
module HandlerOutcomes {
  import opened Keys
  import opened ManagerModel
  import opened ManagerIndexes
  import opened ProcessManagers

  // ----- tables -----

  /** The names of a group's live processes. */
  function Team(t: Tables, g: nat): set<nat> {
    if g in t.groups then t.groups[g] else {}
  }

  /** The process object works for the group. */
  ghost predicate Works(t: Tables, g: nat, pid: nat) {
    exists n :: n in t.busy && t.busy[n].group == g && t.busy[n].pid == pid
  }

  /** What the tables keep in any case: indexes agree and the next name is new. */
  ghost predicate Sound(t: Tables, serial: nat) {
    Disjoint(t) && Indexed(t) && forall n: nat :: Listed(t, n) ==> n <= serial
  }

  /** No busy process is taken away. */
  ghost predicate Keeps(t: Tables, r: Tables) {
    forall n :: n in t.busy ==> n in r.busy && r.busy[n] == t.busy[n]
  }

  lemma KeepsWorks(t: Tables, r: Tables, g: nat, pid: nat)
    requires Keeps(t, r) && Works(t, g, pid)
    ensures Works(r, g, pid)
  {
  }

  /** A list without the members of a set, in order. */
  function Minus(s: seq<nat>, a: set<nat>): seq<nat> {
    if s == [] then [] else (if s[0] in a then [] else [s[0]]) + Minus(s[1..], a)
  }

  lemma {:induction false} MinusJoin(x: seq<nat>, y: seq<nat>, a: set<nat>)
    ensures Minus(x + y, a) == Minus(x, a) + Minus(y, a)
  {
    if x == [] {
      assert x + y == y;
    } else {
      assert (x + y)[1..] == x[1..] + y;
      MinusJoin(x[1..], y, a);
    }
  }

  lemma {:induction false} MinusNone(s: seq<nat>, a: set<nat>)
    requires forall n :: n in s ==> n !in a
    ensures Minus(s, a) == s
  {
    if s != [] {
      assert s[0] in s;
      MinusNone(s[1..], a);
    }
  }

  lemma {:induction false} MinusAll(s: seq<nat>, a: set<nat>)
    requires forall n :: n in s ==> n in a
    ensures Minus(s, a) == []
  {
    if s != [] {
      assert s[0] in s;
      MinusAll(s[1..], a);
    }
  }

  lemma {:induction false} MinusTwice(s: seq<nat>, a: set<nat>, b: set<nat>)
    ensures Minus(Minus(s, a), b) == Minus(s, a + b)
  {
    if s != [] {
      MinusTwice(s[1..], a, b);
      var rest := Minus(s[1..], a);
      assert [] + rest == rest && ([s[0]] + rest)[1..] == rest;
    }
  }

  lemma {:induction false} CutMinus(s: seq<nat>, i: nat)
    requires Distinct(s) && i < |s|
    ensures Minus(s, {s[i]}) == s[..i] + s[i + 1..]
    decreases |s|
  {
    if i == 0 {
      assert forall n :: n in s[1..] ==> n !in {s[0]};
      MinusNone(s[1..], {s[0]});
      assert s[..0] + s[1..] == s[1..] == [] + s[1..];
    } else {
      assert s[0] != s[i];
      CutMinus(s[1..], i - 1);
      assert s[1..][i - 1] == s[i] && s[1..][..i - 1] == s[1..i] && s[1..][i..] == s[i + 1..];
      assert s[..i] == [s[0]] + s[1..i];
    }
  }

  lemma DropIsMinus(s: seq<nat>, x: nat)
    requires Distinct(s)
    ensures Drop(s, x) == Minus(s, {x})
  {
    var i := IndexFrom(s, x, 0);
    hide Distinct, Minus;
    if i < |s| {
      CutMinus(s, i);
    } else {
      assert forall n :: n in s ==> n !in {x};
      MinusNone(s, {x});
    }
  }

  /** The first `n` of a list are its front. */
  lemma FrontMinus(s: seq<nat>, n: nat, a: set<nat>)
    requires Distinct(s) && n <= |s| && (forall x :: x in a <==> x in s[..n])
    ensures Minus(s, a) == s[n..]
  {
    assert s == s[..n] + s[n..];
    MinusJoin(s[..n], s[n..], a);
    MinusAll(s[..n], a);
    forall x | x in s[n..] ensures x !in a {
      var j :| n <= j < |s| && s[j] == x;
      assert forall i :: 0 <= i < n ==> s[i] != s[j];
    }
    MinusNone(s[n..], a);
  }

  lemma {:induction false} FrontSize(s: seq<nat>, a: set<nat>)
    requires Distinct(s) && (forall x :: x in a <==> x in s)
    ensures |a| == |s|
    decreases |s|
  {
    if s == [] {
      assert a == {};
    } else {
      var n := |s| - 1;
      assert s[n] in s;
      FrontSize(s[..n], a - {s[n]});
    }
  }

  lemma WithTeam(t: Tables, id: nat, e: Entry)
    ensures forall g: nat :: Team(Insert(t, id, e), g) == Team(t, g) + if g == e.group then {id} else {}
  {
  }

  lemma WithoutTeam(t: Tables, h: nat, id: nat)
    ensures forall g: nat :: Team(Delete(t, h, id), g) == Team(t, g) - if g == h then {id} else {}
  {
  }

  lemma InsertKeepsSound(t: Tables, serial: nat, e: Entry)
    requires Sound(t, serial)
    ensures Sound(Insert(t, serial + 1, e), serial + 1)
  {
    assert !Listed(t, serial + 1);
    InsertIndexed(t, serial + 1, e);
    var r := Insert(t, serial + 1, e);
    hide Indexed, Distinct;
    assert Disjoint(r);
    assert forall n: nat :: Listed(r, n) ==> n == serial + 1 || Listed(t, n);
  }

  /** A new process under the next name. */
  lemma InsertSound(t: Tables, serial: nat, e: Entry)
    requires Sound(t, serial)
    ensures var r := Insert(t, serial + 1, e);
            && Sound(r, serial + 1) && Keeps(t, r) && Works(r, e.group, e.pid)
            && r.idle == t.idle && r.order == t.order && r.busyLen == t.busyLen + 1
            && (forall g: nat :: Team(r, g) == Team(t, g) + if g == e.group then {serial + 1} else {})
            && serial + 1 !in Team(t, e.group)
  {
    assert !Listed(t, serial + 1);
    assert !Member(t.groups, e.group, serial + 1);
    InsertKeepsSound(t, serial, e);
    WithTeam(t, serial + 1, e);
    hide Sound, WithMember;
    assert Insert(t, serial + 1, e).busy[serial + 1] == e;
  }

  lemma DeleteKeepsSound(t: Tables, serial: nat, id: nat)
    requires Sound(t, serial) && id in t.idle
    ensures Sound(Delete(t, t.idle[id].group, id), serial)
  {
    assert Listed(t, id) && EntryOf(t, id) == t.idle[id];
    DeleteIndexed(t, id);
    DropShape(t.order, id);
    var r := Delete(t, t.idle[id].group, id);
    hide Indexed, Distinct, Drop;
    assert Disjoint(r);
    assert forall n: nat :: Listed(r, n) ==> Listed(t, n);
  }

  /** An idle process leaves. */
  lemma DeleteSound(t: Tables, serial: nat, id: nat)
    requires Sound(t, serial) && id in t.idle
    ensures var h := t.idle[id].group;
            var r := Delete(t, h, id);
            && Sound(r, serial) && Keeps(t, r) && r.idle == t.idle - {id} && r.order == Minus(t.order, {id})
            && r.busyLen == t.busyLen && |r.order| == |t.order| - 1
            && (forall g: nat :: Team(r, g) == Team(t, g) - if g == h then {id} else {})
  {
    assert id !in t.busy && id in t.order && Distinct(t.order);
    hide Sound, Team, WithoutMember, Drop, Minus, Distinct;
    DeleteKeepsSound(t, serial, id);
    DropIsMinus(t.order, id);
    WithoutTeam(t, t.idle[id].group, id);
  }

  lemma TransferSound(t: Tables, serial: nat, id: nat, g: nat)
    requires Sound(t, serial) && id in t.idle && t.idle[id].group != g
    ensures var r := Transfer(t, id, g, serial + 1);
            && Sound(r, serial + 1) && Keeps(t, r) && Works(r, g, t.idle[id].pid)
            && r.idle == t.idle - {id} && r.order == Minus(t.order, {id})
            && Team(r, g) == Team(t, g) + {serial + 1} && serial + 1 !in Team(t, g)
  {
    var e := t.idle[id];
    DeleteSound(t, serial, id);
    InsertSound(Delete(t, e.group, id), serial, Entry(e.pid, g, e.user));
    hide Delete, Insert, Drop, Sound;
  }

  // ----- a request -----

  /** How many of the next `n` names get a process. */
  function Successes(env: Env, serial: nat, n: nat): (c: nat)
    ensures c <= n
    decreases n
  {
    if n == 0 then 0
    else (if env.made(serial + 1).Made? then 1 else 0) + Successes(env, serial + 1, n - 1)
  }

  lemma {:induction false} AllSucceed(env: Env, serial: nat, n: nat)
    requires forall k :: env.made(k).Made?
    ensures Successes(env, serial, n) == n
    decreases n
  {
    if n > 0 {
      AllSucceed(env, serial + 1, n - 1);
    }
  }

  /** The picked processes that already serve the contract, as far as the manager can tell. */
  ghost function Serving(m: Manager, g: nat, picks: seq<nat>): set<nat> {
    set n | n in picks && n in m.t.idle && SameContract(m, g, m.t.idle[n].group)
  }

  /** The picked processes that change over to the group. */
  ghost function Changing(m: Manager, env: Env, g: nat, picks: seq<nat>): set<nat> {
    set n | n in picks && n in m.t.idle && !SameContract(m, g, m.t.idle[n].group) && env.agrees(n)
  }

  /** With `got` processes for the group `g`, of them `moved` changed over to it, the request is answered. */
  ghost predicate Given(m: Manager, r: Manager, g: nat, got: nat, moved: set<nat>) {
    && r.t.idle == m.t.idle - moved && r.t.order == Minus(m.t.order, moved) && Keeps(m.t, r.t)
    && (forall n :: n in moved && n in m.t.idle ==> Works(r.t, g, m.t.idle[n].pid))
    && Told(m.desk, r.desk, g, got)
  }

  /** A group that got nothing waits; any other is told how many it got. */
  ghost predicate Told(d: Desk, r: Desk, g: nat, got: nat) {
    && (got == 0 ==> r == Desk(Push(d.waiting, g), d.outbox))
    && (got > 0 ==>
          && r.outbox != [] && r.outbox[|r.outbox| - 1] == Response(g, got)
          && (g in r.waiting <==> g in d.waiting))
  }

  /** The handler is to change the picked idle processes. */
  ghost predicate ReadyToReuse(m: Manager) {
    && m.job.Reusing? && Sound(m.t, m.serial) && m.job.group < |m.known|
    && Distinct(m.job.picks) && (forall n :: n in m.job.picks ==> n in m.t.idle)
    && |m.job.picks| <= m.job.need <= m.job.total
  }

  lemma AfterDeleteElse(d: Desk, t: Tables, known: nat, h: nat, id: nat, g: nat)
    requires g != h
    ensures g in AfterDelete(d, t, known, h, id).waiting <==> g in d.waiting
  {
  }

  lemma SoundLater(t: Tables, serial: nat)
    requires Sound(t, serial)
    ensures Sound(t, serial + 1)
  {
    hide Disjoint, Indexed;
  }

  predicate Moves(m: Manager, i: nat, ok: bool)
    requires m.job.Reusing? && i < |m.job.picks| && m.job.picks[i] in m.t.idle
  {
    ok && !SameContract(m, m.job.group, m.t.idle[m.job.picks[i]].group)
  }

  /** A pick that is not moved. */
  lemma ReuseStays(m: Manager, i: nat, ok: bool)
    requires ReadyToReuse(m) && i < |m.job.picks| && !Moves(m, i, ok)
    ensures var r := DoReuse(m, i, ok);
            var same := SameContract(m, m.job.group, m.t.idle[m.job.picks[i]].group);
            && ReadyToReuse(r) && r.known == m.known && r.t == m.t && r.desk == m.desk
            && r.job == Reusing(m.job.group, m.job.total, if same then m.job.need - 1 else m.job.need,
                                DropAt(m.job.picks, i))
  {
    DropAtShape(m.job.picks, i);
    SoundLater(m.t, m.serial);
    hide Sound, Distinct, SameContract;
  }

  /** A pick that is moved. */
  lemma ReuseMoves(m: Manager, i: nat)
    requires ReadyToReuse(m) && i < |m.job.picks| && Moves(m, i, true)
    ensures var x := m.job.picks[i]; var r := DoReuse(m, i, true); var g := m.job.group;
            && ReadyToReuse(r) && r.known == m.known && Keeps(m.t, r.t)
            && r.job == Reusing(g, m.job.total, m.job.need - 1, DropAt(m.job.picks, i))
            && (g in r.desk.waiting <==> g in m.desk.waiting)
            && r.t.idle == m.t.idle - {x} && r.t.order == Minus(m.t.order, {x}) && Works(r.t, g, m.t.idle[x].pid)
            && Team(r.t, g) == Team(m.t, g) + {m.serial + 1} && m.serial + 1 !in Team(m.t, g)
  {
    hide Sound, Transfer, AfterDelete, Distinct, Team, Works, Keeps, Minus;
    var x, g := m.job.picks[i], m.job.group;
    assert m.t.idle[x].group != g;
    hide SameContract;
    DropAtShape(m.job.picks, i);
    TransferSound(m.t, m.serial, x, g);
    AfterDeleteElse(m.desk, m.t, |m.known|, m.t.idle[x].group, x, g);
  }

  lemma PickSets(m: Manager, env: Env, g: nat, picks: seq<nat>, i: nat)
    requires Distinct(picks) && i < |picks| && picks[i] in m.t.idle
    ensures var x := picks[i]; var rest := DropAt(picks, i);
            var same := SameContract(m, g, m.t.idle[x].group);
            && Serving(m, g, picks) == Serving(m, g, rest) + (if same then {x} else {})
            && Changing(m, env, g, picks) == Changing(m, env, g, rest) + (if !same && env.agrees(x) then {x} else {})
            && x !in Serving(m, g, rest) && x !in Changing(m, env, g, rest) && x !in rest
  {
    DropAtShape(picks, i);
    var rest := DropAt(picks, i);
    assert picks == picks[..i] + [picks[i]] + picks[i + 1..];
    assert forall n :: n in picks <==> n == picks[i] || n in rest;
    hide Distinct, DropAt, SameContract;
  }

  lemma SameSets(m: Manager, r: Manager, env: Env, g: nat, picks: seq<nat>)
    requires r.known == m.known
    requires forall n :: n in picks ==>
               (n in r.t.idle <==> n in m.t.idle) && (n in m.t.idle ==> r.t.idle[n] == m.t.idle[n])
    ensures Serving(r, g, picks) == Serving(m, g, picks) && Changing(r, env, g, picks) == Changing(m, env, g, picks)
  {
    assert forall a: nat, b: nat :: SameContract(r, a, b) == SameContract(m, a, b);
    hide SameContract;
  }

  lemma GivenAfterMove(m: Manager, q: Manager, r: Manager, g: nat, got: nat, x: nat, moved: set<nat>)
    requires Given(q, r, g, got, moved) && got > 0 && x in m.t.idle
    requires q.t.idle == m.t.idle - {x} && q.t.order == Minus(m.t.order, {x}) && Keeps(m.t, q.t)
    requires Works(q.t, g, m.t.idle[x].pid) && (g in q.desk.waiting <==> g in m.desk.waiting)
    ensures Given(m, r, g, got, moved + {x})
  {
    MinusTwice(m.t.order, {x}, moved);
    assert {x} + moved == moved + {x};
    KeepsWorks(q.t, r.t, g, m.t.idle[x].pid);
    hide Works, Minus;
  }

  /** The request in the midst of its reuse is answered with what is left of it. */
  ghost predicate Reused(m: Manager, env: Env, r: Manager)
    requires m.job.Reusing? && m.job.need <= m.job.total
  {
    var g := m.job.group;
    var moved := Changing(m, env, g, m.job.picks);
    && Given(m, r, g, m.job.total - m.job.need + |Serving(m, g, m.job.picks)| + |moved|, moved)
    && |Team(r.t, g)| == |Team(m.t, g)| + |moved|
  }

  lemma MoveSets(m: Manager, env: Env, i: nat)
    requires ReadyToReuse(m) && i < |m.job.picks| && env.agrees(m.job.picks[i]) && Moves(m, i, true)
    ensures var q := DoReuse(m, i, true);
            var g, x := m.job.group, m.job.picks[i];
            && ReadyToReuse(q)
            && Serving(q, g, q.job.picks) == Serving(m, g, m.job.picks)
            && Changing(m, env, g, m.job.picks) == Changing(q, env, g, q.job.picks) + {x}
            && x !in Changing(q, env, g, q.job.picks)
  {
    var g, picks, q, rest := m.job.group, m.job.picks, DoReuse(m, i, true), DropAt(m.job.picks, i);
    hide Sound, Distinct, Serving, Changing, SameContract, DoReuse, DropAt, Team, Minus, Keeps, Works;
    PickSets(m, env, g, picks, i);
    ReuseMoves(m, i);
    SameSets(m, q, env, g, rest);
  }

  lemma StaySets(m: Manager, env: Env, i: nat)
    requires ReadyToReuse(m) && i < |m.job.picks| && !Moves(m, i, env.agrees(m.job.picks[i]))
    ensures var q := DoReuse(m, i, env.agrees(m.job.picks[i]));
            var g, x := m.job.group, m.job.picks[i];
            && ReadyToReuse(q)
            && Changing(q, env, g, q.job.picks) == Changing(m, env, g, m.job.picks)
            && |Serving(m, g, m.job.picks)| - m.job.need == |Serving(q, g, q.job.picks)| - q.job.need
  {
    var g, picks, rest := m.job.group, m.job.picks, DropAt(m.job.picks, i);
    var q := DoReuse(m, i, env.agrees(picks[i]));
    hide Sound, Distinct, Serving, Changing, SameContract, DoReuse, DropAt;
    PickSets(m, env, g, picks, i);
    ReuseStays(m, i, env.agrees(picks[i]));
    SameSets(m, q, env, g, rest);
  }

  lemma ReusedAfterMove(m: Manager, env: Env, i: nat, r: Manager)
    requires ReadyToReuse(m) && i < |m.job.picks| && env.agrees(m.job.picks[i]) && Moves(m, i, true)
    requires ReadyToReuse(DoReuse(m, i, true)) && Reused(DoReuse(m, i, true), env, r)
    ensures Reused(m, env, r)
  {
    hide Given, Sound, Distinct, Serving, Changing, SameContract, DoReuse, DropAt, Team, Minus, Keeps, Works;
    var g, q := m.job.group, DoReuse(m, i, true);
    MoveSets(m, env, i);
    ReuseMoves(m, i);
    var moved := Changing(q, env, g, q.job.picks);
    var got := m.job.total - q.job.need + |Serving(q, g, q.job.picks)| + |moved|;
    assert Given(q, r, g, got, moved);
    GivenAfterMove(m, q, r, g, got, m.job.picks[i], moved);
  }

  lemma ReusedAfterStay(m: Manager, env: Env, i: nat, r: Manager)
    requires ReadyToReuse(m) && i < |m.job.picks| && !Moves(m, i, env.agrees(m.job.picks[i]))
    requires ReadyToReuse(DoReuse(m, i, env.agrees(m.job.picks[i])))
    requires Reused(DoReuse(m, i, env.agrees(m.job.picks[i])), env, r)
    ensures Reused(m, env, r)
  {
    hide Given, Sound, Distinct, Serving, Changing, SameContract, DoReuse, DropAt, Team, Moves;
    var q := DoReuse(m, i, env.agrees(m.job.picks[i]));
    StaySets(m, env, i);
    ReuseStays(m, i, env.agrees(m.job.picks[i]));
    GivenSame(m, q, r);
  }

  lemma {:induction false} ReuseOutcome(m: Manager, env: Env, n: nat, r: Manager)
    requires ReadyToReuse(m) && Performs(m, env, n, r) && r.job.NoJob?
    ensures Reused(m, env, r)
    decreases n
  {
    hide Reused, Sound, Distinct, Performs, SameContract, DoReuse;
    if m.job.picks == [] {
      ReuseEnds(m, env, n, r);
    } else {
      var i := Which(env, |m.job.picks|);
      var ok := env.agrees(m.job.picks[i]);
      ReusePerforms(m, env, n, r);
      if Moves(m, i, ok) {
        ReuseMoves(m, i);
        ReuseOutcome(DoReuse(m, i, ok), env, n - 1, r);
        ReusedAfterMove(m, env, i, r);
      } else {
        ReuseStays(m, i, ok);
        ReuseOutcome(DoReuse(m, i, ok), env, n - 1, r);
        ReusedAfterStay(m, env, i, r);
      }
    }
  }

  lemma ReusePerforms(m: Manager, env: Env, n: nat, r: Manager)
    requires ReadyToReuse(m) && m.job.picks != [] && Performs(m, env, n, r) && r.job.NoJob?
    ensures n > 0
    ensures var i := Which(env, |m.job.picks|);
            Performs(DoReuse(m, i, env.agrees(m.job.picks[i])), env, n - 1, r)
  {
    hide Sound, Rename, DropAt, SameContract, Distinct;
  }

  lemma GivenSame(m: Manager, q: Manager, r: Manager)
    requires q.t == m.t && q.desk == m.desk
    ensures forall g: nat, got: nat, moved: set<nat> :: Given(q, r, g, got, moved) ==> Given(m, r, g, got, moved)
  {
  }

  lemma ReuseEnds(m: Manager, env: Env, n: nat, r: Manager)
    requires ReadyToReuse(m) && m.job.picks == [] && Performs(m, env, n, r) && r.job.NoJob?
    ensures Reused(m, env, r)
  {
    assert Performs(DoEndRequest(m), env, n - 1, r);
    assert r == DoEndRequest(m);
    MinusNone(m.t.order, {});
    assert m.t.idle - {} == m.t.idle;
    assert Serving(m, m.job.group, []) == {} && Changing(m, env, m.job.group, []) == {};
  }

  /** The `left` next names bring `c` processes, the oldest idle ones are asked for the rest. */
  ghost predicate Filled(m: Manager, env: Env, g: nat, had: nat, need: nat, left: nat, r: Manager)
    requires left <= need
  {
    var c := Successes(env, m.serial, left);
    var picks := m.t.order[..Min(need - c, |m.t.order|)];
    var moved := Changing(m, env, g, picks);
    && Given(m, r, g, had + c + |Serving(m, g, picks)| + |moved|, moved)
    && |Team(r.t, g)| == |Team(m.t, g)| + c + |moved|
    && forall k :: m.serial < k <= m.serial + left && env.made(k).Made? ==> Works(r.t, g, env.made(k).pid)
  }

  ghost predicate ReadyToCreate(m: Manager) {
    && m.job.Creating? && Sound(m.t, m.serial) && m.job.group < |m.known|
    && m.job.left <= m.job.need <= m.job.total
  }

  lemma BeginReuseReady(m: Manager)
    requires ReadyToCreate(m)
    ensures ReadyToReuse(DoBeginReuse(m))
  {
    assert Disjoint(m.t);
    assert forall i :: 0 <= i < |m.t.order| ==> m.t.order[i] in m.t.order;
    hide Indexed;
  }

  lemma FilledByReuse(m: Manager, env: Env, r: Manager)
    requires ReadyToCreate(m) && m.job.left == 0 && Reused(DoBeginReuse(m), env, r)
    ensures Filled(m, env, m.job.group, m.job.total - m.job.need, m.job.need, 0, r)
  {
    hide Sound, Serving, Changing, Given, Team;
    var q := DoBeginReuse(m);
    SameSets(m, q, env, m.job.group, q.job.picks);
    GivenSame(m, q, r);
  }

  lemma CreateReady(m: Manager, made: Made)
    requires ReadyToCreate(m) && m.job.left > 0
    ensures var q := DoCreate(m, made); var g := m.job.group;
            && ReadyToCreate(q) && q.known == m.known && q.desk == m.desk && q.serial == m.serial + 1
            && q.t.idle == m.t.idle && q.t.order == m.t.order && Keeps(m.t, q.t)
            && q.job == Creating(g, m.job.total, if made.Made? then m.job.need - 1 else m.job.need, m.job.left - 1)
            && |Team(q.t, g)| == |Team(m.t, g)| + (if made.Made? then 1 else 0)
            && (made.Made? ==> Works(q.t, g, made.pid))
  {
    hide Sound, Works, Insert, Team;
    SoundLater(m.t, m.serial);
    if made.Made? {
      InsertSound(m.t, m.serial, Entry(made.pid, m.job.group, made.user));
    }
  }

  lemma GivenCarries(m: Manager, q: Manager, r: Manager, g: nat, got: nat, moved: set<nat>)
    requires Given(q, r, g, got, moved) && q.desk == m.desk
    requires q.t.idle == m.t.idle && q.t.order == m.t.order && Keeps(m.t, q.t)
    ensures Given(m, r, g, got, moved) && Keeps(q.t, r.t)
  {
    hide Works, Minus, Told;
  }

  lemma FilledByCreate(m: Manager, env: Env, r: Manager)
    requires ReadyToCreate(m) && m.job.left > 0
    requires var q := DoCreate(m, env.made(m.serial + 1));
             ReadyToCreate(q) && Filled(q, env, m.job.group, m.job.total - q.job.need, q.job.need, q.job.left, r)
    ensures Filled(m, env, m.job.group, m.job.total - m.job.need, m.job.need, m.job.left, r)
  {
    hide Sound, Serving, Changing, Given, Team, Works, DoCreate, Keeps;
    var g, made := m.job.group, env.made(m.serial + 1);
    var q := DoCreate(m, made);
    CreateReady(m, made);
    var c := Successes(env, m.serial, m.job.left);
    assert q.job.need - Successes(env, q.serial, q.job.left) == m.job.need - c;
    var picks := m.t.order[..Min(m.job.need - c, |m.t.order|)];
    SameSets(m, q, env, g, picks);
    var moved := Changing(m, env, g, picks);
    GivenCarries(m, q, r, g, m.job.total - m.job.need + c + |Serving(m, g, picks)| + |moved|, moved);
    if made.Made? {
      KeepsWorks(q.t, r.t, g, made.pid);
    }
  }

  lemma CreatePerforms(m: Manager, env: Env, n: nat, r: Manager)
    requires ReadyToCreate(m) && Performs(m, env, n, r) && r.job.NoJob?
    ensures n > 0
    ensures Performs(if m.job.left > 0 then DoCreate(m, env.made(m.serial + 1)) else DoBeginReuse(m), env, n - 1, r)
  {
    hide Sound, AddToCache;
  }

  lemma {:induction false} CreateOutcome(m: Manager, env: Env, n: nat, r: Manager)
    requires ReadyToCreate(m) && Performs(m, env, n, r) && r.job.NoJob?
    ensures Filled(m, env, m.job.group, m.job.total - m.job.need, m.job.need, m.job.left, r)
    decreases n
  {
    hide Sound, Filled, Reused, Performs, DoCreate, DoBeginReuse;
    CreatePerforms(m, env, n, r);
    if m.job.left == 0 {
      BeginReuseReady(m);
      ReuseOutcome(DoBeginReuse(m), env, n - 1, r);
      FilledByReuse(m, env, r);
    } else {
      var q := DoCreate(m, env.made(m.serial + 1));
      CreateReady(m, env.made(m.serial + 1));
      CreateOutcome(q, env, n - 1, r);
      FilledByCreate(m, env, r);
    }
  }

  /** The process manager meets a request of `num` for the group `g`. */
  ghost predicate Requests(m: Manager, g: nat, num: nat) {
    Good(m) && m.job.NoJob? && m.inbox != [] && m.inbox[0] == GetProcess(g, num)
  }

  lemma RequestReady(m: Manager, g: nat, num: nat)
    requires Requests(m, g, num) && num > 0
    ensures ReadyToCreate(DoBeginRequest(m)) && Available(m) >= 0
    ensures var q := DoBeginRequest(m);
            q == m.(inbox := m.inbox[1..], job := Creating(g, num, num, Min(num, Available(m))))
  {
    assert m.inbox[0].group == g;
    hide Unique, Indexed, Disjoint, DeskOk, ExitsLive;
  }

  /** A request, whatever fails and in whatever order: the group gains a process for each of the first
      min(num, free slots) names that could be started, and takes over, of as many of the oldest idle processes as are
      then missing, exactly those of another contract that agree; it is told the sum with those of its own contract,
      and waits instead if that is nothing. */
  lemma RequestOutcome(m: Manager, g: nat, num: nat, env: Env, r: Manager)
    requires Requests(m, g, num) && num > 0 && Completes(DoBeginRequest(m), env, r)
    ensures Available(m) >= 0
    ensures var created := Successes(env, m.serial, Min(num, Available(m)));
            var picks := m.t.order[..Min(num - created, |m.t.order|)];
            var moved := Changing(m, env, g, picks);
            && |Team(r.t, g)| == |Team(m.t, g)| + created + |moved|
            && Given(m, r, g, created + |Serving(m, g, picks)| + |moved|, moved)
    ensures forall k :: m.serial < k <= m.serial + Min(num, Available(m)) && env.made(k).Made? ==>
              Works(r.t, g, env.made(k).pid)
  {
    hide Good, Performs, DoBeginRequest, Sound, Serving, Changing, Given, Team;
    RequestReady(m, g, num);
    var q := DoBeginRequest(m);
    var n: nat :| Performs(q, env, n, r);
    CreateOutcome(q, env, n, r);
    var created := Successes(env, m.serial, Min(num, Available(m)));
    SameSets(m, q, env, g, m.t.order[..Min(num - created, |m.t.order|)]);
    GivenSame(m, q, r);
  }

  /** A request when everything works and no idle process is of the contract: first new processes into the free
      slots, then the oldest idle ones. */
  lemma RequestServed(m: Manager, g: nat, num: nat, env: Env, r: Manager)
    requires Requests(m, g, num) && num > 0 && Completes(DoBeginRequest(m), env, r)
    requires (forall k :: env.made(k).Made?) && (forall n :: env.agrees(n))
    requires forall n :: n in m.t.idle ==> !SameContract(m, g, m.t.idle[n].group)
    ensures var free := m.cfg.max - |m.t.order| - m.t.busyLen;
            var created := if num <= free then num else free;
            var taken := if num - created <= |m.t.order| then num - created else |m.t.order|;
            && 0 <= created && |Team(r.t, g)| == |Team(m.t, g)| + created + taken
            && (forall k :: m.serial < k <= m.serial + created ==> Works(r.t, g, env.made(k).pid))
            && r.t.order == m.t.order[taken..]
            && (forall i :: 0 <= i < taken ==> Works(r.t, g, m.t.idle[m.t.order[i]].pid))
            && (created + taken > 0 ==>
                  r.desk.outbox != [] && r.desk.outbox[|r.desk.outbox| - 1] == Response(g, created + taken))
            && (g !in m.desk.waiting ==> (g in r.desk.waiting <==> created + taken == 0))
  {
    hide Good, Completes, DoBeginRequest, ReadyToCreate, Serving, Changing, SameContract, Minus, Works, Keeps, Team;
    RequestOutcome(m, g, num, env, r);
    RequestReady(m, g, num);
    AllSucceed(env, m.serial, Min(num, Available(m)));
    var picks := m.t.order[..Min(num - Min(num, Available(m)), |m.t.order|)];
    OldestTaken(m, env, g, |picks|);
  }

  lemma OldestTaken(m: Manager, env: Env, g: nat, n: nat)
    requires Good(m) && n <= |m.t.order| && (forall n :: env.agrees(n))
    requires forall n :: n in m.t.idle ==> !SameContract(m, g, m.t.idle[n].group)
    ensures Serving(m, g, m.t.order[..n]) == {} && |Changing(m, env, g, m.t.order[..n])| == n
    ensures Minus(m.t.order, Changing(m, env, g, m.t.order[..n])) == m.t.order[n..]
    ensures forall i :: 0 <= i < n ==>
              m.t.order[i] in m.t.idle && m.t.order[i] in Changing(m, env, g, m.t.order[..n])
  {
    assert Disjoint(m.t);
    hide Good, SameContract;
    var picks := m.t.order[..n];
    var moved := Changing(m, env, g, picks);
    assert forall i :: 0 <= i < n ==> m.t.order[i] in m.t.order && picks[i] == m.t.order[i];
    assert forall x :: x in moved <==> x in picks;
    FrontMinus(m.t.order, n, moved);
    FrontSize(picks, moved);
  }

  lemma NoJobEnds(m: Manager, env: Env, r: Manager)
    requires m.job.NoJob? && Completes(m, env, r)
    ensures r == m
  {
    var n: nat :| Performs(m, env, n, r);
  }

  /** A request of nothing takes the group off the waiting list and answers it. */
  lemma RequestOfNone(m: Manager, g: nat, env: Env, r: Manager)
    requires Requests(m, g, 0) && Completes(DoBeginRequest(m), env, r)
    ensures r.t == m.t && g !in r.desk.waiting
    ensures forall h :: h != g ==> (h in r.desk.waiting <==> h in m.desk.waiting)
    ensures r.desk.outbox == m.desk.outbox + [Response(g, 0)]
  {
    assert m.inbox[0].group == g < |m.known| && Distinct(m.desk.waiting);
    DropShape(m.desk.waiting, g);
    hide Good, Distinct, Drop;
    NoJobEnds(DoBeginRequest(m), env, r);
  }

  // ----- cleaning -----

  /** The idle processes that close and give their users back. */
  ghost function Closing(env: Env, victims: seq<nat>): set<nat> {
    set n | n in victims && env.agrees(n) && env.frees(n)
  }

  ghost predicate SomeAgrees(env: Env, victims: seq<nat>) {
    exists n :: n in victims && env.agrees(n)
  }

  ghost predicate ReadyToClean(m: Manager) {
    && m.job.Cleaning? && Sound(m.t, m.serial)
    && Distinct(m.job.victims) && (forall n :: n in m.job.victims ==> n in m.t.idle)
  }

  /** `closed` are gone, and a token for the waiting groups is left if any process closed. */
  ghost predicate Cleaned(m: Manager, r: Manager, closed: set<nat>, some: bool) {
    && r.t.idle == m.t.idle - closed && r.t.order == Minus(m.t.order, closed) && |r.t.order| == |m.t.order| - |closed|
    && r.t.busyLen == m.t.busyLen && Keeps(m.t, r.t) && r.cleanArmed && r.cfg == m.cfg
    && r.newTokens == m.newTokens + if some then 1 else 0
  }

  lemma ClosingSets(env: Env, victims: seq<nat>, i: nat)
    requires Distinct(victims) && i < |victims|
    ensures var x := victims[i]; var rest := DropAt(victims, i);
            && Closing(env, victims) == Closing(env, rest) + (if env.agrees(x) && env.frees(x) then {x} else {})
            && x !in Closing(env, rest) && x !in rest && Distinct(rest)
            && (SomeAgrees(env, victims) <==> env.agrees(x) || SomeAgrees(env, rest))
  {
    DropAtShape(victims, i);
    var rest := DropAt(victims, i);
    assert victims == victims[..i] + [victims[i]] + victims[i + 1..];
    assert forall n :: n in victims <==> n == victims[i] || n in rest;
    hide Distinct, DropAt;
  }

  lemma CloseOne(m: Manager, i: nat, ok: bool, freed: bool)
    requires ReadyToClean(m) && i < |m.job.victims|
    ensures var x := m.job.victims[i]; var q := DoClose(m, i, ok, freed);
            && ReadyToClean(q) && q.newTokens == m.newTokens && q.cfg == m.cfg && Keeps(m.t, q.t)
            && q.job == Cleaning(DropAt(m.job.victims, i), if ok then m.job.closed + 1 else m.job.closed)
            && q.t.busyLen == m.t.busyLen
            && if ok && freed then
                 q.t.idle == m.t.idle - {x} && q.t.order == Minus(m.t.order, {x}) && |q.t.order| == |m.t.order| - 1
               else q.t == m.t
  {
    var x := m.job.victims[i];
    DropAtShape(m.job.victims, i);
    hide Sound, Distinct, Delete, AfterDelete, DropAt, Minus;
    DeleteSound(m.t, m.serial, x);
  }

  lemma CleanedAfter(m: Manager, q: Manager, r: Manager, x: nat, closed: set<nat>, some: bool)
    requires Cleaned(q, r, closed, some) && x !in closed
    requires q.newTokens == m.newTokens && q.cfg == m.cfg && q.t.busyLen == m.t.busyLen && Keeps(m.t, q.t)
    requires q.t.idle == m.t.idle - {x} && q.t.order == Minus(m.t.order, {x}) && |q.t.order| == |m.t.order| - 1
    ensures Cleaned(m, r, closed + {x}, some)
  {
    MinusTwice(m.t.order, {x}, closed);
    assert {x} + closed == closed + {x};
    hide Minus;
  }

  lemma {:induction false} CleaningOutcome(m: Manager, env: Env, n: nat, r: Manager)
    requires ReadyToClean(m) && Performs(m, env, n, r) && r.job.NoJob?
    ensures Cleaned(m, r, Closing(env, m.job.victims), m.job.closed > 0 || SomeAgrees(env, m.job.victims))
    decreases n
  {
    hide Cleaned, Sound, Distinct, Performs, DoClose, Closing, SomeAgrees;
    CleanPerforms(m, env, n, r);
    var victims := m.job.victims;
    if victims == [] {
      CleaningEnds(m, env);
    } else {
      var i := Which(env, |victims|);
      var ok, freed := env.agrees(victims[i]), env.frees(victims[i]);
      var q := DoClose(m, i, ok, freed);
      CloseOne(m, i, ok, freed);
      ClosingSets(env, victims, i);
      CleaningOutcome(q, env, n - 1, r);
      var closed, some := Closing(env, q.job.victims), q.job.closed > 0 || SomeAgrees(env, q.job.victims);
      if ok && freed {
        CleanedAfter(m, q, r, victims[i], closed, some);
      } else {
        CleanedSame(m, q, r, closed, some);
      }
    }
  }

  lemma CleanedSame(m: Manager, q: Manager, r: Manager, closed: set<nat>, some: bool)
    requires Cleaned(q, r, closed, some) && q.newTokens == m.newTokens && q.cfg == m.cfg && q.t == m.t
    ensures Cleaned(m, r, closed, some)
  {
  }

  lemma CleaningEnds(m: Manager, env: Env)
    requires ReadyToClean(m) && m.job.victims == []
    ensures Cleaned(m, DoEndClean(m), Closing(env, []), m.job.closed > 0 || SomeAgrees(env, []))
  {
    assert Closing(env, []) == {} && m.t.idle - {} == m.t.idle;
    MinusNone(m.t.order, {});
  }

  lemma CleanPerforms(m: Manager, env: Env, n: nat, r: Manager)
    requires ReadyToClean(m) && Performs(m, env, n, r) && r.job.NoJob?
    ensures n > 0
    ensures if m.job.victims == [] then r == DoEndClean(m)
            else var i := Which(env, |m.job.victims|);
                 var x := m.job.victims[i];
                 Performs(DoClose(m, i, env.agrees(x), env.frees(x)), env, n - 1, r)
  {
    if m.job.victims == [] {
      assert Performs(DoEndClean(m), env, n - 1, r);
    }
  }

  lemma GoodSound(m: Manager)
    requires Good(m)
    ensures Sound(m.t, m.serial) && Distinct(m.t.order) && forall n :: n in m.t.order ==> n in m.t.idle
    ensures Available(m) >= 0
  {
    hide Unique, Indexed, Distinct, DeskOk, InboxKnown, JobKnown, ExitsLive;
  }

  /** The clean timer fires while no handler runs. */
  ghost predicate Ticks(m: Manager) {
    Good(m) && m.job.NoJob? && m.cleanArmed
  }

  /** How many idle processes a cleaning asks to close: so many that the wanted part of the capacity is free. */
  function Wanted(cfg: Config, idle: nat, busy: int): nat {
    var missing := (cfg.releaseRate * cfg.max as real).Floor - (cfg.max - idle - busy);
    if missing <= 0 then 0 else if missing <= idle then missing else idle
  }

  lemma ReleaseIsWanted(m: Manager)
    ensures var k := Wanted(m.cfg, |m.t.order|, m.t.busyLen);
            k <= |m.t.order| && (ReleaseNum(m) <= 0 <==> k == 0) && (k > 0 ==> ReleaseNum(m) == k)
  {
  }

  lemma TickReady(m: Manager)
    requires Ticks(m)
    ensures var k := Wanted(m.cfg, |m.t.order|, m.t.busyLen);
            && DoCleanTick(m) == m.(cleanArmed := false, job := if k == 0 then NoJob else Cleaning(m.t.order[..k], 0))
            && (k > 0 ==> ReadyToClean(DoCleanTick(m)))
  {
    hide Good, Sound, Wanted, ReleaseNum;
    GoodSound(m);
    ReleaseIsWanted(m);
    var k := Wanted(m.cfg, |m.t.order|, m.t.busyLen);
    assert forall n :: n in m.t.order[..k] ==> n in m.t.order;
  }

  /** A cleaning, whatever fails and in whatever order: of the oldest idle processes, as many as the free part of the
      capacity falls short of the wanted part, exactly those are gone that agreed and gave their users back. */
  lemma CleanOutcome(m: Manager, env: Env, r: Manager)
    requires Ticks(m) && Completes(DoCleanTick(m), env, r)
    ensures var victims := m.t.order[..Wanted(m.cfg, |m.t.order|, m.t.busyLen)];
            if victims == [] then r == m.(cleanArmed := false)
            else Cleaned(m, r, Closing(env, victims), SomeAgrees(env, victims))
  {
    hide Good, Performs, DoCleanTick, ReadyToClean, Cleaned, Closing, SomeAgrees;
    TickReady(m);
    var q := DoCleanTick(m);
    if q.job.NoJob? {
      NoJobEnds(q, env, r);
    } else {
      var n: nat :| Performs(q, env, n, r);
      CleaningOutcome(q, env, n, r);
      CleanedSame(m, q, r, Closing(env, q.job.victims), SomeAgrees(env, q.job.victims));
    }
  }

  /** A cleaning in which all agree frees the wanted part of the capacity, as far as there are idle processes, and
      closes the oldest ones. */
  lemma CleanFrees(m: Manager, env: Env, r: Manager)
    requires Ticks(m) && Completes(DoCleanTick(m), env, r) && (forall n :: env.agrees(n) && env.frees(n))
    ensures var free, after := m.cfg.max - |m.t.order| - m.t.busyLen, r.cfg.max - |r.t.order| - r.t.busyLen;
            var wanted := (m.cfg.releaseRate * m.cfg.max as real).Floor;
            && after == (if wanted <= free then free
                         else if wanted <= free + |m.t.order| then wanted else free + |m.t.order|)
            && 0 <= after - free <= |m.t.order| && r.t.order == m.t.order[after - free..]
            && r.newTokens == m.newTokens + (if after > free then 1 else 0) && (r.cleanArmed <==> after > free)
  {
    hide Good, Completes, DoCleanTick, Closing, SomeAgrees, Minus, Keeps;
    CleanOutcome(m, env, r);
    var k := Wanted(m.cfg, |m.t.order|, m.t.busyLen);
    if k > 0 {
      OldestClosed(m, env, k);
    }
  }

  lemma OldestClosed(m: Manager, env: Env, k: nat)
    requires Good(m) && 0 < k <= |m.t.order| && (forall n :: env.agrees(n) && env.frees(n))
    ensures SomeAgrees(env, m.t.order[..k]) && |Closing(env, m.t.order[..k])| == k
    ensures Minus(m.t.order, Closing(env, m.t.order[..k])) == m.t.order[k..]
  {
    assert Distinct(m.t.order);
    hide Good;
    var picks := m.t.order[..k];
    assert picks[0] in picks;
    var closed := Closing(env, picks);
    assert forall x :: x in closed <==> x in picks;
    FrontMinus(m.t.order, k, closed);
    FrontSize(picks, closed);
  }
}
