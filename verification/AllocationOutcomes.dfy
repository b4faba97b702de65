/**
 What an allocation to the waiting groups does from beginning to end: which idle
 process goes to which group, how many new processes are started for whom, and who
 is still waiting afterwards.
 */
module AllocationOutcomes {
  import opened Keys
  import opened ManagerModel
  import opened ManagerIndexes
  import opened ProcessManagers
  import opened HandlerOutcomes

  // ----- idle processes -----

  /** The pair's process changes over to the pair's group. */
  predicate Hands(m: Manager, env: Env, p: Match) {
    p.id in m.t.idle && !SameContract(m, p.group, m.t.idle[p.id].group) && env.agrees(p.id)
  }

  predicate Meets(m: Manager, p: Match) {
    p.id in m.t.idle && SameContract(m, p.group, m.t.idle[p.id].group)
  }

  ghost predicate LeavesAs(m: Manager, env: Env, pairs: seq<Match>, n: nat) {
    exists i :: 0 <= i < |pairs| && pairs[i].id == n && Hands(m, env, pairs[i])
  }

  ghost function Leaving(m: Manager, env: Env, pairs: seq<Match>): set<nat> {
    set n | n in m.t.idle && LeavesAs(m, env, pairs, n)
  }

  ghost predicate ReadyToHand(m: Manager) {
    && m.job.Pairing? && Sound(m.t, m.serial) && Distinct(m.desk.waiting)
    && (forall i :: 0 <= i < |m.job.pairs| ==> m.job.pairs[i].id in m.t.idle && m.job.pairs[i].group < |m.known|)
    && (forall i, j :: 0 <= i < j < |m.job.pairs| ==> m.job.pairs[i].id != m.job.pairs[j].id)
  }

  /** Nobody joins the waiting list, and no response is lost. */
  ghost predicate DeskGoes(d: Desk, r: Desk) {
    (forall g :: g in r.waiting ==> g in d.waiting) && (forall a :: a in d.outbox ==> a in r.outbox)
  }

  /** The group has the process object, was told so and waits no longer. */
  ghost predicate Supplied(r: Manager, g: nat, pid: nat) {
    Works(r.t, g, pid) && g !in r.desk.waiting && Response(g, 1) in r.desk.outbox
  }

  ghost predicate Handed(m: Manager, env: Env, pairs: seq<Match>, r: Manager) {
    && r.t.idle == m.t.idle - Leaving(m, env, pairs) && r.t.order == Minus(m.t.order, Leaving(m, env, pairs))
    && Keeps(m.t, r.t) && DeskGoes(m.desk, r.desk) && r.idleTokens == m.idleTokens
    && (forall i :: 0 <= i < |pairs| && Hands(m, env, pairs[i]) ==>
          Supplied(r, pairs[i].group, m.t.idle[pairs[i].id].pid))
    && (forall i :: 0 <= i < |pairs| && Meets(m, pairs[i]) ==> pairs[i].group !in r.desk.waiting)
  }

  lemma WakeGoes(d: Desk, known: nat, g: nat)
    requires Distinct(d.waiting)
    ensures var r := Wake(d, known, g);
            Distinct(r.waiting) && DeskGoes(d, r) && g !in r.waiting
  {
    DropShape(d.waiting, g);
    hide Distinct, Drop;
  }

  lemma SendGoes(d: Desk, known: nat, g: nat, num: nat)
    ensures var r := Send(d, known, g, num);
            r.waiting == d.waiting && DeskGoes(d, r) && (g < known ==> Response(g, num) in r.outbox)
  {
  }

  lemma HandGoes(d: Desk, t: Tables, known: nat, g: nat, h: nat, id: nat)
    requires Distinct(d.waiting) && g < known
    ensures var r := AfterDelete(Wake(Send(d, known, g, 1), known, g), t, known, h, id);
            && Distinct(r.waiting) && DeskGoes(d, r) && g !in r.waiting && Response(g, 1) in r.outbox
  {
    hide Distinct, Wake, Send;
    SendGoes(d, known, g, 1);
    WakeGoes(Send(d, known, g, 1), known, g);
    WakeGoes(Wake(Send(d, known, g, 1), known, g), known, h);
  }

  lemma MeetGoes(d: Desk, known: nat, g: nat)
    requires Distinct(d.waiting)
    ensures var r := Send(Wake(d, known, g), known, g, 0);
            Distinct(r.waiting) && DeskGoes(d, r) && g !in r.waiting
  {
    hide Distinct, Wake, Send;
    WakeGoes(d, known, g);
    SendGoes(Wake(d, known, g), known, g, 0);
  }

  /** What one pair does. */
  ghost predicate HandedOne(m: Manager, env: Env, i: nat, q: Manager)
    requires m.job.Pairing? && i < |m.job.pairs|
  {
    var p := m.job.pairs[i];
    && q.known == m.known && q.idleTokens == m.idleTokens && q.job == Pairing(DropAt(m.job.pairs, i))
    && Keeps(m.t, q.t) && DeskGoes(m.desk, q.desk)
    && (if Hands(m, env, p)
        then && q.t.idle == m.t.idle - {p.id} && q.t.order == Minus(m.t.order, {p.id})
             && Supplied(q, p.group, m.t.idle[p.id].pid)
        else q.t == m.t)
    && (Meets(m, p) ==> p.group !in q.desk.waiting)
  }

  lemma HandMoves(m: Manager, env: Env, i: nat)
    requires ReadyToHand(m) && i < |m.job.pairs| && Hands(m, env, m.job.pairs[i])
    ensures var q := DoHand(m, i, true);
            && Sound(q.t, q.serial) && Distinct(q.desk.waiting) && HandedOne(m, env, i, q)
  {
    hide Sound, Distinct, AfterDelete, Wake, Send, Transfer, Keeps, DeskGoes, Works, Minus, Team;
    var id, g := m.job.pairs[i].id, m.job.pairs[i].group;
    var h := m.t.idle[id].group;
    assert h != g;
    TransferSound(m.t, m.serial, id, g);
    HandGoes(m.desk, m.t, |m.known|, g, h, id);
  }

  lemma HandStays(m: Manager, env: Env, i: nat)
    requires ReadyToHand(m) && i < |m.job.pairs| && !Hands(m, env, m.job.pairs[i])
    ensures var q := DoHand(m, i, env.agrees(m.job.pairs[i].id));
            && Sound(q.t, q.serial) && Distinct(q.desk.waiting) && HandedOne(m, env, i, q)
  {
    hide Sound, Distinct, Wake, Send, SameContract, Minus;
    SoundLater(m.t, m.serial);
    MeetGoes(m.desk, |m.known|, m.job.pairs[i].group);
  }

  lemma HandOne(m: Manager, env: Env, i: nat)
    requires ReadyToHand(m) && i < |m.job.pairs|
    ensures var q := DoHand(m, i, env.agrees(m.job.pairs[i].id));
            ReadyToHand(q) && HandedOne(m, env, i, q)
  {
    hide Sound, Distinct, DoHand, DropAt, Keeps, DeskGoes, Supplied, Minus, SameContract;
    if Hands(m, env, m.job.pairs[i]) {
      HandMoves(m, env, i);
    } else {
      HandStays(m, env, i);
    }
    PairsWithout(m.job.pairs, i);
  }

  lemma PairsBack(pairs: seq<Match>, i: nat, j: nat)
    requires i < |pairs| && j < |pairs| && i != j
    ensures var rest := DropAt(pairs, i);
            exists k :: 0 <= k < |rest| && rest[k] == pairs[j]
  {
    var k := if j < i then j else j - 1;
    assert DropAt(pairs, i)[k] == pairs[j];
  }

  lemma SameHands(m: Manager, env: Env, i: nat, q: Manager, p: Match)
    requires m.job.Pairing? && i < |m.job.pairs| && HandedOne(m, env, i, q) && p.id != m.job.pairs[i].id
    ensures Hands(q, env, p) == Hands(m, env, p) && Meets(q, p) == Meets(m, p)
    ensures p.id in m.t.idle ==> p.id in q.t.idle && q.t.idle[p.id] == m.t.idle[p.id]
  {
    assert forall a: nat, b: nat :: SameContract(q, a, b) == SameContract(m, a, b);
    hide SameContract;
  }

  lemma LeavingRest(m: Manager, env: Env, i: nat, q: Manager)
    requires ReadyToHand(m) && i < |m.job.pairs| && HandedOne(m, env, i, q)
    ensures var pairs := m.job.pairs;
            Leaving(m, env, pairs) ==
              Leaving(q, env, q.job.pairs) + (if Hands(m, env, pairs[i]) then {pairs[i].id} else {})
  {
    hide Sound, Distinct, DropAt, Hands, Meets, Keeps, DeskGoes, Supplied, Minus;
    var pairs := m.job.pairs;
    var rest := q.job.pairs;
    PairsWithout(pairs, i);
    forall n | n in Leaving(q, env, rest) ensures n in Leaving(m, env, pairs) {
      var k :| 0 <= k < |rest| && rest[k].id == n && Hands(q, env, rest[k]);
      SameHands(m, env, i, q, rest[k]);
    }
    forall n | n in Leaving(m, env, pairs) && n != pairs[i].id ensures n in Leaving(q, env, rest) {
      var j :| 0 <= j < |pairs| && pairs[j].id == n && Hands(m, env, pairs[j]);
      PairsBack(pairs, i, j);
      SameHands(m, env, i, q, pairs[j]);
    }
    NotLeaving(m, env, i, q);
  }

  lemma NotLeaving(m: Manager, env: Env, i: nat, q: Manager)
    requires ReadyToHand(m) && i < |m.job.pairs| && HandedOne(m, env, i, q)
    ensures m.job.pairs[i].id in Leaving(m, env, m.job.pairs) ==> Hands(m, env, m.job.pairs[i])
    ensures Hands(m, env, m.job.pairs[i]) ==> m.job.pairs[i].id in Leaving(m, env, m.job.pairs)
  {
    hide Sound, Distinct, Keeps, DeskGoes, Supplied, Minus, SameContract, HandedOne;
    assert Hands(m, env, m.job.pairs[i]) ==> LeavesAs(m, env, m.job.pairs, m.job.pairs[i].id);
  }

  /** What a pair was given before stays given. */
  lemma SuppliedStays(q: Manager, r: Manager, g: nat, pid: nat)
    requires Supplied(q, g, pid) && Keeps(q.t, r.t) && DeskGoes(q.desk, r.desk)
    ensures Supplied(r, g, pid)
  {
    KeepsWorks(q.t, r.t, g, pid);
    hide Works, Keeps;
  }

  lemma HandedTables(m: Manager, env: Env, i: nat, q: Manager, r: Manager)
    requires ReadyToHand(m) && i < |m.job.pairs| && HandedOne(m, env, i, q) && Handed(q, env, q.job.pairs, r)
    ensures var gone := Leaving(m, env, m.job.pairs);
            r.t.idle == m.t.idle - gone && r.t.order == Minus(m.t.order, gone)
    ensures Keeps(m.t, r.t) && DeskGoes(m.desk, r.desk) && r.idleTokens == m.idleTokens
  {
    hide Sound, Distinct, Hands, Meets, Supplied, Minus, Leaving;
    LeavingRest(m, env, i, q);
    var x, gone := m.job.pairs[i].id, Leaving(q, env, q.job.pairs);
    MinusTwice(m.t.order, {x}, gone);
    assert {x} + gone == gone + {x} && gone + {} == gone;
  }

  lemma HandedPair(m: Manager, env: Env, i: nat, q: Manager, r: Manager, j: nat)
    requires ReadyToHand(m) && i < |m.job.pairs| && HandedOne(m, env, i, q) && Handed(q, env, q.job.pairs, r)
    requires j < |m.job.pairs|
    ensures var p := m.job.pairs[j];
            && (Hands(m, env, p) ==> Supplied(r, p.group, m.t.idle[p.id].pid))
            && (Meets(m, p) ==> p.group !in r.desk.waiting)
  {
    var p := m.job.pairs[j];
    if i == j {
      hide ReadyToHand, Hands, Supplied, Minus, Leaving;
      if Hands(m, env, p) {
        SuppliedStays(q, r, p.group, m.t.idle[p.id].pid);
      }
    } else {
      PairsBack(m.job.pairs, i, j);
      assert p.id != m.job.pairs[i].id;
      hide ReadyToHand, HandedOne, Hands, Meets, Supplied, Minus, Leaving, Keeps;
      SameHands(m, env, i, q, p);
    }
  }

  lemma {:induction false} HandingOutcome(m: Manager, env: Env, n: nat, r: Manager)
    requires ReadyToHand(m) && Performs(m, env, n, r) && r.job.NoJob?
    ensures Handed(m, env, m.job.pairs, r)
    decreases n
  {
    hide ReadyToHand, HandedOne, Performs, DoHand, Leaving, Minus, Keeps, DeskGoes, SameContract, Supplied;
    HandPerforms(m, env, n, r);
    var pairs := m.job.pairs;
    if pairs == [] {
      HandingEnds(m, env);
    } else {
      var i := Which(env, |pairs|);
      var q := DoHand(m, i, env.agrees(pairs[i].id));
      HandOne(m, env, i);
      HandingOutcome(q, env, n - 1, r);
      HandedTables(m, env, i, q, r);
      forall j | 0 <= j < |pairs|
        ensures Hands(m, env, pairs[j]) ==> Supplied(r, pairs[j].group, m.t.idle[pairs[j].id].pid)
        ensures Meets(m, pairs[j]) ==> pairs[j].group !in r.desk.waiting
      {
        HandedPair(m, env, i, q, r, j);
      }
    }
  }

  lemma HandingEnds(m: Manager, env: Env)
    ensures Handed(m, env, [], m.(job := NoJob))
  {
    assert Leaving(m, env, []) == {} && m.t.idle - {} == m.t.idle;
    MinusNone(m.t.order, {});
  }

  lemma HandPerforms(m: Manager, env: Env, n: nat, r: Manager)
    requires ReadyToHand(m) && Performs(m, env, n, r) && r.job.NoJob?
    ensures n > 0 && m.job.Pairing?
    ensures if m.job.pairs == [] then r == m.(job := NoJob)
            else var i := Which(env, |m.job.pairs|);
                 && m.job.pairs[i].id in m.t.idle
                 && Performs(DoHand(m, i, env.agrees(m.job.pairs[i].id)), env, n - 1, r)
  {
    hide Sound, Distinct, Rename, Wake, DropAt, SameContract;
    if m.job.pairs == [] {
      assert Performs(m.(job := NoJob), env, n - 1, r);
    }
  }

  /** A token for idle processes is taken while no handler runs. */
  ghost predicate TakesIdle(m: Manager) {
    Good(m) && m.job.NoJob? && m.idleTokens > 0
  }

  /** The i-th oldest idle process with the i-th longest waiting group. */
  function Paired(m: Manager): seq<Match> {
    var n := Min(|m.desk.waiting|, |m.t.order|);
    Zip(m.t.order[..n], m.desk.waiting[..n])
  }

  lemma GoodWaiting(m: Manager)
    requires Good(m)
    ensures Distinct(m.desk.waiting) && forall g :: g in m.desk.waiting ==> g < |m.known|
  {
    hide TablesOk, InboxKnown, JobKnown, JobFits, ExitsLive, Distinct;
  }

  lemma IdleReady(m: Manager)
    requires TakesIdle(m)
    ensures var q := DoBeginIdle(m);
            && q == m.(idleTokens := m.idleTokens - 1, job := if Paired(m) == [] then NoJob else Pairing(Paired(m)))
            && (Paired(m) != [] ==> ReadyToHand(q))
  {
    GoodSound(m);
    GoodWaiting(m);
    hide Good, Sound;
    assert forall i :: 0 <= i < |m.t.order| ==> m.t.order[i] in m.t.order;
    assert forall i :: 0 <= i < |m.desk.waiting| ==> m.desk.waiting[i] in m.desk.waiting;
  }

  lemma HandedSame(m: Manager, q: Manager, env: Env, pairs: seq<Match>, r: Manager)
    requires q == m.(idleTokens := q.idleTokens, job := q.job) && Handed(q, env, pairs, r)
    ensures Handed(m.(idleTokens := q.idleTokens), env, pairs, r)
  {
    var p := m.(idleTokens := q.idleTokens);
    assert forall a: nat, b: nat :: SameContract(p, a, b) == SameContract(q, a, b);
    assert forall x: Match :: Hands(p, env, x) == Hands(q, env, x) && Meets(p, x) == Meets(q, x);
    hide SameContract, Hands, Meets, Supplied, Keeps, DeskGoes, Minus;
    assert forall n: nat :: LeavesAs(p, env, pairs, n) == LeavesAs(q, env, pairs, n);
    assert Leaving(p, env, pairs) == Leaving(q, env, pairs);
  }

  /** An allocation of idle processes, whatever fails and in whatever order: the i-th oldest is offered to the i-th
      longest waiting group, and exactly those of another contract that agree change over. */
  lemma IdleOutcome(m: Manager, env: Env, r: Manager)
    requires TakesIdle(m) && Completes(DoBeginIdle(m), env, r)
    ensures Handed(m.(idleTokens := m.idleTokens - 1), env, Paired(m), r)
  {
    hide Good, Performs, DoBeginIdle, ReadyToHand, Handed, Paired;
    IdleReady(m);
    var q := DoBeginIdle(m);
    if q.job.NoJob? {
      NoJobEnds(q, env, r);
      HandingEnds(q, env);
    } else {
      var n: nat :| Performs(q, env, n, r);
      HandingOutcome(q, env, n, r);
    }
    HandedSame(m, q, env, Paired(m), r);
  }

  /** When all agree and none is of its group's contract, the oldest idle processes go to the groups that have waited
      longest, in order, until one of the two lists is exhausted. */
  lemma IdleServed(m: Manager, env: Env, r: Manager)
    requires TakesIdle(m) && Completes(DoBeginIdle(m), env, r) && (forall n :: env.agrees(n))
    requires forall g, n :: g in m.desk.waiting && n in m.t.idle ==> !SameContract(m, g, m.t.idle[n].group)
    ensures var n := if |m.desk.waiting| <= |m.t.order| then |m.desk.waiting| else |m.t.order|;
            && r.t.order == m.t.order[n..] && r.idleTokens == m.idleTokens - 1
            && (forall i :: 0 <= i < n ==>
                  m.t.order[i] in m.t.idle && Supplied(r, m.desk.waiting[i], m.t.idle[m.t.order[i]].pid))
            && (forall g :: g in r.desk.waiting ==> g in m.desk.waiting[n..])
  {
    IdleOutcome(m, env, r);
    var n := Min(|m.desk.waiting|, |m.t.order|);
    var q := m.(idleTokens := m.idleTokens - 1);
    AllHand(m, env, n);
    hide Good, Completes, DoBeginIdle, SameContract, Minus, Keeps, Works, Leaving;
    forall i | 0 <= i < n
      ensures m.t.order[i] in m.t.idle && Supplied(r, m.desk.waiting[i], m.t.idle[m.t.order[i]].pid)
    {
      assert Hands(q, env, Paired(m)[i]);
    }
    forall g | g in r.desk.waiting ensures g in m.desk.waiting[n..] {
      var i :| 0 <= i < |m.desk.waiting| && m.desk.waiting[i] == g;
    }
  }

  lemma AllHand(m: Manager, env: Env, n: nat)
    requires Good(m) && n == Min(|m.desk.waiting|, |m.t.order|) && (forall n :: env.agrees(n))
    requires forall g, n :: g in m.desk.waiting && n in m.t.idle ==> !SameContract(m, g, m.t.idle[n].group)
    ensures var q := m.(idleTokens := if m.idleTokens > 0 then m.idleTokens - 1 else 0);
            && |Paired(m)| == n
            && (forall i :: 0 <= i < n ==> Paired(m)[i] == Match(m.t.order[i], m.desk.waiting[i])
                                           && Hands(q, env, Paired(m)[i]))
            && Minus(m.t.order, Leaving(q, env, Paired(m))) == m.t.order[n..]
  {
    GoodSound(m);
    hide Good, Sound;
    var q := m.(idleTokens := if m.idleTokens > 0 then m.idleTokens - 1 else 0);
    assert forall a: nat, b: nat :: SameContract(q, a, b) == SameContract(m, a, b);
    var pairs := Paired(m);
    forall i | 0 <= i < n ensures Hands(q, env, pairs[i]) && m.t.order[i] in Leaving(q, env, pairs) {
      assert m.t.order[i] in m.t.order && m.desk.waiting[i] in m.desk.waiting;
      assert Hands(q, env, pairs[i]);
      assert LeavesAs(q, env, pairs, m.t.order[i]);
    }
    hide SameContract, Hands, Distinct;
    assert forall x :: x in Leaving(q, env, pairs) <==> x in m.t.order[..n];
    FrontMinus(m.t.order, n, Leaving(q, env, pairs));
  }

  // ----- new processes -----

  ghost predicate ReadyToLaunch(m: Manager) {
    && m.job.Launching? && Sound(m.t, m.serial) && Distinct(m.job.todo) && Distinct(m.desk.waiting)
    && (forall g :: g in m.job.todo ==> g in m.desk.waiting && g < |m.known|)
  }

  /** As many groups leave the waiting list as processes were started; if all were, exactly the groups `todo`, each
      with one process more. */
  ghost predicate Launched(m: Manager, env: Env, todo: seq<nat>, r: Manager) {
    var c := Successes(env, m.serial, |todo|);
    && r.t.idle == m.t.idle && r.t.order == m.t.order && Keeps(m.t, r.t) && r.t.busyLen == m.t.busyLen + c
    && |r.desk.waiting| == |m.desk.waiting| - c && r.newTokens == m.newTokens && r.cfg == m.cfg
    && DeskGoes(m.desk, r.desk) && (forall g :: g in todo ==> Response(g, 1) in r.desk.outbox)
    && (c == |todo| ==>
          && r.desk.waiting == Minus(m.desk.waiting, Elements(todo))
          && (forall g: nat :: |Team(r.t, g)| == |Team(m.t, g)| + if g in todo then 1 else 0))
  }

  lemma LaunchReady(m: Manager, i: nat, made: Made)
    requires ReadyToLaunch(m) && i < |m.job.todo|
    ensures var q := DoLaunch(m, i, made);
            && ReadyToLaunch(q) && q.job == Launching(DropAt(m.job.todo, i))
            && q.serial == m.serial + 1 && q.newTokens == m.newTokens && q.cfg == m.cfg
  {
    hide Sound, Distinct, Insert, DropAt, Drop, Works, Keeps, Team;
    var g := m.job.todo[i];
    assert g in m.job.todo;
    DropAtShape(m.job.todo, i);
    DropShape(m.desk.waiting, g);
    SoundLater(m.t, m.serial);
    if made.Made? {
      InsertSound(m.t, m.serial, Entry(made.pid, g, made.user));
    }
  }

  lemma LaunchOne(m: Manager, i: nat, made: Made)
    requires ReadyToLaunch(m) && i < |m.job.todo|
    ensures var q := DoLaunch(m, i, made);
            var g := m.job.todo[i];
            && DeskGoes(m.desk, q.desk) && Response(g, 1) in q.desk.outbox
            && if made.Made? then
              && q.t.idle == m.t.idle && q.t.order == m.t.order && Keeps(m.t, q.t) && q.t.busyLen == m.t.busyLen + 1
              && q.desk.waiting == Minus(m.desk.waiting, {g}) && |q.desk.waiting| == |m.desk.waiting| - 1
              && (forall h: nat :: |Team(q.t, h)| == |Team(m.t, h)| + if h == g then 1 else 0)
            else q.t == m.t && q.desk.waiting == m.desk.waiting
  {
    hide Sound, Distinct, Insert, DropAt, Drop, Minus, Team, Works, Keeps;
    var g := m.job.todo[i];
    var told := Send(m.desk, |m.known|, g, 1);
    SendGoes(m.desk, |m.known|, g, 1);
    WakeGoes(told, |m.known|, g);
    assert g in m.job.todo && g in m.desk.waiting;
    DropIsMinus(m.desk.waiting, g);
    if made.Made? {
      InsertSound(m.t, m.serial, Entry(made.pid, g, made.user));
    }
  }

  lemma TodoRest(todo: seq<nat>, i: nat)
    requires Distinct(todo) && i < |todo|
    ensures var rest := DropAt(todo, i);
            Elements(todo) == {todo[i]} + Elements(rest) && todo[i] !in rest
    ensures forall g :: g in todo <==> g == todo[i] || g in DropAt(todo, i)
  {
    DropAtShape(todo, i);
    assert todo == todo[..i] + [todo[i]] + todo[i + 1..];
  }

  lemma LaunchedAfter(m: Manager, env: Env, i: nat, r: Manager)
    requires ReadyToLaunch(m) && i < |m.job.todo|
    requires var q := DoLaunch(m, i, env.made(m.serial + 1));
             Launched(q, env, DropAt(m.job.todo, i), r)
    ensures Launched(m, env, m.job.todo, r)
  {
    hide Sound, DoLaunch, DropAt, Minus, Team, Distinct, Elements;
    var todo, made := m.job.todo, env.made(m.serial + 1);
    var q := DoLaunch(m, i, made);
    var rest := DropAt(todo, i);
    LaunchReady(m, i, made);
    LaunchOne(m, i, made);
    TodoRest(todo, i);
    MinusTwice(m.desk.waiting, {todo[i]}, Elements(rest));
    assert Successes(env, m.serial, |todo|) ==
           (if made.Made? then 1 else 0) + Successes(env, q.serial, |rest|);
  }

  lemma LaunchPerforms(m: Manager, env: Env, n: nat, r: Manager)
    requires ReadyToLaunch(m) && Performs(m, env, n, r) && r.job.NoJob?
    ensures n > 0 && m.job.Launching?
    ensures if m.job.todo == [] then r == m.(job := NoJob)
            else var i := Which(env, |m.job.todo|);
                 Performs(DoLaunch(m, i, env.made(m.serial + 1)), env, n - 1, r)
  {
    hide Sound, Distinct, DoLaunch;
    if m.job.todo == [] {
      assert Performs(m.(job := NoJob), env, n - 1, r);
    }
  }

  lemma LaunchingEnds(m: Manager, env: Env)
    ensures Launched(m, env, [], m.(job := NoJob))
  {
    assert Elements([]) == {};
    MinusNone(m.desk.waiting, {});
  }

  lemma {:induction false} LaunchingOutcome(m: Manager, env: Env, n: nat, r: Manager)
    requires ReadyToLaunch(m) && Performs(m, env, n, r) && r.job.NoJob?
    ensures Launched(m, env, m.job.todo, r)
    decreases n
  {
    hide ReadyToLaunch, Launched, Performs, DoLaunch;
    LaunchPerforms(m, env, n, r);
    if m.job.todo == [] {
      LaunchingEnds(m, env);
    } else {
      var i := Which(env, |m.job.todo|);
      LaunchReady(m, i, env.made(m.serial + 1));
      LaunchingOutcome(DoLaunch(m, i, env.made(m.serial + 1)), env, n - 1, r);
      LaunchedAfter(m, env, i, r);
    }
  }

  /** A token for new processes is taken while no handler runs. */
  ghost predicate TakesNew(m: Manager) {
    Good(m) && m.job.NoJob? && m.newTokens > 0
  }

  lemma NewReady(m: Manager)
    requires TakesNew(m)
    ensures Available(m) >= 0
    ensures var q := DoBeginNew(m);
            var n := Min(|m.desk.waiting|, Available(m));
            && q == m.(newTokens := m.newTokens - 1, job := if n == 0 then NoJob else Launching(m.desk.waiting[..n]))
            && (n > 0 ==> ReadyToLaunch(q))
  {
    GoodSound(m);
    GoodWaiting(m);
    hide Good, Sound;
    var n := Min(|m.desk.waiting|, Available(m));
    assert forall g :: g in m.desk.waiting[..n] ==> g in m.desk.waiting;
    assert forall i, j :: 0 <= i < j < n ==> m.desk.waiting[i] != m.desk.waiting[j];
  }

  /** An allocation of new processes, in whatever order: the groups that have waited longest are served while there are
      free slots; as many leave the waiting list as processes were started, and if none failed it is exactly
      the front of the list that leaves, with one process more each. */
  lemma NewOutcome(m: Manager, env: Env, r: Manager)
    requires TakesNew(m) && Completes(DoBeginNew(m), env, r)
    ensures var free := m.cfg.max - |m.t.order| - m.t.busyLen;
            var n := if |m.desk.waiting| <= free then |m.desk.waiting| else free;
            && 0 <= n && r.newTokens == m.newTokens - 1
            && r.cfg.max - |r.t.order| - r.t.busyLen == free - Successes(env, m.serial, n)
            && |r.desk.waiting| == |m.desk.waiting| - Successes(env, m.serial, n)
            && (forall g :: g in m.desk.waiting[..n] ==> Response(g, 1) in r.desk.outbox)
            && ((forall k :: env.made(k).Made?) ==>
                  && Successes(env, m.serial, n) == n && r.desk.waiting == m.desk.waiting[n..]
                  && (forall g: nat :: |Team(r.t, g)| == |Team(m.t, g)| + if g in m.desk.waiting[..n] then 1 else 0))
  {
    hide Good, Performs, DoBeginNew, ReadyToLaunch, Minus, Team, Keeps;
    NewReady(m);
    GoodWaiting(m);
    var q := DoBeginNew(m);
    var n := Min(|m.desk.waiting|, Available(m));
    if q.job.NoJob? {
      NoJobEnds(q, env, r);
    } else {
      var k: nat :| Performs(q, env, k, r);
      LaunchingOutcome(q, env, k, r);
      FrontMinus(m.desk.waiting, n, Elements(m.desk.waiting[..n]));
    }
    if forall k :: env.made(k).Made? {
      AllSucceed(env, m.serial, n);
    }
  }
}
