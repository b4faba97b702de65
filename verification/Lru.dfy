/**
 The LRU cache.  The list model is what the code keeps; the stamp model says what it
 should mean: every present key carries the time of its latest Add or Get, and
 eviction takes the earliest.
 */
module Lru {

  /** Comparable Go values, by number. */
  type Key = nat
  type Val = nat

  datatype Entry = Entry(key: Key, value: Val)

  /** The operations of the cache. */
  datatype Op = Add(key: Key, value: Val) | Get(key: Key) | Remove(key: Key) | RemoveOldest | Clear

  // ----- the list, most recent first -----

  function Find(l: seq<Entry>, k: Key): (i: nat)
    ensures i <= |l|
    ensures i < |l| ==> l[i].key == k
    ensures forall j :: 0 <= j < i ==> l[j].key != k
  {
    if l == [] || l[0].key == k then 0 else 1 + Find(l[1..], k)
  }

  function Without(l: seq<Entry>, i: nat): seq<Entry>
    requires i < |l|
  {
    l[..i] + l[i + 1..]
  }

  function Apply(l: seq<Entry>, max: nat, op: Op): seq<Entry> {
    match op
    case Add(k, v) =>
      var i := Find(l, k);
      if i < |l| then [Entry(k, v)] + Without(l, i)
      else if max != 0 && |l| + 1 > max then ([Entry(k, v)] + l)[..|l|]
      else [Entry(k, v)] + l
    case Get(k) => (var i := Find(l, k); if i < |l| then [l[i]] + Without(l, i) else l)
    case Remove(k) => (var i := Find(l, k); if i < |l| then Without(l, i) else l)
    case RemoveOldest => if l == [] then l else l[..|l| - 1]
    case Clear => []
  }

  function Run(max: nat, ops: seq<Op>): seq<Entry> {
    if ops == [] then [] else Apply(Run(max, ops[..|ops| - 1]), max, ops[|ops| - 1])
  }

  // ----- stamps -----

  datatype Stamped = Stamped(value: Val, at: nat)

  type Table = map<Key, Stamped>

  predicate Oldest(t: Table, k: Key) {
    k in t && forall j :: j in t ==> t[k].at <= t[j].at
  }

  /** `r` is `t` without its earliest key. */
  ghost predicate Evicts(t: Table, r: Table) {
    exists k :: Oldest(t, k) && r == t - {k}
  }

  /** What an operation at time `now` makes of the table. */
  ghost predicate Means(t: Table, max: nat, now: nat, op: Op, r: Table) {
    match op
    case Add(k, v) =>
      var t1 := t[k := Stamped(v, now)];
      if k !in t && max != 0 && |t1| > max then Evicts(t1, r) else r == t1
    case Get(k) => r == if k in t then t[k := t[k].(at := now)] else t
    case Remove(k) => r == t - {k}
    case RemoveOldest => if t == map[] then r == t else Evicts(t, r)
    case Clear => r == map[]
  }

  predicate Holds(l: seq<Entry>, k: Key) {
    exists i :: 0 <= i < |l| && l[i].key == k
  }

  /** The list is the table, latest stamp first, each key once. */
  ghost predicate Lists(l: seq<Entry>, t: Table, now: nat) {
    && (forall i :: 0 <= i < |l| ==> l[i].key in t && t[l[i].key].value == l[i].value && t[l[i].key].at < now)
    && (forall i, j :: 0 <= i < j < |l| ==> t[l[i].key].at > t[l[j].key].at)
    && (forall k :: k in t ==> Holds(l, k))
  }

  lemma FindHolds(l: seq<Entry>, k: Key)
    ensures Holds(l, k) <==> Find(l, k) < |l|
  {
  }

  /** A new latest entry. */
  lemma PushedFront(l: seq<Entry>, t: Table, now: nat, k: Key, v: Val)
    requires Lists(l, t, now) && k !in t
    ensures Lists([Entry(k, v)] + l, t[k := Stamped(v, now)], now + 1)
  {
    var r, u := [Entry(k, v)] + l, t[k := Stamped(v, now)];
    assert forall i :: 0 < i < |r| ==> r[i] == l[i - 1] && r[i].key != k && u[r[i].key] == t[r[i].key];
    forall j | j in u ensures Holds(r, j) {
      if j == k {
        assert r[0].key == j;
      } else {
        assert Holds(l, j);
        var i :| 0 <= i < |l| && l[i].key == j;
        assert r[i + 1].key == j;
      }
    }
  }

  lemma OnceEach(l: seq<Entry>, t: Table, now: nat, i: nat, j: nat)
    requires Lists(l, t, now) && i < |l| && j < |l| && i != j
    ensures l[i].key != l[j].key
  {
    assert t[l[i].key].at != t[l[j].key].at;
  }

  /** Where an entry of the shortened list was. */
  lemma WithoutAt(l: seq<Entry>, i: nat, j: nat)
    requires i < |l| && j < |l| - 1
    ensures Without(l, i)[j] == l[if j < i then j else j + 1]
  {
  }

  lemma HeldWithout(l: seq<Entry>, i: nat, k: Key)
    requires i < |l| && Holds(l, k) && l[i].key != k
    ensures Holds(Without(l, i), k)
  {
    var x :| 0 <= x < |l| && l[x].key == k;
    var y := if x < i then x else x - 1;
    WithoutAt(l, i, y);
  }

  lemma TakenOut(l: seq<Entry>, t: Table, now: nat, i: nat)
    requires Lists(l, t, now) && i < |l|
    ensures Lists(Without(l, i), t - {l[i].key}, now)
  {
    var r, u := Without(l, i), t - {l[i].key};
    hide Holds, Without;
    WithoutLength(l, i);
    forall j | 0 <= j < |r| ensures r[j].key in u && u[r[j].key].value == r[j].value && u[r[j].key].at < now {
      WithoutAt(l, i, j);
      OnceEach(l, t, now, i, if j < i then j else j + 1);
    }
    forall j | j in u ensures Holds(r, j) {
      HeldWithout(l, i, j);
    }
    forall x, y | 0 <= x < y < |r| ensures u[r[x].key].at > u[r[y].key].at {
      WithoutAt(l, i, x);
      WithoutAt(l, i, y);
    }
  }

  lemma WithoutLength(l: seq<Entry>, i: nat)
    requires i < |l|
    ensures |Without(l, i)| == |l| - 1
  {
  }

  /** The last entry is the earliest. */
  lemma LastIsOldest(l: seq<Entry>, t: Table, now: nat)
    requires Lists(l, t, now) && l != []
    ensures Oldest(t, l[|l| - 1].key)
  {
    forall j | j in t ensures t[l[|l| - 1].key].at <= t[j].at {
      assert Holds(l, j);
      var i :| 0 <= i < |l| && l[i].key == j;
    }
  }

  lemma EvictsLast(l: seq<Entry>, t: Table, now: nat)
    requires Lists(l, t, now) && l != []
    ensures Evicts(t, t - {l[|l| - 1].key}) && Lists(l[..|l| - 1], t - {l[|l| - 1].key}, now)
  {
    LastIsOldest(l, t, now);
    TakenOut(l, t, now, |l| - 1);
    assert Without(l, |l| - 1) == l[..|l| - 1];
  }

  /** An entry moved to the front, maybe with a new value. */
  lemma Refreshed(l: seq<Entry>, t: Table, now: nat, i: nat, v: Val)
    requires Lists(l, t, now) && i < |l|
    ensures Lists([Entry(l[i].key, v)] + Without(l, i), t[l[i].key := Stamped(v, now)], now + 1)
  {
    var k := l[i].key;
    TakenOut(l, t, now, i);
    PushedFront(Without(l, i), t - {k}, now, k, v);
    assert (t - {k})[k := Stamped(v, now)] == t[k := Stamped(v, now)];
  }

  lemma Later(l: seq<Entry>, t: Table, now: nat)
    requires Lists(l, t, now)
    ensures Lists(l, t, now + 1)
  {
  }

  lemma AddMeans(l: seq<Entry>, t: Table, max: nat, now: nat, k: Key, v: Val) returns (r: Table)
    requires Lists(l, t, now)
    ensures Means(t, max, now, Add(k, v), r) && Lists(Apply(l, max, Add(k, v)), r, now + 1)
  {
    hide Lists, Evicts;
    FindHolds(l, k);
    PresentExactly(l, t, now, k);
    r := t[k := Stamped(v, now)];
    var i := Find(l, k);
    if i < |l| {
      Refreshed(l, t, now, i, v);
    } else {
      PushedFront(l, t, now, k, v);
      SizeIs([Entry(k, v)] + l, r, now + 1);
      if max != 0 && |l| + 1 > max {
        var n := [Entry(k, v)] + l;
        EvictsLast(n, r, now + 1);
        r := r - {n[|l|].key};
      }
    }
  }

  function Keys(l: seq<Entry>): set<Key> {
    set e | e in l :: e.key
  }

  lemma {:induction false} KeysSize(l: seq<Entry>)
    requires forall i, j :: 0 <= i < j < |l| ==> l[i].key != l[j].key
    ensures |Keys(l)| == |l|
  {
    if l != [] {
      var rest := l[1..];
      KeysSize(rest);
      assert Keys(l) == Keys(rest) + {l[0].key};
    }
  }

  lemma SizeIs(l: seq<Entry>, t: Table, now: nat)
    requires Lists(l, t, now)
    ensures |t| == |l|
  {
    forall i, j | 0 <= i < j < |l| ensures l[i].key != l[j].key {
      OnceEach(l, t, now, i, j);
    }
    KeysSize(l);
    assert t.Keys == Keys(l);
  }

  lemma PresentExactly(l: seq<Entry>, t: Table, now: nat, k: Key)
    requires Lists(l, t, now)
    ensures k in t <==> Holds(l, k)
  {
  }

  lemma GetMeans(l: seq<Entry>, t: Table, max: nat, now: nat, k: Key) returns (r: Table)
    requires Lists(l, t, now)
    ensures Means(t, max, now, Get(k), r) && Lists(Apply(l, max, Get(k)), r, now + 1)
  {
    FindHolds(l, k);
    PresentExactly(l, t, now, k);
    var i := Find(l, k);
    r := if k in t then t[k := t[k].(at := now)] else t;
    if i < |l| {
      assert t[k].value == l[i].value;
      hide Lists;
      Refreshed(l, t, now, i, l[i].value);
      assert l[i] == Entry(k, l[i].value);
    } else {
      hide Lists;
      Later(l, t, now);
    }
  }

  lemma RemoveMeans(l: seq<Entry>, t: Table, max: nat, now: nat, k: Key) returns (r: Table)
    requires Lists(l, t, now)
    ensures Means(t, max, now, Remove(k), r) && Lists(Apply(l, max, Remove(k)), r, now + 1)
  {
    hide Lists;
    FindHolds(l, k);
    PresentExactly(l, t, now, k);
    r := t - {k};
    var i := Find(l, k);
    if i < |l| {
      TakenOut(l, t, now, i);
      Later(Without(l, i), r, now);
    } else {
      assert r == t;
      Later(l, t, now);
    }
  }

  lemma RemoveOldestMeans(l: seq<Entry>, t: Table, max: nat, now: nat) returns (r: Table)
    requires Lists(l, t, now)
    ensures Means(t, max, now, RemoveOldest, r) && Lists(Apply(l, max, RemoveOldest), r, now + 1)
  {
    hide Lists, Evicts;
    SizeIs(l, t, now);
    Later(l, t, now);
    r := t;
    if l != [] {
      EvictsLast(l, t, now);
      r := t - {l[|l| - 1].key};
      Later(l[..|l| - 1], r, now);
    }
  }

  lemma StepMeans(l: seq<Entry>, t: Table, max: nat, now: nat, op: Op) returns (r: Table)
    requires Lists(l, t, now)
    ensures Means(t, max, now, op, r) && Lists(Apply(l, max, op), r, now + 1)
  {
    match op
    case Add(k, v) => r := AddMeans(l, t, max, now, k, v);
    case Get(k) => r := GetMeans(l, t, max, now, k);
    case Remove(k) => r := RemoveMeans(l, t, max, now, k);
    case RemoveOldest => r := RemoveOldestMeans(l, t, max, now);
    case Clear => r := map[];
  }

  /** The tables through which the operations lead, each step with its meaning at its own time. */
  ghost predicate History(max: nat, ops: seq<Op>, tables: seq<Table>) {
    && |tables| == |ops| + 1 && tables[0] == map[]
    && forall n :: 0 <= n < |ops| ==> Means(tables[n], max, n, ops[n], tables[n + 1])
  }

  /** After any operations the list is the table of latest uses, in order: keys once each, the value last added, and
      what an Add over capacity or RemoveOldest takes is the key whose latest Add or Get is earliest. */
  lemma {:induction false} RefinesStamps(max: nat, ops: seq<Op>) returns (tables: seq<Table>)
    ensures History(max, ops, tables) && Lists(Run(max, ops), tables[|ops|], |ops|)
  {
    if ops == [] {
      tables := [map[]];
    } else {
      hide Means, Lists, Apply, History;
      var front := ops[..|ops| - 1];
      var before := RefinesStamps(max, front);
      HistoryLength(max, front, before);
      var r := StepMeans(Run(max, front), before[|front|], max, |front|, ops[|ops| - 1]);
      HistoryMore(max, front, before, ops[|ops| - 1], r);
      assert front + [ops[|ops| - 1]] == ops;
      tables := before + [r];
    }
  }

  lemma HistoryLength(max: nat, ops: seq<Op>, tables: seq<Table>)
    requires History(max, ops, tables)
    ensures |tables| == |ops| + 1
  {
    hide Means;
  }

  lemma HistoryMore(max: nat, ops: seq<Op>, tables: seq<Table>, op: Op, r: Table)
    requires History(max, ops, tables) && |tables| == |ops| + 1 && Means(tables[|ops|], max, |ops|, op, r)
    ensures History(max, ops + [op], tables + [r])
  {
    hide Means;
    var all, now := ops + [op], tables + [r];
    forall n | 0 <= n < |all| ensures Means(now[n], max, n, all[n], now[n + 1]) {
      if n < |ops| {
        assert all[n] == ops[n] && now[n] == tables[n] && now[n + 1] == tables[n + 1];
      }
    }
  }

  /** The limit holds after every operation. */
  lemma {:induction false} WithinLimit(max: nat, ops: seq<Op>)
    requires max != 0
    ensures |Run(max, ops)| <= max
  {
    if ops != [] {
      WithinLimit(max, ops[..|ops| - 1]);
    }
  }
}
