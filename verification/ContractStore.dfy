/**
 The contract manager: contract files on disk and the LRU that lists them, in TCP
 mode.  A contract is a number; its file's path, which the LRU holds as the value,
 is the same number.  Whether removing or writing a file works is part of the event.
 */
module ContractStore {
  import opened Basics
  import opened Lru
  import opened LruCache

  datatype Store = Store(max: nat, list: seq<Entry>, disk: set<Key>)

  /** What the request group, or the chain, hears. */
  datatype Outcome = Ready | Failed | AskedChain | Nothing

  // ----- the handlers -----

  /** handleGetContractReq. */
  function OnRequest(s: Store, k: Key): (Store, Outcome) {
    (s.(list := Apply(s.list, s.max, Get(k))), if Find(s.list, k) < |s.list| then Ready else AskedChain)
  }

  /** A contract as the chain sends it: refused, without bytes, or with bytes. */
  datatype Reply = Refused | Empty | Code

  /** handleGetContractResp: room is made by hand before the contract is added. */
  function OnResponse(s: Store, k: Key, reply: Reply, removes: bool, writes: bool): (Store, Outcome) {
    if reply.Refused? then (s, Failed)
    else if |s.list| == s.max && s.list == [] then (s, Failed)
    else
      var s1 := if |s.list| == s.max then Evict(s, removes) else s;
      if |s.list| == s.max && !removes then (s1, Failed)
      else
        var s2 := s1.(list := Apply(s1.list, s1.max, Add(k, k)));
        if reply.Empty? || !writes then (s2, Failed) else (s2.(disk := s2.disk + {k}), Ready)
  }

  function Evict(s: Store, removes: bool): Store
    requires s.list != []
  {
    var path := s.list[|s.list| - 1].value;
    Store(s.max, Apply(s.list, s.max, RemoveOldest), if removes then s.disk - {path} else s.disk)
  }

  /** handleBadContractResp. */
  function OnBad(s: Store, k: Key, removes: bool): Store {
    var i := Find(s.list, k);
    if i == |s.list| then s
    else
      var touched := Apply(s.list, s.max, Get(k));
      Store(s.max, Apply(touched, s.max, Remove(k)), if removes then s.disk - {s.list[i].value} else s.disk)
  }

  // ----- runs -----

  datatype Event =
    | Request(k: Key)
    | Response(k: Key, reply: Reply, removes: bool, writes: bool)
    | Bad(k: Key, removes: bool)

  function Step(s: Store, ev: Event): Store {
    match ev
    case Request(k) => OnRequest(s, k).0
    case Response(k, reply, removes, writes) => OnResponse(s, k, reply, removes, writes).0
    case Bad(k, removes) => OnBad(s, k, removes)
  }

  function Run(s: Store, evs: seq<Event>): Store
    decreases |evs|
  {
    if evs == [] then s else Run(Step(s, evs[0]), evs[1..])
  }

  predicate RemovalsWork(evs: seq<Event>) {
    forall i :: 0 <= i < |evs| ==> (evs[i].Request? || evs[i].removes)
  }

  // ----- cache and disk in step -----

  predicate Once(l: seq<Entry>) {
    forall i, j :: 0 <= i < j < |l| ==> l[i].key != l[j].key
  }

  /** Every entry names its own file. */
  predicate OwnPaths(l: seq<Entry>) {
    forall i :: 0 <= i < |l| ==> l[i].value == l[i].key
  }

  ghost predicate InStep(s: Store) {
    && |s.list| <= s.max && Once(s.list) && OwnPaths(s.list)
    && forall k :: k in s.disk ==> Holds(s.list, k)
  }

  lemma HoldsAt(l: seq<Entry>, i: nat)
    requires i < |l|
    ensures Holds(l, l[i].key)
  {
  }

  lemma OutKeeps(l: seq<Entry>, i: nat, j: Key)
    requires Once(l) && i < |l|
    ensures Holds(Without(l, i), j) <==> Holds(l, j) && j != l[i].key
  {
    var r := Without(l, i);
    if Holds(r, j) {
      var x :| 0 <= x < |r| && r[x].key == j;
      var y := if x < i then x else x + 1;
      assert l[y] == r[x];
    }
    if Holds(l, j) && j != l[i].key {
      var x :| 0 <= x < |l| && l[x].key == j;
      HoldsAt(r, if x < i then x else x - 1);
    }
  }

  lemma OutOrdered(l: seq<Entry>, i: nat)
    requires Once(l) && OwnPaths(l) && i < |l|
    ensures Once(Without(l, i)) && OwnPaths(Without(l, i))
  {
    var r := Without(l, i);
    assert forall x :: 0 <= x < |r| ==> r[x] == l[if x < i then x else x + 1];
  }

  lemma PushHolds(l: seq<Entry>, e: Entry, j: Key)
    ensures Holds([e] + l, j) <==> Holds(l, j) || j == e.key
  {
    var r := [e] + l;
    if Holds(l, j) {
      var x :| 0 <= x < |l| && l[x].key == j;
      HoldsAt(r, x + 1);
    }
    HoldsAt(r, 0);
  }

  lemma PushOrdered(l: seq<Entry>, e: Entry)
    requires Once(l) && OwnPaths(l) && e.value == e.key && !Holds(l, e.key)
    ensures Once([e] + l) && OwnPaths([e] + l)
  {
    var r := [e] + l;
    assert forall x :: 0 < x < |r| ==> r[x] == l[x - 1];
  }

  /** Moving to the front keeps who is there. */
  lemma TouchKeeps(l: seq<Entry>, max: nat, k: Key)
    requires Once(l) && OwnPaths(l)
    ensures var r := Apply(l, max, Get(k));
            |r| == |l| && Once(r) && OwnPaths(r) && forall j :: Holds(r, j) <==> Holds(l, j)
  {
    var i := Find(l, k);
    if i < |l| {
      var rest := Without(l, i);
      hide Holds;
      OutOrdered(l, i);
      OutKeeps(l, i, l[i].key);
      PushOrdered(rest, l[i]);
      HoldsAt(l, i);
      forall j ensures Holds([l[i]] + rest, j) <==> Holds(l, j) {
        OutKeeps(l, i, j);
        PushHolds(rest, l[i], j);
      }
    }
  }

  lemma RemoveKeeps(l: seq<Entry>, max: nat, k: Key)
    requires Once(l) && OwnPaths(l)
    ensures var r := Apply(l, max, Remove(k));
            |r| <= |l| && Once(r) && OwnPaths(r) && !Holds(r, k) && forall j :: j != k ==>
              (Holds(r, j) <==> Holds(l, j))
  {
    var i := Find(l, k);
    FindHolds(l, k);
    if i < |l| {
      hide Holds;
      OutOrdered(l, i);
      forall j ensures Holds(Without(l, i), j) <==> Holds(l, j) && j != k {
        OutKeeps(l, i, j);
      }
    }
  }

  /** With room, Add does not evict: what is listed afterwards is what was, and the new contract. */
  lemma AddKeeps(l: seq<Entry>, max: nat, k: Key)
    requires Once(l) && OwnPaths(l) && |l| < max
    ensures var r := Apply(l, max, Add(k, k));
            |r| <= max && Once(r) && OwnPaths(r) && forall j :: Holds(r, j) <==> Holds(l, j) || j == k
  {
    var r := Apply(l, max, Add(k, k));
    var i := Find(l, k);
    if i < |l| {
      assert r == Apply(l, max, Get(k)) by { assert l[i] == Entry(k, k); }
      hide Apply;
      TouchKeeps(l, max, k);
      assert l[i].key == k && Holds(l, k);
    } else {
      PushKeeps(l, Entry(k, k));
    }
  }

  lemma PushKeeps(l: seq<Entry>, e: Entry)
    requires Once(l) && OwnPaths(l) && e.value == e.key && Find(l, e.key) == |l|
    ensures var r := [e] + l; Once(r) && OwnPaths(r) && forall j :: Holds(r, j) <==> Holds(l, j) || j == e.key
  {
    FindHolds(l, e.key);
    hide Holds;
    PushOrdered(l, e);
    forall j ensures Holds([e] + l, j) <==> Holds(l, j) || j == e.key {
      PushHolds(l, e, j);
    }
  }

  lemma EvictKeeps(s: Store)
    requires InStep(s) && s.list != []
    ensures InStep(Evict(s, true)) && |Evict(s, true).list| < s.max
  {
    var r := Evict(s, true);
    forall k | k in r.disk ensures Holds(r.list, k) {
      assert Holds(s.list, k);
      var i :| 0 <= i < |s.list| && s.list[i].key == k;
      assert i < |r.list| && r.list[i] == s.list[i];
    }
  }

  lemma StepKeeps(s: Store, ev: Event)
    requires InStep(s) && s.max > 0 && (ev.Request? || ev.removes)
    ensures InStep(Step(s, ev)) && Step(s, ev).max == s.max
  {
    hide Apply, Find;
    match ev
    case Request(k) => TouchKeeps(s.list, s.max, k);
    case Response(k, _, _, _) =>
      if s.list != [] {
        EvictKeeps(s);
      }
      var s1 := if |s.list| == s.max then Evict(s, true) else s;
      AddKeeps(s1.list, s1.max, k);
    case Bad(k, _) =>
      TouchKeeps(s.list, s.max, k);
      RemoveKeeps(Apply(s.list, s.max, Get(k)), s.max, k);
      BadOk(s, k);
  }

  lemma BadOk(s: Store, k: Key)
    requires InStep(s)
    ensures Find(s.list, k) < |s.list| ==> s.list[Find(s.list, k)].value == k
  {
  }

  /** In every run with at least one entry allowed and working removals, the LRU stays within its limit and every
      contract file on disk is listed. */
  lemma {:induction false} DiskIsListed(s: Store, evs: seq<Event>)
    requires InStep(s) && s.max > 0 && RemovalsWork(evs)
    ensures InStep(Run(s, evs))
    decreases |evs|
  {
    hide InStep, Step;
    if evs != [] {
      StepKeeps(s, evs[0]);
      assert forall i :: 0 <= i < |evs[1..]| ==> evs[1..][i] == evs[i + 1];
      DiskIsListed(Step(s, evs[0]), evs[1..]);
    }
  }

  /** A delivered contract is found by the next request for it, and a bad one is not. */
  lemma Delivered(s: Store, k: Key, writes: bool)
    requires InStep(s) && s.max > 0
    ensures writes ==> OnRequest(OnResponse(s, k, Code, true, writes).0, k).1 == Ready
    ensures OnRequest(OnBad(s, k, true), k).1 == AskedChain
  {
    if s.list != [] {
      EvictKeeps(s);
    }
    var s1 := if |s.list| == s.max then Evict(s, true) else s;
    AddKeeps(s1.list, s1.max, k);
    FindHolds(Apply(s1.list, s1.max, Add(k, k)), k);
    TouchKeeps(s.list, s.max, k);
    RemoveKeeps(Apply(s.list, s.max, Get(k)), s.max, k);
    FindHolds(OnBad(s, k, true).list, k);
  }

  /** For every response: it makes the contract ready exactly when it brings bytes that could be written, and there was
      room or the oldest file could be removed; a ready contract is listed and on disk, and a refused response changes
      nothing. */
  lemma ReadyExactly(s: Store, k: Key, reply: Reply, removes: bool, writes: bool)
    requires InStep(s)
    ensures var r := OnResponse(s, k, reply, removes, writes);
            && (r.1 == Ready <==> reply.Code? && writes && s.max > 0 && (|s.list| < s.max || removes))
            && (r.1 != Ready ==> r.1 == Failed)
            && (r.1 == Ready ==> Holds(r.0.list, k) && k in r.0.disk)
            && (reply.Refused? ==> r.0 == s)
  {
    if s.list != [] && |s.list| == s.max && removes {
      EvictKeeps(s);
    }
    var s1 := if |s.list| == s.max && s.list != [] then Evict(s, removes) else s;
    hide Apply, Holds;
    if |s1.list| < s1.max && InStep(s1) {
      AddKeeps(s1.list, s1.max, k);
    }
  }

  // ----- is the file of a listed contract there? -----

  /** Every listed contract has its file. */
  ghost predicate Stored(s: Store) {
    forall k :: Holds(s.list, k) ==> k in s.disk
  }

  predicate FullOf(s: Store, k: Key) {
    s.list != [] && |s.list| == s.max && s.list[|s.list| - 1].key == k
  }

  /** A response that is not refused brings no bytes, or bytes that cannot be written, for a contract that is not on
      disk or is just being evicted. */
  predicate Unwritten(s: Store, ev: Event) {
    && ev.Response? && !ev.reply.Refused? && (ev.reply.Empty? || !ev.writes)
    && (ev.k !in s.disk || FullOf(s, ev.k))
  }

  lemma EvictStored(s: Store)
    requires InStep(s) && Stored(s) && s.list != []
    ensures Stored(Evict(s, true))
  {
    var r := Evict(s, true);
    forall k | Holds(r.list, k) ensures k in r.disk {
      var i :| 0 <= i < |r.list| && r.list[i].key == k;
      assert s.list[i] == r.list[i] && i < |s.list| - 1;
      HoldsAt(s.list, i);
    }
  }

  lemma ResponseStored(s: Store, k: Key, reply: Reply, writes: bool)
    requires InStep(s) && Stored(s) && s.max > 0
    ensures Stored(OnResponse(s, k, reply, true, writes).0) <==> !Unwritten(s, Response(k, reply, true, writes))
  {
    if !reply.Refused? {
      if |s.list| == s.max {
        EvictKeeps(s);
        EvictStored(s);
      }
      var s1 := if |s.list| == s.max then Evict(s, true) else s;
      var s2 := OnResponse(s, k, reply, true, writes).0;
      assert k in s1.disk <==> k in s.disk && !FullOf(s, k);
      hide Apply, Evict;
      AddKeeps(s1.list, s1.max, k);
      assert Holds(s2.list, k);
    }
  }

  lemma BadStored(s: Store, k: Key)
    requires InStep(s) && Stored(s)
    ensures Stored(OnBad(s, k, true))
  {
    TouchKeeps(s.list, s.max, k);
    RemoveKeeps(Apply(s.list, s.max, Get(k)), s.max, k);
    BadOk(s, k);
    hide Apply, Find, Holds;
  }

  /** From a store where every listed contract has its file, one event leaves such a store exactly when it is not an
      unwritten response: the contract is listed before its file is written and stays listed when that fails. */
  lemma StoredStep(s: Store, ev: Event)
    requires InStep(s) && Stored(s) && s.max > 0 && (ev.Request? || ev.removes)
    ensures Stored(Step(s, ev)) <==> !Unwritten(s, ev)
  {
    match ev
    case Request(k) =>
      TouchKeeps(s.list, s.max, k);
    case Response(k, reply, _, writes) =>
      ResponseStored(s, k, reply, writes);
    case Bad(k, _) =>
      BadStored(s, k);
  }

  predicate WritesWork(evs: seq<Event>) {
    forall i :: 0 <= i < |evs| && evs[i].Response? ==> evs[i].reply.Refused? || (evs[i].reply.Code? && evs[i].writes)
  }

  /** Over every run in which files can be removed and written and no response is empty, the LRU lists exactly the
      contract files on disk. */
  lemma {:induction false} ListedIsStored(s: Store, evs: seq<Event>)
    requires InStep(s) && Stored(s) && s.max > 0 && RemovalsWork(evs) && WritesWork(evs)
    ensures forall k :: Holds(Run(s, evs).list, k) <==> k in Run(s, evs).disk
    decreases |evs|
  {
    if evs != [] {
      assert forall i :: 0 <= i < |evs[1..]| ==> evs[1..][i] == evs[i + 1];
      hide InStep, Stored, Step;
      StepKeeps(s, evs[0]);
      StoredStep(s, evs[0]);
      ListedIsStored(Step(s, evs[0]), evs[1..]);
    }
  }

  /** Otherwise a request can be answered as ready without a file: after an empty response for a new contract. */
  lemma ReadyWithoutFile(s: Store, k: Key)
    requires InStep(s) && |s.list| < s.max && !Holds(s.list, k)
    ensures var q := OnResponse(s, k, Empty, true, true);
            q.1 == Failed && OnRequest(q.0, k).1 == Ready && k !in q.0.disk
  {
    var q := OnResponse(s, k, Empty, true, true).0;
    AddKeeps(s.list, s.max, k);
    FindHolds(q.list, k);
  }

  /** A contract response is accepted, given bytes and working files, exactly when at least one entry is allowed. */
  lemma AcceptedExactly(s: Store, k: Key)
    requires |s.list| <= s.max
    ensures OnResponse(s, k, Code, true, true).1 == Ready <==> s.max > 0
  {
  }

  /** With no entry allowed nothing is ever stored, so every contract request goes to the chain again. */
  lemma {:induction false} NothingWithoutEntries(evs: seq<Event>)
    ensures Run(Store(0, [], {}), evs) == Store(0, [], {})
    decreases |evs|
  {
    if evs != [] {
      assert Step(Store(0, [], {}), evs[0]) == Store(0, [], {});
      NothingWithoutEntries(evs[1..]);
    }
  }

  // ----- the manager -----

  function Files(files: seq<Key>): set<Key> {
    set k | k in files
  }

  class ContractManager {
    const contractsLRU: Cache
    var disk: set<Key>

    ghost predicate Valid()
      reads this, contractsLRU
    {
      contractsLRU.Valid()
    }

    ghost function View(): Store
      reads this, contractsLRU
      requires Valid()
    {
      Store(contractsLRU.maxEntries, contractsLRU.Contents(), disk)
    }

    /** initContractLRU: the files found first are listed up to the limit, the others are removed. */
    constructor (max: nat, files: seq<Key>)
      requires NoRepeats(files)
      ensures Valid() && InStep(View()) && View().max == max
      ensures View().disk == Files(files[..if |files| < max then |files| else max])
    {
      contractsLRU := new Cache(max);
      disk := Files(files);
      new;
      LoadFiles(files);
    }

    method LoadFiles(files: seq<Key>)
      requires Valid() && NoRepeats(files) && View() == Store(contractsLRU.maxEntries, [], Files(files))
      modifies this`disk, contractsLRU
      ensures Valid() && InStep(View())
      ensures var max := contractsLRU.maxEntries; View().disk == Files(files[..if |files| < max then |files| else max])
    {
      hide LoadedList, OnDisk, InStep, Apply, Files, NoRepeats;
      var max := contractsLRU.maxEntries;
      StartFiles(files, max);
      for i := 0 to |files|
        invariant Valid() && contractsLRU.maxEntries == max
        invariant LoadedList(contractsLRU.Contents(), files, if i < max then i else max)
        invariant disk == OnDisk(files, max, i)
      {
        NextFile(files, max, i);
        if i < max {
          AddNew(contractsLRU.Contents(), max, files, i);
          contractsLRU.Add(files[i], files[i]);
        } else {
          disk := disk - {files[i]};
        }
      }
      EndFiles(contractsLRU.Contents(), files, max);
    }

    method HandleGetContractReq(k: Key) returns (o: Outcome)
      requires Valid()
      modifies contractsLRU
      ensures Valid() && (View(), o) == OnRequest(old(View()), k)
    {
      var path, ok := contractsLRU.Get(k);
      return if ok then Ready else AskedChain;
    }

    method HandleGetContractResp(k: Key, reply: Reply, removes: bool, writes: bool) returns (o: Outcome)
      requires Valid()
      modifies this, contractsLRU
      ensures Valid() && (View(), o) == OnResponse(old(View()), k, reply, removes, writes)
    {
      hide Apply, Agree, Listed;
      if reply.Refused? {
        return Failed;
      }
      ghost var s := View();
      var n := contractsLRU.Len();
      if n == contractsLRU.maxEntries {
        var oldest := contractsLRU.GetOldest();
        if oldest.None? {
          return Failed;
        }
        contractsLRU.RemoveOldest();
        if !removes {
          return Failed;
        }
        disk := disk - {oldest.value};
        assert View() == Evict(s, removes);
      }
      contractsLRU.Add(k, k);
      if reply.Empty? || !writes {
        return Failed;
      }
      disk := disk + {k};
      return Ready;
    }

    method HandleBadContractResp(k: Key, removes: bool) returns (ok: bool)
      requires Valid()
      modifies this, contractsLRU
      ensures Valid() && View() == OnBad(old(View()), k, removes)
      ensures ok ==> k !in disk || !InStep(old(View()))
    {
      var path, found := contractsLRU.Get(k);
      if !found {
        return false;
      }
      contractsLRU.Remove(k);
      if !removes {
        return false;
      }
      disk := disk - {path};
      return true;
    }
  }

  /** The first `n` files are listed. */
  ghost predicate LoadedList(l: seq<Entry>, files: seq<Key>, n: nat) {
    n <= |files| && |l| == n && Once(l) && OwnPaths(l) && forall k :: Holds(l, k) <==> k in files[..n]
  }

  /** The files on disk when `i` of them have been looked at. */
  function OnDisk(files: seq<Key>, max: nat, i: nat): set<Key>
    requires i <= |files|
  {
    Files(files[..if i < max then i else max]) + Files(files[i..])
  }

  /** A directory lists each file once. */
  ghost predicate NoRepeats(files: seq<Key>) {
    forall i, j :: 0 <= i < j < |files| ==> files[i] != files[j]
  }

  lemma StartFiles(files: seq<Key>, max: nat)
    ensures LoadedList([], files, 0) && Files(files) == OnDisk(files, max, 0)
  {
    assert files[..0] == [] && files[0..] == files;
  }

  lemma NextFile(files: seq<Key>, max: nat, i: nat)
    requires i < |files| && NoRepeats(files)
    ensures OnDisk(files, max, i + 1) == if i < max then OnDisk(files, max, i) else OnDisk(files, max, i) - {files[i]}
  {
    assert files[i..] == [files[i]] + files[i + 1..];
    if i < max {
      assert files[..i + 1] == files[..i] + [files[i]];
    } else {
      assert files[i] !in files[..max] && files[i] !in files[i + 1..];
    }
  }

  lemma EndFiles(l: seq<Entry>, files: seq<Key>, max: nat)
    requires LoadedList(l, files, if |files| < max then |files| else max)
    ensures var n := if |files| < max then |files| else max;
            OnDisk(files, max, |files|) == Files(files[..n]) && InStep(Store(max, l, Files(files[..n])))
  {
    assert files[|files|..] == [];
  }

  lemma AddNew(l: seq<Entry>, max: nat, files: seq<Key>, i: nat)
    requires LoadedList(l, files, i) && i < max && i < |files| && NoRepeats(files)
    ensures LoadedList(Apply(l, max, Add(files[i], files[i])), files, i + 1)
  {
    var e := Entry(files[i], files[i]);
    assert files[i] !in files[..i];
    FindHolds(l, files[i]);
    PushKeeps(l, e);
    assert files[..i + 1] == files[..i] + [files[i]];
    forall k ensures Holds([e] + l, k) <==> k in files[..i + 1] {
      PushHolds(l, e, k);
    }
  }
}
