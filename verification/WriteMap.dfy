/**
 Merging a contract's write map into the transaction's state, with gas (block
 versions before 2312).  Go iterates over a map in any order, so the map is a
 sequence of items and every statement is about every order of them.  Strings are
 byte strings; a state address is the pair of key and field.
 */
module WriteMap {
  import opened Basics
  import opened Keys

  /** PutStateGasPrice. */
  const PRICE: nat := 10

  datatype Item = Item(key: string, value: string)

  datatype Address = Address(key: string, field: string)

  type State = map<Address, string>

  // ----- keys -----

  /** strings.Split(s, "#"). */
  function Split(s: string): (r: seq<string>)
    ensures r != []
  {
    if s == [] then [""]
    else
      var rest := Split(s[1..]);
      if s[0] == '#' then [""] + rest else [[s[0]] + rest[0]] + rest[1..]
  }

  /** The pieces are what is joined. */
  lemma {:induction false} SplitJoin(a: string, rest: string)
    requires Plain(a)
    ensures Split(a + "#" + rest) == [a] + Split(rest)
  {
    var s := a + "#" + rest;
    if a == [] {
      assert s[1..] == rest && s[0] == '#';
    } else {
      assert s[1..] == a[1..] + "#" + rest;
      assert s[0] == a[0];
      SplitJoin(a[1..], rest);
      assert [a[0]] + a[1..] == a;
    }
  }

  lemma {:induction false} SplitPlain(a: string)
    requires Plain(a)
    ensures Split(a) == [a]
  {
    if a != [] {
      SplitPlain(a[1..]);
      assert [a[0]] + a[1..] == a;
    }
  }

  /** Where a write goes: wrong contract and missing parts are errors; a fourth part and what follows is ignored, and
      the third with it. */
  function Target(contract: string, key: string): Option<Address> {
    var parts := Split(key);
    if |parts| < 2 || parts[0] != contract then None
    else Some(Address(parts[1], if |parts| == 3 then parts[2] else ""))
  }

  // ----- gas -----

  /** PutStateGasUsedLt2312, with 64-bit arithmetic. */
  function PutGas(limit: nat, gas: nat, contract: string, a: Address, value: string): Option<nat> {
    var used := (gas + (|value| + |contract + a.key + a.field|) * PRICE) % TWO_64;
    if used > limit then None else Some(used)
  }

  // ----- the merge -----

  /** The gas that is reported and the state that is left, which after an error holds what was written before it. */
  datatype Merge = Merged(gas: nat, state: State) | Error(gas: nat, state: State)

  function MergeFrom(limit: nat, contract: string, items: seq<Item>, gas: nat, state: State): Merge {
    if items == [] then Merged(gas, state)
    else match Target(contract, items[0].key)
         case None => Error(gas, state)
         case Some(a) =>
           match PutGas(limit, gas, contract, a, items[0].value)
           case None => Error(0, state)
           case Some(used) => MergeFrom(limit, contract, items[1..], used, state[a := items[0].value])
  }

  /** mergeSimContextWriteMap. */
  method MergeSimContextWriteMap(limit: nat, contract: string, items: seq<Item>, gas: nat, state: State)
      returns (r: Merge)
    ensures r == MergeFrom(limit, contract, items, gas, state)
  {
    var used, now := gas, state;
    for i := 0 to |items|
      invariant MergeFrom(limit, contract, items, gas, state) == MergeFrom(limit, contract, items[i..], used, now)
    {
      assert items[i..][1..] == items[i + 1..];
      var a := Target(contract, items[i].key);
      if a.None? {
        return Error(used, now);
      }
      var g := PutGas(limit, used, contract, a.value, items[i].value);
      if g.None? {
        return Error(0, now);
      }
      used := g.value;
      now := now[a.value := items[i].value];
    }
    return Merged(used, now);
  }

  // ----- what it should be -----

  predicate Targeted(contract: string, items: seq<Item>) {
    forall i :: 0 <= i < |items| ==> Target(contract, items[i].key).Some?
  }

  /** Bytes written, over all items. */
  function Bytes(contract: string, items: seq<Item>): nat
    requires Targeted(contract, items)
  {
    if items == [] then 0 else ItemBytes(contract, items[0]) + Bytes(contract, items[1..])
  }

  function ItemBytes(contract: string, item: Item): nat
    requires Target(contract, item.key).Some?
  {
    var a := Target(contract, item.key).value;
    |item.value| + |contract| + |a.key| + |a.field|
  }

  /** Items that write to the same address write the same value. */
  predicate Compatible(contract: string, items: seq<Item>) {
    forall i, j :: 0 <= i < |items| && 0 <= j < |items| ==>
      (Target(contract, items[i].key) == Target(contract, items[j].key) ==> items[i].value == items[j].value)
  }

  // ----- gas -----

  /** With gas to start with within the limit and no overflow, the merge succeeds exactly when the total is within the
      limit, and then uses exactly that. */
  lemma {:induction false} GasExact(limit: nat, contract: string, items: seq<Item>, gas: nat, state: State)
    requires Targeted(contract, items) && gas <= limit && gas + 10 * Bytes(contract, items) < TWO_64
    ensures var r := MergeFrom(limit, contract, items, gas, state);
            if gas + 10 * Bytes(contract, items) <= limit then r.Merged? &&
              r.gas == gas + 10 * Bytes(contract, items)
            else r.Error? && r.gas == 0
    decreases |items|
  {
    if items != [] {
      hide Target, PutGas, ItemBytes;
      var a := Target(contract, items[0].key).value;
      var used := gas + 10 * ItemBytes(contract, items[0]);
      assert Targeted(contract, items[1..]);
      OnePut(limit, gas, contract, items[0]);
      if used <= limit {
        GasExact(limit, contract, items[1..], used, state[a := items[0].value]);
      }
    }
  }

  lemma {:induction false} ForeignFails(limit: nat, contract: string, items: seq<Item>, gas: nat, state: State)
    requires !Targeted(contract, items)
    ensures MergeFrom(limit, contract, items, gas, state).Error?
    decreases |items|
  {
    hide Target, PutGas;
    if Target(contract, items[0].key).Some? {
      var a := Target(contract, items[0].key).value;
      var used := PutGas(limit, gas, contract, a, items[0].value);
      assert !Targeted(contract, items[1..]);
      if used.Some? {
        ForeignFails(limit, contract, items[1..], used.value, state[a := items[0].value]);
      }
    }
  }

  /** For every map, whatever its keys and its order: the merge succeeds exactly when every key names the contract and
      a state key, and starting gas and cost are within the limit. */
  lemma SucceedsExactly(limit: nat, contract: string, items: seq<Item>, gas: nat, state: State)
    requires gas <= limit && (Targeted(contract, items) ==> gas + 10 * Bytes(contract, items) < TWO_64)
    ensures MergeFrom(limit, contract, items, gas, state).Merged? <==>
            Targeted(contract, items) && gas + 10 * Bytes(contract, items) <= limit
  {
    hide MergeFrom, Target, Bytes;
    if Targeted(contract, items) {
      GasExact(limit, contract, items, gas, state);
    } else {
      ForeignFails(limit, contract, items, gas, state);
    }
  }

  /** A merge that fails has written the items before the one that failed, and nothing else. */
  lemma {:induction false} FailedPrefix(limit: nat, contract: string, items: seq<Item>, gas: nat, state: State)
      returns (n: nat)
    requires MergeFrom(limit, contract, items, gas, state).Error?
    ensures n < |items|
    ensures var done := MergeFrom(limit, contract, items[..n], gas, state);
            done.Merged? && done.state == MergeFrom(limit, contract, items, gas, state).state
            && MergeFrom(limit, contract, [items[n]], done.gas, done.state).Error?
    decreases |items|
  {
    hide Target, PutGas;
    var a := Target(contract, items[0].key);
    var used := if a.Some? then PutGas(limit, gas, contract, a.value, items[0].value) else None;
    if used.None? {
      n := 0;
      assert items[..0] == [];
    } else {
      var next := state[a.value := items[0].value];
      n := FailedPrefix(limit, contract, items[1..], used.value, next);
      assert items[..n + 1][1..] == items[1..][..n] && items[..n + 1][0] == items[0];
      n := n + 1;
    }
  }

  /** So after a failure the order does show: one item fits and changes the state, the other does not fit. */
  lemma FailureShowsOrder(limit: nat, contract: string, x: Item, y: Item, gas: nat, state: State)
    requires Target(contract, x.key).Some? && Target(contract, y.key).Some?
    requires gas + 10 * (ItemBytes(contract, x) + ItemBytes(contract, y)) < TWO_64
    requires gas + 10 * ItemBytes(contract, x) <= limit < gas + 10 * ItemBytes(contract, y)
    requires var a := Target(contract, x.key).value; a !in state || state[a] != x.value
    ensures var p := MergeFrom(limit, contract, [x, y], gas, state);
      var q := MergeFrom(limit, contract, [y, x], gas, state);
            p.Error? && q.Error? && q.state == state && p.state ==
              state[Target(contract, x.key).value := x.value] != state
  {
    assert [x, y][0] == x && [x, y][1] == y;
    hide Target, PutGas, ItemBytes;
    var used := gas + 10 * ItemBytes(contract, x);
    OnePut(limit, gas, contract, x);
    OnePut(limit, gas, contract, y);
    OnePut(limit, used, contract, y);
    assert [x, y][1..] == [y] && [y, x][0] == y && [y][0] == y;
  }

  lemma OnePut(limit: nat, gas: nat, contract: string, item: Item)
    requires Target(contract, item.key).Some? && gas + 10 * ItemBytes(contract, item) < TWO_64
    ensures var used := gas + 10 * ItemBytes(contract, item);
            PutGas(limit, gas, contract, Target(contract, item.key).value, item.value) == if used > limit then
              None else Some(used)
  {
    hide Target;
    var a := Target(contract, item.key).value;
    assert |contract + a.key + a.field| == |contract| + |a.key| + |a.field|;
  }

  // ----- state -----

  predicate Writes(contract: string, items: seq<Item>, i: nat, a: Address) {
    i < |items| && Target(contract, items[i].key) == Some(a)
  }

  predicate Untouched(contract: string, items: seq<Item>, a: Address) {
    forall i: nat :: i < |items| ==> !Writes(contract, items, i, a)
  }

  predicate LastAt(contract: string, items: seq<Item>, i: nat, a: Address) {
    Writes(contract, items, i, a) && forall j: nat :: i < j < |items| ==> !Writes(contract, items, j, a)
  }

  /** The last write to an address wins; an address that no item writes to keeps what it had. */
  lemma {:induction false} LastWins(limit: nat, contract: string, items: seq<Item>, gas: nat, state: State, a: Address)
    requires MergeFrom(limit, contract, items, gas, state).Merged?
    ensures var r := MergeFrom(limit, contract, items, gas, state).state;
            && (Untouched(contract, items, a) ==> (a in r <==> a in state) && (a in r ==> r[a] == state[a]))
            && (forall i: nat :: LastAt(contract, items, i, a) ==> a in r && r[a] == items[i].value)
    decreases |items|
  {
    hide Target, PutGas;
    if items != [] {
      var rest := items[1..];
      var b := Target(contract, items[0].key).value;
      var used := PutGas(limit, gas, contract, b, items[0].value).value;
      LastWins(limit, contract, rest, used, state[b := items[0].value], a);
      assert forall i: nat :: i < |rest| ==> (Writes(contract, rest, i, a) <==> Writes(contract, items, i + 1, a));
      forall i: nat | LastAt(contract, items, i, a)
        ensures var r := MergeFrom(limit, contract, items, gas, state).state; a in r && r[a] == items[i].value
      {
        if i > 0 {
          assert LastAt(contract, rest, i - 1, a);
        } else {
          assert Untouched(contract, rest, a);
        }
      }
      if Untouched(contract, items, a) {
        assert !Writes(contract, items, 0, a);
        assert Untouched(contract, rest, a);
      }
    }
  }

  // ----- orders -----

  ghost predicate Reordered(a: seq<Item>, b: seq<Item>) {
    multiset(a) == multiset(b)
  }

  lemma {:induction false} BytesSplit(contract: string, a: seq<Item>, b: seq<Item>)
    requires Targeted(contract, a) && Targeted(contract, b)
    ensures Targeted(contract, a + b) && Bytes(contract, a + b) == Bytes(contract, a) + Bytes(contract, b)
    decreases |a|
  {
    hide Target, ItemBytes;
    if a == [] {
      assert a + b == b;
    } else {
      assert (a + b)[1..] == a[1..] + b;
      BytesSplit(contract, a[1..], b);
    }
  }

  function Omit(b: seq<Item>, j: nat): seq<Item>
    requires j < |b|
  {
    b[..j] + b[j + 1..]
  }

  lemma OmitOne(b: seq<Item>, j: nat)
    requires j < |b|
    ensures multiset(b) == multiset(Omit(b, j)) + multiset{b[j]}
  {
    assert b == b[..j] + [b[j]] + b[j + 1..];
  }

  lemma PullOut(a: seq<Item>, b: seq<Item>) returns (j: nat)
    requires a != [] && Reordered(a, b)
    ensures j < |b| && b[j] == a[0] && Reordered(a[1..], Omit(b, j))
  {
    assert a[0] in multiset(b);
    j :| 0 <= j < |b| && b[j] == a[0];
    OmitOne(b, j);
    OmitOne(a, 0);
    assert Omit(a, 0) == a[1..];
    assert multiset(Omit(b, j)) == multiset(b) - multiset{a[0]} && multiset(a[1..]) == multiset(a) - multiset{a[0]};
  }

  lemma BytesOmit(contract: string, b: seq<Item>, j: nat)
    requires Targeted(contract, b) && j < |b|
    ensures Targeted(contract, Omit(b, j)) && Bytes(contract, b) ==
      ItemBytes(contract, b[j]) + Bytes(contract, Omit(b, j))
  {
    hide Target, ItemBytes;
    var x, y := b[..j], b[j + 1..];
    assert b == x + b[j..] && b[j..][1..] == y;
    BytesSplit(contract, x, b[j..]);
    BytesSplit(contract, x, y);
  }

  lemma {:induction false} BytesReordered(contract: string, a: seq<Item>, b: seq<Item>)
    requires Targeted(contract, a) && Reordered(a, b)
    ensures Targeted(contract, b) && Bytes(contract, b) == Bytes(contract, a)
    decreases |a|
  {
    hide Target, ItemBytes, Omit;
    TargetedReordered(contract, a, b);
    if a == [] {
      assert |b| == |multiset(b)| == 0;
    } else {
      var j := PullOut(a, b);
      BytesOmit(contract, b, j);
      BytesReordered(contract, a[1..], Omit(b, j));
    }
  }

  lemma TargetedReordered(contract: string, a: seq<Item>, b: seq<Item>)
    requires Targeted(contract, a) && Reordered(a, b)
    ensures Targeted(contract, b)
  {
    hide Target;
    forall i | 0 <= i < |b| ensures Target(contract, b[i].key).Some? {
      assert b[i] in multiset(b) && b[i] in multiset(a);
      var j :| 0 <= j < |a| && a[j] == b[i];
    }
  }

  lemma {:induction false} LastExists(contract: string, items: seq<Item>, n: nat, a: Address) returns (i: nat)
    requires Writes(contract, items, n, a)
    ensures LastAt(contract, items, i, a)
    decreases |items| - n
  {
    hide Target;
    i := n;
    if j: nat :| n < j < |items| && Writes(contract, items, j, a) {
      i := LastExists(contract, items, j, a);
    }
  }

  lemma UntouchedReordered(contract: string, p: seq<Item>, q: seq<Item>, a: Address)
    requires Reordered(p, q) && Untouched(contract, p, a)
    ensures Untouched(contract, q, a)
  {
    hide Target;
    forall i: nat | i < |q| ensures !Writes(contract, q, i, a) {
      assert q[i] in multiset(q) && q[i] in multiset(p);
      var j :| 0 <= j < |p| && p[j] == q[i];
      assert !Writes(contract, p, j, a);
    }
  }

  /** At every address two orders leave the same value. */
  lemma SameAt(limit: nat, contract: string, p: seq<Item>, q: seq<Item>, gas: nat, state: State, a: Address)
    requires Reordered(p, q) && Compatible(contract, p)
    requires MergeFrom(limit, contract, p, gas, state).Merged? && MergeFrom(limit, contract, q, gas, state).Merged?
    ensures var x := MergeFrom(limit, contract, p, gas, state).state;
      var y := MergeFrom(limit, contract, q, gas, state).state;
            (a in x <==> a in y) && (a in x ==> x[a] == y[a])
  {
    hide Target, MergeFrom;
    LastWins(limit, contract, p, gas, state, a);
    LastWins(limit, contract, q, gas, state, a);
    if Untouched(contract, p, a) {
      UntouchedReordered(contract, p, q, a);
    } else {
      if Untouched(contract, q, a) {
        UntouchedReordered(contract, q, p, a);
      }
      var n: nat :| n < |p| && Writes(contract, p, n, a);
      var k: nat :| k < |q| && Writes(contract, q, k, a);
      var i := LastExists(contract, p, n, a);
      var j := LastExists(contract, q, k, a);
      assert q[j] in multiset(q) && q[j] in multiset(p);
      var o :| 0 <= o < |p| && p[o] == q[j];
      assert p[o].value == p[i].value;
    }
  }

  /** Order does not matter for compatible items: same success and gas, and the same state if it succeeds. */
  lemma OrderIrrelevant(limit: nat, contract: string, p: seq<Item>, q: seq<Item>, gas: nat, state: State)
    requires Targeted(contract, p) && Compatible(contract, p) && Reordered(p, q)
    requires gas <= limit && gas + 10 * Bytes(contract, p) < TWO_64
    ensures var x := MergeFrom(limit, contract, p, gas, state); var y := MergeFrom(limit, contract, q, gas, state);
            x.Merged? == y.Merged? && x.gas == y.gas && (x.Merged? ==> x.state == y.state)
  {
    hide MergeFrom, Target, Bytes;
    BytesReordered(contract, p, q);
    GasExact(limit, contract, p, gas, state);
    GasExact(limit, contract, q, gas, state);
    if MergeFrom(limit, contract, p, gas, state).Merged? {
      var x, y := MergeFrom(limit, contract, p, gas, state).state, MergeFrom(limit, contract, q, gas, state).state;
      forall a ensures (a in x <==> a in y) && (a in x ==> x[a] == y[a]) {
        SameAt(limit, contract, p, q, gas, state, a);
      }
      assert x == y;
    }
  }

  lemma MovedLast(items: seq<Item>, i: nat)
    requires i < |items|
    ensures Reordered(items, Omit(items, i) + [items[i]])
  {
    OmitOne(items, i);
  }

  /** The item at the end has the last word. */
  lemma EndWins(limit: nat, contract: string, items: seq<Item>, i: nat, gas: nat, state: State, a: Address)
    requires i < |items| && Target(contract, items[i].key) == Some(a)
    requires MergeFrom(limit, contract, Omit(items, i) + [items[i]], gas, state).Merged?
    ensures var r := MergeFrom(limit, contract, Omit(items, i) + [items[i]], gas, state).state;
            a in r && r[a] == items[i].value
  {
    hide Target, MergeFrom;
    var p := Omit(items, i) + [items[i]];
    assert p[|p| - 1] == items[i];
    assert LastAt(contract, p, |p| - 1, a);
    LastWins(limit, contract, p, gas, state, a);
  }

  /** With enough gas, the order does not matter if and only if the items are compatible. */
  lemma OrderIrrelevantExactly(limit: nat, contract: string, items: seq<Item>, gas: nat, state: State)
    requires Targeted(contract, items) && limit < TWO_64 && gas + 10 * Bytes(contract, items) <= limit
    ensures (forall p, q :: Reordered(items, p) && Reordered(items, q) ==>
               MergeFrom(limit, contract, p, gas, state) == MergeFrom(limit, contract, q, gas, state))
            <==> Compatible(contract, items)
  {
    hide MergeFrom, Target, Bytes, Omit;
    if Compatible(contract, items) {
      forall p, q | Reordered(items, p) && Reordered(items, q)
        ensures MergeFrom(limit, contract, p, gas, state) == MergeFrom(limit, contract, q, gas, state)
      {
        OrderIrrelevant(limit, contract, items, p, gas, state);
        OrderIrrelevant(limit, contract, items, q, gas, state);
        GasExact(limit, contract, items, gas, state);
      }
    } else {
      var i: nat, j: nat :| i < |items| && j < |items| && Target(contract, items[i].key) ==
        Target(contract, items[j].key)
                            && items[i].value != items[j].value;
      var a := Target(contract, items[i].key).value;
      var p, q := Omit(items, i) + [items[i]], Omit(items, j) + [items[j]];
      MovedLast(items, i);
      MovedLast(items, j);
      BytesReordered(contract, items, p);
      BytesReordered(contract, items, q);
      GasExact(limit, contract, p, gas, state);
      GasExact(limit, contract, q, gas, state);
      EndWins(limit, contract, items, i, gas, state, a);
      EndWins(limit, contract, items, j, gas, state, a);
      assert MergeFrom(limit, contract, p, gas, state) != MergeFrom(limit, contract, q, gas, state);
    }
  }

  // ----- well-formed keys -----

  function KeyOf(contract: string, a: Address): string {
    contract + "#" + a.key + (if a.field == "" then "" else "#" + a.field)
  }

  /** contract#key and contract#key#field, with parts free of '#', go where they say. */
  lemma KeyTarget(contract: string, a: Address)
    requires Plain(contract) && Plain(a.key) && Plain(a.field)
    ensures Target(contract, KeyOf(contract, a)) == Some(a)
  {
    if a.field == "" {
      assert KeyOf(contract, a) == contract + "#" + a.key;
      SplitJoin(contract, a.key);
      SplitPlain(a.key);
      assert Split(KeyOf(contract, a)) == [contract, a.key];
    } else {
      assert KeyOf(contract, a) == contract + "#" + (a.key + "#" + a.field);
      SplitJoin(contract, a.key + "#" + a.field);
      SplitJoin(a.key, a.field);
      SplitPlain(a.field);
      assert Split(KeyOf(contract, a)) == [contract, a.key, a.field];
    }
  }

  predicate Names(contract: string, key: string, a: Address) {
    Plain(a.key) && Plain(a.field) && key == KeyOf(contract, a)
  }

  ghost predicate Named(contract: string, key: string) {
    exists a :: Names(contract, key, a)
  }

  ghost predicate WellFormed(contract: string, items: seq<Item>) {
    && (forall i :: 0 <= i < |items| ==> Named(contract, items[i].key))
    && (forall i, j :: 0 <= i < j < |items| ==> items[i].key != items[j].key)
  }

  /** A map with well-formed keys of the right contract is merged the same in every order. */
  lemma WellFormedMerges(contract: string, items: seq<Item>)
    requires Plain(contract) && WellFormed(contract, items)
    ensures Targeted(contract, items) && Compatible(contract, items)
  {
    hide Target, KeyOf;
    forall i | 0 <= i < |items|
      ensures Target(contract, items[i].key).Some? && items[i].key ==
        KeyOf(contract, Target(contract, items[i].key).value)
    {
      assert Named(contract, items[i].key);
      var a :| Names(contract, items[i].key, a);
      KeyTarget(contract, a);
    }
  }

  /** An empty field, or a part too many, makes a second key for the same address. */
  lemma SecondKeys(contract: string, key: string, field: string, more: string)
    requires Plain(contract) && Plain(key) && Plain(field) && Plain(more)
    ensures Target(contract, contract + "#" + key) == Some(Address(key, ""))
    ensures Target(contract, contract + "#" + (key + "#" + "")) == Some(Address(key, ""))
    ensures Target(contract, contract + "#" + (key + "#" + (field + "#" + more))) == Some(Address(key, ""))
  {
    SplitJoin(contract, key);
    SplitPlain(key);
    SplitJoin(contract, key + "#" + "");
    SplitJoin(key, "");
    SplitJoin(contract, key + "#" + (field + "#" + more));
    SplitJoin(key, field + "#" + more);
    SplitJoin(field, more);
    SplitPlain(more);
  }
}
