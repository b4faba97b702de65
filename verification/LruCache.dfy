/** The cache as the code keeps it: a list of elements and a map from keys to elements. */
module LruCache {
  import opened Basics
  import opened Lru

  predicate Has(ll: seq<nat>, h: nat) {
    exists i :: 0 <= i < |ll| && ll[i] == h
  }

  function IndexOf(ll: seq<nat>, h: nat): (i: nat)
    ensures i <= |ll|
    ensures i < |ll| ==> ll[i] == h
    ensures i < |ll| <==> Has(ll, h)
  {
    if ll == [] then 0
    else if ll[0] == h then 0
    else
      assert Has(ll, h) <==> Has(ll[1..], h) by { HasTail(ll, h); }
      1 + IndexOf(ll[1..], h)
  }

  lemma HasTail(ll: seq<nat>, h: nat)
    requires ll != [] && ll[0] != h
    ensures Has(ll, h) <==> Has(ll[1..], h)
  {
    if Has(ll, h) {
      var i :| 0 <= i < |ll| && ll[i] == h;
      assert ll[1..][i - 1] == h;
    }
  }

  function Less(ll: seq<nat>, i: nat): (r: seq<nat>)
    requires i < |ll|
    ensures |r| == |ll| - 1 && forall j :: 0 <= j < |r| ==> r[j] == ll[if j < i then j else j + 1]
  {
    ll[..i] + ll[i + 1..]
  }

  lemma HasLess(ll: seq<nat>, i: nat, h: nat)
    requires i < |ll| && ll[i] != h && Has(ll, h)
    ensures Has(Less(ll, i), h)
  {
    var j :| 0 <= j < |ll| && ll[j] == h;
    assert Less(ll, i)[if j < i then j else j - 1] == h;
  }

  lemma HasMore(ll: seq<nat>, h: nat, x: nat)
    requires Has(ll, x) || h == x
    ensures Has([h] + ll, x)
  {
    if h == x {
      assert ([h] + ll)[0] == x;
    } else {
      var j :| 0 <= j < |ll| && ll[j] == x;
      assert ([h] + ll)[j + 1] == x;
    }
  }

  /** The elements of the list are distinct. */
  ghost predicate Elements(ll: seq<nat>, elems: map<nat, Entry>, next: nat) {
    && (forall i :: 0 <= i < |ll| ==> ll[i] in elems && ll[i] < next)
    && (forall i, j :: 0 <= i < j < |ll| ==> ll[i] != ll[j])
  }

  /** The map sends exactly the listed keys to their elements. */
  ghost predicate Mapped(ll: seq<nat>, elems: map<nat, Entry>, cache: map<Key, nat>)
    requires forall i :: 0 <= i < |ll| ==> ll[i] in elems
  {
    && (forall i :: 0 <= i < |ll| ==> elems[ll[i]].key in cache && cache[elems[ll[i]].key] == ll[i])
    && (forall k :: k in cache ==> Has(ll, cache[k]) && cache[k] in elems && elems[cache[k]].key == k)
  }

  ghost predicate Agree(ll: seq<nat>, elems: map<nat, Entry>, cache: map<Key, nat>, next: nat) {
    Elements(ll, elems, next) && Mapped(ll, elems, cache)
  }

  /** The entries in list order. */
  ghost function Listed(ll: seq<nat>, elems: map<nat, Entry>): (s: seq<Entry>)
    requires forall i :: 0 <= i < |ll| ==> ll[i] in elems
    ensures |s| == |ll| && forall i :: 0 <= i < |ll| ==> s[i] == elems[ll[i]]
  {
    seq(|ll|, i requires 0 <= i < |ll| => elems[ll[i]])
  }

  lemma FindIndex(ll: seq<nat>, elems: map<nat, Entry>, cache: map<Key, nat>, next: nat, k: Key)
    requires Agree(ll, elems, cache, next)
    ensures k in cache ==> Find(Listed(ll, elems), k) == IndexOf(ll, cache[k]) < |ll|
    ensures k !in cache ==> Find(Listed(ll, elems), k) == |ll|
  {
    var i := Find(Listed(ll, elems), k);
    if k in cache {
      var j := IndexOf(ll, cache[k]);
      assert Listed(ll, elems)[j].key == k;
      assert elems[ll[i]].key == k;
    }
  }

  lemma Dropped(ll: seq<nat>, elems: map<nat, Entry>, cache: map<Key, nat>, next: nat, i: nat)
    requires Agree(ll, elems, cache, next) && i < |ll|
    ensures Agree(Less(ll, i), elems, cache - {elems[ll[i]].key}, next)
    ensures Listed(Less(ll, i), elems) == Without(Listed(ll, elems), i)
  {
    hide Has;
    var r := Less(ll, i);
    var c := cache - {elems[ll[i]].key};
    forall j | 0 <= j < |r| ensures elems[r[j]].key in c && c[elems[r[j]].key] == r[j] {
      assert r[j] != ll[i];
    }
    forall k | k in c ensures Has(r, c[k]) {
      HasLess(ll, i, c[k]);
    }
    assert Mapped(r, elems, c);
  }

  lemma Pushed(ll: seq<nat>, elems: map<nat, Entry>, cache: map<Key, nat>, next: nat, e: Entry, h: nat)
    requires Agree(ll, elems, cache, next) && e.key !in cache && !Has(ll, h) && h < next
    ensures Agree([h] + ll, elems[h := e], cache[e.key := h], next)
    ensures Listed([h] + ll, elems[h := e]) == [e] + Listed(ll, elems)
  {
    var r, es, c := [h] + ll, elems[h := e], cache[e.key := h];
    assert forall j :: 0 < j < |r| ==> r[j] == ll[j - 1] && r[j] != h;
    hide Has;
    forall k | k in c ensures Has(r, c[k]) {
      HasMore(ll, h, c[k]);
    }
    assert Mapped(r, es, c);
  }

  lemma Grown(ll: seq<nat>, elems: map<nat, Entry>, cache: map<Key, nat>, next: nat)
    requires Agree(ll, elems, cache, next)
    ensures Agree(ll, elems, cache, next + 1) && !Has(ll, next)
  {
  }

  /** An element moved to the front, maybe with another value. */
  lemma Moved(ll: seq<nat>, elems: map<nat, Entry>, cache: map<Key, nat>, next: nat, i: nat, e: Entry)
    requires Agree(ll, elems, cache, next) && i < |ll| && e.key == elems[ll[i]].key
    ensures Agree([ll[i]] + Less(ll, i), elems[ll[i] := e], cache, next)
    ensures Listed([ll[i]] + Less(ll, i), elems[ll[i] := e]) == [e] + Without(Listed(ll, elems), i)
  {
    Dropped(ll, elems, cache, next, i);
    assert !Has(Less(ll, i), ll[i]);
    Pushed(Less(ll, i), elems, cache - {e.key}, next, e, ll[i]);
    assert (cache - {e.key})[e.key := ll[i]] == cache;
  }

  class Cache {
    const maxEntries: nat
    var made: bool                  // false: list and map are nil
    var ll: seq<nat>                // elements, front first
    var elems: map<nat, Entry>      // what the elements hold
    var cache: map<Key, nat>
    var nextElem: nat

    ghost predicate Valid()
      reads this
    {
      Agree(ll, elems, cache, nextElem) && (!made ==> ll == [] && cache == map[])
    }

    /** The entries, most recent first. */
    ghost function Contents(): (s: seq<Entry>)
      reads this
      requires Valid()
    {
      Listed(ll, elems)
    }

    constructor (max: nat)
      ensures Valid() && maxEntries == max && Contents() == []
    {
      maxEntries, made, ll, elems, cache, nextElem := max, true, [], map[], map[], 0;
    }

    method Len() returns (n: nat)
      requires Valid()
      ensures n == |Contents()|
    {
      n := |ll|;
    }

    /** PushFront, and the map entry for it. */
    method PushFront(e: Entry)
      requires Valid() && made && e.key !in cache
      modifies this
      ensures Valid() && made && Contents() == [e] + old(Contents())
    {
      hide Agree, Listed, Has;
      Grown(ll, elems, cache, nextElem);
      Pushed(ll, elems, cache, nextElem + 1, e, nextElem);
      ll := [nextElem] + ll;
      elems := elems[nextElem := e];
      cache := cache[e.key := nextElem];
      nextElem := nextElem + 1;
    }

    /** MoveToFront, with the value that the element holds from now on. */
    method MoveToFront(h: nat, value: Val)
      requires Valid() && Has(ll, h)
      modifies this
      ensures Valid() && ll != [] && ll[0] == h && h in elems && elems[h].value == value
      ensures var was := old(Contents()); var i := old(IndexOf(ll, h));
              i < |was| && Contents() == [Entry(was[i].key, value)] + Without(was, i)
    {
      var i := IndexOf(ll, h);
      assert ll[i] in elems;
      Moved(ll, elems, cache, nextElem, i, Entry(elems[h].key, value));
      hide Agree, Listed, Has;
      ll := [h] + Less(ll, i);
      elems := elems[h := Entry(elems[h].key, value)];
    }

    method Add(key: Key, value: Val)
      requires Valid()
      modifies this
      ensures Valid() && Contents() == Apply(old(Contents()), maxEntries, Lru.Add(key, value))
    {
      FindIndex(ll, elems, cache, nextElem, key);
      if !made {
        made := true;
      }
      hide Agree, Has;
      if key in cache {
        MoveToFront(cache[key], value);
        return;
      }
      PushFront(Entry(key, value));
      if maxEntries != 0 && |ll| > maxEntries {
        RemoveOldest();
      }
    }

    method Get(key: Key) returns (value: Val, ok: bool)
      requires Valid()
      modifies this
      ensures Valid() && Contents() == Apply(old(Contents()), maxEntries, Lru.Get(key))
      ensures ok == (Find(old(Contents()), key) < |old(Contents())|)
      ensures ok ==> value == old(Contents())[Find(old(Contents()), key)].value
    {
      FindIndex(ll, elems, cache, nextElem, key);
      if key in cache {
        value := elems[cache[key]].value;
        MoveToFront(cache[key], value);
        return value, true;
      }
      return 0, false;
    }

    method Remove(key: Key)
      requires Valid()
      modifies this
      ensures Valid() && Contents() == Apply(old(Contents()), maxEntries, Lru.Remove(key))
    {
      FindIndex(ll, elems, cache, nextElem, key);
      if key in cache {
        RemoveElement(cache[key]);
      }
    }

    method RemoveOldest()
      requires Valid()
      modifies this
      ensures Valid() && Contents() == Apply(old(Contents()), maxEntries, Lru.RemoveOldest)
    {
      if ll != [] {
        ghost var was := Contents();
        var h := ll[|ll| - 1];
        assert IndexOf(ll, h) == |ll| - 1;
        RemoveElement(h);
        assert Without(was, |was| - 1) == was[..|was| - 1];
      }
    }

    method GetOldest() returns (value: Option<Val>)
      requires Valid()
      ensures value == if Contents() == [] then None else Some(Contents()[|Contents()| - 1].value)
    {
      return if ll == [] then None else Some(elems[ll[|ll| - 1]].value);
    }

    method RemoveElement(h: nat)
      requires Valid() && Has(ll, h)
      modifies this
      ensures Valid() && Contents() == Without(old(Contents()), old(IndexOf(ll, h)))
    {
      var i := IndexOf(ll, h);
      Dropped(ll, elems, cache, nextElem, i);
      ll := Less(ll, i);
      cache := cache - {elems[h].key};
    }

    method Clear()
      requires Valid()
      modifies this
      ensures Valid() && Contents() == Apply(old(Contents()), maxEntries, Lru.Clear)
    {
      made, ll, cache := false, [], map[];
    }
  }
}
