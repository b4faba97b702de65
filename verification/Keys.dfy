/**
 Contract keys and process names: the two string encodings that the scheduler
 uses as dictionary keys.  Both join their parts with '#', so both are injective
 only under conditions, which are stated and proved here.
 */
module Keys {
  import opened Basics

  /** The identity of a request group (and of the contract it serves). */
  datatype GroupKey = GroupKey(chain: string, name: string, version: string)

  /** ConstructContractKey: chain#name#version. */
  function ContractKey(k: GroupKey): string {
    k.chain + "#" + k.name + "#" + k.version
  }

  /** No separator inside the string. */
  predicate Plain(s: string) {
    '#' !in s
  }

  ghost predicate PlainKey(k: GroupKey) {
    Plain(k.chain) && Plain(k.name) && Plain(k.version)
  }

  /** Two strings that start with separator-free parts split at the same place. */
  lemma SplitAtSeparator(a: string, b: string, x: string, y: string)
    requires Plain(a) && Plain(b)
    requires a + "#" + x == b + "#" + y
    ensures a == b && x == y
  {
    var s := a + "#" + x;
    assert s[|a|] == '#' && s[|b|] == '#';
    assert |a| == |b|;
    assert a == s[..|a|] && b == s[..|b|];
    assert x == s[|a| + 1..] && y == s[|b| + 1..];
  }

  /** Separator-free names are told apart by their contract key. */
  lemma ContractKeyInjective(j: GroupKey, k: GroupKey)
    requires PlainKey(j) && PlainKey(k)
    ensures ContractKey(j) == ContractKey(k) <==> j == k
  {
    if ContractKey(j) == ContractKey(k) {
      assert ContractKey(j) == j.chain + "#" + (j.name + "#" + j.version);
      assert ContractKey(k) == k.chain + "#" + (k.name + "#" + k.version);
      SplitAtSeparator(j.chain, k.chain, j.name + "#" + j.version, k.name + "#" + k.version);
      SplitAtSeparator(j.name, k.name, j.version, k.version);
    }
  }

  function Separators(s: string): nat {
    if s == [] then 0 else Separators(s[1..]) + if s[0] == '#' then 1 else 0
  }

  lemma {:induction false} SeparatorsJoin(a: string, b: string)
    ensures Separators(a + b) == Separators(a) + Separators(b)
  {
    if a == [] {
      assert a + b == b;
    } else {
      assert (a + b)[1..] == a[1..] + b;
      SeparatorsJoin(a[1..], b);
    }
  }

  lemma {:induction false} PlainHasNone(s: string)
    ensures Plain(s) <==> Separators(s) == 0
  {
    if s != [] {
      PlainHasNone(s[1..]);
      assert s == [s[0]] + s[1..];
    }
  }

  /** The key has two separators more than its parts. */
  lemma KeySeparators(k: GroupKey)
    ensures Separators(ContractKey(k)) == Separators(k.chain) + Separators(k.name) + Separators(k.version) + 2
  {
    SeparatorsJoin(k.chain, "#");
    SeparatorsJoin(k.chain + "#", k.name);
    SeparatorsJoin(k.chain + "#" + k.name, "#");
    SeparatorsJoin(k.chain + "#" + k.name + "#", k.version);
    assert Separators("#") == 1 + Separators("#"[1..]);
  }

  lemma CutAtSeparator(s: string) returns (a: string, b: string)
    requires !Plain(s)
    ensures s == a + "#" + b
  {
    var i :| 0 <= i < |s| && s[i] == '#';
    a, b := s[..i], s[i + 1..];
  }

  lemma FourParts(a: string, b: string, c: string, d: string)
    ensures a + "#" + b + "#" + (c + "#" + d) == a + "#" + b + "#" + c + "#" + d
    ensures a + "#" + (b + "#" + c) + "#" + d == a + "#" + b + "#" + c + "#" + d
  {
  }

  /** A separator inside a part can be read as the one between two parts: another contract has the same key. */
  lemma SharedKey(j: GroupKey) returns (k: GroupKey)
    requires !PlainKey(j)
    ensures k != j && ContractKey(k) == ContractKey(j)
  {
    if !Plain(j.chain) {
      var a, b := CutAtSeparator(j.chain);
      k := GroupKey(a, b, j.name + "#" + j.version);
      FourParts(a, b, j.name, j.version);
      assert |k.chain| < |j.chain|;
    } else if !Plain(j.name) {
      var a, b := CutAtSeparator(j.name);
      k := GroupKey(j.chain, a, b + "#" + j.version);
      FourParts(j.chain, a, b, j.version);
      assert |k.name| < |j.name|;
    } else {
      var a, b := CutAtSeparator(j.version);
      k := GroupKey(j.chain, j.name + "#" + a, b);
      FourParts(j.chain, j.name, a, b);
      assert |k.version| < |j.version|;
    }
  }

  /** A contract has its key for itself if and only if no part of its name has a separator. */
  lemma KeyUniqueExactly(j: GroupKey)
    ensures PlainKey(j) <==> forall k :: ContractKey(k) == ContractKey(j) ==> k == j
  {
    if PlainKey(j) {
      forall k | ContractKey(k) == ContractKey(j) ensures k == j {
        KeySeparators(j);
        KeySeparators(k);
        PlainHasNone(j.chain);
        PlainHasNone(j.name);
        PlainHasNone(j.version);
        PlainHasNone(k.chain);
        PlainHasNone(k.name);
        PlainHasNone(k.version);
        ContractKeyInjective(j, k);
      }
    } else {
      var k := SharedKey(j);
    }
  }

  function Digit(d: nat): char
    requires d < 10
  {
    '0' + d as char
  }

  /** strconv.Itoa / strconv.FormatUint in base ten. */
  function Decimal(n: nat): (s: string)
    ensures s != []
    ensures forall i :: 0 <= i < |s| ==> '0' <= s[i] <= '9'
  {
    if n < 10 then [Digit(n)] else Decimal(n / 10) + [Digit(n % 10)]
  }

  /** The number written by the trailing digits of a string. */
  function Trailing(s: string): nat {
    if s == [] || !('0' <= s[|s| - 1] <= '9') then 0
    else 10 * Trailing(s[..|s| - 1]) + (s[|s| - 1] as nat - '0' as nat)
  }

  lemma {:induction false} TrailingDecimal(prefix: string, n: nat)
    ensures Trailing(prefix + "#" + Decimal(n)) == n
  {
    var s := prefix + "#" + Decimal(n);
    if n < 10 {
      assert s[..|s| - 1] == prefix + "#";
      assert s[|s| - 1] == Digit(n);
      assert Trailing(prefix + "#") == 0;
    } else {
      assert s[..|s| - 1] == prefix + "#" + Decimal(n / 10);
      assert s[|s| - 1] == Digit(n % 10);
      TrailingDecimal(prefix, n / 10);
    }
  }

  /** The fixed part of a process name, up to and including the local index. */
  function NamePrefix(k: GroupKey, localIndex: nat, isOrig: bool): string {
    k.chain + "#" + (if isOrig then "o" else "c") + "#" + k.name + "#" + k.version + "#" + Decimal(localIndex)
  }

  /** ConstructProcessName; `serial` counts generated names, the source keeps it modulo 2^64. */
  function ProcessName(k: GroupKey, localIndex: nat, serial: nat, isOrig: bool): string {
    NamePrefix(k, localIndex, isOrig) + "#" + Decimal(serial % TWO_64)
  }

  /** A name carries its serial number. */
  lemma ProcessNameSerial(k: GroupKey, localIndex: nat, serial: nat, isOrig: bool)
    ensures Trailing(ProcessName(k, localIndex, serial, isOrig)) == serial % TWO_64
  {
    TrailingDecimal(NamePrefix(k, localIndex, isOrig), serial % TWO_64);
  }

  /** Two names of one manager for the same contract and index coincide exactly after the counter wraps. */
  lemma ProcessNameRepeats(k: GroupKey, localIndex: nat, a: nat, b: nat, isOrig: bool)
    requires a <= b
    ensures ProcessName(k, localIndex, a, isOrig) == ProcessName(k, localIndex, b, isOrig) <==> (b - a) % TWO_64 == 0
  {
    hide NamePrefix, Decimal, Trailing;
    ProcessNameSerial(k, localIndex, a, isOrig);
    ProcessNameSerial(k, localIndex, b, isOrig);
    SameRemainder(a, b);
  }

  lemma SameRemainder(a: nat, b: nat)
    requires a <= b
    ensures a % TWO_64 == b % TWO_64 <==> (b - a) % TWO_64 == 0
  {
  }

  /** Whatever the contract and the index, two names below the wrap differ. */
  lemma ProcessNameFresh(j: GroupKey, k: GroupKey, x: nat, y: nat, a: nat, b: nat, isOrig: bool)
    requires a < b < TWO_64
    ensures ProcessName(j, x, a, isOrig) != ProcessName(k, y, b, isOrig)
  {
    ProcessNameSerial(j, x, a, isOrig);
    ProcessNameSerial(k, y, b, isOrig);
  }

  /** utils.Min. */
  function Min(a: int, b: int): (m: int)
    ensures m <= a && m <= b && (m == a || m == b)
  {
    if a < b then a else b
  }
}
