/** Transaction requests and the rule that sends them to the original or the cross queue. */
module Transactions {
  import opened Keys

  /** A transaction request.  `usedGo` is the bit of CrossInfo that utils.hasUsed tests; `admin` means that the
      method is init_contract or upgrade. */
  datatype Tx = Tx(id: nat, key: GroupKey, depth: nat, usedGo: bool, admin: bool)

  predicate IsOrig(tx: Tx) {
    tx.depth == 0 || !tx.usedGo
  }

  /** How often a transaction occurs in a queue. */
  function Count(s: seq<Tx>, x: Tx): nat {
    if s == [] then 0 else (if s[0] == x then 1 else 0) + Count(s[1..], x)
  }

  lemma {:induction false} CountAppend(a: seq<Tx>, b: seq<Tx>, x: Tx)
    ensures Count(a + b, x) == Count(a, x) + Count(b, x)
  {
    if a == [] {
      assert a + b == b;
    } else {
      assert (a + b)[1..] == a[1..] + b;
      CountAppend(a[1..], b, x);
    }
  }

  lemma CountOne(t: Tx, x: Tx)
    ensures Count([t], x) == if t == x then 1 else 0
  {
    assert [t][1..] == [];
  }
}
