/** The `STAKES` map viewed as balances: a missing entry reads as zero, and
    the sum of all balances is what the ledger holds in stake. */
module Balances {
  import opened StakingTypes

  type Stakes = map<Addr, Uint128>

  /** The balance of `a`: its entry, or 0 when there is none. */
  function Balance(m: Stakes, a: Addr): Uint128
  {
    if a in m then m[a] else 0
  }

  /** No account is stored with a zero balance. */
  ghost predicate NoZeroEntries(m: Stakes)
  {
    forall a :: a in m ==> m[a] > 0
  }

  /** The sum of all stored balances. */
  ghost function Total(m: Stakes): nat
    decreases |m|
  {
    if m == map[] then 0
    else
      var a :| a in m;
      assert (m - {a}).Keys + {a} == m.Keys;
      m[a] + Total(m - {a})
  }

  /** Any one entry can be split off the sum. */
  lemma {:induction false} TotalRemove(m: Stakes, a: Addr)
    requires a in m
    ensures Total(m) == m[a] + Total(m - {a})
    decreases |m|
  {
    var b :| b in m && Total(m) == m[b] + Total(m - {b});
    if b != a {
      var rest := m - {a} - {b};
      assert (m - {b}).Keys == rest.Keys + {a};
      assert (m - {a}).Keys == rest.Keys + {b};
      TotalRemove(m - {b}, a);
      TotalRemove(m - {a}, b);
      assert (m - {b}) - {a} == rest;
      assert (m - {a}) - {b} == rest;
    }
  }

  /** The sum is the balance of `a` plus the sum of every other account. */
  lemma TotalSplit(m: Stakes, a: Addr)
    ensures Total(m) == Balance(m, a) + Total(m - {a})
  {
    if a in m {
      TotalRemove(m, a);
    } else {
      assert m - {a} == m;
    }
  }

  /** Writing `v` at `a` changes the sum by `v` minus the old balance. */
  lemma TotalUpdate(m: Stakes, a: Addr, v: Uint128)
    ensures Total(m[a := v]) + Balance(m, a) == Total(m) + v
  {
    TotalSplit(m, a);
    TotalRemove(m[a := v], a);
    assert m[a := v] - {a} == m - {a};
  }
}
