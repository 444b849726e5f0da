/** The total of all stored balances, and how it changes when one entry changes. */
module Sums {
  import opened Types

  ghost function Pick(m: map<AccountId, Balance>): (k: AccountId)
    requires m != map[]
    ensures k in m
  {
    var k :| k in m; k
  }

  /** The sum of every balance stored in `m`. */
  ghost function Sum(m: map<AccountId, Balance>): (total: nat)
    decreases |m|
  {
    if m == map[] then 0
    else
      var k := Pick(m);
      assert (m - {k}).Keys == m.Keys - {k};
      m[k] + Sum(m - {k})
  }

  /** Taking out any one entry takes its balance out of the sum. */
  lemma {:induction false} SumRemove(m: map<AccountId, Balance>, k: AccountId)
    requires k in m
    ensures Sum(m) == m[k] + Sum(m - {k})
    decreases |m|
  {
    var j := Pick(m);
    if j != k {
      assert (m - {j}).Keys == m.Keys - {j};
      assert (m - {k}).Keys == m.Keys - {k};
      SumRemove(m - {j}, k);
      SumRemove(m - {k}, j);
      assert m - {j} - {k} == m - {k} - {j};
    }
  }

  /** Setting one entry replaces its old balance (0 if absent) by the new one. */
  lemma SumUpdate(m: map<AccountId, Balance>, k: AccountId, v: Balance)
    ensures Sum(m[k := v]) == Sum(m) - (if k in m then m[k] else 0) + v
  {
    SumRemove(m[k := v], k);
    assert m[k := v] - {k} == m - {k};
    if k in m {
      SumRemove(m, k);
    } else {
      assert m - {k} == m;
    }
  }

  /** Deleting one entry (present or not) takes its balance out of the sum. */
  lemma SumDelete(m: map<AccountId, Balance>, k: AccountId)
    ensures Sum(m - {k}) == Sum(m) - (if k in m then m[k] else 0)
  {
    if k in m {
      SumRemove(m, k);
    } else {
      assert m - {k} == m;
    }
  }

  /** Two distinct entries together never exceed the sum. */
  lemma SumBoundsTwo(m: map<AccountId, Balance>, j: AccountId, k: AccountId)
    requires j in m && k in m && j != k
    ensures m[j] + m[k] <= Sum(m)
  {
    SumRemove(m, j);
    SumRemove(m - {j}, k);
  }

  /** One entry never exceeds the sum. */
  lemma SumBoundsOne(m: map<AccountId, Balance>, k: AccountId)
    requires k in m
    ensures m[k] <= Sum(m)
  {
  }
}
