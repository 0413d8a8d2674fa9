/** A JavaScript object used as a dictionary of running sums, as the report
    page's `reduce` accumulators use it: `acc[k] = (acc[k] || 0) + a`.
    Entries are kept in first-insertion order, the order `Object.keys` and
    `Object.values` report for non-numeric keys. */
module Tally {

  type Table<K> = seq<(K, real)>

  /** The keys, in insertion order (`Object.keys`). */
  function Keys<K>(e: Table<K>): seq<K> {
    if e == [] then [] else [e[0].0] + Keys(e[1..])
  }

  /** The sum of the values (`Object.values` added up). */
  function SumValues<K>(e: Table<K>): real {
    if e == [] then 0.0 else e[0].1 + SumValues(e[1..])
  }

  /** `acc[k] || 0`: the value stored under `k`, or 0 when there is none. */
  function Get<K(==)>(e: Table<K>, k: K): real {
    if e == [] then 0.0 else if e[0].0 == k then e[0].1 else Get(e[1..], k)
  }

  /** `acc[k] = (acc[k] || 0) + a`: add to the entry for `k`, or append a new
      entry for `k` when there is none. */
  function Bump<K(==)>(e: Table<K>, k: K, a: real): Table<K> {
    if e == [] then [(k, a)]
    else if e[0].0 == k then [(k, e[0].1 + a)] + e[1..]
    else [e[0]] + Bump(e[1..], k, a)
  }

  /** Bumping adds `a` under `k` and leaves every other key's value alone. */
  lemma {:induction false} GetBump<K>(e: Table<K>, k: K, a: real, k': K)
    ensures Get(Bump(e, k, a), k') == Get(e, k') + (if k == k' then a else 0.0)
  {
    if e != [] && e[0].0 != k {
      GetBump(e[1..], k, a, k');
    }
  }

  /** Bumping an existing key keeps the key order; a new key goes last. */
  lemma {:induction false} KeysBump<K>(e: Table<K>, k: K, a: real)
    ensures Keys(Bump(e, k, a)) == if k in Keys(e) then Keys(e) else Keys(e) + [k]
  {
    if e != [] && e[0].0 != k {
      KeysBump(e[1..], k, a);
      assert Keys(e) == [e[0].0] + Keys(e[1..]);
    }
  }

  /** Bumping by `a` raises the sum of all values by exactly `a`. */
  lemma {:induction false} SumValuesBump<K>(e: Table<K>, k: K, a: real)
    ensures SumValues(Bump(e, k, a)) == SumValues(e) + a
  {
    if e == [] {
      assert [(k, a)][1..] == e;
    } else if e[0].0 == k {
      assert Bump(e, k, a)[1..] == e[1..];
    } else {
      SumValuesBump(e[1..], k, a);
      assert Bump(e, k, a)[1..] == Bump(e[1..], k, a);
    }
  }
}
