/** A count and a money total, as kept per payment method and per day in the
    sales reports (`['count' => .., 'total' => ..]`), and the sums of such
    tallies over a map. */
module Tallies {

  datatype Tally = Tally(count: int, total: real)

  const Zero: Tally := Tally(0, 0.0)

  function Plus(a: Tally, b: Tally): Tally
  {
    Tally(a.count + b.count, a.total + b.total)
  }

  /** The tally under `k`, or zero when `k` is not yet set (`isset` fails). */
  function Get<K>(m: map<K, Tally>, k: K): (t: Tally)
    ensures k !in m ==> t == Zero
    ensures k in m ==> t == m[k]
  {
    if k in m then m[k] else Zero
  }

  /** `$m[$k]['count'] += 1; $m[$k]['total'] += $amount;` after the entry was
      initialised to zero if missing. */
  function Bump<K>(m: map<K, Tally>, k: K, amount: real): (r: map<K, Tally>)
    ensures r.Keys == m.Keys + {k}
    ensures r[k] == Tally(Get(m, k).count + 1, Get(m, k).total + amount)
    ensures forall j :: j in m && j != k ==> r[j] == m[j]
  {
    m[k := Tally(Get(m, k).count + 1, Get(m, k).total + amount)]
  }

  /** The same update in place on a local copy of the map, as the handlers
      write it: initialise a missing entry to zero, then increment it. */
  method BumpEntry<K>(m: map<K, Tally>, k: K, amount: real) returns (r: map<K, Tally>)
    ensures r == Bump(m, k, amount)
  {
    r := m;
    if k !in r {
      r := r[k := Tally(0, 0.0)];
    }
    r := r[k := Tally(r[k].count + 1, r[k].total + amount)];
  }

  ghost function Pick<K>(s: set<K>): (k: K)
    requires s != {}
    ensures k in s
  {
    var k :| k in s; k
  }

  /** The sum of all tallies of a map. */
  ghost function Sum<K>(m: map<K, Tally>): Tally
    decreases |m|
  {
    if m == map[] then Zero
    else
      var k := Pick(m.Keys);
      Plus(m[k], Sum(m - {k}))
  }

  /** Taking any one key out first gives the same sum. */
  lemma {:induction false} SumRemove<K>(m: map<K, Tally>, k: K)
    requires k in m
    ensures Sum(m) == Plus(m[k], Sum(m - {k}))
    decreases |m|
  {
    var j := Pick(m.Keys);
    if j != k {
      SumRemove(m - {j}, k);
      SumRemove(m - {k}, j);
      assert m - {j} - {k} == m - {k} - {j};
    }
  }

  /** Bumping one key adds one to the summed count and the amount to the summed
      total. */
  lemma BumpSum<K>(m: map<K, Tally>, k: K, amount: real)
    ensures Sum(Bump(m, k, amount)) == Tally(Sum(m).count + 1, Sum(m).total + amount)
  {
    var r := Bump(m, k, amount);
    SumRemove(r, k);
    if k in m {
      SumRemove(m, k);
      RemoveSame(r, m, k);
    } else {
      RemoveSame(r, m[k := Zero], k);
      assert m[k := Zero] - {k} == m;
    }
  }

  /** Two maps that differ at most at `k` agree once `k` is taken out. */
  lemma RemoveSame<K>(r: map<K, Tally>, m: map<K, Tally>, k: K)
    requires r.Keys == m.Keys
    requires forall j :: j in m && j != k ==> r[j] == m[j]
    ensures r - {k} == m - {k}
  {
  }
}
