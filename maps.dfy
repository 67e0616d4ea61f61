/** Generic facts about maps and sets that the merge and update loops use. */
module Maps {

  /** The entries of `m` whose keys are in `keys`. */
  function Restrict<K, V>(m: map<K, V>, keys: set<K>): (r: map<K, V>)
    ensures r.Keys == m.Keys * keys
    ensures forall k :: k in r ==> r[k] == m[k]
  {
    map k | k in m && k in keys :: m[k]
  }

  /** Restricting to one more key adds at most that key's entry. */
  lemma RestrictStep<K, V>(m: map<K, V>, keys: set<K>, k: K)
    ensures Restrict(m, keys + {k}) == if k in m then Restrict(m, keys)[k := m[k]] else Restrict(m, keys)
  {
  }

  /** Restricting to all of a map's keys gives the map back. */
  lemma RestrictAll<K, V>(m: map<K, V>)
    ensures Restrict(m, m.Keys) == m
  {
  }

  /** Overriding with `u` and then setting `k` is overriding with `u` updated at `k`. */
  lemma OverrideStep<K, V>(m: map<K, V>, u: map<K, V>, k: K, v: V)
    ensures (m + u)[k := v] == m + u[k := v]
  {
  }

  /** Moving `x` from the pending keys to the done keys. */
  lemma RemoveOne<T>(all: set<T>, pending: set<T>, x: T)
    requires x in pending
    ensures all - (pending - {x}) == (all - pending) + (if x in all then {x} else {})
  {
  }

  lemma KeysOfOverride<K, V>(m: map<K, V>, u: map<K, V>)
    requires u.Keys <= m.Keys
    ensures (m + u).Keys == m.Keys
  {
  }

  /** Overriding twice with the same map is overriding once. */
  lemma OverrideAgain<K, V>(m: map<K, V>, u: map<K, V>)
    ensures (m + u) + u == m + u
  {
  }

  lemma OverrideAgainAt<K, V>(m: map<K, V>, u: map<K, V>, c: K, x: V)
    ensures ((m + u)[c := x] + u)[c := x] == (m + u)[c := x]
  {
  }

  /** Overriding a map with itself changes nothing. */
  lemma OverrideSelf<K, V>(m: map<K, V>)
    ensures m + m == m
  {
  }

  /** Overriding with a map that has every key changes nothing of it. */
  lemma OverrideCovered<K, V>(m: map<K, V>, u: map<K, V>)
    requires m.Keys <= u.Keys
    ensures m + u == u
  {
  }

  /** Setting a key to the value it holds changes nothing. */
  lemma UpdateSame<K, V>(m: map<K, V>, k: K)
    requires k in m
    ensures m[k := m[k]] == m
  {
  }

  /** An entry that `u` overrides makes no difference underneath it. */
  lemma UpdateShadowed<K, V>(m: map<K, V>, u: map<K, V>, k: K, v: V)
    requires k in u
    ensures m[k := v] + u == m + u
  {
  }

  /** Setting a key that `u` does not hold can happen before overriding. */
  lemma UpdateUnderneath<K, V>(m: map<K, V>, u: map<K, V>, k: K, v: V)
    requires k !in u
    ensures (m + u)[k := v] == m[k := v] + u
  {
  }

  /** `for key, value in d.items(): m.setdefault(key, value)`: every entry of
      `d` whose key `m` lacks is added, and `m`'s own entries stay. */
  method SetDefaults<K, V>(m: map<K, V>, d: map<K, V>) returns (r: map<K, V>)
    ensures r == d + m
  {
    r := m;
    var pending := d.Keys;
    while pending != {}
      invariant pending <= d.Keys
      invariant r == Restrict(d, d.Keys - pending) + m
      decreases |pending|
    {
      var key :| key in pending;
      RestrictStep(d, d.Keys - pending, key);
      RemoveOne(d.Keys, pending, key);
      if key !in r {
        UpdateUnderneath(Restrict(d, d.Keys - pending), m, key, d[key]);
        r := r[key := d[key]];
      } else {
        UpdateShadowed(Restrict(d, d.Keys - pending), m, key, d[key]);
      }
      pending := pending - {key};
    }
    assert d.Keys - pending == d.Keys;
    RestrictAll(d);
  }
}
