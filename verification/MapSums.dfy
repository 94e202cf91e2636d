/** Sums over finite maps, independent of the order in which the entries are visited. */
module MapSums {

  ghost function Sum<K(!new)>(m: map<K, real>): real
    decreases |m|
  {
    if m.Keys == {} then
      0.0
    else
      var k :| k in m.Keys;
      m[k] + Sum(m - {k})
  }

  /** Any entry may be taken first. */
  lemma {:induction false} SumRemove<K(!new)>(m: map<K, real>, k: K)
    requires k in m
    ensures Sum(m) == m[k] + Sum(m - {k})
    decreases |m|
  {
    var j :| j in m.Keys && Sum(m) == m[j] + Sum(m - {j});
    if j != k {
      SumRemove(m - {j}, k);
      SumRemove(m - {k}, j);
      assert (m - {j}) - {k} == (m - {k}) - {j};
    }
  }

  lemma SumUpdate<K(!new)>(m: map<K, real>, k: K, v: real)
    ensures Sum(m[k := v]) == Sum(m) - (if k in m then m[k] else 0.0) + v
  {
    SumRemove(m[k := v], k);
    assert m[k := v] - {k} == m - {k};
    if k in m {
      SumRemove(m, k);
    } else {
      assert m - {k} == m;
    }
  }

  lemma RemoveFromUnion<K(!new)>(a: map<K, real>, b: map<K, real>, k: K)
    requires a.Keys !! b.Keys && k in a
    ensures (a + b) - {k} == (a - {k}) + b
  {
  }

  /** Disjoint maps add up. */
  lemma {:induction false} SumDisjoint<K(!new)>(a: map<K, real>, b: map<K, real>)
    requires a.Keys !! b.Keys
    ensures Sum(a + b) == Sum(a) + Sum(b)
    decreases |a|
  {
    hide Sum;
    if a.Keys == {} {
      SumEmpty(a);
      assert a + b == b;
    } else {
      var k :| k in a.Keys;
      RemoveFromUnion(a, b, k);
      SumRemove(a, k);
      SumRemove(a + b, k);
      assert |a - {k}| < |a|;
      SumDisjoint(a - {k}, b);
    }
  }

  lemma SumEmpty<K(!new)>(m: map<K, real>)
    requires m.Keys == {}
    ensures Sum(m) == 0.0
  {
  }

  lemma SumSingleton<K(!new)>(m: map<K, real>, k: K)
    requires m.Keys == {k}
    ensures Sum(m) == m[k]
  {
    SumRemove(m, k);
    assert (m - {k}).Keys == {};
  }

  lemma SumOfTwo<K(!new)>(m: map<K, real>, a: K, b: K)
    requires a != b && m.Keys <= {a, b}
    ensures Sum(m) == (if a in m then m[a] else 0.0) + (if b in m then m[b] else 0.0)
  {
    if a in m {
      SumRemove(m, a);
    } else {
      assert m - {a} == m;
    }
    var rest := m - {a};
    if b in rest {
      SumRemove(rest, b);
      SumEmpty(rest - {b});
    } else {
      SumEmpty(rest);
    }
  }

  /** The entries of `m` that `f` sends to `c`. */
  ghost function Fiber<K(!new), C(!new)>(m: map<K, real>, f: K -> C, c: C): map<K, real> {
    map k | k in m && f(k) == c :: m[k]
  }

  lemma OtherFiber<K(!new), C(!new)>(m: map<K, real>, f: K -> C, c: C, d: C)
    requires c != d
    ensures Fiber(m - Fiber(m, f, c).Keys, f, d) == Fiber(m, f, d)
  {
  }

  /** A sum grouped by the value of `f`: the groups' sums add up to the whole. */
  lemma {:induction false} SumByGroup<K(!new), C(!new)>(m: map<K, real>, f: K -> C, groups: map<C, real>)
    requires forall k :: k in m ==> f(k) in groups
    requires forall c :: c in groups ==> groups[c] == Sum(Fiber(m, f, c))
    ensures Sum(groups) == Sum(m)
    decreases |groups|
  {
    hide Sum;
    if groups.Keys == {} {
      SumEmpty(m);
      SumEmpty(groups);
    } else {
      var c :| c in groups.Keys;
      var fiber := Fiber(m, f, c);
      var rest := m - fiber.Keys;
      SumRemove(groups, c);
      SumDisjoint(fiber, rest);
      assert m == fiber + rest;
      forall d | d in groups && d != c
        ensures Fiber(rest, f, d) == Fiber(m, f, d)
      {
        OtherFiber(m, f, c, d);
      }
      assert |groups - {c}| < |groups|;
      SumByGroup(rest, f, groups - {c});
    }
  }
}
