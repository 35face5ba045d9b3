/** Finite sums over maps, used to say what a cached total must equal. */
module Sums {
  ghost function Sum<K>(m: map<K, nat>): nat {
    if m == map[] then 0
    else
      var k :| k in m;
      m[k] + Sum(m - {k})
  }

  /** Any key may be taken out first. */
  lemma {:induction false} SumTake<K>(m: map<K, nat>, k: K)
    requires k in m
    ensures Sum(m) == m[k] + Sum(m - {k})
    decreases |m|
  {
    var p :| p in m && Sum(m) == m[p] + Sum(m - {p});
    if p != k {
      SumTake(m - {p}, k);
      SumTake(m - {k}, p);
      assert m - {p} - {k} == m - {k} - {p};
    }
  }

  lemma SumPut<K>(m: map<K, nat>, k: K, v: nat)
    ensures Sum(m[k := v]) == Sum(m) - (if k in m then m[k] else 0) + v
  {
    SumTake(m[k := v], k);
    assert m[k := v] - {k} == m - {k};
    if k in m {
      SumTake(m, k);
    } else {
      assert m - {k} == m;
    }
  }

  function Restrict<K>(m: map<K, nat>, s: set<K>): map<K, nat> {
    map k | k in m && k in s :: m[k]
  }

  lemma RestrictOne<K>(m: map<K, nat>, s: set<K>, k: K)
    requires k in m && k !in s
    ensures Sum(Restrict(m, s + {k})) == Sum(Restrict(m, s)) + m[k]
  {
    SumTake(Restrict(m, s + {k}), k);
    assert Restrict(m, s + {k}) - {k} == Restrict(m, s);
  }

  /** The values at the given keys, added up one after another. */
  function SumAlong<K>(m: map<K, nat>, ks: seq<K>): nat
    requires forall k :: k in ks ==> k in m
  {
    if ks == [] then 0 else SumAlong(m, ks[..|ks|-1]) + m[ks[|ks|-1]]
  }

  /** A walk that meets every key once adds up the whole sum, in whatever order. */
  lemma {:induction false} SumAlongKeys<K>(m: map<K, nat>, ks: seq<K>)
    requires forall k :: k in ks <==> k in m
    requires forall x, y :: 0 <= x < y < |ks| ==> ks[x] != ks[y]
    ensures SumAlong(m, ks) == Sum(m)
    decreases |ks|
  {
    if ks == [] {
      assert m == map[];
    } else {
      var init, last := ks[..|ks|-1], ks[|ks|-1];
      assert ks == init + [last];
      assert last !in init && last in ks;
      SumTake(m, last);
      SumAlongKeys(m - {last}, init);
      SumAlongSame(m, m - {last}, init);
    }
  }

  lemma {:induction false} SumAlongSame<K>(m: map<K, nat>, n: map<K, nat>, ks: seq<K>)
    requires forall k :: k in ks ==> k in m && k in n && m[k] == n[k]
    ensures SumAlong(m, ks) == SumAlong(n, ks)
    decreases |ks|
  {
    if ks != [] {
      SumAlongSame(m, n, ks[..|ks|-1]);
      assert ks[|ks|-1] in ks;
    }
  }

  /** Splitting the keys splits the sum. */
  lemma {:induction false} SumSplit<K>(m: map<K, nat>, s: set<K>)
    ensures Sum(m) == Sum(m - s) + Sum(Restrict(m, s))
    decreases |s|
  {
    var part := Restrict(m, s);
    if s == {} {
      assert m - s == m;
      assert part == map[];
    } else {
      var x :| x in s;
      SumSplit(m, s - {x});
      var part' := Restrict(m, s - {x});
      if x in m {
        SumTake(m - (s - {x}), x);
        assert m - (s - {x}) - {x} == m - s;
        SumTake(part, x);
        assert part - {x} == part';
      } else {
        assert m - (s - {x}) == m - s;
        assert part == part';
      }
    }
  }

  /** A pointwise bound bounds the sum. */
  lemma {:induction false} SumBelow<K>(m: map<K, nat>, bound: map<K, nat>)
    requires forall k :: k in m ==> k in bound && m[k] <= bound[k]
    ensures Sum(m) <= Sum(bound)
    decreases |m|
  {
    if m != map[] {
      var k :| k in m;
      SumTake(m, k);
      SumTake(bound, k);
      SumBelow(m - {k}, bound - {k});
    }
  }
}
