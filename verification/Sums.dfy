/**
  Finite sums over maps with natural-number values.  Storage totals in the staking pallet are sums over
  accounts, providers, eras or (staker, provider) pairs; every conservation law of the model is phrased with them.
  */
module Sums {

  function Get<K>(m: map<K, nat>, k: K): nat {
    if k in m then m[k] else 0
  }

  /** Like `m[k := v]`, but a zero is represented by absence, so a map never lists an empty share. */
  function Put<K>(m: map<K, nat>, k: K, v: nat): map<K, nat> {
    if v == 0 then m - {k} else m[k := v]
  }

  ghost function Sum<K>(m: map<K, nat>): nat
    decreases m.Keys
  {
    if m == map[] then 0 else
      var k :| k in m;
      m[k] + Sum(m - {k})
  }

  lemma SumRemove<K>(m: map<K, nat>, k: K)
    requires k in m
    ensures Sum(m) == m[k] + Sum(m - {k})
    decreases m.Keys
  {
    var j :| j in m && Sum(m) == m[j] + Sum(m - {j});
    if j != k {
      SumRemove(m - {j}, k);
      SumRemove(m - {k}, j);
      assert m - {j} - {k} == m - {k} - {j};
    }
  }

  lemma SumPut<K>(m: map<K, nat>, k: K, v: nat)
    ensures Sum(Put(m, k, v)) == Sum(m) - Get(m, k) + v
    ensures Sum(m[k := v]) == Sum(m) - Get(m, k) + v
    ensures Get(m, k) <= Sum(m)
  {
    assert m[k := v] - {k} == m - {k};
    SumRemove(m[k := v], k);
    if k in m {
      SumRemove(m, k);
    } else {
      assert m - {k} == m;
    }
  }

  lemma {:induction false} SumMonotone<K>(m: map<K, nat>, n: map<K, nat>)
    requires forall k :: k in m ==> m[k] <= Get(n, k)
    ensures Sum(m) <= Sum(n)
    decreases m.Keys
  {
    if m != map[] {
      var k :| k in m;
      SumRemove(m, k);
      SumPut(n, k, 0);
      SumMonotone(m - {k}, n - {k});
    }
  }

  /** The entries of `m` whose key belongs to group `g`. */
  function Part<K, G(==)>(m: map<K, nat>, group: K -> G, g: G): map<K, nat> {
    map k | k in m && group(k) == g :: m[k]
  }

  function Others<K, G(==)>(m: map<K, nat>, group: K -> G, g: G): map<K, nat> {
    map k | k in m && group(k) != g :: m[k]
  }

  lemma PartPut<K, G>(m: map<K, nat>, group: K -> G, g: G, k: K, v: nat)
    ensures Part(Put(m, k, v), group, g) == if group(k) == g then Put(Part(m, group, g), k, v) else Part(m, group, g)
  {
  }

  /** The effect of one `Put` on the sum of every group. */
  lemma SumPartPut<K, G>(m: map<K, nat>, group: K -> G, g: G, k: K, v: nat)
    ensures Sum(Part(Put(m, k, v), group, g))
         == Sum(Part(m, group, g)) + if group(k) == g then v - Get(m, k) else 0
    ensures group(k) == g ==> Get(m, k) <= Sum(Part(m, group, g))
  {
    PartPut(m, group, g, k, v);
    SumPut(Part(m, group, g), k, v);
  }

  lemma PutSize<K>(m: map<K, nat>, k: K, v: nat)
    ensures |Put(m, k, v)| == |m| - (if k in m then 1 else 0) + (if v == 0 then 0 else 1)
  {
    var rest := m - {k};
    assert |rest| == |m| - if k in m then 1 else 0 by {
      assert rest.Keys == m.Keys - {k};
    }
    if v != 0 {
      assert m[k := v].Keys == rest.Keys + {k};
    }
  }

  lemma {:induction false} SumSplit<K, G>(m: map<K, nat>, group: K -> G, g: G)
    ensures Sum(m) == Sum(Part(m, group, g)) + Sum(Others(m, group, g))
    decreases m.Keys
  {
    if m != map[] {
      var k :| k in m;
      SumRemove(m, k);
      SumSplit(m - {k}, group, g);
      if group(k) == g {
        assert Part(m - {k}, group, g) == Part(m, group, g) - {k};
        assert Others(m - {k}, group, g) == Others(m, group, g);
        SumRemove(Part(m, group, g), k);
      } else {
        assert Part(m - {k}, group, g) == Part(m, group, g);
        assert Others(m - {k}, group, g) == Others(m, group, g) - {k};
        SumRemove(Others(m, group, g), k);
      }
    } else {
      assert Part(m, group, g) == map[];
      assert Others(m, group, g) == map[];
    }
  }

  /** If every group of `m` fits in its bound, then `m` fits in the sum of the bounds. */
  lemma {:induction false} GroupsAtMost<K, G>(m: map<K, nat>, group: K -> G, bound: map<G, nat>)
    requires forall g :: Sum(Part(m, group, g)) <= Get(bound, g)
    ensures Sum(m) <= Sum(bound)
    decreases m.Keys
  {
    if m != map[] {
      var k :| k in m;
      var g := group(k);
      SumSplit(m, group, g);
      SumPut(bound, g, 0);
      var rest := Others(m, group, g);
      assert k !in rest;
      forall h ensures Sum(Part(rest, group, h)) <= Get(bound - {g}, h) {
        if h == g {
          assert Part(rest, group, h) == map[];
        } else {
          assert Part(rest, group, h) == Part(m, group, h);
        }
      }
      GroupsAtMost(rest, group, bound - {g});
    }
  }

  /** If every listed group of `m` holds at least its claim, then `m` holds at least the sum of the claims. */
  lemma {:induction false} GroupsAtLeast<K, G>(m: map<K, nat>, group: K -> G, claim: map<G, nat>)
    requires forall g :: g in claim ==> claim[g] <= Sum(Part(m, group, g))
    ensures Sum(claim) <= Sum(m)
    decreases claim.Keys
  {
    if claim != map[] {
      var g :| g in claim;
      SumRemove(claim, g);
      SumSplit(m, group, g);
      var rest := Others(m, group, g);
      forall h | h in claim - {g} ensures (claim - {g})[h] <= Sum(Part(rest, group, h)) {
        assert Part(rest, group, h) == Part(m, group, h);
      }
      GroupsAtLeast(rest, group, claim - {g});
    }
  }
}
