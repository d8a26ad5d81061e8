/** Balance arithmetic: `u128` saturating and checked operations, and the parts-per-billion ratio `Perbill`. */
module Arithmetic {
  import opened Sums

  const MAX_BALANCE: nat := 0xFFFFFFFF_FFFFFFFF_FFFFFFFF_FFFFFFFF

  function Min(a: nat, b: nat): nat {
    if a <= b then a else b
  }

  function SatAdd(a: nat, b: nat): nat {
    Min(a + b, MAX_BALANCE)
  }

  function SatSub(a: nat, b: nat): nat {
    if a <= b then 0 else a - b
  }

  const BILLION: nat := 1_000_000_000

  /** `Perbill::from_rational`: parts per billion, rounded down, with the ratio clamped to one. */
  function FromRational(p: nat, q: nat): nat {
    var d := if q == 0 then 1 else q;
    Min(p, d) * BILLION / d
  }

  /** `Perbill * x`: rounded to the nearest integer. */
  function Times(parts: nat, x: nat): nat {
    x * parts / BILLION + if x * parts % BILLION > BILLION / 2 then 1 else 0
  }

  lemma FromRationalBound(p: nat, q: nat)
    requires q > 0
    ensures FromRational(p, q) * q <= p * BILLION
    ensures FromRational(p, q) <= BILLION
  {
    var f := FromRational(p, q);
    assert f * q <= Min(p, q) * BILLION;
    if f > BILLION {
      Scale(BILLION + 1, f, q);
    }
  }

  lemma Scale(a: nat, b: nat, c: nat)
    requires a <= b
    ensures a * c <= b * c
  {
  }

  lemma TimesBound(parts: nat, x: nat)
    ensures 2 * BILLION * Times(parts, x) <= 2 * (x * parts) + BILLION
  {
    var n := x * parts;
    assert n == n / BILLION * BILLION + n % BILLION;
  }

  /** A ratio never takes more than the whole, so the remainder of a split is exact. */
  lemma TimesAtMost(parts: nat, x: nat)
    requires parts <= BILLION
    ensures Times(parts, x) <= x
  {
    var n := x * parts;
    assert n <= x * BILLION by { Scale(parts, BILLION, x); }
    if parts < BILLION && x > 0 {
      assert n <= x * BILLION - x by { Scale(parts, BILLION - 1, x); }
      assert n / BILLION < x;
    }
  }

  /** The share of `x` that each weight earns when the weights are measured against `total`. */
  function Shares<K>(weights: map<K, nat>, total: nat, x: nat): map<K, nat> {
    map k | k in weights :: Times(FromRational(weights[k], total), x)
  }

  ghost function Ratios<K>(weights: map<K, nat>, total: nat): map<K, nat> {
    map k | k in weights :: FromRational(weights[k], total)
  }

  lemma {:induction false} RatiosSum<K>(weights: map<K, nat>, total: nat)
    requires total > 0
    ensures Sum(Ratios(weights, total)) * total <= Sum(weights) * BILLION
    decreases weights.Keys
  {
    var all := Ratios(weights, total);
    if weights != map[] {
      var k :| k in weights;
      RatiosSum(weights - {k}, total);
      assert Ratios(weights - {k}, total) == all - {k};
      SumRemove(weights, k);
      SumRemove(all, k);
      FromRationalBound(weights[k], total);
      Distribute(all[k], Sum(all - {k}), total);
    } else {
      assert all == map[];
    }
  }

  lemma Distribute(a: nat, b: nat, c: nat)
    ensures (a + b) * c == a * c + b * c
  {
  }

  // Every share rounds its exact product by at most half a unit, so together they do by half a unit each.
  // (The constant is written out to keep the obligation linear.)
  lemma {:induction false} RoundingSum<K>(products: map<K, nat>, shares: map<K, nat>)
    requires products.Keys == shares.Keys
    requires forall k :: k in shares ==> 2_000_000_000 * shares[k] <= 2 * products[k] + 1_000_000_000
    ensures 2_000_000_000 * Sum(shares) <= 2 * Sum(products) + 1_000_000_000 * |shares|
    decreases shares.Keys
  {
    if shares != map[] {
      var k :| k in shares;
      RoundingSum(products - {k}, shares - {k});
      SumRemove(shares, k);
      SumRemove(products, k);
      assert shares.Keys == (shares - {k}).Keys + {k};
    }
  }

  ghost function Products<K>(m: map<K, nat>, x: nat): map<K, nat> {
    map k | k in m :: Product(m[k], x)
  }

  ghost function Product(a: nat, b: nat): nat {
    a * b
  }

  lemma {:induction false} ScaleSum<K>(m: map<K, nat>, x: nat)
    ensures Sum(Products(m, x)) == Product(Sum(m), x)
    decreases m.Keys
  {
    var products := Products(m, x);
    if m != map[] {
      var k :| k in m;
      ScaleSum(m - {k}, x);
      assert Products(m - {k}, x) == products - {k};
      SumRemove(products, k);
      SumRemove(m, k);
      Distribute(m[k], Sum(m - {k}), x);
    } else {
      assert products == map[];
    }
  }

  /**
    Splitting `x` in proportion to weights that fit in `total` hands out at most `x`, up to half a unit of
    rounding for each recipient.
    */
  lemma SplitBound<K>(weights: map<K, nat>, total: nat, x: nat)
    requires total > 0 && Sum(weights) <= total
    ensures 2 * Sum(Shares(weights, total, x)) <= 2 * x + |weights|
  {
    var ratios, shares := Ratios(weights, total), Shares(weights, total, x);
    var products := Products(ratios, x);
    forall k | k in shares ensures 2 * BILLION * shares[k] <= 2 * products[k] + BILLION {
      TimesBound(ratios[k], x);
    }
    assert products.Keys == shares.Keys == weights.Keys;
    RoundingSum(products, shares);
    ScaleSum(ratios, x);
    RatiosFit(weights, total);
    Scale(Sum(ratios), BILLION, x);
  }

  lemma RatiosFit<K>(weights: map<K, nat>, total: nat)
    requires total > 0 && Sum(weights) <= total
    ensures Sum(Ratios(weights, total)) <= BILLION
  {
    var r := Sum(Ratios(weights, total));
    RatiosSum(weights, total);
    if r > BILLION {
      Scale(BILLION + 1, r, total);
    }
  }

  // ---------------------------------------------------------------- splits that do not round up

  /** The branch of `Perbill * x` that hands out more than the exact product. */
  predicate RoundsUp(parts: nat, x: nat) {
    x * parts % BILLION > BILLION / 2
  }

  lemma TimesRoundedDown(parts: nat, x: nat)
    requires !RoundsUp(parts, x)
    ensures BILLION * Times(parts, x) <= x * parts
  {
    var n := x * parts;
    assert n == n / BILLION * BILLION + n % BILLION;
  }

  // (The constant is written out to keep the obligation linear.)
  lemma {:induction false} RoundedDownSum<K>(products: map<K, nat>, shares: map<K, nat>)
    requires products.Keys == shares.Keys
    requires forall k :: k in shares ==> 1_000_000_000 * shares[k] <= products[k]
    ensures 1_000_000_000 * Sum(shares) <= Sum(products)
    decreases shares.Keys
  {
    if shares != map[] {
      var k :| k in shares;
      RoundedDownSum(products - {k}, shares - {k});
      SumRemove(shares, k);
      SumRemove(products, k);
    }
  }

  /** A split in which no share rounds up hands out at most the whole. */
  lemma SplitWithin<K>(weights: map<K, nat>, total: nat, x: nat)
    requires total > 0 && Sum(weights) <= total
    requires forall k :: k in weights ==> !RoundsUp(FromRational(weights[k], total), x)
    ensures Sum(Shares(weights, total, x)) <= x
  {
    var ratios, shares := Ratios(weights, total), Shares(weights, total, x);
    var products := Products(ratios, x);
    forall k | k in shares ensures BILLION * shares[k] <= products[k] {
      TimesRoundedDown(ratios[k], x);
    }
    assert products.Keys == shares.Keys == weights.Keys;
    RoundedDownSum(products, shares);
    ScaleSum(ratios, x);
    RatiosFit(weights, total);
    Scale(Sum(ratios), BILLION, x);
  }
}
