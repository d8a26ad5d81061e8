/** What can be paid for one era, and what was paid for eras that are over. */
module Payouts {
  import opened Sums
  import opened Arithmetic
  import opened StakingState
  import opened StakingInvariant

  // ---------------------------------------------------------------- the bound

  ghost function ProvidersOf(stakes: StakeTable): set<ProviderId> {
    set k | k in stakes :: k.provider
  }

  /** Every staked provider's total. */
  ghost function ProviderTotals(stakes: StakeTable): map<ProviderId, nat> {
    map p | p in ProvidersOf(stakes) :: Sum(StakedOn(stakes, p))
  }

  lemma ProviderTotalsSum(stakes: StakeTable)
    ensures Sum(ProviderTotals(stakes)) <= Sum(stakes)
    ensures |ProviderTotals(stakes)| == |ProvidersOf(stakes)|
  {
    GroupsAtLeast(stakes, ProviderOf, ProviderTotals(stakes));
    assert ProviderTotals(stakes).Keys == ProvidersOf(stakes);
  }

  /** Splitting an era's reward `x` over its providers. */
  lemma ProviderSharesBound(stakes: StakeTable, x: nat)
    requires Sum(stakes) > 0
    ensures 2 * Sum(Shares(ProviderTotals(stakes), Sum(stakes), x)) <= 2 * x + |ProvidersOf(stakes)|
  {
    ProviderTotalsSum(stakes);
    SplitBound(ProviderTotals(stakes), Sum(stakes), x);
  }

  lemma OperatorsBound(r: EraRecord, rewards: RewardInfo)
    requires PaidOk(r, rewards) && Sum(r.stakes) > 0
    ensures 2 * Sum(r.toOperators) <= 2 * rewards.operators + |ProvidersOf(r.stakes)|
  {
    var shares := Shares(ProviderTotals(r.stakes), Sum(r.stakes), rewards.operators);
    forall p | p in r.toOperators ensures r.toOperators[p] <= Get(shares, p) {
      StakedProvider(r.stakes, p);
    }
    SumMonotone(r.toOperators, shares);
    ProviderSharesBound(r.stakes, rewards.operators);
  }

  lemma StakedProvider(stakes: StakeTable, p: ProviderId)
    requires Sum(StakedOn(stakes, p)) > 0
    ensures p in ProvidersOf(stakes)
  {
    assert StakedOn(stakes, p) != map[];
    var k :| k in StakedOn(stakes, p);
  }

  ghost predicate Positive(stakes: StakeTable) {
    forall k :: k in stakes ==> stakes[k] > 0
  }

  lemma PartSum(stakes: StakeTable, p: ProviderId)
    requires Positive(stakes)
    ensures p in ProvidersOf(stakes) ==> Sum(StakedOn(stakes, p)) > 0
    ensures p !in ProvidersOf(stakes) ==> StakedOn(stakes, p) == map[]
    ensures ProvidersOf(stakes) != {} ==> Sum(stakes) > 0
  {
    if p in ProvidersOf(stakes) {
      var k :| k in stakes && k.provider == p;
      SumPut(StakedOn(stakes, p), k, 0);
    }
    if ProvidersOf(stakes) != {} {
      var q :| q in ProvidersOf(stakes);
      var k :| k in stakes && k.provider == q;
      SumPut(stakes, k, 0);
    }
  }

  /** The stakers of one provider together get at most the provider's joint reward, up to rounding. */
  lemma ProviderStakersBound(r: EraRecord, rewards: RewardInfo, p: ProviderId)
    requires PaidOk(r, rewards) && Positive(r.stakes)
    ensures 2 * Sum(StakedOn(r.toStakers, p)) <= Get(StakersDue(r.stakes, rewards.stakers), p)
  {
    hide Times, FromRational;
    var mine, part := StakedOn(r.toStakers, p), StakedOn(r.stakes, p);
    PartSum(r.stakes, p);
    if p in ProvidersOf(r.stakes) {
      var joint := ProviderShare(r.stakes, rewards.stakers, p);
      SumMonotone(mine, Shares(part, Sum(part), joint));
      SplitBound(part, Sum(part), joint);
    } else {
      assert mine == map[];
    }
  }

  /** Twice the joint reward of each staked provider, plus one for each of its stakers. */
  ghost function StakersDue(stakes: StakeTable, x: nat): map<ProviderId, nat> {
    map p | p in ProvidersOf(stakes) :: 2 * ProviderShare(stakes, x, p) + |StakedOn(stakes, p)|
  }

  lemma {:induction false} SumCombine<K>(total: map<K, nat>, shares: map<K, nat>, counts: map<K, nat>)
    requires total.Keys == shares.Keys == counts.Keys
    requires forall k :: k in total ==> total[k] == 2 * shares[k] + counts[k]
    ensures Sum(total) == 2 * Sum(shares) + Sum(counts)
    decreases total.Keys
  {
    if total != map[] {
      var k :| k in total;
      SumCombine(total - {k}, shares - {k}, counts - {k});
      SumRemove(total, k);
      SumRemove(shares, k);
      SumRemove(counts, k);
    }
  }

  function Ones<K>(m: map<K, nat>): map<K, nat> {
    map k | k in m :: 1
  }

  lemma {:induction false} OnesSum<K>(m: map<K, nat>)
    ensures Sum(Ones(m)) == |m|
    decreases m.Keys
  {
    if m != map[] {
      var k :| k in m;
      OnesSum(m - {k});
      assert Ones(m - {k}) == Ones(m) - {k};
      SumRemove(Ones(m), k);
      assert m.Keys == (m - {k}).Keys + {k};
    } else {
      assert Ones(m) == map[];
    }
  }

  ghost function StakerCounts(stakes: StakeTable): map<ProviderId, nat> {
    map p | p in ProvidersOf(stakes) :: |StakedOn(stakes, p)|
  }

  lemma StakerCountsSum(stakes: StakeTable)
    ensures Sum(StakerCounts(stakes)) <= |stakes|
  {
    var ones, counts := Ones(stakes), StakerCounts(stakes);
    forall p | p in counts ensures counts[p] <= Sum(Part(ones, ProviderOf, p)) {
      OnesSum(StakedOn(stakes, p));
      assert Part(ones, ProviderOf, p) == Ones(StakedOn(stakes, p));
    }
    GroupsAtLeast(ones, ProviderOf, counts);
    OnesSum(stakes);
  }

  lemma StakersDueSum(stakes: StakeTable, x: nat)
    requires Sum(stakes) > 0
    ensures Sum(StakersDue(stakes, x)) <= 2 * x + |ProvidersOf(stakes)| + |stakes|
  {
    hide Times, FromRational;
    var shares := Shares(ProviderTotals(stakes), Sum(stakes), x);
    SumCombine(StakersDue(stakes, x), shares, StakerCounts(stakes));
    ProviderSharesBound(stakes, x);
    StakerCountsSum(stakes);
  }

  lemma {:induction false} DoubleSum<K>(m: map<K, nat>, twice: map<K, nat>)
    requires m.Keys == twice.Keys && forall k :: k in m ==> twice[k] == 2 * m[k]
    ensures Sum(twice) == 2 * Sum(m)
    decreases m.Keys
  {
    if m != map[] {
      var k :| k in m;
      DoubleSum(m - {k}, twice - {k});
      SumRemove(m, k);
      SumRemove(twice, k);
    }
  }

  lemma StakersBound(r: EraRecord, rewards: RewardInfo)
    requires PaidOk(r, rewards) && Positive(r.stakes) && Sum(r.stakes) > 0
    ensures 2 * Sum(r.toStakers) <= 2 * rewards.stakers + |ProvidersOf(r.stakes)| + |r.stakes|
  {
    hide PaidOk, StakersDue;
    var twice: map<Pair, nat> := map k | k in r.toStakers :: 2 * r.toStakers[k];
    DoubleSum(r.toStakers, twice);
    forall p ensures Sum(Part(twice, ProviderOf, p)) <= Get(StakersDue(r.stakes, rewards.stakers), p) {
      ProviderStakersBound(r, rewards, p);
      DoubleSum(StakedOn(r.toStakers, p), Part(twice, ProviderOf, p));
    }
    GroupsAtMost(twice, ProviderOf, StakersDue(r.stakes, rewards.stakers));
    StakersDueSum(r.stakes, rewards.stakers);
  }

  /**
    Everything ever paid for an era is at most the era's rewards, up to half a unit of rounding for each operator
    payment, each joint stakers' reward and each staker payment.
    */
  lemma EraPayoutBound(c: Config, w: World, e: nat)
    requires Inv(c, w) && e < w.s.currentEra
    ensures e in w.s.eraInfo
    ensures var r, x := w.g.eras[e], w.s.eraInfo[e].rewards;
            2 * r.paid <= 2 * (x.operators + x.stakers) + 2 * |ProvidersOf(r.stakes)| + |r.stakes|
  {
    hide PaidOk, FundsInv, HistoriesOk, Denotes, TotalsOk, SlotsOk, FlagsOk, ExitedOk, ProvidersOk;
    var r, x := w.g.eras[e], w.s.eraInfo[e].rewards;
    assert TableOk(c, w.s.providers, r.stakes);
    assert PaidOk(r, x);
    RecordBound(r, x);
  }

  lemma RecordBound(r: EraRecord, x: RewardInfo)
    requires PaidOk(r, x) && Positive(r.stakes)
    ensures 2 * r.paid <= 2 * (x.operators + x.stakers) + 2 * |ProvidersOf(r.stakes)| + |r.stakes|
  {
    if Sum(r.stakes) > 0 {
      OperatorsBound(r, x);
      StakersBound(r, x);
    } else {
      PartSum(r.stakes, 0);
      assert forall k :: k in r.stakes ==> k.provider in ProvidersOf(r.stakes);
      assert r.stakes == map[] && r.toStakers == map[];
      forall p ensures StakedOn(map[], p) == map[] {
      }
      assert r.toOperators == map[];
    }
  }
}
