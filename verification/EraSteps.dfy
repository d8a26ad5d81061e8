/** Era rotation keeps every view in agreement: the new era starts from the old era's stakes with nothing paid. */
module EraSteps {
  import opened Sums
  import opened StakerHistory
  import opened StakingState
  import opened StakingInvariant
  import opened Runs
  import opened Views
  import opened LockingSteps

  function Opened(eras: seq<EraRecord>): seq<EraRecord>
    requires eras != []
  {
    eras + [EraRecord(Now(eras), map[], map[], 0)]
  }

  lemma DenotesOpened(c: Config, stakerInfo: Histories, eras: seq<EraRecord>, exited: set<Pair>)
    requires eras != [] && Unpaid(eras[|eras| - 1])
    requires HistoriesOk(c, |eras| - 1, stakerInfo) && Denotes(stakerInfo, eras, exited)
    ensures Denotes(stakerInfo, Opened(eras), exited)
  {
    var eras' := Opened(eras);
    forall k, e: nat | e < |eras'| ensures StakeAt(HistoryOf(stakerInfo, k), e) == Unclaimed(eras', exited, k, e) {
      var last := if e < |eras| then e else |eras| - 1;
      assert StakeAt(HistoryOf(stakerInfo, k), last) == Unclaimed(eras, exited, k, last);
      if e == |eras| {
        StakeAtLatest(HistoryOf(stakerInfo, k), last);
        StakeAtLatest(HistoryOf(stakerInfo, k), e);
      }
    }
  }

  lemma RotatedEntry(providers: Providers, stakes: ProviderStakes, era: nat, slot: Slot)
    ensures EntryAt(RotatedStakes(providers, stakes, era), slot)
         == if slot.era == era + 1 && Copied(providers, stakes, era, slot.provider)
            then EntryAt(stakes, Slot(slot.provider, era)).(rewardClaimed := false)
            else EntryAt(stakes, slot)
    ensures slot in RotatedStakes(providers, stakes, era)
       <==> slot in stakes || (slot.era == era + 1 && Copied(providers, stakes, era, slot.provider))
  {
  }

  lemma TotalsOpened(c: Config, providers: Providers, stakes: ProviderStakes, eras: seq<EraRecord>)
    requires eras != [] && TotalsOk(providers, stakes, eras) && SlotsOk(providers, stakes, eras)
    requires ProvidersOk(c, |eras| - 1, providers)
    ensures TotalsOk(providers, RotatedStakes(providers, stakes, |eras| - 1), Opened(eras))
  {
    hide RotatedStakes, TotalOk;
    var era := |eras| - 1;
    var stakes', eras' := RotatedStakes(providers, stakes, era), Opened(eras);
    forall p, e: nat | e < |eras'| && p in providers && Open(providers[p], e)
      ensures TotalOk(EntryAt(stakes', Slot(p, e)), StakedOn(eras'[e].stakes, p))
    {
      var from := if e < |eras| then e else era;
      assert TotalOk(EntryAt(stakes, Slot(p, from)), StakedOn(eras[from].stakes, p));
      RotatedEntry(providers, stakes, era, Slot(p, e));
      TotalOkFlag(EntryAt(stakes, Slot(p, from)), EntryAt(stakes', Slot(p, e)), StakedOn(eras[from].stakes, p));
    }
  }

  lemma TotalOkFlag(entry: ProviderStakeInfo, entry': ProviderStakeInfo, part: StakeTable)
    requires TotalOk(entry, part) && entry'.total == entry.total && entry'.numberOfStakers == entry.numberOfStakers
    ensures TotalOk(entry', part)
  {
  }

  lemma SlotsOpened(providers: Providers, stakes: ProviderStakes, eras: seq<EraRecord>)
    requires eras != [] && SlotsOk(providers, stakes, eras)
    ensures SlotsOk(providers, RotatedStakes(providers, stakes, |eras| - 1), Opened(eras))
  {
    var stakes' := RotatedStakes(providers, stakes, |eras| - 1);
    forall slot | slot in stakes'
      ensures slot.provider in providers && slot.era < |Opened(eras)| && Open(providers[slot.provider], slot.era)
    {
      RotatedEntry(providers, stakes, |eras| - 1, slot);
    }
  }

  lemma FlagsOpened(providers: Providers, stakes: ProviderStakes, eras: seq<EraRecord>)
    requires eras != [] && SlotsOk(providers, stakes, eras) && FlagsOk(stakes, eras)
    ensures FlagsOk(RotatedStakes(providers, stakes, |eras| - 1), Opened(eras))
  {
    hide RotatedStakes;
    var stakes', eras' := RotatedStakes(providers, stakes, |eras| - 1), Opened(eras);
    forall p, e: nat | e < |eras'| ensures EntryAt(stakes', Slot(p, e)).rewardClaimed <==> p in eras'[e].toOperators {
      RotatedEntry(providers, stakes, |eras| - 1, Slot(p, e));
      if e < |eras| {
        assert EntryAt(stakes, Slot(p, e)).rewardClaimed <==> p in eras[e].toOperators;
      }
    }
  }

  lemma NewEraKeepsStakes(c: Config, w: World, now: nat)
    requires Steady(c, w) && StakesInv(c, w) && StartsEra(c, w.s, now)
    ensures StakesInv(c, World(NewEraEffect(w.s), Track(c, w, OnInitialize(now))))
  {
    hide Denotes, TotalsOk, SlotsOk, FlagsOk, TableOk, ExitedOk, RotatedStakes, RewardSnapshot;
    var s, g := w.s, w.g;
    DenotesOpened(c, s.stakerInfo, g.eras, g.exited);
    TotalsOpened(c, s.providers, s.providerStake, g.eras);
    SlotsOpened(s.providers, s.providerStake, g.eras);
    FlagsOpened(s.providers, s.providerStake, g.eras);
    assert Now(Opened(g.eras)) == Now(g.eras);
  }

  lemma NewEraKeepsFunds(c: Config, w: World, now: nat)
    requires Steady(c, w) && FundsInv(c, w) && StartsEra(c, w.s, now)
    ensures FundsInv(c, World(NewEraEffect(w.s), Track(c, w, OnInitialize(now))))
  {
    hide LedgersOk, LockedOk, LocksOk, SolventOk, DepositsOk, RotatedStakes;
    var s, g := w.s, w.g;
    var eraInfo', eras' := RewardSnapshot(s.eraInfo, s.currentEra, s.accumulator), Opened(g.eras);
    assert Now(eras') == Now(g.eras);
    assert StakedOk(eraInfo', eras') by {
      assert g.eras[s.currentEra].stakes == Now(g.eras);
    }
    forall a ensures QueueOk(c, s.currentEra + 1, LedgerOf(s.ledger, a).chunks, UnstakedBy(g.unstaked, a),
                             Get(g.withdrawn, a))
    {
      assert QueueOk(c, s.currentEra, LedgerOf(s.ledger, a).chunks, UnstakedBy(g.unstaked, a), Get(g.withdrawn, a));
    }
  }

  lemma PaymentsOpened(eraInfo: EraInfos, eras: seq<EraRecord>, rewards: RewardInfo)
    requires PaymentsOk(eraInfo, eras) && |eras| - 1 in eraInfo
    ensures PaymentsOk(RewardSnapshot(eraInfo, |eras| - 1, rewards), Opened(eras))
  {
    assert PaidOk(eras[|eras| - 1], rewards);
    hide PaidOk;
  }

  lemma RewardsOpened(eraInfo: EraInfos, era: nat, rewards: RewardInfo)
    ensures RewardsBefore(RewardSnapshot(eraInfo, era, rewards), era + 1)
         == RewardsBefore(eraInfo, era) + rewards.operators + rewards.stakers
  {
    RewardsBeforeAgree(eraInfo, RewardSnapshot(eraInfo, era, rewards), era);
  }

  lemma NewEraKeepsRewards(c: Config, w: World, now: nat)
    requires Steady(c, w) && RewardsInv(c, w) && StartsEra(c, w.s, now)
    requires w.s.currentEra in w.s.eraInfo
    ensures RewardsInv(c, World(NewEraEffect(w.s), Track(c, w, OnInitialize(now))))
  {
    hide RotatedStakes, PaymentsOk, RewardSnapshot;
    PaymentsOpened(w.s.eraInfo, w.g.eras, w.s.accumulator);
    RewardsOpened(w.s.eraInfo, w.s.currentEra, w.s.accumulator);
    assert Opened(w.g.eras)[..|w.g.eras|] == w.g.eras;
  }

  lemma NewEraKeepsInv(c: Config, w: World, now: nat)
    requires Inv(c, w) && StartsEra(c, w.s, now)
    ensures Inv(c, World(NewEraEffect(w.s), Track(c, w, OnInitialize(now))))
  {
    hide StakesInv, FundsInv, InflowOk, PotOk, RewardSnapshot, RotatedStakes;
    CurrentEraTotals(c, w);
    NewEraKeepsStakes(c, w, now);
    NewEraKeepsFunds(c, w, now);
    NewEraKeepsRewards(c, w, now);
  }
}
