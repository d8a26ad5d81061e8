/** Claims and reward inflow keep every view in agreement, and every payment is the one the full table prescribes. */
module RewardSteps {
  import opened Sums
  import opened Arithmetic
  import opened StakerHistory
  import opened StakingState
  import opened StakingInvariant
  import opened Runs
  import opened Views
  import opened LockingSteps
  import opened WithdrawalSteps

  // ---------------------------------------------------------------- what a claim finds

  /** The oldest listed era of a history with a positive stake is unpaid, and the stake is the table's. */
  lemma ClaimMatchesTable(c: Config, w: World, k: Pair)
    requires Steady(c, w) && StakesInv(c, w)
    requires ClaimedEntry(HistoryOf(w.s.stakerInfo, k)).staked > 0
    ensures var entry := ClaimedEntry(HistoryOf(w.s.stakerInfo, k));
            && 1 <= entry.era <= w.s.currentEra
            && k !in w.g.exited
            && k !in w.g.eras[entry.era].toStakers
            && k in w.g.eras[entry.era].stakes
            && w.g.eras[entry.era].stakes[k] == entry.staked
  {
    hide TotalsOk, SlotsOk, FlagsOk, TablesOk, ProvidersOk, ExitedOk;
    var h := HistoryOf(w.s.stakerInfo, k);
    HistoryOkOrEmpty(c, w.s.currentEra, w.s.stakerInfo, k);
    ClaimedRefines(h, 0);
    assert StakeAt(h, h[0].era) == Unclaimed(w.g.eras, w.g.exited, k, h[0].era);
  }

  /** The stored total of a provider and the stored total of an era are those of the full table. */
  lemma TotalsMatchTable(c: Config, w: World, p: ProviderId, era: nat)
    requires Steady(c, w) && StakesInv(c, w) && FundsInv(c, w)
    requires era < w.s.currentEra && p in w.s.providers && Claimable(w.s.providers, p, era)
    ensures EntryAt(w.s.providerStake, Slot(p, era)).total == Sum(StakedOn(w.g.eras[era].stakes, p))
    ensures era in w.s.eraInfo && w.s.eraInfo[era].staked == Sum(w.g.eras[era].stakes)
  {
    hide HistoriesOk, Denotes, SlotsOk, FlagsOk, TablesOk, ProvidersOk, ExitedOk, LedgersOk, LockedOk, LocksOk,
         SolventOk, CurrentEraOk, QueuesOk, DepositsOk;
    assert TotalOk(EntryAt(w.s.providerStake, Slot(p, era)), StakedOn(w.g.eras[era].stakes, p));
  }

  lemma StakerRewardMatches(c: Config, w: World, who: AccountId, p: ProviderId)
    requires Steady(c, w) && StakesInv(c, w) && FundsInv(c, w)
    requires var entry := ClaimedEntry(HistoryOf(w.s.stakerInfo, Pair(who, p)));
             && entry.staked > 0 && entry.era < w.s.currentEra
             && p in w.s.providers && Claimable(w.s.providers, p, entry.era)
    ensures var era := ClaimedEntry(HistoryOf(w.s.stakerInfo, Pair(who, p))).era;
            && era in w.s.eraInfo
            && StakerReward(w.s, who, p)
            == StakerShare(w.g.eras[era].stakes, w.s.eraInfo[era].rewards.stakers, Pair(who, p))
  {
    hide StakesInv, FundsInv, FromRational, Times, HistoryOf, EntryAt, StakedOn;
    var k := Pair(who, p);
    ClaimMatchesTable(c, w, k);
    TotalsMatchTable(c, w, p, ClaimedEntry(HistoryOf(w.s.stakerInfo, k)).era);
  }

  lemma OperatorRewardMatches(c: Config, w: World, p: ProviderId, era: nat)
    requires Steady(c, w) && StakesInv(c, w) && FundsInv(c, w)
    requires era < w.s.currentEra && p in w.s.providers && Claimable(w.s.providers, p, era)
    ensures era in w.s.eraInfo
    ensures OperatorReward(w.s, p, era) == ProviderShare(w.g.eras[era].stakes, w.s.eraInfo[era].rewards.operators, p)
  {
    hide StakesInv, FundsInv, FromRational, Times, EntryAt, StakedOn;
    TotalsMatchTable(c, w, p, era);
  }

  // ---------------------------------------------------------------- records that only gain payments

  ghost predicate SameStakes(eras: seq<EraRecord>, eras': seq<EraRecord>) {
    |eras'| == |eras| && forall e :: 0 <= e < |eras| ==> eras'[e].stakes == eras[e].stakes
  }

  lemma TotalsAgree(providers: Providers, stakes: ProviderStakes, stakes': ProviderStakes, eras: seq<EraRecord>,
                    eras': seq<EraRecord>)
    requires TotalsOk(providers, stakes, eras) && SameStakes(eras, eras')
    requires forall slot :: EntryAt(stakes', slot).total == EntryAt(stakes, slot).total
    requires forall slot :: EntryAt(stakes', slot).numberOfStakers == EntryAt(stakes, slot).numberOfStakers
    ensures TotalsOk(providers, stakes', eras')
  {
    forall p, e: nat | e < |eras'| && p in providers && Open(providers[p], e)
      ensures TotalOk(EntryAt(stakes', Slot(p, e)), StakedOn(eras'[e].stakes, p))
    {
      assert TotalOk(EntryAt(stakes, Slot(p, e)), StakedOn(eras[e].stakes, p));
    }
  }

  lemma TablesAgree(c: Config, providers: Providers, eras: seq<EraRecord>, eras': seq<EraRecord>)
    requires TablesOk(c, providers, eras) && SameStakes(eras, eras')
    ensures TablesOk(c, providers, eras')
  {
    hide TableOk;
    forall e | 0 <= e < |eras'| ensures TableOk(c, providers, eras'[e].stakes) {
      assert TableOk(c, providers, eras[e].stakes);
    }
  }

  lemma {:induction false} TotalPaidAt(eras: seq<EraRecord>, e: nat, r: EraRecord)
    requires e < |eras|
    ensures TotalPaid(eras[e := r]) == TotalPaid(eras) - eras[e].paid + r.paid
  {
    var front := eras[..|eras| - 1];
    if e == |eras| - 1 {
      assert eras[e := r][..|eras| - 1] == front;
    } else {
      TotalPaidAt(front, e, r);
      assert eras[e := r][..|eras| - 1] == front[e := r];
    }
  }

  /** Paying out of the pot to somebody else. */
  lemma PaidOut(c: Config, b: Balances, who: AccountId, amount: nat)
    requires SolventOk(b) && who != c.pot && CanWithdraw(b, c.pot, amount)
    ensures var b' := Deposited(Withdrawn(b, c.pot, amount), who, amount);
            SolventOk(b') && Get(b'.free, c.pot) == Get(b.free, c.pot) - amount
  {
    var w := Withdrawn(b, c.pot, amount);
    assert Get(b.locks, c.pot) <= Get(b.free, c.pot);
    SumPut(b.free, c.pot, SatSub(Get(b.free, c.pot), amount));
    SumPut(w.free, who, Get(w.free, who) + amount);
  }

  /** Funds views are untouched by a payment, except for the free balances. */
  lemma PaymentKeepsFunds(c: Config, w: World, s: State, g: Shadow)
    requires Steady(c, w) && FundsInv(c, w) && SameStakes(w.g.eras, g.eras)
    requires s.ledger == w.s.ledger && s.eraInfo == w.s.eraInfo && s.currentEra == w.s.currentEra
    requires s.providers == w.s.providers
    requires s.balances == w.s.balances.(free := s.balances.free)
    requires g.unstaked == w.g.unstaked && g.withdrawn == w.g.withdrawn
    requires SolventOk(s.balances)
    ensures FundsInv(c, World(s, g))
  {
    hide LedgersOk, LockedOk, LocksOk, CurrentEraOk, DepositsOk, QueueOk, SolventOk;
  }

  // ---------------------------------------------------------------- claim_staker

  lemma ClaimedOk(c: Config, h: History, now: nat)
    requires HistoryOk(c, now, h) && h[0].era < now
    ensures Claimed(h) == [] || HistoryOk(c, now, Claimed(h))
  {
    ClaimedRefines(h, 0);
  }

  lemma DenotesClaim(stakerInfo: Histories, eras: seq<EraRecord>, exited: set<Pair>, k: Pair, amount: nat)
    requires Denotes(stakerInfo, eras, exited)
    requires var h := HistoryOf(stakerInfo, k); h != [] && Ascending(h) && h[0].era < |eras|
    ensures var h := HistoryOf(stakerInfo, k);
            var e := h[0].era;
            Denotes(WithHistory(stakerInfo, k, Claimed(h)), eras[e := PayStaker(eras[e], k, amount)], exited)
  {
    var h := HistoryOf(stakerInfo, k);
    var first := h[0].era;
    var stakerInfo', eras' := WithHistory(stakerInfo, k, Claimed(h)), eras[first := PayStaker(eras[first], k, amount)];
    forall j, e: nat | e < |eras'| ensures StakeAt(HistoryOf(stakerInfo', j), e) == Unclaimed(eras', exited, j, e) {
      assert StakeAt(HistoryOf(stakerInfo, j), e) == Unclaimed(eras, exited, j, e);
      assert HistoryOf(stakerInfo', j) == if j == k then Claimed(h) else HistoryOf(stakerInfo, j);
      ClaimedRefines(h, e);
      if e < first {
        StakeAtBefore(h, e);
      }
    }
  }

  lemma ClaimKeepsStakes(c: Config, w: World, who: AccountId, p: ProviderId)
    requires Steady(c, w) && StakesInv(c, w) && ClaimStakerError(c, w.s, who, p).None?
    ensures StakesInv(c, World(ClaimStakerEffect(c, w.s, who, p), Track(c, w, ClaimStaker(who, p))))
    ensures SameStakes(w.g.eras, Track(c, w, ClaimStaker(who, p)).eras)
  {
    hide HistoriesOk, ListedOk, Denotes, TotalsOk, SlotsOk, FlagsOk, TablesOk, ProvidersOk, HistoryOk, EntryAt,
         WithHistory, StakerReward, HistoryOf, Claimed, Claimable, ExitedOk, CanWithdraw, Deposited, Withdrawn;
    var s, g, k := w.s, w.g, Pair(who, p);
    var h := HistoryOf(s.stakerInfo, k);
    var e, amount := ClaimedEntry(h).era, StakerReward(s, who, p);
    ClaimMatchesTable(c, w, k);
    HistoryOkOrEmpty(c, s.currentEra, s.stakerInfo, k);
    HistoryOkHead(c, s.currentEra, h);
    ClaimedOk(c, h, s.currentEra);
    HistoriesPut(c, s.currentEra, s.stakerInfo, k, Claimed(h));
    ListedPut(s.providers, s.stakerInfo, k, Claimed(h));
    DenotesClaim(s.stakerInfo, g.eras, g.exited, k, amount);
    var eras' := g.eras[e := PayStaker(g.eras[e], k, amount)];
    TotalsAgree(s.providers, s.providerStake, s.providerStake, g.eras, eras');
    SlotsAgree(s.providers, s.providerStake, g.eras, eras');
    FlagsAgree(s.providerStake, g.eras, eras');
    TablesAgree(c, s.providers, g.eras, eras');
  }

  lemma HistoryOkHead(c: Config, now: nat, h: History)
    requires HistoryOk(c, now, h)
    ensures h != [] && Ascending(h) && 1 <= h[0].era <= now
  {
  }

  lemma PayStakerOk(r: EraRecord, rewards: RewardInfo, k: Pair, amount: nat)
    requires PaidOk(r, rewards) && k in r.stakes && k !in r.toStakers
    requires amount == StakerShare(r.stakes, rewards.stakers, k)
    ensures PaidOk(PayStaker(r, k, amount), rewards)
  {
    hide StakerShare, ProviderShare;
    SumPut(r.toStakers, k, amount);
  }

  lemma PaymentsAt(eraInfo: EraInfos, eras: seq<EraRecord>, e: nat, r: EraRecord)
    requires PaymentsOk(eraInfo, eras) && e < |eras| - 1
    requires r.stakes == eras[e].stakes && PaidOk(r, eraInfo[e].rewards)
    ensures PaymentsOk(eraInfo, eras[e := r])
  {
    hide PaidOk;
  }

  lemma ClaimKeepsFundsAndRewards(c: Config, w: World, who: AccountId, p: ProviderId)
    requires Steady(c, w) && StakesInv(c, w) && FundsInv(c, w) && RewardsInv(c, w)
    requires who != c.pot && ClaimStakerError(c, w.s, who, p).None?
    requires SameStakes(w.g.eras, Track(c, w, ClaimStaker(who, p)).eras)
    ensures FundsInv(c, World(ClaimStakerEffect(c, w.s, who, p), Track(c, w, ClaimStaker(who, p))))
    ensures RewardsInv(c, World(ClaimStakerEffect(c, w.s, who, p), Track(c, w, ClaimStaker(who, p))))
  {
    hide StakesInv, LedgersOk, LockedOk, LocksOk, StakedOk, CurrentEraOk, QueuesOk, DepositsOk, PaidOk, SolventOk,
         SameStakes, StakerReward, HistoryOf, WithHistory, Claimed, CanWithdraw, StakerShare, PayStaker;
    var s, g, k := w.s, w.g, Pair(who, p);
    var e, amount := ClaimedEntry(HistoryOf(s.stakerInfo, k)).era, StakerReward(s, who, p);
    ClaimMatchesTable(c, w, k);
    StakerRewardMatches(c, w, who, p);
    PaidOut(c, s.balances, who, amount);
    PaymentKeepsFunds(c, w, ClaimStakerEffect(c, s, who, p), Track(c, w, ClaimStaker(who, p)));
    PayStakerOk(g.eras[e], s.eraInfo[e].rewards, k, amount);
    PayStakerFields(g.eras[e], k, amount);
    PaymentsAt(s.eraInfo, g.eras, e, PayStaker(g.eras[e], k, amount));
    TotalPaidAt(g.eras, e, PayStaker(g.eras[e], k, amount));
  }

  lemma PayStakerFields(r: EraRecord, k: Pair, amount: nat)
    ensures PayStaker(r, k, amount).stakes == r.stakes && PayStaker(r, k, amount).paid == r.paid + amount
  {
  }

  lemma ClaimKeepsInv(c: Config, w: World, who: AccountId, p: ProviderId)
    requires Inv(c, w) && who != c.pot && ClaimStakerError(c, w.s, who, p).None?
    ensures Inv(c, World(ClaimStakerEffect(c, w.s, who, p), Track(c, w, ClaimStaker(who, p))))
  {
    hide StakesInv, FundsInv, ClaimStakerError, WithHistory, HistoryOf, PotOk, InflowOk;
    ClaimKeepsStakes(c, w, who, p);
    ClaimKeepsFundsAndRewards(c, w, who, p);
  }

  // ---------------------------------------------------------------- claim_operator

  lemma OperatorClaimChecked(c: Config, s: State, p: ProviderId, era: nat)
    requires ClaimOperatorError(c, s, p, era).None?
    ensures p in s.providers && Claimable(s.providers, p, era) && era < s.currentEra
    ensures EntryAt(s.providerStake, Slot(p, era)).total > 0 && !EntryAt(s.providerStake, Slot(p, era)).rewardClaimed
    ensures Slot(p, era) in s.providerStake
    ensures CanWithdraw(s.balances, c.pot, OperatorReward(s, p, era))
  {
    hide OperatorReward, CanWithdraw;
  }

  lemma FlagsClaim(stakes: ProviderStakes, eras: seq<EraRecord>, p: ProviderId, era: nat, amount: nat)
    requires FlagsOk(stakes, eras) && era < |eras|
    ensures FlagsOk(stakes[Slot(p, era) := EntryAt(stakes, Slot(p, era)).(rewardClaimed := true)],
                    eras[era := PayOperator(eras[era], p, amount)])
  {
    var stakes' := stakes[Slot(p, era) := EntryAt(stakes, Slot(p, era)).(rewardClaimed := true)];
    var eras' := eras[era := PayOperator(eras[era], p, amount)];
    forall q, e: nat | e < |eras'| ensures EntryAt(stakes', Slot(q, e)).rewardClaimed <==> q in eras'[e].toOperators {
      assert EntryAt(stakes, Slot(q, e)).rewardClaimed <==> q in eras[e].toOperators;
    }
  }

  lemma OperatorClaimSameStakes(c: Config, w: World, who: AccountId, p: ProviderId, era: nat)
    requires c.Valid() && w.g.eras != []
    ensures SameStakes(w.g.eras, Track(c, w, ClaimOperator(who, p, era)).eras)
  {
  }

  lemma OperatorClaimKeepsStakes(c: Config, w: World, who: AccountId, p: ProviderId, era: nat)
    requires Steady(c, w) && p in w.s.providers && era < w.s.currentEra && Slot(p, era) in w.s.providerStake
    requires StakesInv(c, w)
    ensures StakesInv(c, World(ClaimOperatorEffect(c, w.s, p, era), Track(c, w, ClaimOperator(who, p, era))))
  {
    hide HistoriesOk, Denotes, TotalsOk, SlotsOk, FlagsOk, TablesOk, ProvidersOk, OperatorReward;
    var s, g := w.s, w.g;
    var amount := OperatorReward(s, p, era);
    var eras' := g.eras[era := PayOperator(g.eras[era], p, amount)];
    var stakes' := s.providerStake[Slot(p, era) := EntryAt(s.providerStake, Slot(p, era)).(rewardClaimed := true)];
    DenotesAgree(s.stakerInfo, g.eras, eras', g.exited);
    TotalsAgree(s.providers, s.providerStake, stakes', g.eras, eras');
    FlagsClaim(s.providerStake, g.eras, p, era, amount);
    TablesAgree(c, s.providers, g.eras, eras');
    SlotsFlagged(s.providers, s.providerStake, Slot(p, era), g.eras, eras');
    assert Now(eras') == Now(g.eras);
  }

  lemma SlotsFlagged(providers: Providers, stakes: ProviderStakes, slot: Slot, eras: seq<EraRecord>,
                     eras': seq<EraRecord>)
    requires SlotsOk(providers, stakes, eras) && slot in stakes && |eras'| == |eras|
    ensures SlotsOk(providers, stakes[slot := EntryAt(stakes, slot).(rewardClaimed := true)], eras')
  {
  }

  lemma DenotesAgree(stakerInfo: Histories, eras: seq<EraRecord>, eras': seq<EraRecord>, exited: set<Pair>)
    requires Denotes(stakerInfo, eras, exited) && SameStakes(eras, eras')
    requires forall e :: 0 <= e < |eras| ==> eras'[e].toStakers == eras[e].toStakers
    ensures Denotes(stakerInfo, eras', exited)
  {
    forall k, e: nat | e < |eras'| ensures StakeAt(HistoryOf(stakerInfo, k), e) == Unclaimed(eras', exited, k, e) {
      assert StakeAt(HistoryOf(stakerInfo, k), e) == Unclaimed(eras, exited, k, e);
    }
  }

  lemma PayOperatorOk(r: EraRecord, rewards: RewardInfo, p: ProviderId, amount: nat)
    requires PaidOk(r, rewards) && p !in r.toOperators && Sum(StakedOn(r.stakes, p)) > 0
    requires amount == ProviderShare(r.stakes, rewards.operators, p)
    ensures PaidOk(PayOperator(r, p, amount), rewards)
  {
    hide StakerShare, ProviderShare;
    SumPut(r.toOperators, p, amount);
  }

  lemma OperatorUnpaid(c: Config, w: World, p: ProviderId, era: nat)
    requires Steady(c, w) && StakesInv(c, w) && era < w.s.currentEra
    requires !EntryAt(w.s.providerStake, Slot(p, era)).rewardClaimed
    ensures p !in w.g.eras[era].toOperators
    ensures p in w.s.providers ==> w.s.providers[p].operator != c.pot
  {
    hide HistoriesOk, Denotes, TotalsOk, SlotsOk, TablesOk, ExitedOk;
  }

  lemma PayOperatorFields(r: EraRecord, p: ProviderId, amount: nat)
    ensures PayOperator(r, p, amount).stakes == r.stakes && PayOperator(r, p, amount).paid == r.paid + amount
  {
  }

  lemma OperatorClaimKeepsFundsAndRewards(c: Config, w: World, who: AccountId, p: ProviderId, era: nat)
    requires Steady(c, w) && StakesInv(c, w) && FundsInv(c, w) && RewardsInv(c, w)
    requires ClaimOperatorError(c, w.s, p, era).None?
    requires SameStakes(w.g.eras, Track(c, w, ClaimOperator(who, p, era)).eras)
    ensures FundsInv(c, World(ClaimOperatorEffect(c, w.s, p, era), Track(c, w, ClaimOperator(who, p, era))))
    ensures RewardsInv(c, World(ClaimOperatorEffect(c, w.s, p, era), Track(c, w, ClaimOperator(who, p, era))))
  {
    hide StakesInv, LedgersOk, LockedOk, LocksOk, StakedOk, CurrentEraOk, QueuesOk, DepositsOk, PaidOk, SolventOk,
         SameStakes, OperatorReward, CanWithdraw, ProviderShare, PayOperator, EntryAt, ClaimOperatorError, Claimable,
         StakedOn;
    var s, g := w.s, w.g;
    var amount := OperatorReward(s, p, era);
    OperatorClaimChecked(c, s, p, era);
    TotalsMatchTable(c, w, p, era);
    OperatorRewardMatches(c, w, p, era);
    OperatorUnpaid(c, w, p, era);
    PaidOut(c, s.balances, s.providers[p].operator, amount);
    PaymentKeepsFunds(c, w, ClaimOperatorEffect(c, s, p, era), Track(c, w, ClaimOperator(who, p, era)));
    PayOperatorOk(g.eras[era], s.eraInfo[era].rewards, p, amount);
    PayOperatorFields(g.eras[era], p, amount);
    PaymentsAt(s.eraInfo, g.eras, era, PayOperator(g.eras[era], p, amount));
    TotalPaidAt(g.eras, era, PayOperator(g.eras[era], p, amount));
  }

  lemma OperatorClaimKeepsInv(c: Config, w: World, who: AccountId, p: ProviderId, era: nat)
    requires Inv(c, w) && ClaimOperatorError(c, w.s, p, era).None?
    ensures Inv(c, World(ClaimOperatorEffect(c, w.s, p, era), Track(c, w, ClaimOperator(who, p, era))))
  {
    hide StakesInv, FundsInv, ClaimOperatorError, PotOk, InflowOk;
    OperatorClaimChecked(c, w.s, p, era);
    OperatorClaimSameStakes(c, w, who, p, era);
    OperatorClaimKeepsStakes(c, w, who, p, era);
    OperatorClaimKeepsFundsAndRewards(c, w, who, p, era);
  }

  // ---------------------------------------------------------------- rewards

  lemma RewardsKeepInv(c: Config, w: World, amount: nat)
    requires Inv(c, w) && Admissible(c, w, Rewards(amount))
    ensures Inv(c, World(RewardsEffect(c, w.s, amount), Track(c, w, Rewards(amount))))
  {
    hide StakesInv, LedgersOk, LockedOk, LocksOk, StakedOk, CurrentEraOk, QueueOk, DepositsOk, PaymentsOk;
    TimesAtMost(c.operatorRewardParts, amount);
    SumPut(w.s.balances.free, c.pot, Get(w.s.balances.free, c.pot) + amount);
    var w' := World(RewardsEffect(c, w.s, amount), Track(c, w, Rewards(amount)));
    assert StakesInv(c, w') by { StakesInvAgrees(c, w, w'); }
  }

  /** The stake views do not look at money. */
  lemma StakesInvAgrees(c: Config, w: World, w': World)
    requires w.g.eras != [] && StakesInv(c, w)
    requires w'.g.eras == w.g.eras && w'.g.exited == w.g.exited
    requires w'.s.stakerInfo == w.s.stakerInfo && w'.s.currentEra == w.s.currentEra
    requires w'.s.providers == w.s.providers && w'.s.providerStake == w.s.providerStake
    ensures StakesInv(c, w')
  {
    hide HistoriesOk, ListedOk, Denotes, TotalsOk, SlotsOk, FlagsOk, TablesOk, ProvidersOk, ExitedOk;
  }

  lemma CurrencyChangeKeepsInv(c: Config, w: World, free: map<AccountId, nat>, frozen: map<AccountId, nat>)
    requires Inv(c, w) && Admissible(c, w, CurrencyChange(free, frozen))
    ensures Inv(c, Atomic(c, w, CurrencyChange(free, frozen)))
  {
    hide StakesInv, LedgersOk, LockedOk, LocksOk, StakedOk, CurrentEraOk, QueueOk, DepositsOk, PaymentsOk, TotalPaid;
    StakesInvAgrees(c, w, Atomic(c, w, CurrencyChange(free, frozen)));
  }
}
