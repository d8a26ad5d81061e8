/** Exactly when an era can be overpaid, and when the pot can pay every claim. */
module Solvency {
  import opened Options
  import opened Sums
  import opened Arithmetic
  import opened StakerHistory
  import opened StakingState
  import opened StakingInvariant
  import opened Runs
  import opened Reachability
  import opened Payouts
  import opened Exits
  import PastEras
  import RewardSteps

  // ---------------------------------------------------------------- the full payout of an era

  /** What every staked provider's operator is due. */
  ghost function OperatorsDue(stakes: StakeTable, x: RewardInfo): map<ProviderId, nat> {
    Shares(ProviderTotals(stakes), Sum(stakes), x.operators)
  }

  ghost function AllStakersDue(stakes: StakeTable, x: RewardInfo): map<Pair, nat> {
    map k | k in stakes :: StakerShare(stakes, x.stakers, k)
  }

  /** What an era costs once everybody has claimed. */
  ghost function FullPayout(stakes: StakeTable, x: RewardInfo): nat {
    Sum(AllStakersDue(stakes, x)) + Sum(OperatorsDue(stakes, x))
  }

  ghost function FullRecord(stakes: StakeTable, x: RewardInfo): EraRecord {
    EraRecord(stakes, AllStakersDue(stakes, x), OperatorsDue(stakes, x), FullPayout(stakes, x))
  }

  /** No payments, made in whatever order and by whoever claims, exceed the full payout. */
  lemma PaidAtMostFull(r: EraRecord, x: RewardInfo)
    requires PaidOk(r, x)
    ensures r.paid <= FullPayout(r.stakes, x)
  {
    var operators, stakers := OperatorsDue(r.stakes, x), AllStakersDue(r.stakes, x);
    forall p | p in r.toOperators ensures r.toOperators[p] <= Get(operators, p) {
      StakedProvider(r.stakes, p);
    }
    SumMonotone(r.toOperators, operators);
    hide StakerShare;
    SumMonotone(r.toStakers, stakers);
  }

  lemma FullRecordOk(stakes: StakeTable, x: RewardInfo)
    requires Positive(stakes)
    ensures PaidOk(FullRecord(stakes, x), x)
  {
    hide StakerShare, Times, FromRational, FullPayout;
    forall p | p in OperatorsDue(stakes, x)
      ensures Sum(StakedOn(stakes, p)) > 0 && OperatorsDue(stakes, x)[p] == ProviderShare(stakes, x.operators, p)
    {
      PartSum(stakes, p);
    }
    assert FullPayout(stakes, x) == Sum(AllStakersDue(stakes, x)) + Sum(OperatorsDue(stakes, x)) by {
      FullPayoutIs(stakes, x);
    }
  }

  lemma FullPayoutIs(stakes: StakeTable, x: RewardInfo)
    ensures FullPayout(stakes, x) == Sum(AllStakersDue(stakes, x)) + Sum(OperatorsDue(stakes, x))
  {
  }

  /** Once everybody has claimed, the full payout is what was paid. */
  lemma PaidInFull(r: EraRecord, x: RewardInfo)
    requires PaidOk(r, x) && r.toStakers.Keys == r.stakes.Keys && r.toOperators.Keys == ProvidersOf(r.stakes)
    ensures r.paid == FullPayout(r.stakes, x)
  {
    hide StakerShare, Times, FromRational;
    assert r.toStakers == AllStakersDue(r.stakes, x);
    assert r.toOperators == OperatorsDue(r.stakes, x);
  }

  /** An era's payments stay within its rewards, whatever is claimed, exactly when its full payout does. */
  lemma OverpaidExactly(stakes: StakeTable, x: RewardInfo)
    requires Positive(stakes)
    ensures (forall r :: PaidOk(r, x) && r.stakes == stakes ==> r.paid <= x.operators + x.stakers)
       <==> FullPayout(stakes, x) <= x.operators + x.stakers
  {
    FullRecordOk(stakes, x);
    hide PaidOk, FullPayout;
    forall r | PaidOk(r, x) && r.stakes == stakes ensures r.paid <= FullPayout(stakes, x) {
      PaidAtMostFull(r, x);
    }
    assert FullRecord(stakes, x).paid == FullPayout(stakes, x);
  }

  /** No run pays more for an era that is over than the full payout that its stakes and rewards have fixed. */
  lemma RunPaysAtMostFull(c: Config, w: World, evs: seq<Event>, e: nat)
    requires Inv(c, w) && AdmissibleRun(c, w, evs) && e < w.s.currentEra
    ensures c.Valid() && w.g.eras != [] && e < |w.g.eras| && e in w.s.eraInfo
    ensures var w' := Execute(c, w, evs);
            && e < |w'.g.eras|
            && w'.g.eras[e].paid <= FullPayout(w.g.eras[e].stakes, w.s.eraInfo[e].rewards)
  {
    hide StakesInv, FundsInv, FullPayout, PaidOk;
    InvBasics(c, w);
    PastEras.RunKeepsPast(c, w, evs);
    RunKeepsInv(c, w, evs);
    var w' := Execute(c, w, evs);
    InvBasics(c, w');
    hide Execute;
    assert PastEras.RecordKept(w.g.eras[e], w'.g.eras[e]);
    assert PaidOk(w.g.eras[e], w.s.eraInfo[e].rewards) && PaidOk(w'.g.eras[e], w'.s.eraInfo[e].rewards);
    PaidAtMostFull(w'.g.eras[e], w'.s.eraInfo[e].rewards);
  }

  // ---------------------------------------------------------------- no rounding up, no overpayment

  /** None of the ratios that the era's claims multiply by takes the branch that rounds up. */
  ghost predicate NothingRoundsUp(stakes: StakeTable, x: RewardInfo) {
    && (forall p :: p in ProvidersOf(stakes) ==>
                      && !RoundsUp(FromRational(Sum(StakedOn(stakes, p)), Sum(stakes)), x.operators)
                      && !RoundsUp(FromRational(Sum(StakedOn(stakes, p)), Sum(stakes)), x.stakers))
    && (forall k :: k in stakes ==>
                      !RoundsUp(FromRational(stakes[k], Sum(StakedOn(stakes, k.provider))),
                                ProviderShare(stakes, x.stakers, k.provider)))
  }

  lemma OperatorsWithin(stakes: StakeTable, x: RewardInfo)
    requires Sum(stakes) > 0 && NothingRoundsUp(stakes, x)
    ensures Sum(OperatorsDue(stakes, x)) <= x.operators
    ensures Sum(Shares(ProviderTotals(stakes), Sum(stakes), x.stakers)) <= x.stakers
  {
    ProviderTotalsSum(stakes);
    hide RoundsUp, FromRational, Times;
    SplitWithin(ProviderTotals(stakes), Sum(stakes), x.operators);
    SplitWithin(ProviderTotals(stakes), Sum(stakes), x.stakers);
  }

  lemma ProviderStakersWithin(stakes: StakeTable, x: RewardInfo, p: ProviderId)
    requires Positive(stakes) && NothingRoundsUp(stakes, x)
    ensures Sum(Part(AllStakersDue(stakes, x), ProviderOf, p))
         <= Get(Shares(ProviderTotals(stakes), Sum(stakes), x.stakers), p)
  {
    hide RoundsUp, FromRational, Times;
    var mine, part := Part(AllStakersDue(stakes, x), ProviderOf, p), StakedOn(stakes, p);
    PartSum(stakes, p);
    if p in ProvidersOf(stakes) {
      var joint := ProviderShare(stakes, x.stakers, p);
      MyStakersDue(stakes, x, p);
      forall k | k in part ensures !RoundsUp(FromRational(part[k], Sum(part)), joint) {
        assert k in stakes && k.provider == p;
      }
      hide NothingRoundsUp, AllStakersDue, ProviderShare, StakedOn;
      SplitWithin(part, Sum(part), joint);
      TotalListed(stakes, x.stakers, p);
    } else {
      assert mine == map[];
    }
  }

  lemma MyStakersDue(stakes: StakeTable, x: RewardInfo, p: ProviderId)
    ensures Part(AllStakersDue(stakes, x), ProviderOf, p)
         == Shares(StakedOn(stakes, p), Sum(StakedOn(stakes, p)), ProviderShare(stakes, x.stakers, p))
  {
    hide Times, FromRational, ProviderShare;
    forall k | k in stakes && k.provider == p
      ensures StakerShare(stakes, x.stakers, k)
           == Times(FromRational(stakes[k], Sum(StakedOn(stakes, p))), ProviderShare(stakes, x.stakers, p))
    {
    }
  }

  lemma TotalListed(stakes: StakeTable, x: nat, p: ProviderId)
    requires p in ProvidersOf(stakes)
    ensures Get(Shares(ProviderTotals(stakes), Sum(stakes), x), p) == ProviderShare(stakes, x, p)
  {
    hide Times, FromRational;
  }

  lemma NothingDue(stakes: StakeTable, x: RewardInfo)
    requires ProvidersOf(stakes) == {}
    ensures FullPayout(stakes, x) == 0
  {
    assert forall k :: k in stakes ==> k.provider in ProvidersOf(stakes);
    assert AllStakersDue(stakes, x) == map[] && OperatorsDue(stakes, x) == map[];
  }

  lemma StakersWithin(stakes: StakeTable, x: RewardInfo)
    requires Positive(stakes) && NothingRoundsUp(stakes, x)
    ensures Sum(AllStakersDue(stakes, x)) <= Sum(Shares(ProviderTotals(stakes), Sum(stakes), x.stakers))
  {
    var due, joint := AllStakersDue(stakes, x), Shares(ProviderTotals(stakes), Sum(stakes), x.stakers);
    hide Shares, NothingRoundsUp, AllStakersDue, ProviderTotals, Positive, Part, Sum, Get;
    forall p ensures Sum(Part(due, ProviderOf, p)) <= Get(joint, p) {
      ProviderStakersWithin(stakes, x, p);
    }
    GroupsAtMost(due, ProviderOf, joint);
  }

  lemma FullPayoutWithin(stakes: StakeTable, x: RewardInfo)
    requires Positive(stakes) && NothingRoundsUp(stakes, x)
    ensures FullPayout(stakes, x) <= x.operators + x.stakers
  {
    if ProvidersOf(stakes) == {} {
      NothingDue(stakes, x);
    } else {
      PartSum(stakes, 0);
      FullPayoutIs(stakes, x);
      hide Shares, NothingRoundsUp, AllStakersDue, ProviderTotals, ProvidersOf, FullPayout, OperatorsDue, Positive;
      OperatorsWithin(stakes, x);
      StakersWithin(stakes, x);
    }
  }

  /** In every reachable state, an era in which no ratio rounds up has paid at most its rewards. */
  lemma EraWithinRewards(c: Config, w: World, e: nat)
    requires Inv(c, w) && e < w.s.currentEra
    ensures e in w.s.eraInfo && e < |w.g.eras|
    ensures var r, x := w.g.eras[e], w.s.eraInfo[e].rewards;
            NothingRoundsUp(r.stakes, x) ==> r.paid <= x.operators + x.stakers
  {
    PastRecord(c, w, e);
    hide Inv, PaidOk, NothingRoundsUp, FullPayout;
    var r, x := w.g.eras[e], w.s.eraInfo[e].rewards;
    if NothingRoundsUp(r.stakes, x) {
      FullPayoutWithin(r.stakes, x);
      PaidAtMostFull(r, x);
    }
  }

  lemma PastRecord(c: Config, w: World, e: nat)
    requires Inv(c, w) && e < w.s.currentEra
    ensures e in w.s.eraInfo && e < |w.g.eras|
    ensures PaidOk(w.g.eras[e], w.s.eraInfo[e].rewards) && Positive(w.g.eras[e].stakes)
  {
    hide PaidOk, FundsInv, HistoriesOk, Denotes, TotalsOk, SlotsOk, FlagsOk, ExitedOk, ProvidersOk;
    assert TableOk(c, w.s.providers, w.g.eras[e].stakes);
  }

  // ---------------------------------------------------------------- when the pot can pay

  /** What the eras before `n` cost once everybody has claimed. */
  ghost function Owed(eraInfo: EraInfos, eras: seq<EraRecord>, n: nat): nat
    requires n <= |eras|
  {
    if n == 0 then 0
    else
      Owed(eraInfo, eras, n - 1)
      + if n - 1 in eraInfo then FullPayout(eras[n - 1].stakes, eraInfo[n - 1].rewards) else 0
  }

  /** Nothing on the pot is locked or frozen. */
  predicate PotFree(c: Config, s: State) {
    Get(s.balances.locks, c.pot) == 0 && Get(s.balances.frozen, c.pot) == 0
  }

  /** Everything that ever came into the pot covers everything that the past eras owe. */
  ghost predicate PotCovers(w: World) {
    w.s.currentEra <= |w.g.eras| && w.g.potBase + w.g.inflow >= Owed(w.s.eraInfo, w.g.eras, w.s.currentEra)
  }

  ghost predicate AllPaidOk(eraInfo: EraInfos, eras: seq<EraRecord>, n: nat)
    requires n <= |eras|
  {
    forall e: nat :: e < n ==> e in eraInfo && PaidOk(eras[e], eraInfo[e].rewards)
  }

  lemma {:induction false} PaidAtMostOwed(eraInfo: EraInfos, eras: seq<EraRecord>, n: nat)
    requires n <= |eras| && AllPaidOk(eraInfo, eras, n)
    ensures TotalPaid(eras[..n]) <= Owed(eraInfo, eras, n)
  {
    hide PaidOk, FullPayout;
    if n > 0 {
      PaidAtMostOwed(eraInfo, eras, n - 1);
      PaidAtMostFull(eras[n - 1], eraInfo[n - 1].rewards);
      assert eras[..n][..n - 1] == eras[..n - 1];
    } else {
      assert eras[..0] == [];
    }
  }

  /** Only the stakes and rewards of past eras decide what is owed. */
  lemma {:induction false} OwedAgrees(eraInfo: EraInfos, eraInfo': EraInfos, eras: seq<EraRecord>,
                                      eras': seq<EraRecord>, n: nat)
    requires n <= |eras| && n <= |eras'|
    requires forall e: nat :: e < n ==> e in eraInfo && e in eraInfo' && eraInfo'[e].rewards == eraInfo[e].rewards
    requires forall e: nat :: e < n ==> eras'[e].stakes == eras[e].stakes
    ensures Owed(eraInfo', eras', n) == Owed(eraInfo, eras, n)
  {
    hide FullPayout;
    if n > 0 {
      OwedAgrees(eraInfo, eraInfo', eras, eras', n - 1);
      assert eras'[n - 1].stakes == eras[n - 1].stakes && eraInfo'[n - 1].rewards == eraInfo[n - 1].rewards;
    }
  }

  /** One more payment for a past era that keeps its record correct fits in the pot. */
  lemma PaymentFits(c: Config, w: World, e: nat, r: EraRecord)
    requires Inv(c, w) && PotFree(c, w.s) && PotCovers(w)
    requires e < w.s.currentEra && e < |w.g.eras| && e in w.s.eraInfo
    requires PaidOk(r, w.s.eraInfo[e].rewards) && r.stakes == w.g.eras[e].stakes && r.paid >= w.g.eras[e].paid
    ensures CanWithdraw(w.s.balances, c.pot, r.paid - w.g.eras[e].paid)
  {
    hide Inv, CanWithdraw, PaidOk, Owed, TotalPaid, PotFree, RewardsBefore;
    PotEquation(c, w);
    PaidWith(c, w, e, r);
    RewardSteps.TotalPaidAt(w.g.eras[..w.s.currentEra], e, r);
    PotHolds(c, w.s, r.paid - w.g.eras[e].paid);
  }

  lemma PotHolds(c: Config, s: State, amount: nat)
    requires PotFree(c, s) && amount <= Get(s.balances.free, c.pot)
    ensures CanWithdraw(s.balances, c.pot, amount)
  {
  }

  lemma PaidWith(c: Config, w: World, e: nat, r: EraRecord)
    requires Inv(c, w) && e < w.s.currentEra < |w.g.eras| && e in w.s.eraInfo
    requires PaidOk(r, w.s.eraInfo[e].rewards) && r.stakes == w.g.eras[e].stakes
    ensures TotalPaid(w.g.eras[..w.s.currentEra][e := r]) <= Owed(w.s.eraInfo, w.g.eras, w.s.currentEra)
  {
    hide Inv, PaidOk, Positive, FullPayout;
    var eras', n := w.g.eras[e := r], w.s.currentEra;
    forall d: nat | d < n ensures d in w.s.eraInfo && PaidOk(eras'[d], w.s.eraInfo[d].rewards) {
      PastRecord(c, w, d);
    }
    PaidAtMostOwed(w.s.eraInfo, eras', n);
    OwedAgrees(w.s.eraInfo, w.s.eraInfo, w.g.eras, eras', n);
    assert eras'[..n] == w.g.eras[..n][e := r];
  }

  /** The pot holds what came in and was not paid out; the current era has paid nothing yet. */
  lemma PotEquation(c: Config, w: World)
    requires Inv(c, w)
    ensures w.s.currentEra < |w.g.eras|
    ensures Get(w.s.balances.free, c.pot) == w.g.potBase + w.g.inflow - TotalPaid(w.g.eras[..w.s.currentEra])
    ensures w.g.inflow >= RewardsBefore(w.s.eraInfo, w.s.currentEra)
  {
    hide StakesInv, FundsInv, PaidOk;
    assert TotalPaid(w.g.eras) == TotalPaid(w.g.eras[..w.s.currentEra]) + w.g.eras[w.s.currentEra].paid;
  }

  /** As long as the pot covers what is owed, no claim that passes its other checks bounces. */
  lemma ClaimsNeverBounce(c: Config, w: World, who: AccountId, p: ProviderId, era: nat)
    requires Inv(c, w) && PotFree(c, w.s) && PotCovers(w)
    ensures ClaimStakerError(c, w.s, who, p) != Some(CurrencyFailure)
    ensures ClaimOperatorError(c, w.s, p, era) != Some(CurrencyFailure)
  {
    hide Inv, PotCovers, PotFree, ClaimStakerError, ClaimOperatorError, HistoryOf, EntryAt, StakerReward,
         OperatorReward, CanWithdraw, Claimable;
    if ClaimStakerError(c, w.s, who, p) == Some(CurrencyFailure) {
      StakerBounces(c, w.s, who, p);
      StakerPaymentFits(c, w, who, p);
    }
    if ClaimOperatorError(c, w.s, p, era) == Some(CurrencyFailure) {
      OperatorBounces(c, w.s, p, era);
      OperatorPaymentFits(c, w, p, era);
    }
  }

  lemma StakerBounces(c: Config, s: State, who: AccountId, p: ProviderId)
    requires ClaimStakerError(c, s, who, p) == Some(CurrencyFailure)
    ensures !CanWithdraw(s.balances, c.pot, StakerReward(s, who, p))
    ensures var entry := ClaimedEntry(HistoryOf(s.stakerInfo, Pair(who, p)));
            entry.staked > 0 && entry.era < s.currentEra && p in s.providers && Claimable(s.providers, p, entry.era)
  {
    hide HistoryOf, StakerReward, CanWithdraw;
  }

  lemma OperatorBounces(c: Config, s: State, p: ProviderId, era: nat)
    requires ClaimOperatorError(c, s, p, era) == Some(CurrencyFailure)
    ensures !CanWithdraw(s.balances, c.pot, OperatorReward(s, p, era))
    ensures p in s.providers && Claimable(s.providers, p, era) && era < s.currentEra
    ensures EntryAt(s.providerStake, Slot(p, era)).total > 0 && !EntryAt(s.providerStake, Slot(p, era)).rewardClaimed
  {
    hide EntryAt, OperatorReward, CanWithdraw;
  }

  lemma StakerPaymentFits(c: Config, w: World, who: AccountId, p: ProviderId)
    requires Inv(c, w) && PotFree(c, w.s) && PotCovers(w)
    requires var entry := ClaimedEntry(HistoryOf(w.s.stakerInfo, Pair(who, p)));
             && entry.staked > 0 && entry.era < w.s.currentEra
             && p in w.s.providers && Claimable(w.s.providers, p, entry.era)
    ensures CanWithdraw(w.s.balances, c.pot, StakerReward(w.s, who, p))
  {
    hide StakesInv, FundsInv, RewardsInv, PotFree, PotCovers, CanWithdraw, StakerReward, PaidOk, StakerShare;
    PastEras.LastRecordUnpaid(c, w);
    var k := Pair(who, p);
    var e := ClaimedEntry(HistoryOf(w.s.stakerInfo, k)).era;
    RewardSteps.ClaimMatchesTable(c, w, k);
    RewardSteps.StakerRewardMatches(c, w, who, p);
    PastRecord(c, w, e);
    var r, amount := w.g.eras[e], StakerReward(w.s, who, p);
    hide HistoryOf, Inv, Positive;
    RewardSteps.PayStakerOk(r, w.s.eraInfo[e].rewards, k, amount);
    RewardSteps.PayStakerFields(r, k, amount);
    PaymentFits(c, w, e, PayStaker(r, k, amount));
  }

  lemma OperatorPaymentFits(c: Config, w: World, p: ProviderId, era: nat)
    requires Inv(c, w) && PotFree(c, w.s) && PotCovers(w)
    requires p in w.s.providers && Claimable(w.s.providers, p, era) && era < w.s.currentEra
    requires EntryAt(w.s.providerStake, Slot(p, era)).total > 0
    requires !EntryAt(w.s.providerStake, Slot(p, era)).rewardClaimed
    ensures CanWithdraw(w.s.balances, c.pot, OperatorReward(w.s, p, era))
  {
    hide StakesInv, FundsInv, RewardsInv, PotFree, PotCovers, CanWithdraw, OperatorReward, PaidOk, ProviderShare;
    PastEras.LastRecordUnpaid(c, w);
    RewardSteps.TotalsMatchTable(c, w, p, era);
    RewardSteps.OperatorRewardMatches(c, w, p, era);
    FlagMatches(c, w, p, era);
    PastRecord(c, w, era);
    var r, amount := w.g.eras[era], OperatorReward(w.s, p, era);
    hide Inv, Positive, EntryAt, Claimable;
    RewardSteps.PayOperatorOk(r, w.s.eraInfo[era].rewards, p, amount);
    RewardSteps.PayOperatorFields(r, p, amount);
    PaymentFits(c, w, era, PayOperator(r, p, amount));
  }

  /** So after any run without outside transfers, the pot's base, its inflow so far and the inflow of the run decide. */
  lemma ClaimsNeverBounceInRuns(c: Config, w: World, evs: seq<Event>, who: AccountId, p: ProviderId, era: nat)
    requires Inv(c, w) && AdmissibleRun(c, w, evs) && forall i :: 0 <= i < |evs| ==> !evs[i].CurrencyChange?
    ensures c.Valid() && w.g.eras != []
    ensures var w' := Execute(c, w, evs);
            && w'.s.currentEra <= |w'.g.eras|
            && (PotFree(c, w'.s)
                && w.g.potBase + w.g.inflow + RewardsIn(evs) >= Owed(w'.s.eraInfo, w'.g.eras, w'.s.currentEra) ==>
                  && ClaimStakerError(c, w'.s, who, p) != Some(CurrencyFailure)
                  && ClaimOperatorError(c, w'.s, p, era) != Some(CurrencyFailure))
  {
    hide Inv, Execute, ClaimStakerError, ClaimOperatorError, PotFree, Owed;
    InvBasics(c, w);
    RunPotBase(c, w, evs);
    RunInflow(c, w, evs);
    RunKeepsInv(c, w, evs);
    var w' := Execute(c, w, evs);
    InvBasics(c, w');
    if PotFree(c, w'.s) && PotCovers(w') {
      ClaimsNeverBounce(c, w', who, p, era);
    }
  }

  // ---------------------------------------------------------------- and when it cannot

  /** Every staker and every operator of the era has been paid. */
  ghost predicate Settled(r: EraRecord) {
    r.toStakers.Keys == r.stakes.Keys && r.toOperators.Keys == ProvidersOf(r.stakes)
  }

  lemma {:induction false} SettledPaidOwed(eraInfo: EraInfos, eras: seq<EraRecord>, n: nat)
    requires n <= |eras| && AllPaidOk(eraInfo, eras, n) && forall e :: 0 <= e < n ==> Settled(eras[e])
    ensures TotalPaid(eras[..n]) == Owed(eraInfo, eras, n)
  {
    hide PaidOk, FullPayout, ProvidersOf;
    if n > 0 {
      SettledPaidOwed(eraInfo, eras, n - 1);
      assert Settled(eras[n - 1]);
      PaidInFull(eras[n - 1], eraInfo[n - 1].rewards);
      assert eras[..n][..n - 1] == eras[..n - 1];
    } else {
      assert eras[..0] == [];
    }
  }

  /** The condition is needed: a state in which every past era is settled satisfies it. */
  lemma SettledNeedsCover(c: Config, w: World)
    requires Inv(c, w) && forall e :: 0 <= e < w.s.currentEra && e < |w.g.eras| ==> Settled(w.g.eras[e])
    ensures PotCovers(w)
  {
    hide Inv, Settled, PaidOk, Owed, TotalPaid, RewardsBefore;
    PotEquation(c, w);
    forall e: nat | e < w.s.currentEra ensures e in w.s.eraInfo && PaidOk(w.g.eras[e], w.s.eraInfo[e].rewards) {
      PastRecord(c, w, e);
    }
    SettledPaidOwed(w.s.eraInfo, w.g.eras, w.s.currentEra);
  }

  // ---------------------------------------------------------------- a cover that is easy to see

  /** Twice the rounding that the eras before `n` may cost on top of their rewards. */
  ghost function Slack(eras: seq<EraRecord>, n: nat): nat
    requires n <= |eras|
  {
    if n == 0 then 0
    else Slack(eras, n - 1) + 2 * |ProvidersOf(eras[n - 1].stakes)| + |eras[n - 1].stakes|
  }

  lemma {:induction false} OwedWithin(eraInfo: EraInfos, eras: seq<EraRecord>, n: nat)
    requires n <= |eras| && forall e: nat :: e < n ==> e in eraInfo && Positive(eras[e].stakes)
    ensures 2 * Owed(eraInfo, eras, n) <= 2 * RewardsBefore(eraInfo, n) + Slack(eras, n)
  {
    hide Positive, ProvidersOf, FullPayout, PaidOk, AllStakersDue, OperatorsDue;
    if n > 0 {
      var stakes, x := eras[n - 1].stakes, eraInfo[n - 1].rewards;
      OwedWithin(eraInfo, eras, n - 1);
      FullRecordOk(stakes, x);
      RecordBound(FullRecord(stakes, x), x);
    }
  }

  lemma {:induction false} OwedNoRounding(eraInfo: EraInfos, eras: seq<EraRecord>, n: nat)
    requires n <= |eras|
    requires forall e: nat :: e < n ==> e in eraInfo && Positive(eras[e].stakes)
                                        && NothingRoundsUp(eras[e].stakes, eraInfo[e].rewards)
    ensures Owed(eraInfo, eras, n) <= RewardsBefore(eraInfo, n)
  {
    hide Positive, FullPayout, NothingRoundsUp;
    if n > 0 {
      OwedNoRounding(eraInfo, eras, n - 1);
      FullPayoutWithin(eras[n - 1].stakes, eraInfo[n - 1].rewards);
    }
  }

  /**
    The rewards alone, from an empty pot, cover what is owed when nothing rounds up; otherwise a base of half a unit for
    each payment of past eras is enough.
    */
  lemma RewardsCover(c: Config, w: World)
    requires Inv(c, w)
    ensures w.s.currentEra < |w.g.eras|
    ensures 2 * w.g.potBase >= Slack(w.g.eras, w.s.currentEra) ==> PotCovers(w)
    ensures w.g.potBase >= 0
            && (forall e: nat :: e < w.s.currentEra && e in w.s.eraInfo ==>
                                   NothingRoundsUp(w.g.eras[e].stakes, w.s.eraInfo[e].rewards))
            ==> PotCovers(w)
  {
    hide Inv, PaidOk, Positive, NothingRoundsUp, Owed, RewardsBefore, Slack, TotalPaid;
    PotEquation(c, w);
    forall e: nat | e < w.s.currentEra ensures e in w.s.eraInfo && Positive(w.g.eras[e].stakes) {
      PastRecord(c, w, e);
    }
    OwedWithin(w.s.eraInfo, w.g.eras, w.s.currentEra);
    if forall e: nat :: e < w.s.currentEra && e in w.s.eraInfo ==>
                          NothingRoundsUp(w.g.eras[e].stakes, w.s.eraInfo[e].rewards) {
      OwedNoRounding(w.s.eraInfo, w.g.eras, w.s.currentEra);
    }
  }
}
