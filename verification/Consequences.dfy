/** What the invariant means for storage alone, for error codes and for the currency. */
module Consequences {
  import opened Options
  import opened Sums
  import opened Arithmetic
  import opened StakerHistory
  import opened Unbonding
  import opened StakingState
  import opened StakingInvariant
  import opened Runs
  import opened Reachability
  import opened Views
  import opened LockingSteps
  import RewardSteps
  import PastEras
  import WithdrawalSteps

  // ---------------------------------------------------------------- storage agrees with itself

  /** The latest staked value of every stored history. */
  function LatestStakes(stakerInfo: Histories): map<Pair, nat> {
    map k | k in stakerInfo :: Latest(stakerInfo[k])
  }

  lemma SumAgree<K>(m: map<K, nat>, n: map<K, nat>)
    requires forall k :: Get(m, k) == Get(n, k)
    ensures Sum(m) == Sum(n)
  {
    forall k | k in m ensures m[k] <= Get(n, k) {
      assert Get(m, k) == Get(n, k);
    }
    forall k | k in n ensures n[k] <= Get(m, k) {
      assert Get(m, k) == Get(n, k);
    }
    SumMonotone(m, n);
    SumMonotone(n, m);
  }

  lemma LatestMatchesTable(c: Config, w: World)
    requires Inv(c, w)
    ensures forall k :: Get(LatestStakes(w.s.stakerInfo), k) == Get(Now(w.g.eras), k)
  {
    hide StakesInv, FundsInv, RewardsInv;
    PastEras.LastRecordUnpaid(c, w);
    forall k ensures Get(LatestStakes(w.s.stakerInfo), k) == Get(Now(w.g.eras), k) {
      CurrentStake(c, w, k);
    }
  }

  lemma PartAgree<K, G>(m: map<K, nat>, n: map<K, nat>, group: K -> G, g: G)
    requires forall k :: Get(m, k) == Get(n, k)
    ensures Sum(Part(m, group, g)) == Sum(Part(n, group, g))
  {
    forall k ensures Get(Part(m, group, g), k) == Get(Part(n, group, g), k) {
      assert Get(m, k) == Get(n, k);
    }
    SumAgree(Part(m, group, g), Part(n, group, g));
  }

  function StakersOn(stakerInfo: Histories, p: ProviderId): set<Pair> {
    set k | k in stakerInfo && k.provider == p && Latest(stakerInfo[k]) > 0
  }

  /** The current totals of an era, a provider and an account are the sums of the same stored histories. */
  lemma StorageAgrees(c: Config, w: World)
    requires Inv(c, w)
    ensures var s, latest := w.s, LatestStakes(w.s.stakerInfo);
            && s.currentEra in s.eraInfo
            && s.eraInfo[s.currentEra].staked == Sum(latest)
            && s.eraInfo[s.currentEra].locked == Sum(LockedAmounts(s.ledger))
            && (forall p :: IsActive(s.providers, p) ==>
                              EntryAt(s.providerStake, Slot(p, s.currentEra)).total == Sum(Part(latest, ProviderOf, p)))
            && (forall a :: LedgerOf(s.ledger, a).locked
                         == Sum(Part(latest, StakerOf, a)) + ChunkSum(LedgerOf(s.ledger, a).chunks))
            && (forall a :: (a in s.balances.locks <==> a in s.ledger)
                         && Get(s.balances.locks, a) == LedgerOf(s.ledger, a).locked)
  {
    hide StakesInv, FundsInv, RewardsInv, LatestStakes, LockedAmounts;
    var s, now, latest := w.s, Now(w.g.eras), LatestStakes(w.s.stakerInfo);
    PastEras.LastRecordUnpaid(c, w);
    LatestMatchesTable(c, w);
    SumAgree(latest, now);
    CurrentEraTotals(c, w);
    LocksMatch(c, w);
    forall p | IsActive(s.providers, p)
      ensures EntryAt(s.providerStake, Slot(p, s.currentEra)).total == Sum(Part(latest, ProviderOf, p))
    {
      CurrentEntry(c, w, Pair(0, p));
      PartAgree(latest, now, ProviderOf, p);
    }
    forall a ensures LedgerOf(s.ledger, a).locked
                  == Sum(Part(latest, StakerOf, a)) + ChunkSum(LedgerOf(s.ledger, a).chunks)
    {
      LedgerFacts(c, w, a);
      PartAgree(latest, now, StakerOf, a);
    }
  }

  lemma LocksMatch(c: Config, w: World)
    requires w.g.eras != [] && FundsInv(c, w)
    ensures forall a :: (a in w.s.balances.locks <==> a in w.s.ledger)
                     && Get(w.s.balances.locks, a) == LedgerOf(w.s.ledger, a).locked
  {
    hide LedgersOk, LockedOk, SolventOk, StakedOk, CurrentEraOk, QueuesOk, DepositsOk;
  }

  ghost predicate CountOk(c: Config, s: State, p: ProviderId) {
    EntryAt(s.providerStake, Slot(p, s.currentEra)).numberOfStakers == |StakersOn(s.stakerInfo, p)|
    <= c.maxStakersPerProvider
  }

  ghost predicate StoredOk(c: Config, s: State, h: History) {
    && |h| < c.maxEraStakeValues
    && (Latest(h) == 0 || Latest(h) >= c.minimumStake)
    && (forall i :: 0 <= i < |h| ==> h[i].era <= s.currentEra)
  }

  /** Staker counts, minimum stakes, history lengths and queue lengths. */
  lemma BoundsHold(c: Config, w: World)
    requires Inv(c, w)
    ensures forall p :: IsActive(w.s.providers, p) ==> CountOk(c, w.s, p)
    ensures forall k :: k in w.s.stakerInfo ==> StoredOk(c, w.s, w.s.stakerInfo[k])
    ensures forall a :: a in w.s.ledger ==> |w.s.ledger[a].chunks| <= c.maxUnlockingChunks
  {
    PastEras.LastRecordUnpaid(c, w);
    LatestMatchesTable(c, w);
    QueueLengths(c, w);
    hide Inv, FundsInv, RewardsInv, StakesInv, LatestStakes, StoredOk;
    forall p | IsActive(w.s.providers, p) ensures CountOk(c, w.s, p) {
      CurrentEntry(c, w, Pair(0, p));
      CountMatches(c, w, p);
    }
    forall k | k in w.s.stakerInfo ensures StoredOk(c, w.s, w.s.stakerInfo[k]) {
      StoredHistory(c, w, k);
    }
  }

  lemma QueueLengths(c: Config, w: World)
    requires w.g.eras != [] && FundsInv(c, w)
    ensures forall a :: a in w.s.ledger ==> |w.s.ledger[a].chunks| <= c.maxUnlockingChunks
  {
    hide LockedOk, LocksOk, SolventOk, StakedOk, CurrentEraOk, QueuesOk, DepositsOk;
  }

  lemma StoredHistory(c: Config, w: World, k: Pair)
    requires Steady(c, w) && StakesInv(c, w) && k in w.s.stakerInfo
    ensures StoredOk(c, w.s, w.s.stakerInfo[k])
  {
    hide TotalsOk, SlotsOk, FlagsOk, ExitedOk, ProvidersOk, Denotes;
    CurrentStake(c, w, k);
    assert TableOk(c, w.s.providers, w.g.eras[w.s.currentEra].stakes);
  }

  lemma CountMatches(c: Config, w: World, p: ProviderId)
    requires Steady(c, w) && StakesInv(c, w)
    requires forall k :: Get(LatestStakes(w.s.stakerInfo), k) == Get(Now(w.g.eras), k)
    ensures |StakersOn(w.s.stakerInfo, p)| == |StakedOn(Now(w.g.eras), p)|
  {
    hide TotalsOk, SlotsOk, FlagsOk, ExitedOk, ProvidersOk, Denotes, HistoriesOk;
    var part := StakedOn(Now(w.g.eras), p);
    assert TableOk(c, w.s.providers, w.g.eras[w.s.currentEra].stakes);
    forall k ensures k in StakersOn(w.s.stakerInfo, p) <==> k in part.Keys {
      assert Get(LatestStakes(w.s.stakerInfo), k) == Get(Now(w.g.eras), k);
    }
    assert StakersOn(w.s.stakerInfo, p) == part.Keys;
  }

  /** Whatever providers one adds up, their stored totals for an era fit in the era's stored total. */
  lemma ProviderTotalsWithinEra(c: Config, w: World, era: nat, totals: map<ProviderId, nat>)
    requires Inv(c, w) && era <= w.s.currentEra
    requires forall p :: p in totals ==> totals[p] == EntryAt(w.s.providerStake, Slot(p, era)).total
    ensures era in w.s.eraInfo && Sum(totals) <= w.s.eraInfo[era].staked
  {
    hide Inv, HistoriesOk, Denotes, FlagsOk, TablesOk, ProvidersOk, ExitedOk, LedgersOk, LockedOk, LocksOk, SolventOk,
         CurrentEraOk, QueuesOk, DepositsOk, RewardsInv;
    PastEras.LastRecordUnpaid(c, w);
    forall p | p in totals ensures totals[p] <= Sum(StakedOn(w.g.eras[era].stakes, p)) {
      var slot := Slot(p, era);
      if slot in w.s.providerStake {
        assert TotalOk(EntryAt(w.s.providerStake, slot), StakedOn(w.g.eras[era].stakes, p));
      }
    }
    GroupsAtLeast(w.g.eras[era].stakes, ProviderOf, totals);
  }

  // ---------------------------------------------------------------- errors that cannot happen

  lemma NoUnexpectedEra(c: Config, w: World, k: Pair, amount: nat)
    requires Steady(c, w) && StakesInv(c, w)
    ensures Staked(HistoryOf(w.s.stakerInfo, k), w.s.currentEra, amount).Some?
    ensures Unstaked(HistoryOf(w.s.stakerInfo, k), w.s.currentEra, amount).Some?
  {
    hide TotalsOk, SlotsOk, FlagsOk, TablesOk, ProvidersOk, ExitedOk, Denotes;
    HistoryOkOrEmpty(c, w.s.currentEra, w.s.stakerInfo, k);
  }

  lemma NoOverflow(c: Config, w: World, who: AccountId, p: ProviderId, amount: nat)
    requires Steady(c, w) && StakesInv(c, w) && FundsInv(c, w)
    requires IsActive(w.s.providers, p) && 0 < amount <= AvailableBalance(c, w.s, who)
    ensures LedgerOf(w.s.ledger, who).locked + amount <= MAX_BALANCE
    ensures EntryAt(w.s.providerStake, Slot(p, w.s.currentEra)).total + amount <= MAX_BALANCE
    ensures w.s.currentEra in w.s.eraInfo
    ensures w.s.eraInfo[w.s.currentEra].staked + amount <= MAX_BALANCE
    ensures w.s.eraInfo[w.s.currentEra].locked + amount <= MAX_BALANCE
    ensures Latest(HistoryOf(w.s.stakerInfo, Pair(who, p))) + amount <= MAX_BALANCE
  {
    hide StakesInv, FundsInv;
    RoomToLock(c, w, who, amount);
    CurrentEraTotals(c, w);
    CurrentEntry(c, w, Pair(who, p));
    SumSplit(Now(w.g.eras), ProviderOf, p);
    SumPut(LockedAmounts(w.s.ledger), who, 0);
    SumPut(Now(w.g.eras), Pair(who, p), 0);
  }

  predicate Impossible(e: Option<Error>) {
    e == Some(UnexpectedStakeInfoEra) || e == Some(UnknownEraReward) || e == Some(Overflow)
  }

  lemma StakePossible(c: Config, w: World, who: AccountId, p: ProviderId, value: nat)
    requires Steady(c, w) && StakesInv(c, w) && FundsInv(c, w)
    ensures !Impossible(StakeError(c, w.s, who, p, value))
  {
    hide StakesInv, FundsInv, AvailableBalance, Staked, Latest, LedgerOf, HistoryOf, EntryAt;
    var amount := StakeAmount(c, w.s, who, value);
    NoUnexpectedEra(c, w, Pair(who, p), amount);
    if IsActive(w.s.providers, p) && amount > 0 {
      NoOverflow(c, w, who, p, amount);
    }
  }

  lemma UnstakePossible(c: Config, w: World, who: AccountId, p: ProviderId, value: nat)
    requires Steady(c, w) && StakesInv(c, w)
    ensures !Impossible(UnstakeError(c, w.s, who, p, value))
  {
    hide StakesInv, UnstakeAmount, Unstaked, Latest, LedgerOf, HistoryOf, Added;
    NoUnexpectedEra(c, w, Pair(who, p), UnstakeAmount(c, w.s, who, p, value));
  }

  lemma ClaimsPossible(c: Config, w: World, who: AccountId, p: ProviderId, era: nat)
    requires Steady(c, w) && FundsInv(c, w)
    ensures !Impossible(ClaimStakerError(c, w.s, who, p)) && !Impossible(ClaimOperatorError(c, w.s, p, era))
  {
    hide FundsInv, StakerReward, OperatorReward, HistoryOf, EntryAt, CanWithdraw;
    AllErasKnown(c, w);
  }

  lemma OthersPossible(c: Config, s: State, ev: Event)
    requires !ev.Stake? && !ev.Unstake? && !ev.ClaimStaker? && !ev.ClaimOperator?
    ensures !Impossible(CallError(c, s, ev))
  {
    hide WithdrawAmount, HistoryOf, Latest, ClaimedEntry, CanWithdraw;
  }

  /** The errors reserved for broken storage, and arithmetic overflow, never come out of a reachable state. */
  lemma ImpossibleErrors(c: Config, w: World, ev: Event)
    requires Inv(c, w)
    ensures !Impossible(CallError(c, w.s, ev))
  {
    hide Inv, StakesInv, FundsInv, RewardsInv, Impossible, StakeError, UnstakeError, ClaimStakerError,
         ClaimOperatorError, WithdrawError, ExitStakerError, ExitOperatorError, RegisterError, UnregisterError;
    PastEras.LastRecordUnpaid(c, w);
    match ev {
      case Stake(who, p, value) => StakePossible(c, w, who, p, value);
      case Unstake(who, p, value) => UnstakePossible(c, w, who, p, value);
      case ClaimStaker(who, p) => ClaimsPossible(c, w, who, p, 0);
      case ClaimOperator(who, p, era) => ClaimsPossible(c, w, who, p, era);
      case _ => OthersPossible(c, w.s, ev);
    }
  }

  lemma AllErasKnown(c: Config, w: World)
    requires Steady(c, w) && FundsInv(c, w)
    ensures forall e: nat :: e <= w.s.currentEra ==> e in w.s.eraInfo
  {
    hide LedgersOk, LockedOk, LocksOk, SolventOk, CurrentEraOk, QueuesOk, DepositsOk;
  }

  /** The same for whole calls, `register` with its nested stake included. */
  lemma ImpossibleOutcomes(c: Config, w: World, ev: Event)
    requires Inv(c, w) && Admissible(c, w, ev)
    ensures c.Valid() && w.g.eras != []
    ensures forall e :: StepOutcome(c, w, ev) == Err(e) ==> !Impossible(Some(e))
  {
    hide StakesInv, FundsInv, RewardsInv, Effect, Track, Admissible, Impossible, CallError, Then;
    ImpossibleErrors(c, w, ev);
    AtomicKeepsInv(c, w, ev);
    if Then(ev, c).Some? {
      var v := Atomic(c, w, ev);
      hide Atomic;
      ImpossibleErrors(c, v, Then(ev, c).value);
    }
  }

  /** A claim that gets past its checks divides by a total that is positive and holds the claimed stake. */
  lemma ClaimTotalPositive(c: Config, w: World, who: AccountId, p: ProviderId)
    requires Inv(c, w) && ClaimStakerError(c, w.s, who, p).None?
    ensures var entry := ClaimedEntry(HistoryOf(w.s.stakerInfo, Pair(who, p)));
            EntryAt(w.s.providerStake, Slot(p, entry.era)).total >= entry.staked > 0
  {
    hide Inv, StakesInv, FundsInv, RewardsInv, StakerReward, HistoryOf, EntryAt, CanWithdraw;
    PastEras.LastRecordUnpaid(c, w);
    var k := Pair(who, p);
    var entry := ClaimedEntry(HistoryOf(w.s.stakerInfo, k));
    RewardSteps.ClaimMatchesTable(c, w, k);
    RewardSteps.TotalsMatchTable(c, w, p, entry.era);
    PartMember(w.g.eras[entry.era].stakes, k);
  }

  // ---------------------------------------------------------------- saturating arithmetic is exact

  /**
    No saturating operation that decides what a successful call writes is ever clipped.  The one that may be clipped,
    the remainder that `unstake` compares with the minimum stake, is so only when the whole stake is taken anyway.
    */
  lemma NothingSaturates(c: Config, w: World, ev: Event)
    requires Inv(c, w) && Admissible(c, w, ev) && CallError(c, w.s, ev).None?
    ensures Exact(c, w.s, ev)
  {
    hide Inv, StakesInv, FundsInv, RewardsInv;
    PastEras.LastRecordUnpaid(c, w);
    match ev {
      case Stake(who, p, value) => StakeExact(c, w, who, p, value);
      case Unstake(who, p, value) => UnstakeExact(c, w, who, p, value);
      case WithdrawUnstaked(who) => WithdrawExact(c, w, who);
      case WithdrawFromUnregisteredStaker(who, p) => ExitExact(c, w, who, p);
      case WithdrawFromUnregisteredOperator(who, p) => ReserveExact(c, w, who, p);
      case Rewards(amount) => RewardsExact(c, w, amount);
      case _ =>
    }
  }

  lemma StakeExact(c: Config, w: World, who: AccountId, p: ProviderId, value: nat)
    requires Steady(c, w) && StakesInv(c, w) && FundsInv(c, w) && StakeError(c, w.s, who, p, value).None?
    ensures Exact(c, w.s, Stake(who, p, value))
  {
    hide StakesInv, FundsInv, StakeError, HistoryOf, Latest, LedgerOf;
    StakeChecked(c, w.s, who, p, value);
    NoOverflow(c, w, who, p, StakeAmount(c, w.s, who, value));
  }

  ghost predicate Exact(c: Config, s: State, ev: Event) {
    match ev
    case Stake(who, p, value) =>
      var amount := StakeAmount(c, s, who, value);
      && s.currentEra in s.eraInfo
      && s.eraInfo[s.currentEra].staked + amount <= MAX_BALANCE
      && s.eraInfo[s.currentEra].locked + amount <= MAX_BALANCE
      && Latest(HistoryOf(s.stakerInfo, Pair(who, p))) + amount <= MAX_BALANCE
      && LedgerOf(s.ledger, who).locked + c.minimumRemaining + amount <= Get(s.balances.free, who)
    case Unstake(who, p, value) =>
      var amount := UnstakeAmount(c, s, who, p, value);
      var entry := EntryAt(s.providerStake, Slot(p, s.currentEra));
      && s.currentEra in s.eraInfo
      && amount <= Latest(HistoryOf(s.stakerInfo, Pair(who, p)))
      && (value > Latest(HistoryOf(s.stakerInfo, Pair(who, p))) ==>
            amount == Latest(HistoryOf(s.stakerInfo, Pair(who, p))))
      && amount <= entry.total && entry.numberOfStakers >= 1
      && amount <= s.eraInfo[s.currentEra].staked
    case WithdrawUnstaked(who) =>
      && s.currentEra in s.eraInfo
      && WithdrawAmount(s, who) <= LedgerOf(s.ledger, who).locked
      && WithdrawAmount(s, who) <= s.eraInfo[s.currentEra].locked
    case WithdrawFromUnregisteredStaker(who, p) =>
      var amount := Latest(HistoryOf(s.stakerInfo, Pair(who, p)));
      && s.currentEra in s.eraInfo
      && amount <= LedgerOf(s.ledger, who).locked
      && amount <= s.eraInfo[s.currentEra].staked && amount <= s.eraInfo[s.currentEra].locked
    case WithdrawFromUnregisteredOperator(who, p) => c.registerDeposit <= Get(s.balances.reserved, who)
    case Register(_, _, deposit) => c.registerDeposit <= deposit
    case Rewards(amount) =>
      var operators := Times(c.operatorRewardParts, amount);
      && operators <= amount
      && s.accumulator.operators + operators <= MAX_BALANCE
      && s.accumulator.stakers + (amount - operators) <= MAX_BALANCE
    case _ => true
  }

  lemma UnstakeExact(c: Config, w: World, who: AccountId, p: ProviderId, value: nat)
    requires Steady(c, w) && StakesInv(c, w) && FundsInv(c, w) && UnstakeError(c, w.s, who, p, value).None?
    ensures Exact(c, w.s, Unstake(who, p, value))
  {
    hide StakesInv, FundsInv, HistoryOf, Latest, EntryAt, UnstakeError;
    UnstakeChecked(c, w.s, who, p, value);
    CurrentEntry(c, w, Pair(who, p));
    PartMember(Now(w.g.eras), Pair(who, p));
    CurrentEraTotals(c, w);
    SumPut(Now(w.g.eras), Pair(who, p), 0);
  }

  lemma WithdrawExact(c: Config, w: World, who: AccountId)
    requires Steady(c, w) && FundsInv(c, w)
    ensures Exact(c, w.s, WithdrawUnstaked(who))
  {
    hide FundsInv, LedgerOf;
    LedgerFacts(c, w, who);
    PartitionSum(LedgerOf(w.s.ledger, who).chunks, w.s.currentEra);
    CurrentEraTotals(c, w);
    WithdrawalSteps.LedgerListed(w.s.ledger, who);
  }

  lemma ExitExact(c: Config, w: World, who: AccountId, p: ProviderId)
    requires Steady(c, w) && StakesInv(c, w) && FundsInv(c, w)
    ensures Exact(c, w.s, WithdrawFromUnregisteredStaker(who, p))
  {
    hide StakesInv, FundsInv, LedgerOf, HistoryOf, Latest;
    var k := Pair(who, p);
    CurrentStake(c, w, k);
    LedgerFacts(c, w, who);
    StakeLocked(Now(w.g.eras), k);
    CurrentEraTotals(c, w);
    SumPut(Now(w.g.eras), k, 0);
    WithdrawalSteps.LedgerListed(w.s.ledger, who);
  }

  lemma ReserveExact(c: Config, w: World, who: AccountId, p: ProviderId)
    requires w.g.eras != [] && FundsInv(c, w) && ExitOperatorError(c, w.s, who, p).None?
    ensures Exact(c, w.s, WithdrawFromUnregisteredOperator(who, p))
  {
    hide LedgersOk, LockedOk, LocksOk, SolventOk, StakedOk, CurrentEraOk, QueuesOk;
    var mine := Holding(w.s.providers, who);
    assert p in mine && |mine| >= 1;
    Scale(1, |mine|, c.registerDeposit);
  }

  lemma RewardsExact(c: Config, w: World, amount: nat)
    requires w.g.eras != [] && c.Valid() && RewardsInv(c, w) && Admissible(c, w, Rewards(amount))
    ensures Exact(c, w.s, Rewards(amount))
  {
    hide PaymentsOk, PotOk;
    TimesAtMost(c.operatorRewardParts, amount);
  }

  // ---------------------------------------------------------------- how much is staked and unstaked

  /**
    A stake locks as much of the requested value as leaves the minimum remaining balance unlocked: it stays above
    that, and stops short of the request only when it reaches it.
    */
  lemma StakeLeavesRemaining(c: Config, s: State, who: AccountId, p: ProviderId, value: nat)
    requires StakeError(c, s, who, p, value).None?
    ensures var s' := StakeEffect(c, s, who, p, value);
            var locked, locked' := LedgerOf(s.ledger, who).locked, LedgerOf(s'.ledger, who).locked;
            && locked < locked' <= locked + value
            && locked' + c.minimumRemaining <= Get(s.balances.free, who)
            && (locked' == locked + value || locked' + c.minimumRemaining == Get(s.balances.free, who))
            && Get(s'.balances.locks, who) == locked'
  {
    hide EraGrown, EntryAt, Staked, Latest;
  }

  /** Exactly when a stake succeeds, in terms of the full stake table. */
  lemma StakeCondition(c: Config, w: World, who: AccountId, p: ProviderId, value: nat)
    requires Inv(c, w)
    ensures var k, amount := Pair(who, p), StakeAmount(c, w.s, who, value);
            var h := HistoryOf(w.s.stakerInfo, k);
            var grows := h == [] || h[|h| - 1].era < w.s.currentEra;
            && w.g.eras != []
            && (StakeError(c, w.s, who, p, value).None?
                <==> && IsActive(w.s.providers, p) && amount > 0
                     && (Get(Now(w.g.eras), k) > 0 || |StakedOn(Now(w.g.eras), p)| < c.maxStakersPerProvider)
                     && |h| + (if grows then 1 else 0) < c.maxEraStakeValues
                     && Get(Now(w.g.eras), k) + amount >= c.minimumStake)
  {
    hide StakesInv, FundsInv, RewardsInv;
    PastEras.LastRecordUnpaid(c, w);
    hide Inv;
    StakePossible(c, w, who, p, value);
    var amount := StakeAmount(c, w.s, who, value);
    NoUnexpectedEra(c, w, Pair(who, p), amount);
    if IsActive(w.s.providers, p) && amount > 0 {
      CurrentEntry(c, w, Pair(who, p));
      NoOverflow(c, w, who, p, amount);
      hide StakedOn, HistoryOf, EntryAt, AvailableBalance;
    } else {
      hide StakedOn, HistoryOf, EntryAt, AvailableBalance, Staked, Latest;
    }
  }

  /**
    An unstake takes exactly the requested value, or the whole stake when less than the minimum would be left; it
    moves that from the stake to the queue and leaves the locked amount alone.
    */
  lemma UnstakeLeavesMinimum(c: Config, w: World, who: AccountId, p: ProviderId, value: nat)
    requires Inv(c, w) && UnstakeError(c, w.s, who, p, value).None?
    ensures w.g.eras != []
    ensures var s' := UnstakeEffect(c, w.s, who, p, value);
            var was, rest := Get(Now(w.g.eras), Pair(who, p)), Latest(HistoryOf(s'.stakerInfo, Pair(who, p)));
            && rest == (if was >= value + c.minimumStake then was - value else 0)
            && LedgerOf(s'.ledger, who).locked == LedgerOf(w.s.ledger, who).locked
            && ChunkSum(LedgerOf(s'.ledger, who).chunks) == ChunkSum(LedgerOf(w.s.ledger, who).chunks) + (was - rest)
  {
    hide StakesInv, FundsInv, RewardsInv;
    PastEras.LastRecordUnpaid(c, w);
    CurrentStake(c, w, Pair(who, p));
    hide Inv;
    UnstakeChecked(c, w.s, who, p, value);
    var amount := UnstakeAmount(c, w.s, who, p, value);
    AddedDenotes(LedgerOf(w.s.ledger, who).chunks, UnstakeChunk(c, w.s, amount), 0);
    hide Added, EraShrunk, EntryAt, ChunkSum, UnstakeError, WithLock, DropZeroHead;
    LatestUnstaked(HistoryOf(w.s.stakerInfo, Pair(who, p)), w.s.currentEra, amount);
  }

  lemma LatestUnstaked(h: History, now: nat, amount: nat)
    requires h != [] && Unstaked(h, now, amount).Some?
    ensures Latest(Unstaked(h, now, amount).value) == SatSub(Latest(h), amount)
  {
  }
}
