/**
  The pallet as it runs: storage maps that calls read, edit in local copies and write back.  Each call is proved to
  be one step of the model, error included.  The ghost field carries the reference model alongside.
  */
module Pallet {
  import opened Sums
  import opened Arithmetic
  import opened StakerHistory
  import opened Unbonding
  import opened StakingState
  import opened StakingInvariant
  import opened Runs
  import opened Reachability

  /** The currency the pallet talks to. */
  class Currency {
    var free: map<AccountId, nat>
    var reserved: map<AccountId, nat>
    var locks: map<AccountId, nat>
    var frozen: map<AccountId, nat>

    function View(): Balances
      reads this
    {
      Balances(free, reserved, locks, frozen)
    }

    constructor (free: map<AccountId, nat>, frozen: map<AccountId, nat>)
      ensures View() == Balances(free, map[], map[], frozen)
    {
      this.free, this.frozen := free, frozen;
      reserved, locks := map[], map[];
    }

    method Withdraw(who: AccountId, amount: nat) returns (ok: bool)
      modifies this
      ensures ok == CanWithdraw(old(View()), who, amount)
      ensures View() == if ok then Withdrawn(old(View()), who, amount) else old(View())
    {
      var balance := Get(free, who);
      ok := amount == 0 || (amount + Get(locks, who) <= balance && amount + Get(frozen, who) <= balance);
      if ok {
        free := free[who := balance - amount];
      }
    }

    method ResolveCreating(who: AccountId, amount: nat)
      modifies this
      ensures View() == Deposited(old(View()), who, amount)
    {
      free := free[who := Get(free, who) + amount];
    }

    method Reserve(who: AccountId, amount: nat) returns (ok: bool)
      modifies this
      ensures ok == CanWithdraw(old(View()), who, amount)
      ensures View() == if ok then StakingState.Reserved(old(View()), who, amount) else old(View())
    {
      ok := Withdraw(who, amount);
      if ok {
        reserved := reserved[who := Get(reserved, who) + amount];
      }
    }

    method Unreserve(who: AccountId, amount: nat)
      modifies this
      ensures View() == Unreserved(old(View()), who, amount)
    {
      var moved := Min(amount, Get(reserved, who));
      reserved := reserved[who := Get(reserved, who) - moved];
      free := free[who := Get(free, who) + moved];
    }

    method SetLock(who: AccountId, amount: nat)
      modifies this
      ensures View() == old(View()).(locks := old(locks)[who := amount])
    {
      locks := locks[who := amount];
    }

    method RemoveLock(who: AccountId)
      modifies this
      ensures View() == old(View()).(locks := old(locks) - {who})
    {
      locks := locks - {who};
    }
  }

  ghost predicate QueuesSorted(ledger: Ledgers) {
    forall a :: a in ledger ==> Sorted(ledger[a].chunks)
  }

  lemma QueuesSortedPut(ledger: Ledgers, who: AccountId, l: AccountLedger)
    requires QueuesSorted(ledger) && Sorted(l.chunks)
    ensures QueuesSorted(WithLedger(ledger, who, l))
  {
  }

  /** The effect of a stake in terms of the records that the call has edited. */
  lemma StakeWrites(c: Config, s: State, who: AccountId, p: ProviderId, value: nat, l: AccountLedger,
                    entry: ProviderStakeInfo)
    requires StakeError(c, s, who, p, value).None?
    requires var amount, k, slot := StakeAmount(c, s, who, value), Pair(who, p), Slot(p, s.currentEra);
             && l == LedgerOf(s.ledger, who).(locked := LedgerOf(s.ledger, who).locked + amount)
             && entry.total == EntryAt(s.providerStake, slot).total + amount
             && entry.numberOfStakers == EntryAt(s.providerStake, slot).numberOfStakers
                                         + (if Latest(HistoryOf(s.stakerInfo, k)) == 0 then 1 else 0)
             && entry.rewardClaimed == EntryAt(s.providerStake, slot).rewardClaimed
    ensures StakeEffect(c, s, who, p, value)
         == s.(eraInfo := EraGrown(s.eraInfo, s.currentEra, StakeAmount(c, s, who, value)),
               ledger := WithLedger(s.ledger, who, l), balances := WithLock(s.balances, who, l),
               stakerInfo := WithHistory(s.stakerInfo, Pair(who, p),
                                         Staked(HistoryOf(s.stakerInfo, Pair(who, p)), s.currentEra,
                                                StakeAmount(c, s, who, value)).value),
               providerStake := s.providerStake[Slot(p, s.currentEra) := entry])
  {
    hide Staked, StakeAmount, HistoryOf, Latest;
  }

  lemma UnstakeWrites(c: Config, s: State, who: AccountId, p: ProviderId, value: nat, l: AccountLedger,
                      entry: ProviderStakeInfo)
    requires UnstakeError(c, s, who, p, value).None?
    requires var amount, k, slot := UnstakeAmount(c, s, who, p, value), Pair(who, p), Slot(p, s.currentEra);
             var was, remaining := LedgerOf(s.ledger, who), SatSub(Latest(HistoryOf(s.stakerInfo, k)), value);
             && l == was.(chunks := Added(was.chunks, UnstakeChunk(c, s, amount)))
             && entry.total == SatSub(EntryAt(s.providerStake, slot).total, amount)
             && entry.numberOfStakers == SatSub(EntryAt(s.providerStake, slot).numberOfStakers,
                                                if remaining < c.minimumStake then 1 else 0)
             && entry.rewardClaimed == EntryAt(s.providerStake, slot).rewardClaimed
    ensures UnstakeEffect(c, s, who, p, value)
         == s.(eraInfo := EraShrunk(s.eraInfo, s.currentEra, UnstakeAmount(c, s, who, p, value), 0),
               ledger := WithLedger(s.ledger, who, l), balances := WithLock(s.balances, who, l),
               stakerInfo := WithHistory(s.stakerInfo, Pair(who, p),
                                         Unstaked(HistoryOf(s.stakerInfo, Pair(who, p)), s.currentEra,
                                                  UnstakeAmount(c, s, who, p, value)).value),
               providerStake := s.providerStake[Slot(p, s.currentEra) := entry])
  {
    hide Unstaked, UnstakeAmount, HistoryOf, Latest, Added;
  }

  class StakingPallet {
    const config: Config
    const currency: Currency

    var ledger: Ledgers
    var currentEra: nat
    var accumulator: RewardInfo
    var forceNewEra: bool
    var providers: Providers
    var eraInfo: EraInfos
    var providerStake: ProviderStakes
    var stakerInfo: Histories

    ghost var shadow: Shadow

    function View(): State
      reads this, currency
    {
      State(ledger, currentEra, accumulator, forceNewEra, providers, eraInfo, providerStake, stakerInfo,
            currency.View())
    }

    ghost function World(): World
      reads this, currency
    {
      StakingInvariant.World(View(), shadow)
    }

    /** What the calls rely on before any run has been considered: sorted queues, as `add` needs them. */
    ghost predicate Ready()
      reads this
    {
      config.Valid() && shadow.eras != [] && QueuesSorted(ledger)
    }

    /** A new chain: the currency may hold funds for anybody, the pot included, but nothing is reserved or locked. */
    constructor (config: Config, currency: Currency)
      requires config.Valid() && currency.reserved == map[] && currency.locks == map[]
      ensures Ready() && this.config == config && this.currency == currency
      ensures World() == Genesis(config, currency.free, currency.frozen)
    {
      this.config, this.currency := config, currency;
      ledger, currentEra, accumulator, forceNewEra := map[], 0, NO_REWARDS, false;
      providers, eraInfo, providerStake, stakerInfo := map[], map[], map[], map[];
      shadow := Shadow([EraRecord(map[], map[], map[], 0)], {}, map[], map[], 0, Get(currency.free, config.pot));
    }

    // -------------------------------------------------------------- internal helpers

    method UpdateLedger(staker: AccountId, l: AccountLedger)
      modifies this`ledger, currency
      ensures ledger == WithLedger(old(ledger), staker, l)
      ensures currency.View() == WithLock(old(currency.View()), staker, l)
    {
      if l.Empty() {
        ledger := ledger - {staker};
        currency.RemoveLock(staker);
      } else {
        currency.SetLock(staker, l.locked);
        ledger := ledger[staker := l];
      }
    }

    method UpdateStakerInfo(staker: AccountId, p: ProviderId, info: StakerInfo)
      modifies this`stakerInfo
      ensures stakerInfo == WithHistory(old(stakerInfo), Pair(staker, p), info.stakes)
    {
      if info.stakes == [] {
        stakerInfo := stakerInfo - {Pair(staker, p)};
      } else {
        stakerInfo := stakerInfo[Pair(staker, p) := info.stakes];
      }
    }

    /** The writes that end `stake` and `unstake`. */
    method StoreStake(staker: AccountId, p: ProviderId, l: AccountLedger, info: StakerInfo, entry: ProviderStakeInfo)
      modifies this`ledger, this`stakerInfo, this`providerStake, currency
      ensures View() == old(View()).(ledger := WithLedger(old(ledger), staker, l),
                                     balances := WithLock(old(currency.View()), staker, l),
                                     stakerInfo := WithHistory(old(stakerInfo), Pair(staker, p), info.stakes),
                                     providerStake := old(providerStake)[Slot(p, currentEra) := entry])
    {
      hide WithLedger, WithLock, WithHistory;
      UpdateLedger(staker, l);
      UpdateStakerInfo(staker, p, info);
      providerStake := providerStake[Slot(p, currentEra) := entry];
    }

    method GrowEra(amount: nat)
      modifies this`eraInfo
      ensures eraInfo == EraGrown(old(eraInfo), currentEra, amount)
    {
      if currentEra in eraInfo {
        var x := eraInfo[currentEra];
        eraInfo := eraInfo[currentEra := x.(staked := SatAdd(x.staked, amount), locked := SatAdd(x.locked, amount))];
      }
    }

    method ShrinkEra(staked: nat, locked: nat)
      modifies this`eraInfo
      ensures eraInfo == EraShrunk(old(eraInfo), currentEra, staked, locked)
    {
      if currentEra in eraInfo {
        var x := eraInfo[currentEra];
        eraInfo := eraInfo[currentEra := x.(staked := SatSub(x.staked, staked), locked := SatSub(x.locked, locked))];
      }
    }

    /** The writes that end an exit: the history goes, and both era totals shrink by the stake. */
    method ReleaseStake(staker: AccountId, p: ProviderId, l: AccountLedger, staked: nat)
      modifies this`ledger, this`stakerInfo, this`eraInfo, currency
      ensures View() == old(View()).(ledger := WithLedger(old(ledger), staker, l),
                                     balances := WithLock(old(currency.View()), staker, l),
                                     stakerInfo := WithHistory(old(stakerInfo), Pair(staker, p), []),
                                     eraInfo := EraShrunk(old(eraInfo), currentEra, staked, staked))
    {
      hide WithLedger, WithLock, WithHistory, EraShrunk;
      UpdateLedger(staker, l);
      var none := new StakerInfo([]);
      UpdateStakerInfo(staker, p, none);
      ShrinkEra(staked, staked);
    }

    // -------------------------------------------------------------- calls

    method Stake(staker: AccountId, p: ProviderId, value: nat) returns (r: Outcome)
      requires Ready()
      modifies this, currency
      ensures Ready()
      ensures World() == Step(config, old(World()), Event.Stake(staker, p, value))
      ensures r == StepOutcome(config, old(World()), Event.Stake(staker, p, value))
    {
      hide Staked, Track, Step, StepOutcome, Atomic, Sorted, Latest, WithLedger, WithLock, WithHistory, StakeEffect,
           EraGrown;
      ghost var before := World();
      SimpleStep(config, before, Event.Stake(staker, p, value));
      if !IsActive(providers, p) {
        return Err(NotOperatedProvider);
      }
      var l := LedgerOf(ledger, staker);
      var available := SatSub(SatSub(Get(currency.free, staker), config.minimumRemaining), l.locked);
      var amount := Min(value, available);
      if amount == 0 {
        return Err(StakingWithNoValue);
      }
      var slot := Slot(p, currentEra);
      var entry := EntryAt(providerStake, slot);
      var info := new StakerInfo(HistoryOf(stakerInfo, Pair(staker, p)));
      if Latest(info.stakes) == 0 && entry.numberOfStakers >= config.maxStakersPerProvider {
        return Err(MaxNumberOfStakersExceeded);
      }
      if Latest(info.stakes) == 0 {
        entry := entry.(numberOfStakers := entry.numberOfStakers + 1);
      }
      var ok := info.Stake(currentEra, amount);
      if !ok {
        return Err(UnexpectedStakeInfoEra);
      }
      if |info.stakes| >= config.maxEraStakeValues {
        return Err(TooManyEraStakeValues);
      }
      if Latest(info.stakes) < config.minimumStake {
        return Err(InsufficientValue);
      }
      if l.locked + amount > MAX_BALANCE {
        return Err(Overflow);
      }
      l := l.(locked := l.locked + amount);
      if entry.total + amount > MAX_BALANCE {
        return Err(Overflow);
      }
      entry := entry.(total := entry.total + amount);
      assert StakeError(config, before.s, staker, p, value).None?;
      StakeWrites(config, before.s, staker, p, value, l, entry);
      GrowEra(amount);
      QueuesSortedPut(ledger, staker, l);
      StoreStake(staker, p, l, info, entry);
      shadow := Track(config, before, Event.Stake(staker, p, value));
      return Ok;
    }

    method Unstake(staker: AccountId, p: ProviderId, value: nat) returns (r: Outcome)
      requires Ready()
      modifies this, currency
      ensures Ready()
      ensures World() == Step(config, old(World()), Event.Unstake(staker, p, value))
      ensures r == StepOutcome(config, old(World()), Event.Unstake(staker, p, value))
    {
      hide Unstaked, Track, Step, StepOutcome, Atomic, Sorted, Latest, WithLedger, WithLock, WithHistory, UnstakeEffect,
           EraShrunk, Added, HistoryOf, EntryAt, LedgerOf, IsActive, QueuesSorted;
      ghost var before := World();
      SimpleStep(config, before, Event.Unstake(staker, p, value));
      if value == 0 {
        return Err(UnstakingWithNoValue);
      }
      if !IsActive(providers, p) {
        return Err(NotOperatedProvider);
      }
      var info := new StakerInfo(HistoryOf(stakerInfo, Pair(staker, p)));
      var staked := Latest(info.stakes);
      if staked == 0 {
        return Err(NotStakedProvider);
      }
      var entry := EntryAt(providerStake, Slot(p, currentEra));
      var remaining := SatSub(staked, value);
      var amount := value;
      if remaining < config.minimumStake {
        entry := entry.(numberOfStakers := SatSub(entry.numberOfStakers, 1));
        amount := staked;
      }
      entry := entry.(total := SatSub(entry.total, amount));
      if amount == 0 {
        return Err(UnstakingWithNoValue);
      }
      var ok := info.Unstake(currentEra, amount);
      if !ok {
        return Err(UnexpectedStakeInfoEra);
      }
      if |info.stakes| >= config.maxEraStakeValues {
        return Err(TooManyEraStakeValues);
      }
      var l := LedgerOf(ledger, staker);
      LedgerSorted(ledger, staker);
      var queue := new UnbondingInfo(l.chunks);
      queue.Add(UnlockingChunk(amount, currentEra + config.unbondingPeriod));
      l := l.(chunks := queue.unlockingChunks);
      if |l.chunks| > config.maxUnlockingChunks {
        return Err(TooManyUnlockingChunks);
      }
      UnstakeWrites(config, before.s, staker, p, value, l, entry);
      ShrinkEra(amount, 0);
      QueuesSortedPut(ledger, staker, l);
      StoreStake(staker, p, l, info, entry);
      shadow := Track(config, before, Event.Unstake(staker, p, value));
      return Ok;
    }

    method WithdrawUnstaked(staker: AccountId) returns (r: Outcome)
      requires Ready()
      modifies this, currency
      ensures Ready()
      ensures World() == Step(config, old(World()), Event.WithdrawUnstaked(staker))
      ensures r == StepOutcome(config, old(World()), Event.WithdrawUnstaked(staker))
    {
      hide Track, Step, StepOutcome, Atomic, Sorted, WithLedger, WithLock, EraShrunk, Matured, Future, ChunkSum;
      ghost var before := World();
      SimpleStep(config, before, Event.WithdrawUnstaked(staker));
      var l := LedgerOf(ledger, staker);
      LedgerSorted(ledger, staker);
      var valid, future := Matured(l.chunks, currentEra), Future(l.chunks, currentEra);
      FutureSorted(l.chunks, currentEra);
      var amount := ChunkSum(valid);
      if amount == 0 {
        return Err(NothingToWithdraw);
      }
      l := AccountLedger(SatSub(l.locked, amount), future);
      QueuesSortedPut(ledger, staker, l);
      UpdateLedger(staker, l);
      ShrinkEra(0, amount);
      shadow := Track(config, before, Event.WithdrawUnstaked(staker));
      return Ok;
    }

    method WithdrawFromUnregisteredStaker(staker: AccountId, p: ProviderId) returns (r: Outcome)
      requires Ready()
      modifies this, currency
      ensures Ready()
      ensures World() == Step(config, old(World()), Event.WithdrawFromUnregisteredStaker(staker, p))
      ensures r == StepOutcome(config, old(World()), Event.WithdrawFromUnregisteredStaker(staker, p))
    {
      hide Track, Step, StepOutcome, Atomic, Sorted, Latest, WithLedger, WithLock, WithHistory, EraShrunk, Claimed;
      ghost var before := World();
      SimpleStep(config, before, Event.WithdrawFromUnregisteredStaker(staker, p));
      if p !in providers {
        return Err(NotOperatedProvider);
      }
      if providers[p].state.Registered? {
        return Err(NotUnregisteredProvider);
      }
      var unregistered := providers[p].state.era;
      if currentEra <= unregistered + config.unbondingPeriod {
        return Err(NothingToWithdraw);
      }
      var info := new StakerInfo(HistoryOf(stakerInfo, Pair(staker, p)));
      var staked := Latest(info.stakes);
      if staked == 0 {
        return Err(NotStakedProvider);
      }
      var claim := info.Claim();
      if claim.era < unregistered && claim.era != 0 {
        return Err(UnclaimedRewardsRemaining);
      }
      var l := LedgerOf(ledger, staker);
      LedgerSorted(ledger, staker);
      l := l.(locked := SatSub(l.locked, staked));
      QueuesSortedPut(ledger, staker, l);
      ReleaseStake(staker, p, l, staked);
      shadow := Track(config, before, Event.WithdrawFromUnregisteredStaker(staker, p));
      return Ok;
    }

    method WithdrawFromUnregisteredOperator(operator: AccountId, p: ProviderId) returns (r: Outcome)
      requires Ready()
      modifies this, currency
      ensures Ready()
      ensures World() == Step(config, old(World()), Event.WithdrawFromUnregisteredOperator(operator, p))
      ensures r == StepOutcome(config, old(World()), Event.WithdrawFromUnregisteredOperator(operator, p))
    {
      hide Track, Step, StepOutcome, Atomic, Sorted;
      ghost var before := World();
      SimpleStep(config, before, Event.WithdrawFromUnregisteredOperator(operator, p));
      if p !in providers {
        return Err(NotOperatedProvider);
      }
      var info := providers[p];
      if info.operator != operator {
        return Err(NotOwnedProvider);
      }
      if info.unreserved {
        return Err(NothingToWithdraw);
      }
      if info.state.Registered? {
        return Err(NotUnregisteredProvider);
      }
      if currentEra <= info.state.era + config.unbondingPeriod {
        return Err(NothingToWithdraw);
      }
      providers := providers[p := info.(unreserved := true)];
      currency.Unreserve(operator, config.registerDeposit);
      shadow := Track(config, before, Event.WithdrawFromUnregisteredOperator(operator, p));
      return Ok;
    }

    method ClaimStaker(staker: AccountId, p: ProviderId) returns (r: Outcome)
      requires Ready()
      modifies this, currency
      ensures Ready()
      ensures World() == Step(config, old(World()), Event.ClaimStaker(staker, p))
      ensures r == StepOutcome(config, old(World()), Event.ClaimStaker(staker, p))
    {
      hide Track, Step, StepOutcome, Atomic, Sorted, WithHistory, Claimed, FromRational, Times;
      ghost var before := World();
      SimpleStep(config, before, Event.ClaimStaker(staker, p));
      var info := new StakerInfo(HistoryOf(stakerInfo, Pair(staker, p)));
      var claim := info.Claim();
      if claim.staked == 0 {
        return Err(NotStakedProvider);
      }
      if p !in providers {
        return Err(NotOperatedProvider);
      }
      if providers[p].state.Unregistered? && claim.era >= providers[p].state.era {
        return Err(NotOperatedProvider);
      }
      if claim.era >= currentEra {
        return Err(EraOutOfBounds);
      }
      var entry := EntryAt(providerStake, Slot(p, claim.era));
      if claim.era !in eraInfo {
        return Err(UnknownEraReward);
      }
      var split := OperatorStakersSplit(entry, eraInfo[claim.era]);
      var reward := Times(FromRational(claim.staked, entry.total), split.1);
      var ok := currency.Withdraw(config.pot, reward);
      if !ok {
        return Err(CurrencyFailure);
      }
      currency.ResolveCreating(staker, reward);
      UpdateStakerInfo(staker, p, info);
      shadow := Track(config, before, Event.ClaimStaker(staker, p));
      return Ok;
    }

    method ClaimOperator(caller: AccountId, p: ProviderId, era: nat) returns (r: Outcome)
      requires Ready()
      modifies this, currency
      ensures Ready()
      ensures World() == Step(config, old(World()), Event.ClaimOperator(caller, p, era))
      ensures r == StepOutcome(config, old(World()), Event.ClaimOperator(caller, p, era))
    {
      hide Track, Step, StepOutcome, Atomic, Sorted, FromRational, Times;
      ghost var before := World();
      SimpleStep(config, before, Event.ClaimOperator(caller, p, era));
      if p !in providers {
        return Err(NotOperatedProvider);
      }
      if providers[p].state.Unregistered? && era >= providers[p].state.era {
        return Err(NotOperatedProvider);
      }
      if era >= currentEra {
        return Err(EraOutOfBounds);
      }
      var entry := EntryAt(providerStake, Slot(p, era));
      if entry.rewardClaimed {
        return Err(AlreadyClaimedInThisEra);
      }
      if entry.total == 0 {
        return Err(NotStakedProvider);
      }
      if era !in eraInfo {
        return Err(UnknownEraReward);
      }
      var reward := OperatorStakersSplit(entry, eraInfo[era]).0;
      var ok := currency.Withdraw(config.pot, reward);
      if !ok {
        return Err(CurrencyFailure);
      }
      currency.ResolveCreating(providers[p].operator, reward);
      providerStake := providerStake[Slot(p, era) := entry.(rewardClaimed := true)];
      shadow := Track(config, before, Event.ClaimOperator(caller, p, era));
      return Ok;
    }

    // -------------------------------------------------------------- called by the dAPI pallet

    /** A failing stake leaves the reserved deposit and the new provider in place. */
    method Register(operator: AccountId, p: ProviderId, deposit: nat) returns (r: Outcome)
      requires Ready()
      modifies this, currency
      ensures Ready()
      ensures World() == Step(config, old(World()), Event.Register(operator, p, deposit))
      ensures r == StepOutcome(config, old(World()), Event.Register(operator, p, deposit))
    {
      hide Track, Step, StepOutcome, Sorted;
      RegisterStepIsStake(config, World(), operator, p, deposit);
      if p in providers {
        return Err(AlreadyRegisteredProvider);
      }
      if deposit < config.registerDeposit + config.minimumStake {
        return Err(InsufficientValue);
      }
      var ok := currency.Reserve(operator, config.registerDeposit);
      if !ok {
        return Err(CurrencyFailure);
      }
      providers := providers[p := ProviderInfo(operator, Registered, false)];
      r := Stake(operator, p, SatSub(deposit, config.registerDeposit));
    }

    method Unregister(p: ProviderId) returns (r: Outcome)
      requires Ready()
      modifies this, currency
      ensures Ready()
      ensures World() == Step(config, old(World()), Event.Unregister(p))
      ensures r == StepOutcome(config, old(World()), Event.Unregister(p))
    {
      hide Track, Step, StepOutcome, Atomic, Sorted;
      ghost var before := World();
      SimpleStep(config, before, Event.Unregister(p));
      if p !in providers {
        return Err(NotOperatedProvider);
      }
      if providers[p].state != Registered {
        return Err(NotOperatedProvider);
      }
      providers := providers[p := providers[p].(state := Unregistered(currentEra))];
      shadow := Track(config, before, Event.Unregister(p));
      return Ok;
    }

    // -------------------------------------------------------------- rewards and eras

    method Rewards(amount: nat)
      requires Ready()
      modifies this, currency
      ensures Ready()
      ensures World() == Step(config, old(World()), Event.Rewards(amount))
    {
      hide Track, Step, StepOutcome, Atomic, Sorted, Times;
      ghost var before := World();
      SimpleStep(config, before, Event.Rewards(amount));
      var operators := Times(config.operatorRewardParts, amount);
      var stakers := SatSub(amount, operators);
      accumulator := RewardInfo(SatAdd(accumulator.operators, operators), SatAdd(accumulator.stakers, stakers));
      currency.ResolveCreating(config.pot, amount);
      shadow := Track(config, before, Event.Rewards(amount));
    }

    method ForceNewEra()
      requires Ready()
      modifies this, currency
      ensures Ready()
      ensures World() == Step(config, old(World()), Event.ForceNewEra)
    {
      hide Track, Step, StepOutcome, Atomic, Sorted;
      ghost var before := World();
      SimpleStep(config, before, Event.ForceNewEra);
      forceNewEra := true;
      shadow := Track(config, before, Event.ForceNewEra);
    }

    method RewardBalanceSnapshot(era: nat, rewards: RewardInfo)
      modifies this`eraInfo
      ensures eraInfo == RewardSnapshot(old(eraInfo), era, rewards)
    {
      var info := if era in eraInfo then eraInfo[era] else EraInfo(NO_REWARDS, 0, 0);
      eraInfo := eraInfo[era + 1 := EraInfo(NO_REWARDS, info.staked, info.locked)];
      eraInfo := eraInfo[era := info.(rewards := rewards)];
    }

    /** Storage iteration visits the providers in some order; the result does not depend on it. */
    method RotateStakingInfo(era: nat)
      modifies this`providerStake
      ensures providerStake == RotatedStakes(providers, old(providerStake), era)
    {
      ghost var stakes := providerStake;
      var rest := providers.Keys;
      while rest != {}
        invariant rest <= providers.Keys
        invariant forall slot :: EntryAt(providerStake, slot)
                              == if && slot.era == era + 1 && slot.provider !in rest
                                    && Copied(providers, stakes, era, slot.provider)
                                 then EntryAt(stakes, Slot(slot.provider, era)).(rewardClaimed := false)
                                 else EntryAt(stakes, slot)
        invariant forall slot :: slot in providerStake <==>
                              slot in stakes
                              || (&& slot.era == era + 1 && slot.provider !in rest
                                  && Copied(providers, stakes, era, slot.provider))
        decreases rest
      {
        var p :| p in rest;
        rest := rest - {p};
        if providers[p].state.Unregistered? {
          continue;
        }
        if Slot(p, era) in providerStake {
          var entry := providerStake[Slot(p, era)];
          providerStake := providerStake[Slot(p, era + 1) := entry.(rewardClaimed := false)];
        }
      }
      RotatedExtensional(providers, stakes, era, providerStake);
    }

    method OnInitialize(now: nat)
      requires Ready()
      modifies this, currency
      ensures Ready()
      ensures World() == Step(config, old(World()), Event.OnInitialize(now))
    {
      hide Track, Step, StepOutcome, Atomic, Sorted, RewardSnapshot, RotatedStakes;
      ghost var before := World();
      SimpleStep(config, before, Event.OnInitialize(now));
      var force, previous := forceNewEra, currentEra;
      if now % config.blocksPerEra == 1 || force || previous == 0 {
        currentEra := previous + 1;
        var reward := accumulator;
        accumulator := NO_REWARDS;
        RewardBalanceSnapshot(previous, reward);
        RotateStakingInfo(previous);
        if force {
          forceNewEra := false;
        }
      }
      shadow := Track(config, before, Event.OnInitialize(now));
    }
  }

  /** A chain's first block: from here on every call of the pallet starts and ends in a state of `ReachableInv`. */
  method Launch(config: Config, free: map<AccountId, nat>, frozen: map<AccountId, nat>, now: nat)
    returns (pallet: StakingPallet)
    requires config.Valid() && Sum(free) <= MAX_BALANCE
    ensures fresh(pallet) && fresh(pallet.currency) && pallet.config == config && pallet.Ready()
    ensures pallet.World() == Step(config, Genesis(config, free, frozen), Event.OnInitialize(now))
    ensures Inv(config, pallet.World())
  {
    hide Inv, Step, Genesis;
    var currency := new Currency(free, frozen);
    pallet := new StakingPallet(config, currency);
    pallet.OnInitialize(now);
    FirstBlock(config, free, frozen, now);
  }

  lemma LedgerSorted(ledger: Ledgers, who: AccountId)
    requires QueuesSorted(ledger)
    ensures Sorted(LedgerOf(ledger, who).chunks)
  {
  }

  lemma RotatedExtensional(providers: Providers, stakes: ProviderStakes, era: nat, stakes': ProviderStakes)
    requires forall slot :: EntryAt(stakes', slot)
                         == if slot.era == era + 1 && Copied(providers, stakes, era, slot.provider)
                            then EntryAt(stakes, Slot(slot.provider, era)).(rewardClaimed := false)
                            else EntryAt(stakes, slot)
    requires forall slot :: slot in stakes' <==>
                         slot in stakes || (slot.era == era + 1 && Copied(providers, stakes, era, slot.provider))
    ensures stakes' == RotatedStakes(providers, stakes, era)
  {
  }
}
