/**
  The storage of the staking pallet and its calls as functions on that storage.  Every call is a check, which lists
  the errors in the order the pallet tests them, and an effect, which applies when the check passes.
  */
module StakingState {
  import opened Options
  import opened Sums
  import opened Arithmetic
  import opened StakerHistory
  import opened Unbonding

  type AccountId = nat
  type ProviderId = nat

  datatype Pair = Pair(staker: AccountId, provider: ProviderId)
  datatype Slot = Slot(provider: ProviderId, era: nat)

  function StakerOf(k: Pair): AccountId { k.staker }
  function ProviderOf(k: Pair): ProviderId { k.provider }

  /** The pallet's configuration constants; `pot` is the account derived from its pallet id. */
  datatype Config = Config(
    blocksPerEra: nat,
    operatorRewardParts: nat,
    registerDeposit: nat,
    maxStakersPerProvider: nat,
    minimumStake: nat,
    minimumRemaining: nat,
    maxUnlockingChunks: nat,
    unbondingPeriod: nat,
    maxEraStakeValues: nat,
    pot: AccountId)
  {
    predicate Valid() {
      blocksPerEra > 0 && minimumStake > 0 && operatorRewardParts <= BILLION
    }
  }

  datatype Error =
    | InsufficientValue
    | StakingWithNoValue
    | MaxNumberOfStakersExceeded
    | NotOperatedProvider
    | NotStakedProvider
    | UnknownEraReward
    | UnexpectedStakeInfoEra
    | TooManyEraStakeValues
    | UnclaimedRewardsRemaining
    | UnstakingWithNoValue
    | TooManyUnlockingChunks
    | NothingToWithdraw
    | EraOutOfBounds
    | NotOwnedProvider
    | AlreadyClaimedInThisEra
    | NotUnregisteredProvider
    | AlreadyRegisteredProvider
    | Overflow
    | CurrencyFailure

  datatype Outcome = Ok | Err(error: Error)

  function AsOutcome(e: Option<Error>): Outcome {
    match e
    case None => Ok
    case Some(error) => Err(error)
  }

  // ---------------------------------------------------------------- stored records

  datatype ProviderState = Registered | Unregistered(era: nat)
  datatype ProviderInfo = ProviderInfo(operator: AccountId, state: ProviderState, unreserved: bool)
  datatype RewardInfo = RewardInfo(operators: nat, stakers: nat)
  datatype EraInfo = EraInfo(rewards: RewardInfo, staked: nat, locked: nat)
  datatype ProviderStakeInfo = ProviderStakeInfo(total: nat, numberOfStakers: nat, rewardClaimed: bool)
  datatype AccountLedger = AccountLedger(locked: nat, chunks: Chunks)
  {
    predicate Empty() { locked == 0 && chunks == [] }
  }

  const NO_REWARDS := RewardInfo(0, 0)
  const NO_LEDGER := AccountLedger(0, [])
  const NO_STAKE := ProviderStakeInfo(0, 0, false)

  type Ledgers = map<AccountId, AccountLedger>
  type Histories = map<Pair, History>
  type Providers = map<ProviderId, ProviderInfo>
  type ProviderStakes = map<Slot, ProviderStakeInfo>
  type EraInfos = map<nat, EraInfo>

  function LedgerOf(ledger: Ledgers, who: AccountId): AccountLedger {
    if who in ledger then ledger[who] else NO_LEDGER
  }

  function HistoryOf(stakerInfo: Histories, k: Pair): History {
    if k in stakerInfo then stakerInfo[k] else []
  }

  function EntryAt(stakes: ProviderStakes, slot: Slot): ProviderStakeInfo {
    if slot in stakes then stakes[slot] else NO_STAKE
  }

  // ---------------------------------------------------------------- currency

  /**
    What the pallets see of the currency: free and reserved balances, one staking lock per account, and whatever
    other locks and the existential deposit freeze.
    */
  datatype Balances = Balances(
    free: map<AccountId, nat>,
    reserved: map<AccountId, nat>,
    locks: map<AccountId, nat>,
    frozen: map<AccountId, nat>)

  /** Locks overlay each other: funds may leave the free balance down to the largest of them. */
  predicate CanWithdraw(b: Balances, who: AccountId, amount: nat) {
    amount == 0 || (amount + Get(b.locks, who) <= Get(b.free, who) && amount + Get(b.frozen, who) <= Get(b.free, who))
  }

  function Withdrawn(b: Balances, who: AccountId, amount: nat): Balances {
    b.(free := b.free[who := SatSub(Get(b.free, who), amount)])
  }

  function Deposited(b: Balances, who: AccountId, amount: nat): Balances {
    b.(free := b.free[who := Get(b.free, who) + amount])
  }

  function Reserved(b: Balances, who: AccountId, amount: nat): Balances {
    Withdrawn(b, who, amount).(reserved := b.reserved[who := Get(b.reserved, who) + amount])
  }

  function Unreserved(b: Balances, who: AccountId, amount: nat): Balances {
    var moved := Min(amount, Get(b.reserved, who));
    Deposited(b, who, moved).(reserved := b.reserved[who := Get(b.reserved, who) - moved])
  }

  // ---------------------------------------------------------------- storage

  datatype State = State(
    ledger: Ledgers,
    currentEra: nat,
    accumulator: RewardInfo,
    forceNewEra: bool,
    providers: Providers,
    eraInfo: EraInfos,
    providerStake: ProviderStakes,
    stakerInfo: Histories,
    balances: Balances)

  predicate IsActive(providers: Providers, p: ProviderId) {
    p in providers && providers[p].state == Registered
  }

  function WithLedger(ledger: Ledgers, who: AccountId, l: AccountLedger): Ledgers {
    if l.Empty() then ledger - {who} else ledger[who := l]
  }

  function WithLock(b: Balances, who: AccountId, l: AccountLedger): Balances {
    b.(locks := if l.Empty() then b.locks - {who} else b.locks[who := l.locked])
  }

  function WithHistory(stakerInfo: Histories, k: Pair, h: History): Histories {
    if h == [] then stakerInfo - {k} else stakerInfo[k := h]
  }

  /** `GeneralEraInfo::mutate`: nothing happens when the era has no entry. */
  function EraGrown(eraInfo: EraInfos, era: nat, amount: nat): EraInfos {
    if era !in eraInfo then eraInfo
    else
      var x := eraInfo[era];
      eraInfo[era := x.(staked := SatAdd(x.staked, amount), locked := SatAdd(x.locked, amount))]
  }

  function EraShrunk(eraInfo: EraInfos, era: nat, staked: nat, locked: nat): EraInfos {
    if era !in eraInfo then eraInfo
    else
      var x := eraInfo[era];
      eraInfo[era := x.(staked := SatSub(x.staked, staked), locked := SatSub(x.locked, locked))]
  }

  function AvailableBalance(c: Config, s: State, who: AccountId): nat {
    SatSub(SatSub(Get(s.balances.free, who), c.minimumRemaining), LedgerOf(s.ledger, who).locked)
  }

  // ---------------------------------------------------------------- stake

  function StakeAmount(c: Config, s: State, who: AccountId, value: nat): nat {
    Min(value, AvailableBalance(c, s, who))
  }

  function StakeError(c: Config, s: State, who: AccountId, p: ProviderId, value: nat): Option<Error> {
    var amount := StakeAmount(c, s, who, value);
    var entry := EntryAt(s.providerStake, Slot(p, s.currentEra));
    var h := HistoryOf(s.stakerInfo, Pair(who, p));
    var next := Staked(h, s.currentEra, amount);
    if !IsActive(s.providers, p) then Some(NotOperatedProvider)
    else if amount == 0 then Some(StakingWithNoValue)
    else if Latest(h) == 0 && entry.numberOfStakers >= c.maxStakersPerProvider then Some(MaxNumberOfStakersExceeded)
    else if next.None? then Some(UnexpectedStakeInfoEra)
    else if |next.value| >= c.maxEraStakeValues then Some(TooManyEraStakeValues)
    else if Latest(next.value) < c.minimumStake then Some(InsufficientValue)
    else if LedgerOf(s.ledger, who).locked + amount > MAX_BALANCE then Some(Overflow)
    else if entry.total + amount > MAX_BALANCE then Some(Overflow)
    else None
  }

  function StakeEffect(c: Config, s: State, who: AccountId, p: ProviderId, value: nat): State
    requires StakeError(c, s, who, p, value).None?
  {
    var amount := StakeAmount(c, s, who, value);
    var slot := Slot(p, s.currentEra);
    var entry := EntryAt(s.providerStake, slot);
    var h := HistoryOf(s.stakerInfo, Pair(who, p));
    var l := LedgerOf(s.ledger, who);
    var l' := l.(locked := l.locked + amount);
    var joined := if Latest(h) == 0 then 1 else 0;
    s.(eraInfo := EraGrown(s.eraInfo, s.currentEra, amount),
       ledger := WithLedger(s.ledger, who, l'),
       balances := WithLock(s.balances, who, l'),
       stakerInfo := WithHistory(s.stakerInfo, Pair(who, p), Staked(h, s.currentEra, amount).value),
       providerStake := s.providerStake[slot := entry.(total := entry.total + amount,
                                                       numberOfStakers := entry.numberOfStakers + joined)])
  }

  // ---------------------------------------------------------------- unstake

  /** Leaving less than the minimum stake means leaving altogether. */
  function UnstakeAmount(c: Config, s: State, who: AccountId, p: ProviderId, value: nat): nat {
    var staked := Latest(HistoryOf(s.stakerInfo, Pair(who, p)));
    if SatSub(staked, value) < c.minimumStake then staked else value
  }

  function UnstakeError(c: Config, s: State, who: AccountId, p: ProviderId, value: nat): Option<Error> {
    var h := HistoryOf(s.stakerInfo, Pair(who, p));
    var amount := UnstakeAmount(c, s, who, p, value);
    var next := Unstaked(h, s.currentEra, amount);
    if value == 0 then Some(UnstakingWithNoValue)
    else if !IsActive(s.providers, p) then Some(NotOperatedProvider)
    else if Latest(h) == 0 then Some(NotStakedProvider)
    else if amount == 0 then Some(UnstakingWithNoValue)
    else if next.None? then Some(UnexpectedStakeInfoEra)
    else if |next.value| >= c.maxEraStakeValues then Some(TooManyEraStakeValues)
    else if |Added(LedgerOf(s.ledger, who).chunks, UnstakeChunk(c, s, amount))| > c.maxUnlockingChunks
    then Some(TooManyUnlockingChunks)
    else None
  }

  function UnstakeChunk(c: Config, s: State, amount: nat): UnlockingChunk {
    UnlockingChunk(amount, s.currentEra + c.unbondingPeriod)
  }

  function UnstakeEffect(c: Config, s: State, who: AccountId, p: ProviderId, value: nat): State
    requires UnstakeError(c, s, who, p, value).None?
  {
    var amount := UnstakeAmount(c, s, who, p, value);
    var slot := Slot(p, s.currentEra);
    var entry := EntryAt(s.providerStake, slot);
    var h := HistoryOf(s.stakerInfo, Pair(who, p));
    var l := LedgerOf(s.ledger, who);
    var l' := l.(chunks := Added(l.chunks, UnstakeChunk(c, s, amount)));
    var left := if SatSub(Latest(h), value) < c.minimumStake then 1 else 0;
    s.(ledger := WithLedger(s.ledger, who, l'),
       balances := WithLock(s.balances, who, l'),
       eraInfo := EraShrunk(s.eraInfo, s.currentEra, amount, 0),
       stakerInfo := WithHistory(s.stakerInfo, Pair(who, p), Unstaked(h, s.currentEra, amount).value),
       providerStake := s.providerStake[slot := entry.(total := SatSub(entry.total, amount),
                                                       numberOfStakers := SatSub(entry.numberOfStakers, left))])
  }

  // ---------------------------------------------------------------- withdrawals

  function WithdrawAmount(s: State, who: AccountId): nat {
    ChunkSum(Matured(LedgerOf(s.ledger, who).chunks, s.currentEra))
  }

  function WithdrawError(s: State, who: AccountId): Option<Error> {
    if WithdrawAmount(s, who) == 0 then Some(NothingToWithdraw) else None
  }

  function WithdrawEffect(s: State, who: AccountId): State {
    var amount := WithdrawAmount(s, who);
    var l := LedgerOf(s.ledger, who);
    var l' := AccountLedger(SatSub(l.locked, amount), Future(l.chunks, s.currentEra));
    s.(ledger := WithLedger(s.ledger, who, l'),
       balances := WithLock(s.balances, who, l'),
       eraInfo := EraShrunk(s.eraInfo, s.currentEra, 0, amount))
  }

  function ExitStakerError(c: Config, s: State, who: AccountId, p: ProviderId): Option<Error> {
    var h := HistoryOf(s.stakerInfo, Pair(who, p));
    if p !in s.providers then Some(NotOperatedProvider)
    else if s.providers[p].state.Registered? then Some(NotUnregisteredProvider)
    else
      var unregistered := s.providers[p].state.era;
      if s.currentEra <= unregistered + c.unbondingPeriod then Some(NothingToWithdraw)
      else if Latest(h) == 0 then Some(NotStakedProvider)
      else if ClaimedEntry(h).era < unregistered && ClaimedEntry(h).era != 0 then Some(UnclaimedRewardsRemaining)
      else None
  }

  function ExitStakerEffect(s: State, who: AccountId, p: ProviderId): State {
    var amount := Latest(HistoryOf(s.stakerInfo, Pair(who, p)));
    var l := LedgerOf(s.ledger, who);
    var l' := l.(locked := SatSub(l.locked, amount));
    s.(ledger := WithLedger(s.ledger, who, l'),
       balances := WithLock(s.balances, who, l'),
       stakerInfo := WithHistory(s.stakerInfo, Pair(who, p), []),
       eraInfo := EraShrunk(s.eraInfo, s.currentEra, amount, amount))
  }

  function ExitOperatorError(c: Config, s: State, who: AccountId, p: ProviderId): Option<Error> {
    if p !in s.providers then Some(NotOperatedProvider)
    else if s.providers[p].operator != who then Some(NotOwnedProvider)
    else if s.providers[p].unreserved then Some(NothingToWithdraw)
    else if s.providers[p].state.Registered? then Some(NotUnregisteredProvider)
    else if s.currentEra <= s.providers[p].state.era + c.unbondingPeriod then Some(NothingToWithdraw)
    else None
  }

  function ExitOperatorEffect(c: Config, s: State, who: AccountId, p: ProviderId): State
    requires p in s.providers
  {
    s.(providers := s.providers[p := s.providers[p].(unreserved := true)],
       balances := Unreserved(s.balances, who, c.registerDeposit))
  }

  // ---------------------------------------------------------------- claims

  predicate Claimable(providers: Providers, p: ProviderId, era: nat)
    requires p in providers
  {
    providers[p].state.Unregistered? ==> era < providers[p].state.era
  }

  /** (operator reward, joint stakers reward) */
  function OperatorStakersSplit(entry: ProviderStakeInfo, era: EraInfo): (nat, nat) {
    var portion := FromRational(entry.total, era.staked);
    (Times(portion, era.rewards.operators), Times(portion, era.rewards.stakers))
  }

  function StakerReward(s: State, who: AccountId, p: ProviderId): nat {
    var claim := ClaimedEntry(HistoryOf(s.stakerInfo, Pair(who, p)));
    if claim.era !in s.eraInfo then 0
    else
      var entry := EntryAt(s.providerStake, Slot(p, claim.era));
      Times(FromRational(claim.staked, entry.total), OperatorStakersSplit(entry, s.eraInfo[claim.era]).1)
  }

  function ClaimStakerError(c: Config, s: State, who: AccountId, p: ProviderId): Option<Error> {
    var claim := ClaimedEntry(HistoryOf(s.stakerInfo, Pair(who, p)));
    if claim.staked == 0 then Some(NotStakedProvider)
    else if p !in s.providers || !Claimable(s.providers, p, claim.era) then Some(NotOperatedProvider)
    else if claim.era >= s.currentEra then Some(EraOutOfBounds)
    else if claim.era !in s.eraInfo then Some(UnknownEraReward)
    else if !CanWithdraw(s.balances, c.pot, StakerReward(s, who, p)) then Some(CurrencyFailure)
    else None
  }

  function ClaimStakerEffect(c: Config, s: State, who: AccountId, p: ProviderId): State {
    var amount := StakerReward(s, who, p);
    var k := Pair(who, p);
    s.(balances := Deposited(Withdrawn(s.balances, c.pot, amount), who, amount),
       stakerInfo := WithHistory(s.stakerInfo, k, Claimed(HistoryOf(s.stakerInfo, k))))
  }

  function OperatorReward(s: State, p: ProviderId, era: nat): nat {
    if era !in s.eraInfo then 0
    else OperatorStakersSplit(EntryAt(s.providerStake, Slot(p, era)), s.eraInfo[era]).0
  }

  function ClaimOperatorError(c: Config, s: State, p: ProviderId, era: nat): Option<Error> {
    var entry := EntryAt(s.providerStake, Slot(p, era));
    if p !in s.providers || !Claimable(s.providers, p, era) then Some(NotOperatedProvider)
    else if era >= s.currentEra then Some(EraOutOfBounds)
    else if entry.rewardClaimed then Some(AlreadyClaimedInThisEra)
    else if entry.total == 0 then Some(NotStakedProvider)
    else if era !in s.eraInfo then Some(UnknownEraReward)
    else if !CanWithdraw(s.balances, c.pot, OperatorReward(s, p, era)) then Some(CurrencyFailure)
    else None
  }

  function ClaimOperatorEffect(c: Config, s: State, p: ProviderId, era: nat): State
    requires p in s.providers
  {
    var amount := OperatorReward(s, p, era);
    var slot := Slot(p, era);
    s.(balances := Deposited(Withdrawn(s.balances, c.pot, amount), s.providers[p].operator, amount),
       providerStake := s.providerStake[slot := EntryAt(s.providerStake, slot).(rewardClaimed := true)])
  }

  // ---------------------------------------------------------------- register and unregister

  function RegisterError(c: Config, s: State, operator: AccountId, p: ProviderId, deposit: nat): Option<Error> {
    if p in s.providers then Some(AlreadyRegisteredProvider)
    else if deposit < c.registerDeposit + c.minimumStake then Some(InsufficientValue)
    else if !CanWithdraw(s.balances, operator, c.registerDeposit) then Some(CurrencyFailure)
    else None
  }

  /** The deposit is reserved and the provider inserted before the operator's own stake is attempted. */
  function RegisterEffect(c: Config, s: State, operator: AccountId, p: ProviderId): State {
    s.(balances := Reserved(s.balances, operator, c.registerDeposit),
       providers := s.providers[p := ProviderInfo(operator, Registered, false)])
  }

  function UnregisterError(s: State, p: ProviderId): Option<Error> {
    if IsActive(s.providers, p) then None else Some(NotOperatedProvider)
  }

  function UnregisterEffect(s: State, p: ProviderId): State
    requires p in s.providers
  {
    s.(providers := s.providers[p := s.providers[p].(state := Unregistered(s.currentEra))])
  }

  // ---------------------------------------------------------------- rewards and eras

  function RewardsEffect(c: Config, s: State, amount: nat): State {
    var operators := Times(c.operatorRewardParts, amount);
    s.(accumulator := RewardInfo(SatAdd(s.accumulator.operators, operators),
                                 SatAdd(s.accumulator.stakers, SatSub(amount, operators))),
       balances := Deposited(s.balances, c.pot, amount))
  }

  predicate StartsEra(c: Config, s: State, now: nat)
    requires c.blocksPerEra > 0
  {
    now % c.blocksPerEra == 1 || s.forceNewEra || s.currentEra == 0
  }

  function RewardSnapshot(eraInfo: EraInfos, era: nat, rewards: RewardInfo): EraInfos {
    var x := if era in eraInfo then eraInfo[era] else EraInfo(NO_REWARDS, 0, 0);
    eraInfo[era + 1 := x.(rewards := NO_REWARDS)][era := x.(rewards := rewards)]
  }

  predicate Copied(providers: Providers, stakes: ProviderStakes, era: nat, p: ProviderId) {
    IsActive(providers, p) && Slot(p, era) in stakes
  }

  function RotatedSlots(providers: Providers, stakes: ProviderStakes, era: nat): ProviderStakes {
    map slot | slot in (set p | p in providers && Copied(providers, stakes, era, p) :: Slot(p, era + 1)) ::
      EntryAt(stakes, Slot(slot.provider, era)).(rewardClaimed := false)
  }

  function RotatedStakes(providers: Providers, stakes: ProviderStakes, era: nat): ProviderStakes {
    stakes + RotatedSlots(providers, stakes, era)
  }

  /** `on_initialize` in a block that opens a new era. */
  function NewEraEffect(s: State): State {
    s.(currentEra := s.currentEra + 1,
       accumulator := NO_REWARDS,
       eraInfo := RewardSnapshot(s.eraInfo, s.currentEra, s.accumulator),
       providerStake := RotatedStakes(s.providers, s.providerStake, s.currentEra),
       forceNewEra := false)
  }
}
