/** `stake`, `unstake` and the withdrawals keep every view in agreement. */
module LockingSteps {
  import opened Sums
  import opened Arithmetic
  import opened StakerHistory
  import opened Unbonding
  import opened StakingState
  import opened StakingInvariant
  import opened Runs
  import opened Views

  ghost predicate Steady(c: Config, w: World) {
    && c.Valid() && w.s.currentEra >= 1
    && |w.g.eras| == w.s.currentEra + 1
    && Unpaid(w.g.eras[w.s.currentEra])
  }

  // ---------------------------------------------------------------- stake

  lemma StakeChecked(c: Config, s: State, who: AccountId, p: ProviderId, value: nat)
    requires StakeError(c, s, who, p, value).None?
    ensures var h, amount := HistoryOf(s.stakerInfo, Pair(who, p)), StakeAmount(c, s, who, value);
            var next := Staked(h, s.currentEra, amount);
            && IsActive(s.providers, p)
            && 0 < amount <= AvailableBalance(c, s, who)
            && next.Some? && |next.value| < c.maxEraStakeValues && Latest(next.value) >= c.minimumStake
            && (Latest(h) == 0 ==>
                  EntryAt(s.providerStake, Slot(p, s.currentEra)).numberOfStakers < c.maxStakersPerProvider)
  {
    hide Staked, Latest, AvailableBalance;
  }

  /** A stake raises the history's current stake by the staked amount and keeps all earlier eras. */
  lemma StakedKeeps(c: Config, h: History, now: nat, amount: nat)
    requires h == [] || HistoryOk(c, now, h)
    requires now >= 1 && 0 < amount && Latest(h) + amount <= MAX_BALANCE
    requires Staked(h, now, amount).Some? && |Staked(h, now, amount).value| < c.maxEraStakeValues
    ensures var next := Staked(h, now, amount).value;
            && HistoryOk(c, now, next)
            && StakeAt(next, now) == Latest(next) == Latest(h) + amount
            && (forall e: nat :: e < now ==> StakeAt(next, e) == StakeAt(h, e))
  {
    var next := Staked(h, now, amount).value;
    StakeAtLatest(h, now);
    forall e: nat ensures StakeAt(next, e) == if e < now then StakeAt(h, e) else SatAdd(StakeAt(h, e), amount) {
      StakedRefines(h, now, amount, e);
    }
    StakeAtLatest(next, now);
  }

  /** Setting one pair's current stake in every view that lists stakes. */
  lemma SetStakeKeepsStakes(c: Config, w: World, k: Pair, x: nat, h: History, entry: ProviderStakeInfo)
    requires Steady(c, w) && StakesInv(c, w) && IsActive(w.s.providers, k.provider)
    requires h == [] || HistoryOk(c, w.s.currentEra, h)
    requires StakeAt(h, w.s.currentEra) == x
    requires forall e: nat :: e < w.s.currentEra ==> StakeAt(h, e) == StakeAt(HistoryOf(w.s.stakerInfo, k), e)
    requires x == 0 || x >= c.minimumStake
    requires TotalOk(entry, StakedOn(Put(Now(w.g.eras), k, x), k.provider))
    requires |StakedOn(Put(Now(w.g.eras), k, x), k.provider)| <= c.maxStakersPerProvider
    requires entry.rewardClaimed == EntryAt(w.s.providerStake, Slot(k.provider, w.s.currentEra)).rewardClaimed
    ensures StakesInv(c, World(w.s.(stakerInfo := WithHistory(w.s.stakerInfo, k, h),
                                    providerStake := w.s.providerStake[Slot(k.provider, w.s.currentEra) := entry]),
                               SetStake(w.g, k, x)))
  {
    hide HistoriesOk, ListedOk, Denotes, TotalsOk, SlotsOk, FlagsOk, TablesOk, ProvidersOk, HistoryOk, TotalOk,
         StakedOn, StakeAt, EntryAt, HistoryOf, WithHistory;
    var s, g := w.s, w.g;
    ExitedPut(s.providers, Now(g.eras), g.exited, k, x);
    hide ExitedOk, Put;
    ListedPut(s.providers, s.stakerInfo, k, h);
    HistoriesPut(c, s.currentEra, s.stakerInfo, k, h);
    DenotesPut(s.stakerInfo, g.eras, g.exited, k, h, x);
    TotalsPut(s.providers, s.providerStake, g.eras, k, x, entry);
    SlotsPut(s.providers, s.providerStake, g.eras, WithNow(g.eras, Put(Now(g.eras), k, x)), k.provider, entry);
    FlagsPut(s.providerStake, g.eras, Put(Now(g.eras), k, x), k.provider, entry);
    TablesPut(c, s.providers, g.eras, k, x);
  }

  /** Nobody has left an active provider. */
  lemma ExitedPut(providers: Providers, stakes: StakeTable, exited: set<Pair>, k: Pair, x: nat)
    requires ExitedOk(providers, stakes, exited) && IsActive(providers, k.provider)
    ensures k !in exited && ExitedOk(providers, Put(stakes, k, x), exited)
  {
  }

  /** The provider's entry in the current era, as the table sees it. */
  lemma CurrentEntry(c: Config, w: World, k: Pair)
    requires Steady(c, w) && StakesInv(c, w) && IsActive(w.s.providers, k.provider)
    ensures TotalOk(EntryAt(w.s.providerStake, Slot(k.provider, w.s.currentEra)), StakedOn(Now(w.g.eras), k.provider))
    ensures |StakedOn(Now(w.g.eras), k.provider)| <= c.maxStakersPerProvider
    ensures k in Now(w.g.eras) ==> Now(w.g.eras)[k] >= c.minimumStake
    ensures Latest(HistoryOf(w.s.stakerInfo, k)) == Get(Now(w.g.eras), k)
    ensures Get(Now(w.g.eras), k) == 0 <==> k !in Now(w.g.eras)
  {
    hide HistoriesOk, Denotes, SlotsOk, FlagsOk, ProvidersOk, ExitedOk, TotalOk, StakedOn;
    CurrentStake(c, w, k);
    assert Now(w.g.eras) == w.g.eras[w.s.currentEra].stakes;
    assert TableOk(c, w.s.providers, w.g.eras[w.s.currentEra].stakes);
  }

  lemma StakeEntry(c: Config, w: World, who: AccountId, p: ProviderId, value: nat)
    requires Steady(c, w) && StakesInv(c, w) && StakeError(c, w.s, who, p, value).None?
    ensures var k, slot := Pair(who, p), Slot(p, w.s.currentEra);
            var part := StakedOn(Put(Now(w.g.eras), k, Get(Now(w.g.eras), k) + StakeAmount(c, w.s, who, value)), p);
            var entry := StakeEffect(c, w.s, who, p, value).providerStake[slot];
            && TotalOk(entry, part) && |part| <= c.maxStakersPerProvider
            && entry.rewardClaimed == EntryAt(w.s.providerStake, slot).rewardClaimed
  {
    hide StakesInv, Staked, StakedOn, StakeError, WithLedger, WithLock, WithHistory, EraGrown, Put;
    var k := Pair(who, p);
    var x := Get(Now(w.g.eras), k) + StakeAmount(c, w.s, who, value);
    var entry := EntryAt(w.s.providerStake, Slot(p, w.s.currentEra));
    StakeChecked(c, w.s, who, p, value);
    CurrentEntry(c, w, k);
    TotalPut(entry, StakeEffect(c, w.s, who, p, value).providerStake[Slot(p, w.s.currentEra)], Now(w.g.eras), k, x);
  }

  lemma StakeKeepsStakes(c: Config, w: World, who: AccountId, p: ProviderId, value: nat)
    requires Steady(c, w) && StakesInv(c, w) && StakeError(c, w.s, who, p, value).None?
    requires Get(Now(w.g.eras), Pair(who, p)) + StakeAmount(c, w.s, who, value) <= MAX_BALANCE
    ensures StakesInv(c, World(StakeEffect(c, w.s, who, p, value), Track(c, w, Stake(who, p, value))))
  {
    hide HistoriesOk, Denotes, TotalsOk, SlotsOk, FlagsOk, TablesOk, ProvidersOk, ExitedOk, HistoryOk, TotalOk,
         StakedOn, StakeAt, EntryAt, StakeError, Staked, StakeAmount, WithLedger, WithLock, WithHistory, EraGrown,
         Put;
    var s, g, k := w.s, w.g, Pair(who, p);
    var amount := StakeAmount(c, s, who, value);
    var h := HistoryOf(s.stakerInfo, k);
    StakeChecked(c, s, who, p, value);
    CurrentEntry(c, w, k);
    HistoryOkOrEmpty(c, s.currentEra, s.stakerInfo, k);
    StakedKeeps(c, h, s.currentEra, amount);
    StakeEntry(c, w, who, p, value);
    SetStakeKeepsStakes(c, w, k, Get(Now(g.eras), k) + amount, Staked(h, s.currentEra, amount).value,
                        StakeEffect(c, s, who, p, value).providerStake[Slot(p, s.currentEra)]);
  }

  lemma HistoryOkOrEmpty(c: Config, now: nat, stakerInfo: Histories, k: Pair)
    requires HistoriesOk(c, now, stakerInfo)
    ensures HistoryOf(stakerInfo, k) == [] || HistoryOk(c, now, HistoryOf(stakerInfo, k))
  {
  }

  // ---------------------------------------------------------------- funds

  ghost predicate EraMoved(eraInfo: EraInfos, eraInfo': EraInfos, now: nat, staked: int, locked: int) {
    && now in eraInfo
    && eraInfo'.Keys == eraInfo.Keys
    && (forall e :: e in eraInfo && e != now ==> eraInfo'[e] == eraInfo[e])
    && eraInfo'[now].rewards == eraInfo[now].rewards
    && eraInfo'[now].staked == eraInfo[now].staked + staked
    && eraInfo'[now].locked == eraInfo[now].locked + locked
  }

  ghost predicate QueuesMoved(g: Shadow, g': Shadow, who: AccountId) {
    && (forall a :: a != who ==> UnstakedBy(g'.unstaked, a) == UnstakedBy(g.unstaked, a))
    && (forall a :: a != who ==> Get(g'.withdrawn, a) == Get(g.withdrawn, a))
  }

  /** Setting one account's ledger, and one of its stakes, in every view that counts locked funds. */
  lemma SetLedgerKeepsFunds(c: Config, w: World, k: Pair, x: nat, l: AccountLedger, eraInfo: EraInfos, g: Shadow)
    requires Steady(c, w) && FundsInv(c, w)
    requires var was, held := LedgerOf(w.s.ledger, k.staker), Get(Now(w.g.eras), k);
             && l.locked == was.locked - held + x - ChunkSum(was.chunks) + ChunkSum(l.chunks)
             && EraMoved(w.s.eraInfo, eraInfo, w.s.currentEra, x - held, l.locked - was.locked)
    requires l.Empty() || LedgerOk(c, l)
    requires l.locked <= Get(w.s.balances.free, k.staker)
    requires g.eras == WithNow(w.g.eras, Put(Now(w.g.eras), k, x))
    requires QueuesMoved(w.g, g, k.staker)
    requires QueueOk(c, w.s.currentEra, l.chunks, UnstakedBy(g.unstaked, k.staker), Get(g.withdrawn, k.staker))
    ensures FundsInv(c, World(w.s.(ledger := WithLedger(w.s.ledger, k.staker, l),
                                   balances := WithLock(w.s.balances, k.staker, l),
                                   eraInfo := eraInfo), g))
  {
    hide LockedOk, LocksOk, SolventOk, StakedOk, DepositsOk, QueueOk, LedgerOk, Put;
    var s := w.s;
    LockedPut(s.ledger, Now(w.g.eras), k, x, l);
    LocksPut(s.ledger, s.balances, k.staker, l);
    SolventPut(s.ledger, s.balances, k.staker, l);
    StakedPut(s.eraInfo, eraInfo, w.g.eras, k, x);
    LockedAmountsPut(s.ledger, k.staker, l);
    forall a ensures QueueOk(c, s.currentEra, LedgerOf(WithLedger(s.ledger, k.staker, l), a).chunks,
                             UnstakedBy(g.unstaked, a), Get(g.withdrawn, a))
    {
      assert QueueOk(c, s.currentEra, LedgerOf(s.ledger, a).chunks, UnstakedBy(w.g.unstaked, a), Get(w.g.withdrawn, a));
      LedgerPut(s.ledger, k.staker, l, a);
    }
    assert QueuesOk(c, s.currentEra, WithLedger(s.ledger, k.staker, l), g);
    assert LedgersOk(c, WithLedger(s.ledger, k.staker, l));
  }

  /** Nothing that happens to the current era's stakes touches rewards. */
  lemma SetStakeKeepsRewards(c: Config, w: World, s: State, g: Shadow, table: StakeTable)
    requires Steady(c, w) && RewardsInv(c, w)
    requires s.currentEra == w.s.currentEra && s.accumulator == w.s.accumulator && s.balances.free == w.s.balances.free
    requires s.eraInfo.Keys == w.s.eraInfo.Keys
    requires forall e :: e in s.eraInfo ==> s.eraInfo[e].rewards == w.s.eraInfo[e].rewards
    requires g.eras == WithNow(w.g.eras, table) && g.inflow == w.g.inflow && g.potBase == w.g.potBase
    ensures RewardsInv(c, World(s, g))
  {
    PaymentsPut(w.s.eraInfo, s.eraInfo, w.g.eras, table);
    RewardsBeforeAgree(w.s.eraInfo, s.eraInfo, w.s.currentEra);
    TotalPaidNow(w.g.eras, table);
  }

  /** Locked funds never exceed what the currency can represent, even after locking everything available. */
  lemma RoomToLock(c: Config, w: World, who: AccountId, amount: nat)
    requires Steady(c, w) && FundsInv(c, w)
    requires LedgerOf(w.s.ledger, who).locked + amount <= Get(w.s.balances.free, who)
    ensures Sum(Now(w.g.eras)) <= Sum(LockedAmounts(w.s.ledger))
    ensures Sum(LockedAmounts(w.s.ledger)) + amount <= MAX_BALANCE
  {
    hide LedgersOk, StakedOk, CurrentEraOk, QueuesOk, DepositsOk;
    var l := LedgerOf(w.s.ledger, who);
    var l' := l.(locked := l.locked + amount);
    StakesCovered(w.s.ledger, Now(w.g.eras));
    LockedAmountsPut(w.s.ledger, who, l');
    LocksPut(w.s.ledger, w.s.balances, who, l');
    SolventPut(w.s.ledger, w.s.balances, who, l');
    LockedCovered(WithLedger(w.s.ledger, who, l'), WithLock(w.s.balances, who, l'));
  }

  lemma CurrentEraTotals(c: Config, w: World)
    requires Steady(c, w) && FundsInv(c, w)
    ensures var now := w.s.currentEra;
            && now in w.s.eraInfo
            && w.s.eraInfo[now].staked == Sum(Now(w.g.eras))
            && w.s.eraInfo[now].locked == Sum(LockedAmounts(w.s.ledger))
  {
    hide LedgersOk, LockedOk, LocksOk, SolventOk, QueuesOk, DepositsOk;
    assert Now(w.g.eras) == w.g.eras[w.s.currentEra].stakes;
  }

  lemma LedgerFacts(c: Config, w: World, who: AccountId)
    requires w.g.eras != [] && FundsInv(c, w)
    ensures var l := LedgerOf(w.s.ledger, who);
            && l.locked == Sum(StakedBy(Now(w.g.eras), who)) + ChunkSum(l.chunks)
            && l.locked <= Get(w.s.balances.free, who)
            && QueueOk(c, w.s.currentEra, l.chunks, UnstakedBy(w.g.unstaked, who), Get(w.g.withdrawn, who))
            && (l == NO_LEDGER || LedgerOk(c, l))
  {
    hide StakedOk, CurrentEraOk, QueueOk, DepositsOk, LedgerOk, StakedBy;
    assert Get(w.s.balances.locks, who) <= Get(w.s.balances.free, who);
  }

  lemma StakeKeepsFunds(c: Config, w: World, who: AccountId, p: ProviderId, value: nat)
    requires Steady(c, w) && FundsInv(c, w) && StakeError(c, w.s, who, p, value).None?
    ensures FundsInv(c, World(StakeEffect(c, w.s, who, p, value), Track(c, w, Stake(who, p, value))))
    ensures Get(Now(w.g.eras), Pair(who, p)) + StakeAmount(c, w.s, who, value) <= MAX_BALANCE
  {
    hide LedgersOk, LockedOk, LocksOk, SolventOk, StakedOk, CurrentEraOk, QueuesOk, DepositsOk, StakeError, Staked,
         StakeAmount, WithLedger, WithLock, WithHistory, Put, QueueOk, HistoryOf, EntryAt, LedgerOf, StakedBy,
         LockedAmounts;
    var s, g, k := w.s, w.g, Pair(who, p);
    var amount, l := StakeAmount(c, s, who, value), LedgerOf(s.ledger, who);
    StakeChecked(c, s, who, p, value);
    RoomToLock(c, w, who, amount);
    SumPut(Now(g.eras), k, 0);
    CurrentEraTotals(c, w);
    LedgerFacts(c, w, who);
    SetLedgerKeepsFunds(c, w, k, Get(Now(g.eras), k) + amount, l.(locked := l.locked + amount),
                        EraGrown(s.eraInfo, s.currentEra, amount), Track(c, w, Stake(who, p, value)));
  }

  lemma StakeKeepsInv(c: Config, w: World, who: AccountId, p: ProviderId, value: nat)
    requires Inv(c, w) && StakeError(c, w.s, who, p, value).None?
    ensures Inv(c, World(StakeEffect(c, w.s, who, p, value), Track(c, w, Stake(who, p, value))))
  {
    hide StakesInv, FundsInv, StakeError, Staked, StakeAmount, WithLedger, WithHistory, Put, PotOk, InflowOk;
    StakeKeepsFunds(c, w, who, p, value);
    StakeKeepsStakes(c, w, who, p, value);
    var amount := StakeAmount(c, w.s, who, value);
    SetStakeKeepsRewards(c, w, StakeEffect(c, w.s, who, p, value), Track(c, w, Stake(who, p, value)),
                         Put(Now(w.g.eras), Pair(who, p), Get(Now(w.g.eras), Pair(who, p)) + amount));
  }

  // ---------------------------------------------------------------- unstake

  /** What is left after an unstake is nothing or at least the minimum stake. */
  lemma UnstakeChecked(c: Config, s: State, who: AccountId, p: ProviderId, value: nat)
    requires c.minimumStake > 0 && UnstakeError(c, s, who, p, value).None?
    ensures var h, amount := HistoryOf(s.stakerInfo, Pair(who, p)), UnstakeAmount(c, s, who, p, value);
            var next := Unstaked(h, s.currentEra, amount);
            && IsActive(s.providers, p)
            && 0 < amount <= Latest(h)
            && (Latest(h) == amount || Latest(h) - amount >= c.minimumStake)
            && (Latest(h) == amount <==> SatSub(Latest(h), value) < c.minimumStake)
            && next.Some? && |next.value| < c.maxEraStakeValues
            && |Added(LedgerOf(s.ledger, who).chunks, UnstakeChunk(c, s, amount))| <= c.maxUnlockingChunks
  {
    hide Unstaked, Latest, Added;
  }

  lemma UnstakedKeeps(c: Config, h: History, now: nat, amount: nat)
    requires HistoryOk(c, now, h) && amount <= Latest(h)
    requires Unstaked(h, now, amount).Some? && |Unstaked(h, now, amount).value| < c.maxEraStakeValues
    ensures var next := Unstaked(h, now, amount).value;
            && (next == [] || HistoryOk(c, now, next))
            && StakeAt(next, now) == Latest(h) - amount
            && (forall e: nat :: e < now ==> StakeAt(next, e) == StakeAt(h, e))
  {
    StakeAtLatest(h, now);
    forall e: nat ensures StakeAt(Unstaked(h, now, amount).value, e)
                       == if e < now then StakeAt(h, e) else SatSub(StakeAt(h, e), amount)
    {
      UnstakedRefines(h, now, amount, e);
    }
  }

  lemma UnstakeEntry(c: Config, w: World, who: AccountId, p: ProviderId, value: nat)
    requires Steady(c, w) && StakesInv(c, w) && UnstakeError(c, w.s, who, p, value).None?
    ensures var k, slot := Pair(who, p), Slot(p, w.s.currentEra);
            var rest := SatSub(Get(Now(w.g.eras), k), UnstakeAmount(c, w.s, who, p, value));
            var part := StakedOn(Put(Now(w.g.eras), k, rest), p);
            var entry := UnstakeEffect(c, w.s, who, p, value).providerStake[slot];
            && TotalOk(entry, part) && |part| <= c.maxStakersPerProvider
            && entry.rewardClaimed == EntryAt(w.s.providerStake, slot).rewardClaimed
  {
    hide StakesInv, Unstaked, StakedOn, UnstakeError, WithLedger, WithLock, WithHistory, EraShrunk, Put, Added,
         UnstakeAmount;
    var k, amount := Pair(who, p), UnstakeAmount(c, w.s, who, p, value);
    var entry := EntryAt(w.s.providerStake, Slot(p, w.s.currentEra));
    var stakes := Now(w.g.eras);
    UnstakeChecked(c, w.s, who, p, value);
    CurrentEntry(c, w, k);
    PartMember(stakes, k);
    TotalPut(entry, UnstakeEffect(c, w.s, who, p, value).providerStake[Slot(p, w.s.currentEra)], stakes, k,
             Get(stakes, k) - amount);
  }

  lemma PartMember(stakes: StakeTable, k: Pair)
    requires k in stakes
    ensures |StakedOn(stakes, k.provider)| >= 1 && Get(stakes, k) <= Sum(StakedOn(stakes, k.provider))
  {
    assert k in StakedOn(stakes, k.provider).Keys;
    SumPut(StakedOn(stakes, k.provider), k, 0);
  }

  lemma UnstakeKeepsStakes(c: Config, w: World, who: AccountId, p: ProviderId, value: nat)
    requires Steady(c, w) && StakesInv(c, w) && UnstakeError(c, w.s, who, p, value).None?
    ensures StakesInv(c, World(UnstakeEffect(c, w.s, who, p, value), Track(c, w, Unstake(who, p, value))))
  {
    hide HistoriesOk, Denotes, TotalsOk, SlotsOk, FlagsOk, TablesOk, ProvidersOk, ExitedOk, HistoryOk, TotalOk,
         StakedOn, StakeAt, EntryAt, UnstakeError, Unstaked, UnstakeAmount, WithLedger, WithLock, WithHistory,
         EraShrunk, Put, Added;
    var s, g, k := w.s, w.g, Pair(who, p);
    var amount := UnstakeAmount(c, s, who, p, value);
    var h := HistoryOf(s.stakerInfo, k);
    UnstakeChecked(c, s, who, p, value);
    CurrentEntry(c, w, k);
    HistoryOkOrEmpty(c, s.currentEra, s.stakerInfo, k);
    UnstakedKeeps(c, h, s.currentEra, amount);
    UnstakeEntry(c, w, who, p, value);
    SetStakeKeepsStakes(c, w, k, Get(Now(g.eras), k) - amount, Unstaked(h, s.currentEra, amount).value,
                        UnstakeEffect(c, s, who, p, value).providerStake[Slot(p, s.currentEra)]);
  }

  lemma UnstakeQueue(c: Config, now: nat, chunks: Chunks, unstaked: map<nat, nat>, withdrawn: nat, amount: nat)
    requires QueueOk(c, now, chunks, unstaked, withdrawn)
    ensures var next := Added(chunks, UnlockingChunk(amount, now + c.unbondingPeriod));
            QueueOk(c, now, next, unstaked[now := Get(unstaked, now) + amount], withdrawn)
  {
    hide Added, Unlocking, ChunkSum;
    var chunk := UnlockingChunk(amount, now + c.unbondingPeriod);
    var unstaked' := unstaked[now := Get(unstaked, now) + amount];
    SumPut(unstaked, now, Get(unstaked, now) + amount);
    AddedDenotes(chunks, chunk, 0);
    forall x: nat | x > now ensures Unlocking(Added(chunks, chunk), x) == Due(c, unstaked', x) {
      AddedDenotes(chunks, chunk, x);
    }
  }

  lemma UnstakeLedger(c: Config, l: AccountLedger, chunk: UnlockingChunk)
    requires l == NO_LEDGER || LedgerOk(c, l)
    requires 0 < chunk.amount <= l.locked && chunk.unlockEra >= c.unbondingPeriod
    requires |Added(l.chunks, chunk)| <= c.maxUnlockingChunks
    ensures LedgerOk(c, l.(chunks := Added(l.chunks, chunk)))
    ensures ChunkSum(Added(l.chunks, chunk)) == ChunkSum(l.chunks) + chunk.amount
  {
    AddedSorted(l.chunks, chunk);
    AddedElements(l.chunks, chunk, c.unbondingPeriod);
    AddedDenotes(l.chunks, chunk, 0);
  }

  lemma UnstakeKeepsFunds(c: Config, w: World, who: AccountId, p: ProviderId, value: nat)
    requires Steady(c, w) && FundsInv(c, w) && UnstakeError(c, w.s, who, p, value).None?
    requires Latest(HistoryOf(w.s.stakerInfo, Pair(who, p))) == Get(Now(w.g.eras), Pair(who, p))
    ensures FundsInv(c, World(UnstakeEffect(c, w.s, who, p, value), Track(c, w, Unstake(who, p, value))))
  {
    hide LedgersOk, LockedOk, LocksOk, SolventOk, StakedOk, CurrentEraOk, QueuesOk, DepositsOk, UnstakeError,
         Unstaked, UnstakeAmount, WithLedger, WithLock, WithHistory, Put, QueueOk, HistoryOf, EntryAt, LedgerOf,
         StakedBy, LockedAmounts, Added, LedgerOk;
    var s, g, k := w.s, w.g, Pair(who, p);
    var amount, l := UnstakeAmount(c, s, who, p, value), LedgerOf(s.ledger, who);
    var l' := l.(chunks := Added(l.chunks, UnstakeChunk(c, s, amount)));
    UnstakeChecked(c, s, who, p, value);
    SumPut(Now(g.eras), k, 0);
    StakeLocked(Now(g.eras), k);
    CurrentEraTotals(c, w);
    LedgerFacts(c, w, who);
    UnstakeQueue(c, s.currentEra, l.chunks, UnstakedBy(g.unstaked, who), Get(g.withdrawn, who), amount);
    UnstakeLedger(c, l, UnstakeChunk(c, s, amount));
    SetLedgerKeepsFunds(c, w, k, Get(Now(g.eras), k) - amount, l', EraShrunk(s.eraInfo, s.currentEra, amount, 0),
                        Track(c, w, Unstake(who, p, value)));
  }

  lemma StakeLocked(stakes: StakeTable, k: Pair)
    ensures Get(stakes, k) <= Sum(StakedBy(stakes, k.staker))
  {
    SumPartPut(stakes, StakerOf, k.staker, k, 0);
  }

  lemma UnstakeKeepsInv(c: Config, w: World, who: AccountId, p: ProviderId, value: nat)
    requires Inv(c, w) && UnstakeError(c, w.s, who, p, value).None?
    ensures Inv(c, World(UnstakeEffect(c, w.s, who, p, value), Track(c, w, Unstake(who, p, value))))
  {
    hide StakesInv, FundsInv, UnstakeError, Unstaked, UnstakeAmount, WithLedger, WithHistory, Put, PotOk, InflowOk,
         Added;
    var k, amount := Pair(who, p), UnstakeAmount(c, w.s, who, p, value);
    CurrentStake(c, w, k);
    UnstakeKeepsFunds(c, w, who, p, value);
    UnstakeKeepsStakes(c, w, who, p, value);
    SetStakeKeepsRewards(c, w, UnstakeEffect(c, w.s, who, p, value), Track(c, w, Unstake(who, p, value)),
                         Put(Now(w.g.eras), k, SatSub(Get(Now(w.g.eras), k), amount)));
  }
}
