/** How each redundant view of the stake tables follows a change of one pair's current stake. */
module Views {
  import opened Sums
  import opened Arithmetic
  import opened StakerHistory
  import opened Unbonding
  import opened StakingState
  import opened StakingInvariant

  // ---------------------------------------------------------------- histories

  /** The last entry of a stored history is the pair's current stake in the full table. */
  lemma CurrentStake(c: Config, w: World, k: Pair)
    requires w.g.eras != [] && |w.g.eras| == w.s.currentEra + 1 && StakesInv(c, w)
    requires Unpaid(w.g.eras[w.s.currentEra])
    ensures Latest(HistoryOf(w.s.stakerInfo, k)) == Get(Now(w.g.eras), k)
  {
    LatestIsCurrent(c, w.s.stakerInfo, w.g.eras, w.g.exited, k);
  }

  lemma LatestIsCurrent(c: Config, stakerInfo: Histories, eras: seq<EraRecord>, exited: set<Pair>, k: Pair)
    requires eras != [] && Unpaid(eras[|eras| - 1])
    requires HistoriesOk(c, |eras| - 1, stakerInfo) && Denotes(stakerInfo, eras, exited)
    requires k in exited ==> k !in Now(eras)
    ensures Latest(HistoryOf(stakerInfo, k)) == Get(Now(eras), k)
  {
    StakeAtLatest(HistoryOf(stakerInfo, k), |eras| - 1);
    assert StakeAt(HistoryOf(stakerInfo, k), |eras| - 1) == Unclaimed(eras, exited, k, |eras| - 1);
  }

  lemma HistoriesPut(c: Config, now: nat, stakerInfo: Histories, k: Pair, h: History)
    requires HistoriesOk(c, now, stakerInfo)
    requires h == [] || HistoryOk(c, now, h)
    ensures HistoriesOk(c, now, WithHistory(stakerInfo, k, h))
  {
  }

  lemma ListedPut(providers: Providers, stakerInfo: Histories, k: Pair, h: History)
    requires ListedOk(providers, stakerInfo) && k.provider in providers
    ensures ListedOk(providers, WithHistory(stakerInfo, k, h))
  {
  }

  lemma DenotesPut(stakerInfo: Histories, eras: seq<EraRecord>, exited: set<Pair>, k: Pair, h: History, x: nat)
    requires eras != [] && Unpaid(eras[|eras| - 1]) && k !in exited
    requires Denotes(stakerInfo, eras, exited)
    requires forall e: nat :: e < |eras| - 1 ==> StakeAt(h, e) == StakeAt(HistoryOf(stakerInfo, k), e)
    requires StakeAt(h, |eras| - 1) == x
    ensures Denotes(WithHistory(stakerInfo, k, h), WithNow(eras, Put(Now(eras), k, x)), exited)
  {
    var stakerInfo', eras' := WithHistory(stakerInfo, k, h), WithNow(eras, Put(Now(eras), k, x));
    forall j, e: nat | e < |eras'| ensures StakeAt(HistoryOf(stakerInfo', j), e) == Unclaimed(eras', exited, j, e) {
      assert StakeAt(HistoryOf(stakerInfo, j), e) == Unclaimed(eras, exited, j, e);
      assert HistoryOf(stakerInfo', j) == if j == k then h else HistoryOf(stakerInfo, j);
    }
  }

  // ---------------------------------------------------------------- provider totals

  lemma TotalPut(entry: ProviderStakeInfo, entry': ProviderStakeInfo, stakes: StakeTable, k: Pair, x: nat)
    requires TotalOk(entry, StakedOn(stakes, k.provider))
    requires entry'.total == entry.total - Get(stakes, k) + x
    requires entry'.numberOfStakers == entry.numberOfStakers - (if k in stakes then 1 else 0) + if x == 0 then 0 else 1
    ensures TotalOk(entry', StakedOn(Put(stakes, k, x), k.provider))
  {
    var part := StakedOn(stakes, k.provider);
    PartPut(stakes, ProviderOf, k.provider, k, x);
    SumPut(part, k, x);
    PutSize(part, k, x);
  }

  lemma TotalsPut(providers: Providers, stakes: ProviderStakes, eras: seq<EraRecord>, k: Pair, x: nat,
                  entry: ProviderStakeInfo)
    requires eras != [] && IsActive(providers, k.provider)
    requires TotalsOk(providers, stakes, eras)
    requires TotalOk(entry, StakedOn(Put(Now(eras), k, x), k.provider))
    ensures TotalsOk(providers, stakes[Slot(k.provider, |eras| - 1) := entry], WithNow(eras, Put(Now(eras), k, x)))
  {
    var eras' := WithNow(eras, Put(Now(eras), k, x));
    var stakes' := stakes[Slot(k.provider, |eras| - 1) := entry];
    forall p, e: nat | e < |eras'| && p in providers && Open(providers[p], e)
      ensures TotalOk(EntryAt(stakes', Slot(p, e)), StakedOn(eras'[e].stakes, p))
    {
      assert TotalOk(EntryAt(stakes, Slot(p, e)), StakedOn(eras[e].stakes, p));
      if e == |eras| - 1 && p != k.provider {
        PartPut(Now(eras), ProviderOf, p, k, x);
      }
    }
  }

  lemma SlotsPut(providers: Providers, stakes: ProviderStakes, eras: seq<EraRecord>, eras': seq<EraRecord>,
                 p: ProviderId, entry: ProviderStakeInfo)
    requires eras != [] && IsActive(providers, p) && |eras| == |eras'|
    requires SlotsOk(providers, stakes, eras)
    ensures SlotsOk(providers, stakes[Slot(p, |eras| - 1) := entry], eras')
  {
  }

  lemma FlagsPut(stakes: ProviderStakes, eras: seq<EraRecord>, table: StakeTable, p: ProviderId,
                 entry: ProviderStakeInfo)
    requires eras != []
    requires FlagsOk(stakes, eras)
    requires entry.rewardClaimed == EntryAt(stakes, Slot(p, |eras| - 1)).rewardClaimed
    ensures FlagsOk(stakes[Slot(p, |eras| - 1) := entry], WithNow(eras, table))
  {
    var stakes', eras' := stakes[Slot(p, |eras| - 1) := entry], WithNow(eras, table);
    forall q, e: nat | e < |eras'|
      ensures EntryAt(stakes', Slot(q, e)).rewardClaimed <==> q in eras'[e].toOperators
    {
      assert EntryAt(stakes, Slot(q, e)).rewardClaimed <==> q in eras[e].toOperators;
    }
  }

  lemma TablesPut(c: Config, providers: Providers, eras: seq<EraRecord>, k: Pair, x: nat)
    requires eras != [] && k.provider in providers
    requires TablesOk(c, providers, eras)
    requires x == 0 || x >= c.minimumStake
    requires |StakedOn(Put(Now(eras), k, x), k.provider)| <= c.maxStakersPerProvider
    ensures TablesOk(c, providers, WithNow(eras, Put(Now(eras), k, x)))
  {
    var table := Put(Now(eras), k, x);
    assert TableOk(c, providers, eras[|eras| - 1].stakes);
    forall p ensures |StakedOn(table, p)| <= c.maxStakersPerProvider {
      assert |StakedOn(Now(eras), p)| <= c.maxStakersPerProvider;
      PartPut(Now(eras), ProviderOf, p, k, x);
    }
  }

  // ---------------------------------------------------------------- ledgers

  lemma LedgerPut(ledger: Ledgers, who: AccountId, l: AccountLedger, a: AccountId)
    ensures LedgerOf(WithLedger(ledger, who, l), a) == if a == who then l else LedgerOf(ledger, a)
  {
  }

  lemma LockedPut(ledger: Ledgers, stakes: StakeTable, k: Pair, x: nat, l: AccountLedger)
    requires LockedOk(ledger, stakes)
    requires var was := LedgerOf(ledger, k.staker);
             l.locked == was.locked - Get(stakes, k) + x - ChunkSum(was.chunks) + ChunkSum(l.chunks)
    ensures LockedOk(WithLedger(ledger, k.staker, l), Put(stakes, k, x))
  {
    forall a ensures LedgerOf(WithLedger(ledger, k.staker, l), a).locked
                  == Sum(StakedBy(Put(stakes, k, x), a)) + ChunkSum(LedgerOf(WithLedger(ledger, k.staker, l), a).chunks)
    {
      LedgerPut(ledger, k.staker, l, a);
      SumPartPut(stakes, StakerOf, a, k, x);
    }
  }

  lemma LocksPut(ledger: Ledgers, b: Balances, who: AccountId, l: AccountLedger)
    requires LocksOk(ledger, b.locks)
    ensures LocksOk(WithLedger(ledger, who, l), WithLock(b, who, l).locks)
  {
  }

  lemma LockedAmountsPut(ledger: Ledgers, who: AccountId, l: AccountLedger)
    ensures Sum(LockedAmounts(WithLedger(ledger, who, l)))
         == Sum(LockedAmounts(ledger)) - LedgerOf(ledger, who).locked + l.locked
  {
    var m := LockedAmounts(ledger);
    assert Get(m, who) == LedgerOf(ledger, who).locked;
    if l.Empty() {
      SumPut(m, who, 0);
      assert LockedAmounts(WithLedger(ledger, who, l)) == Put(m, who, 0);
    } else {
      SumPut(m, who, l.locked);
      assert LockedAmounts(WithLedger(ledger, who, l)) == m[who := l.locked];
    }
  }

  lemma SolventPut(ledger: Ledgers, b: Balances, who: AccountId, l: AccountLedger)
    requires SolventOk(b) && l.locked <= Get(b.free, who)
    ensures SolventOk(WithLock(b, who, l))
  {
  }

  /** All locks together are covered by the free balances. */
  lemma LockedCovered(ledger: Ledgers, b: Balances)
    requires LocksOk(ledger, b.locks) && SolventOk(b)
    ensures Sum(LockedAmounts(ledger)) <= Sum(b.free) <= MAX_BALANCE
  {
    var m := LockedAmounts(ledger);
    forall a | a in m ensures m[a] <= Get(b.free, a) {
      assert Get(b.locks, a) == LedgerOf(ledger, a).locked;
    }
    SumMonotone(m, b.free);
  }

  /** All stakes together are covered by the ledgers. */
  lemma StakesCovered(ledger: Ledgers, stakes: StakeTable)
    requires LockedOk(ledger, stakes)
    ensures Sum(stakes) <= Sum(LockedAmounts(ledger))
  {
    var m := LockedAmounts(ledger);
    forall a ensures Sum(Part(stakes, StakerOf, a)) <= Get(m, a) {
      assert LedgerOf(ledger, a).locked == Sum(StakedBy(stakes, a)) + ChunkSum(LedgerOf(ledger, a).chunks);
    }
    GroupsAtMost(stakes, StakerOf, m);
  }

  // ---------------------------------------------------------------- era totals

  lemma StakedPut(eraInfo: EraInfos, eraInfo': EraInfos, eras: seq<EraRecord>, k: Pair, x: nat)
    requires eras != [] && StakedOk(eraInfo, eras)
    requires var now := |eras| - 1;
             && eraInfo'.Keys == eraInfo.Keys
             && (forall e :: e in eraInfo && e != now ==> eraInfo'[e] == eraInfo[e])
             && eraInfo'[now].staked == eraInfo[now].staked - Get(Now(eras), k) + x
    ensures StakedOk(eraInfo', WithNow(eras, Put(Now(eras), k, x)))
  {
    SumPut(Now(eras), k, x);
  }

  /** Payments for past eras depend on nothing that changes in the current era. */
  lemma PaymentsPut(eraInfo: EraInfos, eraInfo': EraInfos, eras: seq<EraRecord>, table: StakeTable)
    requires PaymentsOk(eraInfo, eras)
    requires forall e :: e in eraInfo && e != |eras| - 1 ==> e in eraInfo' && eraInfo'[e].rewards == eraInfo[e].rewards
    ensures PaymentsOk(eraInfo', WithNow(eras, table))
  {
  }

  lemma {:induction false} RewardsBeforeAgree(eraInfo: EraInfos, eraInfo': EraInfos, n: nat)
    requires forall e: nat :: e < n ==> (e in eraInfo <==> e in eraInfo')
    requires forall e: nat :: e < n && e in eraInfo ==> eraInfo'[e].rewards == eraInfo[e].rewards
    ensures RewardsBefore(eraInfo', n) == RewardsBefore(eraInfo, n)
  {
    if n > 0 {
      RewardsBeforeAgree(eraInfo, eraInfo', n - 1);
    }
  }

  lemma TotalPaidNow(eras: seq<EraRecord>, table: StakeTable)
    requires eras != []
    ensures TotalPaid(WithNow(eras, table)) == TotalPaid(eras)
  {
    var eras' := WithNow(eras, table);
    assert eras'[..|eras'| - 1] == eras[..|eras| - 1];
  }
}
