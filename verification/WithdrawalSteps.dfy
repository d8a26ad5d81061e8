/** `withdraw_unstaked` and `withdraw_from_unregistered_staker` keep every view in agreement. */
module WithdrawalSteps {
  import opened Sums
  import opened Arithmetic
  import opened StakerHistory
  import opened Unbonding
  import opened StakingState
  import opened StakingInvariant
  import opened Runs
  import opened Views
  import opened LockingSteps

  // ---------------------------------------------------------------- withdraw_unstaked

  lemma NowUnchanged(c: Config, providers: Providers, eras: seq<EraRecord>, k: Pair)
    requires eras != [] && c.minimumStake > 0 && TablesOk(c, providers, eras)
    ensures WithNow(eras, Put(Now(eras), k, Get(Now(eras), k))) == eras
  {
    var now := |eras| - 1;
    assert TableOk(c, providers, eras[now].stakes);
    assert Put(Now(eras), k, Get(Now(eras), k)) == Now(eras);
  }

  lemma MaturedQueue(c: Config, now: nat, chunks: Chunks, unstaked: map<nat, nat>, withdrawn: nat)
    requires QueueOk(c, now, chunks, unstaked, withdrawn)
    ensures QueueOk(c, now, Future(chunks, now), unstaked, withdrawn + ChunkSum(Matured(chunks, now)))
  {
    hide ChunkSum, Matured, Future, Unlocking;
    PartitionSum(chunks, now);
    forall x: nat | x > now ensures Unlocking(Future(chunks, now), x) == Due(c, unstaked, x) {
      FutureDenotes(chunks, now, x);
    }
  }

  lemma MaturedLedger(c: Config, l: AccountLedger, now: nat)
    requires LedgerOk(c, l) && ChunkSum(l.chunks) <= l.locked
    ensures var amount := ChunkSum(Matured(l.chunks, now));
            var l' := AccountLedger(SatSub(l.locked, amount), Future(l.chunks, now));
            && amount <= l.locked
            && ChunkSum(l'.chunks) == ChunkSum(l.chunks) - amount
            && (l'.Empty() || LedgerOk(c, l'))
  {
    PartitionSum(l.chunks, now);
    FutureSorted(l.chunks, now);
    FutureDenotes(l.chunks, now, 0);
  }

  lemma WithdrawKeepsFunds(c: Config, w: World, who: AccountId)
    requires Steady(c, w) && StakesInv(c, w) && FundsInv(c, w) && WithdrawError(w.s, who).None?
    ensures FundsInv(c, World(WithdrawEffect(w.s, who), Track(c, w, WithdrawUnstaked(who))))
  {
    hide LedgersOk, LockedOk, LocksOk, SolventOk, StakedOk, CurrentEraOk, QueuesOk, DepositsOk, HistoriesOk, Denotes,
         TotalsOk, SlotsOk, FlagsOk, ExitedOk, ProvidersOk, WithLedger, WithLock, Put, QueueOk, LedgerOf, StakedBy,
         LockedAmounts, Matured, Future, LedgerOk, ChunkSum;
    var s, g, k := w.s, w.g, Pair(who, 0);
    var l := LedgerOf(s.ledger, who);
    LedgerFacts(c, w, who);
    WithdrawHasLedger(s, who);
    MaturedLedger(c, l, s.currentEra);
    MaturedQueue(c, s.currentEra, l.chunks, UnstakedBy(g.unstaked, who), Get(g.withdrawn, who));
    NowUnchanged(c, s.providers, g.eras, k);
    CurrentEraTotals(c, w);
    LedgerListed(s.ledger, who);
    SetLedgerKeepsFunds(c, w, k, Get(Now(g.eras), k),
                        AccountLedger(SatSub(l.locked, WithdrawAmount(s, who)), Future(l.chunks, s.currentEra)),
                        EraShrunk(s.eraInfo, s.currentEra, 0, WithdrawAmount(s, who)),
                        Track(c, w, WithdrawUnstaked(who)));
  }

  lemma WithdrawHasLedger(s: State, who: AccountId)
    requires WithdrawError(s, who).None?
    ensures LedgerOf(s.ledger, who) != NO_LEDGER
  {
  }

  /** One account's lock is part of the global locked total. */
  lemma LedgerListed(ledger: Ledgers, who: AccountId)
    ensures LedgerOf(ledger, who).locked <= Sum(LockedAmounts(ledger))
  {
    SumPut(LockedAmounts(ledger), who, 0);
  }

  lemma WithdrawKeepsInv(c: Config, w: World, who: AccountId)
    requires Inv(c, w) && WithdrawError(w.s, who).None?
    ensures Inv(c, World(WithdrawEffect(w.s, who), Track(c, w, WithdrawUnstaked(who))))
  {
    hide FundsInv, HistoriesOk, Denotes, TotalsOk, SlotsOk, FlagsOk, ExitedOk, ProvidersOk, TablesOk, WithLedger, Put,
         PotOk, InflowOk, WithdrawAmount, WithdrawError;
    WithdrawKeepsFunds(c, w, who);
    NowUnchanged(c, w.s.providers, w.g.eras, Pair(who, 0));
    SetStakeKeepsRewards(c, w, WithdrawEffect(w.s, who), Track(c, w, WithdrawUnstaked(who)), Now(w.g.eras));
  }

  // ---------------------------------------------------------------- withdraw_from_unregistered_staker

  lemma DenotesExit(stakerInfo: Histories, eras: seq<EraRecord>, exited: set<Pair>, k: Pair)
    requires eras != [] && Denotes(stakerInfo, eras, exited)
    ensures Denotes(WithHistory(stakerInfo, k, []), WithNow(eras, Put(Now(eras), k, 0)), exited + {k})
  {
    var stakerInfo', eras' := WithHistory(stakerInfo, k, []), WithNow(eras, Put(Now(eras), k, 0));
    forall j, e: nat | e < |eras'|
      ensures StakeAt(HistoryOf(stakerInfo', j), e) == Unclaimed(eras', exited + {k}, j, e)
    {
      assert StakeAt(HistoryOf(stakerInfo, j), e) == Unclaimed(eras, exited, j, e);
      assert HistoryOf(stakerInfo', j) == if j == k then [] else HistoryOf(stakerInfo, j);
    }
  }

  /** A closed provider has no entry in the current era, so nothing needs adjusting there. */
  lemma TotalsExit(providers: Providers, stakes: ProviderStakes, eras: seq<EraRecord>, k: Pair)
    requires eras != [] && TotalsOk(providers, stakes, eras)
    requires k.provider in providers && !Open(providers[k.provider], |eras| - 1)
    ensures TotalsOk(providers, stakes, WithNow(eras, Put(Now(eras), k, 0)))
  {
    hide TotalOk, EntryAt, Put;
    var eras' := WithNow(eras, Put(Now(eras), k, 0));
    forall p, e: nat | e < |eras'| && p in providers && Open(providers[p], e)
      ensures TotalOk(EntryAt(stakes, Slot(p, e)), StakedOn(eras'[e].stakes, p))
    {
      assert TotalOk(EntryAt(stakes, Slot(p, e)), StakedOn(eras[e].stakes, p));
      PartPut(Now(eras), ProviderOf, p, k, 0);
    }
  }

  lemma ExitKeepsStakes(c: Config, w: World, who: AccountId, p: ProviderId)
    requires Steady(c, w) && StakesInv(c, w) && ExitStakerError(c, w.s, who, p).None?
    ensures StakesInv(c, World(ExitStakerEffect(w.s, who, p), Track(c, w, WithdrawFromUnregisteredStaker(who, p))))
  {
    hide HistoriesOk, ListedOk, Denotes, TotalsOk, SlotsOk, FlagsOk, TablesOk, ProvidersOk, TotalOk, StakedOn,
         StakeAt, EntryAt, WithLedger, WithLock, WithHistory, EraShrunk, TableOk, HistoryOf, Latest;
    var s, g, k := w.s, w.g, Pair(who, p);
    HistoriesPut(c, s.currentEra, s.stakerInfo, k, []);
    ListedPut(s.providers, s.stakerInfo, k, []);
    DenotesExit(s.stakerInfo, g.eras, g.exited, k);
    TotalsExit(s.providers, s.providerStake, g.eras, k);
    var eras' := WithNow(g.eras, Put(Now(g.eras), k, 0));
    SlotsAgree(s.providers, s.providerStake, g.eras, eras');
    FlagsAgree(s.providerStake, g.eras, eras');
    ExitTable(c, s.providers, g.eras, k);
    TablesPut(c, s.providers, g.eras, k, 0);
    assert ExitedOk(s.providers, Now(eras'), g.exited + {k});
  }

  lemma SlotsAgree(providers: Providers, stakes: ProviderStakes, eras: seq<EraRecord>, eras': seq<EraRecord>)
    requires SlotsOk(providers, stakes, eras) && |eras'| >= |eras|
    ensures SlotsOk(providers, stakes, eras')
  {
  }

  lemma FlagsAgree(stakes: ProviderStakes, eras: seq<EraRecord>, eras': seq<EraRecord>)
    requires FlagsOk(stakes, eras) && |eras'| == |eras|
    requires forall e :: 0 <= e < |eras| ==> eras'[e].toOperators == eras[e].toOperators
    ensures FlagsOk(stakes, eras')
  {
    forall p, e: nat | e < |eras'| ensures EntryAt(stakes, Slot(p, e)).rewardClaimed <==> p in eras'[e].toOperators {
      assert EntryAt(stakes, Slot(p, e)).rewardClaimed <==> p in eras[e].toOperators;
    }
  }

  lemma ExitTable(c: Config, providers: Providers, eras: seq<EraRecord>, k: Pair)
    requires eras != [] && TablesOk(c, providers, eras)
    ensures |StakedOn(Put(Now(eras), k, 0), k.provider)| <= c.maxStakersPerProvider
  {
    assert TableOk(c, providers, eras[|eras| - 1].stakes);
    PartPut(Now(eras), ProviderOf, k.provider, k, 0);
    PutSize(StakedOn(Now(eras), k.provider), k, 0);
    assert |StakedOn(Now(eras), k.provider)| <= c.maxStakersPerProvider;
  }

  lemma ExitLedger(c: Config, l: AccountLedger, amount: nat)
    requires LedgerOk(c, l) && amount + ChunkSum(l.chunks) <= l.locked
    ensures var l' := l.(locked := SatSub(l.locked, amount)); l'.Empty() || LedgerOk(c, l')
  {
  }

  lemma ExitKeepsFunds(c: Config, w: World, who: AccountId, p: ProviderId)
    requires Steady(c, w) && FundsInv(c, w) && ExitStakerError(c, w.s, who, p).None?
    requires Latest(HistoryOf(w.s.stakerInfo, Pair(who, p))) == Get(Now(w.g.eras), Pair(who, p))
    ensures FundsInv(c, World(ExitStakerEffect(w.s, who, p), Track(c, w, WithdrawFromUnregisteredStaker(who, p))))
  {
    hide LedgersOk, LockedOk, LocksOk, SolventOk, StakedOk, CurrentEraOk, QueuesOk, DepositsOk, WithLedger, WithLock,
         WithHistory, Put, QueueOk, HistoryOf, Latest, LedgerOf, StakedBy, LockedAmounts, LedgerOk;
    var s, g, k := w.s, w.g, Pair(who, p);
    var amount, l := Get(Now(g.eras), k), LedgerOf(s.ledger, who);
    LedgerFacts(c, w, who);
    StakeLocked(Now(g.eras), k);
    SumPut(Now(g.eras), k, 0);
    CurrentEraTotals(c, w);
    LedgerListed(s.ledger, who);
    ExitLedger(c, l, amount);
    SetLedgerKeepsFunds(c, w, k, 0, l.(locked := SatSub(l.locked, amount)),
                        EraShrunk(s.eraInfo, s.currentEra, amount, amount),
                        Track(c, w, WithdrawFromUnregisteredStaker(who, p)));
  }

  lemma ExitKeepsInv(c: Config, w: World, who: AccountId, p: ProviderId)
    requires Inv(c, w) && ExitStakerError(c, w.s, who, p).None?
    ensures Inv(c, World(ExitStakerEffect(w.s, who, p), Track(c, w, WithdrawFromUnregisteredStaker(who, p))))
  {
    hide StakesInv, FundsInv, ExitStakerError, WithLedger, WithHistory, Put, PotOk, InflowOk;
    var k := Pair(who, p);
    CurrentStake(c, w, k);
    ExitKeepsFunds(c, w, who, p);
    ExitKeepsStakes(c, w, who, p);
    SetStakeKeepsRewards(c, w, ExitStakerEffect(w.s, who, p), Track(c, w, WithdrawFromUnregisteredStaker(who, p)),
                         Put(Now(w.g.eras), k, 0));
  }
}
