/** Stake, unstake everything, wait, withdraw: a fresh staker leaves no trace. */
module RoundTrip {
  import opened Options
  import opened Sums
  import opened StakerHistory
  import opened Unbonding
  import opened StakingState
  import opened StakingInvariant
  import opened Runs
  import opened Reachability
  import opened Views
  import opened LockingSteps
  import PastEras

  // ---------------------------------------------------------------- waiting

  ghost predicate OnlyBlocks(evs: seq<Event>) {
    forall i :: 0 <= i < |evs| ==> evs[i].OnInitialize?
  }

  /** Nothing but time has passed between `w` and `w'`. */
  ghost predicate Waited(w: World, w': World) {
    && w.g.eras != [] && w'.g.eras != []
    && w'.s.ledger == w.s.ledger && w'.s.stakerInfo == w.s.stakerInfo && w'.s.balances == w.s.balances
    && w'.s.providers == w.s.providers && Now(w'.g.eras) == Now(w.g.eras) && w'.s.currentEra >= w.s.currentEra
  }

  lemma BlockWaits(c: Config, w: World, now: nat)
    requires c.Valid() && w.g.eras != []
    ensures Waited(w, Step(c, w, OnInitialize(now)))
  {
    hide RotatedStakes, RewardSnapshot;
  }

  lemma {:induction false} BlocksWait(c: Config, w: World, evs: seq<Event>)
    requires c.Valid() && w.g.eras != [] && OnlyBlocks(evs)
    ensures Waited(w, Execute(c, w, evs)) && AdmissibleRun(c, w, evs)
    decreases |evs|
  {
    hide Step;
    if evs != [] {
      BlockWaits(c, w, evs[0].now);
      BlocksWait(c, Step(c, w, evs[0]), evs[1..]);
    }
  }

  // ---------------------------------------------------------------- what belongs to the pair

  /** Between `s` and `s'` only the staker's ledger and lock and the pair's history have changed, and stake totals. */
  ghost predicate OnlyMine(s: State, s': State, k: Pair) {
    && s'.ledger - {k.staker} == s.ledger - {k.staker}
    && s'.stakerInfo - {k} == s.stakerInfo - {k}
    && s'.balances.locks - {k.staker} == s.balances.locks - {k.staker}
    && s'.balances == s.balances.(locks := s'.balances.locks)
    && s'.providers == s.providers
  }

  lemma WritesMine(s: State, k: Pair, l: AccountLedger, h: History)
    ensures WithLedger(s.ledger, k.staker, l) - {k.staker} == s.ledger - {k.staker}
    ensures WithHistory(s.stakerInfo, k, h) - {k} == s.stakerInfo - {k}
    ensures WithLock(s.balances, k.staker, l).locks - {k.staker} == s.balances.locks - {k.staker}
  {
  }

  /** A pair that has nothing before and nothing after has everything as it was. */
  lemma MineGone(s: State, s': State, k: Pair)
    requires OnlyMine(s, s', k)
    requires k.staker !in s.ledger && k.staker !in s'.ledger && k !in s.stakerInfo && k !in s'.stakerInfo
    requires k.staker !in s.balances.locks && k.staker !in s'.balances.locks
    ensures s'.ledger == s.ledger && s'.stakerInfo == s.stakerInfo && s'.balances == s.balances
  {
    assert s.ledger - {k.staker} == s.ledger && s'.ledger - {k.staker} == s'.ledger;
    assert s.stakerInfo - {k} == s.stakerInfo && s'.stakerInfo - {k} == s'.stakerInfo;
    assert s.balances.locks - {k.staker} == s.balances.locks && s'.balances.locks - {k.staker} == s'.balances.locks;
  }

  lemma NothingStored(c: Config, w: World, k: Pair)
    requires w.g.eras != [] && StakesInv(c, w) && FundsInv(c, w)
    requires LedgerOf(w.s.ledger, k.staker) == NO_LEDGER && HistoryOf(w.s.stakerInfo, k) == []
    ensures k.staker !in w.s.ledger && k.staker !in w.s.balances.locks && k !in w.s.stakerInfo
  {
    hide ListedOk, Denotes, TotalsOk, SlotsOk, FlagsOk, TablesOk, ProvidersOk, ExitedOk,
         LockedOk, SolventOk, StakedOk, CurrentEraOk, QueuesOk, DepositsOk;
  }

  // ---------------------------------------------------------------- the trip

  lemma FreshStakeEffect(c: Config, w: World, who: AccountId, p: ProviderId, value: nat)
    requires c.Valid() && w.g.eras != [] && StakeError(c, w.s, who, p, value).None?
    requires LedgerOf(w.s.ledger, who) == NO_LEDGER && HistoryOf(w.s.stakerInfo, Pair(who, p)) == []
    requires Get(Now(w.g.eras), Pair(who, p)) == 0
    ensures var w', k, amount := Atomic(c, w, Stake(who, p, value)), Pair(who, p), StakeAmount(c, w.s, who, value);
            && 0 < amount <= value && c.maxEraStakeValues > 1
            && w'.s.currentEra == w.s.currentEra && w'.s.providers == w.s.providers && IsActive(w.s.providers, p)
            && HistoryOf(w'.s.stakerInfo, k) == [EraStake(amount, w.s.currentEra)]
            && LedgerOf(w'.s.ledger, who) == AccountLedger(amount, [])
            && Now(w'.g.eras) == Put(Now(w.g.eras), k, amount)
            && OnlyMine(w.s, w'.s, k)
  {
    hide EraGrown, AvailableBalance, Put, EntryAt;
    var amount := StakeAmount(c, w.s, who, value);
    WritesMine(w.s, Pair(who, p), AccountLedger(amount, []), [EraStake(amount, w.s.currentEra)]);
  }

  lemma FreshStake(c: Config, w: World, who: AccountId, p: ProviderId, value: nat)
    requires Inv(c, w) && who != c.pot && StakeError(c, w.s, who, p, value).None?
    requires LedgerOf(w.s.ledger, who) == NO_LEDGER && HistoryOf(w.s.stakerInfo, Pair(who, p)) == []
    ensures var w', k, amount := Step(c, w, Stake(who, p, value)), Pair(who, p), StakeAmount(c, w.s, who, value);
            && Inv(c, w') && 0 < amount <= value
            && w'.s.currentEra == w.s.currentEra && IsActive(w'.s.providers, p)
            && HistoryOf(w'.s.stakerInfo, k) == [EraStake(amount, w.s.currentEra)]
            && LedgerOf(w'.s.ledger, who) == AccountLedger(amount, [])
            && Now(w'.g.eras) == Put(Now(w.g.eras), k, amount) && k !in Now(w.g.eras)
            && c.maxEraStakeValues > 1 && OnlyMine(w.s, w'.s, k)
  {
    hide Inv, StakesInv, FundsInv, RewardsInv, StakeAmount, Atomic, Step, StakeError, OnlyMine;
    InvBasics(c, w);
    PastEras.LastRecordUnpaid(c, w);
    StakeNeedsActive(c, w.s, who, p, value);
    CurrentEntry(c, w, Pair(who, p));
    SimpleStep(c, w, Stake(who, p, value));
    AtomicKeepsInv(c, w, Stake(who, p, value));
    FreshStakeEffect(c, w, who, p, value);
  }

  lemma FullUnstake(c: Config, w: World, who: AccountId, p: ProviderId, amount: nat, value: nat)
    requires Inv(c, w) && who != c.pot && IsActive(w.s.providers, p) && 0 < amount <= value
    requires HistoryOf(w.s.stakerInfo, Pair(who, p)) == [EraStake(amount, w.s.currentEra)]
    requires LedgerOf(w.s.ledger, who) == AccountLedger(amount, [])
    requires c.maxUnlockingChunks >= 1 && c.maxEraStakeValues > 1
    ensures var ev, w' := Unstake(who, p, value), Step(c, w, Unstake(who, p, value));
            && StepOutcome(c, w, ev) == Ok && Inv(c, w')
            && w'.s.currentEra == w.s.currentEra && w'.s.providers == w.s.providers
            && Pair(who, p) !in w'.s.stakerInfo
            && LedgerOf(w'.s.ledger, who)
            == AccountLedger(amount, [UnlockingChunk(amount, w.s.currentEra + c.unbondingPeriod)])
            && Now(w'.g.eras) == Now(w.g.eras) - {Pair(who, p)}
            && OnlyMine(w.s, w'.s, Pair(who, p))
  {
    hide Inv, StakesInv, FundsInv, RewardsInv, Atomic, Step, StepOutcome, UnstakeError, OnlyMine;
    InvBasics(c, w);
    PastEras.LastRecordUnpaid(c, w);
    CurrentStake(c, w, Pair(who, p));
    SimpleStep(c, w, Unstake(who, p, value));
    AtomicKeepsInv(c, w, Unstake(who, p, value));
    FullUnstakeEffect(c, w, who, p, amount, value);
  }

  lemma FullUnstakeEffect(c: Config, w: World, who: AccountId, p: ProviderId, amount: nat, value: nat)
    requires c.Valid() && w.g.eras != [] && IsActive(w.s.providers, p) && 0 < amount <= value
    requires HistoryOf(w.s.stakerInfo, Pair(who, p)) == [EraStake(amount, w.s.currentEra)]
    requires LedgerOf(w.s.ledger, who) == AccountLedger(amount, [])
    requires c.maxUnlockingChunks >= 1 && c.maxEraStakeValues > 1
    requires Get(Now(w.g.eras), Pair(who, p)) == amount
    ensures var w' := Atomic(c, w, Unstake(who, p, value));
            && UnstakeError(c, w.s, who, p, value).None?
            && w'.s.currentEra == w.s.currentEra && w'.s.providers == w.s.providers
            && Pair(who, p) !in w'.s.stakerInfo
            && LedgerOf(w'.s.ledger, who)
            == AccountLedger(amount, [UnlockingChunk(amount, w.s.currentEra + c.unbondingPeriod)])
            && Now(w'.g.eras) == Now(w.g.eras) - {Pair(who, p)}
            && OnlyMine(w.s, w'.s, Pair(who, p))
  {
    hide EraShrunk, EntryAt, UnstakeError, UnstakeAmount, Unstaked;
    FullUnstakePasses(c, w.s, who, p, amount, value);
    WritesMine(w.s, Pair(who, p), AccountLedger(amount, [UnstakeChunk(c, w.s, amount)]), []);
    assert Added([], UnstakeChunk(c, w.s, amount)) == [UnstakeChunk(c, w.s, amount)];
  }

  lemma FullUnstakePasses(c: Config, s: State, who: AccountId, p: ProviderId, amount: nat, value: nat)
    requires c.Valid() && IsActive(s.providers, p) && 0 < amount <= value
    requires HistoryOf(s.stakerInfo, Pair(who, p)) == [EraStake(amount, s.currentEra)]
    requires LedgerOf(s.ledger, who) == AccountLedger(amount, [])
    requires c.maxUnlockingChunks >= 1 && c.maxEraStakeValues > 1
    ensures UnstakeAmount(c, s, who, p, value) == amount
    ensures UnstakeError(c, s, who, p, value).None?
    ensures Unstaked([EraStake(amount, s.currentEra)], s.currentEra, amount) == Some([])
  {
    assert Added([], UnstakeChunk(c, s, amount)) == [UnstakeChunk(c, s, amount)];
  }

  lemma FullWithdraw(c: Config, w: World, who: AccountId, amount: nat, era: nat)
    requires Inv(c, w) && who != c.pot && amount > 0 && era <= w.s.currentEra
    requires LedgerOf(w.s.ledger, who) == AccountLedger(amount, [UnlockingChunk(amount, era)])
    ensures var ev, w' := WithdrawUnstaked(who), Step(c, w, WithdrawUnstaked(who));
            && StepOutcome(c, w, ev) == Ok && Inv(c, w')
            && who !in w'.s.ledger && who !in w'.s.balances.locks
            && w'.s.stakerInfo == w.s.stakerInfo && w'.s.currentEra == w.s.currentEra && w'.s.providers == w.s.providers
            && Now(w'.g.eras) == Now(w.g.eras)
            && w'.s.ledger == w.s.ledger - {who} && w'.s.balances == w.s.balances.(locks := w.s.balances.locks - {who})
  {
    hide Inv, StakesInv, FundsInv, RewardsInv, Atomic, Step, StepOutcome, WithdrawError;
    InvBasics(c, w);
    SimpleStep(c, w, WithdrawUnstaked(who));
    AtomicKeepsInv(c, w, WithdrawUnstaked(who));
    FullWithdrawEffect(c, w, who, amount, era);
  }

  lemma FullWithdrawEffect(c: Config, w: World, who: AccountId, amount: nat, era: nat)
    requires c.Valid() && w.g.eras != [] && amount > 0 && era <= w.s.currentEra
    requires LedgerOf(w.s.ledger, who) == AccountLedger(amount, [UnlockingChunk(amount, era)])
    ensures var w' := Atomic(c, w, WithdrawUnstaked(who));
            && WithdrawError(w.s, who).None?
            && who !in w'.s.ledger && who !in w'.s.balances.locks
            && w'.s.stakerInfo == w.s.stakerInfo && w'.s.currentEra == w.s.currentEra && w'.s.providers == w.s.providers
            && Now(w'.g.eras) == Now(w.g.eras)
            && w'.s.ledger == w.s.ledger - {who} && w'.s.balances == w.s.balances.(locks := w.s.balances.locks - {who})
  {
    hide EraShrunk;
    var chunks := [UnlockingChunk(amount, era)];
    assert chunks[1..] == [];
    assert Future(chunks, w.s.currentEra) == [] + Future(chunks[1..], w.s.currentEra) == Future([], w.s.currentEra);
    assert Matured(chunks, w.s.currentEra) == chunks && Future(chunks, w.s.currentEra) == [];
    assert ChunkSum(chunks) == amount;
  }

  /** The totals that staking shows for the current era, of the whole pallet and of one provider. */
  predicate SameEraTotals(s: State, s': State) {
    && s.currentEra in s.eraInfo && s'.currentEra in s'.eraInfo
    && s'.eraInfo[s'.currentEra].staked == s.eraInfo[s.currentEra].staked
    && s'.eraInfo[s'.currentEra].locked == s.eraInfo[s.currentEra].locked
  }

  predicate SameProviderTotals(s: State, s': State, p: ProviderId) {
    var entry := EntryAt(s.providerStake, Slot(p, s.currentEra));
    var entry' := EntryAt(s'.providerStake, Slot(p, s'.currentEra));
    entry'.total == entry.total && entry'.numberOfStakers == entry.numberOfStakers
  }

  /** Two reachable states with the same stakes in force and the same ledgers show the same totals. */
  lemma SameStakesSameTotals(c: Config, w: World, w': World)
    requires Inv(c, w) && Inv(c, w') && Now(w.g.eras) == Now(w'.g.eras)
    requires w'.s.ledger == w.s.ledger && w'.s.providers == w.s.providers
    ensures SameEraTotals(w.s, w'.s)
    ensures forall p :: IsActive(w.s.providers, p) ==> SameProviderTotals(w.s, w'.s, p)
  {
    hide Inv, StakesInv, FundsInv, RewardsInv, StakedOn, EntryAt;
    PastEras.LastRecordUnpaid(c, w);
    PastEras.LastRecordUnpaid(c, w');
    CurrentEraTotals(c, w);
    CurrentEraTotals(c, w');
    forall p | IsActive(w.s.providers, p) ensures SameProviderTotals(w.s, w'.s, p) {
      CurrentEntry(c, w, Pair(0, p));
      CurrentEntry(c, w', Pair(0, p));
    }
  }

  /**
    A fresh staker who stakes, unstakes everything at once, lets at least the unbonding period pass and withdraws
    leaves no trace: all ledgers, histories, balances and locks are as before, and so are the totals of the era and of
    every active provider, across the rotations in between.
    */
  lemma StakeRoundTrip(c: Config, w: World, who: AccountId, p: ProviderId, value: nat, evs: seq<Event>)
    requires Inv(c, w) && who != c.pot && StakeError(c, w.s, who, p, value).None?
    requires LedgerOf(w.s.ledger, who) == NO_LEDGER && HistoryOf(w.s.stakerInfo, Pair(who, p)) == []
    requires c.maxUnlockingChunks >= 1 && OnlyBlocks(evs)
    requires c.Valid() && w.g.eras != []
    requires var w2 := Step(c, Step(c, w, Stake(who, p, value)), Unstake(who, p, value));
             Execute(c, w2, evs).s.currentEra >= w.s.currentEra + c.unbondingPeriod
    ensures var w1 := Step(c, w, Stake(who, p, value));
            var w3 := Execute(c, Step(c, w1, Unstake(who, p, value)), evs);
            var w4 := Step(c, w3, WithdrawUnstaked(who));
            && StepOutcome(c, w1, Unstake(who, p, value)) == Ok && StepOutcome(c, w3, WithdrawUnstaked(who)) == Ok
            && who !in w4.s.ledger && who !in w4.s.balances.locks && Pair(who, p) !in w4.s.stakerInfo
            && w4.s.ledger == w.s.ledger && w4.s.stakerInfo == w.s.stakerInfo && w4.s.balances == w.s.balances
            && SameEraTotals(w.s, w4.s)
            && forall q :: IsActive(w.s.providers, q) ==> SameProviderTotals(w.s, w4.s, q)
  {
    hide Inv, StakesInv, FundsInv, RewardsInv, Step, StepOutcome, StakeAmount, Execute, EntryAt, LedgerOf, HistoryOf,
         StakeError, AdmissibleRun, SameEraTotals, SameProviderTotals, IsActive;
    var k := Pair(who, p);
    var w1 := Step(c, w, Stake(who, p, value));
    FreshStake(c, w, who, p, value);
    var amount := StakeAmount(c, w.s, who, value);
    FullUnstake(c, w1, who, p, amount, value);
    var w2 := Step(c, w1, Unstake(who, p, value));
    BlocksWait(c, w2, evs);
    RunKeepsInv(c, w2, evs);
    var w3 := Execute(c, w2, evs);
    LedgerWaits(w2, w3, who);
    FullWithdraw(c, w3, who, amount, w.s.currentEra + c.unbondingPeriod);
    var w4 := Step(c, w3, WithdrawUnstaked(who));
    assert Now(w4.g.eras) == Now(w.g.eras);
    PastEras.LastRecordUnpaid(c, w);
    NothingStored(c, w, k);
    MineThroughout(w.s, w1.s, w2.s, w3.s, w4.s, k);
    MineGone(w.s, w4.s, k);
    SameStakesSameTotals(c, w, w4);
  }

  lemma MineThroughout(s: State, s1: State, s2: State, s3: State, s4: State, k: Pair)
    requires OnlyMine(s, s1, k) && OnlyMine(s1, s2, k)
    requires s3.ledger == s2.ledger && s3.stakerInfo == s2.stakerInfo && s3.balances == s2.balances
    requires s3.providers == s2.providers && s4.providers == s3.providers && s4.stakerInfo == s3.stakerInfo
    requires s4.ledger == s3.ledger - {k.staker}
    requires s4.balances == s3.balances.(locks := s3.balances.locks - {k.staker})
    ensures OnlyMine(s, s4, k)
  {
    assert s3.ledger - {k.staker} - {k.staker} == s3.ledger - {k.staker};
    assert s3.balances.locks - {k.staker} - {k.staker} == s3.balances.locks - {k.staker};
  }

  lemma LedgerWaits(w: World, w': World, who: AccountId)
    requires Waited(w, w')
    ensures LedgerOf(w'.s.ledger, who) == LedgerOf(w.s.ledger, who)
  {
  }

  lemma StakeNeedsActive(c: Config, s: State, who: AccountId, p: ProviderId, value: nat)
    requires StakeError(c, s, who, p, value).None?
    ensures IsActive(s.providers, p)
  {
  }
}
