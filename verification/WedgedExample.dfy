/** A run from genesis that ends in a wedged stake: two full unstakes in successive eras, then one more stake. */
module WedgedExample {
  import opened Options
  import opened Sums
  import opened Arithmetic
  import opened StakerHistory
  import opened Unbonding
  import opened StakingState
  import opened StakingInvariant
  import opened Runs
  import opened Reachability
  import opened Wedged
  import opened Exits
  import EraSteps

  const PROVIDER: ProviderId := 7
  const OPERATOR: AccountId := 1
  const STAKER: AccountId := 2
  const PAIR := Pair(STAKER, PROVIDER)

  /** Two blocks per era, no operator share, unbonding in the next era, at most 2 chunks and 4 history entries. */
  const EXAMPLE := Config(2, 0, 10, 5, 1, 0, 2, 1, 5, 0)

  /** The state after the first block of a chain with two funded accounts. */
  function Start(): (w: World)
    ensures w.g.eras != []
  {
    Step(EXAMPLE, Genesis(EXAMPLE, map[OPERATOR := 100, STAKER := 100], map[]), OnInitialize(1))
  }

  /** What the run needs to remember: the staker's history and ledger, and room at the provider. */
  ghost predicate Scene(w: World, era: nat, h: History, l: AccountLedger, n: nat) {
    var s := w.s;
    && w.g.eras != []
    && s.currentEra == era && IsActive(s.providers, PROVIDER)
    && HistoryOf(s.stakerInfo, PAIR) == h
    && LedgerOf(s.ledger, STAKER) == l
    && Get(s.balances.free, STAKER) == 100
    && Slot(PROVIDER, era) in s.providerStake
    && EntryAt(s.providerStake, Slot(PROVIDER, era)).numberOfStakers <= n
    && EntryAt(s.providerStake, Slot(PROVIDER, era)).total <= 10 * n
    && s.accumulator == NO_REWARDS
    && (forall e: nat :: e <= era ==> e in s.eraInfo && s.eraInfo[e].rewards == NO_REWARDS)
  }

  ghost predicate Reached(era: nat, h: History, l: AccountLedger, n: nat) {
    exists evs :: AdmissibleRun(EXAMPLE, Start(), evs) && Scene(Execute(EXAMPLE, Start(), evs), era, h, l, n)
  }

  // ---------------------------------------------------------------- extending a run

  lemma SceneStake(w: World, era: nat, h: History, l: AccountLedger, n: nat)
    requires Scene(w, era, h, l, n) && n < 5 && l.locked <= 90
    requires Staked(h, era, 10).Some? && |Staked(h, era, 10).value| < 5 && Latest(Staked(h, era, 10).value) > 0
    ensures Scene(Step(EXAMPLE, w, Stake(STAKER, PROVIDER, 10)), era, Staked(h, era, 10).value,
                  l.(locked := l.locked + 10), n + 1)
  {
    hide Staked, Track, Latest;
    assert StakeError(EXAMPLE, w.s, STAKER, PROVIDER, 10).None?;
  }

  lemma SceneUnstake(w: World, era: nat, h: History, l: AccountLedger, n: nat)
    requires Scene(w, era, h, l, n) && l.locked > 0 && Latest(h) == 10
    requires Unstaked(h, era, 10).Some? && |Unstaked(h, era, 10).value| < 5
    requires |Added(l.chunks, UnlockingChunk(10, era + 1))| <= 2
    ensures Scene(Step(EXAMPLE, w, Unstake(STAKER, PROVIDER, 10)), era, Unstaked(h, era, 10).value,
                  l.(chunks := Added(l.chunks, UnlockingChunk(10, era + 1))), n)
  {
    hide Unstaked, Track, Latest, Added;
    assert UnstakeAmount(EXAMPLE, w.s, STAKER, PROVIDER, 10) == 10;
    assert UnstakeError(EXAMPLE, w.s, STAKER, PROVIDER, 10).None?;
  }

  lemma SceneNewEra(w: World, era: nat, h: History, l: AccountLedger, n: nat)
    requires Scene(w, era, h, l, n)
    ensures Scene(Step(EXAMPLE, w, OnInitialize(1)), era + 1, h, l, n)
  {
    hide RotatedStakes;
    EraSteps.RotatedEntry(w.s.providers, w.s.providerStake, era, Slot(PROVIDER, era + 1));
  }

  lemma SceneClaim(w: World, era: nat, h: History, l: AccountLedger, n: nat)
    requires Scene(w, era, h, l, n) && ClaimedEntry(h).staked > 0 && ClaimedEntry(h).era < era
    ensures Scene(Step(EXAMPLE, w, ClaimStaker(STAKER, PROVIDER)), era, Claimed(h), l, n)
  {
    hide Claimed, FromRational, Track;
    assert StakerReward(w.s, STAKER, PROVIDER) == 0;
    assert ClaimStakerError(EXAMPLE, w.s, STAKER, PROVIDER).None?;
  }

  /** Before anybody staked. */
  ghost predicate Opening(s: State, free: nat) {
    && s.currentEra == 1 && s.stakerInfo == map[] && s.ledger == map[] && s.providerStake == map[]
    && Get(s.balances.free, OPERATOR) == free
    && Get(s.balances.locks, OPERATOR) == 0 && Get(s.balances.frozen, OPERATOR) == 0
    && Get(s.balances.free, STAKER) == 100
    && s.accumulator == NO_REWARDS
    && (forall e: nat :: e <= 1 ==> e in s.eraInfo && s.eraInfo[e].rewards == NO_REWARDS)
  }

  lemma StartOpening()
    ensures Opening(Start().s, 100) && Start().s.providers == map[]
  {
    hide Track;
  }

  lemma OpeningRegister(s: State)
    requires Opening(s, 100) && s.providers == map[]
    ensures RegisterError(EXAMPLE, s, OPERATOR, PROVIDER, 11).None?
    ensures Opening(RegisterEffect(EXAMPLE, s, OPERATOR, PROVIDER), 90)
    ensures IsActive(RegisterEffect(EXAMPLE, s, OPERATOR, PROVIDER).providers, PROVIDER)
  {
  }

  lemma OpeningStake(w: World)
    requires w.g.eras != [] && Opening(w.s, 90) && IsActive(w.s.providers, PROVIDER)
    ensures Scene(Atomic(EXAMPLE, w, Stake(OPERATOR, PROVIDER, 1)), 1, [], NO_LEDGER, 1)
  {
    hide Track;
    assert StakeError(EXAMPLE, w.s, OPERATOR, PROVIDER, 1).None?;
  }

  lemma SceneRegister(w: World)
    requires w == Start()
    ensures Scene(Step(EXAMPLE, w, Register(OPERATOR, PROVIDER, 11)), 1, [], NO_LEDGER, 1)
  {
    hide Track, Opening, Scene, Start, RegisterError, RegisterEffect, StakeError, StakeEffect;
    StartOpening();
    OpeningRegister(w.s);
    OpeningStake(Atomic(EXAMPLE, w, Register(OPERATOR, PROVIDER, 11)));
  }

  // ---------------------------------------------------------------- the run

  lemma ReachBy(era: nat, h: History, l: AccountLedger, n: nat, ev: Event,
                era': nat, h': History, l': AccountLedger, n': nat)
    requires Reached(era, h, l, n)
    requires forall w: World :: w.g.eras != [] && Scene(w, era, h, l, n) ==>
                           Admissible(EXAMPLE, w, ev) && Scene(Step(EXAMPLE, w, ev), era', h', l', n')
    ensures Reached(era', h', l', n')
  {
    hide Scene, Step, Admissible, Start;
    var evs :| AdmissibleRun(EXAMPLE, Start(), evs) && Scene(Execute(EXAMPLE, Start(), evs), era, h, l, n);
    ExecuteSnoc(EXAMPLE, Start(), evs, ev);
    assert Scene(Execute(EXAMPLE, Start(), evs + [ev]), era', h', l', n');
  }

  lemma ReachRegister()
    ensures Reached(1, [], NO_LEDGER, 1)
  {
    hide Scene, Step, Start;
    var ev := Register(OPERATOR, PROVIDER, 11);
    SceneRegister(Start());
    ExecuteSnoc(EXAMPLE, Start(), [], ev);
    assert [] + [ev] == [ev];
    assert Scene(Execute(EXAMPLE, Start(), [ev]), 1, [], NO_LEDGER, 1);
  }

  lemma ReachStake(era: nat, h: History, l: AccountLedger, n: nat)
    requires Reached(era, h, l, n) && n < 5 && l.locked <= 90
    requires Staked(h, era, 10).Some? && |Staked(h, era, 10).value| < 5 && Latest(Staked(h, era, 10).value) > 0
    ensures Reached(era, Staked(h, era, 10).value, l.(locked := l.locked + 10), n + 1)
  {
    hide Scene, Step, Reached, Staked, Latest;
    var ev := Stake(STAKER, PROVIDER, 10);
    var h', l' := Staked(h, era, 10).value, l.(locked := l.locked + 10);
    forall w: World | w.g.eras != [] && Scene(w, era, h, l, n)
      ensures Admissible(EXAMPLE, w, ev) && Scene(Step(EXAMPLE, w, ev), era, h', l', n + 1)
    {
      SceneStake(w, era, h, l, n);
    }
    ReachBy(era, h, l, n, ev, era, h', l', n + 1);
  }

  lemma ReachUnstake(era: nat, h: History, l: AccountLedger, n: nat)
    requires Reached(era, h, l, n) && l.locked > 0 && Latest(h) == 10
    requires Unstaked(h, era, 10).Some? && |Unstaked(h, era, 10).value| < 5
    requires |Added(l.chunks, UnlockingChunk(10, era + 1))| <= 2
    ensures Reached(era, Unstaked(h, era, 10).value, l.(chunks := Added(l.chunks, UnlockingChunk(10, era + 1))), n)
  {
    hide Scene, Step, Reached, Unstaked, Latest, Added;
    var ev := Unstake(STAKER, PROVIDER, 10);
    var h', l' := Unstaked(h, era, 10).value, l.(chunks := Added(l.chunks, UnlockingChunk(10, era + 1)));
    forall w: World | w.g.eras != [] && Scene(w, era, h, l, n)
      ensures Admissible(EXAMPLE, w, ev) && Scene(Step(EXAMPLE, w, ev), era, h', l', n)
    {
      SceneUnstake(w, era, h, l, n);
    }
    ReachBy(era, h, l, n, ev, era, h', l', n);
  }

  lemma ReachNewEra(era: nat, h: History, l: AccountLedger, n: nat)
    requires Reached(era, h, l, n)
    ensures Reached(era + 1, h, l, n)
  {
    hide Scene, Step, Reached;
    var ev := OnInitialize(1);
    forall w: World | w.g.eras != [] && Scene(w, era, h, l, n)
      ensures Admissible(EXAMPLE, w, ev) && Scene(Step(EXAMPLE, w, ev), era + 1, h, l, n)
    {
      SceneNewEra(w, era, h, l, n);
    }
    ReachBy(era, h, l, n, ev, era + 1, h, l, n);
  }

  lemma ReachClaim(era: nat, h: History, l: AccountLedger, n: nat)
    requires Reached(era, h, l, n) && ClaimedEntry(h).staked > 0 && ClaimedEntry(h).era < era
    ensures Reached(era, Claimed(h), l, n)
  {
    hide Scene, Step, Reached, Claimed, ClaimedEntry;
    var ev := ClaimStaker(STAKER, PROVIDER);
    forall w: World | w.g.eras != [] && Scene(w, era, h, l, n)
      ensures Admissible(EXAMPLE, w, ev) && Scene(Step(EXAMPLE, w, ev), era, Claimed(h), l, n)
    {
      SceneClaim(w, era, h, l, n);
    }
    ReachBy(era, h, l, n, ev, era, Claimed(h), l, n);
  }

  /** The same history without the claim: no zero at the head, but a claim will bring one there. */
  const HIDDEN: History := [EraStake(10, 1), EraStake(0, 2), EraStake(0, 3), EraStake(10, 4)]

  /** The documented compression leaves a zero head once two zero entries are adjacent. */
  lemma AdjacentZeros()
    ensures Staked([], 1, 10) == Some([EraStake(10, 1)])
    ensures Unstaked([EraStake(10, 1)], 2, 10) == Some([EraStake(10, 1), EraStake(0, 2)])
    ensures Staked([EraStake(10, 1), EraStake(0, 2)], 3, 10) == Some([EraStake(10, 1), EraStake(0, 2), EraStake(10, 3)])
    ensures Unstaked([EraStake(10, 1), EraStake(0, 2), EraStake(10, 3)], 3, 10)
         == Some([EraStake(10, 1), EraStake(0, 2), EraStake(0, 3)])
    ensures Claimed([EraStake(10, 1), EraStake(0, 2), EraStake(0, 3)]) == [EraStake(0, 3)]
    ensures Staked([EraStake(0, 3)], 4, 10) == Some([EraStake(0, 3), EraStake(10, 4)])
    ensures Staked([EraStake(10, 1), EraStake(0, 2), EraStake(0, 3)], 4, 10) == Some(HIDDEN)
  {
    var one, two, last := EraStake(10, 1), EraStake(0, 2), EraStake(10, 3);
    assert [one] + [two] == [one, two] && [one, two] + [last] == [one, two, last];
    assert [one, two, last][2 := EraStake(0, 3)] == [one, two, EraStake(0, 3)];
    assert [EraStake(0, 3)] + [EraStake(10, 4)] == [EraStake(0, 3), EraStake(10, 4)];
    assert [one, two, EraStake(0, 3)] + [EraStake(10, 4)] == HIDDEN;
  }

  lemma ExampleQueue()
    ensures Added([], UnlockingChunk(10, 3)) == [UnlockingChunk(10, 3)]
    ensures Added([UnlockingChunk(10, 3)], UnlockingChunk(10, 4)) == [UnlockingChunk(10, 3), UnlockingChunk(10, 4)]
  {
  }

  lemma ReachAdjacentZeros()
    ensures Reached(3, [EraStake(10, 1), EraStake(0, 2), EraStake(0, 3)],
                    AccountLedger(20, [UnlockingChunk(10, 3), UnlockingChunk(10, 4)]), 3)
  {
    hide Reached, Staked, Unstaked, Claimed, Added;
    AdjacentZeros();
    ExampleQueue();
    var one, two := [UnlockingChunk(10, 3)], [UnlockingChunk(10, 3), UnlockingChunk(10, 4)];
    ReachRegister();
    ReachStake(1, [], NO_LEDGER, 1);
    ReachNewEra(1, [EraStake(10, 1)], AccountLedger(10, []), 2);
    ReachUnstake(2, [EraStake(10, 1)], AccountLedger(10, []), 2);
    ReachNewEra(2, [EraStake(10, 1), EraStake(0, 2)], AccountLedger(10, one), 2);
    ReachStake(3, [EraStake(10, 1), EraStake(0, 2)], AccountLedger(10, one), 2);
    ReachUnstake(3, [EraStake(10, 1), EraStake(0, 2), EraStake(10, 3)], AccountLedger(20, one), 3);
  }

  lemma ReachHidden()
    ensures Reached(5, HIDDEN, AccountLedger(30, [UnlockingChunk(10, 3), UnlockingChunk(10, 4)]), 4)
  {
    hide Reached, Staked, Unstaked, Claimed, Added;
    AdjacentZeros();
    var zeros, two := [EraStake(10, 1), EraStake(0, 2), EraStake(0, 3)], [UnlockingChunk(10, 3), UnlockingChunk(10, 4)];
    ReachAdjacentZeros();
    ReachNewEra(3, zeros, AccountLedger(20, two), 3);
    ReachStake(4, zeros, AccountLedger(20, two), 3);
    ReachNewEra(4, HIDDEN, AccountLedger(30, two), 4);
  }

  lemma ReachZeroHead()
    ensures Reached(5, [EraStake(0, 3), EraStake(10, 4)],
                    AccountLedger(30, [UnlockingChunk(10, 3), UnlockingChunk(10, 4)]), 4)
  {
    hide Reached, Staked, Unstaked, Claimed, Added;
    AdjacentZeros();
    ExampleQueue();
    var one, two := [UnlockingChunk(10, 3)], [UnlockingChunk(10, 3), UnlockingChunk(10, 4)];
    ReachAdjacentZeros();
    ReachClaim(3, [EraStake(10, 1), EraStake(0, 2), EraStake(0, 3)], AccountLedger(20, two), 3);
    ReachNewEra(3, [EraStake(0, 3)], AccountLedger(20, two), 3);
    ReachStake(4, [EraStake(0, 3)], AccountLedger(20, two), 3);
    ReachNewEra(4, [EraStake(0, 3), EraStake(10, 4)], AccountLedger(30, two), 4);
  }

  /** From genesis, an admissible run of ordinary calls leads to a stake that `WedgedForever` says never comes out. */
  lemma WedgedReachable()
    ensures EXAMPLE.Valid() && Inv(EXAMPLE, Start())
    ensures exists evs :: AdmissibleRun(EXAMPLE, Start(), evs)
                       && IsWedged(Execute(EXAMPLE, Start(), evs).s, PAIR, 5, [EraStake(0, 3), EraStake(10, 4)])
  {
    hide Inv, Start, Step, AdmissibleRun, Execute;
    StartInv();
    ReachZeroHead();
    var h, l := [EraStake(0, 3), EraStake(10, 4)], AccountLedger(30, [UnlockingChunk(10, 3), UnlockingChunk(10, 4)]);
    var evs :| AdmissibleRun(EXAMPLE, Start(), evs) && Scene(Execute(EXAMPLE, Start(), evs), 5, h, l, 4);
    ExecuteSnoc(EXAMPLE, Start(), evs, Unregister(PROVIDER));
    SceneUnregister(Execute(EXAMPLE, Start(), evs), 5, h, l, 4);
    assert AdmissibleRun(EXAMPLE, Start(), evs + [Unregister(PROVIDER)]);
  }

  lemma SceneUnregister(w: World, era: nat, h: History, l: AccountLedger, n: nat)
    requires Scene(w, era, h, l, n) && ZeroHead(h) && 1 <= h[0].era < era && Latest(h) > 0
    ensures IsWedged(Step(EXAMPLE, w, Unregister(PROVIDER)).s, PAIR, era, h)
  {
  }

  lemma StartInv()
    ensures Inv(EXAMPLE, Start())
  {
    hide Inv, Step, Genesis;
    var free := map[OPERATOR := 100, STAKER := 100];
    var none: map<AccountId, nat> := map[];
    SumPut(none, OPERATOR, 100);
    SumPut(none[OPERATOR := 100], STAKER, 100);
    assert none[OPERATOR := 100][STAKER := 100] == free;
    FirstBlock(EXAMPLE, free, map[], 1);
  }

  /** The same run without the claim ends in a stake that can still be claimed for, and is lost all the same. */
  lemma DoomedReachable()
    ensures EXAMPLE.Valid() && Inv(EXAMPLE, Start())
    ensures exists evs :: AdmissibleRun(EXAMPLE, Start(), evs)
                       && DoomedStake(Execute(EXAMPLE, Start(), evs).s, PAIR, 5)
                       && ClaimStakerError(EXAMPLE, Execute(EXAMPLE, Start(), evs).s, STAKER, PROVIDER).None?
  {
    hide Inv, Start, Step, AdmissibleRun, Execute, DoomedStake, Scene, ClaimStakerError;
    StartInv();
    ReachHidden();
    var l := AccountLedger(30, [UnlockingChunk(10, 3), UnlockingChunk(10, 4)]);
    var evs :| AdmissibleRun(EXAMPLE, Start(), evs) && Scene(Execute(EXAMPLE, Start(), evs), 5, HIDDEN, l, 4);
    ExecuteSnoc(EXAMPLE, Start(), evs, Unregister(PROVIDER));
    HiddenUnregister(Execute(EXAMPLE, Start(), evs), l, 4);
    assert AdmissibleRun(EXAMPLE, Start(), evs + [Unregister(PROVIDER)]);
  }

  lemma HiddenUnregister(w: World, l: AccountLedger, n: nat)
    requires Scene(w, 5, HIDDEN, l, n)
    ensures DoomedStake(Step(EXAMPLE, w, Unregister(PROVIDER)).s, PAIR, 5)
    ensures ClaimStakerError(EXAMPLE, Step(EXAMPLE, w, Unregister(PROVIDER)).s, STAKER, PROVIDER).None?
  {
    hide FromRational, Track;
    var s := Step(EXAMPLE, w, Unregister(PROVIDER)).s;
    assert DoomedEntry(HIDDEN, 5, 2);
    assert HistoryOf(s.stakerInfo, PAIR) == HIDDEN;
    assert StakerReward(s, STAKER, PROVIDER) == 0;
  }
}
