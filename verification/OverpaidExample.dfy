/**
  A run from genesis in which an era is overpaid.  Three operators stake one unit each on their own provider, era 1
  earns a reward of two for operators, and each of the three is paid one.  The third claim bounces until the pot
  receives rewards of a later era.
  */
module OverpaidExample {
  import opened Options
  import opened Sums
  import opened Arithmetic
  import opened StakerHistory
  import opened StakingState
  import opened StakingInvariant
  import opened Runs
  import opened Reachability
  import opened Lifecycle
  import opened Exits
  import PastEras
  import RewardSteps

  /** Two blocks per era, all rewards for operators, a registration deposit of 10 and a minimum stake of 1. */
  const SETUP := Config(2, 1_000_000_000, 10, 5, 1, 0, 2, 1, 5, 0)

  /** After the first block, with just enough for a deposit and a stake on each operator's account. */
  function Opened(): (w: World)
    ensures w.g.eras != []
  {
    Step(SETUP, Genesis(SETUP, map[1 := 11, 2 := 11, 3 := 11], map[]), OnInitialize(1))
  }

  // ---------------------------------------------------------------- three equal stakes

  const THREE: StakeTable := map[Pair(1, 1) := 1, Pair(2, 2) := 1, Pair(3, 3) := 1]

  lemma OneOfThree(stakes: StakeTable, p: ProviderId)
    requires stakes == map[Pair(1, 1) := 1, Pair(2, 2) := 1, Pair(3, 3) := 1] && Sum(stakes) == 3 && 1 <= p <= 3
    ensures Sum(StakedOn(stakes, p)) == 1 && ProviderShare(stakes, 2, p) == 1
  {
    var none: StakeTable := map[];
    assert StakedOn(stakes, p) == none[Pair(p, p) := 1];
    SumPut(none, Pair(p, p), 1);
    hide Sum, StakedOn;
    assert FromRational(1, 3) == 333_333_333 && Times(333_333_333, 2) == 1;
  }

  lemma SumOfThree<K>(a: K, b: K, c: K)
    requires a != b && b != c && a != c
    ensures Sum(map[a := 1, b := 1, c := 1]) == 3
  {
    var none: map<K, nat> := map[];
    SumPut(none, a, 1);
    SumPut(none[a := 1], b, 1);
    SumPut(none[a := 1][b := 1], c, 1);
    assert none[a := 1][b := 1][c := 1] == map[a := 1, b := 1, c := 1];
  }

  // ---------------------------------------------------------------- registering, in general

  /** What a successful registration leaves as it was, and what it adds. */
  ghost predicate Joined(c: Config, w: World, w': World, who: AccountId, p: ProviderId, amount: nat) {
    var s, s' := w.s, w'.s;
    && w.g.eras != [] && w'.g.eras != []
    && s'.currentEra == s.currentEra && s'.accumulator == s.accumulator && w'.g.inflow == w.g.inflow
    && s'.providers == s.providers[p := ProviderInfo(who, ProviderState.Registered, false)]
    && Now(w'.g.eras) == Put(Now(w.g.eras), Pair(who, p), amount)
    && s'.balances.frozen == s.balances.frozen
    && (forall a :: a != who ==> Get(s'.balances.free, a) == Get(s.balances.free, a)
                                 && Get(s'.balances.locks, a) == Get(s.balances.locks, a)
                                 && LedgerOf(s'.ledger, a) == LedgerOf(s.ledger, a))
    && Sum(s'.balances.free) + Sum(s'.balances.reserved) == Sum(s.balances.free) + Sum(s.balances.reserved)
  }

  lemma StakeJoins(c: Config, w: World, who: AccountId, p: ProviderId, value: nat, amount: nat)
    requires c.Valid() && w.g.eras != [] && StakeError(c, w.s, who, p, value).None?
    requires amount == StakeAmount(c, w.s, who, value) && Get(Now(w.g.eras), Pair(who, p)) == 0
    ensures var w' := Atomic(c, w, Stake(who, p, value));
            && w'.s.currentEra == w.s.currentEra && w'.s.accumulator == w.s.accumulator && w'.g.inflow == w.g.inflow
            && w'.s.providers == w.s.providers
            && w'.g.eras != [] && Now(w'.g.eras) == Put(Now(w.g.eras), Pair(who, p), amount)
            && w'.s.balances == w.s.balances.(locks := w'.s.balances.locks)
            && (forall a :: a != who ==> Get(w'.s.balances.locks, a) == Get(w.s.balances.locks, a)
                                         && LedgerOf(w'.s.ledger, a) == LedgerOf(w.s.ledger, a))
  {
    hide StakeError, StakeAmount, Staked, WithHistory, EraGrown, Latest, EntryAt, Put;
  }

  lemma ReserveMoves(b: Balances, who: AccountId, amount: nat)
    requires CanWithdraw(b, who, amount)
    ensures var b' := Reserved(b, who, amount);
            && Sum(b'.free) + Sum(b'.reserved) == Sum(b.free) + Sum(b.reserved)
            && (forall a :: a != who ==> Get(b'.free, a) == Get(b.free, a))
            && b'.locks == b.locks && b'.frozen == b.frozen
  {
    hide Sum;
    SumPut(b.free, who, SatSub(Get(b.free, who), amount));
    SumPut(b.reserved, who, Get(b.reserved, who) + amount);
  }

  lemma RegisterJoins(c: Config, w: World, who: AccountId, p: ProviderId, deposit: nat)
    requires Inv(c, w) && who != c.pot && RegisterError(c, w.s, who, p, deposit).None?
    requires c.maxStakersPerProvider >= 1 && c.maxEraStakeValues >= 2 && RoomAfterDeposit(c, w.s, who) >= c.minimumStake
    ensures c.Valid() && w.g.eras != []
    ensures var w' := Step(c, w, Register(who, p, deposit));
            && Inv(c, w')
            && Joined(c, w, w', who, p, Min(SatSub(deposit, c.registerDeposit), RoomAfterDeposit(c, w.s, who)))
  {
    hide Inv, StakesInv, FundsInv, RewardsInv, Atomic, Step, StepOutcome, StakeError, RegisterEffect, Put;
    InvBasics(c, w);
    var value, mid := SatSub(deposit, c.registerDeposit), Atomic(c, w, Register(who, p, deposit));
    FirstStakeOutcome(c, w, who, p, deposit);
    RegisterOutcome(c, w, who, p, deposit);
    RegisterStepIsStake(c, w, who, p, deposit);
    StepKeepsInv(c, w, Register(who, p, deposit));
    RegisterWrites(c, w, who, p, deposit);
    NobodyOnIt(c, w, who, p);
    SimpleStep(c, mid, Stake(who, p, value));
    StakeJoins(c, mid, who, p, value, StakeAmount(c, mid.s, who, value));
  }

  lemma RegisterWrites(c: Config, w: World, who: AccountId, p: ProviderId, deposit: nat)
    requires c.Valid() && w.g.eras != [] && RegisterError(c, w.s, who, p, deposit).None?
    ensures var mid := Atomic(c, w, Register(who, p, deposit));
            && mid == World(RegisterEffect(c, w.s, who, p), w.g)
            && mid.s == w.s.(balances := mid.s.balances, providers := mid.s.providers)
            && mid.s.providers == w.s.providers[p := ProviderInfo(who, ProviderState.Registered, false)]
            && (forall a :: a != who ==> Get(mid.s.balances.free, a) == Get(w.s.balances.free, a))
            && mid.s.balances.locks == w.s.balances.locks && mid.s.balances.frozen == w.s.balances.frozen
            && Sum(mid.s.balances.free) + Sum(mid.s.balances.reserved)
            == Sum(w.s.balances.free) + Sum(w.s.balances.reserved)
            && AvailableBalance(c, mid.s, who) == RoomAfterDeposit(c, w.s, who)
  {
    hide Sum;
    ReserveMoves(w.s.balances, who, c.registerDeposit);
  }

  /** Nobody can have staked on a provider that is not listed. */
  lemma NobodyOnIt(c: Config, w: World, who: AccountId, p: ProviderId)
    requires Inv(c, w) && p !in w.s.providers
    ensures w.g.eras != [] && Get(Now(w.g.eras), Pair(who, p)) == 0
  {
    hide FundsInv, RewardsInv, HistoriesOk, ListedOk, Denotes, TotalsOk, SlotsOk, FlagsOk, ProvidersOk, ExitedOk;
    assert TableOk(c, w.s.providers, w.g.eras[w.s.currentEra].stakes);
  }

  // ---------------------------------------------------------------- era 1

  /** The stakes of the first `n` operators, each on the provider of the same number. */
  function Table(n: nat): StakeTable {
    if n == 0 then map[] else Put(Table(n - 1), Pair(n, n), 1)
  }

  /** Era 1 with `n` operators registered and the others still holding their 11 units. */
  ghost predicate Registering(w: World, n: nat) {
    && Inv(SETUP, w) && w.g.eras != [] && w.s.currentEra == 1 && w.s.accumulator == NO_REWARDS && w.g.inflow == 0
    && (forall p :: p in w.s.providers ==> 1 <= p <= n)
    && (forall p :: 1 <= p <= n ==> p in w.s.providers
                                    && w.s.providers[p] == ProviderInfo(p, ProviderState.Registered, false))
    && Now(w.g.eras) == Table(n)
    && w.s.balances.frozen == map[] && Get(w.s.balances.free, 0) == 0 && Get(w.s.balances.locks, 0) == 0
    && (forall a :: n < a <= 3 ==> Get(w.s.balances.free, a) == 11 && Get(w.s.balances.locks, a) == 0
                                   && LedgerOf(w.s.ledger, a) == NO_LEDGER)
    && Sum(w.s.balances.free) + Sum(w.s.balances.reserved) == 33
  }

  lemma OpenedRegistering()
    ensures SETUP.Valid() && Registering(Opened(), 0)
  {
    hide Inv, Step, Genesis, Sum;
    var free: map<AccountId, nat> := map[1 := 11, 2 := 11, 3 := 11];
    EvenSum(free);
    FirstBlock(SETUP, free, map[], 1);
    FirstBlockState(SETUP, free, map[], 1);
    FirstBlockTables(SETUP, free, map[], 1);
  }

  lemma EvenSum(free: map<AccountId, nat>)
    requires free == map[1 := 11, 2 := 11, 3 := 11]
    ensures Sum(free) == 33
    ensures Sum<AccountId>(map[]) == 0
  {
    var none: map<AccountId, nat> := map[];
    SumPut(none, 1, 11);
    SumPut(none[1 := 11], 2, 11);
    SumPut(none[1 := 11][2 := 11], 3, 11);
    assert none[1 := 11][2 := 11][3 := 11] == free;
  }

  lemma FirstBlockTables(c: Config, free: map<AccountId, nat>, frozen: map<AccountId, nat>, now: nat)
    requires c.Valid()
    ensures var w := Step(c, Genesis(c, free, frozen), OnInitialize(now));
            w.g.eras != [] && Now(w.g.eras) == map[] && w.s.accumulator == NO_REWARDS && w.g.inflow == 0
  {
    hide RotatedStakes, RewardSnapshot;
  }

  lemma RegisterNext(w: World, n: nat)
    requires Registering(w, n) && n < 3
    ensures Admissible(SETUP, w, Register(n + 1, n + 1, 11))
    ensures Registering(Step(SETUP, w, Register(n + 1, n + 1, 11)), n + 1)
  {
    hide Inv, Step, Sum;
    RegisterJoins(SETUP, w, n + 1, n + 1, 11);
    assert RoomAfterDeposit(SETUP, w.s, n + 1) == 1;
  }

  lemma FirstRewards(w: World)
    requires Registering(w, 3)
    ensures Admissible(SETUP, w, Rewards(2))
    ensures var w' := Step(SETUP, w, Rewards(2));
            && Inv(SETUP, w') && w'.g.eras == w.g.eras && w'.s.currentEra == 1
            && w'.s.accumulator == RewardInfo(2, 0) && w'.s.providers == w.s.providers && w'.g.inflow == 2
            && Get(w'.s.balances.free, 0) == 2 && Get(w'.s.balances.locks, 0) == 0 && w'.s.balances.frozen == map[]
            && Sum(w'.s.balances.free) + Sum(w'.s.balances.reserved) == 35
  {
    hide Inv, Sum, Step;
    SumPut(w.s.balances.free, 0, 2);
    StepKeepsInv(SETUP, w, Rewards(2));
    SimpleStep(SETUP, w, Rewards(2));
    assert Times(1_000_000_000, 2) == 2;
  }

  // ---------------------------------------------------------------- era 2

  /** Era 2, in which the operators in `paid` have claimed for era 1 and the pot holds `pot`. */
  ghost predicate Claiming(w: World, paid: set<ProviderId>, pot: nat) {
    && Inv(SETUP, w) && w.s.currentEra == 2 && |w.g.eras| == 3
    && 1 in w.s.eraInfo && w.s.eraInfo[1].rewards == RewardInfo(2, 0)
    && w.g.eras[1].stakes == THREE && w.g.eras[1].toOperators.Keys == paid
    && (forall p :: 1 <= p <= 3 ==> p in w.s.providers
                                    && w.s.providers[p] == ProviderInfo(p, ProviderState.Registered, false))
    && Get(w.s.balances.free, 0) == pot && Get(w.s.balances.locks, 0) == 0 && w.s.balances.frozen == map[]
    && Sum(w.s.balances.free) + Sum(w.s.balances.reserved) == 33 + w.g.inflow
    && w.g.inflow <= 10
  }

  lemma TableIsThree()
    ensures Table(3) == THREE
  {
    assert Table(1) == Put(Table(0), Pair(1, 1), 1);
    assert Table(2) == Put(Table(1), Pair(2, 2), 1);
    assert Table(3) == Put(Table(2), Pair(3, 3), 1);
  }

  lemma EraEnds(w: World)
    requires Inv(SETUP, w) && w.s.currentEra == 1 && w.s.accumulator == RewardInfo(2, 0) && w.g.inflow == 2
    requires w.g.eras != [] && Now(w.g.eras) == THREE
    requires forall p :: 1 <= p <= 3 ==> p in w.s.providers
                                         && w.s.providers[p] == ProviderInfo(p, ProviderState.Registered, false)
    requires Get(w.s.balances.free, 0) == 2 && Get(w.s.balances.locks, 0) == 0 && w.s.balances.frozen == map[]
    requires Sum(w.s.balances.free) + Sum(w.s.balances.reserved) == 35
    ensures Admissible(SETUP, w, OnInitialize(1))
    ensures Claiming(Step(SETUP, w, OnInitialize(1)), {}, 2)
  {
    hide StakesInv, FundsInv, Sum, RotatedStakes, PaidOk;
    StepKeepsInv(SETUP, w, OnInitialize(1));
    SimpleStep(SETUP, w, OnInitialize(1));
    InvBasics(SETUP, w);
    PastEras.LastRecordUnpaid(SETUP, w);
  }

  /** Each operator is due one unit of the two. */
  lemma OneEach(w: World, paid: set<ProviderId>, pot: nat, p: ProviderId)
    requires Claiming(w, paid, pot) && 1 <= p <= 3
    ensures OperatorReward(w.s, p, 1) == 1
    ensures Sum(StakedOn(THREE, p)) == 1
  {
    hide StakesInv, FundsInv, RewardsInv, OperatorReward, ProviderShare, Sum, StakedOn;
    PastEras.LastRecordUnpaid(SETUP, w);
    RewardSteps.OperatorRewardMatches(SETUP, w, p, 1);
    SumOfThree(Pair(1, 1), Pair(2, 2), Pair(3, 3));
    OneOfThree(THREE, p);
  }

  lemma ClaimOutcome(w: World, paid: set<ProviderId>, pot: nat, p: ProviderId)
    requires Claiming(w, paid, pot) && 1 <= p <= 3 && p !in paid
    ensures ClaimOperatorError(SETUP, w.s, p, 1) == if pot >= 1 then None else Some(CurrencyFailure)
  {
    OneEach(w, paid, pot, p);
    OperatorClaimCondition(SETUP, w, p, 1);
    PotDecides(SETUP, w.s, p, 1);
    hide Inv, OperatorReward, ClaimOperatorError, Sum, StakedOn, THREE;
  }

  lemma PotDecides(c: Config, s: State, p: ProviderId, era: nat)
    ensures var e := ClaimOperatorError(c, s, p, era);
            && (e.None? ==> CanWithdraw(s.balances, c.pot, OperatorReward(s, p, era)))
            && (e == Some(CurrencyFailure) ==> !CanWithdraw(s.balances, c.pot, OperatorReward(s, p, era)))
  {
    hide OperatorReward, EntryAt, CanWithdraw;
  }

  lemma ClaimNext(w: World, paid: set<ProviderId>, pot: nat, p: ProviderId)
    requires Claiming(w, paid, pot) && 1 <= p <= 3 && p !in paid && pot >= 1
    ensures Admissible(SETUP, w, ClaimOperator(p, p, 1))
    ensures Claiming(Step(SETUP, w, ClaimOperator(p, p, 1)), paid + {p}, pot - 1)
  {
    hide Inv, StakesInv, FundsInv, RewardsInv, Sum, OperatorReward, ClaimOperatorError, Withdrawn, Deposited, THREE,
         EntryAt, StakedOn;
    ClaimOutcome(w, paid, pot, p);
    OneEach(w, paid, pot, p);
    StepKeepsInv(SETUP, w, ClaimOperator(p, p, 1));
    SimpleStep(SETUP, w, ClaimOperator(p, p, 1));
    PotPaysOne(w.s.balances, p);
  }

  lemma PotPaysOne(b: Balances, who: AccountId)
    requires who != 0 && Get(b.free, 0) >= 1
    ensures var b' := Deposited(Withdrawn(b, 0, 1), who, 1);
            && Get(b'.free, 0) == Get(b.free, 0) - 1 && b' == b.(free := b'.free)
            && Sum(b'.free) == Sum(b.free)
  {
    hide Sum;
    var w := Withdrawn(b, 0, 1);
    SumPut(b.free, 0, SatSub(Get(b.free, 0), 1));
    SumPut(w.free, who, Get(w.free, who) + 1);
  }

  lemma MoreRewards(w: World, paid: set<ProviderId>)
    requires Claiming(w, paid, 0) && w.g.inflow == 2
    ensures Admissible(SETUP, w, Rewards(1))
    ensures Claiming(Step(SETUP, w, Rewards(1)), paid, 1)
  {
    hide Inv, Sum, Times, THREE;
    SumPut(w.s.balances.free, 0, 1);
    StepKeepsInv(SETUP, w, Rewards(1));
    SimpleStep(SETUP, w, Rewards(1));
  }

  lemma AllClaimedOverpays(w: World)
    requires Claiming(w, {1, 2, 3}, 0)
    ensures w.g.eras[1].paid >= 3
  {
    hide StakesInv, FundsInv, PaidOk, Sum;
    var r := w.g.eras[1];
    assert PaidOk(r, RewardInfo(2, 0));
    SumOfThree(Pair(1, 1), Pair(2, 2), Pair(3, 3));
    forall p | 1 <= p <= 3 ensures ProviderShare(THREE, 2, p) == 1 {
      OneOfThree(THREE, p);
    }
    hide Inv, ProviderShare, THREE;
    ThreePaid(r);
  }

  lemma ThreePaid(r: EraRecord)
    requires PaidOk(r, RewardInfo(2, 0)) && r.stakes == THREE && r.toOperators.Keys == {1, 2, 3}
    requires forall p: ProviderId :: 1 <= p <= 3 ==> ProviderShare(THREE, 2, p) == 1
    ensures r.paid >= 3
  {
    hide ProviderShare, StakerShare, Sum, StakedOn, THREE;
    assert r.toOperators == map[1 := 1, 2 := 1, 3 := 1];
    SumOfThree<ProviderId>(1, 2, 3);
  }

  // ---------------------------------------------------------------- the run

  ghost predicate Reaches(evs: seq<Event>, w: World) {
    SETUP.Valid() && AdmissibleRun(SETUP, Opened(), evs) && w == Execute(SETUP, Opened(), evs)
  }

  lemma Extend(evs: seq<Event>, w: World, ev: Event)
    requires Reaches(evs, w) && w.g.eras != [] && Admissible(SETUP, w, ev)
    ensures Reaches(evs + [ev], Step(SETUP, w, ev))
  {
    hide Opened, Step, Admissible;
    ExecuteSnoc(SETUP, Opened(), evs, ev);
  }

  lemma RegisterAll() returns (evs: seq<Event>, w: World)
    ensures Reaches(evs, w) && Registering(w, 3)
    ensures evs == [Register(1, 1, 11), Register(2, 2, 11), Register(3, 3, 11)]
  {
    hide Registering, Reaches, Step, Admissible;
    OpenedRegistering();
    evs, w := [], Opened();
    assert Reaches(evs, w) by { StartReaches(); }
    for n := 0 to 3
      invariant Reaches(evs, w) && Registering(w, n) && w.g.eras != []
      invariant evs == [Register(1, 1, 11), Register(2, 2, 11), Register(3, 3, 11)][..n]
    {
      RegisterNext(w, n);
      Extend(evs, w, Register(n + 1, n + 1, 11));
      evs, w := evs + [Register(n + 1, n + 1, 11)], Step(SETUP, w, Register(n + 1, n + 1, 11));
      RegisteringEras(w, n + 1);
    }
  }

  lemma StartReaches()
    ensures Reaches([], Opened())
  {
  }

  lemma RegisteringEras(w: World, n: nat)
    requires Registering(w, n)
    ensures w.g.eras != []
  {
  }

  /** The events up to the second claim: the pot is empty and the third operator's claim bounces. */
  const UNTIL_EMPTY: seq<Event> := [
    Register(1, 1, 11), Register(2, 2, 11), Register(3, 3, 11), Rewards(2), OnInitialize(1),
    ClaimOperator(1, 1, 1), ClaimOperator(2, 2, 1)]

  const RUN: seq<Event> := UNTIL_EMPTY + [Rewards(1), ClaimOperator(3, 3, 1)]

  lemma EmptyPot() returns (w: World)
    ensures Reaches(UNTIL_EMPTY, w) && Claiming(w, {1, 2}, 0) && w.g.inflow == 2
  {
    hide Reaches, Step, Admissible, Inv, Sum, THREE;
    var evs, w0 := RegisterAll();
    TableIsThree();
    FirstRewards(w0);
    Extend(evs, w0, Rewards(2));
    var w1 := Step(SETUP, w0, Rewards(2));
    EraEnds(w1);
    Extend(evs + [Rewards(2)], w1, OnInitialize(1));
    var w2 := Step(SETUP, w1, OnInitialize(1));
    StepInflow(SETUP, w1, OnInitialize(1));
    ClaimNext(w2, {}, 2, 1);
    StepInflow(SETUP, w2, ClaimOperator(1, 1, 1));
    Extend(evs + [Rewards(2)] + [OnInitialize(1)], w2, ClaimOperator(1, 1, 1));
    var w3 := Step(SETUP, w2, ClaimOperator(1, 1, 1));
    assert {} + {1} == {1} && {1} + {2} == {1, 2};
    ClaimNext(w3, {1}, 1, 2);
    StepInflow(SETUP, w3, ClaimOperator(2, 2, 1));
    Extend(evs + [Rewards(2)] + [OnInitialize(1)] + [ClaimOperator(1, 1, 1)], w3, ClaimOperator(2, 2, 1));
    w := Step(SETUP, w3, ClaimOperator(2, 2, 1));
    assert evs + [Rewards(2)] + [OnInitialize(1)] + [ClaimOperator(1, 1, 1)] + [ClaimOperator(2, 2, 1)] == UNTIL_EMPTY;
  }

  /** Once two of the three equal operators are paid out of a reward of two, the third one's due claim fails. */
  lemma PotRunsDry()
    ensures SETUP.Valid() && AdmissibleRun(SETUP, Opened(), UNTIL_EMPTY)
    ensures ClaimOperatorError(SETUP, Execute(SETUP, Opened(), UNTIL_EMPTY).s, 3, 1) == Some(CurrencyFailure)
  {
    hide Opened, Inv, Sum, THREE, ClaimOperatorError;
    var w := EmptyPot();
    ClaimOutcome(w, {1, 2}, 0, 3);
  }

  /** With one more unit in the pot it succeeds, and era 1 has paid three although its rewards were two. */
  lemma OverpaidReachable()
    ensures SETUP.Valid() && AdmissibleRun(SETUP, Opened(), RUN)
    ensures var w := Execute(SETUP, Opened(), RUN);
            && Inv(SETUP, w) && 1 < w.s.currentEra && 1 < |w.g.eras| && 1 in w.s.eraInfo
            && w.s.eraInfo[1].rewards == RewardInfo(2, 0)
            && w.g.eras[1].paid > w.s.eraInfo[1].rewards.operators + w.s.eraInfo[1].rewards.stakers
  {
    hide Opened, Inv, Step, Sum, Admissible, THREE;
    var w := EmptyPot();
    MoreRewards(w, {1, 2});
    Extend(UNTIL_EMPTY, w, Rewards(1));
    var w1 := Step(SETUP, w, Rewards(1));
    ClaimNext(w1, {1, 2}, 1, 3);
    Extend(UNTIL_EMPTY + [Rewards(1)], w1, ClaimOperator(3, 3, 1));
    var w2 := Step(SETUP, w1, ClaimOperator(3, 3, 1));
    assert {1, 2} + {3} == {1, 2, 3};
    AllClaimedOverpays(w2);
    assert UNTIL_EMPTY + [Rewards(1)] + [ClaimOperator(3, 3, 1)] == RUN;
  }
}
