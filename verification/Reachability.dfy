/** Every reachable state satisfies the invariant, and whatever lies in a past era stays as it was. */
module Reachability {
  import opened Sums
  import opened Arithmetic
  import opened StakingState
  import opened StakingInvariant
  import opened Runs
  import LockingSteps
  import WithdrawalSteps
  import RewardSteps
  import EraSteps
  import ProviderSteps

  // ---------------------------------------------------------------- one step

  lemma AtomicKeepsInv(c: Config, w: World, ev: Event)
    requires Inv(c, w) && Admissible(c, w, ev)
    ensures Inv(c, Atomic(c, w, ev))
  {
    hide Inv, Admissible, StakeEffect, UnstakeEffect, WithdrawEffect, ExitStakerEffect, ExitOperatorEffect,
         ClaimStakerEffect, ClaimOperatorEffect, RegisterEffect, UnregisterEffect, RewardsEffect, NewEraEffect,
         StakeError, UnstakeError, WithdrawError, ExitStakerError, ExitOperatorError, ClaimStakerError,
         ClaimOperatorError, RegisterError, UnregisterError, StartsEra, Track;
    InvBasics(c, w);
    if CallError(c, w.s, ev).None? {
      NotThePot(c, w, ev);
      match ev {
        case Stake(who, p, value) => LockingSteps.StakeKeepsInv(c, w, who, p, value);
        case Unstake(who, p, value) => LockingSteps.UnstakeKeepsInv(c, w, who, p, value);
        case WithdrawUnstaked(who) => WithdrawalSteps.WithdrawKeepsInv(c, w, who);
        case ClaimStaker(who, p) => RewardSteps.ClaimKeepsInv(c, w, who, p);
        case ClaimOperator(who, p, era) => RewardSteps.OperatorClaimKeepsInv(c, w, who, p, era);
        case WithdrawFromUnregisteredStaker(who, p) => WithdrawalSteps.ExitKeepsInv(c, w, who, p);
        case WithdrawFromUnregisteredOperator(who, p) =>
          TrackNothing(c, w, ev);
          ProviderSteps.OperatorExitKeepsInv(c, w, who, p);
        case Register(who, p, deposit) =>
          TrackNothing(c, w, ev);
          ProviderSteps.RegisterKeepsInv(c, w, who, p, deposit);
        case Unregister(p) =>
          TrackNothing(c, w, ev);
          ProviderSteps.UnregisterKeepsInv(c, w, p);
        case Rewards(amount) => RewardSteps.RewardsKeepInv(c, w, amount);
        case OnInitialize(now) =>
          if StartsEra(c, w.s, now) {
            EraSteps.NewEraKeepsInv(c, w, now);
          } else {
            TrackNothing(c, w, ev);
          }
        case ForceNewEra =>
          TrackNothing(c, w, ev);
          ForceKeepsInv(c, w);
        case CurrencyChange(free, frozen) => RewardSteps.CurrencyChangeKeepsInv(c, w, free, frozen);
      }
    }
  }

  lemma InvBasics(c: Config, w: World)
    requires Inv(c, w)
    ensures c.Valid() && w.s.currentEra >= 1 && |w.g.eras| == w.s.currentEra + 1
  {
    hide StakesInv, FundsInv, RewardsInv;
  }

  lemma NotThePot(c: Config, w: World, ev: Event)
    requires Admissible(c, w, ev)
    ensures match ev
            case ClaimStaker(who, _) => who != c.pot
            case WithdrawFromUnregisteredOperator(who, _) => who != c.pot
            case Register(who, _, _) => who != c.pot
            case _ => true
  {
  }

  predicate Untracked(c: Config, w: World, ev: Event)
    requires c.Valid()
  {
    ev.WithdrawFromUnregisteredOperator? || ev.Register? || ev.Unregister? || ev.ForceNewEra?
    || (ev.OnInitialize? && !StartsEra(c, w.s, ev.now))
  }

  lemma TrackNothing(c: Config, w: World, ev: Event)
    requires c.Valid() && w.g.eras != [] && Untracked(c, w, ev)
    ensures Track(c, w, ev) == w.g
  {
  }

  lemma ForceKeepsInv(c: Config, w: World)
    requires Inv(c, w)
    ensures Inv(c, World(w.s.(forceNewEra := true), w.g))
  {
    hide HistoriesOk, Denotes, TotalsOk, SlotsOk, FlagsOk, TablesOk, ProvidersOk, ExitedOk, LedgersOk, LockedOk,
         LocksOk, SolventOk, StakedOk, CurrentEraOk, QueuesOk, DepositsOk, PaymentsOk, PotOk;
  }

  lemma StepKeepsInv(c: Config, w: World, ev: Event)
    requires Inv(c, w) && Admissible(c, w, ev)
    ensures Inv(c, Step(c, w, ev))
  {
    hide Inv, Atomic, CallError;
    InvBasics(c, w);
    AtomicKeepsInv(c, w, ev);
    if Then(ev, c).Some? {
      InvBasics(c, Atomic(c, w, ev));
      AtomicKeepsInv(c, Atomic(c, w, ev), Then(ev, c).value);
    }
  }

  // ---------------------------------------------------------------- runs

  function Execute(c: Config, w: World, evs: seq<Event>): (w': World)
    requires c.Valid() && w.g.eras != []
    ensures w'.g.eras != []
    decreases |evs|
  {
    if evs == [] then w else Execute(c, Step(c, w, evs[0]), evs[1..])
  }

  ghost predicate AdmissibleRun(c: Config, w: World, evs: seq<Event>)
    requires c.Valid() && w.g.eras != []
    decreases |evs|
  {
    evs != [] ==> Admissible(c, w, evs[0]) && AdmissibleRun(c, Step(c, w, evs[0]), evs[1..])
  }

  /** The invariant holds after any admissible run. */
  lemma {:induction false} RunKeepsInv(c: Config, w: World, evs: seq<Event>)
    requires Inv(c, w) && AdmissibleRun(c, w, evs)
    ensures Inv(c, Execute(c, w, evs))
    decreases |evs|
  {
    hide Inv, Step, Admissible;
    InvBasics(c, w);
    if evs != [] {
      StepKeepsInv(c, w, evs[0]);
      RunKeepsInv(c, Step(c, w, evs[0]), evs[1..]);
    }
  }

  lemma {:induction false} ExecuteSnoc(c: Config, w: World, evs: seq<Event>, ev: Event)
    requires c.Valid() && w.g.eras != []
    ensures Execute(c, w, evs + [ev]) == Step(c, Execute(c, w, evs), ev)
    ensures AdmissibleRun(c, w, evs) && Admissible(c, Execute(c, w, evs), ev) ==> AdmissibleRun(c, w, evs + [ev])
    decreases |evs|
  {
    hide Step, Admissible;
    if evs == [] {
      assert evs + [ev] == [ev] && [ev][1..] == [];
    } else {
      assert (evs + [ev])[1..] == evs[1..] + [ev];
      ExecuteSnoc(c, Step(c, w, evs[0]), evs[1..], ev);
    }
  }

  lemma ExecuteCons(c: Config, w: World, ev: Event, evs: seq<Event>)
    requires c.Valid() && w.g.eras != []
    ensures Execute(c, w, [ev] + evs) == Execute(c, Step(c, w, ev), evs)
    ensures AdmissibleRun(c, w, [ev] + evs) <==> Admissible(c, w, ev) && AdmissibleRun(c, Step(c, w, ev), evs)
  {
    hide Step, Admissible;
    assert ([ev] + evs)[1..] == evs;
  }

  // ---------------------------------------------------------------- the start

  function Genesis(c: Config, free: map<AccountId, nat>, frozen: map<AccountId, nat>): World {
    World(State(map[], 0, NO_REWARDS, false, map[], map[], map[], map[], Balances(free, map[], map[], frozen)),
          Shadow([EraRecord(map[], map[], map[], 0)], {}, map[], map[], 0, Get(free, c.pot)))
  }

  /** The first block always opens era 1, and from there on the invariant holds. */
  lemma FirstBlock(c: Config, free: map<AccountId, nat>, frozen: map<AccountId, nat>, now: nat)
    requires c.Valid() && Sum(free) <= MAX_BALANCE
    ensures Inv(c, Step(c, Genesis(c, free, frozen), OnInitialize(now)))
    ensures Step(c, Genesis(c, free, frozen), OnInitialize(now)).s.currentEra == 1
  {
    hide StakesInv, FundsInv, RewardsInv, RotatedStakes, RewardSnapshot;
    var start := Genesis(c, free, frozen);
    FirstSnapshot();
    var w := World(NewEraEffect(start.s), Track(c, start, OnInitialize(now)));
    FirstStakes(c, w);
    FirstFunds(c, w);
    FirstRewards(c, w);
  }

  lemma FirstSnapshot()
    ensures RewardSnapshot(map[], 0, NO_REWARDS) == map[0 := EraInfo(NO_REWARDS, 0, 0), 1 := EraInfo(NO_REWARDS, 0, 0)]
    ensures RotatedStakes(map[], map[], 0) == map[]
  {
  }

  ghost predicate First(w: World) {
    && w.s.currentEra == 1 && w.g.eras == [EraRecord(map[], map[], map[], 0), EraRecord(map[], map[], map[], 0)]
    && w.s.stakerInfo == map[] && w.s.providers == map[] && w.s.providerStake == map[] && w.g.exited == {}
    && w.s.ledger == map[] && w.s.balances.locks == map[] && w.s.balances.reserved == map[]
    && w.g.unstaked == map[] && w.g.withdrawn == map[]
    && w.s.eraInfo == map[0 := EraInfo(NO_REWARDS, 0, 0), 1 := EraInfo(NO_REWARDS, 0, 0)]
    && w.s.accumulator == NO_REWARDS && w.g.inflow == 0
  }

  lemma FirstStakes(c: Config, w: World)
    requires First(w)
    ensures StakesInv(c, w)
  {
    forall p ensures StakedOn(map[], p) == map[] {
    }
  }

  lemma FirstFunds(c: Config, w: World)
    requires First(w) && Sum(w.s.balances.free) <= MAX_BALANCE
    ensures FundsInv(c, w)
  {
    forall a ensures StakedBy(map[], a) == map[] && Holding(map[], a) == {} {
    }
    assert LockedAmounts(map[]) == map[];
  }

  lemma FirstRewards(c: Config, w: World)
    requires First(w) && Get(w.s.balances.free, c.pot) == w.g.potBase
    ensures RewardsInv(c, w)
  {
    hide PaidOk, TotalPaid;
    NothingPaid(w.g.eras[0]);
    NonePaid(w.g.eras);
    assert PaymentsOk(w.s.eraInfo, w.g.eras);
    assert RewardsBefore(w.s.eraInfo, 1) == 0;
  }

  lemma NothingPaid(r: EraRecord)
    requires Unpaid(r)
    ensures PaidOk(r, NO_REWARDS)
  {
  }

  lemma NonePaid(eras: seq<EraRecord>)
    requires |eras| == 2 && Unpaid(eras[0]) && Unpaid(eras[1])
    ensures TotalPaid(eras) == 0
  {
    var one := eras[..1];
    assert TotalPaid(eras) == TotalPaid(one) + eras[1].paid;
    assert TotalPaid(one) == TotalPaid(one[..0]) + one[0].paid;
  }

  lemma FirstBlockState(c: Config, free: map<AccountId, nat>, frozen: map<AccountId, nat>, now: nat)
    requires c.Valid()
    ensures var s := Step(c, Genesis(c, free, frozen), OnInitialize(now)).s;
            s.providers == map[] && s.ledger == map[] && s.balances == Balances(free, map[], map[], frozen)
  {
    hide Track, RotatedStakes, RewardSnapshot;
  }

  /** Every state that a chain can reach after its first block satisfies the invariant. */
  lemma ReachableInv(c: Config, free: map<AccountId, nat>, frozen: map<AccountId, nat>, now: nat, evs: seq<Event>)
    requires c.Valid() && Sum(free) <= MAX_BALANCE
    requires AdmissibleRun(c, Step(c, Genesis(c, free, frozen), OnInitialize(now)), evs)
    ensures Inv(c, Execute(c, Step(c, Genesis(c, free, frozen), OnInitialize(now)), evs))
  {
    hide Inv, Step;
    FirstBlock(c, free, frozen, now);
    RunKeepsInv(c, Step(c, Genesis(c, free, frozen), OnInitialize(now)), evs);
  }
}
