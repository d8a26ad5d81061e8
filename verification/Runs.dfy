/** The steps of the staking pallet, how the reference model follows each of them, and runs of any length. */
module Runs {
  import opened Options
  import opened Sums
  import opened Arithmetic
  import opened StakerHistory
  import opened StakingState
  import opened StakingInvariant

  datatype Event =
    | Stake(who: AccountId, p: ProviderId, value: nat)
    | Unstake(who: AccountId, p: ProviderId, value: nat)
    | WithdrawUnstaked(who: AccountId)
    | ClaimStaker(who: AccountId, p: ProviderId)
    | ClaimOperator(who: AccountId, p: ProviderId, era: nat)
    | WithdrawFromUnregisteredStaker(who: AccountId, p: ProviderId)
    | WithdrawFromUnregisteredOperator(who: AccountId, p: ProviderId)
    | Register(who: AccountId, p: ProviderId, deposit: nat)
    | Unregister(p: ProviderId)
    | Rewards(amount: nat)
    | OnInitialize(now: nat)
    | ForceNewEra
      // Transfers, fees and issuance outside the pallet, which respect the staking locks.
    | CurrencyChange(free: map<AccountId, nat>, frozen: map<AccountId, nat>)

  // ---------------------------------------------------------------- the steps

  function CallError(c: Config, s: State, ev: Event): Option<Error> {
    match ev
    case Stake(who, p, value) => StakeError(c, s, who, p, value)
    case Unstake(who, p, value) => UnstakeError(c, s, who, p, value)
    case WithdrawUnstaked(who) => WithdrawError(s, who)
    case ClaimStaker(who, p) => ClaimStakerError(c, s, who, p)
    case ClaimOperator(_, p, era) => ClaimOperatorError(c, s, p, era)
    case WithdrawFromUnregisteredStaker(who, p) => ExitStakerError(c, s, who, p)
    case WithdrawFromUnregisteredOperator(who, p) => ExitOperatorError(c, s, who, p)
    case Register(who, p, deposit) => RegisterError(c, s, who, p, deposit)
    case Unregister(p) => UnregisterError(s, p)
    case Rewards(_) => None
    case OnInitialize(_) => None
    case ForceNewEra => None
    case CurrencyChange(_, _) => None
  }

  /** `register` is two steps in a row: once its own checks pass, a failing stake does not undo them. */
  function Then(ev: Event, c: Config): Option<Event> {
    match ev
    case Register(who, p, deposit) => Some(Stake(who, p, SatSub(deposit, c.registerDeposit)))
    case _ => None
  }

  function Effect(c: Config, s: State, ev: Event): State
    requires c.Valid() && CallError(c, s, ev).None?
  {
    match ev
    case Stake(who, p, value) => StakeEffect(c, s, who, p, value)
    case Unstake(who, p, value) => UnstakeEffect(c, s, who, p, value)
    case WithdrawUnstaked(who) => WithdrawEffect(s, who)
    case ClaimStaker(who, p) => ClaimStakerEffect(c, s, who, p)
    case ClaimOperator(_, p, era) => ClaimOperatorEffect(c, s, p, era)
    case WithdrawFromUnregisteredStaker(who, p) => ExitStakerEffect(s, who, p)
    case WithdrawFromUnregisteredOperator(who, p) => ExitOperatorEffect(c, s, who, p)
    case Register(who, p, deposit) => RegisterEffect(c, s, who, p)
    case Unregister(p) => UnregisterEffect(s, p)
    case Rewards(amount) => RewardsEffect(c, s, amount)
    case OnInitialize(now) => if StartsEra(c, s, now) then NewEraEffect(s) else s
    case ForceNewEra => s.(forceNewEra := true)
    case CurrencyChange(free, frozen) => s.(balances := s.balances.(free := free, frozen := frozen))
  }

  // ---------------------------------------------------------------- the reference model's steps

  /** Set the stake of pair `k` from now on. */
  function SetStake(g: Shadow, k: Pair, x: nat): Shadow
    requires g.eras != []
  {
    g.(eras := WithNow(g.eras, Put(Now(g.eras), k, x)))
  }

  function PayStaker(r: EraRecord, k: Pair, amount: nat): EraRecord {
    r.(toStakers := r.toStakers[k := amount], paid := r.paid + amount)
  }

  function PayOperator(r: EraRecord, p: ProviderId, amount: nat): EraRecord {
    r.(toOperators := r.toOperators[p := amount], paid := r.paid + amount)
  }

  function Track(c: Config, w: World, ev: Event): (g': Shadow)
    requires c.Valid() && w.g.eras != []
    ensures |g'.eras| >= |w.g.eras|
  {
    var s, g := w.s, w.g;
    match ev
    case Stake(who, p, value) =>
      SetStake(g, Pair(who, p), Get(Now(g.eras), Pair(who, p)) + StakeAmount(c, s, who, value))
    case Unstake(who, p, value) =>
      var amount := UnstakeAmount(c, s, who, p, value);
      var mine := UnstakedBy(g.unstaked, who);
      SetStake(g, Pair(who, p), SatSub(Get(Now(g.eras), Pair(who, p)), amount))
      .(unstaked := g.unstaked[who := mine[s.currentEra := Get(mine, s.currentEra) + amount]])
    case WithdrawUnstaked(who) =>
      g.(withdrawn := g.withdrawn[who := Get(g.withdrawn, who) + WithdrawAmount(s, who)])
    case ClaimStaker(who, p) =>
      var era := ClaimedEntry(HistoryOf(s.stakerInfo, Pair(who, p))).era;
      if era >= |g.eras| then g
      else g.(eras := g.eras[era := PayStaker(g.eras[era], Pair(who, p), StakerReward(s, who, p))])
    case ClaimOperator(_, p, era) =>
      if era >= |g.eras| then g
      else g.(eras := g.eras[era := PayOperator(g.eras[era], p, OperatorReward(s, p, era))])
    case WithdrawFromUnregisteredStaker(who, p) =>
      SetStake(g, Pair(who, p), 0).(exited := g.exited + {Pair(who, p)})
    case Rewards(amount) => g.(inflow := g.inflow + amount)
    case OnInitialize(now) =>
      if StartsEra(c, s, now) then g.(eras := g.eras + [EraRecord(Now(g.eras), map[], map[], 0)]) else g
    case CurrencyChange(free, _) => g.(potBase := g.potBase + Get(free, c.pot) - Get(s.balances.free, c.pot))
    case WithdrawFromUnregisteredOperator(_, _) => g
    case Register(_, _, _) => g
    case Unregister(_) => g
    case ForceNewEra => g
  }

  /** One atomic step; a failing call changes nothing. */
  function Atomic(c: Config, w: World, ev: Event): (w': World)
    requires c.Valid() && w.g.eras != []
    ensures |w'.g.eras| >= |w.g.eras|
  {
    if CallError(c, w.s, ev).None? then World(Effect(c, w.s, ev), Track(c, w, ev)) else w
  }

  function Step(c: Config, w: World, ev: Event): (w': World)
    requires c.Valid() && w.g.eras != []
    ensures |w'.g.eras| >= |w.g.eras|
  {
    if CallError(c, w.s, ev).None? && Then(ev, c).Some?
    then Atomic(c, Atomic(c, w, ev), Then(ev, c).value)
    else Atomic(c, w, ev)
  }

  /** What the call reports to its caller. */
  function StepOutcome(c: Config, w: World, ev: Event): Outcome
    requires c.Valid() && w.g.eras != []
  {
    if CallError(c, w.s, ev).None? && Then(ev, c).Some?
    then AsOutcome(CallError(c, Atomic(c, w, ev).s, Then(ev, c).value))
    else AsOutcome(CallError(c, w.s, ev))
  }

  /** Every call but `register` is a single atomic step: it fails and changes nothing, or has its whole effect. */
  lemma SimpleStep(c: Config, w: World, ev: Event)
    requires c.Valid() && w.g.eras != [] && !ev.Register?
    ensures Step(c, w, ev) == Atomic(c, w, ev)
    ensures StepOutcome(c, w, ev) == AsOutcome(CallError(c, w.s, ev))
    ensures CallError(c, w.s, ev).Some? ==> Step(c, w, ev) == w
    ensures CallError(c, w.s, ev).None? ==> Step(c, w, ev) == World(Effect(c, w.s, ev), Track(c, w, ev))
  {
    hide Effect, Track, CallError;
  }

  /** `register` fails on its own checks, or does its writes and then is whatever the operator's `stake` is. */
  lemma RegisterStepIsStake(c: Config, w: World, who: AccountId, p: ProviderId, deposit: nat)
    requires c.Valid() && w.g.eras != []
    ensures var ev, stake := Register(who, p, deposit), Stake(who, p, SatSub(deposit, c.registerDeposit));
            var e, mid := RegisterError(c, w.s, who, p, deposit), World(RegisterEffect(c, w.s, who, p), w.g);
            && (e.Some? ==> Step(c, w, ev) == w && StepOutcome(c, w, ev) == AsOutcome(e))
            && (e.None? ==>
                  Step(c, w, ev) == Step(c, mid, stake) && StepOutcome(c, w, ev) == StepOutcome(c, mid, stake))
  {
    hide RegisterError, RegisterEffect, StakeError, StakeEffect;
  }

  /**
    What the environment guarantees: nobody signs as the pot, the currency never moves locked funds, and issuance
    and rewards stay within the width of a balance.
    */
  ghost predicate Admissible(c: Config, w: World, ev: Event) {
    match ev
    case Stake(who, _, _) => who != c.pot
    case Unstake(who, _, _) => who != c.pot
    case WithdrawUnstaked(who) => who != c.pot
    case ClaimStaker(who, _) => who != c.pot
    case WithdrawFromUnregisteredStaker(who, _) => who != c.pot
    case WithdrawFromUnregisteredOperator(who, _) => who != c.pot
    case Register(who, _, _) => who != c.pot
    case Rewards(amount) =>
      && w.g.inflow + amount <= MAX_BALANCE
      && Sum(w.s.balances.free) + Sum(w.s.balances.reserved) + amount <= MAX_BALANCE
    case CurrencyChange(free, _) => SolventOk(w.s.balances.(free := free))
    case ClaimOperator(_, _, _) => true
    case Unregister(_) => true
    case OnInitialize(_) => true
    case ForceNewEra => true
  }
}
