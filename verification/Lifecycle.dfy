/** The provider registry of the dAPI pallet and how it stays in step with the staking pallet. */
module Lifecycle {
  import opened Options
  import opened Sums
  import opened Arithmetic
  import opened StakerHistory
  import opened StakingState
  import opened StakingInvariant
  import opened Runs
  import opened Reachability
  import Consequences

  type ChainId = seq<bv8>

  datatype ProviderType = Gateway | Node
  datatype DapiState = Registered | Active | InActive
  datatype Provider = Provider(providerType: ProviderType, operator: AccountId, chainId: ChainId, state: DapiState)

  type Registry = map<ProviderId, Provider>

  datatype DapiError =
    | AlreadyExist
    | InactiveProvider
    | BadChainId
    | NotExist
    | NotOwner
    | PermissionDenied
    | InvalidProviderState
    | StakingFailure(error: Error)

  /** Both pallets: the staking world, the registry, and the sets that governance maintains. */
  datatype Network = Network(w: World, registry: Registry, regulators: set<AccountId>, chainIds: set<ChainId>)

  datatype Call =
    | Staking(ev: Event)
    | RegisterProvider(who: AccountId, p: ProviderId, providerType: ProviderType, operator: AccountId, chainId: ChainId)
    | DepositProvider(who: AccountId, p: ProviderId, deposit: nat)
    | UnregisterProvider(who: AccountId, p: ProviderId)
    | ReportProviderOffence(who: AccountId, p: ProviderId)
    | Govern(regulators: set<AccountId>, chainIds: set<ChainId>)

  // ---------------------------------------------------------------- the calls

  /** The pallet's own checks, before it turns to staking. */
  function RegistryError(maxChainId: nat, n: Network, call: Call): Option<DapiError> {
    match call
    case RegisterProvider(who, p, _, _, chainId) =>
      if who !in n.regulators then Some(PermissionDenied)
      else if p in n.registry then Some(AlreadyExist)
      else if |chainId| > maxChainId then Some(BadChainId)
      else if chainId !in n.chainIds then Some(NotExist)
      else None
    case DepositProvider(who, p, _) =>
      if p !in n.registry then Some(NotExist)
      else if n.registry[p].operator != who then Some(NotOwner)
      else if n.registry[p].state != DapiState.Registered then Some(InvalidProviderState)
      else None
    case UnregisterProvider(who, p) =>
      if p !in n.registry then Some(NotExist)
      else if n.registry[p].operator != who then Some(NotOwner)
      else if n.registry[p].state != Active then Some(InactiveProvider)
      else None
    case ReportProviderOffence(who, p) =>
      if who !in n.regulators then Some(PermissionDenied)
      else if p !in n.registry then Some(NotExist)
      else if n.registry[p].state != Active then Some(InvalidProviderState)
      else None
    case Staking(_) => None
    case Govern(_, _) => None
  }

  /** The staking step that a call leads to. */
  function StakingPart(call: Call): Option<Event> {
    match call
    case Staking(ev) => Some(ev)
    case DepositProvider(who, p, deposit) => Some(Register(who, p, deposit))
    case UnregisterProvider(_, p) => Some(Unregister(p))
    case ReportProviderOffence(_, p) => Some(Unregister(p))
    case _ => None
  }

  function CallOutcome(c: Config, maxChainId: nat, n: Network, call: Call): Option<DapiError>
    requires c.Valid() && n.w.g.eras != []
  {
    var e := RegistryError(maxChainId, n, call);
    if e.Some? || StakingPart(call).None? then e
    else
      match StepOutcome(c, n.w, StakingPart(call).value)
      case Ok => None
      case Err(error) => Some(StakingFailure(error))
  }

  /** What a successful call writes to the registry. */
  function RegistryEffect(n: Network, call: Call): Registry {
    match call
    case RegisterProvider(_, p, providerType, operator, chainId) =>
      n.registry[p := Provider(providerType, operator, chainId, DapiState.Registered)]
    case DepositProvider(_, p, _) => WithState(n.registry, p, Active)
    case UnregisterProvider(_, p) => WithState(n.registry, p, InActive)
    case ReportProviderOffence(_, p) => WithState(n.registry, p, InActive)
    case _ => n.registry
  }

  function WithState(registry: Registry, p: ProviderId, state: DapiState): Registry {
    if p in registry then registry[p := registry[p].(state := state)] else registry
  }

  /** The staking part happens whenever the registry's checks pass; the registry is written only if it succeeds. */
  function NetStep(c: Config, maxChainId: nat, n: Network, call: Call): (n': Network)
    requires c.Valid() && n.w.g.eras != []
    ensures n'.w.g.eras != []
  {
    if RegistryError(maxChainId, n, call).Some? then n
    else
      var w' := if StakingPart(call).Some? then Step(c, n.w, StakingPart(call).value) else n.w;
      var registry' := if CallOutcome(c, maxChainId, n, call).None? then RegistryEffect(n, call) else n.registry;
      match call
      case Govern(regulators, chainIds) => Network(n.w, n.registry, regulators, chainIds)
      case _ => Network(w', registry', n.regulators, n.chainIds)
  }

  ghost predicate CallAdmissible(c: Config, n: Network, call: Call) {
    match call
    case Staking(ev) => Admissible(c, n.w, ev) && !ev.Register? && !ev.Unregister?
    case DepositProvider(who, _, _) => who != c.pot
    case _ => true
  }

  // ---------------------------------------------------------------- agreement

  /** What the registry says about a provider and what staking says about it. */
  ghost predicate Agrees(n: Network, p: ProviderId) {
    var staked := n.w.s.providers;
    && (p in staked ==> p in n.registry && staked[p].operator == n.registry[p].operator)
    && (p in n.registry ==>
          match n.registry[p].state
          case Registered => p in staked ==> staked[p].state.Registered?
          case Active => p in staked && staked[p].state.Registered?
          case InActive => p in staked && staked[p].state.Unregistered? && staked[p].state.era <= n.w.s.currentEra)
  }

  ghost predicate NetInv(c: Config, n: Network) {
    Inv(c, n.w) && forall p :: Agrees(n, p)
  }

  /** Which providers a staking step may touch, and how. */
  ghost predicate ProvidersKept(s: State, s': State) {
    && s'.currentEra >= s.currentEra
    && s'.providers.Keys == s.providers.Keys
    && forall p :: p in s.providers ==>
                     && s'.providers[p].operator == s.providers[p].operator
                     && s'.providers[p].state == s.providers[p].state
  }

  lemma AtomicKeepsProviders(c: Config, w: World, ev: Event)
    requires c.Valid() && w.g.eras != [] && !ev.Register? && !ev.Unregister?
    ensures ProvidersKept(w.s, Atomic(c, w, ev).s)
  {
    hide StakeError, UnstakeError, WithdrawError, ExitStakerError, ClaimStakerError, ClaimOperatorError, StakeAmount,
         UnstakeAmount, WithdrawAmount, StakerReward, OperatorReward, Staked, WithHistory, Track, Unstaked, Claimed,
         EraGrown, EraShrunk, WithLedger, WithLock, RotatedStakes, RewardSnapshot, Latest, EntryAt, Deposited,
         Withdrawn, Unreserved, Reserved, ClaimedEntry, CanWithdraw;
  }

  /** `register` inserts the provider as soon as its own checks pass, whatever becomes of the stake. */
  lemma RegisterStep(c: Config, w: World, who: AccountId, p: ProviderId, deposit: nat)
    requires c.Valid() && w.g.eras != []
    ensures var s' := Step(c, w, Register(who, p, deposit)).s;
            && s'.currentEra == w.s.currentEra
            && s'.providers == if RegisterError(c, w.s, who, p, deposit).None?
                               then w.s.providers[p := ProviderInfo(who, ProviderState.Registered, false)]
                               else w.s.providers
    ensures StepOutcome(c, w, Register(who, p, deposit)) == Ok ==> RegisterError(c, w.s, who, p, deposit).None?
  {
    hide StakeError, StakeAmount, Staked, WithHistory, Track, EraGrown, WithLedger, WithLock, Latest, EntryAt,
         Reserved, RegisterError;
  }

  lemma UnregisterStep(c: Config, w: World, p: ProviderId)
    requires c.Valid() && w.g.eras != []
    ensures var s' := Step(c, w, Unregister(p)).s;
            && s'.currentEra == w.s.currentEra
            && s'.providers == if IsActive(w.s.providers, p)
                               then w.s.providers[p := w.s.providers[p].(state := Unregistered(w.s.currentEra))]
                               else w.s.providers
    ensures StepOutcome(c, w, Unregister(p)) == Ok <==> IsActive(w.s.providers, p)
  {
  }

  lemma OrdinaryStep(c: Config, w: World, ev: Event)
    requires c.Valid() && w.g.eras != [] && !ev.Register? && !ev.Unregister?
    ensures ProvidersKept(w.s, Step(c, w, ev).s)
  {
    hide Atomic, CallError;
    AtomicKeepsProviders(c, w, ev);
  }

  lemma NetStepAgrees(c: Config, maxChainId: nat, n: Network, call: Call, p: ProviderId)
    requires c.Valid() && n.w.g.eras != [] && CallAdmissible(c, n, call) && forall q :: Agrees(n, q)
    ensures Agrees(NetStep(c, maxChainId, n, call), p)
  {
    hide Step, StepOutcome, RegisterError, Admissible;
    assert Agrees(n, p);
    match call {
      case Staking(ev) => OrdinaryStep(c, n.w, ev);
      case DepositProvider(who, q, deposit) => RegisterStep(c, n.w, who, q, deposit);
      case UnregisterProvider(_, q) => UnregisterStep(c, n.w, q);
      case ReportProviderOffence(_, q) => UnregisterStep(c, n.w, q);
      case _ =>
    }
  }

  lemma NetStepKeepsInv(c: Config, maxChainId: nat, n: Network, call: Call)
    requires NetInv(c, n) && CallAdmissible(c, n, call)
    ensures c.Valid() && n.w.g.eras != []
    ensures NetInv(c, NetStep(c, maxChainId, n, call))
  {
    hide Inv, Agrees, NetStep, StakingPart, CallAdmissible;
    InvBasics(c, n.w);
    forall p ensures Agrees(NetStep(c, maxChainId, n, call), p) {
      NetStepAgrees(c, maxChainId, n, call, p);
    }
    NetStepWorld(c, maxChainId, n, call);
    if StakingPart(call).Some? {
      PartAdmissible(c, n, call);
      StepKeepsInv(c, n.w, StakingPart(call).value);
    }
  }

  lemma NetStepWorld(c: Config, maxChainId: nat, n: Network, call: Call)
    requires c.Valid() && n.w.g.eras != []
    ensures NetStep(c, maxChainId, n, call).w == n.w
         || (StakingPart(call).Some? && NetStep(c, maxChainId, n, call).w == Step(c, n.w, StakingPart(call).value))
  {
    hide Step, StepOutcome, RegistryError, RegistryEffect;
  }

  lemma PartAdmissible(c: Config, n: Network, call: Call)
    requires CallAdmissible(c, n, call) && StakingPart(call).Some?
    ensures Admissible(c, n.w, StakingPart(call).value)
  {
  }

  // ---------------------------------------------------------------- runs

  function NetRun(c: Config, maxChainId: nat, n: Network, calls: seq<Call>): (n': Network)
    requires c.Valid() && n.w.g.eras != []
    ensures n'.w.g.eras != []
    decreases |calls|
  {
    if calls == [] then n else NetRun(c, maxChainId, NetStep(c, maxChainId, n, calls[0]), calls[1..])
  }

  ghost predicate RunAdmissible(c: Config, maxChainId: nat, n: Network, calls: seq<Call>)
    requires c.Valid() && n.w.g.eras != []
    decreases |calls|
  {
    calls != [] ==> CallAdmissible(c, n, calls[0])
                    && RunAdmissible(c, maxChainId, NetStep(c, maxChainId, n, calls[0]), calls[1..])
  }

  /** The two pallets agree about every provider after any run. */
  lemma {:induction false} PalletsAgree(c: Config, maxChainId: nat, n: Network, calls: seq<Call>)
    requires NetInv(c, n)
    requires c.Valid() && n.w.g.eras != []
    requires RunAdmissible(c, maxChainId, n, calls)
    ensures NetInv(c, NetRun(c, maxChainId, n, calls))
    decreases |calls|
  {
    hide NetInv, NetStep, CallAdmissible;
    if calls != [] {
      NetStepKeepsInv(c, maxChainId, n, calls[0]);
      PalletsAgree(c, maxChainId, NetStep(c, maxChainId, n, calls[0]), calls[1..]);
    }
  }

  /** The two pallets after the first block: no providers yet, and whatever sets governance starts with. */
  function StartNetwork(c: Config, free: map<AccountId, nat>, frozen: map<AccountId, nat>, now: nat,
                        regulators: set<AccountId>, chainIds: set<ChainId>): (n: Network)
    requires c.Valid()
    ensures n.w.g.eras != []
  {
    Network(Step(c, Genesis(c, free, frozen), OnInitialize(now)), map[], regulators, chainIds)
  }

  lemma StartInv(c: Config, free: map<AccountId, nat>, frozen: map<AccountId, nat>, now: nat,
                 regulators: set<AccountId>, chainIds: set<ChainId>)
    requires c.Valid() && Sum(free) <= MAX_BALANCE
    ensures NetInv(c, StartNetwork(c, free, frozen, now, regulators, chainIds))
  {
    hide Inv, Step, Genesis;
    FirstBlock(c, free, frozen, now);
    FirstBlockState(c, free, frozen, now);
  }

  /** From genesis on, the two pallets always agree about every provider. */
  lemma ReachablePalletsAgree(c: Config, maxChainId: nat, free: map<AccountId, nat>, frozen: map<AccountId, nat>,
                              now: nat, regulators: set<AccountId>, chainIds: set<ChainId>, calls: seq<Call>)
    requires c.Valid() && Sum(free) <= MAX_BALANCE
    requires RunAdmissible(c, maxChainId, StartNetwork(c, free, frozen, now, regulators, chainIds), calls)
    ensures NetInv(c, NetRun(c, maxChainId, StartNetwork(c, free, frozen, now, regulators, chainIds), calls))
  {
    hide NetInv, StartNetwork;
    StartInv(c, free, frozen, now, regulators, chainIds);
    PalletsAgree(c, maxChainId, StartNetwork(c, free, frozen, now, regulators, chainIds), calls);
  }

  /** After any run an operator has one deposit reserved for each of its providers that has not given it back. */
  lemma DepositsConserved(c: Config, maxChainId: nat, n: Network, calls: seq<Call>, who: AccountId)
    requires NetInv(c, n)
    requires c.Valid() && n.w.g.eras != []
    requires RunAdmissible(c, maxChainId, n, calls)
    ensures var s := NetRun(c, maxChainId, n, calls).w.s;
            Get(s.balances.reserved, who) == |Holding(s.providers, who)| * c.registerDeposit
  {
    hide StakesInv, RewardsInv, NetStep, CallAdmissible, LedgersOk, LockedOk, LocksOk, SolventOk, StakedOk,
         CurrentEraOk, QueuesOk;
    PalletsAgree(c, maxChainId, n, calls);
  }

  function Rank(state: DapiState): nat {
    match state
    case Registered => 0
    case Active => 1
    case InActive => 2
  }

  /** A registered provider keeps its identity and its state only moves forward. */
  ghost predicate Forward(registry: Registry, registry': Registry) {
    forall p :: p in registry ==>
                  && p in registry'
                  && registry'[p] == registry[p].(state := registry'[p].state)
                  && Rank(registry[p].state) <= Rank(registry'[p].state)
  }

  lemma {:induction false} StatesMoveForward(c: Config, maxChainId: nat, n: Network, calls: seq<Call>)
    requires c.Valid() && n.w.g.eras != []
    ensures Forward(n.registry, NetRun(c, maxChainId, n, calls).registry)
    decreases |calls|
  {
    if calls != [] {
      hide Step, StepOutcome, NetStep;
      StatesMoveForward(c, maxChainId, NetStep(c, maxChainId, n, calls[0]), calls[1..]);
      ForwardStep(c, maxChainId, n, calls[0]);
    }
  }

  lemma ForwardStep(c: Config, maxChainId: nat, n: Network, call: Call)
    requires c.Valid() && n.w.g.eras != []
    ensures Forward(n.registry, NetStep(c, maxChainId, n, call).registry)
  {
    hide Step, StepOutcome;
  }

  // ---------------------------------------------------------------- deposits that get stuck

  /** What the operator can still lock once the registration deposit is reserved. */
  function RoomAfterDeposit(c: Config, s: State, who: AccountId): nat {
    var left := SatSub(Get(s.balances.free, who), c.registerDeposit);
    SatSub(SatSub(left, c.minimumRemaining), LedgerOf(s.ledger, who).locked)
  }

  /** Registered with staking, but not activated: the registry still waits for a deposit that staking will refuse. */
  ghost predicate Orphan(n: Network, p: ProviderId) {
    && p in n.registry && n.registry[p].state == DapiState.Registered
    && p in n.w.s.providers && n.w.s.providers[p].state.Registered? && !n.w.s.providers[p].unreserved
  }

  /** The nested stake of a fresh provider succeeds exactly when the limits and the remaining balance allow it. */
  lemma FirstStakeOutcome(c: Config, w: World, who: AccountId, p: ProviderId, deposit: nat)
    requires Inv(c, w) && who != c.pot && RegisterError(c, w.s, who, p, deposit).None?
    ensures c.Valid() && w.g.eras != []
    ensures StepOutcome(c, w, Register(who, p, deposit)) == Ok
       <==> c.maxStakersPerProvider >= 1 && c.maxEraStakeValues >= 2 && RoomAfterDeposit(c, w.s, who) >= c.minimumStake
  {
    InvBasics(c, w);
    RegisterOutcome(c, w, who, p, deposit);
    FreshProvider(c, w, who, p);
    var v := Atomic(c, w, Register(who, p, deposit));
    AtomicKeepsInv(c, w, Register(who, p, deposit));
    Consequences.ImpossibleErrors(c, v, Stake(who, p, SatSub(deposit, c.registerDeposit)));
    hide Inv, CanWithdraw, StakeError, Atomic, StepOutcome, RegisterEffect, RegisterError, RoomAfterDeposit,
         HistoryOf, EntryAt;
    FirstStakeCheck(c, w.s, who, p, deposit);
  }

  lemma RegisterOutcome(c: Config, w: World, who: AccountId, p: ProviderId, deposit: nat)
    requires c.Valid() && w.g.eras != [] && RegisterError(c, w.s, who, p, deposit).None?
    ensures Atomic(c, w, Register(who, p, deposit)).s == RegisterEffect(c, w.s, who, p)
    ensures StepOutcome(c, w, Register(who, p, deposit))
         == AsOutcome(StakeError(c, RegisterEffect(c, w.s, who, p), who, p, SatSub(deposit, c.registerDeposit)))
    ensures p !in w.s.providers
  {
    hide StakeError, CanWithdraw;
  }

  lemma FirstStakeCheck(c: Config, s: State, who: AccountId, p: ProviderId, deposit: nat)
    requires c.Valid() && RegisterError(c, s, who, p, deposit).None?
    requires HistoryOf(s.stakerInfo, Pair(who, p)) == [] && EntryAt(s.providerStake, Slot(p, s.currentEra)) == NO_STAKE
    ensures var e := StakeError(c, RegisterEffect(c, s, who, p), who, p, SatSub(deposit, c.registerDeposit));
            !Consequences.Impossible(e) ==>
              (e.None? <==> c.maxStakersPerProvider >= 1 && c.maxEraStakeValues >= 2
                            && RoomAfterDeposit(c, s, who) >= c.minimumStake)
  {
    var s' := RegisterEffect(c, s, who, p);
    assert AvailableBalance(c, s', who) == RoomAfterDeposit(c, s, who);
  }

  lemma FreshProvider(c: Config, w: World, who: AccountId, p: ProviderId)
    requires Inv(c, w) && p !in w.s.providers
    ensures HistoryOf(w.s.stakerInfo, Pair(who, p)) == []
    ensures EntryAt(w.s.providerStake, Slot(p, w.s.currentEra)) == NO_STAKE
  {
    hide FundsInv, RewardsInv, HistoriesOk, Denotes, TotalsOk, FlagsOk, TablesOk, ProvidersOk, ExitedOk;
  }

  /**
    A deposit either activates the provider or, when the first stake cannot be made, leaves an orphan behind: the
    deposit stays reserved and staking lists the provider, while the registry goes on asking for a deposit.
    */
  lemma DepositOutcome(c: Config, maxChainId: nat, n: Network, who: AccountId, p: ProviderId, deposit: nat)
    requires NetInv(c, n) && who != c.pot && RegistryError(maxChainId, n, DepositProvider(who, p, deposit)).None?
    requires RegisterError(c, n.w.s, who, p, deposit).None?
    ensures c.Valid() && n.w.g.eras != []
    ensures var call := DepositProvider(who, p, deposit);
            var n' := NetStep(c, maxChainId, n, call);
            var fits := c.maxStakersPerProvider >= 1 && c.maxEraStakeValues >= 2
                        && RoomAfterDeposit(c, n.w.s, who) >= c.minimumStake;
            && (CallOutcome(c, maxChainId, n, call).None? <==> fits)
            && p in n'.registry && (n'.registry[p].state == Active <==> fits)
            && (Orphan(n', p) <==> !fits)
            && Get(n'.w.s.balances.reserved, who) == Get(n.w.s.balances.reserved, who) + c.registerDeposit
  {
    hide Inv, Agrees, Step, StepOutcome, RegisterError, RoomAfterDeposit, NetStep, CallOutcome, RegistryError, Get;
    InvBasics(c, n.w);
    FirstStakeOutcome(c, n.w, who, p, deposit);
    RegisterStep(c, n.w, who, p, deposit);
    RegisterReserves(c, n.w, who, p, deposit);
    DepositStep(c, maxChainId, n, who, p, deposit);
  }

  lemma DepositStep(c: Config, maxChainId: nat, n: Network, who: AccountId, p: ProviderId, deposit: nat)
    requires c.Valid() && n.w.g.eras != []
    requires RegistryError(maxChainId, n, DepositProvider(who, p, deposit)).None?
    ensures var call, ev := DepositProvider(who, p, deposit), Register(who, p, deposit);
            var n', ok := NetStep(c, maxChainId, n, call), StepOutcome(c, n.w, ev) == Ok;
            && (CallOutcome(c, maxChainId, n, call).None? <==> ok)
            && n'.w == Step(c, n.w, ev)
            && n'.registry == (if ok then n.registry[p := n.registry[p].(state := Active)] else n.registry)
            && p in n.registry && n.registry[p].state == DapiState.Registered
  {
    hide Step, StepOutcome;
  }

  lemma RegisterReserves(c: Config, w: World, who: AccountId, p: ProviderId, deposit: nat)
    requires c.Valid() && w.g.eras != [] && RegisterError(c, w.s, who, p, deposit).None?
    ensures Get(Step(c, w, Register(who, p, deposit)).s.balances.reserved, who)
         == Get(w.s.balances.reserved, who) + c.registerDeposit
  {
    hide StakeError, StakeAmount, Staked, WithHistory, Track, EraGrown, WithLedger, Latest, EntryAt, RegisterError;
  }

  lemma OrphanStep(c: Config, maxChainId: nat, n: Network, call: Call, p: ProviderId)
    requires c.Valid() && n.w.g.eras != [] && CallAdmissible(c, n, call) && Orphan(n, p)
    ensures Orphan(NetStep(c, maxChainId, n, call), p)
  {
    hide Step, StepOutcome, Admissible, RegisterError;
    match call {
      case Staking(ev) => OrphanStaking(c, n.w, ev, p);
      case DepositProvider(who, q, deposit) =>
        RegisterStep(c, n.w, who, q, deposit);
        RegisteredRefused(c, n.w, who, p, deposit);
      case UnregisterProvider(_, q) => UnregisterStep(c, n.w, q);
      case ReportProviderOffence(_, q) => UnregisterStep(c, n.w, q);
      case _ =>
    }
  }

  lemma RegisteredRefused(c: Config, w: World, who: AccountId, p: ProviderId, deposit: nat)
    requires c.Valid() && w.g.eras != [] && p in w.s.providers
    ensures RegisterError(c, w.s, who, p, deposit) == Some(AlreadyRegisteredProvider)
    ensures StepOutcome(c, w, Register(who, p, deposit)) == Err(AlreadyRegisteredProvider)
  {
  }

  lemma OrphanStaking(c: Config, w: World, ev: Event, p: ProviderId)
    requires c.Valid() && w.g.eras != [] && !ev.Register? && !ev.Unregister?
    requires p in w.s.providers && w.s.providers[p].state.Registered? && !w.s.providers[p].unreserved
    ensures var s' := Step(c, w, ev).s;
            p in s'.providers && s'.providers[p].state.Registered? && !s'.providers[p].unreserved
  {
    hide StakeError, UnstakeError, WithdrawError, ExitStakerError, ClaimStakerError, ClaimOperatorError, StakeAmount,
         UnstakeAmount, WithdrawAmount, StakerReward, OperatorReward, Staked, WithHistory, Track, Unstaked, Claimed,
         EraGrown, EraShrunk, WithLedger, WithLock, RotatedStakes, RewardSnapshot, Latest, EntryAt, Deposited,
         Withdrawn, Unreserved, Reserved, ClaimedEntry, CanWithdraw;
  }

  /**
    An orphan stays an orphan in every run: every later deposit, unregistration and offence report for it fails, and
    its operator's deposit can never be withdrawn.
    */
  lemma {:induction false} OrphanForever(c: Config, maxChainId: nat, n: Network, calls: seq<Call>, p: ProviderId)
    requires c.Valid() && n.w.g.eras != [] && RunAdmissible(c, maxChainId, n, calls) && Orphan(n, p)
    ensures Orphan(NetRun(c, maxChainId, n, calls), p)
    decreases |calls|
  {
    hide Orphan, NetStep, CallAdmissible;
    if calls != [] {
      OrphanStep(c, maxChainId, n, calls[0], p);
      OrphanForever(c, maxChainId, NetStep(c, maxChainId, n, calls[0]), calls[1..], p);
    }
  }

  lemma OrphanCallsFail(c: Config, maxChainId: nat, n: Network, who: AccountId, p: ProviderId, deposit: nat)
    requires c.Valid() && n.w.g.eras != [] && Orphan(n, p)
    ensures CallOutcome(c, maxChainId, n, DepositProvider(who, p, deposit)).Some?
    ensures CallOutcome(c, maxChainId, n, UnregisterProvider(who, p)).Some?
    ensures CallOutcome(c, maxChainId, n, ReportProviderOffence(who, p)).Some?
    ensures ExitOperatorError(c, n.w.s, who, p).Some?
  {
    hide StepOutcome;
    RegisteredRefused(c, n.w, who, p, deposit);
  }

  // ---------------------------------------------------------------- a run that leaves an orphan

  const DEMO := Config(2, 0, 10, 5, 1, 0, 2, 1, 5, 0)

  /** After the first block: operator 1 owns exactly one deposit, account 9 is the regulator. */
  function DemoNetwork(): (n: Network)
    ensures n.w.g.eras != []
  {
    StartNetwork(DEMO, map[1 := 10], map[], 1, {9}, {[]})
  }

  lemma DemoInv()
    ensures DEMO.Valid() && NetInv(DEMO, DemoNetwork())
    ensures DemoNetwork().w.s.balances == Balances(map[1 := 10], map[], map[], map[])
    ensures DemoNetwork().w.s.providers == map[] && DemoNetwork().w.s.ledger == map[]
  {
    hide Inv, NetInv, Step, Sum, Genesis;
    SumOfOne(map[1 := 10], 1, 10);
    StartInv(DEMO, map[1 := 10], map[], 1, {9}, {[]});
    FirstBlockState(DEMO, map[1 := 10], map[], 1);
  }

  lemma SumOfOne(m: map<AccountId, nat>, who: AccountId, amount: nat)
    requires m == map[who := amount]
    ensures Sum(m) == amount
  {
    var none: map<AccountId, nat> := map[];
    SumPut(none, who, amount);
    assert none[who := amount] == m;
  }

  /** A first deposit from an operator that owns the registration deposit and nothing else. */
  lemma PoorOperator(c: Config, maxChainId: nat, n: Network, who: AccountId, p: ProviderId, deposit: nat)
    requires NetInv(c, n) && who != c.pot && RegistryError(maxChainId, n, DepositProvider(who, p, deposit)).None?
    requires p !in n.w.s.providers && deposit >= c.registerDeposit + c.minimumStake && c.registerDeposit > 0
    requires Get(n.w.s.balances.free, who) == c.registerDeposit
    requires Get(n.w.s.balances.locks, who) == Get(n.w.s.balances.frozen, who) == 0
    ensures c.Valid() && n.w.g.eras != []
    ensures CallOutcome(c, maxChainId, n, DepositProvider(who, p, deposit)) == Some(StakingFailure(StakingWithNoValue))
    ensures Orphan(NetStep(c, maxChainId, n, DepositProvider(who, p, deposit)), p)
  {
    hide Inv, Agrees, Step, StepOutcome, NetStep, RegistryError, StakeError;
    InvBasics(c, n.w);
    assert RegisterError(c, n.w.s, who, p, deposit).None?;
    DepositOutcome(c, maxChainId, n, who, p, deposit);
    RegisterOutcome(c, n.w, who, p, deposit);
    NothingLeft(c, n.w.s, who, p, deposit);
    RegisterStepIsStake(c, n.w, who, p, deposit);
    hide Orphan;
  }

  lemma NothingLeft(c: Config, s: State, who: AccountId, p: ProviderId, deposit: nat)
    requires Get(s.balances.free, who) == c.registerDeposit && p !in s.providers
    ensures StakeError(c, RegisterEffect(c, s, who, p), who, p, SatSub(deposit, c.registerDeposit))
         == Some(StakingWithNoValue)
  {
    hide Staked, HistoryOf, EntryAt;
  }

  /**
    A provider whose operator owns the deposit but nothing to stake is orphaned by its first `deposit_provider`,
    which reports `StakingWithNoValue`.
    */
  lemma OrphanReachable()
    ensures var n, register, deposit := DemoNetwork(), RegisterProvider(9, 7, Node, 1, []), DepositProvider(1, 7, 11);
            var n1 := NetStep(DEMO, 32, n, register);
            && NetInv(DEMO, n)
            && RunAdmissible(DEMO, 32, n, [register, deposit])
            && CallOutcome(DEMO, 32, n1, deposit) == Some(StakingFailure(StakingWithNoValue))
            && Orphan(NetRun(DEMO, 32, n, [register, deposit]), 7)
  {
    hide NetInv, Step, StepOutcome, Orphan, DemoNetwork;
    DemoInv();
    var n, register, deposit := DemoNetwork(), RegisterProvider(9, 7, Node, 1, []), DepositProvider(1, 7, 11);
    DemoSets();
    var n1 := NetStep(DEMO, 32, n, register);
    assert n1 == Network(n.w, map[7 := Provider(Node, 1, [], DapiState.Registered)], n.regulators, n.chainIds);
    NetStepKeepsInv(DEMO, 32, n, register);
    PoorOperator(DEMO, 32, n1, 1, 7, 11);
    hide NetStep, CallOutcome;
    assert [register, deposit][1..] == [deposit] && [deposit][1..] == [];
    assert NetRun(DEMO, 32, n, [register, deposit]) == NetRun(DEMO, 32, n1, [deposit]);
    assert RunAdmissible(DEMO, 32, NetStep(DEMO, 32, n1, deposit), []);
    assert RunAdmissible(DEMO, 32, n1, [deposit]);
  }

  lemma DemoSets()
    ensures DemoNetwork().registry == map[] && DemoNetwork().regulators == {9} && DemoNetwork().chainIds == {[]}
  {
    hide Step, Genesis;
  }
}
