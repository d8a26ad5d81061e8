/**
  The reference model and the invariant that ties storage to it.

  The reference model keeps, for every era, the full table of who staked how much on which provider, and what was
  paid out for that era.  It is eager and uncompressed where the pallet is lazy and redundant: the pallet stores one
  compressed history per pair, one total per provider and era, one total per era, one ledger and one lock per account.
  The invariant says that all of these are views of the same tables.
  */
module StakingInvariant {
  import opened Sums
  import opened Arithmetic
  import opened StakerHistory
  import opened Unbonding
  import opened StakingState

  type StakeTable = map<Pair, nat>

  /** One era: the stakes in force, the rewards paid for it so far and, independently, the running total of payments. */
  datatype EraRecord = EraRecord(
    stakes: StakeTable,
    toStakers: map<Pair, nat>,
    toOperators: map<ProviderId, nat>,
    paid: nat)

  datatype Shadow = Shadow(
    eras: seq<EraRecord>,
    exited: set<Pair>,
    unstaked: map<AccountId, map<nat, nat>>,
    withdrawn: map<AccountId, nat>,
    inflow: nat,
    potBase: int)

  datatype World = World(s: State, g: Shadow)

  function UnstakedBy(unstaked: map<AccountId, map<nat, nat>>, who: AccountId): map<nat, nat> {
    if who in unstaked then unstaked[who] else map[]
  }

  /** The stakes in force now. */
  function Now(eras: seq<EraRecord>): StakeTable
    requires eras != []
  {
    eras[|eras| - 1].stakes
  }

  function WithNow(eras: seq<EraRecord>, stakes: StakeTable): seq<EraRecord>
    requires eras != []
  {
    eras[|eras| - 1 := eras[|eras| - 1].(stakes := stakes)]
  }

  function StakedOn(stakes: StakeTable, p: ProviderId): StakeTable {
    Part(stakes, ProviderOf, p)
  }

  function StakedBy(stakes: StakeTable, who: AccountId): StakeTable {
    Part(stakes, StakerOf, who)
  }

  // ---------------------------------------------------------------- stake histories

  ghost predicate HistoryOk(c: Config, now: nat, h: History) {
    h != [] && Ascending(h) && 1 <= h[0].era && h[|h| - 1].era <= now && |h| < c.maxEraStakeValues
  }

  ghost predicate HistoriesOk(c: Config, now: nat, stakerInfo: Histories) {
    forall k :: k in stakerInfo ==> HistoryOk(c, now, stakerInfo[k])
  }

  ghost predicate ListedOk(providers: Providers, stakerInfo: Histories) {
    forall k :: k in stakerInfo ==> k.provider in providers
  }

  /** What a pair can still claim or withdraw for an era: its stake then, unless it was paid or the pair has left. */
  function Unclaimed(eras: seq<EraRecord>, exited: set<Pair>, k: Pair, e: nat): nat
    requires e < |eras|
  {
    if k in exited || k in eras[e].toStakers then 0 else Get(eras[e].stakes, k)
  }

  /** Every compressed history denotes the unclaimed part of the full table. */
  ghost predicate Denotes(stakerInfo: Histories, eras: seq<EraRecord>, exited: set<Pair>) {
    forall k, e: nat :: e < |eras| ==> StakeAt(HistoryOf(stakerInfo, k), e) == Unclaimed(eras, exited, k, e)
  }

  // ---------------------------------------------------------------- provider totals

  predicate Open(info: ProviderInfo, era: nat) {
    info.state.Unregistered? ==> era <= info.state.era
  }

  ghost predicate TotalOk(entry: ProviderStakeInfo, part: StakeTable) {
    entry.total == Sum(part) && entry.numberOfStakers == |part|
  }

  /** Each provider's per-era total and staker count are those of its part of the full table. */
  ghost predicate TotalsOk(providers: Providers, stakes: ProviderStakes, eras: seq<EraRecord>) {
    forall p, e: nat :: e < |eras| && p in providers && Open(providers[p], e) ==>
                          TotalOk(EntryAt(stakes, Slot(p, e)), StakedOn(eras[e].stakes, p))
  }

  ghost predicate SlotsOk(providers: Providers, stakes: ProviderStakes, eras: seq<EraRecord>) {
    forall slot :: slot in stakes ==>
                     slot.provider in providers && slot.era < |eras| && Open(providers[slot.provider], slot.era)
  }

  ghost predicate FlagsOk(stakes: ProviderStakes, eras: seq<EraRecord>) {
    forall p, e: nat :: e < |eras| ==> (EntryAt(stakes, Slot(p, e)).rewardClaimed <==> p in eras[e].toOperators)
  }

  // ---------------------------------------------------------------- the table itself

  ghost predicate TableOk(c: Config, providers: Providers, stakes: StakeTable) {
    && (forall k :: k in stakes ==> stakes[k] >= c.minimumStake && k.provider in providers)
    && (forall p :: |StakedOn(stakes, p)| <= c.maxStakersPerProvider)
  }

  ghost predicate TablesOk(c: Config, providers: Providers, eras: seq<EraRecord>) {
    forall e :: 0 <= e < |eras| ==> TableOk(c, providers, eras[e].stakes)
  }

  ghost predicate ExitedOk(providers: Providers, stakes: StakeTable, exited: set<Pair>) {
    forall k :: k in exited ==> k !in stakes && k.provider in providers && providers[k.provider].state.Unregistered?
  }

  ghost predicate ProvidersOk(c: Config, now: nat, providers: Providers) {
    forall p :: p in providers ==>
                  && providers[p].operator != c.pot
                  && (providers[p].state.Unregistered? ==> providers[p].state.era <= now)
  }

  // ---------------------------------------------------------------- ledgers and locks

  ghost predicate LedgerOk(c: Config, l: AccountLedger) {
    && !l.Empty()
    && Sorted(l.chunks)
    && (forall x :: x in l.chunks ==> x.amount > 0 && x.unlockEra >= c.unbondingPeriod)
    && |l.chunks| <= c.maxUnlockingChunks
  }

  ghost predicate LedgersOk(c: Config, ledger: Ledgers) {
    forall a :: a in ledger ==> LedgerOk(c, ledger[a])
  }

  /** A ledger locks what its account has staked now plus what is still unbonding, and nothing else. */
  ghost predicate LockedOk(ledger: Ledgers, stakes: StakeTable) {
    forall a :: LedgerOf(ledger, a).locked == Sum(StakedBy(stakes, a)) + ChunkSum(LedgerOf(ledger, a).chunks)
  }

  ghost predicate LocksOk(ledger: Ledgers, locks: map<AccountId, nat>) {
    forall a :: (a in locks <==> a in ledger) && Get(locks, a) == LedgerOf(ledger, a).locked
  }

  function LockedAmounts(ledger: Ledgers): map<AccountId, nat> {
    map a | a in ledger :: ledger[a].locked
  }

  ghost predicate SolventOk(b: Balances) {
    && (forall a :: Get(b.locks, a) <= Get(b.free, a))
    && Sum(b.free) + Sum(b.reserved) <= MAX_BALANCE
  }

  // ---------------------------------------------------------------- global totals

  ghost predicate StakedOk(eraInfo: EraInfos, eras: seq<EraRecord>) {
    forall e: nat :: (e in eraInfo <==> e < |eras|) && (e < |eras| ==> eraInfo[e].staked == Sum(eras[e].stakes))
  }

  ghost predicate CurrentEraOk(eraInfo: EraInfos, now: nat, ledger: Ledgers) {
    now in eraInfo && eraInfo[now].locked == Sum(LockedAmounts(ledger)) && eraInfo[now].rewards == NO_REWARDS
  }

  // ---------------------------------------------------------------- unbonding

  /** What falls due in era `x`: whatever was unstaked one unbonding period earlier. */
  function Due(c: Config, unstaked: map<nat, nat>, x: nat): nat {
    if x < c.unbondingPeriod then 0 else Get(unstaked, x - c.unbondingPeriod)
  }

  ghost predicate QueueOk(c: Config, now: nat, chunks: Chunks, unstaked: map<nat, nat>, withdrawn: nat) {
    && withdrawn + ChunkSum(chunks) == Sum(unstaked)
    && (forall x: nat :: x > now ==> Unlocking(chunks, x) == Due(c, unstaked, x))
  }

  ghost predicate QueuesOk(c: Config, now: nat, ledger: Ledgers, g: Shadow) {
    forall a :: QueueOk(c, now, LedgerOf(ledger, a).chunks, UnstakedBy(g.unstaked, a), Get(g.withdrawn, a))
  }

  // ---------------------------------------------------------------- rewards

  /** The part of an era's reward `x` that belongs to provider `p`, computed on the full table. */
  ghost function ProviderShare(stakes: StakeTable, x: nat, p: ProviderId): nat {
    Times(FromRational(Sum(StakedOn(stakes, p)), Sum(stakes)), x)
  }

  /** The part of its provider's joint stakers' reward that belongs to one staker. */
  ghost function StakerShare(stakes: StakeTable, x: nat, k: Pair): nat {
    Times(FromRational(Get(stakes, k), Sum(StakedOn(stakes, k.provider))), ProviderShare(stakes, x, k.provider))
  }

  ghost predicate PaidOk(r: EraRecord, rewards: RewardInfo) {
    && (forall k :: k in r.toStakers ==>
                      k in r.stakes && r.toStakers[k] == StakerShare(r.stakes, rewards.stakers, k))
    && (forall p :: p in r.toOperators ==>
                      && Sum(StakedOn(r.stakes, p)) > 0
                      && r.toOperators[p] == ProviderShare(r.stakes, rewards.operators, p))
    && r.paid == Sum(r.toStakers) + Sum(r.toOperators)
  }

  ghost predicate PaymentsOk(eraInfo: EraInfos, eras: seq<EraRecord>) {
    && eras != []
    && Unpaid(eras[|eras| - 1])
    && (forall e: nat :: e < |eras| - 1 ==> e in eraInfo && PaidOk(eras[e], eraInfo[e].rewards))
  }

  predicate Unpaid(r: EraRecord) {
    r.toStakers == map[] && r.toOperators == map[] && r.paid == 0
  }

  /** All rewards snapshotted for the eras before `n`. */
  function RewardsBefore(eraInfo: EraInfos, n: nat): nat {
    if n == 0 then 0
    else
      RewardsBefore(eraInfo, n - 1)
      + if n - 1 in eraInfo then eraInfo[n - 1].rewards.operators + eraInfo[n - 1].rewards.stakers else 0
  }

  ghost predicate InflowOk(s: State, inflow: nat) {
    RewardsBefore(s.eraInfo, s.currentEra) + s.accumulator.operators + s.accumulator.stakers == inflow
    && inflow <= MAX_BALANCE
  }

  function TotalPaid(eras: seq<EraRecord>): nat {
    if eras == [] then 0 else TotalPaid(eras[..|eras| - 1]) + eras[|eras| - 1].paid
  }

  ghost predicate PotOk(c: Config, b: Balances, g: Shadow) {
    Get(b.free, c.pot) == g.potBase + g.inflow - TotalPaid(g.eras)
  }

  // ---------------------------------------------------------------- deposits

  function Holding(providers: Providers, who: AccountId): set<ProviderId> {
    set p | p in providers && providers[p].operator == who && !providers[p].unreserved
  }

  ghost predicate DepositsOk(c: Config, providers: Providers, reserved: map<AccountId, nat>) {
    forall a :: Get(reserved, a) == |Holding(providers, a)| * c.registerDeposit
  }

  // ---------------------------------------------------------------- the invariant

  ghost predicate StakesInv(c: Config, w: World)
    requires w.g.eras != []
  {
    var s, g := w.s, w.g;
    && HistoriesOk(c, s.currentEra, s.stakerInfo)
    && ListedOk(s.providers, s.stakerInfo)
    && Denotes(s.stakerInfo, g.eras, g.exited)
    && TotalsOk(s.providers, s.providerStake, g.eras)
    && SlotsOk(s.providers, s.providerStake, g.eras)
    && FlagsOk(s.providerStake, g.eras)
    && TablesOk(c, s.providers, g.eras)
    && ProvidersOk(c, s.currentEra, s.providers)
    && ExitedOk(s.providers, Now(g.eras), g.exited)
  }

  ghost predicate FundsInv(c: Config, w: World)
    requires w.g.eras != []
  {
    var s, g := w.s, w.g;
    && LedgersOk(c, s.ledger)
    && LockedOk(s.ledger, Now(g.eras))
    && LocksOk(s.ledger, s.balances.locks)
    && SolventOk(s.balances)
    && StakedOk(s.eraInfo, g.eras)
    && CurrentEraOk(s.eraInfo, s.currentEra, s.ledger)
    && QueuesOk(c, s.currentEra, s.ledger, g)
    && DepositsOk(c, s.providers, s.balances.reserved)
  }

  ghost predicate RewardsInv(c: Config, w: World) {
    var s, g := w.s, w.g;
    && PaymentsOk(s.eraInfo, g.eras)
    && InflowOk(s, g.inflow)
    && PotOk(c, s.balances, g)
  }

  ghost predicate Inv(c: Config, w: World) {
    && c.Valid()
    && w.s.currentEra >= 1
    && |w.g.eras| == w.s.currentEra + 1
    && StakesInv(c, w)
    && FundsInv(c, w)
    && RewardsInv(c, w)
  }
}
