/** Past eras are frozen, and nothing is paid twice. */
module PastEras {
  import opened Sums
  import opened StakerHistory
  import opened Unbonding
  import opened StakingState
  import opened StakingInvariant
  import opened Runs
  import opened Reachability
  import RewardSteps
  import LockingSteps
  import EraSteps

  // ---------------------------------------------------------------- what stays

  /** A record of a past era keeps its stakes and every payment; only further payments may be added. */
  ghost predicate RecordKept(r: EraRecord, r': EraRecord) {
    && r'.stakes == r.stakes
    && (forall k :: k in r.toStakers ==> k in r'.toStakers && r'.toStakers[k] == r.toStakers[k])
    && (forall p :: p in r.toOperators ==> p in r'.toOperators && r'.toOperators[p] == r.toOperators[p])
    && r'.paid >= r.paid
  }

  ghost predicate EntryKept(entry: ProviderStakeInfo, entry': ProviderStakeInfo) {
    && entry'.total == entry.total && entry'.numberOfStakers == entry.numberOfStakers
    && (entry.rewardClaimed ==> entry'.rewardClaimed)
  }

  /** Everything recorded in `w` about eras before `era` is still recorded in `w'`. */
  ghost predicate PastKept(w: World, w': World, era: nat) {
    && era <= w.s.currentEra <= w'.s.currentEra
    && era <= |w.g.eras| && era <= |w'.g.eras|
    && (forall e: nat :: e < era ==> RecordKept(w.g.eras[e], w'.g.eras[e]))
    && (forall e: nat :: e < era && e in w.s.eraInfo ==> e in w'.s.eraInfo && w'.s.eraInfo[e] == w.s.eraInfo[e])
    && (forall p, e: nat :: e < era ==>
                              EntryKept(EntryAt(w.s.providerStake, Slot(p, e)),
                                        EntryAt(w'.s.providerStake, Slot(p, e))))
  }

  lemma PastKeptTransitive(u: World, v: World, w: World, era: nat)
    requires PastKept(u, v, era) && PastKept(v, w, era)
    ensures PastKept(u, w, era)
  {
    forall p, e: nat | e < era
      ensures EntryKept(EntryAt(u.s.providerStake, Slot(p, e)), EntryAt(w.s.providerStake, Slot(p, e)))
    {
      assert EntryKept(EntryAt(u.s.providerStake, Slot(p, e)), EntryAt(v.s.providerStake, Slot(p, e)));
    }
    forall e: nat | e < era ensures RecordKept(u.g.eras[e], w.g.eras[e]) {
      assert RecordKept(u.g.eras[e], v.g.eras[e]);
    }
  }

  /** A step that writes stake totals only in the current era. */
  lemma CurrentOnly(w: World, w': World)
    requires |w.g.eras| == w.s.currentEra + 1 && w'.s.currentEra == w.s.currentEra && |w'.g.eras| == |w.g.eras|
    requires forall e: nat :: e < w.s.currentEra ==> w'.g.eras[e] == w.g.eras[e]
    requires forall e :: e in w.s.eraInfo && e != w.s.currentEra ==>
                           e in w'.s.eraInfo && w'.s.eraInfo[e] == w.s.eraInfo[e]
    requires forall slot: Slot :: slot.era != w.s.currentEra ==>
                              EntryAt(w'.s.providerStake, slot) == EntryAt(w.s.providerStake, slot)
    ensures PastKept(w, w', w.s.currentEra)
  {
  }

  lemma StakePast(c: Config, w: World, ev: Event)
    requires c.Valid() && |w.g.eras| == w.s.currentEra + 1 && CallError(c, w.s, ev).None?
    requires ev.Stake? || ev.Unstake? || ev.WithdrawUnstaked? || ev.WithdrawFromUnregisteredStaker?
    ensures PastKept(w, Atomic(c, w, ev), w.s.currentEra)
  {
    hide StakeError, UnstakeError, ExitStakerError, WithdrawError, Staked, Unstaked, Put, WithLedger, WithLock,
         WithHistory, StakeAmount, UnstakeAmount, WithdrawAmount, Added, Future, PastKept, Get, LedgerOf, HistoryOf,
         Latest, UnstakedBy;
    CurrentOnly(w, Atomic(c, w, ev));
  }

  /** A payment adds to one past record and at most raises one flag. */
  lemma PaymentPast(w: World, w': World, at: nat, r: EraRecord)
    requires |w.g.eras| == w.s.currentEra + 1 && at < |w.g.eras| && w'.s.currentEra == w.s.currentEra
    requires w'.g.eras == w.g.eras[at := r] && RecordKept(w.g.eras[at], r)
    requires w'.s.eraInfo == w.s.eraInfo
    requires forall slot :: EntryKept(EntryAt(w.s.providerStake, slot), EntryAt(w'.s.providerStake, slot))
    ensures PastKept(w, w', w.s.currentEra)
  {
  }

  lemma ClaimStakerPast(c: Config, w: World, who: AccountId, p: ProviderId)
    requires Inv(c, w) && ClaimStakerError(c, w.s, who, p).None?
    ensures PastKept(w, Atomic(c, w, ClaimStaker(who, p)), w.s.currentEra)
  {
    hide StakesInv, FundsInv, RewardsInv, HistoryOf, StakerReward, WithHistory, Withdrawn, Deposited, PastKept,
         EntryAt, CanWithdraw;
    var k := Pair(who, p);
    var e := ClaimedEntry(HistoryOf(w.s.stakerInfo, k)).era;
    LastRecordUnpaid(c, w);
    RewardSteps.ClaimMatchesTable(c, w, k);
    PaymentPast(w, Atomic(c, w, ClaimStaker(who, p)), e, PayStaker(w.g.eras[e], k, StakerReward(w.s, who, p)));
  }

  lemma ClaimOperatorPast(c: Config, w: World, who: AccountId, p: ProviderId, era: nat)
    requires Inv(c, w) && ClaimOperatorError(c, w.s, p, era).None?
    ensures PastKept(w, Atomic(c, w, ClaimOperator(who, p, era)), w.s.currentEra)
  {
    hide StakesInv, FundsInv, RewardsInv, OperatorReward, Withdrawn, Deposited, PastKept, CanWithdraw,
         ClaimOperatorError, Claimable;
    LastRecordUnpaid(c, w);
    RewardSteps.OperatorClaimChecked(c, w.s, p, era);
    RewardSteps.OperatorUnpaid(c, w, p, era);
    PaymentPast(w, Atomic(c, w, ClaimOperator(who, p, era)), era,
                PayOperator(w.g.eras[era], p, OperatorReward(w.s, p, era)));
  }

  lemma LastRecordUnpaid(c: Config, w: World)
    requires Inv(c, w)
    ensures LockingSteps.Steady(c, w) && StakesInv(c, w) && FundsInv(c, w) && RewardsInv(c, w)
  {
    hide StakesInv, FundsInv;
  }

  lemma NewEraPast(c: Config, w: World, now: nat)
    requires Inv(c, w)
    ensures PastKept(w, Atomic(c, w, OnInitialize(now)), w.s.currentEra)
  {
    hide StakesInv, FundsInv, RewardsInv, RotatedStakes, EntryAt;
    var w' := Atomic(c, w, OnInitialize(now));
    forall p, e: nat | e < w.s.currentEra
      ensures EntryKept(EntryAt(w.s.providerStake, Slot(p, e)), EntryAt(w'.s.providerStake, Slot(p, e)))
    {
      EraSteps.RotatedEntry(w.s.providers, w.s.providerStake, w.s.currentEra, Slot(p, e));
    }
  }

  lemma AtomicPast(c: Config, w: World, ev: Event)
    requires Inv(c, w)
    ensures PastKept(w, Atomic(c, w, ev), w.s.currentEra)
  {
    hide Inv, StakeEffect, UnstakeEffect, WithdrawEffect, ExitStakerEffect, ClaimStakerEffect, ClaimOperatorEffect,
         NewEraEffect, StakeError, UnstakeError, WithdrawError, ExitStakerError, ExitOperatorError, ClaimStakerError,
         ClaimOperatorError, RegisterError, StartsEra, Deposited, Reserved, Unreserved, SetStake;
    InvBasics(c, w);
    if CallError(c, w.s, ev).None? {
      match ev {
        case Stake(_, _, _) => StakePast(c, w, ev);
        case Unstake(_, _, _) => StakePast(c, w, ev);
        case WithdrawUnstaked(_) => StakePast(c, w, ev);
        case WithdrawFromUnregisteredStaker(_, _) => StakePast(c, w, ev);
        case ClaimStaker(who, p) => ClaimStakerPast(c, w, who, p);
        case ClaimOperator(who, p, era) => ClaimOperatorPast(c, w, who, p, era);
        case OnInitialize(now) => NewEraPast(c, w, now);
        case _ => CurrentOnly(w, Atomic(c, w, ev));
      }
    }
  }

  lemma StepPast(c: Config, w: World, ev: Event)
    requires Inv(c, w) && Admissible(c, w, ev)
    ensures PastKept(w, Step(c, w, ev), w.s.currentEra)
  {
    hide Inv, Atomic, CallError;
    InvBasics(c, w);
    AtomicPast(c, w, ev);
    if Then(ev, c).Some? {
      var v := Atomic(c, w, ev);
      AtomicKeepsInv(c, w, ev);
      AtomicPast(c, v, Then(ev, c).value);
      PastKeptEarlier(v, Atomic(c, v, Then(ev, c).value), v.s.currentEra, w.s.currentEra);
      PastKeptTransitive(w, v, Atomic(c, v, Then(ev, c).value), w.s.currentEra);
    }
  }

  lemma PastKeptEarlier(v: World, w: World, era: nat, earlier: nat)
    requires PastKept(v, w, era) && earlier <= era
    ensures PastKept(v, w, earlier)
  {
  }

  /** No run, however long, changes what was recorded about the eras before the one it started in. */
  lemma {:induction false} RunKeepsPast(c: Config, w: World, evs: seq<Event>)
    requires Inv(c, w) && AdmissibleRun(c, w, evs)
    ensures PastKept(w, Execute(c, w, evs), w.s.currentEra)
    decreases |evs|
  {
    hide Step, Admissible;
    InvBasics(c, w);
    if evs != [] {
      var v := Step(c, w, evs[0]);
      hide Inv, PastKept;
      StepKeepsInv(c, w, evs[0]);
      StepPast(c, w, evs[0]);
      RunKeepsPast(c, v, evs[1..]);
      PastEraOrder(w, v, w.s.currentEra);
      PastKeptEarlier(v, Execute(c, v, evs[1..]), v.s.currentEra, w.s.currentEra);
      PastKeptTransitive(w, v, Execute(c, v, evs[1..]), w.s.currentEra);
    } else {
      PastKeptReflexive(w, w.s.currentEra);
    }
  }

  lemma PastKeptReflexive(w: World, era: nat)
    requires era <= w.s.currentEra && era <= |w.g.eras|
    ensures PastKept(w, w, era)
  {
  }

  lemma PastEraOrder(w: World, v: World, era: nat)
    requires PastKept(w, v, era)
    ensures w.s.currentEra <= v.s.currentEra
  {
  }

  // ---------------------------------------------------------------- at most once

  /** The step is a successful claim of the rewards of pair `k` for era `e`. */
  predicate PaysStaker(c: Config, w: World, ev: Event, k: Pair, e: nat) {
    ev == ClaimStaker(k.staker, k.provider) && CallError(c, w.s, ev).None?
    && ClaimedEntry(HistoryOf(w.s.stakerInfo, k)).era == e
  }

  predicate PaysOperator(c: Config, w: World, ev: Event, p: ProviderId, e: nat) {
    ev.ClaimOperator? && ev.p == p && ev.era == e && CallError(c, w.s, ev).None?
  }

  function TimesStakerPaid(c: Config, w: World, evs: seq<Event>, k: Pair, e: nat): nat
    requires c.Valid() && w.g.eras != []
    decreases |evs|
  {
    if evs == [] then 0
    else (if PaysStaker(c, w, evs[0], k, e) then 1 else 0) + TimesStakerPaid(c, Step(c, w, evs[0]), evs[1..], k, e)
  }

  function TimesOperatorPaid(c: Config, w: World, evs: seq<Event>, p: ProviderId, e: nat): nat
    requires c.Valid() && w.g.eras != []
    decreases |evs|
  {
    if evs == [] then 0
    else (if PaysOperator(c, w, evs[0], p, e) then 1 else 0) + TimesOperatorPaid(c, Step(c, w, evs[0]), evs[1..], p, e)
  }

  predicate StakerPaid(w: World, k: Pair, e: nat) {
    e < w.s.currentEra && e < |w.g.eras| && k in w.g.eras[e].toStakers
  }

  predicate OperatorPaid(w: World, p: ProviderId, e: nat) {
    e < w.s.currentEra && e < |w.g.eras| && p in w.g.eras[e].toOperators
  }

  lemma StakerPaidOnce(c: Config, w: World, ev: Event, k: Pair, e: nat)
    requires Inv(c, w) && PaysStaker(c, w, ev, k, e)
    ensures !StakerPaid(w, k, e) && StakerPaid(Step(c, w, ev), k, e)
  {
    hide StakesInv, FundsInv, RewardsInv, HistoryOf, StakerReward, WithHistory, Withdrawn, Deposited, EntryAt,
         CanWithdraw;
    LastRecordUnpaid(c, w);
    RewardSteps.ClaimMatchesTable(c, w, k);
  }

  lemma OperatorPaidOnce(c: Config, w: World, ev: Event, p: ProviderId, e: nat)
    requires Inv(c, w) && PaysOperator(c, w, ev, p, e)
    ensures !OperatorPaid(w, p, e) && OperatorPaid(Step(c, w, ev), p, e)
  {
    hide StakesInv, FundsInv, RewardsInv, OperatorReward, Withdrawn, Deposited, CanWithdraw, ClaimOperatorError,
         Claimable;
    LastRecordUnpaid(c, w);
    RewardSteps.OperatorClaimChecked(c, w.s, p, e);
    RewardSteps.OperatorUnpaid(c, w, p, e);
  }

  lemma PaidStays(w: World, w': World, k: Pair, p: ProviderId, e: nat)
    requires PastKept(w, w', w.s.currentEra)
    ensures StakerPaid(w, k, e) ==> StakerPaid(w', k, e)
    ensures OperatorPaid(w, p, e) ==> OperatorPaid(w', p, e)
  {
  }

  /** In any run a staker is paid for one provider and era at most once, and never if that happened before. */
  lemma {:induction false} StakerNeverPaidTwice(c: Config, w: World, evs: seq<Event>, k: Pair, e: nat)
    requires Inv(c, w) && AdmissibleRun(c, w, evs)
    ensures TimesStakerPaid(c, w, evs, k, e) <= if StakerPaid(w, k, e) then 0 else 1
    decreases |evs|
  {
    hide Step, Admissible, PaysStaker, PastKept, StakerPaid, OperatorPaid;
    InvBasics(c, w);
    if evs != [] {
      hide Inv;
      StepKeepsInv(c, w, evs[0]);
      StepPast(c, w, evs[0]);
      PaidStays(w, Step(c, w, evs[0]), k, k.provider, e);
      StakerNeverPaidTwice(c, Step(c, w, evs[0]), evs[1..], k, e);
      if PaysStaker(c, w, evs[0], k, e) {
        StakerPaidOnce(c, w, evs[0], k, e);
      }
    }
  }

  lemma {:induction false} OperatorNeverPaidTwice(c: Config, w: World, evs: seq<Event>, p: ProviderId, e: nat)
    requires Inv(c, w) && AdmissibleRun(c, w, evs)
    ensures TimesOperatorPaid(c, w, evs, p, e) <= if OperatorPaid(w, p, e) then 0 else 1
    decreases |evs|
  {
    hide Step, Admissible, PaysOperator, PastKept, StakerPaid, OperatorPaid;
    InvBasics(c, w);
    if evs != [] {
      hide Inv;
      StepKeepsInv(c, w, evs[0]);
      StepPast(c, w, evs[0]);
      PaidStays(w, Step(c, w, evs[0]), Pair(0, p), p, e);
      OperatorNeverPaidTwice(c, Step(c, w, evs[0]), evs[1..], p, e);
      if PaysOperator(c, w, evs[0], p, e) {
        OperatorPaidOnce(c, w, evs[0], p, e);
      }
    }
  }
}
