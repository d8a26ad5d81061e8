/** Getting funds and rewards out: the unbonding delay, reward conservation, and leaving an unregistered provider. */
module Exits {
  import opened Options
  import opened Sums
  import opened Arithmetic
  import opened StakerHistory
  import opened Unbonding
  import opened StakingState
  import opened StakingInvariant
  import opened Runs
  import opened Reachability
  import opened Views
  import opened LockingSteps
  import PastEras
  import RewardSteps
  import Consequences

  // ---------------------------------------------------------------- the unbonding delay

  /** What was unstaked at least one unbonding period before era `now`, and what was unstaked since. */
  function UnstakedThrough(c: Config, unstaked: map<nat, nat>, now: nat): map<nat, nat> {
    map e | e in unstaked && e + c.unbondingPeriod <= now :: unstaked[e]
  }

  function UnstakedAfter(c: Config, unstaked: map<nat, nat>, now: nat): map<nat, nat> {
    map e | e in unstaked && e + c.unbondingPeriod > now :: unstaked[e]
  }

  lemma ThroughAndAfter(c: Config, unstaked: map<nat, nat>, now: nat)
    ensures Sum(unstaked) == Sum(UnstakedThrough(c, unstaked, now)) + Sum(UnstakedAfter(c, unstaked, now))
  {
    var due := (e: nat) => e + c.unbondingPeriod <= now;
    SumSplit(unstaked, due, true);
    assert Part(unstaked, due, true) == UnstakedThrough(c, unstaked, now);
    assert Others(unstaked, due, true) == UnstakedAfter(c, unstaked, now);
  }

  /** A queue whose chunks fall due as the map says holds the map's sum. */
  lemma {:induction false} QueueSum(c: Config, chunks: Chunks, m: map<nat, nat>)
    requires forall x: nat :: Unlocking(chunks, x) == Due(c, m, x)
    requires forall b :: b in chunks ==> b.unlockEra >= c.unbondingPeriod
    ensures ChunkSum(chunks) == Sum(m)
  {
    if chunks == [] {
      forall e | e in m ensures m[e] <= Get(map[], e) {
        assert Unlocking(chunks, e + c.unbondingPeriod) == Due(c, m, e + c.unbondingPeriod);
      }
      SumMonotone(m, map[]);
    } else {
      var first := chunks[0];
      var e: nat := first.unlockEra - c.unbondingPeriod;
      assert first in chunks;
      assert Get(m, e) == Due(c, m, first.unlockEra) == Unlocking(chunks, first.unlockEra) >= first.amount;
      SumPut(m, e, SatSub(Get(m, e), first.amount));
      var rest := m[e := SatSub(Get(m, e), first.amount)];
      forall x: nat ensures Unlocking(chunks[1..], x) == Due(c, rest, x) {
        assert Unlocking(chunks, x) == Due(c, m, x);
      }
      QueueSum(c, chunks[1..], rest);
      assert Sum(rest) == Sum(m) - first.amount;
    }
  }

  /**
    What an account has withdrawn plus what it could withdraw now is exactly what it had unstaked by one unbonding
    period ago.  So nothing leaves early, and a withdrawal succeeds exactly when something is due.
    */
  lemma UnbondingDelay(c: Config, w: World, who: AccountId)
    requires Inv(c, w)
    ensures Get(w.g.withdrawn, who) + WithdrawAmount(w.s, who)
         == Sum(UnstakedThrough(c, UnstakedBy(w.g.unstaked, who), w.s.currentEra))
    ensures WithdrawError(w.s, who).None?
       <==> Get(w.g.withdrawn, who) < Sum(UnstakedThrough(c, UnstakedBy(w.g.unstaked, who), w.s.currentEra))
  {
    hide Inv, StakesInv, FundsInv, RewardsInv, LedgerOf;
    PastEras.LastRecordUnpaid(c, w);
    var l, mine, now := LedgerOf(w.s.ledger, who), UnstakedBy(w.g.unstaked, who), w.s.currentEra;
    LedgerFacts(c, w, who);
    DelayedQueue(c, l, mine, now, Get(w.g.withdrawn, who));
  }

  lemma DelayedQueue(c: Config, l: AccountLedger, unstaked: map<nat, nat>, now: nat, withdrawn: nat)
    requires l == NO_LEDGER || LedgerOk(c, l)
    requires QueueOk(c, now, l.chunks, unstaked, withdrawn)
    ensures withdrawn + ChunkSum(Matured(l.chunks, now)) == Sum(UnstakedThrough(c, unstaked, now))
  {
    hide Matured, Future, Unlocking, ChunkSum, Sorted;
    PartitionSum(l.chunks, now);
    ThroughAndAfter(c, unstaked, now);
    forall x: nat ensures Unlocking(Future(l.chunks, now), x) == Due(c, UnstakedAfter(c, unstaked, now), x) {
      FutureDenotes(l.chunks, now, x);
    }
    FutureDenotes(l.chunks, now, 0);
    QueueSum(c, Future(l.chunks, now), UnstakedAfter(c, unstaked, now));
  }

  /** Right after a successful withdrawal nothing that is due is left behind. */
  lemma WithdrawTakesAllDue(c: Config, w: World, who: AccountId)
    requires Inv(c, w) && WithdrawError(w.s, who).None? && who != c.pot
    ensures var w' := Atomic(c, w, WithdrawUnstaked(who));
            Get(w'.g.withdrawn, who) == Sum(UnstakedThrough(c, UnstakedBy(w'.g.unstaked, who), w'.s.currentEra))
  {
    InvBasics(c, w);
    UnbondingDelay(c, w, who);
    hide Inv, WithdrawAmount, WithdrawError, UnstakedThrough, LedgerOf, WithdrawEffect;
    WithdrawTracked(c, w, who);
  }

  lemma WithdrawTracked(c: Config, w: World, who: AccountId)
    requires c.Valid() && w.g.eras != [] && WithdrawError(w.s, who).None?
    ensures var w' := Atomic(c, w, WithdrawUnstaked(who));
            && w'.s.currentEra == w.s.currentEra && w'.g.unstaked == w.g.unstaked
            && Get(w'.g.withdrawn, who) == Get(w.g.withdrawn, who) + WithdrawAmount(w.s, who)
  {
    hide WithdrawAmount, WithdrawError, LedgerOf, WithLedger, WithLock, Future, EraShrunk;
  }

  // ---------------------------------------------------------------- rewards

  function RewardsIn(evs: seq<Event>): nat {
    if evs == [] then 0 else (if evs[0].Rewards? then evs[0].amount else 0) + RewardsIn(evs[1..])
  }

  lemma StepInflow(c: Config, w: World, ev: Event)
    requires c.Valid() && w.g.eras != []
    ensures Step(c, w, ev).g.inflow == w.g.inflow + if ev.Rewards? then ev.amount else 0
  {
    hide StakeError, UnstakeError, WithdrawError, ExitStakerError, ExitOperatorError, ClaimStakerError,
         ClaimOperatorError, RegisterError, UnregisterError, Effect, StakeAmount, UnstakeAmount, WithdrawAmount,
         StakerReward, OperatorReward, HistoryOf, StartsEra;
  }

  lemma {:induction false} RunInflow(c: Config, w: World, evs: seq<Event>)
    requires c.Valid() && w.g.eras != []
    ensures Execute(c, w, evs).g.inflow == w.g.inflow + RewardsIn(evs)
    decreases |evs|
  {
    hide Step;
    if evs != [] {
      StepInflow(c, w, evs[0]);
      RunInflow(c, Step(c, w, evs[0]), evs[1..]);
    }
  }

  function RewardsHeld(s: State): nat {
    RewardsBefore(s.eraInfo, s.currentEra) + s.accumulator.operators + s.accumulator.stakers
  }

  /** Every unit ever handed to `rewards` is in the accumulator or in the snapshot of exactly one finished era. */
  lemma RewardsConserved(c: Config, w: World, evs: seq<Event>)
    requires Inv(c, w) && AdmissibleRun(c, w, evs)
    ensures c.Valid() && w.g.eras != []
    ensures RewardsHeld(Execute(c, w, evs).s) == RewardsHeld(w.s) + RewardsIn(evs)
  {
    hide Step, StakesInv, FundsInv, PaymentsOk, PotOk;
    InvBasics(c, w);
    RunKeepsInv(c, w, evs);
    RunInflow(c, w, evs);
  }

  // The operators' part alone; what is not theirs belongs to the stakers.

  function OperatorsBefore(eraInfo: EraInfos, n: nat): nat {
    if n == 0 then 0
    else OperatorsBefore(eraInfo, n - 1) + if n - 1 in eraInfo then eraInfo[n - 1].rewards.operators else 0
  }

  function OperatorsHeld(s: State): nat {
    OperatorsBefore(s.eraInfo, s.currentEra) + s.accumulator.operators
  }

  /** Of each inflow the operators' percentage, rounded to the nearest unit. */
  function OperatorsIn(c: Config, evs: seq<Event>): nat {
    if evs == [] then 0
    else (if evs[0].Rewards? then Times(c.operatorRewardParts, evs[0].amount) else 0) + OperatorsIn(c, evs[1..])
  }

  lemma {:induction false} OperatorsBeforeAgree(eraInfo: EraInfos, eraInfo': EraInfos, n: nat)
    requires forall e: nat :: e < n ==> e in eraInfo && e in eraInfo' && eraInfo'[e].rewards == eraInfo[e].rewards
    ensures OperatorsBefore(eraInfo', n) == OperatorsBefore(eraInfo, n)
  {
    if n > 0 {
      OperatorsBeforeAgree(eraInfo, eraInfo', n - 1);
    }
  }

  /** What a step does to the accumulator and to the era number. */
  lemma AccumulatorStep(c: Config, w: World, ev: Event)
    requires c.Valid() && w.g.eras != []
    ensures var s, s' := w.s, Atomic(c, w, ev).s;
            if ev.OnInitialize? && StartsEra(c, s, ev.now) then
              && s'.currentEra == s.currentEra + 1 && s'.accumulator == NO_REWARDS
              && s.currentEra in s'.eraInfo && s'.eraInfo[s.currentEra].rewards == s.accumulator
            else
              && s'.currentEra == s.currentEra
              && s'.accumulator.operators
              == if ev.Rewards? then SatAdd(s.accumulator.operators, Times(c.operatorRewardParts, ev.amount))
                 else s.accumulator.operators
  {
    hide StakeError, UnstakeError, WithdrawError, ExitStakerError, ExitOperatorError, ClaimStakerError,
         ClaimOperatorError, RegisterError, UnregisterError, Track, StakeAmount, UnstakeAmount, WithdrawAmount,
         StakerReward, OperatorReward, HistoryOf, StartsEra, Staked, WithHistory, Unstaked, Claimed, EraGrown,
         EraShrunk, WithLedger, WithLock, RotatedStakes, Latest, EntryAt, Added, Deposited, Withdrawn, Unreserved,
         Reserved, ClaimedEntry, CanWithdraw, Times, SatAdd;
  }

  lemma OperatorsAtomic(c: Config, w: World, ev: Event)
    requires Inv(c, w) && Admissible(c, w, ev)
    ensures c.Valid() && w.g.eras != []
    ensures OperatorsHeld(Atomic(c, w, ev).s)
         == OperatorsHeld(w.s) + if ev.Rewards? then Times(c.operatorRewardParts, ev.amount) else 0
  {
    hide StakesInv, FundsInv, RewardsInv, Atomic, Times, Admissible, StartsEra;
    PastEras.LastRecordUnpaid(c, w);
    Consequences.AllErasKnown(c, w);
    AccumulatorStep(c, w, ev);
    PastEras.AtomicPast(c, w, ev);
    var s' := Atomic(c, w, ev).s;
    OperatorsBeforeAgree(w.s.eraInfo, s'.eraInfo, w.s.currentEra);
    if ev.Rewards? {
      Consequences.RewardsExact(c, w, ev.amount);
    }
  }

  lemma StepOperators(c: Config, w: World, ev: Event)
    requires Inv(c, w) && Admissible(c, w, ev)
    ensures c.Valid() && w.g.eras != []
    ensures OperatorsHeld(Step(c, w, ev).s)
         == OperatorsHeld(w.s) + if ev.Rewards? then Times(c.operatorRewardParts, ev.amount) else 0
  {
    hide Inv, Atomic, CallError, Times, OperatorsHeld;
    InvBasics(c, w);
    OperatorsAtomic(c, w, ev);
    if Then(ev, c).Some? {
      AtomicKeepsInv(c, w, ev);
      OperatorsAtomic(c, Atomic(c, w, ev), Then(ev, c).value);
    }
  }

  /**
    In any run the operators' accumulator and snapshots grow by exactly the operators' percentage of each inflow; with
    `RewardsConserved`, the stakers' grow by exactly the rest.
    */
  lemma {:induction false} OperatorsConserved(c: Config, w: World, evs: seq<Event>)
    requires Inv(c, w) && AdmissibleRun(c, w, evs)
    ensures c.Valid() && w.g.eras != []
    ensures OperatorsHeld(Execute(c, w, evs).s) == OperatorsHeld(w.s) + OperatorsIn(c, evs)
    decreases |evs|
  {
    hide Inv, Step, Admissible, OperatorsHeld, Times;
    InvBasics(c, w);
    if evs != [] {
      StepKeepsInv(c, w, evs[0]);
      StepOperators(c, w, evs[0]);
      OperatorsConserved(c, Step(c, w, evs[0]), evs[1..]);
    }
  }

  lemma StepPotBase(c: Config, w: World, ev: Event)
    requires c.Valid() && w.g.eras != [] && !ev.CurrencyChange?
    ensures Step(c, w, ev).g.potBase == w.g.potBase
  {
    hide StakeError, UnstakeError, WithdrawError, ExitStakerError, ExitOperatorError, ClaimStakerError,
         ClaimOperatorError, RegisterError, UnregisterError, Effect, StakeAmount, UnstakeAmount, WithdrawAmount,
         StakerReward, OperatorReward, HistoryOf, StartsEra;
  }

  lemma {:induction false} RunPotBase(c: Config, w: World, evs: seq<Event>)
    requires c.Valid() && w.g.eras != [] && forall i :: 0 <= i < |evs| ==> !evs[i].CurrencyChange?
    ensures Execute(c, w, evs).g.potBase == w.g.potBase
    decreases |evs|
  {
    hide Step;
    if evs != [] {
      StepPotBase(c, w, evs[0]);
      RunPotBase(c, Step(c, w, evs[0]), evs[1..]);
    }
  }

  /** Left alone by the outside world, the pot changes by what flows in minus what is paid out. */
  lemma PotBalance(c: Config, w: World, evs: seq<Event>)
    requires Inv(c, w) && AdmissibleRun(c, w, evs) && forall i :: 0 <= i < |evs| ==> !evs[i].CurrencyChange?
    ensures c.Valid() && w.g.eras != []
    ensures Get(Execute(c, w, evs).s.balances.free, c.pot) + TotalPaid(Execute(c, w, evs).g.eras)
         == Get(w.s.balances.free, c.pot) + RewardsIn(evs) + TotalPaid(w.g.eras)
  {
    hide Step, StakesInv, FundsInv, PaymentsOk, InflowOk;
    InvBasics(c, w);
    RunKeepsInv(c, w, evs);
    RunInflow(c, w, evs);
    RunPotBase(c, w, evs);
  }

  // ---------------------------------------------------------------- claiming

  /** No era before `limit` still carries an unclaimed positive stake of the pair. */
  ghost predicate AllClaimed(w: World, k: Pair, limit: nat)
  {
    forall e: nat :: e < limit && e < |w.g.eras| ==> Unclaimed(w.g.eras, w.g.exited, k, e) == 0
  }

  /** A history whose head is a zero entry, which `claim_staker` rejects without storing the shortened vector. */
  predicate ZeroHead(h: History) {
    h != [] && h[0].staked == 0
  }

  lemma HeadDenotes(c: Config, w: World, k: Pair)
    requires Steady(c, w) && StakesInv(c, w)
    ensures var h := HistoryOf(w.s.stakerInfo, k);
            && (h != [] ==> Ascending(h) && 1 <= h[0].era <= w.s.currentEra)
            && (h != [] ==> Unclaimed(w.g.eras, w.g.exited, k, h[0].era) == h[0].staked)
            && (forall e: nat :: e < |w.g.eras| && (h != [] ==> e < h[0].era) ==>
                                   Unclaimed(w.g.eras, w.g.exited, k, e) == 0)
  {
    hide ListedOk, TotalsOk, SlotsOk, FlagsOk, TablesOk, ProvidersOk, ExitedOk, Unclaimed;
    var h := HistoryOf(w.s.stakerInfo, k);
    HistoryOkOrEmpty(c, w.s.currentEra, w.s.stakerInfo, k);
    if h != [] {
      StakeAtEntry(h, 0, h[0].era);
      assert StakeAt(h, h[0].era) == Unclaimed(w.g.eras, w.g.exited, k, h[0].era);
    }
    forall e: nat | e < |w.g.eras| && (h != [] ==> e < h[0].era) ensures Unclaimed(w.g.eras, w.g.exited, k, e) == 0 {
      StakeAtBefore(h, e);
      assert StakeAt(h, e) == Unclaimed(w.g.eras, w.g.exited, k, e);
    }
  }

  /** Where claims for a provider end: at the current era, or where it was unregistered. */
  function ClaimLimit(s: State, p: ProviderId): nat
    requires p in s.providers
  {
    match s.providers[p].state
    case Registered => s.currentEra
    case Unregistered(u) => Min(u, s.currentEra)
  }

  lemma ClaimCheck(c: Config, s: State, who: AccountId, p: ProviderId)
    requires p in s.providers && forall e: nat :: e <= s.currentEra ==> e in s.eraInfo
    ensures var entry := ClaimedEntry(HistoryOf(s.stakerInfo, Pair(who, p)));
            var e := ClaimStakerError(c, s, who, p);
            e.None? || e == Some(CurrencyFailure) <==> entry.staked > 0 && entry.era < ClaimLimit(s, p)
  {
    hide StakerReward, CanWithdraw, HistoryOf;
  }

  /**
    Exactly when `claim_staker` has something to pay.  The design wants: while an era that is over still carries an
    unclaimed stake.  The call pays then, unless the stored history starts with a zero entry.
    */
  lemma ClaimCondition(c: Config, w: World, who: AccountId, p: ProviderId)
    requires Inv(c, w) && p in w.s.providers
    ensures var k, e := Pair(who, p), ClaimStakerError(c, w.s, who, p);
            e.None? || e == Some(CurrencyFailure)
            <==> !ZeroHead(HistoryOf(w.s.stakerInfo, k)) && !AllClaimed(w, k, ClaimLimit(w.s, p))
  {
    PastEras.LastRecordUnpaid(c, w);
    Consequences.AllErasKnown(c, w);
    hide Inv, StakesInv, FundsInv, RewardsInv, Unclaimed, HistoryOf, ClaimStakerError, Ascending;
    HeadDenotes(c, w, Pair(who, p));
    ClaimCheck(c, w.s, who, p);
    assert ClaimLimit(w.s, p) <= w.s.currentEra;
  }

  /**
    A claim that succeeds pays for the oldest era that still carries an unclaimed stake, exactly the staker's share of
    that era's rewards as the full table has it, and moves that much from the pot to the staker.
    */
  lemma ClaimPaysOldest(c: Config, w: World, who: AccountId, p: ProviderId)
    requires Inv(c, w) && who != c.pot && ClaimStakerError(c, w.s, who, p).None?
    ensures var k := Pair(who, p);
            var e := ClaimedEntry(HistoryOf(w.s.stakerInfo, k)).era;
            && e < |w.g.eras| && Unclaimed(w.g.eras, w.g.exited, k, e) > 0
            && AllClaimed(w, k, e)
            && e in w.s.eraInfo
            && MovedFromPot(c, w.s.balances, ClaimStakerEffect(c, w.s, who, p).balances, who,
                            StakerShare(w.g.eras[e].stakes, w.s.eraInfo[e].rewards.stakers, k))
  {
    hide StakesInv, FundsInv, RewardsInv, StakerShare, StakerReward, CanWithdraw;
    PastEras.LastRecordUnpaid(c, w);
    ClaimChecked(c, w.s, who, p);
    hide Inv, Unclaimed, HistoryOf, ClaimStakerError, Ascending, Claimable;
    HeadDenotes(c, w, Pair(who, p));
    RewardSteps.StakerRewardMatches(c, w, who, p);
    hide ClaimStakerEffect, MovedFromPot;
    ClaimPays(c, w.s, who, p);
  }

  lemma ClaimPays(c: Config, s: State, who: AccountId, p: ProviderId)
    requires who != c.pot && CanWithdraw(s.balances, c.pot, StakerReward(s, who, p))
    ensures MovedFromPot(c, s.balances, ClaimStakerEffect(c, s, who, p).balances, who, StakerReward(s, who, p))
  {
    hide StakerReward, WithHistory, Claimed, HistoryOf;
    PotPays(c, s.balances, who, StakerReward(s, who, p));
  }

  lemma ClaimChecked(c: Config, s: State, who: AccountId, p: ProviderId)
    requires ClaimStakerError(c, s, who, p).None?
    ensures var entry := ClaimedEntry(HistoryOf(s.stakerInfo, Pair(who, p)));
            && entry.staked > 0 && entry.era < s.currentEra && p in s.providers && Claimable(s.providers, p, entry.era)
            && CanWithdraw(s.balances, c.pot, StakerReward(s, who, p))
  {
    hide StakerReward, CanWithdraw, HistoryOf;
  }

  /** Only the pot's and the recipient's free balances change, by `amount`. */
  ghost predicate MovedFromPot(c: Config, b: Balances, b': Balances, who: AccountId, amount: nat) {
    && b' == b.(free := b'.free)
    && Get(b'.free, c.pot) == Get(b.free, c.pot) - amount
    && Get(b'.free, who) == Get(b.free, who) + amount
    && forall a :: a != who && a != c.pot ==> Get(b'.free, a) == Get(b.free, a)
  }

  lemma PotPays(c: Config, b: Balances, who: AccountId, amount: nat)
    requires who != c.pot && CanWithdraw(b, c.pot, amount)
    ensures MovedFromPot(c, b, Deposited(Withdrawn(b, c.pot, amount), who, amount), who, amount)
  {
  }

  /**
    Exactly when `claim_operator` has something to pay: the era is over and before any unregistration, somebody had
    staked on the provider in it, and the operator has not been paid for it.
    */
  lemma OperatorClaimCondition(c: Config, w: World, p: ProviderId, era: nat)
    requires Inv(c, w)
    ensures var e := ClaimOperatorError(c, w.s, p, era);
            e.None? || e == Some(CurrencyFailure)
            <==> p in w.s.providers && era < ClaimLimit(w.s, p) && era < |w.g.eras|
                 && Sum(StakedOn(w.g.eras[era].stakes, p)) > 0 && p !in w.g.eras[era].toOperators
  {
    hide StakesInv, FundsInv, RewardsInv;
    PastEras.LastRecordUnpaid(c, w);
    Consequences.AllErasKnown(c, w);
    if p in w.s.providers && era < w.s.currentEra && Claimable(w.s.providers, p, era) {
      RewardSteps.TotalsMatchTable(c, w, p, era);
      FlagMatches(c, w, p, era);
      hide Inv, OperatorReward, CanWithdraw, EntryAt, StakedOn, Sum;
    } else {
      hide Inv, OperatorReward, CanWithdraw, EntryAt, StakedOn, Sum;
    }
  }

  lemma FlagMatches(c: Config, w: World, p: ProviderId, era: nat)
    requires w.g.eras != [] && era < |w.g.eras| && StakesInv(c, w)
    ensures EntryAt(w.s.providerStake, Slot(p, era)).rewardClaimed <==> p in w.g.eras[era].toOperators
  {
    hide HistoriesOk, ListedOk, Denotes, TotalsOk, SlotsOk, TablesOk, ProvidersOk, ExitedOk;
  }

  /** It then moves exactly the provider's share of the operators' rewards from the pot to the operator. */
  lemma OperatorClaimPays(c: Config, w: World, p: ProviderId, era: nat)
    requires Inv(c, w) && ClaimOperatorError(c, w.s, p, era).None?
    ensures p in w.s.providers && era < |w.g.eras| && era in w.s.eraInfo
    ensures MovedFromPot(c, w.s.balances, ClaimOperatorEffect(c, w.s, p, era).balances, w.s.providers[p].operator,
                         ProviderShare(w.g.eras[era].stakes, w.s.eraInfo[era].rewards.operators, p))
  {
    hide StakesInv, FundsInv, RewardsInv, ProviderShare, OperatorReward, CanWithdraw;
    PastEras.LastRecordUnpaid(c, w);
    RewardSteps.OperatorClaimChecked(c, w.s, p, era);
    RewardSteps.OperatorUnpaid(c, w, p, era);
    RewardSteps.OperatorRewardMatches(c, w, p, era);
    hide Inv, ClaimOperatorError, Claimable, EntryAt;
    PotPays(c, w.s.balances, w.s.providers[p].operator, OperatorReward(w.s, p, era));
  }

  // ---------------------------------------------------------------- leaving an unregistered provider

  /** The provider is unregistered and its stakers' waiting period is over. */
  predicate ExitOpen(c: Config, s: State, p: ProviderId) {
    p in s.providers && s.providers[p].state.Unregistered?
    && s.currentEra > s.providers[p].state.era + c.unbondingPeriod
  }

  lemma ExitCheck(c: Config, s: State, who: AccountId, p: ProviderId)
    ensures var h := HistoryOf(s.stakerInfo, Pair(who, p));
            && (!ExitOpen(c, s, p) || Latest(h) == 0 ==> ExitStakerError(c, s, who, p).Some?)
            && (ExitOpen(c, s, p) && Latest(h) > 0 ==>
                  var first := ClaimedEntry(h).era;
                  ExitStakerError(c, s, who, p) == if first < s.providers[p].state.era && first != 0
                                                   then Some(UnclaimedRewardsRemaining) else None)
  {
    hide HistoryOf, Latest, ClaimedEntry;
  }

  /**
    Exactly when a staker may leave.  The design wants: after the waiting period, with a stake, and once everything
    earned before the unregistration is claimed.  The call demands that; but it also refuses when the stored history
    starts with a zero entry from before the unregistration, although nothing is left to claim there.
    */
  lemma ExitCondition(c: Config, w: World, who: AccountId, p: ProviderId)
    requires Inv(c, w)
    ensures var k, h := Pair(who, p), HistoryOf(w.s.stakerInfo, Pair(who, p));
            var e := ExitStakerError(c, w.s, who, p);
            && w.g.eras != []
            && (e.None? <==> && ExitOpen(c, w.s, p) && Get(Now(w.g.eras), k) > 0
                             && AllClaimed(w, k, w.s.providers[p].state.era)
                             && !(ZeroHead(h) && h[0].era < w.s.providers[p].state.era))
            && (ExitOpen(c, w.s, p) && ZeroHead(h) && h[0].era < w.s.providers[p].state.era ==>
                  ClaimStakerError(c, w.s, who, p) == Some(NotStakedProvider))
  {
    hide StakesInv, FundsInv, RewardsInv;
    PastEras.LastRecordUnpaid(c, w);
    CurrentStake(c, w, Pair(who, p));
    hide Inv, Unclaimed, HistoryOf, StakerReward, ExitStakerError, Ascending, Claimable, CanWithdraw, Latest;
    ExitCheck(c, w.s, who, p);
    if ExitOpen(c, w.s, p) && Latest(HistoryOf(w.s.stakerInfo, Pair(who, p))) > 0 {
      UnregisteredEra(c, w, p);
      HeadDenotes(c, w, Pair(who, p));
    }
  }

  lemma UnregisteredEra(c: Config, w: World, p: ProviderId)
    requires Inv(c, w) && p in w.s.providers && w.s.providers[p].state.Unregistered?
    ensures w.s.providers[p].state.era <= w.s.currentEra < |w.g.eras|
  {
    hide FundsInv, RewardsInv, HistoriesOk, ListedOk, Denotes, TotalsOk, SlotsOk, FlagsOk, TablesOk, ExitedOk;
  }

  /** The pair leaves with its whole stake, and with nothing else. */
  lemma ExitReleasesStake(c: Config, w: World, who: AccountId, p: ProviderId)
    requires Inv(c, w) && ExitStakerError(c, w.s, who, p).None?
    ensures c.Valid() && w.g.eras != []
    ensures var s' := ExitStakerEffect(w.s, who, p);
            && LedgerOf(s'.ledger, who).locked + Get(Now(w.g.eras), Pair(who, p)) == LedgerOf(w.s.ledger, who).locked
            && LedgerOf(s'.ledger, who).chunks == LedgerOf(w.s.ledger, who).chunks
            && HistoryOf(s'.stakerInfo, Pair(who, p)) == []
            && Get(Now(w.g.eras), Pair(who, p)) > 0
  {
    hide Inv, StakesInv, FundsInv, RewardsInv, EraShrunk, WithLock, StakedBy, LedgerOk, QueueOk, WithLedger, LedgerOf,
         Latest;
    PastEras.LastRecordUnpaid(c, w);
    CurrentStake(c, w, Pair(who, p));
    LedgerFacts(c, w, who);
    StakeLocked(Now(w.g.eras), Pair(who, p));
    var l := LedgerOf(w.s.ledger, who);
    LedgerPut(w.s.ledger, who, l.(locked := SatSub(l.locked, Get(Now(w.g.eras), Pair(who, p)))), who);
  }

  lemma StepExited(c: Config, w: World, ev: Event)
    requires c.Valid() && w.g.eras != []
    ensures w.g.exited <= Step(c, w, ev).g.exited
  {
    hide StakeError, UnstakeError, WithdrawError, ExitStakerError, ExitOperatorError, ClaimStakerError,
         ClaimOperatorError, RegisterError, UnregisterError, Effect, StakeAmount, UnstakeAmount, WithdrawAmount,
         StakerReward, OperatorReward, HistoryOf, StartsEra;
  }

  /** A pair that has left never passes the exit check again, in any run. */
  lemma {:induction false} ExitsOnce(c: Config, w: World, evs: seq<Event>, who: AccountId, p: ProviderId)
    requires Inv(c, w) && AdmissibleRun(c, w, evs) && Pair(who, p) in w.g.exited
    ensures c.Valid() && w.g.eras != []
    ensures ExitStakerError(c, Execute(c, w, evs).s, who, p).Some?
    decreases |evs|
  {
    hide Step, Inv, Admissible;
    InvBasics(c, w);
    if evs == [] {
      PastEras.LastRecordUnpaid(c, w);
      ExitedHasNothing(c, w, Pair(who, p));
    } else {
      StepExited(c, w, evs[0]);
      StepKeepsInv(c, w, evs[0]);
      ExitsOnce(c, Step(c, w, evs[0]), evs[1..], who, p);
    }
  }

  lemma ExitedHasNothing(c: Config, w: World, k: Pair)
    requires Steady(c, w) && StakesInv(c, w) && k in w.g.exited
    ensures Latest(HistoryOf(w.s.stakerInfo, k)) == 0
  {
    hide ListedOk, HistoriesOk, Denotes, TotalsOk, SlotsOk, FlagsOk, TablesOk, ProvidersOk;
    CurrentStake(c, w, k);
  }

  /** The operator gets the registration deposit back once, in full, and only after the waiting period. */
  lemma OperatorExitCondition(c: Config, w: World, who: AccountId, p: ProviderId)
    requires Inv(c, w)
    ensures ExitOperatorError(c, w.s, who, p).None?
       <==> ExitOpen(c, w.s, p) && w.s.providers[p].operator == who && p in Holding(w.s.providers, who)
    ensures ExitOperatorError(c, w.s, who, p).None? ==>
              var s' := ExitOperatorEffect(c, w.s, who, p);
              && Get(s'.balances.free, who) == Get(w.s.balances.free, who) + c.registerDeposit
              && Get(s'.balances.reserved, who) == Get(w.s.balances.reserved, who) - c.registerDeposit
              && Holding(s'.providers, who) == Holding(w.s.providers, who) - {p}
  {
    hide StakesInv, FundsInv, RewardsInv;
    PastEras.LastRecordUnpaid(c, w);
    hide Inv;
    if ExitOperatorError(c, w.s, who, p).None? {
      Consequences.ReserveExact(c, w, who, p);
    }
  }
}
