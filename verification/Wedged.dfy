/** Exactly which stakes can never leave an unregistered provider. */
module Wedged {
  import opened Options
  import opened Arithmetic
  import opened StakerHistory
  import opened StakingState
  import opened StakingInvariant
  import opened Runs
  import opened Reachability
  import opened Views
  import opened LockingSteps
  import opened Exits
  import opened Solvency
  import Consequences
  import PastEras
  import RewardSteps

  // ---------------------------------------------------------------- doomed histories

  /** A zero entry from before era `u` that a claim will bring to the head: it is there already, or follows a zero. */
  predicate DoomedEntry(h: History, u: nat, i: nat)
    requires i < |h|
  {
    h[i].staked == 0 && h[i].era < u && (i == 0 || h[i - 1].staked == 0)
  }

  predicate Doomed(h: History, u: nat) {
    exists i :: 0 <= i < |h| && DoomedEntry(h, u, i)
  }

  lemma ClaimedNotDoomed(h: History, u: nat)
    requires h != [] && h[0].staked > 0 && Doomed(Claimed(h), u)
    ensures Doomed(h, u)
  {
    var drop := |h| - |Claimed(h)|;
    var i :| 0 <= i < |Claimed(h)| && DoomedEntry(Claimed(h), u, i);
    assert DoomedEntry(h, u, i + drop);
  }

  /** A claim neither cures nor dooms a history, and keeps its latest stake. */
  lemma ClaimedDoomed(h: History, u: nat)
    requires h != [] && h[0].staked > 0 && Latest(h) > 0
    ensures Doomed(Claimed(h), u) <==> Doomed(h, u)
    ensures Claimed(h) != [] && Latest(Claimed(h)) == Latest(h)
  {
    var drop := |h| - |Claimed(h)|;
    if Doomed(h, u) {
      var i :| 0 <= i < |h| && DoomedEntry(h, u, i);
      assert i >= 2 && i - drop >= 0;
      assert DoomedEntry(Claimed(h), u, i - drop);
    }
    if Doomed(Claimed(h), u) {
      ClaimedNotDoomed(h, u);
    }
  }

  /** A doomed history starts before `u`, so the exit takes its head for an unclaimed era. */
  lemma DoomedHead(h: History, u: nat)
    requires Ascending(h) && Doomed(h, u)
    ensures h != [] && h[0].era < u
  {
  }

  // ---------------------------------------------------------------- doomed stakes

  /** The pair's provider was unregistered in era `u`, and the pair still has a stake, but a doomed history. */
  predicate DoomedStake(s: State, k: Pair, u: nat) {
    var h := HistoryOf(s.stakerInfo, k);
    && k.provider in s.providers && s.providers[k.provider].state == Unregistered(u)
    && Latest(h) > 0 && Doomed(h, u)
  }

  lemma DoomedErrors(c: Config, s: State, k: Pair, u: nat, value: nat)
    requires DoomedStake(s, k, u) && Ascending(HistoryOf(s.stakerInfo, k)) && HistoryOf(s.stakerInfo, k)[0].era >= 1
    ensures StakeError(c, s, k.staker, k.provider, value).Some?
    ensures UnstakeError(c, s, k.staker, k.provider, value).Some?
    ensures ExitStakerError(c, s, k.staker, k.provider).Some?
  {
    hide StakeAmount, UnstakeAmount, Staked, Unstaked, HistoryOf, Doomed, Latest;
    DoomedHead(HistoryOf(s.stakerInfo, k), u);
  }

  /** A step leaves a history alone unless it is a call of that pair. */
  lemma HistoryUntouched(c: Config, s: State, ev: Event, k: Pair)
    requires c.Valid() && CallError(c, s, ev).None?
    requires ev.Stake? || ev.Unstake? || ev.ClaimStaker? || ev.WithdrawFromUnregisteredStaker? ==>
               Pair(ev.who, ev.p) != k
    ensures HistoryOf(Effect(c, s, ev).stakerInfo, k) == HistoryOf(s.stakerInfo, k)
  {
    hide StakeError, UnstakeError, WithdrawError, ExitStakerError, ExitOperatorError, ClaimStakerError,
         ClaimOperatorError, RegisterError, UnregisterError, StakeAmount, UnstakeAmount, WithdrawAmount, StakerReward,
         OperatorReward, Staked, Unstaked, Claimed, EraGrown, EraShrunk, WithLedger, WithLock, RotatedStakes,
         RewardSnapshot, Latest, EntryAt, Deposited, Withdrawn, Unreserved, Reserved, ClaimedEntry;
  }

  lemma ClosedStaysClosed(c: Config, s: State, ev: Event, p: ProviderId, u: nat)
    requires c.Valid() && CallError(c, s, ev).None?
    requires p in s.providers && s.providers[p].state == Unregistered(u)
    ensures p in Effect(c, s, ev).providers && Effect(c, s, ev).providers[p].state == Unregistered(u)
  {
    hide StakeError, UnstakeError, WithdrawError, ExitStakerError, ClaimStakerError, ClaimOperatorError, CanWithdraw,
         StakeAmount, UnstakeAmount, WithdrawAmount, StakerReward, OperatorReward, Staked, WithHistory, Unstaked,
         Claimed, EraGrown, EraShrunk, WithLedger, WithLock, RotatedStakes, RewardSnapshot, Latest, EntryAt,
         Deposited, Withdrawn, Unreserved, Reserved, ClaimedEntry;
  }

  lemma ClaimWrites(c: Config, s: State, k: Pair)
    requires ClaimStakerError(c, s, k.staker, k.provider).None?
    ensures HistoryOf(ClaimStakerEffect(c, s, k.staker, k.provider).stakerInfo, k)
         == Claimed(HistoryOf(s.stakerInfo, k))
    ensures HistoryOf(s.stakerInfo, k) != [] && HistoryOf(s.stakerInfo, k)[0].staked > 0
  {
    hide StakerReward, Claimed, CanWithdraw, Deposited, Withdrawn;
  }

  /** Stored histories are ascending and start no earlier than era 1. */
  lemma StoredAscending(c: Config, w: World, k: Pair)
    requires Inv(c, w)
    ensures var h := HistoryOf(w.s.stakerInfo, k); h != [] ==> Ascending(h) && h[0].era >= 1
  {
    hide Inv, StakesInv, FundsInv, RewardsInv, HistoryOf, Unclaimed;
    PastEras.LastRecordUnpaid(c, w);
    HeadDenotes(c, w, k);
  }

  /** A doomed stake stays doomed and as large; with a zero head its history does not even change. */
  lemma DoomedAtomic(c: Config, w: World, ev: Event, k: Pair, u: nat)
    requires Inv(c, w) && DoomedStake(w.s, k, u)
    ensures c.Valid() && w.g.eras != []
    ensures var h, s' := HistoryOf(w.s.stakerInfo, k), Atomic(c, w, ev).s;
            && DoomedStake(s', k, u) && Latest(HistoryOf(s'.stakerInfo, k)) == Latest(h)
            && (ZeroHead(h) ==> HistoryOf(s'.stakerInfo, k) == h)
  {
    hide Inv, Effect, Track, Latest, HistoryOf, Doomed;
    InvBasics(c, w);
    StoredAscending(c, w, k);
    NonEmpty(w.s, k, u);
    if CallError(c, w.s, ev).None? {
      ClosedStaysClosed(c, w.s, ev, k.provider, u);
      var ofPair := ev.Stake? || ev.Unstake? || ev.ClaimStaker? || ev.WithdrawFromUnregisteredStaker?;
      if ofPair && Pair(ev.who, ev.p) == k {
        hide StakeError, UnstakeError, ClaimStakerError, ExitStakerError, ClaimStakerEffect;
        DoomedErrors(c, w.s, k, u, if ev.Stake? || ev.Unstake? then ev.value else 0);
        ClaimWrites(c, w.s, k);
        ClaimedDoomed(HistoryOf(w.s.stakerInfo, k), u);
        assert Effect(c, w.s, ev) == ClaimStakerEffect(c, w.s, k.staker, k.provider) by {
          ClaimIsEffect(c, w.s, k);
        }
      } else {
        hide CallError;
        HistoryUntouched(c, w.s, ev, k);
      }
    }
  }

  lemma ClaimIsEffect(c: Config, s: State, k: Pair)
    requires c.Valid() && ClaimStakerError(c, s, k.staker, k.provider).None?
    ensures Effect(c, s, ClaimStaker(k.staker, k.provider)) == ClaimStakerEffect(c, s, k.staker, k.provider)
  {
    hide ClaimStakerError, ClaimStakerEffect;
  }

  lemma NonEmpty(s: State, k: Pair, u: nat)
    requires DoomedStake(s, k, u)
    ensures HistoryOf(s.stakerInfo, k) != []
  {
  }

  lemma DoomedStep(c: Config, w: World, ev: Event, k: Pair, u: nat)
    requires Inv(c, w) && Admissible(c, w, ev) && DoomedStake(w.s, k, u)
    ensures c.Valid() && w.g.eras != []
    ensures var h, s' := HistoryOf(w.s.stakerInfo, k), Step(c, w, ev).s;
            && DoomedStake(s', k, u) && Latest(HistoryOf(s'.stakerInfo, k)) == Latest(h)
            && (ZeroHead(h) ==> HistoryOf(s'.stakerInfo, k) == h)
  {
    hide Inv, DoomedStake, CallError, Atomic, Then, Latest, HistoryOf;
    InvBasics(c, w);
    DoomedAtomic(c, w, ev, k, u);
    if Then(ev, c).Some? {
      AtomicKeepsInv(c, w, ev);
      DoomedAtomic(c, Atomic(c, w, ev), Then(ev, c).value, k, u);
    }
  }

  /** A doomed stake is locked for ever: in every run the exit is refused and the ledger keeps at least that stake. */
  lemma {:induction false} DoomedForever(c: Config, w: World, evs: seq<Event>, k: Pair, u: nat)
    requires Inv(c, w) && AdmissibleRun(c, w, evs) && DoomedStake(w.s, k, u)
    ensures c.Valid() && w.g.eras != []
    ensures var h, s' := HistoryOf(w.s.stakerInfo, k), Execute(c, w, evs).s;
            && DoomedStake(s', k, u)
            && (ZeroHead(h) ==> HistoryOf(s'.stakerInfo, k) == h)
            && ExitStakerError(c, s', k.staker, k.provider).Some?
            && LedgerOf(s'.ledger, k.staker).locked >= Latest(h)
    decreases |evs|
  {
    hide Inv, DoomedStake, Step, Admissible, Latest, HistoryOf, ExitStakerError, LedgerOf;
    InvBasics(c, w);
    if evs == [] {
      StoredAscending(c, w, k);
      NonEmpty(w.s, k, u);
      DoomedErrors(c, w.s, k, u, 0);
      StakeStaysLocked(c, w, k);
    } else {
      StepKeepsInv(c, w, evs[0]);
      DoomedStep(c, w, evs[0], k, u);
      DoomedForever(c, Step(c, w, evs[0]), evs[1..], k, u);
    }
  }

  lemma StakeStaysLocked(c: Config, w: World, k: Pair)
    requires Inv(c, w)
    ensures LedgerOf(w.s.ledger, k.staker).locked >= Latest(HistoryOf(w.s.stakerInfo, k))
  {
    hide Inv, StakesInv, FundsInv, RewardsInv, Latest, LedgerOf, HistoryOf;
    PastEras.LastRecordUnpaid(c, w);
    CurrentStake(c, w, k);
    LedgerFacts(c, w, k.staker);
    StakeLocked(Now(w.g.eras), k);
  }

  /** The special case that is visible at the head: the pair cannot even claim. */
  ghost predicate IsWedged(s: State, k: Pair, u: nat, h: History) {
    && k.provider in s.providers && s.providers[k.provider].state == Unregistered(u)
    && HistoryOf(s.stakerInfo, k) == h
    && ZeroHead(h) && 1 <= h[0].era < u && Latest(h) > 0
  }

  lemma WedgedForever(c: Config, w: World, evs: seq<Event>, k: Pair, u: nat, h: History)
    requires Inv(c, w) && AdmissibleRun(c, w, evs) && IsWedged(w.s, k, u, h)
    ensures c.Valid() && w.g.eras != []
    ensures var s' := Execute(c, w, evs).s;
            && IsWedged(s', k, u, h)
            && ClaimStakerError(c, s', k.staker, k.provider).Some?
            && ExitStakerError(c, s', k.staker, k.provider).Some?
            && LedgerOf(s'.ledger, k.staker).locked >= Latest(h)
  {
    hide Inv, Execute, Latest, HistoryOf, ExitStakerError, LedgerOf, StakerReward, CanWithdraw;
    assert DoomedEntry(h, u, 0);
    DoomedForever(c, w, evs, k, u);
  }

  // ---------------------------------------------------------------- stakes that do leave

  ghost predicate OnlyClaimsOf(evs: seq<Event>, k: Pair) {
    forall i :: 0 <= i < |evs| ==> evs[i] == ClaimStaker(k.staker, k.provider)
  }

  /** The pot is free and covers what is owed. */
  ghost predicate PotReady(c: Config, w: World) {
    PotFree(c, w.s) && PotCovers(w)
  }

  /** A claim of a positive head that is over: it goes through, and leaves everything else ready for the next one. */
  lemma ClaimGoesThrough(c: Config, w: World, k: Pair)
    requires Inv(c, w) && PotReady(c, w) && k.staker != c.pot && k.provider in w.s.providers
    requires var h := HistoryOf(w.s.stakerInfo, k);
             h != [] && h[0].staked > 0 && h[0].era < ClaimLimit(w.s, k.provider)
    ensures c.Valid() && w.g.eras != []
    ensures var ev, w' := ClaimStaker(k.staker, k.provider), Step(c, w, ClaimStaker(k.staker, k.provider));
            var h, d := HistoryOf(w.s.stakerInfo, k), HistoryOf(w.s.stakerInfo, k)[0].era;
            && Admissible(c, w, ev) && Inv(c, w') && PotReady(c, w')
            && w'.s.providers == w.s.providers && w'.s.currentEra == w.s.currentEra && w'.g.exited == w.g.exited
            && HistoryOf(w'.s.stakerInfo, k) == Claimed(h)
            && (forall j :: j != k ==> HistoryOf(w'.s.stakerInfo, j) == HistoryOf(w.s.stakerInfo, j))
            && d < |w.g.eras| && k in w.g.eras[d].stakes && k !in w.g.eras[d].toStakers
            && w'.g.eras == w.g.eras[d := PayStaker(w.g.eras[d], k, StakerReward(w.s, k.staker, k.provider))]
  {
    hide StakesInv, FundsInv, RewardsInv, StakerReward, HistoryOf, ClaimStakerError, PotReady, Step, CanWithdraw;
    var ev := ClaimStaker(k.staker, k.provider);
    PastEras.LastRecordUnpaid(c, w);
    Consequences.AllErasKnown(c, w);
    RewardSteps.ClaimMatchesTable(c, w, k);
    hide Inv;
    ClaimCheck(c, w.s, k.staker, k.provider);
    PotReadyClaims(c, w, k);
    SimpleStep(c, w, ev);
    StepKeepsInv(c, w, ev);
    ClaimWrites(c, w.s, k);
    ClaimFrame(c, w, k);
    PotStaysReady(c, w, Step(c, w, ev));
  }

  lemma PotReadyClaims(c: Config, w: World, k: Pair)
    requires Inv(c, w) && PotReady(c, w)
    ensures ClaimStakerError(c, w.s, k.staker, k.provider) != Some(CurrencyFailure)
  {
    ClaimsNeverBounce(c, w, k.staker, k.provider, 0);
  }

  lemma ClaimFrame(c: Config, w: World, k: Pair)
    requires c.Valid() && w.g.eras != [] && ClaimStakerError(c, w.s, k.staker, k.provider).None?
    requires HistoryOf(w.s.stakerInfo, k) != [] && HistoryOf(w.s.stakerInfo, k)[0].era < |w.g.eras|
    ensures var s' := ClaimStakerEffect(c, w.s, k.staker, k.provider);
            var g' := Track(c, w, ClaimStaker(k.staker, k.provider));
            var d := HistoryOf(w.s.stakerInfo, k)[0].era;
            && s' == w.s.(balances := s'.balances, stakerInfo := s'.stakerInfo)
            && s'.balances == w.s.balances.(free := s'.balances.free)
            && (forall j :: j != k ==> HistoryOf(s'.stakerInfo, j) == HistoryOf(w.s.stakerInfo, j))
            && g' == w.g.(eras := w.g.eras[d := PayStaker(w.g.eras[d], k, StakerReward(w.s, k.staker, k.provider))])
  {
    hide ClaimStakerError, StakerReward, Claimed;
  }

  /** What is owed does not change by paying. */
  lemma PotStaysReady(c: Config, w: World, w': World)
    requires Inv(c, w) && PotReady(c, w)
    requires w'.s.currentEra == w.s.currentEra && w'.s.eraInfo == w.s.eraInfo && |w'.g.eras| == |w.g.eras|
    requires forall e :: 0 <= e < |w.g.eras| ==> w'.g.eras[e].stakes == w.g.eras[e].stakes
    requires w'.g.potBase == w.g.potBase && w'.g.inflow == w.g.inflow
    requires w'.s.balances == w.s.balances.(free := w'.s.balances.free)
    ensures PotReady(c, w')
  {
    hide StakesInv, FundsInv, PaidOk, Owed;
    OwedAgrees(w.s.eraInfo, w'.s.eraInfo, w.g.eras, w'.g.eras, w.s.currentEra);
  }

  /** Without a doomed entry, claiming until the unregistration is reached clears the way out. */
  lemma {:induction false} ClaimsClearTheWay(c: Config, w: World, k: Pair, u: nat)
    requires Inv(c, w) && PotReady(c, w) && k.staker != c.pot && ExitOpen(c, w.s, k.provider)
    requires w.s.providers[k.provider].state == Unregistered(u)
    requires var h := HistoryOf(w.s.stakerInfo, k); Latest(h) > 0 && !Doomed(h, u)
    ensures c.Valid() && w.g.eras != []
    ensures exists evs :: OnlyClaimsOf(evs, k) && AdmissibleRun(c, w, evs)
                       && ExitStakerError(c, Execute(c, w, evs).s, k.staker, k.provider).None?
    decreases SatSub(u, ClaimedEntry(HistoryOf(w.s.stakerInfo, k)).era)
  {
    hide Inv, PotReady, Step, HistoryOf, ExitStakerError, Doomed, Latest, Claimed, Execute, AdmissibleRun, Admissible;
    InvBasics(c, w);
    StoredAscending(c, w, k);
    var h, ev := HistoryOf(w.s.stakerInfo, k), ClaimStaker(k.staker, k.provider);
    HasEntries(h);
    ExitCheck(c, w.s, k.staker, k.provider);
    if h[0].era >= u {
      NoSteps(c, w);
      assert OnlyClaimsOf([], k);
    } else {
      NotDoomedHead(h, u);
      UnregisteredEra(c, w, k.provider);
      ClaimGoesThrough(c, w, k);
      ClaimedDoomed(h, u);
      ClaimedRefines(h, 0);
      var w' := Step(c, w, ev);
      ClaimsClearTheWay(c, w', k, u);
      var evs :| OnlyClaimsOf(evs, k) && AdmissibleRun(c, w', evs)
                 && ExitStakerError(c, Execute(c, w', evs).s, k.staker, k.provider).None?;
      ExecuteCons(c, w, ev, evs);
      assert OnlyClaimsOf([ev] + evs, k);
    }
  }

  lemma HasEntries(h: History)
    requires Latest(h) > 0
    ensures h != []
  {
  }

  lemma NotDoomedHead(h: History, u: nat)
    requires h != [] && h[0].era < u && !Doomed(h, u)
    ensures h[0].staked > 0
  {
    if h[0].staked == 0 {
      assert DoomedEntry(h, u, 0);
    }
  }

  lemma NoSteps(c: Config, w: World)
    requires c.Valid() && w.g.eras != []
    ensures AdmissibleRun(c, w, []) && Execute(c, w, []) == w
  {
  }

  /**
    Exactly when a stake can leave an unregistered provider whose waiting period is over, the pot being able to pay:
    when its history has no doomed entry.  Then claims of the pair alone lead to a successful exit; else no run does.
    */
  lemma StakeLeavesExactly(c: Config, w: World, k: Pair, u: nat)
    requires Inv(c, w) && PotReady(c, w) && k.staker != c.pot && ExitOpen(c, w.s, k.provider)
    requires w.s.providers[k.provider].state == Unregistered(u) && Latest(HistoryOf(w.s.stakerInfo, k)) > 0
    ensures c.Valid() && w.g.eras != []
    ensures (exists evs :: AdmissibleRun(c, w, evs)
                        && ExitStakerError(c, Execute(c, w, evs).s, k.staker, k.provider).None?)
       <==> !Doomed(HistoryOf(w.s.stakerInfo, k), u)
    ensures !Doomed(HistoryOf(w.s.stakerInfo, k), u) ==>
              exists evs :: OnlyClaimsOf(evs, k) && AdmissibleRun(c, w, evs)
                         && ExitStakerError(c, Execute(c, w, evs).s, k.staker, k.provider).None?
  {
    hide Inv, PotReady, HistoryOf, ExitStakerError, Doomed, Latest, Execute, AdmissibleRun, LedgerOf;
    InvBasics(c, w);
    if Doomed(HistoryOf(w.s.stakerInfo, k), u) {
      forall evs | AdmissibleRun(c, w, evs)
        ensures ExitStakerError(c, Execute(c, w, evs).s, k.staker, k.provider).Some?
      {
        DoomedForever(c, w, evs, k, u);
      }
    } else {
      ClaimsClearTheWay(c, w, k, u);
    }
  }
}
