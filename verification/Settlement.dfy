/** When everything that past eras owe can actually be claimed, and which eras a run can therefore overpay. */
module Settlement {
  import opened Options
  import opened StakerHistory
  import opened StakingState
  import opened StakingInvariant
  import opened Runs
  import opened Reachability
  import opened Payouts
  import opened Exits
  import opened Solvency
  import opened Wedged
  import Consequences
  import PastEras
  import RewardSteps

  // ---------------------------------------------------------------- what is still due

  predicate IsClaim(ev: Event) {
    ev.ClaimStaker? || ev.ClaimOperator?
  }

  ghost predicate OnlyClaims(evs: seq<Event>) {
    forall i :: 0 <= i < |evs| ==> IsClaim(evs[i])
  }

  /**
    Nobody has lost what the era owes: its providers were still registered then, and every unpaid staker is somebody who
    can sign, has not left, and has no doomed history up to the era.
    */
  ghost predicate Payable(c: Config, w: World, e: nat) {
    && e < |w.g.eras|
    && (forall p :: p in ProvidersOf(w.g.eras[e].stakes) ==> p in w.s.providers && Claimable(w.s.providers, p, e))
    && (forall k :: k in w.g.eras[e].stakes ==>
                      && k.staker != c.pot
                      && (k in w.g.eras[e].toStakers
                          || (k !in w.g.exited && !Doomed(HistoryOf(w.s.stakerInfo, k), e + 1))))
  }

  /** How many payments an era still owes. */
  ghost function DuesIn(r: EraRecord): nat {
    |r.stakes.Keys - r.toStakers.Keys| + |ProvidersOf(r.stakes) - r.toOperators.Keys|
  }

  ghost function Dues(eras: seq<EraRecord>, n: nat): nat
    requires n <= |eras|
  {
    if n == 0 then 0 else Dues(eras, n - 1) + DuesIn(eras[n - 1])
  }

  lemma {:induction false} DuesFall(eras: seq<EraRecord>, e: nat, r: EraRecord, n: nat)
    requires n <= |eras| && e < |eras| && DuesIn(r) < DuesIn(eras[e])
    ensures if e < n then Dues(eras[e := r], n) < Dues(eras, n) else Dues(eras[e := r], n) == Dues(eras, n)
  {
    hide DuesIn;
    if n > 0 {
      DuesFall(eras, e, r, n - 1);
    }
  }

  /** The record of an era after one more payment. */
  ghost predicate OnePaid(r: EraRecord, r': EraRecord) {
    r'.stakes == r.stakes && r.toStakers.Keys <= r'.toStakers.Keys && DuesIn(r') < DuesIn(r)
  }

  lemma StakerPaid(r: EraRecord, k: Pair, amount: nat)
    requires k in r.stakes && k !in r.toStakers
    ensures OnePaid(r, PayStaker(r, k, amount))
  {
    hide ProvidersOf;
    var r' := PayStaker(r, k, amount);
    assert r.stakes.Keys - r.toStakers.Keys == (r'.stakes.Keys - r'.toStakers.Keys) + {k};
  }

  lemma OperatorPaid(r: EraRecord, p: ProviderId, amount: nat)
    requires p in ProvidersOf(r.stakes) && p !in r.toOperators
    ensures OnePaid(r, PayOperator(r, p, amount))
  {
    hide ProvidersOf;
    var r' := PayOperator(r, p, amount);
    assert ProvidersOf(r.stakes) - r.toOperators.Keys == (ProvidersOf(r'.stakes) - r'.toOperators.Keys) + {p};
  }

  lemma RecordProgress(eras: seq<EraRecord>, d: nat, r: EraRecord, n: nat)
    requires d < n <= |eras| && OnePaid(eras[d], r)
    ensures Dues(eras[d := r], n) < Dues(eras, n)
    ensures forall e :: 0 <= e < |eras| ==>
                          && eras[d := r][e].stakes == eras[e].stakes
                          && eras[e].toStakers.Keys <= eras[d := r][e].toStakers.Keys
  {
    hide DuesIn, Dues;
    DuesFall(eras, d, r, n);
  }

  // ---------------------------------------------------------------- one claim

  /** A claim that has gone through: one payment less is due, and nothing that is payable has been lost. */
  ghost predicate Progresses(c: Config, w: World, w': World) {
    && Inv(c, w') && PotReady(c, w') && w'.s.currentEra == w.s.currentEra
    && |w'.g.eras| == |w.g.eras| && w.s.currentEra <= |w.g.eras|
    && Dues(w'.g.eras, w.s.currentEra) < Dues(w.g.eras, w.s.currentEra)
    && forall e :: Payable(c, w, e) ==> Payable(c, w', e)
  }

  lemma PayableKept(c: Config, w: World, w': World, k: Pair)
    requires w'.s.providers == w.s.providers && w'.g.exited == w.g.exited && |w'.g.eras| == |w.g.eras|
    requires forall e :: 0 <= e < |w.g.eras| ==> w'.g.eras[e].stakes == w.g.eras[e].stakes
    requires forall e :: 0 <= e < |w.g.eras| ==> w.g.eras[e].toStakers.Keys <= w'.g.eras[e].toStakers.Keys
    requires forall j :: j != k ==> HistoryOf(w'.s.stakerInfo, j) == HistoryOf(w.s.stakerInfo, j)
    requires forall e: nat :: Doomed(HistoryOf(w'.s.stakerInfo, k), e) ==> Doomed(HistoryOf(w.s.stakerInfo, k), e)
    ensures forall e :: Payable(c, w, e) ==> Payable(c, w', e)
  {
    hide Doomed, HistoryOf, Claimable, ProvidersOf;
  }

  lemma DueHead(c: Config, w: World, k: Pair, e: nat)
    requires Inv(c, w) && Payable(c, w, e) && e < w.s.currentEra
    requires k in w.g.eras[e].stakes && k !in w.g.eras[e].toStakers
    ensures var h := HistoryOf(w.s.stakerInfo, k);
            && k.provider in w.s.providers && k.staker != c.pot
            && h != [] && h[0].staked > 0 && h[0].era < ClaimLimit(w.s, k.provider)
  {
    hide StakesInv, FundsInv, RewardsInv, HistoryOf, Doomed, Ascending;
    PastEras.LastRecordUnpaid(c, w);
    PastRecord(c, w, e);
    HeadDenotes(c, w, k);
    hide Inv;
    assert k.provider in ProvidersOf(w.g.eras[e].stakes);
    var h := HistoryOf(w.s.stakerInfo, k);
    assert Unclaimed(w.g.eras, w.g.exited, k, e) > 0;
    NotDoomedHead(h, e + 1);
  }

  lemma StakerProgress(c: Config, w: World, k: Pair, e: nat)
    requires Inv(c, w) && PotReady(c, w) && Payable(c, w, e) && e < w.s.currentEra
    requires k in w.g.eras[e].stakes && k !in w.g.eras[e].toStakers
    ensures c.Valid() && w.g.eras != []
    ensures Admissible(c, w, ClaimStaker(k.staker, k.provider))
    ensures Progresses(c, w, Step(c, w, ClaimStaker(k.staker, k.provider)))
  {
    hide Inv, PotReady, Payable, HistoryOf, Step, Admissible, StakerReward, Claimed, DuesIn, Dues, PayStaker;
    InvBasics(c, w);
    PayableIndex(c, w, e);
    DueHead(c, w, k, e);
    ClaimGoesThrough(c, w, k);
    var h, w' := HistoryOf(w.s.stakerInfo, k), Step(c, w, ClaimStaker(k.staker, k.provider));
    var d, amount := h[0].era, StakerReward(w.s, k.staker, k.provider);
    StakerPaid(w.g.eras[d], k, amount);
    RecordProgress(w.g.eras, d, PayStaker(w.g.eras[d], k, amount), w.s.currentEra);
    HistoryProgress(h);
    PayableKept(c, w, w', k);
  }

  lemma PayableIndex(c: Config, w: World, e: nat)
    requires Payable(c, w, e)
    ensures e < |w.g.eras|
  {
  }

  lemma HistoryProgress(h: History)
    requires h != [] && h[0].staked > 0
    ensures forall x: nat :: Doomed(Claimed(h), x) ==> Doomed(h, x)
  {
    forall x: nat | Doomed(Claimed(h), x) ensures Doomed(h, x) {
      ClaimedNotDoomed(h, x);
    }
  }

  /** The operator's claim goes through just as well. */
  lemma OperatorGoesThrough(c: Config, w: World, p: ProviderId, e: nat)
    requires Inv(c, w) && PotReady(c, w) && e < w.s.currentEra && e < |w.g.eras|
    requires p in w.s.providers && Claimable(w.s.providers, p, e)
    requires p in ProvidersOf(w.g.eras[e].stakes) && p !in w.g.eras[e].toOperators
    ensures ClaimOperatorError(c, w.s, p, e).None?
  {
    hide Inv, PotReady, ClaimOperatorError, ProvidersOf, StakedOn, Positive, PaidOk;
    PastRecord(c, w, e);
    PartSum(w.g.eras[e].stakes, p);
    OperatorClaimCondition(c, w, p, e);
    OperatorNotBounced(c, w, p, e);
  }

  lemma OperatorNotBounced(c: Config, w: World, p: ProviderId, e: nat)
    requires Inv(c, w) && PotReady(c, w)
    ensures ClaimOperatorError(c, w.s, p, e) != Some(CurrencyFailure)
  {
    ClaimsNeverBounce(c, w, 0, p, e);
  }

  lemma OperatorFrame(c: Config, w: World, p: ProviderId, e: nat)
    requires c.Valid() && w.g.eras != [] && ClaimOperatorError(c, w.s, p, e).None? && e < |w.g.eras|
    ensures p in w.s.providers
    ensures var s', g' := ClaimOperatorEffect(c, w.s, p, e), Track(c, w, ClaimOperator(0, p, e));
            && s' == w.s.(balances := s'.balances, providerStake := s'.providerStake)
            && s'.balances == w.s.balances.(free := s'.balances.free)
            && g' == w.g.(eras := w.g.eras[e := PayOperator(w.g.eras[e], p, OperatorReward(w.s, p, e))])
  {
    hide OperatorReward, CanWithdraw;
  }

  lemma PayOperatorKeeps(r: EraRecord, p: ProviderId, amount: nat)
    ensures PayOperator(r, p, amount).stakes == r.stakes
  {
  }

  lemma OperatorProgress(c: Config, w: World, p: ProviderId, e: nat)
    requires Inv(c, w) && PotReady(c, w) && Payable(c, w, e) && e < w.s.currentEra
    requires p in ProvidersOf(w.g.eras[e].stakes) && p !in w.g.eras[e].toOperators
    ensures c.Valid() && w.g.eras != []
    ensures Admissible(c, w, ClaimOperator(0, p, e))
    ensures Progresses(c, w, Step(c, w, ClaimOperator(0, p, e)))
  {
    hide Inv, PotReady, HistoryOf, Doomed, Step, OperatorReward, ClaimOperatorError, ClaimOperatorEffect, Track,
         Claimable, ProvidersOf, DuesIn, Dues;
    InvBasics(c, w);
    var ev, w' := ClaimOperator(0, p, e), Step(c, w, ClaimOperator(0, p, e));
    OperatorGoesThrough(c, w, p, e);
    SimpleStep(c, w, ev);
    StepKeepsInv(c, w, ev);
    OperatorFrame(c, w, p, e);
    PotStaysReady(c, w, w');
    var amount := OperatorReward(w.s, p, e);
    OperatorPaid(w.g.eras[e], p, amount);
    PayOperatorKeeps(w.g.eras[e], p, amount);
    hide PayOperator, Payable;
    RecordProgress(w.g.eras, e, PayOperator(w.g.eras[e], p, amount), w.s.currentEra);
    PayableKept(c, w, w', Pair(0, p));
  }

  // ---------------------------------------------------------------- settling

  ghost predicate AllSettled(w: World, target: set<nat>) {
    forall e :: e in target ==> e < |w.g.eras| && Settled(w.g.eras[e])
  }

  ghost predicate AllPayable(c: Config, w: World, target: set<nat>) {
    forall e :: e in target ==> e < w.s.currentEra && Payable(c, w, e)
  }

  function ErasBefore(n: nat): (eras: set<nat>)
    ensures forall e: nat :: e in eras <==> e < n
  {
    if n == 0 then {} else ErasBefore(n - 1) + {n - 1}
  }

  /** Nothing was ever paid that was not due. */
  lemma NothingExtra(c: Config, w: World, e: nat)
    requires Inv(c, w) && e < w.s.currentEra
    ensures e < |w.g.eras|
    ensures w.g.eras[e].toStakers.Keys <= w.g.eras[e].stakes.Keys
    ensures w.g.eras[e].toOperators.Keys <= ProvidersOf(w.g.eras[e].stakes)
  {
    hide Inv, ProvidersOf, StakedOn, StakerShare, ProviderShare, Positive;
    PastRecord(c, w, e);
    forall p | p in w.g.eras[e].toOperators ensures p in ProvidersOf(w.g.eras[e].stakes) {
      StakedProvider(w.g.eras[e].stakes, p);
    }
  }

  /** While the pot covers what is owed, claims alone settle any payable eras completely. */
  lemma {:induction false} ClaimsSettle(c: Config, w: World, target: set<nat>)
    requires Inv(c, w) && PotReady(c, w) && AllPayable(c, w, target) && w.s.currentEra <= |w.g.eras|
    ensures c.Valid() && w.g.eras != []
    ensures exists evs :: OnlyClaims(evs) && AdmissibleRun(c, w, evs) && AllSettled(Execute(c, w, evs), target)
    decreases Dues(w.g.eras, w.s.currentEra)
  {
    hide Inv, PotReady, Step, Admissible, Execute, AdmissibleRun, Payable, ProvidersOf, Dues;
    InvBasics(c, w);
    if e, k :| e in target && e < |w.g.eras| && k in w.g.eras[e].stakes && k !in w.g.eras[e].toStakers {
      StakerProgress(c, w, k, e);
      SettleOn(c, w, ClaimStaker(k.staker, k.provider), target);
    } else if e, p :| e in target && e < |w.g.eras| && p in ProvidersOf(w.g.eras[e].stakes)
                      && p !in w.g.eras[e].toOperators {
      OperatorProgress(c, w, p, e);
      SettleOn(c, w, ClaimOperator(0, p, e), target);
    } else {
      NoSteps(c, w);
      forall e | e in target ensures e < |w.g.eras| && Settled(w.g.eras[e]) {
        NothingExtra(c, w, e);
      }
      assert OnlyClaims([]) && AllSettled(w, target);
    }
  }

  lemma {:induction false} SettleOn(c: Config, w: World, ev: Event, target: set<nat>)
    requires Inv(c, w) && AllPayable(c, w, target) && w.s.currentEra <= |w.g.eras|
    requires c.Valid() && w.g.eras != [] && IsClaim(ev) && Admissible(c, w, ev) && Progresses(c, w, Step(c, w, ev))
    ensures exists evs :: OnlyClaims(evs) && AdmissibleRun(c, w, evs) && AllSettled(Execute(c, w, evs), target)
    decreases Dues(w.g.eras, w.s.currentEra), 0
  {
    hide Inv, PotReady, Step, Admissible, Execute, AdmissibleRun, Payable, AllSettled, Dues;
    var w' := Step(c, w, ev);
    ClaimsSettle(c, w', target);
    var evs :| OnlyClaims(evs) && AdmissibleRun(c, w', evs) && AllSettled(Execute(c, w', evs), target);
    ExecuteCons(c, w, ev, evs);
    assert OnlyClaims([ev] + evs);
  }

  // ---------------------------------------------------------------- exactly when

  lemma ClaimKeepsClock(c: Config, w: World, ev: Event)
    requires c.Valid() && w.g.eras != [] && IsClaim(ev)
    ensures Step(c, w, ev).s.currentEra == w.s.currentEra
  {
    hide ClaimStakerError, ClaimOperatorError, Track, StakerReward, OperatorReward;
  }

  lemma {:induction false} ClaimsKeepClock(c: Config, w: World, evs: seq<Event>)
    requires c.Valid() && w.g.eras != [] && OnlyClaims(evs)
    ensures Execute(c, w, evs).s.currentEra == w.s.currentEra && RewardsIn(evs) == 0
    decreases |evs|
  {
    hide Step;
    if evs != [] {
      ClaimKeepsClock(c, w, evs[0]);
      ClaimsKeepClock(c, Step(c, w, evs[0]), evs[1..]);
    }
  }

  /** A run of claims that settles all past eras shows that the pot covered them from the start. */
  lemma SettledShowsCover(c: Config, w: World, evs: seq<Event>)
    requires Inv(c, w) && OnlyClaims(evs) && AdmissibleRun(c, w, evs)
    requires AllSettled(Execute(c, w, evs), ErasBefore(w.s.currentEra))
    ensures PotCovers(w)
  {
    hide StakesInv, FundsInv, Execute, Settled, PaidOk, Owed, AdmissibleRun;
    InvBasics(c, w);
    var w' := Execute(c, w, evs);
    ClaimsKeepClock(c, w, evs);
    RunPotBase(c, w, evs);
    RunInflow(c, w, evs);
    RunKeepsInv(c, w, evs);
    PastEras.RunKeepsPast(c, w, evs);
    InvBasics(c, w');
    SettledNeedsCover(c, w');
    forall e: nat | e < w.s.currentEra
      ensures e in w.s.eraInfo && e in w'.s.eraInfo && w'.s.eraInfo[e].rewards == w.s.eraInfo[e].rewards
      ensures w'.g.eras[e].stakes == w.g.eras[e].stakes
    {
      assert PastEras.RecordKept(w.g.eras[e], w'.g.eras[e]);
    }
    OwedAgrees(w.s.eraInfo, w'.s.eraInfo, w.g.eras, w'.g.eras, w.s.currentEra);
  }

  /**
    Exactly when all past eras can be settled by claims alone, provided that nothing owed has been lost and nothing on
    the pot is locked or frozen: when everything that ever came into the pot covers everything that is owed.
    */
  lemma SettledExactly(c: Config, w: World)
    requires Inv(c, w) && PotFree(c, w.s) && AllPayable(c, w, ErasBefore(w.s.currentEra))
    ensures c.Valid() && w.g.eras != []
    ensures (exists evs :: OnlyClaims(evs) && AdmissibleRun(c, w, evs)
                        && AllSettled(Execute(c, w, evs), ErasBefore(w.s.currentEra)))
       <==> PotCovers(w)
  {
    var past := ErasBefore(w.s.currentEra);
    hide Inv, PotFree, PotCovers, AllPayable, AllSettled, OnlyClaims, Execute, AdmissibleRun;
    InvBasics(c, w);
    if PotCovers(w) {
      ClaimsSettle(c, w, past);
    }
    if evs :| OnlyClaims(evs) && AdmissibleRun(c, w, evs) && AllSettled(Execute(c, w, evs), past) {
      SettledShowsCover(c, w, evs);
    }
  }

  /**
    A payable era can be paid in full by claims while the pot covers what is owed.  So some run overpays it exactly when
    its full payout exceeds its rewards.
    */
  lemma OverpaidByRunExactly(c: Config, w: World, e: nat)
    requires Inv(c, w) && PotReady(c, w) && e < w.s.currentEra && Payable(c, w, e)
    ensures c.Valid() && w.g.eras != [] && e < |w.g.eras| && e in w.s.eraInfo
    ensures var full, x := FullPayout(w.g.eras[e].stakes, w.s.eraInfo[e].rewards), w.s.eraInfo[e].rewards;
            && (exists evs :: OnlyClaims(evs) && AdmissibleRun(c, w, evs) && PaidFor(c, w, evs, e) == full)
            && ((exists evs :: AdmissibleRun(c, w, evs) && PaidFor(c, w, evs, e) > x.operators + x.stakers)
                <==> full > x.operators + x.stakers)
  {
    hide Inv, PotReady, Payable, Execute, AdmissibleRun, FullPayout, PaidOk, Positive;
    InvBasics(c, w);
    PastRecord(c, w, e);
    var full, x := FullPayout(w.g.eras[e].stakes, w.s.eraInfo[e].rewards), w.s.eraInfo[e].rewards;
    ClaimsSettle(c, w, {e});
    var evs :| OnlyClaims(evs) && AdmissibleRun(c, w, evs) && AllSettled(Execute(c, w, evs), {e});
    SettledPaysFull(c, w, evs, e);
    forall run | AdmissibleRun(c, w, run) ensures PaidFor(c, w, run, e) <= full {
      RunPaysAtMostFull(c, w, run, e);
    }
  }

  /** What a run has paid in all for era `e`. */
  ghost function PaidFor(c: Config, w: World, evs: seq<Event>, e: nat): nat
    requires c.Valid() && w.g.eras != []
  {
    var w' := Execute(c, w, evs);
    if e < |w'.g.eras| then w'.g.eras[e].paid else 0
  }

  lemma SettledPaysFull(c: Config, w: World, evs: seq<Event>, e: nat)
    requires Inv(c, w) && AdmissibleRun(c, w, evs) && e < w.s.currentEra
    requires AllSettled(Execute(c, w, evs), {e})
    ensures c.Valid() && w.g.eras != [] && e < |w.g.eras| && e in w.s.eraInfo
    ensures PaidFor(c, w, evs, e) == FullPayout(w.g.eras[e].stakes, w.s.eraInfo[e].rewards)
  {
    hide StakesInv, FundsInv, RewardsInv, PaidOk, FullPayout, Execute, AdmissibleRun, ProvidersOf;
    InvBasics(c, w);
    var w' := Execute(c, w, evs);
    PastRecord(c, w, e);
    RunKeepsInv(c, w, evs);
    PastEras.RunKeepsPast(c, w, evs);
    InvBasics(c, w');
    PastRecord(c, w', e);
    hide Inv;
    assert PastEras.RecordKept(w.g.eras[e], w'.g.eras[e]);
    assert Settled(w'.g.eras[e]);
    PaidInFull(w'.g.eras[e], w'.s.eraInfo[e].rewards);
  }
}
