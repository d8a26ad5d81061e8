/** Registration, unregistration and the operator's exit keep every view in agreement. */
module ProviderSteps {
  import opened Sums
  import opened Arithmetic
  import opened StakingState
  import opened StakingInvariant
  import opened LockingSteps

  /** Changing one provider's record, seen by every view of stakes. */
  lemma SetProviderKeepsStakes(c: Config, w: World, p: ProviderId, info: ProviderInfo, w': World)
    requires Steady(c, w) && StakesInv(c, w)
    requires w'.g == w.g && w'.s.providers == w.s.providers[p := info]
    requires w'.s.currentEra == w.s.currentEra && w'.s.stakerInfo == w.s.stakerInfo
    requires w'.s.providerStake == w.s.providerStake
    requires info.operator != c.pot && (info.state.Unregistered? ==> info.state.era <= w.s.currentEra)
    requires forall e: nat :: e <= w.s.currentEra && p in w.s.providers ==>
                                (Open(info, e) <==> Open(w.s.providers[p], e))
    requires p in w.s.providers && w.s.providers[p].state.Unregistered? ==> info.state.Unregistered?
    requires p !in w.s.providers ==> info.state.Registered?
    ensures StakesInv(c, w')
  {
    hide HistoriesOk, Denotes, TotalsOk, SlotsOk, FlagsOk, TablesOk, StakedOn;
    TotalsProvider(c, w.s.providers, w.s.providerStake, w.g.eras, p, info);
    SlotsProvider(w.s.providers, w.s.providerStake, w.g.eras, p, info);
    TablesProvider(c, w.s.providers, w.g.eras, p, info);
  }

  lemma SlotsProvider(providers: Providers, stakes: ProviderStakes, eras: seq<EraRecord>, p: ProviderId,
                      info: ProviderInfo)
    requires SlotsOk(providers, stakes, eras)
    requires forall e: nat :: e < |eras| && p in providers ==> (Open(info, e) <==> Open(providers[p], e))
    ensures SlotsOk(providers[p := info], stakes, eras)
  {
  }

  lemma TablesProvider(c: Config, providers: Providers, eras: seq<EraRecord>, p: ProviderId, info: ProviderInfo)
    requires TablesOk(c, providers, eras)
    ensures TablesOk(c, providers[p := info], eras)
  {
    forall e | 0 <= e < |eras| ensures TableOk(c, providers[p := info], eras[e].stakes) {
      assert TableOk(c, providers, eras[e].stakes);
    }
  }

  lemma TotalsProvider(c: Config, providers: Providers, stakes: ProviderStakes, eras: seq<EraRecord>, p: ProviderId,
                       info: ProviderInfo)
    requires TotalsOk(providers, stakes, eras) && SlotsOk(providers, stakes, eras) && TablesOk(c, providers, eras)
    requires forall e: nat :: e < |eras| && p in providers ==> (Open(info, e) <==> Open(providers[p], e))
    ensures TotalsOk(providers[p := info], stakes, eras)
  {
    forall q, e: nat | e < |eras| && q in providers[p := info] && Open(providers[p := info][q], e)
      ensures TotalOk(EntryAt(stakes, Slot(q, e)), StakedOn(eras[e].stakes, q))
    {
      if q in providers {
        assert TotalOk(EntryAt(stakes, Slot(q, e)), StakedOn(eras[e].stakes, q));
      } else {
        assert TableOk(c, providers, eras[e].stakes);
        assert StakedOn(eras[e].stakes, q) == map[];
      }
    }
  }

  /** Changing provider records and moving money between free and reserved balances, seen by every view of funds. */
  lemma SetProviderKeepsFunds(c: Config, w: World, w': World)
    requires Steady(c, w) && FundsInv(c, w)
    requires w'.g == w.g
    requires w'.s == w.s.(providers := w'.s.providers, balances := w'.s.balances)
    requires w'.s.balances.locks == w.s.balances.locks
    requires SolventOk(w'.s.balances) && DepositsOk(c, w'.s.providers, w'.s.balances.reserved)
    ensures FundsInv(c, w')
  {
    hide LedgersOk, LockedOk, LocksOk, SolventOk, StakedOk, CurrentEraOk, QueueOk, DepositsOk;
  }

  lemma SetProviderKeepsRewards(c: Config, w: World, w': World)
    requires Steady(c, w) && RewardsInv(c, w)
    requires w'.g == w.g
    requires w'.s == w.s.(providers := w'.s.providers, balances := w'.s.balances)
    requires Get(w'.s.balances.free, c.pot) == Get(w.s.balances.free, c.pot)
    ensures RewardsInv(c, w')
  {
  }

  // ---------------------------------------------------------------- register

  lemma ReservedSolvent(b: Balances, who: AccountId, amount: nat)
    requires SolventOk(b) && CanWithdraw(b, who, amount)
    ensures SolventOk(Reserved(b, who, amount))
  {
    hide Sum;
    assert Get(b.locks, who) <= Get(b.free, who);
    SumPut(b.free, who, SatSub(Get(b.free, who), amount));
    SumPut(b.reserved, who, Get(b.reserved, who) + amount);
  }

  lemma DepositsRegister(c: Config, providers: Providers, reserved: map<AccountId, nat>, p: ProviderId, who: AccountId)
    requires DepositsOk(c, providers, reserved) && p !in providers
    ensures DepositsOk(c, providers[p := ProviderInfo(who, Registered, false)],
                       reserved[who := Get(reserved, who) + c.registerDeposit])
  {
    var providers' := providers[p := ProviderInfo(who, Registered, false)];
    var reserved' := reserved[who := Get(reserved, who) + c.registerDeposit];
    forall a ensures Get(reserved', a) == |Holding(providers', a)| * c.registerDeposit {
      HoldingRegister(providers, p, who, a);
      hide Holding;
      Distribute(|Holding(providers, a)|, 1, c.registerDeposit);
    }
  }

  lemma HoldingRegister(providers: Providers, p: ProviderId, who: AccountId, a: AccountId)
    requires p !in providers
    ensures |Holding(providers[p := ProviderInfo(who, Registered, false)], a)|
         == |Holding(providers, a)| + if a == who then 1 else 0
  {
    var providers' := providers[p := ProviderInfo(who, Registered, false)];
    assert Holding(providers', a) == Holding(providers, a) + if a == who then {p} else {};
  }

  lemma RegisterKeepsInv(c: Config, w: World, who: AccountId, p: ProviderId, deposit: nat)
    requires Inv(c, w) && who != c.pot && RegisterError(c, w.s, who, p, deposit).None?
    ensures Inv(c, World(RegisterEffect(c, w.s, who, p), w.g))
  {
    hide StakesInv, LedgersOk, LockedOk, LocksOk, SolventOk, StakedOk, CurrentEraOk, QueuesOk, DepositsOk, RewardsInv,
         CanWithdraw;
    var w' := World(RegisterEffect(c, w.s, who, p), w.g);
    assert Unpaid(w.g.eras[w.s.currentEra]) by { LastUnpaid(c, w); }
    SetProviderKeepsStakes(c, w, p, ProviderInfo(who, Registered, false), w');
    ReservedSolvent(w.s.balances, who, c.registerDeposit);
    DepositsRegister(c, w.s.providers, w.s.balances.reserved, p, who);
    SetProviderKeepsFunds(c, w, w');
    SetProviderKeepsRewards(c, w, w');
  }

  lemma LastUnpaid(c: Config, w: World)
    requires RewardsInv(c, w) && |w.g.eras| == w.s.currentEra + 1
    ensures Unpaid(w.g.eras[w.s.currentEra])
  {
  }

  // ---------------------------------------------------------------- unregister

  lemma UnregisterKeepsInv(c: Config, w: World, p: ProviderId)
    requires Inv(c, w) && UnregisterError(w.s, p).None?
    ensures Inv(c, World(UnregisterEffect(w.s, p), w.g))
  {
    hide HistoriesOk, Denotes, TotalsOk, SlotsOk, FlagsOk, TablesOk, ExitedOk,
         LedgersOk, LockedOk, LocksOk, SolventOk, StakedOk, CurrentEraOk, QueuesOk, RewardsInv;
    var info := w.s.providers[p].(state := Unregistered(w.s.currentEra));
    var w' := World(UnregisterEffect(w.s, p), w.g);
    LastUnpaid(c, w);
    SetProviderKeepsStakes(c, w, p, info, w');
    forall a ensures Holding(w'.s.providers, a) == Holding(w.s.providers, a) {
    }
    SetProviderKeepsFunds(c, w, w');
    SetProviderKeepsRewards(c, w, w');
  }

  // ---------------------------------------------------------------- withdraw_from_unregistered_operator

  lemma UnreservedSolvent(b: Balances, who: AccountId, amount: nat)
    requires SolventOk(b)
    ensures SolventOk(Unreserved(b, who, amount))
  {
    hide Sum;
    var moved := Min(amount, Get(b.reserved, who));
    SumPut(b.free, who, Get(b.free, who) + moved);
    SumPut(b.reserved, who, Get(b.reserved, who) - moved);
  }

  lemma DepositsExit(c: Config, providers: Providers, b: Balances, p: ProviderId)
    requires DepositsOk(c, providers, b.reserved) && p in providers && !providers[p].unreserved
    ensures DepositsOk(c, providers[p := providers[p].(unreserved := true)],
                       Unreserved(b, providers[p].operator, c.registerDeposit).reserved)
  {
    var who := providers[p].operator;
    var providers' := providers[p := providers[p].(unreserved := true)];
    forall a
      ensures Get(Unreserved(b, who, c.registerDeposit).reserved, a) == |Holding(providers', a)| * c.registerDeposit
    {
      HoldingExit(providers, p, a);
      hide Holding;
      Distribute(|Holding(providers', a)|, 1, c.registerDeposit);
    }
  }

  lemma HoldingExit(providers: Providers, p: ProviderId, a: AccountId)
    requires p in providers && !providers[p].unreserved
    ensures |Holding(providers, a)|
         == |Holding(providers[p := providers[p].(unreserved := true)], a)|
          + if a == providers[p].operator then 1 else 0
  {
    var providers' := providers[p := providers[p].(unreserved := true)];
    assert Holding(providers, a) == Holding(providers', a) + if a == providers[p].operator then {p} else {};
  }

  lemma OperatorExitKeepsInv(c: Config, w: World, who: AccountId, p: ProviderId)
    requires Inv(c, w) && who != c.pot && ExitOperatorError(c, w.s, who, p).None?
    ensures Inv(c, World(ExitOperatorEffect(c, w.s, who, p), w.g))
  {
    hide HistoriesOk, Denotes, TotalsOk, SlotsOk, FlagsOk, TablesOk, ExitedOk,
         LedgersOk, LockedOk, LocksOk, SolventOk, StakedOk, CurrentEraOk, QueuesOk, DepositsOk, RewardsInv;
    var w' := World(ExitOperatorEffect(c, w.s, who, p), w.g);
    LastUnpaid(c, w);
    SetProviderKeepsStakes(c, w, p, w.s.providers[p].(unreserved := true), w');
    UnreservedSolvent(w.s.balances, who, c.registerDeposit);
    DepositsExit(c, w.s.providers, w.s.balances, p);
    SetProviderKeepsFunds(c, w, w');
    SetProviderKeepsRewards(c, w, w');
  }
}
