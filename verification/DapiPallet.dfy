/**
  The dAPI pallet as it runs: each call reads a provider, asks the staking pallet to follow, and only then writes the
  provider back.  Each call is proved to be one step of the network of both pallets, error included.
  */
module Dapi {
  import opened Options
  import opened StakingState
  import opened Runs
  import opened Lifecycle
  import opened Pallet

  class DapiPallet {
    const maxChainId: nat
    const staking: StakingPallet

    var providers: Lifecycle.Registry
    var regulators: set<AccountId>
    var chainIds: set<ChainId>

    ghost function View(): Network
      reads this, staking, staking.currency
    {
      Network(staking.World(), providers, regulators, chainIds)
    }

    constructor (maxChainId: nat, staking: StakingPallet, regulators: set<AccountId>, chainIds: set<ChainId>)
      ensures this.maxChainId == maxChainId && this.staking == staking
      ensures View() == Network(staking.World(), map[], regulators, chainIds)
    {
      this.maxChainId, this.staking, this.regulators, this.chainIds := maxChainId, staking, regulators, chainIds;
      providers := map[];
    }

    method RegisterProvider(regulator: AccountId, p: ProviderId, providerType: ProviderType, operator: AccountId,
                            chainId: ChainId)
      returns (r: Option<DapiError>)
      requires staking.Ready()
      modifies this
      ensures var call := Call.RegisterProvider(regulator, p, providerType, operator, chainId);
              && View() == NetStep(staking.config, maxChainId, old(View()), call)
              && r == CallOutcome(staking.config, maxChainId, old(View()), call)
    {
      if regulator !in regulators {
        return Some(PermissionDenied);
      }
      if p in providers {
        return Some(AlreadyExist);
      }
      if |chainId| > maxChainId {
        return Some(BadChainId);
      }
      if chainId !in chainIds {
        return Some(NotExist);
      }
      providers := providers[p := Provider(providerType, operator, chainId, DapiState.Registered)];
      return None;
    }

    method DepositProvider(operator: AccountId, p: ProviderId, deposit: nat) returns (r: Option<DapiError>)
      requires staking.Ready()
      modifies this, staking, staking.currency
      ensures staking.Ready()
      ensures var call := Call.DepositProvider(operator, p, deposit);
              && View() == NetStep(staking.config, maxChainId, old(View()), call)
              && r == CallOutcome(staking.config, maxChainId, old(View()), call)
    {
      hide Step, StepOutcome;
      if p !in providers {
        return Some(NotExist);
      }
      var provider := providers[p];
      if provider.operator != operator {
        return Some(NotOwner);
      }
      if provider.state != DapiState.Registered {
        return Some(InvalidProviderState);
      }
      var outcome := staking.Register(operator, p, deposit);
      if outcome.Err? {
        return Some(StakingFailure(outcome.error));
      }
      providers := providers[p := provider.(state := Active)];
      return None;
    }

    method UnregisterProvider(account: AccountId, p: ProviderId) returns (r: Option<DapiError>)
      requires staking.Ready()
      modifies this, staking, staking.currency
      ensures staking.Ready()
      ensures var call := Call.UnregisterProvider(account, p);
              && View() == NetStep(staking.config, maxChainId, old(View()), call)
              && r == CallOutcome(staking.config, maxChainId, old(View()), call)
    {
      hide Step, StepOutcome;
      if p !in providers {
        return Some(NotExist);
      }
      var provider := providers[p];
      if provider.operator != account {
        return Some(NotOwner);
      }
      if provider.state != Active {
        return Some(InactiveProvider);
      }
      var outcome := staking.Unregister(p);
      if outcome.Err? {
        return Some(StakingFailure(outcome.error));
      }
      providers := providers[p := provider.(state := InActive)];
      return None;
    }

    method ReportProviderOffence(regulator: AccountId, p: ProviderId) returns (r: Option<DapiError>)
      requires staking.Ready()
      modifies this, staking, staking.currency
      ensures staking.Ready()
      ensures var call := Call.ReportProviderOffence(regulator, p);
              && View() == NetStep(staking.config, maxChainId, old(View()), call)
              && r == CallOutcome(staking.config, maxChainId, old(View()), call)
    {
      hide Step, StepOutcome;
      if regulator !in regulators {
        return Some(PermissionDenied);
      }
      if p !in providers {
        return Some(NotExist);
      }
      var provider := providers[p];
      if provider.state != Active {
        return Some(InvalidProviderState);
      }
      var outcome := staking.Unregister(p);
      if outcome.Err? {
        return Some(StakingFailure(outcome.error));
      }
      providers := providers[p := provider.(state := InActive)];
      return None;
    }
  }
}
