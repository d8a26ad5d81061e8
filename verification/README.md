# A model of the dAPI staking, provider registry and validator-set pallets

Accounts lock funds on dAPI providers, era by era. The staking pallet records every amount several times over: a
compressed history for each (staker, provider) pair, a total for each provider and era, a total for each era, a ledger
with an unbonding queue for each account, and a currency lock. This project models the pallet's storage and calls,
keeps an eager and uncompressed reference model beside them, and proves that in every reachable state all records are
views of the same tables. From that follow the payout bound, the at-most-once payments, the unbonding delay and the
conservation of rewards, and also the exact conditions under which three calls do not do what their design asks for.
Two smaller parts model how the dAPI pallet's provider registry stays in step with staking, and how the validator set
kicks stale candidates.

## How it is built

| part | files |
|---|---|
| optional results, sums over finite maps, balance arithmetic, `Perbill` | `Options.dfy`, `Sums.dfy`, `Arithmetic.dfy` |
| the compressed stake history and the unbonding queue, each as a class with in-place methods, a denotation and refinement lemmas | `StakerInfo.dfy`, `Unbonding.dfy` |
| storage, and every call as a list of checks in the order of the code and an effect | `StakingState.dfy` |
| the reference model (one full stake table and payment record per era) and the invariant | `StakingInvariant.dfy` |
| steps, how the reference model follows them, runs of any length, and when eras begin | `Runs.dfy`, `Reachability.dfy`, `EraClock.dfy` |
| preservation of the invariant, one component and one call at a time | `Views.dfy`, `LockingSteps.dfy`, `WithdrawalSteps.dfy`, `RewardSteps.dfy`, `EraSteps.dfy`, `ProviderSteps.dfy` |
| what the invariant is good for | `Consequences.dfy`, `Payouts.dfy`, `Solvency.dfy`, `Settlement.dfy`, `OverpaidExample.dfy`, `PastEras.dfy`, `Exits.dfy`, `RoundTrip.dfy`, `Wedged.dfy`, `WedgedExample.dfy` |
| the staking pallet as a class over mutable storage, each method proved to be one step of the model | `StakingPallet.dfy` |
| the provider registry, as a state machine over both pallets and as a class | `Lifecycle.dfy`, `DapiPallet.dfy` |
| candidates, kicking and sessions, as a state machine and as a class | `ValidatorSet.dfy` |

A call that fails changes nothing, except where the code writes before it can fail: `register` reserves the deposit and
inserts the provider before the operator's own stake is attempted, and dispatch is not shown to roll back, so the model
keeps those writes.

The invariant and the checks of the calls can all be met: `Reachability.FirstBlock` establishes the invariant, and the
run in `WedgedExample.dfy` takes registering, staking, unstaking, claiming and unregistering steps from there.

## Where the code and its design part

* **Zero entries that hide a stake.** The documentation of `claim` (pallets/dapi-staking/src/lib.rs:239-263) says that
  zero periods are discarded. Only one leading zero is (lines 277-279 and 231-233), so after two full unstakes in two
  eras the claims reach a zero head. `claim_staker` rejects such a history (mod.rs:562) without storing the shortened
  vector, as `Exits.ClaimCondition` says, and once the provider is unregistered `withdraw_from_unregistered_staker`
  reads the zero entry as an unclaimed era (mod.rs:302-306), as `Exits.ExitCondition` says. Call a zero entry before
  the unregistration doomed when it is the first or follows a zero. A stake with a doomed entry stays locked for ever
  (`Wedged.DoomedForever`); without one the pair's own claims lead to the exit, so `Wedged.StakeLeavesExactly`.
  `WedgedExample.WedgedReachable` and `WedgedExample.DoomedReachable` are runs of ordinary calls from genesis to such
  stakes, the latter one for which a claim still succeeds.
* **`register` is not all or nothing.** When the nested stake fails, the deposit stays reserved, staking lists the
  provider and the registry still waits for its deposit. No later call activates, unregisters or refunds it.
  `Lifecycle.DepositOutcome` gives the exact condition, `Lifecycle.OrphanForever` that it lasts, and
  `Lifecycle.OrphanReachable` a run.
* **Payouts can exceed an era's rewards by rounding.** `Perbill` multiplication rounds to the nearest integer, so shares
  may add up to more than the whole. `Payouts.EraPayoutBound` bounds the excess. `Solvency.EraWithinRewards` shows that
  there is none unless some ratio takes the branch that rounds up, and `Settlement.OverpaidByRunExactly` that an era is
  overpaid by some run exactly when its full payout exceeds its rewards. `OverpaidExample.OverpaidReachable` is such a
  run from genesis.
* **A due claim can fail on the pot.** The pot holds what came in, so overpaid eras are paid from later ones. In
  `OverpaidExample.PotRunsDry` a due claim fails because there is nothing left. While everything that came in covers the
  full payouts of all past eras no claim does (`Solvency.ClaimsNeverBounce`), and only then can all of them be claimed
  (`Settlement.SettledExactly`).
* **Stakes count from the current era on.** The comment at pallets/dapi-staking/src/pallet/mod.rs:373 promises an effect
  from the next era; the code adds to the current era's history entry, provider total and era total, and the model
  follows the code.
* **Eras of one block never end.** No block number leaves remainder one when divided by one (mod.rs:249), so with
  `BlockPerEra` equal to one no era follows the first unless forced: `EraClock.OneBlockErasStall`.
* **A session may name an account twice.** `set_invulnerables` does not look at the candidates, so
  `ValidatorSet.SessionMayNameTwice`. The missing check is that the new list repeats nobody and names no current
  candidate: with it no session ever does (`ValidatorSet.GuardSuffices`), without it the next session at which nobody is
  stale does (`ValidatorSet.GuardNeeded`).

## Assumptions

* `Perbill::from_rational(p, q)` is floor(min(p, q) * 10^9 / max(q, 1)), and `Perbill * x` rounds to the nearest
  integer, ties downwards.
* The currency has free and reserved balances, one staking lock per account, and whatever else freezes funds. Funds
  leave a free balance down to the largest lock or freeze. Other transfers, fees and issuance (`CurrencyChange`) may
  change free balances and freezes arbitrarily as long as staking locks stay covered. Only this pallet reserves funds.
* Total issuance and the total of all rewards stay below 2^128. Eras, counters and configuration constants are natural
  numbers; balances are natural numbers with the code's saturating and checked operations written out at 2^128 - 1.
* `MinimumStakingAmount` and `BlockPerEra` are positive, and the operators' percentage is at most one. The constants at
  runtime/local/src/lib.rs:279-289 satisfy this.
* Nobody signs as the pallet's pot account. The caller's account is an argument of each call; what an applicant for the
  validator set has registered elsewhere is one as well.
* Runs start after the first `on_initialize`, which always opens era 1 (pallets/dapi-staking/src/pallet/mod.rs:249-253).
* Storage iteration over providers has no particular order; `rotate_staking_info` is proved not to depend on it.

## Model

| member | source | states |
|---|---|---|
| StakerHistory.StakedRefines | pallets/dapi-staking/src/lib.rs:180-197 | `stake` adds the value to the denoted stake of every era from the current one on and of no earlier one; fails exactly when the last entry is newer than the current era |
| StakerHistory.UnstakedRefines | pallets/dapi-staking/src/lib.rs:217-237 | `unstake` subtracts the value, truncated at zero, from the denoted stake of every era from the current one on and of no earlier one |
| StakerHistory.ClaimedRefines | pallets/dapi-staking/src/lib.rs:264-285 | `claim` reports the stake in force in the oldest listed era and forgets only the eras up to it; never lengthens the vector and strictly advances its head |
| StakerHistory.DropZeroHeadKeeps | pallets/dapi-staking/src/lib.rs:277-279 | dropping a zero head changes the stake of no era |
| StakerHistory.ClaimsEnumerate | pallets/dapi-staking/src/lib.rs:239-285 | any sequence of claims reports, among its positive results, an initial stretch of the positive eras of the denoted map: in order, each once, none skipped |
| StakerHistory.ClaimsComplete | pallets/dapi-staking/src/lib.rs:239-285 | at most one claim per era from the head on reports every positive era before a limit |
| StakerHistory.StakerInfo.Stake | pallets/dapi-staking/src/lib.rs:180-197 | the in-place edit is the specification's `Staked`, or an error that leaves the vector alone |
| StakerHistory.StakerInfo.Unstake | pallets/dapi-staking/src/lib.rs:217-237 | the in-place edit is the specification's `Unstaked`, or an error that leaves the vector alone |
| StakerHistory.StakerInfo.Claim | pallets/dapi-staking/src/lib.rs:264-285 | the in-place edit is the specification's `Claimed` and the result its oldest entry, or a zero entry when there is none |
| Unbonding.AddedDenotes | pallets/dapi-staking/src/lib.rs:350-359 | `add` changes what unlocks by exactly the new amount in exactly its era, the sum by exactly the amount, and the length by at most one |
| Unbonding.AddedSorted | pallets/dapi-staking/src/lib.rs:350-359 | `add` keeps chunks strictly ascending by unlock era |
| Unbonding.UnbondingInfo.BinarySearch | pallets/dapi-staking/src/lib.rs:352 | finds the era's chunk, or the one place where it belongs |
| Unbonding.UnbondingInfo.Add | pallets/dapi-staking/src/lib.rs:350-359 | search and then merge or insert is sorted insertion |
| Unbonding.PartitionSum | pallets/dapi-staking/src/lib.rs:367-375 | the two parts of `partition` add up to the whole |
| Unbonding.PartitionOrder | pallets/dapi-staking/src/lib.rs:361-375 | `partition` cuts a sorted queue into a prefix and a suffix, both in order |
| Unbonding.FutureDenotes | pallets/dapi-staking/src/lib.rs:367-375 | what stays queued is exactly what unlocks after the given era |
| LockingSteps.StakeKeepsInv | pallets/dapi-staking/src/pallet/mod.rs:375-438 | a successful `stake` keeps every record in agreement with the reference tables |
| LockingSteps.UnstakeKeepsInv | pallets/dapi-staking/src/pallet/mod.rs:449-519 | a successful `unstake` does, too |
| WithdrawalSteps.WithdrawKeepsInv | pallets/dapi-staking/src/pallet/mod.rs:526-550 | a successful `withdraw_unstaked` does, too |
| WithdrawalSteps.ExitKeepsInv | pallets/dapi-staking/src/pallet/mod.rs:276-329 | a successful `withdraw_from_unregistered_staker` does, too |
| RewardSteps.ClaimKeepsInv | pallets/dapi-staking/src/pallet/mod.rs:554-600 | a successful `claim_staker` does, too, with the payment entered in the era's record |
| RewardSteps.OperatorClaimKeepsInv | pallets/dapi-staking/src/pallet/mod.rs:604-653 | a successful `claim_operator` does, too, with the payment entered in the era's record |
| RewardSteps.StakerRewardMatches | pallets/dapi-staking/src/pallet/mod.rs:573-580 | the reward computed from stored totals is the share that the full stake table gives the staker |
| RewardSteps.OperatorRewardMatches | pallets/dapi-staking/src/pallet/mod.rs:835-846 | the operator's reward computed from stored totals is the provider's share in the full stake table |
| RewardSteps.RewardsKeepInv | pallets/dapi-staking/src/pallet/mod.rs:849-861 | an inflow is split without loss between accumulator parts and arrives in the pot |
| EraSteps.NewEraKeepsInv | pallets/dapi-staking/src/pallet/mod.rs:243-270 | opening an era keeps every record in agreement: same stakes, nothing paid, rewards snapshotted |
| ProviderSteps.RegisterKeepsInv | pallets/dapi-staking/src/pallet/mod.rs:688-701 | the writes that `register` makes before staking keep every record in agreement |
| ProviderSteps.UnregisterKeepsInv | pallets/dapi-staking/src/pallet/mod.rs:709-722 | unregistering keeps every record in agreement |
| ProviderSteps.OperatorExitKeepsInv | pallets/dapi-staking/src/pallet/mod.rs:333-369 | the operator's withdrawal returns one deposit and keeps every record in agreement |
| Reachability.StepKeepsInv | pallets/dapi-staking/src/pallet/mod.rs:243-723 | any call, failing or not, keeps the invariant |
| Reachability.RunKeepsInv | pallets/dapi-staking/src/pallet/mod.rs:243-723 | so does any run |
| Reachability.FirstBlock | pallets/dapi-staking/src/pallet/mod.rs:243-270 | the first block opens era 1 and establishes the invariant |
| Reachability.ReachableInv | pallets/dapi-staking/src/pallet/mod.rs:243-723 | every state reachable from genesis after its first block satisfies the invariant |
| EraClock.ErasFollowBlocks | pallets/dapi-staking/src/pallet/mod.rs:243-269 | unless forced, and whatever calls come between blocks, an era number that is (n - 1) / `BlockPerEra` + 1 after block n stays so after every later block |
| EraClock.ErasFromGenesis | pallets/dapi-staking/src/pallet/mod.rs:243-269 | from genesis with a first block 1, it is so after every block |
| EraClock.OneBlockErasStall | pallets/dapi-staking/src/pallet/mod.rs:249-251 | with one block per era, eras never advance unless forced |
| Consequences.StorageAgrees | pallets/dapi-staking/src/pallet/mod.rs:375-550 | the era totals, provider totals, ledgers and locks are the sums of the latest stakes of the same stored histories, plus unbonding chunks where funds are locked |
| Consequences.ProviderTotalsWithinEra | pallets/dapi-staking/src/pallet/mod.rs:762-811 | for every era so far, provider totals add up to at most the era's total |
| Consequences.BoundsHold | pallets/dapi-staking/src/pallet/mod.rs:394-414 | staker counts are exact and within the limit, stakes are zero or at least the minimum, histories and queues are within their limits, and no stored entry is newer than the current era |
| Consequences.ImpossibleErrors | pallets/dapi-staking/src/pallet/mod.rs:213-216 | the errors marked for reporting, and arithmetic overflow, come out of no reachable state |
| Consequences.ImpossibleOutcomes | pallets/dapi-staking/src/pallet/mod.rs:681-707 | neither do they come out of whole calls, the nested stake of `register` included |
| Consequences.ClaimTotalPositive | pallets/dapi-staking/src/pallet/mod.rs:573-580 | a claim that passes its checks divides by a total that holds at least the claimed positive stake |
| Consequences.NothingSaturates | pallets/dapi-staking/src/pallet/mod.rs:308-861 | in a successful call no saturating operation on an amount or count that is written is ever clipped; the remainder that `unstake` only compares with the minimum (line 467) is clipped when more than the stake is requested, and then exactly the stake is taken |
| Consequences.StakeLeavesRemaining | pallets/dapi-staking/src/pallet/mod.rs:384-387 | a stake locks as much of the request as leaves the minimum remaining balance unlocked, no more and no less |
| Consequences.StakeCondition | pallets/dapi-staking/src/pallet/mod.rs:382-414 | a stake succeeds if and only if the provider is active, something is available, the provider has room or the pair already stakes, the history has room and the new stake reaches the minimum |
| Consequences.UnstakeLeavesMinimum | pallets/dapi-staking/src/pallet/mod.rs:467-494 | an unstake takes the requested value, or everything when less than the minimum would stay, and moves it to the queue with the locked amount unchanged |
| Arithmetic.SplitBound | pallets/dapi-staking/src/pallet/mod.rs:835-846 | splitting an amount in proportion to weights hands out at most the amount plus half a unit per recipient |
| Payouts.EraPayoutBound | pallets/dapi-staking/src/pallet/mod.rs:554-653 | twice everything ever paid for an era is at most twice its rewards, plus two per staked provider and one per staking pair |
| Arithmetic.SplitWithin | pallets/dapi-staking/src/pallet/mod.rs:835-846 | a split in which no share takes the branch that rounds up hands out at most the whole |
| Solvency.EraWithinRewards | pallets/dapi-staking/src/pallet/mod.rs:554-653 | in every reachable state, an era none of whose ratios rounds up has paid at most its rewards |
| Solvency.OverpaidExactly | pallets/dapi-staking/src/pallet/mod.rs:554-653 | all correct payment records of an era stay within its rewards if and only if its full payout, fixed by its stakes and rewards when it ends, does |
| Settlement.OverpaidByRunExactly | pallets/dapi-staking/src/pallet/mod.rs:554-653 | a payable era can be paid in full by a run of claims while the pot covers what is owed, so some run overpays it if and only if its full payout exceeds its rewards |
| Solvency.PaidInFull | pallets/dapi-staking/src/pallet/mod.rs:554-653 | once every staker and operator of an era has claimed, exactly the full payout was paid |
| Solvency.RunPaysAtMostFull | pallets/dapi-staking/src/pallet/mod.rs:554-653 | no run pays more than the full payout for an era that is over |
| Solvency.ClaimsNeverBounce | pallets/dapi-staking/src/pallet/mod.rs:582-587 | while everything that ever came into the pot covers the full payouts of all past eras and nothing on it is locked or frozen, no claim that passes its other checks fails for want of funds |
| Solvency.ClaimsNeverBounceInRuns | pallets/dapi-staking/src/pallet/mod.rs:634-639 | the same after any run without outside transfers, counting what the pot held before, its inflow and the inflow of the run |
| Solvency.SettledNeedsCover | pallets/dapi-staking/src/pallet/mod.rs:582-639 | in every reachable state in which all past eras are settled, that condition holds |
| Settlement.SettledExactly | pallets/dapi-staking/src/pallet/mod.rs:554-653 | if nothing owed has been lost and nothing on the pot is locked or frozen, some run of claims settles all past eras if and only if that condition holds |
| Solvency.RewardsCover | pallets/dapi-staking/src/pallet/mod.rs:835-861 | the condition holds for a pot without debts when nothing rounds up, and for any pot whose base covers half a unit of rounding per payment |
| OverpaidExample.PotRunsDry | pallets/dapi-staking/src/pallet/mod.rs:634-639 | a run from genesis after which a due operator claim fails because the pot is empty |
| OverpaidExample.OverpaidReachable | pallets/dapi-staking/src/pallet/mod.rs:839-845 | a run from genesis after which an era with rewards of two has paid at least three |
| PastEras.RunKeepsPast | pallets/dapi-staking/src/pallet/mod.rs:762-811 | no run changes the stakes, totals, rewards or payments recorded for the eras before the one it started in |
| PastEras.StakerNeverPaidTwice | pallets/dapi-staking/src/pallet/mod.rs:554-600 | in any run a staker is paid for a provider and era at most once, and never if already paid |
| PastEras.OperatorNeverPaidTwice | pallets/dapi-staking/src/pallet/mod.rs:604-653 | in any run an operator is paid for a provider and era at most once, although rotation resets the flag on the copy |
| Exits.UnbondingDelay | pallets/dapi-staking/src/pallet/mod.rs:489-545 | what an account has withdrawn plus what it could withdraw now is exactly what it unstaked at least one unbonding period ago; a withdrawal succeeds if and only if something is due |
| Exits.WithdrawTakesAllDue | pallets/dapi-staking/src/pallet/mod.rs:526-550 | right after a successful withdrawal nothing that is due is left |
| Exits.RewardsConserved | pallets/dapi-staking/src/pallet/mod.rs:252-257 | in any run the accumulator plus all era snapshots grow by exactly the rewards handed in |
| Exits.OperatorsConserved | pallets/dapi-staking/src/pallet/mod.rs:849-861 | in any run the operators' accumulator and snapshots grow by exactly the operators' percentage of each inflow |
| Exits.PotBalance | pallets/dapi-staking/src/pallet/mod.rs:582-588 | in any run without outside transfers the pot changes by the inflow minus what is paid out |
| Exits.ClaimCondition | pallets/dapi-staking/src/pallet/mod.rs:560-571 | `claim_staker` has something to pay if and only if an era that is over carries an unclaimed stake and the stored head is not a zero entry |
| Exits.ClaimPaysOldest | pallets/dapi-staking/src/pallet/mod.rs:552-600 | a successful claim is for the oldest era with an unclaimed stake and moves exactly the staker's share of it out of the pot |
| Exits.OperatorClaimCondition | pallets/dapi-staking/src/pallet/mod.rs:611-626 | `claim_operator` has something to pay if and only if the era is over and before any unregistration, the provider had stakes in it and the operator is unpaid for it |
| Exits.OperatorClaimPays | pallets/dapi-staking/src/pallet/mod.rs:628-643 | it moves exactly the provider's share of the operators' rewards from the pot to the operator |
| Exits.ExitCondition | pallets/dapi-staking/src/pallet/mod.rs:282-306 | a staker with a stake may leave if and only if the provider is unregistered for longer than the waiting period, all earlier eras are claimed and the stored history does not start with an earlier zero entry |
| Exits.ExitReleasesStake | pallets/dapi-staking/src/pallet/mod.rs:308-320 | leaving unlocks exactly the latest stake, drops the history and touches no unbonding chunk |
| Exits.ExitsOnce | pallets/dapi-staking/src/pallet/mod.rs:276-329 | a pair that has left never passes the check again, in any run |
| Exits.OperatorExitCondition | pallets/dapi-staking/src/pallet/mod.rs:339-360 | the operator gets the deposit back if and only if the waiting period is over and this provider's deposit is still held, and then in full and once |
| Wedged.DoomedForever | pallets/dapi-staking/src/pallet/mod.rs:297-306 | a stake at an unregistered provider whose history has a doomed entry is refused the exit and stays locked in every run |
| Wedged.StakeLeavesExactly | pallets/dapi-staking/src/pallet/mod.rs:276-329 | once the waiting period is over and while the pot can pay, some run leads to a successful exit if and only if the history has no doomed entry, and then claims of that pair alone do |
| Wedged.WedgedForever | pallets/dapi-staking/src/pallet/mod.rs:297-306 | the case that is visible at the head: the pair cannot even claim, and nothing about its history ever changes |
| WedgedExample.AdjacentZeros | pallets/dapi-staking/src/lib.rs:228-233 | the stakes, unstakes and claim that leave a zero head |
| WedgedExample.WedgedReachable | pallets/dapi-staking/src/pallet/mod.rs:554-562 | a run of ordinary calls from genesis to such a stake |
| WedgedExample.DoomedReachable | pallets/dapi-staking/src/pallet/mod.rs:554-571 | a run of ordinary calls from genesis to a doomed stake for which a claim still succeeds |
| RoundTrip.StakeRoundTrip | pallets/dapi-staking/src/pallet/mod.rs:375-550 | after a fresh staker stakes, fully unstakes, waits and withdraws, all ledgers, histories, balances and locks are as before, and so are the era's staked and locked totals and every active provider's total and staker count |
| Pallet.StakingPallet.constructor | pallets/dapi-staking/src/pallet/mod.rs:241-270 | a new pallet over a currency with no reserves or locks is the genesis of the model |
| Pallet.Launch | pallets/dapi-staking/src/pallet/mod.rs:243-270 | a new pallet after its first block satisfies the invariant, so every later call of the class happens in a reachable state of the model |
| Pallet.StakingPallet.UpdateLedger | pallets/dapi-staking/src/pallet/mod.rs:733-741 | stores the ledger and its lock, or removes both when the ledger is empty |
| Pallet.StakingPallet.UpdateStakerInfo | pallets/dapi-staking/src/pallet/mod.rs:745-755 | stores the history, or removes it when empty |
| Pallet.StakingPallet.Stake | pallets/dapi-staking/src/pallet/mod.rs:375-438 | the call on mutable storage is one step of the model, with the model's error |
| Pallet.StakingPallet.Unstake | pallets/dapi-staking/src/pallet/mod.rs:449-519 | the same for `unstake` |
| Pallet.StakingPallet.WithdrawUnstaked | pallets/dapi-staking/src/pallet/mod.rs:526-550 | the same for `withdraw_unstaked` |
| Pallet.StakingPallet.WithdrawFromUnregisteredStaker | pallets/dapi-staking/src/pallet/mod.rs:276-329 | the same for the staker's exit |
| Pallet.StakingPallet.WithdrawFromUnregisteredOperator | pallets/dapi-staking/src/pallet/mod.rs:333-369 | the same for the operator's exit |
| Pallet.StakingPallet.ClaimStaker | pallets/dapi-staking/src/pallet/mod.rs:554-600 | the same for `claim_staker` |
| Pallet.StakingPallet.ClaimOperator | pallets/dapi-staking/src/pallet/mod.rs:604-653 | the same for `claim_operator` |
| Pallet.StakingPallet.Register | pallets/dapi-staking/src/pallet/mod.rs:681-707 | the same for `register`, its failing path included |
| Pallet.StakingPallet.Unregister | pallets/dapi-staking/src/pallet/mod.rs:709-722 | the same for `unregister` |
| Pallet.StakingPallet.Rewards | pallets/dapi-staking/src/pallet/mod.rs:849-861 | the same for the reward inflow |
| Pallet.StakingPallet.ForceNewEra | pallets/dapi-staking/src/pallet/mod.rs:667-671 | the same for `force_new_era` |
| Pallet.StakingPallet.RewardBalanceSnapshot | pallets/dapi-staking/src/pallet/mod.rs:762-779 | the ended era gets the rewards, the next one starts with the same totals and none |
| Pallet.StakingPallet.RotateStakingInfo | pallets/dapi-staking/src/pallet/mod.rs:785-811 | the loop over providers, in any order, copies exactly the entries of registered providers |
| Pallet.StakingPallet.OnInitialize | pallets/dapi-staking/src/pallet/mod.rs:243-270 | the block hook is one step of the model |
| Lifecycle.PalletsAgree | pallets/dapi/src/lib.rs:249-359 | in every run an active provider is registered with staking, an inactive one unregistered no later than now, and operators match |
| Lifecycle.ReachablePalletsAgree | pallets/dapi/src/lib.rs:249-359 | so they do in every run from genesis |
| Lifecycle.StatesMoveForward | pallets/dapi/src/lib.rs:286-359 | in every run provider states never move backwards and identities never change |
| Lifecycle.DepositsConserved | pallets/dapi-staking/src/pallet/mod.rs:333-369 | after every run an operator has exactly one deposit reserved for each of its providers that has not returned it |
| Lifecycle.FirstStakeOutcome | pallets/dapi-staking/src/pallet/mod.rs:699-706 | the nested stake succeeds if and only if the limits allow one staker and one entry and the balance after the deposit covers the minimum stake |
| Lifecycle.DepositOutcome | pallets/dapi/src/lib.rs:286-308 | a first deposit activates the provider under exactly that condition and otherwise orphans it, with the deposit reserved either way |
| Lifecycle.OrphanForever | pallets/dapi/src/lib.rs:286-359 | an orphan stays one in every run |
| Lifecycle.OrphanCallsFail | pallets/dapi/src/lib.rs:286-359 | depositing for, unregistering, reporting and refunding an orphan all fail |
| Lifecycle.OrphanReachable | pallets/dapi/src/lib.rs:286-308 | a run from genesis in which the first deposit reports `StakingWithNoValue` and leaves an orphan |
| Dapi.DapiPallet.RegisterProvider | pallets/dapi/src/lib.rs:249-283 | the call on mutable storage is one step of the network, with the model's error |
| Dapi.DapiPallet.DepositProvider | pallets/dapi/src/lib.rs:286-308 | the same for `deposit_provider`, staking included |
| Dapi.DapiPallet.UnregisterProvider | pallets/dapi/src/lib.rs:311-333 | the same for `unregister_provider` |
| Dapi.DapiPallet.ReportProviderOffence | pallets/dapi/src/lib.rs:336-359 | the same for `report_provider_offence` |
| ValidatorSet.KickRemovesTheFirstStale | pallets/validator-set/src/lib.rs:312-337 | on the stored list the kick leaves exactly the survivors, returns their accounts in order, fails no removal, keeps the list distinct and at least the minimum long, and clears locks and last blocks of the removed alone |
| ValidatorSet.SurvivorsSize | pallets/validator-set/src/lib.rs:312-337 | exactly min(stale, length - minimum) candidates go |
| ValidatorSet.SurvivorPlace | pallets/validator-set/src/lib.rs:312-337 | a spared candidate moves up by exactly the number removed before it |
| ValidatorSet.SurvivorIsSpared | pallets/validator-set/src/lib.rs:312-337 | a candidate survives if and only if it is not stale or the budget was spent on stale ones before it |
| ValidatorSet.PoolRunKeepsInv | pallets/validator-set/src/lib.rs:231-380 | in every run candidates are distinct, have a last block, and the locks are exactly their bonds |
| ValidatorSet.ActiveCandidateStays | pallets/validator-set/src/lib.rs:250-268 | with a positive threshold a candidate active at block t survives every run of sessions before t plus the threshold |
| ValidatorSet.SessionNamesNobodyTwice | pallets/validator-set/src/lib.rs:305-337 | before the session: it will name nobody twice if and only if the invulnerables repeat nobody and each of them that is a candidate is stale and within the budget of removals |
| ValidatorSet.GuardSuffices | pallets/validator-set/src/lib.rs:214-229 | starting, like genesis, with distinct invulnerables that are no candidates: if every `set_invulnerables` of a run repeats nobody and names no current candidate, every session of the run names nobody twice |
| ValidatorSet.GuardNeeded | pallets/validator-set/src/lib.rs:214-229 | after a `set_invulnerables`, a session at which nobody is stale names nobody twice if and only if the call met that condition |
| ValidatorSet.SessionMayNameTwice | pallets/validator-set/src/lib.rs:214-229 | a reachable session that names one account twice |
| ValidatorSet.ValidatorPallet.RegisterAsCandidate | pallets/validator-set/src/lib.rs:231-276 | the call on mutable storage is one step of the model, with the model's error |
| ValidatorSet.ValidatorPallet.TryRemoveCandidate | pallets/validator-set/src/lib.rs:286-300 | removes the first entry of the account with its lock and last block, or reports that there is none |
| ValidatorSet.ValidatorPallet.KickStaleCandidates | pallets/validator-set/src/lib.rs:312-337 | the loop over any snapshot, shrinking the stored list as it goes, is the entry-by-entry kick of the model |
| ValidatorSet.ValidatorPallet.NewSession | pallets/validator-set/src/lib.rs:365-380 | returns the invulnerables and then the accounts of the stored list that remains |

## Left out

- Payouts.EraPayoutBound: carries rounding terms, because nearest rounding can overpay; the bound without them holds exactly under the condition of `Solvency.OverpaidExactly`.
- Solvency.OverpaidExactly: speaks of payment records, and `Settlement.OverpaidByRunExactly` of runs in which nothing owed for the era has been lost; when some of it has, as for an era after an unregistration or before a doomed entry, less is paid.
- ValidatorSet.ActiveCandidateStays: asks for a positive threshold, because with a threshold of zero every candidate is always stale.
- Projects and their quota and usage in pallets/dapi: a clamp and one-branch updates.
- Adding and removing regulators and chain ids in pallets/dapi: free changes of two sets between calls (`Govern`).
- pallets/block-reward: a two-way split with one remainder; `Rewards` takes an arbitrary amount instead.
- The transfer from the pot in `note_author`: external currency behaviour.
- `DesiredCandidates` and `CandidacyBond` are constant in a run of the validator set: no call changes them.
- The validator set has its own currency lock and takes the free balance as an argument; how it overlaps with the staking lock is not modelled.
- The 32-bit width of eras, counters and list lengths, and the 64-bit weights of `rotate_staking_info`.
- Existential deposits, account reaping and the internals of `pallet_balances` and `sp_arithmetic`: only the assumptions above.
- Era 0: no call happens before the first block's hook.
- Events, weights, SCALE encoding, storage hashers, origins and signatures.
- The node, the RPC, the runtime assembly and consensus.
