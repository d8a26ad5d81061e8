/** When eras begin: the block clock that drives rotation. */
module EraClock {
  import opened Sums
  import opened Arithmetic
  import opened StakerHistory
  import opened StakingState
  import opened StakingInvariant
  import opened Runs
  import opened Reachability

  /** Blocks are numbered from `next` on without gaps, and nobody forces an era. */
  predicate Ticks(evs: seq<Event>, next: nat)
    decreases |evs|
  {
    evs != [] ==>
      && !evs[0].ForceNewEra?
      && (evs[0].OnInitialize? ==> evs[0].now == next)
      && Ticks(evs[1..], if evs[0].OnInitialize? then next + 1 else next)
  }

  function BlocksIn(evs: seq<Event>): nat {
    if evs == [] then 0 else (if evs[0].OnInitialize? then 1 else 0) + BlocksIn(evs[1..])
  }

  /** The era in which block `n` lies: eras are `blocksPerEra` blocks long, the first one starting at block 1. */
  function EraOfBlock(c: Config, n: nat): nat
    requires c.blocksPerEra > 1 && n > 0
  {
    (n - 1) / c.blocksPerEra + 1
  }

  lemma NextBlock(c: Config, n: nat)
    requires c.blocksPerEra > 1 && n > 0
    ensures EraOfBlock(c, n + 1) == EraOfBlock(c, n) + if (n + 1) % c.blocksPerEra == 1 then 1 else 0
  {
    var d := c.blocksPerEra;
    var q, r := (n - 1) / d, (n - 1) % d;
    assert n - 1 == q * d + r;
    if r == d - 1 {
      assert n == (q + 1) * d + 0;
      DivMod(n, d, q + 1, 0);
      DivMod(n + 1, d, q + 1, 1);
    } else {
      DivMod(n, d, q, r + 1);
      if r == d - 2 {
        assert n + 1 == (q + 1) * d + 0;
        DivMod(n + 1, d, q + 1, 0);
      } else {
        DivMod(n + 1, d, q, r + 2);
      }
    }
  }

  lemma DivMod(n: nat, d: nat, q: nat, r: nat)
    requires d > 0 && r < d && n == q * d + r
    ensures n / d == q && n % d == r
  {
    var q', r' := n / d, n % d;
    assert n == q' * d + r';
    if q' < q {
      Scale(q' + 1, q, d);
    } else if q < q' {
      Scale(q + 1, q', d);
    }
  }

  lemma ClockAtomic(c: Config, w: World, ev: Event)
    requires c.Valid() && w.g.eras != [] && !ev.ForceNewEra? && !w.s.forceNewEra
    ensures var s' := Atomic(c, w, ev).s;
            && !s'.forceNewEra
            && s'.currentEra == w.s.currentEra + if ev.OnInitialize? && StartsEra(c, w.s, ev.now) then 1 else 0
  {
    hide StakeError, UnstakeError, WithdrawError, ExitStakerError, ExitOperatorError, ClaimStakerError,
         ClaimOperatorError, RegisterError, UnregisterError, Track, StakeAmount, UnstakeAmount, WithdrawAmount,
         StakerReward, OperatorReward, HistoryOf, StartsEra, Staked, WithHistory, Unstaked, Claimed, EraGrown,
         EraShrunk, WithLedger, WithLock, RotatedStakes, Latest, EntryAt, Deposited, Withdrawn, Unreserved,
         Reserved, ClaimedEntry, CanWithdraw, Times, RewardSnapshot;
  }

  lemma ClockStep(c: Config, w: World, ev: Event)
    requires c.Valid() && w.g.eras != [] && !ev.ForceNewEra? && !w.s.forceNewEra
    ensures var s' := Step(c, w, ev).s;
            && !s'.forceNewEra
            && s'.currentEra == w.s.currentEra + if ev.OnInitialize? && StartsEra(c, w.s, ev.now) then 1 else 0
  {
    hide Atomic, CallError, StartsEra;
    ClockAtomic(c, w, ev);
    if Then(ev, c).Some? {
      ClockAtomic(c, Atomic(c, w, ev), Then(ev, c).value);
    }
  }

  /** Whatever calls come in between, after block `n` the current era is the one in which the block lies. */
  lemma {:induction false} ErasFollowBlocks(c: Config, w: World, evs: seq<Event>, n: nat)
    requires c.Valid() && w.g.eras != [] && !w.s.forceNewEra
    requires c.blocksPerEra > 1 && n > 0 && w.s.currentEra == EraOfBlock(c, n) && Ticks(evs, n + 1)
    ensures Execute(c, w, evs).s.currentEra == EraOfBlock(c, n + BlocksIn(evs))
    decreases |evs|
  {
    hide Step, EraOfBlock;
    if evs != [] {
      ClockStep(c, w, evs[0]);
      var next := if evs[0].OnInitialize? then n + 1 else n;
      NextBlock(c, n);
      EraPositive(c, n);
      ErasFollowBlocks(c, Step(c, w, evs[0]), evs[1..], next);
    }
  }

  /** On a chain whose first block is block 1: after block `n` of any run the era is (n - 1) / blocksPerEra + 1. */
  lemma ErasFromGenesis(c: Config, free: map<AccountId, nat>, frozen: map<AccountId, nat>, evs: seq<Event>)
    requires c.Valid() && c.blocksPerEra > 1 && Sum(free) <= MAX_BALANCE && Ticks(evs, 2)
    ensures var start := Step(c, Genesis(c, free, frozen), OnInitialize(1));
            Execute(c, start, evs).s.currentEra == EraOfBlock(c, 1 + BlocksIn(evs))
  {
    hide Inv, Step, Execute, Ticks;
    FirstBlock(c, free, frozen, 1);
    FirstUnforced(c, free, frozen);
    DivMod(0, c.blocksPerEra, 0, 0);
    ErasFollowBlocks(c, Step(c, Genesis(c, free, frozen), OnInitialize(1)), evs, 1);
  }

  lemma FirstUnforced(c: Config, free: map<AccountId, nat>, frozen: map<AccountId, nat>)
    requires c.Valid()
    ensures !Step(c, Genesis(c, free, frozen), OnInitialize(1)).s.forceNewEra
  {
    hide Track, RotatedStakes, RewardSnapshot;
  }

  lemma EraPositive(c: Config, n: nat)
    requires c.blocksPerEra > 1 && n > 0
    ensures EraOfBlock(c, n) > 0
  {
  }

  /** With one block per era no block number leaves remainder one, so unless forced no era ever follows the first. */
  lemma {:induction false} OneBlockErasStall(c: Config, w: World, evs: seq<Event>, n: nat)
    requires c.Valid() && w.g.eras != [] && !w.s.forceNewEra
    requires c.blocksPerEra == 1 && w.s.currentEra >= 1 && Ticks(evs, n)
    ensures Execute(c, w, evs).s.currentEra == w.s.currentEra
    decreases |evs|
  {
    hide Step;
    if evs != [] {
      ClockStep(c, w, evs[0]);
      OneBlockErasStall(c, Step(c, w, evs[0]), evs[1..], if evs[0].OnInitialize? then n + 1 else n);
    }
  }
}
