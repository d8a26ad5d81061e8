/**
  The validator set: candidates bond and are listed, and each session kicks those that have stopped producing blocks.
  The kick works on a snapshot of the list while it shrinks the stored list, whose length decides when to stop.
  */
module ValidatorSet {
  import opened Options
  import opened Sums
  import opened Arithmetic

  type AccountId = nat
  datatype CandidateInfo = CandidateInfo(who: AccountId, deposit: nat)
  type Candidates = seq<CandidateInfo>

  datatype Limits = Limits(minCandidates: nat, kickThreshold: nat)

  datatype Problem =
    | TooManyCandidates
    | AlreadyInvulnerable
    | NoAssociatedValidatorId
    | ValidatorNotRegistered
    | TooLowFreeBalance
    | AlreadyCandidate
    | NotCandidate

  /** The pallet's storage, with the bonds that it locks in the currency. */
  datatype Pool = Pool(
    invulnerables: seq<AccountId>,
    candidates: Candidates,
    lastAuthored: map<AccountId, nat>,
    locks: map<AccountId, nat>,
    desired: nat,
    bond: nat)

  /** What other pallets know about an account that wants to become a candidate. */
  datatype Applicant = Applicant(who: AccountId, hasValidatorId: bool, hasSessionKeys: bool, free: nat)

  function Accounts(list: Candidates): seq<AccountId> {
    seq(|list|, i requires 0 <= i < |list| => list[i].who)
  }

  ghost predicate Distinct(list: Candidates) {
    forall i, j :: 0 <= i < j < |list| ==> list[i].who != list[j].who
  }

  /** The first place of `who`, or the length of the list. */
  function Position(list: Candidates, who: AccountId): (i: nat)
    ensures i <= |list|
    ensures i < |list| ==> list[i].who == who
    ensures forall j :: 0 <= j < i ==> list[j].who != who
  {
    if list == [] || list[0].who == who then 0 else 1 + Position(list[1..], who)
  }

  // ---------------------------------------------------------------- calls on the pool

  function RegisterProblem(pool: Pool, a: Applicant): Option<Problem> {
    if |pool.candidates| >= pool.desired then Some(TooManyCandidates)
    else if a.who in pool.invulnerables then Some(AlreadyInvulnerable)
    else if !a.hasValidatorId then Some(NoAssociatedValidatorId)
    else if !a.hasSessionKeys then Some(ValidatorNotRegistered)
    else if a.free <= pool.bond then Some(TooLowFreeBalance)
    else if Position(pool.candidates, a.who) < |pool.candidates| then Some(AlreadyCandidate)
    else None
  }

  /** A new candidate counts as having authored a block one kick threshold from now. */
  function Enlisted(limits: Limits, pool: Pool, who: AccountId, now: nat): Pool {
    pool.(candidates := pool.candidates + [CandidateInfo(who, pool.bond)],
          locks := pool.locks[who := pool.bond],
          lastAuthored := pool.lastAuthored[who := now + limits.kickThreshold])
  }

  function RemoveProblem(pool: Pool, who: AccountId): Option<Problem> {
    if Position(pool.candidates, who) < |pool.candidates| then None else Some(NotCandidate)
  }

  function Removed(pool: Pool, who: AccountId): Pool {
    var i := Position(pool.candidates, who);
    if i == |pool.candidates| then pool
    else
      pool.(candidates := pool.candidates[..i] + pool.candidates[i + 1..],
            locks := pool.locks - {who},
            lastAuthored := pool.lastAuthored - {who})
  }

  predicate IsStale(limits: Limits, lastAuthored: map<AccountId, nat>, now: nat, who: AccountId) {
    SatSub(now, Get(lastAuthored, who)) >= limits.kickThreshold
  }

  /** The decision taken for one entry of the snapshot, on the storage as it then is. */
  predicate Kicks(limits: Limits, now: nat, pool: Pool, who: AccountId) {
    IsStale(limits, pool.lastAuthored, now, who) && |pool.candidates| > limits.minCandidates
  }

  datatype Kicked = Kicked(pool: Pool, kept: seq<AccountId>, failures: nat)

  function KickOne(limits: Limits, now: nat, k: Kicked, who: AccountId): Kicked {
    if !Kicks(limits, now, k.pool, who) then k.(kept := k.kept + [who])
    else Kicked(Removed(k.pool, who), k.kept, k.failures + if RemoveProblem(k.pool, who).Some? then 1 else 0)
  }

  /** The kick, entry by entry; `failures` counts the removals that found nothing to remove. */
  function Kick(limits: Limits, now: nat, pool: Pool, snapshot: Candidates): Kicked {
    if snapshot == [] then Kicked(pool, [], 0)
    else KickOne(limits, now, Kick(limits, now, pool, snapshot[..|snapshot| - 1]), snapshot[|snapshot| - 1].who)
  }

  lemma KickPrefix(limits: Limits, now: nat, pool: Pool, snapshot: Candidates, n: nat)
    requires 0 < n <= |snapshot|
    ensures Kick(limits, now, pool, snapshot[..n])
         == KickOne(limits, now, Kick(limits, now, pool, snapshot[..n - 1]), snapshot[n - 1].who)
  {
    hide KickOne;
    assert snapshot[..n][..n - 1] == snapshot[..n - 1];
  }

  // ---------------------------------------------------------------- who survives a session

  function StaleSet(limits: Limits, now: nat, pool: Pool): set<AccountId> {
    set c | c in pool.candidates && IsStale(limits, pool.lastAuthored, now, c.who) :: c.who
  }

  /** How many of the first `n` entries are stale. */
  function StaleBefore(list: Candidates, stale: set<AccountId>, n: nat): (count: nat)
    requires n <= |list|
    ensures count <= n
  {
    if n == 0 then 0 else StaleBefore(list, stale, n - 1) + if list[n - 1].who in stale then 1 else 0
  }

  /** An entry stays when it is not stale, or when the budget was spent on stale entries before it. */
  predicate Spared(list: Candidates, stale: set<AccountId>, budget: nat, i: nat)
    requires i < |list|
  {
    list[i].who !in stale || StaleBefore(list, stale, i) >= budget
  }

  function Survivors(list: Candidates, stale: set<AccountId>, budget: nat, n: nat): Candidates
    requires n <= |list|
  {
    if n == 0 then []
    else Survivors(list, stale, budget, n - 1) + if Spared(list, stale, budget, n - 1) then [list[n - 1]] else []
  }

  /** The survivors of a session on the stored list. */
  function Remaining(limits: Limits, now: nat, pool: Pool): Candidates {
    Survivors(pool.candidates, StaleSet(limits, now, pool), SatSub(|pool.candidates|, limits.minCandidates),
              |pool.candidates|)
  }

  /** The first min(stale, budget) stale entries are missing from the survivors, and only they. */
  lemma {:induction false} SurvivorsSize(list: Candidates, stale: set<AccountId>, budget: nat, n: nat)
    requires n <= |list|
    ensures |Survivors(list, stale, budget, n)| == n - Min(StaleBefore(list, stale, n), budget)
    decreases n
  {
    if n > 0 {
      SurvivorsSize(list, stale, budget, n - 1);
    }
  }

  /** Spared entries keep their order: entry `i` moves up by exactly the entries removed before it. */
  lemma {:induction false} SurvivorPlace(list: Candidates, stale: set<AccountId>, budget: nat, n: nat, i: nat)
    requires i < n <= |list| && Spared(list, stale, budget, i)
    ensures var place := i - Min(StaleBefore(list, stale, i), budget);
            && 0 <= place < |Survivors(list, stale, budget, n)|
            && Survivors(list, stale, budget, n)[place] == list[i]
    decreases n
  {
    SurvivorsSize(list, stale, budget, n - 1);
    if i < n - 1 {
      SurvivorPlace(list, stale, budget, n - 1, i);
    }
  }

  /** Nobody else is there. */
  lemma {:induction false} SurvivorIsSpared(list: Candidates, stale: set<AccountId>, budget: nat, n: nat,
                                            c: CandidateInfo)
    requires n <= |list|
    ensures c in Survivors(list, stale, budget, n)
       <==> exists i :: 0 <= i < n && list[i] == c && Spared(list, stale, budget, i)
    decreases n
  {
    if n > 0 {
      SurvivorIsSpared(list, stale, budget, n - 1, c);
    }
  }

  lemma {:induction false} SurvivorsDistinct(list: Candidates, stale: set<AccountId>, budget: nat, n: nat)
    requires n <= |list| && Distinct(list)
    ensures Distinct(Survivors(list, stale, budget, n))
    decreases n
  {
    if n > 0 {
      SurvivorsDistinct(list, stale, budget, n - 1);
      forall c | c in Survivors(list, stale, budget, n - 1) ensures c.who != list[n - 1].who {
        SurvivorIsSpared(list, stale, budget, n - 1, c);
      }
    }
  }

  /** The accounts removed from among the first `n` entries. */
  function Gone(list: Candidates, stale: set<AccountId>, budget: nat, n: nat): set<AccountId>
    requires n <= |list|
  {
    set i | 0 <= i < n && !Spared(list, stale, budget, i) :: list[i].who
  }

  lemma GoneStep(list: Candidates, stale: set<AccountId>, budget: nat, n: nat)
    requires Distinct(list) && n < |list|
    ensures list[n].who !in Gone(list, stale, budget, n)
    ensures Gone(list, stale, budget, n + 1)
         == Gone(list, stale, budget, n) + if Spared(list, stale, budget, n) then {} else {list[n].who}
  {
    hide Spared;
  }

  /**
    What the loop has done after `n` entries of the stored list: the stored list is the survivors so far and then the
    entries still to come, and only the removed accounts have lost their lock and their last block.
    */
  ghost predicate Progress(pool: Pool, stale: set<AccountId>, budget: nat, n: nat, k: Kicked)
    requires n <= |pool.candidates|
  {
    var survivors, gone := Survivors(pool.candidates, stale, budget, n), Gone(pool.candidates, stale, budget, n);
    k == Kicked(pool.(candidates := survivors + pool.candidates[n..],
                      locks := pool.locks - gone,
                      lastAuthored := pool.lastAuthored - gone),
                Accounts(survivors), 0)
  }

  lemma PositionInMiddle(front: Candidates, back: Candidates, who: AccountId)
    requires back != [] && back[0].who == who && forall c :: c in front ==> c.who != who
    ensures Position(front + back, who) == |front|
  {
    forall j | 0 <= j < |front| ensures (front + back)[j].who != who {
      assert front[j] in front;
    }
    assert (front + back)[|front|].who == who;
  }

  /** Taking the first of the entries still to come out of the stored list. */
  lemma RemovedInMiddle(pool: Pool, front: Candidates, back: Candidates, who: AccountId)
    requires back != [] && back[0].who == who && forall c :: c in front ==> c.who != who
    requires pool.candidates == front + back
    ensures RemoveProblem(pool, who).None?
    ensures Removed(pool, who) == pool.(candidates := front + back[1..], locks := pool.locks - {who},
                                        lastAuthored := pool.lastAuthored - {who})
  {
    PositionInMiddle(front, back, who);
    assert pool.candidates[..|front|] == front && pool.candidates[|front| + 1..] == back[1..];
  }

  lemma KicksExactly(limits: Limits, now: nat, pool: Pool, n: nat, k: Kicked)
    requires Distinct(pool.candidates) && n < |pool.candidates|
    requires Progress(pool, StaleSet(limits, now, pool), SatSub(|pool.candidates|, limits.minCandidates), n, k)
    ensures Kicks(limits, now, k.pool, pool.candidates[n].who)
        <==> !Spared(pool.candidates, StaleSet(limits, now, pool), SatSub(|pool.candidates|, limits.minCandidates), n)
  {
    var list, stale := pool.candidates, StaleSet(limits, now, pool);
    var budget := SatSub(|list|, limits.minCandidates);
    StaleExactly(limits, now, pool, n);
    GoneStep(list, stale, budget, n);
    SurvivorsSize(list, stale, budget, n);
    hide Gone, StaleSet, Survivors;
    assert Get(k.pool.lastAuthored, list[n].who) == Get(pool.lastAuthored, list[n].who);
  }

  lemma ProgressStep(pool: Pool, stale: set<AccountId>, budget: nat, n: nat, k: Kicked)
    requires Distinct(pool.candidates) && n < |pool.candidates| && Progress(pool, stale, budget, n, k)
    ensures var who := pool.candidates[n].who;
            && RemoveProblem(k.pool, who).None?
            && Progress(pool, stale, budget, n + 1,
                        if Spared(pool.candidates, stale, budget, n) then k.(kept := k.kept + [who])
                        else Kicked(Removed(k.pool, who), k.kept, k.failures))
  {
    var list, who := pool.candidates, pool.candidates[n].who;
    var survivors, gone := Survivors(list, stale, budget, n), Gone(list, stale, budget, n);
    GoneStep(list, stale, budget, n);
    forall c | c in survivors ensures c.who != who {
      SurvivorIsSpared(list, stale, budget, n, c);
    }
    RemovedInMiddle(k.pool, survivors, list[n..], who);
    hide Gone, Spared, Removed, RemoveProblem, Distinct;
    if Spared(list, stale, budget, n) {
      assert survivors + list[n..] == (survivors + [list[n]]) + list[n + 1..];
      assert Accounts(survivors + [list[n]]) == Accounts(survivors) + [who];
      assert gone + {} == gone;
    } else {
      assert list[n..][1..] == list[n + 1..] && survivors + [] == survivors;
      assert pool.locks - gone - {who} == pool.locks - (gone + {who});
      assert pool.lastAuthored - gone - {who} == pool.lastAuthored - (gone + {who});
    }
  }

  lemma StaleExactly(limits: Limits, now: nat, pool: Pool, n: nat)
    requires n < |pool.candidates|
    ensures pool.candidates[n].who in StaleSet(limits, now, pool)
       <==> IsStale(limits, pool.lastAuthored, now, pool.candidates[n].who)
  {
    assert pool.candidates[n] in pool.candidates;
  }

  lemma {:induction false} KickProgress(limits: Limits, now: nat, pool: Pool, n: nat)
    requires Distinct(pool.candidates) && n <= |pool.candidates|
    ensures Progress(pool, StaleSet(limits, now, pool), SatSub(|pool.candidates|, limits.minCandidates), n,
                     Kick(limits, now, pool, pool.candidates[..n]))
    decreases n
  {
    if n > 0 {
      KickProgress(limits, now, pool, n - 1);
      KickPrefix(limits, now, pool, pool.candidates, n);
      hide Progress, Spared, Removed, RemoveProblem, StaleSet, Distinct, Kick, Kicks;
      var k := Kick(limits, now, pool, pool.candidates[..n - 1]);
      KicksExactly(limits, now, pool, n - 1, k);
      ProgressStep(pool, StaleSet(limits, now, pool), SatSub(|pool.candidates|, limits.minCandidates), n - 1, k);
    }
  }

  /**
    A session on the stored list removes exactly the first min(stale, max(0, length - minimum)) stale candidates; it
    returns the accounts of the stored list that remains, in order, and no removal fails.
    */
  lemma KickRemovesTheFirstStale(limits: Limits, now: nat, pool: Pool)
    requires Distinct(pool.candidates)
    ensures var k, rest := Kick(limits, now, pool, pool.candidates), Remaining(limits, now, pool);
            && k.pool.candidates == rest
            && k.kept == Accounts(rest)
            && k.failures == 0
            && Distinct(rest)
            && |rest| >= Min(|pool.candidates|, limits.minCandidates)
            && k.pool == pool.(candidates := rest, locks := pool.locks - LeftBy(pool.candidates, rest),
                               lastAuthored := pool.lastAuthored - LeftBy(pool.candidates, rest))
  {
    var list, stale := pool.candidates, StaleSet(limits, now, pool);
    var budget := SatSub(|list|, limits.minCandidates);
    KickProgress(limits, now, pool, |list|);
    assert list[..|list|] == list;
    SurvivorsDistinct(list, stale, budget, |list|);
    SurvivorsSize(list, stale, budget, |list|);
    var rest := Remaining(limits, now, pool);
    LeftAreNotSpared(list, stale, budget);
    assert rest + list[|list|..] == rest;
  }

  /** The accounts on the first list and not on the second. */
  function LeftBy(list: Candidates, rest: Candidates): set<AccountId> {
    set c | c in list && c !in rest :: c.who
  }

  lemma LeftAreNotSpared(list: Candidates, stale: set<AccountId>, budget: nat)
    requires Distinct(list)
    ensures LeftBy(list, Survivors(list, stale, budget, |list|)) == Gone(list, stale, budget, |list|)
  {
    var rest := Survivors(list, stale, budget, |list|);
    forall i | 0 <= i < |list| ensures list[i] in rest <==> Spared(list, stale, budget, i) {
      SurvivorIsSpared(list, stale, budget, |list|, list[i]);
    }
  }

  // ---------------------------------------------------------------- runs

  datatype PoolEvent =
    | RegisterAsCandidate(applicant: Applicant, now: nat)
    | NoteAuthor(author: AccountId, now: nat)
    | NewSession(now: nat)
    | SetInvulnerables(invulnerables: seq<AccountId>)

  function PoolStep(limits: Limits, pool: Pool, ev: PoolEvent): Pool {
    match ev
    case RegisterAsCandidate(a, now) =>
      if RegisterProblem(pool, a).Some? then pool else Enlisted(limits, pool, a.who, now)
    case NoteAuthor(author, now) => pool.(lastAuthored := pool.lastAuthored[author := now])
    case NewSession(now) => Kick(limits, now, pool, pool.candidates).pool
    case SetInvulnerables(invulnerables) => pool.(invulnerables := invulnerables)
  }

  function PoolRun(limits: Limits, pool: Pool, events: seq<PoolEvent>): Pool
    decreases |events|
  {
    if events == [] then pool else PoolRun(limits, PoolStep(limits, pool, events[0]), events[1..])
  }

  /** Candidates are distinct, each with a last block, and the locks are exactly their bonds. */
  ghost predicate PoolInv(pool: Pool) {
    && Distinct(pool.candidates)
    && (forall c :: c in pool.candidates ==>
                      c.who in pool.lastAuthored && c.who in pool.locks && pool.locks[c.who] == c.deposit)
    && forall who :: who in pool.locks ==> exists c :: c in pool.candidates && c.who == who
  }

  lemma SessionKeepsInv(limits: Limits, pool: Pool, now: nat)
    requires PoolInv(pool)
    ensures PoolInv(Kick(limits, now, pool, pool.candidates).pool)
  {
    KickRemovesTheFirstStale(limits, now, pool);
    var rest := Remaining(limits, now, pool);
    forall c | c in rest ensures c in pool.candidates && c.who !in LeftBy(pool.candidates, rest) {
      SurvivorIsSpared(pool.candidates, StaleSet(limits, now, pool), SatSub(|pool.candidates|, limits.minCandidates),
                       |pool.candidates|, c);
    }
  }

  lemma EnlistKeepsInv(limits: Limits, pool: Pool, a: Applicant, now: nat)
    requires PoolInv(pool) && RegisterProblem(pool, a).None?
    ensures PoolInv(Enlisted(limits, pool, a.who, now))
  {
    var pool' := Enlisted(limits, pool, a.who, now);
    forall who | who in pool'.locks ensures exists c :: c in pool'.candidates && c.who == who {
      if who == a.who {
        assert CandidateInfo(who, pool.bond) in pool'.candidates;
      } else {
        var c :| c in pool.candidates && c.who == who;
        assert c in pool'.candidates;
      }
    }
  }

  lemma {:induction false} PoolRunKeepsInv(limits: Limits, pool: Pool, events: seq<PoolEvent>)
    requires PoolInv(pool)
    ensures PoolInv(PoolRun(limits, pool, events))
    decreases |events|
  {
    if events != [] {
      match events[0] {
        case RegisterAsCandidate(a, now) =>
          if RegisterProblem(pool, a).None? {
            EnlistKeepsInv(limits, pool, a, now);
          }
        case NewSession(now) => SessionKeepsInv(limits, pool, now);
        case _ =>
      }
      PoolRunKeepsInv(limits, PoolStep(limits, pool, events[0]), events[1..]);
    }
  }

  /** Sessions happen before block `t + kickThreshold`, and `who` authors no block older than `t`. */
  predicate Within(limits: Limits, who: AccountId, t: nat, events: seq<PoolEvent>) {
    forall ev :: ev in events ==>
                   match ev
                   case NewSession(now) => now < t + limits.kickThreshold
                   case NoteAuthor(author, now) => author == who ==> now >= t
                   case _ => true
  }

  ghost predicate ActiveSince(pool: Pool, who: AccountId, t: nat) {
    && (exists c :: c in pool.candidates && c.who == who)
    && who in pool.lastAuthored && pool.lastAuthored[who] >= t
  }

  /**
    A candidate active at block `t` is not kicked in any run of sessions before `t + kickThreshold`; for a new
    candidate that has not authored yet, `t` is a whole threshold after its registration.
    */
  lemma {:induction false} ActiveCandidateStays(limits: Limits, pool: Pool, events: seq<PoolEvent>, who: AccountId,
                                                t: nat)
    requires limits.kickThreshold > 0 && PoolInv(pool) && ActiveSince(pool, who, t) && Within(limits, who, t, events)
    ensures ActiveSince(PoolRun(limits, pool, events), who, t)
    decreases |events|
  {
    if events != [] {
      var ev := events[0];
      assert ev in events && forall x :: x in events[1..] ==> x in events;
      PoolRunKeepsInv(limits, pool, [ev]);
      assert PoolRun(limits, pool, [ev]) == PoolStep(limits, pool, ev);
      ActiveStep(limits, pool, ev, who, t);
      hide ActiveSince, PoolInv, PoolStep;
      ActiveCandidateStays(limits, PoolStep(limits, pool, ev), events[1..], who, t);
    }
  }

  lemma ActiveStep(limits: Limits, pool: Pool, ev: PoolEvent, who: AccountId, t: nat)
    requires limits.kickThreshold > 0 && PoolInv(pool) && ActiveSince(pool, who, t) && Within(limits, who, t, [ev])
    ensures ActiveSince(PoolStep(limits, pool, ev), who, t)
  {
    assert ev in [ev];
    var c :| c in pool.candidates && c.who == who;
    if ev.NewSession? {
      ActiveSession(limits, pool, ev.now, who, t, c);
    } else {
      hide Kick, Distinct;
      assert c in PoolStep(limits, pool, ev).candidates;
    }
  }

  lemma ActiveSession(limits: Limits, pool: Pool, now: nat, who: AccountId, t: nat, c: CandidateInfo)
    requires Distinct(pool.candidates) && c in pool.candidates && c.who == who
    requires limits.kickThreshold > 0 && now < t + limits.kickThreshold
    requires who in pool.lastAuthored && pool.lastAuthored[who] >= t
    ensures ActiveSince(Kick(limits, now, pool, pool.candidates).pool, who, t)
  {
    KickRemovesTheFirstStale(limits, now, pool);
    hide Kick;
    var list, stale := pool.candidates, StaleSet(limits, now, pool);
    var budget := SatSub(|list|, limits.minCandidates);
    var i :| 0 <= i < |list| && list[i] == c;
    StaleExactly(limits, now, pool, i);
    assert Spared(list, stale, budget, i);
    SurvivorIsSpared(list, stale, budget, |list|, c);
    StayerIsNotLeft(list, Remaining(limits, now, pool), c);
    hide StaleSet, Survivors, Spared, IsStale, Distinct, Remaining, LeftBy;
  }

  lemma StayerIsNotLeft(list: Candidates, rest: Candidates, c: CandidateInfo)
    requires Distinct(list) && c in list && c in rest
    ensures c.who !in LeftBy(list, rest)
  {
  }

  // ---------------------------------------------------------------- the next validators

  ghost predicate NoRepeats(s: seq<AccountId>) {
    forall i, j :: 0 <= i < j < |s| ==> s[i] != s[j]
  }

  lemma NoRepeatsConcat(front: seq<AccountId>, back: seq<AccountId>)
    ensures NoRepeats(front + back) <==> NoRepeats(front) && NoRepeats(back) && forall x :: x in back ==> x !in front
  {
    var all := front + back;
    assert forall i :: 0 <= i < |front| ==> all[i] == front[i];
    assert forall j :: 0 <= j < |back| ==> all[|front| + j] == back[j];
    if NoRepeats(all) {
      forall i, j | 0 <= i < j < |back| ensures back[i] != back[j] {
        assert all[|front| + i] != all[|front| + j];
      }
      forall x | x in back ensures x !in front {
        var j :| 0 <= j < |back| && back[j] == x;
        assert all[|front| + j] == x;
      }
    }
    if NoRepeats(front) && NoRepeats(back) && forall x :: x in back ==> x !in front {
      forall i, j | 0 <= i < j < |all| ensures all[i] != all[j] {
        if |front| <= i {
          assert back[i - |front|] != back[j - |front|];
        } else if |front| <= j {
          assert back[j - |front|] in back && front[i] in front;
        }
      }
    }
  }

  /** The validators that a session at block `now` names: the invulnerables, then the surviving candidates. */
  function NextValidators(limits: Limits, now: nat, pool: Pool): seq<AccountId> {
    pool.invulnerables + Accounts(Remaining(limits, now, pool))
  }

  lemma AccountsOf(list: Candidates, who: AccountId)
    ensures who in Accounts(list) <==> exists c :: c in list && c.who == who
  {
    if who in Accounts(list) {
      var j :| 0 <= j < |list| && Accounts(list)[j] == who;
      assert list[j] in list;
    }
    if c :| c in list && c.who == who {
      var j :| 0 <= j < |list| && list[j] == c;
      assert Accounts(list)[j] == who;
    }
  }

  lemma NextDistinct(limits: Limits, now: nat, pool: Pool)
    requires Distinct(pool.candidates)
    ensures NoRepeats(NextValidators(limits, now, pool))
       <==> NoRepeats(pool.invulnerables)
            && forall c :: c in Remaining(limits, now, pool) ==> c.who !in pool.invulnerables
  {
    KickRemovesTheFirstStale(limits, now, pool);
    var rest := Remaining(limits, now, pool);
    NoRepeatsConcat(pool.invulnerables, Accounts(rest));
    hide Remaining, Kick;
    assert NoRepeats(Accounts(rest));
    hide NoRepeats, Distinct, Accounts;
    forall who ensures who in Accounts(rest) <==> exists c :: c in rest && c.who == who {
      AccountsOf(rest, who);
    }
  }

  /**
    Before the session: it will name nobody twice exactly when the invulnerables repeat nobody and every invulnerable
    that is a candidate is stale and among those that the session still has to remove.
    */
  lemma SessionNamesNobodyTwice(limits: Limits, now: nat, pool: Pool)
    requires Distinct(pool.candidates)
    ensures var list, stale := pool.candidates, StaleSet(limits, now, pool);
            var budget := SatSub(|list|, limits.minCandidates);
            NoRepeats(NextValidators(limits, now, pool))
            <==> && NoRepeats(pool.invulnerables)
                 && forall i :: 0 <= i < |list| && list[i].who in pool.invulnerables ==>
                                  list[i].who in stale && StaleBefore(list, stale, i) < budget
  {
    NextDistinct(limits, now, pool);
    var list, stale := pool.candidates, StaleSet(limits, now, pool);
    var budget := SatSub(|list|, limits.minCandidates);
    hide NextValidators, NoRepeats, StaleSet;
    forall c ensures c in Remaining(limits, now, pool)
                <==> exists i :: 0 <= i < |list| && list[i] == c && Spared(list, stale, budget, i)
    {
      SurvivorIsSpared(list, stale, budget, |list|, c);
    }
    hide Remaining, Survivors, StaleBefore;
    forall i | 0 <= i < |list| && Spared(list, stale, budget, i) ensures list[i] in Remaining(limits, now, pool) {
    }
  }

  // The invulnerables are checked when a candidate registers, but candidates are not when invulnerables are set.

  /** What `set_invulnerables` would have to check: nobody twice, and no current candidate. */
  ghost predicate Guarded(pool: Pool, ev: PoolEvent) {
    ev.SetInvulnerables? ==>
      NoRepeats(ev.invulnerables) && forall c :: c in pool.candidates ==> c.who !in ev.invulnerables
  }

  ghost predicate GuardedRun(limits: Limits, pool: Pool, events: seq<PoolEvent>)
    decreases |events|
  {
    events != [] ==> Guarded(pool, events[0]) && GuardedRun(limits, PoolStep(limits, pool, events[0]), events[1..])
  }

  ghost predicate SessionsNameNobodyTwice(limits: Limits, pool: Pool, events: seq<PoolEvent>)
    decreases |events|
  {
    events != [] ==>
      && (events[0].NewSession? ==> NoRepeats(NextValidators(limits, events[0].now, pool)))
      && SessionsNameNobodyTwice(limits, PoolStep(limits, pool, events[0]), events[1..])
  }

  ghost predicate Apart(pool: Pool) {
    NoRepeats(pool.invulnerables) && forall c :: c in pool.candidates ==> c.who !in pool.invulnerables
  }

  lemma ApartStep(limits: Limits, pool: Pool, ev: PoolEvent)
    requires PoolInv(pool) && Apart(pool) && Guarded(pool, ev)
    ensures Apart(PoolStep(limits, pool, ev))
    ensures ev.NewSession? ==> NoRepeats(NextValidators(limits, ev.now, pool))
  {
    hide NoRepeats, NextValidators, StaleSet, Survivors, StaleBefore, Kick;
    if ev.NewSession? {
      KickRemovesTheFirstStale(limits, ev.now, pool);
      NextDistinct(limits, ev.now, pool);
      var list := pool.candidates;
      forall c | c in Remaining(limits, ev.now, pool) ensures c in list {
        SurvivorIsSpared(list, StaleSet(limits, ev.now, pool), SatSub(|list|, limits.minCandidates), |list|, c);
      }
    }
  }

  /** With that check in place, every session of every run names nobody twice. */
  lemma {:induction false} GuardSuffices(limits: Limits, pool: Pool, events: seq<PoolEvent>)
    requires PoolInv(pool) && Apart(pool) && GuardedRun(limits, pool, events)
    ensures SessionsNameNobodyTwice(limits, pool, events)
    ensures Apart(PoolRun(limits, pool, events))
    decreases |events|
  {
    hide PoolInv, Apart, Guarded, PoolStep, NextValidators, NoRepeats;
    if events != [] {
      var ev := events[0];
      ApartStep(limits, pool, ev);
      PoolRunKeepsInv(limits, pool, [ev]);
      assert [ev][1..] == [];
      assert PoolRun(limits, pool, [ev]) == PoolRun(limits, PoolStep(limits, pool, ev), []);
      GuardSuffices(limits, PoolStep(limits, pool, ev), events[1..]);
    }
  }

  /** And without it, the next session at which nobody is stale names somebody twice. */
  lemma GuardNeeded(limits: Limits, pool: Pool, invulnerables: seq<AccountId>, now: nat)
    requires PoolInv(pool) && StaleSet(limits, now, pool) == {}
    ensures var ev := SetInvulnerables(invulnerables);
            NoRepeats(NextValidators(limits, now, PoolStep(limits, pool, ev))) <==> Guarded(pool, ev)
  {
    var pool' := PoolStep(limits, pool, SetInvulnerables(invulnerables));
    NextDistinct(limits, now, pool');
    forall c | c in pool'.candidates ensures !IsStale(limits, pool'.lastAuthored, now, c.who) {
      var i :| 0 <= i < |pool.candidates| && pool.candidates[i] == c;
      StaleExactly(limits, now, pool, i);
    }
    NobodyStale(limits, now, pool');
    hide NextValidators, NoRepeats, Remaining, StaleSet;
  }

  /** `set_invulnerables` does not look at the candidates, so a reachable session names an account twice. */
  lemma SessionMayNameTwice(limits: Limits)
    requires limits.kickThreshold > 0
    ensures var start := Pool([], [], map[], map[], 1, 10);
            var a := Applicant(5, true, true, 11);
            var pool := PoolRun(limits, start, [RegisterAsCandidate(a, 1), SetInvulnerables([5])]);
            PoolInv(pool) && NextValidators(limits, 2, pool) == [5, 5]
  {
    hide StaleSet, Survivors, Remaining, Kick;
    var start, a := Pool([], [], map[], map[], 1, 10), Applicant(5, true, true, 11);
    var events := [RegisterAsCandidate(a, 1), SetInvulnerables([5])];
    PoolRunKeepsInv(limits, start, events);
    var pool := PoolStep(limits, PoolStep(limits, start, events[0]), events[1]);
    assert PoolRun(limits, start, events) == pool by {
      assert events[1..] == [events[1]] && events[1..][1..] == [];
      assert PoolRun(limits, PoolStep(limits, start, events[0]), events[1..]) == PoolRun(limits, pool, []);
    }
    assert pool.candidates == [CandidateInfo(5, 10)];
    NobodyStale(limits, 2, pool);
  }

  lemma {:induction false} SurvivorsOfNone(list: Candidates, budget: nat, n: nat)
    requires n <= |list|
    ensures Survivors(list, {}, budget, n) == list[..n]
    decreases n
  {
    if n > 0 {
      SurvivorsOfNone(list, budget, n - 1);
    }
  }

  lemma NobodyStale(limits: Limits, now: nat, pool: Pool)
    requires forall c :: c in pool.candidates ==> !IsStale(limits, pool.lastAuthored, now, c.who)
    ensures Remaining(limits, now, pool) == pool.candidates
  {
    assert StaleSet(limits, now, pool) == {};
    SurvivorsOfNone(pool.candidates, SatSub(|pool.candidates|, limits.minCandidates), |pool.candidates|);
  }

  // ---------------------------------------------------------------- the pallet

  class ValidatorPallet {
    const limits: Limits

    var invulnerables: seq<AccountId>
    var candidates: Candidates
    var lastAuthored: map<AccountId, nat>
    var locks: map<AccountId, nat>
    var desired: nat
    var bond: nat

    function View(): Pool
      reads this
    {
      Pool(invulnerables, candidates, lastAuthored, locks, desired, bond)
    }

    constructor (limits: Limits, invulnerables: seq<AccountId>, desired: nat, bond: nat)
      ensures this.limits == limits
      ensures View() == Pool(invulnerables, [], map[], map[], desired, bond) && PoolInv(View())
    {
      this.limits, this.invulnerables, this.desired, this.bond := limits, invulnerables, desired, bond;
      candidates, lastAuthored, locks := [], map[], map[];
    }

    method Find(who: AccountId) returns (i: nat)
      ensures i == Position(candidates, who)
    {
      i := 0;
      while i < |candidates| && candidates[i].who != who
        invariant i <= |candidates|
        invariant forall j :: 0 <= j < i ==> candidates[j].who != who
      {
        i := i + 1;
      }
    }

    method RegisterAsCandidate(a: Applicant, now: nat) returns (r: Option<Problem>)
      modifies this
      ensures r == RegisterProblem(old(View()), a)
      ensures View() == PoolStep(limits, old(View()), PoolEvent.RegisterAsCandidate(a, now))
    {
      if |candidates| >= desired {
        return Some(TooManyCandidates);
      }
      if a.who in invulnerables {
        return Some(AlreadyInvulnerable);
      }
      if !a.hasValidatorId {
        return Some(NoAssociatedValidatorId);
      }
      if !a.hasSessionKeys {
        return Some(ValidatorNotRegistered);
      }
      if a.free <= bond {
        return Some(TooLowFreeBalance);
      }
      var i := Find(a.who);
      if i < |candidates| {
        return Some(AlreadyCandidate);
      }
      locks := locks[a.who := bond];
      candidates := candidates + [CandidateInfo(a.who, bond)];
      lastAuthored := lastAuthored[a.who := now + limits.kickThreshold];
      return None;
    }

    method TryRemoveCandidate(who: AccountId) returns (r: Option<Problem>)
      modifies this
      ensures r == RemoveProblem(old(View()), who)
      ensures View() == Removed(old(View()), who)
    {
      var i := Find(who);
      if i == |candidates| {
        return Some(NotCandidate);
      }
      locks := locks - {who};
      candidates := candidates[..i] + candidates[i + 1..];
      lastAuthored := lastAuthored - {who};
      return None;
    }

    /** Works through any snapshot while the stored list changes underneath. */
    method KickStaleCandidates(snapshot: Candidates, now: nat) returns (kept: seq<AccountId>)
      modifies this
      ensures View() == Kick(limits, now, old(View()), snapshot).pool
      ensures kept == Kick(limits, now, old(View()), snapshot).kept
    {
      ghost var start := View();
      kept := [];
      for i := 0 to |snapshot|
        invariant View() == Kick(limits, now, start, snapshot[..i]).pool
        invariant kept == Kick(limits, now, start, snapshot[..i]).kept
      {
        hide Removed, RemoveProblem, Kick;
        KickPrefix(limits, now, start, snapshot, i + 1);
        var who := snapshot[i].who;
        var lastBlock := Get(lastAuthored, who);
        if SatSub(now, lastBlock) < limits.kickThreshold || |candidates| <= limits.minCandidates {
          kept := kept + [who];
        } else {
          var outcome := TryRemoveCandidate(who);
        }
      }
      assert snapshot[..|snapshot|] == snapshot;
    }

    method NoteAuthor(author: AccountId, now: nat)
      modifies this
      ensures View() == PoolStep(limits, old(View()), PoolEvent.NoteAuthor(author, now))
    {
      lastAuthored := lastAuthored[author := now];
    }

    /** The next validators: the invulnerables, then the candidates that are still listed. */
    method NewSession(now: nat) returns (validators: seq<AccountId>)
      requires Distinct(candidates)
      modifies this
      ensures View() == PoolStep(limits, old(View()), PoolEvent.NewSession(now))
      ensures candidates == Remaining(limits, now, old(View()))
      ensures validators == NextValidators(limits, now, old(View()))
    {
      KickRemovesTheFirstStale(limits, now, View());
      var active := KickStaleCandidates(candidates, now);
      validators := invulnerables + active;
    }
  }
}
