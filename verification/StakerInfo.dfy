/**
  The compressed stake history of one (staker, provider) pair.  The stored vector lists only the eras in which the
  stake changed and drops eras that were claimed; `StakeAt` is the total map era -> stake that it stands for.
  */
module StakerHistory {
  import opened Arithmetic
  import opened Options

  datatype EraStake = EraStake(staked: nat, era: nat)

  type History = seq<EraStake>

  predicate Ascending(h: History) {
    forall i, j :: 0 <= i < j < |h| ==> h[i].era < h[j].era
  }

  /** What a history denotes: the stake in force in `era`, i.e. that of the last entry not later than `era`. */
  function StakeAt(h: History, era: nat): nat {
    if h == [] then 0
    else if h[|h| - 1].era <= era then h[|h| - 1].staked
    else StakeAt(h[..|h| - 1], era)
  }

  function Latest(h: History): nat {
    if h == [] then 0 else h[|h| - 1].staked
  }

  function Staked(h: History, era: nat, value: nat): Option<History> {
    if h == [] then Some([EraStake(value, era)])
    else
      var last := h[|h| - 1];
      if last.era > era then None
      else
        var entry := EraStake(SatAdd(last.staked, value), era);
        Some(if era == last.era then h[|h| - 1 := entry] else h + [entry])
  }

  function Unstaked(h: History, era: nat, value: nat): Option<History> {
    if h == [] then Some(h)
    else
      var last := h[|h| - 1];
      if last.era > era then None
      else
        var entry := EraStake(SatSub(last.staked, value), era);
        Some(DropZeroHead(if era == last.era then h[|h| - 1 := entry] else h + [entry]))
  }

  function DropZeroHead(h: History): History {
    if h != [] && h[0].staked == 0 then h[1..] else h
  }

  /** The history after claiming its oldest era; `ClaimedEntry` is the (era, stake) pair that the claim reports. */
  function Claimed(h: History): History {
    if h == [] then h
    else
      DropZeroHead(if |h| == 1 || h[1].era > h[0].era + 1
                   then h[0 := EraStake(h[0].staked, h[0].era + 1)]
                   else h[1..])
  }

  function ClaimedEntry(h: History): EraStake {
    if h == [] then EraStake(0, 0) else h[0]
  }

  // ---------------------------------------------------------------- what the denotation is

  /** Between entry `i` and its successor the stake is that of entry `i`. */
  lemma {:induction false} StakeAtEntry(h: History, i: nat, era: nat)
    requires Ascending(h) && i < |h| && h[i].era <= era
    requires i + 1 < |h| ==> era < h[i + 1].era
    ensures StakeAt(h, era) == h[i].staked
  {
    if i + 1 < |h| {
      StakeAtEntry(h[..|h| - 1], i, era);
    }
  }

  lemma {:induction false} StakeAtBefore(h: History, era: nat)
    requires Ascending(h) && (h != [] ==> era < h[0].era)
    ensures StakeAt(h, era) == 0
  {
    if h != [] {
      StakeAtBefore(h[..|h| - 1], era);
    }
  }

  lemma StakeAtLatest(h: History, era: nat)
    requires h != [] ==> h[|h| - 1].era <= era
    ensures StakeAt(h, era) == Latest(h)
  {
  }

  /** Removing the head changes the denotation only on the head's own eras. */
  lemma {:induction false} StakeAtTail(h: History, era: nat)
    requires Ascending(h) && h != []
    ensures StakeAt(h[1..], era) == if |h| > 1 && h[1].era <= era then StakeAt(h, era) else 0
  {
    if |h| == 1 {
    } else if h[|h| - 1].era <= era {
    } else {
      var front := h[..|h| - 1];
      StakeAtTail(front, era);
      assert front[1..] == h[1..][..|h| - 2];
    }
  }

  lemma DropZeroHeadKeeps(h: History, era: nat)
    requires Ascending(h)
    ensures StakeAt(DropZeroHead(h), era) == StakeAt(h, era)
    ensures Ascending(DropZeroHead(h))
  {
    if h != [] && h[0].staked == 0 {
      StakeAtTail(h, era);
      if era < h[0].era {
        StakeAtBefore(h, era);
      } else if |h| == 1 || era < h[1].era {
        StakeAtEntry(h, 0, era);
      }
    }
  }

  // ---------------------------------------------------------------- refinement of the total map

  /** `stake` adds the value to every era from the current one on, and to no other. */
  lemma StakedRefines(h: History, now: nat, value: nat, era: nat)
    requires Ascending(h)
    ensures Staked(h, now, value).None? <==> h != [] && h[|h| - 1].era > now
    ensures Staked(h, now, value).Some? ==>
              var r := Staked(h, now, value).value;
              && Ascending(r) && r != [] && r[|r| - 1].era == now
              && (value <= MAX_BALANCE ==>
                    StakeAt(r, era) == if era < now then StakeAt(h, era) else SatAdd(StakeAt(h, era), value))
              && |h| <= |r| <= |h| + 1
  {
    if Staked(h, now, value).Some? {
      AppendedDenotes(h, now, Staked(h, now, value).value, era);
    }
  }

  /** `unstake` subtracts the value, truncated at zero, from every era from the current one on, and from no other. */
  lemma UnstakedRefines(h: History, now: nat, value: nat, era: nat)
    requires Ascending(h)
    ensures Unstaked(h, now, value).None? <==> h != [] && h[|h| - 1].era > now
    ensures Unstaked(h, now, value).Some? ==>
              var r := Unstaked(h, now, value).value;
              && Ascending(r) && (r != [] ==> r[|r| - 1].era == now)
              && StakeAt(r, era) == (if era < now then StakeAt(h, era) else SatSub(StakeAt(h, era), value))
              && |r| <= |h| + 1
  {
    if Unstaked(h, now, value).Some? && h != [] {
      var last := h[|h| - 1];
      var entry := EraStake(SatSub(last.staked, value), now);
      var r := if now == last.era then h[|h| - 1 := entry] else h + [entry];
      AppendedDenotes(h, now, r, era);
      DropZeroHeadKeeps(r, era);
    }
  }

  /** Writing `r` as the new last entry at era `now` overrides the denotation from `now` on only. */
  lemma AppendedDenotes(h: History, now: nat, r: History, era: nat)
    requires Ascending(h) && r != [] && r[|r| - 1].era == now
    requires h != [] ==> h[|h| - 1].era <= now
    requires r[..|r| - 1] == if h != [] && h[|h| - 1].era == now then h[..|h| - 1] else h
    ensures Ascending(r)
    ensures StakeAt(r, era) == if era < now then StakeAt(h, era) else r[|r| - 1].staked
    ensures era >= now ==> StakeAt(h, era) == Latest(h)
  {
    assert forall i :: 0 <= i < |r| - 1 ==> r[i] == r[..|r| - 1][i];
  }

  /**
    `claim` reports the oldest listed era together with the stake in force in it, and forgets that era alone:
    every later era keeps its stake, however the vector was rearranged.
    */
  lemma ClaimedRefines(h: History, era: nat)
    requires Ascending(h) && h != []
    ensures Ascending(Claimed(h))
    ensures ClaimedEntry(h).staked == StakeAt(h, ClaimedEntry(h).era)
    ensures StakeAt(Claimed(h), era) == if era <= ClaimedEntry(h).era then 0 else StakeAt(h, era)
    ensures |Claimed(h)| <= |h|
    ensures Claimed(h) != [] ==> Claimed(h)[0].era > h[0].era
  {
    StakeAtEntry(h, 0, h[0].era);
    var shifted := h[0 := EraStake(h[0].staked, h[0].era + 1)];
    if |h| == 1 || h[1].era > h[0].era + 1 {
      assert Ascending(shifted);
      ShiftedHeadDenotes(h, era);
      DropZeroHeadKeeps(shifted, era);
    } else {
      StakeAtTail(h, era);
      if era < h[1].era {
        StakeAtBefore(h[1..], era);
      }
      DropZeroHeadKeeps(h[1..], era);
    }
  }

  lemma ShiftedHeadDenotes(h: History, era: nat)
    requires Ascending(h) && h != []
    requires |h| == 1 || h[1].era > h[0].era + 1
    ensures var shifted := h[0 := EraStake(h[0].staked, h[0].era + 1)];
            StakeAt(shifted, era) == if era <= h[0].era then 0 else StakeAt(h, era)
  {
    var shifted := h[0 := EraStake(h[0].staked, h[0].era + 1)];
    assert shifted[1..] == h[1..];
    if era <= h[0].era {
      StakeAtBefore(shifted, era);
    } else if |h| == 1 || era < h[1].era {
      StakeAtEntry(shifted, 0, era);
      StakeAtEntry(h, 0, era);
    } else {
      StakeAtTail(shifted, era);
      StakeAtTail(h, era);
    }
  }

  // ---------------------------------------------------------------- repeated claims

  function ClaimTimes(h: History, n: nat): (History, seq<EraStake>)
    decreases n
  {
    if n == 0 then (h, [])
    else
      var (rest, entries) := ClaimTimes(Claimed(h), n - 1);
      (rest, [ClaimedEntry(h)] + entries)
  }

  /** The eras up to `limit` with a positive stake, oldest first: what a complete sequence of claims should report. */
  function Positives(h: History, from: nat, limit: nat): seq<EraStake>
    decreases limit - from
  {
    if from >= limit then []
    else
      (if StakeAt(h, from) > 0 then [EraStake(StakeAt(h, from), from)] else []) + Positives(h, from + 1, limit)
  }

  function PositiveOnly(entries: seq<EraStake>): seq<EraStake> {
    if entries == [] then []
    else (if entries[0].staked > 0 then [entries[0]] else []) + PositiveOnly(entries[1..])
  }

  lemma {:induction false} PositivesSplit(h: History, from: nat, mid: nat, limit: nat)
    requires from <= mid <= limit
    ensures Positives(h, from, limit) == Positives(h, from, mid) + Positives(h, mid, limit)
    decreases mid - from
  {
    if from < mid {
      PositivesSplit(h, from + 1, mid, limit);
    }
  }

  lemma {:induction false} PositivesAgree(h: History, k: History, from: nat, limit: nat)
    requires forall e: nat :: from <= e < limit ==> StakeAt(h, e) == StakeAt(k, e)
    ensures Positives(h, from, limit) == Positives(k, from, limit)
    decreases limit - from
  {
    if from < limit {
      PositivesAgree(h, k, from + 1, limit);
    }
  }

  lemma {:induction false} PositivesNone(h: History, from: nat, limit: nat)
    requires forall e: nat :: from <= e < limit ==> StakeAt(h, e) == 0
    ensures Positives(h, from, limit) == []
    decreases limit - from
  {
    if from < limit {
      PositivesNone(h, from + 1, limit);
    }
  }

  lemma PositivesOne(h: History, era: nat)
    ensures Positives(h, era, era + 1) == PositiveOnly([EraStake(StakeAt(h, era), era)])
  {
    assert Positives(h, era + 1, era + 1) == [];
  }

  /** The positive eras start at the head entry. */
  lemma PositivesFromHead(h: History, limit: nat)
    requires Ascending(h) && h != [] && h[0].era < limit
    ensures Positives(h, 0, limit) == PositiveOnly([h[0]]) + Positives(h, h[0].era + 1, limit)
  {
    var first := h[0].era;
    forall e: nat | e < first ensures StakeAt(h, e) == 0 {
      StakeAtBefore(h, e);
    }
    PositivesNone(h, 0, first);
    PositivesSplit(h, 0, first, limit);
    PositivesSplit(h, first, first + 1, limit);
    PositivesOne(h, first);
    StakeAtEntry(h, 0, first);
  }

  /** The positive result of one claim, seen as a stretch of the denoted map. */
  lemma ClaimedStretch(h: History, limit: nat)
    requires Ascending(h) && h != [] && h[0].era < limit
    ensures Positives(h, 0, limit) == PositiveOnly([ClaimedEntry(h)]) + Positives(Claimed(h), 0, limit)
  {
    hide Claimed, StakeAt, PositiveOnly, Positives, Ascending;
    PositivesFromHead(h, limit);
    ClaimedLater(h, limit);
  }

  /** After a claim the positive eras are those later than the claimed one. */
  lemma ClaimedLater(h: History, limit: nat)
    requires Ascending(h) && h != [] && h[0].era < limit
    ensures Positives(Claimed(h), 0, limit) == Positives(h, h[0].era + 1, limit)
  {
    hide Claimed, StakeAt, Positives;
    var from, next := h[0].era + 1, Claimed(h);
    forall e: nat ensures StakeAt(next, e) == if e < from then 0 else StakeAt(h, e) {
      ClaimedRefines(h, e);
    }
    PositivesNone(next, 0, from);
    PositivesSplit(next, 0, from, limit);
    PositivesAgree(h, next, from, limit);
    assert [] + Positives(next, from, limit) == Positives(next, from, limit);
  }

  lemma PositiveOnlyCons(entry: EraStake, entries: seq<EraStake>)
    ensures PositiveOnly([entry] + entries) == PositiveOnly([entry]) + PositiveOnly(entries)
  {
    assert ([entry] + entries)[1..] == entries;
  }

  /**
    Claims made in eras before `limit` report, among their positive results, an initial stretch of the positive
    eras of the denoted map: ascending, each once, none skipped.  The remaining history denotes the rest.
    */
  lemma {:induction false} ClaimsEnumerate(h: History, n: nat, limit: nat)
    requires Ascending(h)
    requires AllBefore(ClaimTimes(h, n).1, limit)
    ensures var (rest, entries) := ClaimTimes(h, n);
            && Ascending(rest)
            && Positives(h, 0, limit) == PositiveOnly(entries) + Positives(rest, 0, limit)
    decreases n
  {
    if n > 0 {
      var later := ClaimTimes(Claimed(h), n - 1).1;
      ClaimTimesUnfold(h, n, limit);
      PositiveOnlyCons(ClaimedEntry(h), later);
      if h == [] {
        ClaimsEnumerate(h, n - 1, limit);
      } else {
        ClaimedRefines(h, 0);
        ClaimsEnumerate(Claimed(h), n - 1, limit);
        ClaimedStretch(h, limit);
      }
    }
  }

  ghost predicate AllBefore(entries: seq<EraStake>, limit: nat) {
    forall i :: 0 <= i < |entries| ==> entries[i].era < limit
  }

  lemma ClaimTimesUnfold(h: History, n: nat, limit: nat)
    requires n > 0 && AllBefore(ClaimTimes(h, n).1, limit)
    ensures ClaimTimes(h, n) == (ClaimTimes(Claimed(h), n - 1).0,
                                 [ClaimedEntry(h)] + ClaimTimes(Claimed(h), n - 1).1)
    ensures ClaimedEntry(h).era < limit && AllBefore(ClaimTimes(Claimed(h), n - 1).1, limit)
  {
    var entries, later := ClaimTimes(h, n).1, ClaimTimes(Claimed(h), n - 1).1;
    assert entries[0] == ClaimedEntry(h);
    assert forall i :: 0 <= i < |later| ==> later[i] == entries[i + 1];
  }

  /** How many claims it takes until no listed era lies before `limit`. */
  function ClaimsBelow(h: History, limit: nat): nat
    requires Ascending(h)
    decreases if h == [] then 0 else SatSub(limit, h[0].era)
  {
    if h == [] || h[0].era >= limit then 0
    else
      ClaimedRefines(h, 0);
      1 + ClaimsBelow(Claimed(h), limit)
  }

  /** Enough claims report every positive era before `limit`; at most one claim per era from the head on is needed. */
  lemma {:induction false} ClaimsComplete(h: History, limit: nat)
    requires Ascending(h)
    ensures PositiveOnly(ClaimTimes(h, ClaimsBelow(h, limit)).1) == Positives(h, 0, limit)
    ensures ClaimsBelow(h, limit) <= if h == [] then 0 else SatSub(limit, h[0].era)
    decreases if h == [] then 0 else SatSub(limit, h[0].era)
  {
    if h == [] || h[0].era >= limit {
      forall e: nat | e < limit ensures StakeAt(h, e) == 0 {
        StakeAtBefore(h, e);
      }
      PositivesNone(h, 0, limit);
    } else {
      ClaimedRefines(h, 0);
      ClaimsComplete(Claimed(h), limit);
      ClaimedStretch(h, limit);
      var n := ClaimsBelow(h, limit);
      PositiveOnlyCons(ClaimedEntry(h), ClaimTimes(Claimed(h), n - 1).1);
    }
  }

  // ---------------------------------------------------------------- the mutable record

  /** The in-memory record that a call reads from storage, edits in place and writes back. */
  class StakerInfo {
    var stakes: History

    constructor (stored: History)
      ensures stakes == stored
    {
      stakes := stored;
    }

    method Stake(currentEra: nat, value: nat) returns (ok: bool)
      modifies this
      ensures ok == Staked(old(stakes), currentEra, value).Some?
      ensures stakes == if ok then Staked(old(stakes), currentEra, value).value else old(stakes)
    {
      if |stakes| > 0 {
        var last := stakes[|stakes| - 1];
        if last.era > currentEra {
          return false;
        }
        var newStake := SatAdd(last.staked, value);
        if currentEra == last.era {
          stakes := stakes[|stakes| - 1 := EraStake(newStake, currentEra)];
        } else {
          stakes := stakes + [EraStake(newStake, currentEra)];
        }
      } else {
        stakes := stakes + [EraStake(value, currentEra)];
      }
      ok := true;
    }

    method Unstake(currentEra: nat, value: nat) returns (ok: bool)
      modifies this
      ensures ok == Unstaked(old(stakes), currentEra, value).Some?
      ensures stakes == if ok then Unstaked(old(stakes), currentEra, value).value else old(stakes)
    {
      if |stakes| > 0 {
        var last := stakes[|stakes| - 1];
        if last.era > currentEra {
          return false;
        }
        var newStake := SatSub(last.staked, value);
        if currentEra == last.era {
          stakes := stakes[|stakes| - 1 := EraStake(newStake, currentEra)];
        } else {
          stakes := stakes + [EraStake(newStake, currentEra)];
        }
        if stakes != [] && stakes[0].staked == 0 {
          stakes := stakes[1..];
        }
      }
      ok := true;
    }

    method Claim() returns (entry: EraStake)
      modifies this
      ensures entry == ClaimedEntry(old(stakes))
      ensures stakes == Claimed(old(stakes))
    {
      if |stakes| > 0 {
        entry := stakes[0];
        if |stakes| == 1 || stakes[1].era > entry.era + 1 {
          stakes := stakes[0 := EraStake(entry.staked, entry.era + 1)];
        } else {
          stakes := stakes[1..];
        }
        if stakes != [] && stakes[0].staked == 0 {
          stakes := stakes[1..];
        }
      } else {
        entry := EraStake(0, 0);
      }
    }
  }
}
