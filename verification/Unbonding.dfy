/** The unbonding queue of one account: chunks that unlock in some era, sorted by that era. */
module Unbonding {

  datatype UnlockingChunk = UnlockingChunk(amount: nat, unlockEra: nat)

  type Chunks = seq<UnlockingChunk>

  predicate Sorted(chunks: Chunks) {
    forall i, j :: 0 <= i < j < |chunks| ==> chunks[i].unlockEra < chunks[j].unlockEra
  }

  function ChunkSum(chunks: Chunks): nat {
    if chunks == [] then 0 else chunks[0].amount + ChunkSum(chunks[1..])
  }

  /** What a queue denotes: how much unlocks in `era`. */
  function Unlocking(chunks: Chunks, era: nat): nat {
    if chunks == [] then 0
    else (if chunks[0].unlockEra == era then chunks[0].amount else 0) + Unlocking(chunks[1..], era)
  }

  /** Sorted insertion that merges with a chunk of the same era. */
  function Added(chunks: Chunks, chunk: UnlockingChunk): Chunks {
    if chunks == [] || chunk.unlockEra < chunks[0].unlockEra then [chunk] + chunks
    else if chunk.unlockEra == chunks[0].unlockEra then
      [UnlockingChunk(chunks[0].amount + chunk.amount, chunk.unlockEra)] + chunks[1..]
    else [chunks[0]] + Added(chunks[1..], chunk)
  }

  /** The chunks unlocked by `era` and those still to come: the two halves of `partition`. */
  function Matured(chunks: Chunks, era: nat): Chunks {
    if chunks == [] then []
    else (if chunks[0].unlockEra <= era then [chunks[0]] else []) + Matured(chunks[1..], era)
  }

  function Future(chunks: Chunks, era: nat): Chunks {
    if chunks == [] then []
    else (if chunks[0].unlockEra <= era then [] else [chunks[0]]) + Future(chunks[1..], era)
  }

  // ---------------------------------------------------------------- insertion

  /** Insertion changes the queue's meaning by exactly the new amount, in exactly its era. */
  lemma {:induction false} AddedDenotes(chunks: Chunks, chunk: UnlockingChunk, era: nat)
    ensures ChunkSum(Added(chunks, chunk)) == ChunkSum(chunks) + chunk.amount
    ensures Unlocking(Added(chunks, chunk), era)
         == Unlocking(chunks, era) + if era == chunk.unlockEra then chunk.amount else 0
    ensures |chunks| <= |Added(chunks, chunk)| <= |chunks| + 1
  {
    var r := Added(chunks, chunk);
    if chunks == [] || chunk.unlockEra < chunks[0].unlockEra {
      assert r[1..] == chunks;
    } else if chunk.unlockEra == chunks[0].unlockEra {
      assert r[1..] == chunks[1..];
    } else {
      AddedDenotes(chunks[1..], chunk, era);
      assert r[1..] == Added(chunks[1..], chunk);
    }
  }

  /** No chunk unlocks earlier than everything that was there or was added. */
  lemma {:induction false} AddedLeast(chunks: Chunks, chunk: UnlockingChunk, least: nat)
    requires chunk.unlockEra >= least && forall c :: c in chunks ==> c.unlockEra >= least
    ensures forall c :: c in Added(chunks, chunk) ==> c.unlockEra >= least
  {
    if chunks != [] && chunk.unlockEra > chunks[0].unlockEra {
      AddedLeast(chunks[1..], chunk, least);
    }
  }

  lemma {:induction false} AddedSorted(chunks: Chunks, chunk: UnlockingChunk)
    requires Sorted(chunks)
    ensures Sorted(Added(chunks, chunk))
  {
    if chunks != [] && chunk.unlockEra > chunks[0].unlockEra {
      var rest := Added(chunks[1..], chunk);
      AddedSorted(chunks[1..], chunk);
      AddedLeast(chunks[1..], chunk, chunks[0].unlockEra + 1);
      assert Added(chunks, chunk) == [chunks[0]] + rest;
      hide Added;
      forall j | 0 <= j < |rest| ensures chunks[0].unlockEra < rest[j].unlockEra {
        assert rest[j] in rest;
      }
    }
  }

  lemma {:induction false} AddedElements(chunks: Chunks, chunk: UnlockingChunk, least: nat)
    requires chunk.amount > 0 && chunk.unlockEra >= least
    requires forall x :: x in chunks ==> x.amount > 0 && x.unlockEra >= least
    ensures forall x :: x in Added(chunks, chunk) ==> x.amount > 0 && x.unlockEra >= least
  {
    if chunks != [] && chunk.unlockEra > chunks[0].unlockEra {
      AddedElements(chunks[1..], chunk, least);
    }
  }

  /** Where a binary search may report a place for `era`. */
  predicate SearchResult(chunks: Chunks, era: nat, found: bool, pos: nat) {
    if found then pos < |chunks| && chunks[pos].unlockEra == era
    else
      && pos <= |chunks|
      && (forall i :: 0 <= i < pos ==> chunks[i].unlockEra < era)
      && (forall i :: pos <= i < |chunks| ==> era < chunks[i].unlockEra)
  }

  lemma {:induction false} AddedMerges(chunks: Chunks, chunk: UnlockingChunk, pos: nat)
    requires Sorted(chunks) && pos < |chunks| && chunks[pos].unlockEra == chunk.unlockEra
    ensures Added(chunks, chunk) == chunks[pos := UnlockingChunk(chunks[pos].amount + chunk.amount, chunk.unlockEra)]
  {
    if pos > 0 {
      AddedMerges(chunks[1..], chunk, pos - 1);
    }
  }

  lemma {:induction false} AddedInserts(chunks: Chunks, chunk: UnlockingChunk, pos: nat)
    requires SearchResult(chunks, chunk.unlockEra, false, pos)
    ensures Added(chunks, chunk) == chunks[..pos] + [chunk] + chunks[pos..]
  {
    if pos > 0 {
      var rest := chunks[1..];
      AddedInserts(rest, chunk, pos - 1);
      assert chunks[..pos] == [chunks[0]] + rest[..pos - 1];
      assert chunks[pos..] == rest[pos - 1..];
    }
  }

  // ---------------------------------------------------------------- partition

  /** `partition` loses nothing. */
  lemma {:induction false} PartitionSum(chunks: Chunks, era: nat)
    ensures ChunkSum(Matured(chunks, era)) + ChunkSum(Future(chunks, era)) == ChunkSum(chunks)
  {
    if chunks != [] {
      var m, f := Matured(chunks[1..], era), Future(chunks[1..], era);
      PartitionSum(chunks[1..], era);
      if chunks[0].unlockEra <= era {
        assert ([chunks[0]] + m)[1..] == m;
        assert [] + f == f;
      } else {
        assert ([chunks[0]] + f)[1..] == f;
        assert [] + m == m;
      }
    }
  }

  lemma PartitionFirst(chunks: Chunks, era: nat)
    requires chunks != []
    ensures Matured(chunks, era) == (if chunks[0].unlockEra <= era then [chunks[0]] else []) + Matured(chunks[1..], era)
    ensures Future(chunks, era) == (if chunks[0].unlockEra <= era then [] else [chunks[0]]) + Future(chunks[1..], era)
  {
  }

  /** `partition` cuts a sorted queue into a prefix and a suffix, both in order. */
  lemma {:induction false} PartitionOrder(chunks: Chunks, era: nat)
    requires Sorted(chunks)
    ensures chunks == Matured(chunks, era) + Future(chunks, era)
  {
    if chunks != [] {
      PartitionOrder(chunks[1..], era);
      PartitionFirst(chunks, era);
      if chunks[0].unlockEra > era {
        NothingMatured(chunks[1..], era);
      }
      hide Matured, Future, Sorted;
      assert chunks == [chunks[0]] + (Matured(chunks[1..], era) + Future(chunks[1..], era));
    }
  }

  lemma {:induction false} NothingMatured(chunks: Chunks, era: nat)
    requires forall i :: 0 <= i < |chunks| ==> chunks[i].unlockEra > era
    ensures Matured(chunks, era) == []
  {
    if chunks != [] {
      NothingMatured(chunks[1..], era);
    }
  }

  lemma {:induction false} FutureDenotes(chunks: Chunks, era: nat, x: nat)
    ensures Unlocking(Future(chunks, era), x) == if x <= era then 0 else Unlocking(chunks, x)
    ensures |Future(chunks, era)| <= |chunks|
    ensures forall c :: c in Future(chunks, era) ==> c in chunks && c.unlockEra > era
  {
    if chunks != [] {
      FutureDenotes(chunks[1..], era, x);
      var f := Future(chunks, era);
      if chunks[0].unlockEra > era {
        assert f[1..] == Future(chunks[1..], era);
      } else {
        assert f == Future(chunks[1..], era);
      }
    }
  }

  lemma {:induction false} FutureSorted(chunks: Chunks, era: nat)
    requires Sorted(chunks)
    ensures Sorted(Future(chunks, era))
  {
    if chunks != [] {
      FutureSorted(chunks[1..], era);
      FutureDenotes(chunks[1..], era, 0);
    }
  }

  // ---------------------------------------------------------------- the mutable queue

  class UnbondingInfo {
    var unlockingChunks: Chunks

    constructor (stored: Chunks)
      ensures unlockingChunks == stored
    {
      unlockingChunks := stored;
    }

    method BinarySearch(era: nat) returns (found: bool, pos: nat)
      requires Sorted(unlockingChunks)
      ensures SearchResult(unlockingChunks, era, found, pos)
    {
      var low, high := 0, |unlockingChunks|;
      while low < high
        invariant low <= high <= |unlockingChunks|
        invariant forall i :: 0 <= i < low ==> unlockingChunks[i].unlockEra < era
        invariant forall i :: high <= i < |unlockingChunks| ==> era < unlockingChunks[i].unlockEra
      {
        var mid := low + (high - low) / 2;
        if unlockingChunks[mid].unlockEra == era {
          return true, mid;
        } else if unlockingChunks[mid].unlockEra < era {
          low := mid + 1;
        } else {
          high := mid;
        }
      }
      return false, low;
    }

    method Add(chunk: UnlockingChunk)
      requires Sorted(unlockingChunks)
      modifies this
      ensures unlockingChunks == Added(old(unlockingChunks), chunk)
      ensures Sorted(unlockingChunks)
    {
      var found, pos := BinarySearch(chunk.unlockEra);
      AddedSorted(unlockingChunks, chunk);
      if found {
        AddedMerges(unlockingChunks, chunk, pos);
        var merged := UnlockingChunk(unlockingChunks[pos].amount + chunk.amount, unlockingChunks[pos].unlockEra);
        unlockingChunks := unlockingChunks[pos := merged];
      } else {
        AddedInserts(unlockingChunks, chunk, pos);
        unlockingChunks := unlockingChunks[..pos] + [chunk] + unlockingChunks[pos..];
      }
    }
  }
}
