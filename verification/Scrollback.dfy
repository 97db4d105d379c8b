/**
 The bounded scrollback behind every pane, local and remote alike: whole chunks are
 kept, and the oldest are dropped until the rest fits.
 */
module Scrollback {
  import opened Bytes

  /** Drop chunks from the front until what is left fits. */
  function Evict(chunks: seq<Chunk>, capacity: nat): seq<Chunk> {
    if |Flatten(chunks)| <= capacity || chunks == [] then chunks else Evict(chunks[1..], capacity)
  }

  function Append1(held: seq<Chunk>, c: Chunk, capacity: nat): seq<Chunk> {
    if c == [] then held else Evict(held + [c], capacity)
  }

  /** What is held after appending `all` in order to an empty scrollback. */
  function Held(all: seq<Chunk>, capacity: nat): seq<Chunk> {
    if all == [] then [] else Append1(Held(all[..|all| - 1], capacity), all[|all| - 1], capacity)
  }

  function NonEmpty(all: seq<Chunk>): seq<Chunk> {
    if all == [] then []
    else NonEmpty(all[..|all| - 1]) + if all[|all| - 1] == [] then [] else [all[|all| - 1]]
  }

  /** `all[k..]` is the longest run of whole chunks at the end of `all` that fits. */
  ghost predicate LongestFitting(all: seq<Chunk>, k: nat, capacity: nat) {
    && k <= |all|
    && |Flatten(all[k..])| <= capacity
    && (forall j :: 0 <= j < k ==> |Flatten(all[j..])| > capacity)
  }

  lemma {:induction false} EvictLongest(all: seq<Chunk>, from: nat, capacity: nat) returns (k: nat)
    requires from <= |all|
    requires forall j :: 0 <= j < from ==> |Flatten(all[j..])| > capacity
    ensures LongestFitting(all, k, capacity) && Evict(all[from..], capacity) == all[k..]
    decreases |all| - from
  {
    if |Flatten(all[from..])| <= capacity {
      k := from;
    } else {
      assert all[from..][1..] == all[from + 1..];
      k := EvictLongest(all, from + 1, capacity);
    }
  }

  lemma FlattenGrows(all: seq<Chunk>, c: Chunk, j: nat)
    requires j <= |all|
    ensures |Flatten((all + [c])[j..])| == |Flatten(all[j..])| + |c|
  {
    assert (all + [c])[j..] == all[j..] + [c];
    FlattenConcat(all[j..], [c]);
    FlattenOne(c);
  }

  /**
   The scrollback refines the full log: after any appends it holds exactly the longest
   chunk-aligned end of the non-empty chunks that fits the capacity.
   */
  lemma {:induction false} HeldIsLongest(all: seq<Chunk>, capacity: nat) returns (k: nat)
    ensures LongestFitting(NonEmpty(all), k, capacity)
    ensures Held(all, capacity) == NonEmpty(all)[k..]
  {
    if all == [] {
      k := 0;
      assert NonEmpty(all)[0..] == [];
    } else {
      var init, c := all[..|all| - 1], all[|all| - 1];
      k := HeldIsLongest(init, capacity);
      var before := NonEmpty(init);
      if c == [] {
        assert before + [] == before;
      } else {
        forall j | 0 <= j < k ensures |Flatten((before + [c])[j..])| > capacity {
          FlattenGrows(before, c, j);
        }
        assert (before + [c])[k..] == before[k..] + [c];
        k := EvictLongest(before + [c], k, capacity);
      }
    }
  }

  lemma {:induction false} NonEmptyFlatten(all: seq<Chunk>)
    ensures Flatten(NonEmpty(all)) == Flatten(all)
  {
    if all != [] {
      var init, c := all[..|all| - 1], all[|all| - 1];
      NonEmptyFlatten(init);
      FlattenConcat(NonEmpty(init), if c == [] then [] else [c]);
      FlattenOne(c);
    }
  }

  /** The bytes replayed to a late subscriber: at most the capacity, and the end of everything appended. */
  lemma SnapshotIsRecent(all: seq<Chunk>, capacity: nat)
    ensures |Flatten(Held(all, capacity))| <= capacity
    ensures Suffix(Flatten(Held(all, capacity)), Flatten(all))
  {
    var k := HeldIsLongest(all, capacity);
    var kept := NonEmpty(all);
    NonEmptyFlatten(all);
    assert kept == kept[..k] + kept[k..];
    FlattenConcat(kept[..k], kept[k..]);
  }

  lemma {:induction false} EvictLast(chunks: seq<Chunk>, c: Chunk, capacity: nat)
    ensures |c| > capacity ==> Evict(chunks + [c], capacity) == []
    ensures |c| <= capacity ==> Suffix(c, Flatten(Evict(chunks + [c], capacity)))
  {
    FlattenConcat(chunks, [c]);
    FlattenOne(c);
    if |Flatten(chunks + [c])| > capacity {
      if chunks == [] {
        assert (chunks + [c])[1..] == [];
      } else {
        assert (chunks + [c])[1..] == chunks[1..] + [c];
        EvictLast(chunks[1..], c, capacity);
      }
    }
  }

  /** The newest chunk is the end of the snapshot if it fits; if it does not, nothing at all is held. */
  lemma NewestHeld(all: seq<Chunk>, capacity: nat)
    requires all != [] && all[|all| - 1] != []
    ensures var c := all[|all| - 1];
      if |c| <= capacity then Suffix(c, Flatten(Held(all, capacity))) else Flatten(Held(all, capacity)) == []
  {
    EvictLast(Held(all[..|all| - 1], capacity), all[|all| - 1], capacity);
  }

  lemma FlattenFirst(chunks: seq<Chunk>)
    requires chunks != []
    ensures |Flatten(chunks)| == |chunks[0]| + |Flatten(chunks[1..])|
  {
    assert chunks == [chunks[0]] + chunks[1..];
    FlattenConcat([chunks[0]], chunks[1..]);
    FlattenOne(chunks[0]);
  }

  class Scrollback {
    var chunks: seq<Chunk>
    var totalBytes: nat
    const capacity: nat

    ghost predicate Valid()
      reads this
    {
      totalBytes == |Flatten(chunks)| && totalBytes <= capacity
    }

    constructor (capacity: nat)
      ensures Valid() && chunks == [] && this.capacity == capacity
    {
      this.capacity := capacity;
      chunks, totalBytes := [], 0;
    }

    /** Append, then evict from the front while over capacity. */
    method Append(bytes: Chunk)
      requires Valid()
      modifies this
      ensures Valid()
      ensures chunks == Append1(old(chunks), bytes, capacity)
    {
      if bytes == [] {
        return;
      }
      FlattenConcat(chunks, [bytes]);
      FlattenOne(bytes);
      totalBytes := totalBytes + |bytes|;
      chunks := chunks + [bytes];
      while totalBytes > capacity
        invariant totalBytes == |Flatten(chunks)|
        invariant Evict(chunks, capacity) == Append1(old(chunks), bytes, capacity)
        decreases |chunks|
      {
        if chunks == [] {
          break;
        }
        var dropped := chunks[0];
        FlattenFirst(chunks);
        chunks := chunks[1..];
        totalBytes := totalBytes - |dropped|;
      }
    }

    /** The held chunks, concatenated in order. */
    method Snapshot() returns (out: Chunk)
      requires Valid()
      ensures out == Flatten(chunks) && |out| <= capacity
    {
      out := [];
      for i := 0 to |chunks|
        invariant out == Flatten(chunks[..i])
      {
        assert chunks[..i + 1][..i] == chunks[..i];
        out := out + chunks[i];
      }
      assert chunks[..|chunks|] == chunks;
    }
  }
}
