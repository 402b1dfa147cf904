/** A slab's free-slot bitmap with a count of free slots per chunk
    (src/drive/freemap.rs). The summary must always agree with the bits. */
module FreeMaps {
  import opened Options

  /** Slots per summary chunk. */
  const CHUNK: nat := 0x1_0000

  /** How many slots are free: the plain scan the summary replaces. */
  ghost function Ones(b: seq<bool>): (n: nat)
    ensures n <= |b|
  {
    if b == [] then 0 else Ones(b[..|b| - 1]) + if b[|b| - 1] then 1 else 0
  }

  ghost function ChunksFor(n: nat): nat {
    (n + CHUNK - 1) / CHUNK
  }

  ghost function ChunkEnd(n: nat, c: nat): nat {
    if (c + 1) * CHUNK < n then (c + 1) * CHUNK else n
  }

  ghost predicate ChunkStarts(n: nat, c: nat) {
    c * CHUNK <= ChunkEnd(n, c)
  }

  /** Every chunk of `b` below the count starts inside it and is at most `CHUNK` long. */
  lemma ChunkInside(n: nat, c: nat)
    requires c < ChunksFor(n)
    ensures c * CHUNK < n && ChunkStarts(n, c) && ChunkEnd(n, c) - c * CHUNK <= CHUNK
  {
  }

  ghost function ChunkOnes(b: seq<bool>, c: nat): (n: nat)
    requires c < ChunksFor(|b|)
    ensures n <= CHUNK
  {
    ChunkInside(|b|, c);
    Ones(b[c * CHUNK..ChunkEnd(|b|, c)])
  }

  ghost predicate Summarises(freeIn: seq<nat>, b: seq<bool>) {
    |freeIn| == ChunksFor(|b|) && forall c :: 0 <= c < |freeIn| ==> freeIn[c] == ChunkOnes(b, c)
  }

  ghost function Total(s: seq<nat>): nat {
    if s == [] then 0 else Total(s[..|s| - 1]) + s[|s| - 1]
  }

  lemma {:induction false} OnesConcat(a: seq<bool>, b: seq<bool>)
    ensures Ones(a + b) == Ones(a) + Ones(b)
  {
    if b == [] {
      assert a + b == a;
    } else {
      OnesConcat(a, b[..|b| - 1]);
      assert (a + b)[..|a + b| - 1] == a + b[..|b| - 1];
    }
  }

  /** Changing one slot changes the count by that slot alone: `c -= 1` cannot underflow. */
  lemma OnesUpdate(b: seq<bool>, i: nat, free: bool)
    requires i < |b| && b[i] != free
    ensures Ones(b[i := free]) == if free then Ones(b) + 1 else Ones(b) - 1
  {
    var u := b[i := free];
    OnesConcat(b[..i] + [b[i]], b[i + 1..]);
    OnesConcat(b[..i], [b[i]]);
    OnesConcat(b[..i] + [free], b[i + 1..]);
    OnesConcat(b[..i], [free]);
    assert b == b[..i] + [b[i]] + b[i + 1..];
    assert u == b[..i] + [free] + b[i + 1..];
    OnesSingle(free);
    OnesSingle(b[i]);
  }

  lemma OnesSingle(v: bool)
    ensures Ones([v]) == if v then 1 else 0
  {
    assert [v][..0] == [];
  }

  lemma {:induction false} NoOnes(b: seq<bool>)
    ensures Ones(b) == 0 <==> forall i :: 0 <= i < |b| ==> !b[i]
  {
    if b != [] {
      NoOnes(b[..|b| - 1]);
      assert forall i :: 0 <= i < |b| - 1 ==> b[..|b| - 1][i] == b[i];
    }
  }

  /** The summary adds up to the plain count. */
  lemma {:induction false} TotalIsOnes(freeIn: seq<nat>, b: seq<bool>, k: nat)
    requires Summarises(freeIn, b) && k <= |freeIn|
    ensures Total(freeIn[..k]) == Ones(b[..if k * CHUNK < |b| then k * CHUNK else |b|])
  {
    if k > 0 {
      TotalIsOnes(freeIn, b, k - 1);
      ChunkInside(|b|, k - 1);
      assert freeIn[..k][..k - 1] == freeIn[..k - 1];
      var lo, hi := (k - 1) * CHUNK, ChunkEnd(|b|, k - 1);
      OnesConcat(b[..lo], b[lo..hi]);
      assert b[..lo] + b[lo..hi] == b[..hi];
    }
  }

  class FreeMap {
    var bits: seq<bool>
    /** Free slots in each chunk of `CHUNK`. */
    var freeIn: seq<nat>

    ghost predicate Valid()
      reads this
    {
      Summarises(freeIn, bits)
    }

    constructor (n: nat, free: bool)
      ensures Valid()
      ensures |bits| == n && forall i :: 0 <= i < n ==> bits[i] == free
      ensures |freeIn| == (n + 0xFFFF) / 0x1_0000
    {
      bits := seq(n, _ => free);
      freeIn := [];
      new;
      Recount();
    }

    method Recount()
      modifies this`freeIn
      ensures Valid() && |freeIn| == (|bits| + 0xFFFF) / 0x1_0000
    {
      var chunks := (|bits| + CHUNK - 1) / CHUNK;
      freeIn := [];
      for c := 0 to chunks
        invariant |freeIn| == c <= ChunksFor(|bits|)
        invariant forall k :: 0 <= k < c ==> freeIn[k] == ChunkOnes(bits, k)
        invariant bits == old(bits)
      {
        var end := if (c + 1) * CHUNK < |bits| then (c + 1) * CHUNK else |bits|;
        ChunkInside(|bits|, c);
        var ones := CountOnes(bits[c * CHUNK..end]);
        freeIn := freeIn + [ones];
      }
    }

    /** An index past the end is not free. */
    function IsFree(i: nat): bool
      reads this
    {
      i < |bits| && bits[i]
    }

    /** Mark slot `i` free or used. Nothing changes past the end, or when it already is. */
    method Set(i: nat, free: bool)
      requires Valid()
      modifies this
      ensures Valid()
      ensures bits == if i < |old(bits)| then old(bits)[i := free] else old(bits)
      ensures Ones(bits) == Ones(old(bits)) +
        if i < |old(bits)| && old(bits)[i] != free then (if free then 1 else -1) else 0
    {
      if i >= |bits| || bits[i] == free {
        assert i < |bits| ==> bits[i := free] == bits;
        return;
      }
      SetKeepsSummary(freeIn, bits, i, free);
      OnesUpdate(bits, i, free);
      bits := bits[i := free];
      var c := i / CHUNK;
      freeIn := freeIn[c := if free then freeIn[c] + 1 else freeIn[c] - 1];
    }

    /** First fit: the least free slot, or none exactly when no slot is free. */
    method FirstFree() returns (r: Option<nat>)
      requires Valid()
      ensures r.None? <==> forall i :: 0 <= i < |bits| ==> !IsFree(i)
      ensures r.Some? ==> IsFree(r.value) && forall i :: 0 <= i < r.value ==> !IsFree(i)
    {
      var c := 0;
      while c < |freeIn| && freeIn[c] == 0
        invariant c <= |freeIn|
        invariant forall i :: 0 <= i < |bits| && i < c * CHUNK ==> !bits[i]
      {
        ChunkWithout(bits, c);
        c := c + 1;
      }
      if c == |freeIn| {
        assert |bits| <= c * CHUNK;
        assert forall i :: 0 <= i < |bits| ==> !IsFree(i);
        return None;
      }
      ChunkInside(|bits|, c);
      var start := c * CHUNK;
      var end := if start + CHUNK < |bits| then start + CHUNK else |bits|;
      var i := start;
      while i < end && !bits[i]
        invariant start <= i <= end
        invariant forall k :: 0 <= k < i ==> !bits[k]
      {
        i := i + 1;
      }
      if i == end {
        // A chunk with a count above zero has a free slot.
        NoOnes(bits[start..end]);
        assert false;
      }
      assert IsFree(i);
      r := Some(i);
    }

    /** Grow or shrink to `n` slots; new slots take `free`. */
    method Resize(n: nat, free: bool)
      modifies this
      ensures Valid()
      ensures |bits| == n
      ensures forall i :: 0 <= i < n ==> bits[i] == if i < |old(bits)| then old(bits)[i] else free
    {
      bits := if n <= |bits| then bits[..n] else bits + seq(n - |bits|, _ => free);
      Recount();
    }

    /** The sum of the summary is the number of free slots. */
    method CountFree() returns (n: nat)
      requires Valid()
      ensures n == Ones(bits)
    {
      n := 0;
      for c := 0 to |freeIn|
        invariant n == Total(freeIn[..c])
      {
        assert freeIn[..c + 1][..c] == freeIn[..c];
        n := n + freeIn[c];
      }
      TotalIsOnes(freeIn, bits, |freeIn|);
      assert bits[..|bits|] == bits;
    }
  }

  /** `count_ones` of a run of bits. */
  method CountOnes(b: seq<bool>) returns (n: nat)
    ensures n == Ones(b)
  {
    n := 0;
    for i := 0 to |b|
      invariant n == Ones(b[..i])
    {
      assert b[..i + 1][..i] == b[..i];
      if b[i] {
        n := n + 1;
      }
    }
    assert b[..|b|] == b;
  }

  /** A chunk counted as empty holds no free slot. */
  lemma ChunkWithout(b: seq<bool>, c: nat)
    requires c < ChunksFor(|b|) && ChunkOnes(b, c) == 0
    ensures forall i :: c * CHUNK <= i < |b| && i < (c + 1) * CHUNK ==> !b[i]
  {
    ChunkInside(|b|, c);
    var chunk := b[c * CHUNK..ChunkEnd(|b|, c)];
    NoOnes(chunk);
    forall i | c * CHUNK <= i < |b| && i < (c + 1) * CHUNK
      ensures !b[i]
    {
      assert b[i] == chunk[i - c * CHUNK];
    }
  }

  /** Adjusting the one count of the changed slot's chunk keeps the whole summary right. */
  lemma SetKeepsSummary(freeIn: seq<nat>, b: seq<bool>, i: nat, free: bool)
    requires Summarises(freeIn, b) && i < |b| && b[i] != free
    ensures i / CHUNK < |freeIn| && (!free ==> freeIn[i / CHUNK] > 0)
    ensures Summarises(freeIn[i / CHUNK := if free then freeIn[i / CHUNK] + 1 else freeIn[i / CHUNK] - 1], b[i := free])
  {
    var u := b[i := free];
    var at := i / CHUNK;
    forall c | 0 <= c < |freeIn|
      ensures c == at ==> ChunkOnes(u, c) == (if free then ChunkOnes(b, c) + 1 else ChunkOnes(b, c) - 1)
      ensures c != at ==> ChunkOnes(u, c) == ChunkOnes(b, c)
    {
      ChunkInside(|b|, c);
      var lo, hi := c * CHUNK, ChunkEnd(|b|, c);
      if c == at {
        OnesUpdate(b[lo..hi], i - lo, free);
        assert u[lo..hi] == b[lo..hi][i - lo := free];
      } else {
        assert u[lo..hi] == b[lo..hi];
      }
    }
    assert at < |freeIn|;
    assert ChunkOnes(u, at) >= 0;
  }
}
