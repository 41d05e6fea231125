/** How a batch is cut into chunks (hypertile-capi/src/lib.rs:341-360 and
    hypertile-sys/src/lib.rs:531-543): both loop shapes, in 64-bit arithmetic. */
module ChunkPlan {

  newtype usize = x: int | 0 <= x < 0x1_0000_0000_0000_0000

  /** More items, or workers, than this cannot be in memory. */
  const IN_MEMORY: usize := 0x0fff_ffff_ffff_ffff

  /** The items `lo <= i < hi`. */
  datatype Chunk = Chunk(lo: nat, hi: nat)

  /** The chunks follow each other without gap or overlap from 0 to `count`, none empty. */
  ghost predicate Tiles(plan: seq<Chunk>, count: nat)
  {
    && (plan == [] ==> count == 0)
    && (plan != [] ==> plan[0].lo == 0 && plan[|plan| - 1].hi == count)
    && (forall k :: 0 <= k < |plan| ==> plan[k].lo < plan[k].hi)
    && (forall k :: 0 <= k < |plan| - 1 ==> plan[k].hi == plan[k + 1].lo)
  }

  predicate Has(c: Chunk, i: nat) { c.lo <= i < c.hi }

  lemma {:induction false} TilesOrdered(plan: seq<Chunk>, count: nat, j: nat, k: nat)
    requires Tiles(plan, count) && j < k < |plan|
    ensures plan[j].hi <= plan[k].lo
    decreases k
  {
    if j < k - 1 {
      TilesOrdered(plan, count, j, k - 1);
    }
  }

  /** Every item is in exactly one chunk. */
  lemma TilesCover(plan: seq<Chunk>, count: nat, i: nat) returns (k: nat)
    requires Tiles(plan, count) && i < count
    ensures k < |plan| && Has(plan[k], i)
    ensures forall j :: 0 <= j < |plan| && Has(plan[j], i) ==> j == k
  {
    k := 0;
    while plan[k].hi <= i
      invariant k < |plan| && plan[k].lo <= i
      decreases |plan| - k
    {
      k := k + 1;
    }
    forall j | 0 <= j < |plan| && Has(plan[j], i)
      ensures j == k
    {
      if j < k { TilesOrdered(plan, count, j, k); }
      if k < j { TilesOrdered(plan, count, k, j); }
    }
  }

  lemma {:induction false} TilesInside(plan: seq<Chunk>, count: nat, k: nat)
    requires Tiles(plan, count) && k < |plan|
    ensures plan[k].hi <= count
  {
    if k < |plan| - 1 {
      TilesOrdered(plan, count, k, |plan| - 1);
    }
  }

  /** `q` chunks of `b` items are enough for `a` items, and `q - 1` are not. */
  predicate RoundedUp(q: int, b: int, a: int)
  {
    (q - 1) * b < a <= q * b
  }

  /** `usize::div_ceil`. */
  function DivCeil(a: usize, b: usize): (q: usize)
    requires b > 0
    ensures RoundedUp(q as int, b as int, a as int)
  {
    DivFacts(a as int, b as int);
    if a % b == 0 then a / b else a / b + 1
  }

  lemma DivFacts(a: int, b: int)
    requires a >= 0 && b > 0
    ensures RoundedUp(if a % b == 0 then a / b else a / b + 1, b, a)
    ensures (if a % b == 0 then a / b else a / b + 1) <= a
  {
    var q := a / b;
    var r := a % b;
    assert a == b * q + r;
    assert b * q == q * b;
    Monotone(1, b, q);
    Distribute(q, b);
  }

  /** A quotient rounded up is at least `k` when `k - 1` whole chunks are too few. */
  lemma AtMost(q: int, b: int, a: int, n: int)
    requires b > 0 && RoundedUp(q, b, a) && a <= n * b
    ensures q <= n
  {
    if q > n {
      Monotone(n, q - 1, b);
    }
  }

  lemma Distribute(q: int, b: int)
    ensures (q + 1) * b == q * b + b
    ensures (q - 1) * b == q * b - b
  {
  }

  lemma Monotone(a: int, b: int, c: int)
    requires a <= b && c >= 0
    ensures a * c <= b * c
  {
    assert (b - a) * c >= 0;
  }

  /** The largest number of chunks a batch of `count` items is cut into. */
  function MaxChunks(workers: usize, count: usize): (n: usize)
    requires workers <= IN_MEMORY
    ensures 1 <= n
    ensures count > 0 ==> n <= count
    ensures n as int <= 4 * (if workers == 0 then 1 else workers as int)
    ensures n < count ==> n as int == 4 * (if workers == 0 then 1 else workers as int)
  {
    var w := if workers == 0 then 1 else workers;
    var n := if w * 4 < count then w * 4 else count;
    if n == 0 then 1 else n
  }

  /** The chunk size never exceeds the batch and one chunk fewer would not do. */
  function ChunkSize(workers: usize, count: usize): (size: usize)
    requires workers <= IN_MEMORY && 0 < count
    ensures 0 < size <= count
    ensures count as int <= MaxChunks(workers, count) as int * size as int
    ensures RoundedUp(size as int, MaxChunks(workers, count) as int, count as int)
  {
    var n := MaxChunks(workers, count);
    var size := DivCeil(count, n);
    assert size <= count by {
      Monotone(1, n as int, count as int);
      assert n as int * count as int == count as int * n as int;
      AtMost(size as int, n as int, count as int, count as int);
    }
    size
  }

  /** Where the plan has come to after `idx` chunks. */
  function Reached(idx: int, size: int, count: int): (end: int)
  {
    if idx * size < count then idx * size else count
  }

  /** The first `idx` chunks of the batch, all of the full size but one that reaches the end. */
  ghost predicate FirstChunks(plan: seq<Chunk>, idx: int, size: int, count: int)
  {
    && |plan| == idx
    && (forall k :: 0 <= k < |plan| ==> plan[k].lo < plan[k].hi <= plan[k].lo + size)
    && (forall k :: 0 <= k < |plan| && plan[k].hi < count ==> plan[k].hi == plan[k].lo + size)
    && (forall k :: 0 <= k < |plan| - 1 ==> plan[k].hi == plan[k + 1].lo)
    && (plan != [] ==> plan[0].lo == 0 && plan[|plan| - 1].hi == Reached(idx, size, count))
  }

  lemma NextChunk(plan: seq<Chunk>, idx: nat, size: nat, count: nat)
    requires FirstChunks(plan, idx, size, count) && 0 < size && idx * size < count
    ensures var end := if idx * size + size < count then idx * size + size else count;
      FirstChunks(plan + [Chunk(idx * size, end)], idx + 1, size, count)
  {
    Distribute(idx, size);
  }

  lemma WholePlan(plan: seq<Chunk>, idx: nat, size: nat, count: nat)
    requires FirstChunks(plan, idx, size, count) && count > 0 && count <= idx * size
    ensures EvenTiles(plan, size, count)
  {
    if plan == [] { Monotone(idx, 0, size); }
    assert Tiles(plan, count);
    forall k | 0 <= k < |plan| - 1
      ensures plan[k].hi - plan[k].lo == size
    {
      TilesOrdered(plan, count, k, |plan| - 1);
    }
  }

  /** Tiles of the given size, except that the last may be shorter. */
  ghost predicate EvenTiles(plan: seq<Chunk>, size: int, count: nat)
  {
    && Tiles(plan, count)
    && |plan| >= 1
    && (forall k :: 0 <= k < |plan| ==> plan[k].hi - plan[k].lo <= size)
    && (forall k :: 0 <= k < |plan| - 1 ==> plan[k].hi - plan[k].lo == size)
  }

  /** Start and end of chunk `idx`, computed in 64 bits without overflow: the chunk is empty
      exactly when the batch is over, and otherwise continues the plan. */
  method Bounds(idx: usize, size: usize, count: usize, ghost plan: seq<Chunk>)
    returns (start: usize, end: usize)
    requires 0 < size <= count <= IN_MEMORY
    requires (idx as int - 1) * size as int < count as int
    requires FirstChunks(plan, idx as int, size as int, count as int)
    ensures start >= end <==> count as int <= idx as int * size as int
    ensures start < end ==>
              FirstChunks(plan + [Chunk(start as int, end as int)], idx as int + 1, size as int, count as int)
  {
    Distribute(idx as int, size as int);
    start := idx * size;
    end := if start + size < count then start + size else count;
    if start < end {
      NextChunk(plan, idx as int, size as int, count as int);
    }
  }

  /** Chunks before the last of a counted plan start inside the batch. */
  lemma StartsInside(idx: int, chunks: int, size: int, count: int)
    requires 0 <= idx < chunks && size > 0 && RoundedUp(chunks, size, count)
    ensures idx * size < count && (idx - 1) * size < count
  {
    Monotone(idx, chunks - 1, size);
    Monotone(idx - 1, chunks - 1, size);
  }

  /** `hypertile_batch_spawn`: the number of chunks is computed first. */
  method CutCounted(actualChunks: usize, chunkSize: usize, count: usize) returns (plan: seq<Chunk>)
    requires 0 < chunkSize <= count <= IN_MEMORY
    requires RoundedUp(actualChunks as int, chunkSize as int, count as int)
    ensures EvenTiles(plan, chunkSize as int, count as int) && |plan| == actualChunks as int
  {
    plan := [];
    var chunkIdx: usize := 0;
    while chunkIdx < actualChunks
      invariant 0 <= chunkIdx <= actualChunks
      invariant FirstChunks(plan, chunkIdx as int, chunkSize as int, count as int)
    {
      StartsInside(chunkIdx as int, actualChunks as int, chunkSize as int, count as int);
      var start, end := Bounds(chunkIdx, chunkSize, count, plan);
      plan := plan + [Chunk(start as int, end as int)];
      chunkIdx := chunkIdx + 1;
    }
    WholePlan(plan, chunkIdx as int, chunkSize as int, count as int);
  }

  method CountedPlan(workers: usize, count: usize) returns (plan: seq<Chunk>)
    requires workers <= IN_MEMORY && 0 < count <= IN_MEMORY
    ensures EvenTiles(plan, ChunkSize(workers, count) as int, count as int)
    ensures |plan| <= 4 * (if workers == 0 then 1 else workers as int)
  {
    var numChunks := MaxChunks(workers, count);
    var chunkSize := ChunkSize(workers, count);
    var actualChunks := DivCeil(count, chunkSize);
    AtMost(actualChunks as int, chunkSize as int, count as int, numChunks as int);
    plan := CutCounted(actualChunks, chunkSize, count);
  }

  /** The batch spawners of the Python extension: the loop runs over the largest number of chunks
      and leaves when a chunk would be empty. */
  method CutBreaking(numChunks: usize, chunkSize: usize, total: usize) returns (plan: seq<Chunk>)
    requires 0 < chunkSize <= total <= IN_MEMORY
    requires total as int <= numChunks as int * chunkSize as int
    ensures EvenTiles(plan, chunkSize as int, total as int) && |plan| <= numChunks as int
  {
    plan := [];
    var chunkIdx: usize := 0;
    while chunkIdx < numChunks
      invariant 0 <= chunkIdx <= numChunks
      invariant FirstChunks(plan, chunkIdx as int, chunkSize as int, total as int)
      invariant (chunkIdx as int - 1) * chunkSize as int < total as int
    {
      var start, end := Bounds(chunkIdx, chunkSize, total, plan);
      if start >= end {
        break;
      }
      plan := plan + [Chunk(start as int, end as int)];
      chunkIdx := chunkIdx + 1;
    }
    WholePlan(plan, chunkIdx as int, chunkSize as int, total as int);
  }

  method BreakingPlan(workers: usize, total: usize) returns (plan: seq<Chunk>)
    requires workers <= IN_MEMORY && 0 < total <= IN_MEMORY
    ensures EvenTiles(plan, ChunkSize(workers, total) as int, total as int)
    ensures |plan| <= 4 * (if workers == 0 then 1 else workers as int)
  {
    plan := CutBreaking(MaxChunks(workers, total), ChunkSize(workers, total), total);
  }

  /** Tilings whose chunks all have the same size, except perhaps a shorter last one, are equal:
      the two loops make the same plan. */
  lemma {:induction false} SamePlan(p: seq<Chunk>, q: seq<Chunk>, size: nat, count: nat, k: nat)
    requires EvenTiles(p, size, count) && EvenTiles(q, size, count) && k < |p|
    ensures k < |q| && p[k] == q[k]
    ensures k == |p| - 1 ==> p == q
    decreases k
  {
    if k > 0 {
      SamePlan(p, q, size, count, k - 1);
      TilesInside(p, count, k);
      TilesInside(q, count, k - 1);
    }
    TilesInside(p, count, k);
    TilesInside(q, count, k);
    if k == |p| - 1 {
      forall i | 0 <= i < |p|
        ensures i < |q| && p[i] == q[i]
      {
        if i < k { SamePlan(p, q, size, count, i); }
      }
      if k + 1 < |q| { TilesInside(q, count, k + 1); }
    }
  }

  /** The counted loop and the breaking loop cut a batch into the same chunks. */
  lemma BothLoopsAgree(counted: seq<Chunk>, breaking: seq<Chunk>, size: nat, count: nat)
    requires EvenTiles(counted, size, count) && EvenTiles(breaking, size, count)
    ensures counted == breaking
  {
    SamePlan(counted, breaking, size, count, |counted| - 1);
  }
}
