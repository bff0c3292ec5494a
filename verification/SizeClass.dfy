// Size arithmetic of aset.c: freelist classes, the chunk limit of a context, block growth.
module SizeClass {
  import opened Layout

  const ALLOC_MINBITS := 3
  const NUM_FREELISTS := 11
  const ALLOC_CHUNK_LIMIT := 8192
  const ALLOC_CHUNK_FRACTION := 4

  function ChunkSize(fidx: nat): (r: nat)
    ensures r >= 8 && r % 8 == 0
  {
    8 * Pow2(fidx)
  }

  // pg_leftmost_one_pos32
  function LeftmostOnePos(word: nat): (r: nat)
    requires word > 0
    ensures Pow2(r) <= word < 2 * Pow2(r)
  {
    if word == 1 then 0 else 1 + LeftmostOnePos(word / 2)
  }

  function FreeIndex(size: nat): nat {
    if size > 8 then
      assert LeftmostOnePos(size - 1) >= 3 by { AtLeastPow2(size - 1, 3); }
      LeftmostOnePos(size - 1) - ALLOC_MINBITS + 1
    else 0
  }

  lemma AtLeastPow2(word: nat, k: nat)
    requires word > 0 && Pow2(k) <= word
    ensures LeftmostOnePos(word) >= k
  {
    var r := LeftmostOnePos(word);
    if r < k {
      Pow2Monotone(r, k);
    }
  }

  lemma ChunkSizeMonotone(j: nat, k: nat)
    ensures j <= k ==> ChunkSize(j) <= ChunkSize(k)
    ensures j < k ==> 2 * ChunkSize(j) <= ChunkSize(k)
  {
    if j <= k {
      Pow2Monotone(j, k);
    }
  }

  lemma ChunkSizeValues()
    ensures ChunkSize(0) == 8 && ChunkSize(4) == 128 && ChunkSize(5) == 256 && ChunkSize(6) == 512
            && ChunkSize(7) == 1024
    ensures ChunkSize(8) == 2048 && ChunkSize(9) == 4096 && ChunkSize(10) == ALLOC_CHUNK_LIMIT
  {
    assert Pow2(4) == 16 && Pow2(10) == 1024;
  }

  // AllocSetFreeIndex is the smallest class that holds `size`.
  lemma FreeIndexIsLeast(size: nat)
    ensures size <= ChunkSize(FreeIndex(size))
    ensures forall k: nat :: size <= ChunkSize(k) ==> FreeIndex(size) <= k
    ensures size <= ALLOC_CHUNK_LIMIT ==> FreeIndex(size) < NUM_FREELISTS
  {
    var f := FreeIndex(size);
    if size > 8 {
      AtLeastPow2(size - 1, 3);
      var r := LeftmostOnePos(size - 1);
      Pow2Sum(r - 3, 3);
      assert Pow2(3) == 8;
      assert ChunkSize(f) == 2 * Pow2(r);
      assert f > 0 && ChunkSize(f - 1) == Pow2(r) < size;
    }
    forall k: nat | size <= ChunkSize(k)
      ensures f <= k
    {
      if k < f {
        ChunkSizeMonotone(k, f - 1);
      }
    }
    ChunkSizeValues();
  }

  // A power of two from 128 to 8192.
  predicate ChunkLimitOk(limit: nat) {
    limit == 128 || limit == 256 || limit == 512 || limit == 1024 || limit == 2048 || limit == 4096 || limit == 8192
  }

  lemma LimitClass(limit: nat) returns (j: nat)
    requires ChunkLimitOk(limit)
    ensures 4 <= j < NUM_FREELISTS && limit == ChunkSize(j)
  {
    ChunkSizeValues();
    j := if limit == 128 then 4 else if limit == 256 then 5 else if limit == 512 then 6 else if limit == 1024 then 7
         else if limit == 2048 then 8 else if limit == 4096 then 9 else 10;
  }

  // Four chunks of the limit, with headers, fit into a block of the maximum size.
  predicate LimitFits(limit: nat, maxBlockSize: nat) {
    limit + CHUNK_HDR <= (maxBlockSize - BLOCK_HDR) / ALLOC_CHUNK_FRACTION
  }

  // The largest power of two up to 8192 that does.
  predicate IsChunkLimit(limit: nat, maxBlockSize: nat) {
    && ChunkLimitOk(limit) && LimitFits(limit, maxBlockSize)
    && (limit == ALLOC_CHUNK_LIMIT || !LimitFits(2 * limit, maxBlockSize))
  }

  // Rounding a request up to its class stays within the limit, a power of two in 128..8192.
  lemma ClassWithinLimit(size: nat, limit: nat)
    requires ChunkLimitOk(limit) && size <= limit
    ensures FreeIndex(size) < NUM_FREELISTS
    ensures size <= ChunkSize(FreeIndex(size)) <= limit <= ALLOC_CHUNK_LIMIT
  {
    var j := LimitClass(limit);
    FreeIndexIsLeast(size);
    ChunkSizeMonotone(FreeIndex(size), j);
    ChunkSizeMonotone(j, 10);
    ChunkSizeValues();
  }

  // The halving loop of AllocSetContextCreateInternal: the largest class, at most 8192, of which
  // four chunks with their headers fit into a block of the maximum size.
  method AllocChunkLimit(maxBlockSize: nat) returns (limit: nat)
    requires maxBlockSize >= 1024
    ensures IsChunkLimit(limit, maxBlockSize)
  {
    ghost var j := 10;
    ChunkSizeValues();
    limit := ALLOC_CHUNK_LIMIT;
    while limit + CHUNK_HDR > (maxBlockSize - BLOCK_HDR) / ALLOC_CHUNK_FRACTION
      invariant 4 <= j <= 10 && limit == ChunkSize(j)
      invariant limit == ALLOC_CHUNK_LIMIT || !LimitFits(2 * limit, maxBlockSize)
      decreases j
    {
      assert ChunkSize(j) == 2 * ChunkSize(j - 1);
      if j == 4 {
        assert false;
      }
      limit := limit / 2;
      j := j - 1;
    }
  }

  // ---- growth of blocks

  // `n`, doubled `i` times.
  function Doubled(n: nat, i: nat): nat {
    if i == 0 then n else 2 * Doubled(n, i - 1)
  }

  lemma {:induction false} DoubledSum(n: nat, i: nat, j: nat)
    ensures Doubled(n, i + j) == Doubled(Doubled(n, i), j)
  {
    if j > 0 {
      DoubledSum(n, i, j - 1);
    }
  }

  lemma {:induction false} DoubledMonotone(n: nat, i: nat, j: nat)
    requires i <= j
    ensures Doubled(n, i) <= Doubled(n, j)
  {
    if i < j {
      DoubledMonotone(n, i, j - 1);
    }
  }

  // The size first asked of malloc for a block that must hold `required` bytes.
  function Grown(start: nat, required: nat): (r: nat)
    requires start > 0
    ensures required <= r && (r == start || (start < required && r < 2 * required))
    decreases required - start
  {
    if start >= required then start else Grown(2 * start, required)
  }

  // Some doubling of `start` holds `required` bytes and does not exceed `max`.
  ghost predicate FitsBelow(start: nat, required: nat, max: nat) {
    exists i: nat :: required <= Doubled(start, i) <= max
  }

  // That size is the least doubling of `start` that is large enough.
  lemma {:induction false} GrownIsLeast(start: nat, required: nat)
    requires start > 0
    ensures exists i: nat :: Grown(start, required) == Doubled(start, i)
    ensures forall i: nat | required <= Doubled(start, i) :: Grown(start, required) <= Doubled(start, i)
    decreases required - start
  {
    assert Doubled(start, 0) == start;
    if start < required {
      GrownIsLeast(2 * start, required);
      assert Doubled(start, 1) == 2 * Doubled(start, 0);
      var i: nat :| Grown(2 * start, required) == Doubled(2 * start, i);
      DoubledSum(start, 1, i);
      forall j: nat | required <= Doubled(start, j)
        ensures Grown(start, required) <= Doubled(start, j)
      {
        if j > 0 { DoubledSum(start, 1, j - 1); }
      }
    } else {
      forall j: nat
        ensures start <= Doubled(start, j)
      {
        DoubledMonotone(start, 0, j);
      }
    }
  }

  // The size first asked for stays within a maximum if and only if some doubling does that is large
  // enough.
  lemma GrownFitsIff(start: nat, required: nat, max: nat)
    requires start > 0
    ensures Grown(start, required) <= max <==> FitsBelow(start, required, max)
  {
    GrownIsLeast(start, required);
  }

  // The doubling loop of AllocSetAllocFromNewBlock.
  method GrowBlockSize(start: nat, required: nat) returns (blksize: nat)
    requires start > 0
    ensures blksize == Grown(start, required)
  {
    blksize := start;
    while blksize < required
      invariant 0 < blksize && Grown(blksize, required) == Grown(start, required)
    {
      blksize := 2 * blksize;
    }
  }

  // nextBlockSize is the initial size doubled some number of times, or the maximum.
  ghost predicate IsNextSize(next: nat, init: nat, max: nat) {
    next == max || exists i: nat :: next == Doubled(init, i)
  }

  lemma NextSizeStarts(init: nat, max: nat)
    ensures IsNextSize(init, init, max)
  {
    assert Doubled(init, 0) == init;
  }

  lemma NextSizeDoubles(next: nat, init: nat, max: nat)
    requires IsNextSize(next, init, max) && next <= max
    ensures IsNextSize(Min(2 * next, max), init, max)
  {
    if next != max {
      var i: nat :| next == Doubled(init, i);
      assert Doubled(init, i + 1) == 2 * next;
    }
  }

  // If some doubling of the initial size has room for a chunk of the limit and does not exceed the
  // maximum, no request within the limit ever asks malloc for more than the maximum.
  lemma GrowthStaysBelow(next: nat, init: nat, max: nat, limit: nat, required: nat)
    requires 0 < init && 0 < next <= max && IsNextSize(next, init, max)
    requires required <= limit + BLOCK_HDR + CHUNK_HDR && FitsBelow(init, limit + BLOCK_HDR + CHUNK_HDR, max)
    ensures Grown(next, required) <= max
  {
    var k: nat :| limit + BLOCK_HDR + CHUNK_HDR <= Doubled(init, k) <= max;
    if next < required {
      var i: nat :| next == Doubled(init, i);
      if k <= i {
        DoubledMonotone(init, k, i);
      }
      DoubledSum(init, i, k - i);
      assert required <= Doubled(next, k - i) <= max;
      GrownFitsIff(next, required, max);
    }
  }

  // A chunk limit that goes with the maximum leaves room for such a doubling.
  lemma LimitLeavesRoom(init: nat, max: nat, limit: nat)
    requires 0 < init <= max && 128 <= limit && LimitFits(limit, max)
    ensures FitsBelow(init, limit + BLOCK_HDR + CHUNK_HDR, max)
  {
    GrownFitsIff(init, limit + BLOCK_HDR + CHUNK_HDR, max);
  }

  // Block offsets of a new block fit into 30 bits, and its size into the maximum if that can be.
  lemma NewBlockFits(next: nat, init: nat, max: nat, limit: nat, chunkSize: nat)
    requires 1024 <= init <= next <= max <= 0x3FFF_FFFF && IsNextSize(next, init, max)
    requires chunkSize <= limit <= ALLOC_CHUNK_LIMIT
    ensures Grown(next, chunkSize + BLOCK_HDR + CHUNK_HDR) <= 0x3FFF_FFFF
    ensures FitsBelow(init, limit + BLOCK_HDR + CHUNK_HDR, max) ==>
            Grown(next, chunkSize + BLOCK_HDR + CHUNK_HDR) <= max
  {
    if FitsBelow(init, limit + BLOCK_HDR + CHUNK_HDR, max) {
      GrowthStaysBelow(next, init, max, limit, chunkSize + BLOCK_HDR + CHUNK_HDR);
    }
  }
}
