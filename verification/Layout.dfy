// Sizes and alignment of the default LP64 build.
module Layout {
  type Addr = int
  const NULL: Addr := 0

  const MAXALIGNOF := 8
  const CHUNK_HDR := 8      // sizeof(MemoryChunk)
  const BLOCK_HDR := 40     // MAXALIGN(sizeof(AllocBlockData))
  const SET_HDR := 200      // MAXALIGN(sizeof(AllocSetContext))

  const MAX_ALLOC_SIZE := 0x3FFF_FFFF
  const SIZE_LIMIT := 0x1_0000_0000_0000_0000   // one past the largest Size
  const MAX_HUGE_SIZE := 0x7FFF_FFFF_FFFF_FFFF

  function Max(x: int, y: int): int {
    if x > y then x else y
  }

  function Min(x: int, y: int): int {
    if x < y then x else y
  }

  function Pow2(k: nat): (r: nat)
    ensures r > 0
  {
    if k == 0 then 1 else 2 * Pow2(k - 1)
  }

  lemma {:induction false} Pow2Monotone(j: nat, k: nat)
    requires j <= k
    ensures Pow2(j) <= Pow2(k)
    ensures j < k ==> 2 * Pow2(j) <= Pow2(k)
  {
    if j < k {
      Pow2Monotone(j, k - 1);
    }
  }

  lemma {:induction false} Pow2Sum(j: nat, k: nat)
    ensures Pow2(j + k) == Pow2(j) * Pow2(k)
  {
    if j > 0 {
      Pow2Sum(j - 1, k);
      assert Pow2(j + k) == 2 * Pow2(j - 1 + k);
      assert 2 * (Pow2(j - 1) * Pow2(k)) == 2 * Pow2(j - 1) * Pow2(k);
    }
  }

  // TYPEALIGN: the first multiple of `a` that is not below `len`.
  function TypeAlign(a: nat, len: nat): nat
    requires a > 0
  {
    (len + a - 1) / a * a
  }

  lemma TypeAlignLeast(a: nat, len: nat)
    requires a > 0
    ensures len <= TypeAlign(a, len) < len + a
    ensures exists q: nat :: TypeAlign(a, len) == q * a
  {
    var q := (len + a - 1) / a;
    assert len + a - 1 == q * a + (len + a - 1) % a;
  }

  function MaxAlign(len: nat): (r: nat)
    ensures r % 8 == 0 && len <= r < len + 8
  {
    (len + 7) / 8 * 8
  }
}
