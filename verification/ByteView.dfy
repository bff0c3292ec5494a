// Words as eight bytes each, lowest first: what a copy or a clear of `n` bytes leaves to be read.
module ByteView {
  import opened Layout
  import opened MemoryChunk
  import opened HeapState
  import opened Frames
  import opened AsetFacts

  function ByteOf(word: int, j: nat): int {
    word / Pow2(8 * j) % 256
  }

  // Byte `k` of the words `c`, counted from byte `start` on.
  function Byte(c: seq<int>, start: nat, k: nat): int
    requires start + k < 8 * |c|
  {
    ByteOf(c[(start + k) / 8], (start + k) % 8)
  }

  // Byte `k` from the word address `a` on.
  function ByteFrom(cells: map<Addr, int>, a: Addr, k: nat): int {
    ByteOf(At(cells, a + k / 8 * 8), k % 8)
  }

  lemma ModOfSum(x: int, q: int, m: int, p: int, k: int)
    requires p > 0 && k > 0 && m == 256 * (p * k)
    ensures (x + q * m) / p % 256 == x / p % 256
  {
    Regroup(p, k, q);
    DivOfSum(x, 256 * (k * q), p);
    ModAdd(x / p, k * q);
  }

  lemma Regroup(p: int, k: int, q: int)
    ensures q * (256 * (p * k)) == p * (256 * (k * q))
  {
    assert q * (256 * (p * k)) == 256 * (q * (p * k));
    assert q * (p * k) == p * (k * q);
    assert p * (256 * (k * q)) == 256 * (p * (k * q));
  }

  lemma DivOfSum(x: int, d: int, p: int)
    requires p > 0
    ensures (x + p * d) / p == x / p + d
  {
    var q, r := x / p, x % p;
    assert x == p * q + r;
    assert p * (q + d) == p * q + p * d;
    DivIs(x + p * d, q + d, r, p);
  }

  lemma DivIs(x: int, q: int, r: int, p: int)
    requires p > 0 && 0 <= r < p && x == p * q + r
    ensures x / p == q
  {
    var q', r' := x / p, x % p;
    assert x == p * q' + r';
    assert p * (q - q') == p * q - p * q';
    SmallMultiple(p, q - q');
  }

  lemma SmallMultiple(p: int, e: int)
    requires p > 0 && -p < p * e < p
    ensures e == 0
  {
    if e > 0 {
      MulAtLeast(e, p);
    }
  }

  lemma ModAdd(x: int, d: int)
    ensures (x + 256 * d) % 256 == x % 256
  {
  }

  lemma Pow2Parts(a: nat, b: nat, n: nat)
    requires n == a + b + 8
    ensures Pow2(n) == 256 * (Pow2(a) * Pow2(b))
  {
    Pow2Sum(a, b);
    Pow2Plus8(a + b);
  }

  lemma Pow2Plus8(n: nat)
    ensures Pow2(n + 8) == 256 * Pow2(n)
  {
    assert Pow2(n + 2) == 4 * Pow2(n);
    assert Pow2(n + 4) == 16 * Pow2(n);
    assert Pow2(n + 6) == 64 * Pow2(n);
  }

  // Below `r` the bytes are those of the source.
  lemma MergedBytes(dst: int, src: int, r: nat, j: nat)
    requires j < r <= 8
    ensures ByteOf(MergeWord(dst, src, r), j) == ByteOf(src, j)
  {
    Pow2Parts(8 * j, 8 * (r - j - 1), 8 * r);
    LowByte(dst, src, Pow2(8 * r), Pow2(8 * j), Pow2(8 * (r - j - 1)));
  }

  lemma LowByte(dst: int, src: int, m: int, p: int, k: int)
    requires p > 0 && k > 0 && m == 256 * (p * k) && m > 0
    ensures (src % m + dst / m * m) / p % 256 == src / p % 256
  {
    ModOfSum(src % m, dst / m, m, p, k);
    ModOfSum(src % m, src / m, m, p, k);
    assert src == src % m + src / m * m;
  }

  // From `r` on they are those that were there.
  lemma UnmergedBytes(dst: int, src: int, r: nat, j: nat)
    requires r <= j
    ensures ByteOf(MergeWord(dst, src, r), j) == ByteOf(dst, j)
  {
    Pow2Sum(8 * r, 8 * (j - r));
    HighPart(dst, src, Pow2(8 * r), Pow2(8 * (j - r)));
  }

  lemma HighPart(dst: int, src: int, m: int, p: int)
    requires m > 0 && p > 0 && m * p > 0
    ensures (src % m + dst / m * m) / (m * p) == dst / (m * p)
  {
    DivOfDiv(src % m + dst / m * m, m, p);
    DivOfDiv(dst, m, p);
    DivIs(src % m + dst / m * m, dst / m, src % m, m);
  }

  lemma DivOfDiv(x: int, m: int, p: int)
    requires m > 0 && p > 0 && m * p > 0
    ensures x / (m * p) == x / m / p
  {
    var y := x / m;
    var q, r, s := y / p, y % p, x % m;
    assert x == m * y + s && y == p * q + r;
    Spread(m, p, q, r, s);
    BelowProduct(m, p, r, s);
    DivIs(x, q, m * r + s, m * p);
  }

  lemma Spread(m: int, p: int, q: int, r: int, s: int)
    ensures m * (p * q + r) + s == m * p * q + (m * r + s)
  {
  }

  lemma BelowProduct(m: int, p: int, r: int, s: int)
    requires m > 0 && 0 <= r < p && 0 <= s < m
    ensures 0 <= m * r + s < m * p
  {
    assert m * p == m * r + m * (p - r);
    MulAtLeast(p - r, m);
    if r > 0 { MulAtLeast(r, m); }
  }

  // memcpy: the first `n` bytes are those of the source, and what follows is as it was, also in the
  // word where the copy ends.
  lemma CopiedByte(cells: map<Addr, int>, dst: Addr, src: Addr, n: nat, k: nat)
    ensures ByteFrom(CopyBytes(cells, dst, src, n), dst, k)
            == if k < n then ByteFrom(cells, src, k) else ByteFrom(cells, dst, k)
  {
    hide MergeWord, ByteOf;
    var x := dst + k / 8 * 8;
    assert (x - dst) % 8 == 0;
    if x - dst < n < x - dst + 8 {
      if k < n {
        MergedBytes(At(cells, x), At(cells, src + (x - dst)), n % 8, k % 8);
      } else {
        UnmergedBytes(At(cells, x), At(cells, src + (x - dst)), n % 8, k % 8);
      }
    }
  }

  // memset to zero
  function ZeroBytes(cells: map<Addr, int>, a: Addr, n: nat): map<Addr, int> {
    cells + map x | a <= x < a + n && (x - a) % 8 == 0 :: if x - a + 8 <= n then 0
        else MergeWord(At(cells, x), 0, n % 8)
  }

  lemma ZeroBytesFrame(cells: map<Addr, int>, a: Addr, n: nat)
    ensures CellsOutside(cells, ZeroBytes(cells, a, n), a, n)
  {
    hide MergeWord;
  }

  lemma ZeroHasZeroBytes(j: nat)
    ensures ByteOf(0, j) == 0
  {
    DivIs(0, 0, 0, Pow2(8 * j));
  }

  lemma ZeroedByte(cells: map<Addr, int>, a: Addr, n: nat, k: nat)
    ensures ByteFrom(ZeroBytes(cells, a, n), a, k) == if k < n then 0 else ByteFrom(cells, a, k)
  {
    hide MergeWord, ByteOf;
    var x := a + k / 8 * 8;
    assert (x - a) % 8 == 0;
    ZeroHasZeroBytes(k % 8);
    if x - a < n < x - a + 8 {
      if k < n {
        MergedBytes(At(cells, x), 0, n % 8, k % 8);
      } else {
        UnmergedBytes(At(cells, x), 0, n % 8, k % 8);
      }
    }
  }

  // A byte inside a payload, read from the words a client sees.
  lemma ByteInside(cells: map<Addr, int>, p: Addr, words: nat, a: Addr, k: nat)
    requires p <= a && (a - p) % 8 == 0 && a - p + k < 8 * words
    ensures Byte(Contents(cells, p, words), a - p, k) == ByteFrom(cells, a, k)
  {
    var i := (a - p) / 8;
    assert a - p == 8 * i;
    assert (a - p + k) / 8 == i + k / 8 && (a - p + k) % 8 == k % 8;
  }
}
