// memutils_memorychunk.h: one 64-bit header word in front of every payload.
// From the low end: 4 bits of method ID, the external bit, 30 bits of value, 30 bits of block
// offset.  That is 65 bits; the top bit of the value is the bottom bit of the offset.
module MemoryChunk {
  import opened Layout

  const METHODID_ASET := 3
  const METHODID_ALIGNED_REDIRECT := 6
  const METHODID_MASK := 15
  const EXTERNAL_BIT := 16
  const MAX_VALUE := 0x3FFF_FFFF
  const MAX_BLOCKOFFSET := 0x3FFF_FFFF
  const BLOCKOFFSET_MASK := 0x3FFF_FFFE
  const VALUE_SHIFT := 32               // << 5
  const BLOCKOFFSET_SHIFT := 0x4_0000_0000   // << 34
  const MAGIC := 0xB1A8_DB85_8EB6_EFBA / 32 * 32

  // Bitwise operations on unsigned words.
  function BitAnd(a: nat, b: nat): nat {
    if a == 0 || b == 0 then 0
    else (if a % 2 == 1 && b % 2 == 1 then 1 else 0) + 2 * BitAnd(a / 2, b / 2)
  }

  function BitOr(a: nat, b: nat): nat
    decreases a + b
  {
    if a == 0 then b
    else if b == 0 then a
    else (if a % 2 == 1 || b % 2 == 1 then 1 else 0) + 2 * BitOr(a / 2, b / 2)
  }

  function HdrMask(blockoffset: nat, value: nat, methodid: nat): nat
    requires blockoffset <= MAX_BLOCKOFFSET && blockoffset % 2 == 0
    requires value <= MAX_VALUE
    requires methodid <= METHODID_MASK
  {
    BitOr(BitOr(blockoffset * BLOCKOFFSET_SHIFT, value * VALUE_SHIFT), methodid)
  }

  function HdrMaskExternal(methodid: nat): nat
    requires methodid <= METHODID_MASK
  {
    BitOr(BitOr(MAGIC, EXTERNAL_BIT), methodid)
  }

  predicate IsExternal(hdr: nat) {
    BitAnd(hdr, EXTERNAL_BIT) != 0
  }

  function GetValue(hdr: nat): nat {
    BitAnd(hdr / VALUE_SHIFT, MAX_VALUE)
  }

  function GetBlockOffset(hdr: nat): nat {
    BitAnd(hdr / BLOCKOFFSET_SHIFT, BLOCKOFFSET_MASK)
  }

  function GetMethodID(hdr: nat): nat {
    BitAnd(hdr, METHODID_MASK)
  }

  predicate CheckMagic(hdr: nat) {
    MAGIC == hdr / VALUE_SHIFT * VALUE_SHIFT
  }

  lemma {:induction false} OrDisjoint(hi: nat, lo: nat, k: nat)
    requires lo < Pow2(k)
    ensures BitOr(hi * Pow2(k), lo) == hi * Pow2(k) + lo
  {
    if k > 0 && hi != 0 && lo != 0 {
      var m := Pow2(k - 1);
      var a := hi * Pow2(k);
      assert a == 2 * (hi * m);
      assert a != 0 by { assert hi * m >= m by { MulAtLeast(hi, m); } }
      OrDisjoint(hi, lo / 2, k - 1);
    }
  }

  lemma {:induction false} AndLowMask(hi: nat, lo: nat, k: nat)
    requires lo < Pow2(k)
    ensures BitAnd(hi * Pow2(k) + lo, Pow2(k) - 1) == lo
  {
    if k > 0 {
      var m := Pow2(k - 1);
      var a := hi * Pow2(k) + lo;
      assert a == 2 * (hi * m) + lo;
      assert a / 2 == hi * m + lo / 2 && a % 2 == lo % 2;
      AndLowMask(hi, lo / 2, k - 1);
    }
  }

  lemma MulAtLeast(x: nat, m: nat)
    requires x > 0
    ensures x * m >= m
  {
    assert x * m == (x - 1) * m + m;
    assert (x - 1) * m >= 0;
  }

  lemma Pow2Values()
    ensures Pow2(4) == 16 && Pow2(5) == 32
    ensures Pow2(29) == 0x2000_0000 && Pow2(30) == 0x4000_0000
    ensures Pow2(34) == BLOCKOFFSET_SHIFT && Pow2(35) == 2 * BLOCKOFFSET_SHIFT
  {
    assert Pow2(10) == 1024;
    Pow2Sum(10, 10);
    Pow2Sum(20, 9);
    Pow2Sum(29, 5);
    assert Pow2(9) == 512 && Pow2(5) == 32;
  }

  // An even offset makes the shared bit free for the value, so or-ing the fields adds them.
  lemma HdrMaskIsSum(off: nat, value: nat, id: nat)
    requires off <= MAX_BLOCKOFFSET && off % 2 == 0 && value <= MAX_VALUE && id <= METHODID_MASK
    ensures HdrMask(off, value, id) == off * BLOCKOFFSET_SHIFT + value * VALUE_SHIFT + id
    ensures HdrMask(off, value, id) < SIZE_LIMIT
  {
    hide BitOr;
    Pow2Values();
    OrDisjoint(off / 2, value * VALUE_SHIFT, 35);
    var hi := off * 0x4000_0000 + value * 2;
    assert off * BLOCKOFFSET_SHIFT == off / 2 * Pow2(35)
        && hi * Pow2(4) == off * BLOCKOFFSET_SHIFT + value * VALUE_SHIFT;
    OrDisjoint(hi, id, 4);
  }

  lemma ExternalBitOf(hdr: nat)
    ensures IsExternal(hdr) <==> hdr / 16 % 2 == 1
  {
    var h1, h2, h3, h4 := hdr / 2, hdr / 4, hdr / 8, hdr / 16;
    assert BitAnd(h4, 1) == h4 % 2;
    assert BitAnd(h3, 2) == 2 * BitAnd(h4, 1);
    assert BitAnd(h2, 4) == 2 * BitAnd(h3, 2);
    assert BitAnd(h1, 8) == 2 * BitAnd(h2, 4);
    assert BitAnd(hdr, 16) == 2 * BitAnd(h1, 8);
  }

  lemma BlockOffsetOf(x: nat)
    requires x < 0x4000_0000
    ensures BitAnd(x, BLOCKOFFSET_MASK) == x / 2 * 2
  {
    Pow2Values();
    AndLowMask(0, x / 2, 29);
    assert BitAnd(x, BLOCKOFFSET_MASK) == 2 * BitAnd(x / 2, 0x1FFF_FFFF);
  }

  // Every field comes back although the fields need 65 bits.
  lemma HdrMaskRoundTrip(off: nat, value: nat, id: nat)
    requires off <= MAX_BLOCKOFFSET && off % 2 == 0 && value <= MAX_VALUE && id <= METHODID_MASK
    ensures !IsExternal(HdrMask(off, value, id))
    ensures GetBlockOffset(HdrMask(off, value, id)) == off
    ensures GetValue(HdrMask(off, value, id)) == value
    ensures GetMethodID(HdrMask(off, value, id)) == id
  {
    hide IsExternal, BitAnd, HdrMask;
    var hdr := HdrMask(off, value, id);
    HdrMaskIsSum(off, value, id);
    Pow2Values();
    ExternalBitOf(hdr);
    assert hdr / BLOCKOFFSET_SHIFT / 2 * 2 == off;
    BlockOffsetOf(hdr / BLOCKOFFSET_SHIFT);
    assert hdr / VALUE_SHIFT == off / 2 * Pow2(30) + value;
    AndLowMask(off / 2, value, 30);
    assert hdr == (off * 0x4000_0000 + value * 2) * Pow2(4) + id;
    AndLowMask(off * 0x4000_0000 + value * 2, id, 4);
  }

  lemma HdrMaskExternalRoundTrip(id: nat)
    requires id <= METHODID_MASK
    ensures HdrMaskExternal(id) < SIZE_LIMIT
    ensures IsExternal(HdrMaskExternal(id))
    ensures CheckMagic(HdrMaskExternal(id))
    ensures GetMethodID(HdrMaskExternal(id)) == id
  {
    hide IsExternal, BitAnd, BitOr;
    Pow2Values();
    var hi := MAGIC / 32;
    OrDisjoint(hi, EXTERNAL_BIT, 5);
    OrDisjoint(2 * hi + 1, id, 4);
    var hdr := HdrMaskExternal(id);
    assert hdr == MAGIC + EXTERNAL_BIT + id;
    ExternalBitOf(hdr);
    AndLowMask(2 * hi + 1, id, 4);
  }
}
