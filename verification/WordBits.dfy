/** The bits of bytes and 16-bit machine words, one by one. */
module WordBits {

  /** A word with only bit i set; zero beyond the word. */
  function Mask(i: nat): bv16 {
    match i
    case 0 => 0x1 case 1 => 0x2 case 2 => 0x4 case 3 => 0x8
    case 4 => 0x10 case 5 => 0x20 case 6 => 0x40 case 7 => 0x80
    case 8 => 0x100 case 9 => 0x200 case 10 => 0x400 case 11 => 0x800
    case 12 => 0x1000 case 13 => 0x2000 case 14 => 0x4000 case 15 => 0x8000
    case _ => 0
  }

  function BitAt(c: bv16, i: nat): bool {
    c & Mask(i) != 0
  }

  function ByteMask(i: nat): bv8 {
    match i
    case 0 => 0x1 case 1 => 0x2 case 2 => 0x4 case 3 => 0x8
    case 4 => 0x10 case 5 => 0x20 case 6 => 0x40 case 7 => 0x80
    case _ => 0
  }

  function BitOf(b: bv8, i: nat): bool {
    b & ByteMask(i) != 0
  }

  function Join(lo: bv8, hi: bv8): bv16 {
    (lo as bv16) | ((hi as bv16) << 8)
  }

  function LoByte(c: bv16): bv8 {
    (c & 0xFF) as bv8
  }

  function HiByte(c: bv16): bv8 {
    (c >> 8) as bv8
  }

  lemma {:induction false} JoinSplit(c: bv16)
    ensures Join(LoByte(c), HiByte(c)) == c
  {
  }

  predicate OneHot(m: bv16) {
    m & (m - 1) == 0
  }

  lemma {:induction false} MaskOneHot(i: nat)
    ensures OneHot(Mask(i)) && Mask(i + 1) == Mask(i) << 1
    ensures Mask(i) == if i < 8 then ByteMask(i) as bv16 else (ByteMask(i - 8) as bv16) << 8
  {
  }

  lemma {:induction false} MaskDown(c: bv16, m: bv16)
    ensures (c >> 1) & m != 0 <==> c & (m << 1) != 0
  {
  }

  lemma {:induction false} MaskXor(c: bv16, d: bv16, m: bv16)
    requires OneHot(m)
    ensures (c ^ d) & m != 0 <==> (c & m != 0) != (d & m != 0)
  {
    MaskPick(c, m);
    MaskPick(d, m);
    MaskSpread(c, d, m);
  }

  lemma {:induction false} MaskPick(c: bv16, m: bv16)
    requires OneHot(m)
    ensures c & m == 0 || c & m == m
  {
  }

  lemma {:induction false} MaskSpread(c: bv16, d: bv16, m: bv16)
    ensures (c ^ d) & m == (c & m) ^ (d & m)
  {
  }

  lemma {:induction false} BitOfDown(c: bv16, i: nat)
    ensures BitAt(c >> 1, i) == BitAt(c, i + 1)
  {
    MaskOneHot(i);
    MaskDown(c, Mask(i));
  }

  lemma {:induction false} BitOfXor(c: bv16, d: bv16, i: nat)
    ensures BitAt(c ^ d, i) == (BitAt(c, i) != BitAt(d, i))
  {
    MaskOneHot(i);
    MaskXor(c, d, Mask(i));
  }

  lemma {:induction false} JoinMask(lo: bv8, hi: bv8, m: bv8)
    ensures Join(lo, hi) & (m as bv16) != 0 <==> lo & m != 0
    ensures Join(lo, hi) & ((m as bv16) << 8) != 0 <==> hi & m != 0
  {
  }

  lemma {:induction false} BitOfJoin(lo: bv8, hi: bv8, i: nat)
    requires i < 16
    ensures BitAt(Join(lo, hi), i) == if i < 8 then BitOf(lo, i) else BitOf(hi, i - 8)
  {
    MaskOneHot(i);
    JoinMask(lo, hi, ByteMask(if i < 8 then i else i - 8));
  }

  lemma {:induction false} SameByteBits(a: bv8, b: bv8)
    requires forall i :: 0 <= i < 8 ==> BitOf(a, i) == BitOf(b, i)
    ensures a == b
  {
    assert BitOf(a, 0) == BitOf(b, 0) && BitOf(a, 1) == BitOf(b, 1);
    assert BitOf(a, 2) == BitOf(b, 2) && BitOf(a, 3) == BitOf(b, 3);
    assert BitOf(a, 4) == BitOf(b, 4) && BitOf(a, 5) == BitOf(b, 5);
    assert BitOf(a, 6) == BitOf(b, 6) && BitOf(a, 7) == BitOf(b, 7);
  }

  /** A machine word is determined by its bits. */
  lemma {:induction false} SameBits(c: bv16, d: bv16)
    requires forall i :: 0 <= i < 16 ==> BitAt(c, i) == BitAt(d, i)
    ensures c == d
  {
    JoinSplit(c);
    JoinSplit(d);
    forall i | 0 <= i < 8
      ensures BitOf(LoByte(c), i) == BitOf(LoByte(d), i)
      ensures BitOf(HiByte(c), i) == BitOf(HiByte(d), i)
    {
      HalvesAt(c, i);
      HalvesAt(d, i);
      assert BitAt(c, i) == BitAt(d, i) && BitAt(c, i + 8) == BitAt(d, i + 8);
    }
    SameByteBits(LoByte(c), LoByte(d));
    SameByteBits(HiByte(c), HiByte(d));
  }

  lemma {:induction false} HalvesAt(c: bv16, i: nat)
    requires i < 8
    ensures BitAt(c, i) == BitOf(LoByte(c), i) && BitAt(c, i + 8) == BitOf(HiByte(c), i)
  {
    JoinSplit(c);
    BitOfJoin(LoByte(c), HiByte(c), i);
    BitOfJoin(LoByte(c), HiByte(c), i + 8);
  }

  lemma {:induction false} WidenIsJoin(b: bv8)
    ensures b as bv16 == Join(b, 0)
  {
  }

  /** Widening a byte adds zero bits. */
  lemma {:induction false} BitOfWiden(b: bv8, i: nat)
    requires i < 16
    ensures BitAt(b as bv16, i) == (i < 8 && BitOf(b, i))
  {
    WidenIsJoin(b);
    BitOfJoin(b, 0, i);
  }
}
