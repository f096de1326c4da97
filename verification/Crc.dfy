/** CRC-16/MODBUS, and the errors it is certain to detect (MODBUS over Serial Line
    V1.02, section 6.2.2). The reference definition is the shift register fed with
    the message one bit at a time; the Go function works byte by byte. */
module Crc {
  import opened Registers
  import opened WordBits

  const WIDTH := 16

  /** Register contents, lowest bit first. */
  type Word = w: seq<bool> | |w| == WIDTH witness seq(WIDTH, _ => false)

  const ZERO: Word := [false, false, false, false, false, false, false, false,
                       false, false, false, false, false, false, false, false]

  const ONES: Word := [true, true, true, true, true, true, true, true,
                       true, true, true, true, true, true, true, true]

  /** 0xA001. */
  const POLY: Word := [true, false, false, false, false, false, false, false,
                       false, false, false, false, false, true, false, true]

  function Xor(u: Word, v: Word): Word {
    seq(WIDTH, i requires 0 <= i < WIDTH => u[i] != v[i])
  }

  /** One turn: move down, and add the polynomial if a one falls out. */
  function Turn(w: Word): Word {
    seq(WIDTH, i requires 0 <= i < WIDTH => (if i + 1 < WIDTH then w[i + 1] else false) != (w[0] && POLY[i]))
  }

  /** Feeding one message bit. */
  function Step(w: Word, b: bool): Word {
    Turn(w[0 := w[0] != b])
  }

  function Run(w: Word, bits: seq<bool>): Word {
    if bits == [] then w else Step(Run(w, bits[..|bits| - 1]), bits[|bits| - 1])
  }

  function Turns(w: Word, n: nat): Word {
    if n == 0 then w else Turn(Turns(w, n - 1))
  }

  function BitsOf(b: byte): (bits: seq<bool>)
    ensures |bits| == 8
  {
    seq(8, i requires 0 <= i < 8 => BitOf(b, i))
  }

  /** A message as bits in the order of transmission. */
  function Bits(data: seq<byte>): (bits: seq<bool>)
    ensures |bits| == 8 * |data|
  {
    if data == [] then [] else Bits(data[..|data| - 1]) + BitsOf(data[|data| - 1])
  }

  /** The reference definition. */
  function Crc16(data: seq<byte>): Word {
    Run(ONES, Bits(data))
  }

  // ---- error detection ----

  lemma {:induction false} TurnInjective(u: Word, v: Word)
    requires Turn(u) == Turn(v)
    ensures u == v
  {
    assert Turn(u)[WIDTH - 1] == Turn(v)[WIDTH - 1];
    forall i | 0 <= i < WIDTH
      ensures u[i] == v[i]
    {
      if i > 0 {
        assert Turn(u)[i - 1] == Turn(v)[i - 1];
      }
    }
  }

  lemma {:induction false} StepInjective(u: Word, v: Word, b: bool)
    requires Step(u, b) == Step(v, b)
    ensures u == v
  {
    TurnInjective(u[0 := u[0] != b], v[0 := v[0] != b]);
    forall i | 0 <= i < WIDTH
      ensures u[i] == v[i]
    {
      assert u[0 := u[0] != b][i] == v[0 := v[0] != b][i];
    }
  }

  lemma {:induction false} RunConcat(w: Word, a: seq<bool>, b: seq<bool>)
    ensures Run(w, a + b) == Run(Run(w, a), b)
  {
    if b == [] {
      assert a + b == a;
    } else {
      RunConcat(w, a, b[..|b| - 1]);
      assert (a + b)[..|a + b| - 1] == a + b[..|b| - 1];
    }
  }

  /** Different registers stay different over a common tail. */
  lemma {:induction false} TailInjective(u: Word, v: Word, tail: seq<bool>)
    requires Run(u, tail) == Run(v, tail)
    ensures u == v
  {
    if tail != [] {
      var n := |tail| - 1;
      StepInjective(Run(u, tail[..n]), Run(v, tail[..n]), tail[n]);
      TailInjective(u, v, tail[..n]);
    }
  }

  /** Registers that agree above their lowest j bits. */
  predicate Close(j: nat, u: Word, v: Word) {
    forall i :: j <= i < WIDTH ==> u[i] == v[i]
  }

  lemma {:induction false} BackStep(j: nat, u: Word, v: Word, a: bool, b: bool)
    requires j < WIDTH && Close(j, Step(u, a), Step(v, b))
    ensures Close(j + 1, u, v)
    ensures u == v ==> a == b
  {
    assert Step(u, a)[WIDTH - 1] == Step(v, b)[WIDTH - 1];
    forall i | j + 1 <= i < WIDTH
      ensures u[i] == v[i]
    {
      assert Step(u, a)[i - 1] == Step(v, b)[i - 1];
    }
  }

  /** Up to sixteen bits fed to the same register can be read back from the result. */
  lemma {:induction false} WindowInjective(s: Word, t: Word, v: seq<bool>, w: seq<bool>, j: nat)
    requires |v| == |w| && j + |v| <= WIDTH && Close(j, Run(s, v), Run(t, w))
    ensures Close(j + |v|, s, t)
    ensures s == t ==> v == w
  {
    if v != [] {
      var n := |v| - 1;
      BackStep(j, Run(s, v[..n]), Run(t, w[..n]), v[n], w[n]);
      WindowInjective(s, t, v[..n], w[..n], j + 1);
      assert v == v[..n] + [v[n]] && w == w[..n] + [w[n]];
    }
  }

  /** Two bit strings that differ, but only within sixteen consecutive bits. */
  ghost predicate Burst(a: seq<bool>, b: seq<bool>) {
    && a != b && |a| == |b|
    && exists k :: 0 <= k <= |a| && AgreeOutside(a, b, k)
  }

  ghost predicate AgreeOutside(a: seq<bool>, b: seq<bool>, k: nat)
    requires |a| == |b|
  {
    forall i :: 0 <= i < |a| && !(k <= i < k + WIDTH) ==> a[i] == b[i]
  }

  lemma {:induction false} SplitWindow(a: seq<bool>, b: seq<bool>)
      returns (head: seq<bool>, v: seq<bool>, w: seq<bool>, tail: seq<bool>)
    requires Burst(a, b)
    ensures a == head + (v + tail) && b == head + (w + tail) && |v| == |w| <= WIDTH && v != w
  {
    var k :| 0 <= k <= |a| && AgreeOutside(a, b, k);
    var e := if k + WIDTH <= |a| then k + WIDTH else |a|;
    head, v, w, tail := a[..k], a[k..e], b[k..e], a[e..];
    assert a == head + (v + tail);
    assert forall i :: 0 <= i < |a| ==> (head + (w + tail))[i] == b[i];
  }

  lemma {:induction false} BurstChanges(s: Word, a: seq<bool>, b: seq<bool>)
    requires Burst(a, b)
    ensures Run(s, a) != Run(s, b)
  {
    var head, v, w, tail := SplitWindow(a, b);
    RunConcat(s, head, v + tail);
    RunConcat(s, head, w + tail);
    var m := Run(s, head);
    RunConcat(m, v, tail);
    RunConcat(m, w, tail);
    if Run(s, a) == Run(s, b) {
      TailInjective(Run(m, v), Run(m, w), tail);
      WindowInjective(m, m, v, w, 0);
    }
  }

  /** Any burst of at most sixteen bits changes the CRC, wherever it starts. */
  lemma {:induction false} BurstDetected(x: seq<byte>, y: seq<byte>)
    requires Burst(Bits(x), Bits(y))
    ensures Crc16(x) != Crc16(y)
  {
    BurstChanges(ONES, Bits(x), Bits(y));
  }

  lemma {:induction false} BitsConcat(a: seq<byte>, b: seq<byte>)
    ensures Bits(a + b) == Bits(a) + Bits(b)
  {
    if b == [] {
      assert a + b == a;
    } else {
      BitsConcat(a, b[..|b| - 1]);
      assert (a + b)[..|a + b| - 1] == a + b[..|b| - 1];
    }
  }

  lemma {:induction false} BitsOfInjective(a: byte, b: byte)
    requires BitsOf(a) == BitsOf(b)
    ensures a == b
  {
    forall i | 0 <= i < 8
      ensures BitOf(a, i) == BitOf(b, i)
    {
      assert BitsOf(a)[i] == BitsOf(b)[i];
    }
    SameByteBits(a, b);
  }

  lemma {:induction false} BitsInjective(x: seq<byte>, y: seq<byte>)
    requires |x| == |y| && x != y
    ensures Bits(x) != Bits(y)
  {
    var n := |x| - 1;
    assert x == x[..n] + [x[n]] && y == y[..n] + [y[n]];
    if Bits(x) == Bits(y) {
      assert Bits(x)[..8 * n] == Bits(x[..n]) && Bits(y)[..8 * n] == Bits(y[..n]);
      assert Bits(x)[8 * n..] == BitsOf(x[n]) && Bits(y)[8 * n..] == BitsOf(y[n]);
      BitsOfInjective(x[n], y[n]);
      if x[..n] != y[..n] {
        BitsInjective(x[..n], y[..n]);
      }
    }
  }

  /** In particular, corrupting one byte or two adjacent bytes is such a burst. */
  lemma {:induction false} TwoBytesAreABurst(head: seq<byte>, v: seq<byte>, w: seq<byte>, tail: seq<byte>)
    requires |v| == |w| <= 2 && v != w
    ensures Burst(Bits(head + v + tail), Bits(head + w + tail))
  {
    var x, y, k := head + v + tail, head + w + tail, 8 * |head|;
    assert x[|head|..|head| + |v|] == v && y[|head|..|head| + |v|] == w;
    BitsInjective(x, y);
    BitsConcat(head + v, tail);
    BitsConcat(head, v);
    BitsConcat(head + w, tail);
    BitsConcat(head, w);
    assert AgreeOutside(Bits(x), Bits(y), k);
  }

  // ---- odd numbers of flipped bits ----

  function Odd(bits: seq<bool>): bool {
    if bits == [] then false else Odd(bits[..|bits| - 1]) != bits[|bits| - 1]
  }

  lemma {:induction false} OddXor(u: seq<bool>, v: seq<bool>, w: seq<bool>)
    requires |u| == |v| == |w| && forall i :: 0 <= i < |u| ==> w[i] == (u[i] != v[i])
    ensures Odd(w) == (Odd(u) != Odd(v))
  {
    if u != [] {
      var n := |u| - 1;
      OddXor(u[..n], v[..n], w[..n]);
    }
  }

  lemma {:induction false} OddTail(u: seq<bool>)
    requires u != []
    ensures Odd(u) == (Odd(u[1..]) != u[0])
  {
    if |u| > 1 {
      OddTail(u[..|u| - 1]);
      assert u[..|u| - 1][1..] == u[1..][..|u| - 2];
    } else {
      assert u[1..] == [];
    }
  }

  lemma {:induction false} OddPoly()
    ensures Odd(POLY) && !Odd(ZERO) && !Odd(ONES)
  {
    OddPairs(ZERO, 16);
    OddPairs(ONES, 16);
    assert POLY[..13] == [true] + ZERO[..12];
    OddPairs(ZERO, 12);
    OddTail(POLY[..13]);
    assert POLY[..13][1..] == ZERO[..12];
    assert POLY[..14][..13] == POLY[..13] && POLY[..15][..14] == POLY[..14] && POLY[..16][..15] == POLY[..15];
    assert POLY[..16] == POLY;
  }

  lemma {:induction false} OddPairs(w: Word, n: nat)
    requires n <= WIDTH && n % 2 == 0 && forall i, j :: 0 <= i < j < WIDTH ==> w[i] == w[j]
    ensures !Odd(w[..n])
    ensures n == WIDTH ==> !Odd(w)
  {
    if n > 0 {
      OddPairs(w, n - 2);
      assert w[..n][..n - 1] == w[..n - 1] && w[..n - 1][..n - 2] == w[..n - 2];
    }
    assert w[..WIDTH] == w;
  }

  /** A turn keeps the parity of the register: the polynomial has three ones, and
      one of them makes up for the bit that fell out. */
  lemma {:induction false} TurnParity(w: Word)
    ensures Odd(Turn(w)) == Odd(w)
  {
    var moved := w[1..] + [false];
    var added := if w[0] then POLY else ZERO;
    OddXor(moved, added, Turn(w));
    OddTail(w);
    assert moved[..WIDTH - 1] == w[1..];
    OddPoly();
  }

  lemma {:induction false} StepParity(w: Word, b: bool)
    ensures Odd(Step(w, b)) == (Odd(w) != b)
  {
    var fed := w[0 := w[0] != b];
    TurnParity(fed);
    OddTail(w);
    OddTail(fed);
    assert fed[1..] == w[1..];
  }

  lemma {:induction false} RunParity(w: Word, bits: seq<bool>)
    ensures Odd(Run(w, bits)) == (Odd(w) != Odd(bits))
  {
    if bits != [] {
      var n := |bits| - 1;
      RunParity(w, bits[..n]);
      StepParity(Run(w, bits[..n]), bits[n]);
    }
  }

  /** An odd number of flipped bits changes the CRC, wherever they are. */
  lemma {:induction false} OddFlipsDetected(x: seq<byte>, y: seq<byte>)
    requires Odd(Bits(x)) != Odd(Bits(y))
    ensures Crc16(x) != Crc16(y)
  {
    RunParity(ONES, Bits(x));
    RunParity(ONES, Bits(y));
  }

  // ---- the residue ----

  lemma {:induction false} XorZero(s: Word, w: Word)
    ensures Xor(s, w) == ZERO <==> s == w
  {
    if Xor(s, w) == ZERO {
      forall i | 0 <= i < WIDTH
        ensures s[i] == w[i]
      {
        assert Xor(s, w)[i] == ZERO[i];
      }
    }
  }

  lemma {:induction false} XorNothing(w: Word)
    ensures Xor(w, ZERO) == w
  {
    assert forall i :: 0 <= i < WIDTH ==> Xor(w, ZERO)[i] == w[i];
  }

  lemma {:induction false} TurnsToZero(u: Word, n: nat)
    ensures Turns(u, n) == ZERO <==> u == ZERO
  {
    if n > 0 {
      TurnsToZero(u, n - 1);
      assert Turn(ZERO) == ZERO;
      if Turn(Turns(u, n - 1)) == ZERO {
        TurnInjective(Turns(u, n - 1), ZERO);
      }
    }
  }

  /** A word fed to a register leaves it zero exactly when it is the register. */
  lemma {:induction false} FeedSelf(s: Word, w: Word)
    ensures Run(s, w) == ZERO <==> s == w
  {
    RunIterate(s, w, WIDTH);
    assert w[..WIDTH] == w;
    assert Pending(w, WIDTH) == ZERO;
    XorNothing(Run(s, w));
    TurnsToZero(Xor(s, w), WIDTH);
    XorZero(s, w);
  }

  /** The bits of a word not yet fed after k turns. */
  function Pending(w: Word, k: nat): Word {
    seq(WIDTH, i requires 0 <= i < WIDTH => if i + k < WIDTH then w[i + k] else false)
  }

  lemma {:induction false} TurnPending(x: Word, w: Word, k: nat)
    requires k < WIDTH
    ensures Turn(Xor(x, Pending(w, k))) == Xor(Step(x, w[k]), Pending(w, k + 1))
  {
  }

  /** Adding a whole word and turning is feeding the word's bits one by one. */
  lemma {:induction false} RunIterate(s: Word, w: Word, k: nat)
    requires k <= WIDTH
    ensures Turns(Xor(s, w), k) == Xor(Run(s, w[..k]), Pending(w, k))
  {
    if k == 0 {
      assert Pending(w, 0) == w;
    } else {
      RunIterate(s, w, k - 1);
      assert w[..k][..k - 1] == w[..k - 1];
      TurnPending(Run(s, w[..k - 1]), w, k - 1);
    }
  }

  /** A message followed by two bytes has CRC zero exactly when those bytes are the
      message's own CRC, low byte first. */
  lemma {:induction false} Residue(data: seq<byte>, lo: byte, hi: byte)
    ensures Crc16(data + [lo, hi]) == ZERO <==> BitsOf(lo) + BitsOf(hi) == Crc16(data)
  {
    var f := data + [lo, hi];
    assert f[..|f| - 1] == data + [lo];
    assert (data + [lo])[..|data|] == data;
    assert Bits(f) == Bits(data) + BitsOf(lo) + BitsOf(hi);
    assert Bits(f) == Bits(data) + (BitsOf(lo) + BitsOf(hi));
    RunConcat(ONES, Bits(data), BitsOf(lo) + BitsOf(hi));
    FeedSelf(Crc16(data), BitsOf(lo) + BitsOf(hi));
  }

  // ---- the Go function ----

  /** A 16-bit machine word as register contents. */
  function ToWord(c: bv16): Word {
    seq(WIDTH, i requires 0 <= i < WIDTH => BitAt(c, i))
  }

  // ---- one bit of the CRC of three bytes ----

  lemma {:induction false} StepAt(w: Word, b: bool, i: nat)
    requires i < WIDTH
    ensures Step(w, b)[i] == ((if i + 1 < WIDTH then w[i + 1] else false) != ((w[0] != b) && POLY[i]))
  {
  }

  lemma {:induction false} RunStep(w: Word, bits: seq<bool>, k: nat)
    requires k < |bits|
    ensures Run(w, bits[..k + 1]) == Step(Run(w, bits[..k]), bits[k])
  {
    assert bits[..k + 1][..k] == bits[..k];
  }

  /** Below the polynomial's second highest bit, bits only move down. */
  lemma {:induction false} OnlyMoves(w: Word, bits: seq<bool>, k: nat, n: nat, i: nat)
    requires k + n <= |bits| && 1 <= i && i + n <= 13
    ensures Run(w, bits[..k + n])[i] == Run(w, bits[..k])[i + n]
  {
    if n > 0 {
      OneMove(w, bits, k + n - 1, i);
      OnlyMoves(w, bits, k, n - 1, i + 1);
    }
  }

  lemma {:induction false} OneMove(w: Word, bits: seq<bool>, k: nat, i: nat)
    requires k < |bits| && 1 <= i <= 12
    ensures Run(w, bits[..k + 1])[i] == Run(w, bits[..k])[i + 1]
  {
    RunStep(w, bits, k);
    StepAt(Run(w, bits[..k]), bits[k], i);
  }

  /** The feedback of the turn for bit k. */
  function Feedback(w: Word, bits: seq<bool>, k: nat): bool
    requires k < |bits|
  {
    Run(w, bits[..k])[0] != bits[k]
  }

  lemma {:induction false} FeedbackNext(w: Word, bits: seq<bool>, k: nat)
    requires k + 1 < |bits| && k <= 12
    ensures Feedback(w, bits, k + 1) == ((w[k + 1] != Feedback(w, bits, k)) != bits[k + 1])
  {
    RunStep(w, bits, k);
    StepAt(Run(w, bits[..k]), bits[k], 0);
    OnlyMoves(w, bits, 0, k, 1);
  }

  lemma {:induction false} TurnAt(w: Word, bits: seq<bool>, k: nat, i: nat)
    requires k < |bits| && i < WIDTH
    ensures Run(w, bits[..k + 1])[i] ==
            ((if i + 1 < WIDTH then Run(w, bits[..k])[i + 1] else false) != (Feedback(w, bits, k) && POLY[i]))
  {
    RunStep(w, bits, k);
    StepAt(Run(w, bits[..k]), bits[k], i);
  }

  lemma {:induction false} MeetsFeedback(w: Word, bits: seq<bool>)
    requires |bits| == 8
    ensures Run(w, bits[..4])[13] == (Feedback(w, bits, 1) != Feedback(w, bits, 3))
  {
    TurnAt(w, bits, 3, 13);
    TurnAt(w, bits, 2, 14);
    TurnAt(w, bits, 1, 15);
  }

  /** Bit 9 after a byte entered at the top in turn 1 and met the feedback of turn 3. */
  lemma {:induction false} NinthBit(w: Word, bits: seq<bool>)
    requires |bits| == 8
    ensures Run(w, bits)[9] == ((w[2] != bits[2]) != (w[3] != bits[3]))
  {
    assert bits[..4 + 4] == bits;
    OnlyMoves(w, bits, 4, 4, 9);
    MeetsFeedback(w, bits);
    FeedbackNext(w, bits, 1);
    FeedbackNext(w, bits, 2);
  }

  lemma {:induction false} ByteMoves(w: Word, b: byte, i: nat)
    requires 1 <= i <= 5
    ensures Run(w, BitsOf(b))[i] == w[i + 8]
  {
    assert BitsOf(b)[..0 + 8] == BitsOf(b);
    OnlyMoves(w, BitsOf(b), 0, 8, i);
  }

  /** Bit 1 of the CRC of three bytes depends on the second byte alone. */
  lemma {:induction false} ThreeByteBit(a: byte, b: byte, c: byte)
    ensures Crc16([a, b, c])[1] == (BitOf(b, 2) != BitOf(b, 3))
  {
    var v := Run(ONES, BitsOf(a));
    var w := Run(v, BitsOf(b));
    ThreeBytes(a, b, c);
    ByteMoves(w, c, 1);
    NinthBit(v, BitsOf(b));
    ByteMoves(ONES, a, 2);
    ByteMoves(ONES, a, 3);
  }

  lemma {:induction false} ThreeBytes(a: byte, b: byte, c: byte)
    ensures Crc16([a, b, c]) == Run(Run(Run(ONES, BitsOf(a)), BitsOf(b)), BitsOf(c))
  {
    assert [a, b, c][..2] == [a, b] && [a, b][..1] == [a] && [a][..0] == [];
    assert Bits([a]) == BitsOf(a);
    RunConcat(ONES, Bits([a]), BitsOf(b));
    RunConcat(ONES, Bits([a, b]), BitsOf(c));
  }

  lemma {:induction false} PolyBits()
    ensures ToWord(0xA001) == POLY && ToWord(0xFFFF) == ONES
  {
  }

  lemma {:induction false} LowestBit(c: bv16)
    ensures ToWord(c)[0] <==> c & 1 != 0
    ensures !BitAt(c, WIDTH)
  {
  }

  lemma {:induction false} XorWord(c: bv16, d: bv16)
    ensures ToWord(c ^ d) == Xor(ToWord(c), ToWord(d))
  {
    forall i | 0 <= i < WIDTH
      ensures BitAt(c ^ d, i) == (BitAt(c, i) != BitAt(d, i))
    {
      BitOfXor(c, d, i);
    }
  }

  /** The register moved down by one. */
  function Down(w: Word): Word {
    seq(WIDTH, i requires 0 <= i < WIDTH => if i + 1 < WIDTH then w[i + 1] else false)
  }

  lemma {:induction false} DownWord(c: bv16)
    ensures ToWord(c >> 1) == Down(ToWord(c))
  {
    LowestBit(c);
    forall i | 0 <= i < WIDTH
      ensures ToWord(c >> 1)[i] == Down(ToWord(c))[i]
    {
      BitOfDown(c, i);
    }
  }

  lemma {:induction false} TurnIs(w: Word)
    ensures Turn(w) == if w[0] then Xor(Down(w), POLY) else Down(w)
  {
  }

  lemma {:induction false} TurnDown(c: bv16)
    requires c & 1 == 0
    ensures ToWord(c >> 1) == Turn(ToWord(c))
  {
    LowestBit(c);
    DownWord(c);
    TurnIs(ToWord(c));
  }

  lemma {:induction false} TurnDownAndAdd(c: bv16)
    requires c & 1 != 0
    ensures ToWord((c >> 1) ^ 0xA001) == Turn(ToWord(c))
  {
    LowestBit(c);
    DownWord(c);
    XorWord(c >> 1, 0xA001);
    PolyBits();
    TurnIs(ToWord(c));
  }

  function ByteWord(b: byte): Word {
    BitsOf(b) + ZERO[..8]
  }

  lemma {:induction false} WidenByte(b: byte)
    ensures ToWord(b as bv16) == ByteWord(b)
  {
    forall i | 0 <= i < WIDTH
      ensures ToWord(b as bv16)[i] == ByteWord(b)[i]
    {
      BitOfWiden(b, i);
    }
  }

  /** Eight turns after adding a byte feed its eight bits. */
  lemma {:induction false} FeedByte(w: Word, b: byte)
    ensures Turns(Xor(w, ByteWord(b)), 8) == Run(w, BitsOf(b))
  {
    var v := ByteWord(b);
    RunIterate(w, v, 8);
    assert v[..8] == BitsOf(b);
    assert Pending(v, 8) == ZERO;
    XorNothing(Run(w, BitsOf(b)));
  }

  /** One message byte, as the inner loop treats it. */
  method CRCByte(crc0: bv16, b: byte) returns (crc: bv16)
    ensures ToWord(crc) == Run(ToWord(crc0), BitsOf(b))
  {
    crc := crc0 ^ (b as bv16);
    XorWord(crc0, b as bv16);
    WidenByte(b);
    ghost var start := ToWord(crc);
    for k := 0 to 8
      invariant ToWord(crc) == Turns(start, k)
    {
      if crc & 0x0001 != 0 {
        TurnDownAndAdd(crc);
        crc := (crc >> 1) ^ 0xA001;
      } else {
        TurnDown(crc);
        crc := crc >> 1;
      }
    }
    FeedByte(ToWord(crc0), b);
  }

  /** The Go function computes the shift-register CRC. */
  method CRC16(data: seq<byte>) returns (crc: bv16)
    ensures ToWord(crc) == Crc16(data)
  {
    crc := 0xFFFF;
    PolyBits();
    for i := 0 to |data|
      invariant ToWord(crc) == Crc16(data[..i])
    {
      crc := CRCByte(crc, data[i]);
      assert data[..i + 1][..i] == data[..i];
      RunConcat(ONES, Bits(data[..i]), BitsOf(data[i]));
    }
    assert data[..|data|] == data;
  }

  lemma {:induction false} ToWordInjective(c: bv16, d: bv16)
    requires ToWord(c) == ToWord(d)
    ensures c == d
  {
    forall i | 0 <= i < WIDTH
      ensures BitAt(c, i) == BitAt(d, i)
    {
      assert ToWord(c)[i] == ToWord(d)[i];
    }
    SameBits(c, d);
  }

  /** A CRC travels low byte first. */
  lemma {:induction false} JoinBits(lo: byte, hi: byte)
    ensures ToWord(Join(lo, hi)) == BitsOf(lo) + BitsOf(hi)
  {
    forall i | 0 <= i < WIDTH
      ensures ToWord(Join(lo, hi))[i] == (BitsOf(lo) + BitsOf(hi))[i]
    {
      BitOfJoin(lo, hi, i);
    }
  }
}
