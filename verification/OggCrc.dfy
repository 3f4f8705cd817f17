/** The Ogg page checksum: a bitwise CRC-32 with polynomial 0x04c11db7, zero
    start and no reflection (`ogg_crc`, crates/vidarax-api/src/live_audio.rs;
    the CRC field in section 6 of RFC 3533). */
module OggCrc {

  const POLYNOMIAL: bv32 := 0x04c1_1db7

  function Top(x: bv32): bool { x & 0x8000_0000 != 0 }
  function Shl(x: bv32): bv32 { x << 1 }
  function Xor(x: bv32, y: bv32): bv32 { x ^ y }

  /** One shift of the register. */
  function Bit(crc: bv32): bv32 {
    if Top(crc) then Xor(Shl(crc), POLYNOMIAL) else Shl(crc)
  }

  function Bits(crc: bv32, n: nat): bv32 {
    if n == 0 then crc else Bit(Bits(crc, n - 1))
  }

  /** A byte enters at the top of the register. */
  function Enter(byte: bv8): bv32 { (byte as bv32) << 24 }

  function Feed(crc: bv32, byte: bv8): bv32 { Bits(Xor(crc, Enter(byte)), 8) }

  function CrcFrom(crc: bv32, bytes: seq<bv8>): bv32 {
    if bytes == [] then crc else Feed(CrcFrom(crc, bytes[..|bytes| - 1]), bytes[|bytes| - 1])
  }

  function Crc(bytes: seq<bv8>): bv32 { CrcFrom(0, bytes) }

  method OggCrc(bytes: seq<bv8>) returns (crc: bv32)
    ensures crc == Crc(bytes)
  {
    hide Bit, Xor, Enter, Top, Shl;
    crc := 0;
    for i := 0 to |bytes|
      invariant crc == Crc(bytes[..i])
    {
      assert bytes[..i + 1][..i] == bytes[..i];
      EnterIs(crc, bytes[i]);
      crc := crc ^ ((bytes[i] as bv32) << 24);
      ghost var start := crc;
      for k := 0 to 8
        invariant crc == Bits(start, k)
      {
        BitIs(crc);
        crc := if crc & 0x8000_0000 != 0 then (crc << 1) ^ 0x04c1_1db7 else crc << 1;
      }
    }
    assert bytes[..|bytes|] == bytes;
  }

  lemma EnterIs(crc: bv32, byte: bv8)
    ensures crc ^ ((byte as bv32) << 24) == Xor(crc, Enter(byte))
  {
  }

  lemma BitIs(crc: bv32)
    ensures Bit(crc) == if crc & 0x8000_0000 != 0 then (crc << 1) ^ 0x04c1_1db7 else crc << 1
  {
  }

  // ------------------------------------------------------------ bit-vector facts

  lemma XorCommutes(x: bv32, y: bv32)
    ensures Xor(x, y) == Xor(y, x)
  {
  }

  lemma XorAssociates(x: bv32, y: bv32, z: bv32)
    ensures Xor(Xor(x, y), z) == Xor(x, Xor(y, z))
  {
  }

  lemma XorCancels(x: bv32)
    ensures Xor(x, x) == 0 && Xor(x, 0) == x
  {
  }

  lemma XorLaws(x: bv32, y: bv32, z: bv32)
    ensures Xor(x, y) == Xor(y, x)
    ensures Xor(Xor(x, y), z) == Xor(x, Xor(y, z))
    ensures Xor(x, x) == 0 && Xor(x, 0) == x
  {
    hide Xor;
    XorCommutes(x, y);
    XorAssociates(x, y, z);
    XorCancels(x);
  }

  lemma ShlOfXor(x: bv32, y: bv32)
    ensures Shl(Xor(x, y)) == Xor(Shl(x), Shl(y))
  {
  }

  lemma TopOfXor(x: bv32, y: bv32)
    ensures Top(Xor(x, y)) == (Top(x) != Top(y))
  {
  }

  lemma EnterOfXor(a: bv8, b: bv8)
    ensures Enter(XorByte(a, b)) == Xor(Enter(a), Enter(b))
  {
  }

  /** A shifted register is even, and the polynomial is odd. */
  lemma ShlNeverMeetsPolynomial(x: bv32, y: bv32)
    ensures Shl(x) != Xor(Shl(y), POLYNOMIAL)
  {
  }

  lemma ShlRejoins(x: bv32, y: bv32)
    requires Shl(x) == Shl(y) && Top(x) == Top(y)
    ensures x == y
  {
  }

  /** Two xors on each side regroup. */
  lemma XorRegroups(a: bv32, b: bv32, c: bv32, d: bv32)
    ensures Xor(Xor(a, b), Xor(c, d)) == Xor(Xor(a, c), Xor(b, d))
  {
    hide Xor;
    XorLaws(a, b, Xor(c, d));
    XorLaws(b, c, d);
    XorLaws(c, b, d);
    XorLaws(a, c, Xor(b, d));
  }

  // ------------------------------------------------------------ the register

  lemma BitIsLinear(x: bv32, y: bv32)
    ensures Bit(Xor(x, y)) == Xor(Bit(x), Bit(y))
  {
    hide Top, Shl, Xor;
    var s, t, p := Shl(x), Shl(y), POLYNOMIAL;
    ShlOfXor(x, y);
    TopOfXor(x, y);
    if Top(x) && Top(y) {
      XorRegroups(s, p, t, p);
      XorLaws(p, p, p);
      XorLaws(Xor(s, t), p, p);
    } else if Top(x) {
      XorLaws(s, p, t);
      XorLaws(p, t, t);
      XorLaws(s, t, p);
    } else if Top(y) {
      XorLaws(s, t, p);
    }
  }

  lemma BitIsInjective(x: bv32, y: bv32)
    requires Bit(x) == Bit(y)
    ensures x == y
  {
    hide Top, Shl, Xor;
    var s, t, p := Shl(x), Shl(y), POLYNOMIAL;
    ShlNeverMeetsPolynomial(x, y);
    ShlNeverMeetsPolynomial(y, x);
    if Top(x) && Top(y) {
      XorLaws(s, p, p);
      XorLaws(t, p, p);
      XorLaws(p, p, p);
    }
    ShlRejoins(x, y);
  }

  lemma {:induction false} BitsAreLinear(x: bv32, y: bv32, n: nat)
    ensures Bits(Xor(x, y), n) == Xor(Bits(x, n), Bits(y, n))
  {
    hide Bit, Xor;
    if n > 0 {
      BitsAreLinear(x, y, n - 1);
      BitIsLinear(Bits(x, n - 1), Bits(y, n - 1));
    }
  }

  lemma {:induction false} BitsAreInjective(x: bv32, y: bv32, n: nat)
    requires Bits(x, n) == Bits(y, n)
    ensures x == y
  {
    hide Bit;
    if n > 0 {
      BitIsInjective(Bits(x, n - 1), Bits(y, n - 1));
      BitsAreInjective(x, y, n - 1);
    }
  }

  lemma {:induction false} BitsCompose(x: bv32, m: nat, n: nat)
    ensures Bits(Bits(x, m), n) == Bits(x, m + n)
  {
    hide Bit;
    if n > 0 {
      BitsCompose(x, m, n - 1);
    }
  }

  lemma {:induction false} BitsOfZero(n: nat)
    ensures Bits(0, n) == 0
  {
    if n > 0 {
      BitsOfZero(n - 1);
      assert Bit(0) == 0;
    }
  }

  // ------------------------------------------------------------ sequences

  function XorByte(a: bv8, b: bv8): bv8 { a ^ b }

  function XorBytes(a: seq<bv8>, b: seq<bv8>): (d: seq<bv8>)
    requires |a| == |b|
    ensures |d| == |a| && forall k :: 0 <= k < |a| ==> d[k] == XorByte(a[k], b[k])
  {
    seq(|a|, k requires 0 <= k < |a| => XorByte(a[k], b[k]))
  }

  lemma FeedIsLinear(x: bv32, y: bv32, a: bv8, b: bv8)
    ensures Feed(Xor(x, y), XorByte(a, b)) == Xor(Feed(x, a), Feed(y, b))
  {
    hide Xor, Bits, Enter, XorByte;
    EnterOfXor(a, b);
    XorRegroups(x, y, Enter(a), Enter(b));
    BitsAreLinear(Xor(x, Enter(a)), Xor(y, Enter(b)), 8);
  }

  /** The checksum is linear over xor for inputs of equal length. */
  lemma {:induction false} CrcIsLinear(a: seq<bv8>, b: seq<bv8>)
    requires |a| == |b|
    ensures Crc(XorBytes(a, b)) == Xor(Crc(a), Crc(b))
  {
    hide Feed, Xor, XorByte;
    if a == [] {
      XorLaws(0, 0, 0);
    } else {
      var n := |a| - 1;
      CrcIsLinear(a[..n], b[..n]);
      assert XorBytes(a, b)[..n] == XorBytes(a[..n], b[..n]);
      FeedIsLinear(Crc(a[..n]), Crc(b[..n]), a[n], b[n]);
    }
  }

  lemma {:induction false} CrcSplits(crc: bv32, a: seq<bv8>, b: seq<bv8>)
    ensures CrcFrom(crc, a + b) == CrcFrom(CrcFrom(crc, a), b)
  {
    hide Feed;
    if b == [] {
      assert a + b == a;
    } else {
      var init := b[..|b| - 1];
      CrcSplits(crc, a, init);
      assert (a + b)[..|a + b| - 1] == a + init;
    }
  }

  ghost predicate Zeros(s: seq<bv8>) { forall k :: 0 <= k < |s| ==> s[k] == 0 }

  lemma FeedZero(crc: bv32)
    ensures Feed(crc, 0) == Bits(crc, 8)
  {
    hide Bits;
    assert Xor(crc, Enter(0)) == crc;
  }

  lemma {:induction false} ZerosShift(crc: bv32, s: seq<bv8>)
    requires Zeros(s)
    ensures CrcFrom(crc, s) == Bits(crc, 8 * |s|)
  {
    hide Feed, Bit;
    if s != [] {
      var init := s[..|s| - 1];
      ZerosShift(crc, init);
      FeedZero(Bits(crc, 8 * |init|));
      BitsCompose(crc, 8 * |init|, 8);
    }
  }

  // ------------------------------------------------------------ four bytes

  /** Four bytes as one register, first byte on top. */
  function Word(a: bv8, b: bv8, c: bv8, d: bv8): bv32 {
    Xor(Enter(a), Xor(Enter(b) >> 8, Xor(Enter(c) >> 16, Enter(d) >> 24)))
  }

  predicate ClearOf(x: bv32, mask: bv32) { x & mask == 0 }

  /** A clear top bit shifts out with nothing to fold back. */
  lemma ClearShifts(x: bv32, mask: bv32)
    requires ClearOf(x, mask) && Top(mask)
    ensures Bit(x) == Shl(x) && ClearOf(Shl(x), Shl(mask))
  {
  }

  lemma ShlMasks()
    ensures Shl(0xff00_0000) == 0xfe00_0000 && Shl(0xfe00_0000) == 0xfc00_0000
    ensures Shl(0xfc00_0000) == 0xf800_0000 && Shl(0xf800_0000) == 0xf000_0000
    ensures Shl(0xf000_0000) == 0xe000_0000 && Shl(0xe000_0000) == 0xc000_0000
    ensures Shl(0xc000_0000) == 0x8000_0000
    ensures Top(0xff00_0000) && Top(0xfe00_0000) && Top(0xfc00_0000) && Top(0xf800_0000)
    ensures Top(0xf000_0000) && Top(0xe000_0000) && Top(0xc000_0000) && Top(0x8000_0000)
  {
  }

  function Shl8(x: bv32): bv32 { x << 8 }

  lemma Shl8Unrolled(x: bv32)
    ensures Shl(Shl(Shl(Shl(Shl(Shl(Shl(Shl(x)))))))) == Shl8(x)
  {
  }

  /** Eight shifts of a register whose top byte is clear lose nothing. */
  lemma ClearByteShifts(x: bv32)
    requires ClearOf(x, 0xff00_0000)
    ensures Bits(x, 8) == Shl8(x)
  {
    hide Top, Shl, Bit, ClearOf, Shl8;
    ShlMasks();
    var x1 := Shl(x);
    ClearShifts(x, 0xff00_0000);
    var x2 := Shl(x1);
    ClearShifts(x1, 0xfe00_0000);
    var x3 := Shl(x2);
    ClearShifts(x2, 0xfc00_0000);
    var x4 := Shl(x3);
    ClearShifts(x3, 0xf800_0000);
    var x5 := Shl(x4);
    ClearShifts(x4, 0xf000_0000);
    var x6 := Shl(x5);
    ClearShifts(x5, 0xe000_0000);
    var x7 := Shl(x6);
    ClearShifts(x6, 0xc000_0000);
    ClearShifts(x7, 0x8000_0000);
    Shl8Unrolled(x);
    assert Bits(x, 0) == x && Bits(x, 1) == x1 && Bits(x, 2) == x2 && Bits(x, 3) == x3;
    assert Bits(x, 4) == x4 && Bits(x, 5) == x5 && Bits(x, 6) == x6 && Bits(x, 7) == x7;
  }

  /** The bytes still below the top ride up untouched while one is fed. */
  lemma FeedBelow(crc: bv32, byte: bv8, below: bv32)
    requires ClearOf(below, 0xff00_0000)
    ensures Bits(Xor(crc, Xor(Enter(byte), below)), 8) == Xor(Feed(crc, byte), Shl8(below))
  {
    hide Xor, Enter, Bits, ClearOf, Shl8;
    XorLaws(crc, Enter(byte), below);
    BitsAreLinear(Xor(crc, Enter(byte)), below, 8);
    ClearByteShifts(below);
  }

  function Below2(a: bv8, b: bv8): bv32 { Xor(Enter(a) >> 8, Enter(b) >> 16) }
  function Below3(a: bv8, b: bv8, c: bv8): bv32 { Xor(Enter(a) >> 8, Xor(Enter(b) >> 16, Enter(c) >> 24)) }

  lemma OneBelow(a: bv8)
    ensures ClearOf(Enter(a) >> 8, 0xff00_0000) && Shl8(Enter(a) >> 8) == Enter(a)
    ensures ClearOf(Enter(a) >> 16, 0xff00_0000) && Shl8(Enter(a) >> 16) == Enter(a) >> 8
    ensures ClearOf(Enter(a) >> 24, 0xff00_0000) && Shl8(Enter(a) >> 24) == Enter(a) >> 16
  {
  }

  lemma ClearOfXor(x: bv32, y: bv32)
    requires ClearOf(x, 0xff00_0000) && ClearOf(y, 0xff00_0000)
    ensures ClearOf(Xor(x, y), 0xff00_0000)
  {
  }

  lemma Shl8OfXor(x: bv32, y: bv32)
    ensures Shl8(Xor(x, y)) == Xor(Shl8(x), Shl8(y))
  {
  }

  lemma BelowAreClear(a: bv8, b: bv8, c: bv8)
    ensures ClearOf(Enter(a) >> 8, 0xff00_0000) && Shl8(Enter(a) >> 8) == Enter(a)
    ensures ClearOf(Below2(a, b), 0xff00_0000) && Shl8(Below2(a, b)) == Xor(Enter(a), Enter(b) >> 8)
    ensures ClearOf(Below3(a, b, c), 0xff00_0000) && Shl8(Below3(a, b, c)) == Xor(Enter(a), Below2(b, c))
  {
    hide Enter, ClearOf, Shl8, Xor;
    OneBelow(a);
    OneBelow(b);
    OneBelow(c);
    ClearOfXor(Enter(a) >> 8, Enter(b) >> 16);
    Shl8OfXor(Enter(a) >> 8, Enter(b) >> 16);
    var low := Xor(Enter(b) >> 16, Enter(c) >> 24);
    ClearOfXor(Enter(b) >> 16, Enter(c) >> 24);
    Shl8OfXor(Enter(b) >> 16, Enter(c) >> 24);
    ClearOfXor(Enter(a) >> 8, low);
    Shl8OfXor(Enter(a) >> 8, low);
  }

  /** Feeding four bytes is shifting their word out through 32 bits. */
  lemma FourBytesAreAWord(a: bv8, b: bv8, c: bv8, d: bv8)
    ensures Feed(Feed(Feed(Feed(0, a), b), c), d) == Bits(Word(a, b, c, d), 32)
  {
    hide Xor, Enter, Bits, Feed, ClearOf, Shl8, Below2, Below3, Word;
    var s1 := Feed(0, a);
    var s2 := Feed(s1, b);
    var s3 := Feed(s2, c);
    var w := Word(a, b, c, d);
    WordIs(a, b, c, d);
    BelowAreClear(b, c, d);
    BelowAreClear(c, d, d);
    BelowAreClear(d, d, d);
    FeedBelow(0, a, Below3(b, c, d));
    var w1 := Bits(w, 8);
    assert w1 == Xor(s1, Xor(Enter(b), Below2(c, d)));
    FeedBelow(s1, b, Below2(c, d));
    var w2 := Bits(w1, 8);
    assert w2 == Xor(s2, Xor(Enter(c), Enter(d) >> 8));
    FeedBelow(s2, c, Enter(d) >> 8);
    var w3 := Bits(w2, 8);
    assert w3 == Xor(s3, Enter(d));
    FeedIs(s3, d);
    BitsCompose(w, 8, 8);
    BitsCompose(w, 16, 8);
    BitsCompose(w, 24, 8);
  }

  lemma FeedIs(crc: bv32, byte: bv8)
    ensures Feed(crc, byte) == Bits(Xor(crc, Enter(byte)), 8)
  {
  }

  lemma WordIs(a: bv8, b: bv8, c: bv8, d: bv8)
    ensures Word(a, b, c, d) == Xor(0, Xor(Enter(a), Below3(b, c, d)))
  {
  }

  lemma WordIsZero(a: bv8, b: bv8, c: bv8, d: bv8)
    requires Word(a, b, c, d) == 0
    ensures a == 0 && b == 0 && c == 0 && d == 0
  {
  }

  /** Four bytes that are not all zero leave a nonzero register. */
  lemma BurstIsSeen(s: seq<bv8>)
    requires |s| == 4 && !Zeros(s)
    ensures Crc(s) != 0
  {
    hide Feed, Bits, Word;
    var a, b, c, d := s[0], s[1], s[2], s[3];
    assert s[..3][..2] == s[..2] && s[..2][..1] == s[..1] && s[..1][..0] == [];
    assert CrcFrom(0, s[..1]) == Feed(0, a);
    assert CrcFrom(0, s[..2]) == Feed(Feed(0, a), b);
    assert CrcFrom(0, s[..3]) == Feed(Feed(Feed(0, a), b), c);
    FourBytesAreAWord(a, b, c, d);
    if Crc(s) == 0 {
      BitsOfZero(32);
      BitsAreInjective(Word(a, b, c, d), 0, 32);
      WordIsZero(a, b, c, d);
      assert false;
    }
  }

  // ------------------------------------------------------------ detection

  /** All differences between `a` and `b` lie in the four bytes from `i`. */
  ghost predicate DifferWithin(a: seq<bv8>, b: seq<bv8>, i: nat)
    requires |a| == |b|
  {
    forall k :: 0 <= k < |a| && a[k] != b[k] ==> i <= k < i + 4
  }

  lemma XorIsZero(a: bv8, b: bv8)
    ensures XorByte(a, b) == 0 <==> a == b
  {
  }

  lemma BurstDetectedAt(a: seq<bv8>, b: seq<bv8>, i: nat)
    requires |a| == |b| && i + 4 <= |a| && DifferWithin(a, b, i) && a != b
    ensures Crc(a) != Crc(b)
  {
    hide Feed, Bits, Xor, CrcFrom, XorByte;
    var d := XorBytes(a, b);
    forall k | 0 <= k < |a| ensures d[k] == 0 <==> a[k] == b[k] {
      XorIsZero(a[k], b[k]);
    }
    var before, burst, after := d[..i], d[i..i + 4], d[i + 4..];
    assert d == before + burst + after;
    var k :| 0 <= k < |a| && a[k] != b[k];
    assert burst[k - i] == d[k];
    CrcSplits(0, before + burst, after);
    CrcSplits(0, before, burst);
    ZerosShift(0, before);
    BitsOfZero(8 * |before|);
    ZerosShift(Crc(burst), after);
    BurstIsSeen(burst);
    if Crc(d) == 0 {
      BitsOfZero(8 * |after|);
      BitsAreInjective(Crc(burst), 0, 8 * |after|);
      assert false;
    }
    CrcIsLinear(a, b);
    XorLaws(Crc(a), Crc(a), 0);
  }

  /** Two different inputs of equal length whose differences fall within four
      consecutive bytes always have different checksums, wherever the burst
      lies and however short the inputs are. */
  lemma BurstDetected(a: seq<bv8>, b: seq<bv8>, i: nat)
    requires |a| == |b| && DifferWithin(a, b, i) && a != b
    ensures Crc(a) != Crc(b)
  {
    hide CrcFrom;
    if |a| >= 4 {
      BurstDetectedAt(a, b, if i + 4 <= |a| then i else |a| - 4);
    } else {
      var pad: seq<bv8> := [0, 0, 0, 0];
      PadIsFree(pad, a);
      PadIsFree(pad, b);
      assert (pad + a)[4..] == a && (pad + b)[4..] == b;
      BurstDetectedAt(pad + a, pad + b, |a|);
    }
  }

  lemma PadIsFree(pad: seq<bv8>, a: seq<bv8>)
    requires Zeros(pad)
    ensures Crc(pad + a) == Crc(a)
  {
    hide Bits, CrcFrom;
    CrcSplits(0, pad, a);
    ZerosShift(0, pad);
    BitsOfZero(8 * |pad|);
  }
}
