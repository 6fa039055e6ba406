/** How a receiver reads the fields of a group, and when the encoder's packing of characters
    can be undone. */
module Receiver {
  import opened Arithmetic
  import opened Bits
  import opened BlockCode
  import opened Config
  import opened Groups

  /** The group type that a receiver reads in the first four bits of the second block. */
  function TypeNumber(m: Message): nat {
    Value(m.w2[..4])
  }

  /** The group types and versions of IEC 62106, section 3.1.3: version B has the fifth bit set. */
  predicate IsKind(m: Message, k: Kind) {
    match k
    case Tuning0B => TypeNumber(m) == 0 && m.w2[4]
    case Labels1A => TypeNumber(m) == 1 && !m.w2[4]
    case Text2A => TypeNumber(m) == 2 && !m.w2[4]
    case Clock4A => TypeNumber(m) == 4 && !m.w2[4]
    case TypeName10A => TypeNumber(m) == 10 && !m.w2[4]
    case Tuning15B => TypeNumber(m) == 15 && m.w2[4]
  }

  /** The two characters of a word. */
  function Unpack(w: Word16): seq<nat> {
    [Value(w[..8]), Value(w[8..])]
  }

  // ---------- Packing two characters ----------

  lemma {:induction false} BitsOfConstant(x: int, k: nat)
    requires x == 0 || x == -1
    ensures Bit(x, k) == (x == -1)
  {
    if k > 0 { BitsOfConstant(x, k - 1); }
  }

  lemma {:induction false} LowBitsOfMultiple(x: int, n: nat, k: nat)
    requires k < n
    ensures !Bit(Pow2(n) * x, k)
  {
    assert Pow2(n) * x == 2 * (Pow2(n - 1) * x);
    if k > 0 {
      LowBitsOfMultiple(x, n - 1, k - 1);
      assert Pow2(n) * x / 2 == Pow2(n - 1) * x;
    }
  }

  lemma Pow2Of8()
    ensures Pow2(8) == 256
  {
    assert Pow2(4) == 16;
  }

  /** A char shifted left by eight: the char, then eight zeros. */
  lemma HighChar(x: int)
    ensures ToBits(x * 256, 16) == ToBits(x, 8) + Zeros(8)
  {
    Pow2Of8();
    BitsSplit(x * 256, 8, 8);
    var low := ToBits(x * 256, 8);
    forall i | 0 <= i < 8
      ensures !low[i]
    {
      LowBitsOfMultiple(x, 8, 7 - i);
    }
    assert low == Zeros(8);
  }

  /** A char in an int: eight copies of its sign, then the char. */
  lemma LowChar(x: int)
    requires -128 <= x < 256
    ensures ToBits(x, 16) == seq(8, _ => x < 0) + ToBits(x, 8)
  {
    Pow2Of8();
    BitsSplit(x, 8, 8);
    var high := ToBits(x / 256, 8);
    forall i | 0 <= i < 8
      ensures high[i] == (x < 0)
    {
      BitsOfConstant(x / 256, 7 - i);
    }
    assert high == seq(8, _ => x < 0);
  }

  lemma CharValue(c: Byte, signed: bool)
    ensures Value(ToBits(Promote(c, signed), 8)) == c
  {
    Pow2Of8();
    ValueOfBits(Promote(c, signed), 8);
  }

  lemma OrOfHalves(a: seq<bool>, b: seq<bool>, c: seq<bool>, d: seq<bool>)
    requires |a| == |b| == |c| == |d|
    ensures Or(a + b, c + d) == Or(a, c) + Or(b, d)
  {
  }

  /** The packed word: the low character is intact, and a negative one spills its sign over the
      high character. */
  lemma PackedWord(hi: Byte, lo: Byte, signed: bool)
    ensures Pack(hi, lo, signed)[..8] ==
            if signed && lo >= 128 then seq(8, _ => true) else ToBits(Promote(hi, signed), 8)
    ensures Pack(hi, lo, signed)[8..] == ToBits(Promote(lo, signed), 8)
  {
    var x, y := Promote(hi, signed), Promote(lo, signed);
    var sign := seq(8, _ => y < 0);
    HighChar(x);
    LowChar(y);
    OrOfHalves(ToBits(x, 8), Zeros(8), sign, ToBits(y, 8));
    assert Or(Zeros(8), ToBits(y, 8)) == ToBits(y, 8);
    if y < 0 {
      assert Or(ToBits(x, 8), sign) == seq(8, _ => true);
    } else {
      assert Or(ToBits(x, 8), sign) == ToBits(x, 8);
    }
  }

  lemma ValueOfOnes()
    ensures Value(seq(8, _ => true)) == 255
  {
    Pow2Of8();
    ValueOfBits(-1, 8);
    var s := ToBits(-1, 8);
    forall i | 0 <= i < 8
      ensures s[i]
    {
      BitsOfConstant(-1, 7 - i);
    }
    assert s == seq(8, _ => true);
  }

  /** Unpacking returns both characters exactly when the low one is not negative, or the high
      one has all its bits set anyway. */
  lemma PackingIsLosslessIff(hi: Byte, lo: Byte, signed: bool)
    ensures Unpack(Pack(hi, lo, signed)) == [hi, lo] <==> !(signed && lo >= 128 && hi != 255)
  {
    PackedWord(hi, lo, signed);
    CharValue(hi, signed);
    CharValue(lo, signed);
    ValueOfOnes();
  }

  // ---------- The second word ----------

  lemma SecondWordFields(k: Kind, s: Station, tail: seq<bool>)
    requires |tail| == 5
    ensures SecondWord(k, s, tail)[..4] == ToBits(GroupCode(k), 4)
    ensures SecondWord(k, s, tail)[4] == VersionB(k)
    ensures SecondWord(k, s, tail)[5] == s.tp
    ensures SecondWord(k, s, tail)[6..11] == ToBits(s.pty, 5)
    ensures SecondWord(k, s, tail)[11..] == tail
  {
  }

  lemma FieldValue(x: nat, n: nat)
    requires x < Pow2(n)
    ensures Value(ToBits(x, n)) == x
  {
    ValueOfBits(x, n);
    DivModUnique(x, Pow2(n), 0, x);
  }

  /** A receiver tells the groups of the encoder apart. */
  lemma KindIsRead(m: Message, k: Kind, s: Station, tail: seq<bool>, j: Kind)
    requires |tail| == 5 && m.w2 == SecondWord(k, s, tail)
    ensures IsKind(m, j) <==> j == k
  {
    SecondWordFields(k, s, tail);
    assert Pow2(4) == 16;
    FieldValue(GroupCode(k), 4);
  }
}
