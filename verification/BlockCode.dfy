/** The block coder: checkwords, offset words and the receiver's syndrome
    (IEC 62106, Annexes A and B). */
module BlockCode {
  import opened Bits
  import opened Polynomials

  type Word16 = w: seq<bool> | |w| == 16 witness Zeros(16)

  datatype Block = Block(infoword: Word16, offsetWord: Residue10, checkword: Residue10)

  /** A ten-bit word written as three hexadecimal digits. */
  function Hex(h: nat, m: nat, l: nat): Residue10
    requires h < 4 && m < 16 && l < 16
  {
    [h >= 2, h % 2 == 1,
     m >= 8, m % 8 >= 4, m % 4 >= 2, m % 2 == 1,
     l >= 8, l % 8 >= 4, l % 4 >= 2, l % 2 == 1]
  }

  /** The generator matrix: the checkword of each single bit of the infoword. */
  function Row(i: nat): Residue10
    requires i < 16
  {
    match i
    case 0 => Hex(0x1, 0xB, 0x9)
    case 1 => Hex(0x3, 0x7, 0x2)
    case 2 => Hex(0x3, 0x5, 0xD)
    case 3 => Hex(0x3, 0x0, 0x3)
    case 4 => Hex(0x3, 0xB, 0xF)
    case 5 => Hex(0x2, 0xC, 0x7)
    case 6 => Hex(0x0, 0x3, 0x7)
    case 7 => Hex(0x0, 0x6, 0xE)
    case 8 => Hex(0x0, 0xD, 0xC)
    case 9 => Hex(0x1, 0xB, 0x8)
    case 10 => Hex(0x3, 0x7, 0x0)
    case 11 => Hex(0x3, 0x5, 0x9)
    case 12 => Hex(0x3, 0x0, 0xB)
    case 13 => Hex(0x3, 0xA, 0xF)
    case 14 => Hex(0x2, 0xE, 0x7)
    case 15 => Hex(0x0, 0x7, 0x7)
  }

  /** The offset words A, B, C, D and C'. */
  function OffsetWord(k: nat): Residue10
    requires k < 5
  {
    match k
    case 0 => Hex(0x0, 0xF, 0xC)
    case 1 => Hex(0x1, 0x9, 0x8)
    case 2 => Hex(0x1, 0x6, 0x8)
    case 3 => Hex(0x1, 0xB, 0x4)
    case 4 => Hex(0x3, 0x5, 0x0)
  }

  const ALT_OFFSET_WORD_C := 4

  /** The rows of the matrix selected by the bits i..15 of the infoword. */
  function RowSum(w: Word16, i: nat): Residue10
    requires i <= 16
    decreases 16 - i
  {
    if i == 16 then Zeros(10)
    else if w[15 - i] then Sum(RowSum(w, i + 1), Row(i))
    else RowSum(w, i + 1)
  }

  /** The checkword after the coder has run on b. */
  function CheckwordOf(b: Block): Residue10 {
    Sum(Sum(b.checkword, RowSum(b.infoword, 0)), b.offsetWord)
  }

  /** The 26 bits of an assembled block. */
  type Code = s: seq<bool> | |s| == 26 witness Zeros(26)

  function Encode(b: Block): Code {
    b.infoword + CheckwordOf(b)
  }

  /** Fold the matrix rows and the offset word into the checkword of blocks[k], in place, and
      assemble the block. */
  method GenerateBlock(blocks: array<Block>, k: nat) returns (encoded: Code)
    requires k < blocks.Length
    modifies blocks
    ensures blocks[k] == old(blocks[k]).(checkword := CheckwordOf(old(blocks[k])))
    ensures forall m :: 0 <= m < blocks.Length && m != k ==> blocks[m] == old(blocks[m])
    ensures encoded == Encode(old(blocks[k]))
  {
    ghost var b := blocks[k];
    SumUnit(RowSum(b.infoword, 16), b.checkword);
    SumCommutes(b.checkword, RowSum(b.infoword, 16));
    var i := 15;
    while i >= 0
      invariant -1 <= i <= 15
      invariant blocks[k] == b.(checkword := Sum(b.checkword, RowSum(b.infoword, i + 1)))
      invariant forall m :: 0 <= m < blocks.Length && m != k ==> blocks[m] == old(blocks[m])
    {
      SumAssociates(b.checkword, RowSum(b.infoword, i + 1), Row(i));
      if blocks[k].infoword[15 - i] {
        blocks[k] := blocks[k].(checkword := Sum(blocks[k].checkword, Row(i)));
      }
      i := i - 1;
    }
    blocks[k] := blocks[k].(checkword := Sum(blocks[k].checkword, blocks[k].offsetWord));
    encoded := blocks[k].infoword + blocks[k].checkword;
  }

  // ---------- The matrix is the table of x^10 ... x^25 modulo g ----------

  /** Shift as a feedback register: the leading coefficient is fed back into the taps. */
  lemma ShiftTaps(r: Residue10, b: bool)
    ensures Shift(r, b) ==
            [r[1], r[2] != r[0], r[3] != r[0], r[4], r[5] != r[0],
             r[6] != r[0], r[7] != r[0], r[8], r[9], b != r[0]]
  {
  }

  lemma Rows0To4(i: nat)
    requires 0 <= i < 4
    ensures Row(i + 1) == Shift(Row(i), false)
  {
    ShiftTaps(Row(i), false);
  }

  lemma Rows4To8(i: nat)
    requires 4 <= i < 8
    ensures Row(i + 1) == Shift(Row(i), false)
  {
    ShiftTaps(Row(i), false);
  }

  lemma Rows8To10(i: nat)
    requires 8 <= i < 10
    ensures Row(i + 1) == Shift(Row(i), false)
  {
    ShiftTaps(Row(i), false);
  }

  lemma Rows10To12(i: nat)
    requires 10 <= i < 12
    ensures Row(i + 1) == Shift(Row(i), false)
  {
    ShiftTaps(Row(i), false);
  }

  lemma Rows12To15(i: nat)
    requires 12 <= i < 15
    ensures Row(i + 1) == Shift(Row(i), false)
  {
    ShiftTaps(Row(i), false);
  }

  lemma RowStep(i: nat)
    requires i < 15
    ensures Row(i + 1) == Shift(Row(i), false)
  {
    if i < 4 { Rows0To4(i); }
    else if i < 8 { Rows4To8(i); }
    else if i < 10 { Rows8To10(i); }
    else if i < 12 { Rows10To12(i); }
    else { Rows12To15(i); }
  }

  lemma RowZero()
    ensures Row(0) == PowerX(10)
  {
    ResidueOfPower(9);
    ResidueOfShort([true] + Zeros(9));
    assert PowerX(9) == [true] + Zeros(9);
    assert Shift(PowerX(9), false) == GENERATOR[1..];
  }

  lemma {:induction false} RowIsPower(i: nat)
    requires i < 16
    ensures Row(i) == PowerX(10 + i)
  {
    if i == 0 {
      RowZero();
    } else {
      RowIsPower(i - 1);
      RowStep(i - 1);
    }
  }

  lemma {:induction false} RowSumIsResidue(w: Word16, i: nat)
    requires i <= 16
    ensures RowSum(w, i) == Residue(w[..16 - i] + Zeros(10 + i))
    decreases 16 - i
  {
    if i == 16 {
      assert w[..0] + Zeros(26) == Zeros(26);
      ResidueOfZeros(26);
    } else {
      RowSumIsResidue(w, i + 1);
      var p := w[..15 - i];
      if w[15 - i] {
        assert w[..16 - i] + Zeros(10 + i) == p + [true] + Zeros(10 + i);
        ResidueOfCoefficient(p, 10 + i);
        RowIsPower(i);
      } else {
        assert w[..16 - i] + Zeros(10 + i) == p + Zeros(11 + i);
      }
    }
  }

  /** The table-driven checkword is the remainder of x^10 * m(x) by g(x): it is the only
      polynomial of degree below ten that makes the division exact. */
  lemma FastChecksumIsLongDivision(w: Word16)
    ensures exists q :: Divides(w + Zeros(10), q, RowSum(w, 0))
    ensures forall q, r: Residue10 :: Divides(w + Zeros(10), q, r) ==> r == RowSum(w, 0)
  {
    var m := w + Zeros(10);
    RowSumIsResidue(w, 0);
    assert w[..16] == w;
    Division(m);
    forall q, r: Residue10 | Divides(m, q, r)
      ensures r == RowSum(w, 0)
    {
      ResidueIsUnique(m, q, r);
    }
  }

  // ---------- The receiver ----------

  /** What a receiver computes from 26 received bits. */
  function Syndrome(s: Code): Residue10 {
    Residue(s)
  }

  /** The syndrome of an emitted block is its offset word exactly when the checkword field was
      zero before the coder ran. */
  lemma SyndromeOfBlock(b: Block)
    ensures Syndrome(Encode(b)) == Sum(b.checkword, b.offsetWord)
    ensures Syndrome(Encode(b)) == b.offsetWord <==> b.checkword == Zeros(10)
  {
    var w, c := b.infoword, CheckwordOf(b);
    ResidueOfHalves(w, c);
    RowSumIsResidue(w, 0);
    assert w[..16] == w;
    SumCancels(RowSum(w, 0), b.checkword, b.offsetWord);
    SumUnit(b.checkword, b.offsetWord);
  }

  lemma ResidueOfHalves(w: Word16, c: Residue10)
    ensures Residue(w + c) == Sum(Residue(w + Zeros(10)), c)
  {
    assert w + c == Sum(w + Zeros(10), Zeros(16) + c);
    ResidueOfSum(w + Zeros(10), Zeros(16) + c);
    assert Residue(Zeros(16) + c) == c by {
      ResidueOfPadded(16, c);
      ResidueOfShort(c);
    }
  }

  lemma SumCommutes(a: Residue10, b: Residue10)
    ensures Sum(a, b) == Sum(b, a)
  {
  }

  lemma SumCancels(r: Residue10, c: Residue10, o: Residue10)
    ensures Sum(r, Sum(Sum(c, r), o)) == Sum(c, o)
  {
  }

  lemma SumUnit(c: Residue10, o: Residue10)
    ensures Sum(c, o) == o <==> c == Zeros(10)
  {
    if Sum(c, o) == o {
      forall i | 0 <= i < 10
        ensures c[i] == Zeros(10)[i]
      {
        assert Sum(c, o)[i] == o[i];
      }
    }
  }

  /** All the errors of e lie in ten consecutive bits, and there is at least one. */
  ghost predicate Burst(e: Code, lo: nat) {
    && lo <= 16
    && e != Zeros(26)
    && forall i :: 0 <= i < 26 && e[i] ==> lo <= i < lo + 10
  }

  lemma {:induction false} ShiftedResidueIsNonZero(b: Residue10, n: nat)
    requires b != Zeros(10)
    ensures Residue(b + Zeros(n)) != Zeros(10)
  {
    if n == 0 {
      assert b + Zeros(0) == b;
      ResidueOfShort(b);
    } else {
      var w := b + Zeros(n);
      assert w[..|w| - 1] == b + Zeros(n - 1);
      ShiftedResidueIsNonZero(b, n - 1);
      ShiftIsInjective(Residue(b + Zeros(n - 1)));
    }
  }

  lemma BurstParts(e: Code, lo: nat)
    requires Burst(e, lo)
    ensures e == Zeros(lo) + (e[lo..lo + 10] + Zeros(16 - lo))
    ensures e[lo..lo + 10] != Zeros(10)
  {
    var b := e[lo..lo + 10];
    assert exists i :: 0 <= i < 26 && e[i];
    var i :| 0 <= i < 26 && e[i];
    assert b[i - lo] && !Zeros(10)[i - lo];
  }

  /** Every error burst of at most ten bits changes the syndrome of whatever block it hits. */
  lemma BurstsAreDetected(s: Code, e: Code, lo: nat)
    requires Burst(e, lo)
    ensures Syndrome(Sum(s, e)) != Syndrome(s)
  {
    var b := e[lo..lo + 10];
    BurstParts(e, lo);
    ResidueOfPadded(lo, b + Zeros(16 - lo));
    ShiftedResidueIsNonZero(b, 16 - lo);
    ResidueOfSum(s, e);
    SumUnit(Residue(e), Residue(s));
    SumCommutes(Residue(e), Residue(s));
  }

  lemma OffsetWordsDiffer(j: nat, k: nat)
    requires j < k < 5
    ensures OffsetWord(j) != OffsetWord(k)
  {
  }

  /** Block synchronisation: the syndrome of an error-free block names its position in the
      group and, for the third block, the version of the group. */
  lemma SyndromeIdentifiesBlock(b: Block, j: nat, k: nat)
    requires j < 5 && k < 5
    requires b.checkword == Zeros(10) && b.offsetWord == OffsetWord(k)
    ensures Syndrome(Encode(b)) == OffsetWord(j) <==> j == k
  {
    SyndromeOfBlock(b);
    if j < k { OffsetWordsDiffer(j, k); }
    if k < j { OffsetWordsDiffer(k, j); }
  }
}
