/** Block synchronisation as the standard describes it: a receiver multiplies 26 received bits by
    the parity-check matrix and finds one of five syndromes (IEC 62106, Annex B). Nothing that it
    uses is taken from the tables of the encoder. */
module Sync {
  import opened Bits
  import opened Polynomials
  import opened BlockCode
  import opened Groups
  import opened Machine
  import opened Air

  /** The parity-check matrix. */
  function ParityRow(i: nat): bv10
    requires i < 26
  {
    match i
    case 0 => 0x200
    case 1 => 0x100
    case 2 => 0x080
    case 3 => 0x040
    case 4 => 0x020
    case 5 => 0x010
    case 6 => 0x008
    case 7 => 0x004
    case 8 => 0x002
    case 9 => 0x001
    case 10 => 0x2DC
    case 11 => 0x16E
    case 12 => 0x0B7
    case 13 => 0x287
    case 14 => 0x39F
    case 15 => 0x313
    case 16 => 0x355
    case 17 => 0x376
    case 18 => 0x1BB
    case 19 => 0x201
    case 20 => 0x3DC
    case 21 => 0x1EE
    case 22 => 0x0F7
    case 23 => 0x2A7
    case 24 => 0x38F
    case 25 => 0x31B
  }

  /** The rows selected by the first n bits of y. */
  function PartSyndrome(y: Code, n: nat): bv10
    requires n <= 26
  {
    if n == 0 then 0
    else if y[n - 1] then PartSyndrome(y, n - 1) ^ ParityRow(n - 1)
    else PartSyndrome(y, n - 1)
  }

  /** What a receiver computes from 26 received bits. */
  function ParitySyndrome(y: Code): bv10 {
    PartSyndrome(y, 26)
  }

  /** The syndromes of the blocks of a group: A, B, C or C', and D. */
  function StandardSyndrome(m: Message, j: nat): bv10
    requires j < 4
  {
    match j
    case 0 => 0x3D8
    case 1 => 0x3D4
    case 2 => if m.w2[4] then 0x3CC else 0x25C
    case 3 => 0x258
  }

  // ---------- Ten bits as a polynomial ----------

  function Mask(i: nat): bv10
    requires i < 10
  {
    match i
    case 0 => 0x200
    case 1 => 0x100
    case 2 => 0x080
    case 3 => 0x040
    case 4 => 0x020
    case 5 => 0x010
    case 6 => 0x008
    case 7 => 0x004
    case 8 => 0x002
    case 9 => 0x001
  }

  /** The coefficient of x^(9 - i). */
  predicate Pick(a: bv10, i: nat)
    requires i < 10
  {
    a & Mask(i) != 0
  }

  lemma OneBitOfSum(a: bv10, b: bv10, m: bv10)
    requires m != 0 && m & (m - 1) == 0
    ensures ((a ^ b) & m != 0) == ((a & m != 0) != (b & m != 0))
  {
  }

  lemma MaskIsOneBit(i: nat)
    requires i < 10
    ensures Mask(i) != 0 && Mask(i) & (Mask(i) - 1) == 0
    ensures i < 9 ==> Mask(i) == Mask(i + 1) << 1
  {
  }

  function Word(a: bv10): (w: Residue10)
    ensures forall i :: 0 <= i < 10 ==> w[i] == Pick(a, i)
  {
    seq(10, i requires 0 <= i < 10 => Pick(a, i))
  }

  lemma PickOfSum(a: bv10, b: bv10, i: nat)
    requires i < 10
    ensures Pick(a ^ b, i) == (Pick(a, i) != Pick(b, i))
  {
    MaskIsOneBit(i);
    OneBitOfSum(a, b, Mask(i));
  }

  lemma WordOfSum(a: bv10, b: bv10)
    ensures Word(a ^ b) == Sum(Word(a), Word(b))
  {
    forall i | 0 <= i < 10
      ensures Word(a ^ b)[i] == Sum(Word(a), Word(b))[i]
    {
      PickOfSum(a, b, i);
    }
  }

  /** x * a modulo g. */
  function Twice(a: bv10): bv10 {
    if a & 0x200 != 0 then (a << 1) ^ 0x1B9 else a << 1
  }

  lemma OneBitOfDouble(a: bv10, m: bv10)
    requires m & 0x200 == 0
    ensures ((a << 1) & (m << 1) != 0) == (a & m != 0)
  {
  }

  lemma PickOfDouble(a: bv10, i: nat)
    requires i < 10
    ensures Pick(a << 1, i) == (i < 9 && Pick(a, i + 1))
  {
    if i < 9 {
      MaskIsOneBit(i);
      OneBitOfDouble(a, Mask(i + 1));
    }
  }

  lemma PickOfG(i: nat)
    requires i < 10
    ensures Pick(0x1B9, i) == GENERATOR[i + 1]
  {
  }

  lemma PickOfTwice(a: bv10, i: nat)
    requires i < 10
    ensures Pick(Twice(a), i) == ((i < 9 && Pick(a, i + 1)) != (Pick(a, 0) && GENERATOR[i + 1]))
  {
    PickOfDouble(a, i);
    PickOfG(i);
    PickOfSum(a << 1, 0x1B9, i);
  }

  lemma ShiftAt(r: Residue10, i: nat)
    requires i < 10
    ensures Shift(r, false)[i] == ((i < 9 && r[i + 1]) != (r[0] && GENERATOR[i + 1]))
  {
  }

  lemma WordOfTwice(a: bv10)
    ensures Word(Twice(a)) == Shift(Word(a), false)
  {
    forall i | 0 <= i < 10
      ensures Word(Twice(a))[i] == Shift(Word(a), false)[i]
    {
      PickOfTwice(a, i);
      ShiftAt(Word(a), i);
    }
  }

  lemma NoBits(c: bv10)
    requires c & 0x200 == 0 && c & 0x100 == 0 && c & 0x080 == 0 && c & 0x040 == 0 && c & 0x020 == 0
    requires c & 0x010 == 0 && c & 0x008 == 0 && c & 0x004 == 0 && c & 0x002 == 0 && c & 0x001 == 0
    ensures c == 0
  {
  }

  lemma ClearBit(c: bv10, i: nat, m: bv10)
    requires i < 10 && Word(c) == Zeros(10) && Mask(i) == m
    ensures c & m == 0
  {
    assert !Word(c)[i];
  }

  lemma ZeroWord(c: bv10)
    requires Word(c) == Zeros(10)
    ensures c == 0
  {
    ClearBit(c, 0, 0x200);
    ClearBit(c, 1, 0x100);
    ClearBit(c, 2, 0x080);
    ClearBit(c, 3, 0x040);
    ClearBit(c, 4, 0x020);
    ClearBit(c, 5, 0x010);
    ClearBit(c, 6, 0x008);
    ClearBit(c, 7, 0x004);
    ClearBit(c, 8, 0x002);
    ClearBit(c, 9, 0x001);
    NoBits(c);
  }

  lemma XorIsZero(a: bv10, b: bv10)
    requires a ^ b == 0
    ensures a == b
  {
  }

  lemma WordIsInjective(a: bv10, b: bv10)
    requires Word(a) == Word(b)
    ensures a == b
  {
    WordOfSum(a, b);
    assert Sum(Word(a), Word(a)) == Zeros(10);
    ZeroWord(a ^ b);
    XorIsZero(a, b);
  }

  // ---------- The matrix is a table of powers of x ----------

  lemma ParityRowStep(i: nat)
    requires 0 < i < 26
    ensures ParityRow(i - 1) == Twice(ParityRow(i))
  {
  }

  /** Row i of the matrix, as a polynomial. */
  function RowWord(i: nat): Residue10
    requires i < 26
  {
    Word(ParityRow(i))
  }

  lemma RowWordStep(i: nat)
    requires 0 < i < 26
    ensures RowWord(i - 1) == Shift(RowWord(i), false)
  {
    ParityRowStep(i);
    WordOfTwice(ParityRow(i));
  }

  /** k-fold multiplication by x. */
  function Times(k: nat, r: Residue10): Residue10 {
    if k == 0 then r else Shift(Times(k - 1, r), false)
  }

  lemma {:induction false} RowsUp(k: nat, i: nat)
    requires k <= i < 26
    ensures Times(k, RowWord(i)) == RowWord(i - k)
  {
    if k > 0 {
      RowsUp(k - 1, i);
      RowWordStep(i - k + 1);
    }
  }

  lemma {:induction false} TimesShift(k: nat, r: Residue10)
    ensures Times(k, Shift(r, false)) == Shift(Times(k, r), false)
  {
    if k > 0 { TimesShift(k - 1, r); }
  }

  lemma {:induction false} TimesIsLinear(k: nat, a: Residue10, b: Residue10)
    ensures Times(k, Sum(a, b)) == Sum(Times(k, a), Times(k, b))
  {
    if k > 0 {
      TimesIsLinear(k - 1, a, b);
      ShiftIsLinear(Times(k - 1, a), Times(k - 1, b), false, false);
    }
  }

  lemma {:induction false} TimesOfZero(k: nat)
    ensures Times(k, Zeros(10)) == Zeros(10)
  {
    if k > 0 { TimesOfZero(k - 1); }
  }

  lemma {:induction false} TimesIsInjective(k: nat, a: Residue10)
    requires Times(k, a) == Zeros(10)
    ensures a == Zeros(10)
  {
    if k > 0 {
      if Times(k - 1, a) != Zeros(10) { ShiftIsInjective(Times(k - 1, a)); }
      TimesIsInjective(k - 1, a);
    }
  }

  lemma LastUnitRow()
    ensures RowWord(9) == PowerX(0)
  {
    assert forall i :: 0 <= i < 10 ==> Word(0x001)[i] == (i == 9);
  }

  /** Row i is x^(25 - i) divided by x^k, where k is 16. */
  lemma {:induction false} RowIsQuotient(k: nat, i: nat)
    requires k == 16 && i < 26
    ensures Times(k, RowWord(i)) == PowerX(25 - i)
    decreases 25 - i
  {
    if i == 25 {
      RowsUp(k, i);
      LastUnitRow();
    } else {
      RowIsQuotient(k, i + 1);
      RowWordStep(i + 1);
      TimesShift(k, RowWord(i + 1));
    }
  }

  // ---------- The matrix and the division by g ----------

  lemma RowAdded(k: nat, p: seq<bool>, n: nat, s: bv10, r: bv10)
    requires Times(k, Word(s)) == Residue(p + Zeros(n + 1)) && Times(k, Word(r)) == PowerX(n)
    ensures Times(k, Word(s ^ r)) == Residue(p + [true] + Zeros(n))
  {
    WordOfSum(s, r);
    ResidueOfCoefficient(p, n);
    TimesIsLinear(k, Word(s), Word(r));
  }

  lemma WordOfZero()
    ensures Word(0) == Zeros(10)
  {
  }

  lemma NextBit(k: nat, y: Code, n: nat, s: bv10, t: bv10, r: bv10)
    requires n < 26 && Times(k, Word(s)) == Residue(y[..n] + Zeros(26 - n)) && Times(k, Word(r)) == PowerX(25 - n)
    requires t == if y[n] then s ^ r else s
    ensures Times(k, Word(t)) == Residue(y[..n + 1] + Zeros(25 - n))
  {
    var p := y[..n];
    if y[n] {
      assert y[..n + 1] + Zeros(25 - n) == p + [true] + Zeros(25 - n);
      RowAdded(k, p, 25 - n, s, r);
    } else {
      assert y[..n + 1] + Zeros(25 - n) == p + Zeros(26 - n);
    }
  }

  lemma {:induction false} PartIsResidue(k: nat, y: Code, n: nat)
    requires k == 16 && n <= 26
    ensures Times(k, Word(PartSyndrome(y, n))) == Residue(y[..n] + Zeros(26 - n))
  {
    if n == 0 {
      assert y[..0] + Zeros(26) == Zeros(26);
      ResidueOfZeros(26);
      WordOfZero();
      TimesOfZero(k);
    } else {
      PartIsResidue(k, y, n - 1);
      RowIsQuotient(k, n - 1);
      NextBit(k, y, n - 1, PartSyndrome(y, n - 1), PartSyndrome(y, n), ParityRow(n - 1));
    }
  }

  /** The syndrome of the standard, multiplied by x^16, is the residue of the received bits. */
  lemma ParityIsResidue(k: nat, y: Code)
    requires k == 16
    ensures Times(k, Word(ParitySyndrome(y))) == Residue(y)
  {
    PartIsResidue(k, y, 26);
    assert y[..26] + Zeros(0) == y;
  }

  lemma SumOfEqual(a: Residue10, b: Residue10)
    ensures Sum(a, b) == Zeros(10) <==> a == b
  {
    if Sum(a, b) == Zeros(10) {
      assert forall i :: 0 <= i < 10 ==> !Sum(a, b)[i];
    }
  }

  /** The two syndromes identify the same words. */
  lemma SyndromesAgree(y: Code, z: Code)
    ensures ParitySyndrome(y) == ParitySyndrome(z) <==> Syndrome(y) == Syndrome(z)
  {
    var k, a, b := 16, Word(ParitySyndrome(y)), Word(ParitySyndrome(z));
    ParityIsResidue(k, y);
    ParityIsResidue(k, z);
    if Syndrome(y) == Syndrome(z) {
      TimesIsLinear(k, a, b);
      SumOfEqual(Times(k, a), Times(k, b));
      TimesIsInjective(k, Sum(a, b));
      SumOfEqual(a, b);
      WordIsInjective(ParitySyndrome(y), ParitySyndrome(z));
    }
  }

  // ---------- The syndromes of the offset words ----------

  lemma {:induction false} LeadingZeros(y: Code, n: nat)
    requires n <= 26 && forall i :: 0 <= i < n ==> !y[i]
    ensures PartSyndrome(y, n) == 0
  {
    if n > 0 { LeadingZeros(y, n - 1); }
  }

  lemma AddRow(y: Code, n: nat, s: bv10)
    requires n < 26 && s == if y[n] then PartSyndrome(y, n) ^ ParityRow(n) else PartSyndrome(y, n)
    ensures PartSyndrome(y, n + 1) == s
  {
  }

  lemma SyndromeOfA(y: Code, n: nat)
    requires n == 16 && y == Zeros(n) + OffsetWord(0)
    ensures PartSyndrome(y, n + 10) == 0x3D8
  {
    LeadingZeros(y, n);
    AddRow(y, n, 0);
    AddRow(y, n + 1, 0);
    AddRow(y, n + 2, 0x1BB);
    AddRow(y, n + 3, 0x3BA);
    AddRow(y, n + 4, 0x066);
    AddRow(y, n + 5, 0x188);
    AddRow(y, n + 6, 0x17F);
    AddRow(y, n + 7, 0x3D8);
    AddRow(y, n + 8, 0x3D8);
    AddRow(y, n + 9, 0x3D8);
  }

  lemma SyndromeOfB(y: Code, n: nat)
    requires n == 16 && y == Zeros(n) + OffsetWord(1)
    ensures PartSyndrome(y, n + 10) == 0x3D4
  {
    LeadingZeros(y, n);
    AddRow(y, n, 0);
    AddRow(y, n + 1, 0x376);
    AddRow(y, n + 2, 0x2CD);
    AddRow(y, n + 3, 0x2CD);
    AddRow(y, n + 4, 0x2CD);
    AddRow(y, n + 5, 0x323);
    AddRow(y, n + 6, 0x3D4);
    AddRow(y, n + 7, 0x3D4);
    AddRow(y, n + 8, 0x3D4);
    AddRow(y, n + 9, 0x3D4);
  }

  lemma SyndromeOfC(y: Code, n: nat)
    requires n == 16 && y == Zeros(n) + OffsetWord(2)
    ensures PartSyndrome(y, n + 10) == 0x25C
  {
    LeadingZeros(y, n);
    AddRow(y, n, 0);
    AddRow(y, n + 1, 0x376);
    AddRow(y, n + 2, 0x376);
    AddRow(y, n + 3, 0x177);
    AddRow(y, n + 4, 0x2AB);
    AddRow(y, n + 5, 0x2AB);
    AddRow(y, n + 6, 0x25C);
    AddRow(y, n + 7, 0x25C);
    AddRow(y, n + 8, 0x25C);
    AddRow(y, n + 9, 0x25C);
  }

  lemma SyndromeOfD(y: Code, n: nat)
    requires n == 16 && y == Zeros(n) + OffsetWord(3)
    ensures PartSyndrome(y, n + 10) == 0x258
  {
    LeadingZeros(y, n);
    AddRow(y, n, 0);
    AddRow(y, n + 1, 0x376);
    AddRow(y, n + 2, 0x2CD);
    AddRow(y, n + 3, 0x2CD);
    AddRow(y, n + 4, 0x111);
    AddRow(y, n + 5, 0x0FF);
    AddRow(y, n + 6, 0x0FF);
    AddRow(y, n + 7, 0x258);
    AddRow(y, n + 8, 0x258);
    AddRow(y, n + 9, 0x258);
  }

  lemma SyndromeOfAltC(y: Code, n: nat)
    requires n == 16 && y == Zeros(n) + OffsetWord(4)
    ensures PartSyndrome(y, n + 10) == 0x3CC
  {
    LeadingZeros(y, n);
    AddRow(y, n, 0x355);
    AddRow(y, n + 1, 0x023);
    AddRow(y, n + 2, 0x023);
    AddRow(y, n + 3, 0x222);
    AddRow(y, n + 4, 0x222);
    AddRow(y, n + 5, 0x3CC);
    AddRow(y, n + 6, 0x3CC);
    AddRow(y, n + 7, 0x3CC);
    AddRow(y, n + 8, 0x3CC);
    AddRow(y, n + 9, 0x3CC);
  }

  /** The syndrome that the standard gives for each offset word. */
  lemma SyndromeOfOffset(k: nat)
    requires k < 5
    ensures ParitySyndrome(Zeros(16) + OffsetWord(k)) == match k case 0 => 0x3D8 case 1 => 0x3D4 case 2 => 0x25C
                                                               case 3 => 0x258 case 4 => 0x3CC
  {
    var n := 16;
    var y := Zeros(n) + OffsetWord(k);
    match k
    case 0 => SyndromeOfA(y, n);
    case 1 => SyndromeOfB(y, n);
    case 2 => SyndromeOfC(y, n);
    case 3 => SyndromeOfD(y, n);
    case 4 => SyndromeOfAltC(y, n);
  }

  // ---------- Every block on air ----------

  lemma ResidueOfOffset(o: Residue10)
    ensures Syndrome(Zeros(16) + o) == o
  {
    ResidueOfPadded(16, o);
    ResidueOfShort(o);
  }

  /** The receiver of the standard finds the syndrome of block j in block j of every group, and the
      third block shows the version of the group. */
  lemma BlocksSynchronise(m: Message, j: nat)
    requires j < 4 && Consistent(m)
    ensures ParitySyndrome(CodesOf(m)[j]) == StandardSyndrome(m, j)
  {
    var k := OffsetIndex(m, j);
    SyndromeShowsPosition(m, j, k);
    ResidueOfOffset(OffsetWord(k));
    SyndromesAgree(CodesOf(m)[j], Zeros(16) + OffsetWord(k));
    SyndromeOfOffset(k);
  }

  /** So it does in every block of every group that the encoder ever sends. */
  lemma EncoderSynchronises(e: Encoder, signed: bool, j: nat)
    requires j < 4 && Transmit(e, signed).0.Sent?
    ensures var m := Transmit(e, signed).0.msg;
            ParitySyndrome(CodesOf(m)[j]) == StandardSyndrome(m, j)
  {
    SentIsConsistent(e, signed);
    BlocksSynchronise(Transmit(e, signed).0.msg, j);
  }
}
