/** Polynomials over GF(2), written as bit strings with the highest power first, and division
    by the RDS generator polynomial (IEC 62106, Annex B). */
module Polynomials {
  import opened Bits

  /** The sum of two polynomials. */
  function Sum(a: seq<bool>, b: seq<bool>): (s: seq<bool>)
    requires |a| == |b|
    ensures |s| == |a|
    ensures forall i :: 0 <= i < |a| ==> s[i] == (a[i] != b[i])
  {
    seq(|a|, i requires 0 <= i < |a| => a[i] != b[i])
  }

  /** g(x) = x^10 + x^8 + x^7 + x^5 + x^4 + x^3 + 1 */
  const GENERATOR: seq<bool> :=
    [true, false, true, true, false, true, true, true, false, false, true]

  /** A polynomial of degree below ten. */
  type Residue10 = r: seq<bool> | |r| == 10 witness Zeros(10)

  /** x * r + b modulo g: bring b down and subtract g if the degree reached ten. */
  function Shift(r: Residue10, b: bool): Residue10 {
    var s := r[1..] + [b];
    if r[0] then Sum(s, GENERATOR[1..]) else s
  }

  /** The residue of w modulo g, by Horner's rule. */
  function Residue(w: seq<bool>): Residue10 {
    if |w| == 0 then Zeros(10) else Shift(Residue(w[..|w| - 1]), w[|w| - 1])
  }

  /** x^n modulo g. */
  function PowerX(n: nat): Residue10 {
    if n == 0 then Zeros(9) + [true] else Shift(PowerX(n - 1), false)
  }

  /** The product of q and g, by the schoolbook rule: one shifted copy of g for every
      non-zero coefficient of q. */
  function TimesG(q: seq<bool>): (p: seq<bool>)
    ensures |p| == |q| + 10
  {
    if |q| == 0 then Zeros(10)
    else
      var n := |q| - 1;
      Sum(TimesG(q[..n]) + [false], Zeros(n) + Multiple(q[n]))
  }

  /** The copy of g, or nothing, that one coefficient contributes to a product. */
  function Multiple(b: bool): (m: seq<bool>)
    ensures |m| == 11
  {
    if b then GENERATOR else Zeros(11)
  }

  /** The quotient of w by g: the leading coefficients cleared by the long division. */
  function Quotient(w: seq<bool>): (q: seq<bool>)
    requires |w| >= 10
    ensures |q| == |w| - 10
  {
    if |w| == 10 then [] else Quotient(w[..|w| - 1]) + [Residue(w[..|w| - 1])[0]]
  }

  lemma ShiftIsLinear(a: Residue10, b: Residue10, c: bool, d: bool)
    ensures Shift(Sum(a, b), c != d) == Sum(Shift(a, c), Shift(b, d))
  {
  }

  /** Multiplying by x loses nothing, because g has a constant term. */
  lemma ShiftIsInjective(a: Residue10)
    requires a != Zeros(10)
    ensures Shift(a, false) != Zeros(10)
  {
    var s := Shift(a, false);
    if a[0] {
      assert s[9];
    } else {
      var i :| 0 <= i < 10 && a[i];
      assert s[i - 1];
    }
  }

  lemma {:induction false} ResidueOfSum(a: seq<bool>, b: seq<bool>)
    requires |a| == |b|
    ensures Residue(Sum(a, b)) == Sum(Residue(a), Residue(b))
  {
    if |a| > 0 {
      var n := |a| - 1;
      assert Sum(a, b)[..n] == Sum(a[..n], b[..n]);
      ResidueOfSum(a[..n], b[..n]);
      ShiftIsLinear(Residue(a[..n]), Residue(b[..n]), a[n], b[n]);
    }
  }

  /** A polynomial of degree below ten is its own residue. */
  lemma {:induction false} ResidueOfShort(w: seq<bool>)
    requires |w| <= 10
    ensures Residue(w) == Zeros(10 - |w|) + w
  {
    if |w| > 0 {
      ResidueOfShort(w[..|w| - 1]);
    }
  }

  lemma {:induction false} ResidueOfZeros(n: nat)
    ensures Residue(Zeros(n)) == Zeros(10)
  {
    if n > 0 {
      assert Zeros(n)[..n - 1] == Zeros(n - 1);
      ResidueOfZeros(n - 1);
    }
  }

  /** Leading zeros do not change a residue. */
  lemma {:induction false} ResidueOfPadded(n: nat, w: seq<bool>)
    ensures Residue(Zeros(n) + w) == Residue(w)
  {
    if |w| > 0 {
      var m := |w| - 1;
      assert (Zeros(n) + w)[..n + m] == Zeros(n) + w[..m];
      ResidueOfPadded(n, w[..m]);
    } else {
      assert Zeros(n) + w == Zeros(n);
      ResidueOfZeros(n);
    }
  }

  lemma {:induction false} ResidueOfPower(n: nat)
    ensures Residue([true] + Zeros(n)) == PowerX(n)
  {
    var w := [true] + Zeros(n);
    if n == 0 {
      ResidueOfShort(w);
    } else {
      assert w[..n] == [true] + Zeros(n - 1);
      ResidueOfPower(n - 1);
    }
  }

  /** Setting one coefficient adds one power of x to the residue. */
  lemma ResidueOfCoefficient(p: seq<bool>, n: nat)
    ensures Residue(p + [true] + Zeros(n)) == Sum(Residue(p + Zeros(n + 1)), PowerX(n))
  {
    var h := Zeros(|p|) + ([true] + Zeros(n));
    assert p + [true] + Zeros(n) == Sum(p + Zeros(n + 1), h);
    ResidueOfSum(p + Zeros(n + 1), h);
    ResidueOfPadded(|p|, [true] + Zeros(n));
    ResidueOfPower(n);
  }

  /** w = q * g + r */
  ghost predicate Divides(w: seq<bool>, q: seq<bool>, r: Residue10) {
    |w| == |q| + 10 && w == Sum(TimesG(q), Zeros(|q|) + r)
  }

  lemma Subtract(r: Residue10, b: bool)
    ensures r + [b] == Sum(Multiple(r[0]), [false] + Shift(r, b))
  {
    var s := Sum(Multiple(r[0]), [false] + Shift(r, b));
    assert s[0] == r[0];
    forall i | 1 <= i < 11
      ensures s[i] == (r + [b])[i]
    {
      assert ([false] + Shift(r, b))[i] == Shift(r, b)[i - 1];
    }
  }

  lemma PadSum(n: nat, a: seq<bool>, b: seq<bool>)
    requires |a| == |b|
    ensures Zeros(n) + Sum(a, b) == Sum(Zeros(n) + a, Zeros(n) + b)
  {
  }

  lemma SumAssociates(a: seq<bool>, b: seq<bool>, c: seq<bool>)
    requires |a| == |b| == |c|
    ensures Sum(Sum(a, b), c) == Sum(a, Sum(b, c))
  {
  }

  lemma SumAppend(a: seq<bool>, b: seq<bool>, c: bool)
    requires |a| == |b|
    ensures Sum(a, b) + [c] == Sum(a + [false], b + [c])
  {
  }

  /** One step of the long division. */
  lemma DivisionStep(w: seq<bool>, q: seq<bool>, r: Residue10, b: bool)
    requires Divides(w, q, r)
    ensures Divides(w + [b], q + [r[0]], Shift(r, b))
  {
    var n, t, h := |q|, TimesG(q), Multiple(r[0]);
    var rest := Zeros(n) + ([false] + Shift(r, b));
    calc {
      w + [b];
      { SumAppend(t, Zeros(n) + r, b); }
      Sum(t + [false], Zeros(n) + r + [b]);
      { assert Zeros(n) + r + [b] == Zeros(n) + (r + [b]); Subtract(r, b); }
      Sum(t + [false], Zeros(n) + Sum(h, [false] + Shift(r, b)));
      { PadSum(n, h, [false] + Shift(r, b)); }
      Sum(t + [false], Sum(Zeros(n) + h, rest));
      { SumAssociates(t + [false], Zeros(n) + h, rest); }
      Sum(Sum(t + [false], Zeros(n) + h), rest);
      { TimesGStep(q, r[0]); assert rest == Zeros(n + 1) + Shift(r, b); }
      Sum(TimesG(q + [r[0]]), Zeros(n + 1) + Shift(r, b));
    }
  }

  lemma TimesGStep(q: seq<bool>, b: bool)
    ensures TimesG(q + [b]) == Sum(TimesG(q) + [false], Zeros(|q|) + Multiple(b))
  {
    assert (q + [b])[..|q|] == q;
  }

  lemma DivisionBase(w: seq<bool>)
    requires |w| == 10
    ensures Divides(w, [], Residue(w))
  {
    ResidueOfShort(w);
    assert Zeros(0) + w == w;
    assert TimesG([]) == Zeros(10);
    assert Sum(Zeros(10), w) == w;
  }

  lemma DivisionParts(w: seq<bool>, v: seq<bool>, b: bool)
    requires |v| >= 10 && |w| == |v| + 1 && v == w[..|v|] && b == w[|v|]
    ensures v + [b] == w && Residue(w) == Shift(Residue(v), b) && Quotient(w) == Quotient(v) + [Residue(v)[0]]
  {
    assert w[..|w| - 1] == v && w[|w| - 1] == b;
  }

  /** Long division: every polynomial is a multiple of g plus its residue. */
  lemma {:induction false} Division(w: seq<bool>)
    requires |w| >= 10
    ensures Divides(w, Quotient(w), Residue(w))
  {
    if |w| == 10 {
      DivisionBase(w);
    } else {
      var v, b := w[..|w| - 1], w[|w| - 1];
      Division(v);
      DivisionStep(v, Quotient(v), Residue(v), b);
      DivisionParts(w, v, b);
    }
  }

  lemma ResidueOfGenerator()
    ensures Residue(GENERATOR) == Zeros(10)
  {
    ResidueOfShort(GENERATOR[..10]);
    assert Shift(GENERATOR[..10], true) == Zeros(10);
  }

  lemma ResidueOfCopy(n: nat, b: bool)
    ensures Residue(Zeros(n) + Multiple(b)) == Zeros(10)
  {
    ResidueOfPadded(n, Multiple(b));
    if b { ResidueOfGenerator(); } else { ResidueOfZeros(11); }
  }

  lemma ResidueOfShifted(p: seq<bool>)
    requires Residue(p) == Zeros(10)
    ensures Residue(p + [false]) == Zeros(10)
  {
    assert (p + [false])[..|p|] == p;
  }

  lemma {:induction false} ResidueOfMultiple(q: seq<bool>)
    ensures Residue(TimesG(q)) == Zeros(10)
  {
    if |q| == 0 {
      ResidueOfZeros(10);
    } else {
      var n := |q| - 1;
      ResidueOfMultiple(q[..n]);
      ResidueOfShifted(TimesG(q[..n]));
      ResidueOfCopy(n, q[n]);
      ResidueOfSum(TimesG(q[..n]) + [false], Zeros(n) + Multiple(q[n]));
    }
  }

  /** The residue is the only polynomial of degree below ten that differs from w by a
      multiple of g. */
  lemma ResidueIsUnique(w: seq<bool>, q: seq<bool>, r: Residue10)
    requires Divides(w, q, r)
    ensures r == Residue(w)
  {
    ResidueOfSum(TimesG(q), Zeros(|q|) + r);
    ResidueOfMultiple(q);
    ResidueOfPadded(|q|, r);
    ResidueOfShort(r);
  }
}
