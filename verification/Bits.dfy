/** Machine words as bit strings, most significant bit first. */
module Bits {
  import opened Arithmetic

  function Pow2(n: nat): (p: nat)
    ensures p >= 1
  {
    if n == 0 then 1 else 2 * Pow2(n - 1)
  }

  /** Bit k of x in two's complement. */
  predicate Bit(x: int, k: nat)
    decreases k
  {
    if k == 0 then x % 2 == 1 else Bit(x / 2, k - 1)
  }

  /** The low n bits of x: what is left of x after it is stored in an unsigned field. */
  function ToBits(x: int, n: nat): (s: seq<bool>)
    ensures |s| == n
    ensures forall i :: 0 <= i < n ==> s[i] == Bit(x, n - 1 - i)
  {
    seq(n, i requires 0 <= i < n => Bit(x, n - 1 - i))
  }

  /** The unsigned value of a bit string. */
  function Value(s: seq<bool>): nat {
    if |s| == 0 then 0 else 2 * Value(s[..|s| - 1]) + (if s[|s| - 1] then 1 else 0)
  }

  /** Bitwise or of two words of the same width. */
  function Or(a: seq<bool>, b: seq<bool>): (s: seq<bool>)
    requires |a| == |b|
    ensures |s| == |a|
    ensures forall i :: 0 <= i < |a| ==> s[i] == (a[i] || b[i])
  {
    seq(|a|, i requires 0 <= i < |a| => a[i] || b[i])
  }

  function Zeros(n: nat): (z: seq<bool>)
    ensures |z| == n
    ensures forall i :: 0 <= i < n ==> !z[i]
  {
    seq(n, _ => false)
  }

  lemma Halve(x: int, p: nat)
    requires p >= 1
    ensures x / (2 * p) == (x / 2) / p
    ensures x % (2 * p) == 2 * ((x / 2) % p) + x % 2
  {
    var q, r := (x / 2) / p, (x / 2) % p;
    assert x == (2 * p) * q + (2 * r + x % 2) by {
      assert x == 2 * (x / 2) + x % 2;
      assert x / 2 == p * q + r;
    }
    DivModUnique(x, 2 * p, q, 2 * r + x % 2);
  }

  lemma {:induction false} BitOfQuotient(x: int, b: nat, k: nat)
    ensures Bit(x / Pow2(b), k) == Bit(x, k + b)
    decreases b
  {
    if b > 0 {
      Halve(x, Pow2(b - 1));
      BitOfQuotient(x / 2, b - 1, k);
    }
  }

  /** Storing a word takes its last bit from the parity and the others from the half. */
  lemma BitsStep(x: int, n: nat)
    ensures ToBits(x, n + 1) == ToBits(x / 2, n) + [x % 2 == 1]
  {
    var s, t := ToBits(x, n + 1), ToBits(x / 2, n);
    assert forall i :: 0 <= i < n ==> s[i] == t[i];
  }

  /** Storing x in n bits and reading it back truncates it modulo 2^n. */
  lemma {:induction false} ValueOfBits(x: int, n: nat)
    ensures Value(ToBits(x, n)) == x % Pow2(n)
    decreases n
  {
    if n > 0 {
      BitsStep(x, n - 1);
      assert ToBits(x, n)[..n - 1] == ToBits(x / 2, n - 1);
      ValueOfBits(x / 2, n - 1);
      Halve(x, Pow2(n - 1));
    }
  }

  /** The high part of a word is the word of the quotient. */
  lemma BitsSplit(x: int, a: nat, b: nat)
    ensures ToBits(x, a + b) == ToBits(x / Pow2(b), a) + ToBits(x, b)
  {
    var s, t := ToBits(x, a + b), ToBits(x / Pow2(b), a);
    forall i | 0 <= i < a
      ensures s[i] == t[i]
    {
      BitOfQuotient(x, b, a - 1 - i);
    }
  }

  /** A number stored in two pieces is read back from them. */
  lemma ValueOfParts(x: int, a: nat, b: nat)
    ensures Value(ToBits(x / Pow2(b), a) + ToBits(x, b)) == x % Pow2(a + b)
  {
    BitsSplit(x, a, b);
    ValueOfBits(x, a + b);
  }

  /** Leading zeros do not change a value. */
  lemma {:induction false} ValueOfPadded(n: nat, s: seq<bool>)
    ensures Value(Zeros(n) + s) == Value(s)
  {
    if |s| > 0 {
      var m := |s| - 1;
      assert (Zeros(n) + s)[..n + m] == Zeros(n) + s[..m];
      ValueOfPadded(n, s[..m]);
    } else if n > 0 {
      assert (Zeros(n) + s)[..n - 1] == Zeros(n - 1) + s;
      ValueOfPadded(n - 1, s);
    }
  }
}
