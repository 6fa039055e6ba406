/** Division, remainders and places in a cycle. */
module Arithmetic {

  lemma MulGrows(d: int, k: int)
    requires d > 0 && k >= 1
    ensures d * k >= d
  {
    assert d * k == d + d * (k - 1);
  }

  lemma DivModUnique(x: int, d: int, q: int, r: int)
    requires d > 0 && 0 <= r < d
    requires x == d * q + r
    ensures x % d == r && x / d == q
  {
    var q', r' := x / d, x % d;
    assert d * (q - q') == r' - r && d * (q' - q) == r - r';
    if q > q' {
      MulGrows(d, q - q');
    } else if q < q' {
      MulGrows(d, q' - q);
    }
  }

  /** The place of turn m in a cycle. */
  function Place(m: nat, cycle: nat): (p: nat)
    requires cycle > 0
    ensures p < cycle
  {
    if m == 0 then 0 else if Place(m - 1, cycle) == cycle - 1 then 0 else Place(m - 1, cycle) + 1
  }

  lemma {:induction false} PlaceIsRemainder(m: nat, cycle: nat)
    requires cycle > 0
    ensures Place(m, cycle) == m % cycle
  {
    if m > 0 {
      PlaceIsRemainder(m - 1, cycle);
      NextRemainder(m - 1, cycle);
    }
  }

  lemma NextRemainder(m: nat, c: nat)
    requires c > 0
    ensures (m + 1) % c == if m % c == c - 1 then 0 else m % c + 1
  {
    var q, r := m / c, m % c;
    assert m == c * q + r;
    if r == c - 1 {
      assert m + 1 == c * (q + 1) + 0;
      DivModUnique(m + 1, c, q + 1, 0);
    } else {
      DivModUnique(m + 1, c, q, r + 1);
    }
  }
}
