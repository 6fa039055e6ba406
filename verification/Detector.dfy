/** A synchronous detector at work on the MPX signal: over one turn of the pilot it finds each
    component at its own frequency and nothing of the others. */
module Detector {
  import opened Mpx
  import opened Spectrum

  // ---------- Orthogonal waves ----------

  /** The waves that the output is made of. */
  datatype Wave = Constant | Sine19 | Sine38 | Cosine38 | Sine57

  /** Their values over one turn of the pilot, where r is half the root of three. */
  ghost predicate Follows(f: nat -> real, b: Wave, r: real) {
    match b
    case Constant =>
      && f(0) == 1.0 && f(1) == 1.0 && f(2) == 1.0 && f(3) == 1.0 && f(4) == 1.0 && f(5) == 1.0
      && f(6) == 1.0 && f(7) == 1.0 && f(8) == 1.0 && f(9) == 1.0 && f(10) == 1.0 && f(11) == 1.0
    case Sine19 =>
      && f(0) == 0.0 && f(1) == 0.5 && f(2) == r && f(3) == 1.0 && f(4) == r && f(5) == 0.5
      && f(6) == 0.0 && f(7) == -0.5 && f(8) == -r && f(9) == -1.0 && f(10) == -r && f(11) == -0.5
    case Sine38 =>
      && f(0) == 0.0 && f(1) == r && f(2) == r && f(3) == 0.0 && f(4) == -r && f(5) == -r
      && f(6) == 0.0 && f(7) == r && f(8) == r && f(9) == 0.0 && f(10) == -r && f(11) == -r
    case Cosine38 =>
      && f(0) == 1.0 && f(1) == 0.5 && f(2) == -0.5 && f(3) == -1.0 && f(4) == -0.5 && f(5) == 0.5
      && f(6) == 1.0 && f(7) == 0.5 && f(8) == -0.5 && f(9) == -1.0 && f(10) == -0.5 && f(11) == 0.5
    case Sine57 =>
      && f(0) == 0.0 && f(1) == 1.0 && f(2) == 0.0 && f(3) == -1.0 && f(4) == 0.0 && f(5) == 1.0
      && f(6) == 0.0 && f(7) == -1.0 && f(8) == 0.0 && f(9) == 1.0 && f(10) == 0.0 && f(11) == -1.0
  }

  /** The sum of m values, from n on. */
  ghost function Total(p: nat -> real, n: nat, m: nat): real
    decreases m
  {
    if m == 0 then 0.0 else Total(p, n, m - 1) + p(n + m - 1)
  }

  ghost function Product(f: nat -> real, g: nat -> real): nat -> real {
    (n: nat) => f(n) * g(n)
  }

  ghost function Dot(f: nat -> real, g: nat -> real, n: nat, m: nat): real {
    Total(Product(f, g), n, m)
  }

  lemma UnrolledTotal(p: nat -> real)
    ensures Total(p, 0, 12) == p(0) + p(1) + p(2) + p(3) + p(4) + p(5) + p(6) + p(7) + p(8) + p(9) + p(10) + p(11)
  {
  }

  ghost function TwelveProducts(f: nat -> real, g: nat -> real): real {
    f(0) * g(0) + f(1) * g(1) + f(2) * g(2) + f(3) * g(3) + f(4) * g(4) + f(5) * g(5) +
    f(6) * g(6) + f(7) * g(7) + f(8) * g(8) + f(9) * g(9) + f(10) * g(10) + f(11) * g(11)
  }

  lemma UnrolledDot(f: nat -> real, g: nat -> real)
    ensures Dot(f, g, 0, 12) == TwelveProducts(f, g)
  {
    UnrolledTotal(Product(f, g));
  }

  lemma DetectConstant(a: Wave, f: nat -> real, g: nat -> real, r: real)
    requires r * r == 0.75 && Follows(f, a, r) && Follows(g, Constant, r)
    ensures TwelveProducts(f, g) == if a == Constant then 12.0 else 0.0
  {
    match a
    case Constant =>
    case Sine19 =>
    case Sine38 =>
    case Cosine38 =>
    case Sine57 =>
  }

  lemma DetectSine19(a: Wave, f: nat -> real, g: nat -> real, r: real)
    requires r * r == 0.75 && Follows(f, a, r) && Follows(g, Sine19, r)
    ensures TwelveProducts(f, g) == if a == Sine19 then 6.0 else 0.0
  {
    match a
    case Constant =>
    case Sine19 =>
    case Sine38 =>
    case Cosine38 =>
    case Sine57 =>
  }

  lemma DetectSine38(a: Wave, f: nat -> real, g: nat -> real, r: real)
    requires r * r == 0.75 && Follows(f, a, r) && Follows(g, Sine38, r)
    ensures TwelveProducts(f, g) == if a == Sine38 then 6.0 else 0.0
  {
    match a
    case Constant =>
    case Sine19 =>
    case Sine38 =>
    case Cosine38 =>
    case Sine57 =>
  }

  lemma DetectSine57(a: Wave, f: nat -> real, g: nat -> real, r: real)
    requires r * r == 0.75 && Follows(f, a, r) && Follows(g, Sine57, r)
    ensures TwelveProducts(f, g) == if a == Sine57 then 6.0 else 0.0
  {
    match a
    case Constant =>
    case Sine19 =>
    case Sine38 =>
    case Cosine38 =>
    case Sine57 =>
  }

  /** The waves are orthogonal over one turn of the pilot. */
  lemma Orthogonal(a: Wave, b: Wave, f: nat -> real, g: nat -> real, r: real)
    requires r * r == 0.75 && Follows(f, a, r) && Follows(g, b, r) && b != Cosine38
    ensures Dot(f, g, 0, 12) == if a != b then 0.0 else if a == Constant then 12.0 else 6.0
  {
    UnrolledDot(f, g);
    match b
    case Constant => DetectConstant(a, f, g, r);
    case Sine19 => DetectSine19(a, f, g, r);
    case Sine38 => DetectSine38(a, f, g, r);
    case Sine57 => DetectSine57(a, f, g, r);
  }

  ghost predicate SameLater(p: nat -> real, n: nat, m: nat) {
    p(n + m) == p(n)
  }

  ghost predicate Repeats(p: nat -> real, m: nat) {
    forall n: nat :: SameLater(p, n, m)
  }

  lemma {:induction false} TotalShift(p: nat -> real, n: nat, m: nat)
    ensures Total(p, n + 1, m) == Total(p, n, m) - p(n) + p(n + m)
    decreases m
  {
    if m > 0 { TotalShift(p, n, m - 1); }
  }

  /** It does not matter where the turn begins. */
  lemma {:induction false} TotalFromAnywhere(p: nat -> real, n: nat, m: nat)
    requires Repeats(p, m)
    ensures Total(p, n, m) == Total(p, 0, m)
  {
    if n > 0 {
      TotalFromAnywhere(p, n - 1, m);
      TotalShift(p, n - 1, m);
      assert SameLater(p, n - 1, m);
    }
  }

  lemma ProductRepeats(f: nat -> real, g: nat -> real, m: nat)
    requires Repeats(f, m) && Repeats(g, m)
    ensures Repeats(Product(f, g), m)
  {
    forall n: nat
      ensures SameLater(Product(f, g), n, m)
    {
      assert SameLater(f, n, m) && SameLater(g, n, m);
    }
  }

  // ---------- The carriers ----------

  /** The sine of k twelfths of a turn. */
  function SineAt(k: nat, r: real): real
    requires k < 12
  {
    match k
    case 0 => 0.0
    case 1 => 0.5
    case 2 => r
    case 3 => 1.0
    case 4 => r
    case 5 => 0.5
    case 6 => 0.0
    case 7 => -0.5
    case 8 => -r
    case 9 => -1.0
    case 10 => -r
    case 11 => -0.5
  }

  /** The wave is the sine l twelfths of a turn ahead, at k twelfths of a turn. */
  ghost predicate Passes(wave: real -> real, l: nat, k: nat, r: real) {
    wave(k as real / 12.0) == SineAt((k + l) % 12, r)
  }

  /** The waves of the oscillators are the sine and the cosine. */
  ghost predicate IsTrue(c: Setup, r: real) {
    && r * r == 0.75
    && (forall k: nat :: k < 12 ==> Passes(c.sine, 0, k, r))
    && (forall k: nat :: k < 12 ==> Passes(c.cosine, 3, k, r))
  }

  ghost function CarrierOf(c: Setup, b: Wave): nat -> real {
    match b
    case Constant => (n: nat) => 1.0
    case Sine19 => (n: nat) => Tone(c.sine, 19000.0, n)
    case Sine38 => (n: nat) => Tone(c.sine, 38000.0, n)
    case Cosine38 => (n: nat) => Tone(c.cosine, 38000.0, n)
    case Sine57 => (n: nat) => Tone(c.sine, 57000.0, n)
  }

  lemma Twelfths(wave: real -> real, j: nat, n: nat, k: nat, q: nat)
    requires j * n == 12 * q + k && k < 12
    ensures Carrier(wave, j, n) == wave(k as real / 12.0)
  {
    assert (j * n) as real / 12.0 == k as real / 12.0 + q as real;
    WholeTurns(k as real / 12.0, q);
    FloorIs(k as real / 12.0, 0);
  }

  lemma SineValue(c: Setup, r: real, j: nat, n: nat, k: nat, q: nat)
    requires IsTrue(c, r) && j * n == 12 * q + k && k < 12
    ensures Carrier(c.sine, j, n) == SineAt(k, r)
  {
    Twelfths(c.sine, j, n, k, q);
    assert Passes(c.sine, 0, k, r);
  }

  lemma CosineValue(c: Setup, r: real, j: nat, n: nat, k: nat, q: nat, l: nat)
    requires IsTrue(c, r) && j * n == 12 * q + k && k < 12 && l == if k < 9 then k + 3 else k - 9
    ensures Carrier(c.cosine, j, n) == SineAt(l, r)
  {
    Twelfths(c.cosine, j, n, k, q);
    assert Passes(c.cosine, 3, k, r);
  }

  lemma Sine19Follows(c: Setup, r: real, f: nat -> real)
    requires IsTrue(c, r) && forall n: nat :: f(n) == Carrier(c.sine, 1, n)
    ensures Follows(f, Sine19, r)
  {
    SineValue(c, r, 1, 0, 0, 0); SineValue(c, r, 1, 1, 1, 0); SineValue(c, r, 1, 2, 2, 0);
    SineValue(c, r, 1, 3, 3, 0); SineValue(c, r, 1, 4, 4, 0); SineValue(c, r, 1, 5, 5, 0);
    SineValue(c, r, 1, 6, 6, 0); SineValue(c, r, 1, 7, 7, 0); SineValue(c, r, 1, 8, 8, 0);
    SineValue(c, r, 1, 9, 9, 0); SineValue(c, r, 1, 10, 10, 0); SineValue(c, r, 1, 11, 11, 0);
  }

  lemma Sine38Follows(c: Setup, r: real, f: nat -> real)
    requires IsTrue(c, r) && forall n: nat :: f(n) == Carrier(c.sine, 2, n)
    ensures Follows(f, Sine38, r)
  {
    SineValue(c, r, 2, 0, 0, 0); SineValue(c, r, 2, 1, 2, 0); SineValue(c, r, 2, 2, 4, 0);
    SineValue(c, r, 2, 3, 6, 0); SineValue(c, r, 2, 4, 8, 0); SineValue(c, r, 2, 5, 10, 0);
    SineValue(c, r, 2, 6, 0, 1); SineValue(c, r, 2, 7, 2, 1); SineValue(c, r, 2, 8, 4, 1);
    SineValue(c, r, 2, 9, 6, 1); SineValue(c, r, 2, 10, 8, 1); SineValue(c, r, 2, 11, 10, 1);
  }

  lemma Cosine38Follows(c: Setup, r: real, f: nat -> real)
    requires IsTrue(c, r) && forall n: nat :: f(n) == Carrier(c.cosine, 2, n)
    ensures Follows(f, Cosine38, r)
  {
    CosineValue(c, r, 2, 0, 0, 0, 3); CosineValue(c, r, 2, 1, 2, 0, 5); CosineValue(c, r, 2, 2, 4, 0, 7);
    CosineValue(c, r, 2, 3, 6, 0, 9); CosineValue(c, r, 2, 4, 8, 0, 11); CosineValue(c, r, 2, 5, 10, 0, 1);
    CosineValue(c, r, 2, 6, 0, 1, 3); CosineValue(c, r, 2, 7, 2, 1, 5); CosineValue(c, r, 2, 8, 4, 1, 7);
    CosineValue(c, r, 2, 9, 6, 1, 9); CosineValue(c, r, 2, 10, 8, 1, 11); CosineValue(c, r, 2, 11, 10, 1, 1);
  }

  lemma Sine57Follows(c: Setup, r: real, f: nat -> real)
    requires IsTrue(c, r) && forall n: nat :: f(n) == Carrier(c.sine, 3, n)
    ensures Follows(f, Sine57, r)
  {
    SineValue(c, r, 3, 0, 0, 0); SineValue(c, r, 3, 1, 3, 0); SineValue(c, r, 3, 2, 6, 0);
    SineValue(c, r, 3, 3, 9, 0); SineValue(c, r, 3, 4, 0, 1); SineValue(c, r, 3, 5, 3, 1);
    SineValue(c, r, 3, 6, 6, 1); SineValue(c, r, 3, 7, 9, 1); SineValue(c, r, 3, 8, 0, 2);
    SineValue(c, r, 3, 9, 3, 2); SineValue(c, r, 3, 10, 6, 2); SineValue(c, r, 3, 11, 9, 2);
  }

  /** m samples are one turn of the pilot. */
  ghost predicate OneTurn(m: nat) {
    19000 * m == 228000
  }

  lemma CarrierRepeats(c: Setup, b: Wave, m: nat)
    requires OneTurn(m)
    ensures Repeats(CarrierOf(c, b), m)
  {
    forall n: nat
      ensures SameLater(CarrierOf(c, b), n, m)
    {
      match b
      case Constant =>
      case Sine19 => CarriersRepeat(c.sine, 1, n); PilotTone(c.sine, n); PilotTone(c.sine, n + m);
      case Sine38 => CarriersRepeat(c.sine, 2, n); SubcarrierTone(c.sine, n); SubcarrierTone(c.sine, n + m);
      case Cosine38 => CarriersRepeat(c.cosine, 2, n); SubcarrierTone(c.cosine, n); SubcarrierTone(c.cosine, n + m);
      case Sine57 => CarriersRepeat(c.sine, 3, n); RdsTone(c.sine, n); RdsTone(c.sine, n + m);
    }
  }

  lemma CarrierFollows(c: Setup, b: Wave, r: real)
    requires IsTrue(c, r)
    ensures Follows(CarrierOf(c, b), b, r)
  {
    var f := CarrierOf(c, b);
    match b
    case Constant =>
    case Sine19 =>
      forall n: nat ensures f(n) == Carrier(c.sine, 1, n) { PilotTone(c.sine, n); }
      Sine19Follows(c, r, f);
    case Sine38 =>
      forall n: nat ensures f(n) == Carrier(c.sine, 2, n) { SubcarrierTone(c.sine, n); }
      Sine38Follows(c, r, f);
    case Cosine38 =>
      forall n: nat ensures f(n) == Carrier(c.cosine, 2, n) { SubcarrierTone(c.cosine, n); }
      Cosine38Follows(c, r, f);
    case Sine57 =>
      forall n: nat ensures f(n) == Carrier(c.sine, 3, n) { RdsTone(c.sine, n); }
      Sine57Follows(c, r, f);
  }

  /** A detector for wave b, switched on after n samples for one turn of the pilot, finds in wave a: */
  ghost predicate Sharp(c: Setup, a: Wave, b: Wave, n: nat, m: nat) {
    Dot(CarrierOf(c, a), CarrierOf(c, b), n, m) == if a != b then 0.0 else if a == Constant then 12.0 else 6.0
  }

  /** A detector for one wave, switched on at any time, finds nothing of another one. */
  lemma DetectorsAreSharp(c: Setup, a: Wave, b: Wave, r: real, n: nat, m: nat)
    requires IsTrue(c, r) && b != Cosine38 && OneTurn(m)
    ensures Sharp(c, a, b, n, m)
  {
    var f, g := CarrierOf(c, a), CarrierOf(c, b);
    CarrierRepeats(c, a, m);
    CarrierRepeats(c, b, m);
    ProductRepeats(f, g, m);
    TotalFromAnywhere(Product(f, g), n, m);
    CarrierFollows(c, a, r);
    CarrierFollows(c, b, r);
    Orthogonal(a, b, f, g, r);
  }

  // ---------- The detector on the output ----------

  /** How much of each wave a signal contains. */
  datatype Parts = Parts(mono: real, pilot: real, stereo: real, shifted: real, rds: real)

  /** A signal made of five others. */
  ghost function Mixed(x: Parts, v0: real, v1: real, v2: real, v3: real, v4: real): real {
    x.mono * v0 + x.pilot * v1 + x.stereo * v2 + x.shifted * v3 + x.rds * v4
  }

  lemma MixGrows(x: Parts, v0: real, v1: real, v2: real, v3: real, v4: real, y: real,
                 d0: real, d1: real, d2: real, d3: real, d4: real, e0: real, e1: real, e2: real, e3: real, e4: real)
    requires e0 == d0 + v0 * y && e1 == d1 + v1 * y && e2 == d2 + v2 * y && e3 == d3 + v3 * y && e4 == d4 + v4 * y
    ensures Mixed(x, e0, e1, e2, e3, e4) == Mixed(x, d0, d1, d2, d3, d4) + Mixed(x, v0, v1, v2, v3, v4) * y
  {
  }

  ghost function MixedWave(c: Setup, x: Parts, n: nat): real {
    Mixed(x, CarrierOf(c, Constant)(n), CarrierOf(c, Sine19)(n), CarrierOf(c, Sine38)(n),
          CarrierOf(c, Cosine38)(n), CarrierOf(c, Sine57)(n))
  }

  /** The signal is the mixture x, from n on. */
  ghost predicate Contains(c: Setup, x: Parts, w: nat -> real, n: nat, m: nat) {
    forall k :: n <= k < n + m ==> w(k) == MixedWave(c, x, k)
  }

  ghost function Found(c: Setup, a: Wave, g: nat -> real, n: nat, m: nat): real {
    Dot(CarrierOf(c, a), g, n, m)
  }

  ghost function AllFound(c: Setup, x: Parts, g: nat -> real, n: nat, m: nat): real {
    Mixed(x, Found(c, Constant, g, n, m), Found(c, Sine19, g, n, m), Found(c, Sine38, g, n, m),
          Found(c, Cosine38, g, n, m), Found(c, Sine57, g, n, m))
  }

  lemma FoundGrows(c: Setup, a: Wave, g: nat -> real, n: nat, m: nat)
    ensures Found(c, a, g, n, m + 1) == Found(c, a, g, n, m) + CarrierOf(c, a)(n + m) * g(n + m)
  {
  }

  lemma FoundStep(c: Setup, x: Parts, g: nat -> real, n: nat, m: nat)
    ensures AllFound(c, x, g, n, m + 1) == AllFound(c, x, g, n, m) + MixedWave(c, x, n + m) * g(n + m)
  {
    var k := n + m;
    FoundGrows(c, Constant, g, n, m);
    FoundGrows(c, Sine19, g, n, m);
    FoundGrows(c, Sine38, g, n, m);
    FoundGrows(c, Cosine38, g, n, m);
    FoundGrows(c, Sine57, g, n, m);
    MixGrows(x, CarrierOf(c, Constant)(k), CarrierOf(c, Sine19)(k), CarrierOf(c, Sine38)(k),
             CarrierOf(c, Cosine38)(k), CarrierOf(c, Sine57)(k), g(k),
             Found(c, Constant, g, n, m), Found(c, Sine19, g, n, m), Found(c, Sine38, g, n, m),
             Found(c, Cosine38, g, n, m), Found(c, Sine57, g, n, m),
             Found(c, Constant, g, n, m + 1), Found(c, Sine19, g, n, m + 1), Found(c, Sine38, g, n, m + 1),
             Found(c, Cosine38, g, n, m + 1), Found(c, Sine57, g, n, m + 1));
  }

  lemma NothingFound(c: Setup, x: Parts, g: nat -> real, n: nat)
    ensures AllFound(c, x, g, n, 0) == 0.0
  {
  }

  ghost predicate Adds(d: nat -> real, p: nat -> real, n: nat, j: nat) {
    d(j + 1) == d(j) + p(n + j)
  }

  lemma {:induction false} TotalIs(p: nat -> real, n: nat, m: nat, d: nat -> real)
    requires d(0) == 0.0 && forall j: nat :: j < m ==> Adds(d, p, n, j)
    ensures Total(p, n, m) == d(m)
    decreases m
  {
    if m > 0 {
      TotalIs(p, n, m - 1, d);
      assert Adds(d, p, n, m - 1);
    }
  }

  lemma MixStep(c: Setup, x: Parts, w: nat -> real, g: nat -> real, n: nat, m: nat, j: nat)
    requires Contains(c, x, w, n, m) && j < m
    ensures AllFound(c, x, g, n, j + 1) == AllFound(c, x, g, n, j) + Product(w, g)(n + j)
  {
    FoundStep(c, x, g, n, j);
    assert w(n + j) == MixedWave(c, x, n + j);
  }

  /** A detector finds in a mixture what it finds in its parts. */
  lemma DotOfMix(c: Setup, x: Parts, w: nat -> real, g: nat -> real, n: nat, m: nat)
    requires Contains(c, x, w, n, m)
    ensures Dot(w, g, n, m) == AllFound(c, x, g, n, m)
  {
    var d := (j: nat) => AllFound(c, x, g, n, j);
    NothingFound(c, x, g, n);
    forall j: nat | j < m
      ensures Adds(d, Product(w, g), n, j)
    {
      MixStep(c, x, w, g, n, m, j);
    }
    TotalIs(Product(w, g), n, m, d);
  }

  /** So much of the mixture is on the wave. */
  function Share(x: Parts, b: Wave): real {
    match b
    case Constant => 12.0 * x.mono
    case Sine19 => 6.0 * x.pilot
    case Sine38 => 6.0 * x.stereo
    case Cosine38 => 6.0 * x.shifted
    case Sine57 => 6.0 * x.rds
  }

  lemma SharpMix(c: Setup, x: Parts, b: Wave, n: nat, m: nat)
    requires forall a :: Sharp(c, a, b, n, m)
    ensures AllFound(c, x, CarrierOf(c, b), n, m) == Share(x, b)
  {
    assert Sharp(c, Constant, b, n, m) && Sharp(c, Sine19, b, n, m) && Sharp(c, Sine38, b, n, m);
    assert Sharp(c, Cosine38, b, n, m) && Sharp(c, Sine57, b, n, m);
  }

  lemma DetectMix(c: Setup, x: Parts, b: Wave, w: nat -> real, r: real, n: nat, m: nat)
    requires IsTrue(c, r) && b != Cosine38 && OneTurn(m) && Contains(c, x, w, n, m)
    ensures Dot(w, CarrierOf(c, b), n, m) == Share(x, b)
  {
    forall a
      ensures Sharp(c, a, b, n, m)
    {
      DetectorsAreSharp(c, a, b, r, n, m);
    }
    DotOfMix(c, x, w, CarrierOf(c, b), n, m);
    SharpMix(c, x, b, n, m);
  }

  /** The output of a period that begins after n samples, by its place in the stream. */
  ghost function Signal(c: Setup, p: Period, n: nat, mem: seq<real>): nat -> real
    requires FiltersFit(c) && Mpx.Fits(c, p) && IsMemory(c, mem)
  {
    (k: nat) => if n <= k < n + |p.lpr| then Output(c, p, n, mem, k - n) else 0.0
  }

  // The output in terms of the five waves, one modulation at a time.

  lemma MonoParts(g: Gains, lpr: real, d: real, t19: real, t38: real, c38: real, t57: real)
    ensures (lpr + g.rds * t57 * d) * g.mpx ==
            Mixed(Parts(g.mpx * lpr, 0.0, 0.0, 0.0, g.mpx * g.rds * d), 1.0, t19, t38, c38, t57)
  {
  }

  lemma DsbParts(g: Gains, lpr: real, lmr: real, d: real, t19: real, t38: real, c38: real, t57: real)
    ensures (lpr + g.pilot * t19 + lmr * t38 * g.stereo + g.rds * t57 * d) * g.mpx ==
            Mixed(Parts(g.mpx * lpr, g.mpx * g.pilot, g.mpx * g.stereo * lmr, 0.0, g.mpx * g.rds * d),
                  1.0, t19, t38, c38, t57)
  {
  }

  lemma HartleyParts(g: Gains, lpr: real, lmr: real, s: real, d: real, t19: real, t38: real, c38: real, t57: real)
    ensures ((s * c38 + lmr * t38) * (g.stereo * 1.5) + lpr + g.pilot * t19 + g.rds * t57 * d) * g.mpx ==
            Mixed(Parts(g.mpx * lpr, g.mpx * g.pilot, g.mpx * (g.stereo * 1.5) * lmr, g.mpx * (g.stereo * 1.5) * s,
                        g.mpx * g.rds * d), 1.0, t19, t38, c38, t57)
  {
  }

  /** What the output should contain: L+R, the pilot, L-R, its phase-shifted copy and RDS. */
  function PartsOf(g: Gains, mode: Mode, lpr: real, lmr: real, shifted: real, rds: real): Parts {
    match mode
    case Mono => Parts(g.mpx * lpr, 0.0, 0.0, 0.0, g.mpx * g.rds * rds)
    case Dsb => Parts(g.mpx * lpr, g.mpx * g.pilot, g.mpx * g.stereo * lmr, 0.0, g.mpx * g.rds * rds)
    case _ => Parts(g.mpx * lpr, g.mpx * g.pilot, g.mpx * (g.stereo * 1.5) * lmr,
                    g.mpx * (g.stereo * 1.5) * shifted, g.mpx * g.rds * rds)
  }

  lemma Tones(c: Setup, k: nat)
    ensures Carrier(c.sine, 1, k) == CarrierOf(c, Sine19)(k) && Carrier(c.sine, 2, k) == CarrierOf(c, Sine38)(k)
    ensures Carrier(c.cosine, 2, k) == CarrierOf(c, Cosine38)(k) && Carrier(c.sine, 3, k) == CarrierOf(c, Sine57)(k)
  {
    PilotTone(c.sine, k);
    SubcarrierTone(c.sine, k);
    SubcarrierTone(c.cosine, k);
    RdsTone(c.sine, k);
  }

  ghost function PartsAt(c: Setup, p: Period, n: nat, i: nat): Parts
    requires FiltersFit(c) && Mpx.Fits(c, p) && i < |p.lpr|
  {
    PartsOf(c.gains, p.mode, p.lpr[i], p.lmr[i], c.hilbert(p.lmr)[i], c.rds(n + i))
  }

  lemma MonoIsMixed(c: Setup, lpr: real, lmr: real, shifted: real, k: nat)
    ensures MonoOut(c, lpr, k) == MixedWave(c, PartsOf(c.gains, Mono, lpr, lmr, shifted, c.rds(k)), k)
  {
    Tones(c, k);
    MonoParts(c.gains, lpr, c.rds(k), Carrier(c.sine, 1, k), Carrier(c.sine, 2, k),
              Carrier(c.cosine, 2, k), Carrier(c.sine, 3, k));
  }

  lemma DsbIsMixed(c: Setup, lpr: real, lmr: real, shifted: real, k: nat)
    ensures DsbOut(c, lpr, lmr, k) == MixedWave(c, PartsOf(c.gains, Dsb, lpr, lmr, shifted, c.rds(k)), k)
  {
    Tones(c, k);
    DsbParts(c.gains, lpr, lmr, c.rds(k), Carrier(c.sine, 1, k), Carrier(c.sine, 2, k),
             Carrier(c.cosine, 2, k), Carrier(c.sine, 3, k));
  }

  lemma HartleyIsMixed(c: Setup, lpr: real, lmr: real, shifted: real, k: nat)
    ensures HartleyOut(c, lpr, lmr, shifted, k) ==
            MixedWave(c, PartsOf(c.gains, SsbHartley, lpr, lmr, shifted, c.rds(k)), k)
  {
    Tones(c, k);
    HartleyParts(c.gains, lpr, lmr, shifted, c.rds(k), Carrier(c.sine, 1, k), Carrier(c.sine, 2, k),
                 Carrier(c.cosine, 2, k), Carrier(c.sine, 3, k));
  }

  lemma OutputIsMixed(c: Setup, p: Period, n: nat, mem: seq<real>, i: nat)
    requires FiltersFit(c) && Mpx.Fits(c, p) && IsMemory(c, mem) && i < |p.lpr| && p.mode != SsbLpf
    ensures Output(c, p, n, mem, i) == MixedWave(c, PartsAt(c, p, n, i), n + i)
  {
    match p.mode
    case Mono => MonoIsMixed(c, p.lpr[i], p.lmr[i], c.hilbert(p.lmr)[i], n + i);
    case Dsb => DsbIsMixed(c, p.lpr[i], p.lmr[i], c.hilbert(p.lmr)[i], n + i);
    case SsbHartley => HartleyIsMixed(c, p.lpr[i], p.lmr[i], c.hilbert(p.lmr)[i], n + i);
  }

  /** The inputs are steady for m samples: L+R, L-R, its phase-shifted copy and RDS. */
  ghost predicate Steady(c: Setup, p: Period, n: nat, i: nat, m: nat, lpr: real, lmr: real, shifted: real, rds: real)
    requires FiltersFit(c) && Mpx.Fits(c, p) && i + m <= |p.lpr|
  {
    forall k :: i <= k < i + m ==>
      p.lpr[k] == lpr && p.lmr[k] == lmr && c.hilbert(p.lmr)[k] == shifted && c.rds(n + k) == rds
  }

  lemma SignalIs(c: Setup, p: Period, n: nat, mem: seq<real>, i: nat)
    requires FiltersFit(c) && Mpx.Fits(c, p) && IsMemory(c, mem) && i < |p.lpr| && p.mode != SsbLpf
    ensures Signal(c, p, n, mem)(n + i) == MixedWave(c, PartsAt(c, p, n, i), n + i)
  {
    OutputIsMixed(c, p, n, mem, i);
  }

  lemma SteadyContains(c: Setup, p: Period, n: nat, mem: seq<real>, i: nat, m: nat, x: Parts)
    requires FiltersFit(c) && Mpx.Fits(c, p) && IsMemory(c, mem) && i + m <= |p.lpr| && p.mode != SsbLpf
    requires forall k :: i <= k < i + m ==> PartsAt(c, p, n, k) == x
    ensures Contains(c, x, Signal(c, p, n, mem), n + i, m)
  {
    var w := Signal(c, p, n, mem);
    forall k | n + i <= k < n + i + m
      ensures w(k) == MixedWave(c, x, k)
    {
      SignalIs(c, p, n, mem, k - n);
    }
  }

  lemma SteadyParts(c: Setup, p: Period, n: nat, i: nat, m: nat, lpr: real, lmr: real, shifted: real, rds: real)
    requires FiltersFit(c) && Mpx.Fits(c, p) && i + m <= |p.lpr|
    requires Steady(c, p, n, i, m, lpr, lmr, shifted, rds)
    ensures forall k :: i <= k < i + m ==> PartsAt(c, p, n, k) == PartsOf(c.gains, p.mode, lpr, lmr, shifted, rds)
  {
  }

  lemma DetectShare(c: Setup, p: Period, n: nat, mem: seq<real>, i: nat, m: nat, r: real, x: Parts, b: Wave)
    requires FiltersFit(c) && Mpx.Fits(c, p) && IsMemory(c, mem) && OneTurn(m) && i + m <= |p.lpr|
    requires p.mode != SsbLpf && IsTrue(c, r) && b != Cosine38
    requires forall k :: i <= k < i + m ==> PartsAt(c, p, n, k) == x
    ensures Dot(Signal(c, p, n, mem), CarrierOf(c, b), n + i, m) == Share(x, b)
  {
    SteadyContains(c, p, n, mem, i, m, x);
    DetectMix(c, x, b, Signal(c, p, n, mem), r, n + i, m);
  }

  /** Synchronous detection. While the inputs are steady for one turn of the pilot, from any sample
      on, a detector at 57 kHz finds RDS, one at 38 kHz L-R, one at 19 kHz the pilot, and the mean
      is L+R; none finds anything of the others. This holds for mono, where there is neither L-R
      nor a pilot, for DSB and for SSB by Hartley's method. */
  lemma DetectorsFind(c: Setup, p: Period, n: nat, mem: seq<real>, i: nat, m: nat, r: real,
                      lpr: real, lmr: real, shifted: real, rds: real, b: Wave)
    requires FiltersFit(c) && Mpx.Fits(c, p) && IsMemory(c, mem) && OneTurn(m) && i + m <= |p.lpr|
    requires p.mode != SsbLpf && IsTrue(c, r) && Steady(c, p, n, i, m, lpr, lmr, shifted, rds) && b != Cosine38
    ensures Dot(Signal(c, p, n, mem), CarrierOf(c, b), n + i, m) ==
            match b
            case Constant => 12.0 * (c.gains.mpx * lpr)
            case Sine19 => if p.mode == Mono then 0.0 else 6.0 * (c.gains.mpx * c.gains.pilot)
            case Sine38 => if p.mode == Mono then 0.0
                           else if p.mode == Dsb then 6.0 * (c.gains.mpx * c.gains.stereo * lmr)
                           else 6.0 * (c.gains.mpx * (c.gains.stereo * 1.5) * lmr)
            case _ => 6.0 * (c.gains.mpx * c.gains.rds * rds)
  {
    SteadyParts(c, p, n, i, m, lpr, lmr, shifted, rds);
    DetectShare(c, p, n, mem, i, m, r, PartsOf(c.gains, p.mode, lpr, lmr, shifted, rds), b);
  }
}
