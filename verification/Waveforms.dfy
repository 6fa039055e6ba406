/** The table of pre-computed symbol waveforms and its laws. */
module Waveforms {

  function Waveform0(): (s: seq<real>)
    ensures |s| == 40
  {
    [-0.077944, -0.231941, -0.380444, -0.519913, -0.646931, -0.758415, -0.851558, -0.923948,
     -0.973663, -0.999298, -1.000000, -0.975585, -0.926511, -0.853877, -0.759453, -0.647450,
     -0.521073, -0.381756, -0.232917, -0.078280, 0.078280, 0.232917, 0.381756, 0.521073,
     0.647450, 0.759453, 0.853877, 0.926511, 0.975585, 1.000000, 0.999298, 0.973663,
     0.923948, 0.851558, 0.758415, 0.646931, 0.519913, 0.380444, 0.231941, 0.077944]
  }

  function Waveform1(): (s: seq<real>)
    ensures |s| == 40
  {
    [-0.077944, -0.231941, -0.380444, -0.519913, -0.646931, -0.758415, -0.851558, -0.923948,
     -0.973663, -0.999298, -1.000000, -0.975585, -0.926511, -0.853877, -0.759453, -0.643818,
     -0.509690, -0.362621, -0.206824, -0.046876, 0.112461, 0.266518, 0.410932, 0.541642,
     0.655263, 0.750847, 0.826167, 0.878414, 0.907712, 0.915311, 0.903409, 0.875057,
     0.834101, 0.784753, 0.731498, 0.678793, 0.630879, 0.591418, 0.563372, 0.548814]
  }

  function Waveform2(): (s: seq<real>)
    ensures |s| == 40
  {
    [0.548814, 0.563372, 0.591418, 0.630879, 0.678793, 0.731498, 0.784753, 0.834101,
     0.875057, 0.903409, 0.915311, 0.907712, 0.878414, 0.826167, 0.750847, 0.651601,
     0.530259, 0.391766, 0.240425, 0.081057, -0.081057, -0.240425, -0.391766, -0.530259,
     -0.651601, -0.750847, -0.826167, -0.878414, -0.907712, -0.915311, -0.903409, -0.875057,
     -0.834101, -0.784753, -0.731498, -0.678793, -0.630879, -0.591418, -0.563372, -0.548814]
  }

  function Waveform3(): (s: seq<real>)
    ensures |s| == 40
  {
    [0.548814, 0.563372, 0.591418, 0.630879, 0.678793, 0.731498, 0.784753, 0.834101,
     0.875057, 0.903409, 0.915311, 0.907712, 0.878414, 0.826167, 0.750847, 0.655263,
     0.541642, 0.410932, 0.266518, 0.112461, -0.046876, -0.206824, -0.362621, -0.509690,
     -0.643818, -0.759453, -0.853877, -0.926511, -0.975585, -1.000000, -0.999298, -0.973663,
     -0.923948, -0.851558, -0.758415, -0.646931, -0.519913, -0.380444, -0.231941, -0.077944]
  }

  function Waveform4(): (s: seq<real>)
    ensures |s| == 40
  {
    [-0.548814, -0.563372, -0.591418, -0.630879, -0.678793, -0.731498, -0.784753, -0.834101,
     -0.875057, -0.903409, -0.915311, -0.907712, -0.878414, -0.826167, -0.750847, -0.655263,
     -0.541642, -0.410932, -0.266518, -0.112461, 0.046876, 0.206824, 0.362621, 0.509690,
     0.643818, 0.759453, 0.853877, 0.926511, 0.975585, 1.000000, 0.999298, 0.973663,
     0.923948, 0.851558, 0.758415, 0.646931, 0.519913, 0.380444, 0.231941, 0.077944]
  }

  function Waveform5(): (s: seq<real>)
    ensures |s| == 40
  {
    [-0.548814, -0.563372, -0.591418, -0.630879, -0.678793, -0.731498, -0.784753, -0.834101,
     -0.875057, -0.903409, -0.915311, -0.907712, -0.878414, -0.826167, -0.750847, -0.651601,
     -0.530259, -0.391766, -0.240425, -0.081057, 0.081057, 0.240425, 0.391766, 0.530259,
     0.651601, 0.750847, 0.826167, 0.878414, 0.907712, 0.915311, 0.903409, 0.875057,
     0.834101, 0.784753, 0.731498, 0.678793, 0.630879, 0.591418, 0.563372, 0.548814]
  }

  function Waveform6(): (s: seq<real>)
    ensures |s| == 40
  {
    [0.077944, 0.231941, 0.380444, 0.519913, 0.646931, 0.758415, 0.851558, 0.923948,
     0.973663, 0.999298, 1.000000, 0.975585, 0.926511, 0.853877, 0.759453, 0.643818,
     0.509690, 0.362621, 0.206824, 0.046876, -0.112461, -0.266518, -0.410932, -0.541642,
     -0.655263, -0.750847, -0.826167, -0.878414, -0.907712, -0.915311, -0.903409, -0.875057,
     -0.834101, -0.784753, -0.731498, -0.678793, -0.630879, -0.591418, -0.563372, -0.548814]
  }

  function Waveform7(): (s: seq<real>)
    ensures |s| == 40
  {
    [0.077944, 0.231941, 0.380444, 0.519913, 0.646931, 0.758415, 0.851558, 0.923948,
     0.973663, 0.999298, 1.000000, 0.975585, 0.926511, 0.853877, 0.759453, 0.647450,
     0.521073, 0.381756, 0.232917, 0.078280, -0.078280, -0.232917, -0.381756, -0.521073,
     -0.647450, -0.759453, -0.853877, -0.926511, -0.975585, -1.000000, -0.999298, -0.973663,
     -0.923948, -0.851558, -0.758415, -0.646931, -0.519913, -0.380444, -0.231941, -0.077944]
  }

  /** Eight waveforms of forty samples, one for each value of the three-bit window. */
  type Table = t: seq<seq<real>> | |t| == 8 && forall i :: 0 <= i < 8 ==> |t[i]| == 40
    witness seq(8, _ => seq(40, _ => 0.0))

  /** The table of the encoder. */
  function SymbolWaveforms(): Table {
    [Waveform0(), Waveform1(), Waveform2(), Waveform3(),
     Waveform4(), Waveform5(), Waveform6(), Waveform7()]
  }

  /** The largest step of the waveform table between two consecutive samples. */
  const MAX_STEP := 0.162114

  predicate Close(x: real, y: real) {
    -MAX_STEP <= x - y <= MAX_STEP
  }

  lemma Mirror0(k: nat)
    requires k < 40
    ensures Waveform7()[k] == -Waveform0()[k]
  {
    if k < 20 { } else { }
  }

  lemma Shape0(k: nat)
    requires k < 40
    ensures -1.0 <= Waveform0()[k] <= 1.0
    ensures k < 39 ==> Close(Waveform0()[k], Waveform0()[k + 1])
  {
  }

  lemma Mirror1(k: nat)
    requires k < 40
    ensures Waveform6()[k] == -Waveform1()[k]
  {
    if k < 20 { } else { }
  }

  lemma Shape1(k: nat)
    requires k < 40
    ensures -1.0 <= Waveform1()[k] <= 1.0
    ensures k < 39 ==> Close(Waveform1()[k], Waveform1()[k + 1])
  {
  }

  lemma Mirror2(k: nat)
    requires k < 40
    ensures Waveform5()[k] == -Waveform2()[k]
  {
    if k < 20 { } else { }
  }

  lemma Shape2(k: nat)
    requires k < 40
    ensures -1.0 <= Waveform2()[k] <= 1.0
    ensures k < 39 ==> Close(Waveform2()[k], Waveform2()[k + 1])
  {
  }

  lemma Mirror3(k: nat)
    requires k < 40
    ensures Waveform4()[k] == -Waveform3()[k]
  {
    if k < 20 { } else { }
  }

  lemma Shape3(k: nat)
    requires k < 40
    ensures -1.0 <= Waveform3()[k] <= 1.0
    ensures k < 39 ==> Close(Waveform3()[k], Waveform3()[k + 1])
  {
  }

  /** Complementing the three bits of the window negates the waveform. */
  ghost predicate Mirrored(t: Table) {
    forall i, j, k :: 0 <= i < 8 && 0 <= j < 8 && i + j == 7 && 0 <= k < 40 ==> t[j][k] == -t[i][k]
  }

  /** Every waveform stays in [-1, 1]. */
  ghost predicate Bounded(t: Table) {
    forall i, k :: 0 <= i < 8 && 0 <= k < 40 ==> -1.0 <= t[i][k] <= 1.0
  }

  /** No waveform moves by more than MAX_STEP, and neither does the join between a window and
      either of its successors. */
  ghost predicate Smooth(t: Table) {
    && (forall i, k :: 0 <= i < 8 && 0 <= k < 39 ==> Close(t[i][k], t[i][k + 1]))
    && (forall i, j :: 0 <= i < 8 && 0 <= j < 8 && (j == 2 * i % 8 || j == 2 * i % 8 + 1) ==>
          Close(t[i][39], t[j][0]))
  }

  /** Sample 10 shows the middle bit of the window by its sign; sample 29 reaches full scale
      exactly when the last two bits of the window agree. */
  ghost predicate Readable(t: Table) {
    forall i :: 0 <= i < 8 ==> RowIsReadable(t, i)
  }

  ghost predicate RowIsReadable(t: Table, i: nat)
    requires i < 8
  {
    && (t[i][10] > 0.0 <==> i % 4 >= 2)
    && (-1.0 < t[i][29] < 1.0 <==> i % 4 == 1 || i % 4 == 2)
  }

  lemma TableIsMirrored()
    ensures Mirrored(SymbolWaveforms())
  {
    var t := SymbolWaveforms();
    forall i, j, k | 0 <= i < 8 && 0 <= j < 8 && i + j == 7 && 0 <= k < 40
      ensures t[j][k] == -t[i][k]
    {
      Mirror0(k); Mirror1(k); Mirror2(k); Mirror3(k);
    }
  }

  lemma TableIsBounded()
    ensures Bounded(SymbolWaveforms())
  {
    var t := SymbolWaveforms();
    forall i, k | 0 <= i < 8 && 0 <= k < 40
      ensures -1.0 <= t[i][k] <= 1.0
    {
      Mirror0(k); Mirror1(k); Mirror2(k); Mirror3(k);
      Shape0(k); Shape1(k); Shape2(k); Shape3(k);
    }
  }

  lemma UpperRowsAreSmooth(i: nat, k: nat)
    requires i < 4 && k < 39
    ensures Close(SymbolWaveforms()[i][k], SymbolWaveforms()[i][k + 1])
  {
    if i == 0 { Shape0(k); }
    else if i == 1 { Shape1(k); }
    else if i == 2 { Shape2(k); }
    else { Shape3(k); }
  }

  lemma RowsAreSmooth(t: Table, i: nat, k: nat)
    requires Mirrored(t) && t == SymbolWaveforms() && i < 8 && k < 39
    ensures Close(t[i][k], t[i][k + 1])
  {
    var j := if i < 4 then i else 7 - i;
    UpperRowsAreSmooth(j, k);
    assert i >= 4 ==> t[i][k] == -t[j][k] && t[i][k + 1] == -t[j][k + 1];
  }

  /** Where the waveforms start. */
  lemma FirstSample(i: nat)
    requires i < 8
    ensures var x := SymbolWaveforms()[i][0];
            x == if i < 2 then -0.077944 else if i < 4 then 0.548814
                 else if i < 6 then -0.548814 else 0.077944
  {
  }

  /** Where the waveforms end. */
  lemma LastSample(i: nat)
    requires i < 8
    ensures var x := SymbolWaveforms()[i][39];
            x == if i % 4 == 0 then 0.077944 else if i % 4 == 1 then 0.548814
                 else if i % 4 == 2 then -0.548814 else -0.077944
  {
  }

  lemma JoinsAreSmooth(t: Table, i: nat, j: nat)
    requires i < 8 && j < 8 && (j == 2 * i % 8 || j == 2 * i % 8 + 1)
    requires t == SymbolWaveforms()
    ensures Close(t[i][39], t[j][0])
  {
    LastSample(i);
    FirstSample(j);
  }

  lemma TableIsSmooth()
    ensures Smooth(SymbolWaveforms())
  {
    TableIsMirrored();
    var t := SymbolWaveforms();
    forall i, k | 0 <= i < 8 && 0 <= k < 39
      ensures Close(t[i][k], t[i][k + 1])
    {
      RowsAreSmooth(t, i, k);
    }
    forall i, j | 0 <= i < 8 && 0 <= j < 8 && (j == 2 * i % 8 || j == 2 * i % 8 + 1)
      ensures Close(t[i][39], t[j][0])
    {
      JoinsAreSmooth(t, i, j);
    }
  }

  lemma Sample10(i: nat)
    requires i < 8
    ensures SymbolWaveforms()[i][10] > 0.0 <==> i % 4 >= 2
  {
  }

  lemma Sample29(i: nat)
    requires i < 8
    ensures -1.0 < SymbolWaveforms()[i][29] < 1.0 <==> i % 4 == 1 || i % 4 == 2
  {
  }

  lemma ReadRow(i: nat)
    requires i < 8
    ensures RowIsReadable(SymbolWaveforms(), i)
  {
    Sample10(i);
    Sample29(i);
  }

  lemma TableIsReadable()
    ensures Readable(SymbolWaveforms())
  {
    ReadRow(0); ReadRow(1); ReadRow(2); ReadRow(3);
    ReadRow(4); ReadRow(5); ReadRow(6); ReadRow(7);
  }
}
