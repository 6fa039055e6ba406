/** A receiver for the modulated waveform, written from the standard, and the laws of the
    waveform over whole runs. */
module Demodulator {
  import opened Bits
  import opened BlockCode
  import opened Waveforms
  import opened Modem

  // ---------- Where each symbol is ----------

  lemma SampleOfConcat(a: seq<real>, b: seq<real>, i: nat)
    requires i < |a| + |b|
    ensures (a + b)[i] == if i < |a| then a[i] else b[i - |a|]
  {
  }

  lemma {:induction false} SampleAt(t: Table, w: Word8, bits: seq<bool>, k: nat, j: nat)
    requires k < |bits| && j < 40
    ensures Modulate(t, w, bits)[40 * k + j] == Symbol(t, WindowAfter(w, bits[..k + 1]))[j]
  {
    var n := |bits| - 1;
    SampleOfConcat(Modulate(t, w, bits[..n]), Symbol(t, WindowAfter(w, bits)), 40 * k + j);
    if k == n {
      assert bits[..k + 1] == bits;
    } else {
      SampleAt(t, w, bits[..n], k, j);
      assert bits[..n][..k + 1] == bits[..k + 1];
    }
  }

  lemma WindowStep(w: Word8, bits: seq<bool>, k: nat)
    requires k < |bits|
    ensures WindowAfter(w, bits[..k + 1]) == Push(WindowAfter(w, bits[..k]), bits[k])
  {
    assert bits[..k + 1][..k] == bits[..k];
  }

  // ---------- The receiver ----------

  /** The level a receiver reads in the first half of symbol k. */
  predicate Level(samples: seq<real>, k: nat)
    requires 40 * k + 40 <= |samples|
  {
    samples[40 * k + 10] > 0.0
  }

  /** Differential decoding of the levels of n symbols: a bit is a change of level, so it is
      known one symbol late. */
  function Demodulate(samples: seq<real>, n: nat): (bits: seq<bool>)
    requires |samples| == 40 * n
    ensures |bits| == if n == 0 then 0 else n - 1
  {
    if n == 0 then []
    else seq(n - 1, k requires 0 <= k < n - 1 => Level(samples, k) != Level(samples, k + 1))
  }

  /** Decoding by amplitude: a bit is set when its symbol stays below full scale in the second
      half, which needs no delay. */
  function DemodulateByPeak(samples: seq<real>, n: nat): (bits: seq<bool>)
    requires |samples| == 40 * n
    ensures |bits| == n
  {
    seq(n, k requires 0 <= k < n => -1.0 < samples[40 * k + 29] < 1.0)
  }

  lemma ReadSymbol(t: Table, w: Word8)
    requires Readable(t)
    ensures Symbol(t, w)[10] > 0.0 <==> w[6]
    ensures -1.0 < Symbol(t, w)[29] < 1.0 <==> w[6] != w[7]
  {
    var i := Index(w);
    assert RowIsReadable(t, i);
    assert i % 4 == (if w[6] then 2 else 0) + (if w[7] then 1 else 0);
  }

  lemma LevelAt(t: Table, w: Word8, bits: seq<bool>, k: nat)
    requires Readable(t) && k < |bits|
    ensures Level(Modulate(t, w, bits), k) == WindowAfter(w, bits[..k])[7]
  {
    SampleAt(t, w, bits, k, 10);
    WindowStep(w, bits, k);
    ReadSymbol(t, WindowAfter(w, bits[..k + 1]));
  }

  lemma PeakAt(t: Table, w: Word8, bits: seq<bool>, k: nat)
    requires Readable(t) && k < |bits|
    ensures -1.0 < Modulate(t, w, bits)[40 * k + 29] < 1.0 <==> bits[k]
  {
    SampleAt(t, w, bits, k, 29);
    WindowStep(w, bits, k);
    ReadSymbol(t, WindowAfter(w, bits[..k + 1]));
  }

  /** Differential demodulation recovers every bit of a run but the last, whatever the window
      held when the run began. */
  lemma DemodulateRecovers(t: Table, w: Word8, bits: seq<bool>)
    requires Readable(t) && |bits| > 0
    ensures Demodulate(Modulate(t, w, bits), |bits|) == bits[..|bits| - 1]
  {
    var s := Modulate(t, w, bits);
    forall k | 0 <= k < |bits| - 1
      ensures Level(s, k) != Level(s, k + 1) <==> bits[k]
    {
      LevelAt(t, w, bits, k);
      LevelAt(t, w, bits, k + 1);
      WindowStep(w, bits, k);
    }
  }

  /** Demodulation by amplitude recovers every bit of a run. */
  lemma PeakRecovers(t: Table, w: Word8, bits: seq<bool>)
    requires Readable(t)
    ensures DemodulateByPeak(Modulate(t, w, bits), |bits|) == bits
  {
    var s := Modulate(t, w, bits);
    forall k | 0 <= k < |bits|
      ensures -1.0 < s[40 * k + 29] < 1.0 <==> bits[k]
    {
      PeakAt(t, w, bits, k);
    }
  }

  // ---------- Runs of groups ----------

  /** A group on air: its four assembled blocks. */
  type FourCodes = cs: seq<Code> | |cs| == 4 witness seq(4, _ => Zeros(26))

  /** The bits of a run of groups. */
  function RunBits(run: seq<FourCodes>): (s: seq<bool>)
    ensures |s| == 104 * |run|
  {
    if |run| == 0 then [] else RunBits(run[..|run| - 1]) + Join(run[|run| - 1])
  }

  /** The samples of a run: one call of the modulator for each group, the window carried over
      from call to call. */
  function RunSamples(t: Table, w: Word8, run: seq<FourCodes>): (s: seq<real>)
    ensures |s| == 4160 * |run|
  {
    if |run| == 0 then []
    else
      var before := run[..|run| - 1];
      RunSamples(t, w, before) + Modulate(t, WindowAfter(w, RunBits(before)), Join(run[|run| - 1]))
  }

  lemma {:induction false} WindowAfterConcat(w: Word8, a: seq<bool>, b: seq<bool>)
    ensures WindowAfter(w, a + b) == WindowAfter(WindowAfter(w, a), b)
  {
    if |b| == 0 {
      assert a + b == a;
    } else {
      assert (a + b)[..|a + b| - 1] == a + b[..|b| - 1];
      WindowAfterConcat(w, a, b[..|b| - 1]);
    }
  }

  lemma {:induction false} ModulateConcat(t: Table, w: Word8, a: seq<bool>, b: seq<bool>)
    ensures Modulate(t, w, a + b) == Modulate(t, w, a) + Modulate(t, WindowAfter(w, a), b)
  {
    if |b| == 0 {
      assert a + b == a;
    } else {
      var c := b[..|b| - 1];
      assert (a + b)[..|a + b| - 1] == a + c;
      ModulateConcat(t, w, a, c);
      WindowAfterConcat(w, a, b);
    }
  }

  /** The waveform has no seams: a run of groups is modulated as one long bit string. */
  lemma {:induction false} RunIsContinuous(t: Table, w: Word8, run: seq<FourCodes>)
    ensures RunSamples(t, w, run) == Modulate(t, w, RunBits(run))
  {
    if |run| > 0 {
      var before := run[..|run| - 1];
      RunIsContinuous(t, w, before);
      ModulateConcat(t, w, RunBits(before), Join(run[|run| - 1]));
    }
  }

  lemma BitBefore(a: seq<bool>, b: seq<bool>, i: nat)
    requires i < |a|
    ensures (a + b)[i] == a[i]
  {
  }

  lemma BitAfter(a: seq<bool>, b: seq<bool>, i: nat, p: nat)
    requires i < |b| && p == |a| + i
    ensures (a + b)[p] == b[i]
  {
  }

  lemma {:induction false} BitInGroup(cs: seq<Code>, j: nat, k: nat)
    requires j < |cs| && k < 26
    ensures Join(cs)[26 * j + k] == cs[j][k]
  {
    var n := |cs| - 1;
    if j < n {
      BitInGroup(cs[..n], j, k);
      BitBefore(Join(cs[..n]), cs[n], 26 * j + k);
    } else {
      BitAfter(Join(cs[..n]), cs[n], k, 26 * n + k);
    }
  }

  lemma {:induction false} BitInRun(run: seq<FourCodes>, g: nat, j: nat, k: nat)
    requires g < |run| && j < 4 && k < 26
    ensures RunBits(run)[104 * g + 26 * j + k] == run[g][j][k]
  {
    var n, i := |run| - 1, 26 * j + k;
    if g < n {
      BitInRun(run[..n], g, j, k);
      BitBefore(RunBits(run[..n]), Join(run[n]), 104 * g + i);
    } else {
      BitInGroup(run[n], j, k);
      BitAfter(RunBits(run[..n]), Join(run[n]), i, 104 * g + i);
    }
  }

  /** From the samples of a run alone, and whatever the window held at the start, the receiver
      gets the bits of the run. The differential decoder still misses the very last one. */
  lemma RunDemodulates(t: Table, w: Word8, run: seq<FourCodes>)
    requires Readable(t) && |run| > 0
    ensures Demodulate(RunSamples(t, w, run), 104 * |run|) == RunBits(run)[..104 * |run| - 1]
    ensures DemodulateByPeak(RunSamples(t, w, run), 104 * |run|) == RunBits(run)
  {
    RunIsContinuous(t, w, run);
    DemodulateRecovers(t, w, RunBits(run));
    PeakRecovers(t, w, RunBits(run));
  }

  /** The whole-run round trip: from the samples of a run alone, and whatever the window held
      at the start, the receiver recovers bit k of block j of group g exactly as the block
      coder emitted it. The differential decoder still misses the very last bit of the run;
      the decoder by amplitude misses nothing. */
  lemma RunRoundTrip(t: Table, w: Word8, run: seq<FourCodes>, g: nat, j: nat, k: nat)
    requires t == SymbolWaveforms() && g < |run| && j < 4 && k < 26
    ensures var i := 104 * g + 26 * j + k;
            && (i < 104 * |run| - 1 ==> Demodulate(RunSamples(t, w, run), 104 * |run|)[i] == run[g][j][k])
            && DemodulateByPeak(RunSamples(t, w, run), 104 * |run|)[i] == run[g][j][k]
  {
    TableIsReadable();
    RunDemodulates(t, w, run);
    BitInRun(run, g, j, k);
  }

  // ---------- Waveform laws over whole runs ----------

  function Complement(w: Word8): Word8 {
    seq(8, i requires 0 <= i < 8 => !w[i])
  }

  lemma {:induction false} ComplementRun(w: Word8, bits: seq<bool>)
    ensures WindowAfter(Complement(w), bits) == Complement(WindowAfter(w, bits))
  {
    if |bits| > 0 {
      ComplementRun(w, bits[..|bits| - 1]);
    }
  }

  /** Starting from the complemented window negates every sample of the run. */
  lemma ComplementNegates(t: Table, w: Word8, bits: seq<bool>, k: nat)
    requires Mirrored(t) && k < 40 * |bits|
    ensures Modulate(t, Complement(w), bits)[k] == -Modulate(t, w, bits)[k]
  {
    var i, j := k / 40, k % 40;
    SampleAt(t, w, bits, i, j);
    SampleAt(t, Complement(w), bits, i, j);
    ComplementRun(w, bits[..i + 1]);
  }

  lemma ModulateIsBounded(t: Table, w: Word8, bits: seq<bool>, k: nat)
    requires Bounded(t) && k < 40 * |bits|
    ensures -1.0 <= Modulate(t, w, bits)[k] <= 1.0
  {
    SampleAt(t, w, bits, k / 40, k % 40);
  }

  lemma PushIndex(w: Word8, b: bool)
    ensures Index(Push(w, b)) == 2 * Index(w) % 8 || Index(Push(w, b)) == 2 * Index(w) % 8 + 1
  {
  }

  lemma ModulateIsSmooth(t: Table, w: Word8, bits: seq<bool>, k: nat)
    requires Smooth(t) && k + 1 < 40 * |bits|
    ensures Close(Modulate(t, w, bits)[k], Modulate(t, w, bits)[k + 1])
  {
    var i, j := k / 40, k % 40;
    SampleAt(t, w, bits, i, j);
    if j < 39 {
      SampleAt(t, w, bits, i, j + 1);
    } else {
      SampleAt(t, w, bits, i + 1, 0);
      WindowStep(w, bits, i + 1);
      PushIndex(WindowAfter(w, bits[..i + 1]), bits[i + 1]);
    }
  }

  lemma RunNegates(t: Table, w: Word8, run: seq<FourCodes>, k: nat)
    requires Mirrored(t) && k < 4160 * |run|
    ensures RunSamples(t, Complement(w), run)[k] == -RunSamples(t, w, run)[k]
  {
    RunIsContinuous(t, w, run);
    RunIsContinuous(t, Complement(w), run);
    ComplementNegates(t, w, RunBits(run), k);
  }

  lemma RunIsBounded(t: Table, w: Word8, run: seq<FourCodes>, k: nat)
    requires Bounded(t) && k < 4160 * |run|
    ensures -1.0 <= RunSamples(t, w, run)[k] <= 1.0
  {
    RunIsContinuous(t, w, run);
    ModulateIsBounded(t, w, RunBits(run), k);
  }

  lemma RunIsSmooth(t: Table, w: Word8, run: seq<FourCodes>, k: nat)
    requires Smooth(t) && k + 1 < 4160 * |run|
    ensures Close(RunSamples(t, w, run)[k], RunSamples(t, w, run)[k + 1])
  {
    RunIsContinuous(t, w, run);
    ModulateIsSmooth(t, w, RunBits(run), k);
  }

  /** The laws of the emitted waveform, across all symbol and group boundaries of every run. */
  lemma RunLaws(t: Table, w: Word8, run: seq<FourCodes>, k: nat)
    requires t == SymbolWaveforms() && k < 4160 * |run|
    ensures RunSamples(t, Complement(w), run)[k] == -RunSamples(t, w, run)[k]
    ensures -1.0 <= RunSamples(t, w, run)[k] <= 1.0
    ensures k + 1 < 4160 * |run| ==> Close(RunSamples(t, w, run)[k], RunSamples(t, w, run)[k + 1])
  {
    TableIsMirrored();
    TableIsBounded();
    TableIsSmooth();
    RunNegates(t, w, run, k);
    RunIsBounded(t, w, run, k);
    if k + 1 < 4160 * |run| { RunIsSmooth(t, w, run, k); }
  }

  /** The starting window is invisible to the receiver. */
  lemma WindowIsInvisible(t: Table, w: Word8, v: Word8, run: seq<FourCodes>)
    requires t == SymbolWaveforms() && |run| > 0
    ensures Demodulate(RunSamples(t, w, run), 104 * |run|) == Demodulate(RunSamples(t, v, run), 104 * |run|)
  {
    TableIsReadable();
    RunDemodulates(t, w, run);
    RunDemodulates(t, v, run);
  }
}
