/** The oscillator and the four MPX generators, in exact arithmetic. Phases are measured in
    turns, and the sine is any function of the position within a turn. */
module Mpx {

  const MAX_FREQUENCY := 57000
  const OSC_SAMPLE_RATE := 228000

  /** The position within the current turn. */
  function Turn(x: real): real {
    x - x.Floor as real
  }

  lemma FloorIs(x: real, f: int)
    requires f as real <= x < f as real + 1.0
    ensures x.Floor == f
  {
    var g := x.Floor;
    assert g as real <= x < g as real + 1.0;
    assert (f - g) as real == f as real - g as real;
  }

  lemma WholeTurns(x: real, k: int)
    ensures Turn(x + k as real) == Turn(x)
  {
    assert (x.Floor + k) as real == x.Floor as real + k as real;
    FloorIs(x + k as real, x.Floor + k);
  }

  lemma AddToTurn(x: real, y: real)
    ensures Turn(Turn(x) + y) == Turn(x + y)
  {
    WholeTurns(Turn(x) + y, x.Floor);
  }

  /** The place within a turn of a wave of the given frequency, at a base phase. */
  function PlaceOf(phase: real, freq: real): real {
    Turn(phase * freq)
  }

  datatype Shape = SineWave | CosineWave

  class Oscillator {
    var phaseStep: real
    var currentPhase: real
    var sampleRate: nat
    var shape: Shape

    constructor ()
    {
      phaseStep, currentPhase, sampleRate, shape := 0.0, 0.0, 0, SineWave;
    }

    /** Any rate above the highest frequency is accepted: the test for an odd quotient never
        adds anything, because the quotient is zero by then. */
    method Initialize(rate: nat, shape: Shape) returns (ret: int)
      modifies this
      ensures ret == if rate > MAX_FREQUENCY then 0 else -3
      ensures ret == 0 ==> phaseStep == 1.0 / rate as real && currentPhase == 0.0 && this.shape == shape
    {
      phaseStep, currentPhase, sampleRate := 0.0, 0.0, 0;
      this.shape := shape;
      if MAX_FREQUENCY >= rate || (MAX_FREQUENCY / rate) % 2 == 1 {
        return -3;
      }
      sampleRate := rate;
      phaseStep := 1.0 / rate as real;
      ret := 0;
    }

    /** A sample of the given frequency at the current phase. */
    function SampleForFreq(sine: real -> real, cosine: real -> real, freq: real): real
      reads this
    {
      match shape
      case SineWave => sine(PlaceOf(currentPhase, freq))
      case CosineWave => cosine(PlaceOf(currentPhase, freq))
    }

    method IncreasePhase()
      requires 0.0 <= currentPhase && 0.0 <= phaseStep
      modifies `currentPhase
      ensures currentPhase == Turn(old(currentPhase) + phaseStep) && 0.0 <= currentPhase < 1.0
    {
      currentPhase := Turn(currentPhase + phaseStep);
    }
  }

  /** The phase of the main oscillator after n samples. */
  function PhaseAfter(n: nat): real {
    Turn(n as real / 228000.0)
  }

  lemma PhaseStep(n: nat)
    ensures Turn(PhaseAfter(n) + 1.0 / 228000.0) == PhaseAfter(n + 1)
  {
    AddToTurn(n as real / 228000.0, 1.0 / 228000.0);
  }

  /** The carriers after n samples: j * 19 kHz is j * n twelfths of a turn on. */
  function Carrier(wave: real -> real, j: nat, n: nat): real {
    wave(Turn((j * n) as real / 12.0))
  }

  lemma PilotPhase(n: nat)
    ensures PlaceOf(PhaseAfter(n), 19000.0) == Turn(n as real / 12.0)
  {
    WholeTurns(PhaseAfter(n) * 19000.0, (n as real / 228000.0).Floor * 19000);
  }

  lemma SubcarrierPhase(n: nat)
    ensures PlaceOf(PhaseAfter(n), 38000.0) == Turn((2 * n) as real / 12.0)
  {
    WholeTurns(PhaseAfter(n) * 38000.0, (n as real / 228000.0).Floor * 38000);
  }

  lemma RdsPhase(n: nat)
    ensures PlaceOf(PhaseAfter(n), 57000.0) == Turn((3 * n) as real / 12.0)
  {
    WholeTurns(PhaseAfter(n) * 57000.0, (n as real / 228000.0).Floor * 57000);
  }

  lemma PilotCarrier(wave: real -> real, n: nat)
    ensures wave(PlaceOf(PhaseAfter(n), 19000.0)) == Carrier(wave, 1, n)
  {
    PilotPhase(n);
    assert 1 * n == n;
  }

  lemma SubcarrierIs(wave: real -> real, n: nat)
    ensures wave(PlaceOf(PhaseAfter(n), 38000.0)) == Carrier(wave, 2, n)
  {
    SubcarrierPhase(n);
  }

  lemma RdsCarrier(wave: real -> real, n: nat)
    ensures wave(PlaceOf(PhaseAfter(n), 57000.0)) == Carrier(wave, 3, n)
  {
    RdsPhase(n);
  }

  /** The wrap of the base phase does not show in the three carriers. */
  lemma WrapIsInvisible(wave: real -> real, n: nat)
    ensures wave(PlaceOf(PhaseAfter(n), 19000.0)) == Carrier(wave, 1, n)
    ensures wave(PlaceOf(PhaseAfter(n), 38000.0)) == Carrier(wave, 2, n)
    ensures wave(PlaceOf(PhaseAfter(n), 57000.0)) == Carrier(wave, 3, n)
  {
    PilotCarrier(wave, n);
    SubcarrierIs(wave, n);
    RdsCarrier(wave, n);
  }

  /** Together the carriers repeat every 12 samples. */
  lemma CarriersRepeat(wave: real -> real, j: nat, n: nat)
    ensures Carrier(wave, j, n + 12) == Carrier(wave, j, n)
  {
    assert (j * (n + 12)) as real / 12.0 == (j * n) as real / 12.0 + j as real by {
      assert j * (n + 12) == j * n + 12 * j;
    }
    WholeTurns((j * n) as real / 12.0, j);
  }

  // ---------- The generators ----------

  /** The gains, which other processes may set. */
  datatype Gains = Gains(rds: real, pilot: real, stereo: real, mpx: real)

  /** The gains and the signal processing around the oscillators. The RDS encoder delivers one
      sample per request. The Hilbert transformer clears its buffer first and so rewrites each
      period by itself. The low-pass filter transforms a buffer that also holds the periods
      before: three periods of old samples, then one of new ones. */
  datatype Setup = Setup(gains: Gains, sine: real -> real, cosine: real -> real, rds: nat -> real,
                         hilbert: seq<real> -> seq<real>,
                         convolve: (seq<real>, real) -> seq<real>, periodSize: nat)

  const SSB_LPF_OVERLAP_FACTOR := 3

  function OverlapLen(c: Setup): nat {
    SSB_LPF_OVERLAP_FACTOR * c.periodSize
  }

  /** The RDS subcarrier and the pilot of sample n. */
  function RdsPart(c: Setup, n: nat): real {
    c.gains.rds * Carrier(c.sine, 3, n) * c.rds(n)
  }

  function PilotPart(c: Setup, n: nat): real {
    c.gains.pilot * Carrier(c.sine, 1, n)
  }

  // One output sample of each generator, from the inputs at its place n in the stream.

  function MonoOut(c: Setup, lpr: real, n: nat): real {
    (lpr + RdsPart(c, n)) * c.gains.mpx
  }

  function DsbOut(c: Setup, lpr: real, lmr: real, n: nat): real {
    (lpr + PilotPart(c, n) + lmr * Carrier(c.sine, 2, n) * c.gains.stereo + RdsPart(c, n)) * c.gains.mpx
  }

  function BasebandOut(c: Setup, lpr: real, lmr: real, n: nat): real {
    lpr + lmr * Carrier(c.sine, 2, n)
  }

  function LpfOut(c: Setup, filtered: real, n: nat): real {
    (filtered + PilotPart(c, n) + RdsPart(c, n)) * c.gains.mpx
  }

  /** The lower sideband, from L-R and its phase-shifted copy. */
  function Sideband(c: Setup, lmr: real, shifted: real, n: nat): real {
    (shifted * Carrier(c.cosine, 2, n) + lmr * Carrier(c.sine, 2, n)) * (c.gains.stereo * 1.5)
  }

  function HartleyOut(c: Setup, lpr: real, lmr: real, shifted: real, n: nat): real {
    (Sideband(c, lmr, shifted, n) + lpr + PilotPart(c, n) + RdsPart(c, n)) * c.gains.mpx
  }

  datatype Mode = Mono | Dsb | SsbLpf | SsbHartley

  /** The input of one period: the modulation and the gains that are set at the time, L+R and
      L-R. */
  datatype Period = Period(mode: Mode, gains: Gains, lpr: seq<real>, lmr: seq<real>)

  /** The buffer that the low-pass filter of the SSB modulator gets. */
  function Baseband(c: Setup, p: Period, n: nat): (s: seq<real>)
    requires |p.lmr| == |p.lpr|
    ensures |s| == |p.lpr|
  {
    seq(|p.lpr|, i requires 0 <= i < |p.lpr| => BasebandOut(c, p.lpr[i], p.lmr[i], n + i))
  }

  /** The filters keep the length of a buffer. */
  ghost predicate FiltersFit(c: Setup) {
    && (forall s, g :: |c.convolve(s, g)| == |s|)
    && (forall s :: |c.hilbert(s)| == |s|)
  }

  /** A buffer of the low-pass filter. */
  predicate IsMemory(c: Setup, mem: seq<real>) {
    |mem| == OverlapLen(c) + c.periodSize
  }

  /** The buffer of the filter after another period: everything moves on by a whole period, and
      the new samples go behind the overlap. A short period leaves old samples at the end. */
  function Shifted(c: Setup, mem: seq<real>, s: seq<real>): (r: seq<real>)
    requires IsMemory(c, mem) && |s| <= c.periodSize
    ensures IsMemory(c, r)
  {
    seq(|mem|, i requires 0 <= i < |mem| =>
      if i < OverlapLen(c) then mem[i + c.periodSize]
      else if i < OverlapLen(c) + |s| then s[i - OverlapLen(c)]
      else mem[i])
  }

  lemma ShiftedIs(c: Setup, mem: seq<real>, s: seq<real>, r: seq<real>)
    requires IsMemory(c, mem) && IsMemory(c, r) && |s| <= c.periodSize
    requires forall i :: 0 <= i < OverlapLen(c) ==> r[i] == mem[i + c.periodSize]
    requires forall i :: OverlapLen(c) <= i < OverlapLen(c) + |s| ==> r[i] == s[i - OverlapLen(c)]
    requires forall i :: OverlapLen(c) + |s| <= i < |mem| ==> r[i] == mem[i]
    ensures r == Shifted(c, mem, s)
  {
  }

  /** What the generators ask of a period. */
  predicate Fits(c: Setup, p: Period) {
    |p.lpr| == |p.lmr| <= c.periodSize
  }

  /** The buffer of the filter after a period that begins after n samples. */
  function NextMemory(c: Setup, p: Period, n: nat, mem: seq<real>): (r: seq<real>)
    requires Fits(c, p) && IsMemory(c, mem)
    ensures IsMemory(c, r)
  {
    if p.mode == SsbLpf then Shifted(c, mem, Baseband(c, p, n)) else mem
  }

  /** Output sample i of a period that begins after n samples, with mem in the buffer of the
      filter: a function of the place in the stream, of the period, and in one mode of mem. */
  ghost function Output(c: Setup, p: Period, n: nat, mem: seq<real>, i: nat): real
    requires FiltersFit(c) && Fits(c, p) && IsMemory(c, mem) && i < |p.lpr|
  {
    match p.mode
    case Mono => MonoOut(c, p.lpr[i], n + i)
    case Dsb => DsbOut(c, p.lpr[i], p.lmr[i], n + i)
    case SsbLpf => LpfOut(c, c.convolve(NextMemory(c, p, n, mem), c.gains.stereo * 2.0)[i], n + i)
    case SsbHartley => HartleyOut(c, p.lpr[i], p.lmr[i], c.hilbert(p.lmr)[i], n + i)
  }

  class Generator {
    var setup: Setup
    const sinOsc: Oscillator
    const cosOsc: Oscillator
    const realIn: array<real>
    var rdsRequests: nat

    ghost predicate Valid()
      reads `setup, sinOsc, cosOsc
    {
      && sinOsc != cosOsc && FiltersFit(setup)
      && sinOsc.shape == SineWave && cosOsc.shape == CosineWave
      && sinOsc.phaseStep == 1.0 / 228000.0
      && realIn.Length == OverlapLen(setup) + setup.periodSize
    }

    /** What the low-pass filter remembers. */
    ghost function Memory(): (mem: seq<real>)
      requires Valid()
      reads `setup, sinOsc, cosOsc, realIn
      ensures IsMemory(setup, mem)
    {
      realIn[..]
    }

    /** The period fits, and the output does not share memory with the filter. */
    ghost predicate CanTake(p: Period, out: array<real>)
      reads `setup
    {
      Fits(setup, p) && |p.lpr| <= out.Length && out != realIn
    }

    /** After n samples the main phase is n steps on, and n RDS samples have been requested. */
    ghost predicate After(n: nat)
      reads this, sinOsc, cosOsc
    {
      Valid() && sinOsc.currentPhase == PhaseAfter(n) && rdsRequests == n
    }

    /** The filter begins with its impulse response in the buffer. */
    constructor (c: Setup, impulse: seq<real>)
      requires FiltersFit(c) && IsMemory(c, impulse)
      ensures setup == c && After(0) && Memory() == impulse
      ensures fresh(sinOsc) && fresh(cosOsc) && fresh(realIn)
    {
      setup := c;
      realIn := new real[|impulse|](i requires 0 <= i < |impulse| => impulse[i]);
      sinOsc := new Oscillator();
      cosOsc := new Oscillator();
      rdsRequests := 0;
      new;
      var _ := sinOsc.Initialize(OSC_SAMPLE_RATE, SineWave);
      var _ := cosOsc.Initialize(OSC_SAMPLE_RATE, CosineWave);
    }

    /** The main oscillator moves on. */
    method IncreasePhase(ghost n: nat)
      requires Valid() && sinOsc.currentPhase == PhaseAfter(n)
      modifies sinOsc`currentPhase
      ensures sinOsc.currentPhase == PhaseAfter(n + 1)
    {
      PhaseStep(n);
      sinOsc.IncreasePhase();
    }

    /** A sample of the main oscillator. */
    method Sine(freq: real, ghost phase: real) returns (x: real)
      requires Valid() && sinOsc.currentPhase == phase
      ensures x == setup.sine(PlaceOf(phase, freq))
    {
      x := sinOsc.SampleForFreq(setup.sine, setup.cosine, freq);
    }

    /** A sample of the cosine oscillator. */
    method Cosine(freq: real, ghost phase: real) returns (x: real)
      requires Valid() && cosOsc.currentPhase == phase
      ensures x == setup.cosine(PlaceOf(phase, freq))
    {
      x := cosOsc.SampleForFreq(setup.sine, setup.cosine, freq);
    }

    method Pilot(ghost n: nat) returns (x: real)
      requires After(n)
      ensures x == PilotPart(setup, n)
    {
      PilotCarrier(setup.sine, n);
      var y := Sine(19000.0, PhaseAfter(n));
      x := setup.gains.pilot * y;
    }

    method Subcarrier(ghost n: nat) returns (x: real)
      requires Valid() && sinOsc.currentPhase == PhaseAfter(n)
      ensures x == Carrier(setup.sine, 2, n)
    {
      SubcarrierIs(setup.sine, n);
      x := Sine(38000.0, PhaseAfter(n));
    }

    /** The RDS part of a sample, which takes one sample from the encoder. */
    method NextRds(ghost n: nat) returns (x: real)
      requires After(n)
      modifies `rdsRequests
      ensures rdsRequests == n + 1 && x == RdsPart(setup, n)
    {
      RdsCarrier(setup.sine, n);
      var y := Sine(57000.0, PhaseAfter(n));
      x := setup.gains.rds * y * setup.rds(rdsRequests);
      rdsRequests := rdsRequests + 1;
    }

    /** The cosine oscillator is locked to the main one before every use. */
    method HartleySideband(lmr: real, shifted: real, ghost n: nat) returns (x: real)
      requires After(n)
      modifies cosOsc`currentPhase
      ensures After(n) && x == Sideband(setup, lmr, shifted, n)
    {
      cosOsc.currentPhase := sinOsc.currentPhase;
      SubcarrierIs(setup.cosine, n);
      x := Cosine(38000.0, PhaseAfter(n));
      x := shifted * x;
      var y := Subcarrier(n);
      x := x + lmr * y;
      x := x * (setup.gains.stereo * 1.5);
    }

    method MonoSample(lpr: real, ghost n: nat) returns (out: real)
      requires After(n)
      modifies `rdsRequests, sinOsc`currentPhase
      ensures After(n + 1) && out == MonoOut(setup, lpr, n)
    {
      out := lpr;
      var x := NextRds(n);
      out := out + x;
      out := out * setup.gains.mpx;
      IncreasePhase(n);
    }

    method DsbSample(lpr: real, lmr: real, ghost n: nat) returns (out: real)
      requires After(n)
      modifies `rdsRequests, sinOsc`currentPhase
      ensures After(n + 1) && out == DsbOut(setup, lpr, lmr, n)
    {
      out := lpr;
      var pilot := Pilot(n);
      out := out + pilot;
      var y := Subcarrier(n);
      out := out + lmr * y * setup.gains.stereo;
      var x := NextRds(n);
      out := out + x;
      out := out * setup.gains.mpx;
      IncreasePhase(n);
    }

    method LpfSample(filtered: real, ghost n: nat) returns (out: real)
      requires After(n)
      modifies `rdsRequests, sinOsc`currentPhase
      ensures After(n + 1) && out == LpfOut(setup, filtered, n)
    {
      out := filtered;
      var pilot := Pilot(n);
      out := out + pilot;
      var x := NextRds(n);
      out := out + x;
      out := out * setup.gains.mpx;
      IncreasePhase(n);
    }

    method HartleySample(lpr: real, lmr: real, shifted: real, ghost n: nat) returns (out: real)
      requires After(n)
      modifies `rdsRequests, sinOsc`currentPhase, cosOsc`currentPhase
      ensures After(n + 1) && out == HartleyOut(setup, lpr, lmr, shifted, n)
    {
      out := HartleySideband(lmr, shifted, n);
      out := out + lpr;
      var pilot := Pilot(n);
      out := out + pilot;
      var x := NextRds(n);
      out := out + x;
      out := out * setup.gains.mpx;
      IncreasePhase(n);
    }

    method MonoGenerator(p: Period, out: array<real>, ghost n: nat)
      requires p.mode == Mono && CanTake(p, out) && After(n)
      modifies `rdsRequests, sinOsc`currentPhase, cosOsc`currentPhase, out
      ensures After(n + |p.lpr|)
      ensures forall k :: 0 <= k < |p.lpr| ==> out[k] == Output(setup, p, n, Memory(), k)
    {
      for i := 0 to |p.lpr|
        invariant After(n + i)
        invariant forall k :: 0 <= k < i ==> out[k] == MonoOut(setup, p.lpr[k], n + k)
      {
        out[i] := MonoSample(p.lpr[i], n + i);
      }
    }

    method DsbLoop(lpr: seq<real>, lmr: seq<real>, out: array<real>, ghost n: nat)
      requires |lpr| == |lmr| <= out.Length && After(n)
      modifies `rdsRequests, sinOsc`currentPhase, out
      ensures After(n + |lpr|)
      ensures forall k :: 0 <= k < |lpr| ==> out[k] == DsbOut(setup, lpr[k], lmr[k], n + k)
    {
      for i := 0 to |lpr|
        invariant After(n + i)
        invariant forall k :: 0 <= k < i ==> out[k] == DsbOut(setup, lpr[k], lmr[k], n + k)
      {
        out[i] := DsbSample(lpr[i], lmr[i], n + i);
      }
    }

    method DsbGenerator(p: Period, out: array<real>, ghost n: nat)
      requires p.mode == Dsb && CanTake(p, out) && After(n)
      modifies `rdsRequests, sinOsc`currentPhase, cosOsc`currentPhase, out
      ensures After(n + |p.lpr|)
      ensures forall k :: 0 <= k < |p.lpr| ==> out[k] == Output(setup, p, n, Memory(), k)
    {
      DsbLoop(p.lpr, p.lmr, out, n);
    }

    method BasebandSample(lpr: real, lmr: real, ghost n: nat) returns (out: real)
      requires Valid() && sinOsc.currentPhase == PhaseAfter(n)
      modifies sinOsc`currentPhase
      ensures sinOsc.currentPhase == PhaseAfter(n + 1) && out == BasebandOut(setup, lpr, lmr, n)
    {
      var y := Subcarrier(n);
      out := lpr + lmr * y;
      IncreasePhase(n);
    }

    /** The first pass: modulate L-R onto the subcarrier and add it to L+R. */
    method FirstPass(p: Period, out: array<real>, ghost n: nat)
      requires CanTake(p, out) && Valid() && sinOsc.currentPhase == PhaseAfter(n)
      requires forall k :: 0 <= k < |p.lpr| ==> out[k] == p.lpr[k]
      modifies sinOsc`currentPhase, out
      ensures Valid()
      ensures forall k :: 0 <= k < |p.lpr| ==> out[k] == BasebandOut(setup, p.lpr[k], p.lmr[k], n + k)
    {
      for i := 0 to |p.lpr|
        invariant Valid() && sinOsc.currentPhase == PhaseAfter(n + i)
        invariant forall k :: i <= k < |p.lpr| ==> out[k] == p.lpr[k]
        invariant forall k :: 0 <= k < i ==> out[k] == BasebandOut(setup, p.lpr[k], p.lmr[k], n + k)
      {
        out[i] := BasebandSample(out[i], p.lmr[i], n + i);
      }
    }

    /** Modulate the baseband in a first pass, and set the phase back for the second. */
    method ModulateBaseband(p: Period, out: array<real>, ghost n: nat)
      requires CanTake(p, out) && After(n)
      modifies sinOsc`currentPhase, out
      ensures After(n) && out[..|p.lpr|] == Baseband(setup, p, n)
    {
      forall i | 0 <= i < |p.lpr| { out[i] := p.lpr[i]; }
      var savedPhase := sinOsc.currentPhase;
      FirstPass(p, out, n);
      sinOsc.currentPhase := savedPhase;
    }

    /** Move the buffer of the filter on by a period, and put the first len samples behind the
        overlap. */
    method ShiftIn(out: array<real>, len: nat)
      requires Valid() && len <= out.Length && len <= setup.periodSize && out != realIn
      modifies realIn
      ensures Valid() && Memory() == Shifted(setup, old(Memory()), out[..len])
    {
      ghost var mem := realIn[..];
      MakeRoom();
      var overlap := OverlapLen(setup);
      forall i | overlap <= i < overlap + len { realIn[i] := out[i - overlap]; }
      ShiftedIs(setup, mem, out[..len], realIn[..]);
    }

    /** Move the newer samples of the buffer down by a period. */
    method MakeRoom()
      requires Valid()
      modifies realIn
      ensures Valid()
      ensures forall i :: 0 <= i < OverlapLen(setup) ==> realIn[i] == old(realIn[i + setup.periodSize])
      ensures forall i :: OverlapLen(setup) <= i < realIn.Length ==> realIn[i] == old(realIn[i])
    {
      var period := setup.periodSize;
      forall i | 0 <= i < OverlapLen(setup) { realIn[i] := realIn[i + period]; }
    }

    /** Apply the low-pass filter to the first len samples of a buffer, in place. */
    method ApplyLpf(out: array<real>, len: nat, gain: real)
      requires Valid() && len <= out.Length && len <= setup.periodSize && out != realIn
      modifies realIn, out
      ensures Valid() && Memory() == Shifted(setup, old(Memory()), old(out[..len]))
      ensures out[..len] == setup.convolve(Memory(), gain)[..len]
    {
      ShiftIn(out, len);
      var filtered := setup.convolve(realIn[..], gain);
      forall i | 0 <= i < len { out[i] := filtered[i]; }
    }

    /** Add the pilot and RDS to the filtered signal. */
    method AddRest(out: array<real>, len: nat, ghost filtered: seq<real>, ghost n: nat)
      requires len <= out.Length && out[..len] == filtered && After(n)
      modifies `rdsRequests, sinOsc`currentPhase, out
      ensures After(n + len)
      ensures forall k :: 0 <= k < len ==> out[k] == LpfOut(setup, filtered[k], n + k)
    {
      for i := 0 to len
        invariant After(n + i)
        invariant forall k :: i <= k < len ==> out[k] == filtered[k]
        invariant forall k :: 0 <= k < i ==> out[k] == LpfOut(setup, filtered[k], n + k)
      {
        out[i] := LpfSample(out[i], n + i);
      }
    }

    method SsbLpfGenerator(p: Period, out: array<real>, ghost n: nat)
      requires p.mode == SsbLpf && CanTake(p, out) && After(n)
      modifies `rdsRequests, sinOsc`currentPhase, realIn, out
      ensures After(n + |p.lpr|) && Memory() == NextMemory(setup, p, n, old(Memory()))
      ensures forall k :: 0 <= k < |p.lpr| ==> out[k] == Output(setup, p, n, old(Memory()), k)
    {
      ModulateBaseband(p, out, n);
      ApplyLpf(out, |p.lpr|, setup.gains.stereo * 2.0);
      AddRest(out, |p.lpr|, out[..|p.lpr|], n);
    }

    method HartleyLoop(lpr: seq<real>, lmr: seq<real>, shifted: seq<real>, out: array<real>, ghost n: nat)
      requires |lpr| == |lmr| == |shifted| <= out.Length && After(n)
      modifies `rdsRequests, sinOsc`currentPhase, cosOsc`currentPhase, out
      ensures After(n + |lpr|)
      ensures forall k :: 0 <= k < |lpr| ==> out[k] == HartleyOut(setup, lpr[k], lmr[k], shifted[k], n + k)
    {
      for i := 0 to |lpr|
        invariant After(n + i)
        invariant forall k :: 0 <= k < i ==> out[k] == HartleyOut(setup, lpr[k], lmr[k], shifted[k], n + k)
      {
        out[i] := HartleySample(lpr[i], lmr[i], shifted[i], n + i);
      }
    }

    method SsbHartleyGenerator(p: Period, out: array<real>, ghost n: nat)
      requires p.mode == SsbHartley && CanTake(p, out) && After(n)
      modifies `rdsRequests, sinOsc`currentPhase, cosOsc`currentPhase, out
      ensures After(n + |p.lpr|)
      ensures forall k :: 0 <= k < |p.lpr| ==> out[k] == Output(setup, p, n, Memory(), k)
    {
      HartleyLoop(p.lpr, p.lmr, setup.hilbert(p.lmr), out, n);
    }

    /** One period with the modulation that is set at the time. */
    method Generate(p: Period, out: array<real>, ghost n: nat)
      requires CanTake(p, out) && After(n)
      modifies `rdsRequests, sinOsc`currentPhase, cosOsc`currentPhase, realIn, out
      ensures After(n + |p.lpr|) && Memory() == NextMemory(setup, p, n, old(Memory()))
      ensures forall k :: 0 <= k < |p.lpr| ==> out[k] == Output(setup, p, n, old(Memory()), k)
    {
      match p.mode {
        case Mono => MonoGenerator(p, out, n);
        case SsbHartley => SsbHartleyGenerator(p, out, n);
        case SsbLpf => SsbLpfGenerator(p, out, n);
        case Dsb => DsbGenerator(p, out, n);
      }
    }

    /** One period with the modulation and the gains that are set at the time. */
    method Process(p: Period, out: array<real>, ghost n: nat)
      requires CanTake(p, out) && After(n)
      modifies `setup, `rdsRequests, sinOsc`currentPhase, cosOsc`currentPhase, realIn, out
      ensures setup == old(setup).(gains := p.gains)
      ensures After(n + |p.lpr|) && Memory() == NextMemory(setup, p, n, old(Memory()))
      ensures forall k :: 0 <= k < |p.lpr| ==> out[k] == Output(setup, p, n, old(Memory()), k)
    {
      setup := setup.(gains := p.gains);
      Generate(p, out, n);
    }
  }

  // ---------- Histories of periods ----------

  ghost predicate AllFit(c: Setup, ps: seq<Period>) {
    forall i :: 0 <= i < |ps| ==> Fits(c, ps[i])
  }

  function Length(ps: seq<Period>): nat {
    if |ps| == 0 then 0 else Length(ps[..|ps| - 1]) + |ps[|ps| - 1].lpr|
  }

  /** The buffer of the filter after a history. */
  ghost function MemoryAfter(c: Setup, ps: seq<Period>, mem: seq<real>): (r: seq<real>)
    requires IsMemory(c, mem) && AllFit(c, ps)
    ensures IsMemory(c, r)
  {
    if |ps| == 0 then mem
    else
      var before := ps[..|ps| - 1];
      assert Fits(c, ps[|ps| - 1]);
      NextMemory(c, ps[|ps| - 1], Length(before), MemoryAfter(c, before, mem))
  }

  /** The gains do not matter to the filter. */
  lemma MemoryWithGains(c: Setup, p: Period, n: nat, mem: seq<real>, g: Gains)
    requires Fits(c, p) && IsMemory(c, mem)
    ensures NextMemory(c.(gains := g), p, n, mem) == NextMemory(c, p, n, mem)
  {
    var d := c.(gains := g);
    var a, b := Baseband(d, p, n), Baseband(c, p, n);
    forall i | 0 <= i < |p.lpr|
      ensures a[i] == b[i]
    {
      assert a[i] == BasebandOut(d, p.lpr[i], p.lmr[i], n + i);
    }
    assert a == b;
  }

  /** Phase lock over any history of modulations, gains and period sizes: after the periods ps,
      however they were modulated, the main phase is as many steps on as samples were put out, as many
      RDS samples were taken, and sample k of the next period depends on the history through
      that number and the memory of the low-pass filter only. */
  method Run(g: Generator, ps: seq<Period>, last: Period, out: array<real>)
    requires g.After(0) && g.CanTake(last, out) && AllFit(g.setup, ps)
    requires forall i :: 0 <= i < |ps| ==> |ps[i].lpr| <= out.Length
    modifies g, g.sinOsc, g.cosOsc, g.realIn, out
    ensures g.After(Length(ps) + |last.lpr|) && g.setup == old(g.setup).(gains := last.gains)
    ensures forall k :: 0 <= k < |last.lpr| ==>
      out[k] == Output(g.setup, last, Length(ps), MemoryAfter(old(g.setup), ps, old(g.Memory())), k)
  {
    ghost var mem, c := g.Memory(), g.setup;
    for i := 0 to |ps|
      invariant g.After(Length(ps[..i])) && g.setup == c.(gains := g.setup.gains)
      invariant g.Memory() == MemoryAfter(c, ps[..i], mem)
    {
      MemoryWithGains(c, ps[i], Length(ps[..i]), g.Memory(), ps[i].gains);
      g.Process(ps[i], out, Length(ps[..i]));
      assert ps[..i + 1][..i] == ps[..i];
    }
    assert ps[..|ps|] == ps;
    g.Process(last, out, Length(ps));
  }

  // ---------- What the low-pass filter remembers ----------

  /** What a history has fed into the filter, period by period. */
  ghost function Fed(c: Setup, ps: seq<Period>): (f: seq<seq<real>>)
    requires AllFit(c, ps)
    ensures forall i :: 0 <= i < |f| ==> |f[i]| <= c.periodSize
  {
    if |ps| == 0 then []
    else
      var before, p := ps[..|ps| - 1], ps[|ps| - 1];
      assert Fits(c, p);
      if p.mode == SsbLpf then Fed(c, before) + [Baseband(c, p, Length(before))] else Fed(c, before)
  }

  function FeedAll(c: Setup, mem: seq<real>, f: seq<seq<real>>): (r: seq<real>)
    requires IsMemory(c, mem) && forall i :: 0 <= i < |f| ==> |f[i]| <= c.periodSize
    ensures IsMemory(c, r)
  {
    if |f| == 0 then mem else Shifted(c, FeedAll(c, mem, f[..|f| - 1]), f[|f| - 1])
  }

  function Flat(f: seq<seq<real>>): seq<real> {
    if |f| == 0 then [] else Flat(f[..|f| - 1]) + f[|f| - 1]
  }

  lemma {:induction false} MemoryIsFed(c: Setup, ps: seq<Period>, mem: seq<real>)
    requires IsMemory(c, mem) && AllFit(c, ps)
    ensures MemoryAfter(c, ps, mem) == FeedAll(c, mem, Fed(c, ps))
  {
    if |ps| > 0 {
      var before, f := ps[..|ps| - 1], Fed(c, ps);
      MemoryIsFed(c, before, mem);
      if ps[|ps| - 1].mode == SsbLpf { assert f[..|f| - 1] == Fed(c, before); }
    }
  }

  lemma {:induction false} FeedConcat(c: Setup, mem: seq<real>, a: seq<seq<real>>, b: seq<seq<real>>)
    requires IsMemory(c, mem)
    requires forall i :: 0 <= i < |a| ==> |a[i]| <= c.periodSize
    requires forall i :: 0 <= i < |b| ==> |b[i]| <= c.periodSize
    ensures FeedAll(c, mem, a + b) == FeedAll(c, FeedAll(c, mem, a), b)
  {
    if |b| == 0 {
      assert a + b == a;
    } else {
      var d := b[..|b| - 1];
      assert (a + b)[..|a + b| - 1] == a + d;
      FeedConcat(c, mem, a, d);
    }
  }

  /** Whole periods end up at the end of the buffer. */
  lemma {:induction false} FeedEnds(c: Setup, mem: seq<real>, f: seq<seq<real>>)
    requires IsMemory(c, mem) && forall i :: 0 <= i < |f| ==> |f[i]| == c.periodSize
    requires |Flat(f)| <= |mem|
    ensures FeedAll(c, mem, f)[|mem| - |Flat(f)|..] == Flat(f)
  {
    if |f| > 0 {
      var g, s := f[..|f| - 1], f[|f| - 1];
      FeedEnds(c, mem, g);
      var m := FeedAll(c, mem, g);
      assert Shifted(c, m, s) == m[c.periodSize..] + s;
      assert m[|mem| - |Flat(g)|..] == m[c.periodSize..][OverlapLen(c) - |Flat(g)|..];
    }
  }

  /** The two histories fed the filter the same three whole periods f last. */
  ghost predicate AgreeLast(c: Setup, ps: seq<Period>, qs: seq<Period>, f: seq<seq<real>>)
    requires AllFit(c, ps)
    requires AllFit(c, qs)
  {
    && |f| <= |Fed(c, ps)| && Fed(c, ps)[|Fed(c, ps)| - |f|..] == f
    && |f| <= |Fed(c, qs)| && Fed(c, qs)[|Fed(c, qs)| - |f|..] == f
    && |f| == SSB_LPF_OVERLAP_FACTOR && (forall i :: 0 <= i < |f| ==> |f[i]| == c.periodSize)
  }

  lemma FlatLength(c: Setup, f: seq<seq<real>>)
    requires |f| == SSB_LPF_OVERLAP_FACTOR && forall i :: 0 <= i < |f| ==> |f[i]| == c.periodSize
    ensures |Flat(f)| == OverlapLen(c)
  {
    assert Flat(f[..2][..1]) == Flat(f[..2][..1][..0]) + f[0];
    assert Flat(f[..2]) == Flat(f[..2][..1]) + f[1];
  }

  lemma OverlapAfter(c: Setup, ps: seq<Period>, mem: seq<real>, f: seq<seq<real>>)
    requires IsMemory(c, mem) && AllFit(c, ps)
    requires |f| <= |Fed(c, ps)| && Fed(c, ps)[|Fed(c, ps)| - |f|..] == f
    requires |f| == SSB_LPF_OVERLAP_FACTOR && forall i :: 0 <= i < |f| ==> |f[i]| == c.periodSize
    ensures MemoryAfter(c, ps, mem)[c.periodSize..] == Flat(f)
  {
    FlatLength(c, f);
    var fed := Fed(c, ps);
    var a := fed[..|fed| - |f|];
    assert fed == a + f;
    MemoryIsFed(c, ps, mem);
    FeedConcat(c, mem, a, f);
    FeedEnds(c, FeedAll(c, mem, a), f);
  }

  lemma SameOverlap(c: Setup, m: seq<real>, n: seq<real>, s: seq<real>)
    requires IsMemory(c, m) && IsMemory(c, n) && |s| <= c.periodSize
    requires m[c.periodSize..] == n[c.periodSize..]
    ensures Shifted(c, m, s) == Shifted(c, n, s)
  {
    assert forall i :: c.periodSize <= i < |m| ==> m[i] == m[c.periodSize..][i - c.periodSize];
    assert forall i :: c.periodSize <= i < |n| ==> n[i] == n[c.periodSize..][i - c.periodSize];
  }

  lemma MemoryIsForgotten(c: Setup, ps: seq<Period>, qs: seq<Period>, last: Period,
                          mem: seq<real>, nem: seq<real>, f: seq<seq<real>>)
    requires Fits(c, last) && last.mode == SsbLpf && IsMemory(c, mem) && IsMemory(c, nem)
    requires AllFit(c, ps) && AllFit(c, qs) && Length(ps) == Length(qs) && AgreeLast(c, ps, qs, f)
    ensures NextMemory(c, last, Length(ps), MemoryAfter(c, ps, mem)) ==
            NextMemory(c, last, Length(qs), MemoryAfter(c, qs, nem))
  {
    OverlapAfter(c, ps, mem, f);
    OverlapAfter(c, qs, nem, f);
    SameOverlap(c, MemoryAfter(c, ps, mem), MemoryAfter(c, qs, nem), Baseband(c, last, Length(ps)));
  }

  /** How much of a history matters. Two histories of the same length give the same next output
      in every mode but SSB-LPF, whatever they were; in SSB-LPF they do if the last three periods
      that they fed into the filter are whole and agree. */
  lemma HistoryIsForgotten(c: Setup, ps: seq<Period>, qs: seq<Period>, last: Period,
                           mem: seq<real>, nem: seq<real>, f: seq<seq<real>>, k: nat)
    requires FiltersFit(c) && Fits(c, last) && IsMemory(c, mem) && IsMemory(c, nem) && k < |last.lpr|
    requires AllFit(c, ps)
    requires AllFit(c, qs)
    requires Length(ps) == Length(qs)
    requires last.mode == SsbLpf ==> AgreeLast(c, ps, qs, f)
    ensures Output(c, last, Length(ps), MemoryAfter(c, ps, mem), k) ==
            Output(c, last, Length(qs), MemoryAfter(c, qs, nem), k)
  {
    if last.mode == SsbLpf { MemoryIsForgotten(c, ps, qs, last, mem, nem, f); }
  }
}
