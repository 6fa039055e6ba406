/** What the MPX signal contains, with frequencies in hertz: the pilot at 19 kHz, L-R at 38 kHz and
    RDS at 57 kHz, in each of the modulations, and what a synchronous detector finds there. */
module Spectrum {
  import opened Mpx

  /** A wave of the given frequency, n samples of 1/228000 s after the start. */
  function Tone(wave: real -> real, freq: real, n: nat): real {
    wave(Turn(n as real * freq / 228000.0))
  }

  lemma PilotTone(wave: real -> real, n: nat)
    ensures Carrier(wave, 1, n) == Tone(wave, 19000.0, n)
  {
    assert (1 * n) as real / 12.0 == n as real * 19000.0 / 228000.0;
  }

  lemma SubcarrierTone(wave: real -> real, n: nat)
    ensures Carrier(wave, 2, n) == Tone(wave, 38000.0, n)
  {
    assert (2 * n) as real / 12.0 == n as real * 38000.0 / 228000.0;
  }

  lemma RdsTone(wave: real -> real, n: nat)
    ensures Carrier(wave, 3, n) == Tone(wave, 57000.0, n)
  {
    assert (3 * n) as real / 12.0 == n as real * 57000.0 / 228000.0;
  }

  /** The generator with other gains. */
  ghost function With(c: Setup, g: Gains): (d: Setup)
    requires FiltersFit(c)
    ensures FiltersFit(d)
  {
    c.(gains := g)
  }

  /** The share of RDS in the output, in every modulation: the RDS samples on a carrier of 57 kHz,
      one of them for every sample of the output. */
  lemma RdsIsAt57(c: Setup, p: Period, n: nat, mem: seq<real>, i: nat)
    requires FiltersFit(c) && Mpx.Fits(c, p) && IsMemory(c, mem) && i < |p.lpr|
    ensures Output(c, p, n, mem, i) - Output(With(c, c.gains.(rds := 0.0)), p, n, mem, i) ==
            c.gains.mpx * (c.gains.rds * Tone(c.sine, 57000.0, n + i) * c.rds(n + i))
  {
    RdsTone(c.sine, n + i);
    MemoryWithGains(c, p, n, mem, c.gains.(rds := 0.0));
  }

  /** The share of the pilot: a carrier of 19 kHz, except in mono. */
  lemma PilotIsAt19(c: Setup, p: Period, n: nat, mem: seq<real>, i: nat)
    requires FiltersFit(c) && Mpx.Fits(c, p) && IsMemory(c, mem) && i < |p.lpr|
    ensures Output(c, p, n, mem, i) - Output(With(c, c.gains.(pilot := 0.0)), p, n, mem, i) ==
            if p.mode == Mono then 0.0 else c.gains.mpx * (c.gains.pilot * Tone(c.sine, 19000.0, n + i))
  {
    PilotTone(c.sine, n + i);
    match p.mode
    case Mono =>
    case Dsb =>
    case SsbLpf => MemoryWithGains(c, p, n, mem, c.gains.(pilot := 0.0));
    case SsbHartley =>
  }

  /** The share of L-R: on a carrier of 38 kHz for DSB, none in mono, and for SSB by Hartley's
      method also its phase-shifted copy on the cosine of 38 kHz. */
  lemma StereoIsAt38(c: Setup, p: Period, n: nat, mem: seq<real>, i: nat)
    requires FiltersFit(c) && Mpx.Fits(c, p) && IsMemory(c, mem) && i < |p.lpr| && p.mode != SsbLpf
    ensures Output(c, p, n, mem, i) - Output(With(c, c.gains.(stereo := 0.0)), p, n, mem, i) ==
            if p.mode == Mono then 0.0
            else if p.mode == Dsb then c.gains.mpx * (p.lmr[i] * Tone(c.sine, 38000.0, n + i) * c.gains.stereo)
            else c.gains.mpx * ((c.hilbert(p.lmr)[i] * Tone(c.cosine, 38000.0, n + i) +
                                 p.lmr[i] * Tone(c.sine, 38000.0, n + i)) * (c.gains.stereo * 1.5))
  {
    SubcarrierTone(c.sine, n + i);
    SubcarrierTone(c.cosine, n + i);
    match p.mode
    case Mono =>
    case Dsb =>
    case SsbHartley =>
  }

  /** In SSB by low-pass filtering the filter gets L+R and L-R on a carrier of 38 kHz, behind what
      it got before, ... */
  lemma FilterGetsStereoAt38(c: Setup, p: Period, n: nat, mem: seq<real>, i: nat)
    requires Mpx.Fits(c, p) && IsMemory(c, mem) && i < |p.lpr| && p.mode == SsbLpf
    ensures var fed := NextMemory(c, p, n, mem);
            && fed[OverlapLen(c) + i] == p.lpr[i] + p.lmr[i] * Tone(c.sine, 38000.0, n + i)
            && forall k :: 0 <= k < OverlapLen(c) ==> fed[k] == mem[k + c.periodSize]
  {
    SubcarrierTone(c.sine, n + i);
  }

  /** ... and the output without pilot and RDS is what the filter makes of it. */
  lemma FilterIsPutOut(c: Setup, p: Period, n: nat, mem: seq<real>, i: nat)
    requires FiltersFit(c) && Mpx.Fits(c, p) && IsMemory(c, mem) && i < |p.lpr| && p.mode == SsbLpf
    ensures Output(With(c, c.gains.(pilot := 0.0, rds := 0.0)), p, n, mem, i) ==
            c.gains.mpx * c.convolve(NextMemory(c, p, n, mem), c.gains.stereo * 2.0)[i]
  {
    MemoryWithGains(c, p, n, mem, c.gains.(pilot := 0.0, rds := 0.0));
  }

  /** What is left without pilot, L-R and RDS is L+R. */
  lemma MonoRemains(c: Setup, p: Period, n: nat, mem: seq<real>, i: nat)
    requires FiltersFit(c) && Mpx.Fits(c, p) && IsMemory(c, mem) && i < |p.lpr| && p.mode != SsbLpf
    requires c.gains == Gains(0.0, 0.0, 0.0, c.gains.mpx)
    ensures Output(c, p, n, mem, i) == c.gains.mpx * p.lpr[i]
  {
    match p.mode
    case Mono =>
    case Dsb =>
    case SsbHartley =>
  }
}
