/** The producer: ask the scheduler for a group, upsample its waveform and put it into the
    buffer that is not being read. */
module Pipeline {
  import opened Modem
  import opened Demodulator
  import opened Groups
  import opened Clock
  import opened Scheduler
  import opened Machine
  import opened Air
  import opened EncoderObject
  import opened DoubleBuffer

  /** The resampler either fails or delivers some frames that fit into a buffer. */
  ghost predicate Fits(resample: seq<real> -> Resampled, length: nat) {
    forall s :: resample(s).Frames? ==> 0 < |resample(s).wave| <= length
  }

  /** What the listener will hear of message m, for the window w. */
  ghost function Upsampled(t: Waveforms.Table, w: Word8, m: Message, resample: seq<real> -> Resampled): Resampled {
    resample(Modulate(t, w, Join(CodesOf(m))))
  }

  /** What the producer returns: nothing if the encoder is not active, or a result code. */
  datatype Production = Skipped | Done(result: int)

  /** The objects are those of a producer that has been asked for a waveform. */
  ghost predicate Ready(enc: RdsEncoder, group: Group, out: OutputBuffers, resample: seq<real> -> Resampled)
    reads enc, out, out.waveform0, out.waveform1
  {
    && enc.Valid() && Reachable(enc.Counters()) && group.Valid() && out.Valid() && out.pending
    && group.samplesBuffer != out.waveform0 && group.samplesBuffer != out.waveform1
    && Fits(resample, out.waveform0.Length)
  }

  /** Ask the scheduler for a group: what is sent, and what the call leaves. */
  method NextGroup(enc: RdsEncoder, group: Group, time: Time) returns (ret: int, ghost sent: Sent, ghost f: Encoder)
    requires enc.Valid() && Reachable(enc.Counters()) && group.Valid()
    modifies enc, enc.st, enc.modulator, group.blocks, group.samplesBuffer
    ensures (sent, f) == Transmit(old(enc.Snapshot(time)), enc.st.signed) && enc.Snapshot(time) == f
    ensures Reachable(enc.Counters()) && (ret >= 0 <==> sent.Sent?)
    ensures sent.Sent? ==> enc.Modulated(group, sent.msg, old(enc.modulator.movingWindow))
  {
    ghost var e := enc.Snapshot(time);
    CallEffect(CallOf(e));
    ret := enc.GetNextGroup(group, time);
    sent, f := Transmit(e, enc.st.signed).0, Transmit(e, enc.st.signed).1;
  }

  /** Ask the scheduler for a group and upsample its waveform. */
  method Produce(enc: RdsEncoder, group: Group, out: OutputBuffers, time: Time, resample: seq<real> -> Resampled)
    returns (result: int, ghost sent: Sent, ghost f: Encoder)
    requires Ready(enc, group, out, resample)
    modifies enc, enc.st, enc.modulator, group.blocks, group.samplesBuffer, out, out.waveform0, out.waveform1
    ensures Reachable(enc.Counters()) && out.heard == old(out.heard)
    ensures (sent, f) == Transmit(old(enc.Snapshot(time)), enc.st.signed) && enc.Snapshot(time) == f
    ensures sent.Nothing? ==> result == -1 && out.produced == old(out.produced)
    ensures sent.Sent? ==>
              var wave := Upsampled(enc.modulator.symbolWaveforms, old(enc.modulator.movingWindow), sent.msg, resample);
              && result == (if wave.Frames? then 0 else -2)
              && enc.modulator.movingWindow == WindowAfter(old(enc.modulator.movingWindow), Join(CodesOf(sent.msg)))
              && (wave.Frames? ==>
                    out.Valid() && !out.pending && out.produced == old(out.produced) + [wave.wave])
  {
    var ret;
    ret, sent, f := NextGroup(enc, group, time);
    result := -1;
    if ret < 0 { return; }
    result := out.Produce(resample(group.samplesBuffer[..]));
  }

  /** Produce the next waveform in schedule order, after the buffers have asked for it. */
  method GetNextUpsampledGroup(enc: RdsEncoder, group: Group, out: OutputBuffers, active: bool, time: Time,
                               resample: seq<real> -> Resampled) returns (p: Production)
    requires Ready(enc, group, out, resample)
    modifies enc, enc.st, enc.modulator, group.blocks, group.samplesBuffer, out, out.waveform0, out.waveform1
    ensures Reachable(enc.Counters()) && out.heard == old(out.heard)
    ensures p.Skipped? <==> !active
    ensures p.Skipped? ==> out.Valid() && out.pending && out.produced == old(out.produced)
                           && enc.Snapshot(time) == old(enc.Snapshot(time))
                           && enc.modulator.movingWindow == old(enc.modulator.movingWindow)
    ensures p.Done? ==> enc.Snapshot(time) == Transmit(old(enc.Snapshot(time)), enc.st.signed).1
    ensures p == Done(-1) <==> active && Transmit(old(enc.Snapshot(time)), enc.st.signed).0.Nothing?
    ensures active && Transmit(old(enc.Snapshot(time)), enc.st.signed).0.Sent? ==>
              var m := Transmit(old(enc.Snapshot(time)), enc.st.signed).0.msg;
              var wave := Upsampled(enc.modulator.symbolWaveforms, old(enc.modulator.movingWindow), m, resample);
              && p == Done(if wave.Frames? then 0 else -2)
              && enc.modulator.movingWindow == WindowAfter(old(enc.modulator.movingWindow), Join(CodesOf(m)))
              && (wave.Frames? ==>
                    out.Valid() && !out.pending && out.produced == old(out.produced) + [wave.wave])
  {
    if !active { return Skipped; }
    var result, _, _ := Produce(enc, group, out, time, resample);
    p := Done(result);
  }

  // ---------- The stream of a whole run ----------

  ghost function WaveOf(r: Resampled): seq<real> {
    if r.Frames? then r.wave else []
  }

  /** The waveform of n groups, resampled group by group. */
  ghost function Pieces(samples: seq<real>, n: nat, resample: seq<real> -> Resampled): seq<seq<real>>
    requires |samples| == 4160 * n
  {
    seq(n, g requires 0 <= g < n => WaveOf(resample(samples[4160 * g..4160 * g + 4160])))
  }

  lemma PiecesGrow(s: seq<real>, x: seq<real>, n: nat, resample: seq<real> -> Resampled)
    requires |s| == 4160 * n && |x| == 4160
    ensures Pieces(s + x, n + 1, resample) == Pieces(s, n, resample) + [WaveOf(resample(x))]
  {
    forall g | 0 <= g <= n
      ensures (s + x)[4160 * g..4160 * g + 4160] == if g < n then s[4160 * g..4160 * g + 4160] else x
    {
    }
  }

  /** The pieces of the messages ms on air. */
  ghost function OnAirPieces(t: Waveforms.Table, w: Word8, ms: seq<Message>,
                             resample: seq<real> -> Resampled): seq<seq<real>>
  {
    Pieces(RunSamples(t, w, OnAir(ms)), |ms|, resample)
  }

  lemma RunGrows(t: Waveforms.Table, w: Word8, ms: seq<Message>, m: Message, resample: seq<real> -> Resampled)
    ensures var v := WindowAfter(w, RunBits(OnAir(ms)));
            && OnAirPieces(t, w, ms + [m], resample) ==
               OnAirPieces(t, w, ms, resample) + [WaveOf(resample(Modulate(t, v, Join(CodesOf(m)))))]
            && WindowAfter(w, RunBits(OnAir(ms + [m]))) == WindowAfter(v, Join(CodesOf(m)))
  {
    var run := OnAir(ms + [m]);
    assert run[..|ms|] == OnAir(ms) && run[|ms|] == CodesOf(m);
    var v := WindowAfter(w, RunBits(OnAir(ms)));
    PiecesGrow(RunSamples(t, w, OnAir(ms)), Modulate(t, v, Join(CodesOf(m))), |ms|, resample);
    WindowAfterConcat(w, RunBits(OnAir(ms)), Join(CodesOf(m)));
  }
}
