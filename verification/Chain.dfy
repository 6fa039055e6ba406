/** The encoder, its producer and its consumer together, over whole runs: the samples that the
    MPX generator hears are the waveform that a receiver can read. */
module Chain {
  import opened Bits
  import opened Modem
  import opened Demodulator
  import opened Config
  import opened Groups
  import opened Clock
  import opened Scheduler
  import opened Machine
  import opened Air
  import opened EncoderObject
  import opened DoubleBuffer
  import opened Pipeline

  // ---------- Runs of the producer ----------

  /** The modulator and the resampler at work on one message, as a value: the window after it,
      and its waveform. */
  type Player = (Word8, Message) -> (Word8, Resampled)

  /** The window and the waveforms after the messages ms, one by one. */
  ghost function Aired(play: Player, w: Word8, ms: seq<Message>): (Word8, seq<seq<real>>) {
    if |ms| == 0 then (w, [])
    else
      var (v, waves) := Aired(play, w, ms[..|ms| - 1]);
      (play(v, ms[|ms| - 1]).0, waves + [WaveOf(play(v, ms[|ms| - 1]).1)])
  }

  lemma AirGrows(play: Player, w: Word8, ms: seq<Message>, m: Message,
                 v: Word8, waves: seq<seq<real>>, u: Word8, wave: seq<real>)
    requires Aired(play, w, ms) == (v, waves) && play(v, m) == (u, Frames(wave))
    ensures Aired(play, w, ms + [m]) == (u, waves + [wave])
  {
    assert (ms + [m])[..|ms|] == ms;
  }

  ghost function Played(t: Waveforms.Table, w: Word8, m: Message,
                        resample: seq<real> -> Resampled): (Word8, Resampled)
  {
    (WindowAfter(w, Join(CodesOf(m))), Upsampled(t, w, m, resample))
  }

  /** The player is that of the encoder. */
  ghost predicate Plays(play: Player, t: Waveforms.Table, resample: seq<real> -> Resampled) {
    forall w, m {:trigger Played(t, w, m, resample)} :: play(w, m) == Played(t, w, m, resample)
  }

  lemma PlayedStep(play: Player, t: Waveforms.Table, v: Word8, m: Message, resample: seq<real> -> Resampled)
    requires Plays(play, t, resample)
    ensures play(v, m).0 == WindowAfter(v, Join(CodesOf(m)))
    ensures play(v, m).1 == resample(Modulate(t, v, Join(CodesOf(m))))
  {
    assert play(v, m) == Played(t, v, m, resample);
  }

  /** One message more. */
  ghost function NextAired(play: Player, a: (Word8, seq<seq<real>>), m: Message): (Word8, seq<seq<real>>) {
    (play(a.0, m).0, a.1 + [WaveOf(play(a.0, m).1)])
  }

  lemma AiredStep(play: Player, w: Word8, ms: seq<Message>, m: Message)
    ensures Aired(play, w, ms + [m]) == NextAired(play, Aired(play, w, ms), m)
  {
    assert (ms + [m])[..|ms|] == ms;
  }

  /** The window and the waveforms after the messages ms, taken from the run on air. */
  ghost function AllAired(t: Waveforms.Table, w: Word8, ms: seq<Message>,
                          resample: seq<real> -> Resampled): (Word8, seq<seq<real>>)
  {
    (WindowAfter(w, RunBits(OnAir(ms))), OnAirPieces(t, w, ms, resample))
  }

  lemma AllAiredStep(play: Player, t: Waveforms.Table, w: Word8, ms: seq<Message>, m: Message,
                     resample: seq<real> -> Resampled)
    requires Plays(play, t, resample)
    ensures AllAired(t, w, ms + [m], resample) == NextAired(play, AllAired(t, w, ms, resample), m)
  {
    PlayedStep(play, t, WindowAfter(w, RunBits(OnAir(ms))), m, resample);
    RunGrows(t, w, ms, m, resample);
  }

  /** The waveforms of the messages one by one are the waveform of the run on air, in pieces. */
  lemma {:induction false} AiredIsOnAir(play: Player, t: Waveforms.Table, w: Word8, ms: seq<Message>,
                                        resample: seq<real> -> Resampled)
    requires Plays(play, t, resample)
    ensures Aired(play, w, ms) == AllAired(t, w, ms, resample)
  {
    if |ms| == 0 {
      assert OnAirPieces(t, w, ms, resample) == [];
    } else {
      var before, m := ms[..|ms| - 1], ms[|ms| - 1];
      assert ms == before + [m];
      AiredIsOnAir(play, t, w, before, resample);
      AiredStep(play, w, before, m);
      AllAiredStep(play, t, w, before, m, resample);
    }
  }

  /** One transmission, as a value. */
  type Sender = Encoder -> (Machine.Sent, Encoder)

  /** The calls of h, each finding the counters as the one before has left them, have sent ms and
      left the counters as s and vcode say. */
  ghost predicate Logged(send: Sender, h: seq<Encoder>, ms: seq<Message>, s: Sched, vcode: U4) {
    if |h| == 0 then ms == [] && s == Sched(0, 0, 0) && vcode == 0
    else
      var n, e := |h| - 1, h[|h| - 1];
      && |ms| == n + 1 && Logged(send, h[..n], ms[..n], e.sched, e.vcode)
      && Reachable(e.sched) && send(e).0 == Sent(ms[n]) && send(e).1.sched == s && send(e).1.vcode == vcode
  }

  lemma LogGrows(send: Sender, h: seq<Encoder>, ms: seq<Message>, e: Encoder, f: Encoder, m: Message)
    requires Logged(send, h, ms, e.sched, e.vcode) && Reachable(e.sched) && send(e) == (Sent(m), f)
    ensures Logged(send, h + [e], ms + [m], f.sched, f.vcode)
  {
    assert (h + [e])[..|h|] == h && (ms + [m])[..|ms|] == ms;
  }

  /** What the log says of call i. */
  lemma {:induction false} LogEntry(send: Sender, h: seq<Encoder>, ms: seq<Message>, s: Sched, vcode: U4, i: nat)
    requires Logged(send, h, ms, s, vcode) && i < |h|
    ensures |ms| == |h| && Reachable(h[i].sched) && send(h[i]).0 == Sent(ms[i])
    ensures send(h[i]).1.sched == if i + 1 < |h| then h[i + 1].sched else s
    ensures send(h[i]).1.vcode == if i + 1 < |h| then h[i + 1].vcode else vcode
  {
    var n := |h| - 1;
    if i < n { LogEntry(send, h[..n], ms[..n], h[n].sched, h[n].vcode, i); }
  }

  /** The sender is that of the state machine. */
  ghost predicate Genuine(send: Sender, signed: bool) {
    forall e {:trigger Transmit(e, signed)} :: send(e) == Transmit(e, signed)
  }

  /** What the calls send. */
  ghost function SentThrough(send: Sender, h: seq<Encoder>): (s: seq<Machine.Sent>)
    ensures |s| == |h|
    ensures forall i {:trigger s[i]} :: 0 <= i < |h| ==> s[i] == send(h[i]).0
  {
    seq(|h|, i requires 0 <= i < |h| => send(h[i]).0)
  }

  lemma {:induction false} LoggedMessages(send: Sender, h: seq<Encoder>, ms: seq<Message>, s: Sched, vcode: U4, n: nat)
    requires Logged(send, h, ms, s, vcode) && n <= |h| == |ms|
    ensures Collect(SentThrough(send, h), n) == ms[..n]
  {
    if n > 0 {
      LoggedMessages(send, h, ms, s, vcode, n - 1);
      LogEntry(send, h, ms, s, vcode, n - 1);
    }
  }

  lemma SameBroadcast(send: Sender, h: seq<Encoder>, signed: bool)
    requires Genuine(send, signed)
    ensures SentThrough(send, h) == Broadcast(h, signed)
  {
    var s, b := SentThrough(send, h), Broadcast(h, signed);
    assert forall i :: 0 <= i < |h| ==> s[i] == b[i];
  }

  lemma NextOfLog(send: Sender, h: seq<Encoder>, ms: seq<Message>, s: Sched, vcode: U4, signed: bool, i: nat)
    requires Logged(send, h, ms, s, vcode) && Genuine(send, signed) && 0 < i < |h|
    ensures h[i].sched == Transmit(h[i - 1], signed).1.sched && h[i].vcode == Transmit(h[i - 1], signed).1.vcode
  {
    LogEntry(send, h, ms, s, vcode, i - 1);
  }

  /** Such calls are a history of the state machine, and ms are its messages. */
  lemma LogIsHistory(send: Sender, h: seq<Encoder>, ms: seq<Message>, s: Sched, vcode: U4, signed: bool)
    requires Logged(send, h, ms, s, vcode) && Genuine(send, signed)
    ensures IsHistory(h, signed) && Messages(h, |h|, signed) == ms
  {
    forall i | 0 <= i < |h|
      ensures Reachable(h[i].sched)
    {
      LogEntry(send, h, ms, s, vcode, i);
    }
    forall i | 0 < i < |h|
      ensures Linked(h, i, signed)
    {
      NextOfLog(send, h, ms, s, vcode, signed, i);
    }
    LoggedMessages(send, h, ms, s, vcode, |h|);
    SameBroadcast(send, h, signed);
    assert ms[..|h|] == ms;
  }

  // ---------- The chain ----------

  /** The encoder, its producer and its consumer. Other processes may change the configuration
      between any two calls: nothing that is kept here depends on it. */
  class Transmitter {
    const enc: RdsEncoder
    const group: Group
    const out: OutputBuffers
    const resample: seq<real> -> Resampled
    ghost const w: Word8
    ghost const send: Sender
    ghost const play: Player
    var active: bool

    // The encoder before each call of the scheduler that has delivered a waveform, the messages
    // of these calls, and where they have led.
    ghost var h: seq<Encoder>
    ghost var ms: seq<Message>
    ghost var sched: Sched
    ghost var vcode: U4
    ghost var window: Word8
    ghost var waves: seq<seq<real>>

    /** send and play are what the encoder does; the constructor sets them once and for all. */
    ghost predicate IsEncoder() {
      Genuine(send, enc.st.signed) && Plays(play, enc.modulator.symbolWaveforms, resample)
    }

    ghost predicate Recorded()
      reads this
    {
      Counted() && Heard()
    }

    ghost predicate Counted()
      reads `h, `ms, `sched, `vcode
    {
      Logged(send, h, ms, sched, vcode)
    }

    ghost predicate Heard()
      reads `ms, `window, `waves
    {
      Aired(play, w, ms) == (window, waves)
    }

    ghost predicate Fit() {
      && enc.Valid() && group.Valid() && Fits(resample, out.waveform0.Length)
      && group.samplesBuffer != out.waveform0 && group.samplesBuffer != out.waveform1
    }

    /** As long as the encoder is active, it is where the history has led. */
    ghost predicate InStep()
      reads this, enc, enc.modulator, out, out.waveform0, out.waveform1
    {
      && Reachable(sched) && enc.Counters() == sched && enc.vcode == vcode
      && enc.modulator.movingWindow == window && out.Valid() && out.produced == waves
    }

    ghost predicate Valid()
      reads this, enc, enc.modulator, out, out.waveform0, out.waveform1
    {
      Fit() && Recorded() && out.heard <= Stream(waves) && (active ==> InStep())
    }

    constructor (enc: RdsEncoder, length: nat, resample: seq<real> -> Resampled)
      requires enc.Valid() && enc.Counters() == Sched(0, 0, 0) && enc.vcode == 0
      requires length > 0 && Fits(resample, length)
      ensures Valid() && active && h == [] && this.enc == enc && this.resample == resample
      ensures out.heard == [] && !out.pending
      ensures IsEncoder()
      ensures fresh(group) && fresh(out)
    {
      this.enc := enc;
      this.resample := resample;
      group := new Group();
      out := new OutputBuffers(length);
      w := enc.modulator.movingWindow;
      send := e => Transmit(e, enc.st.signed);
      play := (v, m) => Played(enc.modulator.symbolWaveforms, v, m, resample);
      active := true;
      h, ms, sched, vcode, window, waves := [], [], Sched(0, 0, 0), 0, enc.modulator.movingWindow, [];
    }

    /** The next sample, if the encoder is active. */
    method Read() returns (x: real)
      requires active && InStep() && (enc.st.station.enabled != 0 && out.Exhausted() ==> !out.pending)
      modifies out`current, out`samplesOut, out`heard, out`switches, out`pending
      ensures InStep() && out.heard <= Stream(waves)
      ensures out.pending <==> old(out.pending) || (enc.st.station.enabled != 0 && old(out.Exhausted()))
      ensures if enc.st.station.enabled != 0 then out.heard == old(out.heard) + [x]
              else x == 0.0 && out.heard == old(out.heard)
    {
      x := out.GetNextSample(active, enc.st.station.enabled != 0);
      out.HeardIsPrefix();
    }

    /** The MPX generator asks for a sample. The one assumption on timing is that a waveform that
        was asked for is there before the next switch. */
    method Request() returns (x: real)
      requires Valid()
      requires active && enc.st.station.enabled != 0 && out.Exhausted() ==> !out.pending
      modifies out`current, out`samplesOut, out`heard, out`switches, out`pending
      ensures Valid()
      ensures if active && enc.st.station.enabled != 0 then out.heard == old(out.heard) + [x]
              else x == 0.0 && out.heard == old(out.heard)
      ensures out.pending <==> old(out.pending) || (active && enc.st.station.enabled != 0 && old(out.Exhausted()))
    {
      if !active { return 0.0; }
      x := Read();
    }

    /** Record what a call from e has done. */
    ghost method Record(e: Encoder, f: Encoder, m: Message, v: Word8, wave: seq<real>)
      requires Recorded() && e.sched == sched && e.vcode == vcode && Reachable(sched)
      requires send(e) == (Sent(m), f) && play(window, m) == (v, Frames(wave))
      modifies `h, `ms, `sched, `vcode, `window, `waves
      ensures Recorded() && h == old(h) + [e] && waves == old(waves) + [wave]
      ensures sched == f.sched && vcode == f.vcode && window == v
    {
      LogGrows(send, h, ms, e, f, m);
      AirGrows(play, w, ms, m, window, waves, v, wave);
      h, ms, sched, vcode, window, waves := h + [e], ms + [m], f.sched, f.vcode, v, waves + [wave];
    }

    /** The call from e has a group to send, and the resampler delivers its waveform. */
    ghost predicate Delivers(e: Encoder)
      reads `window
    {
      var sent := Transmit(e, enc.st.signed).0;
      sent.Sent? && Upsampled(enc.modulator.symbolWaveforms, window, sent.msg, resample).Frames?
    }

    /** Call the producer, and say what it has done. */
    method Advance(time: Time) returns (result: int, ghost f: Encoder, ghost m: Message, ghost wave: seq<real>)
      requires Fit() && InStep() && out.pending && IsEncoder()
      modifies enc, enc.st, enc.modulator, group.blocks, group.samplesBuffer, out, out.waveform0, out.waveform1
      ensures out.heard == old(out.heard) && Reachable(enc.Counters())
      ensures enc.st.Value() == Transmit(old(enc.Snapshot(time)), enc.st.signed).1.st
      ensures result == 0 <==> old(Delivers(enc.Snapshot(time)))
      ensures result == 0 ==>
                && send(old(enc.Snapshot(time))) == (Sent(m), f)
                && play(window, m) == (enc.modulator.movingWindow, Frames(wave))
                && enc.Counters() == f.sched && enc.vcode == f.vcode
                && out.Valid() && !out.pending && out.produced == waves + [wave]
                && out.heard <= Stream(waves + [wave])
      ensures result <= 0
    {
      ghost var e := enc.Snapshot(time);
      var p := GetNextUpsampledGroup(enc, group, out, true, time, resample);
      result := p.result;
      f := enc.Snapshot(time);
      m, wave := Message(Zeros(16), Zeros(16), Zeros(16), Zeros(16), false), [];
      if result == 0 {
        m := Transmit(e, enc.st.signed).0.msg;
        PlayedStep(play, enc.modulator.symbolWaveforms, window, m, resample);
        wave := play(window, m).1.wave;
        out.HeardIsPrefix();
      }
    }

    /** One turn of the main loop, after a switch of the buffers has asked for a waveform. The
        encoder stays active exactly if it has a group to send and the resampler delivers; a
        failure ends its activity, and nothing is read any more. */
    method Turn(time: Time)
      requires Valid() && active && out.pending && IsEncoder()
      modifies this, enc, enc.st, enc.modulator, group.blocks, group.samplesBuffer, out, out.waveform0, out.waveform1
      ensures Valid() && out.heard == old(out.heard)
      ensures enc.st.Value() == Transmit(old(enc.Snapshot(time)), enc.st.signed).1.st
      ensures active <==> old(Delivers(enc.Snapshot(time)))
      ensures active ==> !out.pending && h == old(h) + [old(enc.Snapshot(time))]
      ensures !active ==> h == old(h)
    {
      ghost var e := enc.Snapshot(time);
      var result, f, m, wave := Advance(time);
      if result < 0 {
        active := false;
      } else {
        Succeed(e, f, m, wave);
      }
    }

    /** The encoder is in step again after a call that has delivered a waveform. */
    ghost method Succeed(e: Encoder, f: Encoder, m: Message, wave: seq<real>)
      requires Fit() && Recorded() && e.sched == sched && e.vcode == vcode && Reachable(sched)
      requires send(e) == (Sent(m), f) && play(window, m) == (enc.modulator.movingWindow, Frames(wave))
      requires Reachable(enc.Counters()) && enc.Counters() == f.sched && enc.vcode == f.vcode
      requires out.Valid() && out.produced == waves + [wave] && out.heard <= Stream(waves + [wave])
      modifies `h, `ms, `sched, `vcode, `window, `waves
      ensures Valid() && h == old(h) + [e]
    {
      Record(e, f, m, enc.modulator.movingWindow, wave);
    }

    /** Waveforms are used up: all but the last two have been heard to their end, and all but the
        last one while another one is awaited. */
    lemma WavesAreHeard()
      requires InStep() && |waves| >= 2
      ensures Stream(waves[..|waves| - 2]) <= out.heard
      ensures out.pending ==> Stream(waves[..|waves| - 1]) <= out.heard
    {
      out.HeardIsClose();
      StreamStep(waves, |waves| - 2);
    }

    /** There is one waveform for each call, that of its message. */
    lemma WavesAreOnAir()
      requires Recorded() && IsEncoder()
      ensures |waves| == |h| && IsHistory(h, enc.st.signed)
      ensures waves == OnAirPieces(enc.modulator.symbolWaveforms, w, Messages(h, |h|, enc.st.signed), resample)
    {
      LogIsHistory(send, h, ms, sched, vcode, enc.st.signed);
      AiredIsOnAir(play, enc.modulator.symbolWaveforms, w, ms, resample);
      if |h| > 0 { LogEntry(send, h, ms, sched, vcode, 0); }
    }

    /** The waveforms of the messages on air, resampled group by group. */
    ghost function AirWaves(): seq<seq<real>>
      reads `h
    {
      OnAirPieces(enc.modulator.symbolWaveforms, w, Messages(h, |h|, enc.st.signed), resample)
    }

    /** As long as the encoder is active, the listener has heard the beginning of one zero and the
        waveforms on air in their order, and all but the last two of them to their end. */
    lemma HeardInOrder()
      requires Valid() && active && IsEncoder()
      ensures |AirWaves()| == |h| && out.heard <= Stream(AirWaves())
      ensures |h| >= 2 ==> Stream(AirWaves()[..|h| - 2]) <= out.heard
    {
      WavesAreOnAir();
      if |h| >= 2 { WavesAreHeard(); }
    }

    /** Whatever is called in whatever order: the samples that the MPX generator has heard are the
        beginning of one zero followed by the waveform of the messages of a history of the state
        machine, resampled group by group. */
    lemma HeardIsOnAir()
      requires Valid() && IsEncoder()
      ensures IsHistory(h, enc.st.signed)
      ensures var sent := Messages(h, |h|, enc.st.signed);
              out.heard <= [0.0] + Concat(OnAirPieces(enc.modulator.symbolWaveforms, w, sent, resample))
    {
      WavesAreOnAir();
    }
  }
}
