/** The hand-off of upsampled waveforms from the group producer to the MPX generator, through
    two buffers that swap roles. */
module DoubleBuffer {

  /** What the resampler makes of a group: an error, or some frames. */
  datatype Resampled = ResampleError | Frames(wave: seq<real>)

  function Concat(waves: seq<seq<real>>): seq<real> {
    if |waves| == 0 then [] else Concat(waves[..|waves| - 1]) + waves[|waves| - 1]
  }

  lemma ConcatStep(waves: seq<seq<real>>, n: nat)
    requires n < |waves|
    ensures Concat(waves[..n + 1]) == Concat(waves[..n]) + waves[n]
  {
    assert waves[..n + 1][..n] == waves[..n];
  }

  /** Earlier waveforms make up the beginning of the stream. */
  lemma {:induction false} ConcatPrefix(waves: seq<seq<real>>, n: nat)
    requires n <= |waves|
    ensures Concat(waves[..n]) <= Concat(waves)
  {
    if n == |waves| {
      assert waves[..n] == waves;
    } else {
      var init := waves[..|waves| - 1];
      assert init[..n] == waves[..n];
      ConcatPrefix(init, n);
    }
  }

  /** What the MPX generator is meant to hear: one zero, then the waveforms in the order in
      which they were produced. */
  function Stream(waves: seq<seq<real>>): seq<real> {
    [0.0] + Concat(waves)
  }

  /** A waveform heard to its end, and the first sample of the next one. */
  lemma StreamStep(waves: seq<seq<real>>, n: nat)
    requires n < |waves|
    ensures Stream(waves[..n]) + waves[n] == Stream(waves[..n + 1])
  {
    ConcatStep(waves, n);
  }

  /** Complete waveforms and the beginning of the next one are the beginning of the stream. */
  lemma StreamPrefix(waves: seq<seq<real>>, n: nat, k: nat)
    requires n < |waves| && k <= |waves[n]|
    ensures Stream(waves[..n]) + waves[n][..k] <= Stream(waves)
  {
    StreamStep(waves, n);
    ConcatPrefix(waves, n + 1);
    assert waves[n] == waves[n][..k] + waves[n][k..];
    assert Stream(waves[..n]) + waves[n][..k] <= Stream(waves[..n]) + waves[n];
  }

  class OutputBuffers {
    const waveform0: array<real>
    const waveform1: array<real>
    var samples0: nat
    var samples1: nat
    var current: bool
    var samplesOut: nat

    // The main loop has been asked for a waveform and has not delivered it yet.
    var pending: bool

    // The history: what was produced and heard, and how often the buffers were switched.
    ghost var produced: seq<seq<real>>
    ghost var heard: seq<real>
    ghost var switches: nat

    ghost predicate InBounds()
      reads this
    {
      samples0 <= waveform0.Length && samples1 <= waveform1.Length
    }

    /** The contents of a buffer: false for the first, true for the second. */
    ghost function Contents(b: bool): seq<real>
      requires InBounds()
      reads this, waveform0, waveform1
    {
      if b then waveform1[..samples1] else waveform0[..samples0]
    }

    ghost predicate Valid()
      reads this, waveform0, waveform1
    {
      && waveform0 != waveform1 && 0 < waveform0.Length && waveform1.Length == waveform0.Length
      && InBounds()
      && (forall i :: 0 <= i < |produced| ==> produced[i] != [])
      && |produced| == (if pending then switches - 1 else switches)
      && (switches == 0 ==>
            !pending && heard == [] && samplesOut == 0 && !current
            && samples0 == 0 && samples1 == 0 && waveform1[0] == 0.0)
      && (switches == 1 ==> heard == [0.0] && samplesOut == 1 && Contents(current) == [])
      && (switches >= 2 ==>
            && Contents(current) == produced[switches - 2]
            && 1 <= samplesOut <= |Contents(current)|
            && heard == Stream(produced[..switches - 2]) + Contents(current)[..samplesOut])
      && (switches >= 1 && !pending ==> Contents(!current) == produced[switches - 1])
    }

    constructor (length: nat)
      requires length > 0
      ensures Valid() && produced == [] && heard == [] && !pending
      ensures waveform0.Length == length && fresh(waveform0) && fresh(waveform1)
    {
      waveform0 := new real[length](_ => 0.0);
      waveform1 := new real[length](_ => 0.0);
      samples0, samples1, current, samplesOut := 0, 0, false, 0;
      produced, heard, switches, pending := [], [], 0, false;
    }

    /** The next call that is not ignored will switch the buffers. */
    predicate Exhausted()
      reads this
    {
      samplesOut >= if current then samples1 else samples0
    }

    /** What has been heard so far is the beginning of the stream. */
    lemma HeardIsPrefix()
      requires Valid()
      ensures heard <= Stream(produced)
    {
      if switches >= 2 { StreamPrefix(produced, switches - 2, samplesOut); }
    }

    /** How far the listener is: at most two waveforms are ahead, the one being heard and the next
        one, and only the first of them while the next one is still awaited. */
    lemma HeardIsClose()
      requires Valid() && switches >= 2
      ensures Stream(produced[..switches - 2]) < heard <= Stream(produced[..switches - 1])
    {
      StreamStep(produced, switches - 2);
      var c := produced[switches - 2];
      assert c == c[..samplesOut] + c[samplesOut..];
    }

    /** The next sample of the current buffer. */
    method Continue() returns (out: real)
      requires Valid() && !Exhausted()
      modifies `samplesOut, `heard
      ensures Valid() && heard == old(heard) + [out]
    {
      out := if current then waveform1[samplesOut] else waveform0[samplesOut];
      ghost var c := Contents(current);
      assert c[..samplesOut + 1] == c[..samplesOut] + [out];
      heard := heard + [out];
      samplesOut := samplesOut + 1;
    }

    /** Switch the buffers, ask for the old one to be filled, and start on the new one. */
    method Switch() returns (out: real)
      requires Valid() && Exhausted() && !pending
      modifies `current, `samplesOut, `heard, `switches, `pending
      ensures Valid() && pending && heard == old(heard) + [out]
    {
      ghost var c, next := Contents(current), Contents(!current);
      if switches >= 2 {
        assert c[..samplesOut] == c;
        StreamStep(produced, switches - 2);
      }
      current := !current;
      pending := true;
      samplesOut := 0;
      out := if current then waveform1[samplesOut] else waveform0[samplesOut];
      assert switches >= 1 ==> next[..1] == [out];
      assert switches == 1 ==> Stream(produced[..0]) == [0.0];
      heard := heard + [out];
      samplesOut := samplesOut + 1;
      switches := switches + 1;
    }

    /** The sample the MPX generator gets. On a switch it reads from the buffer filled since the
        last one, and asks for the other to be filled. The one assumption on timing is that a
        waveform that was asked for is there before the next switch. */
    method GetNextSample(active: bool, enabled: bool) returns (out: real)
      requires Valid()
      requires active && enabled && Exhausted() ==> !pending
      modifies `current, `samplesOut, `heard, `switches, `pending
      ensures Valid()
      ensures !active || !enabled ==> out == 0.0 && heard == old(heard)
      ensures active && enabled ==> heard == old(heard) + [out] && heard <= Stream(produced)
      ensures pending <==> old(pending) || (active && enabled && old(Exhausted()))
    {
      if !active || !enabled { return 0.0; }
      if !Exhausted() {
        out := Continue();
      } else {
        out := Switch();
      }
      HeardIsPrefix();
    }

    /** Write a waveform into the buffer that is not being read. */
    method Fill(w: seq<real>)
      requires InBounds() && waveform0 != waveform1 && |w| <= waveform0.Length == waveform1.Length
      modifies `samples0, `samples1, waveform0, waveform1
      ensures InBounds() && Contents(current) == old(Contents(current)) && Contents(!current) == w
    {
      if current {
        forall i | 0 <= i < |w| { waveform0[i] := w[i]; }
        samples0 := |w|;
        assert waveform0[..samples0] == w;
      } else {
        forall i | 0 <= i < |w| { waveform1[i] := w[i]; }
        samples1 := |w|;
        assert waveform1[..samples1] == w;
      }
    }

    /** Record that the waveform in the buffer that is not being read has been produced. */
    method Record(ghost w: seq<real>)
      requires Valid() && pending && w != [] && Contents(!current) == w
      modifies `produced, `pending
      ensures Valid() && !pending && produced == old(produced) + [w]
    {
      assert switches >= 2 ==> (produced + [w])[..switches - 2] == produced[..switches - 2];
      produced := produced + [w];
      pending := false;
    }

    /** Fill the buffer that is not being read with the waveform of the next group. The waveform
        being read, and the place in it, stay as they are. */
    method Produce(input: Resampled) returns (result: int)
      requires Valid() && pending
      requires input.Frames? ==> 0 < |input.wave| <= waveform0.Length
      modifies this, waveform0, waveform1
      ensures result == if input.Frames? then 0 else -2
      ensures InBounds() && Contents(current) == old(Contents(current))
      ensures current == old(current) && samplesOut == old(samplesOut) && heard == old(heard)
      ensures result == 0 ==> Valid() && !pending && produced == old(produced) + [input.wave]
    {
      if input.ResampleError? {
        if current { samples0 := 0; } else { samples1 := 0; }
        return -2;
      }
      var w := input.wave;
      Fill(w);
      Record(w);
      result := 0;
    }
  }
}
