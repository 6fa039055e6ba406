/** The modulator: differential coding and the moving three-bit window. */
module Modem {
  import opened Bits
  import opened BlockCode
  import opened Waveforms

  const BLOCKS_PER_GROUP := 4
  const GROUP_SAMPLES := 4160

  /** The moving window is a byte; its low three bits choose the waveform. */
  type Word8 = w: seq<bool> | |w| == 8 witness Zeros(8)

  /** Shift one differentially coded bit into the window. */
  function Push(w: Word8, b: bool): Word8 {
    w[1..] + [b != w[7]]
  }

  function Index(w: Word8): (i: nat)
    ensures i < 8
  {
    (if w[5] then 4 else 0) + (if w[6] then 2 else 0) + (if w[7] then 1 else 0)
  }

  function Symbol(t: Table, w: Word8): (s: seq<real>)
    ensures |s| == 40
  {
    t[Index(w)]
  }

  /** The window after a run of bits. */
  function WindowAfter(w: Word8, bits: seq<bool>): Word8 {
    if |bits| == 0 then w else Push(WindowAfter(w, bits[..|bits| - 1]), bits[|bits| - 1])
  }

  /** The samples sent for a run of bits. */
  function Modulate(t: Table, w: Word8, bits: seq<bool>): (s: seq<real>)
    ensures |s| == 40 * |bits|
  {
    if |bits| == 0 then []
    else Modulate(t, w, bits[..|bits| - 1]) + Symbol(t, WindowAfter(w, bits))
  }

  /** The assembled blocks. */
  function Codes(bs: seq<Block>): (cs: seq<Code>)
    ensures |cs| == |bs|
    ensures forall i :: 0 <= i < |bs| ==> cs[i] == Encode(bs[i])
  {
    seq(|bs|, i requires 0 <= i < |bs| => Encode(bs[i]))
  }

  /** The bits of a row of assembled blocks, in transmission order. */
  function Join(cs: seq<Code>): (s: seq<bool>)
    ensures |s| == 26 * |cs|
  {
    if |cs| == 0 then [] else Join(cs[..|cs| - 1]) + cs[|cs| - 1]
  }

  lemma JoinStep(cs: seq<Code>, i: nat)
    requires i < |cs|
    ensures Join(cs[..i + 1]) == Join(cs[..i]) + cs[i]
  {
    assert cs[..i + 1][..i] == cs[..i];
  }

  class Group {
    const blocks: array<Block>
    const samplesBuffer: array<real>

    ghost predicate Valid() {
      blocks.Length == BLOCKS_PER_GROUP && samplesBuffer.Length == GROUP_SAMPLES
    }

    constructor ()
      ensures Valid() && fresh(blocks) && fresh(samplesBuffer)
    {
      blocks := new Block[4](_ => Block(Zeros(16), Zeros(10), Zeros(10)));
      samplesBuffer := new real[4160](_ => 0.0);
    }
  }

  /** Copy a waveform into the sample buffer. */
  method Append(buffer: array<real>, offset: nat, waveform: seq<real>)
    requires offset + |waveform| <= buffer.Length
    modifies buffer
    ensures buffer[..offset + |waveform|] == old(buffer[..offset]) + waveform
  {
    forall k | 0 <= k < |waveform| {
      buffer[offset + k] := waveform[k];
    }
  }

  class Modulator {
    const symbolWaveforms: Table
    var movingWindow: Word8

    constructor (t: Table)
      ensures symbolWaveforms == t && movingWindow == Zeros(8)
    {
      symbolWaveforms := t;
      movingWindow := Zeros(8);
    }

    /** Differentially code one bit, shift it into the window and append its waveform. */
    method AppendSymbol(buffer: array<real>, offset: nat, bit: bool, ghost w: Word8, ghost sent: seq<bool>)
      requires offset == 40 * |sent| && offset + 40 <= buffer.Length
      requires movingWindow == WindowAfter(w, sent)
      requires buffer[..offset] == Modulate(symbolWaveforms, w, sent)
      modifies this, buffer
      ensures movingWindow == WindowAfter(w, sent + [bit])
      ensures buffer[..offset + 40] == Modulate(symbolWaveforms, w, sent + [bit])
    {
      assert (sent + [bit])[..|sent|] == sent;
      var previousBit := movingWindow[7];
      var currentBit := bit != previousBit;
      movingWindow := movingWindow[1..] + [currentBit];
      Append(buffer, offset, Symbol(symbolWaveforms, movingWindow));
    }

    /** Append the waveform of one assembled block, most significant bit first. */
    method AppendBlock(buffer: array<real>, offset: nat, currentBlock: Code,
                       ghost w: Word8, ghost sent: seq<bool>)
      requires offset == 40 * |sent| && offset + 1040 <= buffer.Length
      requires movingWindow == WindowAfter(w, sent)
      requires buffer[..offset] == Modulate(symbolWaveforms, w, sent)
      modifies this, buffer
      ensures movingWindow == WindowAfter(w, sent + currentBlock)
      ensures buffer[..offset + 1040] == Modulate(symbolWaveforms, w, sent + currentBlock)
    {
      ghost var now := sent;
      var j := 25;
      while j >= 0
        invariant -1 <= j <= 25
        invariant now == sent + currentBlock[..25 - j]
        invariant movingWindow == WindowAfter(w, now)
        invariant buffer[..40 * |now|] == Modulate(symbolWaveforms, w, now)
      {
        AppendSymbol(buffer, offset + 40 * (25 - j), currentBlock[25 - j], w, now);
        assert currentBlock[..26 - j] == currentBlock[..25 - j] + [currentBlock[25 - j]];
        now := now + [currentBlock[25 - j]];
        j := j - 1;
      }
      assert currentBlock[..26] == currentBlock;
    }

    /** The state after i blocks of the group bs, for a run that began with window w. */
    ghost predicate Sent(group: Group, w: Word8, bs: seq<Block>, i: nat)
      requires group.Valid() && i <= |bs| == 4
      reads this, group.blocks, group.samplesBuffer
    {
      && (forall m :: i <= m < 4 ==> group.blocks[m] == bs[m])
      && movingWindow == WindowAfter(w, Join(Codes(bs)[..i]))
      && group.samplesBuffer[..1040 * i] == Modulate(symbolWaveforms, w, Join(Codes(bs)[..i]))
    }

    /** Assemble one block of a group and append its waveform. */
    method SendBlock(group: Group, i: nat, ghost w: Word8, ghost bs: seq<Block>)
      requires group.Valid() && i < |bs| == 4
      requires Sent(group, w, bs, i)
      modifies this, group.blocks, group.samplesBuffer
      ensures Sent(group, w, bs, i + 1)
    {
      var currentBlock := GenerateBlock(group.blocks, i);
      AppendBlock(group.samplesBuffer, 1040 * i, currentBlock, w, Join(Codes(bs)[..i]));
      JoinStep(Codes(bs), i);
    }

    /** Assemble the blocks of a group and write its waveform. The window survives the call, so
        that the waveform continues across groups. */
    method GenerateGroupSamples(group: Group)
      requires group.Valid()
      modifies this, group.blocks, group.samplesBuffer
      ensures movingWindow == WindowAfter(old(movingWindow), Join(Codes(old(group.blocks[..]))))
      ensures group.samplesBuffer[..] ==
              Modulate(symbolWaveforms, old(movingWindow), Join(Codes(old(group.blocks[..]))))
    {
      ghost var w, bs := movingWindow, group.blocks[..];
      for i := 0 to 4
        invariant Sent(group, w, bs, i)
      {
        SendBlock(group, i, w, bs);
      }
      assert Codes(bs)[..4] == Codes(bs);
      assert group.samplesBuffer[..4160] == group.samplesBuffer[..];
    }
  }
}
