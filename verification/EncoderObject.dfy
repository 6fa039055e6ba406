/** The encoder at work: the group builders write their words into the blocks of a group in
    place, and the scheduler keeps its counters from call to call. */
module EncoderObject {
  import opened Bits
  import opened BlockCode
  import opened Waveforms
  import opened Modem
  import opened Config
  import opened Groups
  import opened Clock
  import opened Scheduler
  import opened Machine
  import opened Air

  /** Or-ing a five-bit tail into a word whose low five bits are clear. */
  lemma OrTail(head: seq<bool>, tail: seq<bool>)
    requires |head| == 11 && |tail| == 5
    ensures Or(head + Zeros(5), Zeros(11) + tail) == head + tail
  {
  }

  /** The words that all groups have in common, the rest still clear. */
  function Header(k: Kind, s: Station): Message {
    var pi := ToBits(s.pi, 16);
    Message(pi, SecondWord(k, s, Zeros(5)), if VersionB(k) then pi else Zeros(16), Zeros(16), VersionB(k))
  }

  lemma SecondWordOr(k: Kind, s: Station, tail: seq<bool>)
    requires |tail| == 5
    ensures Or(SecondWord(k, s, Zeros(5)), Zeros(11) + tail) == SecondWord(k, s, tail)
  {
    OrTail(ToBits(GroupCode(k), 4) + [VersionB(k), s.tp] + ToBits(s.pty, 5), tail);
  }

  class RdsEncoder {
    const st: EncoderState
    const modulator: Modulator
    var groupsPerSec: int
    var groupsPerMin: nat
    var ptynCnt: nat
    var vcode: U4

    ghost predicate Valid() {
      st.Valid()
    }

    ghost function Counters(): Sched
      reads this
    {
      Sched(groupsPerSec, groupsPerMin, ptynCnt)
    }

    ghost function Snapshot(time: Time): Encoder
      requires Valid()
      reads this, st, st.ps, st.ptyn, st.rt
    {
      Encoder(Counters(), vcode, st.Value(), time)
    }

    constructor (st: EncoderState)
      requires st.Valid()
      ensures this.st == st && Valid() && Counters() == Sched(0, 0, 0) && vcode == 0
      ensures fresh(modulator) && modulator.symbolWaveforms == SymbolWaveforms()
    {
      this.st := st;
      modulator := new Modulator(SymbolWaveforms());
      groupsPerSec, groupsPerMin, ptynCnt, vcode := 0, 0, 0, 0;
    }

    /** Clear the group and fill in the offset words. */
    method Clear(group: Group)
      requires group.Valid()
      modifies group.blocks, group.samplesBuffer
      ensures forall m :: 0 <= m < 4 ==> group.blocks[m] == Block(Zeros(16), OffsetWord(m), Zeros(10))
    {
      forall i | 0 <= i < 4 { group.blocks[i] := Block(Zeros(16), Zeros(10), Zeros(10)); }
      forall i | 0 <= i < 4160 { group.samplesBuffer[i] := 0.0; }
      for i := 0 to 4
        invariant forall m :: 0 <= m < 4 ==>
          group.blocks[m] == Block(Zeros(16), if m < i then OffsetWord(m) else Zeros(10), Zeros(10))
      {
        group.blocks[i] := group.blocks[i].(offsetWord := OffsetWord(i));
      }
    }

    /** Clear the group and fill in what all groups have in common. */
    method Prepare(group: Group, k: Kind)
      requires Valid() && group.Valid()
      modifies group.blocks, group.samplesBuffer
      ensures group.blocks[..] == BlocksOf(Header(k, st.station))
    {
      Clear(group);
      FillHead(group, k);
      if VersionB(k) {
        group.blocks[2] := group.blocks[2].(infoword := ToBits(st.station.pi, 16));
        group.blocks[2] := group.blocks[2].(offsetWord := OffsetWord(ALT_OFFSET_WORD_C));
      }
    }

    /** PI and the head of the second word. */
    method FillHead(group: Group, k: Kind)
      requires group.Valid()
      requires forall m :: 0 <= m < 4 ==> group.blocks[m] == Block(Zeros(16), OffsetWord(m), Zeros(10))
      modifies group.blocks
      ensures group.blocks[0] == Block(ToBits(st.station.pi, 16), OffsetWord(0), Zeros(10))
      ensures group.blocks[1] == Block(SecondWord(k, st.station, Zeros(5)), OffsetWord(1), Zeros(10))
      ensures group.blocks[2] == Block(Zeros(16), OffsetWord(2), Zeros(10))
      ensures group.blocks[3] == Block(Zeros(16), OffsetWord(3), Zeros(10))
    {
      var s := st.station;
      group.blocks[0] := group.blocks[0].(infoword := ToBits(s.pi, 16));
      group.blocks[1] := group.blocks[1].(infoword := SecondWord(k, s, Zeros(5)));
    }

    /** Or the last five bits of the second word into place. */
    method OrSecondWord(group: Group, k: Kind, tail: seq<bool>)
      requires group.Valid() && |tail| == 5 && group.blocks[..] == BlocksOf(Header(k, st.station))
      modifies group.blocks
      ensures group.blocks[..] == BlocksOf(Header(k, st.station).(w2 := SecondWord(k, st.station, tail)))
    {
      SecondWordOr(k, st.station, tail);
      assert group.blocks[1] == group.blocks[..][1];
      group.blocks[1] := group.blocks[1].(infoword := Or(group.blocks[1].infoword, Zeros(11) + tail));
      assert group.blocks[..] == BlocksOf(Header(k, st.station))[1 := group.blocks[1]];
    }

    /** Store the third or the fourth word. */
    method StoreWord(group: Group, ghost m: Message, third: bool, w: Word16)
      requires group.Valid() && group.blocks[..] == BlocksOf(m)
      modifies group.blocks
      ensures group.blocks[..] == BlocksOf(if third then m.(w3 := w) else m.(w4 := w))
    {
      var i := if third then 2 else 3;
      assert group.blocks[i] == group.blocks[..][i];
      group.blocks[i] := group.blocks[i].(infoword := w);
      assert group.blocks[..] == BlocksOf(m)[i := group.blocks[i]];
    }

    /** Complete the second word and store the third and the fourth. */
    method StoreRest(group: Group, k: Kind, tail: seq<bool>, w3: Word16, w4: Word16)
      requires group.Valid() && |tail| == 5 && group.blocks[..] == BlocksOf(Header(k, st.station)) && !VersionB(k)
      modifies group.blocks
      ensures group.blocks[..] ==
              BlocksOf(Message(ToBits(st.station.pi, 16), SecondWord(k, st.station, tail), w3, w4, false))
    {
      OrSecondWord(group, k, tail);
      ghost var m := Header(k, st.station).(w2 := SecondWord(k, st.station, tail));
      StoreWord(group, m, true, w3);
      StoreWord(group, m.(w3 := w3), false, w4);
    }

    method GenerateGroup0(group: Group)
      requires Valid() && group.Valid() && group.blocks[..] == BlocksOf(Header(Tuning0B, st.station))
      modifies st, group.blocks
      ensures var b := Build0B(old(st.Value()), vcode, st.signed);
              group.blocks[..] == BlocksOf(b.msg) && st.Value() == b.st
    {
      var i: nat := st.psIdx;
      OrSecondWord(group, Tuning0B, [st.station.ta, st.station.ms, ToBits(st.station.di, 4)[i]] + ToBits(i, 2));
      StoreWord(group, Header(Tuning0B, st.station).(w2 := SecondWord(Tuning0B, st.station, TuningTail(st.station, i))),
                false, Pack(st.ps[2 * i], st.ps[2 * i + 1], st.signed));
      if st.psIdx >= 3 { st.psIdx := 0; } else { st.psIdx := st.psIdx + 1; }
    }

    method GenerateGroup1(group: Group)
      requires Valid() && group.Valid() && group.blocks[..] == BlocksOf(Header(Labels1A, st.station))
      modifies this, group.blocks
      ensures var b := Build1A(st.Value(), old(vcode));
              group.blocks[..] == BlocksOf(b.msg) && vcode == b.vcode && Counters() == old(Counters())
    {
      vcode := if vcode == 0 then 3 else 0;
      StoreWord(group, Header(Labels1A, st.station), true,
                ToBits(vcode, 4) + ToBits(if vcode == 0 then st.station.ecc else st.station.lic, 12));
    }

    method GenerateGroup2(group: Group)
      requires Valid() && group.Valid() && group.blocks[..] == BlocksOf(Header(Text2A, st.station))
      modifies st, group.blocks
      ensures var b := Build2A(old(st.Value()), vcode, st.signed);
              group.blocks[..] == BlocksOf(b.msg) && st.Value() == b.st
    {
      var i: nat := st.rtIdx;
      var tail := [st.rtFlush] + ToBits(i, 4);
      StoreRest(group, Text2A, tail, Pack(st.rt[4 * i], st.rt[4 * i + 1], st.signed),
                Pack(st.rt[4 * i + 2], st.rt[4 * i + 3], st.signed));
      MoveRtIndex();
    }

    method MoveRtIndex()
      requires Valid()
      modifies st`rtIdx
      ensures st.rtIdx == NextRtIdx(old(st.rtIdx), st.rtSegments)
    {
      st.rtIdx := (st.rtIdx + 1) % 16;
      if st.rtIdx >= st.rtSegments { st.rtIdx := 0; }
    }

    /** The time is read by the caller; either conversion may have failed. */
    method GenerateGroup4(group: Group, time: Time) returns (ret: int)
      requires Valid() && group.Valid() && group.blocks[..] == BlocksOf(Header(Clock4A, st.station))
      modifies group.blocks
      ensures ret == (match time case NoUtc => -2 case NoLocal => -3 case Now(_, _) => 0)
      ensures time.Now? ==> group.blocks[..] == BlocksOf(Build4A(st.Value(), vcode, time.utc, time.localHour).msg)
    {
      match time {
        case NoUtc => return -2;
        case NoLocal => return -3;
        case Now(utc, localHour) =>
          var mjd := Mjd(utc.mday, utc.mon + 1, utc.year);
          StoreRest(group, Clock4A, Zeros(3) + ToBits(mjd / 32768, 2), DayWord(mjd, utc.hour),
                    TimeWord(utc.hour, utc.min, localHour - utc.hour));
      }
      ret := 0;
    }

    method GenerateGroup10(group: Group)
      requires Valid() && group.Valid() && group.blocks[..] == BlocksOf(Header(TypeName10A, st.station))
      modifies st, group.blocks
      ensures var b := Build10A(old(st.Value()), vcode, st.signed);
              group.blocks[..] == BlocksOf(b.msg) && st.Value() == b.st
    {
      var i: nat := st.ptynIdx;
      var tail := [st.ptynFlush, false, false, false, i == 1];
      StoreRest(group, TypeName10A, tail, Pack(st.ptyn[4 * i], st.ptyn[4 * i + 1], st.signed),
                Pack(st.ptyn[4 * i + 2], st.ptyn[4 * i + 3], st.signed));
      if st.ptynIdx == 1 { st.ptynIdx := 0; } else { st.ptynIdx := 1; }
    }

    method GenerateGroup15(group: Group)
      requires Valid() && group.Valid() && group.blocks[..] == BlocksOf(Header(Tuning15B, st.station))
      modifies st, group.blocks
      ensures var b := Build15B(old(st.Value()), vcode);
              group.blocks[..] == BlocksOf(b.msg) && st.Value() == b.st
    {
      var i: nat := st.psIdx;
      OrSecondWord(group, Tuning15B, [st.station.ta, st.station.ms, ToBits(st.station.di, 4)[i]] + ToBits(i, 2));
      ghost var m := Header(Tuning15B, st.station).(w2 := SecondWord(Tuning15B, st.station, TuningTail(st.station, i)));
      assert group.blocks[1] == group.blocks[..][1] == BlocksOf(m)[1];
      StoreWord(group, m, false, group.blocks[1].infoword);
      if st.psIdx >= 3 { st.psIdx := 0; } else { st.psIdx := st.psIdx + 1; }
    }

    /** The blocks, the state and the variant code are what building k from e makes of them. */
    ghost predicate IsBuilt(group: Group, k: Kind, e: Encoder)
      requires Valid() && group.Valid() && (k == Clock4A ==> e.time.Now?)
      reads this, st, st.ps, st.ptyn, st.rt, group.blocks
    {
      var b := Build(k, e.st, e.vcode, e.time, st.signed);
      group.blocks[..] == BlocksOf(b.msg) && st.Value() == b.st && vcode == b.vcode && Counters() == e.sched
    }

    /** Fill in what is particular to a kind of group. */
    method FillGroup(group: Group, k: Kind, time: Time) returns (ret: int)
      requires Valid() && group.Valid() && group.blocks[..] == BlocksOf(Header(k, st.station))
      modifies this, st, group.blocks
      ensures ret >= 0 <==> (k == Clock4A ==> time.Now?)
      ensures ret < 0 ==> Snapshot(time) == old(Snapshot(time))
      ensures ret >= 0 ==> IsBuilt(group, k, old(Snapshot(time)))
    {
      ret := 0;
      match k {
        case Tuning0B => GenerateGroup0(group);
        case Labels1A => GenerateGroup1(group);
        case Text2A => GenerateGroup2(group);
        case Clock4A => ret := GenerateGroup4(group, time);
        case TypeName10A => GenerateGroup10(group);
        case Tuning15B => GenerateGroup15(group);
      }
    }

    /** Fill in the blocks of a group of the given kind. */
    method BuildBlocks(group: Group, k: Kind, time: Time) returns (ret: int)
      requires Valid() && group.Valid()
      modifies this, st, group.blocks, group.samplesBuffer
      ensures ret >= 0 <==> (k == Clock4A ==> time.Now?)
      ensures ret < 0 ==> Snapshot(time) == old(Snapshot(time))
      ensures ret >= 0 ==> IsBuilt(group, k, old(Snapshot(time)))
    {
      Prepare(group, k);
      ret := FillGroup(group, k, time);
    }

    /** The buffer holds the waveform of m, and the window has moved past it. */
    ghost predicate Modulated(group: Group, m: Message, w: Word8)
      requires group.Valid()
      reads modulator, group.samplesBuffer
    {
      && group.samplesBuffer[..] == Modulate(modulator.symbolWaveforms, w, Join(CodesOf(m)))
      && modulator.movingWindow == WindowAfter(w, Join(CodesOf(m)))
    }

    /** The state, the variant code, the buffer and the window are what sending a group of kind k
        from e makes of them; the counters are the scheduler's business. */
    ghost predicate HasPicked(group: Group, k: Kind, e: Encoder, w: Word8)
      requires Valid() && group.Valid() && (k == Clock4A ==> e.time.Now?)
      reads `vcode, st, st.ps, st.ptyn, st.rt, modulator, group.samplesBuffer
    {
      var b := Build(k, e.st, e.vcode, e.time, st.signed);
      st.Value() == b.st && vcode == b.vcode && Modulated(group, b.msg, w)
    }

    /** Modulate a group with the blocks of b. */
    method ModulateGroup(group: Group, ghost b: Built)
      requires Valid() && group.Valid() && group.blocks[..] == BlocksOf(b.msg) && st.Value() == b.st && vcode == b.vcode
      modifies modulator, group.blocks, group.samplesBuffer
      ensures st.Value() == b.st && vcode == b.vcode && Modulated(group, b.msg, old(modulator.movingWindow))
    {
      modulator.GenerateGroupSamples(group);
    }

    /** Build a group of the given kind and modulate it. */
    method GenerateGroup(group: Group, k: Kind, time: Time) returns (ret: int)
      requires Valid() && group.Valid()
      modifies this, st, modulator, group.blocks, group.samplesBuffer
      ensures Counters() == old(Counters())
      ensures ret >= 0 <==> (k == Clock4A ==> time.Now?)
      ensures ret < 0 ==> Snapshot(time) == old(Snapshot(time)) && modulator.movingWindow == old(modulator.movingWindow)
      ensures ret >= 0 ==> HasPicked(group, k, old(Snapshot(time)), old(modulator.movingWindow))
    {
      ghost var e := Snapshot(time);
      ret := BuildBlocks(group, k, time);
      if ret < 0 { return; }
      ModulateGroup(group, Build(k, e.st, e.vcode, e.time, st.signed));
    }

    /** The encoder, the buffer and the window are what one transmission from e makes of them. */
    ghost predicate HasTransmitted(group: Group, e: Encoder, w: Word8, ret: int)
      requires Valid() && group.Valid()
      reads this, st, st.ps, st.ptyn, st.rt, modulator, group.samplesBuffer
    {
      var (sent, f) := Transmit(e, st.signed);
      && Snapshot(e.time) == f
      && (ret >= 0 <==> sent.Sent?)
      && if sent.Sent? then Modulated(group, sent.msg, w) else modulator.movingWindow == w
    }

    /** The clock group that is sent every minute. */
    method SendClock(group: Group, time: Time) returns (ret: int)
      requires Valid() && group.Valid() && groupsPerMin >= GROUPS_PER_MIN
      modifies this, st, modulator, group.blocks, group.samplesBuffer
      ensures HasTransmitted(group, old(Snapshot(time)), old(modulator.movingWindow), ret)
    {
      ghost var e := Snapshot(time);
      if time.Now? { TransmitClock(e, st.signed); }
      ret := GenerateGroup(group, Clock4A, time);
      if ret >= 0 { groupsPerMin := 0; }
    }

    /** The kind of group that is due in this second, if one is. */
    method Pick(ghost clockWorks: bool) returns (due: bool, k: Kind)
      requires Valid() && groupsPerMin < GROUPS_PER_MIN
      ensures var c := Call(Counters(), FlagsOf(st.Value()), clockWorks);
              due == !c.Wraps() && k != Clock4A && (due ==> c.Kind() == Picked(k))
    {
      if groupsPerSec < 4 {
        if st.psSet {
          return true, Tuning0B;
        } else {
          return true, Tuning15B;
        }
      } else if groupsPerSec < 5 && (st.station.eccSet || st.station.licSet) {
        return true, Labels1A;
      } else if groupsPerSec < 7 && st.ptynSet && ptynCnt < 2 {
        return true, TypeName10A;
      } else if groupsPerSec < GROUPS_PER_SEC && st.rtSet {
        return true, Text2A;
      }
      return false, Text2A;
    }

    /** Count a group of kind k. */
    method CountKind(k: Kind)
      modifies `groupsPerSec, `groupsPerMin, `ptynCnt
      ensures Counters() == Bump(Counted(old(Counters()), k))
    {
      if k == TypeName10A { ptynCnt := ptynCnt + 1; }
      Count();
    }

    /** Count a group in the second and in the minute. */
    method Count()
      modifies `groupsPerSec, `groupsPerMin, `ptynCnt
      ensures Counters() == Bump(old(Counters()))
    {
      groupsPerSec := groupsPerSec + 1;
      groupsPerMin := groupsPerMin + 1;
      if ptynCnt >= 2 { ptynCnt := 0; }
    }

    /** Generate a group that is due and count it. */
    method GenerateAndCount(group: Group, k: Kind, time: Time) returns (ret: int)
      requires Valid() && group.Valid() && k != Clock4A
      modifies this, st, modulator, group.blocks, group.samplesBuffer
      ensures ret >= 0 && HasPicked(group, k, old(Snapshot(time)), old(modulator.movingWindow))
      ensures Counters() == Bump(Counted(old(Counters()), k))
    {
      ret := GenerateGroup(group, k, time);
      CountKind(k);
    }

    /** Send the group that is due. */
    method SendDue(group: Group, k: Kind, time: Time) returns (ret: int)
      requires Valid() && group.Valid() && groupsPerMin < GROUPS_PER_MIN && k != Clock4A
      requires var c := CallOf(Snapshot(time)); !c.Wraps() && c.Kind() == Picked(k)
      modifies this, st, modulator, group.blocks, group.samplesBuffer
      ensures HasTransmitted(group, old(Snapshot(time)), old(modulator.movingWindow), ret)
    {
      ghost var e := Snapshot(time);
      ret := GenerateAndCount(group, k, time);
      TransmitDue(e, k, st.signed);
    }

    /** Count a group a second time that started a new second. */
    method CountAgain(group: Group, ghost e: Encoder, ghost w: Word8, ret: int)
      requires Valid() && group.Valid() && CallOf(e).Wraps()
      requires HasTransmitted(group, e.(sched := e.sched.(sec := -1)), w, ret)
      modifies `groupsPerSec, `groupsPerMin, `ptynCnt
      ensures HasTransmitted(group, e, w, ret)
    {
      TransmitAgain(e, st.signed);
      Count();
    }

    /** Choose the kind of the next group, generate it and move the counters on. When nothing is
        due the second starts over: the counter is set to -1, the call is repeated, and the group
        is then counted again. */
    method GetNextGroup(group: Group, time: Time) returns (ret: int)
      requires Valid() && group.Valid()
      requires -1 <= groupsPerSec <= 12 && groupsPerMin <= 721 && ptynCnt <= 1
      modifies this, st, modulator, group.blocks, group.samplesBuffer
      ensures HasTransmitted(group, old(Snapshot(time)), old(modulator.movingWindow), ret)
      decreases if groupsPerMin < GROUPS_PER_MIN && groupsPerSec >= 4 then 1 else 0
    {
      if groupsPerMin >= GROUPS_PER_MIN {
        ret := SendClock(group, time);
        return;
      }
      var due, k := Pick(time.Now?);
      if due {
        ret := SendDue(group, k, time);
      } else {
        ghost var e, w := Snapshot(time), modulator.movingWindow;
        groupsPerSec := -1;
        ret := GetNextGroup(group, time);
        CountAgain(group, e, w, ret);
      }
    }
  }

  /** The counters after a group that was due. */
  function Bump(s: Sched): Sched {
    Sched(s.sec + 1, s.min + 1, if s.ptynCnt >= 2 then 0 else s.ptynCnt)
  }

  /** The count of 10A groups. */
  function Counted(s: Sched, k: Kind): Sched {
    if k == TypeName10A then s.(ptynCnt := s.ptynCnt + 1) else s
  }

  lemma TransmitClock(e: Encoder, signed: bool)
    requires CallOf(e).IsClock() && e.time.Now?
    ensures var b := Build(Clock4A, e.st, e.vcode, e.time, signed);
            Transmit(e, signed) == (Sent(b.msg), Encoder(e.sched.(min := 0), b.vcode, b.st, e.time))
  {
  }

  lemma TransmitDue(e: Encoder, k: Kind, signed: bool)
    requires !CallOf(e).IsClock() && !CallOf(e).Wraps()
    requires CallOf(e).Kind() == Picked(k) && k != Clock4A
    ensures var b := Build(k, e.st, e.vcode, e.time, signed);
            Transmit(e, signed) == (Sent(b.msg), Encoder(Bump(Counted(e.sched, k)), b.vcode, b.st, e.time))
  {
  }

  /** A call that starts a new second sends what it would send with the second at -1. */
  lemma TransmitAgain(e: Encoder, signed: bool)
    requires CallOf(e).Wraps()
    ensures var (sent, f) := Transmit(e.(sched := e.sched.(sec := -1)), signed);
            sent.Sent? && Transmit(e, signed) == (sent, f.(sched := Bump(f.sched)))
  {
  }
}
