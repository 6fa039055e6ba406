/** What each group carries: the infowords written by the group builders (IEC 62106, sections
    3.1 and 6.1.5). */
module Groups {
  import opened Bits
  import opened BlockCode
  import opened Config

  datatype Kind = Tuning0B | Labels1A | Text2A | Clock4A | TypeName10A | Tuning15B

  /** The four infowords of a group and its version. */
  datatype Message = Message(w1: Word16, w2: Word16, w3: Word16, w4: Word16, versionB: bool)

  /** The blocks of a group before the coder runs: offset words A, B, C or C', D, and checkwords
      cleared. */
  function BlocksOf(m: Message): (bs: seq<Block>)
    ensures |bs| == 4
  {
    [Block(m.w1, OffsetWord(0), Zeros(10)),
     Block(m.w2, OffsetWord(1), Zeros(10)),
     Block(m.w3, OffsetWord(if m.versionB then ALT_OFFSET_WORD_C else 2), Zeros(10)),
     Block(m.w4, OffsetWord(3), Zeros(10))]
  }

  function GroupCode(k: Kind): U4 {
    match k
    case Tuning0B => 0
    case Labels1A => 1
    case Text2A => 2
    case Clock4A => 4
    case TypeName10A => 10
    case Tuning15B => 15
  }

  predicate VersionB(k: Kind) {
    k == Tuning0B || k == Tuning15B
  }

  /** The result of a successful build: the message, and the state after the builder has moved
      its segment index on. */
  datatype Built = Built(msg: Message, st: State, vcode: U4)

  /** Two chars packed as (hi << 8) | lo in int arithmetic and stored in 16 bits. */
  function Pack(hi: Byte, lo: Byte, signed: bool): Word16 {
    Or(ToBits(Promote(hi, signed) * 256, 16), ToBits(Promote(lo, signed), 16))
  }

  /** The second infoword: group type, version, TP, PTY and the five bits of the group. */
  function SecondWord(k: Kind, s: Station, tail: seq<bool>): Word16
    requires |tail| == 5
  {
    ToBits(GroupCode(k), 4) + [VersionB(k), s.tp] + ToBits(s.pty, 5) + tail
  }

  /** TA, MS, one bit of DI in reverse order and the PS index. */
  function TuningTail(s: Station, idx: U2): (t: seq<bool>)
    ensures |t| == 5
  {
    [s.ta, s.ms, ToBits(s.di, 4)[idx]] + ToBits(idx, 2)
  }

  function NextPsIdx(idx: U2): U2 {
    if idx >= 3 then 0 else idx + 1
  }

  function Build0B(st: State, vcode: U4, signed: bool): Built {
    var i := st.ps.idx;
    Built(Message(ToBits(st.station.pi, 16),
                  SecondWord(Tuning0B, st.station, TuningTail(st.station, i)),
                  ToBits(st.station.pi, 16),
                  Pack(st.ps.text[2 * i], st.ps.text[2 * i + 1], signed),
                  true),
          st.(ps := st.ps.(idx := NextPsIdx(i))), vcode)
  }

  function Build15B(st: State, vcode: U4): Built {
    var i := st.ps.idx;
    var second := SecondWord(Tuning15B, st.station, TuningTail(st.station, i));
    Built(Message(ToBits(st.station.pi, 16), second, ToBits(st.station.pi, 16), second, true),
          st.(ps := st.ps.(idx := NextPsIdx(i))), vcode)
  }

  function Build1A(st: State, vcode: U4): Built {
    var v: U4 := if vcode == 0 then 3 else 0;
    Built(Message(ToBits(st.station.pi, 16),
                  SecondWord(Labels1A, st.station, Zeros(5)),
                  ToBits(v, 4) + ToBits(if v == 0 then st.station.ecc else st.station.lic, 12),
                  Zeros(16),
                  false),
          st, v)
  }

  /** rt_idx++ in four bits, then the comparison with rt_segments. */
  function NextRtIdx(idx: U4, segments: U4): U4 {
    var i := (idx + 1) % 16;
    if i >= segments then 0 else i
  }

  function Build2A(st: State, vcode: U4, signed: bool): Built {
    var i, t := st.rt.idx, st.rt.text;
    Built(Message(ToBits(st.station.pi, 16),
                  SecondWord(Text2A, st.station, [st.rt.flush] + ToBits(i, 4)),
                  Pack(t[4 * i], t[4 * i + 1], signed),
                  Pack(t[4 * i + 2], t[4 * i + 3], signed),
                  false),
          st.(rt := st.rt.(idx := NextRtIdx(i, st.rt.segments))), vcode)
  }

  function Build10A(st: State, vcode: U4, signed: bool): Built {
    var i, t := st.ptyn.idx, st.ptyn.text;
    Built(Message(ToBits(st.station.pi, 16),
                  SecondWord(TypeName10A, st.station, [st.ptyn.flush, false, false, false, i == 1]),
                  Pack(t[4 * i], t[4 * i + 1], signed),
                  Pack(t[4 * i + 2], t[4 * i + 3], signed),
                  false),
          st.(ptyn := st.ptyn.(idx := if i == 1 then 0 else 1)), vcode)
  }
}
