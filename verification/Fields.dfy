/** From the arguments of the setters to what a receiver reads, over whole runs: every field on
    air has the value of the last call for it, in the place that the standard gives it. */
module Fields {
  import opened Bits
  import opened Config
  import opened Groups
  import opened Receiver
  import opened Scheduler
  import opened Machine
  import opened Flush

  /** What other processes configure; the last three say whether a text is set at all. */
  datatype Field = On | Pi | Pty | Tp | Ta | Ms | Di | Ecc | Lic | PsSet | PtynSet | RtSet

  // ---------- What the setters are given ----------

  /** A string argument with at least one character. */
  predicate NonEmpty(s: CString) {
    s.Text? && |s.bytes| > 0 && s.bytes[0] != 0
  }

  /** The call is for the field and is not refused. */
  predicate Sets(f: Field, op: Op) {
    match f
    case On => op.SetEnabled?
    case Pi => op.SetPi?
    case Pty => op.SetPty? && op.pty <= 31
    case Tp => op.SetTp?
    case Ta => op.SetTa?
    case Ms => op.SetMs?
    case Di => op.SetDi?
    case Ecc => op.SetEcc?
    case Lic => op.SetLic?
    case PsSet => op.SetPs? && NonEmpty(op.ps)
    case PtynSet => op.SetPtyn? && op.ptyn.Text?
    case RtSet => op.SetRt? && op.rt.Text?
  }

  /** The argument, as far as the field can hold it. */
  function Argument(f: Field, op: Op): nat
    requires Sets(f, op)
  {
    match f
    case On => if op.on then 1 else 0
    case Pi => op.pi
    case Pty => op.pty
    case Tp => op.tp % 2
    case Ta => op.ta % 2
    case Ms => op.ms % 2
    case Di => op.di % 16
    case Ecc => op.ecc
    case Lic => op.lic % 4096
    case PsSet => 1
    case PtynSet => if NonEmpty(op.ptyn) then 1 else 0
    case RtSet => if NonEmpty(op.rt) then 1 else 0
  }

  /** The value before any call: music, stereo and dynamic PTY. */
  function Default(f: Field): nat {
    match f
    case Ms => 1
    case Di => 9
    case _ => 0
  }

  /** The argument of the last call for the field. */
  function LastArgument(f: Field, ops: seq<Op>): nat {
    if |ops| == 0 then Default(f)
    else if Sets(f, ops[|ops| - 1]) then Argument(f, ops[|ops| - 1])
    else LastArgument(f, ops[..|ops| - 1])
  }

  /** No call after k is for the field. */
  ghost predicate IsLast(f: Field, ops: seq<Op>, k: nat) {
    k < |ops| && Sets(f, ops[k]) && forall i :: k < i < |ops| ==> !Sets(f, ops[i])
  }

  lemma {:induction false} LastDecides(f: Field, ops: seq<Op>, k: nat)
    requires IsLast(f, ops, k)
    ensures LastArgument(f, ops) == Argument(f, ops[k])
  {
    if k < |ops| - 1 { LastDecides(f, ops[..|ops| - 1], k); }
  }

  lemma {:induction false} NoneDecides(f: Field, ops: seq<Op>)
    requires forall i :: 0 <= i < |ops| ==> !Sets(f, ops[i])
    ensures LastArgument(f, ops) == Default(f)
  {
    if |ops| > 0 { NoneDecides(f, ops[..|ops| - 1]); }
  }

  // ---------- What the encoder keeps ----------

  function AsNat(b: bool): nat {
    if b then 1 else 0
  }

  function FieldOf(f: Field, st: State): nat {
    var s := st.station;
    match f
    case On => s.enabled
    case Pi => s.pi
    case Pty => s.pty
    case Tp => AsNat(s.tp)
    case Ta => AsNat(s.ta)
    case Ms => AsNat(s.ms)
    case Di => s.di
    case Ecc => s.ecc
    case Lic => s.lic
    case PsSet => AsNat(st.ps.isSet)
    case PtynSet => AsNat(st.ptyn.isSet)
    case RtSet => AsNat(st.rt.isSet)
  }

  lemma EmptyIsShort(s: CString, max: nat)
    requires s.Text? && max > 0
    ensures NonEmpty(s) <==> Strnlen(s.bytes, max) > 0
  {
  }

  lemma TextSetterSets(f: Field, st: State, op: Op, signed: bool)
    requires op.SetPs? || op.SetPtyn? || op.SetRt?
    ensures FieldOf(f, Apply(st, op, signed)) == if Sets(f, op) then Argument(f, op) else FieldOf(f, st)
  {
    match op
    case SetPs(s) => if s.Text? { EmptyIsShort(s, 8); }
    case SetPtyn(s) => if s.Text? { EmptyIsShort(s, 8); }
    case SetRt(s, _) => if s.Text? { EmptyIsShort(s, 64); }
  }

  lemma SetterSets(f: Field, st: State, op: Op, signed: bool)
    ensures FieldOf(f, Apply(st, op, signed)) == if Sets(f, op) then Argument(f, op) else FieldOf(f, st)
  {
    if op.SetPs? || op.SetPtyn? || op.SetRt? { TextSetterSets(f, st, op, signed); }
  }

  lemma {:induction false} SettersSet(f: Field, st: State, all: seq<Op>, ops: seq<Op>, signed: bool)
    requires FieldOf(f, st) == LastArgument(f, all)
    ensures FieldOf(f, ApplyAll(st, ops, signed)) == LastArgument(f, all + ops)
  {
    if |ops| == 0 {
      assert all + ops == all;
    } else {
      var before := ops[..|ops| - 1];
      SettersSet(f, st, all, before, signed);
      SetterSets(f, ApplyAll(st, before, signed), ops[|ops| - 1], signed);
      assert (all + ops)[..|all + ops| - 1] == all + before;
    }
  }

  lemma TransmitKeeps(f: Field, e: Encoder, signed: bool)
    ensures FieldOf(f, Transmit(e, signed).1.st) == FieldOf(f, e.st)
  {
    match CallOf(e).Kind()
    case NoGroup =>
    case Picked(k) => BuildKeeps(f, k, e, signed);
  }

  lemma BuildKeeps(f: Field, k: Kind, e: Encoder, signed: bool)
    requires k == Clock4A ==> e.time.Now?
    ensures FieldOf(f, Build(k, e.st, e.vcode, e.time, signed).st) == FieldOf(f, e.st)
  {
    match k
    case Tuning0B =>
    case Labels1A =>
    case Text2A =>
    case Clock4A =>
    case TypeName10A =>
    case Tuning15B =>
  }

  /** All calls of the setters before call n. */
  function AllOps(gaps: seq<seq<Op>>, n: nat): seq<Op>
    requires n < |gaps|
  {
    if n == 0 then gaps[0] else AllOps(gaps, n - 1) + gaps[n]
  }

  /** In every run the encoder keeps the argument of the last call for every field. */
  lemma {:induction false} LastCallIsKept(h: seq<Encoder>, gaps: seq<seq<Op>>, signed: bool, n: nat, f: Field)
    requires IsRunWith(h, gaps, signed) && n < |h|
    ensures FieldOf(f, h[n].st) == LastArgument(f, AllOps(gaps, n))
  {
    if n == 0 {
      SettersSet(f, InitialState(), [], gaps[0], signed);
      assert [] + gaps[0] == gaps[0];
    } else {
      LastCallIsKept(h, gaps, signed, n - 1, f);
      TransmitKeeps(f, h[n - 1], signed);
      assert Configured(h, gaps, n, signed);
      SettersSet(f, Transmit(h[n - 1], signed).1.st, AllOps(gaps, n - 1), gaps[n], signed);
    }
  }

  // ---------- What a receiver reads ----------

  predicate IsTuning(m: Message) {
    IsKind(m, Tuning0B) || IsKind(m, Tuning15B)
  }

  /** The variant code of a 1A group. */
  function Variant(m: Message): nat {
    Value(m.w3[..4])
  }

  /** The groups that carry a field (IEC 62106, sections 3.1.5 and 3.2). */
  predicate Bears(f: Field, m: Message) {
    match f
    case Pi => true
    case Pty => true
    case Tp => true
    case Ta => IsTuning(m)
    case Ms => IsTuning(m)
    case Di => IsTuning(m)
    case Ecc => IsKind(m, Labels1A) && Variant(m) == 0
    case Lic => IsKind(m, Labels1A) && Variant(m) == 3
    case _ => false
  }

  /** The bit of DI that a tuning group carries: d3 with address 0, d0 with address 3. */
  function DiWeight(address: nat): nat {
    match address
    case 0 => 8
    case 1 => 4
    case 2 => 2
    case _ => 1
  }

  /** The receiver reads the value x. */
  predicate Shows(f: Field, m: Message, x: nat) {
    match f
    case Pi => Value(m.w1) == x && (IsTuning(m) ==> Value(m.w3) == x)
    case Pty => Value(m.w2[6..11]) == x
    case Tp => AsNat(m.w2[5]) == x
    case Ta => AsNat(m.w2[11]) == x
    case Ms => AsNat(m.w2[12]) == x
    case Di => AsNat(m.w2[13]) == x / DiWeight(Value(m.w2[14..])) % 2
    case Ecc => Value(m.w3[4..]) == x
    case Lic => Value(m.w3[4..]) == x
    case _ => false
  }

  /** The group type and the version on air are those of the group that the scheduler picked, and
      the offset word of the third block agrees. */
  lemma KindOnAir(e: Encoder, signed: bool, k: Kind)
    requires CallOf(e).Kind() == Picked(k)
    ensures Transmit(e, signed).0.Sent?
    ensures var m := Transmit(e, signed).0.msg;
            (forall j :: IsKind(m, j) <==> j == k) && m.versionB == m.w2[4]
  {
    var m := Transmit(e, signed).0.msg;
    var tail := SecondWordOf(k, e, signed);
    forall j
      ensures IsKind(m, j) <==> j == k
    {
      KindIsRead(m, k, e.st.station, tail, j);
    }
  }

  /** The first two words of every group. */
  lemma SecondWordOf(k: Kind, e: Encoder, signed: bool) returns (tail: seq<bool>)
    requires k == Clock4A ==> e.time.Now?
    ensures var m := Build(k, e.st, e.vcode, e.time, signed).msg;
            && |tail| == 5 && m.w1 == ToBits(e.st.station.pi, 16)
            && m.w2 == SecondWord(k, e.st.station, tail) && m.versionB == VersionB(k)
            && (VersionB(k) ==> m.w3 == m.w1 && tail == TuningTail(e.st.station, e.st.ps.idx))
  {
    tail := Build(k, e.st, e.vcode, e.time, signed).msg.w2[11..];
    match k
    case Tuning0B =>
    case Labels1A =>
    case Text2A =>
    case Clock4A =>
    case TypeName10A =>
    case Tuning15B =>
  }

  lemma Widths()
    ensures Pow2(2) == 4 && Pow2(3) == 8 && Pow2(4) == 16 && Pow2(5) == 32 && Pow2(12) == 4096 && Pow2(16) == 65536
  {
    assert Pow2(8) == 256 by { assert Pow2(6) == 64; }
    assert Pow2(10) == 1024;
    assert Pow2(14) == 16384;
  }

  /** PTY and TP are in their places in every group. */
  lemma CommonFields(m: Message, k: Kind, s: Station, tail: seq<bool>)
    requires |tail| == 5 && m.w2 == SecondWord(k, s, tail)
    ensures Value(m.w2[6..11]) == s.pty && m.w2[5] == s.tp
  {
    Widths();
    SecondWordFields(k, s, tail);
    FieldValue(s.pty, 5);
  }

  lemma TailPlaces(k: Kind, s: Station, i: U2)
    ensures var w := SecondWord(k, s, TuningTail(s, i));
            w[11] == s.ta && w[12] == s.ms && w[13] == Bit(s.di, 3 - i) && w[14..] == ToBits(i, 2)
  {
  }

  lemma DiBit(x: nat, i: U2)
    ensures AsNat(Bit(x, 3 - i)) == x / DiWeight(i) % 2
  {
    Widths();
    BitOfQuotient(x, 3 - i, 0);
  }

  /** TA, MS, one bit of DI and its address are in their places in a tuning group. */
  lemma TuningFields(m: Message, k: Kind, s: Station, i: U2)
    requires m.w2 == SecondWord(k, s, TuningTail(s, i))
    ensures m.w2[11] == s.ta && m.w2[12] == s.ms && Value(m.w2[14..]) == i
    ensures AsNat(m.w2[13]) == s.di / DiWeight(Value(m.w2[14..])) % 2
  {
    Widths();
    TailPlaces(k, s, i);
    FieldValue(i, 2);
    DiBit(s.di, i);
  }

  lemma LabelWord(v: nat, x: nat)
    requires v < 16 && x < 4096
    ensures var w := ToBits(v, 4) + ToBits(x, 12); Value(w[..4]) == v && Value(w[4..]) == x
  {
    Widths();
    FieldValue(v, 4);
    FieldValue(x, 12);
    var w := ToBits(v, 4) + ToBits(x, 12);
    assert w[..4] == ToBits(v, 4) && w[4..] == ToBits(x, 12);
  }

  /** A 1A group carries ECC with variant 0 and LIC with variant 3. */
  lemma LabelFields(e: Encoder)
    ensures var m := Build1A(e.st, e.vcode).msg;
            && (Variant(m) == 0 ==> Value(m.w3[4..]) == e.st.station.ecc)
            && (Variant(m) == 3 ==> Value(m.w3[4..]) == e.st.station.lic)
  {
    var v: U4 := if e.vcode == 0 then 3 else 0;
    LabelWord(v, if v == 0 then e.st.station.ecc else e.st.station.lic);
  }

  lemma TuningShows(f: Field, k: Kind, e: Encoder, signed: bool)
    requires VersionB(k)
    requires f == Ta || f == Ms || f == Di
    ensures Shows(f, Build(k, e.st, e.vcode, e.time, signed).msg, FieldOf(f, e.st))
  {
    var m := Build(k, e.st, e.vcode, e.time, signed).msg;
    var tail := SecondWordOf(k, e, signed);
    TuningFields(m, k, e.st.station, e.st.ps.idx);
  }

  lemma PiShows(k: Kind, e: Encoder, signed: bool)
    requires k == Clock4A ==> e.time.Now?
    ensures Shows(Pi, Build(k, e.st, e.vcode, e.time, signed).msg, FieldOf(Pi, e.st))
  {
    var m := Build(k, e.st, e.vcode, e.time, signed).msg;
    var tail := SecondWordOf(k, e, signed);
    Widths();
    FieldValue(e.st.station.pi, 16);
    KindIsRead(m, k, e.st.station, tail, Tuning0B);
    KindIsRead(m, k, e.st.station, tail, Tuning15B);
  }

  /** Every group that carries a field shows its value. */
  lemma GroupShows(f: Field, e: Encoder, signed: bool)
    requires Transmit(e, signed).0.Sent? && Bears(f, Transmit(e, signed).0.msg)
    ensures Shows(f, Transmit(e, signed).0.msg, FieldOf(f, e.st))
  {
    var k := CallOf(e).Kind().kind;
    var m := Transmit(e, signed).0.msg;
    KindOnAir(e, signed, k);
    match f
    case Pi => PiShows(k, e, signed);
    case Ecc => LabelFields(e);
    case Lic => LabelFields(e);
    case Ta => TuningShows(f, k, e, signed);
    case Ms => TuningShows(f, k, e, signed);
    case Di => TuningShows(f, k, e, signed);
    case _ =>
      var tail := SecondWordOf(k, e, signed);
      CommonFields(m, k, e.st.station, tail);
  }

  /** From the setter to the receiver. In every run, a receiver reads in every group that carries
      the field the argument of the last call for it, ... */
  lemma SetterIsReceived(h: seq<Encoder>, gaps: seq<seq<Op>>, signed: bool, n: nat, f: Field, k: nat)
    requires IsRunWith(h, gaps, signed) && n < |h| && IsLast(f, AllOps(gaps, n), k)
    requires Transmit(h[n], signed).0.Sent? && Bears(f, Transmit(h[n], signed).0.msg)
    ensures Shows(f, Transmit(h[n], signed).0.msg, Argument(f, AllOps(gaps, n)[k]))
  {
    LastCallIsKept(h, gaps, signed, n, f);
    LastDecides(f, AllOps(gaps, n), k);
    GroupShows(f, h[n], signed);
  }

  /** ... or the default, if there was none. */
  lemma DefaultIsReceived(h: seq<Encoder>, gaps: seq<seq<Op>>, signed: bool, n: nat, f: Field)
    requires IsRunWith(h, gaps, signed) && n < |h|
    requires forall i :: 0 <= i < |AllOps(gaps, n)| ==> !Sets(f, AllOps(gaps, n)[i])
    requires Transmit(h[n], signed).0.Sent? && Bears(f, Transmit(h[n], signed).0.msg)
    ensures Shows(f, Transmit(h[n], signed).0.msg, Default(f))
  {
    LastCallIsKept(h, gaps, signed, n, f);
    NoneDecides(f, AllOps(gaps, n));
    GroupShows(f, h[n], signed);
  }

  /** The consumer is switched on and off by the last call for it. */
  lemma LastSwitchDecides(h: seq<Encoder>, gaps: seq<seq<Op>>, signed: bool, n: nat, k: nat)
    requires IsRunWith(h, gaps, signed) && n < |h| && IsLast(On, AllOps(gaps, n), k)
    ensures h[n].st.station.enabled != 0 <==> AllOps(gaps, n)[k].on
  {
    LastCallIsKept(h, gaps, signed, n, On);
    LastDecides(On, AllOps(gaps, n), k);
  }

  /** Block 4 of a 15B group is a copy of block 2. */
  lemma FastTuningRepeats(e: Encoder, signed: bool)
    requires Transmit(e, signed).0.Sent? && IsKind(Transmit(e, signed).0.msg, Tuning15B)
    ensures Transmit(e, signed).0.msg.w4 == Transmit(e, signed).0.msg.w2
  {
    KindOnAir(e, signed, CallOf(e).Kind().kind);
  }
}
