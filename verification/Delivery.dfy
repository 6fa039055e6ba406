/** Bounded delivery: what a receiver has got after any stretch of a run, whatever other
    processes do to the rest of the configuration in the meantime. */
module Delivery {
  import opened Bits
  import opened Config
  import opened Groups
  import opened Receiver
  import opened Scheduler
  import opened Machine

  /** The fields that are sent in rotating segments. */
  datatype Service = PsService | LabelService | PtynService | TextService

  function KindOf(sv: Service): Kind {
    match sv
    case PsService => Tuning0B
    case LabelService => Labels1A
    case PtynService => TypeName10A
    case TextService => Text2A
  }

  /** The slots of every second in which the service is certain of its turn. */
  function Lo(sv: Service): nat {
    match sv
    case PsService => 0
    case LabelService => 4
    case PtynService => 5
    case TextService => 7
  }

  function Hi(sv: Service): nat {
    match sv
    case PsService => 4
    case LabelService => 5
    case PtynService => 7
    case TextService => 12
  }

  /** The field has been set. */
  predicate Enabled(sv: Service, st: State) {
    match sv
    case PsService => st.ps.isSet
    case LabelService => st.station.ecc != 0 || st.station.lic != 0
    case PtynService => st.ptyn.isSet
    case TextService => st.rt.isSet
  }

  /** How many segments of the field are sent in turn. A text of 64 characters has 16, which a
      field of four bits stores as 0; then only the first one is sent. */
  function Size(sv: Service, st: State): nat {
    match sv
    case PsService => 4
    case LabelService => 2
    case PtynService => 2
    case TextService => if st.rt.segments == 0 then 1 else st.rt.segments
  }

  /** The segment that the next group of the service carries. */
  function Position(sv: Service, e: Encoder): nat {
    match sv
    case PsService => e.st.ps.idx
    case LabelService => if e.vcode == 0 then 1 else 0
    case PtynService => e.st.ptyn.idx
    case TextService => e.st.rt.idx
  }

  /** Two configurations agree on the contents of the field. */
  predicate Same(sv: Service, a: State, b: State) {
    match sv
    case PsService => a.ps.(idx := 0) == b.ps.(idx := 0) && a.station.di == b.station.di
    case LabelService => a.station.ecc == b.station.ecc && a.station.lic == b.station.lic
    case PtynService => a.ptyn.(idx := 0) == b.ptyn.(idx := 0)
    case TextService => a.rt.(idx := 0) == b.rt.(idx := 0)
  }

  // ---------- The receiver ----------

  /** The segment address in a group. */
  function Address(sv: Service, m: Message): nat {
    match sv
    case PsService => Value(m.w2[14..])
    case LabelService => if Value(m.w3[..4]) == 0 then 0 else 1
    case PtynService => Value(m.w2[15..])
    case TextService => Value(m.w2[12..])
  }

  /** The A/B flag in a group; PS and the labels have none. */
  predicate FlagBit(sv: Service, m: Message) {
    (sv == PtynService || sv == TextService) && m.w2[11]
  }

  datatype Flag = Unseen | Seen(ab: bool)

  /** A receiver of one service: the last A/B flag, and the last group for each address. */
  datatype Rx = Rx(flag: Flag, got: map<nat, Message>)

  /** A change of the A/B flag clears everything received so far. */
  function Receive(sv: Service, rx: Rx, m: Message): Rx {
    if !IsKind(m, KindOf(sv)) then rx
    else
      var flag := Seen(FlagBit(sv, m));
      Rx(flag, (if rx.flag == flag then rx.got else map[])[Address(sv, m) := m])
  }

  function ReceiveSent(sv: Service, rx: Rx, s: Sent): Rx {
    match s
    case Nothing => rx
    case Sent(m) => Receive(sv, rx, m)
  }

  /** The receiver after the group of one call. */
  function ReceiveCall(sv: Service, rx: Rx, e: Encoder, signed: bool): Rx {
    ReceiveSent(sv, rx, Transmit(e, signed).0)
  }

  /** The receiver after the first n of what was sent. */
  function ReceiveAll(sv: Service, rx: Rx, s: seq<Sent>, n: nat): Rx
    requires n <= |s|
  {
    if n == 0 then rx else ReceiveSent(sv, ReceiveAll(sv, rx, s, n - 1), s[n - 1])
  }

  /** The receiver after the groups of the first n calls of a history. */
  function ReceiveRun(sv: Service, rx: Rx, h: seq<Encoder>, n: nat, signed: bool): Rx
    requires n <= |h|
  {
    ReceiveAll(sv, rx, Broadcast(h, signed), n)
  }

  lemma ReceiveStep(sv: Service, rx: Rx, h: seq<Encoder>, n: nat, signed: bool)
    requires n < |h|
    ensures ReceiveRun(sv, rx, h, n + 1, signed) ==
            ReceiveCall(sv, ReceiveRun(sv, rx, h, n, signed), h[n], signed)
  {
  }

  /** The flag that the encoder sends. */
  predicate FlagOf(sv: Service, st: State) {
    match sv
    case PsService => false
    case LabelService => false
    case PtynService => st.ptyn.flush
    case TextService => st.rt.flush
  }

  /** The four characters of a 2A or 10A group. */
  function FourChars(m: Message): (s: seq<nat>)
    ensures |s| == 4
  {
    Unpack(m.w3) + Unpack(m.w4)
  }

  /** Group m carries segment a of the field as st has it. */
  predicate Carries(sv: Service, m: Message, st: State, a: nat) {
    match sv
    case PsService =>
      a < 4 && Unpack(m.w4) == [st.ps.text[2 * a], st.ps.text[2 * a + 1]]
      && m.w2[13] == ToBits(st.station.di, 4)[a]
    case LabelService => Value(m.w3[4..]) == if a == 0 then st.station.ecc else st.station.lic
    case PtynService => a < 2 && FourChars(m) == st.ptyn.text[4 * a..4 * a + 4]
    case TextService => a < 16 && FourChars(m) == st.rt.text[4 * a..4 * a + 4]
  }

  // ---------- One group ----------

  function Advance(i: nat, size: nat): nat {
    if i + 1 >= size then 0 else i + 1
  }

  lemma CharsAreCarried(t: seq<Byte>, a: nat, signed: bool, m: Message)
    requires Plain(t, signed) && 4 * a + 4 <= |t|
    requires m.w3 == Pack(t[4 * a], t[4 * a + 1], signed)
    requires m.w4 == Pack(t[4 * a + 2], t[4 * a + 3], signed)
    ensures FourChars(m) == t[4 * a..4 * a + 4]
  {
    PackingIsLosslessIff(t[4 * a], t[4 * a + 1], signed);
    PackingIsLosslessIff(t[4 * a + 2], t[4 * a + 3], signed);
  }

  lemma AddressIsCarried(k: Kind, s: Station, tail: seq<bool>, x: nat, n: nat)
    requires |tail| == 5 && n <= 5 && x < Pow2(n) && tail[5 - n..] == ToBits(x, n)
    ensures Value(SecondWord(k, s, tail)[16 - n..]) == x
  {
    SecondWordFields(k, s, tail);
    FieldValue(x, n);
    assert SecondWord(k, s, tail)[16 - n..] == SecondWord(k, s, tail)[11..][5 - n..];
  }

  /** Group m is what the service sends next from e. */
  ghost predicate Fits(sv: Service, m: Message, e: Encoder) {
    && IsKind(m, KindOf(sv))
    && Address(sv, m) == Position(sv, e)
    && FlagBit(sv, m) == FlagOf(sv, e.st)
    && Carries(sv, m, e.st, Position(sv, e))
  }

  lemma PsGroupFits(e: Encoder, signed: bool)
    requires Healthy(e.st, signed)
    ensures Fits(PsService, Build0B(e.st, e.vcode, signed).msg, e)
  {
    var i: nat := e.st.ps.idx;
    var s, t, m := e.st.station, e.st.ps.text, Build0B(e.st, e.vcode, signed).msg;
    var tail := TuningTail(s, i);
    KindIsRead(m, Tuning0B, s, tail, Tuning0B);
    SecondWordFields(Tuning0B, s, tail);
    assert Pow2(2) == 4;
    AddressIsCarried(Tuning0B, s, tail, i, 2);
    PackingIsLosslessIff(t[2 * i], t[2 * i + 1], signed);
    assert m.w2[13] == m.w2[11..][2];
  }

  lemma LabelGroupFits(e: Encoder, signed: bool)
    requires Healthy(e.st, signed)
    ensures Fits(LabelService, Build1A(e.st, e.vcode).msg, e)
  {
    var m := Build1A(e.st, e.vcode).msg;
    var v := if e.vcode == 0 then 3 else 0;
    var x := if v == 0 then e.st.station.ecc else e.st.station.lic;
    KindIsRead(m, Labels1A, e.st.station, Zeros(5), Labels1A);
    assert Pow2(4) == 16 && Pow2(12) == 4096;
    FieldValue(v, 4);
    FieldValue(x, 12);
    assert m.w3[..4] == ToBits(v, 4) && m.w3[4..] == ToBits(x, 12);
  }

  lemma OneBit(i: U1)
    ensures Pow2(1) == 2 && ToBits(i, 1) == [i == 1]
  {
  }

  lemma PtynGroupFits(e: Encoder, signed: bool)
    requires Healthy(e.st, signed)
    ensures Fits(PtynService, Build10A(e.st, e.vcode, signed).msg, e)
  {
    var i, s, m := e.st.ptyn.idx, e.st.station, Build10A(e.st, e.vcode, signed).msg;
    var tail := [e.st.ptyn.flush, false, false, false, i == 1];
    KindIsRead(m, TypeName10A, s, tail, TypeName10A);
    SecondWordFields(TypeName10A, s, tail);
    OneBit(i);
    AddressIsCarried(TypeName10A, s, tail, i, 1);
    CharsAreCarried(e.st.ptyn.text, i, signed, m);
    assert m.w2[11] == m.w2[11..][0];
  }

  lemma TextGroupFits(e: Encoder, signed: bool)
    requires Healthy(e.st, signed)
    ensures Fits(TextService, Build2A(e.st, e.vcode, signed).msg, e)
  {
    var i, s, m := e.st.rt.idx, e.st.station, Build2A(e.st, e.vcode, signed).msg;
    var tail := [e.st.rt.flush] + ToBits(i, 4);
    KindIsRead(m, Text2A, s, tail, Text2A);
    SecondWordFields(Text2A, s, tail);
    assert Pow2(4) == 16;
    AddressIsCarried(Text2A, s, tail, i, 4);
    CharsAreCarried(e.st.rt.text, i, signed, m);
    assert m.w2[11] == m.w2[11..][0];
  }

  lemma BuildFits(sv: Service, e: Encoder, signed: bool)
    requires Healthy(e.st, signed)
    ensures Fits(sv, Build(KindOf(sv), e.st, e.vcode, e.time, signed).msg, e)
  {
    match sv
    case PsService => PsGroupFits(e, signed);
    case LabelService => LabelGroupFits(e, signed);
    case PtynService => PtynGroupFits(e, signed);
    case TextService => TextGroupFits(e, signed);
  }

  /** A group moves the position of its own service on, and leaves all contents alone. */
  lemma BuildMoves(sv: Service, k: Kind, e: Encoder, f: Encoder, signed: bool)
    requires k == Clock4A ==> e.time.Now?
    requires Position(sv, e) < Size(sv, e.st)
    requires sv == PsService ==> k != Tuning15B
    requires var b := Build(k, e.st, e.vcode, e.time, signed); f.st == b.st && f.vcode == b.vcode
    ensures Same(sv, e.st, f.st)
    ensures Position(sv, f) == if k == KindOf(sv) then Advance(Position(sv, e), Size(sv, e.st)) else Position(sv, e)
  {
    match k
    case Tuning0B =>
    case Labels1A =>
    case Text2A =>
    case Clock4A =>
    case TypeName10A =>
    case Tuning15B =>
  }

  lemma OtherKind(k: Kind, e: Encoder, signed: bool, j: Kind)
    requires k != j && (k == Clock4A ==> e.time.Now?)
    ensures !IsKind(Build(k, e.st, e.vcode, e.time, signed).msg, j)
  {
    var m := Build(k, e.st, e.vcode, e.time, signed).msg;
    SecondWordFields(k, e.st.station, m.w2[11..]);
    assert m.w2[..4] == ToBits(GroupCode(k), 4);
    assert Pow2(4) == 16;
    FieldValue(GroupCode(k), 4);
  }

  /** The service is on, and about to send one of its segments. */
  ghost predicate Ready(sv: Service, e: Encoder, signed: bool) {
    Reachable(e.sched) && Healthy(e.st, signed) && Enabled(sv, e.st)
  }

  lemma PositionInRange(sv: Service, e: Encoder, signed: bool)
    requires Healthy(e.st, signed)
    ensures Position(sv, e) < Size(sv, e.st)
  {
  }

  /** The group of a call, and what it leaves to the next call. */
  lemma ServiceStep(sv: Service, e: Encoder, signed: bool)
    requires Ready(sv, e, signed)
    ensures var (sent, f) := Transmit(e, signed);
            && Same(sv, e.st, f.st)
            && if CallOf(e).Kind() == Picked(KindOf(sv)) then
                 && sent.Sent? && Fits(sv, sent.msg, e)
                 && Position(sv, f) == Advance(Position(sv, e), Size(sv, e.st))
               else
                 && Position(sv, f) == Position(sv, e)
                 && (sent.Sent? ==> !IsKind(sent.msg, KindOf(sv)))
  {
    var f := Transmit(e, signed).1;
    match CallOf(e).Kind()
    case NoGroup =>
    case Picked(k) =>
      if sv == PsService { CallEffect(CallOf(e)); }
      PositionInRange(sv, e, signed);
      BuildMoves(sv, k, e, f, signed);
      if k == KindOf(sv) {
        BuildFits(sv, e, signed);
      } else {
        OtherKind(k, e, signed, KindOf(sv));
      }
  }

  // ---------- Stretches of a run ----------

  /** A stretch of a history in which a field is on and the environment leaves its contents
      alone. It may do whatever it likes to everything else. */
  ghost predicate Steady(sv: Service, h: seq<Encoder>, signed: bool) {
    && IsHistory(h, signed)
    && |h| > 0 && Enabled(sv, h[0].st)
    && (forall i :: 0 <= i < |h| ==> Healthy(h[i].st, signed))
    && (forall i :: 0 < i < |h| ==> Untouched(sv, h, i, signed))
  }

  /** Between call i and the one before it nobody has touched the field. */
  ghost predicate Untouched(sv: Service, h: seq<Encoder>, i: nat, signed: bool)
    requires 0 < i < |h|
  {
    var f := Transmit(h[i - 1], signed).1;
    Same(sv, f.st, h[i].st) && Position(sv, h[i]) == Position(sv, f)
  }

  lemma SameKeeps(sv: Service, a: State, b: State)
    requires Same(sv, a, b)
    ensures Enabled(sv, a) == Enabled(sv, b)
    ensures Size(sv, a) == Size(sv, b) && FlagOf(sv, a) == FlagOf(sv, b)
  {
  }

  lemma SameCarries(sv: Service, a: State, b: State, m: Message, x: nat)
    requires Same(sv, a, b) && Carries(sv, m, a, x)
    ensures Carries(sv, m, b, x)
  {
  }

  lemma SameIsTransitive(sv: Service, a: State, b: State, c: State)
    requires Same(sv, a, b) && Same(sv, b, c)
    ensures Same(sv, a, c)
  {
  }

  /** f may follow e in a steady stretch. */
  ghost predicate Steps(sv: Service, e: Encoder, f: Encoder, signed: bool) {
    && Reachable(f.sched) && Healthy(f.st, signed)
    && Same(sv, Transmit(e, signed).1.st, f.st) && Position(sv, f) == Position(sv, Transmit(e, signed).1)
  }

  lemma SteadyStep(sv: Service, h: seq<Encoder>, signed: bool, n: nat)
    requires Steady(sv, h, signed) && 0 < n < |h|
    ensures Steps(sv, h[n - 1], h[n], signed)
  {
    assert Untouched(sv, h, n, signed);
  }

  /** From one call to the next the service stays ready, and its contents stay the same. */
  lemma ReadyStep(sv: Service, e: Encoder, f: Encoder, signed: bool)
    requires Ready(sv, e, signed) && Steps(sv, e, f, signed)
    ensures Ready(sv, f, signed) && Same(sv, e.st, f.st)
    ensures Position(sv, f) == if CallOf(e).Kind() == Picked(KindOf(sv))
                               then Advance(Position(sv, e), Size(sv, e.st)) else Position(sv, e)
  {
    ServiceStep(sv, e, signed);
    SameIsTransitive(sv, e.st, Transmit(e, signed).1.st, f.st);
    SameKeeps(sv, e.st, f.st);
  }

  lemma {:induction false} StaysReady(sv: Service, h: seq<Encoder>, signed: bool, n: nat)
    requires Steady(sv, h, signed) && n < |h|
    ensures Ready(sv, h[n], signed) && Same(sv, h[0].st, h[n].st)
  {
    if n > 0 {
      StaysReady(sv, h, signed, n - 1);
      SteadyStep(sv, h, signed, n);
      ReadyStep(sv, h[n - 1], h[n], signed);
      SameIsTransitive(sv, h[0].st, h[n - 1].st, h[n].st);
    }
  }

  /** How many groups of the service the first n calls send. */
  ghost function SentBy(sv: Service, h: seq<Encoder>, n: nat): nat
    requires n <= |h|
  {
    if n == 0 then 0
    else SentBy(sv, h, n - 1) + if CallOf(h[n - 1]).Kind() == Picked(KindOf(sv)) then 1 else 0
  }

  /** No second ends before the last slot of a service that is on. */
  lemma ServiceReaches(sv: Service, e: Encoder, signed: bool)
    requires Ready(sv, e, signed)
    ensures CallOf(e).Wraps() ==> e.sched.sec >= Hi(sv)
    ensures !CallOf(e).IsClock() && Lo(sv) <= CallOf(e).Slot() < Hi(sv) ==>
            CallOf(e).Kind() == Picked(KindOf(sv))
  {
    CallEffect(CallOf(e));
  }

  lemma {:induction false} SlotsAreSent(sv: Service, h: seq<Encoder>, signed: bool, n: nat)
    requires Steady(sv, h, signed) && n < |h|
    ensures Served(Calls(h), n, Lo(sv), Hi(sv)) <= SentBy(sv, h, n)
  {
    if n > 0 {
      SlotsAreSent(sv, h, signed, n - 1);
      StaysReady(sv, h, signed, n - 1);
      ServiceReaches(sv, h[n - 1], signed);
    }
  }

  /** In any 12 * k consecutive groups, not counting clock groups, a service that is on gets
      its slots k times. */
  lemma ServiceIsFrequent(sv: Service, h: seq<Encoder>, signed: bool, n: nat, k: nat)
    requires Steady(sv, h, signed) && n < |h| && Others(Calls(h), n) >= 12 * k
    ensures SentBy(sv, h, n) >= (Hi(sv) - Lo(sv)) * k
  {
    var r := Calls(h);
    HistoryIsRun(h, signed);
    forall i | 0 <= i < |r| && r[i].Wraps()
      ensures r[i].s.sec >= Hi(sv)
    {
      StaysReady(sv, h, signed, i);
      ServiceReaches(sv, h[i], signed);
    }
    ServiceRate(r, n, Lo(sv), Hi(sv), k);
    SlotsAreSent(sv, h, signed, n);
  }

  /** The segment m groups after segment i, within one rotation. */
  function Ahead(i: nat, m: nat, size: nat): nat
    requires i < size && m < size
  {
    if i + m < size then i + m else i + m - size
  }

  /** How many groups after segment i segment a comes. */
  function Distance(i: nat, a: nat, size: nat): nat
    requires i < size && a < size
  {
    if i <= a then a - i else a + size - i
  }

  /** The receiver has segment a of the field as st has it. */
  ghost predicate Has(sv: Service, rx: Rx, st: State, a: nat) {
    a in rx.got && Carries(sv, rx.got[a], st, a)
  }

  /** The receiver after has what rx has under the flag of st, and segment pos. */
  ghost predicate Adds(sv: Service, st: State, rx: Rx, after: Rx, pos: nat) {
    var known := rx.flag == Seen(FlagOf(sv, st));
    && after.flag == Seen(FlagOf(sv, st)) && Has(sv, after, st, pos)
    && (known ==> forall a :: Has(sv, rx, st, a) ==> Has(sv, after, st, a))
    && after.got.Keys == (if known then rx.got.Keys else {}) + {pos}
    && (known ==> forall a :: a in rx.got && a != pos ==> after.got[a] == rx.got[a])
  }

  /** A group of the service keeps what the receiver has under the same flag and adds its
      own segment. */
  lemma ReceiveFits(sv: Service, rx: Rx, m: Message, e: Encoder, st: State)
    requires Fits(sv, m, e) && Same(sv, e.st, st)
    ensures Adds(sv, st, rx, Receive(sv, rx, m), Position(sv, e))
  {
    SameKeeps(sv, e.st, st);
    SameCarries(sv, e.st, st, m, Position(sv, e));
  }

  /** What a receiver that began as rx has after c groups of the service, the first of which
      carried segment p, when the next one will carry segment pos. */
  ghost predicate Progress(sv: Service, st: State, rx: Rx, p: nat, c: nat, pos: nat, now: Rx) {
    && p < Size(sv, st) && pos < Size(sv, st)
    && (c < Size(sv, st) ==> pos == Ahead(p, c, Size(sv, st)))
    && (c == 0 ==> now == rx)
    && (c > 0 ==> now.flag == Seen(FlagOf(sv, st)) && Leftovers(sv, st, rx, now))
    && (forall a :: 0 <= a < Size(sv, st) && Distance(p, a, Size(sv, st)) < c ==> Has(sv, now, st, a))
  }

  /** Beyond the segments of the field, the receiver has what it had under the same flag. */
  ghost predicate Leftovers(sv: Service, st: State, rx: Rx, now: Rx) {
    if rx.flag == Seen(FlagOf(sv, st)) then
      forall a :: a >= Size(sv, st) ==>
        (a in now.got <==> a in rx.got) && (a in rx.got ==> now.got[a] == rx.got[a])
    else
      forall a :: a in now.got ==> a < Size(sv, st)
  }

  lemma ProgressStep(sv: Service, st: State, rx: Rx, p: nat, c: nat, now: Rx, e: Encoder, signed: bool)
    requires Ready(sv, e, signed) && Same(sv, e.st, st)
    requires Position(sv, e) < Size(sv, st)
    requires Progress(sv, st, rx, p, c, Position(sv, e), now)
    ensures var sends := CallOf(e).Kind() == Picked(KindOf(sv));
            Progress(sv, st, rx, p, if sends then c + 1 else c,
                     if sends then Advance(Position(sv, e), Size(sv, e.st)) else Position(sv, e),
                     ReceiveCall(sv, now, e, signed))
  {
    ServiceStep(sv, e, signed);
    SameKeeps(sv, e.st, st);
    if CallOf(e).Kind() == Picked(KindOf(sv)) {
      ProgressGroup(sv, st, rx, p, c, now, e, Transmit(e, signed).0.msg);
    }
  }

  lemma ProgressGroup(sv: Service, st: State, rx: Rx, p: nat, c: nat, now: Rx, e: Encoder, m: Message)
    requires Fits(sv, m, e) && Same(sv, e.st, st) && Position(sv, e) < Size(sv, st)
    requires Progress(sv, st, rx, p, c, Position(sv, e), now)
    ensures Progress(sv, st, rx, p, c + 1, Advance(Position(sv, e), Size(sv, st)), Receive(sv, now, m))
  {
    ReceiveFits(sv, now, m, e, st);
    LeftoversAfter(sv, st, rx, c, now, Receive(sv, now, m), Position(sv, e));
    SegmentsAfter(sv, st, p, c, now, Receive(sv, now, m), Position(sv, e));
  }

  lemma LeftoversAfter(sv: Service, st: State, rx: Rx, c: nat, now: Rx, after: Rx, pos: nat)
    requires if c == 0 then now == rx else now.flag == Seen(FlagOf(sv, st)) && Leftovers(sv, st, rx, now)
    requires pos < Size(sv, st) && Adds(sv, st, now, after, pos)
    ensures Leftovers(sv, st, rx, after)
  {
  }

  lemma SegmentsAfter(sv: Service, st: State, p: nat, c: nat, now: Rx, after: Rx, pos: nat)
    requires p < Size(sv, st) && pos < Size(sv, st) && Adds(sv, st, now, after, pos)
    requires c < Size(sv, st) ==> pos == Ahead(p, c, Size(sv, st))
    requires c > 0 ==> now.flag == Seen(FlagOf(sv, st))
    requires forall a :: 0 <= a < Size(sv, st) && Distance(p, a, Size(sv, st)) < c ==> Has(sv, now, st, a)
    ensures forall a :: 0 <= a < Size(sv, st) && Distance(p, a, Size(sv, st)) < c + 1 ==> Has(sv, after, st, a)
  {
    forall a | 0 <= a < Size(sv, st) && Distance(p, a, Size(sv, st)) < c + 1
      ensures Has(sv, after, st, a)
    {
      if Distance(p, a, Size(sv, st)) < c { assert Has(sv, now, st, a); }
    }
  }

  lemma SameIsSymmetric(sv: Service, a: State, b: State)
    requires Same(sv, a, b)
    ensures Same(sv, b, a)
  {
  }

  /** One call of a steady stretch, from e to f. */
  lemma ProgressNext(sv: Service, st: State, rx: Rx, p: nat, c: nat, now: Rx, e: Encoder, f: Encoder, signed: bool)
    requires Ready(sv, e, signed) && Same(sv, st, e.st) && Steps(sv, e, f, signed)
    requires Progress(sv, st, rx, p, c, Position(sv, e), now)
    ensures Progress(sv, st, rx, p, if CallOf(e).Kind() == Picked(KindOf(sv)) then c + 1 else c,
                     Position(sv, f), ReceiveCall(sv, now, e, signed))
  {
    SameIsSymmetric(sv, st, e.st);
    SameKeeps(sv, st, e.st);
    PositionInRange(sv, e, signed);
    ReadyStep(sv, e, f, signed);
    ProgressStep(sv, st, rx, p, c, now, e, signed);
  }

  /** The receivers rxs are those before each call of a history. */
  ghost predicate Traced(sv: Service, h: seq<Encoder>, rxs: seq<Rx>, signed: bool) {
    0 < |rxs| <= |h| && forall i :: 0 <= i < |rxs| - 1 ==> TracedAt(sv, h, rxs, i, signed)
  }

  ghost predicate TracedAt(sv: Service, h: seq<Encoder>, rxs: seq<Rx>, i: nat, signed: bool)
    requires i + 1 < |rxs| <= |h|
  {
    rxs[i + 1] == ReceiveCall(sv, rxs[i], h[i], signed)
  }

  ghost predicate ProgressAt(sv: Service, h: seq<Encoder>, rxs: seq<Rx>, n: nat)
    requires n < |rxs| <= |h|
  {
    Progress(sv, h[0].st, rxs[0], Position(sv, h[0]), SentBy(sv, h, n), Position(sv, h[n]), rxs[n])
  }

  lemma ProgressOfNext(sv: Service, h: seq<Encoder>, rxs: seq<Rx>, signed: bool, n: nat)
    requires Steady(sv, h, signed) && Traced(sv, h, rxs, signed) && n + 1 < |rxs| && ProgressAt(sv, h, rxs, n)
    ensures ProgressAt(sv, h, rxs, n + 1)
  {
    StaysReady(sv, h, signed, n);
    SteadyStep(sv, h, signed, n + 1);
    assert TracedAt(sv, h, rxs, n, signed);
    ProgressNext(sv, h[0].st, rxs[0], Position(sv, h[0]), SentBy(sv, h, n), rxs[n], h[n], h[n + 1], signed);
  }

  lemma {:induction false} ProgressHolds(sv: Service, h: seq<Encoder>, rxs: seq<Rx>, signed: bool, n: nat)
    requires Steady(sv, h, signed) && Traced(sv, h, rxs, signed) && n < |rxs|
    ensures ProgressAt(sv, h, rxs, n)
  {
    if n > 0 {
      ProgressHolds(sv, h, rxs, signed, n - 1);
      ProgressOfNext(sv, h, rxs, signed, n - 1);
    } else {
      PositionInRange(sv, h[0], signed);
    }
  }

  /** The receivers before each of the first n + 1 calls. */
  ghost function Trace(sv: Service, rx: Rx, h: seq<Encoder>, n: nat, signed: bool): (rxs: seq<Rx>)
    requires n < |h|
    ensures |rxs| == n + 1
  {
    seq(n + 1, i requires 0 <= i <= n => ReceiveRun(sv, rx, h, i, signed))
  }

  lemma TraceIsTraced(sv: Service, rx: Rx, h: seq<Encoder>, n: nat, signed: bool)
    requires n < |h|
    ensures Traced(sv, h, Trace(sv, rx, h, n, signed), signed)
  {
    forall i | 0 <= i < n
      ensures TracedAt(sv, h, Trace(sv, rx, h, n, signed), i, signed)
    {
      ReceiveStep(sv, rx, h, i, signed);
    }
  }

  lemma TraceEnds(sv: Service, rx: Rx, h: seq<Encoder>, n: nat, signed: bool)
    requires n < |h|
    ensures Trace(sv, rx, h, n, signed)[0] == rx && Trace(sv, rx, h, n, signed)[n] == ReceiveRun(sv, rx, h, n, signed)
  {
  }

  lemma ProgressOfRun(sv: Service, h: seq<Encoder>, rx: Rx, signed: bool, n: nat)
    requires Steady(sv, h, signed) && n < |h|
    ensures Progress(sv, h[0].st, rx, Position(sv, h[0]), SentBy(sv, h, n), Position(sv, h[n]),
                     ReceiveRun(sv, rx, h, n, signed))
  {
    TraceIsTraced(sv, rx, h, n, signed);
    ProgressHolds(sv, h, Trace(sv, rx, h, n, signed), signed, n);
    TraceEnds(sv, rx, h, n, signed);
  }

  /** Bounded delivery, for every service: after any stretch with 12 * k groups that are not
      clock groups, k large enough for the service to send all its segments, the receiver has
      every segment, and beyond them only what it had under the same A/B flag. */
  lemma Delivered(sv: Service, h: seq<Encoder>, rx: Rx, signed: bool, n: nat, k: nat)
    requires Steady(sv, h, signed) && n < |h| && Others(Calls(h), n) >= 12 * k
    requires Size(sv, h[0].st) <= (Hi(sv) - Lo(sv)) * k
    ensures var st, now := h[0].st, ReceiveRun(sv, rx, h, n, signed);
            && (forall a :: 0 <= a < Size(sv, st) ==> Has(sv, now, st, a))
            && Leftovers(sv, st, rx, now)
  {
    ProgressOfRun(sv, h, rx, signed, n);
    ServiceIsFrequent(sv, h, signed, n, k);
  }

  /** In every run from the start in which other processes only call the setters,
      every 0B, 1A, 2A and 10A group carries its segment of the field intact, whether chars are
      signed or not. */
  lemma EveryGroupIsIntact(sv: Service, h: seq<Encoder>, signed: bool, n: nat)
    requires IsHistory(h, signed) && OnlySetters(h, signed) && n < |h| && Initial(h[0], signed)
    requires CallOf(h[n]).Kind() == Picked(KindOf(sv))
    ensures Transmit(h[n], signed).0.Sent? && Fits(sv, Transmit(h[n], signed).0.msg, h[n])
  {
    RunsAreHealthy(h, signed, n);
    BuildFits(sv, h[n], signed);
  }

  /** From call a on, the field is on and the environment leaves its contents alone. */
  ghost predicate LeftAlone(sv: Service, h: seq<Encoder>, a: nat, signed: bool) {
    && a < |h| && Enabled(sv, h[a].st)
    && forall i :: a < i < |h| ==> Untouched(sv, h, i, signed)
  }

  /** Every stretch of such a run in which a field is on and left alone is steady. */
  lemma StretchIsSteady(sv: Service, h: seq<Encoder>, signed: bool, a: nat)
    requires IsHistory(h, signed) && OnlySetters(h, signed) && |h| > 0 && Initial(h[0], signed)
    requires LeftAlone(sv, h, a, signed)
    ensures Steady(sv, h[a..], signed)
  {
    var q := h[a..];
    forall i | 0 <= i < |q|
      ensures Healthy(q[i].st, signed) && q[i] == h[a + i]
    {
      RunsAreHealthy(h, signed, a + i);
    }
    forall i | 0 < i < |q|
      ensures Linked(q, i, signed) && Untouched(sv, q, i, signed)
    {
      assert Linked(h, a + i, signed);
      assert Untouched(sv, h, a + i, signed);
    }
  }
}
