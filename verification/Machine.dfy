/** The encoder as a state machine: one transition for each group, with the configuration and
    the clock in the hands of the environment between the transitions. */
module Machine {
  import opened Config
  import opened Groups
  import opened Clock
  import opened Scheduler

  /** The encoder just before a call: counters, 1A variant code, configuration and time. */
  datatype Encoder = Encoder(sched: Sched, vcode: U4, st: State, time: Time)

  function FlagsOf(st: State): Flags {
    Flags(st.ps.isSet, st.station.eccSet || st.station.licSet, st.ptyn.isSet, st.rt.isSet)
  }

  function CallOf(e: Encoder): Call {
    Call(e.sched, FlagsOf(e.st), e.time.Now?)
  }

  /** The group builders. A clock group is only built when the time is known. */
  function Build(k: Kind, st: State, vcode: U4, time: Time, signed: bool): Built
    requires k == Clock4A ==> time.Now?
  {
    match k
    case Tuning0B => Build0B(st, vcode, signed)
    case Labels1A => Build1A(st, vcode)
    case Text2A => Build2A(st, vcode, signed)
    case Clock4A => Build4A(st, vcode, time.utc, time.localHour)
    case TypeName10A => Build10A(st, vcode, signed)
    case Tuning15B => Build15B(st, vcode)
  }

  /** The message of a call, if it sends one. */
  datatype Sent = Nothing | Sent(msg: Message)

  function Transmit(e: Encoder, signed: bool): (Sent, Encoder) {
    var c := CallOf(e);
    match c.Kind()
    case NoGroup => (Nothing, e.(sched := c.Next()))
    case Picked(k) =>
      var b := Build(k, e.st, e.vcode, e.time, signed);
      (Sent(b.msg), Encoder(c.Next(), b.vcode, b.st, e.time))
  }

  /** A history: the encoder before each call. Between two calls the environment may change the
      configuration and the time in any way. */
  ghost predicate IsHistory(h: seq<Encoder>, signed: bool) {
    && (forall i :: 0 <= i < |h| ==> Reachable(h[i].sched))
    && (forall i :: 0 < i < |h| ==> Linked(h, i, signed))
  }

  /** Call i finds the counters and the variant code as the call before it left them. */
  ghost predicate Linked(h: seq<Encoder>, i: nat, signed: bool)
    requires 0 < i < |h|
  {
    var f := Transmit(h[i - 1], signed).1;
    h[i].sched == f.sched && h[i].vcode == f.vcode
  }

  /** b results from a by calls of the setters. */
  ghost predicate Reconfigured(a: State, b: State, signed: bool) {
    exists ops :: b == ApplyAll(a, ops, signed)
  }

  /** The encoder before its first call: the counters are zero, and other processes have called
      any setters since the state was initialised. */
  ghost predicate Initial(e: Encoder, signed: bool) {
    e.sched == Sched(0, 0, 0) && e.vcode == 0 && Reconfigured(InitialState(), e.st, signed)
  }

  /** A history in which the environment only calls the setters. */
  ghost predicate OnlySetters(h: seq<Encoder>, signed: bool) {
    forall i :: 0 < i < |h| ==> SetBefore(h, i, signed)
  }

  /** Between call i and the one before it only setters were called. */
  ghost predicate SetBefore(h: seq<Encoder>, i: nat, signed: bool)
    requires 0 < i < |h|
  {
    Reconfigured(Transmit(h[i - 1], signed).1.st, h[i].st, signed)
  }

  /** What the calls of a history send. */
  function Broadcast(h: seq<Encoder>, signed: bool): (s: seq<Sent>)
    ensures |s| == |h|
    ensures forall i {:trigger s[i]} :: 0 <= i < |h| ==> s[i] == Transmit(h[i], signed).0
  {
    seq(|h|, i requires 0 <= i < |h| => Transmit(h[i], signed).0)
  }

  /** The calls of the scheduler in a history. */
  ghost function Calls(h: seq<Encoder>): (r: seq<Call>)
    ensures |r| == |h|
    ensures forall i :: 0 <= i < |h| ==> r[i] == CallOf(h[i])
  {
    seq(|h|, i requires 0 <= i < |h| => CallOf(h[i]))
  }

  lemma HistoryIsRun(h: seq<Encoder>, signed: bool)
    requires IsHistory(h, signed)
    ensures IsRun(Calls(h))
  {
    var r := Calls(h);
    forall i | 0 < i < |r|
      ensures Chained(r, i)
    {
      assert Linked(h, i, signed);
    }
  }

  // ---------- What holds in every state of every run ----------

  /** Characters as the setters store them: no control characters, and none that is negative
      where chars are signed. */
  ghost predicate Plain(s: seq<Byte>, signed: bool) {
    forall i :: 0 <= i < |s| ==> (s[i] == 0 || 0x20 <= s[i]) && (signed ==> s[i] < 128)
  }

  /** The invariant that the setters establish and the builders rely on. */
  ghost predicate Healthy(st: State, signed: bool) {
    && Plain(st.ps.text, signed) && Plain(st.ptyn.text, signed) && Plain(st.rt.text, signed)
    && 0x7F !in st.rt.text
    && (st.station.eccSet <==> st.station.ecc != 0)
    && (st.station.licSet <==> st.station.lic != 0)
    && (if st.rt.segments == 0 then st.rt.idx == 0 else st.rt.idx < st.rt.segments)
  }

  lemma TextsStayPlain(n: Name, t: TypeName, r: RadioText, s: CString, flush: bool, signed: bool)
    requires Plain(n.text, signed) && Plain(t.text, signed) && Plain(r.text, signed) && 0x7F !in r.text
    ensures Plain(ApplyPs(n, s, signed).text, signed)
    ensures Plain(ApplyPtyn(t, s, signed).text, signed)
    ensures Plain(ApplyRt(r, s, flush, signed).text, signed) && 0x7F !in ApplyRt(r, s, flush, signed).text
  {
  }

  lemma SettersKeepHealth(st: State, op: Op, signed: bool)
    requires Healthy(st, signed)
    ensures Healthy(Apply(st, op, signed), signed)
    ensures st.ps.isSet ==> Apply(st, op, signed).ps.isSet
  {
    match op
    case SetPs(s) => TextsStayPlain(st.ps, st.ptyn, st.rt, s, false, signed);
    case SetPtyn(s) => TextsStayPlain(st.ps, st.ptyn, st.rt, s, false, signed);
    case SetRt(s, flush) => TextsStayPlain(st.ps, st.ptyn, st.rt, s, flush, signed);
    case _ =>
  }

  lemma {:induction false} AllSettersKeepHealth(st: State, ops: seq<Op>, signed: bool)
    requires Healthy(st, signed)
    ensures Healthy(ApplyAll(st, ops, signed), signed)
    ensures st.ps.isSet ==> ApplyAll(st, ops, signed).ps.isSet
  {
    if |ops| > 0 {
      AllSettersKeepHealth(st, ops[..|ops| - 1], signed);
      SettersKeepHealth(ApplyAll(st, ops[..|ops| - 1], signed), ops[|ops| - 1], signed);
    }
  }

  lemma BuildKeepsHealth(k: Kind, st: State, vcode: U4, time: Time, signed: bool)
    requires Healthy(st, signed) && (k == Clock4A ==> time.Now?)
    ensures Healthy(Build(k, st, vcode, time, signed).st, signed)
    ensures Build(k, st, vcode, time, signed).st.ps.isSet == st.ps.isSet
  {
    match k
    case Tuning0B =>
    case Labels1A =>
    case Text2A =>
    case Clock4A =>
    case TypeName10A =>
    case Tuning15B =>
  }

  lemma TransmitKeepsHealth(e: Encoder, signed: bool)
    requires Healthy(e.st, signed)
    ensures Healthy(Transmit(e, signed).1.st, signed)
    ensures Transmit(e, signed).1.st.ps.isSet == e.st.ps.isSet
  {
    match CallOf(e).Kind()
    case NoGroup =>
    case Picked(k) => BuildKeepsHealth(k, e.st, e.vcode, e.time, signed);
  }

  /** In every run from the start in which other processes only call the setters, before the
      first call as well as between any two, every state is healthy, whichever groups are sent
      and whichever setters are called. */
  lemma {:induction false} RunsAreHealthy(h: seq<Encoder>, signed: bool, n: nat)
    requires OnlySetters(h, signed) && n < |h| && Initial(h[0], signed)
    ensures Healthy(h[n].st, signed)
  {
    if n > 0 {
      RunsAreHealthy(h, signed, n - 1);
      TransmitKeepsHealth(h[n - 1], signed);
      assert SetBefore(h, n, signed);
      var before := Transmit(h[n - 1], signed).1.st;
      var ops :| h[n].st == ApplyAll(before, ops, signed);
      AllSettersKeepHealth(before, ops, signed);
    } else {
      var ops :| h[0].st == ApplyAll(InitialState(), ops, signed);
      AllSettersKeepHealth(InitialState(), ops, signed);
    }
  }

  lemma {:induction false} PsStaysSet(h: seq<Encoder>, signed: bool, m: nat, n: nat)
    requires OnlySetters(h, signed) && m <= n < |h| && Initial(h[0], signed) && h[m].st.ps.isSet
    ensures h[n].st.ps.isSet
  {
    if m < n {
      PsStaysSet(h, signed, m, n - 1);
      RunsAreHealthy(h, signed, n - 1);
      TransmitKeepsHealth(h[n - 1], signed);
      assert SetBefore(h, n, signed);
      var before := Transmit(h[n - 1], signed).1.st;
      var ops :| h[n].st == ApplyAll(before, ops, signed);
      AllSettersKeepHealth(before, ops, signed);
    }
  }

  /** Once the PS has been set, no 15B group is ever sent again. */
  lemma NoFastTuningAfterPs(h: seq<Encoder>, signed: bool, m: nat, n: nat)
    requires IsHistory(h, signed) && OnlySetters(h, signed) && m <= n < |h| && Initial(h[0], signed)
    requires h[m].st.ps.isSet
    ensures CallOf(h[n]).Kind() != Picked(Tuning15B)
  {
    PsStaysSet(h, signed, m, n);
    CallEffect(CallOf(h[n]));
  }
}
