/** Runs written as scripts of setter calls: the assumptions of the delivery and the flush
    theorems can be met. */
module Scripts {
  import opened Config
  import opened Groups
  import opened Clock
  import opened Scheduler
  import opened Machine
  import opened Delivery
  import opened Flush

  // ---------- Scripted runs ----------

  /** The history that begins with e when other processes make the calls gaps[k] just before
      call k. */
  ghost function Scripted(e: Encoder, gaps: seq<seq<Op>>, signed: bool): (h: seq<Encoder>)
    requires |gaps| > 0
    ensures |h| == |gaps|
  {
    if |gaps| == 1 then [e.(st := ApplyAll(e.st, gaps[0], signed))]
    else
      var h := Scripted(e, gaps[..|gaps| - 1], signed);
      var f := Transmit(h[|h| - 1], signed).1;
      h + [f.(st := ApplyAll(f.st, gaps[|gaps| - 1], signed))]
  }

  lemma {:induction false} ScriptedCall(e: Encoder, gaps: seq<seq<Op>>, signed: bool, k: nat)
    requires k < |gaps|
    ensures var h := Scripted(e, gaps, signed);
            if k == 0 then h[0] == e.(st := ApplyAll(e.st, gaps[0], signed))
            else var f := Transmit(h[k - 1], signed).1; h[k] == f.(st := ApplyAll(f.st, gaps[k], signed))
  {
    var n := |gaps| - 1;
    if n > 0 {
      var h, g := Scripted(e, gaps, signed), Scripted(e, gaps[..n], signed);
      assert h[..n] == g;
      if k < n {
        ScriptedCall(e, gaps[..n], signed, k);
        assert h[k] == g[k] && (k > 0 ==> h[k - 1] == g[k - 1]);
      }
    }
  }

  lemma {:induction false} ScriptedCounters(e: Encoder, gaps: seq<seq<Op>>, signed: bool, k: nat)
    requires k < |gaps| && Reachable(e.sched)
    ensures var f := Scripted(e, gaps, signed)[k]; Reachable(f.sched) && f.time == e.time
  {
    ScriptedCall(e, gaps, signed, k);
    if k > 0 {
      ScriptedCounters(e, gaps, signed, k - 1);
      CallEffect(CallOf(Scripted(e, gaps, signed)[k - 1]));
    }
  }

  lemma ScriptedIsHistory(e: Encoder, gaps: seq<seq<Op>>, signed: bool)
    requires |gaps| > 0 && Reachable(e.sched)
    ensures IsHistory(Scripted(e, gaps, signed), signed)
  {
    var h := Scripted(e, gaps, signed);
    forall k | 0 <= k < |h|
      ensures Reachable(h[k].sched)
    {
      ScriptedCounters(e, gaps, signed, k);
    }
    forall k | 0 < k < |h|
      ensures Linked(h, k, signed)
    {
      ScriptedCall(e, gaps, signed, k);
    }
  }

  /** The encoder after its initialisation. */
  function Begin(time: Time): Encoder {
    Encoder(Sched(0, 0, 0), 0, InitialState(), time)
  }

  lemma ScriptedIsRun(time: Time, gaps: seq<seq<Op>>, signed: bool)
    requires |gaps| > 0
    ensures IsRunWith(Scripted(Begin(time), gaps, signed), gaps, signed)
  {
    var h := Scripted(Begin(time), gaps, signed);
    ScriptedIsHistory(Begin(time), gaps, signed);
    ScriptedCall(Begin(time), gaps, signed, 0);
    forall k | 0 < k < |h|
      ensures Configured(h, gaps, k, signed)
    {
      ScriptedCall(Begin(time), gaps, signed, k);
    }
  }

  // ---------- The assumptions of the delivery theorems can be met ----------

  lemma SameIsReflexive(sv: Service, st: State)
    ensures Same(sv, st, st)
  {
  }

  /** From call a on nobody calls a setter. */
  ghost predicate QuietFrom(gaps: seq<seq<Op>>, a: nat) {
    forall k :: a < k < |gaps| ==> gaps[k] == []
  }

  lemma QuietCall(sv: Service, e: Encoder, gaps: seq<seq<Op>>, signed: bool, a: nat, k: nat)
    requires QuietFrom(gaps, a) && a < k < |gaps|
    ensures var h := Scripted(e, gaps, signed);
            h[k] == Transmit(h[k - 1], signed).1 && Untouched(sv, h, k, signed)
  {
    ScriptedCall(e, gaps, signed, k);
    SameIsReflexive(sv, Transmit(Scripted(e, gaps, signed)[k - 1], signed).1.st);
  }

  lemma {:induction false} QuietIsHealthy(e: Encoder, n: nat, signed: bool, k: nat)
    requires k < n && Healthy(e.st, signed)
    ensures Healthy(Scripted(e, seq(n, _ => []), signed)[k].st, signed)
  {
    var gaps: seq<seq<Op>> := seq(n, _ => []);
    ScriptedCall(e, gaps, signed, k);
    if k > 0 {
      QuietIsHealthy(e, n, signed, k - 1);
      TransmitKeepsHealth(Scripted(e, gaps, signed)[k - 1], signed);
    }
  }

  lemma QuietIsSteady(sv: Service, e: Encoder, n: nat, signed: bool)
    requires Ready(sv, e, signed) && n > 0
    ensures Steady(sv, Scripted(e, seq(n, _ => []), signed), signed)
    ensures Scripted(e, seq(n, _ => []), signed)[0] == e
  {
    var gaps: seq<seq<Op>> := seq(n, _ => []);
    var h := Scripted(e, gaps, signed);
    ScriptedIsHistory(e, gaps, signed);
    ScriptedCall(e, gaps, signed, 0);
    forall k | 0 <= k < |h|
      ensures Healthy(h[k].st, signed)
    {
      QuietIsHealthy(e, n, signed, k);
    }
    forall k | 0 < k < |h|
      ensures Untouched(sv, h, k, signed)
    {
      QuietCall(sv, e, gaps, signed, 0, k);
    }
  }

  lemma ManyOthers(e: Encoder, gaps: seq<seq<Op>>, signed: bool, a: nat, k: nat)
    requires Reachable(e.sched) && e.time.Now? && a + 2 * k < |gaps|
    ensures Others(Calls(Scripted(e, gaps, signed)[a..]), 2 * k) >= k
  {
    var h := Scripted(e, gaps, signed);
    var r := Calls(h);
    ScriptedIsHistory(e, gaps, signed);
    HistoryIsRun(h, signed);
    SuffixIsRun(r, a);
    assert Calls(h[a..]) == r[a..];
    forall i | 0 <= i < |r|
      ensures r[i].clockWorks
    {
      ScriptedCounters(e, gaps, signed, i);
    }
    OthersAreFrequent(r[a..], k);
  }

  lemma QuietHasOthers(e: Encoder, signed: bool, k: nat)
    requires Reachable(e.sched) && e.time.Now?
    ensures var h := Scripted(e, seq(2 * k + 1, _ => []), signed); Others(Calls(h), 2 * k) >= k
  {
    var h := Scripted(e, seq(2 * k + 1, _ => []), signed);
    ManyOthers(e, seq(2 * k + 1, _ => []), signed, 0, k);
    assert h[0..] == h;
  }

  /** From every encoder with a service that is on, while the clock works, there are steady
      stretches with as many groups as one likes. */
  lemma SteadyStretchesExist(sv: Service, e: Encoder, signed: bool, k: nat)
    requires Ready(sv, e, signed) && e.time.Now?
    ensures exists h, n: nat :: Steady(sv, h, signed) && h[0] == e && n < |h| && Others(Calls(h), n) >= k
  {
    QuietIsSteady(sv, e, 2 * k + 1, signed);
    QuietHasOthers(e, signed, k);
  }

  // ---------- Runs with a flush ----------

  /** A text is set before the first call, and ops are called before call a. */
  function TextScript(s: seq<Byte>, a: nat, ops: seq<Op>, n: nat): (gaps: seq<seq<Op>>)
    requires 0 < a < n
    ensures |gaps| == n
  {
    seq(n, k requires 0 <= k < n => if k == 0 then [SetRt(Text(s), false)] else if k == a then ops else [])
  }

  /** Only RadioText is on. */
  const ONLY_TEXT := Flags(false, false, false, true)

  lemma OneCall(st: State, op: Op, signed: bool)
    ensures ApplyAll(st, [op], signed) == Apply(st, op, signed)
  {
    assert [op][..0] == [];
  }

  /** The text as it is stored before the first call. */
  function FirstText(s: seq<Byte>, signed: bool): RadioText {
    ApplyRt(InitialState().rt, Text(s), false, signed)
  }

  lemma EarlyTransmission(e: Encoder, signed: bool)
    requires FlagsOf(e.st) == ONLY_TEXT && 0 <= e.sched.sec < 4 && e.sched.min < 720 && e.sched.ptynCnt == 0
    ensures var f := Transmit(e, signed).1;
            f.sched == Sched(e.sched.sec + 1, e.sched.min + 1, 0) && f.st.rt == e.st.rt && FlagsOf(f.st) == ONLY_TEXT
  {
  }

  lemma TextTransmission(e: Encoder, signed: bool)
    requires FlagsOf(e.st) == ONLY_TEXT && 4 <= e.sched.sec < 12 && e.sched.min < 720 && e.sched.ptynCnt == 0
    ensures SendsText(e)
    ensures var f := Transmit(e, signed).1;
            && f.sched == Sched(e.sched.sec + 1, e.sched.min + 1, 0) && FlagsOf(f.st) == ONLY_TEXT
            && f.st.rt == e.st.rt.(idx := NextRtIdx(e.st.rt.idx, e.st.rt.segments))
  {
  }

  lemma FirstCall(s: seq<Byte>, a: nat, ops: seq<Op>, n: nat, time: Time, signed: bool)
    requires 4 < a < n && Strnlen(s, 64) > 0
    ensures var e := Scripted(Begin(time), TextScript(s, a, ops, n), signed)[0];
            e.sched == Sched(0, 0, 0) && FlagsOf(e.st) == ONLY_TEXT && e.st.rt == FirstText(s, signed)
  {
    ScriptedCall(Begin(time), TextScript(s, a, ops, n), signed, 0);
    OneCall(InitialState(), SetRt(Text(s), false), signed);
  }

  /** The first calls, before other processes call anything: four 15B groups ... */
  lemma {:induction false} EarlyCalls(s: seq<Byte>, a: nat, ops: seq<Op>, n: nat, time: Time, signed: bool, k: nat)
    requires 4 < a < n && k <= 4 && Strnlen(s, 64) > 0
    ensures var e := Scripted(Begin(time), TextScript(s, a, ops, n), signed)[k];
            e.sched == Sched(k, k, 0) && FlagsOf(e.st) == ONLY_TEXT && e.st.rt == FirstText(s, signed)
  {
    if k == 0 {
      FirstCall(s, a, ops, n, time, signed);
    } else {
      var gaps := TextScript(s, a, ops, n);
      EarlyCalls(s, a, ops, n, time, signed, k - 1);
      EarlyTransmission(Scripted(Begin(time), gaps, signed)[k - 1], signed);
      ScriptedCall(Begin(time), gaps, signed, k);
    }
  }

  /** ... and then the first segment of the text. */
  lemma FifthCall(s: seq<Byte>, a: nat, ops: seq<Op>, n: nat, time: Time, signed: bool)
    requires 5 < a < n && Strnlen(s, 64) > 0
    ensures var e := Scripted(Begin(time), TextScript(s, a, ops, n), signed)[5];
            && e.sched == Sched(5, 5, 0) && FlagsOf(e.st) == ONLY_TEXT
            && e.st.rt == FirstText(s, signed).(idx := NextRtIdx(0, FirstText(s, signed).segments))
  {
    var gaps := TextScript(s, a, ops, n);
    EarlyCalls(s, a, ops, n, time, signed, 4);
    TextTransmission(Scripted(Begin(time), gaps, signed)[4], signed);
    ScriptedCall(Begin(time), gaps, signed, 5);
  }

  lemma BetweenOne(gaps: seq<seq<Op>>, a: nat)
    requires 0 < a < |gaps|
    ensures Between(gaps, a - 1, a) == gaps[a]
  {
    assert Between(gaps, a - 1, a - 1) == [];
  }

  lemma AfterFlush(h: seq<Encoder>, gaps: seq<seq<Op>>, a: nat, signed: bool)
    requires IsRunWith(h, gaps, signed) && 0 < a < |h| && QuietFrom(gaps, a) && h[a].st.rt.isSet
    ensures LeftAlone(TextService, h, a, signed)
  {
    forall i | a < i < |h|
      ensures Untouched(TextService, h, i, signed)
    {
      assert Configured(h, gaps, i, signed);
      SameIsReflexive(TextService, Transmit(h[i - 1], signed).1.st);
    }
  }

  /** After setter calls that end with a text, the text is on. */
  lemma TextIsSet(h: seq<Encoder>, gaps: seq<seq<Op>>, a: nat, signed: bool)
    requires IsRunWith(h, gaps, signed) && 0 < a < |h| && |gaps[a]| > 0
    requires SetsText(gaps[a][|gaps[a]| - 1])
    ensures h[a].st.rt.isSet
  {
    assert Configured(h, gaps, a, signed);
  }

  ghost predicate SetsText(op: Op) {
    op.SetRt? && op.rt.Text? && Strnlen(op.rt.bytes, 64) > 0
  }

  lemma FlushIsBetween(h: seq<Encoder>, gaps: seq<seq<Op>>, a: nat, signed: bool)
    requires IsRunWith(h, gaps, signed) && 0 < a < |h| && SendsText(h[a - 1]) && |gaps[a]| > 0
    requires SetsText(gaps[a][|gaps[a]| - 1]) && LeftAlone(TextService, h, a, signed)
    ensures SetBetween(h, gaps, signed, a - 1, a, |gaps[a]| - 1, gaps[a][|gaps[a]| - 1].rt.bytes)
  {
    BetweenOne(gaps, a);
  }

  lemma OneFlush(r: RadioText, t: seq<Byte>, signed: bool)
    requires r.isSet && Strnlen(t, 64) > 0
    ensures Flips(r, [SetRt(Text(t), true)], signed) == 1
  {
    assert [SetRt(Text(t), true)][..0] == [];
  }

  lemma ScriptIsQuiet(s: seq<Byte>, a: nat, ops: seq<Op>, n: nat)
    requires 0 < a < n
    ensures QuietFrom(TextScript(s, a, ops, n), a) && TextScript(s, a, ops, n)[a] == ops
  {
  }

  /** A scripted run in which call a - 1 sends RadioText just before the setters are called. */
  lemma ScriptedFlush(s: seq<Byte>, a: nat, ops: seq<Op>, n: nat, time: Time, signed: bool)
    requires 0 < a < n && |ops| > 0 && SetsText(ops[|ops| - 1])
    requires SendsText(Scripted(Begin(time), TextScript(s, a, ops, n), signed)[a - 1])
    ensures var gaps := TextScript(s, a, ops, n);
            var h := Scripted(Begin(time), gaps, signed);
            SetBetween(h, gaps, signed, a - 1, a, |ops| - 1, ops[|ops| - 1].rt.bytes)
  {
    var gaps := TextScript(s, a, ops, n);
    ScriptedIsRun(time, gaps, signed);
    ScriptIsQuiet(s, a, ops, n);
    FlushInRun(Scripted(Begin(time), gaps, signed), gaps, a, signed);
  }

  lemma FlushInRun(h: seq<Encoder>, gaps: seq<seq<Op>>, a: nat, signed: bool)
    requires IsRunWith(h, gaps, signed) && 0 < a < |h| && SendsText(h[a - 1]) && QuietFrom(gaps, a)
    requires |gaps[a]| > 0 && SetsText(gaps[a][|gaps[a]| - 1])
    ensures SetBetween(h, gaps, signed, a - 1, a, |gaps[a]| - 1, gaps[a][|gaps[a]| - 1].rt.bytes)
  {
    TextIsSet(h, gaps, a, signed);
    AfterFlush(h, gaps, a, signed);
    FlushIsBetween(h, gaps, a, signed);
  }

  lemma TextIsOnAir(s: seq<Byte>, a: nat, ops: seq<Op>, n: nat, time: Time, signed: bool)
    requires 4 < a < n && Strnlen(s, 64) > 0
    ensures SendsText(Scripted(Begin(time), TextScript(s, a, ops, n), signed)[4])
  {
    EarlyCalls(s, a, ops, n, time, signed, 4);
    TextTransmission(Scripted(Begin(time), TextScript(s, a, ops, n), signed)[4], signed);
  }

  lemma FlushRunIsBetween(s: seq<Byte>, t: seq<Byte>, time: Time, signed: bool)
    requires Strnlen(s, 64) > 0 && Strnlen(t, 64) > 0
    ensures var gaps := TextScript(s, 5, [SetRt(Text(t), true)], 78);
            SetBetween(Scripted(Begin(time), gaps, signed), gaps, signed, 4, 5, 0, t)
  {
    TextIsOnAir(s, 5, [SetRt(Text(t), true)], 78, time, signed);
    ScriptedFlush(s, 5, [SetRt(Text(t), true)], 78, time, signed);
  }

  lemma FlushRunFlips(s: seq<Byte>, t: seq<Byte>, time: Time, signed: bool)
    requires Strnlen(s, 64) > 0 && Strnlen(t, 64) > 0
    ensures var gaps := TextScript(s, 5, [SetRt(Text(t), true)], 78);
            FlipsBetween(Scripted(Begin(time), gaps, signed), gaps, signed, 4, 5) == 1
  {
    var ops := [SetRt(Text(t), true)];
    var gaps := TextScript(s, 5, ops, 78);
    var e := Scripted(Begin(time), gaps, signed)[4];
    EarlyCalls(s, 5, ops, 78, time, signed, 4);
    TextTransmission(e, signed);
    BetweenOne(gaps, 5);
    ScriptIsQuiet(s, 5, ops, 78);
    OneFlush(Transmit(e, signed).1.st.rt, t, signed);
  }

  /** The runs that the flush theorem is about exist, for any two texts: one is on air when the
      other is set with a flush, and 36 groups follow. */
  lemma FlushRunsExist(s: seq<Byte>, t: seq<Byte>, time: Time, signed: bool)
    requires Strnlen(s, 64) > 0 && Strnlen(t, 64) > 0 && time.Now?
    ensures exists h, gaps ::
      && SetBetween(h, gaps, signed, 4, 5, 0, t) && FlipsBetween(h, gaps, signed, 4, 5) == 1
      && 5 + 72 < |h| && Others(Calls(h[5..]), 72) >= 36
  {
    FlushRunIsBetween(s, t, time, signed);
    FlushRunFlips(s, t, time, signed);
    ManyOthers(Begin(time), TextScript(s, 5, [SetRt(Text(t), true)], 78), signed, 5, 36);
  }
}
