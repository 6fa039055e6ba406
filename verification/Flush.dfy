/** The A/B flag over whole runs: what a display shows after the text has been set any number
    of times, with and without a flush, between two RadioText groups. */
module Flush {
  import opened Config
  import opened Groups
  import opened Receiver
  import opened Scheduler
  import opened Machine
  import opened Delivery
  import opened Displays

  // ---------- Rows of setter calls ----------

  function StepRt(r: RadioText, op: Op, signed: bool): RadioText {
    if op.SetRt? then ApplyRt(r, op.rt, op.flushRt, signed) else r
  }

  /** The text after a row of setter calls. */
  function RtAfter(r: RadioText, ops: seq<Op>, signed: bool): RadioText {
    if |ops| == 0 then r else StepRt(RtAfter(r, ops[..|ops| - 1], signed), ops[|ops| - 1], signed)
  }

  /** A call that sets a text with a flush on top of another text. */
  predicate Flushes(r: RadioText, op: Op) {
    op.SetRt? && op.flushRt && op.rt.Text? && Strnlen(op.rt.bytes, 64) > 0 && r.isSet
  }

  function Flips(r: RadioText, ops: seq<Op>, signed: bool): nat {
    if |ops| == 0 then 0
    else
      var before := ops[..|ops| - 1];
      Flips(r, before, signed) + if Flushes(RtAfter(r, before, signed), ops[|ops| - 1]) then 1 else 0
  }

  lemma {:induction false} RtOfAll(st: State, ops: seq<Op>, signed: bool)
    ensures ApplyAll(st, ops, signed).rt == RtAfter(st.rt, ops, signed)
  {
    if |ops| > 0 { RtOfAll(st, ops[..|ops| - 1], signed); }
  }

  /** Exactly the calls that set a text with a flush on top of another one flip the A/B flag,
      whatever is called in between. */
  lemma {:induction false} FlushParity(r: RadioText, ops: seq<Op>, signed: bool)
    ensures RtAfter(r, ops, signed).flush == (r.flush != (Flips(r, ops, signed) % 2 == 1))
  {
    if |ops| > 0 { FlushParity(r, ops[..|ops| - 1], signed); }
  }

  lemma {:induction false} RtConcat(r: RadioText, a: seq<Op>, b: seq<Op>, signed: bool)
    ensures RtAfter(r, a + b, signed) == RtAfter(RtAfter(r, a, signed), b, signed)
  {
    if |b| == 0 {
      assert a + b == a;
    } else {
      assert (a + b)[..|a + b| - 1] == a + b[..|b| - 1];
      RtConcat(r, a, b[..|b| - 1], signed);
    }
  }

  /** The last call for the text decides. */
  lemma {:induction false} LastTextStays(r: RadioText, ops: seq<Op>, m: nat, signed: bool)
    requires m < |ops| && forall k :: m < k < |ops| ==> !ops[k].SetRt?
    ensures RtAfter(r, ops, signed) == StepRt(RtAfter(r, ops[..m], signed), ops[m], signed)
  {
    var before := ops[..|ops| - 1];
    if m < |ops| - 1 {
      LastTextStays(r, before, m, signed);
      assert before[..m] == ops[..m];
    }
  }

  // ---------- Runs ----------

  /** A run from the initialisation on: gaps[k] are the setter calls just before call k. */
  ghost predicate IsRunWith(h: seq<Encoder>, gaps: seq<seq<Op>>, signed: bool) {
    && IsHistory(h, signed) && 0 < |h| == |gaps|
    && h[0].sched == Sched(0, 0, 0) && h[0].vcode == 0
    && h[0].st == ApplyAll(InitialState(), gaps[0], signed)
    && forall k :: 0 < k < |h| ==> Configured(h, gaps, k, signed)
  }

  ghost predicate Configured(h: seq<Encoder>, gaps: seq<seq<Op>>, k: nat, signed: bool)
    requires 0 < k < |h| == |gaps|
  {
    h[k].st == ApplyAll(Transmit(h[k - 1], signed).1.st, gaps[k], signed)
  }

  lemma RunsHaveSetters(h: seq<Encoder>, gaps: seq<seq<Op>>, signed: bool)
    requires IsRunWith(h, gaps, signed)
    ensures Initial(h[0], signed) && OnlySetters(h, signed)
  {
    forall i | 0 < i < |h|
      ensures SetBefore(h, i, signed)
    {
      assert Configured(h, gaps, i, signed);
    }
  }

  /** The setter calls between calls i and j. */
  function Between(gaps: seq<seq<Op>>, i: nat, j: nat): seq<Op>
    requires i <= j < |gaps|
  {
    if i == j then [] else Between(gaps, i, j - 1) + gaps[j]
  }

  ghost predicate SendsText(e: Encoder) {
    CallOf(e).Kind() == Picked(Text2A)
  }

  /** The receiver of the text ignores s. */
  ghost predicate Ignored(s: Sent) {
    s.Sent? ==> !IsKind(s.msg, Text2A)
  }

  /** Other groups leave the text and the receiver of it alone. */
  lemma OtherGroups(e: Encoder, signed: bool)
    requires !SendsText(e)
    ensures Transmit(e, signed).1.st.rt == e.st.rt
    ensures Ignored(Transmit(e, signed).0)
  {
    match CallOf(e).Kind()
    case NoGroup =>
    case Picked(k) => OtherKind(k, e, signed, Text2A);
  }

  lemma {:induction false} IgnoredRow(rx: Rx, s: seq<Sent>, i: nat, j: nat)
    requires i <= j <= |s| && forall k :: i <= k < j ==> Ignored(s[k])
    ensures ReceiveAll(TextService, rx, s, j) == ReceiveAll(TextService, rx, s, i)
  {
    if i < j { IgnoredRow(rx, s, i, j - 1); }
  }

  lemma OtherIsIgnored(h: seq<Encoder>, signed: bool, k: nat)
    requires k < |h| && !SendsText(h[k])
    ensures Ignored(Broadcast(h, signed)[k])
  {
    OtherGroups(h[k], signed);
  }

  /** Between two RadioText groups the receiver does not change, ... */
  lemma ReceiverBetween(h: seq<Encoder>, signed: bool, rx: Rx, i: nat, j: nat)
    requires i < j < |h| && forall k :: i < k < j ==> !SendsText(h[k])
    ensures ReceiveRun(TextService, rx, h, j, signed) == ReceiveRun(TextService, rx, h, i + 1, signed)
  {
    var s := Broadcast(h, signed);
    forall k | i < k < j
      ensures Ignored(s[k])
    {
      OtherIsIgnored(h, signed, k);
    }
    IgnoredRow(rx, s, i + 1, j);
  }

  lemma TextStep(h: seq<Encoder>, gaps: seq<seq<Op>>, signed: bool, k: nat)
    requires k + 1 < |h| == |gaps| && Configured(h, gaps, k + 1, signed) && !SendsText(h[k])
    ensures h[k + 1].st.rt == RtAfter(h[k].st.rt, gaps[k + 1], signed)
  {
    OtherGroups(h[k], signed);
    RtOfAll(Transmit(h[k], signed).1.st, gaps[k + 1], signed);
  }

  /** ... and the text changes by setter calls only: r is the text that call i has left. */
  lemma {:induction false} TextFrom(h: seq<Encoder>, gaps: seq<seq<Op>>, signed: bool, r: RadioText, i: nat, j: nat)
    requires IsRunWith(h, gaps, signed) && i < j < |h|
    requires h[i + 1].st.rt == RtAfter(r, gaps[i + 1], signed)
    requires forall k :: i < k < j ==> !SendsText(h[k])
    ensures h[j].st.rt == RtAfter(r, Between(gaps, i, j), signed)
  {
    RtConcat(r, Between(gaps, i, j - 1), gaps[j], signed);
    if i + 1 < j {
      TextFrom(h, gaps, signed, r, i, j - 1);
      assert Configured(h, gaps, j, signed);
      TextStep(h, gaps, signed, j - 1);
    } else {
      assert Between(gaps, i, i) == [];
    }
  }

  lemma TextBetween(h: seq<Encoder>, gaps: seq<seq<Op>>, signed: bool, i: nat, j: nat)
    requires IsRunWith(h, gaps, signed) && i < j < |h|
    requires forall k :: i < k < j ==> !SendsText(h[k])
    ensures h[j].st.rt == RtAfter(Transmit(h[i], signed).1.st.rt, Between(gaps, i, j), signed)
  {
    assert Configured(h, gaps, i + 1, signed);
    RtOfAll(Transmit(h[i], signed).1.st, gaps[i + 1], signed);
    TextFrom(h, gaps, signed, Transmit(h[i], signed).1.st.rt, i, j);
  }

  /** A RadioText group shows the receiver the flag. */
  lemma FlagIsSeen(e: Encoder, rx: Rx, signed: bool)
    requires Healthy(e.st, signed) && SendsText(e)
    ensures ReceiveCall(TextService, rx, e, signed).flag == Seen(e.st.rt.flush)
    ensures Transmit(e, signed).1.st.rt == e.st.rt.(idx := Transmit(e, signed).1.st.rt.idx)
  {
    TextGroupFits(e, signed);
  }

  lemma {:induction false} SplitAll(sv: Service, rx: Rx, s: seq<Sent>, j: nat, n: nat)
    requires j + n <= |s|
    ensures ReceiveAll(sv, rx, s, j + n) == ReceiveAll(sv, ReceiveAll(sv, rx, s, j), s[j..], n)
  {
    if n > 0 {
      SplitAll(sv, rx, s, j, n - 1);
      assert s[j..][n - 1] == s[j + n - 1];
    }
  }

  lemma ReceiveSplit(sv: Service, rx: Rx, h: seq<Encoder>, j: nat, n: nat, signed: bool)
    requires j + n <= |h|
    ensures ReceiveRun(sv, rx, h, j + n, signed) ==
            ReceiveRun(sv, ReceiveRun(sv, rx, h, j, signed), h[j..], n, signed)
  {
    SplitAll(sv, rx, Broadcast(h, signed), j, n);
    assert Broadcast(h[j..], signed) == Broadcast(h, signed)[j..];
  }

  /** Call i sends RadioText, the text is set for the last time before call j, without another
      RadioText group in between, and is left alone from then on. */
  ghost predicate SetBetween(h: seq<Encoder>, gaps: seq<seq<Op>>, signed: bool, i: nat, j: nat, m: nat, s: seq<Byte>) {
    && IsRunWith(h, gaps, signed) && i < j < |h|
    && SendsText(h[i]) && (forall k :: i < k < j ==> !SendsText(h[k]))
    && m < |Between(gaps, i, j)|
    && Between(gaps, i, j)[m].SetRt? && Between(gaps, i, j)[m].rt == Text(s) && Strnlen(s, 64) > 0
    && (forall k :: m < k < |Between(gaps, i, j)| ==> !Between(gaps, i, j)[k].SetRt?)
    && LeftAlone(TextService, h, j, signed)
  }

  /** How often the flag flips between calls i and j. */
  ghost function FlipsBetween(h: seq<Encoder>, gaps: seq<seq<Op>>, signed: bool, i: nat, j: nat): nat
    requires i <= j < |gaps| && i < |h|
  {
    Flips(Transmit(h[i], signed).1.st.rt, Between(gaps, i, j), signed)
  }

  /** At call j the receiver knows the flag exactly when it has flipped an even number of times. */
  lemma FlagAtCall(h: seq<Encoder>, gaps: seq<seq<Op>>, signed: bool, rx: Rx, i: nat, j: nat, m: nat, s: seq<Byte>)
    requires SetBetween(h, gaps, signed, i, j, m, s)
    ensures ReceiveRun(TextService, rx, h, j, signed).flag == Seen(h[j].st.rt.flush) <==>
            FlipsBetween(h, gaps, signed, i, j) % 2 == 0
    ensures ReceiveRun(TextService, rx, h, j, signed).flag.Seen?
  {
    RunsHaveSetters(h, gaps, signed);
    RunsAreHealthy(h, signed, i);
    FlagIsSeen(h[i], ReceiveRun(TextService, rx, h, i, signed), signed);
    ReceiveStep(TextService, rx, h, i, signed);
    ReceiverBetween(h, signed, rx, i, j);
    TextBetween(h, gaps, signed, i, j);
    FlushParity(Transmit(h[i], signed).1.st.rt, Between(gaps, i, j), signed);
  }

  /** The text at call j is what the last call for it has made. */
  lemma TextAtCall(h: seq<Encoder>, gaps: seq<seq<Op>>, signed: bool, i: nat, j: nat, m: nat, s: seq<Byte>)
    returns (r: RadioText, flush: bool)
    requires SetBetween(h, gaps, signed, i, j, m, s)
    ensures h[j].st.rt == ApplyRt(r, Text(s), flush, signed)
  {
    var ops, r0 := Between(gaps, i, j), Transmit(h[i], signed).1.st.rt;
    TextBetween(h, gaps, signed, i, j);
    LastTextStays(r0, ops, m, signed);
    r, flush := RtAfter(r0, ops[..m], signed), ops[m].flushRt;
  }

  /** What the display should have beyond the sent part of the text after the calls: nothing if
      the flag has flipped an odd number of times, and otherwise what it has. */
  ghost function Rest(h: seq<Encoder>, gaps: seq<seq<Op>>, signed: bool, rx: Rx, i: nat, j: nat): (r: seq<nat>)
    requires i <= j < |gaps| && j < |h|
    ensures |r| == 64
  {
    if FlipsBetween(h, gaps, signed, i, j) % 2 == 1 then seq(64, _ => BLANK)
    else Screen(ReceiveRun(TextService, rx, h, j, signed), 64)
  }

  /** A/B semantics over whole runs. Call i sends RadioText; before the next RadioText group other
      processes call the setters in any way, the last text being s; then the text is left alone
      for 36 groups. A receiver that has listened from any state on shows s exactly as it was
      given if and only if no character that is sent is cleared, and beyond the sent part the
      display was as it should be, or is made blank by an odd number of flushes. */
  lemma FlushShowsNewTextIff(h: seq<Encoder>, gaps: seq<seq<Op>>, signed: bool, rx: Rx,
                             i: nat, j: nat, m: nat, s: seq<Byte>, n: nat)
    requires SetBetween(h, gaps, signed, i, j, m, s)
    requires j + n < |h| && Others(Calls(h[j..]), n) >= 36
    ensures var len := Strnlen(s, 64);
            Screen(ReceiveRun(TextService, rx, h, j + n, signed), 64) == Given(s, len) <==>
            && (forall c :: 0 <= c < len && c < SentLength(len) ==> !Cleared(s[c], signed))
            && (forall c :: SentLength(len) <= c < 64 ==> Rest(h, gaps, signed, rx, i, j)[c] == Given(s, len)[c])
  {
    var rxj := ReceiveRun(TextService, rx, h, j, signed);
    RunsHaveSetters(h, gaps, signed);
    var r, flush := TextAtCall(h, gaps, signed, i, j, m, s);
    StretchIsSteady(TextService, h, signed, j);
    TextIsShownIff(h[j..], rxj, signed, n, r, s, flush);
    ReceiveSplit(TextService, rx, h, j, n, signed);
    RestIsResidue(h, gaps, signed, rx, i, j, m, s);
  }

  lemma RestIsResidue(h: seq<Encoder>, gaps: seq<seq<Op>>, signed: bool, rx: Rx, i: nat, j: nat, m: nat, s: seq<Byte>)
    requires SetBetween(h, gaps, signed, i, j, m, s)
    ensures Rest(h, gaps, signed, rx, i, j) ==
            Residues(ReceiveRun(TextService, rx, h, j, signed), h[j].st.rt.flush)
  {
    FlagAtCall(h, gaps, signed, rx, i, j, m, s);
  }

  /** In particular, after one flush, or any odd number of them, exactly the clean texts that fit
      are shown as given, with no residue of the old one however long that was. */
  lemma FlushShowsNewText(h: seq<Encoder>, gaps: seq<seq<Op>>, signed: bool, rx: Rx,
                          i: nat, j: nat, m: nat, s: seq<Byte>, n: nat)
    requires SetBetween(h, gaps, signed, i, j, m, s)
    requires j + n < |h| && Others(Calls(h[j..]), n) >= 36
    requires FlipsBetween(h, gaps, signed, i, j) % 2 == 1
    ensures var len := Strnlen(s, 64);
            Screen(ReceiveRun(TextService, rx, h, j + n, signed), 64) == Given(s, len) <==>
            Fits64(s, len) && Clean(s, len, signed)
  {
    FlushShowsNewTextIff(h, gaps, signed, rx, i, j, m, s, n);
    BlankRestIff(s, Strnlen(s, 64), signed);
  }
}
