/** Concrete inputs at which the code misses its evident intent, and runs that attain the
    bounds. */
module Limits {
  import opened Config
  import opened Groups
  import opened Clock
  import opened Scheduler
  import opened Machine
  import opened Delivery
  import opened Displays
  import opened Flush
  import opened Scripts
  import opened Trim
  import opened DynPs
  import opened Mpx

  // ---------- Inputs that miss the intent ----------

  /** Of 64 times the letter A a fresh receiver shows four. */
  lemma LongTextIsCut(h: seq<Encoder>, signed: bool, n: nat, r: RadioText, flush: bool)
    requires Steady(TextService, h, signed) && n < |h| && Others(Calls(h), n) >= 36
    requires h[0].st.rt == ApplyRt(r, Text(seq(64, _ => 0x41)), flush, signed)
    ensures Screen(ReceiveRun(TextService, Rx(Unseen, map[]), h, n, signed), 64) ==
            seq(64, i => if i < 4 then 0x41 else BLANK)
  {
    var s: seq<Byte> := seq(64, _ => 0x41);
    StrnlenIs(s, 64, 64);
    SegmentsOfText(r, s, flush, signed, h[0].st);
    forall i | 0 <= i < 64
      ensures Screen(ReceiveRun(TextService, Rx(Unseen, map[]), h, n, signed), 64)[i] == if i < 4 then 0x41 else BLANK
    {
      TextIsDelivered(h, Rx(Unseen, map[]), signed, n, i);
    }
  }

  /** Such a run exists: the text is set before the first call. */
  lemma LongTextOnAir(time: Time, signed: bool)
    requires time.Now?
    ensures exists h, n: nat ::
      && Steady(TextService, h, signed) && Initial(h[0], signed) && n < |h|
      && Screen(ReceiveRun(TextService, Rx(Unseen, map[]), h, n, signed), 64) ==
         seq(64, i => if i < 4 then 0x41 else BLANK)
  {
    var s: seq<Byte> := seq(64, _ => 0x41);
    StrnlenIs(s, 64, 64);
    var e := BeginWith(s, time, signed);
    ReadyWith(s, time, signed);
    SteadyStretchesExist(TextService, e, signed, 36);
    var h, n: nat :| Steady(TextService, h, signed) && h[0] == e && n < |h| && Others(Calls(h), n) >= 36;
    LongTextIsCut(h, signed, n, InitialState().rt, true);
  }

  /** The encoder before its first call, after a text has been set. */
  function BeginWith(s: seq<Byte>, time: Time, signed: bool): Encoder {
    Begin(time).(st := ApplyAll(InitialState(), [SetRt(Text(s), true)], signed))
  }

  lemma ReadyWith(s: seq<Byte>, time: Time, signed: bool)
    requires Strnlen(s, 64) > 0
    ensures var e := BeginWith(s, time, signed);
            && Ready(TextService, e, signed) && Initial(e, signed)
            && e.st.rt == ApplyRt(InitialState().rt, Text(s), true, signed)
  {
    OneCall(InitialState(), SetRt(Text(s), true), signed);
    AllSettersKeepHealth(InitialState(), [SetRt(Text(s), true)], signed);
  }

  /** A line feed is not shown, in a text of three characters. */
  lemma LineFeedIsLost(h: seq<Encoder>, rx: Rx, signed: bool, n: nat, r: RadioText, flush: bool)
    requires Steady(TextService, h, signed) && n < |h| && Others(Calls(h), n) >= 36
    requires h[0].st.rt == ApplyRt(r, Text([0x41, 0x0A, 0x42]), flush, signed)
    ensures Screen(ReceiveRun(TextService, rx, h, n, signed), 64)[1] == 0
  {
    var s: seq<Byte> := [0x41, 0x0A, 0x42];
    StrnlenIs(s, 64, 3);
    SegmentsOfText(r, s, flush, signed, h[0].st);
    TextIsDelivered(h, rx, signed, n, 1);
  }

  /** Eight times the letter A. */
  function EightLetters(): seq<Byte> {
    seq(8, _ => 0x41)
  }

  /** The letter B, set twice with a flush. */
  function TwoFlushes(): seq<Op> {
    [SetRt(Text([0x42]), true), SetRt(Text([0x42]), true)]
  }

  lemma TwoFlips(r: RadioText, signed: bool)
    requires r.isSet
    ensures Flips(r, TwoFlushes(), signed) == 2
  {
    var ops := TwoFlushes();
    StrnlenIs([0x42], 64, 1);
    assert ops[..1] == [ops[0]];
    OneFlush(r, [0x42], signed);
    assert RtAfter(r, ops[..1], signed).isSet by { assert ops[..1][..0] == []; }
  }

  /** A RadioText group puts its characters on the display. */
  lemma SegmentIsShown(e: Encoder, rx: Rx, signed: bool)
    requires Healthy(e.st, signed) && SendsText(e)
    ensures Screen(ReceiveCall(TextService, rx, e, signed), 64)[4 * e.st.rt.idx] == e.st.rt.text[4 * e.st.rt.idx]
  {
    TextGroupFits(e, signed);
    ScreenAt(ReceiveCall(TextService, rx, e, signed), e.st.rt.idx);
  }

  lemma ScreenAt(rx: Rx, a: nat)
    requires a < 16 && a in rx.got
    ensures Screen(rx, 64)[4 * a] == FourChars(rx.got[a])[0]
  {
    assert 4 * a / 4 == a && 4 * a % 4 == 0;
  }

  lemma LettersAreStored(signed: bool)
    ensures Strnlen(EightLetters(), 64) == 8
    ensures var r := FirstText(EightLetters(), signed); r.isSet && r.text[4] == 0x41 && NextRtIdx(0, r.segments) == 1
  {
    StrnlenIs(EightLetters(), 64, 8);
  }

  /** Before two flushes come, the second half of the letters is on the display. */
  lemma LettersOnScreen(time: Time, signed: bool)
    ensures var h := Scripted(Begin(time), TextScript(EightLetters(), 6, TwoFlushes(), 79), signed);
            && SendsText(h[5]) && Transmit(h[5], signed).1.st.rt.isSet
            && Screen(ReceiveRun(TextService, Rx(Unseen, map[]), h, 6, signed), 64)[4] == 0x41
  {
    var s, gaps := EightLetters(), TextScript(EightLetters(), 6, TwoFlushes(), 79);
    var h := Scripted(Begin(time), gaps, signed);
    LettersAreStored(signed);
    FifthCall(s, 6, TwoFlushes(), 79, time, signed);
    TextTransmission(h[5], signed);
    ScriptedIsRun(time, gaps, signed);
    RunsHaveSetters(h, gaps, signed);
    RunsAreHealthy(h, signed, 5);
    ReceiveStep(TextService, Rx(Unseen, map[]), h, 5, signed);
    SegmentIsShown(h[5], ReceiveRun(TextService, Rx(Unseen, map[]), h, 5, signed), signed);
  }

  lemma TwoFlushesAreBetween(time: Time, signed: bool)
    ensures var gaps := TextScript(EightLetters(), 6, TwoFlushes(), 79);
            SetBetween(Scripted(Begin(time), gaps, signed), gaps, signed, 5, 6, 1, [0x42])
  {
    LettersOnScreen(time, signed);
    StrnlenIs([0x42], 64, 1);
    ScriptedFlush(EightLetters(), 6, TwoFlushes(), 79, time, signed);
  }

  lemma FlagIsAsItWas(time: Time, signed: bool)
    ensures var gaps := TextScript(EightLetters(), 6, TwoFlushes(), 79);
            FlipsBetween(Scripted(Begin(time), gaps, signed), gaps, signed, 5, 6) == 2
  {
    var gaps := TextScript(EightLetters(), 6, TwoFlushes(), 79);
    LettersOnScreen(time, signed);
    BetweenOne(gaps, 6);
    TwoFlips(Transmit(Scripted(Begin(time), gaps, signed)[5], signed).1.st.rt, signed);
  }

  /** Old text stays: eight letters A are on air when the letter B is set twice with a flush before
      the next RadioText group. The flag is as it was, and however long one waits, the second half
      of the old letters remains behind the B. */
  lemma OldTextStays(time: Time, signed: bool)
    requires time.Now?
    ensures exists h, gaps ::
      && SetBetween(h, gaps, signed, 5, 6, 1, [0x42]) && FlipsBetween(h, gaps, signed, 5, 6) == 2
      && 6 + 72 < |h| && Others(Calls(h[6..]), 72) >= 36
      && Screen(ReceiveRun(TextService, Rx(Unseen, map[]), h, 6 + 72, signed), 64) != Given([0x42], 1)
  {
    var gaps := TextScript(EightLetters(), 6, TwoFlushes(), 79);
    var h := Scripted(Begin(time), gaps, signed);
    TwoFlushesAreBetween(time, signed);
    FlagIsAsItWas(time, signed);
    ManyOthers(Begin(time), gaps, signed, 6, 36);
    LettersOnScreen(time, signed);
    LettersBehindB(h, gaps, signed);
  }

  /** A letter that is behind the new text and was not cleared makes the display wrong. */
  lemma RestOfLetters(h: seq<Encoder>, gaps: seq<seq<Op>>, signed: bool, rx: Rx, i: nat, j: nat, m: nat, s: seq<Byte>,
                      n: nat, c: nat)
    requires SetBetween(h, gaps, signed, i, j, m, s) && FlipsBetween(h, gaps, signed, i, j) % 2 == 0
    requires j + n < |h| && Others(Calls(h[j..]), n) >= 36
    requires SentLength(Strnlen(s, 64)) <= c < 64
    requires Screen(ReceiveRun(TextService, rx, h, j, signed), 64)[c] != Given(s, Strnlen(s, 64))[c]
    ensures Screen(ReceiveRun(TextService, rx, h, j + n, signed), 64) != Given(s, Strnlen(s, 64))
  {
    FlushShowsNewTextIff(h, gaps, signed, rx, i, j, m, s, n);
    assert Rest(h, gaps, signed, rx, i, j)[c] != Given(s, Strnlen(s, 64))[c];
  }

  lemma LettersBehindB(h: seq<Encoder>, gaps: seq<seq<Op>>, signed: bool)
    requires SetBetween(h, gaps, signed, 5, 6, 1, [0x42]) && FlipsBetween(h, gaps, signed, 5, 6) == 2
    requires 6 + 72 < |h| && Others(Calls(h[6..]), 72) >= 36
    requires Screen(ReceiveRun(TextService, Rx(Unseen, map[]), h, 6, signed), 64)[4] == 0x41
    ensures Screen(ReceiveRun(TextService, Rx(Unseen, map[]), h, 6 + 72, signed), 64) != Given([0x42], 1)
  {
    StrnlenIs([0x42], 64, 1);
    assert Given([0x42], 1)[4] == BLANK;
    RestOfLetters(h, gaps, signed, Rx(Unseen, map[]), 5, 6, 1, [0x42], 72, 4);
  }

  /** Minute 45 is read as 13. */
  lemma MinuteIsLost(st: State, vcode: U4, utc: Tm, localHour: int)
    requires 0 <= utc.hour < 24 && utc.min == 45
    ensures ReadMinute(Build4A(st, vcode, utc, localHour).msg) == 13
  {
    ClockGroupDecodes(st, vcode, utc, localHour);
  }

  /** An hour before midnight, a receiver takes the zone one hour east for one seven hours west. */
  lemma OffsetIsWrong(st: State, vcode: U4, utc: Tm)
    requires utc.hour == 23
    ensures ReadOffset(Build4A(st, vcode, utc, LocalHour(23, 1)).msg) == -14
  {
    OffsetIsRead(st, vcode, utc, LocalHour(23, 1), -23);
  }

  /** The formula is a day ahead on 1 March 2100. */
  lemma FormulaMissesMarch2100()
    ensures Mjd(1, 3, 200) == DayCount(Date(1, 3, 2100)) + 1
  {
    FormulaError(Date(1, 3, 2100));
  }

  /** "a" is taken for white space. */
  lemma LetterIsRejected()
    ensures Sanitized([0x61]) == Rejected(-2)
  {
  }

  /** " ab" becomes "a". */
  lemma LastLetterIsLost()
    ensures Sanitized([0x20, 0x61, 0x62]) == Cleaned([0x61])
  {
    var s: seq<Byte> := [0x20, 0x61, 0x62];
    assert Trailing(s) == 0;
    assert s[1..][0] == 0x61;
    assert Leading(s) == 1;
    assert Trimmed(s) == [0x61, 0x62];
  }

  /** After a name of one line feed has been set as PS, the fixed name of dynamic PS is empty, and
      the text stays on the display in its place. */
  lemma FixedNameIsLost(n: Name, names: seq<Name>, signed: bool)
    requires var ps := ApplyPs(n, Text([0x0A]), signed).text;
             IsScrolled(Scroll([0x61], ps[..Strnlen(ps, 8)], 1), names, signed) && |names| > 2
    ensures ApplyPs(n, Text([0x0A]), signed).isSet
    ensures names[1].text == names[2].text == NameField([0x61], 1, signed)
  {
    var ps := ApplyPs(n, Text([0x0A]), signed).text;
    FixedNameIsEmptyIff(n, [0x0A], signed);
    var d := Scroll([0x61], ps[..Strnlen(ps, 8)], 1);
    PsScrolls(d, names, signed, 0);
    PsScrolls(d, names, signed, 1);
    assert Chunk(d.text, 0) == [0x61];
  }

  /** A PS of A, a line feed and B is on air as A, zero, B; dynamic PS brings back the A only. */
  lemma FixedNameIsCut(n: Name, signed: bool)
    ensures var ps := ApplyPs(n, Text([0x41, 0x0A, 0x42]), signed).text;
            ps[0] == 0x41 && ps[1] == 0 && ps[2] == 0x42 && ps[..Strnlen(ps, 8)] == [0x41]
    ensures NameField([0x41], 1, signed) != ApplyPs(n, Text([0x41, 0x0A, 0x42]), signed).text
  {
    StrnlenIs([0x41, 0x0A, 0x42], 8, 3);
    var ps := ApplyPs(n, Text([0x41, 0x0A, 0x42]), signed).text;
    StrnlenIs(ps, 8, 1);
    assert NameField([0x41], 1, signed)[2] == 0;
  }

  /** A low-pass filter that puts the sample before last in front. */
  function Delay(m: seq<real>, gain: real): (r: seq<real>)
    ensures |r| == |m|
  {
    if |m| == 4 then [m[2]] + m[1..] else m
  }

  const ONLY_MPX := Gains(0.0, 0.0, 1.0, 1.0)

  function DelaySetup(): Setup {
    Setup(ONLY_MPX, _ => 0.0, _ => 0.0, _ => 0.0, s => s, Delay, 1)
  }

  lemma DelayFits()
    ensures FiltersFit(DelaySetup())
  {
  }

  lemma OneSample(c: Setup, x: real, n: nat, mem: seq<real>)
    requires c.periodSize == 1 && |mem| == 4
    ensures NextMemory(c, Period(SsbLpf, ONLY_MPX, [x], [0.0]), n, mem) == mem[1..] + [x]
  {
    var s := Baseband(c, Period(SsbLpf, ONLY_MPX, [x], [0.0]), n);
    assert s[0] == BasebandOut(c, x, 0.0, n) == x;
    assert s == [x];
    assert Shifted(c, mem, s) == mem[1..] + [x];
  }

  lemma DelayedOutput(x: real, y: real, mem: seq<real>)
    requires |mem| == 4 && mem[3] == x && FiltersFit(DelaySetup())
    ensures Output(DelaySetup(), Period(SsbLpf, ONLY_MPX, [y], [0.0]), 1, mem, 0) == x
  {
    var c := DelaySetup();
    OneSample(c, y, 1, mem);
    var m := NextMemory(c, Period(SsbLpf, ONLY_MPX, [y], [0.0]), 1, mem);
    assert m[2] == x;
    assert c.convolve(m, 2.0) == Delay(m, 2.0);
  }

  /** The low-pass filter remembers: two histories of one sample each that differ in that sample
      alone lead to different next samples. */
  lemma FilterRemembers()
    ensures var c := DelaySetup();
            var p, q := Period(SsbLpf, ONLY_MPX, [1.0], [0.0]), Period(SsbLpf, ONLY_MPX, [2.0], [0.0]);
            var last, mem := Period(SsbLpf, ONLY_MPX, [0.0], [0.0]), [0.0, 0.0, 0.0, 0.0];
            && FiltersFit(c)
            && Output(c, last, 1, NextMemory(c, p, 0, mem), 0) != Output(c, last, 1, NextMemory(c, q, 0, mem), 0)
  {
    var c, mem := DelaySetup(), [0.0, 0.0, 0.0, 0.0];
    DelayFits();
    OneSample(c, 1.0, 0, mem);
    OneSample(c, 2.0, 0, mem);
    DelayedOutput(1.0, 0.0, mem[1..] + [1.0]);
    DelayedOutput(2.0, 0.0, mem[1..] + [2.0]);
  }

  // ---------- Runs that attain the bounds of the clock-group spacing ----------

  /** n + 1 calls under fixed flags, with a working clock. */
  ghost function FixedRun(f: Flags, n: nat): (r: seq<Call>)
    ensures |r| == n + 1
  {
    if n == 0 then [Call(Sched(0, 0, 0), f, true)]
    else var q := FixedRun(f, n - 1); q + [Call(q[n - 1].Next(), f, true)]
  }

  lemma {:induction false} FixedStep(f: Flags, n: nat, i: nat)
    requires i <= n
    ensures var r := FixedRun(f, n);
            && r[0] == Call(Sched(0, 0, 0), f, true) && r[i].f == f && r[i].clockWorks
            && (i > 0 ==> r[i].s == r[i - 1].Next())
  {
    if n > 0 { FixedStep(f, n - 1, if i < n then i else i - 1); }
  }

  lemma FixedIsRun(f: Flags, n: nat)
    ensures Starts(FixedRun(f, n)) && IsRun(FixedRun(f, n))
  {
    var r := FixedRun(f, n);
    FixedStep(f, n, 0);
    forall i | 0 < i < |r|
      ensures Chained(r, i)
    {
      FixedStep(f, n, i);
    }
    CountersStayInRange(r);
  }

  const NOTHING_SET := Flags(false, false, false, false)

  /** With nothing set, seconds have four groups. */
  lemma {:induction false} ShortSeconds(n: nat, i: nat)
    requires i <= n && i <= 577
    ensures var s := FixedRun(NOTHING_SET, n)[i].s;
            s.sec + 4 * (s.min - i) == i && (if i == 0 then s.sec == 0 else 1 <= s.sec <= 4)
  {
    FixedStep(NOTHING_SET, n, i);
    if i > 0 {
      ShortSeconds(n, i - 1);
      FixedIsRun(NOTHING_SET, n);
      FixedStep(NOTHING_SET, n, i - 1);
      CallEffect(FixedRun(NOTHING_SET, n)[i - 1]);
    }
  }

  lemma {:induction false} ShortSecondsAgain(n: nat, i: nat)
    requires 578 + i <= n && i <= 576
    ensures var s := FixedRun(NOTHING_SET, n)[578 + i].s; s.sec + 4 * (s.min - i) == i + 1 && 1 <= s.sec <= 4
  {
    FixedStep(NOTHING_SET, n, 578 + i);
    FixedIsRun(NOTHING_SET, n);
    if i == 0 {
      ShortSeconds(n, 577);
      FixedStep(NOTHING_SET, n, 577);
      CallEffect(FixedRun(NOTHING_SET, n)[577]);
    } else {
      ShortSecondsAgain(n, i - 1);
      FixedStep(NOTHING_SET, n, 577 + i);
      CallEffect(FixedRun(NOTHING_SET, n)[577 + i]);
    }
  }

  /** The minute reaches 721, and 576 groups between two clock groups occur, in runs of any length
      that is enough. */
  lemma ShortestSpacing(n: nat)
    requires n >= 578 + 576
    ensures exists r: seq<Call> ::
      && Starts(r) && IsRun(r) && |r| > n
      && r[577].IsClock() && r[577].clockWorks && r[577].s.min == 721
      && (forall i :: 578 <= i < 578 + 576 ==> !r[i].IsClock()) && r[578 + 576].IsClock()
  {
    FixedIsRun(NOTHING_SET, n);
    FirstClock(n);
    SecondClock(n);
  }

  lemma FirstClock(n: nat)
    requires n >= 577
    ensures var c := FixedRun(NOTHING_SET, n)[577]; c.IsClock() && c.clockWorks && c.s.min == 721
  {
    ShortSeconds(n, 577);
    FixedStep(NOTHING_SET, n, 577);
  }

  lemma SecondClock(n: nat)
    requires n >= 1154
    ensures forall i :: 578 <= i <= 1154 ==> (FixedRun(NOTHING_SET, n)[i].IsClock() <==> i == 1154)
  {
    forall i | 578 <= i <= 1154
      ensures FixedRun(NOTHING_SET, n)[i].IsClock() <==> i == 1154
    {
      ShortSecondsAgain(n, i - 578);
    }
  }

  lemma {:induction false} LongSeconds(n: nat, i: nat)
    requires i <= n && i <= 665
    ensures var s := FixedRun(ONLY_TEXT, n)[i].s;
            s.sec + 12 * (s.min - i) == i && (if i == 0 then s.sec == 0 else 1 <= s.sec <= 12)
  {
    FixedStep(ONLY_TEXT, n, i);
    if i > 0 {
      LongSeconds(n, i - 1);
      FixedIsRun(ONLY_TEXT, n);
      FixedStep(ONLY_TEXT, n, i - 1);
      CallEffect(FixedRun(ONLY_TEXT, n)[i - 1]);
    }
  }

  /** 665 groups before a clock group occur. */
  lemma LongestSpacing(n: nat)
    requires n >= 665
    ensures exists r: seq<Call> ::
      Starts(r) && IsRun(r) && |r| > n && (forall i :: 0 <= i < 665 ==> !r[i].IsClock()) && r[665].IsClock()
  {
    FixedIsRun(ONLY_TEXT, n);
    LongClock(n);
  }

  lemma LongClock(n: nat)
    requires n >= 665
    ensures forall i :: 0 <= i <= 665 ==> (FixedRun(ONLY_TEXT, n)[i].IsClock() <==> i == 665)
  {
    forall i | 0 <= i <= 665
      ensures FixedRun(ONLY_TEXT, n)[i].IsClock() <==> i == 665
    {
      LongSeconds(n, i);
    }
  }

  // ---------- The bounds of the delivery theorems cannot be lowered ----------

  const EVERYTHING_SET := Flags(true, true, true, true)

  /** The groups of a kind among the calls from a on, before call n. */
  ghost function KindsFrom(r: seq<Call>, k: Kind, a: nat, n: nat): nat
    requires a <= n <= |r|
  {
    if n == a then 0 else KindsFrom(r, k, a, n - 1) + if r[n - 1].Kind() == Picked(k) then 1 else 0
  }

  /** With everything set, the seconds have twelve groups. */
  lemma {:induction false} FullSeconds(n: nat, i: nat)
    requires i <= n && i <= 60
    ensures var s := FixedRun(EVERYTHING_SET, n)[i].s;
            s.sec + 12 * (s.min - i) == i && (if i == 0 then s.sec == 0 else 1 <= s.sec <= 12)
  {
    FixedStep(EVERYTHING_SET, n, i);
    if i > 0 {
      FullSeconds(n, i - 1);
      FixedIsRun(EVERYTHING_SET, n);
      FixedStep(EVERYTHING_SET, n, i - 1);
      CallEffect(FixedRun(EVERYTHING_SET, n)[i - 1]);
    }
  }

  lemma PlaceInSecond(sec: int, w: int, s: nat, q: nat)
    requires sec + 12 * w == 12 * q + s && 0 <= sec <= 12 && s < 12
    ensures (sec == s && w == q) || (sec == 12 && s == 0 && w == q - 1)
  {
    assert 12 * (q - w) == sec - s;
    assert -1 < q - w <= 1;
  }

  /** Call i = 12 * q + s sends group s of its second. */
  lemma FullKind(n: nat, i: nat, s: nat, q: nat)
    requires i <= n && i <= 60 && i == 12 * q + s && s < 12
    ensures var c := FixedRun(EVERYTHING_SET, n)[i];
            !c.IsClock() && c.Kind() == Picked(Pattern(EVERYTHING_SET, s))
  {
    var c := FixedRun(EVERYTHING_SET, n)[i];
    FullSeconds(n, i);
    FixedIsRun(EVERYTHING_SET, n);
    FixedStep(EVERYTHING_SET, n, i);
    PlaceInSecond(c.s.sec, c.s.min - i, s, q);
    KindAtPhase(c);
  }

  /** From call 12 on. */
  lemma {:induction false} TextsSent(n: nat, i: nat, s: nat, q: nat)
    requires 12 <= i <= n && i <= 60 && i == 12 * q + s && s < 12
    ensures var r := FixedRun(EVERYTHING_SET, n);
            && OthersFrom(r, 12, i) == i - 12
            && KindsFrom(r, Text2A, 12, i) == 5 * (q - 1) + if s > 7 then s - 7 else 0
  {
    if i > 12 {
      var t, p := if s > 0 then s - 1 else 11, if s > 0 then q else q - 1;
      TextsSent(n, i - 1, t, p);
      FullKind(n, i - 1, t, p);
    }
  }

  /** 35 groups may hold 14 groups 2A only, too few for a text of fifteen segments. */
  lemma TextBoundIsTight(n: nat)
    requires n >= 47
    ensures exists r: seq<Call> ::
      Starts(r) && IsRun(r) && |r| > n && OthersFrom(r, 12, 47) == 35 && KindsFrom(r, Text2A, 12, 47) == 14
  {
    FixedIsRun(EVERYTHING_SET, n);
    TextsSent(n, 47, 11, 3);
  }

  /** From call 1 on, to the end of the second. */
  lemma {:induction false} NamesSent(n: nat, i: nat)
    requires 1 <= i <= 12 && i <= n
    ensures var r := FixedRun(EVERYTHING_SET, n);
            && OthersFrom(r, 1, i) == i - 1
            && KindsFrom(r, Tuning0B, 1, i) == if i < 4 then i - 1 else 3
  {
    if i > 1 {
      NamesSent(n, i - 1);
      FullKind(n, i - 1, i - 1, 0);
    }
  }

  /** Eleven groups may hold three groups 0B only, too few for the four segments of the PS. */
  lemma PsBoundIsTight(n: nat)
    requires n >= 12
    ensures exists r: seq<Call> ::
      Starts(r) && IsRun(r) && |r| > n && OthersFrom(r, 1, 12) == 11 && KindsFrom(r, Tuning0B, 1, 12) == 3
  {
    FixedIsRun(EVERYTHING_SET, n);
    NamesSent(n, 12);
  }
}
