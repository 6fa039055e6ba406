/** The encoder in operation: other processes call the setters, the MPX generator asks for samples
    and the main loop makes waveforms, in any order that keeps up with the generator. What is heard
    is the waveform of a run of the state machine with exactly these setter calls. */
module Operation {
  import opened Config
  import opened Clock
  import opened Scheduler
  import opened Machine
  import opened Flush
  import opened Fields
  import opened EncoderObject
  import opened DoubleBuffer
  import Pipeline
  import opened Chain

  /** The configuration that a history leaves. */
  ghost function Left(h: seq<Encoder>, signed: bool): State {
    if |h| == 0 then InitialState() else Transmit(h[|h| - 1], signed).1.st
  }

  lemma FirstOfLog(send: Sender, e: Encoder, ms: seq<Groups.Message>, s: Sched, vcode: U4)
    requires Logged(send, [e], ms, s, vcode)
    ensures e.sched == Sched(0, 0, 0) && e.vcode == 0
  {
  }

  /** A history and the setter calls before each of its calls. */
  ghost predicate Told(h: seq<Encoder>, gaps: seq<seq<Op>>, signed: bool) {
    |h| == |gaps| && (h == [] || IsRunWith(h, gaps, signed))
  }

  lemma RunStarts(e: Encoder, ops: seq<Op>, signed: bool)
    requires IsHistory([e], signed) && e.sched == Sched(0, 0, 0) && e.vcode == 0
    requires e.st == ApplyAll(InitialState(), ops, signed)
    ensures IsRunWith([e], [ops], signed)
  {
  }

  lemma RunGoesOn(h: seq<Encoder>, gaps: seq<seq<Op>>, e: Encoder, ops: seq<Op>, signed: bool)
    requires IsRunWith(h, gaps, signed) && IsHistory(h + [e], signed)
    requires e.st == ApplyAll(Transmit(h[|h| - 1], signed).1.st, ops, signed)
    ensures IsRunWith(h + [e], gaps + [ops], signed)
  {
    forall k | 0 < k < |h| + 1
      ensures Configured(h + [e], gaps + [ops], k, signed)
    {
      if k < |h| { assert Configured(h, gaps, k, signed); }
    }
  }

  lemma ToldGrows(send: Sender, h: seq<Encoder>, e: Encoder, ms: seq<Groups.Message>, sched: Sched, vcode: U4,
                  gaps: seq<seq<Op>>, since: seq<Op>, signed: bool)
    requires Logged(send, h + [e], ms, sched, vcode) && Genuine(send, signed) && Told(h, gaps, signed)
    requires e.st == ApplyAll(Left(h, signed), since, signed)
    ensures Told(h + [e], gaps + [since], signed)
  {
    LogIsHistory(send, h + [e], ms, sched, vcode, signed);
    if h == [] {
      assert [] + [e] == [e];
      FirstOfLog(send, e, ms, sched, vcode);
      RunStarts(e, since, signed);
    } else {
      RunGoesOn(h, gaps, e, since, signed);
    }
  }

  /** While the clock can be read the scheduler always has a group. */
  lemma AlwaysSends(e: Encoder, signed: bool)
    requires Reachable(e.sched) && e.time.Now?
    ensures Transmit(e, signed).0.Sent?
  {
    CallEffect(CallOf(e));
  }

  /** A row of rows of setter calls as one row. */
  function Row(gaps: seq<seq<Op>>): seq<Op> {
    if |gaps| == 0 then [] else Row(gaps[..|gaps| - 1]) + gaps[|gaps| - 1]
  }

  lemma RowGrows(gaps: seq<seq<Op>>, ops: seq<Op>)
    ensures Row(gaps + [ops]) == Row(gaps) + ops
  {
    assert (gaps + [ops])[..|gaps|] == gaps;
  }

  lemma {:induction false} RowIsAllOps(gaps: seq<seq<Op>>)
    requires |gaps| > 0
    ensures Row(gaps) == AllOps(gaps, |gaps| - 1)
  {
    if |gaps| > 1 {
      var before := gaps[..|gaps| - 1];
      RowIsAllOps(before);
      AllOpsPrefix(gaps, |before|, |before| - 1);
    } else {
      assert Row(gaps[..0]) == [];
    }
  }

  lemma {:induction false} AllOpsPrefix(gaps: seq<seq<Op>>, m: nat, n: nat)
    requires n < m <= |gaps|
    ensures AllOps(gaps[..m], n) == AllOps(gaps, n)
  {
    if n > 0 { AllOpsPrefix(gaps, m, n - 1); }
  }

  /** The fields of a configuration after a run and further setter calls. */
  lemma FieldsAfter(h: seq<Encoder>, gaps: seq<seq<Op>>, since: seq<Op>, signed: bool, f: Field)
    requires Told(h, gaps, signed)
    ensures FieldOf(f, ApplyAll(Left(h, signed), since, signed)) == LastArgument(f, Row(gaps) + since)
  {
    if h == [] {
      SettersSet(f, InitialState(), [], since, signed);
    } else {
      LastCallIsKept(h, gaps, signed, |h| - 1, f);
      TransmitKeeps(f, h[|h| - 1], signed);
      RowIsAllOps(gaps);
      SettersSet(f, Left(h, signed), Row(gaps), since, signed);
    }
  }

  datatype Action =
    | Call(op: Op)         // another process calls a setter
    | Ask                  // the MPX generator asks for a sample
    | Make(time: Time)     // the main loop wakes up

  /** The setter calls among the first n actions. */
  function SetterCalls(actions: seq<Action>, n: nat): seq<Op>
    requires n <= |actions|
  {
    if n == 0 then [] else SetterCalls(actions, n - 1) + CallIn(actions[n - 1])
  }

  function CallIn(a: Action): seq<Op> {
    if a.Call? then [a.op] else []
  }

  lemma NoCall(ops: seq<Op>, a: Action)
    requires !a.Call?
    ensures ops + CallIn(a) == ops
  {
  }

  /** Action a asks for a sample, and the last of the setter calls ops has switched the encoder on. */
  predicate Counts(ops: seq<Op>, a: Action) {
    a.Ask? && LastArgument(On, ops) == 1
  }

  /** The requests that count among the first n actions, after earlier setter calls ops. */
  function Requests(ops: seq<Op>, actions: seq<Action>, n: nat): nat
    requires n <= |actions|
  {
    if n == 0 then 0
    else Requests(ops, actions, n - 1) + if Counts(ops + SetterCalls(actions, n - 1), actions[n - 1]) then 1 else 0
  }

  lemma ActionStep(ops: seq<Op>, actions: seq<Action>, n: nat, m: nat)
    requires n < |actions| && m == n + 1
    ensures ops + SetterCalls(actions, m) == ops + SetterCalls(actions, n) + CallIn(actions[n])
    ensures Requests(ops, actions, m) ==
            Requests(ops, actions, n) + if Counts(ops + SetterCalls(actions, n), actions[n]) then 1 else 0
  {
  }

  /** The clock can be read whenever the main loop wakes up. */
  ghost predicate ClockWorks(actions: seq<Action>) {
    forall i :: 0 <= i < |actions| && actions[i].Make? ==> actions[i].time.Now?
  }

  /** The resampler never fails. */
  ghost predicate Reliable(resample: seq<real> -> Resampled) {
    forall s :: resample(s).Frames?
  }

  lemma {:induction false} SwitchIsOneBit(ops: seq<Op>)
    ensures LastArgument(On, ops) <= 1
  {
    if |ops| > 0 { SwitchIsOneBit(ops[..|ops| - 1]); }
  }

  class RunningEncoder {
    const t: Transmitter

    // The setter calls before each call of the scheduler that has delivered a waveform, and since.
    ghost var gaps: seq<seq<Op>>
    ghost var since: seq<Op>

    ghost predicate Valid()
      reads this, t, t.enc, t.enc.modulator, t.out, t.out.waveform0, t.out.waveform1
      reads t.enc.st, t.enc.st.ps, t.enc.st.ptyn, t.enc.st.rt
    {
      t.Valid() && t.IsEncoder() && Told(t.h, gaps, t.enc.st.signed) && (t.active ==> UpToDate())
    }

    /** The configuration is what the calls since the last group have made of it. */
    ghost predicate UpToDate()
      requires t.enc.Valid()
      reads this, t`h, t.enc.st, t.enc.st.ps, t.enc.st.ptyn, t.enc.st.rt
    {
      t.enc.st.Value() == ApplyAll(Left(t.h, t.enc.st.signed), since, t.enc.st.signed)
    }

    constructor (enc: RdsEncoder, length: nat, resample: seq<real> -> Resampled)
      requires enc.Valid() && enc.Counters() == Sched(0, 0, 0) && enc.vcode == 0
      requires enc.st.Value() == InitialState()
      requires length > 0 && Pipeline.Fits(resample, length)
      ensures Valid() && t.active && t.enc == enc && t.resample == resample && gaps == [] && since == []
      ensures fresh(t) && t.out.heard == []
    {
      t := new Transmitter(enc, length, resample);
      gaps, since := [], [];
    }

    /** All setter calls so far. */
    ghost function Ops(): seq<Op>
      reads this
    {
      Row(gaps) + since
    }

    /** Another process calls a setter. */
    method Configure(op: Op)
      requires Valid()
      modifies this, t.enc.st, t.enc.st.ps, t.enc.st.ptyn, t.enc.st.rt
      ensures Valid() && Ops() == old(Ops()) + [op] && t.active == old(t.active) && t.out.heard == old(t.out.heard)
    {
      t.enc.st.Call(op);
      assert (since + [op])[..|since|] == since;
      since := since + [op];
    }

    /** The next sample. A waveform that was asked for must be there before the next switch. */
    method Request() returns (x: real)
      requires Valid()
      requires t.active && t.enc.st.station.enabled != 0 && t.out.Exhausted() ==> !t.out.pending
      modifies t.out`current, t.out`samplesOut, t.out`heard, t.out`switches, t.out`pending
      ensures Valid()
      ensures if t.active && t.enc.st.station.enabled != 0 then t.out.heard == old(t.out.heard) + [x]
              else x == 0.0 && t.out.heard == old(t.out.heard)
      ensures t.out.pending <==>
              old(t.out.pending) || (t.active && t.enc.st.station.enabled != 0 && old(t.out.Exhausted()))
    {
      x := t.Request();
    }

    /** A turn of the main loop. */
    method Turn(time: Time)
      requires Valid() && t.active && t.out.pending
      modifies this, t, t.enc, t.enc.st, t.enc.modulator, t.group.blocks, t.group.samplesBuffer
      modifies t.out, t.out.waveform0, t.out.waveform1
      ensures Valid() && t.out.heard == old(t.out.heard)
      ensures t.active <==> old(t.Delivers(t.enc.Snapshot(time)))
      ensures t.active ==> !t.out.pending && |t.h| == old(|t.h|) + 1 && Ops() == old(Ops())
    {
      ghost var h, e := t.h, t.enc.Snapshot(time);
      t.Turn(time);
      if t.active {
        Grow(h, e);
      }
    }

    /** The history has grown by the call from e, after the setter calls since the last one. */
    ghost method Grow(h: seq<Encoder>, e: Encoder)
      requires t.Valid() && t.IsEncoder() && t.active && t.h == h + [e] && Told(h, gaps, t.enc.st.signed)
      requires e.st == ApplyAll(Left(h, t.enc.st.signed), since, t.enc.st.signed)
      requires t.enc.st.Value() == Transmit(e, t.enc.st.signed).1.st
      modifies this
      ensures Valid() && Ops() == old(Ops())
    {
      ToldGrows(t.send, h, e, t.ms, t.sched, t.vcode, gaps, since, t.enc.st.signed);
      RowGrows(gaps, since);
      gaps, since := gaps + [since], [];
    }

    lemma EnabledIs()
      requires Valid() && t.active
      ensures t.enc.st.station.enabled != 0 <==> LastArgument(On, Ops()) == 1
    {
      FieldsAfter(t.h, gaps, since, t.enc.st.signed, On);
      SwitchIsOneBit(Ops());
    }

    lemma TurnSucceeds(time: Time)
      requires Valid() && t.active && time.Now? && Reliable(t.resample)
      ensures t.Delivers(t.enc.Snapshot(time))
    {
      AlwaysSends(t.enc.Snapshot(time), t.enc.st.signed);
    }

    /** The request comes before the waveform that the last switch has asked for is there. */
    ghost predicate Late(a: Action)
      reads this, t, t.out
    {
      Counts(Ops(), a) && t.out.pending && t.out.Exhausted()
    }

    /** The main loop wakes up, if it was asked for a waveform. */
    method Wake(time: Time)
      requires Valid() && t.active && Reliable(t.resample) && time.Now?
      modifies this, t, t.enc, t.enc.st, t.enc.modulator, t.group.blocks, t.group.samplesBuffer
      modifies t.out, t.out.waveform0, t.out.waveform1
      ensures Valid() && t.active && Ops() == old(Ops()) && t.out.heard == old(t.out.heard)
    {
      if t.out.pending {
        TurnSucceeds(time);
        Turn(time);
      }
    }

    /** The MPX generator asks for a sample. */
    method Answer()
      requires Valid() && t.active && !Late(Ask)
      modifies t.out`current, t.out`samplesOut, t.out`heard, t.out`switches, t.out`pending
      ensures Valid() && t.active && Ops() == old(Ops())
      ensures |t.out.heard| == old(|t.out.heard|) + if Counts(Ops(), Ask) then 1 else 0
    {
      EnabledIs();
      var _ := Request();
    }

    method Do(a: Action)
      requires Valid() && t.active && !Late(a) && Reliable(t.resample) && (a.Make? ==> a.time.Now?)
      modifies this, t, t.enc, t.enc.st, t.enc.st.ps, t.enc.st.ptyn, t.enc.st.rt, t.enc.modulator
      modifies t.group.blocks, t.group.samplesBuffer, t.out, t.out.waveform0, t.out.waveform1
      ensures Valid() && t.active && Ops() == old(Ops()) + CallIn(a)
      ensures |t.out.heard| == old(|t.out.heard|) + if Counts(old(Ops()), a) then 1 else 0
    {
      match a {
        case Call(op) => Configure(op);
        case Ask => Answer(); NoCall(Ops(), a);
        case Make(time) => Wake(time); NoCall(Ops(), a);
      }
    }

    /** The state after the first n actions: ops are the earlier setter calls, and len samples had
        been heard. */
    ghost predicate After(ops: seq<Op>, len: nat, actions: seq<Action>, n: nat)
      requires n <= |actions|
      reads this, t, t.enc, t.enc.modulator, t.out, t.out.waveform0, t.out.waveform1
      reads t.enc.st, t.enc.st.ps, t.enc.st.ptyn, t.enc.st.rt
    {
      && Valid() && t.active && Ops() == ops + SetterCalls(actions, n)
      && |t.out.heard| == len + Requests(ops, actions, n)
    }

    /** Action a, unless it comes too early. */
    method Try(a: Action) returns (late: bool)
      requires Valid() && t.active && Reliable(t.resample) && (a.Make? ==> a.time.Now?)
      modifies this, t, t.enc, t.enc.st, t.enc.st.ps, t.enc.st.ptyn, t.enc.st.rt, t.enc.modulator
      modifies t.group.blocks, t.group.samplesBuffer, t.out, t.out.waveform0, t.out.waveform1
      ensures Valid() && t.active && (late ==> Late(a))
      ensures Ops() == if late then old(Ops()) else old(Ops()) + CallIn(a)
      ensures |t.out.heard| == old(|t.out.heard|) + if !late && Counts(old(Ops()), a) then 1 else 0
    {
      EnabledIs();
      late := a.Ask? && t.enc.st.station.enabled != 0 && t.out.pending && t.out.Exhausted();
      if !late { Do(a); }
    }

    method Next(ghost ops: seq<Op>, ghost len: nat, actions: seq<Action>, n: nat) returns (late: bool)
      requires n < |actions| && After(ops, len, actions, n) && Reliable(t.resample) && ClockWorks(actions)
      modifies this, t, t.enc, t.enc.st, t.enc.st.ps, t.enc.st.ptyn, t.enc.st.rt, t.enc.modulator
      modifies t.group.blocks, t.group.samplesBuffer, t.out, t.out.waveform0, t.out.waveform1
      ensures late ==> After(ops, len, actions, n) && Late(actions[n])
      ensures !late ==> After(ops, len, actions, n + 1)
    {
      ActionStep(ops, actions, n, n + 1);
      late := Try(actions[n]);
    }

    /** Any actions of the three, until a request comes too early. The encoder stays active, every
        request that finds it switched on is answered with the next sample, and the setter calls of
        the actions are those of the run. */
    method Run(actions: seq<Action>) returns (n: nat)
      requires Valid() && t.active && Reliable(t.resample) && ClockWorks(actions)
      modifies this, t, t.enc, t.enc.st, t.enc.st.ps, t.enc.st.ptyn, t.enc.st.rt, t.enc.modulator
      modifies t.group.blocks, t.group.samplesBuffer, t.out, t.out.waveform0, t.out.waveform1
      ensures n <= |actions| && (n < |actions| ==> Late(actions[n]))
      ensures Valid() && t.active && Ops() == old(Ops()) + SetterCalls(actions, n)
      ensures |t.out.heard| == old(|t.out.heard|) + Requests(old(Ops()), actions, n)
    {
      ghost var ops, len := Ops(), |t.out.heard|;
      n := 0;
      var late := false;
      while n < |actions| && !late
        invariant n <= |actions| && After(ops, len, actions, n)
        invariant late ==> n < |actions| && Late(actions[n])
        decreases |actions| - n, !late
      {
        late := Next(ops, len, actions, n);
        if !late { n := n + 1; }
      }
    }

    /** What has been heard. The calls of the scheduler are a run of the state machine with exactly
        the setter calls of the other processes. The listener has heard the beginning of one zero
        and the waveforms of its messages in their order, and has heard all but the last two of
        them to their end. */
    lemma HeardIsRun()
      requires Valid() && t.active
      ensures Told(t.h, gaps, t.enc.st.signed) && Row(gaps) <= Ops()
      ensures |t.AirWaves()| == |t.h| && t.out.heard <= Stream(t.AirWaves())
      ensures |t.h| >= 2 ==> Stream(t.AirWaves()[..|t.h| - 2]) <= t.out.heard
    {
      t.HeardInOrder();
    }
  }
}
