/** The services over whole runs: which calls turn them on and off, what their A/B flags show, and
    where a new text begins. */
module Services {
  import opened Bits
  import opened Config
  import opened Groups
  import opened Receiver
  import opened Scheduler
  import opened Machine
  import opened Flush
  import opened Fields

  // ---------- Services on and off ----------

  /** The groups of a service that is not set are not sent. */
  lemma OnlyIfSet(c: Call)
    ensures c.Kind() == Picked(Tuning0B) ==> c.f.ps
    ensures c.Kind() == Picked(Tuning15B) ==> !c.f.ps
    ensures c.Kind() == Picked(Labels1A) ==> c.f.labels
    ensures c.Kind() == Picked(TypeName10A) ==> c.f.ptyn
    ensures c.Kind() == Picked(Text2A) ==> c.f.rt
  {
    if !c.IsClock() {
      var again := Call(c.s.(sec := -1), c.f, c.clockWorks);
      assert again.Kind() == Picked(if c.f.ps then Tuning0B else Tuning15B);
    }
  }

  predicate IsText(f: Field) {
    f == PsSet || f == PtynSet || f == RtSet
  }

  /** The group of a text. */
  function GroupOf(f: Field): Kind
    requires IsText(f)
  {
    if f == RtSet then Text2A else if f == PtynSet then TypeName10A else Tuning0B
  }

  /** An empty text turns its service off: until another one is set, no group of the service is
      sent. The same holds before the first call. */
  lemma EmptyTextStops(h: seq<Encoder>, gaps: seq<seq<Op>>, signed: bool, n: nat, f: Field)
    requires IsRunWith(h, gaps, signed) && n < |h| && (f == PtynSet || f == RtSet)
    requires LastArgument(f, AllOps(gaps, n)) == 0
    ensures Transmit(h[n], signed).0.Sent? ==> !IsKind(Transmit(h[n], signed).0.msg, GroupOf(f))
  {
    LastCallIsKept(h, gaps, signed, n, f);
    OnlyIfSet(CallOf(h[n]));
    if Transmit(h[n], signed).0.Sent? { KindOnAir(h[n], signed, CallOf(h[n]).Kind().kind); }
  }

  /** A set text is on, so that its groups are sent in their turn (ServiceIsFrequent). */
  lemma SetTextStarts(h: seq<Encoder>, gaps: seq<seq<Op>>, signed: bool, n: nat)
    requires IsRunWith(h, gaps, signed) && n < |h|
    ensures h[n].st.ps.isSet <==> LastArgument(PsSet, AllOps(gaps, n)) == 1
    ensures h[n].st.ptyn.isSet <==> LastArgument(PtynSet, AllOps(gaps, n)) == 1
    ensures h[n].st.rt.isSet <==> LastArgument(RtSet, AllOps(gaps, n)) == 1
  {
    LastCallIsKept(h, gaps, signed, n, PsSet);
    LastCallIsKept(h, gaps, signed, n, PtynSet);
    LastCallIsKept(h, gaps, signed, n, RtSet);
  }

  /** The labels are on exactly while ECC or LIC is not zero. */
  lemma LabelsStart(h: seq<Encoder>, gaps: seq<seq<Op>>, signed: bool, n: nat)
    requires IsRunWith(h, gaps, signed) && n < |h|
    ensures CallOf(h[n]).f.labels <==>
            LastArgument(Ecc, AllOps(gaps, n)) != 0 || LastArgument(Lic, AllOps(gaps, n)) != 0
  {
    LastCallIsKept(h, gaps, signed, n, Ecc);
    LastCallIsKept(h, gaps, signed, n, Lic);
    RunsHaveSetters(h, gaps, signed);
    RunsAreHealthy(h, signed, n);
  }

  /** They are not sent while both are zero. */
  lemma LabelsNeedValues(h: seq<Encoder>, gaps: seq<seq<Op>>, signed: bool, n: nat)
    requires IsRunWith(h, gaps, signed) && n < |h|
    requires LastArgument(Ecc, AllOps(gaps, n)) == 0 && LastArgument(Lic, AllOps(gaps, n)) == 0
    ensures Transmit(h[n], signed).0.Sent? ==> !IsKind(Transmit(h[n], signed).0.msg, Labels1A)
  {
    LabelsStart(h, gaps, signed, n);
    OnlyIfSet(CallOf(h[n]));
    if Transmit(h[n], signed).0.Sent? { KindOnAir(h[n], signed, CallOf(h[n]).Kind().kind); }
  }

  // ---------- The A/B flags ----------

  /** Call k sets a text on top of another one; RadioText also wants a flush. */
  predicate Replaces(f: Field, ops: seq<Op>, k: nat)
    requires k < |ops|
  {
    && LastArgument(f, ops[..k]) == 1
    && if f == RtSet then ops[k].SetRt? && NonEmpty(ops[k].rt) && ops[k].flushRt
       else ops[k].SetPtyn? && NonEmpty(ops[k].ptyn)
  }

  function Replacements(f: Field, ops: seq<Op>): nat {
    if |ops| == 0 then 0
    else Replacements(f, ops[..|ops| - 1]) + if Replaces(f, ops, |ops| - 1) then 1 else 0
  }

  function FlagOf(f: Field, st: State): bool {
    if f == RtSet then st.rt.flush else st.ptyn.flush
  }

  predicate OddlyReplaced(f: Field, ops: seq<Op>) {
    Replacements(f, ops) % 2 == 1
  }

  lemma SetterFlips(f: Field, st: State, all: seq<Op>, op: Op, signed: bool)
    requires f == PtynSet || f == RtSet
    requires FieldOf(f, st) == LastArgument(f, all)
    ensures FlagOf(f, Apply(st, op, signed)) == (FlagOf(f, st) != Replaces(f, all + [op], |all|))
  {
    assert (all + [op])[..|all|] == all;
    match op
    case SetPtyn(s) => if s.Text? { EmptyIsShort(s, 8); }
    case SetRt(s, _) => if s.Text? { EmptyIsShort(s, 64); }
    case _ =>
  }

  lemma NextReplacement(f: Field, all: seq<Op>, op: Op)
    ensures OddlyReplaced(f, all + [op]) == (OddlyReplaced(f, all) != Replaces(f, all + [op], |all|))
  {
    assert (all + [op])[..|all|] == all;
  }

  lemma {:induction false} SettersFlip(f: Field, st: State, all: seq<Op>, ops: seq<Op>, signed: bool)
    requires f == PtynSet || f == RtSet
    requires FieldOf(f, st) == LastArgument(f, all) && FlagOf(f, st) == OddlyReplaced(f, all)
    ensures FlagOf(f, ApplyAll(st, ops, signed)) == OddlyReplaced(f, all + ops)
  {
    if |ops| == 0 {
      assert all + ops == all;
    } else {
      var before := ops[..|ops| - 1];
      var op := ops[|ops| - 1];
      SettersFlip(f, st, all, before, signed);
      SettersSet(f, st, all, before, signed);
      SetterFlips(f, ApplyAll(st, before, signed), all + before, op, signed);
      NextReplacement(f, all + before, op);
      assert all + ops == all + before + [op];
    }
  }

  lemma TransmitKeepsFlag(f: Field, e: Encoder, signed: bool)
    ensures FlagOf(f, Transmit(e, signed).1.st) == FlagOf(f, e.st)
  {
    match CallOf(e).Kind()
    case NoGroup =>
    case Picked(k) =>
      match k
      case Tuning0B =>
      case Labels1A =>
      case Text2A =>
      case Clock4A =>
      case TypeName10A =>
      case Tuning15B =>
  }

  lemma {:induction false} FlagIsParity(h: seq<Encoder>, gaps: seq<seq<Op>>, signed: bool, n: nat, f: Field)
    requires IsRunWith(h, gaps, signed) && n < |h| && (f == PtynSet || f == RtSet)
    ensures FlagOf(f, h[n].st) == OddlyReplaced(f, AllOps(gaps, n))
  {
    if n == 0 {
      SettersFlip(f, InitialState(), [], gaps[0], signed);
      assert [] + gaps[0] == gaps[0];
    } else {
      FlagIsParity(h, gaps, signed, n - 1, f);
      LastCallIsKept(h, gaps, signed, n - 1, f);
      TransmitKeepsFlag(f, h[n - 1], signed);
      TransmitKeeps(f, h[n - 1], signed);
      assert Configured(h, gaps, n, signed);
      SettersFlip(f, Transmit(h[n - 1], signed).1.st, AllOps(gaps, n - 1), gaps[n], signed);
    }
  }

  /** The A/B flag on air, from the first call on: it is set when a text was set on top of another
      one an odd number of times, for RadioText with a flush. */
  lemma FlagOnAir(h: seq<Encoder>, gaps: seq<seq<Op>>, signed: bool, n: nat, f: Field)
    requires IsRunWith(h, gaps, signed) && n < |h| && (f == PtynSet || f == RtSet)
    requires Transmit(h[n], signed).0.Sent? && IsKind(Transmit(h[n], signed).0.msg, GroupOf(f))
    ensures Transmit(h[n], signed).0.msg.w2[11] <==> OddlyReplaced(f, AllOps(gaps, n))
  {
    KindOnAir(h[n], signed, CallOf(h[n]).Kind().kind);
    FlagIsParity(h, gaps, signed, n, f);
  }

  // ---------- The first segment of a new text ----------

  /** The call sets a text that is not empty. */
  predicate Begins(f: Field, op: Op) {
    Sets(f, op) && Argument(f, op) == 1
  }

  function PositionOf(f: Field, st: State): nat {
    if f == RtSet then st.rt.idx else if f == PtynSet then st.ptyn.idx else st.ps.idx
  }

  lemma SetterRestarts(f: Field, st: State, op: Op, signed: bool)
    requires IsText(f)
    ensures PositionOf(f, Apply(st, op, signed)) == if Begins(f, op) then 0 else PositionOf(f, st)
  {
    match op
    case SetPs(s) => if s.Text? { EmptyIsShort(s, 8); }
    case SetPtyn(s) => if s.Text? { EmptyIsShort(s, 8); }
    case SetRt(s, _) => if s.Text? { EmptyIsShort(s, 64); }
    case _ =>
  }

  lemma {:induction false} SettersRestart(f: Field, st: State, ops: seq<Op>, signed: bool)
    requires IsText(f)
    requires PositionOf(f, st) == 0 || exists k :: 0 <= k < |ops| && Begins(f, ops[k])
    ensures PositionOf(f, ApplyAll(st, ops, signed)) == 0
  {
    if |ops| > 0 {
      var before := ops[..|ops| - 1];
      SetterRestarts(f, ApplyAll(st, before, signed), ops[|ops| - 1], signed);
      if !Begins(f, ops[|ops| - 1]) {
        if PositionOf(f, st) != 0 {
          var k :| 0 <= k < |ops| && Begins(f, ops[k]);
          assert before[k] == ops[k];
        }
        SettersRestart(f, st, before, signed);
      }
    }
  }

  lemma OthersKeepPosition(f: Field, e: Encoder, signed: bool)
    requires IsText(f) && FieldOf(f, e.st) == 1 && CallOf(e).Kind() != Picked(GroupOf(f))
    ensures PositionOf(f, Transmit(e, signed).1.st) == PositionOf(f, e.st)
  {
    OnlyIfSet(CallOf(e));
    match CallOf(e).Kind()
    case NoGroup =>
    case Picked(k) =>
      match k
      case Tuning0B =>
      case Labels1A =>
      case Text2A =>
      case Clock4A =>
      case TypeName10A =>
      case Tuning15B =>
  }

  /** A text that is not empty was set just before call i, its service has stayed on, and no
      group of it was sent before call j. */
  ghost predicate SetSince(h: seq<Encoder>, gaps: seq<seq<Op>>, signed: bool, f: Field, i: nat, j: nat) {
    && IsRunWith(h, gaps, signed) && i <= j < |h| && IsText(f)
    && (exists k :: 0 <= k < |gaps[i]| && Begins(f, gaps[i][k]))
    && (forall n :: i <= n < j ==> Waits(h, gaps, f, n))
  }

  /** At call n the service is on, and no group of it is sent. */
  ghost predicate Waits(h: seq<Encoder>, gaps: seq<seq<Op>>, f: Field, n: nat)
    requires n < |h| == |gaps| && IsText(f)
  {
    LastArgument(f, AllOps(gaps, n)) == 1 && CallOf(h[n]).Kind() != Picked(GroupOf(f))
  }

  /** The state before the setters of call j. */
  lemma BeforeCall(h: seq<Encoder>, gaps: seq<seq<Op>>, signed: bool, j: nat) returns (st: State)
    requires IsRunWith(h, gaps, signed) && j < |h|
    ensures h[j].st == ApplyAll(st, gaps[j], signed)
  {
    if j == 0 {
      st := InitialState();
    } else {
      assert Configured(h, gaps, j, signed);
      st := Transmit(h[j - 1], signed).1.st;
    }
  }

  lemma PositionWhenSet(h: seq<Encoder>, gaps: seq<seq<Op>>, signed: bool, f: Field, j: nat)
    requires IsRunWith(h, gaps, signed) && j < |h| && IsText(f)
    requires exists k :: 0 <= k < |gaps[j]| && Begins(f, gaps[j][k])
    ensures PositionOf(f, h[j].st) == 0
  {
    var st := BeforeCall(h, gaps, signed, j);
    SettersRestart(f, st, gaps[j], signed);
  }

  lemma {:induction false} PositionSince(h: seq<Encoder>, gaps: seq<seq<Op>>, signed: bool, f: Field, i: nat, j: nat)
    requires SetSince(h, gaps, signed, f, i, j)
    ensures PositionOf(f, h[j].st) == 0
  {
    if i < j {
      PositionSince(h, gaps, signed, f, i, j - 1);
      assert Waits(h, gaps, f, j - 1);
      PositionStays(h, gaps, signed, f, j - 1);
    } else {
      PositionWhenSet(h, gaps, signed, f, j);
    }
  }

  lemma PositionStays(h: seq<Encoder>, gaps: seq<seq<Op>>, signed: bool, f: Field, j: nat)
    requires IsRunWith(h, gaps, signed) && j + 1 < |h| && IsText(f)
    requires PositionOf(f, h[j].st) == 0 && Waits(h, gaps, f, j)
    ensures PositionOf(f, h[j + 1].st) == 0
  {
    LastCallIsKept(h, gaps, signed, j, f);
    OthersKeepPosition(f, h[j], signed);
    assert Configured(h, gaps, j + 1, signed);
    SettersRestart(f, Transmit(h[j], signed).1.st, gaps[j + 1], signed);
  }

  /** The segment address that a receiver reads in a group of a text. */
  function Address(f: Field, m: Message): nat
    requires IsText(f)
  {
    if f == RtSet then Value(m.w2[12..]) else if f == PtynSet then AsNat(m.w2[15]) else Value(m.w2[14..])
  }

  lemma AddressIsPosition(f: Field, e: Encoder, signed: bool)
    requires IsText(f) && CallOf(e).Kind() == Picked(GroupOf(f))
    ensures Address(f, Transmit(e, signed).0.msg) == PositionOf(f, e.st)
  {
    var m := Transmit(e, signed).0.msg;
    if f == RtSet {
      assert m.w2[12..] == ToBits(e.st.rt.idx, 4);
      assert Pow2(4) == 16;
      FieldValue(e.st.rt.idx, 4);
    } else if f == PsSet {
      assert m.w2[14..] == ToBits(e.st.ps.idx, 2);
      assert Pow2(2) == 4;
      FieldValue(e.st.ps.idx, 2);
    }
  }

  /** A new text is sent from its first segment on. */
  lemma TextsBeginAtFirstSegment(h: seq<Encoder>, gaps: seq<seq<Op>>, signed: bool, f: Field, i: nat, j: nat)
    requires SetSince(h, gaps, signed, f, i, j)
    requires Transmit(h[j], signed).0.Sent? && IsKind(Transmit(h[j], signed).0.msg, GroupOf(f))
    ensures Address(f, Transmit(h[j], signed).0.msg) == 0
  {
    KindOnAir(h[j], signed, CallOf(h[j]).Kind().kind);
    PositionSince(h, gaps, signed, f, i, j);
    AddressIsPosition(f, h[j], signed);
  }
}
