/** The group scheduler as a state machine, and what it guarantees over whole runs in which
    other processes change the configuration between any two calls. */
module Scheduler {
  import opened Arithmetic
  import opened Groups

  const GROUPS_PER_SEC := 12
  const GROUPS_PER_MIN := 720

  /** The static counters of the scheduler. */
  datatype Sched = Sched(sec: int, min: nat, ptynCnt: nat)

  /** What the scheduler reads of the configuration; labels is set when ECC or LIC is. */
  datatype Flags = Flags(ps: bool, labels: bool, ptyn: bool, rt: bool)

  datatype Pick = NoGroup | Picked(kind: Kind)

  /** One call of the scheduler. When no group is due the second starts over: the call is
      repeated with the counter at -1, so that both calls count the group. */
  function NextGroup(s: Sched, f: Flags, clockWorks: bool): (r: (Pick, Sched))
    ensures r.0 == Picked(Clock4A) ==> clockWorks
    decreases if s.min < GROUPS_PER_MIN && s.sec >= 4 then 1 else 0
  {
    if s.min >= GROUPS_PER_MIN then
      if clockWorks then (Picked(Clock4A), s.(min := 0)) else (NoGroup, s)
    else
      var (pick, t) :=
        if s.sec < 4 then (Picked(if f.ps then Tuning0B else Tuning15B), s)
        else if s.sec < 5 && f.labels then (Picked(Labels1A), s)
        else if s.sec < 7 && f.ptyn && s.ptynCnt < 2 then
          (Picked(TypeName10A), s.(ptynCnt := s.ptynCnt + 1))
        else if s.sec < GROUPS_PER_SEC && f.rt then (Picked(Text2A), s)
        else NextGroup(s.(sec := -1), f, clockWorks);
      var u := if pick.Picked? then t.(sec := t.sec + 1, min := t.min + 1) else t;
      (pick, if u.ptynCnt >= 2 then u.(ptynCnt := 0) else u)
  }

  /** The values the counters take between calls. */
  ghost predicate Reachable(s: Sched) {
    0 <= s.sec <= 12 && s.min <= 721 && s.ptynCnt <= 1
  }

  // ---------- One call ----------

  /** A call of the scheduler: the counters before it and what it sees. */
  datatype Call = Call(s: Sched, f: Flags, clockWorks: bool) {
    function Kind(): Pick { NextGroup(s, f, clockWorks).0 }
    function Next(): Sched { NextGroup(s, f, clockWorks).1 }

    /** The call is for a clock group. */
    predicate IsClock() { s.min >= GROUPS_PER_MIN }

    /** The call starts a new second. */
    predicate Wraps() {
      && !IsClock() && s.sec >= 4
      && !(s.sec < 5 && f.labels) && !(s.sec < 7 && f.ptyn && s.ptynCnt < 2) && !(s.sec < 12 && f.rt)
    }

    /** The place of the group in its second. */
    function Slot(): int { if Wraps() then 0 else s.sec }
  }

  /** The effect of one call. The recursion nests once at most, and a group that starts a new
      second is counted twice in the minute. */
  lemma CallEffect(c: Call)
    requires Reachable(c.s)
    ensures Reachable(c.Next())
    ensures c.IsClock() ==> c.Next().sec == c.s.sec && c.Kind() == if c.clockWorks then Picked(Clock4A) else NoGroup
    ensures c.IsClock() ==> c.Next().min == if c.clockWorks then 0 else c.s.min
    ensures c.Wraps() ==> c.Next().sec == 1 && c.Next().min == c.s.min + 2
    ensures !c.IsClock() && !c.Wraps() ==> c.Next().sec == c.s.sec + 1 && c.Next().min == c.s.min + 1
    ensures !c.IsClock() ==>
      c.Kind() == Picked(if c.Slot() < 4 then if c.f.ps then Tuning0B else Tuning15B
                         else if c.Slot() == 4 && c.f.labels then Labels1A
                         else if c.Slot() < 7 && c.f.ptyn then TypeName10A
                         else Text2A)
  {
    if c.Wraps() {
      var again := Call(c.s.(sec := -1), c.f, c.clockWorks);
      assert again.Next().sec == 0;
    }
  }

  // ---------- Runs ----------

  /** A run: each call finds the counters as the call before it left them; the configuration
      and the clock are up to the environment. */
  ghost predicate IsRun(r: seq<Call>) {
    && (forall i :: 0 <= i < |r| ==> Reachable(r[i].s))
    && (forall i :: 0 < i < |r| ==> Chained(r, i))
  }

  /** Call i finds the counters as the call before it left them. */
  ghost predicate Chained(r: seq<Call>, i: nat)
    requires 0 < i < |r|
  {
    r[i].s == r[i - 1].Next()
  }

  ghost predicate Starts(r: seq<Call>) {
    |r| > 0 && r[0].s == Sched(0, 0, 0)
  }

  /** Runs from the initial counters reach only the states named Reachable. */
  lemma {:induction false} CountersStayInRange(r: seq<Call>)
    requires Starts(r) && forall i :: 0 < i < |r| ==> Chained(r, i)
    ensures IsRun(r)
  {
    if |r| > 1 {
      var q := r[..|r| - 1];
      forall i | 0 < i < |q|
        ensures Chained(q, i)
      {
        assert Chained(r, i);
      }
      CountersStayInRange(q);
      CallEffect(q[|q| - 1]);
      assert Chained(r, |r| - 1);
      forall i | 0 <= i < |r|
        ensures Reachable(r[i].s)
      {
        if i < |q| { assert r[i] == q[i]; }
      }
    }
  }

  /** Every stretch of a run is a run. */
  lemma SuffixIsRun(r: seq<Call>, a: nat)
    requires IsRun(r) && a <= |r|
    ensures IsRun(r[a..])
  {
    var q := r[a..];
    forall i | 0 < i < |q|
      ensures Chained(q, i)
    {
      assert Chained(r, a + i);
    }
  }

  /** The groups other than clock groups among the first n calls. */
  ghost function Others(r: seq<Call>, n: nat): nat
    requires n <= |r|
  {
    if n == 0 then 0 else Others(r, n - 1) + if r[n - 1].IsClock() then 0 else 1
  }

  /** The calls among the first n that start a new second. */
  ghost function Wraps(r: seq<Call>, n: nat): nat
    requires n <= |r|
  {
    if n == 0 then 0 else Wraps(r, n - 1) + if r[n - 1].Wraps() then 1 else 0
  }

  /** The groups among the first n calls that fall into slots lo .. hi - 1 of their second. */
  ghost function Served(r: seq<Call>, n: nat, lo: nat, hi: nat): nat
    requires n <= |r|
  {
    if n == 0 then 0
    else Served(r, n - 1, lo, hi) + if !r[n - 1].IsClock() && lo <= r[n - 1].Slot() < hi then 1 else 0
  }

  /** A second has at most twelve groups. */
  lemma {:induction false} SecondsAreShort(r: seq<Call>, n: nat)
    requires IsRun(r) && n < |r|
    ensures Others(r, n) + r[0].s.sec <= 12 * Wraps(r, n) + r[n].s.sec
  {
    if n > 0 {
      SecondsAreShort(r, n - 1);
      assert Chained(r, n);
      CallEffect(r[n - 1]);
    }
  }

  /** How many of the slots lo .. hi - 1 lie before slot x. */
  ghost function Passed(x: int, lo: nat, hi: nat): int {
    if x < lo then 0 else if x < hi then x - lo else hi - lo
  }

  /** No second of the run ends before slot hi. */
  ghost predicate Reaches(r: seq<Call>, hi: nat) {
    forall i :: 0 <= i < |r| && r[i].Wraps() ==> r[i].s.sec >= hi
  }

  lemma {:induction false} SlotsAreServed(r: seq<Call>, n: nat, lo: nat, hi: nat)
    requires IsRun(r) && n < |r| && lo < hi <= 12 && Reaches(r, hi)
    ensures Served(r, n, lo, hi) ==
            (hi - lo) * Wraps(r, n) + Passed(r[n].s.sec, lo, hi) - Passed(r[0].s.sec, lo, hi)
  {
    if n > 0 {
      SlotsAreServed(r, n - 1, lo, hi);
      assert Chained(r, n);
      CallEffect(r[n - 1]);
      assert (hi - lo) * (Wraps(r, n - 1) + 1) == (hi - lo) * Wraps(r, n - 1) + (hi - lo);
    }
  }

  /** If every second of a run reaches slot hi, then any 12 * k consecutive groups (not counting
      clock groups) fill the slots lo .. hi - 1 at least k times, wherever the run begins and
      however short the environment makes its seconds. */
  lemma ServiceRate(r: seq<Call>, n: nat, lo: nat, hi: nat, k: nat)
    requires IsRun(r) && n < |r| && lo < hi <= 12 && Reaches(r, hi)
    requires Others(r, n) >= 12 * k
    ensures Served(r, n, lo, hi) >= (hi - lo) * k
  {
    SecondsAreShort(r, n);
    SlotsAreServed(r, n, lo, hi);
    RateArithmetic(Others(r, n), r[0].s.sec, r[n].s.sec, Wraps(r, n), lo, hi, k);
  }

  lemma RateArithmetic(n: int, s: int, e: int, w: nat, lo: nat, hi: nat, k: nat)
    requires 0 <= s <= 12 && 0 <= e <= 12 && lo < hi <= 12
    requires 12 * k <= n && n + s <= 12 * w + e
    ensures (hi - lo) * w + Passed(e, lo, hi) - Passed(s, lo, hi) >= (hi - lo) * k
  {
    var d := hi - lo;
    if w > k {
      Scale(d, k + 1, w);
      assert d * (k + 1) == d * k + d;
    } else if w < k {
      assert w == k - 1 && s == 0 && e == 12;
      assert d * w == d * k - d;
    } else {
      assert s <= e;
    }
  }

  lemma Scale(d: nat, a: nat, b: nat)
    requires a <= b
    ensures d * a <= d * b
  {
  }

  // ---------- Clock groups ----------

  /** No clock group among the first n calls. */
  ghost predicate Clockless(r: seq<Call>, n: nat)
    requires n <= |r|
  {
    forall i :: 0 <= i < n ==> !r[i].IsClock()
  }

  lemma {:induction false} MinuteCount(r: seq<Call>, n: nat)
    requires IsRun(r) && n < |r| && Clockless(r, n)
    ensures r[n].s.min == r[0].s.min + n + Wraps(r, n)
    ensures Others(r, n) == n
    ensures 4 * Wraps(r, n) <= n + 4 - if r[n].s.sec < 4 then r[n].s.sec else 4
  {
    if n > 0 {
      MinuteCount(r, n - 1);
      assert Chained(r, n);
      CallEffect(r[n - 1]);
    }
  }

  /** A clock group is due after at most 665 groups ... */
  lemma ClockComes(r: seq<Call>, n: nat)
    requires IsRun(r) && n < |r| && Clockless(r, n) && r[0].s.min == 0
    ensures n <= 665
  {
    MinuteCount(r, n);
    SecondsAreShort(r, n);
    if n > 0 {
      assert Chained(r, n);
      CallEffect(r[n - 1]);
      assert !r[n - 1].IsClock();
    }
  }

  /** ... and not before 576 groups. */
  lemma ClockWaits(r: seq<Call>, n: nat)
    requires IsRun(r) && n < |r| && Clockless(r, n) && r[0].s.min == 0
    requires r[n].IsClock()
    ensures 576 <= n
  {
    MinuteCount(r, n);
    if n > 0 {
      assert Chained(r, n);
      CallEffect(r[n - 1]);
      assert !r[n - 1].IsClock();
    }
  }

  /** Clock-group spacing. In every run from the initial counters, whatever the environment does
      to the flags between the calls, at least 576 and at most 665 other groups are sent before
      the first clock group and between two clock groups that follow each other. Call b is due
      for a clock group; a is the first call, or the call after the clock group before. */
  lemma ClockSpacing(r: seq<Call>, a: nat, b: nat)
    requires Starts(r) && IsRun(r) && a <= b < |r|
    requires a == 0 || (r[a - 1].IsClock() && r[a - 1].clockWorks)
    requires forall i :: a <= i < b ==> !r[i].IsClock()
    ensures b - a <= 665
    ensures r[b].IsClock() ==> b - a >= 576
  {
    var q := r[a..];
    if a > 0 {
      assert Chained(r, a);
      CallEffect(r[a - 1]);
    }
    SuffixIsRun(r, a);
    assert Clockless(q, b - a);
    ClockComes(q, b - a);
    if q[b - a].IsClock() { ClockWaits(q, b - a); }
  }

  /** As long as the clock works, at most every other call is for a clock group. */
  lemma {:induction false} OthersAreFrequent(r: seq<Call>, k: nat)
    requires IsRun(r) && 2 * k <= |r| && forall i :: 0 <= i < |r| ==> r[i].clockWorks
    ensures Others(r, 2 * k) >= k
  {
    if k > 0 {
      OthersAreFrequent(r, k - 1);
      CallEffect(r[2 * k - 2]);
      assert Chained(r, 2 * k - 1);
      assert Others(r, 2 * k) >= Others(r, 2 * k - 1) >= Others(r, 2 * k - 2);
    }
  }

  // ---------- The cycle under a fixed configuration ----------

  ghost function CycleLength(f: Flags): nat {
    if f.rt then 12 else if f.ptyn then 7 else if f.labels then 5 else 4
  }

  /** Four tuning groups; one 1A if ECC or LIC is set; with PTYN, two 10A, or three if there was
      no 1A; the rest of the twelve, five to eight, are 2A if RT is set. */
  ghost function Pattern(f: Flags, i: nat): Kind {
    if i < 4 then if f.ps then Tuning0B else Tuning15B
    else if i == 4 && f.labels then Labels1A
    else if i < 7 && f.ptyn then TypeName10A
    else Text2A
  }

  /** The place in the cycle of fixed flags that the counter stands for. */
  ghost function Phase(s: Sched, f: Flags): nat
    requires s.sec >= 0
  {
    if s.sec >= CycleLength(f) then 0 else s.sec
  }

  lemma {:induction false} SmallPlace(m: nat, cycle: nat)
    requires m < cycle
    ensures Place(m, cycle) == m
  {
    if m > 0 { SmallPlace(m - 1, cycle); }
  }

  /** The groups other than clock groups among the calls from a on, before call n. */
  ghost function OthersFrom(r: seq<Call>, a: nat, n: nat): nat
    requires a <= n <= |r|
  {
    if n == a then 0 else OthersFrom(r, a, n - 1) + if r[n - 1].IsClock() then 0 else 1
  }

  lemma {:induction false} CyclePosition(r: seq<Call>, f: Flags, a: nat, n: nat)
    requires IsRun(r) && a <= n < |r|
    requires forall i :: a <= i < n ==> r[i].f == f
    ensures Phase(r[n].s, f) == Place(Phase(r[a].s, f) + OthersFrom(r, a, n), CycleLength(f))
  {
    if n > a {
      CyclePosition(r, f, a, n - 1);
      assert Chained(r, n);
      CallEffect(r[n - 1]);
    } else {
      SmallPlace(Phase(r[a].s, f), CycleLength(f));
    }
  }

  lemma KindAtPhase(c: Call)
    requires Reachable(c.s) && !c.IsClock()
    ensures c.Kind() == Picked(Pattern(c.f, Phase(c.s, c.f)))
  {
    CallEffect(c);
  }

  /** Cycle structure. In every stretch of every run, from whatever state it begins, as long as
      the flags stay the same the groups between the clock groups go through one cycle again and
      again, beginning where the counter stands. */
  lemma CycleStructure(r: seq<Call>, f: Flags, a: nat, n: nat)
    requires IsRun(r) && a <= n < |r| && !r[n].IsClock()
    requires forall i :: a <= i <= n ==> r[i].f == f
    ensures r[n].Kind() == Picked(Pattern(f, (Phase(r[a].s, f) + OthersFrom(r, a, n)) % CycleLength(f)))
  {
    CyclePosition(r, f, a, n);
    KindAtPhase(r[n]);
    PlaceIsRemainder(Phase(r[a].s, f) + OthersFrom(r, a, n), CycleLength(f));
  }
}
