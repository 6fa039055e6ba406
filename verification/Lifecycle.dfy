/** The life cycle of the encoder as a step machine: initialisation, the processing thread, its
    failure, and destruction from either side. Every step is atomic except that destruction of
    an active encoder waits in its middle for the thread to end. */
module Lifecycle {

  datatype Status = Inactive | Active | Terminated | Failed

  /** A buffer or the shared mapping: whether the pointer is set, and how often the memory was
      acquired and released. */
  datatype Resource = Resource(held: bool, acquired: nat, released: nat)

  datatype Life = Life(status: Status, stateMap: Resource, buffer0: Resource, buffer1: Resource, thread: bool)

  /** How initialisation ends. */
  datatype InitOutcome = NoMapping | NoBuffer0 | NoBuffer1 | NoThread | Ready

  datatype Step =
    | LoopFails                      // the thread could not generate a group
    | LoopExits                      // the thread leaves its loop and destroys the encoder
    | Destroy(loopFails: bool)       // the owner destroys it; the thread may fail meanwhile
    | ReadSample(enabled: bool)      // the MPX generator asks for a sample

  function None(): Resource { Resource(false, 0, 0) }

  function Acquire(r: Resource): Resource {
    Resource(true, r.acquired + 1, r.released)
  }

  /** Release and clear the pointer, unless it is clear. */
  function Release(r: Resource): Resource {
    if r.held then Resource(false, r.acquired, r.released + 1) else r
  }

  function Cleanup(l: Life): Life {
    l.(status := Terminated, stateMap := Release(l.stateMap),
       buffer0 := Release(l.buffer0), buffer1 := Release(l.buffer1))
  }

  function Init(outcome: InitOutcome): Life {
    var blank := Life(Inactive, None(), None(), None(), false);
    var mapped := blank.(stateMap := Acquire(None()));
    var one := mapped.(buffer0 := Acquire(None()));
    var two := one.(buffer1 := Acquire(None()));
    match outcome
    case NoMapping => blank
    case NoBuffer0 => Cleanup(mapped)
    case NoBuffer1 => Cleanup(one)
    case NoThread => Cleanup(two.(status := Failed))
    case Ready => two.(status := Active, thread := true)
  }

  /** The thread after its loop: it destroys the encoder, which is no longer active. */
  function EndOfThread(l: Life): Life {
    var ended := l.(thread := false);
    if l.status == Terminated then ended else Cleanup(ended)
  }

  function Next(l: Life, s: Step): Life {
    match s
    case LoopFails => if l.thread && l.status == Active then l.(status := Failed) else l
    case LoopExits => if l.thread && l.status != Active then EndOfThread(l) else l
    case Destroy(loopFails) =>
      if l.status == Terminated then l
      else if l.status != Active then Cleanup(l)
      else
        var stopped := l.(status := if l.thread && loopFails then Failed else Inactive);
        Cleanup(if l.thread then EndOfThread(stopped) else stopped)
    case ReadSample(_) => l
  }

  /** A sample is read from a buffer only when the encoder is active and enabled. */
  predicate TouchesBuffer(l: Life, s: Step) {
    s.ReadSample? && l.status == Active && s.enabled
  }

  function Run(outcome: InitOutcome, steps: seq<Step>): Life {
    if |steps| == 0 then Init(outcome) else Next(Run(outcome, steps[..|steps| - 1]), steps[|steps| - 1])
  }

  /** Nothing is released twice or before it was acquired, and what is held is not yet released. */
  ghost predicate Sound(r: Resource) {
    r.acquired <= 1 && r.released + (if r.held then 1 else 0) == r.acquired
  }

  ghost predicate SoundLife(l: Life) {
    && Sound(l.stateMap) && Sound(l.buffer0) && Sound(l.buffer1)
    && (l.status == Active || l.status == Failed ==> l.stateMap.held && l.buffer0.held && l.buffer1.held)
    && (l.status == Terminated ==> !l.stateMap.held && !l.buffer0.held && !l.buffer1.held)
    && (l.status == Inactive ==> !l.thread && l.stateMap == l.buffer0 == l.buffer1 == None())
  }

  /** In every run of initialisation, processing, failure and any number of destructions, each
      buffer and the mapping are released at most once, and exactly once if they were acquired
      and the encoder has terminated; and no sample is read from a released buffer. */
  lemma {:induction false} RunsAreSound(outcome: InitOutcome, steps: seq<Step>)
    ensures SoundLife(Run(outcome, steps))
    ensures forall s :: TouchesBuffer(Run(outcome, steps), s) ==>
              Run(outcome, steps).buffer0.held && Run(outcome, steps).buffer1.held
  {
    if |steps| > 0 { RunsAreSound(outcome, steps[..|steps| - 1]); }
  }

  /** TERMINATED is absorbing, and nothing is touched or released any more. */
  lemma {:induction false} TerminatedIsForever(outcome: InitOutcome, steps: seq<Step>, n: nat)
    requires n <= |steps| && Run(outcome, steps[..n]).status == Terminated
    ensures var l, m := Run(outcome, steps[..n]), Run(outcome, steps);
            m == l.(thread := m.thread)
  {
    if n < |steps| {
      var init := steps[..|steps| - 1];
      assert init[..n] == steps[..n];
      TerminatedIsForever(outcome, init, n);
    } else {
      assert steps[..n] == steps;
    }
  }

  /** Once the owner has destroyed the encoder it has terminated, whatever happened before. */
  lemma DestroyTerminates(outcome: InitOutcome, steps: seq<Step>, loopFails: bool)
    ensures Next(Run(outcome, steps), Destroy(loopFails)).status == Terminated
  {
    RunsAreSound(outcome, steps);
  }

  /** Everything that was acquired has been released, exactly once. */
  ghost predicate AllReleased(l: Life) {
    l.stateMap == l.buffer0 == l.buffer1 == Resource(false, 1, 1)
  }

  /** The thread runs exactly while the encoder is active or has failed. */
  lemma {:induction false} ThreadRuns(outcome: InitOutcome, steps: seq<Step>)
    ensures var l := Run(outcome, steps);
            && (l.status == Active ==> l.thread)
            && (l.status == Failed ==> l.thread)
            && (l.status == Active || l.status == Failed ==> outcome == Ready && l.stateMap.acquired == 1)
  {
    if |steps| > 0 { ThreadRuns(outcome, steps[..|steps| - 1]); }
  }

  /** A loop that fails leaves the encoder failed: the consumer reads nothing any more, nothing is
      released yet, and the failure is not forgotten until the encoder ends. */
  lemma FailureIsSeen(outcome: InitOutcome, steps: seq<Step>, s: Step)
    requires Run(outcome, steps).status == Active
    ensures var l := Run(outcome, steps + [LoopFails]);
            && l == Run(outcome, steps).(status := Failed)
            && l.stateMap.held && l.buffer0.held && l.buffer1.held && !TouchesBuffer(l, s)
            && (Next(l, s).status == Failed || Next(l, s).status == Terminated)
  {
    assert (steps + [LoopFails])[..|steps|] == steps;
    ThreadRuns(outcome, steps);
    RunsAreSound(outcome, steps);
  }

  /** The thread then ends by itself, and everything is released once, whatever the consumer and
      the loop do in between. */
  lemma FailureReleasesAll(outcome: InitOutcome, steps: seq<Step>, more: seq<Step>)
    requires Run(outcome, steps).status == Active
    requires forall i :: 0 <= i < |more| ==> more[i].ReadSample? || more[i].LoopFails?
    ensures var l := Run(outcome, steps + [LoopFails] + more + [LoopExits]);
            l.status == Terminated && !l.thread && AllReleased(l)
  {
    var failed := steps + [LoopFails];
    ThreadRuns(outcome, steps);
    RunsAreSound(outcome, steps);
    assert failed[..|steps|] == steps;
    FailureLasts(outcome, failed, more);
    assert (failed + more + [LoopExits])[..|failed + more|] == failed + more;
  }

  lemma {:induction false} FailureLasts(outcome: InitOutcome, steps: seq<Step>, more: seq<Step>)
    requires Run(outcome, steps).status == Failed
    requires forall i :: 0 <= i < |more| ==> more[i].ReadSample? || more[i].LoopFails?
    ensures Run(outcome, steps + more) == Run(outcome, steps)
  {
    if |more| == 0 {
      assert steps + more == steps;
    } else {
      assert (steps + more)[..|steps + more| - 1] == steps + more[..|more| - 1];
      FailureLasts(outcome, steps, more[..|more| - 1]);
    }
  }

  /** An encoder that ends without a failure ends the same way: the owner's destruction of an active
      encoder stops the thread and releases everything once. */
  lemma DestroyReleasesAll(outcome: InitOutcome, steps: seq<Step>, loopFails: bool)
    requires Run(outcome, steps).status == Active
    ensures var l := Next(Run(outcome, steps), Destroy(loopFails));
            l.status == Terminated && !l.thread && AllReleased(l)
  {
    ThreadRuns(outcome, steps);
    RunsAreSound(outcome, steps);
  }

  /** Without a failure or a destruction the encoder stays active. */
  lemma {:induction false} StaysActive(steps: seq<Step>)
    requires forall i :: 0 <= i < |steps| ==> !steps[i].LoopFails? && !steps[i].Destroy?
    ensures Run(Ready, steps) == Init(Ready) && Run(Ready, steps).status == Active
  {
    if |steps| > 0 { StaysActive(steps[..|steps| - 1]); }
  }
}
