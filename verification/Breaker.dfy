/** The shared circuit breaker with its bulkhead. Every critical section runs without suspending, so the start and
    the finish of a call are each one step; calls interleave freely between them. */
module Breaker {
  import opened Basics

  datatype CircuitState = Closed | Open | HalfOpen

  /** The breaker's fields, and the limits it was built with. */
  datatype Circuit = Circuit(state: CircuitState, failures: nat, openedAt: real, probe: bool, inFlight: nat,
                             threshold: nat, reset: real, limit: nat)

  datatype Verdict = Admitted | CircuitOpen | BulkheadFull

  /** How a call ended. A 4xx is an answer and says nothing against the downstream. */
  datatype Ending = Succeeded | Unhealthy | Answered4xx

  datatype Begun = Begun(circuit: Circuit, verdict: Verdict)

  function Fresh(threshold: nat, reset: real, limit: nat): Circuit {
    Circuit(Closed, 0, 0.0, false, 0, threshold, reset, limit)
  }

  /** Admission control; None when the call must not proceed. */
  function BeforeCall(c: Circuit, now: real): Option<Circuit> {
    match c.state
    case Closed => Some(c)
    case Open => if now - c.openedAt < c.reset then None else Some(c.(state := HalfOpen, probe := true))
    case HalfOpen => if c.probe then None else Some(c.(probe := true))
  }

  function Start(c: Circuit, now: real): Begun {
    match BeforeCall(c, now)
    case None => Begun(c, CircuitOpen)
    case Some(d) =>
      if d.inFlight >= d.limit then Begun(d, BulkheadFull) else Begun(d.(inFlight := d.inFlight + 1), Admitted)
  }

  function OnSuccess(c: Circuit): Circuit { c.(failures := 0, probe := false, state := Closed) }

  function OnFailure(c: Circuit, ending: Ending, now: real): Circuit {
    if !ending.Unhealthy? then c.(probe := false)
    else if c.state.HalfOpen? then c.(probe := false, state := Open, openedAt := now)
    else if c.failures + 1 >= c.threshold then c.(state := Open, openedAt := now, failures := 0)
    else c.(failures := c.failures + 1)
  }

  function Finish(c: Circuit, ending: Ending, now: real): Circuit {
    if c.inFlight == 0 then c
    else
      var d := if ending.Succeeded? then OnSuccess(c) else OnFailure(c, ending, now);
      d.(inFlight := d.inFlight - 1)
  }

  class AsyncCircuitBreaker {
    const threshold: nat
    const reset: real
    const limit: nat
    var state: CircuitState
    var failures: nat
    var openedAt: real
    var probe: bool
    var inFlight: nat

    function Fields(): Circuit
      reads this
    {
      Circuit(state, failures, openedAt, probe, inFlight, threshold, reset, limit)
    }

    ghost predicate Valid()
      reads this
    {
      Sound(Fields())
    }

    constructor (threshold: nat, reset: real, limit: nat)
      requires threshold >= 1 && limit >= 1
      ensures Valid() && Fields() == Fresh(threshold, reset, limit)
    {
      this.threshold, this.reset, this.limit := threshold, reset, limit;
      state, failures, openedAt, probe, inFlight := Closed, 0, 0.0, false, 0;
    }

    method Begin(now: real) returns (verdict: Verdict)
      requires Valid()
      modifies this
      ensures Valid() && Begun(Fields(), verdict) == Start(old(Fields()), now)
    {
      match state {
        case Closed =>
        case Open =>
          if now - openedAt < reset { return CircuitOpen; }
          state, probe := HalfOpen, true;
        case HalfOpen =>
          if probe { return CircuitOpen; }
          probe := true;
      }
      if inFlight >= limit { return BulkheadFull; }
      inFlight := inFlight + 1;
      return Admitted;
    }

    method End(ending: Ending, now: real)
      requires Valid() && inFlight > 0
      modifies this
      ensures Valid() && Fields() == Finish(old(Fields()), ending, now)
    {
      match ending {
        case Succeeded =>
          failures, probe, state := 0, false, Closed;
        case Answered4xx =>
          probe := false;
        case Unhealthy =>
          if state.HalfOpen? {
            probe, state, openedAt := false, Open, now;
          } else {
            failures := failures + 1;
            if failures >= threshold {
              state, openedAt, failures := Open, now, 0;
            }
          }
      }
      inFlight := inFlight - 1;
    }
  }

  /* ---------- every run ---------- */

  datatype Step = Starts(now: real) | Finishes(ending: Ending, now: real)

  function Take(c: Circuit, s: Step): Circuit {
    match s
    case Starts(now) => Start(c, now).circuit
    case Finishes(ending, now) => Finish(c, ending, now)
  }

  function Run(c: Circuit, steps: seq<Step>, n: nat): Circuit
    requires n <= |steps|
  {
    if n == 0 then c else Take(Run(c, steps, n - 1), steps[n - 1])
  }

  /** Within its limits, and a probe flag only ever set while half-open with some call in flight. */
  predicate Sound(c: Circuit) {
    && c.threshold >= 1 && c.limit >= 1
    && c.inFlight <= c.limit
    && c.failures < c.threshold
    && (c.probe ==> c.state.HalfOpen? && c.inFlight >= 1)
  }

  lemma {:induction false} EveryRunIsSound(threshold: nat, reset: real, limit: nat, steps: seq<Step>, n: nat)
    requires threshold >= 1 && limit >= 1 && n <= |steps|
    ensures var c := Run(Fresh(threshold, reset, limit), steps, n);
            Sound(c) && c.threshold == threshold && c.reset == reset && c.limit == limit
  {
    if n > 0 { EveryRunIsSound(threshold, reset, limit, steps, n - 1); }
  }

  /** The circuit is closed, is open past its reset time, or is half-open with no probe out. */
  predicate LetsThrough(c: Circuit, now: real) {
    c.state.Closed? || (c.state.Open? && now >= c.openedAt + c.reset) || (c.state.HalfOpen? && !c.probe)
  }

  /** A call enters exactly when there is room and the circuit is closed, is open past its reset time, or is half-open
      with no probe out; short of room it is turned away by the bulkhead, otherwise by the circuit. */
  lemma {:induction false} CallEntersIff(c: Circuit, now: real)
    ensures Start(c, now).verdict.Admitted? <==> LetsThrough(c, now) && c.inFlight < c.limit
    ensures Start(c, now).verdict.BulkheadFull? <==> LetsThrough(c, now) && c.inFlight >= c.limit
    ensures Start(c, now).circuit.inFlight == c.inFlight + if Start(c, now).verdict.Admitted? then 1 else 0
  {
  }

  /** The breaker never wedges: with nothing in flight and the reset time past, the next call is admitted. */
  lemma {:induction false} NeverWedges(threshold: nat, reset: real, limit: nat, steps: seq<Step>, n: nat, now: real)
    requires threshold >= 1 && limit >= 1 && n <= |steps|
    requires var c := Run(Fresh(threshold, reset, limit), steps, n);
             c.inFlight == 0 && (c.state.Open? ==> now - c.openedAt >= c.reset)
    ensures Start(Run(Fresh(threshold, reset, limit), steps, n), now).verdict == Admitted
  {
    EveryRunIsSound(threshold, reset, limit, steps, n);
  }

  /** Even a probe that the bulkhead turned away leaves the flag to be cleared by the next call that ends. */
  lemma {:induction false} AnyEndClearsTheProbe(c: Circuit, ending: Ending, now: real)
    requires Sound(c) && c.inFlight > 0
    ensures !Finish(c, ending, now).probe
  {
  }

  /** Once open, and until the reset time has passed since it opened, no call enters unless one in flight succeeds. */
  lemma {:induction false} OpenKeepsCallsOut(c: Circuit, steps: seq<Step>, n: nat)
    requires n <= |steps| && Sound(c) && c.state.Open?
    requires forall k :: 0 <= k < n ==> steps[k].now >= c.openedAt
    requires forall k :: 0 <= k < n && steps[k].Starts? ==> steps[k].now < c.openedAt + c.reset
    requires forall k :: 0 <= k < n && steps[k].Finishes? ==> !steps[k].ending.Succeeded?
    ensures var d := Run(c, steps, n);
            && d.state.Open? && d.openedAt >= c.openedAt && d.reset == c.reset && Sound(d)
            && d.inFlight <= c.inFlight
    ensures forall k :: 0 <= k < n && steps[k].Starts? ==> Start(Run(c, steps, k), steps[k].now).verdict == CircuitOpen
  {
    if n > 0 { OpenKeepsCallsOut(c, steps, n - 1); }
  }

  /** A failed probe, or the failure that reaches the threshold, shuts the circuit from that moment: until the reset
      time has passed since then no call enters unless one in flight succeeds. */
  lemma {:induction false} FailureShutsFromThen(c: Circuit, failed: real, steps: seq<Step>, n: nat, k: nat)
    requires k < n <= |steps| && Sound(c) && c.inFlight > 0
    requires c.state.HalfOpen? || (c.state.Closed? && c.failures + 1 == c.threshold)
    requires forall i :: 0 <= i < n ==> steps[i].now >= failed
    requires forall i :: 0 <= i < n && steps[i].Starts? ==> steps[i].now < failed + c.reset
    requires forall i :: 0 <= i < n && steps[i].Finishes? ==> !steps[i].ending.Succeeded?
    ensures var d := Run(Finish(c, Unhealthy, failed), steps, k);
            d.state.Open? && (steps[k].Starts? ==> Start(d, steps[k].now).verdict == CircuitOpen)
  {
    var d := Finish(c, Unhealthy, failed);
    assert Sound(d) && d.state.Open? && d.openedAt == failed && d.reset == c.reset;
    OpenKeepsCallsOut(d, steps, k);
    OpenKeepsCallsOut(d, steps, n);
  }

  /** Opening at the threshold forgets the failures that led to it: fewer than that many more, of calls still in flight,
      do not start the reset time again. */
  lemma {:induction false} OpeningForgets(c: Circuit, failed: real, steps: seq<Step>, n: nat)
    requires n <= |steps| && n < c.threshold && Sound(c) && c.inFlight > 0
    requires c.state.Closed? && c.failures + 1 == c.threshold
    requires forall i :: 0 <= i < n ==> steps[i].Finishes? && !steps[i].ending.Succeeded?
    ensures var d := Run(Finish(c, Unhealthy, failed), steps, n);
            d.state.Open? && d.openedAt == failed && d.failures <= n && d.threshold == c.threshold
  {
    if n > 0 { OpeningForgets(c, failed, steps, n - 1); }
  }

  /* ---------- opening ---------- */

  /** Unhealthy endings since the last success, among the first n steps. */
  function Streak(c: Circuit, steps: seq<Step>, n: nat): nat
    requires n <= |steps|
  {
    if n == 0 then 0
    else
      var s := steps[n - 1];
      if s.Starts? || Run(c, steps, n - 1).inFlight == 0 then Streak(c, steps, n - 1)
      else
        match s.ending
        case Succeeded => 0
        case Unhealthy => Streak(c, steps, n - 1) + 1
        case Answered4xx => Streak(c, steps, n - 1)
  }

  /** The circuit is closed exactly while its streak is short: it opens on the threshold-th consecutive failure. */
  lemma {:induction false} OpensAtTheThreshold(threshold: nat, reset: real, limit: nat, steps: seq<Step>, n: nat)
    requires threshold >= 1 && limit >= 1 && n <= |steps|
    ensures var c := Fresh(threshold, reset, limit);
            && (Run(c, steps, n).state.Closed? ==> Run(c, steps, n).failures == Streak(c, steps, n))
            && (Run(c, steps, n).state.Closed? <==> Streak(c, steps, n) < threshold)
  {
    if n > 0 {
      OpensAtTheThreshold(threshold, reset, limit, steps, n - 1);
      EveryRunIsSound(threshold, reset, limit, steps, n - 1);
    }
  }

  /* ---------- the single probe ---------- */

  /** The circuit, and how many of the calls in flight entered half-open. */
  datatype Tracked = Tracked(circuit: Circuit, probes: nat)

  /** A step, and for an ending whether a probe ended or a call that was in flight before. */
  datatype TrackedStep = TrackedStep(step: Step, ofProbe: bool)

  predicate Enters(c: Circuit, now: real) {
    Start(c, now).verdict.Admitted? && Start(c, now).circuit.state.HalfOpen?
  }

  /** Each step is one of the circuit's own; an ending needs a call of its kind in flight. */
  function Track(t: Tracked, s: TrackedStep): Tracked {
    match s.step
    case Starts(now) => Tracked(Take(t.circuit, s.step), t.probes + if Enters(t.circuit, now) then 1 else 0)
    case Finishes(_, _) =>
      if s.ofProbe then (if t.probes == 0 then t else Tracked(Take(t.circuit, s.step), t.probes - 1))
      else (if t.circuit.inFlight <= t.probes then t else Tracked(Take(t.circuit, s.step), t.probes))
  }

  function TrackRun(t: Tracked, steps: seq<TrackedStep>, n: nat): Tracked
    requires n <= |steps|
  {
    if n == 0 then t else Track(TrackRun(t, steps, n - 1), steps[n - 1])
  }

  /** The open circuit c, half-opened by a call that starts now. */
  function HalfOpened(c: Circuit, now: real): Tracked { Track(Tracked(c, 0), TrackedStep(Starts(now), false)) }

  predicate StaysHalfOpen(t: Tracked, steps: seq<TrackedStep>, n: nat)
    requires n <= |steps|
  {
    forall k :: 0 <= k <= n ==> TrackRun(t, steps, k).circuit.state.HalfOpen?
  }

  /** However calls start and end while the circuit is half-open, at most one probe is in flight. */
  ghost predicate SingleProbe(c: Circuit, now: real) {
    forall steps, n :: 0 <= n <= |steps| && StaysHalfOpen(HalfOpened(c, now), steps, n) ==>
      TrackRun(HalfOpened(c, now), steps, n).probes <= 1
  }

  predicate Probing(c: Circuit, now: real) { Sound(c) && c.state.Open? && now - c.openedAt >= c.reset }

  predicate TrackedOk(t: Tracked, limit: nat) {
    Sound(t.circuit) && t.probes <= t.circuit.inFlight && t.circuit.limit == limit
  }

  lemma {:induction false} TrackKeepsOk(t: Tracked, s: TrackedStep, limit: nat)
    requires TrackedOk(t, limit)
    ensures TrackedOk(Track(t, s), limit)
  {
  }

  lemma {:induction false} TrackedStaySound(c: Circuit, now: real, steps: seq<TrackedStep>, n: nat)
    requires n <= |steps| && Probing(c, now)
    ensures TrackedOk(TrackRun(HalfOpened(c, now), steps, n), c.limit)
  {
    if n == 0 {
      TrackKeepsOk(Tracked(c, 0), TrackedStep(Starts(now), false), c.limit);
    } else {
      TrackedStaySound(c, now, steps, n - 1);
      TrackKeepsOk(TrackRun(HalfOpened(c, now), steps, n - 1), steps[n - 1], c.limit);
    }
  }

  /** Half-opened with nothing else in flight, the one call in flight is the one the flag speaks of. */
  lemma {:induction false} ProbesOneAtATime(c: Circuit, now: real, steps: seq<TrackedStep>, n: nat)
    requires n <= |steps| && Probing(c, now) && c.inFlight == 0 && StaysHalfOpen(HalfOpened(c, now), steps, n)
    ensures var t := TrackRun(HalfOpened(c, now), steps, n);
            t.probes == t.circuit.inFlight <= 1 && (t.circuit.probe <==> t.circuit.inFlight == 1)
  {
    TrackedStaySound(c, now, steps, n);
    assert TrackRun(HalfOpened(c, now), steps, n).circuit.state.HalfOpen?;
    if n > 0 {
      assert StaysHalfOpen(HalfOpened(c, now), steps, n - 1);
      ProbesOneAtATime(c, now, steps, n - 1);
    }
  }

  /** Below a limit of two or more, a call from before that ends in a 4xx clears the flag for a second probe; with the
      bulkhead full the first such ending only makes room for the first probe. */
  function TwoProbes(c: Circuit, now: real): seq<TrackedStep> {
    var again := [TrackedStep(Finishes(Answered4xx, now), false), TrackedStep(Starts(now), false)];
    if c.inFlight < c.limit then again else again + again
  }

  lemma {:induction false} StaleCallAdmitsSecondProbe(c: Circuit, now: real)
    requires Probing(c, now) && c.inFlight >= 1 && c.limit >= 2
    ensures var steps := TwoProbes(c, now);
            && StaysHalfOpen(HalfOpened(c, now), steps, |steps|)
            && TrackRun(HalfOpened(c, now), steps, |steps|).probes == 2
  {
    var t, steps := HalfOpened(c, now), TwoProbes(c, now);
    assert TrackRun(t, steps, 0) == t;
    var t1 := TrackRun(t, steps, 1);
    assert t1 == Track(t, steps[0]);
    var t2 := TrackRun(t, steps, 2);
    assert t2 == Track(t1, steps[1]);
    if c.inFlight < c.limit {
      assert t2.probes == 2;
    } else {
      var t3 := TrackRun(t, steps, 3);
      assert t3 == Track(t2, steps[2]);
      assert TrackRun(t, steps, 4) == Track(t3, steps[3]);
      assert TrackRun(t, steps, 4).probes == 2;
    }
  }

  /** The promise of a single probe holds exactly when nothing was in flight or only one call may be. */
  lemma {:induction false} SingleProbeIff(c: Circuit, now: real)
    requires Probing(c, now)
    ensures SingleProbe(c, now) <==> c.inFlight == 0 || c.limit == 1
  {
    if c.inFlight == 0 || c.limit == 1 {
      forall steps, n | 0 <= n <= |steps| && StaysHalfOpen(HalfOpened(c, now), steps, n)
        ensures TrackRun(HalfOpened(c, now), steps, n).probes <= 1
      {
        TrackedStaySound(c, now, steps, n);
        if c.inFlight == 0 { ProbesOneAtATime(c, now, steps, n); }
      }
    } else {
      StaleCallAdmitsSecondProbe(c, now);
    }
  }
}
