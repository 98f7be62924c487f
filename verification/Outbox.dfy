/** saga-dispatcher's retry policy (dispatch_rules) and the life of one outbox row under it (process_one). */
module Outbox {
  import opened Basics

  datatype Disposition = Settle | Retry | Park

  datatype SagaAck = Applied | Deferred | DeadLettered | Error

  function ClassifySagaResponse(status: int): SagaAck {
    if status < 300 then Applied
    else if status == CONFLICT then Deferred
    else if status == UNPROCESSABLE then DeadLettered
    else Error
  }

  /** Reporting an event settles the command when the saga took it or will never take it. */
  function AfterReport(status: int): Disposition {
    var ack := ClassifySagaResponse(status);
    if ack.Applied? || ack.DeadLettered? then Settle else Retry
  }

  function ClassifyCommandFailure(status: Option<int>): Disposition {
    if status.None? then Retry
    else if 200 <= status.value < 300 then Settle
    else if status.value in {408, 425, 429} then Retry
    else if status.value >= 500 then Retry
    else if status.value in {400, 404, 409, 410, 422} then Park
    else Retry
  }

  const BASE := 2.0
  const CAP := 300.0
  const MAX_ATTEMPTS := 15
  const LEASE := 120.0

  function Doubled(x: real, times: nat): real {
    if times == 0 then x else 2.0 * Doubled(x, times - 1)
  }

  function Capped(attempts: nat): real
    requires attempts >= 1
  {
    var doubled := Doubled(BASE, attempts - 1);
    if doubled < CAP then doubled else CAP
  }

  /** `jitter` is a fraction in [0, 1) and only ever shortens the wait. */
  function Backoff(attempts: nat, jitter: real): real
    requires attempts >= 1 && 0.0 <= jitter < 1.0
  {
    Jittered(Capped(attempts), jitter)
  }

  function Jittered(delay: real, jitter: real): real { delay * (1.0 - 0.5 * jitter) }

  function DispositionAfter(d: Disposition, attempts: nat): Disposition {
    if d.Retry? && attempts >= MAX_ATTEMPTS then Park else d
  }

  /** The delivery columns of an outbox row; `recorded` is its entry in processed_events. */
  datatype Delivery = Delivery(attempts: nat, processed: bool, parked: bool, recorded: bool,
                               claimedAt: Option<real>, nextAttempt: Option<real>)

  const Fresh := Delivery(0, false, false, false, None, None)

  predicate Claimable(d: Delivery, now: real) {
    && !d.processed && !d.parked
    && (d.nextAttempt.None? || d.nextAttempt.value <= now)
    && (d.claimedAt.None? || d.claimedAt.value < now - LEASE)
  }

  /** What an attempt amounted to. Load shedding is always retried and spends no attempt. */
  datatype Outcome = Handled(disposition: Disposition) | Shed

  function Verdict(o: Outcome): Disposition { if o.Shed? then Retry else o.disposition }
  function Spent(o: Outcome): nat { if o.Shed? then 0 else 1 }

  /** The settle phase of process_one. */
  function AfterAttempt(d: Delivery, o: Outcome, jitter: real, now: real): Delivery
    requires 0.0 <= jitter < 1.0
  {
    if Verdict(o).Settle? then d.(processed := true)
    else
      var attempts := d.attempts + Spent(o);
      if DispositionAfter(Verdict(o), attempts).Park? then
        d.(recorded := false, claimedAt := None, attempts := d.attempts + 1, parked := true)
      else
        d.(recorded := false, claimedAt := None, attempts := attempts,
           nextAttempt := Some(now + Backoff(if attempts < 1 then 1 else attempts, jitter)))
  }

  /* ---------- one row in the worker's hands ---------- */

  class OutboxRow {
    var attempts: nat
    var processed: bool
    var parked: bool
    var recorded: bool
    var claimedAt: Option<real>
    var nextAttempt: Option<real>

    function State(): Delivery
      reads this
    {
      Delivery(attempts, processed, parked, recorded, claimedAt, nextAttempt)
    }

    method Claim(now: real) returns (claimed: bool)
      modifies this`claimedAt
      ensures claimed <==> && !processed && !parked
                           && (nextAttempt.Some? ==> nextAttempt.value <= now)
                           && (old(claimedAt).Some? ==> now > old(claimedAt).value + 120.0)
      ensures State() == if claimed then old(State()).(claimedAt := Some(now)) else old(State())
    {
      claimed := Claimable(State(), now);
      if claimed { claimedAt := Some(now); }
    }

    /** `outcome` is what handle returned, or Shed when a breaker refused the call. True when the row left the queue. */
    method ProcessOne(outcome: Outcome, jitter: real, now: real) returns (done: bool)
      requires 0.0 <= jitter < 1.0
      modifies this
      ensures State() == if old(recorded) then old(State()).(processed := true)
                         else AfterAttempt(old(State()).(recorded := true), outcome, jitter, now)
      ensures !old(processed) && !old(parked) ==> done == (processed || parked)
    {
      if recorded {
        processed := true;
        return true;
      }
      recorded := true;
      if Verdict(outcome).Settle? {
        processed := true;
        return true;
      }
      recorded := false;
      var tried := attempts + Spent(outcome);
      claimedAt := None;
      if DispositionAfter(Verdict(outcome), tried).Park? {
        attempts, parked := attempts + 1, true;
        return true;
      }
      nextAttempt := Some(now + Backoff(if tried < 1 then 1 else tried, jitter));
      attempts := tried;
      return false;
    }
  }

  /* ---------- what an answer does to a row ---------- */

  /** The answers that will not change however often the call is repeated. */
  predicate Hopeless(status: int) { status in {400, 404, 409, 410, 422} }

  /** A downstream answer finishes the row when it is a success, parks it when it is hopeless or the fifteenth failure,
      and otherwise puts it off by one more try. */
  lemma {:induction false} AnswerDecides(d: Delivery, status: int, jitter: real, now: real)
    requires !d.processed && !d.parked && d.attempts < 15 && 0.0 <= jitter < 1.0
    ensures var after := AfterAttempt(d, Handled(ClassifyCommandFailure(Some(status))), jitter, now);
            && (after.processed <==> 200 <= status < 300)
            && (after.parked <==> Hopeless(status) || (!(200 <= status < 300) && d.attempts == 14))
            && (!after.processed ==> !after.recorded && after.claimedAt.None? && after.attempts == d.attempts + 1)
            && (!after.processed && !after.parked ==> after.nextAttempt.Some? && after.nextAttempt.value > now)
  {
    DoublingIsPositive(d.attempts);
    BackoffIsBetween(d.attempts + 1, jitter);
  }

  /** A report finishes the row when the saga took the event or never will; a deferral or a fault puts it off, and the
      fifteenth parks it. */
  lemma {:induction false} ReportDecides(d: Delivery, status: int, jitter: real, now: real)
    requires !d.processed && !d.parked && d.attempts < 15 && 0.0 <= jitter < 1.0
    ensures var after := AfterAttempt(d, Handled(AfterReport(status)), jitter, now);
            && (after.processed <==> status < 300 || status == 422)
            && (after.parked <==> !(status < 300 || status == 422) && d.attempts == 14)
  {
  }

  /** Load shedding spends no try. */
  lemma {:induction false} SheddingIsFree(d: Delivery, jitter: real, now: real)
    requires !d.processed && !d.parked && d.attempts < 15 && 0.0 <= jitter < 1.0
    ensures var after := AfterAttempt(d, Shed, jitter, now);
            && !after.processed && !after.parked && !after.recorded && after.attempts == d.attempts
            && after.claimedAt.None? && after.nextAttempt.Some? && after.nextAttempt.value > now
  {
    var tries := if d.attempts < 1 then 1 else d.attempts;
    DoublingIsPositive(tries - 1);
    BackoffIsBetween(tries, jitter);
  }

  /* ---------- every run of a row ---------- */

  /** A tick either claims the row and works it to the end, or claims it and dies after recording the event. */
  datatype Step =
    | Attempt(outcome: Outcome, jitter: real, now: real)
    | Crash(now: real)

  predicate WellTimed(s: Step) { s.Attempt? ==> 0.0 <= s.jitter < 1.0 }

  function Take(d: Delivery, s: Step): Delivery
    requires WellTimed(s)
  {
    if !Claimable(d, s.now) then d
    else if s.Crash? then d.(recorded := true, claimedAt := Some(s.now))
    else
      var claimed := d.(claimedAt := Some(s.now));
      if d.recorded then claimed.(processed := true)
      else AfterAttempt(claimed.(recorded := true), s.outcome, s.jitter, s.now)
  }

  function RunRow(steps: seq<Step>, n: nat): Delivery
    requires n <= |steps| && forall i :: 0 <= i < |steps| ==> WellTimed(steps[i])
  {
    if n == 0 then Fresh else Take(RunRow(steps, n - 1), steps[n - 1])
  }

  /** Some claimed attempt among the first n was settled by handle. */
  predicate SettledIn(steps: seq<Step>, n: nat)
    requires n <= |steps| && forall i :: 0 <= i < |steps| ==> WellTimed(steps[i])
  {
    n > 0 &&
    (|| SettledIn(steps, n - 1)
     || (steps[n - 1].Attempt? && Verdict(steps[n - 1].outcome).Settle?
         && Claimable(RunRow(steps, n - 1), steps[n - 1].now) && !RunRow(steps, n - 1).recorded))
  }

  /** Some claimed attempt among the first n died between recording the event and settling the row. */
  predicate CrashedIn(steps: seq<Step>, n: nat)
    requires n <= |steps| && forall i :: 0 <= i < |steps| ==> WellTimed(steps[i])
  {
    n > 0 && (CrashedIn(steps, n - 1) || (steps[n - 1].Crash? && Claimable(RunRow(steps, n - 1), steps[n - 1].now)))
  }

  /** In every run a row is never both processed and parked, and while unparked it has attempts left. */
  lemma {:induction false} LifecycleIsSound(steps: seq<Step>, n: nat)
    requires n <= |steps| && forall i :: 0 <= i < |steps| ==> WellTimed(steps[i])
    ensures var d := RunRow(steps, n);
            && !(d.processed && d.parked)
            && (!d.parked ==> d.attempts < MAX_ATTEMPTS)
            && d.attempts <= MAX_ATTEMPTS
  {
    if n > 0 { LifecycleIsSound(steps, n - 1); }
  }

  /** Shedding load never parks a row, whatever happened to it before. */
  lemma {:induction false} SheddingNeverParks(steps: seq<Step>, n: nat, jitter: real, now: real)
    requires n <= |steps| && forall i :: 0 <= i < |steps| ==> WellTimed(steps[i])
    requires 0.0 <= jitter < 1.0 && !RunRow(steps, n).parked
    ensures !Take(RunRow(steps, n), Attempt(Shed, jitter, now)).parked
  {
    LifecycleIsSound(steps, n);
  }

  /** Without a crash a row is processed exactly when handle settled it. */
  lemma {:induction false} ProcessedMeansSettled(steps: seq<Step>, n: nat)
    requires n <= |steps| && forall i :: 0 <= i < |steps| ==> WellTimed(steps[i])
    requires !CrashedIn(steps, n)
    ensures RunRow(steps, n).processed <==> SettledIn(steps, n)
    ensures !RunRow(steps, n).processed ==> !RunRow(steps, n).recorded
  {
    if n > 0 { ProcessedMeansSettled(steps, n - 1); }
  }

  /** A dispatcher that dies right after recording the event gets the command marked processed unhandled. */
  lemma {:induction false} CrashMarksProcessedUnhandled()
    ensures var steps := [Crash(0.0), Attempt(Handled(Retry), 0.0, 121.0)];
            RunRow(steps, 2).processed && !SettledIn(steps, 2)
  {
    var steps := [Crash(0.0), Attempt(Handled(Retry), 0.0, 121.0)];
    assert RunRow(steps, 1) == Delivery(0, false, false, true, Some(0.0), None);
  }

  /* ---------- how long a failing row is tried ---------- */

  /** Attempts among the first n that claimed the row and spent one of its tries. */
  function Tried(steps: seq<Step>, n: nat): nat
    requires n <= |steps| && forall i :: 0 <= i < |steps| ==> WellTimed(steps[i])
  {
    if n == 0 then 0
    else
      var s := steps[n - 1];
      Tried(steps, n - 1) + if s.Attempt? && Claimable(RunRow(steps, n - 1), s.now) then Spent(s.outcome) else 0
  }

  /** Whatever handle answers, a row that has spent fifteen tries has ended: processed or parked. */
  lemma {:induction false} EndsWithinFifteenTries(steps: seq<Step>, n: nat)
    requires n <= |steps| && forall i :: 0 <= i < |steps| ==> WellTimed(steps[i])
    requires !CrashedIn(steps, n)
    ensures var d := RunRow(steps, n);
            && (!d.processed && !d.parked ==> d.attempts == Tried(steps, n))
            && (Tried(steps, n) >= MAX_ATTEMPTS ==> d.processed || d.parked)
  {
    if n > 0 {
      EndsWithinFifteenTries(steps, n - 1);
      ProcessedMeansSettled(steps, n - 1);
      LifecycleIsSound(steps, n);
    }
  }

  predicate OnlyRetryable(steps: seq<Step>) {
    forall i :: 0 <= i < |steps| ==> steps[i].Attempt? && Verdict(steps[i].outcome).Retry?
  }

  /** A row that only ever fails retryably is tried exactly fifteen times and then parked, sheds not counted. */
  lemma {:induction false} ParksOnTheFifteenth(steps: seq<Step>, n: nat)
    requires n <= |steps| && (forall i :: 0 <= i < |steps| ==> WellTimed(steps[i])) && OnlyRetryable(steps)
    ensures var d := RunRow(steps, n);
            && !d.processed && !d.recorded
            && d.attempts == Tried(steps, n)
            && (d.parked <==> Tried(steps, n) == MAX_ATTEMPTS)
            && Tried(steps, n) <= MAX_ATTEMPTS
  {
    if n > 0 { ParksOnTheFifteenth(steps, n - 1); }
  }

  /** The waits written to next_attempt_at by the spent tries among the first n steps. */
  function Scheduled(steps: seq<Step>, n: nat): real
    requires n <= |steps| && (forall i :: 0 <= i < |steps| ==> WellTimed(steps[i])) && OnlyRetryable(steps)
  {
    if n == 0 then 0.0
    else
      var d, s := RunRow(steps, n - 1), steps[n - 1];
      var after := RunRow(steps, n);
      Scheduled(steps, n - 1) +
      if Claimable(d, s.now) && Spent(s.outcome) == 1 && after.nextAttempt.Some? && !after.parked
      then after.nextAttempt.value - s.now else 0.0
  }

  /** Fourteen tries are followed by a wait, the fifteenth parks. */
  function Waits(tried: nat): nat { if tried < MAX_ATTEMPTS then tried else MAX_ATTEMPTS - 1 }

  /** The first n waits with no jitter at all. */
  function FullWait(n: nat): real {
    if n == 0 then 0.0 else FullWait(n - 1) + Backoff(n, 0.0)
  }

  lemma {:induction false} JitterHalvesAtMost(steps: seq<Step>, n: nat)
    requires n <= |steps| && (forall i :: 0 <= i < |steps| ==> WellTimed(steps[i])) && OnlyRetryable(steps)
    ensures Scheduled(steps, n) <= FullWait(Waits(Tried(steps, n)))
    ensures Tried(steps, n) > 0 ==> FullWait(Waits(Tried(steps, n))) < 2.0 * Scheduled(steps, n)
    ensures Tried(steps, n) == 0 ==> Scheduled(steps, n) == 0.0
  {
    if n > 0 {
      JitterHalvesAtMost(steps, n - 1);
      ParksOnTheFifteenth(steps, n - 1);
      ParksOnTheFifteenth(steps, n);
      var d, s := RunRow(steps, n - 1), steps[n - 1];
      if Claimable(d, s.now) && Spent(s.outcome) == 1 && !RunRow(steps, n).parked {
        BackoffIsBetween(d.attempts + 1, s.jitter);
      }
    }
  }

  lemma {:induction false} JitterIsBetween(delay: real, jitter: real)
    requires delay > 0.0 && 0.0 <= jitter < 1.0
    ensures Jittered(delay, jitter) <= Jittered(delay, 0.0)
    ensures Jittered(delay, 0.0) < 2.0 * Jittered(delay, jitter)
  {
    assert delay * jitter >= 0.0;
    assert delay * (1.0 - jitter) > 0.0;
    assert delay * (1.0 - jitter) == delay - delay * jitter;
    assert Jittered(delay, jitter) == delay - 0.5 * (delay * jitter);
  }

  lemma {:induction false} BackoffIsBetween(n: nat, jitter: real)
    requires n >= 1 && 0.0 <= jitter < 1.0
    ensures Backoff(n, jitter) <= Backoff(n, 0.0)
    ensures Backoff(n, 0.0) < 2.0 * Backoff(n, jitter)
  {
    DoublingIsPositive(n - 1);
    JitterIsBetween(Capped(n), jitter);
  }

  lemma {:induction false} DoublingIsPositive(n: nat)
    ensures Doubled(BASE, n) > 0.0
  {
    if n > 0 { DoublingIsPositive(n - 1); }
  }

  lemma {:induction false} FullWaitIs2310()
    ensures FullWait(14) == 2310.0
  {
    assert Doubled(BASE, 0) == 2.0;
    assert Doubled(BASE, 2) == 8.0;
    assert Doubled(BASE, 4) == 32.0;
    assert Doubled(BASE, 6) == 128.0;
    assert Doubled(BASE, 8) == 512.0;
    assert Doubled(BASE, 10) == 2048.0;
    assert Doubled(BASE, 12) == 8192.0;
    assert FullWait(2) == 6.0;
    assert FullWait(4) == 30.0;
    assert FullWait(6) == 126.0;
    assert FullWait(8) == 510.0;
    assert FullWait(10) == 1110.0;
    assert FullWait(12) == 1710.0;
  }

  /** A parked row that only failed retryably was scheduled waits of more than 1155 and at most 2310 seconds. */
  lemma {:induction false} TotalBackoffIsBounded(steps: seq<Step>, n: nat)
    requires n <= |steps| && (forall i :: 0 <= i < |steps| ==> WellTimed(steps[i])) && OnlyRetryable(steps)
    requires RunRow(steps, n).parked
    ensures Tried(steps, n) == MAX_ATTEMPTS
    ensures 1155.0 < Scheduled(steps, n) <= 2310.0
  {
    ParksOnTheFifteenth(steps, n);
    JitterHalvesAtMost(steps, n);
    FullWaitIs2310();
  }
}
