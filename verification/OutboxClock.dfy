/** The dispatcher's waits in clock time: what is written to a row is waited, a lease keeps others out, and no row is
    left behind for longer than the longest wait. */
module OutboxClock {
  import opened Basics
  import opened Outbox

  predicate Timed(steps: seq<Step>) { forall i :: 0 <= i < |steps| ==> WellTimed(steps[i]) }

  /** Step n took the row. */
  predicate Claimed(steps: seq<Step>, n: nat)
    requires Timed(steps)
  {
    n < |steps| && Claimable(RunRow(steps, n), steps[n].now)
  }

  /** Step n took the row, tried it, and put it off. */
  predicate PutOff(steps: seq<Step>, n: nat)
    requires Timed(steps)
  {
    && Claimed(steps, n) && steps[n].Attempt? && !RunRow(steps, n + 1).processed && !RunRow(steps, n + 1).parked
  }

  /* ---------- the waits ---------- */

  /** Undisturbed, a wait is two seconds after the first try and doubles up to five minutes. */
  lemma {:induction false} WaitsDouble(n: nat)
    requires n >= 1
    ensures Backoff(1, 0.0) == 2.0
    ensures var twice := 2.0 * Backoff(n, 0.0); Backoff(n + 1, 0.0) == if twice < 300.0 then twice else 300.0
  {
    assert Doubled(BASE, 0) == 2.0;
    DoublingIsPositive(n - 1);
  }

  /** How long step n put the row off: by its tries so far, or as after the first while nothing was spent. */
  function WaitAfter(steps: seq<Step>, n: nat): real
    requires Timed(steps) && PutOff(steps, n)
  {
    var tries := RunRow(steps, n + 1).attempts;
    Backoff(if tries < 1 then 1 else tries, steps[n].jitter)
  }

  predicate DueAfter(d: Delivery, t: real) { d.nextAttempt.Some? && d.nextAttempt.value >= t }

  lemma {:induction false} PuttingOffSetsTheTime(steps: seq<Step>, n: nat)
    requires Timed(steps) && PutOff(steps, n)
    ensures RunRow(steps, n + 1).nextAttempt == Some(steps[n].now + WaitAfter(steps, n)) && WaitAfter(steps, n) > 0.0
  {
    var tries := RunRow(steps, n + 1).attempts;
    BackoffIsBetween(if tries < 1 then 1 else tries, steps[n].jitter);
    DoublingIsPositive(if tries < 1 then 0 else tries - 1);
  }

  lemma {:induction false} DueTimeOnlyGrows(steps: seq<Step>, n: nat, t: real)
    requires Timed(steps) && n < |steps| && DueAfter(RunRow(steps, n), t)
    ensures DueAfter(RunRow(steps, n + 1), t)
  {
    if PutOff(steps, n) { PuttingOffSetsTheTime(steps, n); }
  }

  lemma {:induction false} DueFromThen(steps: seq<Step>, m: nat, n: nat)
    requires Timed(steps) && m < n <= |steps| && PutOff(steps, m)
    ensures DueAfter(RunRow(steps, n), steps[m].now + WaitAfter(steps, m))
  {
    if n == m + 1 {
      PuttingOffSetsTheTime(steps, m);
    } else {
      DueFromThen(steps, m, n - 1);
      DueTimeOnlyGrows(steps, n - 1, steps[m].now + WaitAfter(steps, m));
    }
  }

  /** In every run, crashes included and whatever the clock does: once a try put the row off, nobody takes it before
      that wait has passed. */
  lemma {:induction false} EveryWaitIsWaited(steps: seq<Step>, m: nat, n: nat)
    requires Timed(steps) && m < n && PutOff(steps, m) && Claimed(steps, n)
    ensures steps[n].now >= steps[m].now + WaitAfter(steps, m)
  {
    DueFromThen(steps, m, n);
  }

  /* ---------- how long a failing row lasts ---------- */

  /** Step i spent the row's first try. */
  predicate FirstTry(steps: seq<Step>, i: nat)
    requires Timed(steps)
  {
    i < |steps| && Tried(steps, i) == 0 && Tried(steps, i + 1) == 1
  }

  lemma {:induction false} TriesOnlyGrow(steps: seq<Step>, m: nat, n: nat)
    requires Timed(steps) && m <= n <= |steps|
    ensures Tried(steps, m) <= Tried(steps, n)
  {
    if m < n { TriesOnlyGrow(steps, m, n - 1); }
  }

  lemma {:induction false} ScheduledIsWaited(steps: seq<Step>, i: nat, n: nat)
    requires Timed(steps) && OnlyRetryable(steps) && FirstTry(steps, i) && i < n <= |steps| && !RunRow(steps, n).parked
    ensures DueAfter(RunRow(steps, n), steps[i].now + Scheduled(steps, n))
  {
    ParksOnTheFifteenth(steps, n - 1);
    ParksOnTheFifteenth(steps, n);
    var s := steps[n - 1];
    if n == i + 1 {
      JitterHalvesAtMost(steps, i);
      assert PutOff(steps, i);
      PuttingOffSetsTheTime(steps, i);
    } else {
      ScheduledIsWaited(steps, i, n - 1);
      if PutOff(steps, n - 1) { PuttingOffSetsTheTime(steps, n - 1); }
    }
  }

  /** A row that only fails retryably is parked more than 1155 seconds of clock time after its first try. */
  lemma {:induction false} ParksAfterNineteenMinutes(steps: seq<Step>, i: nat, n: nat)
    requires Timed(steps) && OnlyRetryable(steps) && FirstTry(steps, i) && n < |steps|
    requires !RunRow(steps, n).parked && RunRow(steps, n + 1).parked
    ensures i < n && steps[n].now - steps[i].now > 1155.0
  {
    ParksOnTheFifteenth(steps, n);
    TotalBackoffIsBounded(steps, n + 1);
    if n <= i { TriesOnlyGrow(steps, n + 1, i + 1); }
    ScheduledIsWaited(steps, i, n);
    assert Scheduled(steps, n + 1) == Scheduled(steps, n);
  }

  /* ---------- the lease ---------- */

  predicate ClockRuns(steps: seq<Step>) { forall i, j :: 0 <= i < j < |steps| ==> steps[i].now <= steps[j].now }

  lemma {:induction false} HeldOrTakenLate(steps: seq<Step>, m: nat, n: nat)
    requires Timed(steps) && ClockRuns(steps) && m < n <= |steps| && Claimed(steps, m) && steps[m].Crash?
    ensures || RunRow(steps, n).claimedAt == Some(steps[m].now)
            || exists j :: m < j < n && steps[j].now > steps[m].now + 120.0
  {
    if n > m + 1 {
      HeldOrTakenLate(steps, m, n - 1);
      if RunRow(steps, n - 1).claimedAt == Some(steps[m].now) && Claimed(steps, n - 1) {
        assert steps[n - 1].now > steps[m].now + 120.0;
      }
    }
  }

  /** A worker that took a row and never let go of it keeps everyone else out for 120 seconds. */
  lemma {:induction false} LeaseKeepsOthersOut(steps: seq<Step>, m: nat, n: nat)
    requires Timed(steps) && ClockRuns(steps) && m < n && Claimed(steps, m) && steps[m].Crash? && Claimed(steps, n)
    ensures steps[n].now > steps[m].now + 120.0
  {
    HeldOrTakenLate(steps, m, n);
  }

  /* ---------- nothing is left behind ---------- */

  lemma {:induction false} DueWithinFiveMinutes(steps: seq<Step>, n: nat, latest: real)
    requires Timed(steps) && n <= |steps| && forall i :: 0 <= i < n ==> steps[i].now <= latest
    ensures var d := RunRow(steps, n);
            && (d.nextAttempt.Some? ==> d.nextAttempt.value <= latest + 300.0)
            && (d.claimedAt.Some? ==> d.claimedAt.value <= latest)
  {
    if n > 0 {
      DueWithinFiveMinutes(steps, n - 1, latest);
      if PutOff(steps, n - 1) {
        PuttingOffSetsTheTime(steps, n - 1);
        var tries := RunRow(steps, n).attempts;
        BackoffIsBetween(if tries < 1 then 1 else tries, steps[n - 1].jitter);
      }
    }
  }

  /** After any run a row that is neither processed nor parked can be taken again once five minutes have passed. */
  lemma {:induction false} NoRowIsLeftBehind(steps: seq<Step>, latest: real, now: real)
    requires Timed(steps) && (forall i :: 0 <= i < |steps| ==> steps[i].now <= latest) && now > latest + 300.0
    ensures var d := RunRow(steps, |steps|); Claimable(d, now) <==> !d.processed && !d.parked
  {
    DueWithinFiveMinutes(steps, |steps|, latest);
  }
}
