/**
 The backoff schedule.  An event that is never reclaimed has one owner at a
 time, so its delays are exactly those of attempts 1, 2, 3, ...; a dead-lettered
 event waited out all of them.
 */
module OutboxBackoff {
  import opened Prelude
  import opened OutboxTable
  import opened OutboxProtocol
  import opened OutboxOwnership
  import opened OutboxSafety

  /** Delays scheduled after the failures of attempts 1 to n. */
  function Backoff(n: nat): int {
    if n == 0 then 0 else Backoff(n - 1) + RetryDelay(n)
  }

  lemma {:induction false} Pow2Monotone(a: nat, b: nat)
    requires a <= b
    ensures Pow2(a) <= Pow2(b)
    decreases b - a
  {
    if a < b {
      Pow2Monotone(a + 1, b);
    }
  }

  /** The delay doubles from one second to 256; the five-minute cap is never reached. */
  lemma RetryDelayDoubles(attempt: int)
    ensures attempt <= 1 ==> RetryDelay(attempt) == 1_000_000_000
    ensures 1 <= attempt <= 8 ==> RetryDelay(attempt + 1) == 2 * RetryDelay(attempt)
    ensures attempt >= 9 ==> RetryDelay(attempt) == 256_000_000_000
    ensures SECOND <= RetryDelay(attempt) <= 256 * SECOND < 5 * MINUTE == 300_000_000_000
  {
    assert Pow2(0) == 1 && Pow2(4) == 16;
    assert Pow2(8) == 256;
    var a := if attempt < 1 then 1 else attempt;
    Pow2Monotone(Min(a - 1, 8), 8);
    if attempt >= 1 {
      Pow2Monotone(Min(attempt, 8), 8);
    }
  }

  /** 2^n - 1 seconds for the first nine failures, then 256 seconds more for each. */
  lemma {:induction false} BackoffClosedForm(n: nat)
    ensures n <= 9 ==> Backoff(n) == (Pow2(n) - 1) * SECOND
    ensures n >= 9 ==> Backoff(n) == (511 + 256 * (n - 9)) * SECOND
  {
    assert Pow2(0) == 1 && Pow2(5) == 32;
    assert Pow2(9) == 512;
    if n > 0 {
      BackoffClosedForm(n - 1);
      RetryDelayDoubles(n);
      if n <= 9 {
        assert RetryDelay(n) == SECOND * Pow2(n - 1) by {
          Pow2Monotone(n - 1, 8);
          assert Pow2(8) == 256;
        }
      }
    }
  }

  // ----- the schedule of one event -------------------------------------------

  /** What has been scheduled so far, and the time that must have passed. */
  ghost predicate OnSchedule(r: Row, tr: Trace, now: int) {
    && (r.attempts == 0 ==> tr.backoff == 0 && tr.firstClaim.None?)
    && (r.attempts > 0 ==> tr.firstClaim.Some?)
    && (r.status.Pending? ==> r.attempts == 0)
    && (r.attempts > 0 && r.status.Failed? ==>
          tr.backoff == Backoff(r.attempts) && r.availableAt >= tr.firstClaim.value + tr.backoff)
    && (r.attempts > 0 && r.status.Processing? ==>
          tr.backoff == Backoff(r.attempts - 1) && now >= tr.firstClaim.value + tr.backoff)
    && (r.attempts > 0 && r.status.DeadLetter? ==>
          && tr.backoff == Backoff(r.attempts - 1) && tr.deadAt.Some?
          && tr.deadAt.value >= tr.firstClaim.value + tr.backoff)
  }

  lemma ClaimKeepsSchedule(r: Row, tr: Trace, now: int)
    requires OnSchedule(r, tr, now)
    requires Ready(r, now)
    ensures OnSchedule(ClaimedRow(r, now), ClaimTrace(tr, r, now), now)
  {
  }

  lemma MarkKeepsSchedule(config: Config, task: Task, verdict: Verdict, r: Row, tr: Trace, cause: string, now: int)
    requires OnSchedule(r, tr, now) && r.status.Processing? && r.attempts == task.event.attempts > 0
    ensures var marked := MarkedRow(config, task, verdict, r, cause, now);
            OnSchedule(marked, MarkTrace(tr, verdict, r, marked, now), now)
  {
    RetryDelayDoubles(r.attempts);
  }

  lemma StepKeepsSchedule(fleet: Fleet, m: nat, s: State, step: Step, s': State, id: EventId)
    requires Inv(fleet, m, m, s) && Enabled(fleet, s, step) && s' == Apply(fleet, s, step)
    requires OneOwner(s, id) && OnSchedule(s.rows[id], s.trace[id], s.now)
    requires step.Claim? && id in Ids(step.events) ==> !s.rows[id].status.Processing?
    ensures id in s'.rows && id in s'.trace && OnSchedule(s'.rows[id], s'.trace[id], s'.now)
  {
    match step
    case Mark(w, cause) =>
      if Head(s, w).event.id == id {
        assert WorkerInv(s, s.workers[w]) && Queued(s, id, w, 0);
        MarkKeepsSchedule(fleet[w], Head(s, w), s.workers[w].verdict, s.rows[id], s.trace[id], cause, s.now);
      }
    case Claim(w, events, _) =>
      if id in Ids(events) {
        ClaimKeepsSchedule(s.rows[id], s.trace[id], s.now);
      }
    case _ =>
  }

  lemma {:induction false} RunKeepsSchedule(fleet: Fleet, m: nat, now: int, steps: seq<Step>, id: EventId)
    requires MaximaWithin(fleet, m, m) && ValidRun(fleet, Init(fleet, now), steps)
    requires var s := Exec(fleet, Init(fleet, now), steps);
             id in s.rows && id in s.trace && s.trace[id].reclaims == 0 && s.trace[id].born.Pending?
    ensures var s := Exec(fleet, Init(fleet, now), steps);
            OnSchedule(s.rows[id], s.trace[id], s.now)
    decreases |steps|
  {
    hide Apply, Enabled, OneOwner;
    if steps != [] {
      var before := steps[..|steps| - 1];
      var step := steps[|steps| - 1];
      RunKeepsInv(fleet, m, m, Init(fleet, now), before);
      var s := Exec(fleet, Init(fleet, now), before);
      var s' := Exec(fleet, Init(fleet, now), steps);
      if id in s.rows {
        StepKeepsRow(fleet, m, m, s, step, s', id);
        StepIsHistory(fleet, m, m, s, step, s', id);
        RunKeepsSchedule(fleet, m, now, before, id);
        RunKeepsOwner(fleet, m, m, now, before, id);
        StepKeepsSchedule(fleet, m, s, step, s', id);
      } else {
        UnknownIsUntouched(fleet, s, step, s', id);
      }
    }
  }

  lemma DeadAfterAllAttempts(m: nat, r: Row, tr: Trace, now: int)
    requires m >= 1 && RowInv(m, m, r, tr) && OnSchedule(r, tr, now)
    requires r.status.DeadLetter? && tr.reclaims == 0 && tr.born.Pending?
    ensures tr.claims == m && tr.backoff == Backoff(m - 1) && tr.firstClaim.Some? && tr.deadAt.Some?
    ensures tr.deadAt.value - tr.firstClaim.value >= Backoff(m - 1)
  {
    hide Backoff;
  }

  /** With settings whose maxima are all m, the default of five included. */
  lemma DeadLetterAfterMaximum(fleet: Fleet, m: nat, now: int, steps: seq<Step>, id: EventId)
    requires MaximaWithin(fleet, m, m) && ValidRun(fleet, Init(fleet, now), steps)
    requires id in Exec(fleet, Init(fleet, now), steps).rows
    requires Exec(fleet, Init(fleet, now), steps).rows[id].status.DeadLetter?
    requires EnqueuedAs(steps, id) == Some(Pending)
    requires ReclaimsIn(fleet, Init(fleet, now), steps, id) == 0
    ensures ClaimsIn(steps, id) == m
    ensures BackoffIn(fleet, Init(fleet, now), steps, id) == Backoff(m - 1)
    ensures var first := FirstClaimIn(fleet, Init(fleet, now), steps, id);
            var dead := DeadLetteredIn(fleet, Init(fleet, now), steps, id);
            first.Some? && dead.Some? && dead.value - first.value >= Backoff(m - 1)
  {
    hide Apply, Enabled, Backoff, Pow2, RowInv, OnSchedule;
    TraceIsHistory(fleet, m, m, now, steps, id);
    RunKeepsSchedule(fleet, m, now, steps, id);
    var s := Exec(fleet, Init(fleet, now), steps);
    DeadAfterAllAttempts(m, s.rows[id], s.trace[id], s.now);
  }

  /**
   With every worker configured for m attempts and no reclaim of this event,
   dead-lettering comes after exactly m claims and after Backoff(m - 1) of scheduled
   and elapsed delay: 2^(m-1) - 1 seconds when m is at most 10.
   */
  lemma BackoffBeforeDeadLetter(fleet: Fleet, m: nat, now: int, steps: seq<Step>, id: EventId)
    requires 1 <= m && forall w :: w in fleet ==> fleet[w].maxAttempts == m
    requires ValidRun(fleet, Init(fleet, now), steps)
    requires id in Exec(fleet, Init(fleet, now), steps).rows
    requires Exec(fleet, Init(fleet, now), steps).rows[id].status.DeadLetter?
    requires EnqueuedAs(steps, id) == Some(Pending)
    requires ReclaimsIn(fleet, Init(fleet, now), steps, id) == 0
    ensures ClaimsIn(steps, id) == m
    ensures BackoffIn(fleet, Init(fleet, now), steps, id) == Backoff(m - 1)
    ensures m <= 10 ==> Backoff(m - 1) == (Pow2(m - 1) - 1) * 1_000_000_000
    ensures m > 10 ==> Backoff(m - 1) == (511 + 256 * (m - 10)) * 1_000_000_000
    ensures var first := FirstClaimIn(fleet, Init(fleet, now), steps, id);
            var dead := DeadLetteredIn(fleet, Init(fleet, now), steps, id);
            first.Some? && dead.Some? && dead.value - first.value >= Backoff(m - 1)
  {
    DeadLetterAfterMaximum(fleet, m, now, steps, id);
    BackoffClosedForm(m - 1);
  }
}
