/**
 What holds of the outbox in every run from an empty table, stale workers,
 crashes and refused statements included.  The results speak of the run itself:
 the functions below count its steps, and TraceIsHistory ties the protocol's
 bookkeeping to them.
 */
module OutboxSafety {
  import opened Prelude
  import opened OutboxTable
  import opened OutboxProtocol

  /** Number of claim statements of the run that returned `id`. */
  ghost function ClaimsIn(steps: seq<Step>, id: EventId): nat {
    if steps == [] then 0
    else
      var last := steps[|steps| - 1];
      ClaimsIn(steps[..|steps| - 1], id) + (if last.Claim? && id in Ids(last.events) then 1 else 0)
  }

  /** Of those, the ones that found the row still PROCESSING under an expired lease. */
  ghost function ReclaimsIn(fleet: Fleet, s: State, steps: seq<Step>, id: EventId): nat
    requires ValidRun(fleet, s, steps)
    decreases |steps|
  {
    if steps == [] then 0
    else
      var before := steps[..|steps| - 1];
      var last := steps[|steps| - 1];
      var rows := Exec(fleet, s, before).rows;
      ReclaimsIn(fleet, s, before, id)
      + (if last.Claim? && id in Ids(last.events) && id in rows && rows[id].status.Processing? then 1 else 0)
  }

  /** Number of steps that changed the row of `id`. */
  ghost function ChangesIn(fleet: Fleet, s: State, steps: seq<Step>, id: EventId): nat
    requires ValidRun(fleet, s, steps)
    decreases |steps|
  {
    if steps == [] then 0
    else
      var before := steps[..|steps| - 1];
      var rows := Exec(fleet, s, before).rows;
      var rows' := Exec(fleet, s, steps).rows;
      ChangesIn(fleet, s, before, id)
      + (if id in rows && (id !in rows' || rows'[id] != rows[id]) then 1 else 0)
  }

  /** Sum of the delays, from now to available_at, that the run's marks scheduled for `id`. */
  ghost function BackoffIn(fleet: Fleet, s: State, steps: seq<Step>, id: EventId): int
    requires ValidRun(fleet, s, steps)
    decreases |steps|
  {
    if steps == [] then 0
    else
      var before := steps[..|steps| - 1];
      BackoffIn(fleet, s, before, id) + Delayed(Exec(fleet, s, before), steps[|steps| - 1], Exec(fleet, s, steps), id)
  }

  /** The delay this step scheduled for `id`: a mark that turned it from PROCESSING to FAILED. */
  ghost function Delayed(s: State, step: Step, s': State, id: EventId): int {
    if step.Mark? && id in s.rows && id in s'.rows && s.rows[id].status.Processing? && s'.rows[id].status.Failed?
    then s'.rows[id].availableAt - s.now else 0
  }

  /** When the run first claimed `id`. */
  ghost function FirstClaimIn(fleet: Fleet, s: State, steps: seq<Step>, id: EventId): Option<int>
    requires ValidRun(fleet, s, steps)
    decreases |steps|
  {
    if steps == [] then None
    else
      var before := steps[..|steps| - 1];
      var last := steps[|steps| - 1];
      var earlier := FirstClaimIn(fleet, s, before, id);
      if earlier.None? && last.Claim? && id in Ids(last.events) then Some(Exec(fleet, s, before).now) else earlier
  }

  /** This step is the mark that dead-letters `id`. */
  ghost predicate Buries(s: State, step: Step, s': State, id: EventId) {
    step.Mark? && id in s.rows && id in s'.rows && s.rows[id].status.Processing? && s'.rows[id].status.DeadLetter?
  }

  /** When the run dead-lettered `id`. */
  ghost function DeadLetteredIn(fleet: Fleet, s: State, steps: seq<Step>, id: EventId): Option<int>
    requires ValidRun(fleet, s, steps)
    decreases |steps|
  {
    if steps == [] then None
    else
      var before := steps[..|steps| - 1];
      if Buries(Exec(fleet, s, before), steps[|steps| - 1], Exec(fleet, s, steps), id)
      then Some(Exec(fleet, s, before).now) else DeadLetteredIn(fleet, s, before, id)
  }

  /** The status `id` was enqueued with. */
  ghost function EnqueuedAs(steps: seq<Step>, id: EventId): Option<Status> {
    if steps == [] then None
    else
      var last := steps[|steps| - 1];
      if last.Enqueue? && last.id == id then Some(last.status) else EnqueuedAs(steps[..|steps| - 1], id)
  }

  /** `step` answers the event `id`: its handler returns `ok`, or (as a failure) it has no handler. */
  ghost predicate Answers(s: State, step: Step, id: EventId, ok: bool) {
    match step
    case HandlerReturns(w, answer) => answer == ok && Busy(s, w) && Head(s, w).event.id == id
    case Mark(w, _) => !ok && Busy(s, w) && Head(s, w).event.id == id && s.workers[w].verdict.Waiting?
    case _ => false
  }

  ghost predicate AnsweredIn(fleet: Fleet, s: State, steps: seq<Step>, id: EventId, ok: bool)
    requires ValidRun(fleet, s, steps)
    decreases |steps|
  {
    steps != [] &&
    var before := steps[..|steps| - 1];
    AnsweredIn(fleet, s, before, id, ok) || Answers(Exec(fleet, s, before), steps[|steps| - 1], id, ok)
  }

  lemma StepIsHistory(fleet: Fleet, lo: nat, hi: nat, s: State, step: Step, s': State, id: EventId)
    requires MaximaWithin(fleet, lo, hi) && Inv(fleet, lo, hi, s)
    requires Enabled(fleet, s, step) && s' == Apply(fleet, s, step) && id in s.rows && id in s'.trace
    ensures var tr := s.trace[id];
            var tr' := s'.trace[id];
            var claimed := step.Claim? && id in Ids(step.events);
            && tr'.claims == tr.claims + (if claimed then 1 else 0)
            && tr'.reclaims == tr.reclaims + (if claimed && s.rows[id].status.Processing? then 1 else 0)
            && tr'.changes == tr.changes + (if s'.rows[id] != s.rows[id] then 1 else 0)
            && (tr'.succeeded <==> tr.succeeded || Answers(s, step, id, true))
            && (tr'.failed <==> tr.failed || Answers(s, step, id, false))
  {
    match step
    case Claim(w, events, _) =>
      assert id in Ids(events) ==> ClaimedRow(s.rows[id], s.now).attempts != s.rows[id].attempts;
    case Mark(w, _) => assert WorkerInv(s, s.workers[w]);
    case HandlerReturns(w, _) => assert WorkerInv(s, s.workers[w]);
    case _ =>
  }

  lemma StepIsScheduled(fleet: Fleet, s: State, step: Step, s': State, id: EventId)
    requires s.rows.Keys == s.trace.Keys && Enabled(fleet, s, step) && s' == Apply(fleet, s, step)
    requires id in s.rows && id in s'.trace
    ensures var tr := s.trace[id];
            var tr' := s'.trace[id];
            && tr'.backoff == tr.backoff + Delayed(s, step, s', id)
            && tr'.firstClaim == (if tr.firstClaim.None? && step.Claim?
                && id in Ids(step.events) then Some(s.now) else tr.firstClaim)
            && tr'.deadAt == (if Buries(s, step, s', id) then Some(s.now) else tr.deadAt)
  {
  }

  /** The trace of a stored event says what the run's steps did to it. */
  ghost predicate IsHistory(fleet: Fleet, s0: State, steps: seq<Step>, id: EventId, tr: Trace)
    requires ValidRun(fleet, s0, steps)
  {
    && EnqueuedAs(steps, id) == Some(tr.born)
    && tr.claims == ClaimsIn(steps, id)
    && tr.reclaims == ReclaimsIn(fleet, s0, steps, id)
    && tr.changes == ChangesIn(fleet, s0, steps, id)
    && (tr.succeeded <==> AnsweredIn(fleet, s0, steps, id, true))
    && (tr.failed <==> AnsweredIn(fleet, s0, steps, id, false))
    && tr.backoff == BackoffIn(fleet, s0, steps, id)
    && tr.firstClaim == FirstClaimIn(fleet, s0, steps, id)
    && tr.deadAt == DeadLetteredIn(fleet, s0, steps, id)
  }

  /** Before an event is stored, nothing has happened to it. */
  ghost predicate NoHistory(fleet: Fleet, s0: State, steps: seq<Step>, id: EventId)
    requires ValidRun(fleet, s0, steps)
  {
    && EnqueuedAs(steps, id) == None
    && ClaimsIn(steps, id) == 0
    && ReclaimsIn(fleet, s0, steps, id) == 0
    && ChangesIn(fleet, s0, steps, id) == 0
    && !AnsweredIn(fleet, s0, steps, id, true)
    && !AnsweredIn(fleet, s0, steps, id, false)
    && BackoffIn(fleet, s0, steps, id) == 0
    && FirstClaimIn(fleet, s0, steps, id) == None
    && DeadLetteredIn(fleet, s0, steps, id) == None
  }

  lemma {:induction false} TraceIsHistory(fleet: Fleet, lo: nat, hi: nat, now: int, steps: seq<Step>, id: EventId)
    requires MaximaWithin(fleet, lo, hi) && ValidRun(fleet, Init(fleet, now), steps)
    ensures var s := Exec(fleet, Init(fleet, now), steps);
            && Inv(fleet, lo, hi, s)
            && (if id in s.rows then IsHistory(fleet, Init(fleet, now), steps, id, s.trace[id])
                else NoHistory(fleet, Init(fleet, now), steps, id))
    decreases |steps|
  {
    hide Apply, Enabled;
    RunKeepsInv(fleet, lo, hi, Init(fleet, now), steps);
    if steps != [] {
      var before := steps[..|steps| - 1];
      TraceIsHistory(fleet, lo, hi, now, before, id);
      RunKeepsInv(fleet, lo, hi, Init(fleet, now), before);
      if id in Exec(fleet, Init(fleet, now), before).rows {
        HistoryGoesOn(fleet, lo, hi, Init(fleet, now), steps, id);
      } else {
        HistoryBegins(fleet, lo, hi, Init(fleet, now), steps, id);
      }
    }
  }

  lemma HistoryGoesOn(fleet: Fleet, lo: nat, hi: nat, s0: State, steps: seq<Step>, id: EventId)
    requires MaximaWithin(fleet, lo, hi) && ValidRun(fleet, s0, steps) && steps != []
    requires var s := Exec(fleet, s0, steps[..|steps| - 1]);
             && Inv(fleet, lo, hi, s) && id in s.rows
             && IsHistory(fleet, s0, steps[..|steps| - 1], id, s.trace[id])
    ensures var s' := Exec(fleet, s0, steps);
            id in s'.rows && id in s'.trace && IsHistory(fleet, s0, steps, id, s'.trace[id])
  {
    hide Apply, Enabled, RowInv, WorkerInv;
    var s, s' := Exec(fleet, s0, steps[..|steps| - 1]), Exec(fleet, s0, steps);
    StepKeepsRow(fleet, lo, hi, s, steps[|steps| - 1], s', id);
    StepIsHistory(fleet, lo, hi, s, steps[|steps| - 1], s', id);
    StepIsScheduled(fleet, s, steps[|steps| - 1], s', id);
    StoredOnce(fleet, s, steps[|steps| - 1], id);
  }

  lemma StoredOnce(fleet: Fleet, s: State, step: Step, id: EventId)
    requires Enabled(fleet, s, step) && id in s.rows
    ensures step.Enqueue? ==> step.id != id
  {
  }

  lemma HistoryBegins(fleet: Fleet, lo: nat, hi: nat, s0: State, steps: seq<Step>, id: EventId)
    requires MaximaWithin(fleet, lo, hi) && ValidRun(fleet, s0, steps) && steps != []
    requires var s := Exec(fleet, s0, steps[..|steps| - 1]);
             && Inv(fleet, lo, hi, s) && id !in s.rows && NoHistory(fleet, s0, steps[..|steps| - 1], id)
    ensures var s' := Exec(fleet, s0, steps);
            && s'.rows.Keys == s'.trace.Keys
            && (if id in s'.rows then IsHistory(fleet, s0, steps, id, s'.trace[id])
                else NoHistory(fleet, s0, steps, id))
  {
    hide Apply, Enabled, RowInv, WorkerInv;
    var s, s' := Exec(fleet, s0, steps[..|steps| - 1]), Exec(fleet, s0, steps);
    StepKeepsInv(fleet, lo, hi, s, steps[|steps| - 1], s');
    UnknownIsUntouched(fleet, s, steps[|steps| - 1], s', id);
  }

  lemma UnknownIsUntouched(fleet: Fleet, s: State, step: Step, s': State, id: EventId)
    requires Enabled(fleet, s, step) && s' == Apply(fleet, s, step) && id !in s.rows && s.rows.Keys == s.trace.Keys
    ensures step.Claim? ==> id !in Ids(step.events)
    ensures !Answers(s, step, id, true) && !Answers(s, step, id, false)
    ensures id in s'.rows <==> step.Enqueue? && step.id == id
    ensures id in s'.rows ==>
              && id in s'.trace && s'.trace[id] == NewTrace(step.status)
              && s'.rows[id] == NewRow(step.eventType, step.payload, step.status, step.availableAt, s.now)
  {
  }

  /** DELIVERED and DEAD_LETTER mean what they say, whoever marked the row. */
  lemma TerminalSoundness(fleet: Fleet, lo: nat, hi: nat, now: int, steps: seq<Step>, id: EventId)
    requires MaximaWithin(fleet, lo, hi) && ValidRun(fleet, Init(fleet, now), steps)
    requires id in Exec(fleet, Init(fleet, now), steps).rows
    ensures var s := Exec(fleet, Init(fleet, now), steps);
            && (s.rows[id].status.Delivered? && EnqueuedAs(steps, id) != Some(Delivered) ==>
                  AnsweredIn(fleet, Init(fleet, now), steps, id, true))
            && (s.rows[id].status.DeadLetter? && EnqueuedAs(steps, id) != Some(DeadLetter) ==>
                  && AnsweredIn(fleet, Init(fleet, now), steps, id, false)
                  && s.rows[id].attempts >= lo)
  {
    TraceIsHistory(fleet, lo, hi, now, steps, id);
    assert RowInv(lo, hi, Exec(fleet, Init(fleet, now), steps).rows[id],
        Exec(fleet, Init(fleet, now), steps).trace[id]);
  }

  lemma {:induction false} TerminalIsAbsorbing(fleet: Fleet, s: State, steps: seq<Step>, id: EventId)
    requires ValidRun(fleet, s, steps) && id in s.rows && Terminal(s.rows[id])
    ensures id in Exec(fleet, s, steps).rows && Exec(fleet, s, steps).rows[id] == s.rows[id]
    decreases |steps|
  {
    if steps != [] {
      TerminalIsAbsorbing(fleet, s, steps[..|steps| - 1], id);
    }
  }

  /** The instant from which a claim with this lease length may take the row. */
  function Due(r: Row, lease: int): int {
    if r.status.Processing? && r.lockedAt.Some? then r.lockedAt.value + lease else r.availableAt
  }

  /** An event is never deleted, and until it is terminal every worker can take it again from a fixed instant on. */
  lemma {:induction false} NothingIsLost(fleet: Fleet, lo: nat, hi: nat, now: int, steps: seq<Step>, id: EventId,
                                         k: nat)
    requires MaximaWithin(fleet, lo, hi) && ValidRun(fleet, Init(fleet, now), steps) && k <= |steps|
    requires ValidRun(fleet, Init(fleet, now), steps[..k]) && id in Exec(fleet, Init(fleet, now), steps[..k]).rows
    ensures var s := Exec(fleet, Init(fleet, now), steps);
            && id in s.rows
            && (EnqueuedAs(steps, id) != Some(Processing) && !Terminal(s.rows[id]) ==>
                  forall lease, at {:trigger Claimable(s.rows[id], at, lease)} ::
                    at >= Due(s.rows[id], lease) ==> Claimable(s.rows[id], at, lease))
    decreases |steps|
  {
    TraceIsHistory(fleet, lo, hi, now, steps, id);
    if k < |steps| {
      var before := steps[..|steps| - 1];
      assert before[..k] == steps[..k];
      NothingIsLost(fleet, lo, hi, now, before, id, k);
    } else {
      assert steps[..k] == steps;
    }
    assert RowInv(lo, hi, Exec(fleet, Init(fleet, now), steps).rows[id],
        Exec(fleet, Init(fleet, now), steps).trace[id]);
  }

  /**
   attempts counts the claims; beyond the largest maximum there is one only for
   each reclaim; and the row changes at most twice per attempt, so a run without
   reclaims touches an event at most 2 * hi times.
   */
  lemma AttemptsAreBounded(fleet: Fleet, lo: nat, hi: nat, now: int, steps: seq<Step>, id: EventId)
    requires MaximaWithin(fleet, lo, hi) && ValidRun(fleet, Init(fleet, now), steps)
    requires id in Exec(fleet, Init(fleet, now), steps).rows
    ensures Exec(fleet, Init(fleet, now), steps).rows[id].attempts == ClaimsIn(steps, id)
    ensures ClaimsIn(steps, id) <= hi + ReclaimsIn(fleet, Init(fleet, now), steps, id)
    ensures ChangesIn(fleet, Init(fleet, now), steps, id) <= 2 * (hi + ReclaimsIn(fleet, Init(fleet, now), steps, id))
  {
    TraceIsHistory(fleet, lo, hi, now, steps, id);
    assert RowInv(lo, hi, Exec(fleet, Init(fleet, now), steps).rows[id],
        Exec(fleet, Init(fleet, now), steps).trace[id]);
  }
}
