/**
 Which queued copies of an event can still be told apart from the row.  An event
 that is never reclaimed has one owner at a time; and whatever happens, the
 attempts a copy carries name its claim.
 */
module OutboxOwnership {
  import opened Prelude
  import opened OutboxTable
  import opened OutboxProtocol
  import opened OutboxSafety

  ghost predicate Queued(s: State, id: EventId, w: WorkerId, i: int) {
    w in s.workers && 0 <= i < |s.workers[w].queue| && s.workers[w].queue[i].event.id == id
  }

  ghost predicate OneOwner(s: State, id: EventId) {
    && id in s.rows
    && (forall w, i :: Queued(s, id, w, i) ==>
          s.rows[id].status.Processing? && s.rows[id].attempts == s.workers[w].queue[i].event.attempts)
    && (forall w, i, v, j :: Queued(s, id, w, i) && Queued(s, id, v, j) ==> w == v && i == j)
  }

  lemma ClaimKeepsOwner(fleet: Fleet, s: State, step: Step, s': State, id: EventId)
    requires step.Claim? && Enabled(fleet, s, step) && s' == Apply(fleet, s, step)
    requires OneOwner(s, id)
    requires id in Ids(step.events) ==> !s.rows[id].status.Processing?
    ensures OneOwner(s', id)
  {
    forall v, i | Queued(s', id, v, i)
      ensures s'.rows[id].status.Processing? && s'.rows[id].attempts == s'.workers[v].queue[i].event.attempts
      ensures if v == step.w then id in Ids(step.events) && step.events[i].id == id else Queued(s, id, v, i)
    {
      if v == step.w {
        assert step.events[i].id == id;
      } else {
        assert Queued(s, id, v, i);
      }
    }
  }

  lemma OtherStepKeepsOwner(fleet: Fleet, s: State, step: Step, s': State, id: EventId)
    requires !step.Claim? && Enabled(fleet, s, step) && s' == Apply(fleet, s, step)
    requires OneOwner(s, id)
    ensures OneOwner(s', id)
  {
    if step.Mark? {
      assert Head(s, step.w).event.id == id ==> Queued(s, id, step.w, 0);
    }
    forall v, i | Queued(s', id, v, i)
      ensures s'.rows[id].status.Processing? && s'.rows[id].attempts == s'.workers[v].queue[i].event.attempts
      ensures Queued(s, id, v, i + (if (step.Mark? || step.MarkErrors?) && v == step.w then 1 else 0))
    {
      assert Queued(s, id, v, i + (if (step.Mark? || step.MarkErrors?) && v == step.w then 1 else 0));
    }
  }

  lemma NewEventIsUnowned(fleet: Fleet, lo: nat, hi: nat, s: State, step: Step, s': State, id: EventId)
    requires Inv(fleet, lo, hi, s) && Enabled(fleet, s, step) && s' == Apply(fleet, s, step)
    requires id !in s.rows && id in s'.rows
    ensures OneOwner(s', id)
  {
    assert step.Enqueue?;
    forall w, i | w in s'.workers && 0 <= i < |s'.workers[w].queue| ensures !Queued(s', id, w, i) {
      assert WorkerInv(s, s.workers[w]);
    }
  }

  /** An event that was never reclaimed is in at most one queue, once, and then PROCESSING under that very claim. */
  lemma {:induction false} RunKeepsOwner(fleet: Fleet, lo: nat, hi: nat, now: int, steps: seq<Step>, id: EventId)
    requires MaximaWithin(fleet, lo, hi) && ValidRun(fleet, Init(fleet, now), steps)
    requires var s := Exec(fleet, Init(fleet, now), steps);
             id in s.rows && id in s.trace && s.trace[id].reclaims == 0
    ensures OneOwner(Exec(fleet, Init(fleet, now), steps), id)
    decreases |steps|
  {
    if steps != [] {
      var before := steps[..|steps| - 1];
      var step := steps[|steps| - 1];
      RunKeepsInv(fleet, lo, hi, Init(fleet, now), before);
      var s := Exec(fleet, Init(fleet, now), before);
      var s' := Exec(fleet, Init(fleet, now), steps);
      if id in s.rows {
        StepKeepsRow(fleet, lo, hi, s, step, s', id);
        StepIsHistory(fleet, lo, hi, s, step, s', id);
        RunKeepsOwner(fleet, lo, hi, now, before, id);
        if step.Claim? {
          ClaimKeepsOwner(fleet, s, step, s', id);
        } else {
          OtherStepKeepsOwner(fleet, s, step, s', id);
        }
      } else {
        NewEventIsUnowned(fleet, lo, hi, s, step, s', id);
      }
    }
  }

  // ----- attempts name the claim ---------------------------------------------

  /** No two queued copies of the event carry the same attempts, and none more than the row. */
  ghost predicate AttemptsTell(s: State, id: EventId) {
    && (forall w, i :: Queued(s, id, w, i) ==>
        id in s.rows && s.workers[w].queue[i].event.attempts <= s.rows[id].attempts)
    && (forall w, i, v, j ::
          (Queued(s, id, w, i) && Queued(s, id, v, j)
           && s.workers[w].queue[i].event.attempts == s.workers[v].queue[j].event.attempts) ==> w == v && i == j)
  }

  lemma ClaimKeepsAttempts(fleet: Fleet, s: State, step: Step, s': State, id: EventId)
    requires step.Claim? && Enabled(fleet, s, step) && s' == Apply(fleet, s, step) && AttemptsTell(s, id)
    ensures AttemptsTell(s', id)
  {
    forall v, i | Queued(s', id, v, i)
      ensures id in s'.rows && s'.workers[v].queue[i].event.attempts <= s'.rows[id].attempts
      ensures v == step.w ==> step.events[i].id == id
      ensures v == step.w ==> s'.workers[v].queue[i].event.attempts == s.rows[id].attempts + 1
      ensures v != step.w ==> Queued(s, id, v, i) && s'.workers[v].queue[i].event.attempts <= s.rows[id].attempts
    {
      if v == step.w {
        assert step.events[i].id == id && id in Ids(step.events);
      } else {
        assert Queued(s, id, v, i);
      }
    }
  }

  lemma OtherStepKeepsAttempts(fleet: Fleet, s: State, step: Step, s': State, id: EventId)
    requires !step.Claim? && Enabled(fleet, s, step) && s' == Apply(fleet, s, step) && AttemptsTell(s, id)
    ensures AttemptsTell(s', id)
  {
    forall v, i | Queued(s', id, v, i)
      ensures id in s'.rows && s'.workers[v].queue[i].event.attempts <= s'.rows[id].attempts
      ensures var shift := if (step.Mark? || step.MarkErrors?) && v == step.w then 1 else 0;
              Queued(s, id, v, i + shift) && s'.workers[v].queue[i] == s.workers[v].queue[i + shift]
    {
      assert Queued(s, id, v, i + (if (step.Mark? || step.MarkErrors?) && v == step.w then 1 else 0));
    }
  }

  /** In every run the attempts of a queued copy tell which claim made it. */
  lemma {:induction false} RunKeepsAttempts(fleet: Fleet, now: int, steps: seq<Step>, id: EventId)
    requires ValidRun(fleet, Init(fleet, now), steps)
    ensures AttemptsTell(Exec(fleet, Init(fleet, now), steps), id)
    decreases |steps|
  {
    if steps != [] {
      var before := steps[..|steps| - 1];
      RunKeepsAttempts(fleet, now, before, id);
      if steps[|steps| - 1].Claim? {
        ClaimKeepsAttempts(fleet, Exec(fleet, Init(fleet, now), before), steps[|steps| - 1],
            Exec(fleet, Init(fleet, now), steps), id);
      } else {
        OtherStepKeepsAttempts(fleet, Exec(fleet, Init(fleet, now), before), steps[|steps| - 1],
            Exec(fleet, Init(fleet, now), steps), id);
      }
    }
  }
}
