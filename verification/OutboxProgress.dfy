/**
 How much a run without reclaims can do: every claim that returns something and
 every mark changes a row, and each row is changed at most twice per attempt.
 */
module OutboxProgress {
  import opened Prelude
  import opened OutboxTable
  import opened OutboxProtocol
  import opened OutboxOwnership
  import opened OutboxSafety

  /** Number of claims of the run that returned an event, and of its marks. */
  ghost function EffortIn(steps: seq<Step>): nat {
    if steps == [] then 0
    else EffortIn(steps[..|steps| - 1]) + (if Works(steps[|steps| - 1]) then 1 else 0)
  }

  ghost predicate Works(step: Step) {
    step.Mark? || (step.Claim? && step.events != [])
  }

  ghost function Sum(ids: set<EventId>, f: EventId -> nat): nat
    decreases |ids|
  {
    if ids == {} then 0
    else
      var id :| id in ids;
      f(id) + Sum(ids - {id}, f)
  }

  lemma {:induction false} SumTakesOut(ids: set<EventId>, f: EventId -> nat, id: EventId)
    requires id in ids
    ensures Sum(ids, f) == f(id) + Sum(ids - {id}, f)
    decreases |ids|
  {
    var first :| first in ids && Sum(ids, f) == f(first) + Sum(ids - {first}, f);
    if first != id {
      SumTakesOut(ids - {first}, f, id);
      SumTakesOut(ids - {id}, f, first);
      assert ids - {first} - {id} == ids - {id} - {first};
    }
  }

  lemma {:induction false} SumGrows(ids: set<EventId>, f: EventId -> nat, g: EventId -> nat)
    requires forall id :: id in ids ==> f(id) <= g(id)
    ensures Sum(ids, f) <= Sum(ids, g)
    decreases |ids|
  {
    if ids != {} {
      var id :| id in ids;
      SumTakesOut(ids, f, id);
      SumTakesOut(ids, g, id);
      SumGrows(ids - {id}, f, g);
    }
  }

  lemma SumGrowsAt(ids: set<EventId>, f: EventId -> nat, g: EventId -> nat, at: EventId)
    requires at in ids && f(at) < g(at) && forall id :: id in ids ==> f(id) <= g(id)
    ensures Sum(ids, f) < Sum(ids, g)
  {
    SumTakesOut(ids, f, at);
    SumTakesOut(ids, g, at);
    SumGrows(ids - {at}, f, g);
  }

  lemma OneMoreTimes(x: nat, n: nat)
    requires n > 0
    ensures x * n == x * (n - 1) + x
  {
  }

  lemma {:induction false} SumBound(ids: set<EventId>, f: EventId -> nat, bound: nat)
    requires forall id :: id in ids ==> f(id) <= bound
    ensures Sum(ids, f) <= bound * |ids|
    decreases |ids|
  {
    if ids != {} {
      var id :| id in ids;
      SumTakesOut(ids, f, id);
      SumBound(ids - {id}, f, bound);
      assert |ids - {id}| == |ids| - 1;
      OneMoreTimes(bound, |ids|);
    }
  }

  /** Row changes of each event so far. */
  function Changes(trace: map<EventId, Trace>): EventId -> nat {
    (id: EventId) => if id in trace then trace[id].changes else 0
  }

  ghost predicate NoReclaims(s: State) {
    forall id :: id in s.trace ==> s.trace[id].reclaims == 0
  }

  /** A step that works changes the row of some event that nobody reclaimed. */
  lemma WorkChangesARow(fleet: Fleet, s: State, step: Step, s': State) returns (id: EventId)
    requires Enabled(fleet, s, step) && s' == Apply(fleet, s, step) && Works(step) && s.rows.Keys == s.trace.Keys
    requires forall id :: id in s.rows ==> OneOwner(s, id)
    ensures id in s.trace && id in s'.trace && s'.trace[id].changes == s.trace[id].changes + 1
  {
    if step.Claim? {
      id := step.events[0].id;
      assert id in Ids(step.events);
    } else {
      id := Head(s, step.w).event.id;
      assert OneOwner(s, id) && Queued(s, id, step.w, 0);
    }
  }

  lemma StepAddsChanges(fleet: Fleet, s: State, step: Step, s': State, id: EventId)
    requires Enabled(fleet, s, step) && s' == Apply(fleet, s, step) && s.rows.Keys == s.trace.Keys && id in s.trace
    ensures id in s'.trace && s.trace[id].changes <= s'.trace[id].changes
            && s.trace[id].reclaims <= s'.trace[id].reclaims
  {
  }

  lemma StepAddsKeys(fleet: Fleet, s: State, step: Step, s': State)
    requires Enabled(fleet, s, step) && s' == Apply(fleet, s, step) && s.rows.Keys == s.trace.Keys
    ensures s'.trace.Keys == s.trace.Keys
            || (step.Enqueue? && s'.trace.Keys == s.trace.Keys + {step.id} && step.id !in s.trace
                && s'.trace[step.id].changes == 0)
  {
  }

  lemma ChangesGrow(fleet: Fleet, s: State, step: Step, s': State)
    requires Enabled(fleet, s, step) && s' == Apply(fleet, s, step) && s.rows.Keys == s.trace.Keys
    ensures forall id :: id in s.trace.Keys ==> Changes(s.trace)(id) <= Changes(s'.trace)(id)
  {
    hide Apply, Enabled;
    forall id | id in s.trace.Keys ensures Changes(s.trace)(id) <= Changes(s'.trace)(id) {
      StepAddsChanges(fleet, s, step, s', id);
    }
  }

  lemma WorkingStepPays(fleet: Fleet, s: State, step: Step, s': State)
    requires Enabled(fleet, s, step) && s' == Apply(fleet, s, step) && s.rows.Keys == s.trace.Keys && Works(step)
    requires forall id :: id in s.rows ==> OneOwner(s, id)
    ensures s'.trace.Keys == s.trace.Keys
    ensures Sum(s.trace.Keys, Changes(s.trace)) < Sum(s'.trace.Keys, Changes(s'.trace))
  {
    hide Apply, Enabled, OneOwner;
    ChangesGrow(fleet, s, step, s');
    StepAddsKeys(fleet, s, step, s');
    var id := WorkChangesARow(fleet, s, step, s');
    SumGrowsAt(s.trace.Keys, Changes(s.trace), Changes(s'.trace), id);
  }

  lemma StepPaysForItself(fleet: Fleet, s: State, step: Step, s': State)
    requires Enabled(fleet, s, step) && s' == Apply(fleet, s, step) && s.rows.Keys == s.trace.Keys
    requires forall id :: id in s.rows ==> OneOwner(s, id)
    ensures Sum(s.trace.Keys, Changes(s.trace)) + (if Works(step) then 1 else 0)
            <= Sum(s'.trace.Keys, Changes(s'.trace))
  {
    hide Apply, Enabled, OneOwner, Changes;
    if Works(step) {
      WorkingStepPays(fleet, s, step, s');
    } else {
      ChangesGrow(fleet, s, step, s');
      StepAddsKeys(fleet, s, step, s');
      SumGrows(s.trace.Keys, Changes(s.trace), Changes(s'.trace));
      if s'.trace.Keys != s.trace.Keys {
        SumTakesOut(s'.trace.Keys, Changes(s'.trace), step.id);
        assert s'.trace.Keys - {step.id} == s.trace.Keys;
      }
    }
  }

  lemma {:induction false} EffortIsPaid(fleet: Fleet, lo: nat, hi: nat, now: int, steps: seq<Step>)
    requires MaximaWithin(fleet, lo, hi) && ValidRun(fleet, Init(fleet, now), steps)
    requires NoReclaims(Exec(fleet, Init(fleet, now), steps))
    ensures var s := Exec(fleet, Init(fleet, now), steps);
            EffortIn(steps) <= Sum(s.trace.Keys, Changes(s.trace))
    decreases |steps|
  {
    if steps != [] {
      var before := steps[..|steps| - 1];
      var s, s' := Exec(fleet, Init(fleet, now), before), Exec(fleet, Init(fleet, now), steps);
      RunKeepsInv(fleet, lo, hi, Init(fleet, now), before);
      forall id | id in s.trace ensures s.trace[id].reclaims == 0 && OneOwner(s, id) {
        StepAddsChanges(fleet, s, steps[|steps| - 1], s', id);
        RunKeepsOwner(fleet, lo, hi, now, before, id);
      }
      EffortIsPaid(fleet, lo, hi, now, before);
      StepPaysForItself(fleet, s, steps[|steps| - 1], s');
    }
  }

  /**
   A run in which no expired lease is taken over makes at most 2 * hi claims and
   marks for every event stored, empty claims not counted: the events to come and
   this sum decrease towards the end of every such run.
   */
  lemma RunsAreBounded(fleet: Fleet, lo: nat, hi: nat, now: int, steps: seq<Step>)
    requires MaximaWithin(fleet, lo, hi) && ValidRun(fleet, Init(fleet, now), steps)
    requires forall id: EventId :: ReclaimsIn(fleet, Init(fleet, now), steps, id) == 0
    ensures EffortIn(steps) <= 2 * hi * |Exec(fleet, Init(fleet, now), steps).rows|
  {
    var s := Exec(fleet, Init(fleet, now), steps);
    RunKeepsInv(fleet, lo, hi, Init(fleet, now), steps);
    forall id | id in s.trace ensures s.trace[id].reclaims == 0 && Changes(s.trace)(id) <= 2 * hi {
      TraceIsHistory(fleet, lo, hi, now, steps, id);
      AttemptsAreBounded(fleet, lo, hi, now, steps, id);
    }
    EffortIsPaid(fleet, lo, hi, now, steps);
    SumBound(s.trace.Keys, Changes(s.trace), 2 * hi);
    assert |s.rows| == |s.rows.Keys|;
  }
}
