/**
 The worker's own loop, running against the repository.  One poll of a worker
 that nobody interrupts is a run of the protocol: claim, then for each event in
 turn wait, answer, mark.
 */
module OutboxWorker {
  import opened Prelude
  import opened OutboxTable
  import opened OutboxProtocol

  /** The outside world while one event is handled: time passes and the handler answers. */
  datatype Moment = Moment(elapsed: nat, ok: bool, message: string)

  /** The steps of handling the first queued event. */
  ghost function HandlingSteps(config: Config, w: WorkerId, event: Event, m: Moment, now: int): seq<Step> {
    if event.eventType in config.handlers
    then [Tick(now + m.elapsed), HandlerReturns(w, m.ok), Mark(w, m.message)]
    else [Tick(now + m.elapsed), Mark(w, "no handler registered for event type " + event.eventType)]
  }

  function HandledRow(config: Config, event: Event, m: Moment, r: Row, now: int): Row {
    if event.eventType !in config.handlers
    then FailedRow(r, "no handler registered for event type " + event.eventType,
                   RetryDelay(event.attempts), config.maxAttempts, now + m.elapsed)
    else if m.ok then DeliveredRow(r, now + m.elapsed)
    else FailedRow(r, m.message, RetryDelay(event.attempts), config.maxAttempts, now + m.elapsed)
  }

  /** Delivered exactly on a handler's nil; else dead at the configured maximum, or due after its attempt's delay. */
  predicate Settles(config: Config, event: Event, m: Moment, row: Row, now: int) {
    && (row.status.Delivered? <==> m.ok && event.eventType in config.handlers)
    && (row.status.DeadLetter? <==>
          !row.status.Delivered? && row.attempts >= if config.maxAttempts < 1 then 5 else config.maxAttempts)
    && (!row.status.Delivered? && !row.status.DeadLetter? ==>
          row.status.Failed? && row.availableAt == now + m.elapsed + RetryDelay(event.attempts))
  }

  lemma RetryDelayPositive(attempt: int)
    ensures RetryDelay(attempt) >= 0
  {
  }

  lemma TickWaits(fleet: Fleet, s: State, elapsed: nat)
    ensures Enabled(fleet, s, Tick(s.now + elapsed))
            && Apply(fleet, s, Tick(s.now + elapsed)) == s.(now := s.now + elapsed)
  {
  }

  lemma AnswerIsKept(fleet: Fleet, s: State, w: WorkerId, ok: bool)
    requires Busy(s, w) && s.workers[w].verdict.Waiting? && HasHandler(fleet, s, w)
    ensures Enabled(fleet, s, HandlerReturns(w, ok))
    ensures var s' := Apply(fleet, s, HandlerReturns(w, ok));
            && s'.now == s.now && s'.rows == s.rows
              && s'.workers == s.workers[w := s.workers[w].(verdict := Answered(ok))]
  {
  }

  lemma MarkPops(fleet: Fleet, s: State, w: WorkerId, cause: string)
    requires Busy(s, w) && w in fleet && (s.workers[w].verdict.Waiting? ==> !HasHandler(fleet, s, w))
    ensures Enabled(fleet, s, Mark(w, cause))
    ensures var s' := Apply(fleet, s, Mark(w, cause));
            var task := Head(s, w);
            var row := s.rows[task.event.id];
            && s'.now == s.now && s'.workers == s.workers[w := Popped(s.workers[w])]
            && s'.rows == s.rows[task.event.id := MarkedRow(fleet[w], task, s.workers[w].verdict, row, cause, s.now)]
  {
  }

  lemma HandlingIsARun(fleet: Fleet, s: State, steps: seq<Step>, w: WorkerId, m: Moment)
    requires ValidRun(fleet, s, steps) && w in fleet
    requires Busy(Exec(fleet, s, steps), w) && Exec(fleet, s, steps).workers[w].verdict.Waiting?
    ensures var before := Exec(fleet, s, steps);
            var event := Head(before, w).event;
            var steps' := steps + HandlingSteps(fleet[w], w, event, m, before.now);
            && ValidRun(fleet, s, steps')
            && var after := Exec(fleet, s, steps');
            && after.now == before.now + m.elapsed
            && after.rows == before.rows[event.id := HandledRow(fleet[w], event, m, before.rows[event.id], before.now)]
            && after.workers == before.workers[w := Worker(before.workers[w].queue[1..], Waiting)]
  {
    hide Apply, Enabled, FailedRow, DeliveredRow;
    var before := Exec(fleet, s, steps);
    var event := Head(before, w).event;
    var all := HandlingSteps(fleet[w], w, event, m, before.now);
    TickWaits(fleet, before, m.elapsed);
    Append(fleet, s, steps, all[0]);
    var waited := Exec(fleet, s, steps + [all[0]]);
    if event.eventType in fleet[w].handlers {
      AnswerIsKept(fleet, waited, w, m.ok);
      Append(fleet, s, steps + [all[0]], all[1]);
      MarkPops(fleet, Exec(fleet, s, steps + [all[0]] + [all[1]]), w, m.message);
      Append(fleet, s, steps + [all[0]] + [all[1]], all[2]);
      assert steps + [all[0]] + [all[1]] + [all[2]] == steps + all;
    } else {
      MarkPops(fleet, waited, w, "no handler registered for event type " + event.eventType);
      Append(fleet, s, steps + [all[0]], all[1]);
      assert steps + [all[0]] + [all[1]] == steps + all;
    }
  }

  /** Handling task i moves the queue on to task i + 1. */
  lemma NextIsHandled(fleet: Fleet, s: State, steps: seq<Step>, w: WorkerId, tasks: seq<Task>, i: nat, m: Moment)
    requires ValidRun(fleet, s, steps) && w in fleet && w in s.workers && i < |tasks|
    requires Exec(fleet, s, steps).workers == s.workers[w := OutboxProtocol.Worker(tasks[i..], Waiting)]
    requires tasks[i].event.id in Exec(fleet, s, steps).rows
    ensures var before := Exec(fleet, s, steps);
            var event := tasks[i].event;
            var steps' := steps + HandlingSteps(fleet[w], w, event, m, before.now);
            && ValidRun(fleet, s, steps')
            && var after := Exec(fleet, s, steps');
            && after.now == before.now + m.elapsed
            && after.rows == before.rows[event.id := HandledRow(fleet[w], event, m, before.rows[event.id], before.now)]
            && after.workers == s.workers[w := OutboxProtocol.Worker(tasks[i + 1..], Waiting)]
  {
    hide Apply, Enabled, HandledRow, HandlingSteps;
    HandlingIsARun(fleet, s, steps, w, m);
    assert tasks[i..][1..] == tasks[i + 1..];
  }

  lemma ClaimIsARun(fleet: Fleet, s: State, w: WorkerId, events: seq<Event>, skipped: set<EventId>)
    requires w in s.workers && w in fleet && s.workers[w].queue == []
    requires IsBatch(s.rows, Ids(events), skipped, s.now, Lease(fleet[w].lease), Limit(fleet[w].batch))
    requires Returned(s.rows, Ids(events), s.now, events)
    ensures ValidRun(fleet, s, [Claim(w, events, skipped)])
    ensures var s' := Exec(fleet, s, [Claim(w, events, skipped)]);
            && s'.now == s.now && s'.rows == ClaimRows(s.rows, Ids(events), s.now)
            && s'.workers == s.workers[w := OutboxProtocol.Worker(Tasks(events, s.now), Waiting)]
  {
    assert [] + [Claim(w, events, skipped)] == [Claim(w, events, skipped)];
    Append(fleet, s, [], Claim(w, events, skipped));
  }

  class Worker {
    const config: Config
    const repository: Repository

    constructor (config: Config, repository: Repository)
      ensures this.config == config && this.repository == repository
    {
      this.config := config;
      this.repository := repository;
    }

    method ProcessEvent(event: Event, m: Moment, now: int) returns (ok: bool)
      modifies repository
      ensures repository.rows ==
                if event.id in old(repository.rows)
                then old(repository.rows)[event.id := HandledRow(config, event, m, old(repository.rows)[event.id], now)]
                else old(repository.rows)
      ensures ok <==> event.id in old(repository.rows) && old(repository.rows)[event.id].status.Processing?
      ensures ok ==> Settles(config, event, m, repository.rows[event.id], now)
    {
      RetryDelayPositive(event.attempts);
      if event.eventType !in config.handlers {
        var cause := "no handler registered for event type " + event.eventType;
        ok := repository.MarkFailed(event.id, Some(cause), RetryDelay(event.attempts), config.maxAttempts,
            now + m.elapsed);
      } else if !m.ok {
        ok := repository.MarkFailed(event.id, Some(m.message), RetryDelay(event.attempts), config.maxAttempts,
            now + m.elapsed);
      } else {
        ok := repository.MarkDelivered(event.id, now + m.elapsed);
      }
    }

    /** `s` is the protocol state the poll starts from and `steps` the run it performs. */
    method ProcessOnce(ghost fleet: Fleet, ghost s: State, ghost w: WorkerId,
                       env: nat -> Moment, now: int, skipped: set<EventId>)
      returns (ghost steps: seq<Step>)
      requires s.rows == repository.rows && s.now == now
      requires w in fleet && fleet[w] == config && w in s.workers && s.workers[w] == OutboxProtocol.Worker([], Waiting)
      modifies repository
      ensures ValidRun(fleet, s, steps)
      ensures Exec(fleet, s, steps).rows == repository.rows
      ensures Exec(fleet, s, steps).workers == s.workers
    {
      hide ClaimTakesDue, Settles;
      var events := repository.ClaimPending(config.batch, config.lease, now, skipped);
      ClaimIsARun(fleet, s, w, events, skipped);
      steps := [Claim(w, events, skipped)];
      assert forall j :: 0 <= j < |events| ==> events[j].id in repository.rows;
      hide Apply, Enabled, IsBatch, Returned, HandledRow, HandlingSteps, RetryDelay, Exec, ValidRun, ClaimRows, Ids;
      ghost var tasks := Tasks(events, now);
      var clock := now;
      var i := 0;
      assert tasks[0..] == tasks;
      while i < |events|
        invariant 0 <= i <= |events|
        invariant ValidRun(fleet, s, steps)
        invariant Exec(fleet, s, steps).now == clock && Exec(fleet, s, steps).rows == repository.rows
        invariant Exec(fleet, s, steps).workers == s.workers[w := OutboxProtocol.Worker(tasks[i..], Waiting)]
        invariant forall j :: 0 <= j < |events| ==> events[j].id in repository.rows
      {
        NextIsHandled(fleet, s, steps, w, tasks, i, env(i));
        steps := steps + HandlingSteps(config, w, events[i], env(i), clock);
        var _ := ProcessEvent(events[i], env(i), clock);
        clock := clock + env(i).elapsed;
        i := i + 1;
      }
      assert tasks[|events|..] == [];
      assert s.workers[w := OutboxProtocol.Worker([], Waiting)] == s.workers;
    }
  }
}
