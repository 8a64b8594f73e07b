/**
 Several outbox workers over one table, as a state machine.  Every database
 statement, handler return, clock tick and crash is one step, in any order.
 Nothing in the mark statements names the lease holder, so a worker whose lease
 has expired may still change the row.  `Trace` records what happened to an event.
 */
module OutboxProtocol {
  import opened Prelude
  import opened OutboxTable

  type WorkerId = nat

  /** A worker's settings as given; the statements apply the defaults. */
  datatype Config = Config(lease: int, batch: int, maxAttempts: int, handlers: set<string>)

  type Fleet = map<WorkerId, Config>

  datatype Task = Task(event: Event, claimedAt: int)

  /** What the handler call for the first queued event answered so far. */
  datatype Verdict = Waiting | Answered(ok: bool)

  datatype Worker = Worker(queue: seq<Task>, verdict: Verdict)

  datatype Trace = Trace(
    born: Status,
    claims: nat,
    reclaims: nat,             // claims that took over an expired lease
    succeeded: bool,           // some handler call returned nil
    failed: bool,              // some handler call failed, or none was registered
    changes: nat,              // claim and mark statements that changed the row
    backoff: int,              // delays scheduled so far
    firstClaim: Option<int>,
    deadAt: Option<int>)

  datatype State = State(now: int, rows: Table, trace: map<EventId, Trace>, workers: map<WorkerId, Worker>)

  datatype Step =
    | Tick(to: int)
    | Enqueue(id: EventId, eventType: string, payload: string, status: Status, availableAt: int)
    | Claim(w: WorkerId, events: seq<Event>, skipped: set<EventId>)
    | HandlerReturns(w: WorkerId, ok: bool)
    | Mark(w: WorkerId, cause: string)
    | MarkErrors(w: WorkerId)     // the database refuses the statement; the worker logs it and goes on
    | Crash(w: WorkerId)

  // ----- backoff -------------------------------------------------------------

  function Pow2(n: nat): (p: nat)
    ensures p >= 1
  {
    if n == 0 then 1 else 2 * Pow2(n - 1)
  }

  function Min(a: int, b: int): int {
    if a < b then a else b
  }

  function RetryDelay(attempt: int): int {
    var a := if attempt < 1 then 1 else attempt;
    var delay := SECOND * Pow2(Min(a - 1, 8));
    if delay > 5 * MINUTE then 5 * MINUTE else delay
  }

  // ----- steps ---------------------------------------------------------------

  function Init(fleet: Fleet, now: int): State {
    State(now, map[], map[], map w | w in fleet :: Worker([], Waiting))
  }

  function Tasks(events: seq<Event>, now: int): (ts: seq<Task>)
    ensures |ts| == |events| && forall i :: 0 <= i < |ts| ==> ts[i] == Task(events[i], now)
  {
    seq(|events|, i requires 0 <= i < |events| => Task(events[i], now))
  }

  predicate Busy(s: State, w: WorkerId) {
    w in s.workers && s.workers[w].queue != [] && s.workers[w].queue[0].event.id in s.rows
  }

  function Head(s: State, w: WorkerId): Task
    requires Busy(s, w)
  {
    s.workers[w].queue[0]
  }

  predicate HasHandler(fleet: Fleet, s: State, w: WorkerId)
    requires Busy(s, w)
  {
    w in fleet && Head(s, w).event.eventType in fleet[w].handlers
  }

  ghost predicate Enabled(fleet: Fleet, s: State, step: Step) {
    match step
    case Tick(to) => s.now <= to
    case Enqueue(id, _, _, _, _) => id !in s.rows
    case Claim(w, events, skipped) =>
      && w in s.workers && w in fleet && s.workers[w].queue == []
      && IsBatch(s.rows, Ids(events), skipped, s.now, Lease(fleet[w].lease), Limit(fleet[w].batch))
      && Returned(s.rows, Ids(events), s.now, events)
    case HandlerReturns(w, _) => Busy(s, w) && s.workers[w].verdict.Waiting? && HasHandler(fleet, s, w)
    case Mark(w, _) => Busy(s, w) && w in fleet && (s.workers[w].verdict.Waiting? ==> !HasHandler(fleet, s, w))
    case MarkErrors(w) => Busy(s, w) && w in fleet && (s.workers[w].verdict.Waiting? ==> !HasHandler(fleet, s, w))
    case Crash(w) => w in s.workers
  }

  function NewTrace(status: Status): Trace {
    Trace(status, 0, 0, false, false, 0, 0, None, None)
  }

  function AnswerTrace(tr: Trace, ok: bool): Trace {
    if ok then tr.(succeeded := true) else tr.(failed := true)
  }

  function ClaimTrace(tr: Trace, r: Row, now: int): Trace {
    tr.(claims := tr.claims + 1,
        reclaims := tr.reclaims + (if r.status.Processing? then 1 else 0),
        changes := tr.changes + 1,
        firstClaim := if tr.firstClaim.None? then Some(now) else tr.firstClaim)
  }

  function MarkedRow(config: Config, task: Task, verdict: Verdict, r: Row, cause: string, now: int): Row {
    if verdict == Answered(true) then DeliveredRow(r, now)
    else FailedRow(r, cause, RetryDelay(task.event.attempts), config.maxAttempts, now)
  }

  function MarkTrace(tr: Trace, verdict: Verdict, r: Row, marked: Row, now: int): Trace {
    var tr' := if verdict == Answered(true) then tr else tr.(failed := true);
    if !r.status.Processing? then tr'
    else tr'.(changes := tr.changes + 1,
              backoff := tr.backoff + (if marked.status.Failed? then marked.availableAt - now else 0),
              deadAt := if marked.status.DeadLetter? then Some(now) else tr.deadAt)
  }

  function Popped(wk: Worker): Worker
    requires wk.queue != []
  {
    Worker(wk.queue[1..], Waiting)
  }

  function Apply(fleet: Fleet, s: State, step: Step): State
    requires Enabled(fleet, s, step)
  {
    match step
    case Tick(to) => s.(now := to)
    case Enqueue(id, eventType, payload, status, availableAt) =>
      s.(rows := s.rows[id := NewRow(eventType, payload, status, availableAt, s.now)],
         trace := s.trace[id := NewTrace(status)])
    case Claim(w, events, _) =>
      s.(rows := ClaimRows(s.rows, Ids(events), s.now),
         trace := map id | id in s.trace ::
                    if id in Ids(events) && id in s.rows
                      then ClaimTrace(s.trace[id], s.rows[id], s.now) else s.trace[id],
         workers := s.workers[w := Worker(Tasks(events, s.now), Waiting)])
    case HandlerReturns(w, ok) =>
      var id := Head(s, w).event.id;
      s.(workers := s.workers[w := s.workers[w].(verdict := Answered(ok))],
         trace := if id !in s.trace then s.trace
                  else s.trace[id := AnswerTrace(s.trace[id], ok)])
    case Mark(w, cause) =>
      var wk := s.workers[w];
      var id := Head(s, w).event.id;
      var marked := MarkedRow(fleet[w], Head(s, w), wk.verdict, s.rows[id], cause, s.now);
      s.(rows := s.rows[id := marked],
         trace := if id !in s.trace then s.trace
                  else s.trace[id := MarkTrace(s.trace[id], wk.verdict, s.rows[id], marked, s.now)],
         workers := s.workers[w := Popped(wk)])
    case MarkErrors(w) => s.(workers := s.workers[w := Popped(s.workers[w])])
    case Crash(w) => s.(workers := s.workers[w := Worker([], Waiting)])
  }

  ghost predicate ValidRun(fleet: Fleet, s: State, steps: seq<Step>)
    decreases |steps|, 0
  {
    steps == [] ||
    var before := steps[..|steps| - 1];
    ValidRun(fleet, s, before) && Enabled(fleet, Exec(fleet, s, before), steps[|steps| - 1])
  }

  ghost function Exec(fleet: Fleet, s: State, steps: seq<Step>): State
    requires ValidRun(fleet, s, steps)
    decreases |steps|, 1
  {
    if steps == [] then s
    else Apply(fleet, Exec(fleet, s, steps[..|steps| - 1]), steps[|steps| - 1])
  }

  lemma Append(fleet: Fleet, s: State, steps: seq<Step>, step: Step)
    requires ValidRun(fleet, s, steps) && Enabled(fleet, Exec(fleet, s, steps), step)
    ensures ValidRun(fleet, s, steps + [step])
    ensures Exec(fleet, s, steps + [step]) == Apply(fleet, Exec(fleet, s, steps), step)
  {
    assert (steps + [step])[..|steps + [step]| - 1] == steps;
  }

  // ----- what every step keeps -----------------------------------------------

  /** Every worker's configured maximum, five when it is below one, lies between `lo` and `hi`. */
  ghost predicate MaximaWithin(fleet: Fleet, lo: nat, hi: nat) {
    1 <= hi && forall w :: w in fleet ==> lo <= (if fleet[w].maxAttempts < 1 then 5 else fleet[w].maxAttempts) <= hi
  }

  ghost predicate RowInv(lo: nat, hi: nat, r: Row, tr: Trace) {
    && r.attempts == tr.claims
    && r.attempts <= hi + tr.reclaims
    && (r.status.Pending? || r.status.Failed? ==> r.attempts < hi)
    && (r.status.Processing? && r.attempts == 0 ==> r.lockedAt.None? && tr.born.Processing?)
    && (r.status.Processing? && r.attempts > 0 ==> r.lockedAt.Some?)
    && (r.status.Delivered? ==> tr.succeeded || tr.born.Delivered?)
    && (r.status.DeadLetter? ==> (tr.failed && r.attempts >= lo) || tr.born.DeadLetter?)
    && tr.changes + (if r.status.Processing? && r.attempts > 0 then 1 else 0) <= 2 * r.attempts
  }

  ghost predicate WorkerInv(s: State, wk: Worker) {
    && (forall i :: 0 <= i < |wk.queue| ==>
          var e := wk.queue[i].event;
          e.id in s.rows && e.id in s.trace && 1 <= e.attempts <= s.rows[e.id].attempts)
    && (wk.verdict.Answered? ==>
          wk.queue != [] && var tr := s.trace[wk.queue[0].event.id];
          if wk.verdict.ok then tr.succeeded else tr.failed)
  }

  ghost predicate Inv(fleet: Fleet, lo: nat, hi: nat, s: State) {
    && s.rows.Keys == s.trace.Keys
    && s.workers.Keys == fleet.Keys
    && (forall id :: id in s.rows ==> RowInv(lo, hi, s.rows[id], s.trace[id]))
    && (forall w :: w in s.workers ==> WorkerInv(s, s.workers[w]))
  }

  /** One event never loses attempts, claims or recorded answers. */
  ghost predicate Grows(r: Row, tr: Trace, r': Row, tr': Trace) {
    && r.attempts <= r'.attempts && tr.reclaims <= tr'.reclaims && tr.claims <= tr'.claims
    && (tr.succeeded ==> tr'.succeeded) && (tr.failed ==> tr'.failed) && tr.born == tr'.born
  }

  lemma ClaimKeepsRow(lo: nat, hi: nat, r: Row, tr: Trace, now: int, lease: int)
    requires RowInv(lo, hi, r, tr) && Claimable(r, now, lease)
    ensures RowInv(lo, hi, ClaimedRow(r, now), ClaimTrace(tr, r, now))
    ensures Grows(r, tr, ClaimedRow(r, now), ClaimTrace(tr, r, now))
  {
  }

  lemma MarkKeepsRow(lo: nat, hi: nat, config: Config, task: Task, verdict: Verdict, r: Row, tr: Trace, cause: string,
                     now: int)
    requires RowInv(lo, hi, r, tr) && lo <= (if config.maxAttempts < 1 then 5 else config.maxAttempts) <= hi
    requires 1 <= r.attempts && (verdict == Answered(true) ==> tr.succeeded)
    ensures var marked := MarkedRow(config, task, verdict, r, cause, now);
            var tr' := MarkTrace(tr, verdict, r, marked, now);
            RowInv(lo, hi, marked, tr') && Grows(r, tr, marked, tr')
  {
  }

  lemma NewRowInv(lo: nat, hi: nat, eventType: string, payload: string, status: Status, availableAt: int, now: int)
    requires 1 <= hi
    ensures RowInv(lo, hi, NewRow(eventType, payload, status, availableAt, now), NewTrace(status))
  {
  }

  lemma AnswerKeepsRow(lo: nat, hi: nat, r: Row, tr: Trace, ok: bool)
    requires RowInv(lo, hi, r, tr)
    ensures RowInv(lo, hi, r, AnswerTrace(tr, ok)) && Grows(r, tr, r, AnswerTrace(tr, ok))
  {
  }

  lemma GrowsFromItself(r: Row, tr: Trace)
    ensures Grows(r, tr, r, tr)
  {
  }

  lemma StepKeepsRow(fleet: Fleet, lo: nat, hi: nat, s: State, step: Step, s': State, id: EventId)
    requires MaximaWithin(fleet, lo, hi) && Inv(fleet, lo, hi, s)
    requires Enabled(fleet, s, step) && s' == Apply(fleet, s, step)
    ensures id in s'.rows <==> id in s'.trace
    ensures id in s'.rows ==> RowInv(lo, hi, s'.rows[id], s'.trace[id])
    ensures id in s.rows ==> id in s'.rows && Grows(s.rows[id], s.trace[id], s'.rows[id], s'.trace[id])
  {
    hide RowInv, Grows, ClaimTrace, MarkTrace, MarkedRow, AnswerTrace, NewTrace, ClaimedRow, NewRow;
    if id in s.rows {
      GrowsFromItself(s.rows[id], s.trace[id]);
    }
    match step
    case Enqueue(_, eventType, payload, status, availableAt) =>
      NewRowInv(lo, hi, eventType, payload, status, availableAt, s.now);
    case Claim(w, events, skipped) =>
      if id in Ids(events) {
        ClaimKeepsRow(lo, hi, s.rows[id], s.trace[id], s.now, Lease(fleet[w].lease));
      }
    case Mark(w, cause) =>
      var task := Head(s, w);
      assert WorkerInv(s, s.workers[w]);
      MarkKeepsRow(lo, hi, fleet[w], task, s.workers[w].verdict, s.rows[task.event.id], s.trace[task.event.id], cause,
          s.now);
    case HandlerReturns(w, ok) =>
      AnswerKeepsRow(lo, hi, s.rows[Head(s, w).event.id], s.trace[Head(s, w).event.id], ok);
    case _ =>
  }

  lemma WorkerKept(s: State, s': State, wk: Worker)
    requires s.rows.Keys == s.trace.Keys && s'.rows.Keys == s'.trace.Keys
    requires forall id :: id in s.rows ==> id in s'.rows && Grows(s.rows[id], s.trace[id], s'.rows[id], s'.trace[id])
    requires WorkerInv(s, wk)
    ensures WorkerInv(s', wk)
    ensures wk.queue != [] ==> WorkerInv(s', Popped(wk))
    ensures WorkerInv(s', Worker([], Waiting))
  {
  }

  lemma StepKeepsWorker(fleet: Fleet, lo: nat, hi: nat, s: State, step: Step, s': State, w: WorkerId)
    requires MaximaWithin(fleet, lo, hi) && Inv(fleet, lo, hi, s)
    requires Enabled(fleet, s, step) && s' == Apply(fleet, s, step) && w in s.workers
    requires s'.rows.Keys == s'.trace.Keys
    requires forall id :: id in s.rows ==> id in s'.rows && Grows(s.rows[id], s.trace[id], s'.rows[id], s'.trace[id])
    ensures w in s'.workers && WorkerInv(s', s'.workers[w])
  {
    WorkerKept(s, s', s.workers[w]);
    match step
    case Claim(v, events, skipped) =>
      if v == w {
        forall i | 0 <= i < |events|
          ensures events[i].id in s'.rows && 1 <= events[i].attempts <= s'.rows[events[i].id].attempts
        {
          assert events[i].id in Ids(events);
        }
      }
    case HandlerReturns(v, ok) =>
      if v == w {
        assert s'.workers[w].queue == s.workers[w].queue;
      }
    case _ =>
  }

  lemma StepKeepsWorkers(fleet: Fleet, s: State, step: Step, s': State)
    requires Enabled(fleet, s, step) && s' == Apply(fleet, s, step)
    ensures s'.workers.Keys == s.workers.Keys
  {
  }

  lemma StepKeepsInv(fleet: Fleet, lo: nat, hi: nat, s: State, step: Step, s': State)
    requires MaximaWithin(fleet, lo, hi) && Inv(fleet, lo, hi, s)
    requires Enabled(fleet, s, step) && s' == Apply(fleet, s, step)
    ensures Inv(fleet, lo, hi, s')
  {
    hide Apply, Enabled, RowInv, WorkerInv, Grows;
    StepKeepsWorkers(fleet, s, step, s');
    forall id
      ensures id in s'.rows <==> id in s'.trace
      ensures id in s'.rows ==> RowInv(lo, hi, s'.rows[id], s'.trace[id])
      ensures id in s.rows ==> id in s'.rows && Grows(s.rows[id], s.trace[id], s'.rows[id], s'.trace[id])
    {
      StepKeepsRow(fleet, lo, hi, s, step, s', id);
    }
    forall w | w in s'.workers ensures WorkerInv(s', s'.workers[w]) {
      StepKeepsWorker(fleet, lo, hi, s, step, s', w);
    }
  }

  lemma {:induction false} RunKeepsInv(fleet: Fleet, lo: nat, hi: nat, s: State, steps: seq<Step>)
    requires MaximaWithin(fleet, lo, hi) && Inv(fleet, lo, hi, s) && ValidRun(fleet, s, steps)
    ensures Inv(fleet, lo, hi, Exec(fleet, s, steps))
    decreases |steps|
  {
    if steps != [] {
      var before := steps[..|steps| - 1];
      RunKeepsInv(fleet, lo, hi, s, before);
      StepKeepsInv(fleet, lo, hi, Exec(fleet, s, before), steps[|steps| - 1], Exec(fleet, s, steps));
    }
  }
}
