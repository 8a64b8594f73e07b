/**
 Lease exclusivity.  A worker holds an event while the event is in its queue and
 its own lease on it still runs.  With leases of at least `length`, the leases
 hold throughout a run exactly when no mark hits an event that somebody else
 holds; a worker can be sure of that by its clock or by the row's attempts.  The
 mark statements check neither, and the last two lemmas show what follows.
 */
module OutboxLease {
  import opened Prelude
  import opened OutboxTable
  import opened OutboxProtocol
  import opened OutboxOwnership

  /** Worker `w` holds its i-th queued task under a lease of `length`. */
  ghost predicate Holds(s: State, length: int, w: WorkerId, i: int) {
    && w in s.workers && 0 <= i < |s.workers[w].queue|
    && s.now < s.workers[w].queue[i].claimedAt + length
  }

  function TaskAt(s: State, w: WorkerId, i: int): Task
    requires w in s.workers && 0 <= i < |s.workers[w].queue|
  {
    s.workers[w].queue[i]
  }

  /** A live lease is the one the row shows. */
  ghost predicate Backed(s: State, t: Task) {
    && t.event.id in s.rows && t.claimedAt <= s.now
    && s.rows[t.event.id].status.Processing?
    && s.rows[t.event.id].lockedAt == Some(t.claimedAt)
    && s.rows[t.event.id].attempts == t.event.attempts
  }

  ghost predicate Exclusive(s: State, length: int) {
    forall w, i, v, j :: Holds(s, length, w, i) && Holds(s, length, v, j) && (w != v || i != j) ==>
      TaskAt(s, w, i).event.id != TaskAt(s, v, j).event.id
  }

  ghost predicate LeaseInv(s: State, length: int) {
    && (forall w, i :: Holds(s, length, w, i) ==> Backed(s, TaskAt(s, w, i)))
    && Exclusive(s, length)
  }

  ghost predicate LeasesAtLeast(fleet: Fleet, length: int) {
    forall w :: w in fleet ==> length <= if fleet[w].lease <= 0 then 300_000_000_000 else fleet[w].lease
  }

  /** A mark statement is sent only while the worker's own lease runs. */
  ghost predicate Timely(s: State, step: Step, length: int) {
    step.Mark? ==> Holds(s, length, step.w, 0)
  }

  ghost predicate TimelyRun(fleet: Fleet, s: State, steps: seq<Step>, length: int)
    requires ValidRun(fleet, s, steps)
    decreases |steps|
  {
    steps == [] ||
    var before := steps[..|steps| - 1];
    TimelyRun(fleet, s, before, length) && Timely(Exec(fleet, s, before), steps[|steps| - 1], length)
  }

  /** A row that can be claimed has no holder. */
  lemma ClaimableHasNoHolder(s: State, length: int, lease: int, w: WorkerId, i: int)
    requires LeaseInv(s, length) && length <= lease && Holds(s, length, w, i)
    ensures TaskAt(s, w, i).event.id in s.rows
    ensures !Claimable(s.rows[TaskAt(s, w, i).event.id], s.now, lease)
  {
    assert Backed(s, TaskAt(s, w, i));
  }

  /** The tasks after a step: each was there before, or was claimed by this very step. */
  ghost predicate CameFrom(s: State, s': State, length: int, w: WorkerId, i: int, shift: int)
    requires w in s'.workers && 0 <= i < |s'.workers[w].queue|
  {
    Holds(s, length, w, i + shift) && TaskAt(s', w, i) == TaskAt(s, w, i + shift)
  }

  lemma ClaimKeepsLeases(fleet: Fleet, s: State, step: Step, s': State, length: int)
    requires LeasesAtLeast(fleet, length) && LeaseInv(s, length) && step.Claim?
    requires Enabled(fleet, s, step) && s' == Apply(fleet, s, step)
    ensures LeaseInv(s', length)
  {
    forall w, i | Holds(s', length, w, i)
      ensures Backed(s', TaskAt(s', w, i))
      ensures w != step.w ==> CameFrom(s, s', length, w, i, 0) && TaskAt(s', w, i).event.id !in Ids(step.events)
      ensures w == step.w ==> TaskAt(s', w, i).event == step.events[i] && TaskAt(s', w, i).event.id in Ids(step.events)
    {
      if w != step.w {
        assert Holds(s, length, w, i);
        ClaimableHasNoHolder(s, length, Lease(fleet[step.w].lease), w, i);
      }
    }
  }

  /** Steps that neither claim nor mark. */
  lemma QuietStepKeepsLeases(fleet: Fleet, s: State, step: Step, s': State, length: int)
    requires LeaseInv(s, length) && !step.Claim? && !step.Mark?
    requires Enabled(fleet, s, step) && s' == Apply(fleet, s, step)
    ensures LeaseInv(s', length)
  {
    forall w, i | Holds(s', length, w, i)
      ensures Backed(s', TaskAt(s', w, i))
      ensures CameFrom(s, s', length, w, i, if step.MarkErrors? && w == step.w then 1 else 0)
    {
      var shift := if step.MarkErrors? && w == step.w then 1 else 0;
      assert Holds(s, length, w, i + shift);
      assert Backed(s, TaskAt(s, w, i + shift));
    }
  }

  // ----- when a mark keeps the leases ----------------------------------------

  /** Some live lease other than that of task i of `w` is on the same event. */
  ghost predicate HeldElsewhere(s: State, length: int, w: WorkerId, i: int)
    requires w in s.workers && 0 <= i < |s.workers[w].queue|
  {
    exists v, j :: Holds(s, length, v, j) && (v != w || j != i) && TaskAt(s, v, j).event.id == TaskAt(s, w, i).event.id
  }

  /** A mark that finds no PROCESSING row, or one that nobody else holds. */
  ghost predicate Harmless(s: State, step: Step, length: int) {
    step.Mark? && Busy(s, step.w) ==>
      !s.rows[Head(s, step.w).event.id].status.Processing? || !HeldElsewhere(s, length, step.w, 0)
  }

  /** A mark ends the claim that its row shows, whoever made it. */
  lemma MarkEndsTheClaim(fleet: Fleet, s: State, step: Step, s': State)
    requires step.Mark? && Enabled(fleet, s, step) && s' == Apply(fleet, s, step)
    ensures var id := Head(s, step.w).event.id;
            && id in s'.rows && !s'.rows[id].status.Processing?
            && (!s.rows[id].status.Processing? ==> s'.rows == s.rows)
            && (forall other :: other in s.rows && other != id ==> other in s'.rows && s'.rows[other] == s.rows[other])
    ensures s'.now == s.now && s'.workers == s.workers[step.w := Popped(s.workers[step.w])]
  {
    assert s.rows[Head(s, step.w).event.id].status.Processing?
      || s'.rows[Head(s, step.w).event.id] == s.rows[Head(s, step.w).event.id];
  }

  lemma HarmlessMarkKeepsLeases(fleet: Fleet, s: State, step: Step, s': State, length: int)
    requires step.Mark? && LeaseInv(s, length) && Harmless(s, step, length)
    requires Enabled(fleet, s, step) && s' == Apply(fleet, s, step)
    ensures LeaseInv(s', length)
  {
    MarkEndsTheClaim(fleet, s, step, s');
    forall w, i | Holds(s', length, w, i)
      ensures Backed(s', TaskAt(s', w, i))
      ensures CameFrom(s, s', length, w, i, if w == step.w then 1 else 0)
    {
      var shift := if w == step.w then 1 else 0;
      assert Holds(s, length, w, i + shift);
      assert Backed(s, TaskAt(s, w, i + shift));
    }
  }

  lemma HarmfulMarkBreaksLeases(fleet: Fleet, s: State, step: Step, s': State, length: int)
    requires step.Mark? && LeaseInv(s, length) && !Harmless(s, step, length)
    requires Enabled(fleet, s, step) && s' == Apply(fleet, s, step)
    ensures !LeaseInv(s', length)
  {
    MarkEndsTheClaim(fleet, s, step, s');
    var v, j :| Holds(s, length, v, j) && (v != step.w || j != 0)
      && TaskAt(s, v, j).event.id == TaskAt(s, step.w, 0).event.id;
    var i := if v == step.w then j - 1 else j;
    assert Holds(s', length, v, i) && TaskAt(s', v, i) == TaskAt(s, v, j);
    assert !Backed(s', TaskAt(s', v, i));
  }

  /** A mark keeps the leases exactly when it is harmless. */
  lemma MarkKeepsLeasesExactly(fleet: Fleet, s: State, step: Step, s': State, length: int)
    requires step.Mark? && LeaseInv(s, length) && Enabled(fleet, s, step) && s' == Apply(fleet, s, step)
    ensures LeaseInv(s', length) <==> Harmless(s, step, length)
  {
    if Harmless(s, step, length) {
      HarmlessMarkKeepsLeases(fleet, s, step, s', length);
    } else {
      HarmfulMarkBreaksLeases(fleet, s, step, s', length);
    }
  }

  ghost predicate HarmlessRun(fleet: Fleet, s: State, steps: seq<Step>, length: int)
    requires ValidRun(fleet, s, steps)
    decreases |steps|
  {
    steps == [] ||
    var before := steps[..|steps| - 1];
    HarmlessRun(fleet, s, before, length) && Harmless(Exec(fleet, s, before), steps[|steps| - 1], length)
  }

  /** Every state of the run keeps the leases. */
  ghost predicate AlwaysLeased(fleet: Fleet, s: State, steps: seq<Step>, length: int)
    requires ValidRun(fleet, s, steps)
    decreases |steps|
  {
    LeaseInv(Exec(fleet, s, steps), length) && (steps == [] || AlwaysLeased(fleet, s, steps[..|steps| - 1], length))
  }

  /** The leases hold throughout a run exactly when every mark of the run is harmless. */
  lemma {:induction false} LeasesHoldExactly(fleet: Fleet, now: int, steps: seq<Step>, length: int)
    requires LeasesAtLeast(fleet, length) && ValidRun(fleet, Init(fleet, now), steps)
    ensures AlwaysLeased(fleet, Init(fleet, now), steps, length) <==>
              HarmlessRun(fleet, Init(fleet, now), steps, length)
    decreases |steps|
  {
    if steps != [] {
      var before := steps[..|steps| - 1];
      LeasesHoldExactly(fleet, now, before, length);
      if AlwaysLeased(fleet, Init(fleet, now), before, length) {
        LeasesAfter(fleet, Exec(fleet, Init(fleet, now), before), steps[|steps| - 1],
            Exec(fleet, Init(fleet, now), steps), length);
      }
    }
  }

  lemma LeasesAfter(fleet: Fleet, s: State, step: Step, s': State, length: int)
    requires LeasesAtLeast(fleet, length) && LeaseInv(s, length) && Enabled(fleet, s, step)
             && s' == Apply(fleet, s, step)
    ensures LeaseInv(s', length) <==> Harmless(s, step, length)
  {
    if step.Claim? {
      ClaimKeepsLeases(fleet, s, step, s', length);
    } else if step.Mark? {
      MarkKeepsLeasesExactly(fleet, s, step, s', length);
    } else {
      QuietStepKeepsLeases(fleet, s, step, s', length);
    }
  }

  /** While marks are harmless, no two workers hold one event and no worker holds it twice. */
  lemma LeaseExclusivity(fleet: Fleet, now: int, steps: seq<Step>, length: int)
    requires LeasesAtLeast(fleet, length) && ValidRun(fleet, Init(fleet, now), steps)
    requires HarmlessRun(fleet, Init(fleet, now), steps, length)
    ensures Exclusive(Exec(fleet, Init(fleet, now), steps), length)
  {
    LeasesHoldExactly(fleet, now, steps, length);
  }

  // ----- what a worker can see -----------------------------------------------

  /** The row still shows the attempts of the worker's own claim. */
  ghost predicate OwnAttempts(s: State, step: Step) {
    step.Mark? && Busy(s, step.w) ==>
      s.rows[Head(s, step.w).event.id].attempts == Head(s, step.w).event.attempts
  }

  /** The worker's own lease runs, or the row shows its own attempts: nobody else holds the event. */
  lemma CheckedMarkIsHarmless(fleet: Fleet, now: int, steps: seq<Step>, step: Step, length: int)
    requires ValidRun(fleet, Init(fleet, now), steps) && LeaseInv(Exec(fleet, Init(fleet, now), steps), length)
    requires var s := Exec(fleet, Init(fleet, now), steps); Timely(s, step, length) || OwnAttempts(s, step)
    ensures Harmless(Exec(fleet, Init(fleet, now), steps), step, length)
  {
    var s := Exec(fleet, Init(fleet, now), steps);
    if step.Mark? && Busy(s, step.w) && HeldElsewhere(s, length, step.w, 0) {
      var id := TaskAt(s, step.w, 0).event.id;
      var v, j :| Holds(s, length, v, j) && (v != step.w || j != 0) && TaskAt(s, v, j).event.id == id;
      RunKeepsAttempts(fleet, now, steps, id);
      assert Backed(s, TaskAt(s, v, j));
      assert Queued(s, id, v, j) && Queued(s, id, step.w, 0);
      assert false;
    }
  }

  /** Every mark is sent in time, or only on a row that still shows the worker's own attempts. */
  ghost predicate CheckedRun(fleet: Fleet, s: State, steps: seq<Step>, length: int)
    requires ValidRun(fleet, s, steps)
    decreases |steps|
  {
    steps == [] ||
    var before := steps[..|steps| - 1];
    CheckedRun(fleet, s, before, length)
    && (Timely(Exec(fleet, s, before), steps[|steps| - 1], length)
        || OwnAttempts(Exec(fleet, s, before), steps[|steps| - 1]))
  }

  /** Workers that check their clock or the row's attempts before each mark keep the leases. */
  lemma {:induction false} CheckedMarksKeepLeases(fleet: Fleet, now: int, steps: seq<Step>, length: int)
    requires LeasesAtLeast(fleet, length) && ValidRun(fleet, Init(fleet, now), steps)
    requires CheckedRun(fleet, Init(fleet, now), steps, length)
    ensures HarmlessRun(fleet, Init(fleet, now), steps, length)
    ensures LeaseInv(Exec(fleet, Init(fleet, now), steps), length)
    decreases |steps|
  {
    if steps != [] {
      var before := steps[..|steps| - 1];
      CheckedMarksKeepLeases(fleet, now, before, length);
      CheckedMarkIsHarmless(fleet, now, before, steps[|steps| - 1], length);
      LeasesAfter(fleet, Exec(fleet, Init(fleet, now), before), steps[|steps| - 1],
          Exec(fleet, Init(fleet, now), steps), length);
    }
  }

  lemma {:induction false} TimelyIsChecked(fleet: Fleet, s: State, steps: seq<Step>, length: int)
    requires ValidRun(fleet, s, steps) && TimelyRun(fleet, s, steps, length)
    ensures CheckedRun(fleet, s, steps, length)
    decreases |steps|
  {
    if steps != [] {
      TimelyIsChecked(fleet, s, steps[..|steps| - 1], length);
    }
  }

  /** Workers that stop touching their batch before their lease ends are exclusive. */
  lemma TimelyWorkersAreExclusive(fleet: Fleet, now: int, steps: seq<Step>, length: int)
    requires LeasesAtLeast(fleet, length) && ValidRun(fleet, Init(fleet, now), steps)
    requires TimelyRun(fleet, Init(fleet, now), steps, length)
    ensures HarmlessRun(fleet, Init(fleet, now), steps, length)
    ensures Exclusive(Exec(fleet, Init(fleet, now), steps), length)
  {
    TimelyIsChecked(fleet, Init(fleet, now), steps, length);
    CheckedMarksKeepLeases(fleet, now, steps, length);
  }

  /** A mark sent in time finds its row PROCESSING, under this worker's own claim, and settles it. */
  lemma TimelyMarkFindsItsRow(fleet: Fleet, now: int, steps: seq<Step>, length: int)
    requires LeasesAtLeast(fleet, length) && ValidRun(fleet, Init(fleet, now), steps)
    requires TimelyRun(fleet, Init(fleet, now), steps, length)
    requires steps != [] && steps[|steps| - 1].Mark?
    ensures var before := Exec(fleet, Init(fleet, now), steps[..|steps| - 1]);
            var after := Exec(fleet, Init(fleet, now), steps);
            var w := steps[|steps| - 1].w;
            && Busy(before, w)
            && var task := Head(before, w);
            && before.rows[task.event.id].status.Processing?
            && before.rows[task.event.id].lockedAt == Some(task.claimedAt)
            && before.rows[task.event.id].attempts == task.event.attempts
            && !after.rows[task.event.id].status.Processing?
  {
    TimelyIsChecked(fleet, Init(fleet, now), steps[..|steps| - 1], length);
    CheckedMarksKeepLeases(fleet, now, steps[..|steps| - 1], length);
    var before := Exec(fleet, Init(fleet, now), steps[..|steps| - 1]);
    assert Holds(before, length, steps[|steps| - 1].w, 0);
    assert Backed(before, TaskAt(before, steps[|steps| - 1].w, 0));
  }

  // ----- without the check ---------------------------------------------------

  /** Two workers with a ten-second lease. */
  ghost function SlowFleet(): Fleet {
    var c := Config(10 * SECOND, 1, 5, {"t"});
    map[1 := c, 2 := c]
  }

  /** Event 7 as its n-th claim returned it. */
  function Copy(n: nat): Event {
    Event(7, "t", "{}", n)
  }

  /** A state of the two workers with event 7. */
  ghost predicate Slow(s: State, now: int, r: Row, q1: seq<Task>, v1: Verdict, q2: seq<Task>) {
    && s.now == now && s.rows == map[7 := r] && s.trace.Keys == {7}
    && s.workers == map[1 := Worker(q1, v1), 2 := Worker(q2, Waiting)]
  }

  function Stored(): Row {
    NewRow("t", "", Pending, 0, 0)
  }

  function First(): Row {
    ClaimedRow(Stored(), 0)
  }

  function Second(): Row {
    ClaimedRow(First(), 10 * SECOND)
  }

  function Released(): Row {
    FailedRow(Second(), "late", RetryDelay(1), 5, 10 * SECOND)
  }

  lemma OneRowBatch(t: Table, id: EventId, now: int, lease: int, e: Event)
    requires t.Keys == {id} && Claimable(t[id], now, lease) && e == EventOf(id, ClaimedRow(t[id], now))
    ensures Ids([e]) == {id}
    ensures IsBatch(t, Ids([e]), {}, now, lease, 1) && Returned(t, Ids([e]), now, [e])
  {
    assert Ids([e]) == {id} by {
      assert [e][0].id == id;
    }
    assert Candidates(t, {}, now, lease) == {id};
  }

  lemma Enqueues()
    ensures Enabled(SlowFleet(), Init(SlowFleet(), 0), Enqueue(7, "t", "", Pending, 0))
    ensures Slow(Apply(SlowFleet(), Init(SlowFleet(), 0), Enqueue(7, "t", "", Pending, 0)), 0, Stored(), [], Waiting,
              [])
  {
  }

  /** An idle worker claims the event. */
  lemma Claims(s: State, w: WorkerId, r: Row, q1: seq<Task>, v1: Verdict, q2: seq<Task>)
    requires Slow(s, s.now, r, q1, v1, q2) && Claimable(r, s.now, 10 * SECOND) && r.eventType == "t"
             && r.payload == "{}"
    requires (w == 1 && q1 == []) || (w == 2 && q2 == [])
    ensures Enabled(SlowFleet(), s, Claim(w, [Copy(r.attempts + 1)], {}))
    ensures var task := Task(Copy(r.attempts + 1), s.now);
            Slow(Apply(SlowFleet(), s, Claim(w, [Copy(r.attempts + 1)], {})), s.now, ClaimedRow(r, s.now),
                 if w == 1 then [task] else q1, if w == 1 then Waiting else v1, if w == 2 then [task] else q2)
  {
    hide IsBatch, Returned, Claimable, Candidates;
    OneRowBatch(s.rows, 7, s.now, 10 * SECOND, Copy(r.attempts + 1));
    assert Tasks([Copy(r.attempts + 1)], s.now) == [Task(Copy(r.attempts + 1), s.now)];
  }

  lemma Waits(s: State, to: int, r: Row, q1: seq<Task>, v1: Verdict, q2: seq<Task>)
    requires Slow(s, s.now, r, q1, v1, q2) && s.now <= to
    ensures Enabled(SlowFleet(), s, Tick(to)) && Slow(Apply(SlowFleet(), s, Tick(to)), to, r, q1, v1, q2)
  {
  }

  lemma Fails(s: State)
    requires Slow(s, 10 * SECOND, Second(), [Task(Copy(1), 0)], Waiting, [Task(Copy(2), 10 * SECOND)])
    ensures Enabled(SlowFleet(), s, HandlerReturns(1, false))
    ensures Slow(Apply(SlowFleet(), s, HandlerReturns(1, false)), 10 * SECOND, Second(),
                 [Task(Copy(1), 0)], Answered(false), [Task(Copy(2), 10 * SECOND)])
  {
  }

  lemma MarksLate(s: State)
    requires Slow(s, 10 * SECOND, Second(), [Task(Copy(1), 0)], Answered(false), [Task(Copy(2), 10 * SECOND)])
    ensures Enabled(SlowFleet(), s, Mark(1, "late"))
    ensures Slow(Apply(SlowFleet(), s, Mark(1, "late")), 10 * SECOND, Released(), [], Waiting,
              [Task(Copy(2), 10 * SECOND)])
  {
    assert [Task(Copy(1), 0)][1..] == [];
  }

  lemma ReleasedRow()
    ensures Released().status.Failed? && Released().attempts == 2 && Released().availableAt == 11 * SECOND
    ensures Released().eventType == "t" && Released().payload == "{}"
  {
    assert Pow2(0) == 1;
  }

  /** Worker 1 claims, outlives its lease, and worker 2 reclaims; then worker 1's handler fails. */
  lemma SlowRun() returns (steps: seq<Step>)
    ensures ValidRun(SlowFleet(), Init(SlowFleet(), 0), steps)
    ensures Slow(Exec(SlowFleet(), Init(SlowFleet(), 0), steps), 10 * SECOND, Second(),
                 [Task(Copy(1), 0)], Answered(false), [Task(Copy(2), 10 * SECOND)])
  {
    hide Apply, Enabled, Slow, SlowFleet;
    var f := SlowFleet();
    var s0 := Init(f, 0);
    assert ValidRun(f, s0, []) && Exec(f, s0, []) == s0;
    Enqueues();
    Append(f, s0, [], Enqueue(7, "t", "", Pending, 0));
    steps := [] + [Enqueue(7, "t", "", Pending, 0)];
    NowOf(Exec(f, s0, steps), 0, Stored(), [], Waiting, []);
    Claims(Exec(f, s0, steps), 1, Stored(), [], Waiting, []);
    Append(f, s0, steps, Claim(1, [Copy(1)], {}));
    steps := steps + [Claim(1, [Copy(1)], {})];
    NowOf(Exec(f, s0, steps), 0, First(), [Task(Copy(1), 0)], Waiting, []);
    Waits(Exec(f, s0, steps), 10 * SECOND, First(), [Task(Copy(1), 0)], Waiting, []);
    Append(f, s0, steps, Tick(10 * SECOND));
    steps := steps + [Tick(10 * SECOND)];
    NowOf(Exec(f, s0, steps), 10 * SECOND, First(), [Task(Copy(1), 0)], Waiting, []);
    Claims(Exec(f, s0, steps), 2, First(), [Task(Copy(1), 0)], Waiting, []);
    Append(f, s0, steps, Claim(2, [Copy(2)], {}));
    steps := steps + [Claim(2, [Copy(2)], {})];
    Fails(Exec(f, s0, steps));
    Append(f, s0, steps, HandlerReturns(1, false));
    steps := steps + [HandlerReturns(1, false)];
  }

  lemma NowOf(s: State, now: int, r: Row, q1: seq<Task>, v1: Verdict, q2: seq<Task>)
    requires Slow(s, now, r, q1, v1, q2)
    ensures s.now == now
  {
  }

  /**
   Worker 1's late failure mark is enabled and releases the row that worker 2
   claimed: worker 2 still holds its lease, yet the row is FAILED and free to be
   claimed by a third worker.
   */
  lemma StaleMarkReleasesAnothersClaim() returns (steps: seq<Step>)
    ensures ValidRun(SlowFleet(), Init(SlowFleet(), 0), steps) && steps != [] && steps[|steps| - 1] == Mark(1, "late")
    ensures var s := Exec(SlowFleet(), Init(SlowFleet(), 0), steps);
            && Slow(s, 10 * SECOND, Released(), [], Waiting, [Task(Copy(2), 10 * SECOND)])
            && Holds(s, 10 * SECOND, 2, 0) && TaskAt(s, 2, 0).event.id == 7
    ensures Released().status.Failed? && Claimable(Released(), 11 * SECOND, 10 * SECOND)
  {
    hide Apply, Enabled, SlowFleet;
    var slow := SlowRun();
    MarksLate(Exec(SlowFleet(), Init(SlowFleet(), 0), slow));
    Append(SlowFleet(), Init(SlowFleet(), 0), slow, Mark(1, "late"));
    steps := slow + [Mark(1, "late")];
    ReleasedRow();
  }

  /** A second later worker 1 claims it once more: two live leases on one event. */
  lemma ExclusivityNeedsTimelyMarks() returns (steps: seq<Step>)
    ensures LeasesAtLeast(SlowFleet(), 10 * SECOND) && ValidRun(SlowFleet(), Init(SlowFleet(), 0), steps)
    ensures !Exclusive(Exec(SlowFleet(), Init(SlowFleet(), 0), steps), 10 * SECOND)
  {
    hide Apply, Enabled, SlowFleet;
    var f := SlowFleet();
    var s0 := Init(f, 0);
    var late := StaleMarkReleasesAnothersClaim();
    ReleasedRow();
    Waits(Exec(f, s0, late), 11 * SECOND, Released(), [], Waiting, [Task(Copy(2), 10 * SECOND)]);
    Append(f, s0, late, Tick(11 * SECOND));
    steps := late + [Tick(11 * SECOND)];
    Claims(Exec(f, s0, steps), 1, Released(), [], Waiting, [Task(Copy(2), 10 * SECOND)]);
    Append(f, s0, steps, Claim(1, [Copy(3)], {}));
    steps := steps + [Claim(1, [Copy(3)], {})];
    BothHold(Exec(f, s0, steps));
    SlowLeases();
  }

  lemma SlowLeases()
    ensures LeasesAtLeast(SlowFleet(), 10 * SECOND)
  {
  }

  lemma BothHold(s: State)
    requires Slow(s, 11 * SECOND, ClaimedRow(Released(), 11 * SECOND), [Task(Copy(3), 11 * SECOND)], Waiting,
               [Task(Copy(2), 10 * SECOND)])
    ensures !Exclusive(s, 10 * SECOND)
  {
    assert Holds(s, 10 * SECOND, 1, 0) && Holds(s, 10 * SECOND, 2, 0);
  }
}
