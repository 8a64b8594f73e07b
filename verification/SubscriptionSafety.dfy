/**
 The subscription record when status calls race.  A status call reads the record,
 checks the transition and writes later, and the write itself checks nothing.  The
 results say exactly which writes keep the record in step, what can revive a
 cancelled subscription, and that calls which are not interrupted do neither harm.
 */
module SubscriptionSafety {
  import opened Prelude
  import opened BillingTables
  import opened CheckoutProtocol
  import opened CheckoutSafety

  ghost predicate CancelledAtAgrees(s: Subscription) {
    s.status.Cancelled? <==> s.cancelledAt.Some?
  }

  ghost predicate Records(s: State) {
    forall v :: v in s.tables.subscriptions ==> CancelledAtAgrees(s.tables.subscriptions[v])
  }

  /** The step is the write of a status call on this vendor's existing record. */
  predicate WritesStatus(s: State, step: Step, v: VendorId) {
    step.Write? && step.k in s.calls && s.calls[step.k].Moving? && s.calls[step.k].vendor == v
      && v in s.tables.subscriptions
  }

  /** The step activates a checkout of this vendor. */
  ghost predicate ActivatesFor(s: State, step: Step, s': State, vendor: VendorId) {
    && step.Write? && step.k in s.calls && s.calls[step.k].Activating?
    && var id := s.calls[step.k].id;
    && Known(s, id) && s.tables.checkouts[id].status.Pending?
    && Known(s', id) && s'.tables.checkouts[id].status.Successful? && s'.tables.checkouts[id].vendor == vendor
  }

  /** All ways in which a vendor's record comes about or changes. */
  ghost predicate RecordStep(s: State, step: Step, s': State, v: VendorId)
    requires v in s'.tables.subscriptions
  {
    var after := s'.tables.subscriptions[v];
    || (v in s.tables.subscriptions && after == s.tables.subscriptions[v])
    || (&& WritesStatus(s, step, v)
        && Moved(s.tables.subscriptions[v], s.calls[step.k].next, s.calls[step.k].why, s.now, after))
    || (&& ActivatesFor(s, step, s', v) && after.status.Active? && after.trialEndsAt.None? && after.cancelledAt.None?)
    || (&& step.ChangeTier? && v in s.tables.subscriptions && !s.tables.subscriptions[v].status.Cancelled?
        && after == s.tables.subscriptions[v].(tier := step.t) && step.vendor == v)
    || (&& step.CreateSubscription? && v !in s.tables.subscriptions && step.vendor == v
        && Started(step.subscription, step.t, step.cycle, step.trialDays, s.now, after))
  }

  /** A status write sets the status, the reason if one is given, and the cancellation time if it cancels. */
  ghost predicate Moved(before: Subscription, next: SubscriptionStatus, why: string, now: int, after: Subscription) {
    && after.status == next
    && after.cancelReason == (if why != "" then Some(why) else before.cancelReason)
    && after.cancelledAt == (if next == Cancelled then Some(now) else before.cancelledAt)
    && after.(status := before.status, cancelReason := before.cancelReason, cancelledAt := before.cancelledAt) == before
  }

  /** A new record: a trial of so many days, or active for a month or a year of twelve months. */
  ghost predicate Started(id: SubscriptionId, tier: TierId, cycle: Cycle, trialDays: int, now: int, r: Subscription) {
    && r.id == id && r.tier == tier && r.cycle == cycle && r.periodStart == now && r.autoRenew
    && r.cancelledAt.None? && r.cancelReason.None?
    && (r.status == Trial <==> trialDays > 0) && (r.status == Active <==> trialDays <= 0)
    && r.trialEndsAt == (if trialDays > 0 then Some(r.periodEnd) else None)
    && r.periodEnd == now + 24 * 3600 * 1_000_000_000
         * (if trialDays > 0 then trialDays else if cycle == Annual then 12 * 30 else 30)
  }

  lemma StepChangesRecord(s: State, step: Step, s': State, v: VendorId)
    requires Enabled(s, step) && s' == Apply(s, step) && v in s'.tables.subscriptions
    ensures RecordStep(s, step, s', v)
  {
    hide NextPhase, Heard;
    if step.Write? {
      WrittenTouches(s, s.calls[step.k], step);
    }
  }

  /** The other way: what each call that goes through leaves, and when it goes through. */
  lemma CallsWriteRecords(s: State, step: Step, s': State)
    requires Enabled(s, step) && s' == Apply(s, step)
    ensures step.CreateSubscription? && step.vendor !in s.tables.subscriptions && step.t in s.tiers ==>
              && step.vendor in s'.tables.subscriptions
              && Started(step.subscription, step.t, step.cycle, step.trialDays, s.now,
                         s'.tables.subscriptions[step.vendor])
    ensures (step.ChangeTier? && step.vendor in s.tables.subscriptions && step.t in s.tiers
             && s.tables.subscriptions[step.vendor].status !in {Cancelled, Suspended}) ==>
              && step.vendor in s'.tables.subscriptions
              && s'.tables.subscriptions[step.vendor] == s.tables.subscriptions[step.vendor].(tier := step.t)
    ensures (step.ChangeTier? && step.vendor in s.tables.subscriptions
             && s.tables.subscriptions[step.vendor].status in {Cancelled, Suspended}) ==> s'.tables == s.tables
    ensures step.BeginStatus? && step.vendor in s.tables.subscriptions ==>
              && step.k in s'.calls
              && s'.calls[step.k]
                 == if (s.tables.subscriptions[step.vendor].status, step.next)
                       in {(Trial, Active), (Trial, Cancelled), (Active, PastDue), (Active, Cancelled),
                           (PastDue, Active), (PastDue, Suspended), (PastDue, Cancelled), (Suspended, Active),
                           (Suspended, Cancelled)}
                    then Moving(step.vendor, step.next, step.why) else Finished
    ensures step.Write? && s.calls[step.k].Moving? && s.calls[step.k].vendor in s.tables.subscriptions ==>
              var v := s.calls[step.k].vendor;
              && v in s'.tables.subscriptions
              && Moved(s.tables.subscriptions[v], s.calls[step.k].next, s.calls[step.k].why, s.now,
                       s'.tables.subscriptions[v])
  {
    hide Heard;
  }

  lemma StepKeepsSubscriptions(s: State, step: Step, s': State)
    requires Enabled(s, step) && s' == Apply(s, step)
    ensures s.tables.subscriptions.Keys <= s'.tables.subscriptions.Keys
  {
    hide NextPhase, Heard, Direct, Written;
    DirectTouches(s, step);
    if step.Write? {
      WrittenTouches(s, s.calls[step.k], step);
    }
  }

  // ----- cancelled_at --------------------------------------------------------

  /** A status write that cancels, or meets a record that was never cancelled. */
  ghost predicate InStep(s: State, step: Step) {
    forall v :: WritesStatus(s, step, v) ==>
      s.calls[step.k].next.Cancelled? || s.tables.subscriptions[v].cancelledAt.None?
  }

  ghost predicate InStepRun(s: State, steps: seq<Step>)
    requires ValidRun(s, steps)
    decreases |steps|
  {
    steps == [] ||
    var before := steps[..|steps| - 1];
    InStepRun(s, before) && InStep(Exec(s, before), steps[|steps| - 1])
  }

  ghost predicate AlwaysAgree(s: State, steps: seq<Step>)
    requires ValidRun(s, steps)
    decreases |steps|
  {
    Records(Exec(s, steps)) && (steps == [] || AlwaysAgree(s, steps[..|steps| - 1]))
  }

  lemma StepAgreesExactly(s: State, step: Step, s': State)
    requires Records(s) && Enabled(s, step) && s' == Apply(s, step)
    ensures Records(s') <==> InStep(s, step)
  {
    hide Apply, Enabled;
    if InStep(s, step) {
      forall v | v in s'.tables.subscriptions ensures CancelledAtAgrees(s'.tables.subscriptions[v]) {
        StepChangesRecord(s, step, s', v);
      }
    } else {
      var v :| WritesStatus(s, step, v) && !s.calls[step.k].next.Cancelled?
        && s.tables.subscriptions[v].cancelledAt.Some?;
      CallsWriteRecords(s, step, s');
      assert !CancelledAtAgrees(s'.tables.subscriptions[v]);
    }
  }

  /**
   cancelled_at stays in step with the status throughout a run exactly when every
   status write cancels or meets a record never cancelled.
   */
  lemma {:induction false} RecordsAgreeExactly(s: State, steps: seq<Step>)
    requires Records(s) && ValidRun(s, steps)
    ensures AlwaysAgree(s, steps) <==> InStepRun(s, steps)
    decreases |steps|
  {
    if steps != [] {
      var before := steps[..|steps| - 1];
      RecordsAgreeExactly(s, before);
      if Records(Exec(s, before)) {
        StepAgreesExactly(Exec(s, before), steps[|steps| - 1], Exec(s, steps));
      }
    }
  }

  // ----- uninterrupted calls -------------------------------------------------

  /** Every status write of the run comes right after its own call's read. */
  ghost predicate Uninterrupted(s: State, steps: seq<Step>)
    requires ValidRun(s, steps)
    decreases |steps|
  {
    steps == [] ||
    var before := steps[..|steps| - 1];
    var step := steps[|steps| - 1];
    && Uninterrupted(s, before)
    && (step.Write? && step.k in Exec(s, before).calls && Exec(s, before).calls[step.k].Moving? ==>
          before != [] && before[|before| - 1].BeginStatus? && before[|before| - 1].k == step.k)
  }

  lemma BegunOnAllowed(s: State, step: Step, s': State)
    requires step.BeginStatus? && Enabled(s, step) && s' == Apply(s, step)
    ensures s'.tables == s.tables && step.k in s'.calls
    ensures s'.calls[step.k].Moving? ==>
              && s'.calls[step.k] == Moving(step.vendor, step.next, step.why)
              && step.vendor in s.tables.subscriptions
                && CanTransition(s.tables.subscriptions[step.vendor].status, step.next)
  {
  }

  /** Then the write meets the status it was decided on, which is never CANCELLED. */
  lemma UninterruptedMeetsItsRead(s: State, steps: seq<Step>)
    requires steps != [] && ValidRun(s, steps) && Uninterrupted(s, steps)
    ensures var before := Exec(s, steps[..|steps| - 1]);
            forall v :: WritesStatus(before, steps[|steps| - 1], v) ==>
              CanTransition(before.tables.subscriptions[v].status, before.calls[steps[|steps| - 1].k].next)
  {
    hide Apply, Enabled;
    var before := steps[..|steps| - 1];
    var step := steps[|steps| - 1];
    if step.Write? && step.k in Exec(s, before).calls && Exec(s, before).calls[step.k].Moving? {
      BegunOnAllowed(Exec(s, before[..|before| - 1]), before[|before| - 1], Exec(s, before));
    }
  }

  /** With each service call one step, cancelled_at is set exactly on CANCELLED records. */
  lemma {:induction false} RecordsAgree(s: State, steps: seq<Step>)
    requires Records(s) && ValidRun(s, steps) && Uninterrupted(s, steps)
    ensures Records(Exec(s, steps)) && InStepRun(s, steps)
    decreases |steps|
  {
    hide Apply, Enabled;
    if steps != [] {
      var before := steps[..|steps| - 1];
      RecordsAgree(s, before);
      UninterruptedMeetsItsRead(s, steps);
      StepAgreesExactly(Exec(s, before), steps[|steps| - 1], Exec(s, steps));
    }
  }

  // ----- trials --------------------------------------------------------------

  ghost predicate TrialInv(s: State) {
    && (forall v :: v in s.tables.subscriptions && s.tables.subscriptions[v].status.Trial? ==>
          s.tables.subscriptions[v].trialEndsAt == Some(s.tables.subscriptions[v].periodEnd))
    && (forall k :: k in s.calls && s.calls[k].Moving? ==> !s.calls[k].next.Trial?)
  }

  lemma MovesAreNotTrials(s: State, step: Step, s': State, k: CallId)
    requires Enabled(s, step) && s' == Apply(s, step) && k in s'.calls && s'.calls[k].Moving?
    ensures (k in s.calls && s.calls[k] == s'.calls[k]) || !s'.calls[k].next.Trial?
  {
    hide Apply;
    StepMovesCall(s, step, s', k);
  }

  /** However calls race, a trial ends with its period. */
  lemma {:induction false} TrialsEndWithTheirPeriod(now: int, tiers: map<TierId, Tier>, steps: seq<Step>)
    requires ValidRun(Init(now, tiers), steps)
    ensures TrialInv(Exec(Init(now, tiers), steps))
    decreases |steps|
  {
    hide Apply, Enabled;
    if steps != [] {
      var before := steps[..|steps| - 1];
      TrialsEndWithTheirPeriod(now, tiers, before);
      var s, s' := Exec(Init(now, tiers), before), Exec(Init(now, tiers), steps);
      forall v | v in s'.tables.subscriptions && s'.tables.subscriptions[v].status.Trial?
        ensures s'.tables.subscriptions[v].trialEndsAt == Some(s'.tables.subscriptions[v].periodEnd)
      {
        StepChangesRecord(s, steps[|steps| - 1], s', v);
      }
      forall k | k in s'.calls && s'.calls[k].Moving? ensures !s'.calls[k].next.Trial? {
        MovesAreNotTrials(s, steps[|steps| - 1], s', k);
      }
    }
  }

  // ----- out of CANCELLED ----------------------------------------------------

  /** Some step of the run activates a checkout of this vendor. */
  ghost predicate ActivatedIn(s: State, steps: seq<Step>, vendor: VendorId)
    requires ValidRun(s, steps)
    decreases |steps|
  {
    steps != [] &&
    (ActivatedIn(s, steps[..|steps| - 1], vendor)
     || ActivatesFor(Exec(s, steps[..|steps| - 1]), steps[|steps| - 1], Exec(s, steps), vendor))
  }

  /**
   Some status write of the run, decided earlier, met the vendor's record CANCELLED;
   with `reviving`, one to another status.
   */
  ghost predicate StaleWriteIn(s: State, steps: seq<Step>, v: VendorId, reviving: bool)
    requires ValidRun(s, steps)
    decreases |steps|
  {
    steps != [] &&
    var before := Exec(s, steps[..|steps| - 1]);
    || StaleWriteIn(s, steps[..|steps| - 1], v, reviving)
    || (&& WritesStatus(before, steps[|steps| - 1], v) && before.tables.subscriptions[v].status.Cancelled?
        && (reviving ==> !before.calls[steps[|steps| - 1].k].next.Cancelled?))
  }

  /**
   Whatever the interleaving, a cancelled record changes only through a verified
   checkout of its vendor or a status write decided before it was cancelled, and
   leaves CANCELLED only through such a checkout or such a write to another status.
   */
  lemma {:induction false} OnlyPaymentRevives(s: State, steps: seq<Step>, v: VendorId)
    requires ValidRun(s, steps)
    requires v in s.tables.subscriptions && s.tables.subscriptions[v].status.Cancelled?
    ensures v in Exec(s, steps).tables.subscriptions
    ensures Exec(s, steps).tables.subscriptions[v] != s.tables.subscriptions[v] ==>
              ActivatedIn(s, steps, v) || StaleWriteIn(s, steps, v, false)
    ensures !Exec(s, steps).tables.subscriptions[v].status.Cancelled? ==>
              ActivatedIn(s, steps, v) || StaleWriteIn(s, steps, v, true)
    decreases |steps|
  {
    hide Apply, Enabled;
    if steps != [] {
      var before := steps[..|steps| - 1];
      OnlyPaymentRevives(s, before, v);
      StepKeepsSubscriptions(Exec(s, before), steps[|steps| - 1], Exec(s, steps));
      StepChangesRecord(Exec(s, before), steps[|steps| - 1], Exec(s, steps), v);
    }
  }

  /** Uninterrupted calls make no such write: then only a verified checkout changes a cancelled record. */
  lemma {:induction false} UninterruptedWritesAreFresh(s: State, steps: seq<Step>, v: VendorId, reviving: bool)
    requires ValidRun(s, steps) && Uninterrupted(s, steps)
    ensures !StaleWriteIn(s, steps, v, reviving)
    decreases |steps|
  {
    if steps != [] {
      UninterruptedWritesAreFresh(s, steps[..|steps| - 1], v, reviving);
      UninterruptedMeetsItsRead(s, steps);
    }
  }

  // ----- a run that revives without payment ----------------------------------

  function Start(): State {
    Init(0, map[1 := Tier("Plus", 100, true)])
  }

  function Racing(s: Subscription, first: Phase, second: Phase): State {
    Start().(tables := Tables(map[], map[1 := s], map[]), calls := map[1 := first, 2 := second])
  }

  const ACTIVE := NewSubscription(10, 1, Monthly, 0, 0)

  const CANCELLED := StatusWritten(ACTIVE, Cancelled, "", 0)

  lemma Decides(s: State, k: CallId, next: SubscriptionStatus)
    requires s.tables.subscriptions == map[1 := ACTIVE] && k !in s.calls && (next.Cancelled? || next.PastDue?)
    ensures Enabled(s, BeginStatus(k, 1, next, ""))
    ensures Apply(s, BeginStatus(k, 1, next, "")) == s.(calls := s.calls[k := Moving(1, next, "")])
  {
  }

  lemma Subscribes()
    ensures Enabled(Start(), CreateSubscription(1, 10, 1, Monthly, 0))
    ensures Apply(Start(), CreateSubscription(1, 10, 1, Monthly, 0))
            == Start().(tables := Tables(map[], map[1 := ACTIVE], map[]))
  {
  }

  lemma BothDecide() returns (steps: seq<Step>)
    ensures ValidRun(Start(), steps)
    ensures Exec(Start(), steps) == Racing(ACTIVE, Moving(1, Cancelled, ""), Moving(1, PastDue, ""))
  {
    hide Apply, Enabled;
    steps := [];
    Subscribes();
    Append(Start(), steps, CreateSubscription(1, 10, 1, Monthly, 0));
    steps := steps + [CreateSubscription(1, 10, 1, Monthly, 0)];
    Decides(Exec(Start(), steps), 1, Cancelled);
    Append(Start(), steps, BeginStatus(1, 1, Cancelled, ""));
    steps := steps + [BeginStatus(1, 1, Cancelled, "")];
    Decides(Exec(Start(), steps), 2, PastDue);
    Append(Start(), steps, BeginStatus(2, 1, PastDue, ""));
    steps := steps + [BeginStatus(2, 1, PastDue, "")];
  }

  lemma FirstWrites()
    ensures var s := Racing(ACTIVE, Moving(1, Cancelled, ""), Moving(1, PastDue, ""));
            && Enabled(s, Write(1, 0, 0, "", false))
            && Apply(s, Write(1, 0, 0, "", false)) == Racing(CANCELLED, Finished, Moving(1, PastDue, ""))
  {
  }

  /** PAST_DUE with no payment, though cancelled_at is set. */
  ghost predicate Revived(s: State) {
    1 in s.tables.subscriptions && s.tables.subscriptions[1].status.PastDue? && s.answers == {} && !Records(s)
  }

  lemma SecondWrites()
    ensures var s := Racing(CANCELLED, Finished, Moving(1, PastDue, ""));
            && 1 in s.tables.subscriptions && s.tables.subscriptions[1].status.Cancelled?
            && Enabled(s, Write(2, 0, 0, "", false)) && Revived(Apply(s, Write(2, 0, 0, "", false)))
  {
    var s' := Apply(Racing(CANCELLED, Finished, Moving(1, PastDue, "")), Write(2, 0, 0, "", false));
    assert s'.tables.subscriptions == map[1 := StatusWritten(CANCELLED, PastDue, "", 0)];
    assert !CancelledAtAgrees(s'.tables.subscriptions[1]);
  }

  /**
   A cancellation and a move to PAST_DUE are both decided on ACTIVE; the
   cancellation is written first.  The record ends PAST_DUE with cancelled_at set:
   out of step, and out of CANCELLED with no payment.
   */
  lemma RacingCallsRevive() returns (before: seq<Step>, last: Step)
    ensures ValidRun(Start(), before) && Enabled(Exec(Start(), before), last)
    ensures var s := Exec(Start(), before); 1 in s.tables.subscriptions && s.tables.subscriptions[1].status.Cancelled?
    ensures Revived(Apply(Exec(Start(), before), last))
  {
    hide Apply, Enabled, Racing, Revived;
    var decided := BothDecide();
    FirstWrites();
    Append(Start(), decided, Write(1, 0, 0, "", false));
    before := decided + [Write(1, 0, 0, "", false)];
    last := Write(2, 0, 0, "", false);
    SecondWrites();
  }
}
