/**
 What every interleaving of checkout calls keeps: terms locked at creation,
 terminal rows frozen, activation only on the provider's word and at the price
 locked at creation, one payment for one checkout, one activation per checkout.
 */
module CheckoutSafety {
  import opened Prelude
  import opened Text
  import opened BillingTables
  import opened CheckoutProtocol

  ghost predicate SameTerms(a: Checkout, b: Checkout) {
    && a.vendor == b.vendor && a.tier == b.tier && a.amount == b.amount && a.currency == b.currency
    && a.reference == b.reference && a.expiresAt == b.expiresAt
  }

  /** How a step may change the row of an existing checkout. */
  ghost predicate RowStep(s: State, step: Step, c: Checkout, c': Checkout) {
    || c' == c
    || (&& c.status.Pending? && SameTerms(c, c') && step.Write? && step.k in s.calls
        && match s.calls[step.k]
           case Expiring(_, why) =>
             c' == c.(status := CheckoutStatus.Failed, providerStatus := "EXPIRED", failureReason := why)
           case Failing(_, p) =>
             c' == c.(status := CheckoutStatus.Failed, providerStatus := p.status, failureReason := p.reason)
           case Recording(_, p) => c' == c.(collection := Some(p.id), providerStatus := p.status)
           case Activating(_, p, at) =>
             c'.status.Successful? && c'.collection == Some(p.id) && c'.completedAt == Some(at) && at < c.expiresAt
           case _ => false)
  }

  lemma WrittenRow(s: State, step: Step, id: CheckoutId)
    requires step.Write? && Enabled(s, step) && Known(s, id)
    ensures var t := Written(s, s.calls[step.k], step).0;
            && id in t.checkouts && RowStep(s, step, s.tables.checkouts[id], t.checkouts[id])
            && (t.checkouts[id] != s.tables.checkouts[id] ==>
                  !s.calls[step.k].Paying? && !s.calls[step.k].Voiding? && !s.calls[step.k].Moving?
                    && s.calls[step.k].id == id)
  {
  }

  lemma StepChangesRow(s: State, step: Step, s': State, id: CheckoutId)
    requires Enabled(s, step) && s' == Apply(s, step) && Known(s, id)
    ensures Known(s', id) && RowStep(s, step, s.tables.checkouts[id], s'.tables.checkouts[id])
    ensures s'.tables.checkouts[id] != s.tables.checkouts[id] ==> s.calls[step.k].id == id
  {
    hide NextPhase, Heard, Direct, Written;
    DirectTouches(s, step);
    if step.Write? {
      WrittenTouches(s, s.calls[step.k], step);
      WrittenRow(s, step, id);
    }
  }

  /** SUCCESSFUL and FAILED rows never change again, not even in a detail. */
  lemma {:induction false} TerminalIsAbsorbing(s: State, steps: seq<Step>, id: CheckoutId)
    requires ValidRun(s, steps) && Known(s, id) && !s.tables.checkouts[id].status.Pending?
    ensures Known(Exec(s, steps), id) && Exec(s, steps).tables.checkouts[id] == s.tables.checkouts[id]
    decreases |steps|
  {
    if steps != [] {
      var before := steps[..|steps| - 1];
      TerminalIsAbsorbing(s, before, id);
      StepChangesRow(Exec(s, before), steps[|steps| - 1], Exec(s, steps), id);
    }
  }

  /** Vendor, tier, amount, currency, reference and expiry are what they were when the row was first seen. */
  lemma {:induction false} TermsAreLocked(s: State, steps: seq<Step>, id: CheckoutId)
    requires ValidRun(s, steps) && Known(s, id)
    ensures Known(Exec(s, steps), id) && SameTerms(s.tables.checkouts[id], Exec(s, steps).tables.checkouts[id])
    decreases |steps|
  {
    if steps != [] {
      var before := steps[..|steps| - 1];
      TermsAreLocked(s, before, id);
      StepChangesRow(Exec(s, before), steps[|steps| - 1], Exec(s, steps), id);
    }
  }

  // ----- soundness invariant -------------------------------------------------

  /** The provider said this about exactly this checkout. */
  ghost predicate Said(s: State, c: Checkout, p: Collection, status: string) {
    Asked(c.reference, p) in s.answers && Matches(p, c) && EqualFold(p.status, status)
  }

  ghost predicate Confirmed(s: State, c: Checkout, p: Collection) {
    Said(s, c, p, "successful")
  }

  /** The row failed because it expired, or because the provider said so. */
  ghost predicate FailedSoundly(s: State, c: Checkout) {
    || (c.providerStatus == "EXPIRED" && c.expiresAt <= s.now)
    || exists p :: Said(s, c, p, "failed") && c.providerStatus == p.status && c.failureReason == p.reason
  }

  ghost predicate RowSound(s: State, id: CheckoutId, c: Checkout) {
    && c.reference == Reference(id) && c.currency == "ZMW" && c.amount > 0
    && !c.status.Expired?
    && (c.status.Failed? ==> FailedSoundly(s, c))
    && (c.status.Successful? ==>
          exists p :: Confirmed(s, c, p) && c.collection == Some(p.id)
                      && c.completedAt.Some? && c.completedAt.value < c.expiresAt)
  }

  ghost predicate CallSound(s: State, phase: Phase) {
    match phase
    case Creating(_, _, quoted, _) => quoted.price > 0
    case Inserting(_, _, quoted, _) => quoted.price > 0
    case Verifying(id, row) => Known(s, id) && SameTerms(row, s.tables.checkouts[id])
    case Initiating(id, row) => Known(s, id) && SameTerms(row, s.tables.checkouts[id])
    case Activating(id, p, _) => Known(s, id) && Confirmed(s, s.tables.checkouts[id], p)
    case Failing(id, p) => Known(s, id) && Said(s, s.tables.checkouts[id], p, "failed")
    case Expiring(id, _) => Known(s, id) && s.tables.checkouts[id].expiresAt <= s.now
    case _ => true
  }

  ghost predicate Sound(s: State) {
    && (forall id :: Known(s, id) ==> RowSound(s, id, s.tables.checkouts[id]))
    && (forall k :: k in s.calls ==> CallSound(s, s.calls[k]))
  }

  lemma StepGrows(s: State, step: Step, s': State)
    requires Enabled(s, step) && s' == Apply(s, step)
    ensures s.answers <= s'.answers && s.now <= s'.now
    ensures step.Query? && step.answer.Some? ==> Asked(s.calls[step.k].row.reference, step.answer.value) in s'.answers
  {
    hide NextPhase, Direct, Written;
  }

  lemma RowStaysSound(s: State, step: Step, s': State, id: CheckoutId)
    requires Sound(s) && Enabled(s, step) && s' == Apply(s, step) && Known(s', id)
    ensures RowSound(s', id, s'.tables.checkouts[id])
  {
    hide Apply;
    StepGrows(s, step, s');
    if Known(s, id) {
      var c := s.tables.checkouts[id];
      var c' := s'.tables.checkouts[id];
      StepChangesRow(s, step, s', id);
      assert RowSound(s, id, c);
      if c' == c {
        if c.status.Successful? {
          var p :| Confirmed(s, c, p) && c.collection == Some(p.id)
                   && c.completedAt.Some? && c.completedAt.value < c.expiresAt;
          assert Confirmed(s', c', p);
        }
        if c.status.Failed? && !(c.providerStatus == "EXPIRED" && c.expiresAt <= s.now) {
          var p :| Said(s, c, p, "failed") && c.providerStatus == p.status && c.failureReason == p.reason;
          assert Said(s', c', p, "failed");
        }
      } else {
        assert CallSound(s, s.calls[step.k]);
        if c'.status.Successful? {
          assert Confirmed(s', c', s.calls[step.k].collection);
        }
        if s.calls[step.k].Failing? {
          assert Said(s', c', s.calls[step.k].collection, "failed");
        }
      }
    } else {
      InsertedRow(s, step, s', id);
      assert CallSound(s, s.calls[step.k]);
    }
  }

  lemma CallCarries(s: State, step: Step, s': State, phase: Phase)
    requires Enabled(s, step) && s' == Apply(s, step) && CallSound(s, phase)
    ensures CallSound(s', phase)
  {
    hide Apply, Enabled;
    StepGrows(s, step, s');
    if phase.Verifying? || phase.Initiating? || phase.Activating? || phase.Failing? || phase.Expiring? {
      StepChangesRow(s, step, s', phase.id);
    }
  }

  /** What a reading or asking step makes of its call, on the tables it leaves alone. */
  lemma NextPhaseSound(s: State, step: Step, s': State)
    requires Sound(s) && Enabled(s, step) && Calls(step)
    requires s'.tables == s.tables && s.answers <= s'.answers && s.now <= s'.now
    requires step.Query? && step.answer.Some? ==> Asked(s.calls[step.k].row.reference, step.answer.value) in s'.answers
    ensures CallSound(s', NextPhase(s, step))
  {
    if step.k in s.calls {
      assert CallSound(s, s.calls[step.k]);
    }
  }

  lemma CallStaysSound(s: State, step: Step, s': State, k: CallId)
    requires Sound(s) && Enabled(s, step) && s' == Apply(s, step) && k in s'.calls
    ensures CallSound(s', s'.calls[k])
  {
    hide NextPhase, Heard, Direct, Written, Sound, CallSound;
    StepGrows(s, step, s');
    StepMovesCall(s, step, s', k);
    if k in s.calls && s'.calls[k] == s.calls[k] {
      SoundCall(s, k);
      CallCarries(s, step, s', s.calls[k]);
    } else if Calls(step) {
      NextPhaseSound(s, step, s');
    } else {
      EndedCallSound(s', s'.calls[k]);
    }
  }

  lemma SoundCall(s: State, k: CallId)
    requires Sound(s) && k in s.calls
    ensures CallSound(s, s.calls[k])
  {
  }

  lemma EndedCallSound(s: State, phase: Phase)
    requires phase.Finished? || phase.ToVerify?
    ensures CallSound(s, phase)
  {
  }

  /** A step moves its own call only. */
  lemma StepMovesCall(s: State, step: Step, s': State, k: CallId)
    requires Enabled(s, step) && s' == Apply(s, step) && k in s'.calls
    ensures || (k in s.calls && s'.calls[k] == s.calls[k])
            || (Calls(step) && step.k == k && s'.calls[k] == NextPhase(s, step) && s'.tables == s.tables)
            || s'.calls[k].Finished? || s'.calls[k].ToVerify?
  {
    hide NextPhase, Heard, Direct, Written;
    if step.Write? {
      WrittenTouches(s, s.calls[step.k], step);
    }
  }

  lemma {:induction false} RunIsSound(now: int, tiers: map<TierId, Tier>, steps: seq<Step>)
    requires ValidRun(Init(now, tiers), steps)
    ensures Sound(Exec(Init(now, tiers), steps))
    decreases |steps|
  {
    if steps != [] {
      var before := steps[..|steps| - 1];
      RunIsSound(now, tiers, before);
      var s := Exec(Init(now, tiers), before);
      var s' := Exec(Init(now, tiers), steps);
      forall id | Known(s', id) ensures RowSound(s', id, s'.tables.checkouts[id]) {
        RowStaysSound(s, steps[|steps| - 1], s', id);
      }
      forall k | k in s'.calls ensures CallSound(s', s'.calls[k]) {
        CallStaysSound(s, steps[|steps| - 1], s', k);
      }
    }
  }

  // ----- the provider's word is obeyed ---------------------------------------

  /** The step is one of another call, or of none. */
  predicate StepOfAnother(step: Step, k: CallId) {
    Calls(step) || step.FinishCreate? || step.Write? ==> step.k != k
  }

  lemma {:induction false} OthersLeaveCall(s: State, steps: seq<Step>, k: CallId)
    requires ValidRun(s, steps) && k in s.calls && forall i :: 0 <= i < |steps| ==> StepOfAnother(steps[i], k)
    ensures k in Exec(s, steps).calls && Exec(s, steps).calls[k] == s.calls[k]
    decreases |steps|
  {
    if steps != [] {
      OthersLeaveCall(s, steps[..|steps| - 1], k);
      assert StepOfAnother(steps[|steps| - 1], k);
      StepOfAnotherLeavesCall(Exec(s, steps[..|steps| - 1]), steps[|steps| - 1], k);
    }
  }

  lemma StepOfAnotherLeavesCall(s: State, step: Step, k: CallId)
    requires Enabled(s, step) && k in s.calls && StepOfAnother(step, k)
    ensures k in Apply(s, step).calls && Apply(s, step).calls[k] == s.calls[k]
  {
    hide NextPhase, Heard, Direct, Written;
  }

  lemma QueryIsEnabled(s: State, k: CallId, p: Collection)
    requires k in s.calls && s.calls[k].Verifying?
    ensures Enabled(s, Query(k, Some(p)))
  {
  }

  /** What a call will write once it has its answer. */
  lemma AnswerDecides(s: State, k: CallId, p: Collection)
    requires k in s.calls && s.calls[k].Verifying?
    ensures var row, s' := s.calls[k].row, Apply(s, Query(k, Some(p)));
            && s'.tables == s.tables && k in s'.calls
            && var matches := p.id != "" && p.reference == row.reference
                 && -0.005 <= p.amount - row.amount as real / 100.0 <= 0.005 && EqualFold(p.currency, row.currency);
            && (matches && EqualFold(p.status, "successful") ==> s'.calls[k] == Activating(s.calls[k].id, p, s.now))
            && (matches && EqualFold(p.status, "failed") && !EqualFold(p.status, "successful") ==>
                  s'.calls[k] == Failing(s.calls[k].id, p))
            && (!matches || (!EqualFold(p.status, "failed") && !EqualFold(p.status, "successful")) ==>
                  s'.calls[k].Finished?)
  {
  }

  lemma FailingWriteFails(s: State, write: Step, id: CheckoutId, p: Collection)
    requires write.Write? && Enabled(s, write) && s.calls[write.k] == Failing(id, p)
    requires Known(s, id) && s.tables.checkouts[id].status == CheckoutStatus.Pending
    ensures var after := Apply(s, write).tables;
            && after.checkouts.Keys == s.tables.checkouts.Keys
            && after.checkouts[id] == s.tables.checkouts[id].(status := CheckoutStatus.Failed,
                                                              providerStatus := p.status, failureReason := p.reason)
            && after.subscriptions == s.tables.subscriptions && after.invoices == s.tables.invoices
  {
  }

  lemma ActivatingWriteActivates(s: State, write: Step, id: CheckoutId, p: Collection, at: int)
    requires write.Write? && Enabled(s, write) && s.calls[write.k] == Activating(id, p, at)
    ensures Apply(s, write).tables
            == Activate(s.tables, id, Activation(p.id, p.status, at, write.newSubscription, write.newInvoice,
                                                 write.number, write.fault)).0
  {
    hide Activate;
  }

  /** A matching answer to an initiation goes on to be recorded, no other. */
  lemma InitiationDecides(s: State, k: CallId, answer: Option<Collection>)
    requires k in s.calls && s.calls[k].Initiating?
    ensures var row, s' := s.calls[k].row, Apply(s, Initiate(k, answer));
            && s'.tables == s.tables && k in s'.calls
            && s'.calls[k]
               == if answer.Some? && answer.value.id != "" && answer.value.reference == row.reference
                     && -0.005 <= answer.value.amount - row.amount as real / 100.0 <= 0.005
                     && EqualFold(answer.value.currency, row.currency)
                  then Recording(s.calls[k].id, answer.value) else Finished
  {
  }

  /**
   The provider's id and status are put on a checkout that is still pending, unless
   another checkout has that id; then an answer "successful" or "failed" is verified
   at once.
   */
  lemma CollectionIsRecorded(s: State, write: Step, id: CheckoutId, p: Collection)
    requires write.Write? && Enabled(s, write) && s.calls[write.k] == Recording(id, p)
    ensures var s' := Apply(s, write);
            var pending := id in s.tables.checkouts && s.tables.checkouts[id].status == CheckoutStatus.Pending;
            var taken := exists other :: (other in s.tables.checkouts && other != id
                                          && s.tables.checkouts[other].collection == Some(p.id));
            && (pending && !taken ==>
                  s'.tables.checkouts
                  == s.tables.checkouts[id := s.tables.checkouts[id].(collection := Some(p.id),
                                                                      providerStatus := p.status)])
            && (!pending || taken ==> s'.tables.checkouts == s.tables.checkouts)
            && s'.tables.subscriptions == s.tables.subscriptions && s'.tables.invoices == s.tables.invoices
            && s'.calls[write.k]
               == if !(pending && taken) && (EqualFold(p.status, "successful") || EqualFold(p.status, "failed"))
                  then ToVerify(id) else Finished
  {
  }

  lemma OnlyWritersWrite(s: State, write: Step)
    requires write.Write? && write.k in s.calls && s.calls[write.k].Finished?
    ensures !Enabled(s, write)
  {
  }

  /**
   A matching answer "failed" fails the checkout, with the provider's status and
   reason, unless another call settles it first; a matching "successful" is taken
   to the activation.  Any other answer leads to no write.
   */
  lemma AnswerTakesEffect(s: State, k: CallId, p: Collection, between: seq<Step>, write: Step)
    requires k in s.calls && s.calls[k].Verifying? && Known(s, s.calls[k].id)
    requires ValidRun(Apply(s, Query(k, Some(p))), between)
    requires forall i :: 0 <= i < |between| ==> StepOfAnother(between[i], k)
    requires write.Write? && write.k == k
    ensures var row, id := s.calls[k].row, s.calls[k].id;
            var before := Exec(Apply(s, Query(k, Some(p))), between);
            var matches := p.id != "" && p.reference == row.reference
                 && -0.005 <= p.amount - row.amount as real / 100.0 <= 0.005 && EqualFold(p.currency, row.currency);
            && Known(before, id) && before.tables.checkouts[id].vendor == s.tables.checkouts[id].vendor
            && (Enabled(before, write) ==>
                  matches && (EqualFold(p.status, "successful") || EqualFold(p.status, "failed")))
            && (Enabled(before, write) && before.tables.checkouts[id].status == CheckoutStatus.Pending ==>
                  var after := Apply(before, write);
                  if EqualFold(p.status, "successful")
                  then after.tables
                       == Activate(before.tables, id, Activation(p.id, p.status, s.now, write.newSubscription,
                                                                 write.newInvoice, write.number, write.fault)).0
                  else
                    && after.tables.checkouts.Keys == before.tables.checkouts.Keys
                    && after.tables.checkouts[id]
                       == before.tables.checkouts[id].(status := CheckoutStatus.Failed, providerStatus := p.status,
                                                       failureReason := p.reason)
                    && after.tables.subscriptions == before.tables.subscriptions
                    && after.tables.invoices == before.tables.invoices)
  {
    hide Apply, Enabled, Activate;
    var id := s.calls[k].id;
    QueryIsEnabled(s, k, p);
    AnswerDecides(s, k, p);
    var asked := Apply(s, Query(k, Some(p)));
    OthersLeaveCall(asked, between, k);
    TermsAreLocked(asked, between, id);
    var before := Exec(asked, between);
    if before.calls[k].Finished? {
      OnlyWritersWrite(before, write);
    } else if Enabled(before, write) && before.tables.checkouts[id].status == CheckoutStatus.Pending {
      if EqualFold(p.status, "successful") {
        ActivatingWriteActivates(before, write, id, p, s.now);
      } else {
        FailingWriteFails(before, write, id, p);
      }
    }
  }

  // ----- the price locked at creation ----------------------------------------

  /**
   Call `k` began to create a checkout for this vendor and tier at time `at`, when
   the catalogue showed this price.
   */
  ghost predicate BegunAs(s0: State, steps: seq<Step>, k: CallId, vendor: VendorId, tier: TierId, price: int, at: int)
    requires ValidRun(s0, steps)
    decreases |steps|
  {
    steps != [] &&
    var before := steps[..|steps| - 1];
    || BegunAs(s0, before, k, vendor, tier, price, at)
    || (&& steps[|steps| - 1] == BeginCreate(k, vendor, tier)
        && var s := Exec(s0, before);
           s.now == at && tier in s.tiers && s.tiers[tier].available && s.tiers[tier].price == price)
  }

  /** Call `k` inserted this checkout. */
  ghost predicate InsertedBy(steps: seq<Step>, id: CheckoutId, k: CallId) {
    FinishCreate(k, id) in steps
  }

  /**
   The terms are those the catalogue showed to the very call that inserted the row,
   half an hour before its expiry.
   */
  ghost predicate PricedByItsCall(s0: State, steps: seq<Step>, id: CheckoutId, c: Checkout)
    requires ValidRun(s0, steps)
  {
    exists k ::
      && InsertedBy(steps, id, k)
      && BegunAs(s0, steps, k, c.vendor, c.tier, c.amount, c.expiresAt - 30 * 60 * 1_000_000_000)
  }

  /** A call that is creating a checkout carries what it was shown. */
  ghost predicate CarriesItsQuote(s0: State, steps: seq<Step>, k: CallId, phase: Phase)
    requires ValidRun(s0, steps)
  {
    phase.Creating? || phase.Inserting? ==>
        BegunAs(s0, steps, k, phase.vendor, phase.tier, phase.quoted.price, phase.at)
  }

  /** Creating calls come from BeginCreate, inserting ones from creating ones with the same quote. */
  lemma QuoteIsCarried(s: State, step: Step, s': State, k: CallId)
    requires Enabled(s, step) && s' == Apply(s, step) && k in s'.calls
             && (s'.calls[k].Creating? || s'.calls[k].Inserting?)
    ensures var p := s'.calls[k];
            || (k in s.calls && s.calls[k] == p)
            || (k in s.calls && s.calls[k] == Creating(p.vendor, p.tier, p.quoted, p.at))
            || (&& step == BeginCreate(k, p.vendor, p.tier) && p.at == s.now
                && p.tier in s.tiers && s.tiers[p.tier].available && s.tiers[p.tier] == p.quoted)
  {
    hide Apply;
    StepMovesCall(s, step, s', k);
  }

  lemma {:induction false} CallsCarryQuotes(now: int, tiers: map<TierId, Tier>, steps: seq<Step>, k: CallId)
    requires ValidRun(Init(now, tiers), steps) && k in Exec(Init(now, tiers), steps).calls
    ensures CarriesItsQuote(Init(now, tiers), steps, k, Exec(Init(now, tiers), steps).calls[k])
    decreases |steps|
  {
    if steps != [] {
      var before := steps[..|steps| - 1];
      var s, s' := Exec(Init(now, tiers), before), Exec(Init(now, tiers), steps);
      if k in s.calls {
        CallsCarryQuotes(now, tiers, before, k);
      }
      if s'.calls[k].Creating? || s'.calls[k].Inserting? {
        QuoteIsCarried(s, steps[|steps| - 1], s', k);
      }
    }
  }

  /** A row the step inserts has the terms of the inserting call. */
  lemma InsertedRow(s: State, step: Step, s': State, id: CheckoutId)
    requires Enabled(s, step) && s' == Apply(s, step) && !Known(s, id) && Known(s', id)
    ensures step.FinishCreate? && step.id == id && s.calls[step.k].Inserting?
    ensures var p := s.calls[step.k];
            s'.tables.checkouts[id] == NewCheckout(p.vendor, p.tier, p.quoted, id, p.at, s.now)
  {
    hide NextPhase, Heard, Direct, Written, NewCheckout;
    DirectTouches(s, step);
    if step.Write? {
      WrittenTouches(s, s.calls[step.k], step);
    }
  }

  lemma {:induction false} PriceIsLocked(now: int, tiers: map<TierId, Tier>, steps: seq<Step>, id: CheckoutId)
    requires ValidRun(Init(now, tiers), steps) && Known(Exec(Init(now, tiers), steps), id)
    ensures PricedByItsCall(Init(now, tiers), steps, id, Exec(Init(now, tiers), steps).tables.checkouts[id])
    decreases |steps|
  {
    var s0 := Init(now, tiers);
    var before := steps[..|steps| - 1];
    var step := steps[|steps| - 1];
    var s, s' := Exec(s0, before), Exec(s0, steps);
    assert steps == before + [step];
    if Known(s, id) {
      PriceIsLocked(now, tiers, before, id);
      StepChangesRow(s, step, s', id);
      var c := s.tables.checkouts[id];
      var k :| InsertedBy(before, id, k)
        && BegunAs(s0, before, k, c.vendor, c.tier, c.amount, c.expiresAt - 30 * 60 * 1_000_000_000);
      assert InsertedBy(steps, id, k);
    } else {
      InsertedRow(s, step, s', id);
      CallsCarryQuotes(now, tiers, before, step.k);
      assert InsertedBy(steps, id, step.k);
    }
  }

  /**
   A SUCCESSFUL checkout was confirmed by the provider for its own reference,
   currency and amount, and completed before expiry; a FAILED one had expired, or
   the provider had said so; its amount is the positive price of its tier when the
   call that created it began, half an hour before expiry.  No checkout is ever
   EXPIRED.
   */
  lemma ActivationIsSound(now: int, tiers: map<TierId, Tier>, steps: seq<Step>, id: CheckoutId)
    requires ValidRun(Init(now, tiers), steps) && Known(Exec(Init(now, tiers), steps), id)
    ensures var s := Exec(Init(now, tiers), steps);
            var c := s.tables.checkouts[id];
            && c.reference == "SUB-" + id && c.amount > 0 && c.currency == "ZMW"
            && PricedByItsCall(Init(now, tiers), steps, id, c)
            && !c.status.Expired?
            && (c.status.Successful? ==>
                  c.completedAt.Some? && c.completedAt.value < c.expiresAt
                  && exists p :: (&& Asked("SUB-" + id, p) in s.answers && p.id != "" && p.reference == "SUB-" + id
                                  && -0.005 <= p.amount - c.amount as real / 100.0 <= 0.005
                                  && EqualFold(p.currency, "ZMW") && EqualFold(p.status, "successful")
                                  && c.collection == Some(p.id)))
            && (c.status.Failed? ==>
                  || (c.providerStatus == "EXPIRED" && c.expiresAt <= s.now)
                  || exists p :: (&& Asked("SUB-" + id, p) in s.answers && p.id != "" && p.reference == "SUB-" + id
                                  && -0.005 <= p.amount - c.amount as real / 100.0 <= 0.005
                                  && EqualFold(p.currency, "ZMW") && EqualFold(p.status, "failed")
                                  && c.providerStatus == p.status && c.failureReason == p.reason))
  {
    RunIsSound(now, tiers, steps);
    PriceIsLocked(now, tiers, steps, id);
    var s := Exec(Init(now, tiers), steps);
    var c := s.tables.checkouts[id];
    assert RowSound(s, id, c) && c.reference == "SUB-" + id;
    if c.status.Successful? {
      var p :| Confirmed(s, c, p) && c.collection == Some(p.id);
      assert Asked("SUB-" + id, p) in s.answers;
    }
    if c.status.Failed? && !(c.providerStatus == "EXPIRED" && c.expiresAt <= s.now) {
      var p :| Said(s, c, p, "failed") && c.providerStatus == p.status && c.failureReason == p.reason;
      assert Asked("SUB-" + id, p) in s.answers;
    }
  }

  /** A webhook's reference names one checkout at most, so a webhook verifies the checkout that was paid. */
  lemma ReferenceNamesOneCheckout(now: int, tiers: map<TierId, Tier>, steps: seq<Step>, a: CheckoutId, b: CheckoutId)
    requires ValidRun(Init(now, tiers), steps)
    requires var s := Exec(Init(now, tiers), steps);
             Known(s, a) && Known(s, b) && s.tables.checkouts[a].reference == s.tables.checkouts[b].reference
    ensures a == b
  {
    ActivationIsSound(now, tiers, steps, a);
    ActivationIsSound(now, tiers, steps, b);
    ReferenceInjective(a, b);
  }

  /** The tolerance of 0.005 admits no other whole number of minor units. */
  lemma WholeMinorUnitsMatchExactly(p: Collection, c: Checkout, minor: int)
    requires p.amount == minor as real / 100.0
    ensures AmountMatches(p, c) <==> minor == c.amount
  {
    assert p.amount - c.amount as real / 100.0 == (minor - c.amount) as real / 100.0;
  }

  // ----- one payment, one checkout -------------------------------------------

  /** A collection id is written only while no other checkout has it. */
  lemma CollectionWasFree(s: State, step: Step, s': State, id: CheckoutId)
    requires Enabled(s, step) && s' == Apply(s, step) && Known(s, id) && Known(s', id)
    requires s'.tables.checkouts[id].collection != s.tables.checkouts[id].collection
    ensures s'.tables.checkouts[id].collection.Some?
    ensures !CollectionTaken(s.tables, id, s'.tables.checkouts[id].collection.value)
  {
    StepChangesRow(s, step, s', id);
  }

  lemma NewCheckoutHasNoCollection(s: State, step: Step, s': State, id: CheckoutId)
    requires Enabled(s, step) && s' == Apply(s, step) && !Known(s, id) && Known(s', id)
    ensures s'.tables.checkouts[id].collection.None?
  {
    hide Apply;
    InsertedRow(s, step, s', id);
  }

  lemma DifferentCollections(s: State, step: Step, s': State, a: CheckoutId, b: CheckoutId)
    requires UniqueCollections(s.tables) && Enabled(s, step) && s' == Apply(s, step)
    requires Known(s, a) && Known(s, b) && Known(s', a) && Known(s', b) && a != b
    requires s'.tables.checkouts[a].collection.Some?
    ensures s'.tables.checkouts[a].collection != s'.tables.checkouts[b].collection
  {
    StepChangesRow(s, step, s', a);
    StepChangesRow(s, step, s', b);
    if s'.tables.checkouts[a].collection != s.tables.checkouts[a].collection {
      CollectionWasFree(s, step, s', a);
      assert s.tables.checkouts[b].collection != s'.tables.checkouts[a].collection;
    } else if s'.tables.checkouts[b].collection != s.tables.checkouts[b].collection {
      CollectionWasFree(s, step, s', b);
      assert s.tables.checkouts[a].collection != s'.tables.checkouts[b].collection;
    }
  }

  lemma StepKeepsCollectionsUnique(s: State, step: Step, s': State)
    requires UniqueCollections(s.tables) && Enabled(s, step) && s' == Apply(s, step)
    ensures UniqueCollections(s'.tables)
  {
    forall a, b | Known(s', a) && Known(s', b) && a != b && s'.tables.checkouts[a].collection.Some?
      ensures s'.tables.checkouts[a].collection != s'.tables.checkouts[b].collection
    {
      if !Known(s, a) {
        NewCheckoutHasNoCollection(s, step, s', a);
      } else if !Known(s, b) {
        NewCheckoutHasNoCollection(s, step, s', b);
      } else {
        DifferentCollections(s, step, s', a, b);
      }
    }
  }

  lemma {:induction false} RunKeepsCollectionsUnique(now: int, tiers: map<TierId, Tier>, steps: seq<Step>)
    requires ValidRun(Init(now, tiers), steps)
    ensures UniqueCollections(Exec(Init(now, tiers), steps).tables)
    decreases |steps|
  {
    if steps != [] {
      RunKeepsCollectionsUnique(now, tiers, steps[..|steps| - 1]);
      StepKeepsCollectionsUnique(Exec(Init(now, tiers), steps[..|steps| - 1]), steps[|steps| - 1],
          Exec(Init(now, tiers), steps));
    }
  }

  /** Two activated checkouts were paid by two different collections. */
  lemma OnePaymentActivatesOneCheckout(now: int, tiers: map<TierId, Tier>, steps: seq<Step>, a: CheckoutId,
                                       b: CheckoutId)
    requires ValidRun(Init(now, tiers), steps) && a != b
    requires var cs := Exec(Init(now, tiers), steps).tables.checkouts;
             a in cs && b in cs && cs[a].status.Successful? && cs[b].status.Successful?
    ensures var cs := Exec(Init(now, tiers), steps).tables.checkouts;
            cs[a].collection.Some? && cs[b].collection.Some? && cs[a].collection != cs[b].collection
  {
    ActivationIsSound(now, tiers, steps, a);
    ActivationIsSound(now, tiers, steps, b);
    RunKeepsCollectionsUnique(now, tiers, steps);
  }

  // ----- one activation -------------------------------------------------------

  /** Number of steps that turned the checkout SUCCESSFUL. */
  ghost function ActivationsIn(s: State, steps: seq<Step>, id: CheckoutId): nat
    requires ValidRun(s, steps)
    decreases |steps|
  {
    if steps == [] then 0
    else
      var before := Exec(s, steps[..|steps| - 1]);
      var after := Exec(s, steps);
      ActivationsIn(s, steps[..|steps| - 1], id)
      + (if Known(after, id) && after.tables.checkouts[id].status.Successful?
            && !(Known(before, id) && before.tables.checkouts[id].status.Successful?) then 1 else 0)
  }

  lemma {:induction false} ActivatedOnce(now: int, tiers: map<TierId, Tier>, steps: seq<Step>, id: CheckoutId)
    requires ValidRun(Init(now, tiers), steps)
    ensures var s := Exec(Init(now, tiers), steps);
            ActivationsIn(Init(now, tiers), steps, id)
              == if Known(s, id) && s.tables.checkouts[id].status.Successful? then 1 else 0
    decreases |steps|
  {
    if steps != [] {
      var before := steps[..|steps| - 1];
      ActivatedOnce(now, tiers, before, id);
      if Known(Exec(Init(now, tiers), before), id) {
        StepChangesRow(Exec(Init(now, tiers), before), steps[|steps| - 1], Exec(Init(now, tiers), steps), id);
      }
    }
  }
}
