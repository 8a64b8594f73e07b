/**
 The invoice of an activated checkout.  Activation makes a PAID invoice under the
 checkout's own key unless an invoice is there already, which it takes over as it
 is.  Clients choose the keys of GenerateInvoice calls, so that can happen: the
 results say exactly when, and exactly when the invoice is paid for good.
 */
module CheckoutInvoices {
  import opened Prelude
  import opened BillingTables
  import opened CheckoutProtocol
  import opened CheckoutSafety

  predicate Activated(s: State, id: CheckoutId) {
    Known(s, id) && s.tables.checkouts[id].status.Successful?
  }

  /** The invoice pays for this checkout: its key, parties, amount, collection and time. */
  ghost predicate PaysFor(i: Invoice, id: CheckoutId, c: Checkout) {
    && i.key == InvoiceKey(id) && i.status.Paid? && i.amount == c.amount && i.currency == c.currency
    && i.vendor == c.vendor && c.subscription == Some(i.subscription) && c.completedAt == i.paidAt
    && c.collection == Some(i.paymentReference)
  }

  /** The checkout is activated and its invoice pays for it. */
  ghost predicate PaidAt(s: State, id: CheckoutId) {
    && Activated(s, id) && s.tables.checkouts[id].invoice.Some?
    && s.tables.checkouts[id].invoice.value in s.tables.invoices
    && PaysFor(s.tables.invoices[s.tables.checkouts[id].invoice.value], id, s.tables.checkouts[id])
  }

  /** A pay or void call on this invoice is past its check. */
  predicate Edits(phase: Phase, i: InvoiceId) {
    (phase.Voiding? || phase.Paying?) && phase.invoice == i
  }

  predicate Edited(s: State, i: InvoiceId) {
    exists k :: k in s.calls && Edits(s.calls[k], i)
  }

  // ----- what steps do to invoices -------------------------------------------

  lemma DirectInvoice(s: State, step: Step, i: InvoiceId)
    requires Enabled(s, step) && i in s.tables.invoices
    ensures i in Direct(s, step).invoices && Direct(s, step).invoices[i] == s.tables.invoices[i]
  {
  }

  lemma WrittenInvoice(s: State, step: Step, i: InvoiceId)
    requires step.Write? && Enabled(s, step) && i in s.tables.invoices
    ensures var t := Written(s, s.calls[step.k], step).0;
            && i in t.invoices && t.invoices[i].key == s.tables.invoices[i].key
            && (t.invoices[i] != s.tables.invoices[i] ==> Edits(s.calls[step.k], i))
  {
  }

  /** Invoices change only by their own pay and void calls; their keys never do. */
  lemma StepChangesInvoice(s: State, step: Step, s': State, i: InvoiceId)
    requires Enabled(s, step) && s' == Apply(s, step) && i in s.tables.invoices
    ensures i in s'.tables.invoices && s'.tables.invoices[i].key == s.tables.invoices[i].key
    ensures s'.tables.invoices[i] != s.tables.invoices[i] ==> step.Write? && Edits(s.calls[step.k], i)
  {
    hide NextPhase, Heard, Direct, Written;
    DirectInvoice(s, step, i);
    if step.Write? {
      WrittenInvoice(s, step, i);
    }
  }

  /** The GenerateInvoice call is not refused: it has a subscription and tier, and its key and number are free. */
  ghost predicate Generates(s: State, step: Step, key: string) {
    && step.GenerateInvoice? && step.key == key && CanGenerate(s, step.vendor)
    && !KeyUsed(s.tables.invoices, key) && !NumberUsed(s.tables.invoices, step.number)
  }

  ghost predicate Activates(s: State, s': State, id: CheckoutId) {
    !Activated(s, id) && Activated(s', id)
  }

  /** New invoices come from GenerateInvoice or from an activation, under its key, and never under a used key. */
  lemma StepAddsInvoice(s: State, step: Step, s': State, i: InvoiceId)
    requires Enabled(s, step) && s' == Apply(s, step) && i !in s.tables.invoices && i in s'.tables.invoices
    ensures !KeyUsed(s.tables.invoices, s'.tables.invoices[i].key)
    ensures s'.tables.invoices == s.tables.invoices[i := s'.tables.invoices[i]]
    ensures || Generates(s, step, s'.tables.invoices[i].key)
            || (step.Write? && s.calls[step.k].Activating?
                && s'.tables.invoices[i].key == InvoiceKey(s.calls[step.k].id)
                && Activates(s, s', s.calls[step.k].id))
  {
    hide NextPhase, Heard;
  }

  lemma GeneratingUsesKey(s: State, step: Step, s': State, key: string)
    requires Enabled(s, step) && s' == Apply(s, step) && Generates(s, step, key)
    ensures KeyUsed(s'.tables.invoices, key) && s'.tables.checkouts == s.tables.checkouts
  {
    assert HasKey(s'.tables.invoices, step.invoice, key);
  }

  lemma StepKeepsKeyUsed(s: State, step: Step, s': State, key: string)
    requires Enabled(s, step) && s' == Apply(s, step) && KeyUsed(s.tables.invoices, key)
    ensures KeyUsed(s'.tables.invoices, key)
  {
    hide Apply, Enabled;
    var i :| HasKey(s.tables.invoices, i, key);
    StepChangesInvoice(s, step, s', i);
    assert HasKey(s'.tables.invoices, i, key);
  }

  lemma InvoiceBefore(s: State, step: Step, s': State, i: InvoiceId)
    requires Enabled(s, step) && s' == Apply(s, step) && i in s'.tables.invoices
    ensures i in s.tables.invoices ==> s'.tables.invoices[i].key == s.tables.invoices[i].key
    ensures i !in s.tables.invoices ==>
              !KeyUsed(s.tables.invoices, s'.tables.invoices[i].key)
              && s'.tables.invoices == s.tables.invoices[i := s'.tables.invoices[i]]
  {
    hide Apply, Enabled;
    if i in s.tables.invoices {
      StepChangesInvoice(s, step, s', i);
    } else {
      StepAddsInvoice(s, step, s', i);
    }
  }

  lemma NewKeysAreNew(s: State, step: Step, s': State, i: InvoiceId, j: InvoiceId)
    requires Enabled(s, step) && s' == Apply(s, step)
    requires i in s.tables.invoices && i in s'.tables.invoices && j !in s.tables.invoices && j in s'.tables.invoices
    ensures s'.tables.invoices[i].key != s'.tables.invoices[j].key
  {
    hide Apply, Enabled;
    InvoiceBefore(s, step, s', i);
    InvoiceBefore(s, step, s', j);
    assert !HasKey(s.tables.invoices, i, s'.tables.invoices[j].key);
  }

  lemma StepKeepsKeysUnique(s: State, step: Step, s': State)
    requires UniqueKeys(s.tables.invoices) && Enabled(s, step) && s' == Apply(s, step)
    ensures UniqueKeys(s'.tables.invoices)
  {
    hide Apply, Enabled;
    forall i, j | i in s'.tables.invoices && j in s'.tables.invoices
      && s'.tables.invoices[i].key == s'.tables.invoices[j].key
      ensures i == j
    {
      InvoiceBefore(s, step, s', i);
      InvoiceBefore(s, step, s', j);
      if i in s.tables.invoices && j !in s.tables.invoices {
        NewKeysAreNew(s, step, s', i, j);
      }
      if j in s.tables.invoices && i !in s.tables.invoices {
        NewKeysAreNew(s, step, s', j, i);
      }
    }
  }

  // ----- the activating step -------------------------------------------------

  /** Only the write of an activating call activates, and then on the tables as Activate says. */
  lemma ActivatingWrite(s: State, step: Step, s': State, id: CheckoutId) returns (a: Activation)
    requires Enabled(s, step) && s' == Apply(s, step) && Activates(s, s', id)
    ensures Known(s, id) && Activate(s.tables, id, a).1.Ok? && s'.tables == Activate(s.tables, id, a).0
    ensures a.newInvoice !in s.tables.invoices && s.tables.checkouts[id].status.Pending?
    ensures step.Write? && s'.calls == s.calls[step.k := Finished]
  {
    if !Known(s, id) {
      InsertedRow(s, step, s', id);
      assert false;
    }
    StepChangesRow(s, step, s', id);
    var p := s.calls[step.k];
    assert p.Activating? && p.id == id;
    a := Activation(p.collection.id, p.collection.status, p.at, step.newSubscription, step.newInvoice, step.number,
        step.fault);
  }

  /** What a successful activation does about the invoice. */
  lemma ActivationInvoices(t: Tables, id: CheckoutId, a: Activation)
    requires UniqueKeys(t.invoices) && a.newInvoice !in t.invoices
    requires id in t.checkouts && t.checkouts[id].status.Pending? && Activate(t, id, a).1.Ok?
    ensures var after := Activate(t, id, a).0;
            && id in after.checkouts && after.checkouts[id].status.Successful?
            && var c := after.checkouts[id];
            && c.invoice.Some? && HasKey(after.invoices, c.invoice.value, InvoiceKey(id))
            && (c.invoice.value in t.invoices <==> KeyUsed(t.invoices, InvoiceKey(id)))
            && (c.invoice.value in t.invoices ==> after.invoices == t.invoices)
            && (c.invoice.value !in t.invoices ==> PaysFor(after.invoices[c.invoice.value], id, c))
  {
    if KeyUsed(t.invoices, InvoiceKey(id)) {
      var c := Activate(t, id, a).0.checkouts[id];
      assert HasKey(t.invoices, c.invoice.value, InvoiceKey(id));
    } else {
      assert !HasKey(t.invoices, a.newInvoice, InvoiceKey(id));
    }
  }

  /**
   The activating step makes the checkout's invoice exactly when its key is free,
   and otherwise takes over the one that has the key; either way the invoice pays
   for the checkout exactly if it was made now or already did.
   */
  lemma ActivationExactly(s: State, step: Step, s': State, id: CheckoutId)
    requires UniqueKeys(s.tables.invoices) && Enabled(s, step) && s' == Apply(s, step) && Activates(s, s', id)
    ensures s'.tables.checkouts[id].invoice.Some?
    ensures var i := s'.tables.checkouts[id].invoice.value;
            && HasKey(s'.tables.invoices, i, InvoiceKey(id))
            && (i !in s.tables.invoices <==> !KeyUsed(s.tables.invoices, InvoiceKey(id)))
            && (KeyUsed(s.tables.invoices, InvoiceKey(id)) ==> s'.tables.invoices == s.tables.invoices)
            && (PaidAt(s', id) <==>
                  || !KeyUsed(s.tables.invoices, InvoiceKey(id))
                  || PaysFor(s.tables.invoices[i], id, s'.tables.checkouts[id]))
    ensures forall k :: k in s'.calls ==> s'.calls[k].Finished? || (k in s.calls && s.calls[k] == s'.calls[k])
  {
    hide Apply, Enabled;
    var a := ActivatingWrite(s, step, s', id);
    ActivationInvoices(s.tables, id, a);
  }

  /**
   The activating step puts the vendor on the tier that was paid for: an active
   monthly record for thirty days from the payment, trial and cancellation cleared,
   under the vendor's old record id if there was one.  No other vendor's record
   changes, and an invoice made by the step is paid for that record and period.
   */
  lemma ActivationRenewsVendor(s: State, step: Step, s': State, id: CheckoutId)
    requires Enabled(s, step) && s' == Apply(s, step) && Activates(s, s', id)
    ensures Known(s, id)
    ensures var c, c' := s.tables.checkouts[id], s'.tables.checkouts[id];
            var records, records' := s.tables.subscriptions, s'.tables.subscriptions;
            && c'.completedAt.Some? && c'.subscription.Some? && c'.invoice.Some? && c'.collection.Some?
            && c'.completedAt.value < c.expiresAt && c'.failureReason == ""
            && records'.Keys == records.Keys + {c.vendor}
            && var start := c'.completedAt.value;
            && var end := start + 30 * 24 * 3600 * 1_000_000_000;
            && records'[c.vendor]
               == Subscription(c'.subscription.value, c.tier, Active, Monthly, start, end, None, None, None, true)
            && (c.vendor in records ==> records'[c.vendor].id == records[c.vendor].id)
            && (forall v :: v in records && v != c.vendor ==> records'[v] == records[v])
            && (c'.invoice.value !in s.tables.invoices ==>
                  && c'.invoice.value in s'.tables.invoices
                  && var i := s'.tables.invoices[c'.invoice.value];
                  && i == Invoice(c'.subscription.value, c.vendor, i.number, c.amount, c.currency, Paid, start, end,
                                  Some(start), c'.collection.value, "subscription-checkout:" + id))
  {
    hide Apply, Enabled, Activate;
    var a := ActivatingWrite(s, step, s', id);
    ActivationSucceedsExactly(s.tables, id, a);
    ActivationWrites(s.tables, id, a);
  }

  /** What each call does to an invoice: a pay or void call its status, a generating call a new OPEN one. */
  lemma StepWritesInvoice(s: State, step: Step, s': State, i: InvoiceId)
    requires Enabled(s, step) && s' == Apply(s, step)
    ensures step.Write? && i in s.tables.invoices && s.calls[step.k].Paying? && s.calls[step.k].invoice == i ==>
              && i in s'.tables.invoices
              && s'.tables.invoices[i] == s.tables.invoices[i].(status := Paid, paidAt := Some(s.now),
                                                               paymentReference := s.calls[step.k].reference)
    ensures step.Write? && i in s.tables.invoices && s.calls[step.k].Voiding? && s.calls[step.k].invoice == i ==>
              i in s'.tables.invoices && s'.tables.invoices[i] == s.tables.invoices[i].(status := Void)
    ensures step.GenerateInvoice? && step.invoice == i ==>
              (i in s'.tables.invoices <==>
                 && (forall j :: j in s.tables.invoices ==>
                       s.tables.invoices[j].key != step.key && s.tables.invoices[j].number != step.number)
                 && step.vendor in s.tables.subscriptions && s.tables.subscriptions[step.vendor].status != Cancelled
                 && s.tables.subscriptions[step.vendor].tier in s.tiers)
    ensures step.GenerateInvoice? && step.invoice == i && i in s'.tables.invoices ==>
              && step.vendor in s.tables.subscriptions && s.tables.subscriptions[step.vendor].tier in s.tiers
              && var record := s.tables.subscriptions[step.vendor];
              && var price := s.tiers[record.tier].price;
              && s'.tables.invoices
                 == s.tables.invoices[i := Invoice(record.id, step.vendor, step.number, s'.tables.invoices[i].amount,
                                                   "ZMW", Open, record.periodStart, record.periodEnd, None, "",
                                                   step.key)]
              && (record.cycle == Monthly ==> s'.tables.invoices[i].amount == price)
              && (record.cycle == Annual ==>
                    -5 < 10 * s'.tables.invoices[i].amount - 108 * price <= 5)
  {
    hide NextPhase, Heard;
    if step.GenerateInvoice? {
      assert forall j :: j in s.tables.invoices && s.tables.invoices[j].key == step.key ==>
          HasKey(s.tables.invoices, j, step.key);
      assert forall j :: HasKey(s.tables.invoices, j, step.key) ==> s.tables.invoices[j].key == step.key;
    }
  }

  // ----- over runs -----------------------------------------------------------

  /** Some GenerateInvoice call of the run that was not refused took the checkout's key before it was activated. */
  ghost predicate KeyTakenIn(s0: State, steps: seq<Step>, id: CheckoutId)
    requires ValidRun(s0, steps)
    decreases |steps|
  {
    steps != [] &&
    var before := steps[..|steps| - 1];
    || KeyTakenIn(s0, before, id)
    || (!Activated(Exec(s0, before), id) && Generates(Exec(s0, before), steps[|steps| - 1], InvoiceKey(id)))
  }

  /** The activating step of the run made a new invoice for the checkout. */
  ghost predicate InvoiceMadeIn(s0: State, steps: seq<Step>, id: CheckoutId)
    requires ValidRun(s0, steps)
    decreases |steps|
  {
    steps != [] &&
    var before := steps[..|steps| - 1];
    var s, s' := Exec(s0, before), Exec(s0, steps);
    || InvoiceMadeIn(s0, before, id)
    || (Activates(s, s', id) && s'.tables.checkouts[id].invoice.Some?
        && s'.tables.checkouts[id].invoice.value !in s.tables.invoices)
  }

  /** Calls past their check refer to stored invoices. */
  ghost predicate Admitted(s: State) {
    forall k :: k in s.calls && (s.calls[k].Voiding? || s.calls[k].Paying?) ==> s.calls[k].invoice in s.tables.invoices
  }

  /** Pay and void calls are admitted only on an OPEN invoice. */
  lemma AdmittedOnOpen(s: State, step: Step, s': State, k: CallId)
    requires Enabled(s, step) && s' == Apply(s, step) && k in s'.calls && (s'.calls[k].Voiding? || s'.calls[k].Paying?)
    ensures || (k in s.calls && s.calls[k] == s'.calls[k])
            || (s'.calls[k].invoice in s.tables.invoices && s.tables.invoices[s'.calls[k].invoice].status.Open?)
  {
    hide Apply;
    StepMovesCall(s, step, s', k);
  }

  lemma StepKeepsAdmitted(s: State, step: Step, s': State)
    requires Admitted(s) && Enabled(s, step) && s' == Apply(s, step)
    ensures Admitted(s')
  {
    hide Apply, Enabled;
    forall k | k in s'.calls && (s'.calls[k].Voiding? || s'.calls[k].Paying?)
      ensures s'.calls[k].invoice in s'.tables.invoices
    {
      AdmittedOnOpen(s, step, s', k);
      StepChangesInvoice(s, step, s', s'.calls[k].invoice);
    }
  }

  /** What a reachable state says about one checkout's key. */
  ghost predicate KeyInv(s0: State, steps: seq<Step>, id: CheckoutId)
    requires ValidRun(s0, steps)
  {
    var s := Exec(s0, steps);
    && UniqueKeys(s.tables.invoices) && Admitted(s)
    && (KeyUsed(s.tables.invoices, InvoiceKey(id)) <==> KeyTakenIn(s0, steps, id) || Activated(s, id))
    && (InvoiceMadeIn(s0, steps, id) <==> Activated(s, id) && !KeyTakenIn(s0, steps, id))
    && (Activated(s, id) ==>
          && s.tables.checkouts[id].invoice.Some?
          && HasKey(s.tables.invoices, s.tables.checkouts[id].invoice.value, InvoiceKey(id)))
  }

  /** A key gets used by its generating call or its checkout's activation. */
  lemma StepUsesKey(s: State, step: Step, s': State, id: CheckoutId)
    requires Enabled(s, step) && s' == Apply(s, step)
    ensures KeyUsed(s'.tables.invoices, InvoiceKey(id)) ==>
              KeyUsed(s.tables.invoices, InvoiceKey(id)) || Generates(s, step, InvoiceKey(id)) || Activates(s, s', id)
  {
    hide Apply, Enabled;
    if KeyUsed(s'.tables.invoices, InvoiceKey(id)) {
      var i :| HasKey(s'.tables.invoices, i, InvoiceKey(id));
      if i in s.tables.invoices {
        StepChangesInvoice(s, step, s', i);
        assert HasKey(s.tables.invoices, i, InvoiceKey(id));
      } else {
        StepAddsInvoice(s, step, s', i);
        WritesAreCalls(s, step);
        if step.Write? {
          InvoiceKeyInjective(s.calls[step.k].id, id);
        }
      }
    }
  }

  lemma ActivatedStays(s: State, step: Step, s': State, id: CheckoutId)
    requires Enabled(s, step) && s' == Apply(s, step) && Activated(s, id)
    ensures Activated(s', id) && s'.tables.checkouts[id] == s.tables.checkouts[id]
  {
    StepChangesRow(s, step, s', id);
  }

  lemma StepKeepsKeyInv(s0: State, steps: seq<Step>, id: CheckoutId)
    requires ValidRun(s0, steps) && steps != [] && KeyInv(s0, steps[..|steps| - 1], id)
    ensures KeyInv(s0, steps, id)
  {
    hide Apply, Enabled;
    var step := steps[|steps| - 1];
    var s, s' := Exec(s0, steps[..|steps| - 1]), Exec(s0, steps);
    StepKeepsKeysUnique(s, step, s');
    StepKeepsAdmitted(s, step, s');
    StepUsesKey(s, step, s', id);
    if KeyUsed(s.tables.invoices, InvoiceKey(id)) {
      StepKeepsKeyUsed(s, step, s', InvoiceKey(id));
    }
    if Activated(s, id) {
      ActivatedStays(s, step, s', id);
      StepChangesInvoice(s, step, s', s.tables.checkouts[id].invoice.value);
    } else if Activated(s', id) {
      ActivationExactly(s, step, s', id);
      GeneratingDoesNotActivate(s, step, s', id);
    } else if Generates(s, step, InvoiceKey(id)) {
      GeneratingUsesKey(s, step, s', InvoiceKey(id));
    }
  }

  lemma GeneratingDoesNotActivate(s: State, step: Step, s': State, id: CheckoutId)
    requires Enabled(s, step) && s' == Apply(s, step) && Activates(s, s', id)
    ensures !Generates(s, step, InvoiceKey(id))
  {
    hide Apply, Enabled;
    var _ := ActivatingWrite(s, step, s', id);
  }

  lemma {:induction false} RunKeepsKeyInv(now: int, tiers: map<TierId, Tier>, steps: seq<Step>, id: CheckoutId)
    requires ValidRun(Init(now, tiers), steps)
    ensures KeyInv(Init(now, tiers), steps, id)
    decreases |steps|
  {
    if steps != [] {
      RunKeepsKeyInv(now, tiers, steps[..|steps| - 1], id);
      StepKeepsKeyInv(Init(now, tiers), steps, id);
    }
  }

  // ----- paid for good -------------------------------------------------------

  /** The checkout's invoice pays for it and nothing is under way that could still change it. */
  ghost predicate Settled(s: State, id: CheckoutId) {
    PaidAt(s, id) && !Edited(s, s.tables.checkouts[id].invoice.value)
  }

  /** Whatever happens from here on, the checkout is paid. */
  ghost predicate PaidForGood(s: State, id: CheckoutId) {
    forall later :: ValidRun(s, later) ==> PaidAt(Exec(s, later), id)
  }

  lemma StepKeepsSettled(s: State, step: Step, s': State, id: CheckoutId)
    requires Settled(s, id) && Enabled(s, step) && s' == Apply(s, step)
    ensures Settled(s', id)
  {
    hide Apply, Enabled;
    ActivatedStays(s, step, s', id);
    var i := s.tables.checkouts[id].invoice.value;
    StepChangesInvoice(s, step, s', i);
    if step.Write? && step.k in s.calls {
      assert !Edits(s.calls[step.k], i);
    }
    WritesAreCalls(s, step);
    forall k | k in s'.calls ensures !Edits(s'.calls[k], i) {
      if Edits(s'.calls[k], i) {
        AdmittedOnOpen(s, step, s', k);
        assert false;
      }
    }
  }

  lemma WritesAreCalls(s: State, step: Step)
    requires Enabled(s, step)
    ensures step.Write? ==> step.k in s.calls
  {
  }

  lemma {:induction false} SettledIsForGood(s: State, later: seq<Step>, id: CheckoutId)
    requires Settled(s, id) && ValidRun(s, later)
    ensures Settled(Exec(s, later), id)
    decreases |later|
  {
    if later != [] {
      SettledIsForGood(s, later[..|later| - 1], id);
      StepKeepsSettled(Exec(s, later[..|later| - 1]), later[|later| - 1], Exec(s, later), id);
    }
  }

  lemma {:induction false} FreshInvoice(ids: set<InvoiceId>) returns (unused: InvoiceId)
    ensures forall i :: i in ids ==> i < unused
    decreases ids
  {
    unused := 0;
    if i :| i in ids {
      unused := FreshInvoice(ids - {i});
      if unused <= i {
        unused := i + 1;
      }
      assert forall j :: j in ids ==> j == i || j in ids - {i};
    }
  }

  lemma EditWrites(s: State, id: CheckoutId, k: CallId, unused: InvoiceId)
    requires PaidAt(s, id) && k in s.calls && Edits(s.calls[k], s.tables.checkouts[id].invoice.value)
    requires unused !in s.tables.invoices
    requires s.tables.checkouts[id].completedAt != Some(s.now)
    ensures Enabled(s, Write(k, 0, unused, "", false)) && !PaidAt(Apply(s, Write(k, 0, unused, "", false)), id)
  {
  }

  /** A pay or void call that is past its check can still undo the payment, later than any completion. */
  lemma EditUndoes(s: State, id: CheckoutId, k: CallId) returns (later: seq<Step>)
    requires PaidAt(s, id) && k in s.calls && Edits(s.calls[k], s.tables.checkouts[id].invoice.value)
    ensures ValidRun(s, later) && !PaidAt(Exec(s, later), id)
  {
    var c := s.tables.checkouts[id];
    var to := if c.completedAt.Some? && s.now < c.completedAt.value then c.completedAt.value + 1 else s.now + 1;
    var unused := FreshInvoice(s.tables.invoices.Keys);
    assert ValidRun(s, []) && unused !in s.tables.invoices;
    Append(s, [], Tick(to));
    later := [] + [Tick(to)];
    EditWrites(s.(now := to), id, k, unused);
    Append(s, later, Write(k, 0, unused, "", false));
    later := later + [Write(k, 0, unused, "", false)];
  }

  /**
   The checkout is paid in every continuation of a run exactly when it is paid now
   and no pay or void call is past its check on its invoice.
   */
  lemma PaidForGoodExactly(s: State, id: CheckoutId)
    ensures PaidForGood(s, id) <==> Settled(s, id)
  {
    hide Apply, Enabled;
    if Settled(s, id) {
      forall later | ValidRun(s, later) ensures PaidAt(Exec(s, later), id) {
        SettledIsForGood(s, later, id);
      }
    }
    if PaidForGood(s, id) {
      assert ValidRun(s, []) && PaidAt(Exec(s, []), id);
      if k :| k in s.calls && Edits(s.calls[k], s.tables.checkouts[id].invoice.value) {
        var later := EditUndoes(s, id, k);
        assert false;
      }
    }
  }

  /** A run whose last step activates the checkout. */
  ghost predicate EndsActivating(s0: State, steps: seq<Step>, id: CheckoutId) {
    && steps != [] && ValidRun(s0, steps)
    && Activates(Exec(s0, steps[..|steps| - 1]), Exec(s0, steps), id)
  }

  /**
   At activation: paid for good exactly when nobody had generated an invoice under
   the checkout's key, or that invoice already pays for the checkout and no pay or
   void call is past its check on it.
   */
  lemma ActivationPaysForGood(now: int, tiers: map<TierId, Tier>, steps: seq<Step>, id: CheckoutId)
    requires EndsActivating(Init(now, tiers), steps, id)
    ensures var s, s' := Exec(Init(now, tiers), steps[..|steps| - 1]), Exec(Init(now, tiers), steps);
            && s'.tables.checkouts[id].invoice.Some?
            && var i := s'.tables.checkouts[id].invoice.value;
            && (KeyTakenIn(Init(now, tiers), steps, id) ==> i in s.tables.invoices)
            && (PaidForGood(s', id) <==>
                  || !KeyTakenIn(Init(now, tiers), steps, id)
                  || (PaysFor(s.tables.invoices[i], id, s'.tables.checkouts[id]) && !Edited(s, i)))
  {
    hide Apply, Enabled;
    var before := steps[..|steps| - 1];
    var s, s' := Exec(Init(now, tiers), before), Exec(Init(now, tiers), steps);
    RunKeepsKeyInv(now, tiers, before, id);
    RunKeepsKeyInv(now, tiers, steps, id);
    ActivationExactly(s, steps[|steps| - 1], s', id);
    GeneratingDoesNotActivate(s, steps[|steps| - 1], s', id);
    PaidForGoodExactly(s', id);
    EditsSurviveActivation(s, steps[|steps| - 1], s', id);
  }

  /** The activating call is not a pay or void call, so those under way stay under way. */
  lemma EditsSurviveActivation(s: State, step: Step, s': State, id: CheckoutId)
    requires UniqueKeys(s.tables.invoices) && Admitted(s) && Enabled(s, step) && s' == Apply(s, step)
             && Activates(s, s', id)
    ensures forall i :: Edited(s', i) <==> Edited(s, i)
    ensures forall i :: i !in s.tables.invoices ==> !Edited(s, i)
  {
    forall i ensures Edited(s', i) <==> Edited(s, i) {
      if k :| k in s.calls && Edits(s.calls[k], i) {
        CallsSurviveActivation(s, step, s', id, k);
      }
      if k :| k in s'.calls && Edits(s'.calls[k], i) {
        CallsSurviveActivation(s, step, s', id, k);
      }
    }
  }

  lemma CallsSurviveActivation(s: State, step: Step, s': State, id: CheckoutId, k: CallId)
    requires Enabled(s, step) && s' == Apply(s, step) && Activates(s, s', id)
    ensures k in s.calls && (s.calls[k].Voiding? || s.calls[k].Paying?) ==> k in s'.calls && s'.calls[k] == s.calls[k]
    ensures k in s'.calls && (s'.calls[k].Voiding? || s'.calls[k].Paying?) ==> k in s.calls && s.calls[k] == s'.calls[k]
  {
    var _ := ActivatingWrite(s, step, s', id);
    assert s.calls[step.k].Activating? by {
      if Known(s, id) {
        StepChangesRow(s, step, s', id);
      }
    }
  }

  lemma {:induction false} MadeInvoiceStaysPaid(now: int, tiers: map<TierId, Tier>, steps: seq<Step>, id: CheckoutId)
    requires ValidRun(Init(now, tiers), steps)
    requires Activated(Exec(Init(now, tiers), steps), id) && !KeyTakenIn(Init(now, tiers), steps, id)
    ensures Settled(Exec(Init(now, tiers), steps), id)
    decreases |steps|
  {
    hide Apply, Enabled;
    if steps != [] {
      var before := steps[..|steps| - 1];
      var s, s' := Exec(Init(now, tiers), before), Exec(Init(now, tiers), steps);
      if Activated(s, id) {
        MadeInvoiceStaysPaid(now, tiers, before, id);
        StepKeepsSettled(s, steps[|steps| - 1], s', id);
      } else {
        RunKeepsKeyInv(now, tiers, before, id);
        ActivationExactly(s, steps[|steps| - 1], s', id);
        EditsSurviveActivation(s, steps[|steps| - 1], s', id);
      }
    }
  }

  /**
   A checkout succeeds at most once, and then exactly one invoice, its own, has
   its key.  The activation made that invoice exactly when no GenerateInvoice call
   had taken the key, and then it is PAID for the locked amount and currency at
   every later state.
   */
  lemma ExactlyOnceActivation(now: int, tiers: map<TierId, Tier>, steps: seq<Step>, id: CheckoutId)
    requires ValidRun(Init(now, tiers), steps) && Activated(Exec(Init(now, tiers), steps), id)
    ensures ActivationsIn(Init(now, tiers), steps, id) == 1
    ensures var s := Exec(Init(now, tiers), steps);
            var c := s.tables.checkouts[id];
            && c.invoice.Some? && c.invoice.value in s.tables.invoices
            && (forall i :: HasKey(s.tables.invoices, i, InvoiceKey(id)) <==> i == c.invoice.value)
    ensures InvoiceMadeIn(Init(now, tiers), steps, id) <==> !KeyTakenIn(Init(now, tiers), steps, id)
    ensures !KeyTakenIn(Init(now, tiers), steps, id) ==> PaidAt(Exec(Init(now, tiers), steps), id)
  {
    ActivatedOnce(now, tiers, steps, id);
    RunKeepsKeyInv(now, tiers, steps, id);
    if !KeyTakenIn(Init(now, tiers), steps, id) {
      MadeInvoiceStaysPaid(now, tiers, steps, id);
    }
  }
}
