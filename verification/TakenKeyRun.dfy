/**
 A client may name any idempotency key.  This run takes a pending checkout's own
 invoice key with a GenerateInvoice call: the payment then activates the checkout
 and its invoice stays OPEN.
 */
module TakenKeyRun {
  import opened Prelude
  import opened Text
  import opened BillingTables
  import opened CheckoutProtocol
  import opened CheckoutInvoices

  const TIER := Tier("Plus", 100, true)

  const PAYMENT := Collection("pay-1", Reference("c"), 1.0, "ZMW", "successful", "")

  function Row(): Checkout {
    NewCheckout(1, 1, TIER, "c", 0, 0)
  }

  function Subscriptions(): map<VendorId, Subscription> {
    map[1 := NewSubscription(10, 1, Monthly, 0, 0)]
  }

  /** The invoice the vendor generates under the checkout's key. */
  function Generated(): Invoice {
    GeneratedInvoice(1, Subscriptions()[1], 100, "INV-1", InvoiceKey("c"))
  }

  function Start(): State {
    Init(0, map[1 := TIER])
  }

  function Subscribed(calls: map<CallId, Phase>): State {
    Start().(tables := Tables(map[], Subscriptions(), map[]), calls := calls)
  }

  function Created(): State {
    Start().(tables := Tables(map["c" := Row()], Subscriptions(), map[]), calls := map[1 := Finished])
  }

  function Taken(phase: Phase): State {
    Start().(tables := Tables(map["c" := Row()], Subscriptions(), map[5 := Generated()]),
        calls := map[1 := Finished, 2 := phase])
  }

  lemma Subscribes()
    ensures Apply(Start(), CreateSubscription(1, 10, 1, Monthly, 0)) == Subscribed(map[])
  {
  }

  lemma Creates()
    ensures Enabled(Subscribed(map[]), BeginCreate(1, 1, 1))
    ensures Apply(Subscribed(map[]), BeginCreate(1, 1, 1)) == Subscribed(map[1 := Creating(1, 1, TIER, 0)])
  {
  }

  lemma FindsNone()
    ensures Enabled(Subscribed(map[1 := Creating(1, 1, TIER, 0)]), FindReusable(1))
    ensures Apply(Subscribed(map[1 := Creating(1, 1, TIER, 0)]), FindReusable(1))
            == Subscribed(map[1 := Inserting(1, 1, TIER, 0)])
  {
  }

  lemma Inserts()
    ensures Enabled(Subscribed(map[1 := Inserting(1, 1, TIER, 0)]), FinishCreate(1, "c"))
    ensures Apply(Subscribed(map[1 := Inserting(1, 1, TIER, 0)]), FinishCreate(1, "c")) == Created()
  {
  }

  /** The client's call takes the key; then the poll begins. */
  lemma TakesKey()
    ensures Generates(Created(), GenerateInvoice(1, InvoiceKey("c"), 5, "INV-1"), InvoiceKey("c"))
    ensures Enabled(Created(), GenerateInvoice(1, InvoiceKey("c"), 5, "INV-1"))
    ensures Apply(Created(), GenerateInvoice(1, InvoiceKey("c"), 5, "INV-1"))
            == Taken(ToVerify("c")).(calls := map[1 := Finished])
  {
  }

  lemma Polls()
    ensures Enabled(Taken(ToVerify("c")).(calls := map[1 := Finished]), BeginPoll(2, 1, "c"))
    ensures Apply(Taken(ToVerify("c")).(calls := map[1 := Finished]), BeginPoll(2, 1, "c")) == Taken(ToVerify("c"))
  {
  }

  lemma Reads()
    ensures Enabled(Taken(ToVerify("c")), Read(2))
            && Apply(Taken(ToVerify("c")), Read(2)) == Taken(Verifying("c", Row()))
  {
  }

  lemma Asks()
    ensures Enabled(Taken(Verifying("c", Row())), Query(2, Some(PAYMENT)))
    ensures Apply(Taken(Verifying("c", Row())), Query(2, Some(PAYMENT)))
            == Taken(Activating("c", PAYMENT, 0)).(answers := {Asked(Reference("c"), PAYMENT)})
  {
    assert Matches(PAYMENT, Row());
  }

  lemma Writes()
    ensures var s := Taken(Activating("c", PAYMENT, 0)).(answers := {Asked(Reference("c"), PAYMENT)});
            && Enabled(s, Write(2, 11, 6, "INV-2", false))
            && var s' := Apply(s, Write(2, 11, 6, "INV-2", false));
            && Activated(s', "c") && s'.tables.checkouts["c"].collection == Some("pay-1")
            && s'.tables.checkouts["c"].invoice == Some(5) && s'.tables.invoices == map[5 := Generated()]
  {
    assert HasKey(Taken(Finished).tables.invoices, 5, InvoiceKey("c"));
  }

  lemma Begins() returns (steps: seq<Step>)
    ensures ValidRun(Start(), steps) && Exec(Start(), steps) == Created()
  {
    hide Apply, Enabled;
    assert ValidRun(Start(), []) && Exec(Start(), []) == Start();
    Subscribes();
    AlwaysEnabled();
    Append(Start(), [], CreateSubscription(1, 10, 1, Monthly, 0));
    steps := [] + [CreateSubscription(1, 10, 1, Monthly, 0)];
    Creates();
    Append(Start(), steps, BeginCreate(1, 1, 1));
    steps := steps + [BeginCreate(1, 1, 1)];
    FindsNone();
    Append(Start(), steps, FindReusable(1));
    steps := steps + [FindReusable(1)];
    Inserts();
    Append(Start(), steps, FinishCreate(1, "c"));
    steps := steps + [FinishCreate(1, "c")];
  }

  lemma AlwaysEnabled()
    ensures Enabled(Start(), CreateSubscription(1, 10, 1, Monthly, 0))
  {
  }

  lemma KeyStaysTaken(steps: seq<Step>, step: Step)
    requires ValidRun(Start(), steps + [step]) && ValidRun(Start(), steps) && KeyTakenIn(Start(), steps, "c")
    ensures KeyTakenIn(Start(), steps + [step], "c")
  {
    assert (steps + [step])[..|steps + [step]| - 1] == steps;
  }

  lemma TakesAndAsks() returns (steps: seq<Step>)
    ensures ValidRun(Start(), steps) && KeyTakenIn(Start(), steps, "c")
    ensures Exec(Start(), steps) == Taken(Activating("c", PAYMENT, 0)).(answers := {Asked(Reference("c"), PAYMENT)})
  {
    hide Apply, Enabled, Generates;
    var begun := Begins();
    TakesKey();
    var generate := GenerateInvoice(1, InvoiceKey("c"), 5, "INV-1");
    Append(Start(), begun, generate);
    assert (begun + [generate])[..|begun + [generate]| - 1] == begun;
    steps := begun + [generate];
    Polls();
    Append(Start(), steps, BeginPoll(2, 1, "c"));
    KeyStaysTaken(steps, BeginPoll(2, 1, "c"));
    steps := steps + [BeginPoll(2, 1, "c")];
    Reads();
    Append(Start(), steps, Read(2));
    KeyStaysTaken(steps, Read(2));
    steps := steps + [Read(2)];
    Asks();
    Append(Start(), steps, Query(2, Some(PAYMENT)));
    KeyStaysTaken(steps, Query(2, Some(PAYMENT)));
    steps := steps + [Query(2, Some(PAYMENT))];
  }

  /** The run ends with the checkout SUCCESSFUL, the payment taken, and the only invoice under its key still OPEN. */
  lemma TakenKeyLeavesUnpaid() returns (steps: seq<Step>)
    ensures ValidRun(Start(), steps) && KeyTakenIn(Start(), steps, "c")
    ensures var s := Exec(Start(), steps);
            && Activated(s, "c") && s.tables.checkouts["c"].collection == Some("pay-1")
            && s.tables.checkouts["c"].invoice == Some(5) && 5 in s.tables.invoices && s.tables.invoices[5].status.Open?
            && !PaidAt(s, "c")
  {
    hide Apply, Enabled;
    steps := TakesAndAsks();
    Writes();
    Append(Start(), steps, Write(2, 11, 6, "INV-2", false));
    KeyStaysTaken(steps, Write(2, 11, 6, "INV-2", false));
    steps := steps + [Write(2, 11, 6, "INV-2", false)];
  }
}
