/**
 Subscription checkout under concurrency.  Vendor polls, webhooks, collection
 attempts and invoice operations are calls whose reads, provider queries and
 writes are separate steps, interleaved in any way; one statement or transaction
 is one step.  `answers` records what the provider said.
 */
module CheckoutProtocol {
  import opened Prelude
  import opened Text
  import opened BillingTables

  type CallId = nat

  /** The provider's normalised answer; its amount need not be a whole number of minor units. */
  datatype Collection = Collection(id: string, reference: string, amount: real, currency: string, status: string,
      reason: string)

  datatype Asked = Asked(reference: string, collection: Collection)

  datatype Phase =
    | Creating(vendor: VendorId, tier: TierId, quoted: Tier, at: int)    // before the lookup of a reusable checkout
    | Inserting(vendor: VendorId, tier: TierId, quoted: Tier, at: int)   // after it found none
    | ToVerify(id: CheckoutId)
    | Verifying(id: CheckoutId, row: Checkout)
    | Expiring(id: CheckoutId, why: string)
    | Activating(id: CheckoutId, collection: Collection, at: int)
    | Failing(id: CheckoutId, collection: Collection)
    | Initiating(id: CheckoutId, row: Checkout)
    | Recording(id: CheckoutId, collection: Collection)
    | Paying(invoice: InvoiceId, reference: string)
    | Voiding(invoice: InvoiceId)
    | Moving(vendor: VendorId, next: SubscriptionStatus, why: string)    // a status change that was found allowed
    | Finished

  datatype State = State(
    now: int,
    tables: Tables,
    tiers: map<TierId, Tier>,
    calls: map<CallId, Phase>,
    answers: set<Asked>)

  datatype Step =
    | Tick(to: int)
    | SetTier(t: TierId, tier: Tier)
    | BeginCreate(k: CallId, vendor: VendorId, t: TierId)
    | FindReusable(k: CallId)
    | FinishCreate(k: CallId, id: CheckoutId)
    | BeginPoll(k: CallId, vendor: VendorId, id: CheckoutId)
    | BeginWebhook(k: CallId, reference: string)
    | BeginInitiate(k: CallId, vendor: VendorId, id: CheckoutId)
    | Read(k: CallId)
    | Query(k: CallId, answer: Option<Collection>)
    | Initiate(k: CallId, answer: Option<Collection>)
    | Write(k: CallId, newSubscription: SubscriptionId, newInvoice: InvoiceId, number: string, fault: bool)
    | BeginPay(k: CallId, invoice: InvoiceId, reference: string)
    | BeginVoid(k: CallId, invoice: InvoiceId)
    | GenerateInvoice(vendor: VendorId, key: string, invoice: InvoiceId, number: string)
    | CreateSubscription(vendor: VendorId, subscription: SubscriptionId, t: TierId, cycle: Cycle, trialDays: int)
    | ChangeTier(vendor: VendorId, t: TierId)
    // CancelSubscription and UpdateStatus
    | BeginStatus(k: CallId, vendor: VendorId, next: SubscriptionStatus, why: string)
    | Drop(k: CallId)

  // ----- the service's checks ------------------------------------------------

  predicate AmountMatches(collection: Collection, c: Checkout) {
    var difference := collection.amount - c.amount as real / 100.0;
    -0.005 <= difference <= 0.005
  }

  /** The answer is for this checkout's own reference, amount and currency. */
  predicate Matches(collection: Collection, c: Checkout) {
    && collection.id != "" && collection.reference == c.reference
    && AmountMatches(collection, c) && EqualFold(collection.currency, c.currency)
  }

  predicate Reusable(s: State, id: CheckoutId, vendor: VendorId, tier: TierId, at: int) {
    && id in s.tables.checkouts && s.tables.checkouts[id].vendor == vendor && s.tables.checkouts[id].tier == tier
    && s.tables.checkouts[id].status.Pending? && s.tables.checkouts[id].expiresAt > at
  }

  /** `at` is the service's clock when it read the tier, `createdAt` the database's at the insert. */
  function NewCheckout(vendor: VendorId, tier: TierId, quoted: Tier, id: CheckoutId, at: int,
                       createdAt: int): Checkout {
    Checkout(vendor, tier, quoted.price, "ZMW", Reference(id), CheckoutStatus.Pending, None, "", None, None,
             createdAt, at + CHECKOUT_LIFETIME, None, "")
  }

  // ----- steps ---------------------------------------------------------------

  /** Steps of a call that leave the tables alone. */
  predicate Calls(step: Step) {
    !step.Tick? && !step.SetTier? && !step.FinishCreate? && !step.Write?
    && !step.GenerateInvoice? && !step.CreateSubscription? && !step.ChangeTier?
  }

  /** The phases that end in a write. */
  predicate Writes(phase: Phase) {
    || phase.Expiring? || phase.Activating? || phase.Failing? || phase.Recording?
    || phase.Paying? || phase.Voiding? || phase.Moving?
  }

  predicate Idle(s: State, k: CallId) {
    k !in s.calls
  }

  predicate Known(s: State, id: CheckoutId) {
    id in s.tables.checkouts
  }

  ghost predicate Enabled(s: State, step: Step) {
    match step
    case Tick(to) => s.now <= to
    case BeginCreate(k, _, _) => Idle(s, k)
    case FindReusable(k) => k in s.calls && s.calls[k].Creating?
    case FinishCreate(k, id) => k in s.calls && s.calls[k].Inserting? && !Known(s, id)
    case BeginPoll(k, _, _) => Idle(s, k)
    case BeginWebhook(k, _) => Idle(s, k)
    case BeginInitiate(k, _, _) => Idle(s, k)
    case Read(k) => k in s.calls && s.calls[k].ToVerify? && Known(s, s.calls[k].id)
    case Query(k, _) => k in s.calls && s.calls[k].Verifying?
    case Initiate(k, _) => k in s.calls && s.calls[k].Initiating?
    case Write(k, _, newInvoice, _, _) =>
      k in s.calls && newInvoice !in s.tables.invoices && Writes(s.calls[k])
    case BeginPay(k, _, _) => Idle(s, k)
    case BeginVoid(k, _) => Idle(s, k)
    case BeginStatus(k, _, _, _) => Idle(s, k)
    case GenerateInvoice(_, _, invoice, _) => invoice !in s.tables.invoices
    case Drop(k) => k in s.calls
    case _ => true
  }

  function At(s: State, k: CallId, phase: Phase): State {
    s.(calls := s.calls[k := phase])
  }

  /** What a pending, unexpired row leads to; the other two cases are the same everywhere. */
  function Examined(row: Checkout, id: CheckoutId, now: int, why: string, goOn: Phase): Phase {
    if !row.status.Pending? then Finished
    else if row.expiresAt <= now then Expiring(id, why)
    else goOn
  }

  /** What the provider's answer about `row` leads to. */
  function Answered(id: CheckoutId, row: Checkout, answer: Option<Collection>, now: int): Phase {
    if answer.None? || !Matches(answer.value, row) then Finished
    else if EqualFold(answer.value.status, "successful") then Activating(id, answer.value, now)
    else if EqualFold(answer.value.status, "failed") then Failing(id, answer.value)
    else Finished
  }

  ghost function Written(s: State, phase: Phase, step: Step): (Tables, Phase)
    requires step.Write?
  {
    match phase
    case Expiring(id, why) => (FailCheckout(s.tables, id, "EXPIRED", why), Finished)
    case Failing(id, c) => (FailCheckout(s.tables, id, c.status, c.reason), Finished)
    case Activating(id, c, at) =>
      (Activate(s.tables, id,
          Activation(c.id, c.status, at, step.newSubscription, step.newInvoice, step.number, step.fault)).0,
       Finished)
    case Recording(id, c) =>
      var r := RecordCollection(s.tables, id, c.id, c.status);
      if r.Err? then (s.tables, Finished)
      else
        var settled := EqualFold(c.status, "successful") || EqualFold(c.status, "failed");
        (r.value, if settled then ToVerify(id) else Finished)
    case Paying(invoice, reference) =>
      (if invoice in s.tables.invoices
       then
         var paid := PaidInvoice(s.tables.invoices[invoice], reference, s.now);
         s.tables.(invoices := s.tables.invoices[invoice := paid])
       else s.tables, Finished)
    case Voiding(invoice) =>
      (if invoice in s.tables.invoices
       then s.tables.(invoices := s.tables.invoices[invoice := s.tables.invoices[invoice].(status := Void)])
       else s.tables, Finished)
    case Moving(v, next, why) =>
      (if v in s.tables.subscriptions
       then
         var moved := StatusWritten(s.tables.subscriptions[v], next, why, s.now);
         s.tables.(subscriptions := s.tables.subscriptions[v := moved])
       else s.tables, Finished)
    case _ => (s.tables, phase)
  }

  predicate CanGenerate(s: State, vendor: VendorId) {
    && vendor in s.tables.subscriptions && !s.tables.subscriptions[vendor].status.Cancelled?
    && s.tables.subscriptions[vendor].tier in s.tiers
  }

  /** Subscription and invoice calls that are one step each. */
  ghost function Direct(s: State, step: Step): Tables {
    var t := s.tables;
    match step
    case GenerateInvoice(v, key, invoice, number) =>
      if KeyUsed(t.invoices, key) || !CanGenerate(s, v) || NumberUsed(t.invoices, number) then t
      else
        var sub := t.subscriptions[v];
        t.(invoices := t.invoices[invoice := GeneratedInvoice(v, sub, s.tiers[sub.tier].price, number, key)])
    case CreateSubscription(v, id, tier, cycle, trialDays) =>
      if v in t.subscriptions || tier !in s.tiers then t
      else t.(subscriptions := t.subscriptions[v := NewSubscription(id, tier, cycle, trialDays, s.now)])
    case ChangeTier(v, tier) =>
      if v !in t.subscriptions || t.subscriptions[v].status.Cancelled? || t.subscriptions[v].status.Suspended?
         || t.subscriptions[v].tier == tier || tier !in s.tiers then t
      else t.(subscriptions := t.subscriptions[v := t.subscriptions[v].(tier := tier)])
    case _ => t
  }

  /** The phase a call is in after a step that only reads, asks or gives up. */
  ghost function NextPhase(s: State, step: Step): Phase
    requires Enabled(s, step) && Calls(step)
  {
    match step
    case BeginCreate(_, vendor, t) =>
      if t !in s.tiers || !s.tiers[t].available || s.tiers[t].price <= 0 then Finished
      else Creating(vendor, t, s.tiers[t], s.now)
    case FindReusable(k) =>
      var c := s.calls[k];
      if exists other :: Reusable(s, other, c.vendor, c.tier, c.at) then Finished
      else Inserting(c.vendor, c.tier, c.quoted, c.at)
    case BeginPoll(_, vendor, id) =>
      if Known(s, id) && s.tables.checkouts[id].vendor == vendor then ToVerify(id) else Finished
    case BeginWebhook(_, reference) =>
      if exists id :: Known(s, id) && s.tables.checkouts[id].reference == reference then
        var id :| Known(s, id) && s.tables.checkouts[id].reference == reference;
        ToVerify(id)
      else Finished
    case BeginInitiate(_, vendor, id) =>
      if !Known(s, id) || s.tables.checkouts[id].vendor != vendor then Finished
      else
        var row := s.tables.checkouts[id];
        Examined(row, id, s.now, "Checkout expired before collection could be initiated",
                 if row.collection.Some? then Finished else Initiating(id, row))
    case Read(k) =>
      var id := s.calls[k].id;
      Examined(s.tables.checkouts[id], id, s.now, "Checkout expired before payment could be verified",
               Verifying(id, s.tables.checkouts[id]))
    case Query(k, answer) => Answered(s.calls[k].id, s.calls[k].row, answer, s.now)
    case Initiate(k, answer) =>
      if answer.None? || !Matches(answer.value, s.calls[k].row) then Finished
      else Recording(s.calls[k].id, answer.value)
    case BeginPay(_, invoice, reference) =>
      if invoice in s.tables.invoices && s.tables.invoices[invoice].status.Open?
      then Paying(invoice, reference) else Finished
    case BeginVoid(_, invoice) =>
      if invoice in s.tables.invoices && s.tables.invoices[invoice].status.Open? then Voiding(invoice) else Finished
    case BeginStatus(_, v, next, why) =>
      if v in s.tables.subscriptions && CanTransition(s.tables.subscriptions[v].status, next)
      then Moving(v, next, why) else Finished
    case _ => Finished
  }

  /** What the provider said, if this step asked it. */
  function Heard(s: State, step: Step): set<Asked>
    requires step.Query? ==> step.k in s.calls && s.calls[step.k].Verifying?
  {
    if step.Query? && step.answer.Some? then {Asked(s.calls[step.k].row.reference, step.answer.value)} else {}
  }

  ghost function Apply(s: State, step: Step): State
    requires Enabled(s, step)
  {
    if Calls(step) then At(s.(answers := s.answers + Heard(s, step)), step.k, NextPhase(s, step))
    else
      match step
      case Tick(to) => s.(now := to)
      case SetTier(t, tier) => s.(tiers := s.tiers[t := tier])
      case FinishCreate(k, id) =>
        var c := s.calls[k];
        At(s.(tables := s.tables.(checkouts :=
             s.tables.checkouts[id := NewCheckout(c.vendor, c.tier, c.quoted, id, c.at, s.now)])), k, Finished)
      case Write(k, _, _, _, _) =>
        var (tables, phase) := Written(s, s.calls[k], step);
        At(s.(tables := tables), k, phase)
      case GenerateInvoice(_, _, _, _) => s.(tables := Direct(s, step))
      case CreateSubscription(_, _, _, _, _) => s.(tables := Direct(s, step))
      case ChangeTier(_, _) => s.(tables := Direct(s, step))
  }

  ghost predicate ValidRun(s: State, steps: seq<Step>)
    decreases |steps|, 0
  {
    steps == [] ||
    var before := steps[..|steps| - 1];
    ValidRun(s, before) && Enabled(Exec(s, before), steps[|steps| - 1])
  }

  ghost function Exec(s: State, steps: seq<Step>): State
    requires ValidRun(s, steps)
    decreases |steps|, 1
  {
    if steps == [] then s else Apply(Exec(s, steps[..|steps| - 1]), steps[|steps| - 1])
  }

  function Init(now: int, tiers: map<TierId, Tier>): State {
    State(now, Tables(map[], map[], map[]), tiers, map[], {})
  }

  // ----- what the parts of a step touch --------------------------------------

  lemma DirectTouches(s: State, step: Step)
    ensures Direct(s, step).checkouts == s.tables.checkouts
    ensures !step.GenerateInvoice? ==> Direct(s, step).invoices == s.tables.invoices
    ensures step.GenerateInvoice? ==> Direct(s, step).subscriptions == s.tables.subscriptions
    ensures s.tables.subscriptions.Keys <= Direct(s, step).subscriptions.Keys
  {
  }

  lemma WrittenTouches(s: State, phase: Phase, step: Step)
    requires step.Write? && Writes(phase)
    ensures var t := Written(s, phase, step).0;
            && (phase.Paying? || phase.Voiding? || phase.Moving? ==> t.checkouts == s.tables.checkouts)
            && t.checkouts.Keys == s.tables.checkouts.Keys
            && (!phase.Activating? && !phase.Moving? ==> t.subscriptions == s.tables.subscriptions)
            && s.tables.subscriptions.Keys <= t.subscriptions.Keys
            && (!phase.Activating? && !phase.Paying? && !phase.Voiding? ==> t.invoices == s.tables.invoices)
    ensures Written(s, phase, step).1.Finished? || Written(s, phase, step).1.ToVerify?
  {
  }

  lemma Append(s: State, steps: seq<Step>, step: Step)
    requires ValidRun(s, steps) && Enabled(Exec(s, steps), step)
    ensures ValidRun(s, steps + [step])
    ensures Exec(s, steps + [step]) == Apply(Exec(s, steps), step)
  {
    assert (steps + [step])[..|steps + [step]| - 1] == steps;
  }
}
