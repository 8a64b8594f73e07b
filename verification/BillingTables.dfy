/**
 The billing tables and the repository's statements and transactions on them.
 Money is in integer minor units; times are integers; a billing month is a
 fixed positive length.
 */
module BillingTables {
  import opened Prelude

  type VendorId = nat
  type TierId = nat
  type SubscriptionId = nat
  type InvoiceId = nat
  type CheckoutId = string     // the text form of its UUID

  const SECOND := 1_000_000_000
  const CHECKOUT_LIFETIME := 30 * 60 * SECOND
  const MONTH := 30 * 24 * 3600 * SECOND
  const YEAR := 12 * MONTH
  const DAY := 24 * 3600 * SECOND

  datatype Tier = Tier(name: string, price: int, available: bool)

  datatype CheckoutStatus = Pending | Successful | Failed | Expired

  datatype Checkout = Checkout(
    vendor: VendorId,
    tier: TierId,
    amount: int,
    currency: string,
    reference: string,
    status: CheckoutStatus,
    collection: Option<string>,     // provider_collection_id, unique
    providerStatus: string,
    subscription: Option<SubscriptionId>,
    invoice: Option<InvoiceId>,
    createdAt: int,
    expiresAt: int,
    completedAt: Option<int>,
    failureReason: string)

  datatype SubscriptionStatus = Trial | Active | PastDue | Suspended | Cancelled

  datatype Cycle = Monthly | Annual

  datatype Subscription = Subscription(
    id: SubscriptionId,
    tier: TierId,
    status: SubscriptionStatus,
    cycle: Cycle,
    periodStart: int,
    periodEnd: int,
    trialEndsAt: Option<int>,
    cancelledAt: Option<int>,
    cancelReason: Option<string>,
    autoRenew: bool)

  datatype InvoiceStatus = Open | Paid | Void

  datatype Invoice = Invoice(
    subscription: SubscriptionId,
    vendor: VendorId,
    number: string,                 // unique
    amount: int,
    currency: string,
    status: InvoiceStatus,
    periodStart: int,
    periodEnd: int,
    paidAt: Option<int>,
    paymentReference: string,
    key: string)                    // idempotency_key, unique, "" included

  /** Subscriptions are keyed by vendor: the table is unique on vendor_id. */
  datatype Tables = Tables(
    checkouts: map<CheckoutId, Checkout>,
    subscriptions: map<VendorId, Subscription>,
    invoices: map<InvoiceId, Invoice>)

  function InvoiceKey(id: CheckoutId): string {
    "subscription-checkout:" + id
  }

  function Reference(id: CheckoutId): string {
    "SUB-" + id
  }

  lemma InvoiceKeyInjective(a: CheckoutId, b: CheckoutId)
    ensures InvoiceKey(a) == InvoiceKey(b) ==> a == b
  {
    if InvoiceKey(a) == InvoiceKey(b) {
      assert InvoiceKey(a)[|InvoiceKey("")|..] == a && InvoiceKey(b)[|InvoiceKey("")|..] == b;
    }
  }

  lemma ReferenceInjective(a: CheckoutId, b: CheckoutId)
    ensures Reference(a) == Reference(b) ==> a == b
  {
    if Reference(a) == Reference(b) {
      assert Reference(a)[4..] == a && Reference(b)[4..] == b;
    }
  }

  // ----- unique columns ------------------------------------------------------

  predicate CollectionTaken(t: Tables, id: CheckoutId, collection: string) {
    exists other :: other in t.checkouts && other != id && t.checkouts[other].collection == Some(collection)
  }

  ghost predicate HasKey(invoices: map<InvoiceId, Invoice>, i: InvoiceId, key: string) {
    i in invoices && invoices[i].key == key
  }

  ghost predicate KeyUsed(invoices: map<InvoiceId, Invoice>, key: string) {
    exists i :: HasKey(invoices, i, key)
  }

  predicate NumberUsed(invoices: map<InvoiceId, Invoice>, number: string) {
    exists i :: i in invoices && invoices[i].number == number
  }

  ghost predicate UniqueKeys(invoices: map<InvoiceId, Invoice>) {
    forall i, j :: i in invoices && j in invoices && invoices[i].key == invoices[j].key ==> i == j
  }

  ghost predicate UniqueCollections(t: Tables) {
    forall a, b ::
      (a in t.checkouts && b in t.checkouts && t.checkouts[a].collection.Some?
       && t.checkouts[a].collection == t.checkouts[b].collection) ==> a == b
  }

  // ----- guarded checkout updates --------------------------------------------

  function FailCheckout(t: Tables, id: CheckoutId, providerStatus: string, reason: string): Tables {
    if id in t.checkouts && t.checkouts[id].status.Pending?
    then
      var failed := t.checkouts[id].(status := Failed, providerStatus := providerStatus, failureReason := reason);
      t.(checkouts := t.checkouts[id := failed])
    else t
  }

  /** Err when the unique collection id belongs to another checkout. */
  function RecordCollection(t: Tables, id: CheckoutId, collection: string, providerStatus: string): Result<Tables, ()> {
    if id !in t.checkouts || !t.checkouts[id].status.Pending? then Ok(t)
    else if CollectionTaken(t, id, collection) then Err(())
    else
      var recorded := t.checkouts[id].(collection := Some(collection), providerStatus := providerStatus);
      Ok(t.(checkouts := t.checkouts[id := recorded]))
  }

  // ----- activation ----------------------------------------------------------

  datatype ActivateError = NotFound | NotPending | CheckoutExpired | UniqueViolation | DatabaseFault

  /** What the transaction is given: the provider's answer and the ids it would use for new rows. */
  datatype Activation = Activation(collection: string, providerStatus: string, completedAt: int,
                                   newSubscription: SubscriptionId, newInvoice: InvoiceId, number: string, fault: bool)

  function Upserted(t: Tables, c: Checkout, a: Activation): Subscription {
    var id := if c.vendor in t.subscriptions then t.subscriptions[c.vendor].id else a.newSubscription;
    Subscription(id, c.tier, Active, Monthly, a.completedAt, a.completedAt + MONTH, None, None, None, true)
  }

  function ActivationInvoice(id: CheckoutId, c: Checkout, sub: Subscription, a: Activation): Invoice {
    Invoice(sub.id, c.vendor, a.number, c.amount, c.currency, Paid, a.completedAt, a.completedAt + MONTH,
            Some(a.completedAt), a.collection, InvoiceKey(id))
  }

  function SucceededCheckout(c: Checkout, sub: SubscriptionId, invoice: InvoiceId, a: Activation): Checkout {
    c.(status := Successful, collection := Some(a.collection), providerStatus := a.providerStatus,
       subscription := Some(sub), invoice := Some(invoice), completedAt := Some(a.completedAt), failureReason := "")
  }

  ghost function Activate(t: Tables, id: CheckoutId, a: Activation): (Tables, Result<Checkout, ActivateError>) {
    if id !in t.checkouts then (t, Err(NotFound))
    else
      var c := t.checkouts[id];
      if c.status.Successful? then (t, Ok(c))
      else if !c.status.Pending? then (t, Err(NotPending))
      else if c.expiresAt <= a.completedAt then (t, Err(CheckoutExpired))
      else
        var sub := Upserted(t, c, a);
        var reuse := KeyUsed(t.invoices, InvoiceKey(id));
        var invoice := if reuse then (var i: InvoiceId :| HasKey(t.invoices, i, InvoiceKey(id)); i) else a.newInvoice;
        if (!reuse && NumberUsed(t.invoices, a.number)) || CollectionTaken(t, id, a.collection)
        then (t, Err(UniqueViolation))
        else if a.fault then (t, Err(DatabaseFault))
        else
          var done := SucceededCheckout(c, sub.id, invoice, a);
          (Tables(t.checkouts[id := done],
                  t.subscriptions[c.vendor := sub],
                  if reuse then t.invoices else t.invoices[invoice := ActivationInvoice(id, c, sub, a)]),
           Ok(done))
  }

  /** The checkout is pending and unexpired, and nothing the transaction writes is taken or refused. */
  ghost predicate ActivatesNow(t: Tables, id: CheckoutId, a: Activation) {
    && id in t.checkouts && t.checkouts[id].status == CheckoutStatus.Pending
    && a.completedAt < t.checkouts[id].expiresAt
    && ((exists i :: i in t.invoices && t.invoices[i].key == "subscription-checkout:" + id)
        || forall i :: i in t.invoices ==> t.invoices[i].number != a.number)
    && (forall other :: other in t.checkouts && other != id ==> t.checkouts[other].collection != Some(a.collection))
    && !a.fault
  }

  /** The call succeeds exactly then, or if the checkout has succeeded before; otherwise nothing is written. */
  lemma ActivationSucceedsExactly(t: Tables, id: CheckoutId, a: Activation)
    ensures var (after, result) := Activate(t, id, a);
            && (result.Ok? <==>
                  (id in t.checkouts && t.checkouts[id].status == CheckoutStatus.Successful) || ActivatesNow(t, id, a))
            && (!ActivatesNow(t, id, a) ==> after == t)
            && (id !in t.checkouts <==> result == Err(NotFound))
            && (result == Err(NotPending) <==>
                  id in t.checkouts && t.checkouts[id].status in {CheckoutStatus.Failed, CheckoutStatus.Expired})
            && (result == Err(CheckoutExpired) <==>
                  id in t.checkouts && t.checkouts[id].status == CheckoutStatus.Pending
                  && t.checkouts[id].expiresAt <= a.completedAt)
  {
    assert KeyUsed(t.invoices, InvoiceKey(id)) <==>
           exists i :: i in t.invoices && t.invoices[i].key == "subscription-checkout:" + id by {
      if i :| i in t.invoices && t.invoices[i].key == "subscription-checkout:" + id {
        assert HasKey(t.invoices, i, InvoiceKey(id));
      }
      if i :| HasKey(t.invoices, i, InvoiceKey(id)) {
        assert t.invoices[i].key == "subscription-checkout:" + id;
      }
    }
  }

  /**
   What an activation writes: the checkout succeeds with the payment's id and time;
   the vendor's record, old or new, is on the checkout's tier for thirty days from
   then, active and monthly, with trial and cancellation cleared; an invoice made
   now is paid, for the checkout's amount and that period.
   */
  lemma ActivationWrites(t: Tables, id: CheckoutId, a: Activation)
    requires ActivatesNow(t, id, a) && a.newInvoice !in t.invoices
    ensures var (after, result) := Activate(t, id, a);
            var c := t.checkouts[id];
            var end := a.completedAt + 30 * 24 * 3600 * 1_000_000_000;
            && after.checkouts.Keys == t.checkouts.Keys && after.subscriptions.Keys == t.subscriptions.Keys + {c.vendor}
            && var c', record := after.checkouts[id], after.subscriptions[c.vendor];
            && result == Ok(c')
            && (forall other :: other in t.checkouts && other != id ==> after.checkouts[other] == t.checkouts[other])
            && (forall v :: v in t.subscriptions && v != c.vendor ==> after.subscriptions[v] == t.subscriptions[v])
            && c'.invoice.Some?
            && c' == Checkout(c.vendor, c.tier, c.amount, c.currency, c.reference, CheckoutStatus.Successful,
                              Some(a.collection), a.providerStatus, Some(record.id), c'.invoice, c.createdAt,
                              c.expiresAt, Some(a.completedAt), "")
            && record == Subscription(record.id, c.tier, Active, Monthly, a.completedAt, end, None, None, None, true)
            && record.id == (if c.vendor in t.subscriptions then t.subscriptions[c.vendor].id else a.newSubscription)
            && if c'.invoice.value in t.invoices
               then after.invoices == t.invoices && t.invoices[c'.invoice.value].key == "subscription-checkout:" + id
               else after.invoices
                    == t.invoices[c'.invoice.value :=
                         Invoice(record.id, c.vendor, a.number, c.amount, c.currency, Paid, a.completedAt, end,
                                 Some(a.completedAt), a.collection, "subscription-checkout:" + id)]
  {
    ActivationSucceedsExactly(t, id, a);
  }

  // ----- subscriptions -------------------------------------------------------

  function CanTransition(current: SubscriptionStatus, next: SubscriptionStatus): bool {
    match current
    case Trial => next.Active? || next.Cancelled?
    case Active => next.PastDue? || next.Cancelled?
    case PastDue => next.Active? || next.Suspended? || next.Cancelled?
    case Suspended => next.Active? || next.Cancelled?
    case Cancelled => false
  }

  /** The unguarded UPDATE: cancelled_at is set on cancellation and otherwise kept. */
  function StatusWritten(s: Subscription, status: SubscriptionStatus, reason: string, now: int): Subscription {
    s.(status := status,
       cancelReason := if reason == "" then s.cancelReason else Some(reason),
       cancelledAt := if status.Cancelled? then Some(now) else s.cancelledAt)
  }

  function NewSubscription(id: SubscriptionId, tier: TierId, cycle: Cycle, trialDays: int, now: int): Subscription {
    var end := now + (if cycle.Annual? then YEAR else MONTH);
    if trialDays > 0
    then Subscription(id, tier, Trial, cycle, now, now + trialDays * DAY, Some(now + trialDays * DAY), None, None, true)
    else Subscription(id, tier, Active, cycle, now, end, None, None, None, true)
  }

  // ----- invoices ------------------------------------------------------------

  /** Ten percent off a year, rounded to the column's two decimals. */
  function InvoiceAmount(price: int, cycle: Cycle): int {
    if cycle.Annual? then (price * 108 + 5) / 10 else price
  }

  function GeneratedInvoice(vendor: VendorId, s: Subscription, price: int, number: string, key: string): Invoice {
    Invoice(s.id, vendor, number, InvoiceAmount(price, s.cycle), "ZMW", Open, s.periodStart, s.periodEnd, None, "", key)
  }

  function PaidInvoice(i: Invoice, reference: string, now: int): Invoice {
    i.(status := Paid, paidAt := Some(now), paymentReference := reference)
  }

  // ----- the repository ------------------------------------------------------

  class Repository {
    var checkouts: map<CheckoutId, Checkout>
    var subscriptions: map<VendorId, Subscription>
    var invoices: map<InvoiceId, Invoice>

    ghost function Contents(): Tables
      reads this
    {
      Tables(checkouts, subscriptions, invoices)
    }

    constructor ()
      ensures Contents() == Tables(map[], map[], map[])
    {
      checkouts, subscriptions, invoices := map[], map[], map[];
    }

    method RecordCheckoutCollection(id: CheckoutId, collection: string, providerStatus: string) returns (ok: bool)
      modifies this
      ensures var r := RecordCollection(old(Contents()), id, collection, providerStatus);
              ok == r.Ok? && Contents() == if r.Ok? then r.value else old(Contents())
      ensures subscriptions == old(subscriptions) && invoices == old(invoices)
      ensures ok <==> (id in old(checkouts) && old(checkouts)[id].status.Pending? ==>
                         forall other :: other in old(checkouts) && other != id ==>
                           old(checkouts)[other].collection != Some(collection))
      ensures if ok && id in old(checkouts) && old(checkouts)[id].status.Pending?
              then checkouts == old(checkouts)[id := old(checkouts)[id].(collection := Some(collection),
                                                                         providerStatus := providerStatus)]
              else checkouts == old(checkouts)
    {
      if id in checkouts && checkouts[id].status == Pending {
        if exists other :: other in checkouts && other != id && checkouts[other].collection == Some(collection) {
          return false;
        }
        checkouts := checkouts[id := checkouts[id].(collection := Some(collection), providerStatus := providerStatus)];
      }
      return true;
    }

    method MarkCheckoutFailed(id: CheckoutId, providerStatus: string, reason: string)
      modifies this`checkouts
      ensures Contents() == FailCheckout(old(Contents()), id, providerStatus, reason)
      ensures if id in old(checkouts) && old(checkouts)[id].status.Pending?
              then checkouts == old(checkouts)[id := old(checkouts)[id].(status := Failed,
                                                                         providerStatus := providerStatus,
                                                                         failureReason := reason)]
              else checkouts == old(checkouts)
    {
      if id in checkouts && checkouts[id].status == Pending {
        var failed := checkouts[id].(status := Failed, providerStatus := providerStatus, failureReason := reason);
        checkouts := checkouts[id := failed];
      }
    }

    /** All writes go to the transaction's copies; returning without commit rolls them back, the EXPIRED write too. */
    method ActivateCheckout(id: CheckoutId, a: Activation) returns (result: Result<Checkout, ActivateError>)
      requires UniqueKeys(invoices)
      modifies this
      ensures (Contents(), result) == Activate(old(Contents()), id, a)
    {
      if id !in checkouts {
        return Err(NotFound);
      }
      var tx := checkouts;
      var c := tx[id];
      if c.status == Successful {
        return Ok(c);
      }
      if c.status != Pending {
        return Err(NotPending);
      }
      if c.expiresAt <= a.completedAt {
        tx := tx[id := c.(status := Expired)];
        return Err(CheckoutExpired);
      }
      var subscription := a.newSubscription;
      if c.vendor in subscriptions {
        subscription := subscriptions[c.vendor].id;
      }
      var upserted := Subscription(subscription, c.tier, Active, Monthly, a.completedAt, a.completedAt + MONTH,
                                   None, None, None, true);
      var txInvoices := invoices;
      var invoice := a.newInvoice;
      if i :| i in invoices && invoices[i].key == InvoiceKey(id) {
        assert HasKey(invoices, i, InvoiceKey(id));
        invoice := i;
      } else {
        if exists i :: i in invoices && invoices[i].number == a.number {
          return Err(UniqueViolation);
        }
        txInvoices := txInvoices[invoice := ActivationInvoice(id, c, upserted, a)];
      }
      if exists other :: other in tx && other != id && tx[other].collection == Some(a.collection) {
        return Err(UniqueViolation);
      }
      if a.fault {
        return Err(DatabaseFault);
      }
      tx := tx[id := SucceededCheckout(c, subscription, invoice, a)];
      checkouts, subscriptions, invoices := tx, subscriptions[c.vendor := upserted], txInvoices;
      return Ok(tx[id]);
    }

    method UpdateSubscriptionStatus(vendor: VendorId, status: SubscriptionStatus, reason: string, now: int)
      modifies this`subscriptions
      ensures subscriptions ==
                if vendor in old(subscriptions)
                then old(subscriptions)[vendor := StatusWritten(old(subscriptions)[vendor], status, reason, now)]
                else old(subscriptions)
      ensures vendor in old(subscriptions) ==>
                && vendor in subscriptions
                && var before, after := old(subscriptions)[vendor], subscriptions[vendor];
                && after.status == status
                && after.cancelReason == (if reason != "" then Some(reason) else before.cancelReason)
                && after.cancelledAt == (if status == Cancelled then Some(now) else before.cancelledAt)
                && after.(status := before.status, cancelReason := before.cancelReason,
                          cancelledAt := before.cancelledAt) == before
    {
      if vendor in subscriptions {
        var s := subscriptions[vendor].(status := status);
        if reason != "" {
          s := s.(cancelReason := Some(reason));
        }
        if status == Cancelled {
          s := s.(cancelledAt := Some(now));
        }
        subscriptions := subscriptions[vendor := s];
      }
    }
  }
}
