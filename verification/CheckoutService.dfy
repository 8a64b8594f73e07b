/**
 The checkout operations as the service runs them for one caller, and their
 place in the protocol: an undisturbed verification is one of its runs.
 */
module CheckoutService {
  import opened Prelude
  import opened Text
  import opened BillingTables
  import opened CheckoutProtocol

  /** The provider's answer and the clock when it arrives. */
  datatype Reply = Reply(answer: Option<Collection>, elapsed: nat)

  /** Ids for rows an activation may insert. */
  datatype NewIds = NewIds(subscription: SubscriptionId, invoice: InvoiceId, number: string, fault: bool)

  datatype VerifyError = NotAccessible | HasExpired | Unanswered | Mismatch | Refused(error: ActivateError)

  ghost function Verified(t: Tables, vendor: VendorId, id: CheckoutId, now: int, reply: Reply, ids: NewIds)
    : (Tables, Result<Checkout, VerifyError>)
  {
    if id !in t.checkouts || t.checkouts[id].vendor != vendor then (t, Err(NotAccessible))
    else
      var c := t.checkouts[id];
      if !c.status.Pending? then (t, Ok(c))
      else if c.expiresAt <= now then
        (FailCheckout(t, id, "EXPIRED", "Checkout expired before payment could be verified"), Err(HasExpired))
      else if reply.answer.None? then (t, Err(Unanswered))
      else
        var p := reply.answer.value;
        if !Matches(p, c) then (t, Err(Mismatch))
        else if EqualFold(p.status, "successful") then
          var (after, result) := Activate(t, id,
              Activation(p.id, p.status, now + reply.elapsed, ids.subscription, ids.invoice, ids.number, ids.fault));
          (after, if result.Ok? then Ok(result.value) else Err(Refused(result.error)))
        else if EqualFold(p.status, "failed") then
          var after := FailCheckout(t, id, p.status, p.reason);
          (after, Ok(after.checkouts[id]))
        else (t, Ok(c))
  }

  /** The answer names this checkout: an id, its reference, its amount within half a minor unit, its currency. */
  ghost predicate AnswersFor(p: Collection, c: Checkout) {
    && p.id != "" && p.reference == c.reference
    && -0.005 <= p.amount - c.amount as real / 100.0 <= 0.005 && EqualFold(p.currency, c.currency)
  }

  /** A verification ends in exactly one of these ways. */
  lemma VerifiedMeans(t: Tables, vendor: VendorId, id: CheckoutId, now: int, reply: Reply, ids: NewIds)
    ensures var (after, result) := Verified(t, vendor, id, now, reply, ids);
            if id !in t.checkouts || t.checkouts[id].vendor != vendor then after == t && result == Err(NotAccessible)
            else
              var c := t.checkouts[id];
              var answered := reply.answer.Some? && AnswersFor(reply.answer.value, c);
              if c.status != CheckoutStatus.Pending then after == t && result == Ok(c)
              else if c.expiresAt <= now then
                && result == Err(HasExpired) && after.subscriptions == t.subscriptions && after.invoices == t.invoices
                && after.checkouts
                   == t.checkouts[id := c.(status := CheckoutStatus.Failed, providerStatus := "EXPIRED",
                                           failureReason := "Checkout expired before payment could be verified")]
              else if !answered then
                after == t && result == (if reply.answer.None? then Err(Unanswered) else Err(Mismatch))
              else
                var p := reply.answer.value;
                if EqualFold(p.status, "successful") then
                  var a := Activation(p.id, p.status, now + reply.elapsed, ids.subscription, ids.invoice, ids.number,
                                      ids.fault);
                  && (ActivatesNow(t, id, a) <==> result.Ok?) && (!ActivatesNow(t, id, a) ==> after == t)
                  && (ActivatesNow(t, id, a) ==>
                        id in after.checkouts && after.checkouts[id].status == CheckoutStatus.Successful
                        && result == Ok(after.checkouts[id]))
                else if EqualFold(p.status, "failed") then
                  && after.subscriptions == t.subscriptions && after.invoices == t.invoices
                  && after.checkouts
                     == t.checkouts[id := c.(status := CheckoutStatus.Failed, providerStatus := p.status,
                                             failureReason := p.reason)]
                  && result == Ok(after.checkouts[id])
                else after == t && result == Ok(c)
  {
    if reply.answer.Some? {
      var p := reply.answer.value;
      ActivationSucceedsExactly(t, id, Activation(p.id, p.status, now + reply.elapsed, ids.subscription, ids.invoice,
                                                  ids.number, ids.fault));
    }
  }

  /** Pending, unexpired, and for this vendor and tier. */
  predicate Live(c: Checkout, vendor: VendorId, t: TierId, now: int) {
    c.vendor == vendor && c.tier == t && c.status.Pending? && c.expiresAt > now
  }

  predicate HasLive(checkouts: map<CheckoutId, Checkout>, vendor: VendorId, t: TierId, now: int) {
    exists id :: id in checkouts && Live(checkouts[id], vendor, t, now)
  }

  /** A live checkout than which no live one was created later. */
  predicate Newest(checkouts: map<CheckoutId, Checkout>, id: CheckoutId, vendor: VendorId, t: TierId, now: int) {
    && id in checkouts && Live(checkouts[id], vendor, t, now)
    && forall other :: other in checkouts && Live(checkouts[other], vendor, t, now) ==>
         checkouts[other].createdAt <= checkouts[id].createdAt
  }

  lemma {:induction false} NewestExists(checkouts: map<CheckoutId, Checkout>, among: set<CheckoutId>, any: CheckoutId,
                                        vendor: VendorId, t: TierId, now: int)
    requires among <= checkouts.Keys && any in among && Live(checkouts[any], vendor, t, now)
    requires forall other :: other in checkouts && other !in among && Live(checkouts[other], vendor, t, now) ==>
               checkouts[other].createdAt <= checkouts[any].createdAt
    ensures exists id :: Newest(checkouts, id, vendor, t, now)
    decreases among
  {
    if later :| (&& later in among && Live(checkouts[later], vendor, t, now)
                 && checkouts[later].createdAt > checkouts[any].createdAt) {
      NewestExists(checkouts, among - {any}, later, vendor, t, now);
    } else {
      assert Newest(checkouts, any, vendor, t, now);
    }
  }

  class Service {
    const repository: Repository

    constructor (repository: Repository)
      ensures this.repository == repository
    {
      this.repository := repository;
    }

    method VerifySubscriptionCheckout(vendor: VendorId, id: CheckoutId, now: int, reply: Reply, ids: NewIds)
      returns (result: Result<Checkout, VerifyError>)
      requires UniqueKeys(repository.invoices)
      modifies repository
      ensures (repository.Contents(), result) == Verified(old(repository.Contents()), vendor, id, now, reply, ids)
    {
      if id !in repository.checkouts || repository.checkouts[id].vendor != vendor {
        return Err(NotAccessible);
      }
      var checkout := repository.checkouts[id];
      if checkout.status == Successful || checkout.status == CheckoutStatus.Failed || checkout.status == Expired {
        return Ok(checkout);
      }
      if checkout.expiresAt <= now {
        repository.MarkCheckoutFailed(id, "EXPIRED", "Checkout expired before payment could be verified");
        return Err(HasExpired);
      }
      if reply.answer.None? {
        return Err(Unanswered);
      }
      var collection := reply.answer.value;
      if !Matches(collection, checkout) {
        return Err(Mismatch);
      }
      if EqualFold(collection.status, "successful") {
        var r := repository.ActivateCheckout(id, Activation(collection.id, collection.status, now + reply.elapsed,
                                                            ids.subscription, ids.invoice, ids.number, ids.fault));
        return if r.Ok? then Ok(r.value) else Err(Refused(r.error));
      }
      if EqualFold(collection.status, "failed") {
        repository.MarkCheckoutFailed(id, collection.status, collection.reason);
        return Ok(repository.checkouts[id]);
      }
      return Ok(checkout);
    }

    /** The newest live checkout of the vendor for this tier is handed out again; its price stays the old one. */
    method CreateSubscriptionCheckout(vendor: VendorId, t: TierId, tiers: map<TierId, Tier>, id: CheckoutId,
                                      now: int, createdAt: int)
      returns (result: Result<CheckoutId, string>)
      requires id !in repository.checkouts
      modifies repository`checkouts
      ensures result.Ok? <==> t in tiers && tiers[t].available && tiers[t].price > 0
      ensures result.Err? ==> repository.checkouts == old(repository.checkouts)
      ensures result.Ok? ==>
                && result.value in repository.checkouts
                && Newest(repository.checkouts, result.value, vendor, t, now)
                && (if result.value in old(repository.checkouts)
                    then repository.checkouts == old(repository.checkouts)
                    else && (repository.checkouts ==
                               old(repository.checkouts)[id := NewCheckout(vendor, t, tiers[t], id, now, createdAt)])
                         && forall other :: other in old(repository.checkouts) ==>
                              !Live(old(repository.checkouts)[other], vendor, t, now))
      ensures result.Ok? ==>
                && var c := repository.checkouts[result.value];
                && c.vendor == vendor && c.tier == t && c.status == CheckoutStatus.Pending && now < c.expiresAt
                && (forall other :: other in old(repository.checkouts) ==>
                      var o := old(repository.checkouts)[other];
                      o.vendor == vendor && o.tier == t && o.status == CheckoutStatus.Pending && now < o.expiresAt ==>
                        result.value in old(repository.checkouts) && o.createdAt <= c.createdAt)
                && (result.value !in old(repository.checkouts) ==>
                      c == Checkout(vendor, t, tiers[t].price, "ZMW", "SUB-" + id, CheckoutStatus.Pending, None, "",
                                    None, None, createdAt, now + 30 * 60 * 1_000_000_000, None, ""))
    {
      if t !in tiers {
        return Err("subscription tier not found");
      }
      if !tiers[t].available || tiers[t].price <= 0 {
        return Err("subscription tier is not available for checkout");
      }
      if any :| any in repository.checkouts && Live(repository.checkouts[any], vendor, t, now) {
        NewestExists(repository.checkouts, repository.checkouts.Keys, any, vendor, t, now);
        var existing :| existing in repository.checkouts && Newest(repository.checkouts, existing, vendor, t, now);
        return Ok(existing);
      }
      repository.checkouts := repository.checkouts[id := NewCheckout(vendor, t, tiers[t], id, now, createdAt)];
      return Ok(id);
    }
  }

  /** Reading the row: the call ends, or goes on to query, or to give up an expired checkout. */
  lemma ReadIsARun(s: State, k: CallId, vendor: VendorId, id: CheckoutId) returns (steps: seq<Step>)
    requires k !in s.calls
    ensures ValidRun(s, steps) && k in Exec(s, steps).calls
    ensures var t := s.tables;
            var readable := id in t.checkouts && t.checkouts[id].vendor == vendor && t.checkouts[id].status.Pending?;
            var phase := if !readable then Finished
                         else if t.checkouts[id].expiresAt <= s.now
                         then Expiring(id, "Checkout expired before payment could be verified")
                         else Verifying(id, t.checkouts[id]);
            Exec(s, steps) == s.(calls := s.calls[k := phase])
  {
    steps := [BeginPoll(k, vendor, id)];
    assert ValidRun(s, []);
    Append(s, [], steps[0]);
    assert [] + steps == steps;
    if !Exec(s, steps).calls[k].Finished? {
      Append(s, steps, Read(k));
      steps := steps + [Read(k)];
    }
  }

  /** From the query on. */
  lemma QueryIsARun(s: State, steps: seq<Step>, k: CallId, id: CheckoutId, reply: Reply) returns (more: seq<Step>)
    requires ValidRun(s, steps) && k in Exec(s, steps).calls
    requires Known(Exec(s, steps), id) && Exec(s, steps).calls[k] == Verifying(id, Exec(s, steps).tables.checkouts[id])
    ensures ValidRun(s, more) && k in Exec(s, more).calls && Exec(s, more).tables == Exec(s, steps).tables
    ensures var mid := Exec(s, steps);
            Exec(s, more).calls[k] == Answered(id, mid.tables.checkouts[id], reply.answer, mid.now + reply.elapsed)
  {
    var mid := Exec(s, steps);
    Append(s, steps, Tick(mid.now + reply.elapsed));
    more := steps + [Tick(mid.now + reply.elapsed)];
    Append(s, more, Query(k, reply.answer));
    more := more + [Query(k, reply.answer)];
  }

  lemma WriteIsARun(s: State, steps: seq<Step>, k: CallId, ids: NewIds) returns (more: seq<Step>)
    requires ValidRun(s, steps) && k in Exec(s, steps).calls && ids.invoice !in Exec(s, steps).tables.invoices
    requires var phase := Exec(s, steps).calls[k]; phase.Expiring? || phase.Activating? || phase.Failing?
    ensures ValidRun(s, more)
    ensures var write := Write(k, ids.subscription, ids.invoice, ids.number, ids.fault);
            Exec(s, more).tables == Written(Exec(s, steps), Exec(s, steps).calls[k], write).0
  {
    var write := Write(k, ids.subscription, ids.invoice, ids.number, ids.fault);
    Append(s, steps, write);
    more := steps + [write];
  }

  /** The last step of a call whose query is answered, if it has one. */
  lemma AnswerIsARun(s: State, steps: seq<Step>, k: CallId, vendor: VendorId, id: CheckoutId, now: int, reply: Reply,
                     ids: NewIds)
    returns (more: seq<Step>)
    requires ValidRun(s, steps) && k in Exec(s, steps).calls && ids.invoice !in Exec(s, steps).tables.invoices
    requires var t := Exec(s, steps).tables;
             && id in t.checkouts && t.checkouts[id].vendor == vendor
             && t.checkouts[id].status.Pending? && t.checkouts[id].expiresAt > now
             && Exec(s, steps).calls[k] == Answered(id, t.checkouts[id], reply.answer, now + reply.elapsed)
    ensures ValidRun(s, more)
    ensures Exec(s, more).tables == Verified(Exec(s, steps).tables, vendor, id, now, reply, ids).0
  {
    hide Apply, Enabled, NextPhase;
    more := steps;
    if !Exec(s, steps).calls[k].Finished? {
      more := WriteIsARun(s, steps, k, ids);
    }
  }

  lemma VerificationIsARun(s: State, k: CallId, vendor: VendorId, id: CheckoutId, reply: Reply, ids: NewIds)
    returns (steps: seq<Step>)
    requires k !in s.calls && ids.invoice !in s.tables.invoices
    ensures ValidRun(s, steps)
    ensures Exec(s, steps).tables == Verified(s.tables, vendor, id, s.now, reply, ids).0
  {
    hide Apply, Enabled, NextPhase;
    steps := ReadIsARun(s, k, vendor, id);
    ghost var phase := Exec(s, steps).calls[k];
    if phase.Verifying? {
      steps := QueryIsARun(s, steps, k, id, reply);
      steps := AnswerIsARun(s, steps, k, vendor, id, s.now, reply, ids);
    } else if phase.Expiring? {
      steps := WriteIsARun(s, steps, k, ids);
    }
  }

  lemma ReusableIsLive(s: State, vendor: VendorId, t: TierId, now: int)
    ensures (exists other :: Reusable(s, other, vendor, t, now)) <==> HasLive(s.tables.checkouts, vendor, t, now)
  {
    if other :| Reusable(s, other, vendor, t, now) {
      assert Live(s.tables.checkouts[other], vendor, t, now);
    }
    if id :| id in s.tables.checkouts && Live(s.tables.checkouts[id], vendor, t, now) {
      assert Reusable(s, id, vendor, t, now);
    }
  }

  /** An undisturbed creation: read the tier, look for a reusable checkout, insert. */
  lemma CreationIsARun(s: State, k: CallId, vendor: VendorId, t: TierId, id: CheckoutId) returns (steps: seq<Step>)
    requires k !in s.calls && !Known(s, id)
    ensures ValidRun(s, steps)
    ensures var checkouts := s.tables.checkouts;
            var inserts := t in s.tiers && s.tiers[t].available && s.tiers[t].price > 0
              && !HasLive(checkouts, vendor, t, s.now);
            Exec(s, steps).tables ==
              if inserts
              then s.tables.(checkouts := checkouts[id := NewCheckout(vendor, t, s.tiers[t], id, s.now, s.now)])
              else s.tables
  {
    steps := [BeginCreate(k, vendor, t)];
    assert ValidRun(s, []);
    Append(s, [], steps[0]);
    assert [] + steps == steps;
    if Exec(s, steps).calls[k].Creating? {
      ReusableIsLive(Exec(s, steps), vendor, t, s.now);
      Append(s, steps, FindReusable(k));
      steps := steps + [FindReusable(k)];
      if Exec(s, steps).calls[k].Inserting? {
        Append(s, steps, FinishCreate(k, id));
        steps := steps + [FinishCreate(k, id)];
      }
    }
  }
}
