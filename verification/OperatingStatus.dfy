/**
 Whether a vendor may operate: compliance, subscription standing and grace
 periods.  A grace request reads the clock and the subscription first and runs
 its transaction later, on what it read.
 */
module OperatingStatus {
  import opened Prelude

  type VendorId = nat
  type GraceId = nat

  const DAY := 24 * 3600 * 1_000_000_000
  const GRACE := 5 * DAY

  datatype ComplianceStatus = Pending | Approved | Rejected

  datatype SubscriptionStatus = Trial | Active | PastDue | Suspended | Cancelled

  datatype Subscription = Subscription(status: SubscriptionStatus, periodEnd: int, trialEndsAt: Option<int>)

  datatype GraceStatus = InForce | Lapsed | Revoked

  datatype Grace = Grace(vendor: VendorId, subscriptionEnd: int, grantedAt: int, endsAt: int, status: GraceStatus)

  type Graces = map<GraceId, Grace>

  datatype BlockReason =
    CompliancePending | ComplianceRejected | SubscriptionDue | SubscriptionAbsent | SubscriptionEnded

  datatype Status = Status(operational: bool, reasons: seq<BlockReason>, graceEligible: bool, grace: Option<GraceId>)

  // ----- the gate ------------------------------------------------------------

  predicate IsCurrent(s: Subscription, now: int) {
    match s.status
    case Active => s.periodEnd > now
    case Trial => (if s.trialEndsAt.Some? then s.trialEndsAt.value else s.periodEnd) > now
    case _ => false
  }

  predicate Live(g: Grace, vendor: VendorId, now: int) {
    g.vendor == vendor && g.status.InForce? && g.endsAt > now
  }

  ghost predicate LiveAt(graces: Graces, id: GraceId, vendor: VendorId, now: int) {
    id in graces && Live(graces[id], vendor, now)
  }

  /** The partial unique index: one ACTIVE grace per vendor. */
  ghost predicate OneInForce(graces: Graces) {
    forall a, b :: (a in graces && b in graces && graces[a].vendor == graces[b].vendor
                    && graces[a].status.InForce? && graces[b].status.InForce?) ==> a == b
  }

  ghost predicate Covered(graces: Graces, vendor: VendorId, now: int) {
    exists id :: LiveAt(graces, id, vendor, now)
  }

  /** The record's own standing: an active period, or a trial, that ends after now. */
  ghost predicate Standing(s: Subscription, now: int) {
    || (s.status == Active && s.periodEnd > now)
    || (s.status == Trial && s.trialEndsAt.Some? && s.trialEndsAt.value > now)
    || (s.status == Trial && s.trialEndsAt.None? && s.periodEnd > now)
  }

  ghost predicate InGrace(graces: Graces, vendor: VendorId, now: int) {
    exists id :: id in graces && graces[id].vendor == vendor && graces[id].status == InForce && graces[id].endsAt > now
  }

  /** The rule in the rows' own terms: approved, with a record in standing or under a grace of this vendor. */
  ghost predicate Permitted(compliance: ComplianceStatus, subscription: Option<Subscription>, graces: Graces,
                            vendor: VendorId, now: int) {
    && compliance == Approved && subscription.Some?
    && (Standing(subscription.value, now) || InGrace(graces, vendor, now))
  }

  lemma GateMeans(graces: Graces, vendor: VendorId, now: int, s: Subscription)
    ensures InGrace(graces, vendor, now) <==> Covered(graces, vendor, now)
    ensures Standing(s, now) <==> IsCurrent(s, now)
  {
    if id :| id in graces && graces[id].vendor == vendor && graces[id].status == InForce && graces[id].endsAt > now {
      assert LiveAt(graces, id, vendor, now);
    }
    if id :| LiveAt(graces, id, vendor, now) {
      assert graces[id].vendor == vendor;
    }
  }

  method GetActiveGrace(graces: Graces, vendor: VendorId, now: int) returns (grace: Option<GraceId>)
    requires OneInForce(graces)
    ensures grace.Some? <==> Covered(graces, vendor, now)
    ensures grace.Some? ==> LiveAt(graces, grace.value, vendor, now)
    ensures forall id: GraceId :: LiveAt(graces, id, vendor, now) ==> grace == Some(id)
  {
    if id :| id in graces && Live(graces[id], vendor, now) {
      assert LiveAt(graces, id, vendor, now);
      return Some(id);
    }
    return None;
  }

  /** Operational, every reason, eligibility and the grace shown, each with its exact condition. */
  ghost predicate Describes(status: Status, compliance: ComplianceStatus, subscription: Option<Subscription>,
                            graces: Graces, vendor: VendorId, now: int)
  {
    && (status.operational <==> Permitted(compliance, subscription, graces, vendor, now))
    && (status.operational <==> status.reasons == [])
    && (CompliancePending in status.reasons <==> compliance == Pending)
    && (ComplianceRejected in status.reasons <==> compliance == Rejected)
    && (SubscriptionAbsent in status.reasons <==> subscription.None?)
    && (SubscriptionDue in status.reasons <==>
          subscription.Some? && subscription.value.status == PastDue && !InGrace(graces, vendor, now))
    && (SubscriptionEnded in status.reasons <==>
          subscription.Some? && subscription.value.status != PastDue && !Standing(subscription.value, now)
          && !InGrace(graces, vendor, now))
    && (status.graceEligible <==>
          && subscription.Some? && subscription.value.status == PastDue && !InGrace(graces, vendor, now)
          && subscription.value.periodEnd < now)
    && (status.grace.Some? <==> InGrace(graces, vendor, now))
    && (status.grace.Some? ==>
          && status.grace.value in graces
          && var g := graces[status.grace.value]; g.vendor == vendor && g.status == InForce && g.endsAt > now)
  }

  method GetStatusAt(compliance: ComplianceStatus, subscription: Option<Subscription>, graces: Graces,
                     vendor: VendorId, now: int)
    returns (status: Status)
    requires OneInForce(graces)
    ensures Describes(status, compliance, subscription, graces, vendor, now)
    ensures status.operational <==>
              && compliance == Approved && subscription.Some?
              && (|| (subscription.value.status == Active && subscription.value.periodEnd > now)
                  || (subscription.value.status == Trial && subscription.value.trialEndsAt.Some?
                      && subscription.value.trialEndsAt.value > now)
                  || (subscription.value.status == Trial && subscription.value.trialEndsAt.None?
                      && subscription.value.periodEnd > now)
                  || exists id :: (id in graces && graces[id].vendor == vendor && graces[id].status == InForce
                                   && graces[id].endsAt > now))
  {
    GateMeans(graces, vendor, now, if subscription.Some? then subscription.value else Subscription(Active, 0, None));
    var grace := GetActiveGrace(graces, vendor, now);
    status := Status(true, [], false, grace);
    match compliance {
      case Approved =>
      case Rejected =>
        status := status.(operational := false, reasons := status.reasons + [ComplianceRejected]);
      case Pending =>
        status := status.(operational := false, reasons := status.reasons + [CompliancePending]);
    }
    if subscription.None? {
      status := status.(operational := false, reasons := status.reasons + [SubscriptionAbsent]);
      return;
    }
    if !IsCurrent(subscription.value, now) {
      if grace.Some? && graces[grace.value].endsAt > now {
        status := status.(graceEligible := false);
        return;
      }
      status := status.(operational := false);
      if subscription.value.status == PastDue {
        status := status.(reasons := status.reasons + [SubscriptionDue],
            graceEligible := now > subscription.value.periodEnd);
      } else {
        status := status.(reasons := status.reasons + [SubscriptionEnded]);
      }
    }
  }

  // ----- the grant transaction -----------------------------------------------

  predicate Eligible(subscription: Option<Subscription>, now: int) {
    subscription.Some? && subscription.value.status.PastDue? && now > subscription.value.periodEnd
  }

  function LapsedRow(g: Grace, vendor: VendorId, now: int): Grace {
    if g.vendor == vendor && g.status.InForce? && g.endsAt <= now then g.(status := Lapsed) else g
  }

  function Lapse(graces: Graces, vendor: VendorId, now: int): Graces {
    map id | id in graces :: LapsedRow(graces[id], vendor, now)
  }

  ghost predicate ForPeriod(graces: Graces, id: GraceId, vendor: VendorId, end: int) {
    id in graces && graces[id].vendor == vendor && graces[id].subscriptionEnd == end
  }

  ghost predicate PeriodUsed(graces: Graces, vendor: VendorId, end: int) {
    exists id :: ForPeriod(graces, id, vendor, end)
  }

  predicate HasInForce(graces: Graces, vendor: VendorId) {
    exists id :: id in graces && graces[id].vendor == vendor && graces[id].status.InForce?
  }

  ghost predicate OnePerPeriod(graces: Graces) {
    forall a, b :: (a in graces && b in graces && graces[a].vendor == graces[b].vendor
                    && graces[a].subscriptionEnd == graces[b].subscriptionEnd) ==> a == b
  }

  /** NotGranted carries the grace the period already has, if any. */
  datatype GrantResult = Granted(id: GraceId) | NotGranted(existing: Option<GraceId>) | UniqueViolation

  function NewGrace(vendor: VendorId, end: int, now: int): Grace {
    Grace(vendor, end, now, now + GRACE, InForce)
  }

  ghost function Grant(graces: Graces, vendor: VendorId, subscription: Option<Subscription>, now: int,
                       id: GraceId): (Graces, GrantResult) {
    if !Eligible(subscription, now) then (graces, NotGranted(None))
    else
      var end := subscription.value.periodEnd;
      var lapsed := Lapse(graces, vendor, now);
      if PeriodUsed(graces, vendor, end) then
        var existing :| ForPeriod(graces, existing, vendor, end);
        (lapsed, NotGranted(Some(existing)))
      else if HasInForce(lapsed, vendor) then (graces, UniqueViolation)
      else (lapsed[id := NewGrace(vendor, end, now)], Granted(id))
  }

  /** A grace of the vendor that still runs stands in the way of another. */
  ghost predicate Grantable(graces: Graces, vendor: VendorId, subscription: Option<Subscription>, now: int) {
    && subscription.Some? && subscription.value.status == PastDue && subscription.value.periodEnd < now
    && forall id :: id in graces && graces[id].vendor == vendor ==>
         && graces[id].subscriptionEnd != subscription.value.periodEnd
         && (graces[id].status == InForce ==> graces[id].endsAt <= now)
  }

  /**
   A grace is granted exactly to an overdue vendor whose period has had none and
   that has none running; it runs for five days.  Of the other rows, only graces of
   this vendor that have ended are touched, and they lapse.
   */
  lemma GrantExactly(graces: Graces, vendor: VendorId, subscription: Option<Subscription>, now: int, id: GraceId)
    requires id !in graces
    ensures var (after, result) := Grant(graces, vendor, subscription, now, id);
            && (result == Granted(id) <==> Grantable(graces, vendor, subscription, now))
            && (result == Granted(id) <==> id in after)
            && (id in after ==>
                  && subscription.Some?
                  && after[id] == Grace(vendor, subscription.value.periodEnd, now,
                                        now + 5 * 24 * 3600 * 1_000_000_000, InForce))
            && after.Keys - {id} == graces.Keys
            && (forall other :: other in graces ==>
                  if result != UniqueViolation && subscription.Some? && subscription.value.status == PastDue
                     && subscription.value.periodEnd < now && graces[other].vendor == vendor
                     && graces[other].status == InForce && graces[other].endsAt <= now
                  then after[other] == graces[other].(status := Lapsed)
                  else after[other] == graces[other])
  {
    var (after, result) := Grant(graces, vendor, subscription, now, id);
    if Eligible(subscription, now) {
      var end := subscription.value.periodEnd;
      if i :| i in graces && graces[i].vendor == vendor && graces[i].subscriptionEnd == end {
        assert ForPeriod(graces, i, vendor, end);
      }
      if i :| ForPeriod(graces, i, vendor, end) {
        assert graces[i].vendor == vendor;
      }
      if i :| i in graces && graces[i].vendor == vendor && graces[i].status == InForce && graces[i].endsAt > now {
        assert Lapse(graces, vendor, now)[i] == graces[i];
        assert HasInForce(Lapse(graces, vendor, now), vendor);
      }
    }
  }

  class Repository {
    var graces: Graces

    constructor ()
      ensures graces == map[]
    {
      graces := map[];
    }

    /** A unique violation on the insert rolls the lapsed rows back too. */
    method CreateGraceIfEligible(vendor: VendorId, subscription: Option<Subscription>, now: int, id: GraceId)
      returns (result: GrantResult)
      requires OnePerPeriod(graces) && id !in graces
      modifies this
      ensures (graces, result) == Grant(old(graces), vendor, subscription, now, id)
    {
      if subscription.None? || subscription.value.status != PastDue || now <= subscription.value.periodEnd {
        return NotGranted(None);
      }
      var end := subscription.value.periodEnd;
      var tx := Lapse(graces, vendor, now);
      if existing :| existing in tx && tx[existing].vendor == vendor && tx[existing].subscriptionEnd == end {
        assert ForPeriod(graces, existing, vendor, end);
        graces := tx;
        return NotGranted(Some(existing));
      }
      assert forall i: GraceId :: ForPeriod(graces, i, vendor, end) ==>
          i in tx && tx[i].vendor == vendor && tx[i].subscriptionEnd == end;
      if exists i :: i in tx && tx[i].vendor == vendor && tx[i].status == InForce {
        return UniqueViolation;
      }
      graces := tx[id := NewGrace(vendor, end, now)];
      return Granted(id);
    }
  }

  class Service {
    const repository: Repository
    var compliance: map<VendorId, ComplianceStatus>
    var subscriptions: map<VendorId, Subscription>

    constructor (repository: Repository, compliance: map<VendorId, ComplianceStatus>,
                 subscriptions: map<VendorId, Subscription>)
      ensures this.repository == repository && this.compliance == compliance && this.subscriptions == subscriptions
    {
      this.repository := repository;
      this.compliance := compliance;
      this.subscriptions := subscriptions;
    }

    method GetStatus(vendor: VendorId, now: int) returns (status: Status)
      requires OneInForce(repository.graces)
      ensures var c := if vendor in compliance then compliance[vendor] else Pending;
              var s := if vendor in subscriptions then Some(subscriptions[vendor]) else None;
              Describes(status, c, s, repository.graces, vendor, now)
    {
      var c := if vendor in compliance then compliance[vendor] else Pending;
      var s := if vendor in subscriptions then Some(subscriptions[vendor]) else None;
      status := GetStatusAt(c, s, repository.graces, vendor, now);
    }

    /** A granted request reports the vendor operational exactly if it is approved. */
    method RequestGrace(vendor: VendorId, now: int, id: GraceId) returns (status: Status, granted: bool, failed: bool)
      requires OneInForce(repository.graces) && OnePerPeriod(repository.graces) && id !in repository.graces
      modifies repository
      ensures var s := if vendor in subscriptions then Some(subscriptions[vendor]) else None;
              var (graces, result) := Grant(old(repository.graces), vendor, s, now, id);
              && repository.graces == graces && granted == result.Granted? && failed == result.UniqueViolation?
      ensures OneInForce(repository.graces) && OnePerPeriod(repository.graces)
      ensures granted ==> (status.operational <==> vendor in compliance && compliance[vendor].Approved?)
      ensures granted <==> vendor in subscriptions
                           && Grantable(old(repository.graces), vendor, Some(subscriptions[vendor]), now)
    {
      status := GetStatus(vendor, now);
      var s := if vendor in subscriptions then Some(subscriptions[vendor]) else None;
      GrantKeepsInv(repository.graces, vendor, s, now, id);
      GrantExactly(repository.graces, vendor, s, now, id);
      var result := repository.CreateGraceIfEligible(vendor, s, now, id);
      granted, failed := result.Granted?, result.UniqueViolation?;
      if failed {
        return;
      }
      if result.NotGranted? && result.existing.Some? {
        status := status.(grace := result.existing);
      }
      if granted {
        assert LiveAt(repository.graces, id, vendor, now);
        status := GetStatus(vendor, now);
      }
    }

    /** Only an existing review can be decided, only to APPROVED or REJECTED, and a rejection needs a reason. */
    method DecideCompliance(vendor: VendorId, status: ComplianceStatus, reason: string) returns (ok: bool)
      modifies this`compliance
      ensures ok <==> !status.Pending? && (status.Rejected? ==> reason != "") && vendor in old(compliance)
      ensures compliance == if ok then old(compliance)[vendor := status] else old(compliance)
    {
      if status == Pending || (status == Rejected && reason == "") || vendor !in compliance {
        return false;
      }
      compliance := compliance[vendor := status];
      return true;
    }
  }

  // ----- the system ----------------------------------------------------------

  datatype Request = Request(vendor: VendorId, subscription: Option<Subscription>, at: int)

  datatype State = State(
    now: int,
    compliance: map<VendorId, ComplianceStatus>,
    subscriptions: map<VendorId, Subscription>,
    graces: Graces,
    requests: map<nat, Request>)

  datatype Step =
    | Tick(to: int)
    | Decide(vendor: VendorId, status: ComplianceStatus)
    | Bill(vendor: VendorId, subscription: Subscription)     // billing writes the record
    | BeginGrace(k: nat, vendor: VendorId)
    | CommitGrace(k: nat, id: GraceId)

  predicate Enabled(s: State, step: Step) {
    match step
    case Tick(to) => s.now <= to
    case Decide(_, status) => !status.Pending?
    case Bill(_, _) => true
    case BeginGrace(k, _) => k !in s.requests
    case CommitGrace(k, id) => k in s.requests && id !in s.graces
  }

  function Subscribed(s: State, vendor: VendorId): Option<Subscription> {
    if vendor in s.subscriptions then Some(s.subscriptions[vendor]) else None
  }

  /** A vendor without a review row counts as pending. */
  function ComplianceOf(s: State, vendor: VendorId): ComplianceStatus {
    if vendor in s.compliance then s.compliance[vendor] else Pending
  }

  ghost function Outcome(s: State, step: Step): (Graces, GrantResult)
    requires step.CommitGrace? && Enabled(s, step)
  {
    var r := s.requests[step.k];
    Grant(s.graces, r.vendor, r.subscription, r.at, step.id)
  }

  ghost function Apply(s: State, step: Step): State
    requires Enabled(s, step)
  {
    match step
    case Tick(to) => s.(now := to)
    case Decide(vendor, status) =>
      if vendor in s.compliance then s.(compliance := s.compliance[vendor := status]) else s
    case Bill(vendor, subscription) => s.(subscriptions := s.subscriptions[vendor := subscription])
    case BeginGrace(k, vendor) => s.(requests := s.requests[k := Request(vendor, Subscribed(s, vendor), s.now)])
    case CommitGrace(k, _) => s.(graces := Outcome(s, step).0, requests := s.requests - {k})
  }

  ghost predicate ValidRun(s: State, steps: seq<Step>)
    decreases |steps|, 0
  {
    steps == [] ||
    (ValidRun(s, steps[..|steps| - 1]) && Enabled(Exec(s, steps[..|steps| - 1]), steps[|steps| - 1]))
  }

  ghost function Exec(s: State, steps: seq<Step>): State
    requires ValidRun(s, steps)
    decreases |steps|, 1
  {
    if steps == [] then s else Apply(Exec(s, steps[..|steps| - 1]), steps[|steps| - 1])
  }

  function Init(now: int, compliance: map<VendorId, ComplianceStatus>): State {
    State(now, compliance, map[], map[], map[])
  }

  /** Time, billing and decisions may come at any moment; a decision changes an existing review only. */
  lemma StepsAreFree(s: State, vendor: VendorId, status: ComplianceStatus, subscription: Subscription, to: int)
    ensures s.now <= to ==> Enabled(s, Tick(to)) && Apply(s, Tick(to)) == s.(now := to)
    ensures Enabled(s, Bill(vendor, subscription))
    ensures Apply(s, Bill(vendor, subscription)) == s.(subscriptions := s.subscriptions[vendor := subscription])
    ensures status in {Approved, Rejected} ==>
              && Enabled(s, Decide(vendor, status))
              && Apply(s, Decide(vendor, status))
                 == if vendor in s.compliance then s.(compliance := s.compliance[vendor := status]) else s
  {
  }

  lemma Append(s: State, steps: seq<Step>, step: Step)
    requires ValidRun(s, steps) && Enabled(Exec(s, steps), step)
    ensures ValidRun(s, steps + [step]) && Exec(s, steps + [step]) == Apply(Exec(s, steps), step)
  {
    assert (steps + [step])[..|steps + [step]| - 1] == steps;
  }

  /** A request that nobody interrupts is a run: read, then the transaction on what was read. */
  lemma RequestIsARun(s: State, k: nat, vendor: VendorId, id: GraceId) returns (steps: seq<Step>)
    requires k !in s.requests && id !in s.graces
    ensures ValidRun(s, steps)
    ensures var record := if vendor in s.subscriptions then Some(s.subscriptions[vendor]) else None;
            Exec(s, steps) == s.(graces := Grant(s.graces, vendor, record, s.now, id).0)
  {
    hide Grant;
    steps := [];
    Append(s, steps, BeginGrace(k, vendor));
    steps := steps + [BeginGrace(k, vendor)];
    assert Exec(s, steps).requests[k] == Request(vendor, Subscribed(s, vendor), s.now);
    assert Exec(s, steps).requests - {k} == s.requests;
    Append(s, steps, CommitGrace(k, id));
    steps := steps + [CommitGrace(k, id)];
  }

  // ----- invariant -----------------------------------------------------------

  ghost predicate Inv(s: State) {
    && OneInForce(s.graces) && OnePerPeriod(s.graces)
    && (forall id :: id in s.graces ==>
          var g := s.graces[id];
          g.endsAt == g.grantedAt + GRACE && g.subscriptionEnd < g.grantedAt <= s.now && !g.status.Revoked?)
    && (forall k :: k in s.requests ==> s.requests[k].at <= s.now)
  }

  lemma GrantKeepsInv(graces: Graces, vendor: VendorId, subscription: Option<Subscription>, now: int, id: GraceId)
    requires OneInForce(graces) && OnePerPeriod(graces) && id !in graces
    ensures OneInForce(Grant(graces, vendor, subscription, now, id).0)
    ensures OnePerPeriod(Grant(graces, vendor, subscription, now, id).0)
  {
    var (after, result) := Grant(graces, vendor, subscription, now, id);
    if result.Granted? {
      forall other | other in graces && graces[other].vendor == vendor
        ensures graces[other].subscriptionEnd != subscription.value.periodEnd
      {
        assert !ForPeriod(graces, other, vendor, subscription.value.periodEnd);
      }
    }
  }

  lemma StepKeepsInv(s: State, step: Step)
    requires Inv(s) && Enabled(s, step)
    ensures Inv(Apply(s, step))
  {
    if step.CommitGrace? {
      var r := s.requests[step.k];
      GrantKeepsInv(s.graces, r.vendor, r.subscription, r.at, step.id);
    }
  }

  lemma {:induction false} RunKeepsInv(s: State, steps: seq<Step>)
    requires Inv(s) && ValidRun(s, steps)
    ensures Inv(Exec(s, steps))
    decreases |steps|
  {
    if steps != [] {
      RunKeepsInv(s, steps[..|steps| - 1]);
      StepKeepsInv(Exec(s, steps[..|steps| - 1]), steps[|steps| - 1]);
    }
  }

  // ----- main results --------------------------------------------------------

  /** Number of requests of the run that were granted for this vendor and period end. */
  ghost function GrantsIn(s: State, steps: seq<Step>, vendor: VendorId, end: int): nat
    requires ValidRun(s, steps)
    decreases |steps|
  {
    if steps == [] then 0
    else
      var before := Exec(s, steps[..|steps| - 1]);
      var step := steps[|steps| - 1];
      GrantsIn(s, steps[..|steps| - 1], vendor, end)
      + (if step.CommitGrace? && Outcome(before, step).1.Granted? && before.requests[step.k].vendor == vendor
            && before.requests[step.k].subscription.value.periodEnd == end then 1 else 0)
  }

  lemma GrantUsesPeriod(graces: Graces, r: Request, id: GraceId, vendor: VendorId, end: int)
    requires id !in graces
    ensures var (after, result) := Grant(graces, r.vendor, r.subscription, r.at, id);
            PeriodUsed(after, vendor, end) <==>
              || PeriodUsed(graces, vendor, end)
              || (result.Granted? && r.vendor == vendor && r.subscription.value.periodEnd == end)
  {
    var (after, result) := Grant(graces, r.vendor, r.subscription, r.at, id);
    if PeriodUsed(graces, vendor, end) {
      var earlier :| ForPeriod(graces, earlier, vendor, end);
      assert ForPeriod(after, earlier, vendor, end);
    }
    if PeriodUsed(after, vendor, end) {
      var other :| ForPeriod(after, other, vendor, end);
      assert other in graces ==> ForPeriod(graces, other, vendor, end);
    }
    if result.Granted? {
      assert ForPeriod(after, id, r.vendor, r.subscription.value.periodEnd);
    }
  }

  lemma StepUsesPeriod(s: State, step: Step, vendor: VendorId, end: int)
    requires Inv(s) && Enabled(s, step)
    ensures PeriodUsed(Apply(s, step).graces, vendor, end) <==>
              || PeriodUsed(s.graces, vendor, end)
              || (step.CommitGrace? && Outcome(s, step).1.Granted? && s.requests[step.k].vendor == vendor
                  && s.requests[step.k].subscription.value.periodEnd == end)
  {
    if step.CommitGrace? {
      GrantUsesPeriod(s.graces, s.requests[step.k], step.id, vendor, end);
    }
  }

  /** Each vendor gets at most one grace per overdue period end, and has at most one in force. */
  lemma {:induction false} OneGracePerPeriod(now: int, compliance: map<VendorId, ComplianceStatus>, steps: seq<Step>,
                                             vendor: VendorId, end: int)
    requires ValidRun(Init(now, compliance), steps)
    ensures GrantsIn(Init(now, compliance), steps, vendor, end)
              == if PeriodUsed(Exec(Init(now, compliance), steps).graces, vendor, end) then 1 else 0
    ensures OneInForce(Exec(Init(now, compliance), steps).graces)
    decreases |steps|
  {
    RunKeepsInv(Init(now, compliance), steps);
    if steps != [] {
      var before := steps[..|steps| - 1];
      OneGracePerPeriod(now, compliance, before, vendor, end);
      RunKeepsInv(Init(now, compliance), before);
      StepUsesPeriod(Exec(Init(now, compliance), before), steps[|steps| - 1], vendor, end);
    }
  }

  lemma StepKeepsLiveGrace(s: State, step: Step, id: GraceId)
    requires Inv(s) && Enabled(s, step) && id in s.graces && s.graces[id].status.InForce?
    requires s.now < s.graces[id].endsAt
    ensures id in Apply(s, step).graces && Apply(s, step).graces[id] == s.graces[id]
  {
  }

  /** The clock never goes back, so a grace in force lasts until its end whatever happens. */
  lemma {:induction false} GraceLastsToItsEnd(s: State, steps: seq<Step>, id: GraceId)
    requires Inv(s) && ValidRun(s, steps) && id in s.graces && s.graces[id].status.InForce?
    requires Exec(s, steps).now < s.graces[id].endsAt
    ensures id in Exec(s, steps).graces && Exec(s, steps).graces[id] == s.graces[id]
    decreases |steps|
  {
    if steps != [] {
      var before := steps[..|steps| - 1];
      assert Exec(s, before).now <= Exec(s, steps).now;
      GraceLastsToItsEnd(s, before, id);
      RunKeepsInv(s, before);
      StepKeepsLiveGrace(Exec(s, before), steps[|steps| - 1], id);
    }
  }

  /**
   A granted request opens the gate of an approved vendor at once and keeps it
   open for five days: at every later state before the end, the vendor may
   operate exactly if it is approved and still has a subscription record.
   */
  lemma GrantOpensTheGate(now: int, compliance: map<VendorId, ComplianceStatus>, steps: seq<Step>, step: Step,
                          later: seq<Step>)
    requires ValidRun(Init(now, compliance), steps) && Enabled(Exec(Init(now, compliance), steps), step)
    requires step.CommitGrace? && Outcome(Exec(Init(now, compliance), steps), step).1.Granted?
    requires ValidRun(Apply(Exec(Init(now, compliance), steps), step), later)
    ensures var request := Exec(Init(now, compliance), steps).requests[step.k];
            var s := Exec(Apply(Exec(Init(now, compliance), steps), step), later);
            && Permitted(Approved, request.subscription, Apply(Exec(Init(now, compliance), steps), step).graces,
                         request.vendor, request.at)
            && (s.now < request.at + 5 * 24 * 3600 * 1_000_000_000 ==>
                  (Permitted(ComplianceOf(s, request.vendor), Subscribed(s, request.vendor), s.graces,
                             request.vendor, s.now)
                   <==> ComplianceOf(s, request.vendor).Approved? && Subscribed(s, request.vendor).Some?))
  {
    var before := Exec(Init(now, compliance), steps);
    var request := before.requests[step.k];
    var after := Apply(before, step);
    RunKeepsInv(Init(now, compliance), steps);
    StepKeepsInv(before, step);
    assert LiveAt(after.graces, step.id, request.vendor, request.at);
    var s := Exec(after, later);
    if s.now < request.at + GRACE {
      GraceLastsToItsEnd(after, later, step.id);
      assert LiveAt(s.graces, step.id, request.vendor, s.now);
    }
  }

  // ----- when access ends ----------------------------------------------------

  /** Billing writes the record of another vendor, if any. */
  predicate NoBill(step: Step, vendor: VendorId) {
    step.Bill? ==> step.vendor != vendor
  }

  /** The record that a run without billing of this vendor leaves alone. */
  lemma {:induction false} RecordStays(s: State, steps: seq<Step>, vendor: VendorId)
    requires ValidRun(s, steps) && forall i :: 0 <= i < |steps| ==> NoBill(steps[i], vendor)
    ensures Subscribed(Exec(s, steps), vendor) == Subscribed(s, vendor)
    ensures s.now <= Exec(s, steps).now
    decreases |steps|
  {
    if steps != [] {
      assert NoBill(steps[|steps| - 1], vendor);
      RecordStays(s, steps[..|steps| - 1], vendor);
    }
  }

  /**
   Until billing writes the record again, a vendor whose period or trial has ended
   by the clock, and who has no grace running, is not operational, whatever else
   happens; and a vendor whose period or trial has not ended is, once approved.
   */
  lemma LapsedVendorsAreClosed(s: State, steps: seq<Step>, vendor: VendorId, status: Status)
    requires ValidRun(s, steps) && forall i :: 0 <= i < |steps| ==> NoBill(steps[i], vendor)
    requires vendor in s.subscriptions
    requires var t := Exec(s, steps);
             Describes(status, ComplianceOf(t, vendor), Subscribed(t, vendor), t.graces, vendor, t.now)
    ensures var t, record := Exec(s, steps), s.subscriptions[vendor];
            var covered := exists id :: (id in t.graces && t.graces[id].vendor == vendor
                                         && t.graces[id].status == InForce && t.now < t.graces[id].endsAt);
            && (record.status == Active ==>
                  (status.operational <==>
                     && vendor in t.compliance && t.compliance[vendor] == Approved
                     && (t.now < record.periodEnd || covered)))
            && (record.status == Trial ==>
                  var end := if record.trialEndsAt.Some? then record.trialEndsAt.value else record.periodEnd;
                  (status.operational <==>
                     vendor in t.compliance && t.compliance[vendor] == Approved && (t.now < end || covered)))
            && (record.status in {PastDue, Suspended, Cancelled} ==>
                  (status.operational <==>
                     vendor in t.compliance && t.compliance[vendor] == Approved && covered))
  {
    RecordStays(s, steps, vendor);
  }

  /** The vendor has no grace in force and no request under way, and its record is not overdue. */
  ghost predicate NoGraceComing(s: State, vendor: VendorId) {
    && (forall id :: id in s.graces && s.graces[id].vendor == vendor ==> s.graces[id].status != InForce)
    && (forall k :: k in s.requests && s.requests[k].vendor == vendor ==>
          s.requests[k].subscription.None? || s.requests[k].subscription.value.status != PastDue)
  }

  lemma StepBringsNoGrace(s: State, step: Step, vendor: VendorId)
    requires Enabled(s, step) && NoGraceComing(s, vendor)
    requires Subscribed(s, vendor).None? || Subscribed(s, vendor).value.status != PastDue
    ensures NoGraceComing(Apply(s, step), vendor)
  {
    if step.CommitGrace? {
      var r := s.requests[step.k];
      GrantExactly(s.graces, r.vendor, r.subscription, r.at, step.id);
    }
  }

  lemma {:induction false} NoGraceComes(s: State, steps: seq<Step>, vendor: VendorId)
    requires ValidRun(s, steps) && forall i :: 0 <= i < |steps| ==> NoBill(steps[i], vendor)
    requires NoGraceComing(s, vendor) && (Subscribed(s, vendor).None? || Subscribed(s, vendor).value.status != PastDue)
    ensures NoGraceComing(Exec(s, steps), vendor)
    decreases |steps|
  {
    if steps != [] {
      var before := steps[..|steps| - 1];
      NoGraceComes(s, before, vendor);
      RecordStays(s, before, vendor);
      StepBringsNoGrace(Exec(s, before), steps[|steps| - 1], vendor);
    }
  }

  /**
   An active vendor with no grace under way operates until the period's last
   instant and not from its end on: asking for a grace does not help until billing
   marks the record overdue.
   */
  lemma AccessEndsWithThePeriod(s: State, steps: seq<Step>, vendor: VendorId, status: Status)
    requires ValidRun(s, steps) && forall i :: 0 <= i < |steps| ==> NoBill(steps[i], vendor)
    requires vendor in s.subscriptions && s.subscriptions[vendor].status == Active && NoGraceComing(s, vendor)
    requires var t := Exec(s, steps);
             Describes(status, ComplianceOf(t, vendor), Subscribed(t, vendor), t.graces, vendor, t.now)
    ensures var t := Exec(s, steps);
            status.operational <==>
              && vendor in t.compliance && t.compliance[vendor] == Approved
              && t.now < s.subscriptions[vendor].periodEnd
  {
    NoGraceComes(s, steps, vendor);
    LapsedVendorsAreClosed(s, steps, vendor, status);
  }
}
