/**
 Accepting vendor policies.  A request must name exactly the published policies
 by slug and version; what it names is then recorded as consents and events.
 The published list is an input of each call: policies are published elsewhere,
 and a list may be outdated by the time the consents are written.
 */
module PolicyConsent {
  import opened Prelude

  type PolicyId = nat
  type UserId = nat
  type VendorId = nat

  datatype Policy = Policy(id: PolicyId, slug: string, version: string)

  datatype Acceptance = Acceptance(slug: string, version: string)

  datatype Key = Key(user: UserId, policy: PolicyId)

  datatype Consent = Consent(vendor: Option<VendorId>, version: string, acceptedAt: int, withdrawn: bool)

  type Consents = map<Key, Consent>

  datatype Event = Accepted(key: Key, at: int) | AttachedToVendor(key: Key, at: int)

  datatype Error = Unavailable | Incomplete | Invalid | NotStored

  datatype Status = Status(required: seq<Policy>, acceptedSlugs: seq<string>, acceptanceRequired: bool)

  function Label(p: Policy): Acceptance {
    Acceptance(p.slug, p.version)
  }

  function Labels(published: seq<Policy>): seq<Acceptance> {
    seq(|published|, i requires 0 <= i < |published| => Label(published[i]))
  }

  // ----- which requests are accepted -----------------------------------------

  ghost predicate DistinctSlugs(labels: seq<Acceptance>) {
    forall i, j :: 0 <= i < j < |labels| ==> labels[i].slug != labels[j].slug
  }

  ghost predicate NoBlanks(labels: seq<Acceptance>) {
    forall i :: 0 <= i < |labels| ==> labels[i].slug != "" && labels[i].version != ""
  }

  /** The request names the published policies, each once, in any order. */
  ghost predicate Exact(requested: seq<Acceptance>, published: seq<Policy>) {
    published != [] && multiset(requested) == multiset(Labels(published))
  }

  ghost predicate WellFormed(requested: seq<Acceptance>) {
    NoBlanks(requested) && DistinctSlugs(requested)
  }

  /** The version received under a slug is the wanted one; a slug not received counts as the version "". */
  ghost predicate Matches(requested: seq<Acceptance>, p: Policy) {
    && (forall i :: 0 <= i < |requested| && requested[i].slug == p.slug ==> requested[i].version == p.version)
    && (p.version == "" || Label(p) in requested)
  }

  /** The checks of a request, as they are made. */
  ghost predicate Passes(requested: seq<Acceptance>, published: seq<Policy>) {
    && |requested| == |published| != 0
    && WellFormed(requested)
    && (forall i :: 0 <= i < |published| ==> Matches(requested, published[i]))
  }

  ghost predicate ReceivedUpTo(received: map<string, string>, requested: seq<Acceptance>, n: nat)
    requires n <= |requested|
  {
    && (forall i :: 0 <= i < n ==> requested[i].slug in received && received[requested[i].slug] == requested[i].version)
    && (forall slug :: slug in received ==> Acceptance(slug, received[slug]) in requested[..n])
  }

  method CheckAcceptance(requested: seq<Acceptance>, published: seq<Policy>) returns (error: Option<Error>)
    ensures error.None? <==> Passes(requested, published)
    ensures error == Some(Unavailable) <==> published == []
    ensures error == Some(Incomplete) <==> published != [] && |requested| != |published|
    ensures error != Some(NotStored)
    ensures DistinctSlugs(Labels(published)) && NoBlanks(Labels(published)) ==>
              (error.None? <==> Exact(requested, published))
  {
    ListsMatchExactly(requested, published);
    if |published| == 0 {
      return Some(Unavailable);
    }
    if |requested| != |published| {
      return Some(Incomplete);
    }
    var received: map<string, string> := map[];
    for i := 0 to |requested|
      invariant ReceivedUpTo(received, requested, i)
      invariant WellFormed(requested[..i])
    {
      var a := requested[i];
      if a.slug == "" || a.version == "" {
        return Some(Invalid);
      }
      if a.slug in received {
        assert Acceptance(a.slug, received[a.slug]) in requested[..i];
        return Some(Invalid);
      }
      received := received[a.slug := a.version];
      assert requested[..i + 1] == requested[..i] + [a];
    }
    assert requested[..|requested|] == requested;
    for i := 0 to |published|
      invariant forall j :: 0 <= j < i ==> Matches(requested, published[j])
    {
      var p := published[i];
      var version := if p.slug in received then received[p.slug] else "";
      if version != p.version {
        assert !Matches(requested, p);
        return Some(Invalid);
      }
    }
    return None;
  }

  // ----- the pigeonhole ------------------------------------------------------

  lemma {:induction false} DistinctLabelsAreASet(labels: seq<Acceptance>) returns (elements: set<Acceptance>)
    requires DistinctSlugs(labels)
    ensures multiset(labels) == multiset(elements) && |elements| == |labels|
    ensures forall a :: a in elements <==> a in labels
  {
    if labels == [] {
      elements := {};
    } else {
      var n := |labels| - 1;
      assert labels == labels[..n] + [labels[n]];
      var rest := DistinctLabelsAreASet(labels[..n]);
      assert labels[n] !in rest;
      elements := rest + {labels[n]};
    }
  }

  lemma SubsetOfSameSize<T>(a: set<T>, b: set<T>)
    requires a <= b && |a| == |b|
    ensures a == b
  {
    assert b == a + (b - a);
    assert |b| == |a| + |b - a|;
  }

  /** One occurrence in a list without repeats is the only one. */
  lemma RepeatsAreCounted(labels: seq<Acceptance>, i: nat, j: nat)
    requires i < j < |labels| && labels[i] == labels[j]
    ensures multiset(labels)[labels[i]] >= 2
  {
    assert labels == labels[..j] + labels[j..];
    assert labels[i] == labels[..j][i];
    assert labels[j] == labels[j..][0];
    assert labels[i] in multiset(labels[..j]) && labels[i] in multiset(labels[j..]);
  }

  /** With distinct slugs and no blanks, the checks pass exactly the rearrangements of the published list. */
  lemma ListsMatchExactly(requested: seq<Acceptance>, published: seq<Policy>)
    ensures DistinctSlugs(Labels(published)) && NoBlanks(Labels(published)) ==>
              (Passes(requested, published) <==> Exact(requested, published))
  {
    if DistinctSlugs(Labels(published)) && NoBlanks(Labels(published)) {
      if Passes(requested, published) {
        PassingIsExact(requested, published);
      }
      if Exact(requested, published) {
        ExactPasses(requested, published);
      }
    }
  }

  lemma PassingIsExact(requested: seq<Acceptance>, published: seq<Policy>)
    requires DistinctSlugs(Labels(published)) && NoBlanks(Labels(published)) && Passes(requested, published)
    ensures Exact(requested, published)
  {
    var labels := Labels(published);
    var wanted := DistinctLabelsAreASet(labels);
    var sent := DistinctLabelsAreASet(requested);
    forall a | a in wanted ensures a in sent {
      var i :| 0 <= i < |labels| && labels[i] == a;
      assert Matches(requested, published[i]) && labels[i] == Label(published[i]);
    }
    SubsetOfSameSize(wanted, sent);
  }

  lemma ExactPasses(requested: seq<Acceptance>, published: seq<Policy>)
    requires DistinctSlugs(Labels(published)) && NoBlanks(Labels(published)) && Exact(requested, published)
    ensures Passes(requested, published)
  {
    var labels := Labels(published);
    assert |requested| == |multiset(requested)| == |multiset(labels)| == |labels|;
    forall a ensures a in requested <==> a in labels {
      assert a in requested <==> a in multiset(requested);
      assert a in labels <==> a in multiset(labels);
    }
    forall i, j | 0 <= i < |requested| && 0 <= j < |labels| && requested[i].slug == labels[j].slug
      ensures requested[i] == labels[j]
    {
      assert requested[i] in requested;
      var k :| 0 <= k < |labels| && labels[k] == requested[i];
    }
    forall i, j | 0 <= i < j < |requested| ensures requested[i].slug != requested[j].slug {
      if requested[i].slug == requested[j].slug {
        assert requested[i] in requested;
        var k :| 0 <= k < |labels| && labels[k] == requested[i];
        RepeatsAreCounted(requested, i, j);
        var wanted := DistinctLabelsAreASet(labels);
        assert false;
      }
    }
    forall i | 0 <= i < |requested| ensures requested[i].slug != "" && requested[i].version != "" {
      assert requested[i] in requested;
    }
    forall i | 0 <= i < |published| ensures Matches(requested, published[i]) {
      assert labels[i] == Label(published[i]);
      assert labels[i] in labels;
    }
  }

  /**
   Only such lists can be accepted by naming them: with a repeated slug or a blank,
   even the list itself is turned away.
   */
  lemma ExactAcceptance(published: seq<Policy>)
    ensures (forall requested :: Passes(requested, published) <==> Exact(requested, published))
            <==> (DistinctSlugs(Labels(published)) && NoBlanks(Labels(published)))
  {
    forall requested ensures DistinctSlugs(Labels(published)) && NoBlanks(Labels(published))
                             ==> (Passes(requested, published) <==> Exact(requested, published)) {
      ListsMatchExactly(requested, published);
    }
    if forall requested :: Passes(requested, published) <==> Exact(requested, published) {
      if published != [] {
        assert Exact(Labels(published), published);
        assert Passes(Labels(published), published);
      }
    }
  }

  // ----- what is recorded ----------------------------------------------------

  function Upsert(consents: Consents, user: UserId, vendor: Option<VendorId>, p: Policy, now: int): Consents {
    consents[Key(user, p.id) := Consent(vendor, p.version, now, false)]
  }

  function Recorded(consents: Consents, user: UserId, vendor: Option<VendorId>, policies: seq<Policy>,
                    now: int): Consents {
    if policies == [] then consents
    else Upsert(Recorded(consents, user, vendor, policies[..|policies| - 1], now), user, vendor,
        policies[|policies| - 1], now)
  }

  function EventsOf(user: UserId, policies: seq<Policy>, now: int): multiset<Event> {
    if policies == [] then multiset{}
    else
      EventsOf(user, policies[..|policies| - 1], now)
      + multiset{Accepted(Key(user, policies[|policies| - 1].id), now)}
  }

  ghost predicate Lists(policies: seq<Policy>, id: PolicyId) {
    exists i :: 0 <= i < |policies| && policies[i].id == id
  }

  predicate Holds(consents: Consents, key: Key) {
    key in consents && !consents[key].withdrawn
  }

  /** A batch writes the rows of its user's listed policies, each with a listed version, and no others. */
  lemma {:induction false} RecordedAt(consents: Consents, user: UserId, vendor: Option<VendorId>, policies: seq<Policy>,
                                      now: int, key: Key)
    ensures var after := Recorded(consents, user, vendor, policies, now);
            if key.user == user && Lists(policies, key.policy)
            then
              && key in after
              && (exists p :: (p in policies && p.id == key.policy
                               && after[key] == Consent(vendor, p.version, now, false)))
              && Accepted(key, now) in EventsOf(user, policies, now)
            else (key in after <==> key in consents) && (key in consents ==> after[key] == consents[key])
    ensures forall at :: Accepted(key, at) in EventsOf(user, policies, now) ==>
              at == now && key.user == user && Lists(policies, key.policy)
  {
    if policies != [] {
      var n := |policies| - 1;
      RecordedAt(consents, user, vendor, policies[..n], now, key);
      assert policies == policies[..n] + [policies[n]];
      assert Lists(policies, key.policy) <==> Lists(policies[..n], key.policy) || policies[n].id == key.policy by {
        assert forall i :: 0 <= i < n ==> policies[..n][i] == policies[i];
      }
    }
  }

  /** Of a policy listed more than once the last version counts. */
  lemma {:induction false} LastListedWins(consents: Consents, user: UserId, vendor: Option<VendorId>,
                                          policies: seq<Policy>, now: int, i: nat)
    requires i < |policies| && forall j :: i < j < |policies| ==> policies[j].id != policies[i].id
    ensures var key, after := Key(user, policies[i].id), Recorded(consents, user, vendor, policies, now);
            key in after && after[key] == Consent(vendor, policies[i].version, now, false)
    decreases |policies|
  {
    if i < |policies| - 1 {
      LastListedWins(consents, user, vendor, policies[..|policies| - 1], now, i);
    }
  }

  /** One event for each policy of the batch. */
  lemma {:induction false} OneEventPerPolicy(user: UserId, policies: seq<Policy>, now: int)
    ensures EventsOf(user, policies, now)
            == multiset(seq(|policies|, i requires 0 <= i < |policies| => Accepted(Key(user, policies[i].id), now)))
  {
    var events := seq(|policies|, i requires 0 <= i < |policies| => Accepted(Key(user, policies[i].id), now));
    if policies != [] {
      var n := |policies| - 1;
      OneEventPerPolicy(user, policies[..n], now);
      assert events == events[..n] + [events[n]];
      assert events[..n] == seq(n, i requires 0 <= i < n => Accepted(Key(user, policies[..n][i].id), now));
    }
  }

  /** The policies still to be accepted, in published order. */
  function Missing(policies: seq<Policy>, accepted: set<PolicyId>): (r: seq<Policy>)
    ensures forall p :: p in r <==> p in policies && p.id !in accepted
  {
    if policies == [] then []
    else
      var n := |policies| - 1;
      var rest := Missing(policies[..n], accepted);
      if policies[n].id in accepted then rest else rest + [policies[n]]
  }

  function AcceptedSlugs(policies: seq<Policy>, accepted: set<PolicyId>): (r: seq<string>)
    ensures |r| + |Missing(policies, accepted)| == |policies|
  {
    if policies == [] then []
    else
      var n := |policies| - 1;
      var rest := AcceptedSlugs(policies[..n], accepted);
      if policies[n].id in accepted then rest + [policies[n].slug] else rest
  }

  /** Both lists follow the published order: one more policy goes to the end of one of them. */
  lemma EachPolicyIsInOneList(a: seq<Policy>, p: Policy, accepted: set<PolicyId>)
    ensures Missing([], accepted) == [] && AcceptedSlugs([], accepted) == []
    ensures p.id in accepted ==> AcceptedSlugs(a + [p], accepted) == AcceptedSlugs(a, accepted) + [p.slug]
    ensures p.id in accepted ==> Missing(a + [p], accepted) == Missing(a, accepted)
    ensures p.id !in accepted ==> Missing(a + [p], accepted) == Missing(a, accepted) + [p]
    ensures p.id !in accepted ==> AcceptedSlugs(a + [p], accepted) == AcceptedSlugs(a, accepted)
  {
    assert (a + [p])[..|a|] == a;
  }

  ghost predicate SlugAccepted(policies: seq<Policy>, accepted: set<PolicyId>, slug: string) {
    exists p :: p in policies && p.slug == slug && p.id in accepted
  }

  lemma {:induction false} SlugsAreAccepted(policies: seq<Policy>, accepted: set<PolicyId>, slug: string)
    ensures slug in AcceptedSlugs(policies, accepted) <==> SlugAccepted(policies, accepted, slug)
  {
    if policies != [] {
      var rest, last := policies[..|policies| - 1], policies[|policies| - 1];
      SlugsAreAccepted(rest, accepted, slug);
      assert policies == rest + [last];
      EachPolicyIsInOneList(rest, last, accepted);
      assert SlugAccepted(policies, accepted, slug) <==>
             SlugAccepted(rest, accepted, slug) || (last.slug == slug && last.id in accepted) by {
        assert last in policies;
      }
    }
  }

  /** A slug is reported as accepted exactly for a published policy with a consent in force. */
  lemma ReportedSlugs(consents: Consents, user: UserId, published: seq<Policy>, slug: string)
    ensures slug in AcceptedSlugs(published, Held(consents, user)) <==>
              exists p :: (p in published && p.slug == slug && Key(user, p.id) in consents
                           && !consents[Key(user, p.id)].withdrawn)
  {
    HeldIds(consents, user);
    SlugsAreAccepted(published, Held(consents, user), slug);
  }

  ghost function IdsIn(ids: seq<PolicyId>): set<PolicyId> {
    set id | id in ids
  }

  method PolicyIdsToSet(ids: seq<PolicyId>) returns (out: set<PolicyId>)
    ensures out == IdsIn(ids)
  {
    out := {};
    for i := 0 to |ids|
      invariant forall id :: id in out <==> id in ids[..i]
    {
      out := out + {ids[i]};
    }
  }

  method MissingPolicies(policies: seq<Policy>, ids: seq<PolicyId>) returns (missing: seq<Policy>)
    ensures missing == Missing(policies, IdsIn(ids))
  {
    var accepted := PolicyIdsToSet(ids);
    missing := [];
    for i := 0 to |policies|
      invariant missing == Missing(policies[..i], accepted)
    {
      assert policies[..i + 1][..i] == policies[..i];
      if policies[i].id !in accepted {
        missing := missing + [policies[i]];
      }
    }
    assert policies[..|policies|] == policies;
  }

  ghost function Held(consents: Consents, user: UserId): set<PolicyId> {
    set key | key in consents && key.user == user && Holds(consents, key) :: key.policy
  }

  lemma HeldIds(consents: Consents, user: UserId)
    ensures forall id :: id in Held(consents, user) <==> Holds(consents, Key(user, id))
  {
    forall id ensures id in Held(consents, user) <==> Holds(consents, Key(user, id)) {
      assert Key(user, id).policy == id;
    }
  }

  lemma AnyMissing(consents: Consents, user: UserId, published: seq<Policy>)
    ensures Missing(published, Held(consents, user)) != [] <==>
              exists p :: p in published && !Holds(consents, Key(user, p.id))
  {
    var missing := Missing(published, Held(consents, user));
    HeldIds(consents, user);
    if missing != [] {
      assert missing[0] in missing;
    }
    if p :| p in published && !Holds(consents, Key(user, p.id)) {
      assert p in missing;
    }
  }

  class Service {
    var consents: Consents
    var events: multiset<Event>

    constructor ()
      ensures consents == map[] && events == multiset{}
    {
      consents := map[];
      events := multiset{};
    }

    method ListAcceptedPolicyIds(user: UserId) returns (ids: seq<PolicyId>)
      ensures IdsIn(ids) == Held(consents, user)
    {
      ids := [];
      var todo := consents.Keys;
      while todo != {}
        invariant todo <= consents.Keys
        invariant forall id :: id in ids <==> Holds(consents, Key(user, id)) && Key(user, id) !in todo
        decreases |todo|
      {
        var key :| key in todo;
        todo := todo - {key};
        if key.user == user && !consents[key].withdrawn {
          ids := ids + [key.policy];
        }
      }
      HeldIds(consents, user);
    }

    method GetStatus(user: UserId, published: seq<Policy>) returns (status: Status)
      ensures status.required == published
      ensures status.acceptedSlugs == AcceptedSlugs(published, Held(consents, user))
      ensures status.acceptanceRequired <==> exists p :: p in published && !Holds(consents, Key(user, p.id))
      ensures status.acceptanceRequired <==> |status.acceptedSlugs| < |published|
      ensures forall slug :: slug in status.acceptedSlugs <==>
                exists p :: (p in published && p.slug == slug && Key(user, p.id) in consents
                             && !consents[Key(user, p.id)].withdrawn)
    {
      hide Held, AcceptedSlugs, Missing;
      var ids := ListAcceptedPolicyIds(user);
      var accepted := PolicyIdsToSet(ids);
      var slugs: seq<string> := [];
      for i := 0 to |published|
        invariant slugs == AcceptedSlugs(published[..i], accepted)
      {
        EachPolicyIsInOneList(published[..i], published[i], accepted);
        assert published[..i + 1] == published[..i] + [published[i]];
        if published[i].id in accepted {
          slugs := slugs + [published[i].slug];
        }
      }
      assert published[..|published|] == published;
      var missing := MissingPolicies(published, ids);
      AnyMissing(consents, user, published);
      forall slug ensures slug in slugs <==> exists p ::
          p in published && p.slug == slug && Key(user, p.id) in consents && !consents[Key(user, p.id)].withdrawn
      {
        ReportedSlugs(consents, user, published, slug);
      }
      return Status(published, slugs, |missing| > 0);
    }

    method HasRequiredAcceptance(user: UserId, published: seq<Policy>) returns (accepted: bool)
      ensures accepted <==> forall p :: p in published ==> Holds(consents, Key(user, p.id))
    {
      var status := GetStatus(user, published);
      return !status.acceptanceRequired;
    }

    /** The transaction; `failAt` is the statement that fails, |policies| standing for the commit. */
    method Store(user: UserId, vendor: Option<VendorId>, policies: seq<Policy>, now: int, failAt: Option<nat>)
      returns (ok: bool)
      modifies this
      ensures ok <==> failAt.None? || failAt.value > |policies|
      ensures consents == if ok then Recorded(old(consents), user, vendor, policies, now) else old(consents)
      ensures events == if ok then old(events) + EventsOf(user, policies, now) else old(events)
    {
      hide Lists;
      var rows, log := consents, events;
      for i := 0 to |policies|
        invariant consents == old(consents) && events == old(events)
        invariant rows == Recorded(old(consents), user, vendor, policies[..i], now)
        invariant log == old(events) + EventsOf(user, policies[..i], now)
        invariant failAt.None? || failAt.value >= i
      {
        if failAt == Some(i) {
          return false;
        }
        assert policies[..i + 1][..i] == policies[..i];
        rows := Upsert(rows, user, vendor, policies[i], now);
        log := log + multiset{Accepted(Key(user, policies[i].id), now)};
      }
      assert policies[..|policies|] == policies;
      if failAt == Some(|policies|) {
        return false;
      }
      consents, events := rows, log;
      return true;
    }

    /** `published` is the list the request is checked against, `publishedNow` the one read again for the answer. */
    method Accept(user: UserId, vendor: Option<VendorId>, requested: seq<Acceptance>, published: seq<Policy>,
                  publishedNow: seq<Policy>, now: int, failAt: Option<nat>)
      returns (result: Result<Status, Error>)
      modifies this
      ensures result.Ok? ==> Passes(requested, published)
      ensures Passes(requested, published) ==> result.Ok? || (failAt.Some? && result == Err(NotStored))
      ensures State(consents, events)
              == Apply(State(old(consents), old(events)),
                  Step.Accept(user, vendor, requested, published, now, result == Err(NotStored)))
      ensures result.Ok? && (forall p :: p in publishedNow ==> Lists(published, p.id)) ==>
                !result.value.acceptanceRequired
    {
      var error := CheckAcceptance(requested, published);
      if error.Some? {
        return Err(error.value);
      }
      var stored := Store(user, vendor, published, now, failAt);
      if !stored {
        return Err(NotStored);
      }
      var status := GetStatus(user, publishedNow);
      forall p | p in publishedNow && Lists(published, p.id) ensures Holds(consents, Key(user, p.id)) {
        RecordedAt(old(consents), user, vendor, published, now, Key(user, p.id));
      }
      return Ok(status);
    }
  }

  // ----- runs ----------------------------------------------------------------

  datatype State = State(consents: Consents, events: multiset<Event>)

  /** `fault` stands for any failure of the transaction. */
  datatype Step =
    | Accept(user: UserId, vendor: Option<VendorId>, requested: seq<Acceptance>, published: seq<Policy>, now: int,
        fault: bool)
    | AttachToVendor(user: UserId, toVendor: VendorId, now: int)

  ghost predicate Stores(step: Step) {
    step.Accept? && !step.fault && Passes(step.requested, step.published)
  }

  predicate Reattached(consents: Consents, key: Key, user: UserId, vendor: VendorId) {
    key.user == user && Holds(consents, key) && consents[key].vendor != Some(vendor)
  }

  ghost function Apply(s: State, step: Step): State {
    match step
    case Accept(user, vendor, _, published, now, _) =>
      if Stores(step) then
        State(Recorded(s.consents, user, vendor, published, now), s.events + EventsOf(user, published, now))
      else s
    case AttachToVendor(user, vendor, now) =>
      State(
        map key | key in s.consents ::
          if Reattached(s.consents, key, user, vendor)
            then s.consents[key].(vendor := Some(vendor)) else s.consents[key],
        s.events + multiset(set key | key in s.consents && Reattached(s.consents, key, user, vendor)
                              :: Event.AttachedToVendor(key, now)))
  }

  ghost function Exec(s: State, steps: seq<Step>): State {
    if steps == [] then s else Apply(Exec(s, steps[..|steps| - 1]), steps[|steps| - 1])
  }

  const EMPTY := State(map[], multiset{})

  lemma StepKeepsConsent(s: State, step: Step, key: Key)
    requires Holds(s.consents, key)
    ensures Holds(Apply(s, step).consents, key)
  {
    match step
    case Accept(user, vendor, _, published, now, _) => RecordedAt(s.consents, user, vendor, published, now, key);
    case AttachToVendor(_, _, _) =>
  }

  /** Attaching gives the user's consents in force that are not the vendor's yet to the vendor, one event each. */
  lemma AttachingMeans(s: State, user: UserId, vendor: VendorId, now: int, key: Key)
    ensures var after := Apply(s, AttachToVendor(user, vendor, now));
            var moves := key in s.consents && key.user == user && !s.consents[key].withdrawn
                         && s.consents[key].vendor != Some(vendor);
            && (key in after.consents <==> key in s.consents)
            && (key in s.consents ==>
                  after.consents[key] == if moves then s.consents[key].(vendor := Some(vendor)) else s.consents[key])
            && after.events[Event.AttachedToVendor(key, now)]
               == s.events[Event.AttachedToVendor(key, now)] + (if moves then 1 else 0)
            && forall at :: after.events[Accepted(key, at)] == s.events[Accepted(key, at)]
  {
  }

  /** A user is asked only for policies that no request of theirs has accepted, whatever happened since. */
  lemma {:induction false} NothingAcceptedIsAskedAgain(s: State, steps: seq<Step>, i: nat, p: Policy)
    requires i < |steps| && Stores(steps[i]) && Lists(steps[i].published, p.id)
    ensures p.id in Held(Exec(s, steps).consents, steps[i].user)
    ensures forall listed: seq<Policy> :: p !in Missing(listed, Held(Exec(s, steps).consents, steps[i].user))
  {
    var n := |steps| - 1;
    var key := Key(steps[i].user, p.id);
    if i == n {
      RecordedAt(Exec(s, steps[..n]).consents, steps[n].user, steps[n].vendor, steps[n].published, steps[n].now, key);
    } else {
      NothingAcceptedIsAskedAgain(s, steps[..n], i, p);
      HeldIds(Exec(s, steps[..n]).consents, steps[i].user);
      StepKeepsConsent(Exec(s, steps[..n]), steps[n], key);
    }
    HeldIds(Exec(s, steps).consents, steps[i].user);
  }

  /** The step recorded this consent: its user sent the policy's label, as it was published then. */
  ghost predicate Evidences(step: Step, key: Key, c: Consent, p: Policy) {
    && Stores(step) && step.user == key.user && step.now == c.acceptedAt
    && p in step.published && p.id == key.policy && p.version == c.version
    && (p.version != "" ==> Label(p) in step.requested)
  }

  ghost predicate EvidencedIn(steps: seq<Step>, key: Key, c: Consent) {
    exists i, p :: 0 <= i < |steps| && Evidences(steps[i], key, c, p)
  }

  ghost predicate Logged(events: multiset<Event>, key: Key) {
    exists at :: Accepted(key, at) in events
  }

  lemma EvidenceLasts(steps: seq<Step>, more: seq<Step>, key: Key, before: Consent, after: Consent)
    requires EvidencedIn(steps, key, before) && steps <= more
    requires after.version == before.version && after.acceptedAt == before.acceptedAt
    ensures EvidencedIn(more, key, after)
  {
    var i, p :| 0 <= i < |steps| && Evidences(steps[i], key, before, p);
    assert Evidences(more[i], key, after, p);
  }

  /**
   Every consent on record was given: its user sent that very version in an accepted
   request, and an event logs it.
   */
  lemma {:induction false} ConsentsWereGiven(steps: seq<Step>, key: Key)
    ensures var s := Exec(EMPTY, steps);
            && (key in s.consents ==> EvidencedIn(steps, key, s.consents[key]) && !s.consents[key].withdrawn)
            && (key in s.consents <==> Logged(s.events, key))
  {
    if steps != [] {
      var n := |steps| - 1;
      ConsentsWereGiven(steps[..n], key);
      var before, after := Exec(EMPTY, steps[..n]), Exec(EMPTY, steps);
      if Stores(steps[n]) {
        StoringGivesEvidence(before, steps[n], key);
      }
      EventsGrow(before, steps[n], key);
      if key in after.consents {
        if exists p :: Evidences(steps[n], key, after.consents[key], p) {
        } else {
          EvidenceLasts(steps[..n], steps, key, before.consents[key], after.consents[key]);
        }
      }
    }
  }

  lemma StoringGivesEvidence(s: State, step: Step, key: Key)
    requires Stores(step)
    ensures var after := Apply(s, step);
            if key.user == step.user && Lists(step.published, key.policy)
            then
              && key in after.consents && !after.consents[key].withdrawn
              && (exists p :: Evidences(step, key, after.consents[key], p))
            else
              && (key in after.consents <==> key in s.consents)
              && (key in s.consents ==> after.consents[key] == s.consents[key])
  {
    RecordedAt(s.consents, step.user, step.vendor, step.published, step.now, key);
    var after := Apply(s, step);
    if key.user == step.user && Lists(step.published, key.policy) {
      var p :| p in step.published && p.id == key.policy
        && after.consents[key] == Consent(step.vendor, p.version, step.now, false);
      assert Matches(step.requested, p);
      assert Evidences(step, key, after.consents[key], p);
    }
  }

  lemma EventsGrow(s: State, step: Step, key: Key)
    ensures Logged(Apply(s, step).events, key) <==>
            Logged(s.events, key) || (Stores(step) && key.user == step.user && Lists(step.published, key.policy))
  {
    var after := Apply(s, step);
    if step.Accept? {
      RecordedAt(s.consents, step.user, step.vendor, step.published, step.now, key);
      if Stores(step) && key.user == step.user && Lists(step.published, key.policy) {
        assert Accepted(key, step.now) in after.events;
      }
    }
    if Logged(s.events, key) {
      var at :| Accepted(key, at) in s.events;
      assert Accepted(key, at) in after.events;
    }
    if Logged(after.events, key) {
      var at :| Accepted(key, at) in after.events;
      assert Accepted(key, at) in s.events
        || (Stores(step) && Accepted(key, at) in EventsOf(step.user, step.published, step.now));
    }
  }
}
