/**
 A customer's delivery locations and the one that is the default.  A service
 call is a short list of statements, each of which may fail after the earlier
 ones have been written; calls of one customer do not overlap.
 */
module DeliveryLocations {
  import opened Prelude
  import opened Text

  type LocationId = nat
  type CustomerId = nat

  datatype Details = Details(name: string, recipientName: string, recipientPhone: string,
                             addressLine1: string, addressLine2: string, city: string, country: string,
                             latitude: Option<real>, longitude: Option<real>)

  datatype Request = Request(details: Details, isDefault: bool)

  datatype Location = Location(customer: CustomerId, details: Details, isDefault: bool, createdAt: int)

  type Table = map<LocationId, Location>

  // ----- requests ------------------------------------------------------------

  function Normalise(d: Details): Details {
    Details(Trim(d.name), Trim(d.recipientName), Trim(d.recipientPhone), Trim(d.addressLine1), Trim(d.addressLine2),
            Trim(d.city), if Trim(d.country) == "" then "Zambia" else Trim(d.country), d.latitude, d.longitude)
  }

  predicate Acceptable(d: Details) {
    && d.name != "" && d.recipientName != "" && d.recipientPhone != "" && d.addressLine1 != "" && d.city != ""
    && (d.latitude.Some? <==> d.longitude.Some?)
    && (d.latitude.Some? ==> -90.0 <= d.latitude.value <= 90.0)
    && (d.longitude.Some? ==> -180.0 <= d.longitude.value <= 180.0)
  }

  lemma NormaliseIdempotent(d: Details)
    ensures Normalise(Normalise(d)) == Normalise(d)
  {
    TrimIdempotent(d.name);
    TrimIdempotent(d.recipientName);
    TrimIdempotent(d.recipientPhone);
    TrimIdempotent(d.addressLine1);
    TrimIdempotent(d.addressLine2);
    TrimIdempotent(d.city);
    TrimIdempotent(d.country);
    assert Trim("Zambia") == "Zambia";
  }

  // ----- the table -----------------------------------------------------------

  predicate Owned(rows: Table, customer: CustomerId, id: LocationId) {
    id in rows && rows[id].customer == customer
  }

  predicate DefaultOf(rows: Table, customer: CustomerId, id: LocationId) {
    Owned(rows, customer, id) && rows[id].isDefault
  }

  /** The partial unique index. */
  ghost predicate OneDefaultAtMost(rows: Table) {
    forall a, b :: (a in rows && b in rows && rows[a].customer == rows[b].customer
                    && rows[a].isDefault && rows[b].isDefault) ==> a == b
  }

  /** A customer with any location has a default one. */
  ghost predicate Settled(rows: Table, customer: CustomerId) {
    (exists id :: Owned(rows, customer, id)) ==> exists id :: DefaultOf(rows, customer, id)
  }

  ghost predicate AllSettled(rows: Table) {
    forall customer: CustomerId :: Settled(rows, customer)
  }

  predicate HasLocations(rows: Table, customer: CustomerId) {
    exists id :: id in rows && rows[id].customer == customer
  }

  predicate Earliest(rows: Table, customer: CustomerId, id: LocationId) {
    && Owned(rows, customer, id)
    && (forall other :: other in rows && rows[other].customer == customer ==>
        rows[id].createdAt <= rows[other].createdAt)
  }

  /** The customer's default becomes this location; other customers' rows stay. */
  function WithDefault(rows: Table, customer: CustomerId, id: LocationId): Table {
    map i | i in rows :: if rows[i].customer == customer then rows[i].(isDefault := i == id) else rows[i]
  }

  class Repository {
    var rows: Table

    constructor ()
      ensures rows == map[]
    {
      rows := map[];
    }

    method Create(id: LocationId, location: Location, fault: bool) returns (ok: bool)
      requires id !in rows && !location.isDefault
      modifies this
      ensures ok == !fault && rows == if ok then old(rows)[id := location] else old(rows)
    {
      if fault {
        return false;
      }
      rows := rows[id := location];
      return true;
    }

    method Update(id: LocationId, customer: CustomerId, details: Details, fault: bool) returns (ok: bool)
      modifies this
      ensures ok <==> !fault && Owned(old(rows), customer, id)
      ensures rows == if ok then old(rows)[id := old(rows)[id].(details := details)] else old(rows)
    {
      if fault || id !in rows || rows[id].customer != customer {
        return false;
      }
      rows := rows[id := rows[id].(details := details)];
      return true;
    }

    method Delete(id: LocationId, customer: CustomerId, fault: bool) returns (ok: bool)
      modifies this
      ensures ok <==> !fault && Owned(old(rows), customer, id)
      ensures rows == if ok then old(rows) - {id} else old(rows)
    {
      if fault || id !in rows || rows[id].customer != customer {
        return false;
      }
      rows := rows - {id};
      return true;
    }

    /** Clear, then set, in one transaction. */
    method SetDefault(id: LocationId, customer: CustomerId, fault: bool) returns (ok: bool)
      modifies this
      ensures ok <==> !fault && Owned(old(rows), customer, id)
      ensures rows == if ok then WithDefault(old(rows), customer, id) else old(rows)
      ensures ok <==> !fault && id in old(rows) && old(rows)[id].customer == customer
      ensures rows.Keys == old(rows).Keys
      ensures forall i :: i in old(rows) ==>
                rows[i] == if ok && old(rows)[i].customer == customer
                           then old(rows)[i].(isDefault := i == id)
                           else old(rows)[i]
    {
      var cleared := map i | i in rows ::
        if rows[i].customer == customer && rows[i].isDefault then rows[i].(isDefault := false) else rows[i];
      if fault || id !in cleared || cleared[id].customer != customer {
        return false;
      }
      rows := cleared[id := cleared[id].(isDefault := true)];
      return true;
    }

    /** The choice among equally early locations is open; a second default is refused by the index. */
    method PromoteEarliestAsDefault(customer: CustomerId, fault: bool) returns (ok: bool, ghost chosen: LocationId)
      modifies this
      ensures fault ==> !ok && rows == old(rows)
      ensures (forall id :: !Owned(old(rows), customer, id)) ==> rows == old(rows) && ok == !fault
      ensures !fault && (exists id :: Owned(old(rows), customer, id)) ==> Earliest(old(rows), customer, chosen)
      ensures !fault && (exists id :: Owned(old(rows), customer, id))
              && (forall id :: !DefaultOf(old(rows), customer, id))
              ==> ok && rows == old(rows)[chosen := old(rows)[chosen].(isDefault := true)]
      ensures OneDefaultAtMost(old(rows)) ==> OneDefaultAtMost(rows)
    {
      chosen := 0;
      if fault {
        return false, chosen;
      }
      if any :| any in rows && rows[any].customer == customer {
        SomeIsEarliest(rows, customer);
        var id :| id in rows && Earliest(rows, customer, id);
        chosen := id;
        if other :| other in rows && other != id && DefaultOf(rows, customer, other) {
          return false, chosen;
        }
        rows := rows[id := rows[id].(isDefault := true)];
      } else {
        assert forall id :: !Owned(rows, customer, id);
      }
      return true, chosen;
    }
  }

  /** `id` is an earliest of the customer's locations among these. */
  ghost predicate EarliestIn(rows: Table, customer: CustomerId, among: set<LocationId>, id: LocationId)
    requires among <= rows.Keys
  {
    && id in among && rows[id].customer == customer
    && (forall other :: other in among && rows[other].customer == customer ==>
        rows[id].createdAt <= rows[other].createdAt)
  }

  lemma {:induction false} EarliestExists(rows: Table, customer: CustomerId, among: set<LocationId>, id: LocationId)
    returns (first: LocationId)
    requires among <= rows.Keys && id in among && rows[id].customer == customer
    ensures EarliestIn(rows, customer, among, first)
    decreases among
  {
    first := id;
    if other :| other in among && rows[other].customer == customer && rows[other].createdAt < rows[id].createdAt {
      var rest := among - {id};
      first := EarliestExists(rows, customer, rest, other);
      assert rows[first].createdAt <= rows[other].createdAt;
    }
  }

  lemma SomeIsEarliest(rows: Table, customer: CustomerId)
    requires HasLocations(rows, customer)
    ensures exists id :: Earliest(rows, customer, id)
  {
    var any :| any in rows && rows[any].customer == customer;
    var first := EarliestExists(rows, customer, rows.Keys, any);
    assert Earliest(rows, customer, first);
  }

  // ----- calls as steps ------------------------------------------------------

  /** `cut` is the number of statements after which a call fails; none when it goes through. */
  datatype Step =
    | Create(customer: CustomerId, id: LocationId, req: Request, now: int, cut: Option<nat>)
    | Update(customer: CustomerId, id: LocationId, req: Request, cut: Option<nat>)
    | Delete(customer: CustomerId, id: LocationId, promoted: LocationId, cut: Option<nat>)
    | SetDefault(customer: CustomerId, id: LocationId, cut: Option<nat>)

  /** The call's n-th statement (from 0) is executed. */
  predicate Reaches(step: Step, n: nat) {
    step.cut.None? || step.cut.value > n
  }

  ghost predicate Enabled(rows: Table, step: Step) {
    match step
    case Create(_, id, _, _, _) => id !in rows
    case Delete(customer, id, promoted, _) =>
      DefaultOf(rows, customer, id) && HasLocations(rows - {id}, customer) ==> Earliest(rows - {id}, customer, promoted)
    case _ => true
  }

  ghost function Apply(rows: Table, step: Step): Table
    requires Enabled(rows, step)
  {
    var customer, id := step.customer, step.id;
    match step
    case Create(_, _, req, now, _) =>
      var details := Normalise(req.details);
      if !Acceptable(details) || !Reaches(step, 0) then rows
      else
        var inserted := rows[id := Location(customer, details, false, now)];
        if (req.isDefault || !HasLocations(rows, customer)) && Reaches(step, 1)
        then WithDefault(inserted, customer, id) else inserted
    case Update(_, _, req, _) =>
      var details := Normalise(req.details);
      if !Acceptable(details) || !Owned(rows, customer, id) || !Reaches(step, 0) then rows
      else
        var updated := rows[id := rows[id].(details := details)];
        if req.isDefault && Reaches(step, 1) then WithDefault(updated, customer, id) else updated
    case Delete(_, _, promoted, _) =>
      if !Owned(rows, customer, id) || !Reaches(step, 0) then rows
      else
        var remaining := rows - {id};
        if rows[id].isDefault && HasLocations(remaining, customer) && Reaches(step, 1)
        then remaining[promoted := remaining[promoted].(isDefault := true)] else remaining
    case SetDefault(_, _, _) =>
      if Owned(rows, customer, id) && Reaches(step, 0) then WithDefault(rows, customer, id) else rows
  }

  /** The calls that fail between their two statements when the second is needed. */
  ghost predicate CutShort(rows: Table, step: Step) {
    && step.cut == Some(1)
    && match step
       case Create(customer, _, req, _, _) => Acceptable(Normalise(req.details)) && !HasLocations(rows, customer)
       case Delete(customer, id, _, _) => DefaultOf(rows, customer, id) && HasLocations(rows - {id}, customer)
       case _ => false
  }

  /** The customer's only default, and none of the customer's locations is earlier. */
  ghost predicate IsHeir(rows: Table, customer: CustomerId, heir: LocationId) {
    Earliest(rows, customer, heir) && forall d: LocationId :: DefaultOf(rows, customer, d) <==> d == heir
  }

  lemma PromotedIsHeir(rows: Table, customer: CustomerId, chosen: LocationId)
    requires Earliest(rows, customer, chosen) && forall i: LocationId :: !DefaultOf(rows, customer, i)
    ensures IsHeir(rows[chosen := rows[chosen].(isDefault := true)], customer, chosen)
  {
    assert forall i: LocationId :: i in rows && rows[i].customer == customer ==> !DefaultOf(rows, customer, i);
  }

  class Service {
    const repo: Repository

    constructor (repo: Repository)
      ensures this.repo == repo
    {
      this.repo := repo;
    }

    method ValidateRequest(req: Request) returns (normal: Request, ok: bool)
      ensures normal == Request(Normalise(req.details), req.isDefault)
      ensures ok <==> Acceptable(normal.details)
      ensures var d, n := req.details, normal.details;
              && n.name == Trim(d.name) && n.recipientName == Trim(d.recipientName)
              && n.recipientPhone == Trim(d.recipientPhone) && n.addressLine1 == Trim(d.addressLine1)
              && n.addressLine2 == Trim(d.addressLine2) && n.city == Trim(d.city)
              && n.country == (if Trim(d.country) != "" then Trim(d.country) else "Zambia")
              && n.latitude == d.latitude && n.longitude == d.longitude && normal.isDefault == req.isDefault
      ensures var n := normal.details;
              ok <==>
                && "" !in {n.name, n.recipientName, n.recipientPhone, n.addressLine1, n.city}
                && ((n.latitude.None? && n.longitude.None?)
                    || (n.latitude.Some? && n.longitude.Some?
                        && -90.0 <= n.latitude.value <= 90.0 && -180.0 <= n.longitude.value <= 180.0))
    {
      var d := req.details;
      d := d.(name := Trim(d.name), recipientName := Trim(d.recipientName), recipientPhone := Trim(d.recipientPhone));
      d := d.(addressLine1 := Trim(d.addressLine1), addressLine2 := Trim(d.addressLine2), city := Trim(d.city),
          country := Trim(d.country));
      if d.country == "" {
        d := d.(country := "Zambia");
      }
      normal := Request(d, req.isDefault);
      if d.name == "" || d.recipientName == "" || d.recipientPhone == "" || d.addressLine1 == "" || d.city == "" {
        return normal, false;
      }
      if d.latitude.None? != d.longitude.None? {
        return normal, false;
      }
      if d.latitude.Some? && (d.latitude.value < -90.0 || d.latitude.value > 90.0) {
        return normal, false;
      }
      if d.longitude.Some? && (d.longitude.value < -180.0 || d.longitude.value > 180.0) {
        return normal, false;
      }
      return normal, true;
    }

    method CreateLocation(customer: CustomerId, id: LocationId, req: Request, now: int, cut: Option<nat>)
      returns (ok: bool)
      requires id !in repo.rows
      modifies repo
      ensures repo.rows == Apply(old(repo.rows), Step.Create(customer, id, req, now, cut))
      ensures ok ==> id in repo.rows && repo.rows[id].details == Normalise(req.details)
      ensures ok ==> (repo.rows[id].isDefault <==>
                        req.isDefault || forall i :: i in old(repo.rows) ==> old(repo.rows)[i].customer != customer)
      ensures ok <==>
                && Acceptable(Normalise(req.details)) && cut != Some(0)
                && !(cut == Some(1) && (req.isDefault || !HasLocations(old(repo.rows), customer)))
    {
      hide Normalise, Acceptable;
      var normal, valid := ValidateRequest(req);
      if !valid {
        return false;
      }
      var makeDefault := normal.isDefault || !HasLocations(repo.rows, customer);
      ok := repo.Create(id, Location(customer, normal.details, false, now), cut == Some(0));
      if ok && makeDefault {
        ok := repo.SetDefault(id, customer, cut == Some(1));
      }
    }

    method UpdateLocation(customer: CustomerId, id: LocationId, req: Request, cut: Option<nat>) returns (ok: bool)
      modifies repo
      ensures repo.rows == Apply(old(repo.rows), Step.Update(customer, id, req, cut))
      ensures ok ==> Owned(old(repo.rows), customer, id)
      ensures ok ==> id in repo.rows && repo.rows[id].details == Normalise(req.details)
      ensures ok ==> (repo.rows[id].isDefault <==> req.isDefault || old(repo.rows)[id].isDefault)
      ensures ok <==>
                && Acceptable(Normalise(req.details)) && id in old(repo.rows) && old(repo.rows)[id].customer == customer
                && cut != Some(0) && !(cut == Some(1) && req.isDefault)
    {
      hide Normalise, Acceptable;
      var normal, valid := ValidateRequest(req);
      if !valid || !Owned(repo.rows, customer, id) {
        return false;
      }
      ok := repo.Update(id, customer, normal.details, cut == Some(0));
      if ok && normal.isDefault {
        ok := repo.SetDefault(id, customer, cut == Some(1));
      }
    }

    method DeleteLocation(customer: CustomerId, id: LocationId, cut: Option<nat>) returns (ok: bool)
      requires OneDefaultAtMost(repo.rows)
      modifies repo
      ensures exists promoted: LocationId ::
                && Enabled(old(repo.rows), Step.Delete(customer, id, promoted, cut))
                && repo.rows == Apply(old(repo.rows), Step.Delete(customer, id, promoted, cut))
      ensures ok ==> id in old(repo.rows) && old(repo.rows)[id].customer == customer && id !in repo.rows
      ensures cut.None? ==> (ok <==> id in old(repo.rows) && old(repo.rows)[id].customer == customer)
      ensures cut.None? && !ok ==> repo.rows == old(repo.rows)
      ensures cut.None? && DefaultOf(old(repo.rows), customer, id) && HasLocations(repo.rows, customer) ==>
                exists heir: LocationId :: IsHeir(repo.rows, customer, heir)
    {
      ghost var before := repo.rows;
      ghost var promoted: LocationId := 0;
      if HasLocations(before - {id}, customer) {
        SomeIsEarliest(before - {id}, customer);
        promoted :| Earliest(before - {id}, customer, promoted);
      }
      ok := false;
      if Owned(repo.rows, customer, id) {
        var wasDefault := repo.rows[id].isDefault;
        ok := repo.Delete(id, customer, cut == Some(0));
        if ok && wasDefault {
          assert forall i :: !DefaultOf(repo.rows, customer, i);
          ghost var chosen;
          ok, chosen := repo.PromoteEarliestAsDefault(customer, cut == Some(1));
          if cut != Some(1) && HasLocations(before - {id}, customer) {
            promoted := chosen;
            PromotedIsHeir(before - {id}, customer, chosen);
          }
        }
      }
      assert Enabled(before, Step.Delete(customer, id, promoted, cut));
      assert repo.rows == Apply(before, Step.Delete(customer, id, promoted, cut));
    }

    method SetDefaultLocation(customer: CustomerId, id: LocationId, cut: Option<nat>) returns (ok: bool)
      modifies repo
      ensures repo.rows == Apply(old(repo.rows), Step.SetDefault(customer, id, cut))
      ensures ok <==> id in old(repo.rows) && old(repo.rows)[id].customer == customer && cut != Some(0)
    {
      if !Owned(repo.rows, customer, id) {
        return false;
      }
      ok := repo.SetDefault(id, customer, cut == Some(0));
    }
  }

  // ----- runs ----------------------------------------------------------------

  ghost predicate ValidRun(rows: Table, steps: seq<Step>)
    decreases |steps|, 0
  {
    steps == [] ||
    (ValidRun(rows, steps[..|steps| - 1]) && Enabled(Exec(rows, steps[..|steps| - 1]), steps[|steps| - 1]))
  }

  ghost function Exec(rows: Table, steps: seq<Step>): Table
    requires ValidRun(rows, steps)
    decreases |steps|, 1
  {
    if steps == [] then rows else Apply(Exec(rows, steps[..|steps| - 1]), steps[|steps| - 1])
  }

  /** The other rows stay, except that if this one becomes the default the customer's others are none. */
  ghost predicate OthersBut(rows: Table, after: Table, customer: CustomerId, id: LocationId, becomes: bool) {
    forall i :: i in rows && i != id ==>
      && i in after
      && after[i] == if becomes && rows[i].customer == customer then rows[i].(isDefault := false) else rows[i]
  }

  /** A creation that goes through adds one row: the cleaned details, and default if asked for or first. */
  lemma CreateAdds(rows: Table, customer: CustomerId, id: LocationId, req: Request, now: int)
    requires id !in rows && Acceptable(Normalise(req.details))
    ensures var after := Apply(rows, Step.Create(customer, id, req, now, None));
            var becomes := req.isDefault || forall i :: i in rows ==> rows[i].customer != customer;
            && after.Keys == rows.Keys + {id}
            && after[id] == Location(customer, Normalise(req.details), becomes, now)
            && OthersBut(rows, after, customer, id, becomes)
  {
    hide Normalise, Acceptable;
  }

  /** An update that goes through changes the details, and the default only to this location. */
  lemma UpdateChanges(rows: Table, customer: CustomerId, id: LocationId, req: Request)
    requires id in rows && rows[id].customer == customer && Acceptable(Normalise(req.details))
    ensures var after := Apply(rows, Step.Update(customer, id, req, None));
            && after.Keys == rows.Keys
            && after[id]
               == Location(customer, Normalise(req.details), rows[id].isDefault || req.isDefault, rows[id].createdAt)
            && OthersBut(rows, after, customer, id, req.isDefault)
  {
    hide Normalise, Acceptable;
  }

  /** A call touches its own customer's rows only. */
  lemma OtherCustomersKeepTheirs(rows: Table, step: Step, id: LocationId)
    requires Enabled(rows, step) && Foreign(rows, Apply(rows, step), step.customer, id)
    ensures id in rows && id in Apply(rows, step) && Apply(rows, step)[id] == rows[id]
  {
    match step
    case Create(_, _, _, _, _) => OthersKeepOnCreate(rows, step, id);
    case Update(_, _, _, _) => OthersKeepOnUpdate(rows, step, id);
    case Delete(_, _, _, _) => OthersKeepOnDelete(rows, step, id);
    case SetDefault(_, _, _) =>
  }

  /** The row is another customer's, before or after. */
  predicate Foreign(rows: Table, after: Table, customer: CustomerId, id: LocationId) {
    (id in rows && rows[id].customer != customer) || (id in after && after[id].customer != customer)
  }

  lemma OthersKeepOnCreate(rows: Table, step: Step, id: LocationId)
    requires step.Create? && Enabled(rows, step) && Foreign(rows, Apply(rows, step), step.customer, id)
    ensures id in rows && id in Apply(rows, step) && Apply(rows, step)[id] == rows[id]
  {
  }

  lemma OthersKeepOnUpdate(rows: Table, step: Step, id: LocationId)
    requires step.Update? && Enabled(rows, step) && Foreign(rows, Apply(rows, step), step.customer, id)
    ensures id in rows && id in Apply(rows, step) && Apply(rows, step)[id] == rows[id]
  {
  }

  lemma OthersKeepOnDelete(rows: Table, step: Step, id: LocationId)
    requires step.Delete? && Enabled(rows, step) && Foreign(rows, Apply(rows, step), step.customer, id)
    ensures id in rows && id in Apply(rows, step) && Apply(rows, step)[id] == rows[id]
  {
  }

  lemma ChoosingKeepsIndex(rows: Table, customer: CustomerId, id: LocationId)
    requires OneDefaultAtMost(rows)
    ensures OneDefaultAtMost(WithDefault(rows, customer, id))
  {
  }

  lemma DeletingKeepsIndex(rows: Table, step: Step)
    requires step.Delete? && Enabled(rows, step) && OneDefaultAtMost(rows)
    ensures OneDefaultAtMost(Apply(rows, step))
  {
    var customer, id := step.customer, step.id;
    if Owned(rows, customer, id) && rows[id].isDefault {
      assert forall other :: other in rows - {id} && rows[other].customer == customer ==> !rows[other].isDefault;
    }
  }

  lemma StepKeepsIndex(rows: Table, step: Step)
    requires Enabled(rows, step) && OneDefaultAtMost(rows)
    ensures OneDefaultAtMost(Apply(rows, step))
  {
    match step
    case Create(customer, id, req, now, _) =>
      ChoosingKeepsIndex(rows[id := Location(customer, Normalise(req.details), false, now)], customer, id);
    case Update(customer, id, req, _) =>
      if id in rows {
        ChoosingKeepsIndex(rows[id := rows[id].(details := Normalise(req.details))], customer, id);
      }
    case Delete(_, _, _, _) => DeletingKeepsIndex(rows, step);
    case SetDefault(customer, id, _) => ChoosingKeepsIndex(rows, customer, id);
  }

  lemma OthersStaySettled(rows: Table, step: Step, customer: CustomerId)
    requires Enabled(rows, step) && customer != step.customer
    ensures Settled(rows, customer) <==> Settled(Apply(rows, step), customer)
  {
    var after := Apply(rows, step);
    forall id ensures Owned(rows, customer, id) <==> Owned(after, customer, id)
              ensures DefaultOf(rows, customer, id) <==> DefaultOf(after, customer, id)
    {
      if Owned(rows, customer, id) || Owned(after, customer, id) {
        OtherCustomersKeepTheirs(rows, step, id);
      }
    }
  }

  /** Choosing a default settles its customer, whatever went wrong before. */
  lemma ChoosingSettles(rows: Table, customer: CustomerId, id: LocationId)
    requires Owned(rows, customer, id)
    ensures Settled(WithDefault(rows, customer, id), customer)
    ensures forall other: LocationId :: DefaultOf(WithDefault(rows, customer, id), customer, other) <==> other == id
  {
    assert DefaultOf(WithDefault(rows, customer, id), customer, id);
  }

  lemma CreateSettles(rows: Table, step: Step)
    requires step.Create? && Enabled(rows, step) && Settled(rows, step.customer)
    ensures Settled(Apply(rows, step), step.customer) <==> !CutShort(rows, step)
  {
    var customer, id := step.customer, step.id;
    var details := Normalise(step.req.details);
    if Acceptable(details) && Reaches(step, 0) {
      var inserted := rows[id := Location(customer, details, false, step.now)];
      assert Owned(inserted, customer, id);
      if (step.req.isDefault || !HasLocations(rows, customer)) && Reaches(step, 1) {
        ChoosingSettles(inserted, customer, id);
      } else if HasLocations(rows, customer) {
        var any :| any in rows && rows[any].customer == customer;
        assert Owned(rows, customer, any);
        var d :| DefaultOf(rows, customer, d);
        assert DefaultOf(inserted, customer, d);
      } else {
        assert forall i :: !Owned(rows, customer, i);
      }
    }
  }

  lemma UpdateSettles(rows: Table, step: Step)
    requires step.Update? && Enabled(rows, step) && Settled(rows, step.customer)
    ensures Settled(Apply(rows, step), step.customer)
  {
    var customer, id := step.customer, step.id;
    var details := Normalise(step.req.details);
    if Acceptable(details) && Owned(rows, customer, id) && Reaches(step, 0) {
      var updated := rows[id := rows[id].(details := details)];
      if step.req.isDefault && Reaches(step, 1) {
        ChoosingSettles(updated, customer, id);
      } else {
        var d :| DefaultOf(rows, customer, d);
        assert DefaultOf(updated, customer, d);
      }
    }
  }

  lemma DeleteSettles(rows: Table, step: Step)
    requires step.Delete? && Enabled(rows, step) && OneDefaultAtMost(rows) && Settled(rows, step.customer)
    ensures Settled(Apply(rows, step), step.customer) <==> !CutShort(rows, step)
  {
    var customer, id := step.customer, step.id;
    if Owned(rows, customer, id) && Reaches(step, 0) {
      var remaining := rows - {id};
      if rows[id].isDefault {
        assert forall i :: !DefaultOf(remaining, customer, i);
        if HasLocations(remaining, customer) {
          var any :| any in remaining && remaining[any].customer == customer;
          assert Owned(remaining, customer, any);
          if Reaches(step, 1) {
            assert DefaultOf(Apply(rows, step), customer, step.promoted);
          }
        } else {
          assert forall i :: !Owned(remaining, customer, i);
        }
      } else {
        var d :| DefaultOf(rows, customer, d);
        assert DefaultOf(remaining, customer, d);
      }
    }
  }

  /**
   A call leaves its customer with a default exactly when it is not cut between the
   two writes that must go together.
   */
  lemma StepSettles(rows: Table, step: Step)
    requires Enabled(rows, step) && OneDefaultAtMost(rows) && AllSettled(rows)
    ensures AllSettled(Apply(rows, step)) <==> !CutShort(rows, step)
  {
    assert Settled(rows, step.customer);
    match step {
      case Create(_, _, _, _, _) => CreateSettles(rows, step);
      case Update(_, _, _, _) => UpdateSettles(rows, step);
      case Delete(_, _, _, _) => DeleteSettles(rows, step);
      case SetDefault(customer, id, _) =>
        if Owned(rows, customer, id) {
          ChoosingSettles(rows, customer, id);
        }
    }
    forall customer: CustomerId | customer != step.customer ensures Settled(Apply(rows, step), customer) {
      assert Settled(rows, customer);
      OthersStaySettled(rows, step, customer);
    }
  }

  ghost predicate NeverCutShort(rows: Table, steps: seq<Step>)
    requires ValidRun(rows, steps)
  {
    steps == [] ||
    (NeverCutShort(rows, steps[..|steps| - 1]) && !CutShort(Exec(rows, steps[..|steps| - 1]), steps[|steps| - 1]))
  }

  predicate Clean(d: Details) {
    Acceptable(d) && Normalise(d) == d
  }

  /** A stored row keeps its details, or gets the ones requested. */
  lemma StepWritesRequestedDetails(rows: Table, step: Step, id: LocationId)
    requires Enabled(rows, step) && id in Apply(rows, step)
    ensures var d := Apply(rows, step)[id].details;
            || (id in rows && d == rows[id].details)
            || ((step.Create? || step.Update?) && d == Normalise(step.req.details) && Acceptable(d))
  {
    hide Normalise, Acceptable, HasLocations;
    match step
    case Create(_, _, _, _, _) =>
    case Update(_, _, _, _) =>
    case Delete(_, _, _, _) =>
    case SetDefault(_, _, _) =>
  }

  ghost predicate UncutRun(rows: Table, steps: seq<Step>) {
    ValidRun(rows, steps) && NeverCutShort(rows, steps)
  }

  /** No run gives a customer two defaults, and stored details are always trimmed and acceptable. */
  lemma {:induction false} AtMostOneDefault(steps: seq<Step>)
    requires ValidRun(map[], steps)
    ensures var rows := Exec(map[], steps);
            && OneDefaultAtMost(rows)
            && forall id :: id in rows ==> Clean(rows[id].details)
    decreases |steps|
  {
    if steps != [] {
      var n := |steps| - 1;
      var before, step := Exec(map[], steps[..n]), steps[n];
      AtMostOneDefault(steps[..n]);
      StepKeepsIndex(before, step);
      forall id | id in Apply(before, step) ensures Clean(Apply(before, step)[id].details) {
        StepWritesRequestedDetails(before, step, id);
        if step.Create? || step.Update? {
          NormaliseIdempotent(step.req.details);
        }
      }
    }
  }

  /** While no call is cut short, a customer with any location has exactly one default. */
  lemma {:induction false} ExactlyOneDefault(steps: seq<Step>, customer: CustomerId)
    requires UncutRun(map[], steps)
    ensures var rows := Exec(map[], steps);
            && AllSettled(rows)
            && (HasLocations(rows, customer) ==>
                  exists d :: DefaultOf(rows, customer, d) && forall other :: DefaultOf(rows, customer, other) ==>
                      other == d)
    decreases |steps|
  {
    var rows := Exec(map[], steps);
    if steps != [] {
      var n := |steps| - 1;
      ExactlyOneDefault(steps[..n], customer);
      AtMostOneDefault(steps[..n]);
      StepSettles(Exec(map[], steps[..n]), steps[n]);
    }
    AtMostOneDefault(steps);
    assert Settled(rows, customer);
    if HasLocations(rows, customer) {
      var any :| any in rows && rows[any].customer == customer;
      assert Owned(rows, customer, any);
      var d :| DefaultOf(rows, customer, d);
    }
  }

  /** Deleting the default leaves one default among the locations left, if any, and changes nothing else about them. */
  lemma DeletingChangesNothingElse(rows: Table, customer: CustomerId, id: LocationId, promoted: LocationId)
    requires OneDefaultAtMost(rows) && DefaultOf(rows, customer, id)
    requires Enabled(rows, Step.Delete(customer, id, promoted, None))
    ensures var after := Apply(rows, Step.Delete(customer, id, promoted, None));
            && after.Keys == rows.Keys - {id}
            && (forall i :: i in after ==> after[i].(isDefault := rows[i].isDefault) == rows[i])
            && (forall d: LocationId :: DefaultOf(after, customer, d) <==>
                HasLocations(after, customer) && d == promoted)
  {
    var after := Apply(rows, Step.Delete(customer, id, promoted, None));
    assert forall i :: Owned(after, customer, i) <==> Owned(rows - {id}, customer, i);
    assert HasLocations(after, customer) <==> HasLocations(rows - {id}, customer) by {
      if i :| i in after && after[i].customer == customer { assert Owned(rows - {id}, customer, i); }
      if i :| i in rows - {id} && (rows - {id})[i].customer == customer { assert Owned(after, customer, i); }
    }
  }
}
