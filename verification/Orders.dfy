/**
 Placing orders under an idempotency key, and the order lifecycle.  Reads and
 writes of concurrent calls are separate steps: the key lookup, the prices, the
 insert and the second lookup after a key conflict; the status a move was decided
 on, and its write, which checks nothing.
 */
module Orders {
  import opened Prelude
  import opened OrderTotals

  type OrderId = nat
  type Offers = map<ProductId, Offer>

  datatype Status = Pending | Confirmed | InProduction | Ready | Delivered | Cancelled

  function Allowed(s: Status): seq<Status> {
    match s
    case Pending => [Confirmed, Cancelled]
    case Confirmed => [InProduction, Cancelled]
    case InProduction => [Ready]
    case Ready => [Delivered]
    case Delivered => []
    case Cancelled => []
  }

  /** `customer` is "" for walk-in orders, `key` is "" when no key was given; `trail` is every status it has had. */
  datatype Order = Order(key: string, customer: string, lines: seq<Item>, totals: Totals, status: Status,
      trail: seq<Status>)

  type Table = map<OrderId, Order>

  ghost predicate HasKey(orders: Table, id: OrderId, key: string) {
    id in orders && orders[id].key == key
  }

  ghost predicate KeyUsed(orders: Table, key: string) {
    key != "" && exists id :: HasKey(orders, id, key)
  }

  ghost predicate UniqueKeys(orders: Table) {
    forall a, b :: a in orders && b in orders && orders[a].key == orders[b].key != "" ==> a == b
  }

  datatype PlaceError = BadCart(error: CartError) | OtherCustomer | NotPersisted

  /** A found order is handed out unless the caller names another customer. */
  function Found(orders: Table, id: OrderId, customer: string): Result<OrderId, PlaceError>
    requires id in orders
  {
    if customer != "" && orders[id].customer != customer then Err(OtherCustomer) else Ok(id)
  }

  function NewOrder(key: string, customer: string, lines: seq<Item>, totals: Totals): Order {
    Order(key, customer, lines, totals, Pending, [Pending])
  }

  function Moved(o: Order, next: Status): Order {
    o.(status := next, trail := o.trail + [next])
  }

  /** The order a good cart becomes. */
  function Placed(key: string, customer: string, offers: Offers, items: seq<CartItem>, discount: real): Order
    requires forall i :: 0 <= i < |items| ==> ItemOk(offers, items[i])
  {
    NewOrder(key, customer, Lines(offers, items), TotalsOf(Subtotal(offers, items), discount))
  }

  class Service {
    var orders: Table

    constructor ()
      ensures orders == map[]
    {
      orders := map[];
    }

    /** A caller alone: the key's order if there is one, otherwise a new order with its lines and totals. */
    method PlaceOrder(key: string, customer: string, items: seq<CartItem>, discount: real, offers: Offers, id: OrderId,
                      fault: bool)
      returns (result: Result<OrderId, PlaceError>)
      requires UniqueKeys(orders) && id !in orders
      modifies this
      ensures UniqueKeys(orders)
      ensures items == [] ==> result == Err(BadCart(EmptyCart)) && orders == old(orders)
      ensures items != [] && KeyUsed(old(orders), key) ==> orders == old(orders)
      ensures forall i: OrderId :: items != [] && key != "" && HasKey(old(orders), i, key) ==>
                result == Found(old(orders), i, customer)
      ensures items != [] && !KeyUsed(old(orders), key) ==>
                if FirstBad(offers, items).Some?
                then orders == old(orders) && result == Err(BadCart(FirstBad(offers, items).value))
                else if fault then orders == old(orders) && result == Err(NotPersisted)
                else
                  && result == Ok(id) && (forall i :: 0 <= i < |items| ==> ItemOk(offers, items[i]))
                  && orders == old(orders)[id := Placed(key, customer, offers, items, discount)]
      ensures items != [] && key != "" ==>
                forall i: OrderId :: i in old(orders) && old(orders)[i].key == key ==>
                  orders == old(orders)
                  && result == if customer == "" || customer == old(orders)[i].customer
                               then Ok(i) else Err(OtherCustomer)
      ensures items != [] && (key == "" || forall i :: i in old(orders) ==> old(orders)[i].key != key) ==>
                && (result == Ok(id) <==>
                      !fault && forall i :: i in items ==>
                        i.quantity > 0 && i.product in offers && offers[i.product].available)
                && (result == Ok(id) ==>
                      && id in orders && orders - {id} == old(orders)
                      && var o := orders[id];
                      && o == Order(key, customer, o.lines, o.totals, Pending, [Pending])
                      && |o.lines| == |items| && o.totals == TotalsOf(LineSum(o.lines), discount)
                      && forall i :: 0 <= i < |items| ==>
                           && items[i].product in offers
                           && var price := offers[items[i].product].price;
                           && o.lines[i] == Item(items[i].product, items[i].quantity, price,
                                                 price * items[i].quantity as real))
                && (result != Ok(id) ==> orders == old(orders) && result.Err?)
    {
      if items == [] {
        return Err(BadCart(EmptyCart));
      }
      if key != "" {
        if i :| i in orders && orders[i].key == key {
          assert HasKey(orders, i, key);
          return Found(orders, i, customer);
        }
      }
      NoBadLine(offers, items);
      var built := BuildOrder(offers, items, discount);
      if built.Err? {
        return Err(BadCart(built.error));
      }
      if fault {
        return Err(NotPersisted);
      }
      LinesAddUp(offers, items);
      orders := orders[id := NewOrder(key, customer, built.value.0, built.value.1)];
      return Ok(id);
    }

    method UpdateStatus(id: OrderId, next: Status) returns (ok: bool)
      modifies this
      ensures ok <==> id in old(orders) && next in Allowed(old(orders)[id].status)
      ensures orders == if ok then old(orders)[id := Moved(old(orders)[id], next)] else old(orders)
      ensures ok <==>
                && id in old(orders)
                && (old(orders)[id].status, next) in {(Pending, Confirmed), (Pending, Cancelled),
                     (Confirmed, InProduction), (Confirmed, Cancelled), (InProduction, Ready), (Ready, Delivered)}
      ensures ok ==>
                && id in orders && orders[id].status == next && orders[id].trail == old(orders)[id].trail + [next]
                && orders[id].(status := old(orders)[id].status, trail := old(orders)[id].trail) == old(orders)[id]
    {
      if id !in orders {
        return false;
      }
      var allowed := Allowed(orders[id].status);
      var valid := false;
      var i := 0;
      while i < |allowed| && !valid
        invariant 0 <= i <= |allowed|
        invariant valid <==> next in allowed[..i]
      {
        valid := allowed[i] == next;
        i := i + 1;
      }
      if valid {
        orders := orders[id := Moved(orders[id], next)];
      }
      return valid;
    }

    method CancelOrder(id: OrderId) returns (ok: bool)
      modifies this
      ensures ok <==> id in old(orders) && Cancelled in Allowed(old(orders)[id].status)
      ensures orders == if ok then old(orders)[id := Moved(old(orders)[id], Cancelled)] else old(orders)
      ensures ok <==> id in old(orders) && old(orders)[id].status in {Pending, Confirmed}
      ensures ok ==> id in orders && orders[id].status == Cancelled
    {
      if id !in orders || (orders[id].status != Pending && orders[id].status != Confirmed) {
        return false;
      }
      orders := orders[id := Moved(orders[id], Cancelled)];
      return true;
    }
  }

  // ----- concurrent calls ----------------------------------------------------

  datatype Phase =
    | Looking
    | Building
    | Inserting(lines: seq<Item>, totals: Totals)
    | Conflicted
    | Done(result: Result<OrderId, PlaceError>)

  datatype Call = Call(key: string, customer: string, items: seq<CartItem>, discount: real, phase: Phase)

  /** A status change that was found allowed and is not yet written. */
  datatype Move = Move(id: OrderId, next: Status)

  datatype State = State(orders: Table, calls: map<nat, Call>, moves: map<nat, Move>)

  datatype Step =
    | Begin(k: nat, key: string, customer: string, items: seq<CartItem>, discount: real)
    | Lookup(k: nat)
    | Build(k: nat, offers: Offers)
    | Insert(k: nat, id: OrderId, fault: bool)
    | LookupAgain(k: nat)
    | BeginUpdate(m: nat, id: OrderId, next: Status)
    | BeginCancel(m: nat, id: OrderId)
    | WriteMove(m: nat)
    | DropMove(m: nat)

  predicate Enabled(s: State, step: Step) {
    match step
    case Begin(k, _, _, _, _) => k !in s.calls
    case Lookup(k) => k in s.calls && s.calls[k].phase.Looking?
    case Build(k, _) => k in s.calls && s.calls[k].phase.Building?
    case Insert(k, id, _) => k in s.calls && s.calls[k].phase.Inserting? && id !in s.orders
    case LookupAgain(k) => k in s.calls && s.calls[k].phase.Conflicted?
    case BeginUpdate(m, _, _) => m !in s.moves
    case BeginCancel(m, _) => m !in s.moves
    case WriteMove(m) => m in s.moves
    case DropMove(m) => m in s.moves
  }

  function At(s: State, k: nat, phase: Phase): State
    requires k in s.calls
  {
    s.(calls := s.calls[k := s.calls[k].(phase := phase)])
  }

  ghost function Looked(s: State, k: nat, otherwise: Phase): Phase
    requires k in s.calls
  {
    var c := s.calls[k];
    if KeyUsed(s.orders, c.key) then
      var id: OrderId :| HasKey(s.orders, id, c.key);
      Done(Found(s.orders, id, c.customer))
    else otherwise
  }

  function Built(offers: Offers, items: seq<CartItem>, discount: real): Phase {
    if FirstBad(offers, items).Some? then Done(Err(BadCart(FirstBad(offers, items).value)))
    else
      NoBadLine(offers, items);
      Inserting(Lines(offers, items), TotalsOf(Subtotal(offers, items), discount))
  }

  function Begun(s: State, m: nat, id: OrderId, next: Status): State {
    if id in s.orders && next in Allowed(s.orders[id].status) then s.(moves := s.moves[m := Move(id, next)]) else s
  }

  function Written(orders: Table, move: Move): Table {
    if move.id in orders then orders[move.id := Moved(orders[move.id], move.next)] else orders
  }

  ghost function Apply(s: State, step: Step): State
    requires Enabled(s, step)
  {
    match step
    case Begin(k, key, customer, items, discount) =>
      s.(calls := s.calls[k := Call(key, customer, items, discount,
          if items == [] then Done(Err(BadCart(EmptyCart))) else Looking)])
    case Lookup(k) => At(s, k, Looked(s, k, Building))
    case Build(k, offers) => At(s, k, Built(offers, s.calls[k].items, s.calls[k].discount))
    case Insert(k, id, fault) =>
      var c := s.calls[k];
      if KeyUsed(s.orders, c.key) then At(s, k, Conflicted)
      else if fault then At(s, k, Done(Err(NotPersisted)))
      else At(s.(orders := s.orders[id := NewOrder(c.key, c.customer, c.phase.lines, c.phase.totals)]), k, Done(Ok(id)))
    case LookupAgain(k) => At(s, k, Looked(s, k, Done(Err(NotPersisted))))
    case BeginUpdate(m, id, next) => Begun(s, m, id, next)
    case BeginCancel(m, id) =>
      if id in s.orders && (s.orders[id].status.Pending? || s.orders[id].status.Confirmed?)
      then s.(moves := s.moves[m := Move(id, Cancelled)]) else s
    case WriteMove(m) => s.(orders := Written(s.orders, s.moves[m]), moves := s.moves - {m})
    case DropMove(m) => s.(moves := s.moves - {m})
  }

  ghost predicate ValidRun(s: State, steps: seq<Step>)
    decreases |steps|, 0
  {
    steps == [] ||
    (ValidRun(s, steps[..|steps| - 1]) && Enabled(Exec(s, steps[..|steps| - 1]), steps[|steps| - 1]))
  }

  ghost function Exec(s: State, steps: seq<Step>): State
    requires ValidRun(s, steps)
    decreases |steps|, 1
  {
    if steps == [] then s else Apply(Exec(s, steps[..|steps| - 1]), steps[|steps| - 1])
  }

  const EMPTY := State(map[], map[], map[])

  // ----- placement -----------------------------------------------------------

  /** A finished call was given an order with its key and, if it named one, its customer; a built one is consistent. */
  ghost predicate CallInv(orders: Table, c: Call) {
    && (c.phase.Done? && c.phase.result.Ok? ==>
          var id := c.phase.result.value;
          id in orders && orders[id].key == c.key && (c.customer != "" ==> orders[id].customer == c.customer))
    && (c.phase.Inserting? ==> Consistent(c.phase.lines, c.phase.totals))
    && (c.phase.Looking? || c.phase.Building? ==> c.items != [])
  }

  ghost predicate TableInv(orders: Table) {
    && UniqueKeys(orders)
    && (forall id :: id in orders ==> Consistent(orders[id].lines, orders[id].totals))
  }

  ghost predicate Inv(s: State) {
    && TableInv(s.orders)
    && (forall k :: k in s.calls ==> CallInv(s.orders, s.calls[k]))
  }

  /** Orders are never removed and never change key, customer, lines or totals. */
  ghost predicate Grows(before: Table, after: Table) {
    forall id :: id in before ==>
      && id in after && after[id].key == before[id].key && after[id].customer == before[id].customer
      && after[id].lines == before[id].lines && after[id].totals == before[id].totals
  }

  lemma StepGrowsTable(s: State, step: Step)
    requires Enabled(s, step)
    ensures Grows(s.orders, Apply(s, step).orders)
  {
    hide Looked, Built;
  }

  lemma StepKeepsTable(s: State, step: Step)
    requires Inv(s) && Enabled(s, step)
    ensures TableInv(Apply(s, step).orders)
  {
    hide Looked, Built, Consistent;
    if step.Insert? {
      var c := s.calls[step.k];
      assert CallInv(s.orders, c);
      forall i | i in s.orders && s.orders[i].key == c.key != "" ensures KeyUsed(s.orders, c.key) {
        assert HasKey(s.orders, i, c.key);
      }
    }
  }

  lemma LookedIsRight(s: State, k: nat, otherwise: Phase)
    requires k in s.calls && CallInv(s.orders, s.calls[k].(phase := otherwise))
    ensures CallInv(s.orders, s.calls[k].(phase := Looked(s, k, otherwise)))
  {
    hide Consistent;
  }

  lemma BuiltIsRight(orders: Table, c: Call, offers: Offers)
    requires c.items != []
    ensures CallInv(orders, c.(phase := Built(offers, c.items, c.discount)))
  {
    hide Consistent;
    NoBadLine(offers, c.items);
    if FirstBad(offers, c.items).None? {
      BuiltIsConsistent(offers, c.items, c.discount);
    }
  }

  lemma CallCarries(before: Table, after: Table, c: Call)
    requires Grows(before, after) && CallInv(before, c)
    ensures CallInv(after, c)
  {
  }

  /** A step changes one call at most, and leaves it agreeing with the table. */
  lemma StepKeepsCall(s: State, step: Step, k: nat)
    requires Inv(s) && Enabled(s, step) && k in Apply(s, step).calls
    ensures CallInv(Apply(s, step).orders, Apply(s, step).calls[k])
  {
    hide Looked, Built, Consistent;
    StepGrowsTable(s, step);
    if k in s.calls {
      assert CallInv(s.orders, s.calls[k]);
      CallCarries(s.orders, Apply(s, step).orders, s.calls[k]);
      match step
      case Lookup(j) => if j == k { LookedIsRight(s, k, Building); }
      case LookupAgain(j) => if j == k { LookedIsRight(s, k, Done(Err(NotPersisted))); }
      case Build(j, offers) => if j == k { BuiltIsRight(s.orders, s.calls[k], offers); }
      case _ =>
    }
  }

  lemma StepKeepsInv(s: State, step: Step)
    requires Inv(s) && Enabled(s, step)
    ensures Inv(Apply(s, step))
  {
    hide Apply, CallInv, TableInv;
    StepKeepsTable(s, step);
    forall k | k in Apply(s, step).calls ensures CallInv(Apply(s, step).orders, Apply(s, step).calls[k]) {
      StepKeepsCall(s, step, k);
    }
  }

  lemma {:induction false} RunKeepsInv(steps: seq<Step>)
    requires ValidRun(EMPTY, steps)
    ensures Inv(Exec(EMPTY, steps))
    decreases |steps|
  {
    hide Apply, Enabled;
    if steps != [] {
      RunKeepsInv(steps[..|steps| - 1]);
      StepKeepsInv(Exec(EMPTY, steps[..|steps| - 1]), steps[|steps| - 1]);
    }
  }

  /**
   However calls interleave, all successful ones with one key were given one and the
   same order, their own customer's.
   */
  lemma OneOrderPerKey(steps: seq<Step>, j: nat, k: nat)
    requires ValidRun(EMPTY, steps)
    requires var s := Exec(EMPTY, steps);
             && j in s.calls && s.calls[j].phase.Done? && s.calls[j].phase.result.Ok?
             && k in s.calls && s.calls[k].phase.Done? && s.calls[k].phase.result.Ok?
             && s.calls[j].key == s.calls[k].key != ""
    ensures var s := Exec(EMPTY, steps);
            && s.calls[j].phase.result == s.calls[k].phase.result
            && (s.calls[j].customer != "" && s.calls[k].customer != "" ==> s.calls[j].customer == s.calls[k].customer)
  {
    RunKeepsInv(steps);
    var s := Exec(EMPTY, steps);
    assert CallInv(s.orders, s.calls[j]) && CallInv(s.orders, s.calls[k]);
  }

  /** Every stored order has lines that add up, and the totals of its own lines. */
  lemma StoredTotalsAreTheirLines(steps: seq<Step>, id: OrderId)
    requires ValidRun(EMPTY, steps) && id in Exec(EMPTY, steps).orders
    ensures Consistent(Exec(EMPTY, steps).orders[id].lines, Exec(EMPTY, steps).orders[id].totals)
  {
    RunKeepsInv(steps);
  }

  // ----- lifecycle -----------------------------------------------------------

  const MAIN_LINE := [Pending, Confirmed, InProduction, Ready, Delivered]

  /** A trail is a beginning of the main line, or one of its first two beginnings and then CANCELLED. */
  ghost predicate TrailOk(trail: seq<Status>) {
    || (trail != [] && trail <= MAIN_LINE)
    || trail == [Pending, Cancelled]
    || trail == [Pending, Confirmed, Cancelled]
  }

  ghost predicate OrderInv(o: Order) {
    TrailOk(o.trail) && o.status == o.trail[|o.trail| - 1]
  }

  /**
   A status write keeps the lifecycle exactly when the status it overwrites
   allows the move; a call that decided on an older status need not.
   */
  lemma MoveKeepsTrail(o: Order, next: Status)
    requires OrderInv(o)
    ensures OrderInv(Moved(o, next)) <==> next in Allowed(o.status)
  {
    var longer := o.trail + [next];
    if o.trail <= MAIN_LINE {
      var n := |o.trail|;
      assert o.trail == MAIN_LINE[..n] && o.status == MAIN_LINE[n - 1];
      assert longer <= MAIN_LINE <==> n < 5 && next == MAIN_LINE[n];
      assert longer == [Pending, Cancelled] <==> n == 1 && next == Cancelled;
      assert longer == [Pending, Confirmed, Cancelled] <==> n == 2 && next == Cancelled;
    } else {
      assert longer[|o.trail| - 1] == Cancelled;
      assert o.trail == [Pending, Cancelled] || o.trail == [Pending, Confirmed, Cancelled];
      assert forall i :: 0 <= i < |MAIN_LINE| ==> MAIN_LINE[i] != Cancelled;
      assert |longer| == |o.trail| + 1;
    }
  }

  /** Every order is on its way along the main line, or cancelled early. */
  ghost predicate AllOnTrail(orders: Table) {
    forall id :: id in orders ==> OrderInv(orders[id])
  }

  /** The write of a status call finds a status from which its move is allowed. */
  ghost predicate Fresh(s: State, step: Step) {
    step.WriteMove? && step.m in s.moves && s.moves[step.m].id in s.orders ==>
      s.moves[step.m].next in Allowed(s.orders[s.moves[step.m].id].status)
  }

  lemma StepKeepsTrails(s: State, step: Step)
    requires Enabled(s, step) && AllOnTrail(s.orders)
    ensures AllOnTrail(Apply(s, step).orders) <==> Fresh(s, step)
  {
    hide Looked, Built, OrderInv;
    if step.WriteMove? {
      if s.moves[step.m].id in s.orders {
        MoveKeepsTrail(s.orders[s.moves[step.m].id], s.moves[step.m].next);
        assert s.moves[step.m].id in Apply(s, step).orders;
      }
    } else if step.Insert? {
      NewOrderOnTrail(s.calls[step.k]);
    }
  }

  lemma NewOrderOnTrail(c: Call)
    requires c.phase.Inserting?
    ensures OrderInv(NewOrder(c.key, c.customer, c.phase.lines, c.phase.totals))
  {
    assert [Pending] <= MAIN_LINE;
  }

  ghost predicate FreshRun(s: State, steps: seq<Step>)
    requires ValidRun(s, steps)
    decreases |steps|
  {
    steps == [] || (FreshRun(s, steps[..|steps| - 1]) && Fresh(Exec(s, steps[..|steps| - 1]), steps[|steps| - 1]))
  }

  ghost predicate AlwaysOnTrail(s: State, steps: seq<Step>)
    requires ValidRun(s, steps)
    decreases |steps|
  {
    AllOnTrail(Exec(s, steps).orders) && (steps == [] || AlwaysOnTrail(s, steps[..|steps| - 1]))
  }

  /** All orders keep the lifecycle throughout a run exactly when every status write finds a status that allows it. */
  lemma {:induction false} LifecycleHoldsExactly(s: State, steps: seq<Step>)
    requires ValidRun(s, steps) && AllOnTrail(s.orders)
    ensures AlwaysOnTrail(s, steps) <==> FreshRun(s, steps)
    decreases |steps|
  {
    hide Apply, Enabled, AllOnTrail, Fresh;
    if steps != [] {
      LifecycleHoldsExactly(s, steps[..|steps| - 1]);
      if AllOnTrail(Exec(s, steps[..|steps| - 1]).orders) {
        StepKeepsTrails(Exec(s, steps[..|steps| - 1]), steps[|steps| - 1]);
      }
    }
  }

  /**
   In a run without stale writes a delivered order passed through the whole main
   line, and a cancelled one never reached production.
   */
  lemma LifecycleFollowsTheMainLine(steps: seq<Step>, id: OrderId)
    requires ValidRun(EMPTY, steps) && FreshRun(EMPTY, steps) && id in Exec(EMPTY, steps).orders
    ensures var o := Exec(EMPTY, steps).orders[id];
            && TrailOk(o.trail) && o.status == o.trail[|o.trail| - 1]
            && (o.status.Delivered? ==> o.trail == MAIN_LINE)
            && (o.status.Cancelled? ==> InProduction !in o.trail)
  {
    LifecycleHoldsExactly(EMPTY, steps);
    var o := Exec(EMPTY, steps).orders[id];
    assert OrderInv(o);
    if o.trail <= MAIN_LINE {
      assert o.trail == MAIN_LINE[..|o.trail|];
      assert forall i :: 0 <= i < |o.trail| ==> o.trail[i] == MAIN_LINE[i];
      assert o.status == MAIN_LINE[|o.trail| - 1];
      if o.status.Delivered? {
        assert |o.trail| == 5;
      }
    }
  }

  /** Every status write comes right after its own call's read. */
  ghost predicate Uninterrupted(s: State, steps: seq<Step>)
    requires ValidRun(s, steps)
    decreases |steps|
  {
    steps == [] ||
    var before := steps[..|steps| - 1];
    var step := steps[|steps| - 1];
    && Uninterrupted(s, before)
    && (step.WriteMove? ==>
          before != [] && (before[|before| - 1].BeginUpdate? || before[|before| - 1].BeginCancel?)
            && before[|before| - 1].m == step.m)
  }

  lemma BegunIsAllowed(s: State, step: Step)
    requires Enabled(s, step) && (step.BeginUpdate? || step.BeginCancel?)
    ensures Apply(s, step).orders == s.orders
    ensures step.m in Apply(s, step).moves ==>
              var move := Apply(s, step).moves[step.m];
              move.id in s.orders && move.next in Allowed(s.orders[move.id].status)
  {
  }

  /** With each status call one step, no write is stale, so every order follows the main line. */
  lemma {:induction false} UninterruptedIsFresh(s: State, steps: seq<Step>)
    requires ValidRun(s, steps) && Uninterrupted(s, steps)
    ensures FreshRun(s, steps)
    decreases |steps|
  {
    hide Apply, Enabled;
    if steps != [] {
      var before := steps[..|steps| - 1];
      UninterruptedIsFresh(s, before);
      if steps[|steps| - 1].WriteMove? {
        BegunIsAllowed(Exec(s, before[..|before| - 1]), before[|before| - 1]);
      }
    }
  }

  lemma Append(s: State, steps: seq<Step>, step: Step)
    requires ValidRun(s, steps) && Enabled(Exec(s, steps), step)
    ensures ValidRun(s, steps + [step])
    ensures Exec(s, steps + [step]) == Apply(Exec(s, steps), step)
  {
    assert (steps + [step])[..|steps + [step]| - 1] == steps;
  }

  /**
   The racing calls themselves: after any run that leaves an order pending, a
   confirmation and a cancellation decided on PENDING can both be written, the
   cancellation first; the order then goes on as if it had not been cancelled.
   */
  lemma CancelledOrderConfirmed(before: seq<Step>, id: OrderId) returns (steps: seq<Step>)
    requires ValidRun(EMPTY, before)
    requires var s := Exec(EMPTY, before);
             id in s.orders && OrderInv(s.orders[id]) && s.orders[id].status.Pending? && s.moves == map[]
    ensures before <= steps && ValidRun(EMPTY, steps) && id in Exec(EMPTY, steps).orders
    ensures var o := Exec(EMPTY, steps).orders[id];
            && o.trail == Exec(EMPTY, before).orders[id].trail + [Cancelled, Confirmed]
            && o.status.Confirmed? && !OrderInv(o)
  {
    var o := Exec(EMPTY, before).orders[id];
    Append(EMPTY, before, BeginUpdate(1, id, Confirmed));
    steps := before + [BeginUpdate(1, id, Confirmed)];
    Append(EMPTY, steps, BeginCancel(2, id));
    steps := steps + [BeginCancel(2, id)];
    Append(EMPTY, steps, WriteMove(2));
    steps := steps + [WriteMove(2)];
    MoveKeepsTrail(o, Cancelled);
    MoveKeepsTrail(Moved(o, Cancelled), Confirmed);
    Append(EMPTY, steps, WriteMove(1));
    steps := steps + [WriteMove(1)];
    assert o.trail + [Cancelled] + [Confirmed] == o.trail + [Cancelled, Confirmed];
  }

  /** Such runs exist for every good cart: a walk-in order placed without a key. */
  lemma PendingIsReachable(items: seq<CartItem>, discount: real, offers: Offers, id: OrderId) returns (steps: seq<Step>)
    requires items != [] && FirstBad(offers, items).None?
    ensures ValidRun(EMPTY, steps)
    ensures var s := Exec(EMPTY, steps);
            id in s.orders && OrderInv(s.orders[id]) && s.orders[id].status.Pending? && s.moves == map[]
  {
    hide Consistent;
    steps := [];
    Append(EMPTY, steps, Begin(1, "", "", items, discount));
    steps := steps + [Begin(1, "", "", items, discount)];
    Append(EMPTY, steps, Lookup(1));
    steps := steps + [Lookup(1)];
    Append(EMPTY, steps, Build(1, offers));
    steps := steps + [Build(1, offers)];
    NewOrderOnTrail(Exec(EMPTY, steps).calls[1]);
    Append(EMPTY, steps, Insert(1, id, false));
    steps := steps + [Insert(1, id, false)];
  }
}
