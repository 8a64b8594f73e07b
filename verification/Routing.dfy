/**
 The routing engine: candidates are scored in place against the active rules,
 the best is chosen, and the rule that explains the choice is recorded.  Scores
 are whole numbers, as every term of the source's floating-point sum is.
 */
module Routing {
  import opened Prelude

  type StoreId = nat
  type OrderId = nat
  type RuleId = nat

  /** `maxJobs` is the numeric "max_active_jobs" condition, if the conditions hold one. */
  datatype Rule = Rule(id: RuleId, loadBalance: bool, priority: int, active: bool, target: Option<StoreId>,
      maxJobs: Option<real>)

  class StoreCandidate {
    const storeId: StoreId
    const activeJobs: nat
    const productMatches: nat
    const hasProduct: bool
    var score: int

    constructor (storeId: StoreId, activeJobs: nat, productMatches: nat)
      ensures this.storeId == storeId && this.activeJobs == activeJobs && this.productMatches == productMatches
      ensures hasProduct == (productMatches > 0)
    {
      this.storeId := storeId;
      this.activeJobs := activeJobs;
      this.productMatches := productMatches;
      this.hasProduct := productMatches > 0;
      this.score := 0;
    }
  }

  // ----- scoring -------------------------------------------------------------

  function LoadScore(jobs: nat): int {
    if 100 - 10 * jobs < 0 then 0 else 100 - 10 * jobs
  }

  function Bonus(priority: int): int {
    if 200 - priority < 0 then 0 else 200 - priority
  }

  predicate Targets(rule: Rule, store: StoreId) {
    rule.target == Some(store)
  }

  function RuleScore(rule: Rule, store: StoreId, jobs: nat): int {
    if !rule.active then 0
    else (if Targets(rule, store) then Bonus(rule.priority) else 0)
         + (if rule.loadBalance && rule.maxJobs.Some? && jobs as real <= rule.maxJobs.value then 25 else 0)
  }

  function RulesScore(rules: seq<Rule>, store: StoreId, jobs: nat): int {
    if rules == [] then 0
    else RulesScore(rules[..|rules| - 1], store, jobs) + RuleScore(rules[|rules| - 1], store, jobs)
  }

  function Score(c: StoreCandidate, rules: seq<Rule>): int {
    (if c.hasProduct then 100 else 0) + LoadScore(c.activeJobs) + RulesScore(rules, c.storeId, c.activeJobs)
  }

  method ScoreCandidate(c: StoreCandidate, rules: seq<Rule>) returns (score: int)
    ensures score == Score(c, rules)
  {
    score := 0;
    if c.hasProduct {
      score := score + 100;
    }
    var loadScore := 100 - c.activeJobs * 10;
    if loadScore < 0 {
      loadScore := 0;
    }
    score := score + loadScore;
    var i := 0;
    while i < |rules|
      invariant 0 <= i <= |rules|
      invariant score == (if c.hasProduct then 100 else 0) + LoadScore(c.activeJobs)
                         + RulesScore(rules[..i], c.storeId, c.activeJobs)
    {
      var rule := rules[i];
      assert rules[..i + 1][..i] == rules[..i];
      i := i + 1;
      if !rule.active {
        continue;
      }
      if rule.target == Some(c.storeId) {
        var bonus := 200 - rule.priority;
        if bonus < 0 {
          bonus := 0;
        }
        score := score + bonus;
      }
      if rule.loadBalance && rule.maxJobs.Some? && c.activeJobs as real <= rule.maxJobs.value {
        score := score + 25;
      }
    }
    assert rules[..i] == rules;
  }

  lemma {:induction false} RulesScoreConcat(a: seq<Rule>, b: seq<Rule>, store: StoreId, jobs: nat)
    ensures RulesScore(a + b, store, jobs) == RulesScore(a, store, jobs) + RulesScore(b, store, jobs)
    decreases |b|
  {
    if b == [] {
      assert a + b == a;
    } else {
      assert (a + b)[..|a + b| - 1] == a + b[..|b| - 1];
      RulesScoreConcat(a, b[..|b| - 1], store, jobs);
    }
  }

  /**
   Without rules a candidate has 100 points for a matching product, and 100 less 10
   for each active job, at least 0.  A rule adds its own points wherever it stands
   among the others: for the store it targets, 200 less its priority number, at
   least 0; and 25 if it balances load and the store's jobs are within its maximum.
   An inactive rule adds nothing.
   */
  lemma RuleAddsItsPoints(c: StoreCandidate, before: seq<Rule>, r: Rule, after: seq<Rule>)
    ensures Score(c, []) == (if c.hasProduct then 100 else 0)
                            + (if c.activeJobs < 10 then 100 - 10 * c.activeJobs else 0)
    ensures !r.active ==> Score(c, before + [r] + after) == Score(c, before + after)
    ensures r.active ==>
              Score(c, before + [r] + after) == Score(c, before + after)
                + (if r.target == Some(c.storeId) && r.priority < 200 then 200 - r.priority else 0)
                + (if r.loadBalance && r.maxJobs.Some? && c.activeJobs as real <= r.maxJobs.value then 25 else 0)
  {
    RulesScoreConcat(before + [r], after, c.storeId, c.activeJobs);
    RulesScoreConcat(before, [r], c.storeId, c.activeJobs);
    RulesScoreConcat(before, after, c.storeId, c.activeJobs);
    assert [r][..0] == [];
  }

  /** Of two otherwise equal active rules for the store, the more urgent one gives it more points. */
  lemma UrgentRulesAddMore(c: StoreCandidate, before: seq<Rule>, r: Rule, urgent: Rule, after: seq<Rule>)
    requires r.active && r.target == Some(c.storeId)
    requires urgent == r.(priority := urgent.priority, id := urgent.id) && urgent.priority < r.priority
    ensures Score(c, before + [r] + after) <= Score(c, before + [urgent] + after)
    ensures urgent.priority < 200 <==> Score(c, before + [r] + after) < Score(c, before + [urgent] + after)
  {
    RuleAddsItsPoints(c, before, r, after);
    RuleAddsItsPoints(c, before, urgent, after);
  }

  // ----- choice --------------------------------------------------------------

  /** Candidate k comes first under score descending, active jobs ascending, input order. */
  ghost predicate IsBest(candidates: seq<StoreCandidate>, rules: seq<Rule>, k: nat) {
    && k < |candidates|
    && forall j :: 0 <= j < |candidates| && j != k ==>
         var sj, sk := Score(candidates[j], rules), Score(candidates[k], rules);
         || sj < sk
         || (sj == sk && candidates[j].activeJobs > candidates[k].activeJobs)
         || (sj == sk && candidates[j].activeJobs == candidates[k].activeJobs && k < j)
  }

  /** The first rule of the list that targets the store. */
  ghost predicate IsApplied(rules: seq<Rule>, store: StoreId, applied: Option<RuleId>) {
    if exists r :: r in rules && r.target == Some(store)
    then exists i :: 0 <= i < |rules| && applied == Some(rules[i].id) && rules[i].target == Some(store)
                     && forall j :: 0 <= j < i ==> rules[j].target != Some(store)
    else applied.None?
  }

  datatype DecisionStatus = Assigned | Overridden

  datatype Decision = Decision(order: OrderId, store: StoreId, rule: Option<RuleId>, score: int, status: DecisionStatus)

  /** The decisions of all orders, oldest first. */
  class DecisionLog {
    var decisions: seq<Decision>

    constructor ()
      ensures decisions == []
    {
      decisions := [];
    }

    /** `inserts` says whether the database takes the decision; without it the routing fails. */
    method RouteOrder(order: OrderId, candidates: seq<StoreCandidate>, rules: seq<Rule>, inserts: bool)
      returns (best: Option<nat>)
      modifies this, candidates
      ensures best.None? <==> candidates == [] || !inserts
      ensures best.None? ==> decisions == old(decisions)
      ensures forall c :: c in candidates ==> c.score == Score(c, rules)
      ensures best.Some? ==>
                && IsBest(candidates, rules, best.value)
                && var c := candidates[best.value];
                && |decisions| == |old(decisions)| + 1 && decisions[..|old(decisions)|] == old(decisions)
                && var d := decisions[|old(decisions)|];
                && d.order == order && d.store == c.storeId && d.score == Score(c, rules) && d.status.Assigned?
                && IsApplied(rules, c.storeId, d.rule)
    {
      if |candidates| == 0 {
        return None;
      }
      var i := 0;
      while i < |candidates|
        invariant 0 <= i <= |candidates|
        invariant forall j :: 0 <= j < i ==> candidates[j].score == Score(candidates[j], rules)
        invariant decisions == old(decisions)
      {
        candidates[i].score := ScoreCandidate(candidates[i], rules);
        i := i + 1;
      }
      var k := SelectBest(candidates, rules);
      var applied := AppliedRule(rules, candidates[k].storeId);
      if !inserts {
        return None;
      }
      decisions := decisions + [Decision(order, candidates[k].storeId, applied, candidates[k].score, Assigned)];
      return Some(k);
    }

    /**
     Marks the order's latest decision overridden and appends the manual one.  A
     failing lookup or update (`marks` false) is ignored; a failing insert is not,
     but leaves the mark.
     */
    method OverrideRoute(order: OrderId, store: Option<StoreId>, reason: string, marks: bool, inserts: bool)
      returns (ok: bool)
      modifies this
      ensures ok <==> store.Some? && reason != "" && inserts
      ensures decisions == if store.None? || reason == "" then old(decisions)
                           else Override(old(decisions), order, store.value, marks, inserts)
      ensures |old(decisions)| <= |decisions|
      ensures store.Some? && reason != "" ==>
                && (inserts ==> decisions[|old(decisions)|..] == [Decision(order, store.value, None, 0, Assigned)])
                && (!inserts ==> |decisions| == |old(decisions)|)
      ensures forall i :: 0 <= i < |old(decisions)| ==>
                decisions[i]
                == if store.Some? && reason != "" && marks && old(decisions)[i].order == order
                      && forall j :: i < j < |old(decisions)| ==> old(decisions)[j].order != order
                   then old(decisions)[i].(status := Overridden)
                   else old(decisions)[i]
    {
      LatestIsLast(decisions, order);
      if store.None? || reason == "" {
        return false;
      }
      if marks {
        var i := |decisions|;
        assert decisions[..i] == decisions;
        while i > 0 && decisions[i - 1].order != order
          invariant 0 <= i <= |decisions| && decisions == old(decisions)
          invariant Latest(decisions, order) == Latest(decisions[..i], order)
        {
          assert decisions[..i][..i - 1] == decisions[..i - 1];
          i := i - 1;
        }
        if i > 0 {
          decisions := decisions[i - 1 := decisions[i - 1].(status := Overridden)];
        }
      }
      if inserts {
        decisions := decisions + [Decision(order, store.value, None, 0, Assigned)];
      }
      return inserts;
    }
  }

  method SelectBest(candidates: seq<StoreCandidate>, rules: seq<Rule>) returns (k: nat)
    requires candidates != [] && forall i :: 0 <= i < |candidates| ==>
               candidates[i].score == Score(candidates[i], rules)
    ensures IsBest(candidates, rules, k)
  {
    k := 0;
    var i := 1;
    while i < |candidates|
      invariant 1 <= i <= |candidates| && k < i
      invariant IsBest(candidates[..i], rules, k)
    {
      var c, best := candidates[i], candidates[k];
      if c.score > best.score || (c.score == best.score && c.activeJobs < best.activeJobs) {
        k := i;
      }
      i := i + 1;
    }
    assert candidates[..i] == candidates;
  }

  method AppliedRule(rules: seq<Rule>, store: StoreId) returns (applied: Option<RuleId>)
    ensures IsApplied(rules, store, applied)
  {
    var i := 0;
    while i < |rules|
      invariant 0 <= i <= |rules|
      invariant forall j :: 0 <= j < i ==> !Targets(rules[j], store)
    {
      if rules[i].target == Some(store) {
        return Some(rules[i].id);
      }
      i := i + 1;
    }
    return None;
  }

  // ----- what the choice means -----------------------------------------------

  lemma {:induction false} RulesFavourShortQueues(rules: seq<Rule>, store: StoreId, other: StoreId, jobs: nat,
                                                  fewer: nat)
    requires fewer <= jobs
    requires forall r :: r in rules && r.active ==> !Targets(r, store)
    ensures RulesScore(rules, store, jobs) <= RulesScore(rules, other, fewer)
    decreases |rules|
  {
    if rules != [] {
      RulesFavourShortQueues(rules[..|rules| - 1], store, other, jobs, fewer);
    }
  }

  /** A store that no active rule targets wins only with the shortest queue. */
  lemma UntargetedWinnerIsLeastBusy(candidates: seq<StoreCandidate>, rules: seq<Rule>, k: nat)
    requires IsBest(candidates, rules, k)
    requires forall j :: 0 <= j < |candidates| ==> candidates[j].hasProduct
    requires forall r :: r in rules && r.active ==> !Targets(r, candidates[k].storeId)
    ensures forall j :: 0 <= j < |candidates| ==> candidates[k].activeJobs <= candidates[j].activeJobs
  {
    forall j | 0 <= j < |candidates| ensures candidates[k].activeJobs <= candidates[j].activeJobs {
      if candidates[j].activeJobs < candidates[k].activeJobs {
        RulesFavourShortQueues(rules, candidates[k].storeId, candidates[j].storeId,
                               candidates[k].activeJobs, candidates[j].activeJobs);
      }
    }
  }

  /** GetStoreCandidates: each store matches a product, fewest jobs first, then most matches. */
  ghost predicate Listed(candidates: seq<StoreCandidate>) {
    && (forall j :: 0 <= j < |candidates| ==> candidates[j].hasProduct)
    && forall i, j :: 0 <= i < j < |candidates| ==>
         || candidates[i].activeJobs < candidates[j].activeJobs
         || (candidates[i].activeJobs == candidates[j].activeJobs
             && candidates[i].productMatches >= candidates[j].productMatches)
  }

  /** On the repository's list the last tie-break is the number of matching products. */
  lemma TiesGoToMostProducts(candidates: seq<StoreCandidate>, rules: seq<Rule>, k: nat, j: nat)
    requires IsBest(candidates, rules, k) && Listed(candidates) && j < |candidates|
    requires Score(candidates[j], rules) == Score(candidates[k], rules)
    ensures candidates[k].activeJobs <= candidates[j].activeJobs
    ensures candidates[k].activeJobs == candidates[j].activeJobs ==>
              candidates[k].productMatches >= candidates[j].productMatches
  {
    if j < k {
      assert candidates[j].activeJobs > candidates[k].activeJobs;
    }
  }

  /**
   With the rules listed by ascending priority number, the recorded rule is a most
   urgent one that targets the store.
   */
  lemma AppliedRuleIsMostUrgent(rules: seq<Rule>, store: StoreId, applied: RuleId, r: Rule)
    requires forall i, j :: 0 <= i < j < |rules| ==> rules[i].priority <= rules[j].priority
    requires IsApplied(rules, store, Some(applied)) && r in rules && Targets(r, store)
    ensures exists i :: (0 <= i < |rules| && rules[i].id == applied && Targets(rules[i], store)
                         && rules[i].priority <= r.priority)
  {
    var i :| 0 <= i < |rules| && applied == rules[i].id && Targets(rules[i], store)
             && forall j :: 0 <= j < i ==> !Targets(rules[j], store);
    var j :| 0 <= j < |rules| && rules[j] == r;
    assert i <= j;
  }

  // ----- decision history ----------------------------------------------------

  /** Index of the order's latest decision. */
  function Latest(ds: seq<Decision>, order: OrderId): (r: Option<nat>)
    ensures r.Some? ==> r.value < |ds| && ds[r.value].order == order
    ensures r.None? ==> forall i :: 0 <= i < |ds| ==> ds[i].order != order
  {
    if ds == [] then None
    else if ds[|ds| - 1].order == order then Some(|ds| - 1)
    else Latest(ds[..|ds| - 1], order)
  }

  lemma {:induction false} LatestIsLast(ds: seq<Decision>, order: OrderId)
    ensures Latest(ds, order).Some? ==> forall i :: Latest(ds, order).value < i < |ds| ==> ds[i].order != order
    decreases |ds|
  {
    if ds != [] {
      LatestIsLast(ds[..|ds| - 1], order);
    }
  }

  /** What is left of the earlier decisions when an override comes. */
  function Marked(ds: seq<Decision>, order: OrderId): seq<Decision> {
    var latest := Latest(ds, order);
    if latest.Some? then ds[latest.value := ds[latest.value].(status := Overridden)] else ds
  }

  function Override(ds: seq<Decision>, order: OrderId, store: StoreId, marks: bool, inserts: bool): seq<Decision> {
    (if marks then Marked(ds, order) else ds) + (if inserts then [Decision(order, store, None, 0, Assigned)] else [])
  }

  function AssignedCount(ds: seq<Decision>, order: OrderId): nat {
    if ds == [] then 0
    else AssignedCount(ds[..|ds| - 1], order)
         + (if ds[|ds| - 1].order == order && ds[|ds| - 1].status.Assigned? then 1 else 0)
  }

  /** Overriding one of the order's decisions takes an assigned one off the count. */
  lemma {:induction false} AssignedCountUpdate(ds: seq<Decision>, order: OrderId, i: nat, d: Decision)
    requires i < |ds| && ds[i].order == d.order == order && d.status.Overridden?
    ensures AssignedCount(ds[i := d], order) == AssignedCount(ds, order) - (if ds[i].status.Assigned? then 1 else 0)
    decreases |ds|
  {
    if i < |ds| - 1 {
      assert ds[i := d][..|ds| - 1] == ds[..|ds| - 1][i := d];
      AssignedCountUpdate(ds[..|ds| - 1], order, i, d);
    } else {
      assert ds[i := d][..i] == ds[..i];
    }
  }

  lemma {:induction false} AppendCount(ds: seq<Decision>, d: Decision, order: OrderId)
    ensures AssignedCount(ds + [d], order) ==
              AssignedCount(ds, order) + (if d.order == order && d.status.Assigned? then 1 else 0)
    ensures Latest(ds + [d], order) == if d.order == order then Some(|ds|) else Latest(ds, order)
  {
    assert (ds + [d])[..|ds|] == ds;
  }

  lemma {:induction false} LatestKept(ds: seq<Decision>, order: OrderId, i: nat, d: Decision)
    requires i < |ds| && d.order == ds[i].order
    ensures Latest(ds[i := d], order) == Latest(ds, order)
    ensures d.order != order ==> AssignedCount(ds[i := d], order) == AssignedCount(ds, order)
    decreases |ds|
  {
    if i < |ds| - 1 {
      assert ds[i := d][..|ds| - 1] == ds[..|ds| - 1][i := d];
      LatestKept(ds[..|ds| - 1], order, i, d);
    } else {
      assert ds[i := d][..i] == ds[..i];
    }
  }

  /** Marking concerns the order's latest decision only. */
  lemma MarkedHistory(ds: seq<Decision>, of: OrderId, order: OrderId)
    ensures |Marked(ds, of)| == |ds| && Latest(Marked(ds, of), order) == Latest(ds, order)
    ensures var latest := Latest(ds, order);
            && (of != order ==> AssignedCount(Marked(ds, of), order) == AssignedCount(ds, order))
            && (of != order && latest.Some? ==> Marked(ds, of)[latest.value] == ds[latest.value])
            && (of == order && latest.Some? ==>
                  && Marked(ds, of)[latest.value].status.Overridden?
                  && AssignedCount(Marked(ds, of), order)
                     == AssignedCount(ds, order) - (if ds[latest.value].status.Assigned? then 1 else 0))
            && (latest.None? ==> AssignedCount(Marked(ds, of), order) == AssignedCount(ds, order))
  {
    var latest := Latest(ds, of);
    if latest.Some? {
      LatestKept(ds, order, latest.value, ds[latest.value].(status := Overridden));
      if of == order {
        AssignedCountUpdate(ds, order, latest.value, ds[latest.value].(status := Overridden));
      }
    }
  }

  /** A routing or override that passed its checks; the flags say which of an override's statements went through. */
  datatype Operation =
    | Routed(order: OrderId, decision: Decision)
    | Manual(order: OrderId, store: StoreId, marks: bool, inserts: bool)

  function History(ops: seq<Operation>): seq<Decision> {
    if ops == [] then []
    else
      var before := History(ops[..|ops| - 1]);
      match ops[|ops| - 1]
      case Routed(order, d) => before + [d.(order := order, status := Assigned)]
      case Manual(order, store, marks, inserts) => Override(before, order, store, marks, inserts)
  }

  predicate Stores(op: Operation, order: OrderId) {
    op.order == order && (op.Routed? || op.inserts)
  }

  /** Some operation stored a decision for the order. */
  predicate Seen(ops: seq<Operation>, order: OrderId) {
    ops != [] && (Seen(ops[..|ops| - 1], order) || Stores(ops[|ops| - 1], order))
  }

  /** Since the order's last decision was stored, an override marked it and then failed to insert. */
  predicate Dangling(ops: seq<Operation>, order: OrderId) {
    ops != [] &&
    var before, last := ops[..|ops| - 1], ops[|ops| - 1];
    !Stores(last, order) && (Dangling(before, order) || (last.order == order && last.marks && Seen(before, order)))
  }

  /** Decisions stored for the order, less those that an override marked. */
  function Standing(ops: seq<Operation>, order: OrderId): int {
    if ops == [] then 0
    else
      var before, last := ops[..|ops| - 1], ops[|ops| - 1];
      Standing(before, order)
      + (if Stores(last, order) then 1 else 0)
      - (if last.Manual? && last.order == order && last.marks && Seen(before, order) && !Dangling(before, order)
         then 1 else 0)
  }

  /** The history agrees with the operations. */
  predicate Agrees(ops: seq<Operation>, ds: seq<Decision>, order: OrderId) {
    && AssignedCount(ds, order) == Standing(ops, order)
    && (Latest(ds, order).Some? <==> Seen(ops, order))
    && (Seen(ops, order) ==> (ds[Latest(ds, order).value].status.Assigned? <==> !Dangling(ops, order)))
  }

  lemma StoringAgrees(ops: seq<Operation>, ds: seq<Decision>, op: Operation, d: Decision, order: OrderId)
    requires Agrees(ops, ds, order) && d.order == op.order && d.status.Assigned? && op.Routed?
    ensures Agrees(ops + [op], ds + [d], order)
  {
    assert (ops + [op])[..|ops|] == ops;
    AppendCount(ds, d, order);
  }

  lemma OverridingAgrees(ops: seq<Operation>, ds: seq<Decision>, op: Operation, order: OrderId)
    requires Agrees(ops, ds, order) && op.Manual?
    ensures Agrees(ops + [op], Override(ds, op.order, op.store, op.marks, op.inserts), order)
  {
    assert (ops + [op])[..|ops|] == ops;
    MarkedHistory(ds, op.order, order);
    var left := if op.marks then Marked(ds, op.order) else ds;
    AppendCount(left, Decision(op.order, op.store, None, 0, Assigned), order);
    assert left + [] == left;
  }

  /**
   The order's latest decision is ASSIGNED exactly when no override is left half
   done, and the ASSIGNED ones are exactly those stored and not marked since.
   Routing an order twice therefore leaves two.
   */
  lemma {:induction false} OverridesReplace(ops: seq<Operation>, order: OrderId)
    ensures AssignedCount(History(ops), order) == Standing(ops, order)
    ensures Latest(History(ops), order).Some? <==> Seen(ops, order)
    ensures Seen(ops, order) ==>
              (History(ops)[Latest(History(ops), order).value].status.Assigned? <==> !Dangling(ops, order))
    decreases |ops|
  {
    if ops != [] {
      var before, last := ops[..|ops| - 1], ops[|ops| - 1];
      OverridesReplace(before, order);
      assert ops == before + [last];
      match last
      case Routed(o, d) => StoringAgrees(before, History(before), last, d.(order := o, status := Assigned), order);
      case Manual(_, _, _, _) => OverridingAgrees(before, History(before), last, order);
    }
  }

  /** Routings of the order, plus one when its very first operation was a manual override. */
  function Opened(ops: seq<Operation>, order: OrderId): nat {
    if ops == [] then 0
    else
      var last := ops[|ops| - 1];
      Opened(ops[..|ops| - 1], order)
      + (if last.order == order && (last.Routed? || !Seen(ops[..|ops| - 1], order)) then 1 else 0)
  }

  /** When every statement goes through, an override closes the decision it replaces. */
  lemma {:induction false} CompleteOverridesReplace(ops: seq<Operation>, order: OrderId)
    requires forall i :: 0 <= i < |ops| && ops[i].Manual? ==> ops[i].marks && ops[i].inserts
    ensures !Dangling(ops, order) && Standing(ops, order) == Opened(ops, order)
    decreases |ops|
  {
    if ops != [] {
      CompleteOverridesReplace(ops[..|ops| - 1], order);
    }
  }
}
