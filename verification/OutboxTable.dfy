/**
 The outbox_events table, the statements that change it, and the repository
 that issues them.  A statement is one atomic step; NOW() is its `now`
 argument.  Times and durations are integers in nanoseconds.
 */
module OutboxTable {
  import opened Prelude

  type EventId = nat

  const SECOND := 1_000_000_000
  const MINUTE := 60 * SECOND

  datatype Status = Pending | Processing | Failed | Delivered | DeadLetter

  datatype Row = Row(
    eventType: string,
    payload: string,
    status: Status,
    attempts: nat,
    availableAt: int,
    lockedAt: Option<int>,
    processedAt: Option<int>,
    lastError: Option<string>,
    createdAt: int)

  type Table = map<EventId, Row>

  /** What a claim hands to the worker: the row as the claim left it. */
  datatype Event = Event(id: EventId, eventType: string, payload: string, attempts: nat)

  predicate Terminal(r: Row) {
    r.status.Delivered? || r.status.DeadLetter?
  }

  // ----- argument defaults ---------------------------------------------------

  function Limit(limit: int): nat {
    if limit < 1 || limit > 100 then 25 else limit
  }

  function Lease(leaseFor: int): int {
    if leaseFor <= 0 then 5 * MINUTE else leaseFor
  }

  function MaxAttempts(maxAttempts: int): nat {
    if maxAttempts < 1 then 5 else maxAttempts
  }

  // ----- row changes ---------------------------------------------------------

  function NewRow(eventType: string, payload: string, status: Status, availableAt: int, now: int): Row {
    Row(eventType, if payload == "" then "{}" else payload, status, 0, availableAt, None, None, None, now)
  }

  predicate Ready(r: Row, now: int) {
    (r.status.Pending? || r.status.Failed?) && r.availableAt <= now
  }

  /** A NULL locked_at never compares, so such a PROCESSING row is not reclaimed. */
  predicate LeaseExpired(r: Row, now: int, lease: int) {
    r.status.Processing? && r.lockedAt.Some? && r.lockedAt.value <= now - lease
  }

  predicate Claimable(r: Row, now: int, lease: int) {
    Ready(r, now) || LeaseExpired(r, now, lease)
  }

  function ClaimedRow(r: Row, now: int): Row {
    r.(status := Processing, lockedAt := Some(now), attempts := r.attempts + 1)
  }

  function DeliveredRow(r: Row, now: int): Row {
    if r.status.Processing?
    then r.(status := Delivered, processedAt := Some(now), lockedAt := None, lastError := None)
    else r
  }

  function FailedRow(r: Row, cause: string, retryAfter: int, maxAttempts: int, now: int): Row {
    if !r.status.Processing? then r
    else if r.attempts >= MaxAttempts(maxAttempts)
    then r.(status := DeadLetter, lockedAt := None, lastError := Some(cause))
    else r.(status := Failed,
            availableAt := now + (if retryAfter < 0 then 0 else retryAfter),
            lockedAt := None, lastError := Some(cause))
  }

  /** The claim's WHERE clause: due for a first or another attempt, or abandoned for a whole lease. */
  predicate ClaimDue(r: Row, now: int, lease: int) {
    match r.status
    case Pending => r.availableAt <= now
    case Failed => r.availableAt <= now
    case Processing => r.lockedAt.Some? && r.lockedAt.value + lease <= now
    case Delivered => false
    case DeadLetter => false
  }

  // ----- the claim statement -------------------------------------------------

  /** Claimable rows that no other transaction has row-locked. */
  function Candidates(t: Table, skipped: set<EventId>, now: int, lease: int): set<EventId> {
    set id | id in t && id !in skipped && Claimable(t[id], now, lease)
  }

  /**
   `picked` is a legal answer of the claim's inner SELECT: up to `limit`
   candidates, oldest first, and fewer than `limit` only when nothing is left.
   */
  ghost predicate IsBatch(t: Table, picked: set<EventId>, skipped: set<EventId>, now: int, lease: int, limit: nat) {
    var candidates := Candidates(t, skipped, now, lease);
    && picked <= candidates
    && |picked| <= limit
    && (|picked| < limit ==> picked == candidates)
    && OldestFirst(t, picked, candidates - picked)
  }

  function ClaimRows(t: Table, picked: set<EventId>, now: int): Table {
    map id | id in t :: if id in picked then ClaimedRow(t[id], now) else t[id]
  }

  function EventOf(id: EventId, r: Row): Event {
    Event(id, r.eventType, r.payload, r.attempts)
  }

  function Ids(events: seq<Event>): set<EventId> {
    set i | 0 <= i < |events| :: events[i].id
  }

  function Elements(ids: seq<EventId>): set<EventId> {
    set id | id in ids
  }

  /** `events` lists every picked row once, as it stands after the claim. */
  ghost predicate Returned(t: Table, picked: set<EventId>, now: int, events: seq<Event>) {
    && Ids(events) == picked
    && (forall i, j :: 0 <= i < j < |events| ==> events[i].id != events[j].id)
    && (forall i :: 0 <= i < |events| ==>
          events[i].id in t && events[i] == EventOf(events[i].id, ClaimedRow(t[events[i].id], now)))
  }

  ghost predicate OldestFirst(t: Table, picked: set<EventId>, left: set<EventId>)
    requires picked <= t.Keys && left <= t.Keys
  {
    forall a, b :: a in picked && b in left ==> t[a].createdAt <= t[b].createdAt
  }

  ghost predicate Distinct(ids: seq<EventId>) {
    forall i, j :: 0 <= i < j < |ids| ==> ids[i] != ids[j]
  }

  /** `picked` are the oldest of `all`, `left` the others. */
  ghost predicate Taken(t: Table, all: set<EventId>, picked: seq<EventId>, left: set<EventId>)
    requires all <= t.Keys
  {
    && Distinct(picked) && |Elements(picked)| == |picked|
    && Elements(picked) <= all && left == all - Elements(picked)
    && OldestFirst(t, Elements(picked), left)
  }

  lemma TakeOldest(t: Table, all: set<EventId>, picked: seq<EventId>, left: set<EventId>, next: EventId)
    requires all <= t.Keys && Taken(t, all, picked, left)
    requires next in left && forall b :: b in left ==> t[next].createdAt <= t[b].createdAt
    ensures Taken(t, all, picked + [next], left - {next})
  {
    assert Elements(picked + [next]) == Elements(picked) + {next};
    assert forall i :: 0 <= i < |picked| ==> picked[i] in Elements(picked);
  }

  /** A finite non-empty set of rows has an oldest one. */
  lemma OldestExists(t: Table, ids: set<EventId>)
    requires ids != {} && ids <= t.Keys
    ensures exists a :: a in ids && forall b :: b in ids ==> t[a].createdAt <= t[b].createdAt
    decreases |ids|
  {
    var x :| x in ids;
    var rest := ids - {x};
    if rest == {} {
      assert ids == {x};
    } else {
      OldestExists(t, rest);
      var y :| y in rest && forall b :: b in rest ==> t[y].createdAt <= t[b].createdAt;
      var a := if t[x].createdAt <= t[y].createdAt then x else y;
      assert forall b :: b in ids ==> b == x || b in rest;
      assert a in ids && forall b :: b in ids ==> t[a].createdAt <= t[b].createdAt;
    }
  }

  /** The inner SELECT: repeatedly takes the oldest row that is left. */
  method SelectBatch(t: Table, skipped: set<EventId>, now: int, lease: int, limit: nat)
    returns (picked: seq<EventId>)
    ensures IsBatch(t, Elements(picked), skipped, now, lease, limit)
    ensures Distinct(picked)
  {
    var left := Candidates(t, skipped, now, lease);
    ghost var all := left;
    picked := [];
    while left != {} && |picked| < limit
      invariant |picked| <= limit && Taken(t, all, picked, left)
      decreases left
    {
      OldestExists(t, left);
      var next :| next in left && forall b :: b in left ==> t[next].createdAt <= t[b].createdAt;
      TakeOldest(t, all, picked, left, next);
      picked := picked + [next];
      left := left - {next};
    }
  }

  lemma IdsOneMore(events: seq<Event>, e: Event)
    ensures Ids(events + [e]) == Ids(events) + {e.id}
  {
    var more := events + [e];
    forall id | id in Ids(events) + {e.id} ensures id in Ids(more) {
      if id in Ids(events) {
        var i :| 0 <= i < |events| && events[i].id == id;
        assert more[i].id == id;
      } else {
        assert more[|events|].id == id;
      }
    }
  }

  lemma {:induction false} DistinctCount(events: seq<Event>)
    requires forall i, j :: 0 <= i < j < |events| ==> events[i].id != events[j].id
    ensures |Ids(events)| == |events|
    decreases |events|
  {
    if events != [] {
      var n := |events| - 1;
      DistinctCount(events[..n]);
      IdsOneMore(events[..n], events[n]);
      assert events == events[..n] + [events[n]];
      assert events[n].id !in Ids(events[..n]);
    }
  }

  /** A claim takes due rows that nobody has locked, all of them unless the limit cuts it off, and touches no others. */
  ghost predicate ClaimTakesDue(before: Table, after: Table, events: seq<Event>, skipped: set<EventId>,
                                limit: int, leaseFor: int, now: int)
  {
    var most := if limit < 1 || limit > 100 then 25 else limit;
    var lease := if leaseFor <= 0 then 300_000_000_000 else leaseFor;
    && |events| <= most
    && after.Keys == before.Keys
    && (forall id :: id in before && id !in Ids(events) ==> after[id] == before[id])
    && (forall id :: id in before && id !in Ids(events) && id !in skipped && |events| < most ==>
          !ClaimDue(before[id], now, lease))
    && (forall e :: e in events ==>
          && e.id in before && e.id !in skipped && ClaimDue(before[e.id], now, lease)
          && e == Event(e.id, before[e.id].eventType, before[e.id].payload, before[e.id].attempts + 1)
          && after[e.id] == before[e.id].(status := Processing, lockedAt := Some(now),
                                          attempts := before[e.id].attempts + 1))
  }

  lemma ClaimMeans(t: Table, events: seq<Event>, skipped: set<EventId>, limit: int, leaseFor: int, now: int)
    requires IsBatch(t, Ids(events), skipped, now, Lease(leaseFor), Limit(limit))
    requires Returned(t, Ids(events), now, events)
    ensures ClaimTakesDue(t, ClaimRows(t, Ids(events), now), events, skipped, limit, leaseFor, now)
  {
    DistinctCount(events);
    forall e | e in events ensures e.id in Ids(events) && e.id in t && e == EventOf(e.id, ClaimedRow(t[e.id], now)) {
      var i :| 0 <= i < |events| && events[i] == e;
    }
  }

  /** internal/outbox's Repository: it owns the table and rewrites rows in place. */
  class Repository {
    var rows: Table

    constructor ()
      ensures rows == map[]
    {
      rows := map[];
    }

    /** A duplicate primary key is the only rejection; it changes nothing. */
    method Enqueue(id: EventId, eventType: string, payload: string, status: Option<Status>,
                   availableAt: Option<int>, now: int)
      returns (ok: bool)
      modifies this
      ensures ok <==> id !in old(rows)
      ensures rows == if !ok then old(rows)
                      else old(rows)[id := NewRow(eventType, payload,
                                                  if status.None? then Pending else status.value,
                                                  if availableAt.None? then now else availableAt.value, now)]
      ensures ok ==>
                && id in rows && rows[id].eventType == eventType && rows[id].attempts == 0 && rows[id].createdAt == now
                && rows[id].payload == (if payload == "" then "{}" else payload)
                && rows[id].status == (if status.Some? then status.value else Pending)
                && rows[id].availableAt == (if availableAt.Some? then availableAt.value else now)
                && rows[id].lockedAt.None? && rows[id].processedAt.None? && rows[id].lastError.None?
    {
      if id in rows {
        return false;
      }
      var s := if status.None? then Pending else status.value;
      var at := if availableAt.None? then now else availableAt.value;
      rows := rows[id := NewRow(eventType, payload, s, at, now)];
      return true;
    }

    /**
     `skipped` are the rows that concurrent claims have locked.  A limit outside 1
     to 100 counts as 25, a lease that is not positive as five minutes.
     */
    method ClaimPending(limit: int, leaseFor: int, now: int, skipped: set<EventId>)
      returns (events: seq<Event>)
      modifies this
      ensures IsBatch(old(rows), Ids(events), skipped, now, Lease(leaseFor), Limit(limit))
      ensures Returned(old(rows), Ids(events), now, events)
      ensures rows == ClaimRows(old(rows), Ids(events), now)
      ensures ClaimTakesDue(old(rows), rows, events, skipped, limit, leaseFor, now)
    {
      var picked := SelectBatch(rows, skipped, now, Lease(leaseFor), Limit(limit));
      assert forall i :: 0 <= i < |picked| ==> picked[i] in Elements(picked);
      rows := ClaimRows(rows, Elements(picked), now);
      events := [];
      while |events| < |picked|
        invariant |events| <= |picked|
        invariant forall i :: 0 <= i < |events| ==> events[i] == EventOf(picked[i], rows[picked[i]])
      {
        events := events + [EventOf(picked[|events|], rows[picked[|events|]])];
      }
      assert Ids(events) == Elements(picked) by {
        assert forall i :: 0 <= i < |picked| ==> events[i].id == picked[i];
      }
      ClaimMeans(old(rows), events, skipped, limit, leaseFor, now);
    }

    method MarkDelivered(id: EventId, now: int) returns (ok: bool)
      modifies this
      ensures ok <==> id in old(rows) && old(rows)[id].status.Processing?
      ensures rows == if id in old(rows) then old(rows)[id := DeliveredRow(old(rows)[id], now)] else old(rows)
      ensures ok ==>
                && id in rows && rows[id].status.Delivered? && rows[id].processedAt == Some(now)
                && rows[id].lockedAt.None? && rows[id].lastError.None?
                && rows[id].attempts == old(rows)[id].attempts && rows[id].payload == old(rows)[id].payload
    {
      if id !in rows || !rows[id].status.Processing? {
        return false;
      }
      rows := rows[id := rows[id].(status := Delivered, processedAt := Some(now), lockedAt := None, lastError := None)];
      return true;
    }

    method MarkFailed(id: EventId, cause: Option<string>, retryAfter: int, maxAttempts: int, now: int)
      returns (ok: bool)
      modifies this
      ensures ok <==> id in old(rows) && old(rows)[id].status.Processing?
      ensures var message := if cause.Some? then cause.value else "unknown delivery failure";
              rows == if id in old(rows)
                      then old(rows)[id := FailedRow(old(rows)[id], message, retryAfter, maxAttempts, now)]
                      else old(rows)
      ensures ok ==>
                && id in rows
                && (rows[id].status.DeadLetter? <==>
                      old(rows)[id].attempts >= if maxAttempts < 1 then 5 else maxAttempts)
                && (!rows[id].status.DeadLetter? ==>
                      && rows[id].status.Failed?
                      && rows[id].availableAt == now + (if retryAfter < 0 then 0 else retryAfter))
      ensures ok ==>
                && rows[id].lockedAt.None? && rows[id].attempts == old(rows)[id].attempts
                && rows[id].payload == old(rows)[id].payload && rows[id].processedAt == old(rows)[id].processedAt
                && rows[id].lastError == Some(if cause.Some? then cause.value else "unknown delivery failure")
      ensures !ok ==> rows == old(rows)
    {
      var delay := if retryAfter < 0 then 0 else retryAfter;
      var most := if maxAttempts < 1 then 5 else maxAttempts;
      var message := if cause.Some? then cause.value else "unknown delivery failure";
      if id !in rows || !rows[id].status.Processing? {
        return false;
      }
      var row := rows[id];
      if row.attempts >= most {
        row := row.(status := DeadLetter);
      } else {
        row := row.(status := Failed, availableAt := now + delay);
      }
      rows := rows[id := row.(lockedAt := None, lastError := Some(message))];
      return true;
    }
  }
}
