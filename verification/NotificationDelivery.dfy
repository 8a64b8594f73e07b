/**
 A notification end to end: the transaction that stores it together with its
 outbox event, the workers that claim the event, and the dispatch handler that
 sends it channel by channel.  `causes[i]` is the event whose handler made adapter
 call i.  `decode` stands for JSON decoding of a payload.
 */
module NotificationDelivery {
  import opened Prelude
  import opened OutboxTable
  import O = OutboxProtocol
  import C = Comms

  type NotificationId = nat

  const DISPATCH := "notification.dispatch.v1"

  datatype Notification = Notification(event: EventId, eventType: string, payload: string)

  datatype Services = Services(fleet: O.Fleet, adapters: set<C.Channel>, decode: string -> Option<C.NotificationEvent>)

  datatype State = State(
    ob: O.State,
    notifications: map<NotificationId, Notification>,
    progress: map<O.WorkerId, seq<C.Channel>>,   // channels the running handler has still to try
    logs: C.Logs,
    calls: seq<C.Call>,
    causes: seq<EventId>)

  datatype Step =
    | CreateWithOutbox(n: NotificationId, id: EventId, eventType: string, payload: string)
    | Outbox(step: O.Step)
    | StartHandler(w: O.WorkerId)
    | SendChannel(w: O.WorkerId, env: C.Env)
    | FinishHandler(w: O.WorkerId)

  /** The event a dispatch payload carries, when the handler accepts it. */
  function Decoded(sv: Services, payload: string): Option<C.NotificationEvent> {
    var e := sv.decode(payload);
    if e.Some? && e.value.recipientId != "" && e.value.kind != "" then e else None
  }

  predicate Dispatching(s: State, w: O.WorkerId) {
    O.Busy(s.ob, w) && O.Head(s.ob, w).event.eventType == DISPATCH
  }

  /** The event being sent by `w`, once its handler has started. */
  function Current(sv: Services, s: State, w: O.WorkerId): Option<C.NotificationEvent> {
    if Dispatching(s, w) then Decoded(sv, O.Head(s.ob, w).event.payload) else None
  }

  ghost predicate Enabled(sv: Services, s: State, step: Step) {
    match step
    case CreateWithOutbox(n, id, eventType, payload) =>
      n !in s.notifications && eventType != "" && id !in s.ob.rows
    case Outbox(step) =>
      && O.Enabled(sv.fleet, s.ob, step)
      && (step.HandlerReturns? ==> !Dispatching(s, step.w))
    case StartHandler(w) => Dispatching(s, w) && w !in s.progress
      && O.Enabled(sv.fleet, s.ob, O.HandlerReturns(w, false))
    case SendChannel(w, env) =>
      && w in s.progress && s.progress[w] != [] && Current(sv, s, w).Some? && env.id !in s.logs
      && O.Enabled(sv.fleet, s.ob, O.HandlerReturns(w, false))
    case FinishHandler(w) =>
      w in s.progress && s.progress[w] == [] && O.Enabled(sv.fleet, s.ob, O.HandlerReturns(w, true))
  }

  /** The worker whose handler run ends when an outbox step happens. */
  function Abandoned(step: O.Step): set<O.WorkerId> {
    if step.Crash? || step.Mark? || step.MarkErrors? || step.Claim? then {step.w} else {}
  }

  function Returns(sv: Services, s: State, w: O.WorkerId, ok: bool): State
    requires O.Enabled(sv.fleet, s.ob, O.HandlerReturns(w, ok))
  {
    s.(ob := O.Apply(sv.fleet, s.ob, O.HandlerReturns(w, ok)), progress := s.progress - {w})
  }

  /** After one channel's send, whose adapter call (if any) is put down to the event. */
  function Tagged(sv: Services, s: State, w: O.WorkerId, out: C.Outcome): State
    requires w in s.progress && s.progress[w] != [] && O.Busy(s.ob, w)
  {
    s.(progress := s.progress[w := s.progress[w][1..]], logs := out.logs, calls := out.calls,
       causes := if |out.calls| > |s.calls| then s.causes + [O.Head(s.ob, w).event.id] else s.causes)
  }

  ghost function Apply(sv: Services, s: State, step: Step): State
    requires Enabled(sv, s, step)
  {
    match step
    case CreateWithOutbox(n, id, eventType, payload) =>
      s.(ob := O.Apply(sv.fleet, s.ob, O.Enqueue(id, eventType, payload, Pending, s.ob.now)),
         notifications := s.notifications[n := Notification(id, eventType, payload)])
    case Outbox(step) =>
      s.(ob := O.Apply(sv.fleet, s.ob, step), progress := s.progress - Abandoned(step))
    case StartHandler(w) =>
      var e := Current(sv, s, w);
      if e.None? then Returns(sv, s, w, false) else s.(progress := s.progress[w := C.Channels(e.value)])
    case SendChannel(w, env) =>
      var e := Current(sv, s, w).value;
      var ch := s.progress[w][0];
      if C.Recipient(e, ch) == "" then s.(progress := s.progress[w := s.progress[w][1..]])
      else
        var out := C.SendOutcome(sv.adapters, s.logs, s.calls, C.RequestFor(e, ch), env);
        if out.result.Err? || out.result.value.status == C.Failed
        then Returns(sv, Tagged(sv, s, w, out), w, false)
        else Tagged(sv, s, w, out)
    case FinishHandler(w) => Returns(sv, s, w, true)
  }

  function Init(sv: Services, now: int): State {
    State(O.Init(sv.fleet, now), map[], map[], map[], [], [])
  }

  ghost predicate ValidRun(sv: Services, s: State, steps: seq<Step>)
    decreases |steps|, 0
  {
    steps == [] ||
    var before := steps[..|steps| - 1];
    ValidRun(sv, s, before) && Enabled(sv, Exec(sv, s, before), steps[|steps| - 1])
  }

  ghost function Exec(sv: Services, s: State, steps: seq<Step>): State
    requires ValidRun(sv, s, steps)
    decreases |steps|, 1
  {
    if steps == [] then s
    else Apply(sv, Exec(sv, s, steps[..|steps| - 1]), steps[|steps| - 1])
  }

  // ----- invariant -----------------------------------------------------------

  /** Some call made for event `id` was accepted for this channel and recipient. */
  ghost predicate Served(s: State, id: EventId, ch: C.Channel, recipient: string) {
    exists i :: 0 <= i < |s.calls| && i < |s.causes| && s.causes[i] == id
      && s.calls[i].channel == ch && s.calls[i].recipient == recipient && s.calls[i].answer.Accepted?
  }

  /** Every one of these channels that has a contact was served. */
  ghost predicate AllServed(s: State, id: EventId, e: C.NotificationEvent, channels: seq<C.Channel>) {
    forall ch :: ch in channels && C.Recipient(e, ch) != "" ==> Served(s, id, ch, C.Recipient(e, ch))
  }

  /** Queued events are copies of their rows. */
  ghost predicate CopiesIn(rows: Table, wk: O.Worker) {
    forall i :: 0 <= i < |wk.queue| ==>
      var e := wk.queue[i].event;
      e.id in rows && e.eventType == rows[e.id].eventType && e.payload == rows[e.id].payload
  }

  ghost predicate Copies(ob: O.State) {
    forall w :: w in ob.workers ==> CopiesIn(ob.rows, ob.workers[w])
  }

  ghost predicate ProgressInv(sv: Services, s: State, w: O.WorkerId)
    requires w in s.progress
  {
    && Current(sv, s, w).Some? && s.ob.workers[w].verdict.Waiting?
    && var channels := C.Channels(Current(sv, s, w).value);
    && |s.progress[w]| <= |channels|
    && s.progress[w] == channels[|channels| - |s.progress[w]|..]
    && AllServed(s, O.Head(s.ob, w).event.id, Current(sv, s, w).value, channels[..|channels| - |s.progress[w]|])
  }

  ghost predicate RowServed(sv: Services, s: State, id: EventId)
    requires id in s.ob.rows && id in s.ob.trace
  {
    s.ob.rows[id].eventType == DISPATCH && s.ob.trace[id].succeeded ==>
      var e := Decoded(sv, s.ob.rows[id].payload);
      e.Some? && AllServed(s, id, e.value, C.Channels(e.value))
  }

  ghost predicate NotificationInv(s: State, n: Notification) {
    && n.event in s.ob.rows && n.event in s.ob.trace && s.ob.trace[n.event].born == Pending
    && s.ob.rows[n.event].eventType == n.eventType
    && s.ob.rows[n.event].payload == (if n.payload == "" then "{}" else n.payload)
  }

  ghost predicate SendInv(sv: Services, s: State) {
    && s.ob.rows.Keys == s.ob.trace.Keys
    && |s.causes| == |s.calls|
    && (forall w :: w in s.progress ==> ProgressInv(sv, s, w))
    && (forall id :: id in s.ob.rows ==> RowServed(sv, s, id))
    && (forall n :: n in s.notifications ==> NotificationInv(s, s.notifications[n]))
  }

  ghost predicate OutboxInv(fleet: O.Fleet, lo: nat, hi: nat, ob: O.State) {
    O.Inv(fleet, lo, hi, ob) && Copies(ob)
  }

  /** What an outbox step does to one event: its content stays and success needs a handler's answer. */
  ghost predicate EventKept(ob: O.State, step: O.Step, ob': O.State, id: EventId) {
    && (id in ob.rows && id in ob.trace ==>
          && id in ob'.rows && id in ob'.trace
          && ob'.rows[id].eventType == ob.rows[id].eventType && ob'.rows[id].payload == ob.rows[id].payload
          && ob'.trace[id].born == ob.trace[id].born
          && (ob'.trace[id].succeeded && !ob.trace[id].succeeded ==>
                step.HandlerReturns? && step.ok && O.Busy(ob, step.w) && O.Head(ob, step.w).event.id == id))
    && (id !in ob.rows && id in ob'.rows && id in ob'.trace ==> !ob'.trace[id].succeeded)
  }

  ghost predicate EventsKept(ob: O.State, step: O.Step, ob': O.State) {
    forall id :: EventKept(ob, step, ob', id)
  }

  ghost predicate Moved(ob: O.State, step: O.Step, ob': O.State) {
    && ob'.rows.Keys == ob'.trace.Keys
    && EventsKept(ob, step, ob')
    && (forall w :: w in ob.workers && w !in Abandoned(step) ==>
          w in ob'.workers && ob'.workers[w].queue == ob.workers[w].queue)
  }

  lemma EventIsKept(fleet: O.Fleet, lo: nat, hi: nat, ob: O.State, step: O.Step, ob': O.State, id: EventId)
    requires O.MaximaWithin(fleet, lo, hi) && O.Inv(fleet, lo, hi, ob)
    requires O.Enabled(fleet, ob, step) && ob' == O.Apply(fleet, ob, step)
    ensures EventKept(ob, step, ob', id)
  {
    if id in ob.rows {
      O.StepKeepsRow(fleet, lo, hi, ob, step, ob', id);
    }
  }

  lemma ClaimedAreCopies(rows: Table, picked: set<EventId>, now: int, events: seq<Event>)
    requires Returned(rows, picked, now, events)
    ensures CopiesIn(rows, O.Worker(O.Tasks(events, now), O.Waiting))
  {
  }

  lemma CopiesCarry(rows: Table, rows': Table, wk: O.Worker)
    requires CopiesIn(rows, wk)
    requires forall id :: id in rows ==>
               id in rows' && rows'[id].eventType == rows[id].eventType && rows'[id].payload == rows[id].payload
    ensures CopiesIn(rows', wk)
    ensures wk.queue != [] ==> CopiesIn(rows', O.Popped(wk))
    ensures CopiesIn(rows', O.Worker([], O.Waiting))
  {
  }

  lemma QueueIsKept(fleet: O.Fleet, ob: O.State, step: O.Step, ob': O.State, w: O.WorkerId)
    requires Copies(ob) && O.Enabled(fleet, ob, step) && ob' == O.Apply(fleet, ob, step) && w in ob.workers
    requires forall id :: id in ob.rows ==>
               id in ob'.rows && ob'.rows[id].eventType == ob.rows[id].eventType
                 && ob'.rows[id].payload == ob.rows[id].payload
    ensures w in ob'.workers && CopiesIn(ob'.rows, ob'.workers[w])
    ensures w !in Abandoned(step) ==> ob'.workers[w].queue == ob.workers[w].queue
  {
    CopiesCarry(ob.rows, ob'.rows, ob.workers[w]);
    if step.Claim? && w == step.w {
      ClaimedAreCopies(ob.rows, Ids(step.events), ob.now, step.events);
      CopiesCarry(ob.rows, ob'.rows, ob'.workers[w]);
    }
  }

  lemma EventsAreKept(fleet: O.Fleet, lo: nat, hi: nat, ob: O.State, step: O.Step, ob': O.State)
    requires O.MaximaWithin(fleet, lo, hi) && O.Inv(fleet, lo, hi, ob)
    requires O.Enabled(fleet, ob, step) && ob' == O.Apply(fleet, ob, step)
    ensures EventsKept(ob, step, ob')
  {
    forall id ensures EventKept(ob, step, ob', id) {
      EventIsKept(fleet, lo, hi, ob, step, ob', id);
    }
  }

  lemma QueuesAreKept(fleet: O.Fleet, ob: O.State, step: O.Step, ob': O.State)
    requires Copies(ob) && O.Enabled(fleet, ob, step) && ob' == O.Apply(fleet, ob, step)
    requires ob.rows.Keys == ob.trace.Keys && EventsKept(ob, step, ob') && ob'.workers.Keys == ob.workers.Keys
    ensures Copies(ob')
    ensures forall w :: w in ob.workers && w !in Abandoned(step) ==> ob'.workers[w].queue == ob.workers[w].queue
  {
    forall id | id in ob.rows
      ensures id in ob'.rows && ob'.rows[id].eventType == ob.rows[id].eventType
              && ob'.rows[id].payload == ob.rows[id].payload
    {
      assert EventKept(ob, step, ob', id);
    }
    forall w | w in ob.workers
      ensures CopiesIn(ob'.rows, ob'.workers[w])
      ensures w !in Abandoned(step) ==> ob'.workers[w].queue == ob.workers[w].queue
    {
      QueueIsKept(fleet, ob, step, ob', w);
    }
  }

  lemma OutboxStep(fleet: O.Fleet, lo: nat, hi: nat, ob: O.State, step: O.Step, ob': O.State)
    requires O.MaximaWithin(fleet, lo, hi) && OutboxInv(fleet, lo, hi, ob)
    requires O.Enabled(fleet, ob, step) && ob' == O.Apply(fleet, ob, step)
    ensures OutboxInv(fleet, lo, hi, ob') && Moved(ob, step, ob')
  {
    hide O.Apply, O.Enabled;
    O.StepKeepsInv(fleet, lo, hi, ob, step, ob');
    EventsAreKept(fleet, lo, hi, ob, step, ob');
    QueuesAreKept(fleet, ob, step, ob');
  }

  /** Calls are only ever appended. */
  predicate Extends(s: State, s': State) {
    s.calls <= s'.calls && s.causes <= s'.causes && |s.causes| == |s.calls| && |s'.causes| == |s'.calls|
  }

  lemma AllServedKept(s: State, s': State, id: EventId, e: C.NotificationEvent, channels: seq<C.Channel>)
    requires Extends(s, s') && AllServed(s, id, e, channels)
    ensures AllServed(s', id, e, channels)
  {
    forall ch | ch in channels && C.Recipient(e, ch) != "" ensures Served(s', id, ch, C.Recipient(e, ch)) {
      assert Served(s, id, ch, C.Recipient(e, ch));
      var i :| 0 <= i < |s.calls| && i < |s.causes| && s.causes[i] == id
        && s.calls[i].channel == ch && s.calls[i].recipient == C.Recipient(e, ch) && s.calls[i].answer.Accepted?;
      assert s'.calls[i] == s.calls[i] && s'.causes[i] == s.causes[i];
    }
  }

  /** A dispatch handler answers nil only after its last channel. */
  ghost predicate Finished(s: State, step: O.Step) {
    step.HandlerReturns? && step.ok && Dispatching(s, step.w) ==> step.w in s.progress && s.progress[step.w] == []
  }

  lemma RowServedKept(sv: Services, s: State, step: O.Step, s': State, id: EventId)
    requires SendInv(sv, s) && Copies(s.ob) && EventKept(s.ob, step, s'.ob, id)
    requires Extends(s, s') && Finished(s, step) && id in s'.ob.rows && id in s'.ob.trace
    ensures RowServed(sv, s', id)
  {
    if s'.ob.rows[id].eventType == DISPATCH && s'.ob.trace[id].succeeded {
      assert RowServed(sv, s, id);
      if !s.ob.trace[id].succeeded {
        assert CopiesIn(s.ob.rows, s.ob.workers[step.w]);
        assert ProgressInv(sv, s, step.w);
        var e := Current(sv, s, step.w).value;
        assert C.Channels(e)[..|C.Channels(e)|] == C.Channels(e);
      }
      var e := Decoded(sv, s.ob.rows[id].payload).value;
      AllServedKept(s, s', id, e, C.Channels(e));
    }
  }

  lemma ProgressCarries(sv: Services, s: State, s': State, w: O.WorkerId)
    requires w in s.progress && ProgressInv(sv, s, w) && Extends(s, s')
    requires w in s'.progress && s'.progress[w] == s.progress[w]
    requires w in s'.ob.workers && s'.ob.workers[w] == s.ob.workers[w]
    requires O.Head(s.ob, w).event.id in s'.ob.rows
    ensures ProgressInv(sv, s', w)
  {
    var e := Current(sv, s, w).value;
    AllServedKept(s, s', O.Head(s.ob, w).event.id, e, C.Channels(e)[..|C.Channels(e)| - |s.progress[w]|]);
  }

  /** Everything but the outbox's own invariant survives an outbox step. */
  lemma OutboxPartKept(sv: Services, s: State, step: O.Step, s': State)
    requires SendInv(sv, s) && Copies(s.ob) && Moved(s.ob, step, s'.ob)
    requires Extends(s, s') && Finished(s, step)
    requires forall w :: w in s'.progress ==>
               && w in s.progress && s'.progress[w] == s.progress[w]
               && w in s.ob.workers && w in s'.ob.workers && s'.ob.workers[w] == s.ob.workers[w]
    requires s'.notifications == s.notifications
    ensures SendInv(sv, s')
  {
    forall w | w in s'.progress ensures ProgressInv(sv, s', w) {
      assert ProgressInv(sv, s, w);
      assert EventKept(s.ob, step, s'.ob, O.Head(s.ob, w).event.id);
      ProgressCarries(sv, s, s', w);
    }
    forall id | id in s'.ob.rows ensures RowServed(sv, s', id) {
      RowServedKept(sv, s, step, s', id);
    }
    forall n | n in s'.notifications ensures NotificationInv(s', s'.notifications[n]) {
      assert NotificationInv(s, s.notifications[n]);
      assert EventKept(s.ob, step, s'.ob, s.notifications[n].event);
    }
  }

  /** An outbox step leaves the workers it does not name alone. */
  lemma OthersWait(fleet: O.Fleet, ob: O.State, step: O.Step, w: O.WorkerId)
    requires O.Enabled(fleet, ob, step) && w in ob.workers
    requires w !in Abandoned(step) && !(step.HandlerReturns? && step.w == w)
    ensures w in O.Apply(fleet, ob, step).workers && O.Apply(fleet, ob, step).workers[w] == ob.workers[w]
  {
  }

  lemma NotificationAdded(sv: Services, s: State, s': State, n: NotificationId)
    requires SendInv(sv, s) && n in s'.notifications && NotificationInv(s, s'.notifications[n])
    requires s' == s.(notifications := s.notifications[n := s'.notifications[n]])
    ensures SendInv(sv, s')
  {
    forall w | w in s'.progress ensures ProgressInv(sv, s', w) {
      assert ProgressInv(sv, s, w);
      ProgressCarries(sv, s, s', w);
    }
    forall id | id in s'.ob.rows ensures RowServed(sv, s', id) {
      RowServedStays(sv, s, s', id);
    }
    forall m | m in s'.notifications ensures NotificationInv(s', s'.notifications[m]) {
      assert m == n || NotificationInv(s, s.notifications[m]);
    }
  }

  lemma RowServedStays(sv: Services, s: State, s': State, id: EventId)
    requires s'.ob == s.ob && Extends(s, s') && id in s.ob.rows && id in s.ob.trace && RowServed(sv, s, id)
    ensures RowServed(sv, s', id)
  {
    if s.ob.rows[id].eventType == DISPATCH && s.ob.trace[id].succeeded {
      var e := Decoded(sv, s.ob.rows[id].payload).value;
      AllServedKept(s, s', id, e, C.Channels(e));
    }
  }

  lemma CreateKeepsSends(sv: Services, lo: nat, hi: nat, s: State, step: Step, s': State)
    requires O.MaximaWithin(sv.fleet, lo, hi) && OutboxInv(sv.fleet, lo, hi, s.ob) && SendInv(sv, s)
    requires step.CreateWithOutbox? && Enabled(sv, s, step) && s' == Apply(sv, s, step)
    ensures SendInv(sv, s')
  {
    hide OutboxInv, SendInv;
    var quiet := s'.(notifications := s.notifications);
    var enqueue := O.Enqueue(step.id, step.eventType, step.payload, Pending, s.ob.now);
    OutboxStepKeepsSends(sv, lo, hi, s, enqueue, quiet);
    NotificationAdded(sv, quiet, s', step.n);
  }

  /** A handler step that leaves the outbox alone and moves one handler on. */
  lemma ProgressKept(sv: Services, s: State, s': State, w: O.WorkerId)
    requires SendInv(sv, s) && s'.ob == s.ob && Extends(s, s') && s'.notifications == s.notifications
    requires w in s'.progress && ProgressInv(sv, s', w)
    requires forall v :: v in s'.progress && v != w ==> v in s.progress && s'.progress[v] == s.progress[v]
    ensures SendInv(sv, s')
  {
    forall v | v in s'.progress ensures ProgressInv(sv, s', v) {
      if v != w {
        assert ProgressInv(sv, s, v);
        ProgressCarries(sv, s, s', v);
      }
    }
    forall id | id in s'.ob.rows ensures RowServed(sv, s', id) {
      RowServedStays(sv, s, s', id);
    }
    forall n | n in s'.notifications ensures NotificationInv(s', s'.notifications[n]) {
      assert NotificationInv(s, s.notifications[n]);
    }
  }

  /** The handler of `w` answers; other handlers go on. */
  lemma ReturnKeepsSends(sv: Services, lo: nat, hi: nat, s: State, t: State, w: O.WorkerId, ok: bool)
    requires O.MaximaWithin(sv.fleet, lo, hi) && OutboxInv(sv.fleet, lo, hi, s.ob) && SendInv(sv, s)
    requires O.Enabled(sv.fleet, s.ob, O.HandlerReturns(w, ok)) && Finished(s, O.HandlerReturns(w, ok))
    requires Extends(s, t) && t.ob == s.ob && t.notifications == s.notifications
    requires forall v :: v in t.progress && v != w ==> v in s.progress && t.progress[v] == s.progress[v]
    ensures SendInv(sv, Returns(sv, t, w, ok))
  {
    hide O.Apply, O.Enabled, OutboxInv, SendInv;
    ReturnedKeepsSends(sv, lo, hi, s, Returns(sv, t, w, ok), w, ok);
  }

  lemma ReturnedKeepsSends(sv: Services, lo: nat, hi: nat, s: State, s': State, w: O.WorkerId, ok: bool)
    requires O.MaximaWithin(sv.fleet, lo, hi) && OutboxInv(sv.fleet, lo, hi, s.ob) && SendInv(sv, s)
    requires O.Enabled(sv.fleet, s.ob, O.HandlerReturns(w, ok)) && Finished(s, O.HandlerReturns(w, ok))
    requires Extends(s, s') && s'.ob == O.Apply(sv.fleet, s.ob, O.HandlerReturns(w, ok))
             && s'.notifications == s.notifications
    requires forall v :: v in s'.progress ==> v != w && v in s.progress && s'.progress[v] == s.progress[v]
    ensures SendInv(sv, s')
  {
    hide O.Apply, O.Enabled, SendInv;
    OutboxStep(sv.fleet, lo, hi, s.ob, O.HandlerReturns(w, ok), s'.ob);
    RunningHandlersAreWorkers(sv, s);
    OthersAreKept(sv.fleet, s.ob, O.HandlerReturns(w, ok), s'.ob);
    OutboxPartKept(sv, s, O.HandlerReturns(w, ok), s');
  }

  lemma RunningHandlersAreWorkers(sv: Services, s: State)
    requires SendInv(sv, s)
    ensures forall w :: w in s.progress ==> w in s.ob.workers
  {
    forall w | w in s.progress ensures w in s.ob.workers {
      assert ProgressInv(sv, s, w);
    }
  }

  lemma OthersAreKept(fleet: O.Fleet, ob: O.State, step: O.Step, ob': O.State)
    requires O.Enabled(fleet, ob, step) && ob' == O.Apply(fleet, ob, step)
    ensures forall w :: w in ob.workers && w !in Abandoned(step) && !(step.HandlerReturns? && step.w == w) ==>
              w in ob'.workers && ob'.workers[w] == ob.workers[w]
  {
    forall w | w in ob.workers && w !in Abandoned(step) && !(step.HandlerReturns? && step.w == w)
      ensures w in ob'.workers && ob'.workers[w] == ob.workers[w]
    {
      OthersWait(fleet, ob, step, w);
    }
  }

  lemma AcceptedIsServed(sv: Services, s: State, w: O.WorkerId, e: C.NotificationEvent, ch: C.Channel, env: C.Env)
    requires w in s.progress && s.progress[w] != [] && O.Busy(s.ob, w) && |s.causes| == |s.calls|
    ensures var out := C.SendOutcome(sv.adapters, s.logs, s.calls, C.RequestFor(e, ch), env);
            && Extends(s, Tagged(sv, s, w, out))
            && (out.result.Ok? && out.result.value.status != C.Failed ==>
                  Served(Tagged(sv, s, w, out), O.Head(s.ob, w).event.id, ch, C.Recipient(e, ch)))
  {
    var out := C.SendOutcome(sv.adapters, s.logs, s.calls, C.RequestFor(e, ch), env);
    if out.result.Ok? && out.result.value.status != C.Failed {
      var t := Tagged(sv, s, w, out);
      assert t.calls[|s.calls|].channel == ch && t.causes[|s.calls|] == O.Head(s.ob, w).event.id;
    }
  }

  /** One more channel of the list is behind the handler. */
  lemma ChannelDone(sv: Services, s: State, s': State, w: O.WorkerId)
    requires w in s.progress && s.progress[w] != [] && ProgressInv(sv, s, w) && Extends(s, s')
    requires s'.ob == s.ob && w in s'.progress && s'.progress[w] == s.progress[w][1..]
    requires var e := Current(sv, s, w).value;
             var ch := s.progress[w][0];
             C.Recipient(e, ch) != "" ==> Served(s', O.Head(s.ob, w).event.id, ch, C.Recipient(e, ch))
    ensures ProgressInv(sv, s', w)
  {
    var e := Current(sv, s, w).value;
    var channels := C.Channels(e);
    var k := |channels| - |s.progress[w]|;
    assert channels[..k + 1] == channels[..k] + [s.progress[w][0]];
    AllServedKept(s, s', O.Head(s.ob, w).event.id, e, channels[..k]);
    assert s'.progress[w] == channels[k + 1..];
  }

  lemma AdvanceKeepsSends(sv: Services, s: State, s': State, w: O.WorkerId)
    requires SendInv(sv, s) && Extends(s, s') && s'.ob == s.ob && s'.notifications == s.notifications
    requires w in s.progress && s.progress[w] != [] && s'.progress == s.progress[w := s.progress[w][1..]]
    requires Current(sv, s, w).Some?
    requires var e := Current(sv, s, w).value;
             var ch := s.progress[w][0];
             C.Recipient(e, ch) != "" ==> Served(s', O.Head(s.ob, w).event.id, ch, C.Recipient(e, ch))
    ensures SendInv(sv, s')
  {
    assert ProgressInv(sv, s, w);
    ChannelDone(sv, s, s', w);
    ProgressKept(sv, s, s', w);
  }

  lemma SendKeepsSends(sv: Services, lo: nat, hi: nat, s: State, step: Step, s': State)
    requires O.MaximaWithin(sv.fleet, lo, hi) && OutboxInv(sv.fleet, lo, hi, s.ob) && SendInv(sv, s)
    requires step.SendChannel? && Enabled(sv, s, step) && s' == Apply(sv, s, step)
    ensures SendInv(sv, s')
  {
    hide O.Apply, O.Enabled, OutboxInv, ProgressInv, RowServed, NotificationInv, C.SendOutcome;
    var w := step.w;
    var e := Current(sv, s, w).value;
    var ch := s.progress[w][0];
    if C.Recipient(e, ch) == "" {
      AdvanceKeepsSends(sv, s, s', w);
    } else {
      var out := C.SendOutcome(sv.adapters, s.logs, s.calls, C.RequestFor(e, ch), step.env);
      AcceptedIsServed(sv, s, w, e, ch, step.env);
      if out.result.Err? || out.result.value.status == C.Failed {
        ReturnKeepsSends(sv, lo, hi, s, Tagged(sv, s, w, out), w, false);
      } else {
        AdvanceKeepsSends(sv, s, s', w);
      }
    }
  }

  lemma StepKeepsSends(sv: Services, lo: nat, hi: nat, s: State, step: Step, s': State)
    requires O.MaximaWithin(sv.fleet, lo, hi) && OutboxInv(sv.fleet, lo, hi, s.ob) && SendInv(sv, s)
    requires Enabled(sv, s, step) && s' == Apply(sv, s, step)
    ensures SendInv(sv, s')
  {
    hide O.Apply, OutboxInv, RowServed, NotificationInv, C.SendOutcome;
    match step
    case CreateWithOutbox(_, _, _, _) => CreateKeepsSends(sv, lo, hi, s, step, s');
    case Outbox(o) => OutboxStepKeepsSends(sv, lo, hi, s, o, s');
    case StartHandler(w) =>
      if Current(sv, s, w).None? {
        ReturnKeepsSends(sv, lo, hi, s, s, w, false);
      } else {
        var channels := C.Channels(Current(sv, s, w).value);
        assert s'.progress[w] == channels[|channels| - |channels|..];
        ProgressKept(sv, s, s', w);
      }
    case SendChannel(_, _) => SendKeepsSends(sv, lo, hi, s, step, s');
    case FinishHandler(w) => ReturnKeepsSends(sv, lo, hi, s, s, w, true);
  }

  lemma OutboxStepKeepsSends(sv: Services, lo: nat, hi: nat, s: State, o: O.Step, s': State)
    requires O.MaximaWithin(sv.fleet, lo, hi) && OutboxInv(sv.fleet, lo, hi, s.ob) && SendInv(sv, s)
    requires O.Enabled(sv.fleet, s.ob, o) && (o.HandlerReturns? ==> !Dispatching(s, o.w))
    requires s' == s.(ob := O.Apply(sv.fleet, s.ob, o), progress := s.progress - Abandoned(o))
    ensures SendInv(sv, s')
  {
    hide O.Apply, O.Enabled;
    OutboxStep(sv.fleet, lo, hi, s.ob, o, s'.ob);
    RunningHandlersAreWorkers(sv, s);
    OthersAreKept(sv.fleet, s.ob, o, s'.ob);
    forall w | w in s'.progress ensures Dispatching(s, w) {
      assert ProgressInv(sv, s, w);
    }
    OutboxPartKept(sv, s, o, s');
  }

  /** Every step is at most one outbox step. */
  lemma TheOutboxStep(sv: Services, s: State, step: Step, s': State) returns (o: O.Step)
    requires Enabled(sv, s, step) && s' == Apply(sv, s, step) && s'.ob != s.ob
    ensures O.Enabled(sv.fleet, s.ob, o) && s'.ob == O.Apply(sv.fleet, s.ob, o)
  {
    hide C.SendOutcome;
    o := match step
         case CreateWithOutbox(_, id, eventType, payload) => O.Enqueue(id, eventType, payload, Pending, s.ob.now)
         case Outbox(o) => o
         case StartHandler(w) => O.HandlerReturns(w, false)
         case SendChannel(w, _) => O.HandlerReturns(w, false)
         case FinishHandler(w) => O.HandlerReturns(w, true);
  }

  lemma StepKeepsOutbox(sv: Services, lo: nat, hi: nat, s: State, step: Step, s': State)
    requires O.MaximaWithin(sv.fleet, lo, hi) && OutboxInv(sv.fleet, lo, hi, s.ob)
    requires Enabled(sv, s, step) && s' == Apply(sv, s, step)
    ensures OutboxInv(sv.fleet, lo, hi, s'.ob)
  {
    hide Apply, O.Apply, O.Enabled;
    if s'.ob != s.ob {
      var o := TheOutboxStep(sv, s, step, s');
      OutboxStep(sv.fleet, lo, hi, s.ob, o, s'.ob);
    }
  }

  lemma {:induction false} RunKeepsInv(sv: Services, lo: nat, hi: nat, now: int, steps: seq<Step>)
    requires O.MaximaWithin(sv.fleet, lo, hi) && ValidRun(sv, Init(sv, now), steps)
    ensures OutboxInv(sv.fleet, lo, hi, Exec(sv, Init(sv, now), steps).ob)
            && SendInv(sv, Exec(sv, Init(sv, now), steps))
    decreases |steps|
  {
    if steps != [] {
      var before := steps[..|steps| - 1];
      RunKeepsInv(sv, lo, hi, now, before);
      StepKeepsOutbox(sv, lo, hi, Exec(sv, Init(sv, now), before), steps[|steps| - 1], Exec(sv, Init(sv, now), steps));
      StepKeepsSends(sv, lo, hi, Exec(sv, Init(sv, now), before), steps[|steps| - 1], Exec(sv, Init(sv, now), steps));
    }
  }

  // ----- calls are only made for wanted recipients ---------------------------

  lemma ContentKept(sv: Services, lo: nat, hi: nat, s: State, step: Step, s': State)
    requires O.MaximaWithin(sv.fleet, lo, hi) && OutboxInv(sv.fleet, lo, hi, s.ob)
    requires Enabled(sv, s, step) && s' == Apply(sv, s, step)
    ensures forall id :: id in s.ob.rows ==>
              && id in s'.ob.rows && s'.ob.rows[id].eventType == s.ob.rows[id].eventType
              && s'.ob.rows[id].payload == s.ob.rows[id].payload
  {
    hide Apply, O.Apply, O.Enabled;
    if s'.ob != s.ob {
      var o := TheOutboxStep(sv, s, step, s');
      EventsAreKept(sv.fleet, lo, hi, s.ob, o, s'.ob);
      forall id | id in s.ob.rows
        ensures id in s'.ob.rows && s'.ob.rows[id].eventType == s.ob.rows[id].eventType
        ensures s'.ob.rows[id].payload == s.ob.rows[id].payload
      {
        assert EventKept(s.ob, o, s'.ob, id);
      }
    }
  }

  /** The payload of this dispatch event is a notification with a recipient and a type, which wants this send. */
  ghost predicate WantedBy(sv: Services, s: State, id: EventId, ch: C.Channel, recipient: string) {
    && id in s.ob.rows && s.ob.rows[id].eventType == "notification.dispatch.v1"
    && sv.decode(s.ob.rows[id].payload).Some?
    && var e := sv.decode(s.ob.rows[id].payload).value;
    && e.recipientId != "" && e.kind != "" && C.Wanted(e, ch, recipient)
  }

  ghost predicate CallsAreWanted(sv: Services, s: State) {
    && |s.causes| == |s.calls|
    && forall i :: 0 <= i < |s.calls| ==> WantedBy(sv, s, s.causes[i], s.calls[i].channel, s.calls[i].recipient)
  }

  /** A step makes at most one call, in a channel step, and then a wanted one. */
  lemma StepCalls(sv: Services, s: State, step: Step, s': State)
    requires SendInv(sv, s) && Copies(s.ob) && Enabled(sv, s, step) && s' == Apply(sv, s, step)
    ensures || (s'.calls == s.calls && s'.causes == s.causes)
            || exists id, call :: (s'.calls == s.calls + [call] && s'.causes == s.causes + [id]
                                   && WantedBy(sv, s, id, call.channel, call.recipient))
  {
    hide O.Apply, O.Enabled, C.SendOutcome;
    if step.SendChannel? {
      var w := step.w;
      assert ProgressInv(sv, s, w) && CopiesIn(s.ob.rows, s.ob.workers[w]);
      var e := Current(sv, s, w).value;
      var ch := s.progress[w][0];
      C.SelectedIsWanted(e, ch, C.Recipient(e, ch));
      C.SendCalls(sv.adapters, s.logs, s.calls, C.RequestFor(e, ch), step.env);
      if s'.calls != s.calls {
        var call := C.Call(step.env.id, ch, C.Recipient(e, ch), "", step.env.answer);
        assert s'.calls == s.calls + [call] && s'.causes == s.causes + [O.Head(s.ob, w).event.id];
        assert WantedBy(sv, s, O.Head(s.ob, w).event.id, call.channel, call.recipient);
      }
    }
  }

  lemma {:induction false} RunCallsAreWanted(sv: Services, lo: nat, hi: nat, now: int, steps: seq<Step>)
    requires O.MaximaWithin(sv.fleet, lo, hi) && ValidRun(sv, Init(sv, now), steps)
    ensures CallsAreWanted(sv, Exec(sv, Init(sv, now), steps))
    decreases |steps|
  {
    hide Apply, Enabled, OutboxInv, C.Wanted;
    if steps != [] {
      var before := steps[..|steps| - 1];
      RunCallsAreWanted(sv, lo, hi, now, before);
      RunKeepsInv(sv, lo, hi, now, before);
      var s, s' := Exec(sv, Init(sv, now), before), Exec(sv, Init(sv, now), steps);
      OutboxKeepsCopies(sv.fleet, lo, hi, s.ob);
      StepCalls(sv, s, steps[|steps| - 1], s');
      ContentKept(sv, lo, hi, s, steps[|steps| - 1], s');
      forall i | 0 <= i < |s.calls| ensures WantedBy(sv, s', s.causes[i], s.calls[i].channel, s.calls[i].recipient) {
        assert WantedBy(sv, s, s.causes[i], s.calls[i].channel, s.calls[i].recipient);
      }
    }
  }

  lemma OutboxKeepsCopies(fleet: O.Fleet, lo: nat, hi: nat, ob: O.State)
    requires OutboxInv(fleet, lo, hi, ob)
    ensures Copies(ob)
  {
  }

  // ----- main results --------------------------------------------------------

  /** No adapter is ever called for a channel or recipient that the event does not want. */
  lemma OnlyWantedCalls(sv: Services, lo: nat, hi: nat, now: int, steps: seq<Step>, i: nat)
    requires O.MaximaWithin(sv.fleet, lo, hi) && ValidRun(sv, Init(sv, now), steps)
    requires i < |Exec(sv, Init(sv, now), steps).calls|
    ensures var s := Exec(sv, Init(sv, now), steps);
            |s.causes| == |s.calls| && WantedBy(sv, s, s.causes[i], s.calls[i].channel, s.calls[i].recipient)
  {
    RunCallsAreWanted(sv, lo, hi, now, steps);
  }

  /**
   A DELIVERED dispatch event, unless it was enqueued so, had every wanted send
   accepted for its own id: Push to its device token, Email to its address if its
   priority is HIGH or URGENT, SMS to its phone if URGENT, where it has them.
   */
  lemma DeliveredWasServed(sv: Services, lo: nat, hi: nat, now: int, steps: seq<Step>, id: EventId)
    requires O.MaximaWithin(sv.fleet, lo, hi) && ValidRun(sv, Init(sv, now), steps)
    requires var ob := Exec(sv, Init(sv, now), steps).ob;
             && id in ob.rows && id in ob.trace && ob.trace[id].born != Delivered && ob.rows[id].status.Delivered?
             && ob.rows[id].eventType == "notification.dispatch.v1"
    ensures var s := Exec(sv, Init(sv, now), steps);
            && sv.decode(s.ob.rows[id].payload).Some?
            && var e := sv.decode(s.ob.rows[id].payload).value;
            && e.recipientId != "" && e.kind != ""
            && (forall ch, recipient :: C.Wanted(e, ch, recipient) ==> Served(s, id, ch, recipient))
  {
    RunKeepsInv(sv, lo, hi, now, steps);
    var s := Exec(sv, Init(sv, now), steps);
    assert O.RowInv(lo, hi, s.ob.rows[id], s.ob.trace[id]) && RowServed(sv, s, id);
    var e := Decoded(sv, s.ob.rows[id].payload).value;
    forall ch, recipient | C.Wanted(e, ch, recipient) ensures Served(s, id, ch, recipient) {
      C.SelectedIsWanted(e, ch, recipient);
    }
  }

  /**
   A notification stored with its event keeps that event, type and payload for ever,
   and once the event is DELIVERED every wanted send of it was accepted.
   */
  lemma DeliveredReachesEveryChannel(sv: Services, lo: nat, hi: nat, now: int, steps: seq<Step>, n: NotificationId)
    requires O.MaximaWithin(sv.fleet, lo, hi) && ValidRun(sv, Init(sv, now), steps)
    requires n in Exec(sv, Init(sv, now), steps).notifications
    ensures var s := Exec(sv, Init(sv, now), steps);
            var note := s.notifications[n];
            && note.event in s.ob.rows && s.ob.rows[note.event].eventType == note.eventType
            && s.ob.rows[note.event].payload == (if note.payload == "" then "{}" else note.payload)
            && (note.eventType == "notification.dispatch.v1" && s.ob.rows[note.event].status.Delivered? ==>
                  && sv.decode(s.ob.rows[note.event].payload).Some?
                  && var e := sv.decode(s.ob.rows[note.event].payload).value;
                  forall ch, recipient :: C.Wanted(e, ch, recipient) ==> Served(s, note.event, ch, recipient))
  {
    RunKeepsInv(sv, lo, hi, now, steps);
    var s := Exec(sv, Init(sv, now), steps);
    var note := s.notifications[n];
    assert NotificationInv(s, note);
    if note.eventType == "notification.dispatch.v1" && s.ob.rows[note.event].status.Delivered? {
      DeliveredWasServed(sv, lo, hi, now, steps, note.event);
    }
  }
}
