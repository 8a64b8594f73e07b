/**
 Concurrent sends.  Lookup, insert, adapter call and status update of each send
 are separate steps; sends interleave, fail and stop anywhere.  Only the unique
 key column keeps two sends with one key apart.
 */
module CommsKeys {
  import opened Prelude
  import opened Comms

  type SendId = nat

  datatype Phase =
    | Begun
    | Checked                       // no log seen under the key
    | Logged(log: LogId)            // PENDING log inserted
    | Called(log: LogId, answer: Answer)
    | Unroutable(log: LogId)        // no adapter
    | Done(result: Result<SendResult, string>)

  datatype Send = Send(req: SendRequest, phase: Phase)

  datatype State = State(logs: Logs, calls: seq<Call>, sends: map<SendId, Send>)

  datatype Step =
    | Begin(s: SendId, req: SendRequest)
    | Lookup(s: SendId, ok: bool)
    | Insert(s: SendId, id: LogId, ok: bool)
    | CallAdapter(s: SendId, answer: Answer)
    | Update(s: SendId, ok: bool)
    | Stop(s: SendId)               // the process dies or the caller gives up

  ghost predicate Enabled(st: State, step: Step) {
    match step
    case Begin(s, _) => s !in st.sends
    case Lookup(s, _) => s in st.sends && st.sends[s].phase.Begun?
    case Insert(s, id, _) => s in st.sends && st.sends[s].phase.Checked? && id !in st.logs
    case CallAdapter(s, _) => s in st.sends && st.sends[s].phase.Logged?
    case Update(s, _) => s in st.sends && (st.sends[s].phase.Called? || st.sends[s].phase.Unroutable?)
                         && st.sends[s].phase.log in st.logs
    case Stop(s) => s in st.sends
  }

  function Moved(st: State, s: SendId, phase: Phase): State
    requires s in st.sends
  {
    st.(sends := st.sends[s := st.sends[s].(phase := phase)])
  }

  ghost function Apply(adapters: set<Channel>, st: State, step: Step): State
    requires Enabled(st, step)
  {
    match step
    case Begin(s, req) => st.(sends := st.sends[s := Send(req, Begun)])
    case Lookup(s, ok) =>
      var key := st.sends[s].req.key;
      if ok && KeyUsed(st.logs, key) then
        var id :| id in st.logs && st.logs[id].key == key;
        Moved(st, s, Done(Ok(StoredResult(id, st.logs[id]))))
      else Moved(st, s, Checked)
    case Insert(s, id, ok) =>
      var req := st.sends[s].req;
      if !ok || KeyUsed(st.logs, req.key) then Moved(st, s, Done(Err("create delivery log")))
      else Moved(st.(logs := st.logs[id := PendingLog(req)]), s,
                 if req.channel in adapters then Logged(id) else Unroutable(id))
    case CallAdapter(s, answer) =>
      var req := st.sends[s].req;
      var id := st.sends[s].phase.log;
      Moved(st.(calls := st.calls + [Call(id, req.channel, req.recipient, req.key, answer)]), s, Called(id, answer))
    case Update(s, ok) =>
      var req := st.sends[s].req;
      var id := st.sends[s].phase.log;
      if st.sends[s].phase.Called? then
        var answer := st.sends[s].phase.answer;
        Moved(if ok then st.(logs := st.logs[id := AnsweredLog(st.logs[id], answer)]) else st,
              s, Done(Ok(AnswerResult(id, req.channel, answer))))
      else
        Moved(if ok then st.(logs := st.logs[id := Updated(st.logs[id], Failed, "", NO_ADAPTER)]) else st,
              s, Done(Ok(SendResult(id, req.channel, Failed, "", NO_ADAPTER))))
    case Stop(s) => Moved(st, s, Done(Err("stopped")))
  }

  ghost predicate ValidRun(adapters: set<Channel>, st: State, steps: seq<Step>)
    decreases |steps|, 0
  {
    steps == [] ||
    var before := steps[..|steps| - 1];
    ValidRun(adapters, st, before) && Enabled(Exec(adapters, st, before), steps[|steps| - 1])
  }

  ghost function Exec(adapters: set<Channel>, st: State, steps: seq<Step>): State
    requires ValidRun(adapters, st, steps)
    decreases |steps|, 1
  {
    if steps == [] then st
    else Apply(adapters, Exec(adapters, st, steps[..|steps| - 1]), steps[|steps| - 1])
  }

  // ----- invariant -----------------------------------------------------------

  ghost predicate AcceptedCall(st: State, id: LogId) {
    exists i :: 0 <= i < |st.calls| && st.calls[i].log == id && st.calls[i].answer.Accepted?
  }

  /** A log that no adapter call belongs to yet, and that one running send owns. */
  ghost predicate Owned(st: State, id: LogId) {
    id in st.logs && forall i :: 0 <= i < |st.calls| ==> st.calls[i].log != id
  }

  ghost predicate SendInv(st: State, send: Send) {
    match send.phase
    case Logged(id) => Owned(st, id) && st.logs[id].key == send.req.key
    case Called(id, answer) => id in st.logs && (answer.Accepted? ==> AcceptedCall(st, id))
    case Unroutable(id) => id in st.logs
    case Done(result) => result.Ok? && result.value.status == Sent ==> AcceptedCall(st, result.value.log)
    case _ => true
  }

  ghost predicate TablesInv(st: State) {
    && UniqueKeys(st.logs)
    && (forall i :: 0 <= i < |st.calls| ==>
        st.calls[i].log in st.logs && st.logs[st.calls[i].log].key == st.calls[i].key)
    && (forall i, j :: 0 <= i < j < |st.calls| ==> st.calls[i].log != st.calls[j].log)
    && (forall id :: id in st.logs && st.logs[id].status == Sent ==> AcceptedCall(st, id))
  }

  ghost predicate SendsInv(st: State) {
    && (forall s :: s in st.sends ==> SendInv(st, st.sends[s]))
    && (forall s, t :: s in st.sends && t in st.sends && s != t &&
                       st.sends[s].phase.Logged? && st.sends[t].phase.Logged? ==>
          st.sends[s].phase.log != st.sends[t].phase.log)
  }

  ghost predicate Inv(st: State) {
    TablesInv(st) && SendsInv(st)
  }

  lemma AcceptedCallKept(st: State, st': State, id: LogId)
    requires st.calls <= st'.calls && AcceptedCall(st, id)
    ensures AcceptedCall(st', id)
  {
    var i :| 0 <= i < |st.calls| && st.calls[i].log == id && st.calls[i].answer.Accepted?;
    assert st'.calls[i] == st.calls[i];
  }

  /** A step that adds neither logs nor calls, keeps keys, and reports SENT only with an accepted call. */
  lemma QuietKeepsInv(st: State, st': State)
    requires Inv(st) && st'.calls == st.calls && st'.logs.Keys == st.logs.Keys
    requires forall id :: id in st.logs ==>
               st'.logs[id].key == st.logs[id].key && (st'.logs[id].status == Sent ==> AcceptedCall(st, id))
    requires forall s :: s in st'.sends ==>
               (s in st.sends && st'.sends[s] == st.sends[s])
               || (!st'.sends[s].phase.Logged? && SendInv(st, st'.sends[s]))
    ensures Inv(st')
  {
    forall id | AcceptedCall(st, id) ensures AcceptedCall(st', id) {
      AcceptedCallKept(st, st', id);
    }
    forall s | s in st'.sends ensures SendInv(st', st'.sends[s]) {
      assert SendInv(st, st'.sends[s]);
    }
  }

  /** All but the insert and the adapter call: only the step's own send moves, and a log may get its answer. */
  lemma QuietStep(adapters: set<Channel>, st: State, step: Step, st': State)
    requires Inv(st) && Enabled(st, step) && st' == Apply(adapters, st, step)
    requires !step.Insert? && !step.CallAdapter?
    ensures st'.calls == st.calls && st'.logs.Keys == st.logs.Keys
    ensures forall s :: s in st'.sends && s != step.s ==> s in st.sends && st'.sends[s] == st.sends[s]
    ensures forall id :: id in st.logs && st'.logs[id] != st.logs[id] ==>
              && step.Update? && step.s in st.sends
                && (st.sends[step.s].phase.Called? || st.sends[step.s].phase.Unroutable?)
              && st.sends[step.s].phase.log == id && st'.logs[id].key == st.logs[id].key
              && (st'.logs[id].status == Sent ==>
                  st.sends[step.s].phase.Called? && st.sends[step.s].phase.answer.Accepted?)
  {
    hide Inv;
  }

  /** The send that moved reports SENT only on an accepted call. */
  lemma QuietSend(adapters: set<Channel>, st: State, step: Step, st': State)
    requires Inv(st) && Enabled(st, step) && st' == Apply(adapters, st, step)
    requires !step.Insert? && !step.CallAdapter? && step.s in st'.sends
    ensures !st'.sends[step.s].phase.Logged? && SendInv(st, st'.sends[step.s])
  {
    hide UniqueKeys;
    if !step.Begin? {
      assert SendInv(st, st.sends[step.s]);
    }
  }

  lemma QuietStepKeepsInv(adapters: set<Channel>, st: State, step: Step, st': State)
    requires Inv(st) && Enabled(st, step) && st' == Apply(adapters, st, step)
    requires !step.Insert? && !step.CallAdapter?
    ensures Inv(st')
  {
    hide Apply, Enabled;
    QuietStep(adapters, st, step, st');
    if step.s in st'.sends {
      QuietSend(adapters, st, step, st');
    }
    forall id | id in st.logs ensures st'.logs[id].key == st.logs[id].key
      && (st'.logs[id].status == Sent ==> AcceptedCall(st, id)) {
      if st'.logs[id] != st.logs[id] {
        assert SendInv(st, st.sends[step.s]);
      }
    }
    QuietKeepsInv(st, st');
  }

  /** What an insert does. */
  lemma InsertStep(adapters: set<Channel>, st: State, step: Step, st': State)
    requires Enabled(st, step) && st' == Apply(adapters, st, step) && step.Insert?
    ensures step.s in st.sends && st'.calls == st.calls && step.id !in st.logs
    ensures var req := st.sends[step.s].req;
            || st' == Moved(st, step.s, Done(Err("create delivery log")))
            || (!KeyUsed(st.logs, req.key)
                && st' == Moved(st.(logs := st.logs[step.id := PendingLog(req)]), step.s,
                                if req.channel in adapters then Logged(step.id) else Unroutable(step.id)))
  {
  }

  lemma InsertKeepsTables(st: State, st': State, id: LogId, req: SendRequest)
    requires TablesInv(st) && id !in st.logs && !KeyUsed(st.logs, req.key)
    requires st'.calls == st.calls && st'.logs == st.logs[id := PendingLog(req)]
    ensures TablesInv(st')
  {
    forall other | AcceptedCall(st, other) ensures AcceptedCall(st', other) {
      AcceptedCallKept(st, st', other);
    }
  }

  lemma InsertKeepsSends(st: State, st': State, s: SendId, id: LogId, phase: Phase)
    requires Inv(st) && s in st.sends && id !in st.logs && st'.calls == st.calls
    requires phase == Logged(id) || phase == Unroutable(id)
    requires st' == Moved(st.(logs := st.logs[id := PendingLog(st.sends[s].req)]), s, phase)
    ensures SendsInv(st')
  {
    forall t | t in st'.sends ensures SendInv(st', st'.sends[t]) {
      assert SendInv(st, st.sends[t]);
      if t != s {
        SendCarries(st, st', st.sends[t]);
      }
    }
    forall t | t in st.sends && st.sends[t].phase.Logged? ensures st.sends[t].phase.log in st.logs {
      assert SendInv(st, st.sends[t]);
    }
  }

  /** More logs and no new calls leave a send as sound as it was. */
  lemma SendCarries(st: State, st': State, send: Send)
    requires SendInv(st, send) && st'.calls == st.calls
    requires forall id :: id in st.logs ==> id in st'.logs && st'.logs[id] == st.logs[id]
    ensures SendInv(st', send)
  {
    forall id | AcceptedCall(st, id) ensures AcceptedCall(st', id) {
      AcceptedCallKept(st, st', id);
    }
  }

  lemma FailedInsertKeepsInv(st: State, s: SendId)
    requires Inv(st) && s in st.sends
    ensures Inv(Moved(st, s, Done(Err("create delivery log"))))
  {
    var st' := Moved(st, s, Done(Err("create delivery log")));
    QuietKeepsInv(st, st');
  }

  lemma InsertKeepsInv(adapters: set<Channel>, st: State, step: Step, st': State)
    requires Inv(st) && Enabled(st, step) && st' == Apply(adapters, st, step) && step.Insert?
    ensures Inv(st')
  {
    hide Apply, Enabled, TablesInv, SendsInv, KeyUsed;
    InsertStep(adapters, st, step, st');
    if st' == Moved(st, step.s, Done(Err("create delivery log"))) {
      FailedInsertKeepsInv(st, step.s);
    } else {
      var req := st.sends[step.s].req;
      var phase := if req.channel in adapters then Logged(step.id) else Unroutable(step.id);
      InsertKeepsTables(st, st', step.id, req);
      InsertKeepsSends(st, st', step.s, step.id, phase);
    }
  }

  /** What an adapter call does. */
  lemma CallStep(adapters: set<Channel>, st: State, step: Step, st': State)
    requires Enabled(st, step) && st' == Apply(adapters, st, step) && step.CallAdapter?
    ensures step.s in st.sends && st.sends[step.s].phase.Logged?
    ensures var req := st.sends[step.s].req;
            var id := st.sends[step.s].phase.log;
            st' == Moved(st.(calls := st.calls + [Call(id, req.channel, req.recipient, req.key, step.answer)]),
                         step.s, Called(id, step.answer))
  {
  }

  lemma CallKeepsTables(st: State, st': State, call: Call)
    requires TablesInv(st) && Owned(st, call.log) && st.logs[call.log].key == call.key
    requires st'.logs == st.logs && st'.calls == st.calls + [call]
    ensures TablesInv(st')
  {
    forall id | AcceptedCall(st, id) ensures AcceptedCall(st', id) {
      AcceptedCallKept(st, st', id);
    }
  }

  lemma CallKeepsSend(st: State, st': State, s: SendId, t: SendId, call: Call)
    requires SendsInv(st) && s in st.sends && st.sends[s].phase == Logged(call.log)
    requires st' == Moved(st.(calls := st.calls + [call]), s, Called(call.log, call.answer)) && t in st.sends
    ensures SendInv(st', st'.sends[t])
  {
    assert SendInv(st, st.sends[t]) && SendInv(st, st.sends[s]);
    forall id | AcceptedCall(st, id) ensures AcceptedCall(st', id) {
      AcceptedCallKept(st, st', id);
    }
    assert st'.calls[|st.calls|] == call;
  }

  lemma CallKeepsInv(adapters: set<Channel>, st: State, step: Step, st': State)
    requires Inv(st) && Enabled(st, step) && st' == Apply(adapters, st, step) && step.CallAdapter?
    ensures Inv(st')
  {
    hide Apply, Enabled, TablesInv, Owned;
    CallStep(adapters, st, step, st');
    assert SendInv(st, st.sends[step.s]);
    var req := st.sends[step.s].req;
    var call := Call(st.sends[step.s].phase.log, req.channel, req.recipient, req.key, step.answer);
    CallKeepsTables(st, st', call);
    forall t | t in st'.sends ensures SendInv(st', st'.sends[t]) {
      CallKeepsSend(st, st', step.s, t, call);
    }
  }

  lemma {:induction false} RunKeepsInv(adapters: set<Channel>, steps: seq<Step>)
    requires ValidRun(adapters, State(map[], [], map[]), steps)
    ensures Inv(Exec(adapters, State(map[], [], map[]), steps))
    decreases |steps|
  {
    if steps != [] {
      var before := steps[..|steps| - 1];
      var step := steps[|steps| - 1];
      RunKeepsInv(adapters, before);
      var st := Exec(adapters, State(map[], [], map[]), before);
      var st' := Exec(adapters, State(map[], [], map[]), steps);
      if step.Insert? {
        InsertKeepsInv(adapters, st, step, st');
      } else if step.CallAdapter? {
        CallKeepsInv(adapters, st, step, st');
      } else {
        QuietStepKeepsInv(adapters, st, step, st');
      }
    }
  }

  /** A non-empty key reaches an adapter at most once. */
  lemma AtMostOneCallPerKey(adapters: set<Channel>, steps: seq<Step>, i: nat, j: nat)
    requires ValidRun(adapters, State(map[], [], map[]), steps)
    requires i < j < |Exec(adapters, State(map[], [], map[]), steps).calls|
    ensures var calls := Exec(adapters, State(map[], [], map[]), steps).calls;
            calls[i].key == calls[j].key ==> calls[i].key == ""
  {
    RunKeepsInv(adapters, steps);
  }

  /** A send that reports SENT, first or repeated, stands for one accepted adapter call. */
  lemma SentIsTrue(adapters: set<Channel>, steps: seq<Step>, s: SendId)
    requires ValidRun(adapters, State(map[], [], map[]), steps)
    requires s in Exec(adapters, State(map[], [], map[]), steps).sends
    ensures var st := Exec(adapters, State(map[], [], map[]), steps);
            var phase := st.sends[s].phase;
            phase.Done? && phase.result.Ok? && phase.result.value.status == Sent ==>
              AcceptedCall(st, phase.result.value.log)
  {
    RunKeepsInv(adapters, steps);
    var st := Exec(adapters, State(map[], [], map[]), steps);
    assert SendInv(st, st.sends[s]);
  }

  // ----- the service's Send is one uninterrupted run of these steps ------------

  lemma Append(adapters: set<Channel>, st: State, steps: seq<Step>, step: Step)
    requires ValidRun(adapters, st, steps) && Enabled(Exec(adapters, st, steps), step)
    ensures ValidRun(adapters, st, steps + [step])
    ensures Exec(adapters, st, steps + [step]) == Apply(adapters, Exec(adapters, st, steps), step)
  {
    assert (steps + [step])[..|steps + [step]| - 1] == steps;
  }

  lemma SendIsARun(adapters: set<Channel>, st: State, s: SendId, req: SendRequest, env: Env) returns (steps: seq<Step>)
    requires UniqueKeys(st.logs) && s !in st.sends && env.id !in st.logs
    ensures ValidRun(adapters, st, steps)
    ensures var end := Exec(adapters, st, steps);
            && s in end.sends && end.sends[s].phase.Done?
            && SendOutcome(adapters, st.logs, st.calls, req, env)
              == Outcome(end.logs, end.calls, end.sends[s].phase.result)
  {
    steps := [];
    Append(adapters, st, steps, Begin(s, req));
    steps := steps + [Begin(s, req)];
    Append(adapters, st, steps, Lookup(s, env.lookupOk));
    steps := steps + [Lookup(s, env.lookupOk)];
    if Exec(adapters, st, steps).sends[s].phase.Checked? {
      Append(adapters, st, steps, Insert(s, env.id, env.insertOk));
      steps := steps + [Insert(s, env.id, env.insertOk)];
      if Exec(adapters, st, steps).sends[s].phase.Logged? {
        Append(adapters, st, steps, CallAdapter(s, env.answer));
        steps := steps + [CallAdapter(s, env.answer)];
      }
      if !Exec(adapters, st, steps).sends[s].phase.Done? {
        Append(adapters, st, steps, Update(s, env.updateOk));
        steps := steps + [Update(s, env.updateOk)];
      }
    }
  }
}
