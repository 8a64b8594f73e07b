/**
 The communications service: one call of Send looks the key up, inserts a
 PENDING log, calls the channel's adapter and records the answer.  Adapters are
 foreign; `calls` is what they were asked to send and answered.
 */
module Comms {
  import opened Prelude

  type LogId = nat

  datatype Channel = Email | Sms | Push | WhatsApp | InApp

  datatype DeliveryStatus = Pending | Sent | Failed

  datatype Log = Log(
    channel: Channel,
    recipient: string,
    recipientId: string,
    subject: string,
    body: string,
    status: DeliveryStatus,
    providerRef: string,
    error: string,
    retryCount: nat,
    key: string)

  type Logs = map<LogId, Log>

  datatype SendRequest = SendRequest(channel: Channel, recipient: string, recipientId: string,
                                     subject: string, body: string, key: string)

  datatype SendResult = SendResult(log: LogId, channel: Channel, status: DeliveryStatus, providerRef: string,
      error: string)

  datatype Answer = Accepted(ref: string) | Refused(error: string)

  datatype Call = Call(log: LogId, channel: Channel, recipient: string, key: string, answer: Answer)

  /** notification.Event; an absent metadata map answers every lookup with "". */
  datatype NotificationEvent = NotificationEvent(kind: string, recipientId: string, title: string, body: string,
                                                 priority: string, metadata: map<string, string>)

  // ----- routing of events to channels ---------------------------------------

  function Channels(e: NotificationEvent): seq<Channel> {
    if e.priority == "URGENT" then [Sms, Push, Email]
    else if e.priority == "HIGH" then [Push, Email]
    else [Push]
  }

  function Recipient(e: NotificationEvent, ch: Channel): string {
    var field := match ch
                 case Email => "email"
                 case Sms => "phone"
                 case WhatsApp => "phone"
                 case Push => "device_token"
                 case InApp => "";
    if ch != InApp && field in e.metadata then e.metadata[field] else ""
  }

  predicate HasContact(e: NotificationEvent, field: string) {
    field in e.metadata && e.metadata[field] != ""
  }

  /**
   Whom an event is for: every event goes to the device, a HIGH or URGENT one to the
   email address too, an URGENT one to the phone as well, where the metadata has them.
   */
  predicate Wanted(e: NotificationEvent, ch: Channel, recipient: string) {
    match ch
    case Push => HasContact(e, "device_token") && recipient == e.metadata["device_token"]
    case Email =>
      e.priority in {"HIGH", "URGENT"} && HasContact(e, "email") && recipient == e.metadata["email"]
    case Sms => e.priority == "URGENT" && HasContact(e, "phone") && recipient == e.metadata["phone"]
    case WhatsApp => false
    case InApp => false
  }

  /** The channel selection and the contact lookup together give exactly the wanted recipients. */
  lemma SelectedIsWanted(e: NotificationEvent, ch: Channel, recipient: string)
    ensures Wanted(e, ch, recipient) <==> ch in Channels(e) && Recipient(e, ch) == recipient != ""
  {
    assert forall k :: 0 <= k < |Channels(e)| ==> Channels(e)[k] in Channels(e);
    if e.priority == "URGENT" {
      assert Channels(e)[0] == Sms && Channels(e)[1] == Push && Channels(e)[2] == Email;
    } else if e.priority == "HIGH" {
      assert Channels(e)[0] == Push && Channels(e)[1] == Email;
    } else {
      assert Channels(e)[0] == Push;
    }
  }

  function RequestFor(e: NotificationEvent, ch: Channel): SendRequest {
    SendRequest(ch, Recipient(e, ch), e.recipientId, e.title, e.body, "")
  }

  // ----- the pieces of one send ----------------------------------------------

  /** The key column is unique where it is not NULL, and "" is stored as NULL. */
  predicate KeyUsed(logs: Logs, key: string) {
    key != "" && exists id :: id in logs && logs[id].key == key
  }

  ghost predicate UniqueKeys(logs: Logs) {
    forall a, b :: a in logs && b in logs && logs[a].key == logs[b].key != "" ==> a == b
  }

  function PendingLog(req: SendRequest): Log {
    Log(req.channel, req.recipient, req.recipientId, req.subject, req.body, Pending, "", "", 0, req.key)
  }

  function Updated(log: Log, status: DeliveryStatus, ref: string, error: string): Log {
    log.(status := status, providerRef := ref, error := error, retryCount := log.retryCount + 1)
  }

  function AnsweredLog(log: Log, answer: Answer): Log {
    match answer
    case Accepted(ref) => Updated(log, Sent, ref, "")
    case Refused(error) => Updated(log, Failed, "", error)
  }

  function AnswerResult(id: LogId, ch: Channel, answer: Answer): SendResult {
    match answer
    case Accepted(ref) => SendResult(id, ch, Sent, ref, "")
    case Refused(error) => SendResult(id, ch, Failed, "", error)
  }

  function StoredResult(id: LogId, log: Log): SendResult {
    SendResult(id, log.channel, log.status, log.providerRef, "")
  }

  const NO_ADAPTER := "no adapter registered for channel"

  /** What the outside world does during one send: the fresh id, the database's and the adapter's answers. */
  datatype Env = Env(id: LogId, lookupOk: bool, insertOk: bool, updateOk: bool, answer: Answer)

  datatype Outcome = Outcome(logs: Logs, calls: seq<Call>, result: Result<SendResult, string>)

  /** From the PENDING log on: call the channel's adapter, if there is one, and record its answer. */
  function Attempt(adapters: set<Channel>, logs: Logs, calls: seq<Call>, req: SendRequest, env: Env): Outcome {
    var pending := PendingLog(req);
    if req.channel !in adapters then
      Outcome(logs[env.id := if env.updateOk then Updated(pending, Failed, "", NO_ADAPTER) else pending],
              calls, Ok(SendResult(env.id, req.channel, Failed, "", NO_ADAPTER)))
    else
      Outcome(logs[env.id := if env.updateOk then AnsweredLog(pending, env.answer) else pending],
              calls + [Call(env.id, req.channel, req.recipient, req.key, env.answer)],
              Ok(AnswerResult(env.id, req.channel, env.answer)))
  }

  lemma AttemptKeepsKeys(adapters: set<Channel>, logs: Logs, calls: seq<Call>, req: SendRequest, env: Env)
    requires UniqueKeys(logs) && env.id !in logs && !KeyUsed(logs, req.key)
    ensures UniqueKeys(Attempt(adapters, logs, calls, req, env).logs)
  {
    var after := Attempt(adapters, logs, calls, req, env).logs;
    assert after[env.id].key == req.key;
  }

  /** One uninterrupted Send. */
  ghost function SendOutcome(adapters: set<Channel>, logs: Logs, calls: seq<Call>, req: SendRequest,
                             env: Env): Outcome {
    if env.lookupOk && KeyUsed(logs, req.key) then
      var id :| id in logs && logs[id].key == req.key;
      Outcome(logs, calls, Ok(StoredResult(id, logs[id])))
    else if !env.insertOk || KeyUsed(logs, req.key) then
      Outcome(logs, calls, Err("create delivery log"))
    else Attempt(adapters, logs, calls, req, env)
  }

  /** A new log holds the request, and the answer if that could be recorded. */
  ghost predicate LogTells(log: Log, req: SendRequest, env: Env, result: SendResult) {
    && log.channel == req.channel && log.recipient == req.recipient && log.recipientId == req.recipientId
    && log.subject == req.subject && log.body == req.body && log.key == req.key
    && (if env.updateOk
        then log.status == result.status && log.providerRef == result.providerRef && log.error == result.error
             && log.retryCount == 1
        else log.status == Pending && log.retryCount == 0)
  }

  /**
   What a send does, case by case: a key seen before answers with its log and does
   nothing else; a refused insert is an error without effect; otherwise one log is
   added, the channel's adapter if any is called once, and SENT means it accepted.
   */
  ghost predicate SendDoes(adapters: set<Channel>, logs: Logs, calls: seq<Call>, req: SendRequest, env: Env,
                           out: Outcome) {
    var used := req.key != "" && exists id :: id in logs && logs[id].key == req.key;
    if used && env.lookupOk then
      && out.logs == logs && out.calls == calls && out.result.Ok?
      && var r := out.result.value;
      && r.log in logs && logs[r.log].key == req.key && r.channel == logs[r.log].channel
      && r.status == logs[r.log].status && r.providerRef == logs[r.log].providerRef
    else if used || !env.insertOk then out.logs == logs && out.calls == calls && out.result.Err?
    else
      && out.result.Ok? && out.result.value.log == env.id && out.result.value.channel == req.channel
      && out.logs.Keys == logs.Keys + {env.id} && LogTells(out.logs[env.id], req, env, out.result.value)
      && (forall id :: id in logs && id != env.id ==> out.logs[id] == logs[id])
      && if req.channel !in adapters then out.calls == calls && out.result.value.status == Failed
         else
           && out.calls == calls + [Call(env.id, req.channel, req.recipient, req.key, env.answer)]
           && match env.answer
              case Accepted(ref) => out.result.value.status == Sent && out.result.value.providerRef == ref
              case Refused(error) => out.result.value.status == Failed && out.result.value.error == error
  }

  lemma SendOutcomeDoes(adapters: set<Channel>, logs: Logs, calls: seq<Call>, req: SendRequest, env: Env)
    ensures SendDoes(adapters, logs, calls, req, env, SendOutcome(adapters, logs, calls, req, env))
  {
  }

  /** Some adapter accepted a message for this channel and recipient, from call number `from` on. */
  ghost predicate Served(calls: seq<Call>, from: nat, ch: Channel, recipient: string) {
    exists i :: from <= i < |calls| && calls[i].channel == ch && calls[i].recipient == recipient
      && calls[i].answer.Accepted?
  }

  /** One call per channel, SMS first and email last. */
  ghost predicate InOrder(calls: seq<Call>, from: nat) {
    forall i, j :: from <= i < j < |calls| ==>
      calls[i].channel != calls[j].channel && calls[i].channel != Email && calls[j].channel != Sms
  }

  /** The calls from number `from` on are wanted by the event, on its first n channels. */
  ghost predicate MadeFor(e: NotificationEvent, calls: seq<Call>, from: nat, n: nat) {
    n <= |Channels(e)| &&
    forall i :: from <= i < |calls| ==>
      calls[i].channel in Channels(e)[..n] && Wanted(e, calls[i].channel, calls[i].recipient)
  }

  lemma SkippedChannel(e: NotificationEvent, calls: seq<Call>, from: nat, n: nat)
    requires MadeFor(e, calls, from, n) && n < |Channels(e)|
    ensures MadeFor(e, calls, from, n + 1)
  {
    hide Wanted;
    assert Channels(e)[..n + 1] == Channels(e)[..n] + [Channels(e)[n]];
  }

  lemma ChannelOrder(e: NotificationEvent, k: nat, n: nat)
    requires k < n < |Channels(e)|
    ensures Channels(e)[k] != Channels(e)[n] && Channels(e)[k] != Email && Channels(e)[n] != Sms
  {
  }

  lemma OrderGrows(calls: seq<Call>, call: Call, from: nat)
    requires InOrder(calls, from)
    requires forall i :: from <= i < |calls| ==>
               calls[i].channel != call.channel && calls[i].channel != Email && call.channel != Sms
    ensures InOrder(calls + [call], from)
  {
  }

  lemma NextCall(e: NotificationEvent, calls: seq<Call>, call: Call, from: nat, n: nat)
    requires MadeFor(e, calls, from, n) && n < |Channels(e)| && InOrder(calls, from)
    requires call.channel == Channels(e)[n] && Wanted(e, call.channel, call.recipient)
    ensures MadeFor(e, calls + [call], from, n + 1) && InOrder(calls + [call], from)
  {
    hide Wanted, Channels, InOrder;
    SkippedChannel(e, calls, from, n);
    assert Channels(e)[n] in Channels(e)[..n + 1];
    forall i | from <= i < |calls|
      ensures calls[i].channel != call.channel && calls[i].channel != Email && call.channel != Sms
    {
      assert calls[i].channel in Channels(e)[..n];
      var k :| 0 <= k < n && Channels(e)[k] == calls[i].channel;
      ChannelOrder(e, k, n);
    }
    OrderGrows(calls, call, from);
  }

  lemma CallsAreWanted(e: NotificationEvent, calls: seq<Call>, from: nat, n: nat)
    requires MadeFor(e, calls, from, n)
    ensures forall i :: from <= i < |calls| ==> Wanted(e, calls[i].channel, calls[i].recipient)
  {
  }

  /** A send makes at most one adapter call, for its own request. */
  lemma SendCalls(adapters: set<Channel>, logs: Logs, calls: seq<Call>, req: SendRequest, env: Env)
    ensures var out := SendOutcome(adapters, logs, calls, req, env);
            out.calls == calls || out.calls == calls + [Call(env.id, req.channel, req.recipient, req.key, env.answer)]
  {
  }

  /** Without a key a send fails exactly if the insert does, or there is no adapter, or it refuses. */
  lemma SendFails(adapters: set<Channel>, logs: Logs, calls: seq<Call>, req: SendRequest, env: Env)
    requires req.key == ""
    ensures var out := SendOutcome(adapters, logs, calls, req, env);
            && (out.result.Err? || out.result.value.status == Failed <==>
                  !(env.insertOk && req.channel in adapters && env.answer.Accepted?))
            && (out.result.Ok? && out.result.value.status != Failed ==> |out.calls| == |calls| + 1)
  {
  }

  /** Each of these calls has its log, which holds the event's own text for the event's recipient, under no key. */
  ghost predicate Carried(e: NotificationEvent, logs: Logs, calls: seq<Call>, from: nat) {
    forall i :: from <= i < |calls| ==>
      && calls[i].log in logs && calls[i].key == ""
      && var log := logs[calls[i].log];
      && log.channel == calls[i].channel && log.recipient == calls[i].recipient && log.key == ""
      && log.recipientId == e.recipientId && log.subject == e.title && log.body == e.body
  }

  lemma NoCallsYet(e: NotificationEvent, logs: Logs, calls: seq<Call>)
    ensures MadeFor(e, calls, |calls|, 0) && InOrder(calls, |calls|) && Carried(e, logs, calls, |calls|)
  {
  }

  lemma SendCarries(adapters: set<Channel>, logs: Logs, calls: seq<Call>, e: NotificationEvent, ch: Channel, env: Env,
                    from: nat)
    requires Carried(e, logs, calls, from) && env.id !in logs
    ensures var out := SendOutcome(adapters, logs, calls, RequestFor(e, ch), env);
            Carried(e, out.logs, out.calls, from)
  {
    hide KeyUsed;
    var out := SendOutcome(adapters, logs, calls, RequestFor(e, ch), env);
    forall i | from <= i < |calls| ensures calls[i].log in out.logs && out.logs[calls[i].log] == logs[calls[i].log] {
      assert calls[i].log in logs;
    }
  }

  class Service {
    const adapters: set<Channel>
    var logs: Logs
    var calls: seq<Call>

    ghost predicate Valid()
      reads this
    {
      UniqueKeys(logs)
    }

    constructor (adapters: set<Channel>)
      ensures Valid() && this.adapters == adapters && logs == map[] && calls == []
    {
      this.adapters := adapters;
      logs := map[];
      calls := [];
    }

    method Send(req: SendRequest, env: Env) returns (result: Result<SendResult, string>)
      requires Valid() && env.id !in logs
      modifies this`logs, this`calls
      ensures Valid()
      ensures Outcome(logs, calls, result) == SendOutcome(adapters, old(logs), old(calls), req, env)
      ensures SendDoes(adapters, old(logs), old(calls), req, env, Outcome(logs, calls, result))
      ensures old(calls) <= calls
      ensures logs.Keys <= old(logs).Keys + {env.id}
    {
      SendOutcomeDoes(adapters, logs, calls, req, env);
      hide SendDoes, PendingLog, Updated, AnsweredLog, AnswerResult, StoredResult;
      if req.key != "" && env.lookupOk {
        if id :| id in logs && logs[id].key == req.key {
          return Ok(StoredResult(id, logs[id]));
        }
      }
      if !env.insertOk || KeyUsed(logs, req.key) {
        return Err("create delivery log");
      }
      AttemptKeepsKeys(adapters, logs, calls, req, env);
      hide UniqueKeys, KeyUsed;
      logs := logs[env.id := PendingLog(req)];
      if req.channel !in adapters {
        if env.updateOk {
          logs := logs[env.id := Updated(logs[env.id], Failed, "", NO_ADAPTER)];
        }
        return Ok(SendResult(env.id, req.channel, Failed, "", NO_ADAPTER));
      }
      calls := calls + [Call(env.id, req.channel, req.recipient, req.key, env.answer)];
      if env.updateOk {
        logs := logs[env.id := AnsweredLog(logs[env.id], env.answer)];
      }
      return Ok(AnswerResult(env.id, req.channel, env.answer));
    }

    /**
     Fans an event out in channel order and stops at the first channel that
     fails.  nil means: every selected channel with a contact was served by a
     new accepted call.  An error means some such channel was not.
     */
    method SendEvent(e: NotificationEvent, envs: seq<Env>) returns (error: Option<string>)
      requires Valid() && |envs| >= |Channels(e)|
      requires forall i :: 0 <= i < |envs| ==> envs[i].id !in logs
      requires forall i, j :: 0 <= i < j < |envs| ==> envs[i].id != envs[j].id
      modifies this`logs, this`calls
      ensures Valid() && old(calls) <= calls
      ensures error.None? ==>
                forall ch, recipient :: Wanted(e, ch, recipient) ==> Served(calls, |old(calls)|, ch, recipient)
      ensures forall i :: |old(calls)| <= i < |calls| ==> Wanted(e, calls[i].channel, calls[i].recipient)
      ensures InOrder(calls, |old(calls)|) && Carried(e, logs, calls, |old(calls)|)
      ensures error.Some? ==>
                exists k :: (0 <= k < |Channels(e)| && Wanted(e, Channels(e)[k], Recipient(e, Channels(e)[k]))
                             && !(envs[k].insertOk && Channels(e)[k] in adapters && envs[k].answer.Accepted?))
    {
      var channels := Channels(e);
      var i := 0;
      NoCallsYet(e, logs, calls);
      hide MadeFor, InOrder, Carried, SendDoes, UniqueKeys, Wanted, SendOutcome;
      while i < |channels|
        invariant 0 <= i <= |channels|
        invariant Valid() && old(calls) <= calls
        invariant forall j :: i <= j < |envs| ==> envs[j].id !in logs
        invariant forall k :: 0 <= k < i && Recipient(e, channels[k]) != "" ==>
                    Served(calls, |old(calls)|, channels[k], Recipient(e, channels[k]))
        invariant MadeFor(e, calls, |old(calls)|, i) && InOrder(calls, |old(calls)|)
        invariant Carried(e, logs, calls, |old(calls)|)
      {
        var recipient := Recipient(e, channels[i]);
        SelectedIsWanted(e, channels[i], recipient);
        SkippedChannel(e, calls, |old(calls)|, i);
        if recipient != "" {
          ghost var before := calls;
          ghost var logsBefore := logs;
          var result := Send(RequestFor(e, channels[i]), envs[i]);
          SendCalls(adapters, logsBefore, before, RequestFor(e, channels[i]), envs[i]);
          SendFails(adapters, logsBefore, before, RequestFor(e, channels[i]), envs[i]);
          SendCarries(adapters, logsBefore, before, e, channels[i], envs[i], |old(calls)|);
          if |calls| > |before| {
            NextCall(e, before, calls[|before|], |old(calls)|, i);
          }
          CallsAreWanted(e, calls, |old(calls)|, i + 1);
          if result.Err? {
            return Some("send notification event: " + result.error);
          }
          if result.value.status == Failed {
            return Some("send notification event: " + result.value.error);
          }
          assert calls[|before|].answer.Accepted? && calls[|before|].channel == channels[i];
          forall k | 0 <= k < i && Recipient(e, channels[k]) != ""
            ensures Served(calls, |old(calls)|, channels[k], Recipient(e, channels[k]))
          {
            ServedGrows(before, calls, |old(calls)|, channels[k], Recipient(e, channels[k]));
          }
        }
        i := i + 1;
      }
      CallsAreWanted(e, calls, |old(calls)|, i);
      forall ch, to | Wanted(e, ch, to) ensures Served(calls, |old(calls)|, ch, to) {
        SelectedIsWanted(e, ch, to);
      }
      return None;
    }
  }

  lemma ServedGrows(calls: seq<Call>, more: seq<Call>, from: nat, ch: Channel, recipient: string)
    requires calls <= more && Served(calls, from, ch, recipient)
    ensures Served(more, from, ch, recipient)
  {
    var i :| from <= i < |calls| && calls[i].channel == ch && calls[i].recipient == recipient
      && calls[i].answer.Accepted?;
    assert more[i] == calls[i];
  }
}
