/** The Kafka topic as an append-only log, with the producer and consumer
    wrappers of internal/kafka over it. */
module Broker {
  import opened Domain

  /** The bytes of a message: a notification, or what json.Unmarshal rejects. */
  datatype Value = Json(n: Notification) | Corrupt

  datatype Message = Message(topic: string, key: Id, value: Value)

  datatype Route = Route(topic: string, groupId: string)

  type Routing = map<string, Route>

  /** The table that config.Load builds: one topic, a group per channel. */
  const ROUTING: Routing := map[
    "ios" := Route("notifications", "worker-ios"),
    "android" := Route("notifications", "worker-android"),
    "sms" := Route("notifications", "worker-sms"),
    "email" := Route("notifications", "worker-email")]

  lemma EveryChannelIsRouted(c: Channel)
    ensures ChannelName(c) in ROUTING && ROUTING[ChannelName(c)].topic == "notifications"
  {
  }

  /** Each channel's worker is alone in its group, so each is handed every
      message of the one topic. */
  lemma GroupsAreSeparate(c: Channel, d: Channel)
    requires ChannelName(c) in ROUTING && ChannelName(d) in ROUTING
    ensures ROUTING[ChannelName(c)].groupId == "worker-" + ChannelName(c)
    ensures ROUTING[ChannelName(c)].groupId == ROUTING[ChannelName(d)].groupId ==> c == d
  {
    var g, h := ROUTING[ChannelName(c)].groupId, ROUTING[ChannelName(d)].groupId;
    assert g == h ==> g[7] == h[7];
  }

  function Copies<T>(x: T, n: nat): (r: seq<T>)
    ensures |r| == n && forall k :: 0 <= k < n ==> r[k] == x
  {
    seq(n, _ => x)
  }

  class Log {
    var messages: seq<Message>

    constructor ()
      ensures messages == []
    {
      messages := [];
    }
  }

  class Producer {
    const log: Log
    const routing: Routing

    constructor (log: Log, routing: Routing)
      ensures this.log == log && this.routing == routing
    {
      this.log := log;
      this.routing := routing;
    }

    /** ok is a nil error; a write whose reply is lost has been appended. The
        writer repeats a write it got no reply to, so that `extra` further
        copies may be appended by one call. */
    method Publish(n: Notification, fault: Fault, extra: nat) returns (ok: bool)
      modifies log
      ensures ok == (fault.Fine? && ChannelName(n.channel) in routing)
      ensures log.messages ==
                if fault.Applied() && ChannelName(n.channel) in routing
                then old(log.messages) + Copies(Message(routing[ChannelName(n.channel)].topic, n.userId, Json(n)), extra + 1)
                else old(log.messages)
    {
      if ChannelName(n.channel) !in routing {
        return false;
      }
      if fault.Applied() {
        log.messages := log.messages + Copies(Message(routing[ChannelName(n.channel)].topic, n.userId, Json(n)), extra + 1);
      }
      ok := fault.Fine?;
    }
  }

  /** What ReadMessage does next: the group may be handed any offset, an
      earlier one when commits were lost. */
  datatype Fetch = Deliver(offset: nat) | Interrupted | BrokerError

  datatype ReadError = ContextDone | ReadFailed | Undecodable

  class Consumer {
    const log: Log
    var next: nat
    var closed: bool

    constructor (log: Log)
      ensures this.log == log && next == 0 && !closed
    {
      this.log := log;
      next := 0;
      closed := false;
    }

    /** A decoded message is one of the log, at the offset delivered. */
    method ReadOne(fetch: Fetch) returns (r: Result<Notification, ReadError>)
      modifies this`next
      ensures r.Ok? ==> fetch.Deliver? && fetch.offset < |log.messages| && log.messages[fetch.offset].value == Json(r.value)
      ensures r.Err? ==> r.error == if fetch.Interrupted? then ContextDone
                                    else if fetch.Deliver? && fetch.offset < |log.messages| then Undecodable
                                    else ReadFailed
      ensures r == Err(Undecodable) ==> log.messages[fetch.offset].value == Corrupt
      ensures next == if fetch.Deliver? && fetch.offset < |log.messages| then fetch.offset + 1 else old(next)
    {
      match fetch
      case Interrupted => r := Err(ContextDone);
      case BrokerError => r := Err(ReadFailed);
      case Deliver(offset) =>
        if offset >= |log.messages| {
          return Err(ReadFailed);
        }
        next := offset + 1;
        match log.messages[offset].value {
          case Json(n) => r := Ok(n);
          case Corrupt => r := Err(Undecodable);
        }
    }

    method Close()
      modifies this`closed
      ensures closed
    {
      closed := true;
    }
  }
}
