/** The MQTT client as the components see it (app/stores/mqtt.tsx): a message
    listener can be attached and detached, and topics subscribed and
    unsubscribed. The broker connection itself is not modelled; each call is
    recorded in a ghost log. */
module MqttClient {

  /** Identity of a message-handler closure passed to `on`/`off`. */
  type HandlerId = nat

  datatype ClientEvent =
    | Listened(handler: HandlerId)
    | Unlistened(handler: HandlerId)
    | Subscribed(topic: string)
    | Unsubscribed(topic: string)

  function Subscriptions(topics: seq<string>): (events: seq<ClientEvent>)
    ensures |events| == |topics|
    ensures forall i :: 0 <= i < |topics| ==> events[i] == Subscribed(topics[i])
  {
    seq(|topics|, i requires 0 <= i < |topics| => Subscribed(topics[i]))
  }

  function Unsubscriptions(topics: seq<string>): (events: seq<ClientEvent>)
    ensures |events| == |topics|
    ensures forall i :: 0 <= i < |topics| ==> events[i] == Unsubscribed(topics[i])
  {
    seq(|topics|, i requires 0 <= i < |topics| => Unsubscribed(topics[i]))
  }

  /** The topics subscribed by a run of events, with multiplicity. */
  function SubscribedTopics(events: seq<ClientEvent>): multiset<string>
    decreases |events|
  {
    if events == [] then multiset{}
    else (if events[0].Subscribed? then multiset{events[0].topic} else multiset{}) + SubscribedTopics(events[1..])
  }

  /** The topics unsubscribed by a run of events, with multiplicity. */
  function UnsubscribedTopics(events: seq<ClientEvent>): multiset<string>
    decreases |events|
  {
    if events == [] then multiset{}
    else (if events[0].Unsubscribed? then multiset{events[0].topic} else multiset{}) + UnsubscribedTopics(events[1..])
  }

  lemma {:induction false} SubscribedTopicsOf(topics: seq<string>)
    ensures SubscribedTopics(Subscriptions(topics)) == multiset(topics)
    decreases |topics|
  {
    if topics != [] {
      SubscribedTopicsOf(topics[1..]);
      assert Subscriptions(topics)[1..] == Subscriptions(topics[1..]);
      assert topics == [topics[0]] + topics[1..];
    }
  }

  lemma {:induction false} UnsubscribedTopicsOf(topics: seq<string>)
    ensures UnsubscribedTopics(Unsubscriptions(topics)) == multiset(topics)
    decreases |topics|
  {
    if topics != [] {
      UnsubscribedTopicsOf(topics[1..]);
      assert Unsubscriptions(topics)[1..] == Unsubscriptions(topics[1..]);
      assert topics == [topics[0]] + topics[1..];
    }
  }

  /** A mount that attaches a handler and subscribes a topic list, and a
      cleanup that detaches it and unsubscribes the same list, are balanced:
      every subscription is undone exactly once. */
  lemma BalancedLifecycle(handler: HandlerId, topics: seq<string>)
    ensures SubscribedTopics([Listened(handler)] + Subscriptions(topics))
         == UnsubscribedTopics([Unlistened(handler)] + Unsubscriptions(topics))
  {
    SubscribedTopicsOf(topics);
    UnsubscribedTopicsOf(topics);
    assert ([Listened(handler)] + Subscriptions(topics))[1..] == Subscriptions(topics);
    assert ([Unlistened(handler)] + Unsubscriptions(topics))[1..] == Unsubscriptions(topics);
  }

  /** The shared client; only the calls made on it are observable here. */
  class Client {
    ghost var log: seq<ClientEvent>

    constructor ()
      ensures log == []
    {
      log := [];
    }

    /** `client.on("message", handler)` */
    method On(handler: HandlerId)
      modifies this
      ensures log == old(log) + [Listened(handler)]
    {
      log := log + [Listened(handler)];
    }

    /** `client.off("message", handler)` */
    method Off(handler: HandlerId)
      modifies this
      ensures log == old(log) + [Unlistened(handler)]
    {
      log := log + [Unlistened(handler)];
    }

    /** `client.subscribe(topic)` */
    method Subscribe(topic: string)
      modifies this
      ensures log == old(log) + [Subscribed(topic)]
    {
      log := log + [Subscribed(topic)];
    }

    /** `client.unsubscribe(topic)` */
    method Unsubscribe(topic: string)
      modifies this
      ensures log == old(log) + [Unsubscribed(topic)]
    {
      log := log + [Unsubscribed(topic)];
    }
  }
}
