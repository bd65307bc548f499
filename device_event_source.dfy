/** The shared server-sent-event connections of the web pages
    (apps/webpages/src/hooks/useDeviceEventSource.ts): one `EventSource` per
    device, kept in a module-level map with a reference count. Mounting a
    listener opens the connection if needed and counts it; its cleanup removes
    the listener, uncounts it and closes and forgets the connection when the
    count reaches zero. */
module DeviceEventSource {

  /** Identity of a listener closure. */
  type CallbackId = nat

  /** The two event types of the hook. */
  datatype EventType = Series | Protector
  {
    /** The event name passed to `addEventListener`. */
    function Name(): (name: string)
      ensures name == "series" || name == "protector"
      ensures name == "series" <==> this == Series
    {
      match this
      case Series => "series"
      case Protector => "protector"
    }
  }

  /** The connection URL of a device. */
  function SourceUrl(deviceId: string): (url: string)
    ensures |url| == 13 + |deviceId|
    ensures url[..13] == "/api/devices/" && url[13..] == deviceId
  {
    "/api/devices/" + deviceId
  }

  /** Handle of an `EventSource`: its position in the registry's list of the
      connections it has opened. */
  type SourceId = nat

  /** The observable state of a browser `EventSource`: its URL, its listeners
      (a set, since adding the same type and callback twice registers it
      once) and how often `close` was called on it. The transport itself is
      not modelled. */
  datatype Connection = Connection(url: string, listeners: set<(EventType, CallbackId)>, closeCount: nat)

  /** The map's value `{ refCount, eventSource }`. */
  datatype Entry = Entry(refCount: int, eventSource: SourceId)

  /** What an effect's cleanup closure captures: its arguments and the
      connection it listens on. */
  datatype Subscription = Subscription(deviceId: string, eventType: EventType, cb: CallbackId, eventSource: SourceId)

  /** How many subscriptions of a run are for `deviceId`. */
  function CountFor(subs: seq<Subscription>, deviceId: string): (n: nat)
    ensures n <= |subs|
    decreases |subs|
  {
    if subs == [] then 0
    else (if subs[0].deviceId == deviceId then 1 else 0) + CountFor(subs[1..], deviceId)
  }

  /** The run without the first occurrence of `s`. */
  function RemoveOne(subs: seq<Subscription>, s: Subscription): (r: seq<Subscription>)
    requires s in subs
    ensures |r| == |subs| - 1
    ensures multiset(r) == multiset(subs) - multiset{s}
    decreases |subs|
  {
    assert subs == [subs[0]] + subs[1..];
    if subs[0] == s then subs[1..]
    else
      [subs[0]] + RemoveOne(subs[1..], s)
  }

  lemma {:induction false} CountForAppend(subs: seq<Subscription>, s: Subscription, deviceId: string)
    ensures CountFor(subs + [s], deviceId) == CountFor(subs, deviceId) + (if s.deviceId == deviceId then 1 else 0)
    decreases |subs|
  {
    if subs != [] {
      CountForAppend(subs[1..], s, deviceId);
      assert (subs + [s])[1..] == subs[1..] + [s];
    }
  }

  lemma {:induction false} CountForRemoveOne(subs: seq<Subscription>, s: Subscription, deviceId: string)
    requires s in subs
    ensures CountFor(RemoveOne(subs, s), deviceId) == CountFor(subs, deviceId) - (if s.deviceId == deviceId then 1 else 0)
    decreases |subs|
  {
    if subs[0] != s {
      CountForRemoveOne(subs[1..], s, deviceId);
      var r := RemoveOne(subs, s);
      assert r[1..] == RemoveOne(subs[1..], s);
    }
  }

  /** A device with no counted subscription has none at all. */
  lemma {:induction false} CountForZero(subs: seq<Subscription>, deviceId: string)
    requires CountFor(subs, deviceId) == 0
    ensures forall i :: 0 <= i < |subs| ==> subs[i].deviceId != deviceId
    decreases |subs|
  {
    if subs != [] {
      CountForZero(subs[1..], deviceId);
      assert forall i :: 1 <= i < |subs| ==> subs[i] == subs[1..][i - 1];
    }
  }

  // ---------------------------------------------------------------------------
  // The registry's invariant

  /** A stored entry's count is the number of its device's live
      subscriptions and is positive; its connection is open and at the
      device's URL. */
  ghost predicate Counted(entries: map<string, Entry>, connections: seq<Connection>, live: seq<Subscription>)
  {
    forall k :: k in entries ==>
      && entries[k].refCount == CountFor(live, k) > 0
      && entries[k].eventSource < |connections|
      && connections[entries[k].eventSource].closeCount == 0
      && connections[entries[k].eventSource].url == SourceUrl(k)
  }

  /** Distinct devices have distinct connections. */
  ghost predicate Distinct(entries: map<string, Entry>)
  {
    forall k1, k2 :: k1 in entries && k2 in entries && k1 != k2 ==>
      entries[k1].eventSource != entries[k2].eventSource
  }

  /** Every live subscription listens on its device's current connection. */
  ghost predicate LiveCurrent(entries: map<string, Entry>, live: seq<Subscription>)
  {
    forall i :: 0 <= i < |live| ==>
      live[i].deviceId in entries && live[i].eventSource == entries[live[i].deviceId].eventSource
  }

  /** No connection was ever closed twice. */
  ghost predicate ClosedAtMostOnce(connections: seq<Connection>)
  {
    forall j :: 0 <= j < |connections| ==> connections[j].closeCount <= 1
  }

  ghost predicate Inv(entries: map<string, Entry>, connections: seq<Connection>, live: seq<Subscription>)
  {
    Counted(entries, connections, live) && Distinct(entries) && LiveCurrent(entries, live) && ClosedAtMostOnce(connections)
  }

  /** A device has an entry exactly when it has live subscriptions. */
  lemma EntryIffCounted(entries: map<string, Entry>, connections: seq<Connection>, live: seq<Subscription>, deviceId: string)
    requires Inv(entries, connections, live)
    ensures deviceId in entries <==> CountFor(live, deviceId) > 0
  {
    if deviceId !in entries {
      NoneCounted(live, deviceId);
    }
  }

  // ---------------------------------------------------------------------------
  // Mount

  /** The connection a mount listens on: the stored one, or a new one
      appended to the list. */
  function MountedSource(entries: map<string, Entry>, connections: seq<Connection>, deviceId: string): SourceId
  {
    if deviceId in entries then entries[deviceId].eventSource else |connections|
  }

  /** The map after a mount: the device's count goes up by one, from a new
      entry at zero when there was none. */
  function MountedEntries(entries: map<string, Entry>, connections: seq<Connection>, deviceId: string): (r: map<string, Entry>)
    ensures r.Keys == entries.Keys + {deviceId}
    ensures forall k :: k in entries && k != deviceId ==> r[k] == entries[k]
  {
    var es := if deviceId in entries then entries[deviceId] else Entry(0, |connections|);
    entries[deviceId := es.(refCount := es.refCount + 1)]
  }

  /** The connections after a mount: one more exactly when the device had no
      entry, and the listener added to the mounted one. */
  function MountedConnections(entries: map<string, Entry>, connections: seq<Connection>, deviceId: string,
                              eventType: EventType, cb: CallbackId): (r: seq<Connection>)
    requires deviceId in entries ==> entries[deviceId].eventSource < |connections|
    ensures |r| == |connections| + (if deviceId in entries then 0 else 1)
  {
    var pool := if deviceId in entries then connections else connections + [Connection(SourceUrl(deviceId), {}, 0)];
    var source := MountedSource(entries, connections, deviceId);
    pool[source := pool[source].(listeners := pool[source].listeners + {(eventType, cb)})]
  }

  lemma MountKeepsCounted(entries: map<string, Entry>, connections: seq<Connection>, live: seq<Subscription>,
                          deviceId: string, eventType: EventType, cb: CallbackId)
    requires Inv(entries, connections, live)
    ensures var source := MountedSource(entries, connections, deviceId);
      Counted(MountedEntries(entries, connections, deviceId),
              MountedConnections(entries, connections, deviceId, eventType, cb),
              live + [Subscription(deviceId, eventType, cb, source)])
  {
    var source := MountedSource(entries, connections, deviceId);
    var sub := Subscription(deviceId, eventType, cb, source);
    var e := MountedEntries(entries, connections, deviceId);
    var c := MountedConnections(entries, connections, deviceId, eventType, cb);
    EntryIffCounted(entries, connections, live, deviceId);
    forall k | k in e
      ensures e[k].refCount == CountFor(live + [sub], k) > 0
      ensures e[k].eventSource < |c|
      ensures c[e[k].eventSource].closeCount == 0
      ensures c[e[k].eventSource].url == SourceUrl(k)
    {
      CountForAppend(live, sub, k);
      if k != deviceId {
        assert e[k] == entries[k] && entries[k].eventSource != source;
      }
    }
  }

  lemma MountKeepsDistinct(entries: map<string, Entry>, connections: seq<Connection>, live: seq<Subscription>, deviceId: string)
    requires Inv(entries, connections, live)
    ensures Distinct(MountedEntries(entries, connections, deviceId))
  {
  }

  lemma MountKeepsLiveCurrent(entries: map<string, Entry>, connections: seq<Connection>, live: seq<Subscription>,
                              deviceId: string, eventType: EventType, cb: CallbackId)
    requires Inv(entries, connections, live)
    ensures var source := MountedSource(entries, connections, deviceId);
      LiveCurrent(MountedEntries(entries, connections, deviceId), live + [Subscription(deviceId, eventType, cb, source)])
  {
    var source := MountedSource(entries, connections, deviceId);
    var live' := live + [Subscription(deviceId, eventType, cb, source)];
    assert forall i :: 0 <= i < |live| ==> live'[i] == live[i];
  }

  lemma MountKeepsClosedAtMostOnce(entries: map<string, Entry>, connections: seq<Connection>, live: seq<Subscription>,
                                   deviceId: string, eventType: EventType, cb: CallbackId)
    requires Inv(entries, connections, live)
    ensures ClosedAtMostOnce(MountedConnections(entries, connections, deviceId, eventType, cb))
  {
  }

  /** A mount keeps the invariant, whether it reuses or opens the connection. */
  lemma MountPreservesInv(entries: map<string, Entry>, connections: seq<Connection>, live: seq<Subscription>,
                          deviceId: string, eventType: EventType, cb: CallbackId)
    requires Inv(entries, connections, live)
    ensures var source := MountedSource(entries, connections, deviceId);
      Inv(MountedEntries(entries, connections, deviceId),
          MountedConnections(entries, connections, deviceId, eventType, cb),
          live + [Subscription(deviceId, eventType, cb, source)])
  {
    MountKeepsCounted(entries, connections, live, deviceId, eventType, cb);
    MountKeepsDistinct(entries, connections, live, deviceId);
    MountKeepsLiveCurrent(entries, connections, live, deviceId, eventType, cb);
    MountKeepsClosedAtMostOnce(entries, connections, live, deviceId, eventType, cb);
  }

  /** A mount for a device with an entry reuses its connection and opens
      none; a mount for a device without one opens exactly one, at the
      device's URL and with a count of 1. */
  lemma MountReusesOrOpens(entries: map<string, Entry>, connections: seq<Connection>, live: seq<Subscription>,
                           deviceId: string, eventType: EventType, cb: CallbackId)
    requires Inv(entries, connections, live)
    ensures var source := MountedSource(entries, connections, deviceId);
      var e := MountedEntries(entries, connections, deviceId);
      var c := MountedConnections(entries, connections, deviceId, eventType, cb);
      && e[deviceId].refCount == CountFor(live, deviceId) + 1
      && e[deviceId].eventSource == source < |c|
      && (eventType, cb) in c[source].listeners
      && (deviceId in entries ==> source == entries[deviceId].eventSource && |c| == |connections|)
      && (deviceId !in entries ==> source == |connections| && |c| == |connections| + 1
                                   && e[deviceId].refCount == 1 && c[source].url == SourceUrl(deviceId))
      && (forall j :: 0 <= j < |connections| && j != source ==> c[j] == connections[j])
  {
    EntryIffCounted(entries, connections, live, deviceId);
  }

  // ---------------------------------------------------------------------------
  // Cleanup

  /** The map after a cleanup: the device's count goes down by one, and the
      entry is deleted when it reaches zero. */
  function ReleasedEntries(entries: map<string, Entry>, sub: Subscription): (r: map<string, Entry>)
    requires sub.deviceId in entries
    ensures r.Keys <= entries.Keys && entries.Keys - r.Keys <= {sub.deviceId}
    ensures forall k :: k in entries && k != sub.deviceId ==> k in r && r[k] == entries[k]
  {
    var es := entries[sub.deviceId];
    var remaining := es.refCount - 1;
    if remaining == 0 then entries - {sub.deviceId}
    else entries[sub.deviceId := es.(refCount := remaining)]
  }

  /** The connections after a cleanup: the listener removed from the
      subscription's connection, which is closed when the count reaches
      zero. */
  function ReleasedConnections(entries: map<string, Entry>, connections: seq<Connection>, sub: Subscription): (r: seq<Connection>)
    requires sub.deviceId in entries && sub.eventSource < |connections|
    ensures |r| == |connections|
    ensures forall j :: 0 <= j < |connections| && j != sub.eventSource ==> r[j] == connections[j]
  {
    var c := connections[sub.eventSource];
    var removed := c.(listeners := c.listeners - {(sub.eventType, sub.cb)});
    var closed := if entries[sub.deviceId].refCount - 1 == 0 then removed.(closeCount := removed.closeCount + 1) else removed;
    connections[sub.eventSource := closed]
  }

  lemma ReleaseKeepsCounted(entries: map<string, Entry>, connections: seq<Connection>, live: seq<Subscription>, sub: Subscription)
    requires Inv(entries, connections, live) && sub in live
    ensures sub.deviceId in entries && sub.eventSource < |connections|
    ensures Counted(ReleasedEntries(entries, sub), ReleasedConnections(entries, connections, sub), RemoveOne(live, sub))
  {
    var e := ReleasedEntries(entries, sub);
    var c := ReleasedConnections(entries, connections, sub);
    var rest := RemoveOne(live, sub);
    forall k | k in e
      ensures e[k].refCount == CountFor(rest, k) > 0
      ensures e[k].eventSource < |c|
      ensures c[e[k].eventSource].closeCount == 0
      ensures c[e[k].eventSource].url == SourceUrl(k)
    {
      CountForRemoveOne(live, sub, k);
      if k != sub.deviceId {
        assert e[k] == entries[k] && entries[k].eventSource != sub.eventSource;
      }
    }
  }

  lemma ReleaseKeepsLiveCurrent(entries: map<string, Entry>, connections: seq<Connection>, live: seq<Subscription>, sub: Subscription)
    requires Inv(entries, connections, live) && sub in live
    ensures sub.deviceId in entries
    ensures LiveCurrent(ReleasedEntries(entries, sub), RemoveOne(live, sub))
  {
    var rest := RemoveOne(live, sub);
    var e := ReleasedEntries(entries, sub);
    CountForRemoveOne(live, sub, sub.deviceId);
    var gone := entries[sub.deviceId].refCount - 1 == 0;
    if gone {
      CountForZero(rest, sub.deviceId);
    }
    forall j | 0 <= j < |rest|
      ensures rest[j].deviceId in e && rest[j].eventSource == e[rest[j].deviceId].eventSource
    {
      assert rest[j] in multiset(rest);
      assert rest[j] in live;
      if rest[j].deviceId == sub.deviceId {
        assert !gone;
      }
    }
  }

  lemma ReleaseKeepsClosedAtMostOnce(entries: map<string, Entry>, connections: seq<Connection>, live: seq<Subscription>, sub: Subscription)
    requires Inv(entries, connections, live) && sub in live
    ensures sub.deviceId in entries && sub.eventSource < |connections|
    ensures ClosedAtMostOnce(ReleasedConnections(entries, connections, sub))
  {
  }

  /** A cleanup keeps the invariant. */
  lemma ReleasePreservesInv(entries: map<string, Entry>, connections: seq<Connection>, live: seq<Subscription>, sub: Subscription)
    requires Inv(entries, connections, live) && sub in live
    ensures sub.deviceId in entries && sub.eventSource < |connections|
    ensures Inv(ReleasedEntries(entries, sub), ReleasedConnections(entries, connections, sub), RemoveOne(live, sub))
  {
    ReleaseKeepsCounted(entries, connections, live, sub);
    ReleaseKeepsLiveCurrent(entries, connections, live, sub);
    ReleaseKeepsClosedAtMostOnce(entries, connections, live, sub);
  }

  /** A cleanup removes its listener, and closes the connection and deletes
      the entry exactly when it was the device's last live subscription. */
  lemma ReleaseClosesAtZero(entries: map<string, Entry>, connections: seq<Connection>, live: seq<Subscription>, sub: Subscription)
    requires Inv(entries, connections, live) && sub in live
    ensures sub.deviceId in entries && sub.eventSource < |connections|
    ensures var e := ReleasedEntries(entries, sub);
      var c := ReleasedConnections(entries, connections, sub);
      var remaining := CountFor(RemoveOne(live, sub), sub.deviceId);
      && (sub.eventType, sub.cb) !in c[sub.eventSource].listeners
      && (c[sub.eventSource].closeCount == 1 <==> remaining == 0)
      && (sub.deviceId !in e <==> remaining == 0)
      && (sub.deviceId in e ==> e[sub.deviceId].refCount == remaining)
  {
    CountForRemoveOne(live, sub, sub.deviceId);
  }

  // ---------------------------------------------------------------------------
  // The registry

  /** `eventSourceMap`, together with every connection it opened and the
      subscriptions whose cleanup has not run yet. */
  class Registry {
    var entries: map<string, Entry>
    var connections: seq<Connection>
    ghost var live: seq<Subscription>

    ghost predicate Valid()
      reads this
    {
      Inv(entries, connections, live)
    }

    constructor ()
      ensures Valid() && entries == map[] && connections == [] && live == []
    {
      entries := map[];
      connections := [];
      live := [];
    }

    /** The effect of `useDeviceEventSource`: reuse the device's connection or
        open one at its URL, count the subscription and add the listener. */
    method Mount(deviceId: string, eventType: EventType, cb: CallbackId) returns (sub: Subscription)
      requires Valid()
      modifies this
      ensures Valid()
      ensures sub == Subscription(deviceId, eventType, cb, MountedSource(old(entries), old(connections), deviceId))
      ensures live == old(live) + [sub]
      ensures entries == MountedEntries(old(entries), old(connections), deviceId)
      ensures connections == MountedConnections(old(entries), old(connections), deviceId, eventType, cb)
    {
      MountPreservesInv(entries, connections, live, deviceId, eventType, cb);
      ghost var entries' := MountedEntries(entries, connections, deviceId);
      ghost var connections' := MountedConnections(entries, connections, deviceId, eventType, cb);
      var es: Entry;
      if deviceId in entries {
        es := entries[deviceId];
      } else {
        es := Entry(0, |connections|);
        connections := connections + [Connection(SourceUrl(deviceId), {}, 0)];
      }
      es := es.(refCount := es.refCount + 1);
      entries := entries[deviceId := es];
      assert entries == entries';
      var eventSource := es.eventSource;
      connections := connections[eventSource := connections[eventSource].(
        listeners := connections[eventSource].listeners + {(eventType, cb)})];
      assert connections == connections';
      sub := Subscription(deviceId, eventType, cb, eventSource);
      live := live + [sub];
    }

    /** The effect's cleanup: remove the listener, uncount the subscription,
        and at zero close the connection and delete the entry. */
    method Release(sub: Subscription)
      requires Valid() && sub in live
      modifies this
      ensures old(sub.deviceId in entries && sub.eventSource < |connections|)
      ensures Valid()
      ensures live == RemoveOne(old(live), sub)
      ensures entries == ReleasedEntries(old(entries), sub)
      ensures connections == ReleasedConnections(old(entries), old(connections), sub)
    {
      ReleasePreservesInv(entries, connections, live, sub);
      ghost var entries' := ReleasedEntries(entries, sub);
      ghost var connections' := ReleasedConnections(entries, connections, sub);
      var eventSource := sub.eventSource;
      var listening := connections[eventSource];
      listening := listening.(listeners := listening.listeners - {(sub.eventType, sub.cb)});
      var es := entries[sub.deviceId];
      es := es.(refCount := es.refCount - 1);
      if es.refCount == 0 {
        listening := listening.(closeCount := listening.closeCount + 1);
        entries := entries - {sub.deviceId};
      } else {
        entries := entries[sub.deviceId := es];
      }
      connections := connections[eventSource := listening];
      assert entries == entries';
      assert connections == connections';
      live := RemoveOne(live, sub);
    }

    /** `useDeviceSeriesEventSource`: a subscription to "series" events. */
    method MountSeries(deviceId: string, cb: CallbackId) returns (sub: Subscription)
      requires Valid()
      modifies this
      ensures Valid()
      ensures sub == Subscription(deviceId, Series, cb, MountedSource(old(entries), old(connections), deviceId))
      ensures live == old(live) + [sub]
      ensures entries == MountedEntries(old(entries), old(connections), deviceId)
      ensures connections == MountedConnections(old(entries), old(connections), deviceId, Series, cb)
    {
      sub := Mount(deviceId, Series, cb);
    }

    /** `useDeviceProtectorEventSource`: a subscription to "protector" events. */
    method MountProtector(deviceId: string, cb: CallbackId) returns (sub: Subscription)
      requires Valid()
      modifies this
      ensures Valid()
      ensures sub == Subscription(deviceId, Protector, cb, MountedSource(old(entries), old(connections), deviceId))
      ensures live == old(live) + [sub]
      ensures entries == MountedEntries(old(entries), old(connections), deviceId)
      ensures connections == MountedConnections(old(entries), old(connections), deviceId, Protector, cb)
    {
      sub := Mount(deviceId, Protector, cb);
    }
  }

  /** A device appearing in no subscription is counted zero times. */
  lemma {:induction false} NoneCounted(subs: seq<Subscription>, deviceId: string)
    requires forall i :: 0 <= i < |subs| ==> subs[i].deviceId != deviceId
    ensures CountFor(subs, deviceId) == 0
    decreases |subs|
  {
    if subs != [] {
      NoneCounted(subs[1..], deviceId);
    }
  }
}
