/** The dashboard's SignalR hub (TelemetryHub): connections subscribe to and
    unsubscribe from devices, a disconnect drops a connection from every
    device, and the hub reports which devices have subscribers. The
    subscription dictionary is static in the source, so one instance of the
    class below stands for all hub instances. The connection id of the caller
    (Context.ConnectionId) is a parameter. */
module TelemetryHubModel {
  import opened Common

  type Subscriptions = map<string, set<string>>

  /** What the hub sends back to the calling connection. */
  datatype Reply = Error(message: string) | SubscriptionConfirmed(deviceId: string)

  const EmptyDeviceIdError := "Device ID cannot be empty"

  /** The dictionary never holds a device with no subscriber. */
  predicate NoEmptySets(subs: Subscriptions) {
    forall d | d in subs :: subs[d] != {}
  }

  /** Every subscription is backed by the SignalR group of its device. */
  predicate GroupsCover(subs: Subscriptions, groups: set<(string, string)>) {
    forall d, c | d in subs && c in subs[d] :: (c, d) in groups
  }

  /** The connections subscribed to a device. */
  function SubscribersOf(subs: Subscriptions, deviceId: string): set<string> {
    if deviceId in subs then subs[deviceId] else {}
  }

  // ----- The state changes, as functions -----

  /** SubscribeToDevice for a valid device id. */
  function Subscribe(subs: Subscriptions, deviceId: string, connectionId: string): (r: Subscriptions)
    ensures NoEmptySets(subs) ==> NoEmptySets(r)
    ensures r.Keys == subs.Keys + {deviceId}
    ensures SubscribersOf(r, deviceId) == SubscribersOf(subs, deviceId) + {connectionId}
    ensures forall d | d in subs && d != deviceId :: r[d] == subs[d]
  {
    subs[deviceId := SubscribersOf(subs, deviceId) + {connectionId}]
  }

  /** UnsubscribeFromDevice for a valid device id. */
  function Unsubscribe(subs: Subscriptions, deviceId: string, connectionId: string): (r: Subscriptions)
    ensures NoEmptySets(r)  <== NoEmptySets(subs)
    ensures SubscribersOf(r, deviceId) == SubscribersOf(subs, deviceId) - {connectionId}
    ensures forall d | d != deviceId :: SubscribersOf(r, d) == SubscribersOf(subs, d)
  {
    if deviceId !in subs then subs
    else
      var rest := subs[deviceId] - {connectionId};
      if rest == {} then subs - {deviceId} else subs[deviceId := rest]
  }

  /** OnDisconnectedAsync: the connection leaves every device, and devices
      left without subscribers disappear. */
  function Disconnect(subs: Subscriptions, connectionId: string): (r: Subscriptions)
    ensures NoEmptySets(r)
    ensures forall d :: SubscribersOf(r, d) == SubscribersOf(subs, d) - {connectionId}
  {
    map d | d in subs && subs[d] - {connectionId} != {} :: subs[d] - {connectionId}
  }

  /** Subscribing twice is subscribing once. */
  lemma SubscribeIsIdempotent(subs: Subscriptions, deviceId: string, connectionId: string)
    ensures Subscribe(Subscribe(subs, deviceId, connectionId), deviceId, connectionId)
      == Subscribe(subs, deviceId, connectionId)
  {
  }

  /** Unsubscribing undoes a subscription that was new. */
  lemma UnsubscribeUndoesSubscribe(subs: Subscriptions, deviceId: string, connectionId: string)
    requires NoEmptySets(subs)
    requires connectionId !in SubscribersOf(subs, deviceId)
    ensures Unsubscribe(Subscribe(subs, deviceId, connectionId), deviceId, connectionId) == subs
  {
    var r := Unsubscribe(Subscribe(subs, deviceId, connectionId), deviceId, connectionId);
    assert r.Keys == subs.Keys;
  }

  /** A disconnect is an unsubscribe from every device the connection had. */
  lemma DisconnectIsUnsubscribeEverywhere(subs: Subscriptions, connectionId: string, deviceId: string)
    requires NoEmptySets(subs)
    ensures Disconnect(subs, connectionId) == Disconnect(Unsubscribe(subs, deviceId, connectionId), connectionId)
  {
    var a := Disconnect(subs, connectionId);
    var b := Disconnect(Unsubscribe(subs, deviceId, connectionId), connectionId);
    assert forall d :: SubscribersOf(a, d) == SubscribersOf(b, d);
    assert forall d | d in a :: d in b by {
      forall d | d in a ensures d in b {
        assert SubscribersOf(a, d) != {};
      }
    }
    assert a.Keys == b.Keys;
  }

  /** The subscriptions part way through OnDisconnectedAsync's loop: the
      devices still `pending` are as they were, the others are disconnected. */
  function DisconnectExcept(subs: Subscriptions, connectionId: string, pending: set<string>): Subscriptions {
    map d | d in subs && (d in pending || subs[d] - {connectionId} != {}) ::
      if d in pending then subs[d] else subs[d] - {connectionId}
  }

  /** Processing one pending device in the loop. */
  lemma DisconnectExceptStep(subs: Subscriptions, connectionId: string, pending: set<string>, device: string)
    requires NoEmptySets(subs)
    requires device in pending && pending <= subs.Keys
    ensures var cur := DisconnectExcept(subs, connectionId, pending);
      var next := DisconnectExcept(subs, connectionId, pending - {device});
      && device in cur && cur[device] == subs[device]
      && (connectionId in cur[device] && cur[device] - {connectionId} == {} ==> next == cur - {device})
      && (connectionId in cur[device] && cur[device] - {connectionId} != {} ==>
            next == cur[device := cur[device] - {connectionId}])
      && (connectionId !in cur[device] ==> next == cur)
  {
    var cur := DisconnectExcept(subs, connectionId, pending);
    var next := DisconnectExcept(subs, connectionId, pending - {device});
    if connectionId !in cur[device] {
      assert subs[device] - {connectionId} == subs[device];
      assert next.Keys == cur.Keys;
    } else if cur[device] - {connectionId} == {} {
      assert next.Keys == cur.Keys - {device};
    } else {
      assert next.Keys == cur.Keys;
    }
  }

  /** Before the loop nothing is disconnected; after it, everything is. */
  lemma DisconnectExceptDone(subs: Subscriptions, connectionId: string)
    ensures DisconnectExcept(subs, connectionId, subs.Keys) == subs
    ensures DisconnectExcept(subs, connectionId, {}) == Disconnect(subs, connectionId)
  {
    assert DisconnectExcept(subs, connectionId, subs.Keys).Keys == subs.Keys;
  }

  class TelemetryHub {
    var subscriptions: Subscriptions
    /** SignalR group memberships: (connection, device). */
    var groups: set<(string, string)>
    /** Replies sent to callers, in order. */
    var replies: seq<Reply>

    ghost predicate Valid()
      reads this
    {
      NoEmptySets(subscriptions) && GroupsCover(subscriptions, groups)
    }

    constructor()
      ensures Valid() && subscriptions == map[] && groups == {} && replies == []
    {
      subscriptions := map[];
      groups := {};
      replies := [];
    }

    /** SubscribeToDevice. */
    method SubscribeToDevice(connectionId: string, deviceId: Option<string>)
      requires Valid()
      modifies this
      ensures Valid()
      ensures IsNullOrWhiteSpace(deviceId) ==>
        subscriptions == old(subscriptions) && groups == old(groups)
        && replies == old(replies) + [Error(EmptyDeviceIdError)]
      ensures !IsNullOrWhiteSpace(deviceId) ==>
        && subscriptions == Subscribe(old(subscriptions), deviceId.value, connectionId)
        && (connectionId in SubscribersOf(old(subscriptions), deviceId.value) ==>
              groups == old(groups) && replies == old(replies))
        && (connectionId !in SubscribersOf(old(subscriptions), deviceId.value) ==>
              groups == old(groups) + {(connectionId, deviceId.value)}
              && replies == old(replies) + [SubscriptionConfirmed(deviceId.value)])
    {
      if IsNullOrWhiteSpace(deviceId) {
        replies := replies + [Error(EmptyDeviceIdError)];
        return;
      }
      var id := deviceId.value;
      if id !in subscriptions {
        subscriptions := subscriptions[id := {}];
      }
      if connectionId !in subscriptions[id] {
        subscriptions := subscriptions[id := subscriptions[id] + {connectionId}];
        groups := groups + {(connectionId, id)};
        replies := replies + [SubscriptionConfirmed(id)];
      } else {
        assert subscriptions[id] + {connectionId} == subscriptions[id];
        assert subscriptions[id := subscriptions[id] + {connectionId}] == subscriptions;
      }
    }

    /** UnsubscribeFromDevice: also leaves the device's group, whether or not
        the connection was subscribed. */
    method UnsubscribeFromDevice(connectionId: string, deviceId: Option<string>)
      requires Valid()
      modifies this
      ensures Valid() && replies == old(replies)
      ensures IsNullOrWhiteSpace(deviceId) ==> subscriptions == old(subscriptions) && groups == old(groups)
      ensures !IsNullOrWhiteSpace(deviceId) ==>
        subscriptions == Unsubscribe(old(subscriptions), deviceId.value, connectionId)
        && groups == old(groups) - {(connectionId, deviceId.value)}
    {
      if IsNullOrWhiteSpace(deviceId) {
        return;
      }
      var id := deviceId.value;
      if id in subscriptions {
        var rest := subscriptions[id] - {connectionId};
        subscriptions := subscriptions[id := rest];
        if |subscriptions[id]| == 0 {
          subscriptions := subscriptions - {id};
        }
      }
      groups := groups - {(connectionId, id)};
    }

    /** OnDisconnectedAsync: walks a snapshot of the device keys. Group
        memberships are left to SignalR. */
    method OnDisconnected(connectionId: string)
      requires Valid()
      modifies this
      ensures Valid() && groups == old(groups) && replies == old(replies)
      ensures subscriptions == Disconnect(old(subscriptions), connectionId)
    {
      var pending := subscriptions.Keys;
      ghost var start := subscriptions;
      DisconnectExceptDone(start, connectionId);
      while pending != {}
        invariant pending <= start.Keys
        invariant groups == old(groups) && replies == old(replies)
        invariant NoEmptySets(start) && GroupsCover(start, groups)
        invariant subscriptions == DisconnectExcept(start, connectionId, pending)
        decreases |pending|
      {
        var device :| device in pending;
        DisconnectExceptStep(start, connectionId, pending, device);
        if connectionId in subscriptions[device] {
          subscriptions := subscriptions[device := subscriptions[device] - {connectionId}];
          if |subscriptions[device]| == 0 {
            subscriptions := subscriptions - {device};
          }
        } else {
          assert subscriptions[device] - {connectionId} == subscriptions[device];
        }
        pending := pending - {device};
      }
      DisconnectExceptDone(start, connectionId);
    }

    /** GetActiveDevices: exactly the devices with at least one subscriber. */
    method GetActiveDevices() returns (devices: set<string>)
      requires Valid()
      ensures forall d :: d in devices <==> SubscribersOf(subscriptions, d) != {}
    {
      devices := subscriptions.Keys;
    }

    /** GetSubscriberCount: 0 for a device nobody subscribes to. */
    method GetSubscriberCount(deviceId: string) returns (count: nat)
      requires Valid()
      ensures count == |SubscribersOf(subscriptions, deviceId)|
      ensures count > 0 <==> deviceId in subscriptions
    {
      count := if deviceId in subscriptions then |subscriptions[deviceId]| else 0;
    }

    /** The connections a Broadcast* call for the device reaches: its group. */
    function BroadcastRecipients(deviceId: string): (r: set<string>)
      reads this
      requires Valid()
      ensures SubscribersOf(subscriptions, deviceId) <= r
    {
      set g | g in groups && g.1 == deviceId :: g.0
    }
  }
}
