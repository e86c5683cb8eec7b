/** The `useSocket` hook: one streaming connection opened when the hook mounts,
    and three state cells (`socket`, `isConnected`, `lastReading`) that the
    channel's `connect`, `disconnect` and `new_sensor_reading` handlers
    overwrite. The transport is abstracted to the events it delivers. */
module Socket {
  import opened Common

  /** The client instance `io(SOCKET_URL)` returns when the hook mounts. */
  datatype Handle = Handle(id: nat)

  /** The channel events the hook has handlers for. */
  datatype Event = Connect | Disconnect | NewSensorReading(data: Reading)

  /** The payload of the most recent reading event, or `None` if there was none. */
  function LatestReading(events: seq<Event>): Option<Reading>
  {
    if events == [] then None
    else if events[|events| - 1].NewSensorReading? then Some(events[|events| - 1].data)
    else LatestReading(events[..|events| - 1])
  }

  /** Whether the most recent of the connect and disconnect events is a connect. */
  function LinkUp(events: seq<Event>): bool
  {
    if events == [] then false
    else if events[|events| - 1].Connect? then true
    else if events[|events| - 1].Disconnect? then false
    else LinkUp(events[..|events| - 1])
  }

  /** The reading payloads, in delivery order. */
  function ReadingsOf(events: seq<Event>): (rs: seq<Reading>)
    ensures |rs| <= |events|
  {
    if events == [] then []
    else ReadingsOf(events[..|events| - 1])
         + (if events[|events| - 1].NewSensorReading? then [events[|events| - 1].data] else [])
  }

  /** `lastReading` is the last of the delivered payloads. */
  lemma {:induction false} LatestReadingIsLastPayload(events: seq<Event>)
    ensures ReadingsOf(events) == [] <==> LatestReading(events) == None
    ensures ReadingsOf(events) != [] ==>
              LatestReading(events) == Some(ReadingsOf(events)[|ReadingsOf(events)| - 1])
  {
    if events != [] {
      LatestReadingIsLastPayload(events[..|events| - 1]);
    }
  }

  /** Event `i` carries `r`, and no reading event follows it. */
  ghost predicate LastReadingAt(events: seq<Event>, i: int, r: Reading) {
    && 0 <= i < |events|
    && events[i] == NewSensorReading(r)
    && forall j :: i < j < |events| ==> !events[j].NewSensorReading?
  }

  lemma {:induction false} LatestReadingSound(events: seq<Event>, r: Reading)
    requires LatestReading(events) == Some(r)
    ensures exists i :: LastReadingAt(events, i, r)
  {
    var n := |events| - 1;
    if events[n].NewSensorReading? {
      assert LastReadingAt(events, n, r);
    } else {
      var prefix := events[..n];
      LatestReadingSound(prefix, r);
      var i :| LastReadingAt(prefix, i, r);
      assert forall j :: i < j < n ==> events[j] == prefix[j];
      assert LastReadingAt(events, i, r);
    }
  }

  lemma {:induction false} LatestReadingComplete(events: seq<Event>, i: int, r: Reading)
    requires LastReadingAt(events, i, r)
    ensures LatestReading(events) == Some(r)
  {
    var n := |events| - 1;
    if i < n {
      var prefix := events[..n];
      assert forall j :: i < j < n ==> prefix[j] == events[j];
      assert LastReadingAt(prefix, i, r);
      LatestReadingComplete(prefix, i, r);
    }
  }

  /** `LatestReading` is `Some(r)` exactly when some event carries `r` and no
      reading event follows it. */
  lemma LatestReadingCharacterised(events: seq<Event>, r: Reading)
    ensures LatestReading(events) == Some(r) <==> exists i :: LastReadingAt(events, i, r)
  {
    if LatestReading(events) == Some(r) {
      LatestReadingSound(events, r);
    }
    if exists i :: LastReadingAt(events, i, r) {
      var i :| LastReadingAt(events, i, r);
      LatestReadingComplete(events, i, r);
    }
  }

  /** No reading event, no `lastReading`. */
  lemma {:induction false} NoReadingEventNoReading(events: seq<Event>)
    ensures LatestReading(events) == None <==>
              forall i :: 0 <= i < |events| ==> !events[i].NewSensorReading?
  {
    if events != [] {
      var n := |events| - 1;
      NoReadingEventNoReading(events[..n]);
      assert forall i :: 0 <= i < n ==> events[..n][i] == events[i];
    }
  }

  /** Event `i` is a connect, and no disconnect follows it. */
  ghost predicate UnansweredConnectAt(events: seq<Event>, i: int) {
    && 0 <= i < |events|
    && events[i] == Connect
    && forall j :: i < j < |events| ==> events[j] != Disconnect
  }

  lemma {:induction false} LinkUpSound(events: seq<Event>)
    requires LinkUp(events)
    ensures exists i :: UnansweredConnectAt(events, i)
  {
    var n := |events| - 1;
    if events[n].Connect? {
      assert UnansweredConnectAt(events, n);
    } else {
      var prefix := events[..n];
      LinkUpSound(prefix);
      var i :| UnansweredConnectAt(prefix, i);
      assert forall j :: i < j < n ==> events[j] == prefix[j];
      assert UnansweredConnectAt(events, i);
    }
  }

  lemma {:induction false} LinkUpComplete(events: seq<Event>, i: int)
    requires UnansweredConnectAt(events, i)
    ensures LinkUp(events)
  {
    var n := |events| - 1;
    if i < n && !events[n].Connect? {
      var prefix := events[..n];
      assert forall j :: i < j < n ==> prefix[j] == events[j];
      assert UnansweredConnectAt(prefix, i);
      LinkUpComplete(prefix, i);
    }
  }

  /** `isConnected` holds exactly when some connect event is followed by no
      disconnect event. */
  lemma LinkUpCharacterised(events: seq<Event>)
    ensures LinkUp(events) <==> exists i :: UnansweredConnectAt(events, i)
  {
    if LinkUp(events) {
      LinkUpSound(events);
    }
    if exists i :: UnansweredConnectAt(events, i) {
      var i :| UnansweredConnectAt(events, i);
      LinkUpComplete(events, i);
    }
  }

  /** The state the hook returns, driven by the channel's events. `instance`
      is the client created when the hook mounts; `open` says whether the
      transport still delivers events (the effect's cleanup closes it). The
      ghost `events` records every event the handlers have run for. */
  class SocketHook {
    var socket: Option<Handle>
    var isConnected: bool
    var lastReading: Option<Reading>
    const instance: Handle
    var open: bool
    ghost var events: seq<Event>

    /** Each state cell is a function of the events handled so far. */
    ghost predicate Valid()
      reads this
    {
      && lastReading == LatestReading(events)
      && isConnected == LinkUp(events)
      && socket == (if Connect in events then Some(instance) else None)
    }

    /** The `useState` initial values plus the effect that opens the channel. */
    constructor (instance: Handle)
      ensures Valid() && events == [] && open && this.instance == instance
      ensures socket == None && !isConnected && lastReading == None
    {
      this.instance := instance;
      socket := None;
      isConnected := false;
      lastReading := None;
      open := true;
      events := [];
    }

    /** The `connect` handler: connected, and the instance is published. */
    method OnConnect()
      requires Valid()
      modifies this
      ensures Valid() && events == old(events) + [Connect]
      ensures isConnected && socket == Some(instance)
      ensures lastReading == old(lastReading) && open == old(open)
    {
      isConnected := true;
      socket := Some(instance);
      events := events + [Connect];
      assert (events[..|events| - 1]) == old(events);
    }

    /** The `disconnect` handler: not connected; the last reading and the
        socket are kept. */
    method OnDisconnect()
      requires Valid()
      modifies this
      ensures Valid() && events == old(events) + [Disconnect]
      ensures !isConnected
      ensures socket == old(socket) && lastReading == old(lastReading) && open == old(open)
    {
      isConnected := false;
      events := events + [Disconnect];
      assert (events[..|events| - 1]) == old(events);
    }

    /** The `new_sensor_reading` handler: the payload replaces `lastReading`. */
    method OnNewSensorReading(data: Reading)
      requires Valid()
      modifies this
      ensures Valid() && events == old(events) + [NewSensorReading(data)]
      ensures lastReading == Some(data)
      ensures isConnected == old(isConnected) && socket == old(socket) && open == old(open)
    {
      lastReading := Some(data);
      events := events + [NewSensorReading(data)];
      assert (events[..|events| - 1]) == old(events);
    }

    /** The transport hands one event to the handler registered for it, as
        long as the connection has not been closed. */
    method Deliver(e: Event)
      requires Valid()
      modifies this
      ensures Valid() && open == old(open)
      ensures events == if old(open) then old(events) + [e] else old(events)
      ensures !old(open) ==>
                socket == old(socket) && isConnected == old(isConnected) && lastReading == old(lastReading)
    {
      if open {
        match e
        case Connect => OnConnect();
        case Disconnect => OnDisconnect();
        case NewSensorReading(data) => OnNewSensorReading(data);
      }
    }

    /** The effect's cleanup: `socketInstance.disconnect()` closes the channel. */
    method Teardown()
      requires Valid()
      modifies this
      ensures Valid() && !open
      ensures events == old(events) && socket == old(socket)
      ensures isConnected == old(isConnected) && lastReading == old(lastReading)
    {
      open := false;
    }
  }
}
