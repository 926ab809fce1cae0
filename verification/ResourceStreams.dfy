/**
 Listeners for resource changes (http_resources.rs). The registry is used under one lock, so its
 methods are atomic; publishing on a listener's stream may fail at any time.
 */
module ResourceStreams {
  import opened Common
  import opened Sums

  const MAX_WIRE_ID_BYTES: nat := 262_144
  const MAX_ID_BYTES: nat := 1_024

  datatype Item = Ack | Event(change: string) | Keepalive

  /** Everything ever published on a stream, and whether it has failed. */
  datatype Stream = Stream(published: seq<Item>, failed: bool)

  datatype Listener = Listener(bytes: nat, stream: nat)

  function WireBytes(): Listener -> nat {
    (l: Listener) => l.bytes
  }

  /** A stream that serves a listener: it has not failed and its first item is the acknowledgement. */
  predicate Serving(s: Stream) {
    !s.failed && s.published != [] && s.published[0] == Ack
  }

  /** A stream of no listener is untouched, or failed and never published on again. */
  predicate AckFirst(s: Stream) {
    s.published != [] ==> s.published[0] == Ack
  }

  /** Listeners are keyed by numbers below `frontier`, each with a stream of its own that it is being served on. */
  ghost predicate Sound(listeners: map<nat, Listener>, streams: seq<Stream>, frontier: nat, wireBytes: nat) {
    && wireBytes == Total(WireBytes(), listeners, frontier) <= MAX_WIRE_ID_BYTES
    && (forall k | k in listeners :: k < frontier && listeners[k].stream < |streams| && Serving(streams[listeners[k].stream]))
    && (forall j, k | j in listeners && k in listeners && j != k :: listeners[j].stream != listeners[k].stream)
    && (forall i | 0 <= i < |streams| :: AckFirst(streams[i]))
  }

  lemma RemoveKeepsSound(listeners: map<nat, Listener>, streams: seq<Stream>, frontier: nat, wireBytes: nat, key: nat)
    requires Sound(listeners, streams, frontier, wireBytes) && key in listeners
    ensures listeners[key].bytes <= wireBytes
    ensures var s := listeners[key].stream;
            Sound(listeners - {key}, streams[s := streams[s].(failed := true)], frontier, wireBytes - listeners[key].bytes)
  {
    TotalWithout(WireBytes(), listeners, key, frontier);
  }

  lemma PublishKeepsSound(listeners: map<nat, Listener>, streams: seq<Stream>, frontier: nat, wireBytes: nat, key: nat, item: Item)
    requires Sound(listeners, streams, frontier, wireBytes) && key in listeners
    ensures var s := listeners[key].stream;
            Sound(listeners, streams[s := streams[s].(published := streams[s].published + [item])], frontier, wireBytes)
  {
  }

  lemma InstallKeepsSound(listeners: map<nat, Listener>, streams: seq<Stream>, frontier: nat, wireBytes: nat, bytes: nat, s: nat)
    requires Sound(listeners, streams, frontier, wireBytes) && s < |streams| && streams[s] == Stream([], false)
    requires wireBytes + bytes <= MAX_WIRE_ID_BYTES
    ensures Sound(listeners[frontier := Listener(bytes, s)], streams[s := Stream([Ack], false)], frontier + 1, wireBytes + bytes)
    ensures frontier !in listeners
  {
    TotalWith(WireBytes(), listeners, frontier, Listener(bytes, s), frontier + 1);
  }

  /** One event for one listener; `accepted` tells whether its stream takes it. */
  datatype Delivery = Delivery(key: nat, change: string, accepted: bool)

  /** Whether the listener's stream refuses some event of the batch. */
  predicate Refused(key: nat, batch: seq<Delivery>) {
    batch != [] && (Refused(key, batch[..|batch| - 1]) || (batch[|batch| - 1].key == key && !batch[|batch| - 1].accepted))
  }

  /** The events a listener receives: those for it, in order, up to the first that is refused. */
  function Received(key: nat, batch: seq<Delivery>): seq<Item> {
    if batch == [] then []
    else
      var last := batch[|batch| - 1];
      Received(key, batch[..|batch| - 1])
      + if !Refused(key, batch[..|batch| - 1]) && last.key == key && last.accepted then [Event(last.change)] else []
  }

  lemma OwnStream(listeners: map<nat, Listener>, streams: seq<Stream>, frontier: nat, wireBytes: nat, j: nat, k: nat)
    requires Sound(listeners, streams, frontier, wireBytes) && k in listeners
    ensures j in listeners && listeners[j].stream == listeners[k].stream ==> j == k
  {
  }

  lemma ReceivedNext(key: nat, batch: seq<Delivery>, d: Delivery)
    ensures Refused(key, batch + [d]) <==> Refused(key, batch) || (d.key == key && !d.accepted)
    ensures Received(key, batch + [d]) ==
            Received(key, batch) + if !Refused(key, batch) && d.key == key && d.accepted then [Event(d.change)] else []
  {
    assert (batch + [d])[..|batch|] == batch;
  }

  /** The streams of the listeners there were have gained what each received of the batch. */
  ghost predicate Heard(was: map<nat, Listener>, before: seq<Stream>, now: seq<Stream>, batch: seq<Delivery>) {
    && |now| == |before|
    && (forall k | k in was :: was[k].stream < |now| && now[was[k].stream].published == before[was[k].stream].published + Received(k, batch))
  }

  lemma HeardNothing(was: map<nat, Listener>, streams: seq<Stream>, frontier: nat, wireBytes: nat)
    requires Sound(was, streams, frontier, wireBytes)
    ensures Heard(was, streams, streams, [])
  {
  }

  lemma HeardNext(was: map<nat, Listener>, before: seq<Stream>, frontier: nat, wireBytes: nat, mid: seq<Stream>, now: seq<Stream>, batch: seq<Delivery>, d: Delivery)
    requires Sound(was, before, frontier, wireBytes) && Heard(was, before, mid, batch) && |now| == |mid|
    requires forall i | 0 <= i < |now| :: now[i].published ==
               mid[i].published + if d.accepted && d.key in was && !Refused(d.key, batch) && was[d.key].stream == i then [Event(d.change)] else []
    ensures Heard(was, before, now, batch + [d])
  {
    hide Received, Refused;
    forall k | k in was ensures now[was[k].stream].published == before[was[k].stream].published + Received(k, batch + [d]) {
      OwnStream(was, before, frontier, wireBytes, d.key, k);
      ReceivedNext(k, batch, d);
    }
  }

  /** The streams of the listeners in `keys`, and of no other listener there was, have gained one item. */
  ghost predicate Added(was: map<nat, Listener>, before: seq<Stream>, now: seq<Stream>, keys: set<nat>, item: Item) {
    && |now| == |before|
    && (forall k | k in was :: was[k].stream < |now| && now[was[k].stream].published == before[was[k].stream].published + if k in keys then [item] else [])
  }

  lemma AddedNothing(was: map<nat, Listener>, streams: seq<Stream>, frontier: nat, wireBytes: nat, item: Item)
    requires Sound(was, streams, frontier, wireBytes)
    ensures Added(was, streams, streams, {}, item)
  {
  }

  lemma AddedNext(was: map<nat, Listener>, before: seq<Stream>, frontier: nat, wireBytes: nat, mid: seq<Stream>, now: seq<Stream>, keys: set<nat>, item: Item, key: nat, sent: bool)
    requires Sound(was, before, frontier, wireBytes) && Added(was, before, mid, keys, item) && key in was && key !in keys && |now| == |mid|
    requires forall i | 0 <= i < |now| :: now[i].published == mid[i].published + if sent && was[key].stream == i then [item] else []
    ensures Added(was, before, now, if sent then keys + {key} else keys, item)
  {
    forall k | k in was ensures k != key ==> was[k].stream != was[key].stream {
      OwnStream(was, before, frontier, wireBytes, k, key);
    }
  }

  lemma OneLess(accepted: set<nat>, left: set<nat>, k: nat)
    requires k in left
    ensures accepted - (left - {k}) == if k in accepted then (accepted - left) + {k} else accepted - left
    ensures (left - {k}) + (accepted - (left - {k})) == if k in accepted then left + (accepted - left) else (left + (accepted - left)) - {k}
  {
  }

  lemma NothingRefused()
    ensures forall k :: !Refused(k, [])
  {
  }

  /** What may happen to the registry. */
  datatype Call =
    | CallInstall(bytes: nat, admitted: bool, reserved: bool, committed: bool)
    | CallCancel(key: nat)
    | CallDeliver(batch: seq<Delivery>)
    | CallHeartbeat(accepts: nat -> bool)
    | CallClose

  class Resources {
    var listeners: map<nat, Listener>
    var streams: seq<Stream>
    /** The next key that a frontend hands out; keys are never reused. */
    var frontier: nat
    var wireBytes: nat
    var closed: bool

    ghost predicate Inv()
      reads this
    {
      Sound(listeners, streams, frontier, wireBytes) && (closed ==> listeners == map[])
    }

    constructor ()
      ensures Inv() && listeners == map[] && !closed
    {
      listeners, streams, frontier, wireBytes, closed := map[], [], 0, 0, false;
    }

    /** A response stream is opened for a request. */
    method OpenStream() returns (s: nat)
      requires Inv()
      modifies this`streams
      ensures Inv() && s == |old(streams)| && streams == old(streams) + [Stream([], false)]
    {
      s := |streams|;
      streams := streams + [Stream([], false)];
    }

    /** Registers a listener on an unused stream; its acknowledgement is published in the same step. */
    method Install(s: nat, bytes: nat, admitted: bool, reserved: bool, committed: bool) returns (key: Option<nat>)
      requires Inv() && s < |streams| && streams[s].published == []
      modifies this`listeners, this`streams, this`frontier, this`wireBytes
      ensures Inv()
      ensures key.Some? <==> (bytes <= 1_024 && !closed && !old(streams[s]).failed && admitted
                              && old(wireBytes) + bytes <= 262_144 && reserved && committed)
      ensures key.Some? ==> key.value in listeners && listeners[key.value].stream == s && streams[s] == Stream([Ack], false) && !closed
      ensures key.Some? ==> key.value !in old(listeners) && listeners - {key.value} == old(listeners)
      ensures key.Some? ==> listeners[key.value].bytes == bytes && streams == old(streams)[s := Stream([Ack], false)]
      ensures key.None? ==> listeners == old(listeners) && wireBytes == old(wireBytes)
      ensures key.None? ==> streams == old(streams) || (!committed && streams == old(streams)[s := Stream([], true)])
    {
      if bytes > MAX_ID_BYTES || closed || streams[s].failed || !admitted || wireBytes + bytes > MAX_WIRE_ID_BYTES || !reserved {
        return None;
      }
      InstallKeepsSound(listeners, streams, frontier, wireBytes, bytes, s);
      if !committed {
        FailUnused(listeners, streams, frontier, wireBytes, s);
        streams := streams[s := streams[s].(failed := true)];
        return None;
      }
      assert listeners[frontier := Listener(bytes, s)] - {frontier} == listeners;
      key := Some(frontier);
      listeners, streams := listeners[frontier := Listener(bytes, s)], streams[s := Stream([Ack], false)];
      frontier, wireBytes := frontier + 1, wireBytes + bytes;
    }

    /** Forgets a listener and fails its stream. */
    method Cancel(key: nat)
      requires Inv()
      modifies this`listeners, this`streams, this`wireBytes
      ensures Inv() && listeners == old(listeners) - {key} && |streams| == |old(streams)|
      ensures forall i | 0 <= i < |streams| :: streams[i] ==
                if key in old(listeners) && old(listeners)[key].stream == i then Stream(old(streams)[i].published, true) else old(streams)[i]
    {
      hide Sound;
      if key in listeners {
        RemoveKeepsSound(listeners, streams, frontier, wireBytes, key);
        StreamOf(listeners, streams, frontier, wireBytes, key);
        var l := listeners[key];
        listeners, wireBytes := listeners - {key}, wireBytes - l.bytes;
        streams := streams[l.stream := streams[l.stream].(failed := true)];
      } else {
        assert listeners - {key} == listeners;
      }
    }

    /** Publishes one item to one listener, which is forgotten if that fails. */
    method Publish(key: nat, item: Item, accepted: bool)
      requires Inv()
      modifies this`listeners, this`streams, this`wireBytes
      ensures Inv() && |streams| == |old(streams)|
      ensures listeners == if accepted then old(listeners) else old(listeners) - {key}
      ensures forall i | 0 <= i < |streams| :: streams[i].published ==
                old(streams)[i].published + if accepted && key in old(listeners) && old(listeners)[key].stream == i then [item] else []
      ensures forall i | 0 <= i < |streams| :: streams[i].failed ==
                (old(streams)[i].failed || (!accepted && key in old(listeners) && old(listeners)[key].stream == i))
    {
      hide Sound;
      if key in listeners {
        StreamOf(listeners, streams, frontier, wireBytes, key);
        if accepted {
          PublishKeepsSound(listeners, streams, frontier, wireBytes, key, item);
          var s := listeners[key].stream;
          streams := streams[s := streams[s].(published := streams[s].published + [item])];
        } else {
          var l := listeners[key];
          RemoveKeepsSound(listeners, streams, frontier, wireBytes, key);
          listeners, wireBytes := listeners - {key}, wireBytes - l.bytes;
          streams := streams[l.stream := streams[l.stream].(failed := true)];
        }
      } else {
        assert listeners - {key} == listeners;
      }
    }

    /** Events go to the listeners in their audience, in the order of the batch, until one is refused. */
    method Deliver(batch: seq<Delivery>)
      requires Inv()
      modifies this`listeners, this`streams, this`wireBytes
      ensures Inv() && |streams| == |old(streams)|
      ensures old(closed) ==> streams == old(streams)
      ensures !closed ==>
                && Heard(old(listeners), old(streams), streams, batch)
                && (forall k | k in old(listeners) :: k in listeners <==> !Refused(k, batch))
      ensures forall k | k in listeners :: k in old(listeners) && listeners[k] == old(listeners)[k]
    {
      hide Sound, Heard, Received, Refused;
      if closed {
        return;
      }
      HeardNothing(listeners, streams, frontier, wireBytes);
      NothingRefused();
      for n := 0 to |batch|
        invariant Inv() && |streams| == |old(streams)|
        invariant forall k | k in listeners :: k in old(listeners) && listeners[k] == old(listeners)[k]
        invariant forall k | k in old(listeners) :: k in listeners <==> !Refused(k, batch[..n])
        invariant Heard(old(listeners), old(streams), streams, batch[..n])
      {
        ghost var mid := streams;
        Publish(batch[n].key, Event(batch[n].change), batch[n].accepted);
        HeardNext(old(listeners), old(streams), old(frontier), old(wireBytes), mid, streams, batch[..n], batch[n]);
        assert batch[..n + 1] == batch[..n] + [batch[n]];
        forall k ensures Refused(k, batch[..n + 1]) <==> Refused(k, batch[..n]) || (batch[n].key == k && !batch[n].accepted) {
          ReceivedNext(k, batch[..n], batch[n]);
        }
      }
      assert batch[..|batch|] == batch;
    }

    /** One heartbeat, seen from the streams there were before the first of them. */
    method Beat(key: nat, accepted: bool, ghost was: map<nat, Listener>, ghost before: seq<Stream>, ghost bytes: nat, ghost kept: set<nat>)
      requires Inv() && key in listeners && key in was && was[key] == listeners[key] && key !in kept
      requires Sound(was, before, frontier, bytes) && Added(was, before, streams, kept, Keepalive)
      modifies this`listeners, this`streams, this`wireBytes
      ensures Inv() && |streams| == |old(streams)| && listeners == if accepted then old(listeners) else old(listeners) - {key}
      ensures Added(was, before, streams, if accepted then kept + {key} else kept, Keepalive)
    {
      hide Sound, Added;
      ghost var mid := streams;
      Publish(key, Keepalive, accepted);
      AddedNext(was, before, frontier, bytes, mid, streams, kept, Keepalive, key, accepted);
    }

    /** Keeps every stream alive; `accepts` tells on which of them publishing succeeds. */
    method Heartbeat(accepts: nat -> bool)
      requires Inv()
      modifies this`listeners, this`streams, this`wireBytes
      ensures Inv() && |streams| == |old(streams)|
      ensures listeners.Keys == set k | k in old(listeners) && accepts(k)
      ensures Added(old(listeners), old(streams), streams, listeners.Keys, Keepalive)
    {
      hide Sound, Added;
      var left := listeners.Keys;
      ghost var accepted := set k | k in listeners && accepts(k);
      AddedNothing(listeners, streams, frontier, wireBytes, Keepalive);
      assert accepted - left == {};
      while left != {}
        invariant Inv() && |streams| == |old(streams)| && left <= old(listeners).Keys
        invariant listeners.Keys == left + (accepted - left)
        invariant forall k | k in listeners :: k in old(listeners) && listeners[k] == old(listeners)[k]
        invariant Added(old(listeners), old(streams), streams, accepted - left, Keepalive)
        decreases |left|
      {
        var k :| k in left;
        ghost var kept := accepted - left;
        Beat(k, accepts(k), old(listeners), old(streams), old(wireBytes), kept);
        OneLess(accepted, left, k);
        left := left - {k};
      }
    }

    /** Fails every stream and forgets every listener, for good. */
    method Close()
      requires Inv()
      modifies this`listeners, this`streams, this`wireBytes, this`closed
      ensures Inv() && closed && listeners == map[] && wireBytes == 0
      ensures |streams| == |old(streams)|
      ensures forall i | 0 <= i < |streams| :: streams[i].published == old(streams)[i].published
      ensures forall i | 0 <= i < |streams| :: streams[i].failed <==> old(streams)[i].failed || exists k | k in old(listeners) :: old(listeners)[k].stream == i
    {
      hide Sound;
      ghost var was := listeners;
      forall k | k in listeners ensures listeners[k].stream < |streams| {
        StreamOf(listeners, streams, frontier, wireBytes, k);
      }
      while listeners != map[]
        invariant Inv() && |streams| == |old(streams)|
        invariant forall k | k in listeners :: k in was && was[k] == listeners[k]
        invariant forall k | k in was :: was[k].stream < |streams| && (k in listeners || streams[was[k].stream].failed)
        invariant forall i | 0 <= i < |streams| :: streams[i].published == old(streams)[i].published
        invariant forall i | 0 <= i < |streams| ::
                    streams[i].failed ==> old(streams)[i].failed || exists k | k in was :: was[k].stream == i
        invariant forall i | 0 <= i < |streams| :: old(streams)[i].failed ==> streams[i].failed
        decreases |listeners|
      {
        var k :| k in listeners;
        assert |listeners - {k}| < |listeners| by {
          assert listeners.Keys == (listeners - {k}).Keys + {k};
        }
        Cancel(k);
      }
      ZeroBytes(streams, frontier, wireBytes);
      closed := true;
    }

    /**
     Any interleaving of calls: every stream on which anything was published begins with its
     acknowledgement, and the retained identity bytes are those of the listeners, within the limit.
     */
    method Run(script: seq<Call>)
      requires Inv()
      modifies this
      ensures Inv()
      ensures forall i | 0 <= i < |streams| && streams[i].published != [] :: streams[i].published[0] == Ack
      ensures forall k | k in listeners :: listeners[k].stream < |streams| && streams[listeners[k].stream].published != []
      ensures wireBytes == Total(WireBytes(), listeners, frontier) <= MAX_WIRE_ID_BYTES
    {
      for n := 0 to |script|
        invariant Inv()
      {
        hide Sound;
        match script[n]
        case CallInstall(bytes, admitted, reserved, committed) =>
          var s := OpenStream();
          var key := Install(s, bytes, admitted, reserved, committed);
        case CallCancel(key) => Cancel(key);
        case CallDeliver(batch) => Deliver(batch);
        case CallHeartbeat(accepts) => Heartbeat(accepts);
        case CallClose => Close();
      }
    }
  }

  lemma ZeroBytes(streams: seq<Stream>, frontier: nat, wireBytes: nat)
    requires Sound(map[], streams, frontier, wireBytes)
    ensures wireBytes == 0
  {
    NoListeners(frontier);
  }

  lemma StreamOf(listeners: map<nat, Listener>, streams: seq<Stream>, frontier: nat, wireBytes: nat, key: nat)
    requires Sound(listeners, streams, frontier, wireBytes) && key in listeners
    ensures listeners[key].stream < |streams|
  {
  }

  lemma FailUnused(listeners: map<nat, Listener>, streams: seq<Stream>, frontier: nat, wireBytes: nat, s: nat)
    requires Sound(listeners, streams, frontier, wireBytes) && s < |streams| && streams[s].published == []
    ensures Sound(listeners, streams[s := streams[s].(failed := true)], frontier, wireBytes)
  {
  }

  lemma {:induction false} NoListeners(bound: nat)
    ensures Total(WireBytes(), map[], bound) == 0
  {
    if bound > 0 {
      NoListeners(bound - 1);
    }
  }
}
