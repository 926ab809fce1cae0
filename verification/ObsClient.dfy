/**
 The WebSocket client session (client.ts): subscriptions shared by reference counts, requests that
 settle once, and effects bound to one connection generation. Every method is one turn of the event
 loop; `delivered` tells whether a synchronous send went through instead of throwing.
 */
module ObsClient {
  import opened Common

  datatype Ready = Connecting | Live | Closing | Closed

  /** A mask of high-volume events that the client tried to tell OBS, and whether the send went through. */
  datatype Notice = Notice(mask: set<nat>, delivered: bool)

  /** A socket with the masks attempted on it, oldest first. `hello` tells that its greeting has been handled. */
  datatype Socket = Socket(ready: Ready, hello: bool, log: seq<Notice>, generation: Option<nat>) {
    /** The mask that OBS has been told last. */
    function Wire(): Option<set<nat>> {
      LastDelivered(log)
    }
  }

  function LastDelivered(log: seq<Notice>): Option<set<nat>> {
    if log == [] then None
    else if log[|log| - 1].delivered then Some(log[|log| - 1].mask)
    else LastDelivered(log[..|log| - 1])
  }

  /** The last attempt on a socket was for this mask. */
  predicate Attempted(socket: Socket, mask: set<nat>) {
    socket.log != [] && socket.log[|socket.log| - 1].mask == mask
  }

  /** The last attempt went through, or was for the mask that OBS had been told before. */
  predicate Effective(log: seq<Notice>)
    requires log != []
  {
    log[|log| - 1].delivered || LastDelivered(log[..|log| - 1]) == Some(log[|log| - 1].mask)
  }

  /** No mask is attempted twice in a row. */
  predicate NoRepeats(log: seq<Notice>) {
    forall i | 0 < i < |log| :: log[i - 1].mask != log[i].mask
  }

  predicate AllDelivered(log: seq<Notice>) {
    forall i | 0 <= i < |log| :: log[i].delivered
  }

  lemma WireAfter(log: seq<Notice>, notice: Notice)
    ensures LastDelivered(log + [notice]) == if notice.delivered then Some(notice.mask) else LastDelivered(log)
  {
    assert (log + [notice])[..|log|] == log;
  }

  /** The logs only grow, and unless a send throws by notices that went through. */
  ghost predicate Onward(was: seq<Socket>, now: seq<Socket>, delivered: bool) {
    && |was| <= |now|
    && (forall s | 0 <= s < |was| :: was[s].log <= now[s].log)
    && (delivered ==> (forall s | 0 <= s < |was| && AllDelivered(was[s].log) :: AllDelivered(now[s].log))
                      && (forall s | |was| <= s < |now| :: AllDelivered(now[s].log)))
  }

  lemma OnwardTwice(a: seq<Socket>, b: seq<Socket>, c: seq<Socket>, first: bool, second: bool)
    requires Onward(a, b, first) && Onward(b, c, second)
    ensures Onward(a, c, first && second)
  {
    hide AllDelivered;
    forall s | 0 <= s < |a| ensures a[s].log <= c[s].log {
      assert a[s].log <= b[s].log && b[s].log <= c[s].log;
    }
  }

  /** A caller's share in the subscription to one event. */
  datatype Share = Share(event: nat, released: bool)

  /** A message that carried a tracked request: its socket and the generation it was meant for. */
  datatype Sent = Sent(id: nat, socket: nat, bound: Option<nat>)

  /** How many shares in an event have not been released. */
  function Holders(shares: seq<Share>, event: nat): nat {
    if shares == [] then 0
    else Holders(shares[..|shares| - 1], event)
         + if shares[|shares| - 1].event == event && !shares[|shares| - 1].released then 1 else 0
  }

  lemma HoldersAdded(shares: seq<Share>, event: nat)
    ensures forall e :: Holders(shares + [Share(event, false)], e) == Holders(shares, e) + if e == event then 1 else 0
  {
    assert (shares + [Share(event, false)])[..|shares|] == shares;
  }

  lemma {:induction false} HoldersReleased(shares: seq<Share>, i: nat, e: nat)
    requires i < |shares| && !shares[i].released
    ensures Holders(shares, e) == Holders(shares[i := shares[i].(released := true)], e) + if e == shares[i].event then 1 else 0
  {
    var last := |shares| - 1;
    var now := shares[i := shares[i].(released := true)];
    if i == last {
      assert now[..last] == shares[..last];
    } else {
      assert now[..last] == shares[..last][i := shares[i].(released := true)];
      HoldersReleased(shares[..last], i, e);
    }
  }

  /** The counts are those of the shares, with no entry at zero. */
  ghost predicate Counted(counts: map<nat, nat>, shares: seq<Share>) {
    && (forall e | e in counts :: counts[e] > 0)
    && (forall e :: (if e in counts then counts[e] else 0) == Holders(shares, e))
  }

  /** The masks, sockets and flags of a session agree. */
  ghost predicate SessionOk(ws: Option<nat>, sockets: seq<Socket>, connected: bool, identified: bool, generation: nat,
                            mask: set<nat>, sent: set<nat>)
  {
    && (ws.Some? ==> ws.value < |sockets|)
    && (identified ==> connected && ws.Some? && sockets[ws.value].Wire().Some? && sockets[ws.value].generation == Some(generation))
    && (ws.Some? && sockets[ws.value].hello ==> connected && sockets[ws.value].ready != Connecting)
    && (ws.Some? ==> (sockets[ws.value].hello <==> sockets[ws.value].log != []))
    && (ws.Some? && sockets[ws.value].hello ==> Attempted(sockets[ws.value], sent))
    && (ws.Some? && !identified ==> sockets[ws.value].generation.None?)
    && (ws.Some? && !identified && sockets[ws.value].Wire().Some? ==> sockets[ws.value].Wire() == Some(sent))
    && (identified && sockets[ws.value].ready == Live ==> sent == mask)
    && (forall s | 0 <= s < |sockets| :: NoRepeats(sockets[s].log))
    && (forall s | 0 <= s < |sockets| && sockets[s].generation.Some? :: sockets[s].generation.value <= generation)
    && (forall s, t | 0 <= s < t < |sockets| && sockets[s].generation.Some? :: sockets[s].generation != sockets[t].generation)
  }

  class Client {
    var ws: Option<nat>
    var sockets: seq<Socket>
    var connected: bool
    var identified: bool
    var generation: nat
    var counts: map<nat, nat>
    var shares: seq<Share>
    var sentSubscriptions: set<nat>
    /** Tracked requests that wait, with their sockets. */
    var pending: map<nat, nat>
    var issued: nat
    ghost var settled: seq<nat>
    ghost var messages: seq<Sent>

    /** The high-volume events that somebody wants. */
    function Mask(): set<nat>
      reads this`counts
    {
      set e | e in counts && counts[e] > 0
    }

    ghost predicate Inv()
      reads this
    {
      && Counted(counts, shares)
      && SessionOk(ws, sockets, connected, identified, generation, Mask(), sentSubscriptions)
      && Tracked(pending, issued, settled, messages, sockets)
    }

    constructor ()
      ensures Inv() && shares == [] && settled == [] && messages == []
      ensures counts == map[] && sockets == [] && !connected && !identified && ws.None?
    {
      ws, sockets, connected, identified, generation := None, [], false, false, 0;
      counts, shares, sentSubscriptions := map[], [], {};
      pending, issued, settled, messages := map[], 0, [], [];
    }

    /** There is an identified session on an open socket. */
    predicate InSession()
      reads this
    {
      identified && ws.Some? && ws.value < |sockets| && sockets[ws.value].ready == Live
    }

    /** The sockets after a notice about the wanted events has been attempted on the current one. */
    function Notified(delivered: bool): seq<Socket>
      requires ws.Some? && ws.value < |sockets|
      reads this
    {
      sockets[ws.value := sockets[ws.value].(log := sockets[ws.value].log + [Notice(Mask(), delivered)])]
    }

    /**
     Tells OBS about the wanted events if they differ from `before`. After the call OBS knows them
     exactly when the send went through, they had not changed and were known, or OBS had been told
     the same mask before.
     */
    method ReidentifyIfChanged(before: set<nat>, delivered: bool)
      requires Counted(counts, shares) && Tracked(pending, issued, settled, messages, sockets)
      requires (ws.Some? ==> ws.value < |sockets|) && (identified ==> connected && ws.Some?)
      requires SessionOk(ws, sockets, connected, identified, generation, before, sentSubscriptions)
      modifies this`sockets, this`sentSubscriptions
      ensures Inv() && |sockets| == |old(sockets)|
      ensures sockets == if InSession() && Mask() != before then old(Notified(delivered)) else old(sockets)
      ensures InSession() ==>
                (sockets[ws.value].Wire() == Some(Mask()) <==> (Mask() != before && delivered) || old(sockets)[ws.value].Wire() == Some(Mask()))
      ensures Onward(old(sockets), sockets, delivered)
    {
      hide Tracked, Counted;
      if Mask() == before || !connected || !identified || ws.None? || sockets[ws.value].ready != Live {
        return;
      }
      WireAfter(sockets[ws.value].log, Notice(Mask(), delivered));
      TrackedSockets(pending, issued, settled, messages, sockets, ws.value, Notified(delivered)[ws.value]);
      sentSubscriptions, sockets := Mask(), Notified(delivered);
    }

    /** One more caller wants an event. */
    method SubscribeHighVolume(event: nat, delivered: bool) returns (share: nat)
      requires Inv()
      modifies this`counts, this`shares, this`sockets, this`sentSubscriptions
      ensures Inv() && share == |old(shares)| && shares == old(shares) + [Share(event, false)]
      ensures Mask() == old(Mask()) + {event} && |sockets| == |old(sockets)|
      ensures forall s | 0 <= s < |sockets| :: sockets[s].ready == old(sockets)[s].ready
      ensures InSession() ==>
                sockets[ws.value].Wire() == if event !in old(Mask()) && delivered then Some(Mask()) else old(sockets)[ws.value].Wire()
      ensures Onward(old(sockets), sockets, delivered)
    {
      hide Tracked, SessionOk;
      var before := Mask();
      HoldersAdded(shares, event);
      counts, shares, share := counts[event := (if event in counts then counts[event] else 0) + 1], shares + [Share(event, false)], |shares|;
      SessionBounds(ws, sockets, connected, identified, generation, before, sentSubscriptions);
      ReidentifyIfChanged(before, delivered);
    }

    /** A caller gives its share back; a second time has no effect. */
    method Release(share: nat, delivered: bool)
      requires Inv() && share < |shares|
      modifies this`counts, this`shares, this`sockets, this`sentSubscriptions
      ensures Inv() && shares == old(shares)[share := old(shares[share]).(released := true)]
      ensures old(shares[share]).released ==> counts == old(counts) && sockets == old(sockets)
      ensures |sockets| == |old(sockets)|
      ensures InSession() ==>
                sockets[ws.value].Wire() == if Mask() != old(Mask()) && delivered then Some(Mask()) else old(sockets)[ws.value].Wire()
      ensures Onward(old(sockets), sockets, delivered)
    {
      hide Tracked, SessionOk;
      if shares[share].released {
        assert shares[share := shares[share].(released := true)] == shares;
        return;
      }
      var event, before := shares[share].event, Mask();
      forall e: nat
        ensures Holders(shares, e) == Holders(shares[share := shares[share].(released := true)], e) + if e == event then 1 else 0
      {
        HoldersReleased(shares, share, e);
      }
      var count := (if event in counts then counts[event] else 1) - 1;
      counts := if count > 0 then counts[event := count] else counts - {event};
      shares := shares[share := shares[share].(released := true)];
      SessionBounds(ws, sockets, connected, identified, generation, before, sentSubscriptions);
      ReidentifyIfChanged(before, delivered);
    }

    /** A new attempt to connect, unless there is a session already. */
    method OpenConnection() returns (s: nat)
      requires Inv() && !(connected && identified)
      modifies this`ws, this`sockets
      ensures Inv() && ws == Some(s) && s == |old(sockets)| && sockets == old(sockets) + [Socket(Connecting, false, [], None)]
    {
      hide Counted;
      s := |sockets|;
      sockets := sockets + [Socket(Connecting, false, [], None)];
      ws := Some(s);
    }

    method OnOpen(s: nat)
      requires Inv() && s < |sockets| && sockets[s].ready == Connecting
      modifies this`sockets, this`connected
      ensures Inv() && sockets == old(sockets)[s := old(sockets[s]).(ready := Live)] && connected == (old(connected) || ws == Some(s))
    {
      hide Counted;
      TrackedSockets(pending, issued, settled, messages, sockets, s, sockets[s].(ready := Live));
      hide Tracked;
      sockets := sockets[s := sockets[s].(ready := Live)];
      if ws == Some(s) {
        connected := true;
      }
    }

    /** The first greeting is answered with the events wanted at that moment; no other is. */
    method OnHello(s: nat, delivered: bool)
      requires Inv() && s < |sockets| && sockets[s].ready != Connecting
      modifies this`sockets, this`sentSubscriptions
      ensures Inv()
      ensures if ws == Some(s) && !old(sockets[s]).hello && connected
              then sockets == old(sockets)[s := old(sockets[s]).(hello := true, log := [Notice(Mask(), delivered)])]
              else sockets == old(sockets)
      ensures Onward(old(sockets), sockets, delivered)
    {
      hide Counted;
      if ws != Some(s) || sockets[s].hello || !connected {
        return;
      }
      var now := sockets[s].(hello := true, log := [Notice(Mask(), delivered)]);
      TrackedSockets(pending, issued, settled, messages, sockets, s, now);
      hide Tracked;
      sentSubscriptions := Mask();
      sockets := sockets[s := now];
    }

    /** OBS accepts the identification, or answers a later change of subscriptions the same way. */
    method OnIdentified(s: nat, delivered: bool)
      requires Inv() && s < |sockets| && sockets[s].Wire().Some?
      modifies this`sockets, this`identified, this`generation, this`sentSubscriptions
      ensures Inv()
      ensures ws == Some(s) && !old(identified) ==> identified && generation == old(generation) + 1
      ensures |sockets| == |old(sockets)| && sockets[s].ready == old(sockets[s]).ready
      ensures InSession() && !old(identified) ==> (sockets[s].Wire() == Some(Mask()) <==> delivered || old(sentSubscriptions) == Mask())
      ensures Onward(old(sockets), sockets, delivered)
      ensures ws != Some(s) || old(identified) ==> sockets == old(sockets) && generation == old(generation)
    {
      hide Counted, SessionOk;
      if ws != Some(s) || identified {
        return;
      }
      SessionBegins(ws, sockets, connected, generation, Mask(), sentSubscriptions);
      TrackedSockets(pending, issued, settled, messages, sockets, s, sockets[s].(generation := Some(generation + 1)));
      hide Tracked;
      generation, identified := generation + 1, true;
      sockets := sockets[s := sockets[s].(generation := Some(generation))];
      SessionBounds(ws, sockets, connected, identified, generation, sentSubscriptions, sentSubscriptions);
      ReidentifyIfChanged(sentSubscriptions, delivered);
    }

    method OnClosing(s: nat)
      requires Inv() && s < |sockets| && sockets[s].ready != Closed
      modifies this`sockets
      ensures Inv() && sockets == old(sockets)[s := old(sockets[s]).(ready := Closing)]
    {
      hide Counted;
      TrackedSockets(pending, issued, settled, messages, sockets, s, sockets[s].(ready := Closing));
      hide Tracked;
      sockets := sockets[s := sockets[s].(ready := Closing)];
    }

    /** Settles what waits on a socket. */
    method RejectPendingForSocket(s: nat)
      requires Inv()
      modifies this`pending, this`settled
      ensures Inv() && old(settled) <= settled
      ensures forall id | id in pending :: pending[id] != s && id in old(pending) && pending[id] == old(pending)[id]
      ensures forall id | id in old(pending) && old(pending)[id] != s :: id in pending
    {
      hide Counted, SessionOk;
      var left := set id | id in pending && pending[id] == s;
      while left != {}
        invariant Inv() && old(settled) <= settled && left == set id | id in pending && pending[id] == s
        invariant forall id | id in pending :: id in old(pending) && pending[id] == old(pending)[id]
        invariant forall id | id in old(pending) && old(pending)[id] != s :: id in pending
        decreases |left|
      {
        var id :| id in left;
        Settle(id);
        left := left - {id};
      }
      assert forall id | id in pending && pending[id] == s :: id in left;
    }

    /** Takes a waiting request out, for good. */
    method Settle(id: nat)
      requires Inv() && id in pending
      modifies this`pending, this`settled
      ensures Inv() && pending == old(pending) - {id} && settled == old(settled) + [id] && id !in old(settled)
    {
      hide Counted, SessionOk;
      pending, settled := pending - {id}, settled + [id];
    }

    /** The end of the current session. */
    method Reset()
      requires Inv()
      modifies this`ws, this`connected, this`identified
      ensures Inv() && ws.None? && !connected && !identified
    {
      hide Counted, Tracked;
      ws, connected, identified := None, false, false;
    }

    method OnClose(s: nat)
      requires Inv() && s < |sockets|
      modifies this`ws, this`sockets, this`connected, this`identified, this`pending, this`settled
      ensures Inv() && old(settled) <= settled
      ensures forall id | id in pending :: pending[id] != s && id in old(pending) && pending[id] == old(pending)[id]
      ensures forall id | id in old(pending) && old(pending)[id] != s :: id in pending
      ensures ws == if old(ws) == Some(s) then None else old(ws)
      ensures old(ws) == Some(s) ==> !connected && !identified
      ensures sockets == old(sockets)[s := old(sockets[s]).(ready := Closed)]
    {
      hide Counted;
      TrackedSockets(pending, issued, settled, messages, sockets, s, sockets[s].(ready := Closed));
      hide Tracked;
      sockets := sockets[s := sockets[s].(ready := Closed)];
      RejectPendingForSocket(s);
      if ws == Some(s) {
        Reset();
      }
    }

    method Disconnect()
      requires Inv()
      modifies this`ws, this`connected, this`identified, this`pending, this`settled
      ensures Inv() && old(settled) <= settled && ws.None? && (old(ws).Some? ==> !connected && !identified)
      ensures forall id | id in pending :: Some(pending[id]) != old(ws) && id in old(pending) && pending[id] == old(pending)[id]
      ensures forall id | id in old(pending) && Some(old(pending)[id]) != old(ws) :: id in pending
    {
      if ws.Some? {
        var s := ws.value;
        Reset();
        RejectPendingForSocket(s);
      }
    }

    /** Tracks a request and sends it on the socket chosen for it, whatever has happened to that since. */
    method SendTracked(s: nat, bound: Option<nat>) returns (id: nat)
      requires Inv() && s < |sockets| && (bound.Some? ==> sockets[s].generation == bound)
      modifies this`pending, this`issued, this`messages
      ensures Inv()
      ensures id !in old(pending) && id !in settled && pending == old(pending)[id := s]
      ensures messages == old(messages) + if sockets[s].ready == Live then [Sent(id, s, bound)] else []
    {
      hide Counted;
      id := issued;
      pending, issued := pending[issued := s], issued + 1;
      if sockets[s].ready == Live {
        messages := messages + [Sent(id, s, bound)];
      }
    }

    /** A request bound to a generation leaves at once on the socket of that generation, or not at all. */
    method SendForGeneration(bound: nat) returns (id: Option<nat>)
      requires Inv()
      modifies this`pending, this`issued, this`messages
      ensures Inv() && old(messages) <= messages
      ensures id.Some? <==> InSession() && generation == bound
      ensures id.Some? ==> messages == old(messages) + [Sent(id.value, ws.value, Some(bound))] && sockets[ws.value].generation == Some(bound)
      ensures id.None? ==> pending == old(pending) && messages == old(messages)
    {
      if !connected || !identified || generation != bound || ws.None? || sockets[ws.value].ready != Live {
        return None;
      }
      var sent := SendTracked(ws.value, Some(bound));
      id := Some(sent);
    }

    /** A reply settles only a request that waits on the socket it came from, and that is current. */
    method OnResponse(s: nat, id: nat) returns (honoured: bool)
      requires Inv()
      modifies this`pending, this`settled
      ensures Inv()
      ensures honoured <==> ws == Some(s) && id in old(pending) && old(pending)[id] == s
      ensures honoured ==> settled == old(settled) + [id] && id !in old(settled) && pending == old(pending) - {id}
      ensures !honoured ==> settled == old(settled) && pending == old(pending)
    {
      honoured := ws == Some(s) && id in pending && pending[id] == s;
      if honoured {
        Settle(id);
      }
    }

    /** A timeout, or an error of the send itself, settles a request that still waits. */
    method OnTimeout(id: nat)
      requires Inv()
      modifies this`pending, this`settled
      ensures Inv() && id !in pending
      ensures settled == if id in old(pending) then old(settled) + [id] else old(settled)
    {
      if id in pending {
        Settle(id);
      }
    }

    /**
     On an open socket of an identified session, the last mask attempted is the union of what the
     unreleased shares want, and so is the mask that OBS knows exactly when that attempt was effective.
     */
    lemma WireIsUnion()
      requires Inv() && InSession()
      ensures sentSubscriptions == Wanted(shares) && Attempted(sockets[ws.value], Wanted(shares))
      ensures sockets[ws.value].Wire() == Some(Wanted(shares)) <==> Effective(sockets[ws.value].log)
      ensures AllDelivered(sockets[ws.value].log) ==> sockets[ws.value].Wire() == Some(Wanted(shares))
    {
      hide Tracked;
      forall e: nat ensures e in Mask() <==> e in Wanted(shares) {
        HeldIffWanted(shares, e);
      }
      assert Mask() == Wanted(shares);
    }

    /**
     Any run of events. Whatever was settled stays settled once, a request is never both waiting and
     settled. The last mask attempted in a session is always the union of the shares; OBS knows it
     exactly when that attempt was effective, and always if no send has thrown.
     */
    method Run(script: seq<Turn>)
      requires Inv()
      modifies this
      ensures Inv() && old(settled) <= settled && old(messages) <= messages
      ensures forall i, j | 0 <= i < j < |settled| :: settled[i] != settled[j]
      ensures forall id: nat :: id < issued <==> id in pending || id in settled
      ensures forall id | id in pending :: id !in settled
      ensures InSession() ==> sentSubscriptions == Wanted(shares) && Attempted(sockets[ws.value], Wanted(shares))
      ensures InSession() ==> (sockets[ws.value].Wire() == Some(Wanted(shares)) <==> Effective(sockets[ws.value].log))
      ensures Onward(old(sockets), sockets, NothingThrows(script))
      ensures InSession() && NothingThrows(script) && (ws.value < |old(sockets)| ==> AllDelivered(old(sockets)[ws.value].log)) ==>
                sockets[ws.value].Wire() == Some(Wanted(shares))
      ensures forall s | 0 <= s < |sockets| :: NoRepeats(sockets[s].log)
      ensures forall m | 0 <= m < |messages| && messages[m].bound.Some? ::
                messages[m].socket < |sockets| && sockets[messages[m].socket].generation == messages[m].bound
    {
      for n := 0 to |script|
        invariant Inv() && old(settled) <= settled && old(messages) <= messages
        invariant Onward(old(sockets), sockets, NothingThrows(script[..n]))
      {
        hide SessionOk, Tracked, Counted, Onward;
        ghost var mid := sockets;
        Take(script[n]);
        OnwardTwice(old(sockets), mid, sockets, NothingThrows(script[..n]), GoesThrough(script[n]));
        assert script[..n + 1] == script[..n] + [script[n]];
      }
      assert script[..|script|] == script;
      if InSession() {
        WireIsUnion();
      }
    }

    method Take(turn: Turn)
      requires Inv()
      modifies this
      ensures Inv() && old(settled) <= settled && old(messages) <= messages
      ensures Onward(old(sockets), sockets, GoesThrough(turn))
    {
      hide SessionOk, Tracked, Counted;
      match turn
      case Subscribe(event, delivered) => var share := SubscribeHighVolume(event, delivered);
      case GiveBack(share, delivered) =>
        if share < |shares| {
          Release(share, delivered);
        }
      case Connect =>
        if !(connected && identified) {
          var s := OpenConnection();
        }
      case Leave => Disconnect();
      case Request(s) =>
        if s < |sockets| {
          var id := SendTracked(s, None);
        }
      case BoundRequest(bound) => var id := SendForGeneration(bound);
      case Reply(s, id) => var honoured := OnResponse(s, id);
      case Timeout(id) => OnTimeout(id);
      case SocketTurn(s, what, delivered) =>
        if s < |sockets| {
          TakeSocket(s, what, delivered);
        }
    }

    method TakeSocket(s: nat, what: SocketEvent, delivered: bool)
      requires Inv() && s < |sockets|
      modifies this
      ensures Inv() && old(settled) <= settled && messages == old(messages)
      ensures Onward(old(sockets), sockets, delivered)
    {
      hide SessionOk, Tracked, Counted;
      match what
      case Opened =>
        if sockets[s].ready == Connecting {
          OnOpen(s);
        }
      case Hello =>
        if sockets[s].ready != Connecting {
          OnHello(s, delivered);
        }
      case Identified =>
        if sockets[s].Wire().Some? {
          OnIdentified(s, delivered);
        }
      case ClosingSoon =>
        if sockets[s].ready != Closed {
          OnClosing(s);
        }
      case Gone => OnClose(s);
    }
  }

  /** A session in which a subscription is missed: the one send that would announce it throws. */
  method MissedSubscription(event: nat) returns (client: Client)
    ensures client.Inv() && client.InSession() && client.Mask() == {event}
    ensures client.sockets[client.ws.value].Wire() == Some({})
  {
    hide SessionOk, Tracked, Counted;
    client := new Client();
    var s := client.OpenConnection();
    client.OnOpen(s);
    client.OnHello(s, true);
    client.OnIdentified(s, true);
    assert client.Mask() == {};
    var share := client.SubscribeHighVolume(event, false);
  }

  datatype SocketEvent = Opened | Hello | Identified | ClosingSoon | Gone

  datatype Turn =
    | Subscribe(event: nat, delivered: bool)
    | GiveBack(share: nat, delivered: bool)
    | Connect
    | Leave
    | Request(s: nat)
    | BoundRequest(bound: nat)
    | Reply(s: nat, id: nat)
    | Timeout(id: nat)
    | SocketTurn(s: nat, what: SocketEvent, delivered: bool)

  /** The send that a turn may need does not throw. */
  predicate GoesThrough(turn: Turn) {
    match turn
    case Subscribe(_, delivered) => delivered
    case GiveBack(_, delivered) => delivered
    case SocketTurn(_, _, delivered) => delivered
    case _ => true
  }

  predicate NothingThrows(script: seq<Turn>) {
    forall i | 0 <= i < |script| :: GoesThrough(script[i])
  }

  /** The events of the shares that have not been released. */
  function Wanted(shares: seq<Share>): set<nat> {
    set i | 0 <= i < |shares| && !shares[i].released :: shares[i].event
  }

  lemma {:induction false} HeldIffWanted(shares: seq<Share>, e: nat)
    ensures Holders(shares, e) > 0 <==> e in Wanted(shares)
  {
    if shares != [] {
      var most, last := shares[..|shares| - 1], shares[|shares| - 1];
      HeldIffWanted(most, e);
      assert Wanted(shares) == Wanted(most) + if last.released then {} else {last.event};
    }
  }

  lemma SessionBounds(ws: Option<nat>, sockets: seq<Socket>, connected: bool, identified: bool, generation: nat, mask: set<nat>, sent: set<nat>)
    requires SessionOk(ws, sockets, connected, identified, generation, mask, sent)
    ensures (ws.Some? ==> ws.value < |sockets|) && (identified ==> connected && ws.Some?)
  {
  }

  /** The current socket may start a generation of its own once OBS has been told a mask on it: the one sent last. */
  lemma SessionBegins(ws: Option<nat>, sockets: seq<Socket>, connected: bool, generation: nat, mask: set<nat>, sent: set<nat>)
    requires SessionOk(ws, sockets, connected, false, generation, mask, sent)
    requires ws.Some? && ws.value < |sockets| && sockets[ws.value].Wire().Some?
    ensures SessionOk(ws, sockets[ws.value := sockets[ws.value].(generation := Some(generation + 1))], connected, true, generation + 1, sent, sent)
    ensures sockets[ws.value].generation.None? && sockets[ws.value].Wire() == Some(sent)
  {
    hide NoRepeats;
  }

  /** Changing a socket other than in its generation leaves the requests as they are. */
  lemma TrackedSockets(pending: map<nat, nat>, issued: nat, settled: seq<nat>, messages: seq<Sent>, sockets: seq<Socket>, s: nat, socket: Socket)
    requires Tracked(pending, issued, settled, messages, sockets) && s < |sockets|
    requires sockets[s].generation.Some? ==> socket.generation == sockets[s].generation
    ensures Tracked(pending, issued, settled, messages, sockets[s := socket])
  {
  }

  /**
   Every request issued so far either waits or has been settled, not both and not twice; a message
   bound to a generation went to the socket of that generation.
   */
  ghost predicate Tracked(pending: map<nat, nat>, issued: nat, settled: seq<nat>, messages: seq<Sent>, sockets: seq<Socket>) {
    && (forall id: nat :: id < issued <==> id in pending || id in settled)
    && (forall id | id in pending :: id !in settled)
    && (forall i, j | 0 <= i < j < |settled| :: settled[i] != settled[j])
    && (forall m | 0 <= m < |messages| :: messages[m].socket < |sockets|
          && (messages[m].bound.Some? ==> sockets[messages[m].socket].generation == messages[m].bound))
  }
}
