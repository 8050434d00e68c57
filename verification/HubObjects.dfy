/** The hub and its clients as objects. */
module HubObjects {
  import opened Users
  import opened Journal
  import Hub

  /** What sending a reply comes to: a full queue blocks the sender, a closed one makes it panic. */
  datatype Sending = Sent | Blocked | Panicked

  class WsClient {
    const capacity: nat
    var send: seq<Hub.Item>
    var open: bool
    var subscriptions: set<string>
    var written: seq<Hub.Item>

    constructor (capacity: nat)
      ensures this.capacity == capacity && send == [] && open && subscriptions == {} && written == []
    {
      this.capacity := capacity;
      send, open, subscriptions, written := [], true, {}, [];
    }

    method Subscribe(eventType: string)
      modifies this`subscriptions
      ensures subscriptions == old(subscriptions) + {eventType}
    {
      subscriptions := subscriptions + {eventType};
    }

    method Unsubscribe(eventType: string)
      modifies this`subscriptions
      ensures subscriptions == old(subscriptions) - {eventType}
    {
      subscriptions := subscriptions - {eventType};
    }

    predicate IsSubscribed(eventType: string)
      reads this
    {
      eventType in subscriptions
    }

    /** The connection as the transition system has it, in a given phase of its reader. */
    ghost function AsConn(life: Hub.Life): Hub.Conn
      reads this
    {
      Hub.Conn(life, send, open, subscriptions, written)
    }

    /** A send that must neither block nor panic. */
    method Push(item: Hub.Item)
      requires open && |send| < capacity
      modifies this`send
      ensures send == old(send) + [item]
    {
      send := send + [item];
    }

    /** Closing a closed queue panics. */
    method Close()
      requires open
      modifies this`open
      ensures !open
    {
      open := false;
    }

    /** What a send that nobody guards does. */
    twostate predicate Sends(response: Hub.Response, sending: Sending)
      reads this
    {
      match sending
      case Panicked => !open && send == old(send)
      case Blocked => open && old(|send|) >= capacity && send == old(send)
      case Sent => open && old(|send|) < capacity && send == old(send) + [Hub.Replied(response)]
    }

    /** A handler sends its reply outside the hub, whatever the state of the queue. */
    method Reply(response: Hub.Response) returns (sending: Sending)
      modifies this`send
      ensures Sends(response, sending)
    {
      if !open {
        return Panicked;
      }
      if |send| >= capacity {
        return Blocked;
      }
      Push(Hub.Replied(response));
      sending := Sent;
    }

    /** One turn of the writer. What was queued before the queue was closed is still written, in
        order; the writer stops when the queue is closed and empty. */
    method WriteNext() returns (more: bool)
      requires send != [] || !open
      modifies this`send, this`written
      ensures written + send == old(written + send)
      ensures more == (old(send) != []) && |written| == old(|written|) + if more then 1 else 0
      ensures !more ==> !open && send == []
    {
      if send == [] {
        return false;
      }
      written := written + [send[0]];
      send := send[1..];
      more := true;
    }

    /** Routes one message. `result` is what the handler's service call comes to, and for
        `user.subscribe` whether subscribing to the events worked: the flags are set before
        that is known, and stay set. Whatever the path, there is one reply, if it can be sent. */
    method Route(message: Hub.Message, result: Hub.Result) returns (sending: Sending)
      modifies this`send, this`subscriptions
      ensures Sends(Hub.Respond(message, result), sending)
      ensures subscriptions ==
              if message.action == "user.subscribe" then
                old(subscriptions) + {"user.created", "user.updated", "user.deleted"}
              else if message.action == "user.unsubscribe" then
                old(subscriptions) - {"user.created", "user.updated", "user.deleted"}
              else old(subscriptions)
    {
      if message.action !in Hub.ACTIONS {
        sending := Reply(Hub.Response(message.action, message.requestId, false,
                                      Hub.Problem("UNKNOWN_ACTION", "unknown action: " + message.action)));
        return;
      }
      if message.action == "user.subscribe" {
        for i := 0 to |Hub.EVENT_TYPES|
          invariant subscriptions == old(subscriptions) + (set e | e in Hub.EVENT_TYPES[..i])
          invariant send == old(send)
        {
          Subscribe(Hub.EVENT_TYPES[i]);
          assert Hub.EVENT_TYPES[..i + 1] == Hub.EVENT_TYPES[..i] + [Hub.EVENT_TYPES[i]];
        }
        assert Hub.EVENT_TYPES[..|Hub.EVENT_TYPES|] == Hub.EVENT_TYPES;
      } else if message.action == "user.unsubscribe" {
        for i := 0 to |Hub.EVENT_TYPES|
          invariant subscriptions == old(subscriptions) - (set e | e in Hub.EVENT_TYPES[..i])
          invariant send == old(send)
        {
          Unsubscribe(Hub.EVENT_TYPES[i]);
          assert Hub.EVENT_TYPES[..i + 1] == Hub.EVENT_TYPES[..i] + [Hub.EVENT_TYPES[i]];
        }
        assert Hub.EVENT_TYPES[..|Hub.EVENT_TYPES|] == Hub.EVENT_TYPES;
      }
      sending := Reply(Hub.Respond(message, result));
    }
  }

  class HubObject {
    var clients: set<WsClient>
    var queue: seq<Hub.Broadcast>

    /** A client is in the set only while its queue is open, so that the hub may push and close. */
    ghost predicate Valid()
      reads this, clients
    {
      forall c :: c in clients ==> c.open
    }

    constructor ()
      ensures Valid() && clients == {} && queue == []
    {
      clients, queue := {}, [];
    }

    method Register(client: WsClient)
      requires Valid() && client.open
      modifies this`clients
      ensures Valid() && clients == old(clients) + {client}
    {
      clients := clients + {client};
    }

    /** Closes the queue of a client that is still in the set, and of no other. */
    method Unregister(client: WsClient)
      requires Valid()
      modifies this`clients, client`open
      ensures Valid() && clients == old(clients) - {client}
      ensures client.open == (old(client.open) && client !in old(clients))
    {
      if client in clients {
        clients := clients - {client};
        client.Close();
      }
    }

    /** An event that finds the broadcast queue full is dropped. */
    method Broadcast(b: Hub.Broadcast) returns (accepted: bool)
      modifies this`queue
      ensures accepted == (|old(queue)| < 256)
      ensures queue == if accepted then old(queue) + [b] else old(queue)
    {
      accepted := |queue| < Hub.BROADCAST_BUFFER;
      if accepted {
        queue := queue + [b];
      }
    }

    /** The loop takes the oldest broadcast. */
    method Take() returns (b: Hub.Broadcast)
      requires queue != []
      modifies this`queue
      ensures old(queue) == [b] + queue
    {
      b := queue[0];
      queue := queue[1..];
    }

    /** The pump that a subscription starts: each event becomes one broadcast. */
    method Pump(e: Event) returns (accepted: bool)
      modifies this`queue
      ensures queue == if accepted then old(queue) + [Hub.PushFor(e)] else old(queue)
      ensures accepted <==> |old(queue)| < 256
      ensures Hub.Announces(Hub.PushFor(e), e)
    {
      var b: Hub.Broadcast;
      match e {
        case Created(user) =>
          b := Hub.Broadcast("user.created", Hub.Response("user.created", "", true, Hub.UserBody(user)));
        case Updated(user) =>
          b := Hub.Broadcast("user.updated", Hub.Response("user.updated", "", true, Hub.UserBody(user)));
        case Deleted(id) =>
          b := Hub.Broadcast("user.deleted", Hub.Response("user.deleted", "", true, Hub.IdBody(id)));
      }
      accepted := Broadcast(b);
    }

    /** What a broadcast comes to for one client: untouched if it is not subscribed, one push if
        it has room, and otherwise out of the set and closed. */
    twostate predicate Outcome(client: WsClient, b: Hub.Broadcast, number: nat)
      reads this, client
    {
      && client.subscriptions == old(client.subscriptions) && client.written == old(client.written)
      && if !client.IsSubscribed(b.eventType) then
           client in clients && client.open && client.send == old(client.send)
         else if old(|client.send|) < client.capacity then
           client in clients && client.open && client.send == old(client.send) + [Hub.Pushed(number, b.response)]
         else
           client !in clients && !client.open && client.send == old(client.send)
    }

    /** One turn of the loop over the clients, which is a step of its own: handlers and writers may
        run between one turn and the next. */
    method Visit(client: WsClient, b: Hub.Broadcast, number: nat)
      requires Valid() && client in clients
      modifies this`clients, client`send, client`open
      ensures Valid() && old(clients) - {client} <= clients <= old(clients)
      ensures Outcome(client, b, number) && (client in clients <==> client.open)
      ensures forall life :: client.AsConn(life) == Hub.Visited(old(client.AsConn(life)), b, number, client.capacity)
    {
      if client.IsSubscribed(b.eventType) {
        if |client.send| < client.capacity {
          client.Push(Hub.Pushed(number, b.response));
        } else {
          clients := clients - {client};
          client.Close();
        }
      }
    }

    /** Visits the clients in whatever order the map is iterated, removing slow ones on the way.
        The outcome is stated client by client, so no order can change it. */
    method Deliver(b: Hub.Broadcast, number: nat)
      requires Valid()
      modifies this`clients, clients`send, clients`open
      ensures Valid() && clients <= old(clients)
      ensures forall c :: c in old(clients) ==> Outcome(c, b, number)
    {
      var rest := clients;
      while rest != {}
        invariant rest <= clients <= old(clients)
        invariant Valid()
        invariant forall c :: c in rest ==> c.send == old(c.send)
        invariant forall c :: c in old(clients) && c !in rest ==> Outcome(c, b, number)
        decreases |rest|
      {
        var client :| client in rest;
        rest := rest - {client};
        Visit(client, b, number);
      }
    }

    // -------------------------------------------------------------------------------------
    // The objects beside the transition system

    /** The objects are in a state of the transition system, under some naming of its connections. */
    ghost predicate Mirrors(names: map<Hub.ConnId, WsClient>, s: Hub.State)
      reads this, names.Values
    {
      && names.Keys == s.conns.Keys
      && (forall c, d :: c in names && d in names && names[c] == names[d] ==> c == d)
      && (forall c :: c in names ==> names[c].capacity == s.capacity && names[c].AsConn(s.conns[c].life) == s.conns[c])
      && (forall c :: c in names ==> (names[c] in clients <==> c in s.members))
      && clients <= names.Values
      && queue == s.queue
    }
  }

  /** The system's invariant is what the methods of the hub require. */
  lemma MirroringIsValid(hub: HubObject, names: map<Hub.ConnId, WsClient>, s: Hub.State)
    requires hub.Mirrors(names, s) && Hub.LifeInv(s)
    ensures hub.Valid()
  {
    forall client | client in hub.clients ensures client.open {
      var c :| c in names && names[c] == client;
      assert names[c].AsConn(s.conns[c].life) == s.conns[c];
    }
  }

  lemma MoveOne<T>(written: seq<T>, send: seq<T>, written': seq<T>, send': seq<T>)
    requires send != [] && written' + send' == written + send && |written'| == |written| + 1
    ensures written' == written + [send[0]] && send' == send[1..]
  {
    var whole := written + send;
    assert written' == whole[..|written'|] && send' == whole[|written'|..];
  }

  /** What the system's own steps do to its client, and to nothing else that the objects have. */
  lemma VisitEffect(s: Hub.State, c: Hub.ConnId)
    requires Hub.LifeInv(s) && c in s.todo && c in s.conns && s.current.Some? && s.begun > 0
    ensures Hub.Enabled(s, Hub.Visit(c)) && c in s.members && s.conns[c].open
    ensures var t, conn := Hub.Step(s, Hub.Visit(c)), Hub.Visited(s.conns[c], s.current.value, s.begun - 1, s.capacity);
      && t.conns == s.conns[c := conn] && t.members == (if conn.open then s.members else s.members - {c})
      && t.queue == s.queue && t.capacity == s.capacity
  {
  }

  lemma VisitedLife(conn: Hub.Conn, b: Hub.Broadcast, number: nat, capacity: nat)
    ensures Hub.Visited(conn, b, number, capacity).life == conn.life
  {
  }

  lemma UnregisterEffect(s: Hub.State, c: Hub.ConnId)
    requires Hub.LifeInv(s) && c in s.conns && s.conns[c].life.Leaving? && s.current.None?
    ensures Hub.Enabled(s, Hub.Unregister(c)) && (c in s.members <==> s.conns[c].open)
    ensures var t := Hub.Step(s, Hub.Unregister(c));
      && t.conns == s.conns[c := s.conns[c].(life := Hub.Gone, open := false)] && t.members == s.members - {c}
      && t.queue == s.queue && t.capacity == s.capacity
  {
  }

  /** A new client is given a name, and registering it is the step `Connect`. */
  method TakeConnect(hub: HubObject, capacity: nat, ghost names: map<Hub.ConnId, WsClient>, ghost s: Hub.State,
                     ghost c: Hub.ConnId)
    returns (client: WsClient)
    requires hub.Mirrors(names, s) && Hub.LifeInv(s) && c !in s.conns && s.current.None? && capacity == s.capacity
    modifies hub`clients
    ensures fresh(client) && Hub.Enabled(s, Hub.Connect(c))
    ensures hub.Mirrors(names[c := client], Hub.Step(s, Hub.Connect(c)))
  {
    MirroringIsValid(hub, names, s);
    client := new WsClient(capacity);
    hub.Register(client);
    ghost var names' := names[c := client];
    assert forall d :: d in names ==> names'[d] == names[d] && names[d] != client;
    forall other | other in hub.clients ensures other in names'.Values {
      if other == client {
        assert names'[c] == other;
      } else {
        var d :| d in names && names[d] == other;
        assert names'[d] == other;
      }
    }
  }

  /** Unregistering is the step of that name, late ones included. */
  method TakeUnregister(hub: HubObject, client: WsClient, ghost names: map<Hub.ConnId, WsClient>, ghost s: Hub.State,
                        ghost c: Hub.ConnId)
    requires hub.Mirrors(names, s) && Hub.LifeInv(s) && c in s.conns && names[c] == client
    requires s.conns[c].life.Leaving? && s.current.None?
    modifies hub`clients, client`open
    ensures Hub.Enabled(s, Hub.Unregister(c))
    ensures hub.Mirrors(names, Hub.Step(s, Hub.Unregister(c)))
  {
    hide Hub.LifeInv, Hub.Step, Hub.Enabled;
    MirroringIsValid(hub, names, s);
    UnregisterEffect(s, c);
    assert client.AsConn(s.conns[c].life) == s.conns[c];
    assert forall d :: d in names && d != c ==> names[d] != client;
    hub.Unregister(client);
  }

  /** One turn of the loop is the step `Visit`. */
  method TakeVisit(hub: HubObject, client: WsClient, b: Hub.Broadcast, number: nat,
                   ghost names: map<Hub.ConnId, WsClient>, ghost s: Hub.State, ghost c: Hub.ConnId)
    requires hub.Mirrors(names, s) && Hub.LifeInv(s) && c in s.todo && c in s.conns && names[c] == client
    requires s.current == Some(b) && s.begun == number + 1
    modifies hub`clients, client`send, client`open
    ensures Hub.Enabled(s, Hub.Visit(c))
    ensures hub.Mirrors(names, Hub.Step(s, Hub.Visit(c)))
  {
    hide Hub.LifeInv, Hub.Step, Hub.Enabled, Hub.Visited, HubObject.Outcome;
    MirroringIsValid(hub, names, s);
    VisitEffect(s, c);
    assert client.AsConn(s.conns[c].life) == s.conns[c];
    assert forall d :: d in names && d != c ==> names[d] != client;
    hub.Visit(client, b, number);
    assert client.AsConn(s.conns[c].life) == Hub.Visited(s.conns[c], b, number, s.capacity);
    forall d | d in names && d != c
      ensures names[d].AsConn(s.conns[d].life) == s.conns[d] && (names[d] in hub.clients <==> d in s.members)
    {
    }
    VisitedLife(s.conns[c], b, number, s.capacity);
  }

  /** The whole loop takes all the visits of one broadcast, in any order. */
  method TakeVisits(hub: HubObject, b: Hub.Broadcast, number: nat,
                    ghost names: map<Hub.ConnId, WsClient>, ghost s: Hub.State, ghost order: seq<Hub.ConnId>)
    requires hub.Mirrors(names, s) && Hub.LifeInv(s) && s.todo == s.members && Hub.Enumerates(order, s.todo)
    requires s.current == Some(b) && s.begun == number + 1
    modifies hub`clients, hub.clients`send, hub.clients`open
    ensures hub.Mirrors(names, Hub.VisitAll(s, order))
  {
    MirroringIsValid(hub, names, s);
    hub.Deliver(b, number);
    Hub.VisitAllResult(s, order);
    ghost var t := Hub.VisitAll(s, order);
    forall d | d in names
      ensures names[d].AsConn(t.conns[d].life) == t.conns[d] && (names[d] in hub.clients <==> d in t.members)
    {
      if d in s.members {
        assert hub.Outcome(names[d], b, number);
      }
    }
  }

  /** Broadcasting is the step `Offer`. */
  method TakeOffer(hub: HubObject, b: Hub.Broadcast, ghost names: map<Hub.ConnId, WsClient>, ghost s: Hub.State)
    requires hub.Mirrors(names, s)
    modifies hub`queue
    ensures Hub.Enabled(s, Hub.Offer(b))
    ensures hub.Mirrors(names, Hub.Step(s, Hub.Offer(b)))
  {
    var accepted := hub.Broadcast(b);
  }

  /** Taking one for the loop is the step `Begin`. */
  method TakeBegin(hub: HubObject, ghost names: map<Hub.ConnId, WsClient>, ghost s: Hub.State)
    returns (b: Hub.Broadcast)
    requires hub.Mirrors(names, s) && s.current.None? && hub.queue != []
    modifies hub`queue
    ensures Hub.Enabled(s, Hub.Begin(b))
    ensures hub.Mirrors(names, Hub.Step(s, Hub.Begin(b)))
  {
    b := hub.Take();
  }

  /** Subscribing sets a flag, and unsubscribing clears it. */
  method TakeSetFlag(hub: HubObject, client: WsClient, eventType: string,
                     ghost names: map<Hub.ConnId, WsClient>, ghost s: Hub.State, ghost c: Hub.ConnId)
    requires hub.Mirrors(names, s) && c in s.conns && s.conns[c].life.Answering? && names[c] == client
    modifies client`subscriptions
    ensures Hub.Enabled(s, Hub.SetFlag(c, eventType))
    ensures hub.Mirrors(names, Hub.Step(s, Hub.SetFlag(c, eventType)))
  {
    assert forall d :: d in names && d != c ==> names[d] != client;
    client.Subscribe(eventType);
    ghost var t := Hub.Step(s, Hub.SetFlag(c, eventType));
    forall d | d in names ensures names[d].AsConn(t.conns[d].life) == t.conns[d] {
    }
  }

  method TakeClearFlag(hub: HubObject, client: WsClient, eventType: string,
                       ghost names: map<Hub.ConnId, WsClient>, ghost s: Hub.State, ghost c: Hub.ConnId)
    requires hub.Mirrors(names, s) && c in s.conns && s.conns[c].life.Answering? && names[c] == client
    modifies client`subscriptions
    ensures Hub.Enabled(s, Hub.ClearFlag(c, eventType))
    ensures hub.Mirrors(names, Hub.Step(s, Hub.ClearFlag(c, eventType)))
  {
    assert forall d :: d in names && d != c ==> names[d] != client;
    client.Unsubscribe(eventType);
    ghost var t := Hub.Step(s, Hub.ClearFlag(c, eventType));
    forall d | d in names ensures names[d].AsConn(t.conns[d].life) == t.conns[d] {
    }
  }

  /** A reply is the step `Answer` if it can be sent, and `Panic` if the queue is closed; on a full
      queue the client has neither step to take, and nothing moves. */
  method TakeAnswer(hub: HubObject, client: WsClient, message: Hub.Message, result: Hub.Result,
                    ghost names: map<Hub.ConnId, WsClient>, ghost s: Hub.State, ghost c: Hub.ConnId)
    returns (sending: Sending)
    requires hub.Mirrors(names, s) && c in s.conns && s.conns[c].life == Hub.Answering(message) && names[c] == client
    modifies client`send
    ensures sending.Sent? <==> Hub.Enabled(s, Hub.Answer(c, result))
    ensures sending.Panicked? <==> Hub.Enabled(s, Hub.Panic(c))
    ensures hub.Mirrors(names, match sending
                               case Sent => Hub.Step(s, Hub.Answer(c, result))
                               case Panicked => Hub.Step(s, Hub.Panic(c))
                               case Blocked => s)
  {
    hide Hub.Respond;
    assert client.AsConn(s.conns[c].life) == s.conns[c];
    assert forall d :: d in names && d != c ==> names[d] != client;
    sending := client.Reply(Hub.Respond(message, result));
    ghost var t := match sending
                   case Sent => Hub.Step(s, Hub.Answer(c, result))
                   case Panicked => Hub.Step(s, Hub.Panic(c))
                   case Blocked => s;
    assert client.AsConn(t.conns[c].life) == t.conns[c];
    forall d | d in names && d != c ensures names[d].AsConn(t.conns[d].life) == t.conns[d] {
    }
  }

  /** A write is the step `Write`, whether or not the queue has been closed; at a closed and empty
      queue there is no such step, and the writer stops. */
  method TakeWrite(hub: HubObject, client: WsClient, ghost names: map<Hub.ConnId, WsClient>, ghost s: Hub.State,
                   ghost c: Hub.ConnId)
    returns (more: bool)
    requires hub.Mirrors(names, s) && c in s.conns && names[c] == client
    requires client.send != [] || !client.open
    modifies client`send, client`written
    ensures more <==> Hub.Enabled(s, Hub.Write(c))
    ensures hub.Mirrors(names, if more then Hub.Step(s, Hub.Write(c)) else s)
  {
    ghost var conn := s.conns[c];
    assert client.AsConn(conn.life) == conn;
    assert forall d :: d in names && d != c ==> names[d] != client;
    more := client.WriteNext();
    if more {
      MoveOne(conn.written, conn.send, client.written, client.send);
    } else {
      assert client.written == client.written + client.send;
      assert conn.written == conn.written + conn.send;
    }
    ghost var t := if more then Hub.Step(s, Hub.Write(c)) else s;
    forall d | d in names ensures names[d].AsConn(t.conns[d].life) == t.conns[d] {
    }
  }
}
