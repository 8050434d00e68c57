/** The WebSocket hub and its clients as a labelled transition system.

    One goroutine owns the set of clients; readers change subscription flags and reply; writers
    take from the send queues. The hub's loop over its clients is not atomic: flags may change
    and queues may move between one visit and the next. */
module Hub {
  import opened Users
  import opened Journal

  const BROADCAST_BUFFER := 256

  type ConnId = nat

  datatype Message = Message(action: string, requestId: string)

  datatype Body =
    | NoBody
    | UserBody(user: UserDTO)
    | IdBody(id: Id)
    | OtherBody(json: string)
    | Problem(code: string, text: string)

  datatype Response = Response(action: string, requestId: string, success: bool, body: Body)

  datatype Broadcast = Broadcast(eventType: string, response: Response)

  /** What a handler comes to. */
  datatype Result = BadRequest(text: string) | Failed(code: string, text: string) | Succeeded(body: Body)

  const ACTIONS := {
    "user.create", "user.get_by_id", "user.get_by_email", "user.list",
    "user.update", "user.delete", "user.subscribe", "user.unsubscribe"
  }

  const EVENT_TYPES := ["user.created", "user.updated", "user.deleted"]

  /** Every path of the router and of the handlers ends in one reply, and this is it. */
  function Respond(m: Message, r: Result): Response {
    if m.action !in ACTIONS then
      Response(m.action, m.requestId, false, Problem("UNKNOWN_ACTION", "unknown action: " + m.action))
    else
      match r
      case BadRequest(text) => Response(m.action, m.requestId, false, Problem("BAD_REQUEST", text))
      case Failed(code, text) => Response(m.action, m.requestId, false, Problem(code, text))
      case Succeeded(body) => Response(m.action, m.requestId, true, body)
  }

  /** What a client is told: whether the action is known and the handler succeeded, with the payload
      or the reason, under its own action and request id. */
  lemma RespondSays(m: Message, r: Result)
    ensures var known := m.action in {"user.create", "user.get_by_id", "user.get_by_email", "user.list",
                                      "user.update", "user.delete", "user.subscribe", "user.unsubscribe"};
      var reply := Respond(m, r);
      && reply.action == m.action && reply.requestId == m.requestId
      && (reply.success <==> known && r.Succeeded?)
      && (reply.success ==> reply.body == r.body)
      && (!reply.success ==>
            reply.body == if !known then Problem("UNKNOWN_ACTION", "unknown action: " + m.action)
                          else if r.BadRequest? then Problem("BAD_REQUEST", r.text)
                          else Problem(r.code, r.text))
  {
  }

  /** What the event pump broadcasts for an event. */
  function PushFor(e: Event): Broadcast {
    match e
    case Created(user) => Broadcast("user.created", Response("user.created", "", true, UserBody(user)))
    case Updated(user) => Broadcast("user.updated", Response("user.updated", "", true, UserBody(user)))
    case Deleted(id) => Broadcast("user.deleted", Response("user.deleted", "", true, IdBody(id)))
  }

  /** The type and action name the kind of event; the body is the user, or the id of a deleted one. */
  ghost predicate Announces(b: Broadcast, e: Event) {
    && (b.eventType == "user.created" <==> e.Created?)
    && (b.eventType == "user.updated" <==> e.Updated?)
    && (b.eventType == "user.deleted" <==> e.Deleted?)
    && b.response == Response(b.eventType, "", true,
                              if e.Effect().None? then IdBody(e.Target()) else UserBody(e.Effect().value))
  }

  lemma PushAnnounces(e: Event)
    ensures Announces(PushFor(e), e)
  {
  }

  /** What can be on a send queue: the push of a numbered broadcast, or a reply. */
  datatype Item = Pushed(number: nat, push: Response) | Replied(reply: Response)

  /** A reader reads and answers in turn, and on its way out asks once to be unregistered. */
  datatype Life = Reading | Answering(message: Message) | Leaving | Gone

  datatype Conn = Conn(life: Life, send: seq<Item>, open: bool, flags: set<string>, written: seq<Item>) {
    /** Everything ever placed on the send queue. */
    function Placed(): seq<Item> {
      written + send
    }
  }

  datatype State = State(
    capacity: nat,
    conns: map<ConnId, Conn>,      // every connection there has been
    members: set<ConnId>,          // the hub's set of clients
    queue: seq<Broadcast>,
    begun: nat,                    // broadcasts the hub has taken from the queue
    current: Option<Broadcast>,    // the one in the loop
    todo: set<ConnId>,             // members the loop has yet to visit
    faulted: bool)                 // the hub closed a closed queue or sent on one

  datatype Label =
    | Connect(id: ConnId)
    | Receive(id: ConnId, message: Message)
    | SetFlag(id: ConnId, eventType: string)
    | ClearFlag(id: ConnId, eventType: string)
    | Answer(id: ConnId, result: Result)
    | Panic(id: ConnId)
    | Leave(id: ConnId)
    | Unregister(id: ConnId)
    | Write(id: ConnId)
    | Offer(broadcast: Broadcast)
    | Begin(broadcast: Broadcast)
    | Visit(id: ConnId)
    | Finish

  function Start(capacity: nat): State {
    State(capacity, map[], {}, [], 0, None, {}, false)
  }

  /** Connecting and unregistering are handshakes with the hub's goroutine, so they wait until
      it is out of its loop. A reply waits for room; on a closed queue it panics instead. */
  predicate Enabled(s: State, l: Label) {
    match l
    case Connect(c) => c !in s.conns && s.current.None?
    case Receive(c, _) => c in s.conns && s.conns[c].life.Reading?
    case SetFlag(c, _) => c in s.conns && s.conns[c].life.Answering?
    case ClearFlag(c, _) => c in s.conns && s.conns[c].life.Answering?
    case Answer(c, _) => c in s.conns && s.conns[c].life.Answering? && s.conns[c].open && |s.conns[c].send| < s.capacity
    case Panic(c) => c in s.conns && s.conns[c].life.Answering? && !s.conns[c].open
    case Leave(c) => c in s.conns && s.conns[c].life.Reading?
    case Unregister(c) => c in s.conns && s.conns[c].life.Leaving? && s.current.None?
    case Write(c) => c in s.conns && s.conns[c].send != []
    case Offer(_) => true
    case Begin(b) => s.current.None? && s.queue != [] && s.queue[0] == b
    case Visit(c) => c in s.todo && c in s.conns && s.current.Some? && s.begun > 0
    case Finish => s.current.Some? && s.todo == {}
  }

  /** What one visit does to a client: nothing if it is not subscribed, a push if there is room,
      and otherwise the end of its membership. */
  function Visited(conn: Conn, b: Broadcast, number: nat, capacity: nat): Conn {
    if b.eventType !in conn.flags then conn
    else if |conn.send| < capacity then conn.(send := conn.send + [Pushed(number, b.response)])
    else conn.(open := false)
  }

  function Step(s: State, l: Label): State
    requires Enabled(s, l)
  {
    match l
    case Connect(c) => s.(conns := s.conns[c := Conn(Reading, [], true, {}, [])], members := s.members + {c})
    case Receive(c, m) => s.(conns := s.conns[c := s.conns[c].(life := Answering(m))])
    case SetFlag(c, e) => s.(conns := s.conns[c := s.conns[c].(flags := s.conns[c].flags + {e})])
    case ClearFlag(c, e) => s.(conns := s.conns[c := s.conns[c].(flags := s.conns[c].flags - {e})])
    case Answer(c, r) =>
      var conn := s.conns[c];
      s.(conns := s.conns[c := conn.(life := Reading, send := conn.send + [Replied(Respond(conn.life.message, r))])])
    case Panic(c) => s.(conns := s.conns[c := s.conns[c].(life := Leaving)])
    case Leave(c) => s.(conns := s.conns[c := s.conns[c].(life := Leaving)])
    case Unregister(c) =>
      if c in s.members then
        s.(conns := s.conns[c := s.conns[c].(life := Gone, open := false)], members := s.members - {c},
           faulted := s.faulted || !s.conns[c].open)
      else
        s.(conns := s.conns[c := s.conns[c].(life := Gone)])
    case Write(c) =>
      var conn := s.conns[c];
      s.(conns := s.conns[c := conn.(send := conn.send[1..], written := conn.written + [conn.send[0]])])
    case Offer(b) => if |s.queue| < BROADCAST_BUFFER then s.(queue := s.queue + [b]) else s
    case Begin(b) => s.(queue := s.queue[1..], begun := s.begun + 1, current := Some(b), todo := s.members)
    case Visit(c) =>
      var before := s.conns[c];
      var after := Visited(before, s.current.value, s.begun - 1, s.capacity);
      s.(conns := s.conns[c := after], members := if after.open then s.members else s.members - {c},
         todo := s.todo - {c}, faulted := s.faulted || (s.current.value.eventType in before.flags && !before.open))
    case Finish => s.(current := None)
  }

  // ---------------------------------------------------------------------------------------
  // Runs, with what can be told from the labels alone

  predicate Legal(capacity: nat, run: seq<Label>)
    decreases |run|, 0
  {
    run == [] || (Legal(capacity, run[..|run| - 1]) && Enabled(After(capacity, run[..|run| - 1]), run[|run| - 1]))
  }

  function After(capacity: nat, run: seq<Label>): State
    requires Legal(capacity, run)
    decreases |run|, 1
  {
    if run == [] then Start(capacity) else Step(After(capacity, run[..|run| - 1]), run[|run| - 1])
  }

  /** How many broadcasts have begun, and the last of them. */
  function Begins(run: seq<Label>): nat {
    if run == [] then 0 else Begins(run[..|run| - 1]) + if run[|run| - 1].Begin? then 1 else 0
  }

  function LastBegun(run: seq<Label>): Option<Broadcast> {
    if run == [] then None
    else if run[|run| - 1].Begin? then Some(run[|run| - 1].broadcast) else LastBegun(run[..|run| - 1])
  }

  /** How many broadcasts had begun when the client connected. */
  function JoinedAt(run: seq<Label>, c: ConnId): nat {
    if run == [] then 0
    else if run[|run| - 1] == Connect(c) then Begins(run[..|run| - 1]) else JoinedAt(run[..|run| - 1], c)
  }

  /** The event types that the client last asked for. */
  function Subscriptions(run: seq<Label>, c: ConnId): set<string> {
    if run == [] then {}
    else
      var before := Subscriptions(run[..|run| - 1], c);
      match run[|run| - 1]
      case SetFlag(d, e) => if d == c then before + {e} else before
      case ClearFlag(d, e) => if d == c then before - {e} else before
      case _ => before
  }

  /** The numbers of the broadcasts at which the hub looked at the client. */
  function Looks(run: seq<Label>, c: ConnId): seq<nat> {
    if run == [] then []
    else
      var before := Looks(run[..|run| - 1], c);
      var begins := Begins(run[..|run| - 1]);
      if run[|run| - 1] == Visit(c) && begins > 0 then before + [begins - 1] else before
  }

  /** The pushes due to a client: one for each look at a broadcast of a type that it was then
      subscribed to. Room in the queue plays no part. */
  function Due(run: seq<Label>, c: ConnId): seq<Item> {
    if run == [] then []
    else
      var front := run[..|run| - 1];
      var before := Due(front, c);
      if run[|run| - 1] == Visit(c) && LastBegun(front).Some? && Begins(front) > 0
         && LastBegun(front).value.eventType in Subscriptions(front, c)
      then before + [Pushed(Begins(front) - 1, LastBegun(front).value.response)]
      else before
  }

  /** A visit finds the client subscribed and its queue full. */
  predicate Overflows(s: State, l: Label, c: ConnId) {
    && l == Visit(c) && Enabled(s, l)
    && s.current.value.eventType in s.conns[c].flags && |s.conns[c].send| >= s.capacity
  }

  /** The client has been disconnected for being slow. */
  predicate WasSlow(capacity: nat, run: seq<Label>, c: ConnId)
    requires Legal(capacity, run)
    decreases |run|
  {
    run != [] &&
    (|| WasSlow(capacity, run[..|run| - 1], c)
     || Overflows(After(capacity, run[..|run| - 1]), run[|run| - 1], c))
  }

  /** The messages routed for a client, in order of arrival. */
  function Asked(run: seq<Label>, c: ConnId): seq<Message> {
    if run == [] then []
    else
      var before := Asked(run[..|run| - 1], c);
      if run[|run| - 1].Receive? && run[|run| - 1].id == c then before + [run[|run| - 1].message] else before
  }

  function PushesIn(items: seq<Item>): seq<Item> {
    if items == [] then []
    else
      var before := PushesIn(items[..|items| - 1]);
      if items[|items| - 1].Pushed? then before + [items[|items| - 1]] else before
  }

  function RepliesIn(items: seq<Item>): seq<Response> {
    if items == [] then []
    else
      var before := RepliesIn(items[..|items| - 1]);
      if items[|items| - 1].Replied? then before + [items[|items| - 1].reply] else before
  }

  lemma InAfterSnoc(items: seq<Item>, x: Item)
    ensures PushesIn(items + [x]) == if x.Pushed? then PushesIn(items) + [x] else PushesIn(items)
    ensures RepliesIn(items + [x]) == if x.Replied? then RepliesIn(items) + [x.reply] else RepliesIn(items)
  {
  }

  // ---------------------------------------------------------------------------------------
  // Lifecycle

  /** A client is in the set exactly when it has connected and its send queue is open; the loop
      visits members only; and the hub has never faulted. */
  ghost predicate LifeInv(s: State) {
    && (forall c :: c in s.members <==> c in s.conns && s.conns[c].open)
    && (forall c :: c in s.conns && s.conns[c].life.Gone? ==> !s.conns[c].open)
    && s.todo <= s.members
    && (s.current.None? ==> s.todo == {})
    && !s.faulted
  }

  lemma LifeStep(s: State, l: Label)
    requires LifeInv(s) && Enabled(s, l)
    ensures LifeInv(Step(s, l))
  {
  }

  /** Close-once lifecycle, over every run: membership is exactly an open queue, so the hub
      never closes a queue twice and never pushes on a closed one, not even for an unregister
      that comes late, after the client was disconnected for being slow. */
  lemma HubNeverFaults(capacity: nat, run: seq<Label>)
    requires Legal(capacity, run)
    ensures var s := After(capacity, run);
      && LifeInv(s)
      && (forall c :: Enabled(s, Visit(c)) ==> s.conns[c].open)
      && (forall c :: Enabled(s, Unregister(c)) ==> (c in s.members <==> s.conns[c].open))
  {
    LifeHolds(capacity, run);
  }

  lemma {:induction false} LifeHolds(capacity: nat, run: seq<Label>)
    requires Legal(capacity, run)
    ensures LifeInv(After(capacity, run))
  {
    hide LifeInv, Step, Enabled;
    if run == [] {
      StartLife(capacity);
    } else {
      LifeHolds(capacity, run[..|run| - 1]);
      LifeStep(After(capacity, run[..|run| - 1]), run[|run| - 1]);
    }
  }

  lemma StartLife(capacity: nat)
    ensures LifeInv(Start(capacity))
  {
  }

  // ---------------------------------------------------------------------------------------
  // What the hub's goroutine and the readers are doing, told from the labels

  /** The broadcasts that the loop has taken, in order. */
  function Begun(run: seq<Label>): seq<Broadcast> {
    if run == [] then []
    else
      var before := Begun(run[..|run| - 1]);
      if run[|run| - 1].Begin? then before + [run[|run| - 1].broadcast] else before
  }

  /** The broadcasts offered while fewer than 256 were queued. */
  function Accepted(capacity: nat, run: seq<Label>): seq<Broadcast>
    requires Legal(capacity, run)
    decreases |run|
  {
    if run == [] then []
    else
      var front, l := run[..|run| - 1], run[|run| - 1];
      if l.Offer? && |After(capacity, front).queue| < 256 then Accepted(capacity, front) + [l.broadcast]
      else Accepted(capacity, front)
  }

  lemma QueueAfter(s: State, l: Label)
    requires Enabled(s, l)
    ensures match l
            case Offer(b) => Step(s, l).queue == if |s.queue| < 256 then s.queue + [b] else s.queue
            case Begin(b) => s.queue == [b] + Step(s, l).queue
            case _ => Step(s, l).queue == s.queue
  {
  }

  /** The hub takes each accepted broadcast once and in order: those taken, then those queued, are
      all that were accepted. So the broadcasts that `PushesAreGapFree` numbers are these. */
  lemma {:induction false} BroadcastsAreTakenOnce(capacity: nat, run: seq<Label>)
    requires Legal(capacity, run)
    ensures Begun(run) + After(capacity, run).queue == Accepted(capacity, run)
    ensures |After(capacity, run).queue| <= 256
    ensures |Begun(run)| == Begins(run)
    ensures LastBegun(run) == if Begun(run) == [] then None else Some(Begun(run)[|Begun(run)| - 1])
  {
    hide Step, Enabled;
    if run == [] {
    } else {
      var front, l := run[..|run| - 1], run[|run| - 1];
      BroadcastsAreTakenOnce(capacity, front);
      QueueAfter(After(capacity, front), l);
      var before, after := After(capacity, front).queue, After(capacity, run).queue;
      assert after == Step(After(capacity, front), l).queue;
      if l.Begin? {
        assert Begun(front) + ([l.broadcast] + after) == Begun(front) + [l.broadcast] + after;
      } else if l.Offer? && |before| < 256 {
        assert Begun(front) + (before + [l.broadcast]) == Begun(front) + before + [l.broadcast];
      }
    }
  }

  /** The broadcast that the loop is at: it begins, and it finishes. */
  function InLoop(run: seq<Label>): Option<Broadcast> {
    if run == [] then None
    else match run[|run| - 1]
      case Begin(b) => Some(b)
      case Finish => None
      case _ => InLoop(run[..|run| - 1])
  }

  /** The last thing that a connection's reader did, if there is a connection. */
  function LastTurn(run: seq<Label>, c: ConnId): Option<Label> {
    if run == [] then None
    else
      var l := run[|run| - 1];
      match l
      case Connect(d) => if d == c then Some(l) else LastTurn(run[..|run| - 1], c)
      case Receive(d, _) => if d == c then Some(l) else LastTurn(run[..|run| - 1], c)
      case Answer(d, _) => if d == c then Some(l) else LastTurn(run[..|run| - 1], c)
      case Panic(d) => if d == c then Some(l) else LastTurn(run[..|run| - 1], c)
      case Leave(d) => if d == c then Some(l) else LastTurn(run[..|run| - 1], c)
      case Unregister(d) => if d == c then Some(l) else LastTurn(run[..|run| - 1], c)
      case _ => LastTurn(run[..|run| - 1], c)
  }

  /** A reader reads, answers, reads again, and leaves at the end or when it panics; having left it
      asks once to be unregistered, and then does nothing more. */
  ghost predicate LifeFollows(s: State, last: Option<Label>, c: ConnId) {
    && (c in s.conns <==> last.Some?)
    && (c in s.conns ==>
          match last.value
          case Connect(_) => s.conns[c].life == Reading
          case Answer(_, _) => s.conns[c].life == Reading
          case Receive(_, m) => s.conns[c].life == Answering(m)
          case Panic(_) => s.conns[c].life == Leaving
          case Leave(_) => s.conns[c].life == Leaving
          case Unregister(_) => s.conns[c].life == Gone
          case _ => false)
  }

  lemma TurnAfter(s: State, run: seq<Label>, l: Label, c: ConnId)
    requires Enabled(s, l) && LifeFollows(s, LastTurn(run, c), c)
    ensures LifeFollows(Step(s, l), LastTurn(run + [l], c), c)
  {
    Snoc(run, l);
  }

  lemma StateFollowsLabels(capacity: nat, run: seq<Label>, c: ConnId)
    requires Legal(capacity, run)
    ensures LifeFollows(After(capacity, run), LastTurn(run, c), c)
    ensures After(capacity, run).current == InLoop(run)
    ensures var ready := LastTurn(run, c).Some? && (LastTurn(run, c).value.Connect? || LastTurn(run, c).value.Answer?);
      && (forall m :: Enabled(After(capacity, run), Receive(c, m)) <==> ready)
      && (Enabled(After(capacity, run), Leave(c)) <==> ready)
  {
    LifeFollowsLabels(capacity, run, c);
  }

  lemma {:induction false} LifeFollowsLabels(capacity: nat, run: seq<Label>, c: ConnId)
    requires Legal(capacity, run)
    ensures LifeFollows(After(capacity, run), LastTurn(run, c), c)
    ensures After(capacity, run).current == InLoop(run)
  {
    hide LifeFollows, Enabled;
    if run == [] {
      NobodyYet(capacity, c);
    } else {
      var front, l := run[..|run| - 1], run[|run| - 1];
      LifeFollowsLabels(capacity, front, c);
      TurnAfter(After(capacity, front), front, l, c);
      assert front + [l] == run;
    }
  }

  lemma NobodyYet(capacity: nat, c: ConnId)
    ensures LifeFollows(Start(capacity), None, c)
  {
  }

  // ---------------------------------------------------------------------------------------
  // Gap-free pushes

  /** The labels and the state agree on what has begun and on who is subscribed to what. */
  ghost predicate Tracks(s: State, run: seq<Label>) {
    && s.begun == Begins(run)
    && (s.current.Some? ==> LastBegun(run) == s.current)
    && (forall c :: c in s.conns ==> s.conns[c].flags == Subscriptions(run, c))
    && (forall c :: c !in s.conns ==>
          Subscriptions(run, c) == {} && Due(run, c) == [] && Looks(run, c) == [] && Asked(run, c) == [])
  }

  lemma Snoc(run: seq<Label>, l: Label)
    ensures (run + [l])[..|run + [l]| - 1] == run
  {
  }

  lemma TracksStep(s: State, run: seq<Label>, l: Label)
    requires Tracks(s, run) && Enabled(s, l)
    ensures Tracks(Step(s, l), run + [l])
  {
    Snoc(run, l);
  }

  /** The pushes placed for a client are those due so far, but for the last if the client was
      disconnected for being slow. */
  ghost predicate PushInv(s: State, run: seq<Label>, slow: bool, c: ConnId) {
    && (slow ==> c in s.conns)
    && (c in s.conns ==>
          && (s.conns[c].open ==> !slow)
          && (slow ==> Due(run, c) != [])
          && PushesIn(s.conns[c].Placed()) == if slow then Due(run, c)[..|Due(run, c)| - 1] else Due(run, c))
  }

  /** Only a visit or a reply adds to what was placed, at the end. */
  lemma PlacedAfter(s: State, l: Label, c: ConnId)
    requires Enabled(s, l) && c in s.conns
    ensures c in Step(s, l).conns
    ensures Step(s, l).conns[c].Placed() == s.conns[c].Placed() + NewItems(s, l, c)
  {
  }

  function NewItems(s: State, l: Label, c: ConnId): seq<Item>
    requires Enabled(s, l) && c in s.conns
  {
    var conn := s.conns[c];
    if l == Visit(c) && s.current.value.eventType in conn.flags && |conn.send| < s.capacity
    then [Pushed(s.begun - 1, s.current.value.response)]
    else if l.Answer? && l.id == c then [Replied(Respond(conn.life.message, l.result))]
    else []
  }

  lemma PushStep(s: State, run: seq<Label>, slow: bool, l: Label, c: ConnId)
    requires LifeInv(s) && Tracks(s, run) && PushInv(s, run, slow, c) && Enabled(s, l) && c in s.conns
    ensures PushInv(Step(s, l), run + [l], slow || Overflows(s, l, c), c)
  {
    hide PushesIn, Conn.Placed, Subscriptions, Begins, LastBegun, Respond;
    Snoc(run, l);
    PlacedAfter(s, l, c);
    var added := NewItems(s, l, c);
    if added != [] { InAfterSnoc(s.conns[c].Placed(), added[0]); }
    assert s.conns[c].Placed() + [] == s.conns[c].Placed();
  }

  lemma PushConnect(s: State, run: seq<Label>, c: ConnId)
    requires Tracks(s, run) && Enabled(s, Connect(c))
    ensures PushInv(Step(s, Connect(c)), run + [Connect(c)], false, c)
  {
  }

  /** Each look is at the next broadcast, so a member has been looked at once for each broadcast
      since it connected, in order, but for the one in the loop if its turn is still to come. */
  ghost predicate LookInv(s: State, run: seq<Label>, c: ConnId) {
    c in s.conns ==>
      && (forall i :: 0 <= i < |Looks(run, c)| ==> Looks(run, c)[i] == JoinedAt(run, c) + i)
      && (s.conns[c].open ==> JoinedAt(run, c) + |Looks(run, c)| == Begins(run) - if c in s.todo then 1 else 0)
  }

  lemma LookStep(s: State, run: seq<Label>, l: Label, c: ConnId)
    requires LifeInv(s) && Tracks(s, run) && LookInv(s, run, c) && Enabled(s, l) && c in s.conns
    ensures LookInv(Step(s, l), run + [l], c)
  {
    hide Subscriptions, LastBegun, Due, Asked;
    Snoc(run, l);
  }

  lemma LookConnect(s: State, run: seq<Label>, c: ConnId)
    requires LifeInv(s) && Tracks(s, run) && Enabled(s, Connect(c))
    ensures LookInv(Step(s, Connect(c)), run + [Connect(c)], c)
  {
  }

  // ---------------------------------------------------------------------------------------
  // One reply per request

  ghost predicate Echoes(reply: Response, m: Message) {
    reply.action == m.action && reply.requestId == m.requestId
  }

  /** Replies so far answer the messages so far, one each and in order, echoing action and
      request id; the message being answered, if any, has none yet. */
  ghost predicate Answered(replies: seq<Response>, asked: seq<Message>, life: Life, open: bool) {
    && |replies| <= |asked| <= |replies| + 1
    && (forall i :: 0 <= i < |replies| ==> Echoes(replies[i], asked[i]))
    && (life.Reading? ==> |asked| == |replies|)
    && (life.Answering? ==> |asked| == |replies| + 1 && asked[|replies|] == life.message)
    && (open && life.Leaving? ==> |asked| == |replies|)
  }

  ghost predicate ReplyInv(s: State, run: seq<Label>, c: ConnId) {
    c in s.conns ==> Answered(RepliesIn(s.conns[c].Placed()), Asked(run, c), s.conns[c].life, s.conns[c].open)
  }

  lemma AskedAfter(run: seq<Label>, l: Label, c: ConnId)
    ensures Asked(run + [l], c) == if l.Receive? && l.id == c then Asked(run, c) + [l.message] else Asked(run, c)
  {
    Snoc(run, l);
  }

  lemma RepliesAfter(s: State, l: Label, c: ConnId)
    requires Enabled(s, l) && c in s.conns
    ensures c in Step(s, l).conns
    ensures RepliesIn(Step(s, l).conns[c].Placed())
         == if l.Answer? && l.id == c
            then RepliesIn(s.conns[c].Placed()) + [Respond(s.conns[c].life.message, l.result)]
            else RepliesIn(s.conns[c].Placed())
  {
    hide RepliesIn, PushesIn, Conn.Placed, Step, Respond;
    PlacedAfter(s, l, c);
    var added := NewItems(s, l, c);
    if added != [] { InAfterSnoc(s.conns[c].Placed(), added[0]); }
    assert s.conns[c].Placed() + [] == s.conns[c].Placed();
  }

  lemma LifeAfter(s: State, l: Label, c: ConnId)
    requires Enabled(s, l) && c in s.conns
    ensures c in Step(s, l).conns
    ensures var before, after := s.conns[c], Step(s, l).conns[c];
      && (after.open ==> before.open)
      && if l.Receive? && l.id == c then before.life.Reading? && after.life == Answering(l.message)
         else if l.Answer? && l.id == c then before.life.Answering? && after.life.Reading?
         else
           || after.life == before.life || after.life.Gone?
           || (after.life.Leaving? && (before.life.Reading? || !before.open))
  {
  }

  lemma ReplyStep(s: State, run: seq<Label>, l: Label, c: ConnId)
    requires ReplyInv(s, run, c) && Enabled(s, l) && c in s.conns
    ensures ReplyInv(Step(s, l), run + [l], c)
  {
    hide RepliesIn, Conn.Placed, Asked, Step, Enabled;
    AskedAfter(run, l, c);
    RepliesAfter(s, l, c);
    LifeAfter(s, l, c);
  }

  lemma ReplyConnect(s: State, run: seq<Label>, c: ConnId)
    requires Tracks(s, run) && Enabled(s, Connect(c))
    ensures ReplyInv(Step(s, Connect(c)), run + [Connect(c)], c)
  {
  }

  // ---------------------------------------------------------------------------------------
  // Over every run

  ghost predicate ConnInv(s: State, run: seq<Label>, slow: bool, c: ConnId) {
    PushInv(s, run, slow, c) && LookInv(s, run, c) && ReplyInv(s, run, c)
  }

  lemma ConnStep(s: State, run: seq<Label>, slow: bool, l: Label, c: ConnId)
    requires LifeInv(s) && Tracks(s, run) && ConnInv(s, run, slow, c) && Enabled(s, l)
    ensures ConnInv(Step(s, l), run + [l], slow || Overflows(s, l, c), c)
  {
    hide PushInv, LookInv, ReplyInv, LifeInv, Tracks;
    NotSlowBefore(s, run, slow, c);
    if c in s.conns {
      PushStep(s, run, slow, l, c);
      LookStep(s, run, l, c);
      ReplyStep(s, run, l, c);
    } else if l == Connect(c) {
      PushConnect(s, run, c);
      LookConnect(s, run, c);
      ReplyConnect(s, run, c);
    } else {
      StillUnknown(s, run, l, c);
    }
  }

  lemma NotSlowBefore(s: State, run: seq<Label>, slow: bool, c: ConnId)
    requires PushInv(s, run, slow, c)
    ensures slow ==> c in s.conns
  {
  }

  lemma StillUnknown(s: State, run: seq<Label>, l: Label, c: ConnId)
    requires Enabled(s, l) && c !in s.conns && l != Connect(c)
    ensures ConnInv(Step(s, l), run + [l], false, c)
  {
  }

  lemma {:induction false} RunKeepsInv(capacity: nat, run: seq<Label>, c: ConnId)
    requires Legal(capacity, run)
    ensures Tracks(After(capacity, run), run) && ConnInv(After(capacity, run), run, WasSlow(capacity, run, c), c)
  {
    hide Tracks, LifeInv, ConnInv, Step, Enabled;
    if run == [] {
      StartTracks(capacity, c);
    } else {
      var front, l := run[..|run| - 1], run[|run| - 1];
      RunKeepsInv(capacity, front, c);
      HubNeverFaults(capacity, front);
      TracksStep(After(capacity, front), front, l);
      ConnStep(After(capacity, front), front, WasSlow(capacity, front, c), l, c);
      assert front + [l] == run;
    }
  }

  lemma StartTracks(capacity: nat, c: ConnId)
    ensures Tracks(Start(capacity), []) && ConnInv(Start(capacity), [], false, c)
  {
  }

  /** Gap-free pushes, over every run. The pushes ever placed for a client are exactly those due to
      it, in order and once each, except that the last of them is missing if the client was
      disconnected for being slow: a full buffer ends membership and never leaves a hole. And the
      hub looked at a registered client once for each broadcast since it connected, in order, but
      for the one in the loop if its turn is still to come. */
  lemma PushesAreGapFree(capacity: nat, run: seq<Label>, c: ConnId)
    requires Legal(capacity, run) && c in After(capacity, run).conns
    ensures var s := After(capacity, run); var pushes, due := PushesIn(s.conns[c].Placed()), Due(run, c);
      && (c in s.members ==> !WasSlow(capacity, run, c))
      && (if WasSlow(capacity, run, c) then due != [] && pushes == due[..|due| - 1] else pushes == due)
      && (c in s.members ==>
            && |Looks(run, c)| == Begins(run) - JoinedAt(run, c) - (if c in s.todo then 1 else 0)
            && forall i :: 0 <= i < |Looks(run, c)| ==> Looks(run, c)[i] == JoinedAt(run, c) + i)
  {
    hide Due, Looks, Begins, JoinedAt, PushesIn, RepliesIn, Asked, WasSlow, Conn.Placed, Legal, After;
    RunKeepsInv(capacity, run, c);
    HubNeverFaults(capacity, run);
  }

  /** One reply per request, in order, over every run: with pushes set aside, what was placed for
      a client answers the messages routed for it one by one, echoing action and request id.
      At most one message ever lacks its reply, and while the queue is open only the message being
      answered. */
  lemma OneReplyPerRequest(capacity: nat, run: seq<Label>, c: ConnId)
    requires Legal(capacity, run) && c in After(capacity, run).conns
    ensures var conn := After(capacity, run).conns[c];
      var replies, asked := RepliesIn(conn.Placed()), Asked(run, c);
      && |replies| <= |asked| <= |replies| + 1
      && (forall i :: 0 <= i < |replies| ==>
            replies[i].action == asked[i].action && replies[i].requestId == asked[i].requestId)
      && (conn.open ==> |asked| - |replies| == if conn.life.Answering? then 1 else 0)
  {
    RunKeepsInv(capacity, run, c);
    HubNeverFaults(capacity, run);
  }

  // ---------------------------------------------------------------------------------------
  // The order of iteration

  ghost predicate Enumerates(order: seq<ConnId>, cs: set<ConnId>) {
    && (forall c :: c in order <==> c in cs)
    && (forall i, j :: 0 <= i < j < |order| ==> order[i] != order[j])
  }

  /** Visiting clients one after the other, with nothing in between. */
  function VisitAll(s: State, order: seq<ConnId>): State {
    if order == [] then s
    else
      var before := VisitAll(s, order[..|order| - 1]);
      if Enabled(before, Visit(order[|order| - 1])) then Step(before, Visit(order[|order| - 1])) else before
  }

  /** Client by client, what visiting leaves: subscribed with room gains one push, subscribed and
      full is closed and removed, unsubscribed is untouched. */
  lemma {:induction false} VisitAllResult(s: State, order: seq<ConnId>)
    requires LifeInv(s) && s.current.Some? && s.begun > 0
    requires forall c :: c in order ==> c in s.todo
    requires forall i, j :: 0 <= i < j < |order| ==> order[i] != order[j]
    ensures var t := VisitAll(s, order);
      && t == s.(conns := t.conns, members := t.members, todo := t.todo)
      && t.conns.Keys == s.conns.Keys
      && (forall c :: c in s.conns ==>
            t.conns[c] == if c in order then Visited(s.conns[c], s.current.value, s.begun - 1, s.capacity)
                          else s.conns[c])
      && (forall c :: c in t.members <==> c in s.conns && t.conns[c].open)
      && (forall c :: c in t.todo <==> c in s.todo && c !in order)
  {
    hide Visited, Step, Enabled;
    if order == [] {
    } else {
      var front, last := order[..|order| - 1], order[|order| - 1];
      assert order == front + [last];
      VisitAllResult(s, front);
      assert last !in front;
      VisitOneMore(VisitAll(s, front), last);
    }
  }

  lemma VisitOneMore(t: State, c: ConnId)
    requires (forall d :: d in t.members <==> d in t.conns && t.conns[d].open)
    requires c in t.todo && c in t.conns && t.conns[c].open && !t.faulted && t.current.Some? && t.begun > 0
    ensures Enabled(t, Visit(c))
    ensures var u := Step(t, Visit(c));
      && u == t.(conns := u.conns, members := u.members, todo := t.todo - {c})
      && u.conns == t.conns[c := Visited(t.conns[c], t.current.value, t.begun - 1, t.capacity)]
      && (forall d :: d in u.members <==> d in u.conns && u.conns[d].open)
  {
  }

  /** A broadcast does not depend on the order in which the map of clients is iterated. */
  lemma BroadcastOrderIsIrrelevant(s: State, a: seq<ConnId>, b: seq<ConnId>)
    requires LifeInv(s) && s.current.Some? && s.begun > 0
    requires Enumerates(a, s.todo) && Enumerates(b, s.todo)
    ensures VisitAll(s, a) == VisitAll(s, b) && VisitAll(s, a).todo == {}
    ensures Enabled(VisitAll(s, a), Finish)
  {
    hide LifeInv, Visited, VisitAll;
    VisitAllResult(s, a);
    VisitAllResult(s, b);
    var t, u := VisitAll(s, a), VisitAll(s, b);
    assert t.conns == u.conns;
    assert t.members == u.members && t.todo == u.todo;
  }
}
