/** The user service: each request handler commits, replies, then publishes. */
module Service {
  import opened Users
  import opened UserTable
  import opened Journal

  /** A request as the handler finds it: undecodable, refused by validation or by identifier
      parsing, or usable. */
  datatype Inbound<+T> = Malformed | Invalid | Accepted(value: T)

  datatype ErrorCode = NotFoundError | AlreadyExistsError | ValidationError | InternalError

  datatype Reply = UserReply(user: UserDTO) | UsersReply(users: seq<UserDTO>) | DoneReply | ErrorReply(code: ErrorCode)

  /** A mutating request, with the identifier and the time the database will supply, and whether
      it will answer at all. */
  datatype Request =
    | CreateRequest(create: Inbound<Profile>, newId: Id, now: nat, answers: bool)
    | UpdateRequest(update: Inbound<(Id, Profile)>, now: nat, answers: bool)
    | DeleteRequest(delete: Inbound<Id>, now: nat, answers: bool)

  /** What leaves the service, in order. */
  datatype Output = Replied(reply: Reply) | Published(event: Event)

  const DEFAULT_STATUS := "ACTIVE"

  function WithDefaultStatus(p: Profile): Profile {
    if p.status == "" then p.(status := DEFAULT_STATUS) else p
  }

  /** The statement a request leads to, if it gets that far. */
  function Statement(req: Request): Option<Op> {
    match req
    case CreateRequest(Accepted(p), id, now, _) => Some(Create(id, WithDefaultStatus(p), now))
    case UpdateRequest(Accepted((id, p)), now, _) => Some(Update(id, p, now))
    case DeleteRequest(Accepted(id), now, _) => Some(Delete(id, now))
    case _ => None
  }

  function ReplyTo(outcome: Outcome): Reply {
    match outcome
    case Stored(id, row) => UserReply(ToDTO(id, row))
    case Removed => DoneReply
    case NotFound => ErrorReply(NotFoundError)
    case AlreadyExists => ErrorReply(AlreadyExistsError)
    case Errored => ErrorReply(InternalError)
  }

  /** The event that announces a statement: one if it succeeded, none if it failed. */
  function Announcement(op: Op, outcome: Outcome): seq<Event> {
    match (op, outcome)
    case (Create(_, _, _), Stored(id, row)) => [Created(ToDTO(id, row))]
    case (Update(_, _, _), Stored(id, row)) => [Updated(ToDTO(id, row))]
    case (Delete(id, _), Removed) => [Deleted(id)]
    case _ => []
  }

  /** A request's effect on the table, its reply, and the event it announces. */
  function Serve(t: Table, req: Request): (Table, Reply, seq<Event>) {
    match Statement(req)
    case None => (t, ErrorReply(ValidationError), [])
    case Some(op) =>
      var (t', outcome) := Attempt(t, op, req.answers);
      (t', ReplyTo(outcome), Announcement(op, outcome))
  }

  /** The live users, as DTOs by id. */
  function DTOView(t: Table): View {
    map id | id in t && t[id].Live() :: ToDTO(id, t[id])
  }

  /** One statement changes the live view exactly as its announcement says. */
  lemma AnnouncementTracksTable(t: Table, op: Op)
    requires FreshId(t, op)
    ensures DTOView(Exec(t, op).0) == Replay(DTOView(t), Announcement(op, Exec(t, op).1))
    ensures |Announcement(op, Exec(t, op).1)| == if Exec(t, op).1.Succeeded() then 1 else 0
    ensures Exec(t, op).1.Succeeded() ==> Announcement(op, Exec(t, op).1)[0].Target() == op.id
  {
    var (t', outcome) := Exec(t, op);
    var events := Announcement(op, outcome);
    if events != [] {
      assert events[..|events| - 1] == [];
      assert Replay(DTOView(t), events) == Apply(DTOView(t), events[0]);
      assert DTOView(t') == Apply(DTOView(t), events[0]);
    }
  }

  /** What a successful reply says: the record under its id with the fields that were asked for,
      an empty status made active, stamped now, and created when it first was. Only an update whose
      database error was swallowed succeeds with a blank user, and then nothing has changed. */
  lemma ReplyDescribesRequest(t: Table, req: Request)
    ensures var (t', reply, events) := Serve(t, req);
      reply.UserReply? ==>
        match req
        case CreateRequest(Accepted(p), id, now, answers) =>
          var status := if p.status == "" then "ACTIVE" else p.status;
          var profile := Profile(p.firstName, p.lastName, p.email, p.phone, p.age, status);
          && answers && reply.user == UserDTO(id, profile, now / 1_000_000, now / 1_000_000)
          && Lookup(DTOView(t'), id) == Some(reply.user)
        case UpdateRequest(Accepted((id, p)), now, answers) =>
          if !answers then reply.user == BLANK_DTO && t' == t
          else
            && id in DTOView(t) && reply.user == UserDTO(id, p, DTOView(t)[id].createdAt, now / 1_000_000)
            && Lookup(DTOView(t'), id) == Some(reply.user)
        case _ => false
    ensures Serve(t, req).1.DoneReply? ==>
              req.DeleteRequest? && req.delete.Accepted? && req.answers && IsLive(t, req.delete.value)
              && DTOView(Serve(t, req).0) == DTOView(t) - {req.delete.value}
    ensures !Serve(t, req).1.UsersReply?
    ensures Serve(t, req).1.ErrorReply? ==> Serve(t, req).0 == t && Serve(t, req).2 == []
  {
  }

  predicate IsAccepted(req: Request) {
    match req
    case CreateRequest(msg, _, _, _) => msg.Accepted?
    case UpdateRequest(msg, _, _) => msg.Accepted?
    case DeleteRequest(msg, _, _) => msg.Accepted?
  }

  /** Which error a request gets, exactly, told from the table and the request. */
  lemma ErrorCodesIff(t: Table, req: Request)
    ensures Serve(t, req).1 == ErrorReply(ValidationError) <==> !IsAccepted(req)
    ensures Serve(t, req).1 == ErrorReply(NotFoundError) <==>
            IsAccepted(req) && req.answers &&
            match req
            case CreateRequest(_, _, _, _) => false
            case UpdateRequest(msg, _, _) => !IsLive(t, msg.value.0)
            case DeleteRequest(msg, _, _) => !IsLive(t, msg.value)
    ensures Serve(t, req).1 == ErrorReply(AlreadyExistsError) <==>
            IsAccepted(req) && req.answers &&
            match req
            case CreateRequest(msg, _, _, _) =>
              exists i :: IsLive(t, i) && t[i].profile.email == msg.value.email
            case UpdateRequest(msg, _, _) =>
              && IsLive(t, msg.value.0)
              && exists i :: IsLive(t, i) && i != msg.value.0 && t[i].profile.email == msg.value.1.email
            case DeleteRequest(_, _, _) => false
    ensures Serve(t, req).1 == ErrorReply(InternalError) <==> IsAccepted(req) && !req.answers && !req.UpdateRequest?
  {
  }

  // ---------------------------------------------------------------------------------------
  // Runs of the service with handlers that do not overlap and publishes that succeed

  const BLANK_DTO := ToDTO(NIL_ID, BLANK_ROW)

  /** An update that the database does not answer: the repository reports success. */
  predicate Swallows(req: Request) {
    req.UpdateRequest? && req.update.Accepted? && !req.answers
  }

  /** A generated identifier is new, and never the nil one. */
  predicate FreshRequests(t: Table, reqs: seq<Request>)
    decreases reqs
  {
    reqs == [] ||
    (&& (reqs[0].CreateRequest? ==> reqs[0].newId !in t && reqs[0].newId != NIL_ID)
     && FreshRequests(Serve(t, reqs[0]).0, reqs[1..]))
  }

  function ServeAll(t: Table, reqs: seq<Request>): (r: (Table, seq<Reply>, seq<Event>))
    ensures |r.1| == |reqs|
    decreases reqs
  {
    if reqs == [] then (t, [], [])
    else
      var (t1, reply, events) := Serve(t, reqs[0]);
      var (t2, replies, journal) := ServeAll(t1, reqs[1..]);
      (t2, [reply] + replies, events + journal)
  }

  /** What a caller can tell from a request and its reply alone: a created or updated user
      is announced by an event with the reply's own DTO, a deletion by its id, and an error
      by nothing. */
  function EventsOf(reqs: seq<Request>, replies: seq<Reply>): seq<Event>
    requires |reqs| == |replies|
    decreases reqs
  {
    if reqs == [] then []
    else
      (match (reqs[0], replies[0])
       case (CreateRequest(_, _, _, _), UserReply(dto)) => [Created(dto)]
       case (UpdateRequest(_, _, _), UserReply(dto)) => [Updated(dto)]
       case (DeleteRequest(Accepted(id), _, _), DoneReply) => [Deleted(id)]
       case _ => [])
      + EventsOf(reqs[1..], replies[1..])
  }

  /** A view, and with it a blank user if an update was swallowed. */
  function WithBlank(v: View, blank: bool): View {
    if blank then v[NIL_ID := BLANK_DTO] else v
  }

  lemma ApplyBesideBlank(v: View, e: Event, blank: bool)
    requires e.Target() != NIL_ID
    ensures Apply(WithBlank(v, blank), e) == WithBlank(Apply(v, e), blank)
  {
  }

  lemma ServeTracksView(t: Table, req: Request, blank: bool)
    requires req.CreateRequest? ==> req.newId !in t && req.newId != NIL_ID
    requires NIL_ID !in t
    ensures var (t', reply, events) := Serve(t, req);
      NIL_ID !in t' && Replay(WithBlank(DTOView(t), blank), events) == WithBlank(DTOView(t'), blank || Swallows(req))
  {
    var (t', reply, events) := Serve(t, req);
    var v := DTOView(t);
    ServeAnnouncesOne(t, req);
    if events == [] {
      ReplayNothing(WithBlank(v, blank));
    } else {
      assert events == [events[0]];
      ReplayOne(WithBlank(v, blank), events[0]);
      if !Swallows(req) {
        AnnouncementTracksTable(t, Statement(req).value);
        hide Apply, Replay, Exec, DTOView, Serve;
        ReplayOne(v, events[0]);
        ApplyBesideBlank(v, events[0], blank);
      }
    }
  }

  /** One event at most; none leaves the table as it was; and only a swallowed update is about the
      nil identifier. */
  lemma ServeAnnouncesOne(t: Table, req: Request)
    requires req.CreateRequest? ==> req.newId != NIL_ID
    requires NIL_ID !in t
    ensures var (t', reply, events) := Serve(t, req);
      && NIL_ID !in t' && |events| <= 1
      && (events == [] ==> t' == t && !Swallows(req))
      && (Swallows(req) ==> t' == t && events == [Updated(BLANK_DTO)])
      && (events != [] && !Swallows(req) ==> req.answers && Statement(req).Some? && events[0].Target() != NIL_ID)
  {
  }

  predicate AnySwallowed(reqs: seq<Request>) {
    exists i :: 0 <= i < |reqs| && Swallows(reqs[i])
  }

  lemma AnySwallowedFirst(reqs: seq<Request>)
    requires reqs != []
    ensures AnySwallowed(reqs) <==> Swallows(reqs[0]) || AnySwallowed(reqs[1..])
  {
    hide Swallows;
    assert forall i :: 1 <= i < |reqs| ==> reqs[i] == reqs[1..][i - 1];
    assert forall i :: 0 <= i < |reqs[1..]| ==> reqs[1..][i] == reqs[i + 1];
  }

  lemma {:induction false} JournalMatchesReplies(t: Table, reqs: seq<Request>)
    ensures var (_, replies, journal) := ServeAll(t, reqs); journal == EventsOf(reqs, replies)
    decreases reqs
  {
    if reqs == [] {
    } else {
      var (t1, reply, events) := Serve(t, reqs[0]);
      JournalMatchesReplies(t1, reqs[1..]);
      var (t2, replies, journal) := ServeAll(t1, reqs[1..]);
      assert ([reply] + replies)[1..] == replies;
    }
  }

  lemma {:induction false} JournalTracksView(t: Table, reqs: seq<Request>, blank: bool)
    requires FreshRequests(t, reqs) && NIL_ID !in t
    ensures var (t', replies, journal) := ServeAll(t, reqs);
      && NIL_ID !in t'
      && Replay(WithBlank(DTOView(t), blank), journal) == WithBlank(DTOView(t'), blank || AnySwallowed(reqs))
    decreases reqs
  {
    hide WithBlank, Swallows, AnySwallowed, Serve, DTOView, Replay;
    if reqs == [] {
      ReplayNothing(WithBlank(DTOView(t), blank));
      assert !AnySwallowed(reqs) by { NoneSwallowed(); }
    } else {
      var (t1, reply, events) := Serve(t, reqs[0]);
      var (t2, replies, journal) := ServeAll(t1, reqs[1..]);
      ServeTracksView(t, reqs[0], blank);
      JournalTracksView(t1, reqs[1..], blank || Swallows(reqs[0]));
      AnySwallowedFirst(reqs);
      ReplayConcat(WithBlank(DTOView(t), blank), events, journal);
    }
  }

  lemma NoneSwallowed()
    ensures !AnySwallowed([])
  {
  }

  lemma NotInView(t: Table, id: Id)
    requires id !in t
    ensures id !in DTOView(t)
  {
  }

  /** The journal is faithful: each mutation reported as successful appears exactly once and in
      order, with the DTO of its reply. Replaying the journal gives exactly the live users, if and
      only if no update had its database error swallowed; otherwise there is a blank user too. */
  lemma FaithfulJournal(t: Table, reqs: seq<Request>)
    requires FreshRequests(t, reqs) && NIL_ID !in t
    ensures var (t', replies, journal) := ServeAll(t, reqs);
      && journal == EventsOf(reqs, replies)
      && (Replay(DTOView(t), journal) == DTOView(t') <==> forall i :: 0 <= i < |reqs| ==> !Swallows(reqs[i]))
      && Replay(DTOView(t), journal) == WithBlank(DTOView(t'), AnySwallowed(reqs)) && NIL_ID !in DTOView(t')
  {
    hide Swallows, Serve, EventsOf, ServeAll, DTOView, Replay;
    JournalMatchesReplies(t, reqs);
    JournalTracksView(t, reqs, false);
    var (t', replies, journal) := ServeAll(t, reqs);
    NotInView(t', NIL_ID);
  }

  // ---------------------------------------------------------------------------------------
  // The handlers

  class Handler {
    const repo: Repository
    var output: seq<Output>

    constructor (repo: Repository)
      ensures this.repo == repo && output == []
    {
      this.repo := repo;
      output := [];
    }

    /** The state a handler leaves for a request: the table moved on, one reply, and after it
        the announcement, unless publishing failed. */
    twostate predicate Served(req: Request, publishes: bool)
      reads this, repo
    {
      var (t, answer, events) := Serve(old(repo.rows), req);
      && repo.rows == t
      && output == old(output) + [Replied(answer)]
                 + (if publishes then seq(|events|, i requires 0 <= i < |events| => Published(events[i])) else [])
    }

    /** One reply goes out, and only then at most one event. */
    twostate predicate RepliesFirst(publishes: bool)
      reads this
    {
      var n := old(|output|);
      && old(output) <= output && n + 1 <= |output| <= n + (if publishes then 2 else 1)
      && output[n].Replied?
      && (|output| > n + 1 ==> output[n + 1].Published?)
    }

    method SendReply(answer: Reply)
      modifies this
      ensures output == old(output) + [Replied(answer)]
    {
      output := output + [Replied(answer)];
    }

    /** A publish that fails is logged and forgotten. */
    method PublishEvent(event: Event, publishes: bool)
      modifies this
      ensures output == old(output) + if publishes then [Published(event)] else []
    {
      if publishes {
        output := output + [Published(event)];
      }
    }

    method HandleCreate(msg: Inbound<Profile>, newId: Id, now: nat, answers: bool, publishes: bool)
      requires newId !in repo.rows
      modifies this, repo
      ensures Served(CreateRequest(msg, newId, now, answers), publishes)
      ensures RepliesFirst(publishes)
    {
      match msg
      case Accepted(profile) =>
        var outcome := repo.CreateUser(newId, WithDefaultStatus(profile), now, answers);
        if !outcome.Stored? {
          SendReply(ReplyTo(outcome));
          return;
        }
        var dto := ToDTO(outcome.id, outcome.row);
        SendReply(UserReply(dto));
        PublishEvent(Created(dto), publishes);
      case _ =>
        SendReply(ErrorReply(ValidationError));
    }

    method HandleUpdate(msg: Inbound<(Id, Profile)>, now: nat, answers: bool, publishes: bool)
      modifies this, repo
      ensures Served(UpdateRequest(msg, now, answers), publishes)
      ensures RepliesFirst(publishes)
    {
      match msg
      case Accepted((id, profile)) =>
        var outcome := repo.UpdateUser(id, profile, now, answers);
        if !outcome.Stored? {
          SendReply(ReplyTo(outcome));
          return;
        }
        var dto := ToDTO(outcome.id, outcome.row);
        SendReply(UserReply(dto));
        PublishEvent(Updated(dto), publishes);
      case _ =>
        SendReply(ErrorReply(ValidationError));
    }

    method HandleDelete(msg: Inbound<Id>, now: nat, answers: bool, publishes: bool)
      modifies this, repo
      ensures Served(DeleteRequest(msg, now, answers), publishes)
      ensures RepliesFirst(publishes)
    {
      match msg
      case Accepted(id) =>
        var outcome := repo.DeleteUser(id, now, answers);
        if !outcome.Removed? {
          SendReply(ReplyTo(outcome));
          return;
        }
        SendReply(DoneReply);
        PublishEvent(Deleted(id), publishes);
      case _ =>
        SendReply(ErrorReply(ValidationError));
    }

    method HandleGetByID(msg: Inbound<Id>, answers: bool)
      modifies this
      ensures output == old(output) + [Replied(
                if !msg.Accepted? then ErrorReply(ValidationError)
                else if !answers then UserReply(BLANK_DTO)
                else if msg.value in DTOView(repo.rows) then UserReply(DTOView(repo.rows)[msg.value])
                else ErrorReply(NotFoundError))]
    {
      match msg
      case Accepted(id) =>
        var found := repo.GetByID(id, answers);
        SendReply(if found.Hit? then UserReply(ToDTO(found.id, found.row)) else ErrorReply(NotFoundError));
      case _ =>
        SendReply(ErrorReply(ValidationError));
    }

    method HandleGetByEmail(msg: Inbound<string>, answers: bool)
      modifies this
      ensures !msg.Accepted? ==> output == old(output) + [Replied(ErrorReply(ValidationError))]
      ensures msg.Accepted? && !answers ==> output == old(output) + [Replied(ErrorReply(InternalError))]
      ensures msg.Accepted? && answers && !EmailTaken(repo.rows, msg.value, {}) ==>
                output == old(output) + [Replied(ErrorReply(NotFoundError))]
      ensures msg.Accepted? && answers && EmailTaken(repo.rows, msg.value, {}) ==>
                exists id :: id in DTOView(repo.rows) && DTOView(repo.rows)[id].profile.email == msg.value
                             && output == old(output) + [Replied(UserReply(DTOView(repo.rows)[id]))]
    {
      match msg
      case Accepted(email) =>
        var found := repo.GetByEmail(email, answers);
        if !found.Hit? {
          SendReply(ErrorReply(if found.Miss? then NotFoundError else InternalError));
          return;
        }
        SendReply(UserReply(ToDTO(found.id, found.row)));
        assert found.id in DTOView(repo.rows) && DTOView(repo.rows)[found.id] == ToDTO(found.id, found.row);
      case _ =>
        SendReply(ErrorReply(ValidationError));
    }

    method ToDTOs(users: seq<(Id, Row)>) returns (dtos: seq<UserDTO>)
      ensures |dtos| == |users|
      ensures forall i :: 0 <= i < |users| ==> dtos[i] == ToDTO(users[i].0, users[i].1)
    {
      dtos := [];
      for i := 0 to |users|
        invariant |dtos| == i
        invariant forall j :: 0 <= j < i ==> dtos[j] == ToDTO(users[j].0, users[j].1)
      {
        dtos := dtos + [ToDTO(users[i].0, users[i].1)];
      }
    }

    /** The snapshot a client loads: a DTO for each row the query returns, in its order. */
    method HandleListAll(scan: seq<Id>, answers: bool)
      requires IsScan(repo.rows, None, scan)
      modifies this
      ensures !answers ==> output == old(output) + [Replied(ErrorReply(InternalError))]
      ensures answers ==>
                exists dtos: seq<UserDTO> ::
                  && output == old(output) + [Replied(UsersReply(dtos))]
                  && |dtos| == |scan|
                  && forall i :: 0 <= i < |scan| ==>
                       scan[i] in DTOView(repo.rows) && dtos[i] == DTOView(repo.rows)[scan[i]]
    {
      var found := repo.List(None, |scan|, 0, scan, answers);
      if found.None? {
        SendReply(ErrorReply(InternalError));
        return;
      }
      var dtos := ToDTOs(found.value);
      assert forall i :: 0 <= i < |scan| ==> Window(scan, |scan|, 0)[i] == scan[i];
      SendReply(UsersReply(dtos));
    }
  }
}
