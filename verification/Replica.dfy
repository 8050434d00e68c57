/** The whole replication path as one labelled transition system: the store commits, the
    service publishes, the wire delivers, the pipeline carries or drops, the cache applies,
    and readers fill the cache behind its back. */
module Replica {
  import opened Users
  import opened UserTable
  import opened Journal
  import opened Service
  import opened Pipeline

  /** An event on its way, tagged with the number of the commit that it announces. */
  datatype Note = Note(version: nat, event: Event)

  /** A miss that has read the store, at a version, and has yet to set the cache. `undisturbed`
      records that no event for that user has been applied since the read. */
  datatype Fill = Fill(user: UserDTO, at: nat, undisturbed: bool)

  /** The client first fetches and installs a snapshot and only then subscribes. */
  datatype Phase = Starting | Fetched(at: nat, users: View) | Serving(loaded: bool)

  datatype Processor = Running | Draining | Exited

  datatype State = State(
    table: Table,
    log: seq<Event>,            // one event per commit: the history of the store
    outbox: set<Note>,          // committed, not yet published
    wire: set<Note>,            // published to a subscriber, callback not yet run
    lost: set<Note>,            // lost before reaching the pipeline
    subscribed: set<Kind>,
    flow: Flow<Note>,
    cache: View,
    base: nat,                  // the version of the installed snapshot
    seen: map<Id, nat>,         // the version a user's cached entry reflects, if later set
    fills: map<nat, Fill>,      // fills in flight, by request
    filled: set<Id>,            // users whose entry a fill has ever set
    tainted: set<Id>,           // those among them for whom some such fill had been disturbed
    phase: Phase,
    processor: Processor)

  datatype Label =
    | Commit(op: Op)
    | Publish(note: Note)
    | PublishFails(note: Note)
    | WireLoses(note: Note)
    | Deliver(note: Note)
    | Internal(move: Move<Note>)
    | FetchSnapshot
    | FetchFails
    | InstallSnapshot
    | SubscribeTo(kind: Kind)
    | UnsubscribeFrom(kind: Kind)
    | FillRead(request: nat, id: Id)
    | FillSet(request: nat)
    | FillAbandon(request: nat)
    | Stop
    | Exit

  function Start(): State {
    State(map[], [], {}, {}, {}, {}, Idle(), map[], 0, map[], map[], {}, {}, Starting, Running)
  }

  function KindOf(op: Op): Kind {
    match op
    case Create(_, _, _) => CreatedKind
    case Update(_, _, _) => UpdatedKind
    case Delete(_, _) => DeletedKind
  }

  /** Requests of one kind are served one at a time, each to its publish; and callbacks of one
      kind run one at a time, oldest first. Nothing orders different kinds. */
  ghost predicate Enabled(s: State, l: Label) {
    match l
    case Commit(op) => FreshId(s.table, op) && forall n :: n in s.outbox ==> n.event.Kind() != KindOf(op)
    case Publish(n) => n in s.outbox
    case PublishFails(n) => n in s.outbox
    case WireLoses(n) => n in s.wire
    case Deliver(n) =>
      n in s.wire && forall m :: m in s.wire && m.event.Kind() == n.event.Kind() ==> n.version <= m.version
    case Internal(m) => !m.Offer? && CanMove(s.flow.pipe, m) && (m.Pop? ==> !s.processor.Exited?)
    case FetchSnapshot => s.phase.Starting?
    case FetchFails => !s.phase.Serving?
    case InstallSnapshot => s.phase.Fetched?
    case SubscribeTo(_) => s.phase.Serving?
    case UnsubscribeFrom(_) => true
    case FillRead(r, id) => s.phase.Serving? && r !in s.fills && IsLive(s.table, id)
    case FillSet(r) => r in s.fills
    case FillAbandon(r) => r in s.fills
    case Stop => s.processor.Running?
    case Exit => s.processor.Draining? && DrainDone(s.flow.pipe)
  }

  ghost function Step(s: State, l: Label): State
    requires Enabled(s, l)
  {
    match l
    case Commit(op) =>
      var (t, outcome) := Exec(s.table, op);
      var events := Announcement(op, outcome);
      s.(table := t, log := s.log + events,
         outbox := if events == [] then s.outbox else s.outbox + {Note(|s.log|, events[0])})
    case Publish(n) =>
      if n.event.Kind() in s.subscribed then s.(outbox := s.outbox - {n}, wire := s.wire + {n})
      else s.(outbox := s.outbox - {n}, lost := s.lost + {n})
    case PublishFails(n) => s.(outbox := s.outbox - {n}, lost := s.lost + {n})
    case WireLoses(n) => s.(wire := s.wire - {n}, lost := s.lost + {n})
    case Deliver(n) => s.(wire := s.wire - {n}, flow := FlowStep(s.flow, Offer(n)))
    case Internal(m) => if m.Finish? then ApplyWorking(s) else s.(flow := FlowStep(s.flow, m))
    case FetchSnapshot => s.(phase := Fetched(|s.log|, DTOView(s.table)))
    case FetchFails => s.(phase := Serving(false))
    case InstallSnapshot => s.(cache := s.cache + s.phase.users, base := s.phase.at, phase := Serving(true))
    case SubscribeTo(k) => s.(subscribed := s.subscribed + {k})
    case UnsubscribeFrom(k) => s.(subscribed := s.subscribed - {k})
    case FillRead(r, id) => s.(fills := s.fills[r := Fill(ToDTO(id, s.table[id]), |s.log|, true)])
    case FillSet(r) =>
      var f := s.fills[r];
      s.(cache := s.cache[f.user.userId := f.user], seen := s.seen[f.user.userId := f.at],
         filled := s.filled + {f.user.userId},
         tainted := if f.undisturbed then s.tainted else s.tainted + {f.user.userId},
         fills := s.fills - {r})
    case FillAbandon(r) => s.(fills := s.fills - {r})
    case Stop => s.(processor := Draining)
    case Exit => s.(processor := Exited)
  }

  ghost function ApplyWorking(s: State): State
    requires s.flow.pipe.working.Some?
  {
    var n := s.flow.pipe.working.value;
    var u := n.event.Target();
    s.(flow := FlowStep(s.flow, Finish),
       cache := Apply(s.cache, n.event),
       seen := s.seen[u := n.version + 1],
       fills := map r | r in s.fills ::
         if s.fills[r].user.userId == u then s.fills[r].(undisturbed := false) else s.fills[r])
  }

  // ---------------------------------------------------------------------------------------
  // Runs

  ghost predicate Legal(s: State, run: seq<Label>)
    decreases run
  {
    run == [] || (Enabled(s, run[0]) && Legal(Step(s, run[0]), run[1..]))
  }

  ghost function After(s: State, run: seq<Label>): State
    requires Legal(s, run)
    decreases run
  {
    if run == [] then s else After(Step(s, run[0]), run[1..])
  }

  // ---------------------------------------------------------------------------------------
  // History

  /** A user's record at a version of the store. */
  ghost function RecordAt(log: seq<Event>, k: nat, u: Id): Option<UserDTO>
    requires k <= |log|
  {
    Lookup(Replay(map[], log[..k]), u)
  }

  /** The first version that includes every commit about the user so far. */
  function Newest(log: seq<Event>, u: Id): (n: nat)
    ensures n <= |log|
  {
    if log == [] then 0
    else if log[|log| - 1].Target() == u then |log|
    else Newest(log[..|log| - 1], u)
  }

  lemma {:induction false} NewestIsNewest(log: seq<Event>, u: Id)
    ensures forall i :: Newest(log, u) <= i < |log| ==> log[i].Target() != u
    ensures Newest(log, u) > 0 ==> log[Newest(log, u) - 1].Target() == u
  {
    if log == [] || log[|log| - 1].Target() == u {
    } else {
      var front := log[..|log| - 1];
      NewestIsNewest(front, u);
      assert forall i :: 0 <= i < |front| ==> front[i] == log[i];
    }
  }

  lemma NewestAfterCommit(log: seq<Event>, e: Event, u: Id)
    ensures Newest(log + [e], u) == if e.Target() == u then |log| + 1 else Newest(log, u)
  {
  }

  lemma RecordAfterCommit(log: seq<Event>, k: nat, u: Id)
    requires k < |log|
    ensures RecordAt(log, k + 1, u) == if log[k].Target() == u then log[k].Effect() else RecordAt(log, k, u)
  {
    assert log[..k + 1][..k] == log[..k];
  }

  lemma {:induction false} RecordUnchanged(log: seq<Event>, j: nat, k: nat, u: Id)
    requires j <= k <= |log|
    requires forall i :: j <= i < k ==> log[i].Target() != u
    ensures RecordAt(log, j, u) == RecordAt(log, k, u)
  {
    if j == k {
    } else {
      RecordUnchanged(log, j, k - 1, u);
      RecordAfterCommit(log, k - 1, u);
    }
  }

  /** A record sits under its own identifier and was committed by some commit before. */
  lemma {:induction false} RecordWasCommitted(log: seq<Event>, k: nat, u: Id)
    requires k <= |log| && RecordAt(log, k, u).Some?
    ensures RecordAt(log, k, u).value.userId == u
    ensures exists i :: 0 <= i < k && log[i].Target() == u && log[i].Effect() == RecordAt(log, k, u)
  {
    if k == 0 {
    } else {
      RecordAfterCommit(log, k - 1, u);
      if log[k - 1].Target() != u {
        RecordWasCommitted(log, k - 1, u);
      }
    }
  }

  // ---------------------------------------------------------------------------------------
  // Notes

  ghost predicate Genuine(log: seq<Event>, n: Note) {
    n.version < |log| && log[n.version] == n.event
  }

  /** The notes about one user, in order. */
  function Mine(ns: seq<Note>, u: Id): seq<Note> {
    if ns == [] then []
    else
      var rest := Mine(ns[..|ns| - 1], u);
      if ns[|ns| - 1].event.Target() == u then rest + [ns[|ns| - 1]] else rest
  }

  lemma {:induction false} MineMembers(ns: seq<Note>, u: Id)
    ensures forall n :: n in Mine(ns, u) <==> n in ns && n.event.Target() == u
  {
    if ns == [] {
    } else {
      MineMembers(ns[..|ns| - 1], u);
      assert ns == ns[..|ns| - 1] + [ns[|ns| - 1]];
    }
  }

  lemma {:induction false} MineConcat(a: seq<Note>, b: seq<Note>, u: Id)
    ensures Mine(a + b, u) == Mine(a, u) + Mine(b, u)
  {
    if b == [] {
      assert a + b == a;
    } else {
      MineConcat(a, b[..|b| - 1], u);
      assert (a + b)[..|a + b| - 1] == a + b[..|b| - 1];
    }
  }

  function Events(ns: seq<Note>): seq<Event> {
    MapSeq((n: Note) => n.event, ns)
  }

  lemma {:induction false} OnlyOfNotes(ns: seq<Note>, u: Id)
    ensures Only(Events(ns), u) == Events(Mine(ns, u))
  {
    if ns == [] {
    } else {
      OnlyOfNotes(ns[..|ns| - 1], u);
      assert Events(ns)[..|ns| - 1] == Events(ns[..|ns| - 1]);
      var rest := Mine(ns[..|ns| - 1], u);
      assert Events(rest + [ns[|ns| - 1]]) == Events(rest) + [ns[|ns| - 1].event];
    }
  }

  function Reflected(seen: map<Id, nat>, base: nat, u: Id): nat {
    if u in seen then seen[u] else base
  }

  /** The version of the store that a user's cached entry, present or absent, reflects. */
  function Seen(s: State, u: Id): nat {
    Reflected(s.seen, s.base, u)
  }

  function Queued(s: State, u: Id): seq<Note> {
    Mine(s.flow.pipe.Contents(), u)
  }

  ghost function Undelivered(s: State, u: Id): set<Note> {
    set n | n in s.outbox + s.wire && n.event.Target() == u
  }

  // ---------------------------------------------------------------------------------------
  // What every step keeps

  ghost predicate NoSharedEmail(v: View) {
    forall i, j :: i in v && j in v && v[i].profile.email == v[j].profile.email ==> i == j
  }

  /** The log is a faithful journal of the table, and no version of it has two users with
      one email. */
  ghost predicate StoreInv(s: State) {
    && UniqueEmails(s.table)
    && DTOView(s.table) == Replay(map[], s.log)
    && forall k :: 0 <= k <= |s.log| ==> NoSharedEmail(Replay(map[], s.log[..k]))
  }

  /** Every commit's note is in exactly one place, and there are no other notes. */
  ghost predicate Places(log: seq<Event>, outbox: set<Note>, wire: set<Note>, lost: set<Note>, offered: seq<Note>) {
    && (forall n :: Genuine(log, n) <==> n in outbox || n in wire || n in lost || n in offered)
    && outbox !! wire && outbox !! lost && wire !! lost
    && (forall n :: n in offered ==> n !in outbox && n !in wire && n !in lost)
    && (forall i, j :: 0 <= i < j < |offered| ==> offered[i] != offered[j])
  }

  ghost predicate PlaceInv(s: State) {
    Places(s.log, s.outbox, s.wire, s.lost, s.flow.offered)
  }

  /** Each kind is announced in commit order. */
  ghost predicate KindOrder(outbox: set<Note>, wire: set<Note>) {
    && (forall m, n :: m in outbox && n in outbox && m.event.Kind() == n.event.Kind() ==> m == n)
    && (forall m, n :: m in wire && n in outbox && m.event.Kind() == n.event.Kind() ==> m.version < n.version)
  }

  ghost predicate KindOrderInv(s: State) {
    KindOrder(s.outbox, s.wire)
  }

  ghost predicate PhaseInv(s: State) {
    && s.base <= |s.log|
    && (!s.phase.Serving? ==>
          s.subscribed == {} && s.wire == {} && s.flow == Idle() && s.cache == map[] && s.base == 0
          && s.seen == map[] && s.fills == map[] && s.filled == {} && s.tainted == {})
    && (s.phase.Fetched? ==> s.phase.at <= |s.log| && s.phase.users == Replay(map[], s.log[..s.phase.at]))
  }

  /** Each entry of the cache, present or absent, is the user's record at the version it
      reflects. */
  ghost predicate Provenance(log: seq<Event>, cache: View, seen: map<Id, nat>, base: nat) {
    forall u :: Reflected(seen, base, u) <= |log| && Lookup(cache, u) == RecordAt(log, Reflected(seen, base, u), u)
  }

  /** So is the record in each fill. */
  ghost predicate FillsGenuine(log: seq<Event>, fills: map<nat, Fill>) {
    forall r :: r in fills ==>
      fills[r].at <= |log| && RecordAt(log, fills[r].at, fills[r].user.userId) == Some(fills[r].user)
  }

  ghost predicate ProvenanceInv(s: State) {
    Provenance(s.log, s.cache, s.seen, s.base) && FillsGenuine(s.log, s.fills)
  }

  /** For a user no fill has touched, the cached entry reflects the last applied event, or
      else the snapshot. A fill that no applied event disturbed reflects at least as much, and so
      does the entry of a user whom only such fills have touched. */
  ghost predicate SeenInv(s: State) {
    && (forall u :: u !in s.filled ==> Seen(s, u) == LastApplied(s.flow.applied, s.base, u))
    && (forall u :: u !in s.tainted ==> Seen(s, u) >= LastApplied(s.flow.applied, s.base, u))
    && (forall r :: r in s.fills && s.fills[r].undisturbed ==>
          s.fills[r].at >= LastApplied(s.flow.applied, s.base, s.fills[r].user.userId))
  }

  function LastApplied(applied: seq<Note>, base: nat, u: Id): nat {
    var mine := Mine(applied, u);
    if mine == [] then base else mine[|mine| - 1].version + 1
  }

  ghost predicate Born(log: seq<Event>, k: nat, u: Id)
    requires k <= |log|
  {
    exists i :: 0 <= i < k && log[i].Created? && log[i].Target() == u
  }

  /** A user's commits are one creation, then updates, then at most one deletion. */
  ghost predicate OneLifeEach(log: seq<Event>) {
    && (forall i, j :: 0 <= i < j < |log| && log[i].Target() == log[j].Target() ==>
          !log[i].Deleted? && !log[j].Created?)
    && (forall j :: 0 <= j < |log| && !log[j].Created? ==> Born(log, j, log[j].Target()))
  }

  /** The table knows exactly the users of the log, and those deleted there are not live. */
  ghost predicate KnownUsers(log: seq<Event>, t: Table) {
    && (forall i :: 0 <= i < |log| ==> log[i].Target() in t)
    && (forall i :: 0 <= i < |log| && log[i].Deleted? ==> !IsLive(t, log[i].Target()))
    && (forall id :: id in t ==> Born(log, |log|, id))
  }

  ghost predicate LivesInv(s: State) {
    OneLifeEach(s.log) && KnownUsers(s.log, s.table)
  }

  ghost predicate Inv(s: State) {
    && StoreInv(s) && LivesInv(s) && PlaceInv(s) && KindOrderInv(s) && FlowInv(s.flow) && PhaseInv(s)
    && ProvenanceInv(s) && SeenInv(s)
  }

  /** A commit appends at most one event, of its own kind. */
  lemma CommitShape(s: State, op: Op)
    requires Enabled(s, Commit(op))
    ensures var events := Announcement(op, Exec(s.table, op).1);
      events == [] || (events == [events[0]] && events[0].Kind() == KindOf(op))
  {
  }

  lemma StoreCommit(s: State, op: Op)
    requires StoreInv(s) && Enabled(s, Commit(op))
    ensures StoreInv(Step(s, Commit(op)))
  {
    hide Exec, Announcement, NoSharedEmail;
    var s' := Step(s, Commit(op));
    AnnouncementTracksTable(s.table, op);
    ExecKeepsEmailsUnique(s.table, op);
    ReplayConcat(map[], s.log, Announcement(op, Exec(s.table, op).1));
    LiveViewSharesNoEmail(s'.table);
    forall k | 0 <= k <= |s'.log| ensures NoSharedEmail(Replay(map[], s'.log[..k])) {
      if k <= |s.log| {
        assert s'.log[..k] == s.log[..k];
      } else {
        assert s'.log[..k] == s'.log;
      }
    }
  }

  lemma StoreStep(s: State, l: Label)
    requires StoreInv(s) && Enabled(s, l)
    ensures StoreInv(Step(s, l))
  {
    hide StoreInv, Exec, Announcement, Replay;
    if l.Commit? {
      StoreCommit(s, l.op);
    } else {
      SameStore(s, Step(s, l));
    }
  }

  lemma SameStore(s: State, s': State)
    requires StoreInv(s) && s'.table == s.table && s'.log == s.log
    ensures StoreInv(s')
  {
  }

  lemma LiveViewSharesNoEmail(t: Table)
    requires UniqueEmails(t)
    ensures NoSharedEmail(DTOView(t))
  {
  }

  lemma BornLater(log: seq<Event>, e: Event, k: nat, u: Id)
    requires k <= |log|
    ensures Born(log, k, u) ==> Born(log + [e], k, u) && Born(log + [e], |log| + 1, u)
  {
    if Born(log, k, u) {
      var i :| 0 <= i < k && log[i].Created? && log[i].Target() == u;
      assert (log + [e])[i] == log[i];
    }
  }

  /** What a successful statement tells of its user. */
  lemma CommittedOp(t: Table, op: Op)
    requires FreshId(t, op)
    ensures var (t', outcome) := Exec(t, op); var events := Announcement(op, outcome);
      && (events == [] ==> t' == t)
      && (events != [] ==>
            && events == [events[0]] && events[0].Target() == op.id
            && t'.Keys == t.Keys + {op.id}
            && (forall id :: id != op.id ==> (IsLive(t', id) <==> IsLive(t, id)))
            && (events[0].Created? <==> op.id !in t)
            && (!events[0].Created? ==> IsLive(t, op.id))
            && (events[0].Deleted? ==> !IsLive(t', op.id)))
  {
  }

  lemma OneLifeAfter(log: seq<Event>, t: Table, e: Event)
    requires OneLifeEach(log) && KnownUsers(log, t)
    requires e.Created? <==> e.Target() !in t
    requires !e.Created? ==> IsLive(t, e.Target())
    ensures OneLifeEach(log + [e])
  {
    hide Born;
    forall j | 0 <= j <= |log| && !(log + [e])[j].Created? ensures Born(log + [e], j, (log + [e])[j].Target()) {
      BornLater(log, e, j, (log + [e])[j].Target());
    }
  }

  lemma KnownUsersAfter(log: seq<Event>, t: Table, t': Table, e: Event)
    requires KnownUsers(log, t) && t'.Keys == t.Keys + {e.Target()}
    requires e.Created? <==> e.Target() !in t
    requires forall id :: id != e.Target() ==> (IsLive(t', id) <==> IsLive(t, id))
    requires !e.Created? ==> IsLive(t, e.Target())
    requires e.Deleted? ==> !IsLive(t', e.Target())
    ensures KnownUsers(log + [e], t')
  {
    forall id | id in t' ensures Born(log + [e], |log| + 1, id) {
      if id in t {
        BornLater(log, e, |log|, id);
      } else {
        assert (log + [e])[|log|] == e;
      }
    }
  }

  lemma LivesStep(s: State, l: Label)
    requires LivesInv(s) && Enabled(s, l)
    ensures LivesInv(Step(s, l))
  {
    hide OneLifeEach, KnownUsers, Exec, Announcement, Replay;
    if l.Commit? {
      CommittedOp(s.table, l.op);
      var (t', outcome) := Exec(s.table, l.op);
      var events := Announcement(l.op, outcome);
      if events == [] {
        assert s.log + events == s.log;
      } else {
        OneLifeAfter(s.log, s.table, events[0]);
        KnownUsersAfter(s.log, s.table, t', events[0]);
      }
    }
  }

  lemma PlacesAfterOffer(log: seq<Event>, outbox: set<Note>, wire: set<Note>, lost: set<Note>, offered: seq<Note>,
                         n: Note)
    requires Places(log, outbox, wire, lost, offered) && n in wire
    ensures Places(log, outbox, wire - {n}, lost, offered + [n])
  {
  }

  lemma PlaceCommit(s: State, op: Op)
    requires PlaceInv(s) && Enabled(s, Commit(op))
    ensures PlaceInv(Step(s, Commit(op)))
  {
  }

  /** Moving a note from one place to another. */
  lemma PlacesAfterMove(log: seq<Event>, outbox: set<Note>, wire: set<Note>, lost: set<Note>, offered: seq<Note>,
                        n: Note)
    requires Places(log, outbox, wire, lost, offered)
    ensures n in outbox ==> Places(log, outbox - {n}, wire + {n}, lost, offered)
                            && Places(log, outbox - {n}, wire, lost + {n}, offered)
    ensures n in wire ==> Places(log, outbox, wire - {n}, lost + {n}, offered)
  {
  }

  lemma PlaceStep(s: State, l: Label)
    requires PlaceInv(s) && Enabled(s, l)
    ensures PlaceInv(Step(s, l))
  {
    hide Places, Announcement, Exec, Replay;
    match l
    case Commit(op) => PlaceCommit(s, op);
    case Publish(n) => PlacesAfterMove(s.log, s.outbox, s.wire, s.lost, s.flow.offered, n);
    case PublishFails(n) => PlacesAfterMove(s.log, s.outbox, s.wire, s.lost, s.flow.offered, n);
    case WireLoses(n) => PlacesAfterMove(s.log, s.outbox, s.wire, s.lost, s.flow.offered, n);
    case Deliver(n) => PlacesAfterOffer(s.log, s.outbox, s.wire, s.lost, s.flow.offered, n);
    case Internal(m) => assert Step(s, l).flow.offered == s.flow.offered;
    case _ =>
  }

  lemma KindOrderCommit(s: State, op: Op)
    requires PlaceInv(s) && KindOrderInv(s) && Enabled(s, Commit(op))
    ensures KindOrderInv(Step(s, Commit(op)))
  {
    hide Exec;
    CommitShape(s, op);
    assert forall m :: m in s.wire ==> m.version < |s.log| by {
      assert forall m :: m in s.wire ==> Genuine(s.log, m);
    }
  }

  lemma KindOrderStep(s: State, l: Label)
    requires PlaceInv(s) && KindOrderInv(s) && Enabled(s, l)
    ensures KindOrderInv(Step(s, l))
  {
    hide Exec, Announcement, Replay, Places;
    if l.Commit? {
      KindOrderCommit(s, l.op);
    }
  }

  lemma PhaseCommit(s: State, op: Op)
    requires PhaseInv(s) && Enabled(s, Commit(op))
    ensures PhaseInv(Step(s, Commit(op)))
  {
    hide Exec, Announcement, Replay;
    var s' := Step(s, Commit(op));
    if s.phase.Fetched? {
      assert s'.log[..s.phase.at] == s.log[..s.phase.at];
    }
  }

  lemma PhaseStep(s: State, l: Label)
    requires StoreInv(s) && PhaseInv(s) && Enabled(s, l)
    ensures PhaseInv(Step(s, l))
  {
    hide Exec, Announcement, Replay, StoreInv, ApplyWorking, FlowStep;
    if l.Commit? {
      PhaseCommit(s, l.op);
    } else if l == Internal(Finish) {
      ApplyKeepsStore(s);
    } else if l.FetchSnapshot? {
      SnapshotIsView(s);
    }
  }

  lemma SnapshotIsView(s: State)
    requires StoreInv(s)
    ensures DTOView(s.table) == Replay(map[], s.log[..|s.log|])
  {
    assert s.log[..|s.log|] == s.log;
  }

  lemma ApplyKeepsStore(s: State)
    requires s.flow.pipe.working.Some?
    ensures var s' := ApplyWorking(s); s'.log == s.log && s'.base == s.base && s'.phase == s.phase
  {
  }

  lemma ProvenanceAfterCommit(log: seq<Event>, more: seq<Event>, cache: View, seen: map<Id, nat>, base: nat,
                              fills: map<nat, Fill>)
    requires Provenance(log, cache, seen, base) && FillsGenuine(log, fills)
    ensures Provenance(log + more, cache, seen, base) && FillsGenuine(log + more, fills)
  {
    forall k, u | 0 <= k <= |log| ensures RecordAt(log + more, k, u) == RecordAt(log, k, u) {
      assert (log + more)[..k] == log[..k];
    }
  }

  /** Setting one user's entry to its record at some version. */
  lemma ProvenanceAfterSet(log: seq<Event>, cache: View, seen: map<Id, nat>, base: nat, cache': View, u: Id, k: nat)
    requires Provenance(log, cache, seen, base)
    requires k <= |log| && Lookup(cache', u) == RecordAt(log, k, u)
    requires forall w :: w != u ==> Lookup(cache', w) == Lookup(cache, w)
    ensures Provenance(log, cache', seen[u := k], base)
  {
    forall w ensures Reflected(seen[u := k], base, w) == if w == u then k else Reflected(seen, base, w) {
    }
  }

  lemma ProvenanceApply(s: State)
    requires PlaceInv(s) && FlowInv(s.flow) && ProvenanceInv(s) && s.flow.pipe.working.Some?
    ensures ProvenanceInv(ApplyWorking(s))
  {
    var n := s.flow.pipe.working.value;
    WorkingIsGenuine(s);
    RecordAfterCommit(s.log, n.version, n.event.Target());
    ProvenanceAfterSet(s.log, s.cache, s.seen, s.base, Apply(s.cache, n.event), n.event.Target(), n.version + 1);
  }

  lemma ProvenanceFill(s: State, l: Label)
    requires StoreInv(s) && ProvenanceInv(s) && Enabled(s, l) && (l.FillRead? || l.FillSet? || l.FillAbandon?)
    ensures ProvenanceInv(Step(s, l))
  {
    match l
    case FillRead(_, id) =>
      assert s.log[..|s.log|] == s.log;
      assert id in DTOView(s.table);
    case FillSet(r) =>
      var f := s.fills[r];
      ProvenanceAfterSet(s.log, s.cache, s.seen, s.base, s.cache[f.user.userId := f.user], f.user.userId, f.at);
    case FillAbandon(_) =>
  }

  lemma ProvenanceInstall(s: State)
    requires ProvenanceInv(s) && PhaseInv(s) && s.phase.Fetched?
    ensures ProvenanceInv(Step(s, InstallSnapshot))
  {
  }

  lemma ProvenanceCommit(s: State, op: Op)
    requires ProvenanceInv(s) && Enabled(s, Commit(op))
    ensures ProvenanceInv(Step(s, Commit(op)))
  {
    ProvenanceAfterCommit(s.log, Announcement(op, Exec(s.table, op).1), s.cache, s.seen, s.base, s.fills);
  }

  predicate LeavesCacheAlone(l: Label) {
    !l.Commit? && l != Internal(Finish) && !l.FillRead? && !l.FillSet? && !l.FillAbandon? && !l.InstallSnapshot?
  }

  lemma ProvenanceStep(s: State, l: Label)
    requires StoreInv(s) && PlaceInv(s) && FlowInv(s.flow) && PhaseInv(s) && ProvenanceInv(s) && Enabled(s, l)
    ensures ProvenanceInv(Step(s, l))
  {
    hide Provenance, FillsGenuine, Exec, Announcement;
    if l.Commit? {
      ProvenanceCommit(s, l.op);
    } else if l == Internal(Finish) {
      ProvenanceApply(s);
    } else if l.FillRead? || l.FillSet? || l.FillAbandon? {
      ProvenanceFill(s, l);
    } else if l.InstallSnapshot? {
      ProvenanceInstall(s);
    } else {
      CacheLeftAlone(s, l);
      SameCacheSameProvenance(s, Step(s, l));
    }
  }

  lemma CacheLeftAlone(s: State, l: Label)
    requires Enabled(s, l) && LeavesCacheAlone(l)
    ensures var s' := Step(s, l);
      s'.log == s.log && s'.cache == s.cache && s'.seen == s.seen && s'.base == s.base && s'.fills == s.fills
  {
    hide Exec, Announcement, Replay;
  }

  lemma SameCacheSameProvenance(s: State, s': State)
    requires ProvenanceInv(s)
    requires s'.log == s.log && s'.cache == s.cache && s'.seen == s.seen && s'.base == s.base && s'.fills == s.fills
    ensures ProvenanceInv(s')
  {
  }

  /** What is inside the pipeline, or went through it, was offered. */
  lemma ThroughWasOffered(f: Flow<Note>, n: Note)
    requires FlowInv(f) && n in Through(f)
    ensures n in f.offered
  {
    assert multiset(Through(f))[n] > 0;
    assert multiset(f.offered)[n] > 0;
  }

  lemma WorkingIsGenuine(s: State)
    requires PlaceInv(s) && FlowInv(s.flow) && s.flow.pipe.working.Some?
    ensures Genuine(s.log, s.flow.pipe.working.value)
  {
    var n := s.flow.pipe.working.value;
    assert s.flow.pipe.Contents()[0] == n;
    assert Through(s.flow)[|s.flow.applied|] == n;
    ThroughWasOffered(s.flow, n);
  }

  lemma MineAfterApply(applied: seq<Note>, n: Note, u: Id)
    ensures Mine(applied + [n], u) == if n.event.Target() == u then Mine(applied, u) + [n] else Mine(applied, u)
  {
  }

  lemma LastAppliedAfter(applied: seq<Note>, n: Note, base: nat, u: Id)
    ensures LastApplied(applied + [n], base, u)
         == if n.event.Target() == u then n.version + 1 else LastApplied(applied, base, u)
  {
    MineAfterApply(applied, n, u);
  }

  lemma SeenAfterApply(s: State)
    requires SeenInv(s) && s.flow.pipe.working.Some?
    ensures SeenInv(ApplyWorking(s))
  {
    hide LastApplied;
    var s', n := ApplyWorking(s), s.flow.pipe.working.value;
    forall u ensures LastApplied(s'.flow.applied, s.base, u)
                  == if n.event.Target() == u then n.version + 1 else LastApplied(s.flow.applied, s.base, u) {
      LastAppliedAfter(s.flow.applied, n, s.base, u);
    }
  }

  lemma AppliedIsGenuine(s: State)
    requires PlaceInv(s) && FlowInv(s.flow)
    ensures forall n :: n in s.flow.applied ==> Genuine(s.log, n)
  {
    hide Pipe.Contents, FlowInv;
    forall n | n in s.flow.applied ensures Genuine(s.log, n) {
      ThroughWasOffered(s.flow, n);
    }
  }

  lemma LastAppliedIsVersion(s: State, u: Id)
    requires PlaceInv(s) && FlowInv(s.flow) && PhaseInv(s)
    ensures LastApplied(s.flow.applied, s.base, u) <= |s.log|
  {
    AppliedIsGenuine(s);
    MineMembers(s.flow.applied, u);
    hide Mine;
    var mine := Mine(s.flow.applied, u);
    if mine != [] { assert mine[|mine| - 1] in mine; }
  }

  lemma SeenAfterInstall(s: State)
    requires PhaseInv(s) && s.phase.Fetched?
    ensures SeenInv(Step(s, InstallSnapshot))
  {
  }

  lemma SeenAfterRead(s: State, r: nat, id: Id)
    requires SeenInv(s) && PlaceInv(s) && FlowInv(s.flow) && PhaseInv(s) && Enabled(s, FillRead(r, id))
    ensures SeenInv(Step(s, FillRead(r, id)))
  {
    hide LastApplied, FlowInv, Places;
    LastAppliedIsVersion(s, id);
  }

  lemma SeenAfterSet(s: State, r: nat)
    requires SeenInv(s) && Enabled(s, FillSet(r))
    ensures SeenInv(Step(s, FillSet(r)))
  {
    hide LastApplied;
  }

  /** The remaining steps touch nothing that counts, but for a fill that may be abandoned. */
  lemma OthersLeaveSeen(s: State, l: Label)
    requires Enabled(s, l) && l != Internal(Finish) && !l.InstallSnapshot? && !l.FillRead? && !l.FillSet?
    ensures var s' := Step(s, l);
      && s'.seen == s.seen && s'.base == s.base && s'.filled == s.filled && s'.tainted == s.tainted
      && s'.flow.applied == s.flow.applied
      && (forall r :: r in s'.fills ==> r in s.fills && s'.fills[r] == s.fills[r])
  {
    hide Exec, Announcement, Replay;
  }

  lemma SameSeen(s: State, s': State)
    requires SeenInv(s)
    requires s'.seen == s.seen && s'.base == s.base && s'.filled == s.filled && s'.tainted == s.tainted
    requires s'.flow.applied == s.flow.applied
    requires forall r :: r in s'.fills ==> r in s.fills && s'.fills[r] == s.fills[r]
    ensures SeenInv(s')
  {
    hide LastApplied;
  }

  lemma SeenStep(s: State, l: Label)
    requires SeenInv(s) && PlaceInv(s) && FlowInv(s.flow) && PhaseInv(s) && Enabled(s, l)
    ensures SeenInv(Step(s, l))
  {
    if l == Internal(Finish) {
      SeenAfterApply(s);
    } else if l.InstallSnapshot? {
      SeenAfterInstall(s);
    } else if l.FillRead? {
      SeenAfterRead(s, l.request, l.id);
    } else if l.FillSet? {
      SeenAfterSet(s, l.request);
    } else {
      hide Step, SeenInv;
      OthersLeaveSeen(s, l);
      SameSeen(s, Step(s, l));
    }
  }

  lemma FlowStays(s: State, l: Label)
    requires FlowInv(s.flow) && Enabled(s, l)
    ensures FlowInv(Step(s, l).flow)
  {
    if l.Deliver? {
      FlowStepKeepsInv(s.flow, Offer(l.note));
    } else if l.Internal? {
      FlowStepKeepsInv(s.flow, l.move);
    }
  }

  lemma StepKeepsInv(s: State, l: Label)
    requires Inv(s) && Enabled(s, l)
    ensures Inv(Step(s, l))
  {
    StoreStep(s, l);
    LivesStep(s, l);
    PlaceStep(s, l);
    KindOrderStep(s, l);
    FlowStays(s, l);
    PhaseStep(s, l);
    ProvenanceStep(s, l);
    SeenStep(s, l);
  }

  lemma {:induction false} RunKeepsInv(s: State, run: seq<Label>)
    requires Inv(s) && Legal(s, run)
    ensures Inv(After(s, run))
    decreases run
  {
    if run == [] {
    } else {
      StepKeepsInv(s, run[0]);
      RunKeepsInv(Step(s, run[0]), run[1..]);
    }
  }

  lemma StartIsGood()
    ensures Inv(Start())
  {
  }
}
