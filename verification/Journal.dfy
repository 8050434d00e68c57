/** Events about users, and what replaying them does to a view of users by id. */
module Journal {
  import opened Users

  type View = map<Id, UserDTO>

  datatype Kind = CreatedKind | UpdatedKind | DeletedKind

  datatype Event = Created(user: UserDTO) | Updated(user: UserDTO) | Deleted(id: Id) {
    /** Each kind has its own subject, and so its own subscription and callback. */
    function Kind(): Kind {
      match this
      case Created(_) => CreatedKind
      case Updated(_) => UpdatedKind
      case Deleted(_) => DeletedKind
    }

    /** The user the event is about. */
    function Target(): Id {
      if Deleted? then id else user.userId
    }

    /** What a view holds for that user afterwards: events carry whole records. */
    function Effect(): Option<UserDTO> {
      if Deleted? then None else Some(user)
    }
  }

  function Lookup(v: View, u: Id): Option<UserDTO> {
    if u in v then Some(v[u]) else None
  }

  function Apply(v: View, e: Event): View {
    match e
    case Created(user) => v[user.userId := user]
    case Updated(user) => v[user.userId := user]
    case Deleted(id) => v - {id}
  }

  function Replay(v: View, es: seq<Event>): View {
    if es == [] then v else Apply(Replay(v, es[..|es| - 1]), es[|es| - 1])
  }

  lemma ReplayNothing(v: View)
    ensures Replay(v, []) == v
  {
  }

  lemma ReplayOne(v: View, e: Event)
    ensures Replay(v, [e]) == Apply(v, e)
  {
    assert [e][..0] == [];
  }

  /** The events about one user, in order. */
  function Only(es: seq<Event>, u: Id): seq<Event> {
    if es == [] then []
    else
      var rest := Only(es[..|es| - 1], u);
      if es[|es| - 1].Target() == u then rest + [es[|es| - 1]] else rest
  }

  lemma {:induction false} ReplayConcat(v: View, a: seq<Event>, b: seq<Event>)
    ensures Replay(v, a + b) == Replay(Replay(v, a), b)
  {
    if b == [] {
      assert a + b == a;
    } else {
      ReplayConcat(v, a, b[..|b| - 1]);
      assert (a + b)[..|a + b| - 1] == a + b[..|b| - 1];
    }
  }

  /** What a delivery settles about a user: nothing if it never mentions the user, and
      otherwise whatever the last mention says. */
  function Verdict(es: seq<Event>, u: Id): Option<Option<UserDTO>> {
    var mine := Only(es, u);
    if mine == [] then None else Some(mine[|mine| - 1].Effect())
  }

  /** The last writer wins, per user. */
  lemma {:induction false} LastWriterWins(v: View, es: seq<Event>, u: Id)
    ensures Lookup(Replay(v, es), u) == if Verdict(es, u) == None then Lookup(v, u) else Verdict(es, u).value
  {
    if es == [] {
    } else {
      LastWriterWins(v, es[..|es| - 1], u);
    }
  }

  lemma LookupsDetermineView(v: View, w: View)
    requires forall u :: Lookup(v, u) == Lookup(w, u)
    ensures v == w
  {
    forall u ensures u in v <==> u in w { assert Lookup(v, u) == Lookup(w, u); }
    forall u | u in v ensures v[u] == w[u] { assert Lookup(v, u) == Lookup(w, u); }
  }

  lemma SameVerdictsSameReplay(v: View, a: seq<Event>, b: seq<Event>)
    requires forall u :: Verdict(a, u) == Verdict(b, u)
    ensures Replay(v, a) == Replay(v, b)
  {
    forall u ensures Lookup(Replay(v, a), u) == Lookup(Replay(v, b), u) {
      LastWriterWins(v, a, u);
      LastWriterWins(v, b, u);
      assert Verdict(a, u) == Verdict(b, u);
    }
    LookupsDetermineView(Replay(v, a), Replay(v, b));
  }

  /** Delivery order matters only per user. However two deliveries interleave the events of
      different users, if each user's events come in the same order in both then the views
      are the same, from any start. */
  lemma OrderMattersOnlyPerUser(v: View, a: seq<Event>, b: seq<Event>)
    requires forall u :: Only(a, u) == Only(b, u)
    ensures Replay(v, a) == Replay(v, b)
  {
    forall u ensures Verdict(a, u) == Verdict(b, u) { assert Only(a, u) == Only(b, u); }
    SameVerdictsSameReplay(v, a, b);
  }

  ghost predicate Indistinguishable(a: seq<Event>, b: seq<Event>) {
    forall v: View :: Replay(v, a) == Replay(v, b)
  }

  /** Exactly when two deliveries cannot be told apart from any start: they settle the same
      about every user. */
  lemma SameReplayIff(a: seq<Event>, b: seq<Event>)
    ensures Indistinguishable(a, b) <==> (forall u :: Verdict(a, u) == Verdict(b, u))
  {
    if Indistinguishable(a, b) {
      forall u ensures Verdict(a, u) == Verdict(b, u) {
        // From a start without the user, and from one whose record neither delivery carries.
        var other := Stranger(Verdict(a, u), Verdict(b, u));
        var empty: View, full: View := map[], map[u := other];
        assert Replay(empty, a) == Replay(empty, b);
        assert Replay(full, a) == Replay(full, b);
        LastWriterWins(empty, a, u);
        LastWriterWins(empty, b, u);
        LastWriterWins(full, a, u);
        LastWriterWins(full, b, u);
        assert Lookup(full, u) == Some(other) && Lookup(empty, u) == None;
      }
    }
    if forall u :: Verdict(a, u) == Verdict(b, u) {
      forall v: View ensures Replay(v, a) == Replay(v, b) {
        SameVerdictsSameReplay(v, a, b);
      }
    }
  }

  /** A record that neither verdict holds. */
  function Stranger(x: Option<Option<UserDTO>>, y: Option<Option<UserDTO>>): (r: UserDTO)
    ensures x != Some(Some(r)) && y != Some(Some(r))
  {
    var stamp := (o: Option<Option<UserDTO>>) => if o.Some? && o.value.Some? then o.value.value.createdAt else 0;
    UserDTO("", Profile("", "", "", None, None, ""), stamp(x) + stamp(y) + 1, 0)
  }
}
