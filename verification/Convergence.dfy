/** When the cache agrees with the store, user by user, and when it cannot. */
module Convergence {
  import opened Sequences
  import opened Users
  import opened Journal
  import opened Service
  import opened Pipeline
  import opened Replica

  ghost predicate Reachable(s: State) {
    exists run :: Legal(Start(), run) && After(Start(), run) == s
  }

  lemma ReachableIsGood(s: State)
    requires Reachable(s)
    ensures Inv(s)
  {
    var run :| Legal(Start(), run) && After(Start(), run) == s;
    StartIsGood();
    RunKeepsInv(Start(), run);
  }

  /** Provenance, whatever is dropped, reordered, missed before subscribing or raced by fills:
      every cached entry sits under its own id and is a record of that user which some commit
      wrote. */
  lemma CachedEntriesWereCommitted(s: State, u: Id)
    requires Reachable(s) && u in s.cache
    ensures s.cache[u].userId == u
    ensures exists i :: 0 <= i < |s.log| && s.log[i].Target() == u && s.log[i].Effect() == Some(s.cache[u])
  {
    ReachableIsGood(s);
    assert Lookup(s.cache, u) == RecordAt(s.log, Seen(s, u), u);
    RecordWasCommitted(s.log, Seen(s, u), u);
  }

  // ---------------------------------------------------------------------------------------
  // Where a user is heading

  /** `rest` lists the undelivered notes of a user in commit order. */
  ghost predicate InCommitOrder(s: State, u: Id, rest: seq<Note>) {
    && (forall n :: n in rest <==> n in Undelivered(s, u))
    && (forall i, j :: 0 <= i < j < |rest| ==> rest[i].version < rest[j].version)
  }

  /** The version a user's entry will reflect once everything pending has been applied. */
  function Destination(s: State, u: Id, rest: seq<Note>): nat {
    var pending := Queued(s, u) + rest;
    if pending == [] then Seen(s, u) else pending[|pending| - 1].version + 1
  }

  function Live(s: State, u: Id): Option<UserDTO> {
    Lookup(DTOView(s.table), u)
  }

  /** What the client will hold of a user once everything pending has been applied. */
  ghost function Outlook(s: State, u: Id, rest: seq<Note>): Option<UserDTO> {
    Lookup(Replay(s.cache, Events(Queued(s, u) + rest)), u)
  }

  lemma QueuedIsGenuine(s: State, u: Id, n: Note)
    requires PlaceInv(s) && FlowInv(s.flow) && n in Queued(s, u)
    ensures Genuine(s.log, n) && n.event.Target() == u
    ensures n in s.flow.offered
  {
    MineMembers(s.flow.pipe.Contents(), u);
    assert n in Through(s.flow);
    ThroughWasOffered(s.flow, n);
  }

  lemma NewestIsAfter(s: State, n: Note)
    requires Genuine(s.log, n)
    ensures n.version < Newest(s.log, n.event.Target())
  {
    NewestIsNewest(s.log, n.event.Target());
  }

  /** Replaying genuine notes about one user leads to that user's record just after the last
      of the commits that they announce. */
  lemma ReplayOfMine(v: View, log: seq<Event>, pending: seq<Note>, u: Id)
    requires forall n :: n in pending ==> Genuine(log, n) && n.event.Target() == u
    requires pending != []
    ensures pending[|pending| - 1].version < |log|
    ensures Lookup(Replay(v, Events(pending)), u) == RecordAt(log, pending[|pending| - 1].version + 1, u)
  {
  }

  /** With no assumption at all, replaying a user's pending events on the cached entry gives
      the user's record at the destination. */
  lemma PendingLeadsToDestination(s: State, u: Id, rest: seq<Note>)
    requires Inv(s) && InCommitOrder(s, u, rest)
    ensures Destination(s, u, rest) <= |s.log|
    ensures Outlook(s, u, rest) == RecordAt(s.log, Destination(s, u, rest), u)
  {
    hide Mine, Pipe.Contents, StoreInv, LivesInv, KindOrderInv, PhaseInv, SeenInv;
    var pending := Queued(s, u) + rest;
    if pending == [] {
      assert Lookup(s.cache, u) == RecordAt(s.log, Seen(s, u), u);
    } else {
      forall n | n in pending ensures Genuine(s.log, n) && n.event.Target() == u {
        if n in Queued(s, u) { QueuedIsGenuine(s, u, n); }
      }
      ReplayOfMine(s.cache, s.log, pending, u);
    }
  }

  // ---------------------------------------------------------------------------------------
  // The newest commit is accounted for

  ghost predicate Pending(s: State, u: Id) {
    Undelivered(s, u) != {} || Queued(s, u) != []
  }

  /** What a state says about one user. */
  datatype Standing = Standing(log: seq<Event>, undelivered: set<Note>, queued: seq<Note>, seen: nat)

  ghost function StandingOf(s: State, u: Id): Standing {
    Standing(s.log, Undelivered(s, u), Queued(s, u), Seen(s, u))
  }

  /** The note of the user's newest commit is the last one pending, or, with none pending, the
      cached entry already reflects that commit. */
  ghost predicate Covered(x: Standing, u: Id) {
    var n := Newest(x.log, u);
    if x.undelivered != {} then n > 0 && Note(n - 1, x.log[n - 1]) in x.undelivered
    else if x.queued != [] then x.queued[|x.queued| - 1].version + 1 == n
    else x.seen >= n
  }

  ghost predicate Accounted(s: State, u: Id) {
    Covered(StandingOf(s, u), u)
  }

  lemma AccountedGoesFarEnough(s: State, u: Id, rest: seq<Note>)
    requires Accounted(s, u) && InCommitOrder(s, u, rest)
    ensures Destination(s, u, rest) >= Newest(s.log, u)
  {
    var n := Newest(s.log, u);
    if Undelivered(s, u) != {} {
      assert Note(n - 1, s.log[n - 1]) in rest;
      assert rest[|rest| - 1].version >= n - 1;
    } else {
      NonEmptyHasMember(rest);
      assert Queued(s, u) + rest == Queued(s, u);
    }
  }

  lemma FarEnoughIsAccounted(s: State, u: Id, rest: seq<Note>)
    requires PlaceInv(s) && FlowInv(s.flow) && InCommitOrder(s, u, rest)
    requires Destination(s, u, rest) >= Newest(s.log, u)
    ensures Accounted(s, u)
  {
    hide Mine, Newest, Pipe.Contents;
    var queued := Queued(s, u);
    if rest != [] {
      var last := rest[|rest| - 1];
      assert last in rest && last in Undelivered(s, u);
      assert Genuine(s.log, last);
      NewestIsAfter(s, last);
    } else {
      assert queued + rest == queued;
      if queued != [] {
        var last := queued[|queued| - 1];
        QueuedIsGenuine(s, u, last);
        NewestIsAfter(s, last);
      }
    }
  }

  /** A user is accounted for exactly when what is pending leads as far as the user's newest
      commit. */
  lemma AccountedIff(s: State, u: Id, rest: seq<Note>)
    requires Inv(s) && InCommitOrder(s, u, rest)
    ensures Accounted(s, u) <==> Destination(s, u, rest) >= Newest(s.log, u)
  {
    if Accounted(s, u) {
      AccountedGoesFarEnough(s, u, rest);
    }
    if Destination(s, u, rest) >= Newest(s.log, u) {
      FarEnoughIsAccounted(s, u, rest);
    }
  }

  /** Commits that can be missed without harm. Either the user's whole life is missed, from before
      its creation to its deletion, or the newest commit is an update that wrote again the very
      record, down to the second of its times, that the last commit before version `k` wrote. */
  ghost predicate MissedUnharmed(log: seq<Event>, k: nat, u: Id)
    requires k <= |log|
  {
    var n, j := Newest(log, u), Newest(log[..k], u);
    && k < n
    && match log[n - 1]
       case Created(_) => false
       case Updated(user) => j > 0 && log[j - 1].Effect() == Some(user)
       case Deleted(_) => forall i :: 0 <= i < k ==> log[i].Target() != u
  }

  lemma RecordIsLastWrite(log: seq<Event>, k: nat, u: Id)
    requires k <= |log|
    ensures var j := Newest(log[..k], u);
      && (j == 0 ==> RecordAt(log, k, u) == None && forall i :: 0 <= i < k ==> log[i].Target() != u)
      && (j > 0 ==> log[j - 1].Target() == u && RecordAt(log, k, u) == log[j - 1].Effect())
  {
    var j := Newest(log[..k], u);
    NewestIsNewest(log[..k], u);
    assert forall i :: 0 <= i < k ==> log[..k][i] == log[i];
    RecordUnchanged(log, j, k, u);
    if j > 0 {
      RecordAfterCommit(log, j - 1, u);
    }
  }

  /** Below the newest commit, an older record is the live one in those two cases only. */
  lemma OlderRecordIsLiveIff(log: seq<Event>, k: nat, u: Id)
    requires OneLifeEach(log) && k < Newest(log, u)
    ensures RecordAt(log, k, u) == log[Newest(log, u) - 1].Effect() <==> MissedUnharmed(log, k, u)
  {
    hide Newest, RecordAt, Born;
    NewestIsNewest(log, u);
    RecordIsLastWrite(log, k, u);
  }

  lemma LiveIsNewestEffect(s: State, u: Id)
    requires StoreInv(s)
    ensures Live(s, u) == RecordAt(s.log, |s.log|, u)
    ensures var n := Newest(s.log, u); n > 0 ==> Live(s, u) == s.log[n - 1].Effect()
  {
    var n := Newest(s.log, u);
    assert s.log[..|s.log|] == s.log;
    NewestIsNewest(s.log, u);
    RecordUnchanged(s.log, n, |s.log|, u);
    if n > 0 {
      RecordAfterCommit(s.log, n - 1, u);
    }
  }

  /** Exactly when replaying what is pending gives the live record, absent if deleted: the user is
      accounted for, or the commits that will be missed do no harm. */
  lemma ConvergesIff(s: State, u: Id, rest: seq<Note>)
    requires Inv(s) && InCommitOrder(s, u, rest)
    ensures Destination(s, u, rest) <= |s.log|
    ensures Outlook(s, u, rest) == Live(s, u)
       <==> Accounted(s, u) || MissedUnharmed(s.log, Destination(s, u, rest), u)
  {
    hide Mine, Newest, Pipe.Contents, Accounted, RecordAt, MissedUnharmed, OneLifeEach, KnownUsers;
    var k := Destination(s, u, rest);
    PendingLeadsToDestination(s, u, rest);
    AccountedIff(s, u, rest);
    LiveIsNewestEffect(s, u);
    NewestIsNewest(s.log, u);
    if k >= Newest(s.log, u) {
      RecordUnchanged(s.log, k, |s.log|, u);
    } else {
      OlderRecordIsLiveIff(s.log, k, u);
    }
  }

  /** Per-user convergence: for an accounted user, replaying what is pending in commit order
      gives exactly the live record, whatever happened to other users. */
  lemma AccountedConverges(s: State, u: Id, rest: seq<Note>)
    requires Inv(s) && Accounted(s, u) && InCommitOrder(s, u, rest)
    ensures Outlook(s, u, rest) == Live(s, u)
  {
    ConvergesIff(s, u, rest);
  }

  /** With nothing pending for a user, cache and store agree on the user exactly when the user is
      accounted for or the commits missed do no harm. */
  lemma SettledAgreesIff(s: State, u: Id)
    requires Inv(s) && !Pending(s, u)
    ensures Seen(s, u) <= |s.log|
    ensures Lookup(s.cache, u) == Live(s, u) <==> Accounted(s, u) || MissedUnharmed(s.log, Seen(s, u), u)
  {
    hide Mine, Newest, Accounted, MissedUnharmed;
    assert Events(Queued(s, u) + []) == [];
    ConvergesIff(s, u, []);
  }

  lemma SettledAgrees(s: State, u: Id)
    requires Inv(s) && Accounted(s, u) && !Pending(s, u)
    ensures Lookup(s.cache, u) == Live(s, u)
  {
    SettledAgreesIff(s, u);
  }
}
