/** Order within one subject: it holds of its own accord, and what follows from it. */
module Subjects {
  import opened Sequences
  import opened Users
  import opened UserTable
  import opened Journal
  import opened Service
  import opened Pipeline
  import opened Replica
  import opened Convergence
  import opened CleanRuns

  ghost predicate SameKind(m: Note, n: Note) {
    m.event.Kind() == n.event.Kind()
  }

  ghost predicate AscendsByKind(ns: seq<Note>) {
    forall i, j :: 0 <= i < j < |ns| && SameKind(ns[i], ns[j]) ==> ns[i].version < ns[j].version
  }

  /** Notes of one kind are offered in commit order; those on the wire are later than those
      offered; a note in the outbox is the latest of its kind; and a note that got as far as a
      subscriber was followed by no other of its kind before the snapshot. */
  ghost predicate KindHistory(log: seq<Event>, outbox: set<Note>, wire: set<Note>, offered: seq<Note>, base: nat) {
    && AscendsByKind(offered)
    && (forall m, n :: m in offered && n in wire && SameKind(m, n) ==> m.version < n.version)
    && (forall m, n :: Genuine(log, m) && n in outbox && SameKind(m, n) ==> m.version <= n.version)
    && (forall m, n :: (n in wire || n in offered) && Genuine(log, m) && SameKind(m, n) && m.version > n.version ==>
          m.version >= base)
  }

  ghost predicate KindHistoryInv(s: State) {
    KindHistory(s.log, s.outbox, s.wire, s.flow.offered, s.base)
  }

  lemma GenuineNotesDiffer(log: seq<Event>, m: Note, n: Note)
    requires Genuine(log, m) && Genuine(log, n) && m != n
    ensures m.version != n.version
  {
  }

  lemma HistoryCommit(s: State, op: Op)
    requires PlaceInv(s) && PhaseInv(s) && KindHistoryInv(s) && Enabled(s, Commit(op))
    ensures KindHistoryInv(Step(s, Commit(op)))
  {
    hide Exec, Announcement, Replay;
    CommitShape(s, op);
    var s' := Step(s, Commit(op));
    assert forall m :: Genuine(s'.log, m) ==> Genuine(s.log, m) || m.version == |s.log|;
    assert forall m :: Genuine(s.log, m) ==> m.version < |s.log|;
  }

  lemma HistoryPublish(s: State, n: Note)
    requires PlaceInv(s) && KindHistoryInv(s) && n in s.outbox
    ensures KindHistory(s.log, s.outbox - {n}, s.wire + {n}, s.flow.offered, s.base)
  {
    forall m | m in s.flow.offered && SameKind(m, n) ensures m.version < n.version {
      assert Genuine(s.log, m) && Genuine(s.log, n);
    }
  }

  lemma HistoryDeliver(s: State, n: Note)
    requires PlaceInv(s) && KindHistoryInv(s) && Enabled(s, Deliver(n))
    ensures KindHistory(s.log, s.outbox, s.wire - {n}, s.flow.offered + [n], s.base)
  {
    forall m | m in s.wire - {n} && SameKind(m, n) ensures n.version < m.version {
      assert Genuine(s.log, m) && Genuine(s.log, n);
    }
  }

  /** Notes lost, or moved about inside, leave the rest in order. */
  lemma HistoryShrinks(log: seq<Event>, outbox: set<Note>, wire: set<Note>, outbox': set<Note>, wire': set<Note>,
                       offered: seq<Note>, base: nat)
    requires KindHistory(log, outbox, wire, offered, base) && outbox' <= outbox && wire' <= wire
    ensures KindHistory(log, outbox', wire', offered, base)
  {
  }

  lemma HistoryInstall(s: State)
    requires PhaseInv(s) && KindHistoryInv(s) && Enabled(s, InstallSnapshot)
    ensures KindHistoryInv(Step(s, InstallSnapshot))
  {
  }

  lemma OthersOnlyShrink(s: State, l: Label)
    requires Enabled(s, l) && !l.Commit? && !l.Publish? && !l.Deliver? && !l.InstallSnapshot?
    ensures var s' := Step(s, l);
      && s'.log == s.log && s'.base == s.base && s'.flow.offered == s.flow.offered
      && s'.outbox <= s.outbox && s'.wire <= s.wire
  {
    hide Exec, Announcement, Replay, Apply;
  }

  lemma HistoryStep(s: State, l: Label)
    requires PlaceInv(s) && PhaseInv(s) && KindHistoryInv(s) && Enabled(s, l)
    ensures KindHistoryInv(Step(s, l))
  {
    hide KindHistory, Exec, Announcement, Replay, Places, FlowStep;
    match l
    case Commit(op) => HistoryCommit(s, op);
    case Publish(n) =>
      HistoryPublish(s, n);
      HistoryShrinks(s.log, s.outbox, s.wire, s.outbox - {n}, s.wire, s.flow.offered, s.base);
    case Deliver(n) =>
      HistoryDeliver(s, n);
      assert FlowStep(s.flow, Offer(n)).offered == s.flow.offered + [n] by { OfferIsOffered(s.flow, n); }
    case InstallSnapshot => HistoryInstall(s);
    case _ =>
      var s' := Step(s, l);
      OthersOnlyShrink(s, l);
      HistoryShrinks(s.log, s.outbox, s.wire, s'.outbox, s'.wire, s.flow.offered, s.base);
  }

  lemma OfferIsOffered(f: Flow<Note>, n: Note)
    ensures FlowStep(f, Offer(n)).offered == f.offered + [n]
  {
  }

  lemma {:induction false} RunKeepsHistory(s: State, run: seq<Label>)
    requires Inv(s) && KindHistoryInv(s) && Legal(s, run)
    ensures KindHistoryInv(After(s, run))
    decreases run
  {
    hide Step, Enabled, KindHistoryInv;
    if run == [] {
    } else {
      StepKeepsInv(s, run[0]);
      HistoryStep(s, run[0]);
      RunKeepsHistory(Step(s, run[0]), run[1..]);
    }
  }

  lemma StartHistory()
    ensures KindHistoryInv(Start())
  {
  }

  lemma ReachableHistory(s: State)
    requires Reachable(s)
    ensures KindHistoryInv(s)
  {
    hide Step, Enabled, Inv;
    StartHistory();
    var run :| Legal(Start(), run) && After(Start(), run) == s;
    StartIsGood();
    RunKeepsHistory(Start(), run);
  }

  /** Events of one kind reach the pipeline in commit order, in every reachable state: those
      offered have ascending versions, and those on the wire or in the outbox are later still. */
  lemma SingleKindArrivesInOrder(s: State)
    requires Reachable(s)
    ensures AscendsByKind(s.flow.offered)
    ensures forall m, n :: m in s.flow.offered && n in s.wire && SameKind(m, n) ==> m.version < n.version
    ensures forall m, n :: (m in s.flow.offered || m in s.wire) && n in s.outbox && SameKind(m, n) ==>
              m.version < n.version
  {
    ReachableIsGood(s);
    ReachableHistory(s);
    forall m, n | (m in s.flow.offered || m in s.wire) && n in s.outbox && SameKind(m, n)
      ensures m.version < n.version
    {
      assert Genuine(s.log, m) && Genuine(s.log, n);
      assert m != n;
      GenuineNotesDiffer(s.log, m, n);
    }
  }

  // ---------------------------------------------------------------------------------------
  // Users with notes of one kind

  /** What the client can hear about the user, and the user's newest commit, are of one kind. */
  ghost predicate OneKind(s: State, u: Id, k: Kind) {
    && (forall n :: n in Mine(s.flow.offered, u) || n in Undelivered(s, u) ==> n.event.Kind() == k)
    && (Newest(s.log, u) > 0 ==> s.log[Newest(s.log, u) - 1].Kind() == k)
  }

  lemma {:induction false} MineOfOneKindAscends(offered: seq<Note>, u: Id, k: Kind)
    requires AscendsByKind(offered)
    requires forall n :: n in Mine(offered, u) ==> n.event.Kind() == k
    ensures Ascending(Mine(offered, u))
  {
    if offered == [] {
    } else {
      var front, last := offered[..|offered| - 1], offered[|offered| - 1];
      MineMembers(front, u);
      MineMembers(offered, u);
      assert offered == front + [last];
      MineOfOneKindAscends(front, u, k);
      MineAfterApply(front, last, u);
      hide Mine;
      forall m | m in Mine(front, u) && last.event.Target() == u ensures m.version < last.version {
        assert m in front && last in Mine(offered, u) && m in Mine(offered, u);
        assert SameKind(m, last);
      }
    }
  }

  lemma OneKindIsInOrder(s: State, u: Id, k: Kind)
    requires Reachable(s) && OneKind(s, u, k)
    ensures InOrder(s, u)
  {
    SingleKindArrivesInOrder(s);
    MineOfOneKindAscends(s.flow.offered, u, k);
    MineMembers(s.flow.offered, u);
    hide Mine;
    forall m, n | m in Mine(s.flow.offered, u) && n in Undelivered(s, u) ensures m.version < n.version {
      assert SameKind(m, n);
    }
  }

  /** If the newest note was lost, from before the snapshot, no older one was ever heard, and none
      is to come. */
  lemma NothingBehindLost(s: State, u: Id, k: Kind, newest: Note)
    requires PlaceInv(s) && KindHistoryInv(s) && OneKind(s, u, k)
    requires Genuine(s.log, newest) && newest.event.Target() == u && newest.version + 1 == Newest(s.log, u)
    requires newest.version < s.base && newest !in Undelivered(s, u)
    ensures Undelivered(s, u) == {}
    ensures forall m :: m in s.flow.offered && m.event.Target() == u ==> m == newest
  {
    GenuineIsNotNewer(s, u);
    MineMembers(s.flow.offered, u);
    hide Mine, Newest;
    assert newest.event.Kind() == k;
    forall m | m in s.flow.offered && m.event.Target() == u ensures m == newest {
      assert Genuine(s.log, m) && m in Mine(s.flow.offered, u) && SameKind(newest, m);
    }
    assert forall m :: m in Undelivered(s, u) ==> Genuine(s.log, m) && SameKind(newest, m) && m != newest;
  }

  lemma DroppedIsNotThrough(s: State, n: Note)
    requires PlaceInv(s) && FlowInv(s.flow) && n in s.flow.dropped
    ensures n !in Through(s.flow)
  {
    if n in Through(s.flow) {
      assert multiset(s.flow.offered)[n] >= 2;
      NoRepeatsCounts(s.flow.offered, n);
      assert false;
    }
  }

  lemma NothingInside(s: State, u: Id)
    requires forall n :: n in Through(s.flow) ==> n.event.Target() != u
    ensures Queued(s, u) == [] && Mine(s.flow.applied, u) == []
  {
    MineMembers(s.flow.applied, u);
    MineMembers(s.flow.pipe.Contents(), u);
    NonEmptyHasMember(Queued(s, u));
    NonEmptyHasMember(Mine(s.flow.applied, u));
  }

  lemma LostNewestIsAccounted(s: State, u: Id, k: Kind, newest: Note)
    requires Inv(s) && KindHistoryInv(s) && OneKind(s, u, k) && u !in s.tainted && NoneLostSince(s, u)
    requires Genuine(s.log, newest) && newest.event.Target() == u && newest.version + 1 == Newest(s.log, u)
    requires WasLost(s, newest)
    ensures Accounted(s, u)
  {
    hide Mine, Newest, Pipe.Contents, StoreInv, LivesInv, KindOrderInv, PhaseInv, ProvenanceInv, Through;
    assert newest.version < s.base;
    assert newest !in Undelivered(s, u) by {
      if newest in s.flow.dropped { DroppedWasOffered(s.flow, newest); }
    }
    NothingBehindLost(s, u, k, newest);
    forall n | n in Through(s.flow) ensures n.event.Target() != u {
      ThroughWasOffered(s.flow, n);
      if n == newest && newest in s.flow.dropped { DroppedIsNotThrough(s, newest); }
    }
    NothingInside(s, u);
    LastAppliedOf(s.flow.applied, s.base, u);
  }

  lemma DroppedWasOffered(f: Flow<Note>, n: Note)
    requires FlowInv(f) && n in f.dropped
    ensures n in f.offered
  {
    assert multiset(f.dropped)[n] > 0;
    assert multiset(f.offered)[n] > 0;
  }

  /** Per-user convergence with no assumption about order: if nothing of the user was lost since
      the snapshot and no disturbed fill has set the user's entry, then a user whose notes are of one kind is
      accounted for in every reachable state, and agrees once nothing is pending. */
  lemma SingleKindConverges(s: State, u: Id, k: Kind)
    requires Reachable(s) && u !in s.tainted && NoneLostSince(s, u) && OneKind(s, u, k)
    ensures Accounted(s, u)
    ensures !Pending(s, u) ==> Lookup(s.cache, u) == Live(s, u)
  {
    ReachableIsGood(s);
    ReachableHistory(s);
    OneKindAccounts(s, u, k);
    if !Pending(s, u) { SettledAgrees(s, u); }
  }

  lemma OneKindAccounts(s: State, u: Id, k: Kind)
    requires Reachable(s) && Inv(s) && KindHistoryInv(s)
    requires u !in s.tainted && NoneLostSince(s, u) && OneKind(s, u, k)
    ensures Accounted(s, u)
  {
    hide Mine, Newest, Pipe.Contents, Through, Subsequence;
    hide StoreInv, LivesInv, KindOrderInv, PhaseInv, ProvenanceInv, KindHistoryInv;
    var n := Newest(s.log, u);
    if n == 0 {
      NothingCommitted(s, u);
    } else {
      var newest := Note(n - 1, s.log[n - 1]);
      NewestIsNewest(s.log, u);
      assert Genuine(s.log, newest);
      OneKindIsInOrder(s, u, k);
      if WasLost(s, newest) {
        LostNewestIsAccounted(s, u, k, newest);
      } else if newest !in Undelivered(s, u) {
        MineMembers(s.flow.offered, u);
        NewestWentInLast(s, u, newest);
        assert Seen(s, u) >= LastApplied(s.flow.applied, s.base, u);
        LastInsideAccounts(s, u);
      }
    }
  }

  lemma NothingCommitted(s: State, u: Id)
    requires Inv(s) && Newest(s.log, u) == 0
    ensures Accounted(s, u)
  {
    hide Mine, Newest, Pipe.Contents, StoreInv, LivesInv, KindOrderInv, PhaseInv, ProvenanceInv, Through, Subsequence;
    GenuineIsNotNewer(s, u);
    forall n | n in Through(s.flow) ensures n.event.Target() != u {
      ThroughWasOffered(s.flow, n);
      assert Genuine(s.log, n);
    }
    NothingInside(s, u);
    assert forall n :: n in Undelivered(s, u) ==> Genuine(s.log, n);
  }
}
