/** Convergence over whole runs, from conditions on the run alone. */
module CleanRuns {
  import opened Sequences
  import opened Users
  import opened UserTable
  import opened Journal
  import opened Service
  import opened Pipeline
  import opened Replica
  import opened Convergence
  import opened Harmlessness

  /** A step that is clean for a user: it loses no note of the user, delivers the user's notes
      oldest first, and sets the user's entry from a miss only if no event about the user was
      applied since the miss read the store. */
  ghost predicate Clean(s: State, u: Id, l: Label) {
    && !About(LostOnTheWay(s, l), u)
    && !About(DroppedByBridge(s, l), u)
    && (l.Deliver? && l.note.event.Target() == u ==> forall m :: m in Undelivered(s, u) ==> l.note.version <= m.version)
    && (l.FillSet? && l.request in s.fills && s.fills[l.request].user.userId == u ==> s.fills[l.request].undisturbed)
    && !l.InstallSnapshot?
  }

  ghost predicate CleanRun(s: State, u: Id, run: seq<Label>)
    requires Legal(s, run)
    decreases run
  {
    run == [] || (Clean(s, u, run[0]) && CleanRun(Step(s, run[0]), u, run[1..]))
  }

  /** An undisturbed fill either read the user's newest commit, or something is still pending
      that will replace what it sets. */
  ghost predicate FillsCovered(s: State, u: Id) {
    forall r :: r in s.fills && s.fills[r].user.userId == u && s.fills[r].undisturbed ==>
      Pending(s, u) || s.fills[r].at >= Newest(s.log, u)
  }

  lemma CleanIsHarmless(s: State, u: Id, l: Label)
    requires PlaceInv(s) && FillsCovered(s, u) && Enabled(s, l) && Clean(s, u, l)
    ensures Harmless(s, u, l)
  {
    hide Mine, Newest;
    if l.Deliver? && l.note.event.Target() == u && IsNewest(s, l.note) {
      var n := l.note;
      forall m | m in Undelivered(s, u) ensures m == n {
        assert Genuine(s.log, m) && Genuine(s.log, n);
        NewestIsAfter(s, m);
      }
      assert n in Undelivered(s, u);
    }
  }

  lemma CoverCarriesOver(s: State, s': State, u: Id)
    requires FillsCovered(s, u) && s'.log == s.log && (Pending(s, u) ==> Pending(s', u))
    requires forall r :: r in s'.fills ==>
               (r in s.fills && s'.fills[r] == s.fills[r]) || s'.fills[r].at >= Newest(s.log, u)
    ensures FillsCovered(s', u)
  {
  }

  lemma PendingSurvives(s: State, u: Id, l: Label)
    requires s.outbox !! s.wire && PhaseInv(s) && Enabled(s, l) && Clean(s, u, l) && !l.Commit? && l != Internal(Finish)
    ensures Pending(s, u) ==> Pending(Step(s, l), u)
  {
    hide Mine, Newest;
    if LostOnTheWay(s, l).Some? {
      StandingAfterLoss(s, u, l);
      assert Undelivered(s, u) - {LostOnTheWay(s, l).value} == Undelivered(s, u);
    } else if l.Deliver? {
      StandingAfterDelivery(s, u, l.note);
    } else if l == Internal(Put) && |s.flow.pipe.updateCh| >= CAPACITY {
      StandingAfterBridgeDrop(s, u);
    } else if l.FillSet? {
      StandingAfterSet(s, u, l);
    } else {
      QuietStandsStill(s, u, l);
    }
  }

  /** A miss fill, once read, stays covered as long as it stays undisturbed, even while other
      events of the user are queued. */
  lemma FillsStayCovered(s: State, u: Id, l: Label)
    requires s.outbox !! s.wire && PhaseInv(s) && FillsCovered(s, u) && Enabled(s, l) && Clean(s, u, l)
    ensures FillsCovered(Step(s, l), u)
  {
    hide Mine, Newest, FillsCovered;
    if l.Commit? {
      CommitKeepsCovered(s, u, l.op);
    } else if l == Internal(Finish) {
      ApplyKeepsCovered(s, u);
    } else {
      PendingSurvives(s, u, l);
      CoverCarriesOver(s, Step(s, l), u);
    }
  }

  lemma CommitKeepsCovered(s: State, u: Id, op: Op)
    requires FillsCovered(s, u) && Enabled(s, Commit(op))
    ensures FillsCovered(Step(s, Commit(op)), u)
  {
    hide Mine, Newest, Exec, Announcement, Replay;
    var s' := Step(s, Commit(op));
    CommitShape(s, op);
    var events := Announcement(op, Exec(s.table, op).1);
    if events == [] {
      assert s'.log == s.log && s'.outbox == s.outbox;
      assert Undelivered(s', u) == Undelivered(s, u);
    } else if events[0].Target() == u {
      assert Note(|s.log|, events[0]) in Undelivered(s', u);
    } else {
      NewestAfterCommit(s.log, events[0], u);
      assert Undelivered(s', u) == Undelivered(s, u);
    }
  }

  lemma ApplyKeepsCovered(s: State, u: Id)
    requires FillsCovered(s, u) && Enabled(s, Internal(Finish))
    ensures FillsCovered(Step(s, Internal(Finish)), u)
  {
    hide Mine, Newest, Apply;
    var s', n := Step(s, Internal(Finish)), s.flow.pipe.working.value;
    StandingAfterApply(s, u);
    if n.event.Target() != u {
      assert Undelivered(s', u) == Undelivered(s, u) && Queued(s', u) == Queued(s, u);
    }
  }

  /** Convergence over runs: a user accounted for at the start of a clean run is accounted for
      at its end, so there replaying what is pending gives the live record, and with nothing
      pending cache and store agree on the user. */
  lemma {:induction false} CleanRunsConverge(s: State, u: Id, run: seq<Label>)
    requires Inv(s) && Accounted(s, u) && FillsCovered(s, u)
    requires Legal(s, run) && CleanRun(s, u, run)
    ensures Accounted(After(s, run), u) && FillsCovered(After(s, run), u)
    ensures !Pending(After(s, run), u) ==> Lookup(After(s, run).cache, u) == Live(After(s, run), u)
    decreases run
  {
    if run == [] {
      if !Pending(s, u) { SettledAgrees(s, u); }
    } else {
      var l := run[0];
      CleanIsHarmless(s, u, l);
      AccountedAfterStepIff(s, u, l);
      FillsStayCovered(s, u, l);
      StepKeepsInv(s, l);
      CleanRunsConverge(Step(s, l), u, run[1..]);
    }
  }

  /** Where accounting can begin: exactly when the snapshot that has just been installed has
      the user's newest commit and none of the user's notes is still to come, or when the note
      of the newest commit is still to come. The gap between snapshot and subscription is what
      breaks this. */
  lemma AccountedAtInstallIff(s: State, u: Id)
    requires Inv(s) && s.phase.Fetched?
    ensures var s', n := Step(s, InstallSnapshot), Newest(s.log, u);
      && FillsCovered(s', u)
      && (Accounted(s', u) <==>
            if Undelivered(s, u) == {} then s.phase.at >= n
            else n > 0 && Note(n - 1, s.log[n - 1]) in s.outbox)
  {
    hide Mine, Newest, Pipe.Contents, Covered, StandingOf, Undelivered, Queued, Step, FillsCovered;
    hide StoreInv, LivesInv, PlaceInv, KindOrderInv, FlowInv, ProvenanceInv, SeenInv;
    StandingAfterSet(s, u, InstallSnapshot);
    NothingQueuedYet(s, u);
    StandingParts(s, u);
    CoveredWithNothingQueued(StandingOf(s, u), u, s.phase.at);
    if Newest(s.log, u) > 0 { NewestNoteToCome(s, u); }
    NoFillsYet(s, u);
  }

  lemma StandingParts(s: State, u: Id)
    ensures var x := StandingOf(s, u);
      x.log == s.log && x.undelivered == Undelivered(s, u) && x.queued == Queued(s, u)
  {
  }

  lemma CoveredWithNothingQueued(x: Standing, u: Id, at: nat)
    requires x.queued == []
    ensures Covered(x.(seen := at), u) <==>
            var n := Newest(x.log, u);
            if x.undelivered == {} then at >= n else n > 0 && Note(n - 1, x.log[n - 1]) in x.undelivered
  {
  }

  /** From the snapshot on: a user for whom accounting can begin there, and whose run from there is
      clean, is accounted for, and agrees whenever nothing is pending. */
  lemma InstalledThenClean(s: State, u: Id, run: seq<Label>)
    requires Reachable(s) && s.phase.Fetched?
    requires if Undelivered(s, u) == {} then s.phase.at >= Newest(s.log, u)
             else Newest(s.log, u) > 0 && Note(Newest(s.log, u) - 1, s.log[Newest(s.log, u) - 1]) in s.outbox
    requires Legal(Step(s, InstallSnapshot), run) && CleanRun(Step(s, InstallSnapshot), u, run)
    ensures var t := After(Step(s, InstallSnapshot), run);
      Accounted(t, u) && (!Pending(t, u) ==> Lookup(t.cache, u) == Live(t, u))
  {
    hide Step, Newest, Mine, Undelivered, Pending, Accounted, CleanRun, Legal, After, FillsCovered, Live, Inv;
    ReachableIsGood(s);
    AccountedAtInstallIff(s, u);
    StepKeepsInv(s, InstallSnapshot);
    CleanRunsConverge(Step(s, InstallSnapshot), u, run);
  }

  lemma NothingQueuedYet(s: State, u: Id)
    requires PhaseInv(s) && s.phase.Fetched?
    ensures Queued(s, u) == [] && s.wire == {}
  {
  }

  lemma NewestNoteToCome(s: State, u: Id)
    requires s.wire == {} && Newest(s.log, u) > 0
    ensures var newest := Note(Newest(s.log, u) - 1, s.log[Newest(s.log, u) - 1]);
      newest in Undelivered(s, u) <==> newest in s.outbox
  {
    NewestIsNewest(s.log, u);
  }

  lemma NoFillsYet(s: State, u: Id)
    requires PhaseInv(s) && s.phase.Fetched?
    ensures FillsCovered(Step(s, InstallSnapshot), u)
  {
  }

  // ---------------------------------------------------------------------------------------
  // Convergence read off the histories of a reachable state

  ghost predicate Ascending(ns: seq<Note>) {
    forall i, j :: 0 <= i < j < |ns| ==> ns[i].version < ns[j].version
  }

  ghost predicate WasLost(s: State, n: Note) {
    n in s.lost || n in s.flow.dropped
  }

  /** Since the snapshot no note of the user was lost. */
  ghost predicate NoneLostSince(s: State, u: Id) {
    forall n :: WasLost(s, n) && n.event.Target() == u ==> n.version < s.base
  }

  /** The user's notes reach the pipeline in commit order, and those still to come are later than
      those that came. */
  ghost predicate InOrder(s: State, u: Id) {
    && Ascending(Mine(s.flow.offered, u))
    && (forall m, n :: m in Mine(s.flow.offered, u) && n in Undelivered(s, u) ==> m.version < n.version)
  }

  /** And none of them is from before the snapshot. */
  ghost predicate ArrivesInOrder(s: State, u: Id) {
    && InOrder(s, u)
    && (forall n :: n in Mine(s.flow.offered, u) || n in Undelivered(s, u) ==> n.version >= s.base)
  }

  lemma {:induction false} SubsequenceMembers<T>(a: seq<T>, b: seq<T>)
    requires Subsequence(a, b)
    ensures forall x :: x in a ==> x in b
    decreases b
  {
    if a == [] {
    } else {
      var b' := b[..|b| - 1];
      assert b == b' + [b[|b| - 1]];
      if a[|a| - 1] == b[|b| - 1] && Subsequence(a[..|a| - 1], b') {
        SubsequenceMembers(a[..|a| - 1], b');
        assert a == a[..|a| - 1] + [a[|a| - 1]];
      } else {
        SubsequenceMembers(a, b');
      }
    }
  }

  lemma {:induction false} SubsequenceAscends(a: seq<Note>, b: seq<Note>)
    requires Subsequence(a, b) && Ascending(b)
    ensures Ascending(a)
    decreases b
  {
    if a == [] {
    } else {
      var b' := b[..|b| - 1];
      if a[|a| - 1] == b[|b| - 1] && Subsequence(a[..|a| - 1], b') {
        var a' := a[..|a| - 1];
        SubsequenceAscends(a', b');
        SubsequenceMembers(a', b');
        forall i | 0 <= i < |a'| ensures a'[i].version < b[|b| - 1].version {
          assert a'[i] in b';
        }
      } else {
        SubsequenceAscends(a, b');
      }
    }
  }

  lemma {:induction false} SubsequenceMine(a: seq<Note>, b: seq<Note>, u: Id)
    requires Subsequence(a, b)
    ensures Subsequence(Mine(a, u), Mine(b, u))
    decreases b
  {
    if a == [] {
    } else {
      var b', last := b[..|b| - 1], b[|b| - 1];
      if a[|a| - 1] == last && Subsequence(a[..|a| - 1], b') {
        SubsequenceMine(a[..|a| - 1], b', u);
        SubsequenceGrows(Mine(a[..|a| - 1], u), Mine(b', u), last);
      } else {
        SubsequenceMine(a, b', u);
        SubsequenceGrows(Mine(a, u), Mine(b', u), last);
      }
    }
  }

  /** The user's notes that went through or are inside, in commit order. */
  lemma ThroughAscends(s: State, u: Id)
    requires FlowInv(s.flow) && Ascending(Mine(s.flow.offered, u))
    ensures Ascending(Mine(s.flow.applied, u) + Queued(s, u))
    ensures forall n :: n in Mine(s.flow.applied, u) + Queued(s, u) ==> n in Mine(s.flow.offered, u)
  {
    SubsequenceMine(Through(s.flow), s.flow.offered, u);
    SubsequenceAscends(Mine(Through(s.flow), u), Mine(s.flow.offered, u));
    SubsequenceMembers(Mine(Through(s.flow), u), Mine(s.flow.offered, u));
    MineConcat(s.flow.applied, s.flow.pipe.Contents(), u);
  }

  lemma OfferedIsThroughOrDropped(f: Flow<Note>, n: Note)
    requires FlowInv(f) && n in f.offered
    ensures n in Through(f) || n in f.dropped
  {
    assert multiset(f.offered)[n] > 0;
  }

  lemma LastOfAscending(ns: seq<Note>, n: Note)
    requires Ascending(ns) && n in ns && forall m :: m in ns ==> m.version <= n.version
    ensures ns[|ns| - 1].version == n.version
  {
  }

  lemma GenuineIsNotNewer(s: State, u: Id)
    ensures forall m :: Genuine(s.log, m) && m.event.Target() == u ==> m.version < Newest(s.log, u)
  {
    forall m | Genuine(s.log, m) && m.event.Target() == u ensures m.version < Newest(s.log, u) {
      NewestIsAfter(s, m);
    }
  }

  /** The note of a user's newest commit, if it was offered, is later than any undelivered one
      and, unless it was dropped, is the last of the user's notes to go in. */
  lemma NewestWentInLast(s: State, u: Id, newest: Note)
    requires PlaceInv(s) && FlowInv(s.flow) && InOrder(s, u) && newest !in s.flow.dropped
    requires newest in Mine(s.flow.offered, u) && newest.version + 1 == Newest(s.log, u)
    ensures Undelivered(s, u) == {}
    ensures var inside := Mine(s.flow.applied, u) + Queued(s, u);
      inside != [] && inside[|inside| - 1].version == newest.version
  {
    hide Newest, Mine, Queued, Through, FlowInv;
    GenuineIsNotNewer(s, u);
    MineMembers(s.flow.offered, u);
    assert forall m :: m in Undelivered(s, u) ==> Genuine(s.log, m);
    OfferedIsThroughOrDropped(s.flow, newest);
    InsideIsThrough(s, u);
    ThroughAscends(s, u);
    var inside := Mine(s.flow.applied, u) + Queued(s, u);
    assert newest in inside;
    assert forall m :: m in inside ==> m in s.flow.offered && Genuine(s.log, m);
    LastOfAscending(inside, newest);
  }

  lemma InsideIsThrough(s: State, u: Id)
    ensures forall n :: n in Mine(s.flow.applied, u) + Queued(s, u) <==> n in Through(s.flow) && n.event.Target() == u
  {
    hide Mine, Pipe.Contents;
    MineMembers(Through(s.flow), u);
    MineConcat(s.flow.applied, s.flow.pipe.Contents(), u);
  }

  lemma NewestIsSomewhere(s: State, u: Id)
    requires PlaceInv(s) && NoneLostSince(s, u) && Newest(s.log, u) > s.base
    ensures var newest := Note(Newest(s.log, u) - 1, s.log[Newest(s.log, u) - 1]);
      newest !in s.flow.dropped && (newest in Undelivered(s, u) || newest in Mine(s.flow.offered, u))
  {
    var newest := Note(Newest(s.log, u) - 1, s.log[Newest(s.log, u) - 1]);
    NewestIsNewest(s.log, u);
    MineMembers(s.flow.offered, u);
    assert Genuine(s.log, newest);
    assert !WasLost(s, newest);
  }

  /** Per-user convergence, in every reachable state and from its histories alone: if no note of
      the user was lost since the snapshot, the user's notes come in commit order, and no fill set
      the user's entry after being disturbed, then the user is accounted for. So
      `AccountedConverges` and `SettledAgrees` apply, whatever happened to other users and
      whatever fills are in flight. */
  lemma HistoryConverges(s: State, u: Id)
    requires Reachable(s) && u !in s.tainted && NoneLostSince(s, u) && ArrivesInOrder(s, u)
    ensures Accounted(s, u)
    ensures !Pending(s, u) ==> Lookup(s.cache, u) == Live(s, u)
  {
    ReachableIsGood(s);
    HistoryAccounts(s, u);
    if !Pending(s, u) { SettledAgrees(s, u); }
  }

  lemma HistoryAccounts(s: State, u: Id)
    requires PlaceInv(s) && FlowInv(s.flow) && SeenInv(s)
    requires u !in s.tainted && NoneLostSince(s, u) && ArrivesInOrder(s, u)
    ensures Accounted(s, u)
  {
    hide Mine, Newest, Pipe.Contents, Through, Subsequence;
    assert Seen(s, u) >= LastApplied(s.flow.applied, s.base, u);
    var n := Newest(s.log, u);
    if n <= s.base {
      NothingSinceSnapshot(s, u);
    } else {
      NewestIsSomewhere(s, u);
      var newest := Note(n - 1, s.log[n - 1]);
      if newest !in Undelivered(s, u) {
        NewestWentInLast(s, u, newest);
        LastInsideAccounts(s, u);
      }
    }
  }

  lemma LastInsideAccounts(s: State, u: Id)
    requires Undelivered(s, u) == {} && Seen(s, u) >= LastApplied(s.flow.applied, s.base, u)
    requires var inside := Mine(s.flow.applied, u) + Queued(s, u);
      inside != [] && inside[|inside| - 1].version + 1 == Newest(s.log, u)
    ensures Accounted(s, u)
  {
    LastOfConcat(Mine(s.flow.applied, u), Queued(s, u));
    LastAppliedOf(s.flow.applied, s.base, u);
    hide Mine, Newest, Pipe.Contents, LastApplied;
  }

  lemma LastAppliedOf(applied: seq<Note>, base: nat, u: Id)
    ensures Mine(applied, u) != [] ==>
              LastApplied(applied, base, u) == Mine(applied, u)[|Mine(applied, u)| - 1].version + 1
    ensures Mine(applied, u) == [] ==> LastApplied(applied, base, u) == base
  {
  }

  lemma LastOfConcat(a: seq<Note>, b: seq<Note>)
    ensures if b == [] then a + b == a else (a + b)[|a + b| - 1] == b[|b| - 1]
  {
  }

  lemma NothingSinceSnapshot(s: State, u: Id)
    requires PlaceInv(s) && FlowInv(s.flow) && ArrivesInOrder(s, u) && Newest(s.log, u) <= s.base
    ensures Undelivered(s, u) == {} && Queued(s, u) == [] && Mine(s.flow.applied, u) == []
  {
    GenuineIsNotNewer(s, u);
    MineMembers(s.flow.offered, u);
    assert forall n :: n in Undelivered(s, u) ==> Genuine(s.log, n);
    ThroughAscends(s, u);
    var inside := Mine(s.flow.applied, u) + Queued(s, u);
    NonEmptyHasMember(inside);
    assert forall n :: n in inside ==> n in s.flow.offered && Genuine(s.log, n);
  }

  // ---------------------------------------------------------------------------------------
  // The whole cache at once

  /** Nothing was lost since the snapshot, delivery follows commit order from the snapshot on,
      and no fill interfered. */
  ghost predicate Lockstep(s: State) {
    && s.filled == {}
    && (forall n :: WasLost(s, n) ==> n.version < s.base)
    && (forall i :: 0 <= i < |s.flow.offered| ==> s.flow.offered[i].version == s.base + i)
  }

  lemma LockstepDropsNothing(s: State)
    requires PlaceInv(s) && FlowInv(s.flow) && Lockstep(s)
    ensures Through(s.flow) == s.flow.offered
  {
    NonEmptyHasMember(s.flow.dropped);
    forall n | n in s.flow.dropped ensures false {
      assert multiset(s.flow.dropped)[n] > 0;
      assert multiset(s.flow.offered)[n] > 0;
      assert n in s.flow.offered;
      assert WasLost(s, n);
    }
    SubsequenceOfSameLength(Through(s.flow), s.flow.offered);
    assert |multiset(s.flow.offered)| == |multiset(Through(s.flow))|;
  }

  lemma LastAppliedOfNone(base: nat, u: Id)
    ensures LastApplied([], base, u) == base
  {
  }

  lemma {:induction false} LastAppliedIsCurrent(log: seq<Event>, applied: seq<Note>, base: nat, u: Id)
    requires base + |applied| <= |log|
    requires forall i :: 0 <= i < |applied| ==> applied[i].version == base + i && Genuine(log, applied[i])
    ensures LastApplied(applied, base, u) <= base + |applied|
    ensures RecordAt(log, LastApplied(applied, base, u), u) == RecordAt(log, base + |applied|, u)
  {
    hide Mine, RecordAt, LastApplied;
    if applied == [] {
      LastAppliedOfNone(base, u);
    } else {
      var front, n := applied[..|applied| - 1], applied[|applied| - 1];
      LastAppliedIsCurrent(log, front, base, u);
      assert front + [n] == applied;
      LastAppliedAfter(front, n, base, u);
      RecordAfterCommit(log, n.version, u);
    }
  }

  lemma LockstepRecord(s: State, u: Id)
    requires Inv(s) && Lockstep(s)
    ensures s.base + |s.flow.applied| <= |s.log|
    ensures Lookup(s.cache, u) == RecordAt(s.log, s.base + |s.flow.applied|, u)
  {
    hide LastApplied, Mine, RecordAt, Subsequence, Balanced, Pipe.Contents;
    hide StoreInv, LivesInv, PlaceInv, KindOrderInv, FlowInv, ProvenanceInv, SeenInv;
    LockstepAppliesInTurn(s);
    UnfilledReflects(s, u);
    LastAppliedIsCurrent(s.log, s.flow.applied, s.base, u);
  }

  /** Snapshot consistency: in lockstep the cache is the live view of the store at one version,
      the snapshot plus the number of events applied, and so never holds two users with one
      email. */
  lemma LockstepIsOneVersion(s: State)
    requires Reachable(s) && Lockstep(s)
    ensures s.base + |s.flow.applied| <= |s.log|
    ensures s.cache == Replay(map[], s.log[..s.base + |s.flow.applied|])
    ensures NoSharedEmail(s.cache)
  {
    hide Reachable, Inv, Lockstep, Replay, NoSharedEmail;
    ReachableIsGood(s);
    LockstepRecord(s, "");
    var k := s.base + |s.flow.applied|;
    forall u ensures Lookup(s.cache, u) == Lookup(Replay(map[], s.log[..k]), u) {
      LockstepRecord(s, u);
    }
    LookupsDetermineView(s.cache, Replay(map[], s.log[..k]));
    NoVersionSharesEmail(s, k);
  }

  lemma NoVersionSharesEmail(s: State, k: nat)
    requires Inv(s) && k <= |s.log|
    ensures NoSharedEmail(Replay(map[], s.log[..k]))
  {
    hide Replay, NoSharedEmail, LivesInv, PlaceInv, KindOrderInv, FlowInv, PhaseInv, ProvenanceInv, SeenInv;
  }

  /** The entry of a user whom no fill has touched is the record at the version last applied. */
  lemma UnfilledReflects(s: State, u: Id)
    requires Inv(s) && u !in s.filled
    ensures LastApplied(s.flow.applied, s.base, u) <= |s.log|
    ensures Lookup(s.cache, u) == RecordAt(s.log, LastApplied(s.flow.applied, s.base, u), u)
  {
    hide LastApplied, RecordAt, StoreInv, LivesInv, PlaceInv, KindOrderInv, FlowInv, PhaseInv;
    assert Seen(s, u) == LastApplied(s.flow.applied, s.base, u);
    assert Lookup(s.cache, u) == RecordAt(s.log, Seen(s, u), u);
  }

  lemma LockstepAppliesInTurn(s: State)
    requires PlaceInv(s) && FlowInv(s.flow) && Lockstep(s) && (s.flow.applied == [] ==> s.base <= |s.log|)
    ensures s.base + |s.flow.applied| <= |s.log|
    ensures forall i :: 0 <= i < |s.flow.applied| ==>
              s.flow.applied[i].version == s.base + i && Genuine(s.log, s.flow.applied[i])
  {
    LockstepDropsNothing(s);
    var applied := s.flow.applied;
    forall i | 0 <= i < |applied| ensures applied[i].version == s.base + i && Genuine(s.log, applied[i]) {
      assert Through(s.flow)[i] == applied[i];
      assert s.flow.offered[i] == applied[i];
    }
    if applied != [] { assert Genuine(s.log, applied[|applied| - 1]); }
  }

  /** Whatever was lost and in whatever order the rest came, the cache is the snapshot with the
      applied events replayed on it in the order in which they were applied, for every user whose
      entry no fill has set. */
  lemma CacheIsReplayOfApplied(s: State)
    requires Reachable(s)
    ensures s.base <= |s.log|
    ensures var replayed := Replay(Replay(map[], s.log[..s.base]), Events(s.flow.applied));
      && (forall u :: u !in s.filled ==> Lookup(s.cache, u) == Lookup(replayed, u))
      && (s.filled == {} ==> s.cache == replayed)
  {
    hide Mine, LastApplied, FlowInv, StoreInv, LivesInv, KindOrderInv;
    ReachableIsGood(s);
    var snapshot := Replay(map[], s.log[..s.base]);
    var replayed := Replay(snapshot, Events(s.flow.applied));
    forall u | u !in s.filled ensures Lookup(s.cache, u) == Lookup(replayed, u) {
      UnfilledReflects(s, u);
      AppliedIsGenuine(s);
      ReplayedRecord(s.log, s.flow.applied, s.base, u);
    }
    if s.filled == {} {
      LookupsDetermineView(s.cache, replayed);
    }
  }

  lemma ReplayedRecord(log: seq<Event>, applied: seq<Note>, base: nat, u: Id)
    requires base <= |log| && forall n :: n in applied ==> Genuine(log, n)
    ensures LastApplied(applied, base, u) <= |log|
    ensures Lookup(Replay(Replay(map[], log[..base]), Events(applied)), u)
         == RecordAt(log, LastApplied(applied, base, u), u)
  {
    var mine := Mine(applied, u);
    MineMembers(applied, u);
    OnlyOfNotes(applied, u);
    LastWriterWins(Replay(map[], log[..base]), Events(applied), u);
    hide Mine, Replay;
    if mine != [] {
      var last := mine[|mine| - 1];
      assert last in mine;
      assert Events(mine)[|mine| - 1] == last.event;
      RecordAfterCommit(log, last.version, u);
    }
  }

  /** Shutdown: when the processor exits it has found its queue empty and holds nothing, so what
      is left in the pipeline is with the bridge alone; and, for every user whose entry no fill has
      set, the cache is the snapshot with all that the processor ever took, in order. */
  lemma AtExit(s: State)
    requires Reachable(s) && Enabled(s, Exit)
    ensures s.base <= |s.log|
    ensures var replayed := Replay(Replay(map[], s.log[..s.base]), Events(AtProcessor(s.flow)));
      && (forall u :: u !in s.filled ==> Lookup(s.cache, u) == Lookup(replayed, u))
      && (s.filled == {} ==> s.cache == replayed)
    ensures s.flow.pipe.Contents() == Held(s.flow.pipe.hand) + s.flow.pipe.eventCh
  {
    CacheIsReplayOfApplied(s);
    assert AtProcessor(s.flow) == s.flow.applied;
  }

  lemma StepOnlyApplies(s: State, l: Label)
    requires Enabled(s, l) && s.phase.Serving?
    ensures Step(s, l).phase.Serving? && Step(s, l).base == s.base
    ensures s.flow.applied <= Step(s, l).flow.applied
  {
    hide Exec, Replay, Announcement;
  }

  /** It never goes back in time: along a run the number of events applied only grows. */
  lemma {:induction false} VersionOnlyGrows(s: State, run: seq<Label>)
    requires Legal(s, run) && s.phase.Serving?
    ensures After(s, run).base == s.base && s.flow.applied <= After(s, run).flow.applied
    decreases run
  {
    hide Step, Enabled;
    if run == [] {
    } else {
      StepOnlyApplies(s, run[0]);
      VersionOnlyGrows(Step(s, run[0]), run[1..]);
    }
  }
}
