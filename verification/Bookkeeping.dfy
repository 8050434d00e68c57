/** What the system keeps about fills, subscriptions and shutdown, told from its runs. */
module Bookkeeping {
  import opened Users
  import opened UserTable
  import opened Journal
  import opened Service
  import opened Pipeline
  import opened Replica

  // ---------------------------------------------------------------------------------------
  // What may happen next

  predicate SameConstructor(e: Event, f: Event) {
    (e.Created? && f.Created?) || (e.Updated? && f.Updated?) || (e.Deleted? && f.Deleted?)
  }

  /** Events of one subject are handed to the client oldest first, and subjects do not wait for each
      other; and a request waits only for the publish of an earlier request of its kind. */
  lemma SubjectsDoNotWait(s: State, n: Note, op: Op)
    ensures Enabled(s, Deliver(n)) <==>
            n in s.wire && forall m :: m in s.wire && SameConstructor(m.event, n.event) ==> n.version <= m.version
    ensures Enabled(s, Commit(op)) <==>
            && (op.Create? ==> op.id !in s.table)
            && (forall m :: m in s.outbox ==>
                  && !(op.Create? && m.event.Created?)
                  && !(op.Update? && m.event.Updated?)
                  && !(op.Delete? && m.event.Deleted?))
  {
  }

  /** Nothing shields an event: at any time its publish may fail, and the wire may lose it. And a
      reader may set what it has read at any time, or never; the snapshot may fail; and a client that
      serves may subscribe, read live users and close whenever it likes. */
  lemma AnythingMayHappen(s: State, n: Note, r: nat, u: Id, k: Kind)
    ensures n in s.outbox ==> Enabled(s, Publish(n)) && Enabled(s, PublishFails(n))
    ensures n in s.wire ==> Enabled(s, WireLoses(n))
    ensures r in s.fills ==> Enabled(s, FillSet(r)) && Enabled(s, FillAbandon(r))
    ensures s.phase.Starting? ==> Enabled(s, FetchSnapshot) && Enabled(s, FetchFails)
    ensures s.phase.Fetched? ==> Enabled(s, InstallSnapshot) && Enabled(s, FetchFails)
    ensures s.phase.Serving? ==> Enabled(s, SubscribeTo(k))
    ensures s.phase.Serving? && r !in s.fills && IsLive(s.table, u) ==> Enabled(s, FillRead(r, u))
    ensures Enabled(s, UnsubscribeFrom(k))
    ensures s.processor.Running? ==> Enabled(s, Stop)
  {
  }

  // ---------------------------------------------------------------------------------------
  // Fills

  /** In the run, an event about the user is applied. */
  ghost predicate AppliesAbout(s: State, run: seq<Label>, u: Id)
    requires Legal(s, run)
    decreases run
  {
    run != [] &&
    (|| (run[0] == Internal(Finish) && s.flow.pipe.working.value.event.Target() == u)
     || AppliesAbout(Step(s, run[0]), run[1..], u))
  }

  /** In the run, a fill sets the user's entry; `onlyDisturbed` asks for one that was disturbed. */
  ghost predicate SetsEntry(s: State, run: seq<Label>, u: Id, onlyDisturbed: bool)
    requires Legal(s, run)
    decreases run
  {
    run != [] &&
    (|| (&& run[0].FillSet? && s.fills[run[0].request].user.userId == u
         && (onlyDisturbed ==> !s.fills[run[0].request].undisturbed))
     || SetsEntry(Step(s, run[0]), run[1..], u, onlyDisturbed))
  }

  /** Whether a request is in flight after a run: reading starts it, setting or giving up ends it. */
  predicate InFlight(before: bool, run: seq<Label>, r: nat)
    decreases run
  {
    if run == [] then before
    else match run[0]
      case FillRead(q, _) => InFlight(before || q == r, run[1..], r)
      case FillSet(q) => InFlight(before && q != r, run[1..], r)
      case FillAbandon(q) => InFlight(before && q != r, run[1..], r)
      case _ => InFlight(before, run[1..], r)
  }

  lemma FlightAfterStep(s: State, l: Label, r: nat)
    requires Enabled(s, l)
    ensures r in Step(s, l).fills <==>
            (r in s.fills && l != FillSet(r) && l != FillAbandon(r)) || (l.FillRead? && l.request == r)
  {
    hide Exec, Announcement, Replay, Apply;
  }

  lemma {:induction false} InFlightIff(s: State, run: seq<Label>, r: nat)
    requires Legal(s, run)
    ensures r in After(s, run).fills <==> InFlight(r in s.fills, run, r)
    decreases run
  {
    hide Step, Enabled;
    if run == [] {
    } else {
      FlightAfterStep(s, run[0], r);
      InFlightIff(Step(s, run[0]), run[1..], r);
    }
  }

  /** The request is neither set nor given up in the run. */
  predicate StaysInFlight(run: seq<Label>, r: nat) {
    forall i :: 0 <= i < |run| ==> run[i] != FillSet(r) && run[i] != FillAbandon(r)
  }

  lemma FillAfterStep(s: State, l: Label, r: nat)
    requires Enabled(s, l) && r in s.fills && l != FillSet(r) && l != FillAbandon(r)
    ensures var f := s.fills[r];
      var disturbs := l == Internal(Finish) && s.flow.pipe.working.value.event.Target() == f.user.userId;
      r in Step(s, l).fills && Step(s, l).fills[r] == f.(undisturbed := f.undisturbed && !disturbs)
  {
    hide Exec, Announcement, Replay, Apply;
  }

  /** A fill in flight keeps what it read, and is disturbed exactly when an event about its user has
      been applied since. */
  lemma {:induction false} DisturbedIff(s: State, run: seq<Label>, r: nat)
    requires Legal(s, run) && r in s.fills && StaysInFlight(run, r)
    ensures var t := After(s, run);
      && r in t.fills && t.fills[r].user == s.fills[r].user && t.fills[r].at == s.fills[r].at
      && (t.fills[r].undisturbed <==> s.fills[r].undisturbed && !AppliesAbout(s, run, s.fills[r].user.userId))
    decreases run
  {
    hide Step, Enabled;
    if run == [] {
    } else {
      FillAfterStep(s, run[0], r);
      assert StaysInFlight(run[1..], r);
      DisturbedIff(Step(s, run[0]), run[1..], r);
    }
  }

  /** A fresh fill is undisturbed, and has the live record. */
  lemma FillReadsLiveRecord(s: State, r: nat, id: Id)
    requires Enabled(s, FillRead(r, id))
    ensures r in Step(s, FillRead(r, id)).fills
    ensures var f := Step(s, FillRead(r, id)).fills[r];
      f.undisturbed && f.at == |s.log| && Lookup(DTOView(s.table), id) == Some(f.user) && f.user.userId == id
  {
  }

  lemma MarksAfterStep(s: State, l: Label, u: Id)
    requires Enabled(s, l)
    ensures u in Step(s, l).filled <==> u in s.filled || (l.FillSet? && s.fills[l.request].user.userId == u)
    ensures u in Step(s, l).tainted <==>
            u in s.tainted || (l.FillSet? && s.fills[l.request].user.userId == u && !s.fills[l.request].undisturbed)
  {
    hide Exec, Announcement, Replay, Apply;
  }

  /** A user counts as filled exactly when a fill has set the entry, and as tainted exactly when a
      disturbed one has. */
  lemma {:induction false} MarkedIff(s: State, run: seq<Label>, u: Id)
    requires Legal(s, run)
    ensures u in After(s, run).filled <==> u in s.filled || SetsEntry(s, run, u, false)
    ensures u in After(s, run).tainted <==> u in s.tainted || SetsEntry(s, run, u, true)
    decreases run
  {
    hide Step, Enabled;
    if run == [] {
    } else {
      MarksAfterStep(s, run[0], u);
      MarkedIff(Step(s, run[0]), run[1..], u);
    }
  }

  // ---------------------------------------------------------------------------------------
  // Subscriptions

  predicate NeverSubscribes(run: seq<Label>, k: Kind) {
    forall i :: 0 <= i < |run| ==> run[i] != SubscribeTo(k)
  }

  lemma UnheardAfterStep(s: State, l: Label, k: Kind)
    requires Enabled(s, l) && k !in s.subscribed && l != SubscribeTo(k)
    ensures k !in Step(s, l).subscribed
    ensures forall n :: n in Step(s, l).wire && n.event.Kind() == k ==> n in s.wire
  {
    hide Exec, Announcement, Replay, Apply;
  }

  /** Between unsubscribing from a subject and subscribing again nothing published on it is heard:
      only what was on the wire already may still come. */
  lemma {:induction false} UnsubscribedHearsNothingNew(s: State, run: seq<Label>, k: Kind)
    requires Legal(s, run) && k !in s.subscribed && NeverSubscribes(run, k)
    ensures forall n :: n in After(s, run).wire && n.event.Kind() == k ==> n in s.wire
    decreases run
  {
    hide Step, Enabled;
    if run == [] {
    } else {
      UnheardAfterStep(s, run[0], k);
      assert NeverSubscribes(run[1..], k);
      UnsubscribedHearsNothingNew(Step(s, run[0]), run[1..], k);
    }
  }

  lemma ClosingUnsubscribes(s: State, run: seq<Label>, k: Kind)
    requires Legal(Step(s, UnsubscribeFrom(k)), run) && NeverSubscribes(run, k)
    ensures forall n :: n in After(Step(s, UnsubscribeFrom(k)), run).wire && n.event.Kind() == k ==> n in s.wire
  {
    UnsubscribedHearsNothingNew(Step(s, UnsubscribeFrom(k)), run, k);
  }

  // ---------------------------------------------------------------------------------------
  // Shutdown

  /** The processor has returned. */
  predicate HasExited(s: State) {
    s.processor.Exited? && s.flow.pipe.working.None?
  }

  lemma ExitedAfterStep(s: State, l: Label)
    requires Enabled(s, l) && HasExited(s)
    ensures HasExited(Step(s, l)) && Step(s, l).flow.applied == s.flow.applied
  {
    hide Exec, Announcement, Replay;
  }

  lemma {:induction false} ExitedForGood(s: State, run: seq<Label>)
    requires Legal(s, run) && HasExited(s)
    ensures HasExited(After(s, run)) && After(s, run).flow.applied == s.flow.applied
    decreases run
  {
    hide Step, Enabled, HasExited;
    if run == [] {
    } else {
      ExitedAfterStep(s, run[0]);
      ExitedForGood(Step(s, run[0]), run[1..]);
    }
  }

  /** Once told to stop, the processor may exit exactly when its queue is empty and it holds nothing;
      and after it has exited no event is ever applied. */
  lemma ExitIsFinal(s: State, run: seq<Label>)
    requires s.processor.Running?
    ensures Enabled(Step(s, Stop), Exit) <==> s.flow.pipe.updateCh == [] && s.flow.pipe.working == None
    ensures Enabled(Step(s, Stop), Exit) && Legal(Step(Step(s, Stop), Exit), run) ==>
              After(Step(Step(s, Stop), Exit), run).flow.applied == s.flow.applied
  {
    var t := Step(s, Stop);
    if Enabled(t, Exit) && Legal(Step(t, Exit), run) {
      ExitedForGood(Step(t, Exit), run);
    }
  }
}
