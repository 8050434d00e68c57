/** Which steps can break a user's convergence: exactly the ones named here. */
module Harmlessness {
  import opened Sequences
  import opened Users
  import opened UserTable
  import opened Journal
  import opened Service
  import opened Pipeline
  import opened Replica
  import opened Convergence

  /** The user's newest commit is the one this note announces. */
  predicate IsNewest(s: State, n: Note) {
    n.version + 1 == Newest(s.log, n.event.Target())
  }

  /** The note that a step loses on its way to the pipeline. */
  function LostOnTheWay(s: State, l: Label): Option<Note> {
    match l
    case Publish(n) => if n.event.Kind() in s.subscribed then None else Some(n)
    case PublishFails(n) => Some(n)
    case WireLoses(n) => Some(n)
    case Deliver(n) => if |s.flow.pipe.eventCh| >= CAPACITY then Some(n) else None
    case _ => None
  }

  /** The note that the bridge drops. */
  function DroppedByBridge(s: State, l: Label): Option<Note> {
    if l == Internal(Put) && |s.flow.pipe.updateCh| >= CAPACITY then s.flow.pipe.hand else None
  }

  predicate About(o: Option<Note>, u: Id) {
    o.Some? && o.value.event.Target() == u
  }

  /** What of the user's is queued on either side of the bridge's hand. */
  function Ahead(s: State, u: Id): seq<Note> {
    Mine(Held(s.flow.pipe.working) + s.flow.pipe.updateCh, u)
  }

  function Behind(s: State, u: Id): seq<Note> {
    Mine(s.flow.pipe.eventCh, u)
  }

  /** A step that leaves user `u` accounted. Losing a note is harmless unless it announces the
      newest commit and the entry does not reflect that commit already; delivering is harmless
      unless the newest note overtakes an older one of the same user; setting a record read
      earlier is harmless if it is recent enough or if something still pending will replace it. */
  ghost predicate Harmless(s: State, u: Id, l: Label) {
    if About(LostOnTheWay(s, l), u) then
      var n := LostOnTheWay(s, l).value;
      IsNewest(s, n) ==> Undelivered(s, u) == {n} && Queued(s, u) == [] && Seen(s, u) >= Newest(s.log, u)
    else if About(DroppedByBridge(s, l), u) then
      || Undelivered(s, u) != {}
      || Behind(s, u) != []
      || (Ahead(s, u) == [] && Seen(s, u) >= Newest(s.log, u))
    else
      match l
      case Deliver(n) => n.event.Target() == u && IsNewest(s, n) ==> Undelivered(s, u) == {n}
      case FillSet(r) =>
        r in s.fills && s.fills[r].user.userId == u ==> Pending(s, u) || s.fills[r].at >= Newest(s.log, u)
      case InstallSnapshot => s.phase.Fetched? ==> Pending(s, u) || s.phase.at >= Newest(s.log, u)
      case _ => true
  }

  /** The notes of a standing announce commits of the user, each of them once. */
  ghost predicate Sound(x: Standing, u: Id) {
    && (forall n :: n in x.undelivered || n in x.queued ==> Genuine(x.log, n) && n.event.Target() == u)
    && (forall n :: n in x.undelivered ==> n !in x.queued)
    && (forall i, j :: 0 <= i < j < |x.queued| ==> x.queued[i] != x.queued[j])
  }

  // ---------------------------------------------------------------------------------------
  // What each step does to a standing, and when that keeps it good

  lemma CoveredAfterLoss(x: Standing, u: Id, n: Note)
    requires Sound(x, u) && Covered(x, u) && n in x.undelivered
    ensures Covered(x.(undelivered := x.undelivered - {n}), u)
       <==> (n.version + 1 == Newest(x.log, u) ==> x.undelivered == {n} && x.queued == [] && x.seen >= Newest(x.log, u))
  {
  }

  lemma CoveredAfterDelivery(x: Standing, u: Id, n: Note)
    requires Sound(x, u) && Covered(x, u) && n in x.undelivered
    ensures Covered(x.(undelivered := x.undelivered - {n}, queued := x.queued + [n]), u)
       <==> (n.version + 1 == Newest(x.log, u) ==> x.undelivered == {n})
  {
  }

  lemma CoveredAfterBridgeDrop(x: Standing, u: Id, left: seq<Note>, n: Note, right: seq<Note>)
    requires Sound(x, u) && Covered(x, u) && x.queued == left + [n] + right
    ensures Covered(x.(queued := left + right), u)
       <==> x.undelivered != {} || right != [] || (left == [] && x.seen >= Newest(x.log, u))
  {
    hide Newest;
    if x.undelivered == {} && right == [] {
      assert x.queued[|x.queued| - 1] == n && left + right == left;
      if left != [] {
        var last := left[|left| - 1];
        assert x.queued[|left| - 1] == last && x.queued[|left|] == n;
        assert last in x.queued && n in x.queued;
      }
    } else if x.undelivered == {} {
      assert x.queued[|x.queued| - 1] == right[|right| - 1] == (left + right)[|left + right| - 1];
    }
  }

  lemma CoveredAfterApply(x: Standing, u: Id, n: Note, rest: seq<Note>)
    requires Covered(x, u) && x.queued == [n] + rest
    ensures Covered(x.(queued := rest, seen := n.version + 1), u)
  {
  }

  lemma CoveredAfterOwnCommit(x: Standing, u: Id, e: Event)
    requires e.Target() == u
    ensures Covered(Standing(x.log + [e], x.undelivered + {Note(|x.log|, e)}, x.queued, x.seen), u)
  {
  }

  lemma CoveredAfterOtherCommit(x: Standing, u: Id, e: Event)
    requires Covered(x, u) && e.Target() != u
    ensures Covered(x.(log := x.log + [e]), u)
  {
  }

  // ---------------------------------------------------------------------------------------
  // From standings to states

  lemma StandingIsSound(s: State, u: Id)
    requires PlaceInv(s) && FlowInv(s.flow)
    ensures Sound(StandingOf(s, u), u)
  {
    var x := StandingOf(s, u);
    forall n | n in x.queued ensures Genuine(s.log, n) && n.event.Target() == u && n !in x.undelivered {
      QueuedIsGenuine(s, u, n);
    }
    OfferedOnce(s, u);
  }

  /** Nothing is queued twice. */
  lemma OfferedOnce(s: State, u: Id)
    requires PlaceInv(s) && FlowInv(s.flow)
    ensures forall i, j :: 0 <= i < j < |Queued(s, u)| ==> Queued(s, u)[i] != Queued(s, u)[j]
  {
    var q := Queued(s, u);
    forall i, j | 0 <= i < j < |q| ensures q[i] != q[j] {
      if q[i] == q[j] {
        TwiceInSeq(q, i, j);
        MineCounts(s.flow.pipe.Contents(), u, q[i]);
        assert multiset(Through(s.flow)) == multiset(s.flow.applied) + multiset(s.flow.pipe.Contents());
        assert multiset(s.flow.offered)[q[i]] >= 2;
        NoRepeatsCounts(s.flow.offered, q[i]);
        assert false;
      }
    }
  }

  lemma TwiceInSeq(q: seq<Note>, i: nat, j: nat)
    requires i < j < |q| && q[i] == q[j]
    ensures multiset(q)[q[i]] >= 2
  {
    assert q == q[..j] + [q[j]] + q[j + 1..];
    assert q[i] == q[..j][i];
    assert q[i] in multiset(q[..j]);
  }

  lemma {:induction false} MineCounts(ns: seq<Note>, u: Id, n: Note)
    ensures multiset(Mine(ns, u))[n] <= multiset(ns)[n]
  {
    if ns == [] {
    } else {
      MineCounts(ns[..|ns| - 1], u, n);
      assert ns == ns[..|ns| - 1] + [ns[|ns| - 1]];
    }
  }

  lemma ContentsMine(s: State, u: Id, a: seq<Note>, n: Note, b: seq<Note>)
    requires s.flow.pipe.Contents() == a + [n] + b
    ensures Queued(s, u) == Mine(a, u) + (if n.event.Target() == u then [n] else []) + Mine(b, u)
  {
    MineConcat(a + [n], b, u);
    MineAfterApply(a, n, u);
  }

  lemma NoneOfNone(u: Id)
    ensures Mine([], u) == []
  {
  }

  lemma StandingAfterCommit(s: State, u: Id, op: Op)
    requires Enabled(s, Commit(op))
    ensures var x, events := StandingOf(s, u), Announcement(op, Exec(s.table, op).1);
      StandingOf(Step(s, Commit(op)), u) ==
      if events == [] then x
      else if events[0].Target() == u then
        Standing(x.log + [events[0]], x.undelivered + {Note(|x.log|, events[0])}, x.queued, x.seen)
      else x.(log := x.log + [events[0]])
  {
    hide Mine, Pipe.Contents, Exec, Announcement;
    CommitShape(s, op);
    var s' := Step(s, Commit(op));
    var events := Announcement(op, Exec(s.table, op).1);
    if events == [] {
      assert s'.log == s.log && s'.outbox == s.outbox;
      assert Undelivered(s', u) == Undelivered(s, u);
    } else if events[0].Target() == u {
      assert Undelivered(s', u) == Undelivered(s, u) + {Note(|s.log|, events[0])};
    } else {
      assert Undelivered(s', u) == Undelivered(s, u);
    }
  }

  lemma CommitIff(s: State, u: Id, op: Op)
    requires Accounted(s, u) && Enabled(s, Commit(op))
    ensures Accounted(Step(s, Commit(op)), u) && Harmless(s, u, Commit(op))
  {
    hide Covered, Mine, Newest, Step, Exec, Announcement, StandingOf;
    StandingAfterCommit(s, u, op);
    var events := Announcement(op, Exec(s.table, op).1);
    if events == [] {
    } else if events[0].Target() == u {
      CoveredAfterOwnCommit(StandingOf(s, u), u, events[0]);
    } else {
      CoveredAfterOtherCommit(StandingOf(s, u), u, events[0]);
    }
  }

  lemma StandingAfterLoss(s: State, u: Id, l: Label)
    requires s.outbox !! s.wire && Enabled(s, l) && LostOnTheWay(s, l).Some?
    ensures var n := LostOnTheWay(s, l).value;
      && n in s.outbox + s.wire
      && StandingOf(Step(s, l), u) == StandingOf(s, u).(undelivered := Undelivered(s, u) - {n})
  {
    hide Mine, Pipe.Contents;
    if l.Deliver? { ContentsAfter(s.flow.pipe, Offer(l.note)); }
  }

  lemma LossIff(s: State, u: Id, l: Label)
    requires s.outbox !! s.wire && Sound(StandingOf(s, u), u) && Accounted(s, u) && Enabled(s, l)
    requires LostOnTheWay(s, l).Some?
    ensures Accounted(Step(s, l), u) <==> Harmless(s, u, l)
  {
    hide Covered, Mine, Newest, Step;
    var n := LostOnTheWay(s, l).value;
    StandingAfterLoss(s, u, l);
    if n.event.Target() == u {
      CoveredAfterLoss(StandingOf(s, u), u, n);
    } else {
      assert Undelivered(s, u) - {n} == Undelivered(s, u);
    }
  }

  lemma DeliveryMovesNote(s: State, n: Note)
    requires Enabled(s, Deliver(n)) && LostOnTheWay(s, Deliver(n)).None?
    ensures var s' := Step(s, Deliver(n));
      && s'.log == s.log && s'.seen == s.seen && s'.base == s.base
      && s'.outbox == s.outbox && s'.wire == s.wire - {n}
      && s'.flow.pipe.Contents() == s.flow.pipe.Contents() + [n]
  {
  }

  lemma StandingAfterDelivery(s: State, u: Id, n: Note)
    requires s.outbox !! s.wire && Enabled(s, Deliver(n)) && LostOnTheWay(s, Deliver(n)).None?
    ensures StandingOf(Step(s, Deliver(n)), u)
         == if n.event.Target() == u
            then StandingOf(s, u).(undelivered := Undelivered(s, u) - {n}, queued := Queued(s, u) + [n])
            else StandingOf(s, u)
  {
    var s' := Step(s, Deliver(n));
    assert n in s.wire;
    DeliveryMovesNote(s, n);
    UndeliveredWithout(s, s', u, n);
    MineAfterApply(s.flow.pipe.Contents(), n, u);
  }

  lemma UndeliveredWithout(s: State, s': State, u: Id, n: Note)
    requires n !in s.outbox && s'.outbox == s.outbox && s'.wire == s.wire - {n}
    ensures Undelivered(s', u) == if n.event.Target() == u then Undelivered(s, u) - {n} else Undelivered(s, u)
  {
  }

  lemma DeliveryIff(s: State, u: Id, n: Note)
    requires s.outbox !! s.wire && Sound(StandingOf(s, u), u) && Accounted(s, u) && Enabled(s, Deliver(n))
    requires LostOnTheWay(s, Deliver(n)).None?
    ensures Accounted(Step(s, Deliver(n)), u) <==> Harmless(s, u, Deliver(n))
  {
    hide Covered, Mine, Newest, Step;
    StandingAfterDelivery(s, u, n);
    if n.event.Target() == u {
      CoveredAfterDelivery(StandingOf(s, u), u, n);
    }
  }

  lemma StandingAfterBridgeDrop(s: State, u: Id)
    requires Enabled(s, Internal(Put)) && |s.flow.pipe.updateCh| >= CAPACITY
    ensures var n := s.flow.pipe.hand.value;
      && Queued(s, u) == Ahead(s, u) + (if n.event.Target() == u then [n] else []) + Behind(s, u)
      && StandingOf(Step(s, Internal(Put)), u) == StandingOf(s, u).(queued := Ahead(s, u) + Behind(s, u))
  {
    hide Mine;
    var p := s.flow.pipe;
    var left := Held(p.working) + p.updateCh;
    assert p.Contents() == left + [p.hand.value] + p.eventCh;
    ContentsMine(s, u, left, p.hand.value, p.eventCh);
    ContentsAfter(p, Put);
    MineConcat(left, p.eventCh, u);
    assert Undelivered(Step(s, Internal(Put)), u) == Undelivered(s, u);
  }

  lemma BridgeDropIff(s: State, u: Id)
    requires s.outbox !! s.wire && Sound(StandingOf(s, u), u) && Accounted(s, u) && Enabled(s, Internal(Put))
    requires |s.flow.pipe.updateCh| >= CAPACITY
    ensures Accounted(Step(s, Internal(Put)), u) <==> Harmless(s, u, Internal(Put))
  {
    hide Covered, Mine, Newest, Step;
    StandingAfterBridgeDrop(s, u);
    var n := s.flow.pipe.hand.value;
    if n.event.Target() == u {
      CoveredAfterBridgeDrop(StandingOf(s, u), u, Ahead(s, u), n, Behind(s, u));
    } else {
      assert Queued(s, u) == Ahead(s, u) + Behind(s, u);
    }
  }

  lemma StandingAfterApply(s: State, u: Id)
    requires Enabled(s, Internal(Finish))
    ensures var n, s' := s.flow.pipe.working.value, Step(s, Internal(Finish));
      && Queued(s, u) == (if n.event.Target() == u then [n] else []) + Queued(s', u)
      && StandingOf(s', u)
      == if n.event.Target() == u then StandingOf(s, u).(queued := Queued(s', u), seen := n.version + 1)
         else StandingOf(s, u)
  {
    hide Mine, Pipe.Contents, Apply;
    var s', n := Step(s, Internal(Finish)), s.flow.pipe.working.value;
    ContentsAfter(s.flow.pipe, Finish);
    assert s.flow.pipe.Contents() == [] + [n] + s'.flow.pipe.Contents();
    ContentsMine(s, u, [], n, s'.flow.pipe.Contents());
    NoneOfNone(u);
    assert Undelivered(s', u) == Undelivered(s, u);
  }

  lemma ApplyIff(s: State, u: Id)
    requires Accounted(s, u) && Enabled(s, Internal(Finish))
    ensures Accounted(Step(s, Internal(Finish)), u) && Harmless(s, u, Internal(Finish))
  {
    hide Covered, Mine, Newest, Step;
    StandingAfterApply(s, u);
    var s', n := Step(s, Internal(Finish)), s.flow.pipe.working.value;
    if n.event.Target() == u {
      CoveredAfterApply(StandingOf(s, u), u, n, Queued(s', u));
    }
  }

  lemma StandingAfterSet(s: State, u: Id, l: Label)
    requires PhaseInv(s) && Enabled(s, l) && (l.FillSet? || l.InstallSnapshot?)
    ensures StandingOf(Step(s, l), u) == StandingOf(s, u).(seen :=
              if l.InstallSnapshot? then s.phase.at
              else if s.fills[l.request].user.userId == u then s.fills[l.request].at else Seen(s, u))
  {
  }

  lemma SetIff(s: State, u: Id, l: Label)
    requires PhaseInv(s) && Accounted(s, u) && Enabled(s, l) && (l.FillSet? || l.InstallSnapshot?)
    ensures Accounted(Step(s, l), u) <==> Harmless(s, u, l)
  {
    hide Mine, Newest, Step, Pipe.Contents;
    StandingAfterSet(s, u, l);
  }

  /** The steps that leave every user's standing as it is. */
  ghost predicate Quiet(s: State, l: Label) {
    && !l.Commit? && !l.Deliver? && LostOnTheWay(s, l).None? && !l.FillSet? && !l.InstallSnapshot?
    && (l.Internal? ==> !l.move.Finish? && !(l.move.Put? && |s.flow.pipe.updateCh| >= CAPACITY))
  }

  lemma QuietStandsStill(s: State, u: Id, l: Label)
    requires Enabled(s, l) && Quiet(s, l)
    ensures StandingOf(Step(s, l), u) == StandingOf(s, u)
  {
    hide Mine, Pipe.Contents, Replay, Exec;
    if l.Internal? {
      ContentsAfter(s.flow.pipe, l.move);
    }
    assert Step(s, l).outbox + Step(s, l).wire == s.outbox + s.wire;
  }

  lemma QuietIff(s: State, u: Id, l: Label)
    requires Accounted(s, u) && Enabled(s, l) && Quiet(s, l)
    ensures Accounted(Step(s, l), u) && Harmless(s, u, l)
  {
    hide Covered, Mine, Newest, Step;
    QuietStandsStill(s, u, l);
  }

  /** The exact condition, step by step: from a state in which a user is accounted for, a step
      keeps the user accounted for if and only if it is harmless to that user. */
  lemma AccountedAfterStepIff(s: State, u: Id, l: Label)
    requires Inv(s) && Accounted(s, u) && Enabled(s, l)
    ensures Accounted(Step(s, l), u) <==> Harmless(s, u, l)
  {
    hide Accounted, Mine, Newest, Step, Harmless, StoreInv, LivesInv, ProvenanceInv, SeenInv, KindOrderInv, FlowInv;
    StandingIsSound(s, u);
    if LostOnTheWay(s, l).Some? {
      LossIff(s, u, l);
    } else if l.Commit? {
      CommitIff(s, u, l.op);
    } else if l.Deliver? {
      DeliveryIff(s, u, l.note);
    } else if l == Internal(Put) && |s.flow.pipe.updateCh| >= CAPACITY {
      BridgeDropIff(s, u);
    } else if l == Internal(Finish) {
      ApplyIff(s, u);
    } else if l.FillSet? || l.InstallSnapshot? {
      SetIff(s, u, l);
    } else {
      QuietIff(s, u, l);
    }
  }

  /** So for agreement itself: after a step from a state in which the user was accounted for,
      replaying what is pending gives the live record if and only if the step was harmless or the
      commits that it makes the client miss do no harm. */
  lemma AgreementAfterStepIff(s: State, u: Id, l: Label, rest: seq<Note>)
    requires Inv(s) && Accounted(s, u) && Enabled(s, l) && InCommitOrder(Step(s, l), u, rest)
    ensures var s' := Step(s, l);
      && Destination(s', u, rest) <= |s'.log|
      && (Outlook(s', u, rest) == Live(s', u) <==>
            Harmless(s, u, l) || MissedUnharmed(s'.log, Destination(s', u, rest), u))
  {
    hide Accounted, Mine, Newest, Step, Harmless, Inv, MissedUnharmed, Outlook, Destination;
    AccountedAfterStepIff(s, u, l);
    StepKeepsInv(s, l);
    ConvergesIff(Step(s, l), u, rest);
  }
}
