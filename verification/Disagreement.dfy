/** Three runs after which cache and store disagree, and go on disagreeing whatever happens: agreement
    without the conditions of `CleanRuns` is false. */
module Disagreement {
  import opened Users
  import opened UserTable
  import opened Journal
  import opened Service
  import opened Pipeline
  import opened Replica
  import opened Convergence
  import opened Harmlessness

  lemma {:induction false} LegalThen(s: State, run: seq<Label>, l: Label)
    requires Legal(s, run) && Enabled(After(s, run), l)
    ensures Legal(s, run + [l]) && After(s, run + [l]) == Step(After(s, run), l)
    decreases run
  {
    hide Step, Enabled;
    if run == [] {
      assert [l][1..] == [];
    } else {
      LegalThen(Step(s, run[0]), run[1..], l);
      assert (run + [l])[1..] == run[1..] + [l];
    }
  }

  lemma StillReachable(s: State, l: Label)
    requires Reachable(s) && Enabled(s, l)
    ensures Reachable(Step(s, l))
  {
    hide Step, Enabled;
    var run :| Legal(Start(), run) && After(Start(), run) == s;
    LegalThen(Start(), run, l);
  }

  lemma StartIsReachable()
    ensures Reachable(Start())
  {
    assert Legal(Start(), []) && After(Start(), []) == Start();
  }

  // ---------------------------------------------------------------------------------------
  // For good

  /** A deleted user about whom no event and no fill is under way. */
  ghost predicate OutOfReach(s: State, u: Id) {
    && u in s.table && !IsLive(s.table, u)
    && !Pending(s, u)
    && (forall r :: r in s.fills ==> s.fills[r].user.userId != u)
    && s.phase.Serving?
  }

  lemma OutOfReachCommit(s: State, u: Id, op: Op)
    requires OutOfReach(s, u) && Enabled(s, Commit(op))
    ensures OutOfReach(Step(s, Commit(op)), u) && Step(s, Commit(op)).cache == s.cache
  {
    hide Mine, Exec, Announcement, Replay;
    CommittedOp(s.table, op);
    StandingAfterCommit(s, u, op);
  }

  lemma OutOfReachApply(s: State, u: Id)
    requires OutOfReach(s, u) && Enabled(s, Internal(Finish))
    ensures OutOfReach(Step(s, Internal(Finish)), u)
    ensures Lookup(Step(s, Internal(Finish)).cache, u) == Lookup(s.cache, u)
  {
    hide Mine, Pipe.Contents;
    StandingAfterApply(s, u);
  }

  lemma OutOfReachPending(s: State, u: Id, l: Label)
    requires s.outbox !! s.wire && PhaseInv(s) && OutOfReach(s, u)
    requires Enabled(s, l) && !l.Commit? && l != Internal(Finish)
    ensures !Pending(Step(s, l), u)
  {
    hide Mine, Pipe.Contents, Step, Enabled, Newest;
    if LostOnTheWay(s, l).Some? {
      StandingAfterLoss(s, u, l);
    } else if l.Deliver? {
      DeliveredIsPending(s, l.note);
      StandingAfterDelivery(s, u, l.note);
    } else if l == Internal(Put) && |s.flow.pipe.updateCh| >= CAPACITY {
      StandingAfterBridgeDrop(s, u);
    } else if l.FillSet? || l.InstallSnapshot? {
      StandingAfterSet(s, u, l);
    } else {
      QuietStandsStill(s, u, l);
    }
  }

  lemma DeliveredIsPending(s: State, n: Note)
    requires Enabled(s, Deliver(n))
    ensures n in Undelivered(s, n.event.Target())
  {
  }

  lemma OutOfReachFills(s: State, u: Id, l: Label)
    requires OutOfReach(s, u) && Enabled(s, l) && !l.Commit? && l != Internal(Finish)
    ensures var s' := Step(s, l);
      && s'.table == s.table && s'.phase.Serving?
      && (forall r :: r in s'.fills ==> s'.fills[r].user.userId != u)
      && Lookup(s'.cache, u) == Lookup(s.cache, u)
  {
    hide Mine, Pipe.Contents, Pending, Exec, Announcement, Replay;
  }

  lemma OutOfReachStep(s: State, u: Id, l: Label)
    requires PlaceInv(s) && PhaseInv(s) && OutOfReach(s, u) && Enabled(s, l)
    ensures OutOfReach(Step(s, l), u) && Lookup(Step(s, l).cache, u) == Lookup(s.cache, u)
  {
    hide Pending, Step, Enabled;
    if l.Commit? {
      OutOfReachCommit(s, u, l.op);
    } else if l == Internal(Finish) {
      OutOfReachApply(s, u);
    } else {
      OutOfReachPending(s, u, l);
      OutOfReachFills(s, u, l);
    }
  }

  lemma {:induction false} OutOfReachRun(s: State, u: Id, run: seq<Label>)
    requires Inv(s) && OutOfReach(s, u) && Legal(s, run)
    ensures OutOfReach(After(s, run), u) && Lookup(After(s, run).cache, u) == Lookup(s.cache, u)
    decreases run
  {
    hide OutOfReach, Step, Enabled;
    if run == [] {
    } else {
      OutOfReachStep(s, u, run[0]);
      StepKeepsInv(s, run[0]);
      OutOfReachRun(Step(s, run[0]), u, run[1..]);
    }
  }

  /** Whatever happens from here, the cache holds this record of a user who is not there. */
  ghost predicate StaleForGood(s: State, u: Id, dto: UserDTO) {
    forall run :: Legal(s, run) ==> Lookup(After(s, run).cache, u) == Some(dto) && Live(After(s, run), u) == None
  }

  /** Permanence: once a deleted user is out of reach, what the cache holds of the user stays. No
      commit, event, fill or loss, nor shutdown, ever corrects it. */
  lemma DisagreementIsPermanent(s: State, u: Id)
    requires Reachable(s) && OutOfReach(s, u) && u in s.cache
    ensures StaleForGood(s, u, s.cache[u])
  {
    hide Reachable, Inv, Legal, After;
    ReachableIsGood(s);
    forall run | Legal(s, run)
      ensures Lookup(After(s, run).cache, u) == Some(s.cache[u]) && Live(After(s, run), u) == None
    {
      OutOfReachRun(s, u, run);
      hide Pending;
    }
  }

  // ---------------------------------------------------------------------------------------
  // Ann

  const ANN: Id := "a"
  const ANNS_PROFILE := Profile("Ann", "Lee", "ann@example.com", None, None, "ACTIVE")
  const ANNS_ROW := Row(ANNS_PROFILE, 0, 0, None)
  const ANNS_DTO := UserDTO(ANN, ANNS_PROFILE, 0, 0)
  const BORN := Note(0, Created(ANNS_DTO))
  const GONE := Note(1, Deleted(ANN))

  /** The store after Ann was created, and after she was deleted. */
  const WITH_ANN: Table := map[ANN := ANNS_ROW]
  const WITHOUT_ANN: Table := map[ANN := ANNS_ROW.(deletedAt := Some(1))]

  lemma CreateAnn(s: State)
    requires s.table == map[] && s.log == [] && s.outbox == {}
    ensures Enabled(s, Commit(Create(ANN, ANNS_PROFILE, 0)))
    ensures Step(s, Commit(Create(ANN, ANNS_PROFILE, 0)))
         == s.(table := WITH_ANN, log := [BORN.event], outbox := {BORN})
  {
  }

  lemma DeleteAnn(s: State)
    requires s.table == WITH_ANN && s.log == [BORN.event] && s.outbox == {}
    ensures Enabled(s, Commit(Delete(ANN, 1)))
    ensures Step(s, Commit(Delete(ANN, 1)))
         == s.(table := WITHOUT_ANN, log := [BORN.event, GONE.event], outbox := {GONE})
  {
    assert IsLive(WITH_ANN, ANN) && WITH_ANN[ANN] == ANNS_ROW;
    assert WITH_ANN[ANN := ANNS_ROW.(deletedAt := Some(1))] == WITHOUT_ANN;
    assert Exec(WITH_ANN, Delete(ANN, 1)) == (WITHOUT_ANN, Removed);
  }

  lemma PublishLost(s: State, n: Note)
    requires s.outbox == {n} && n.event.Kind() !in s.subscribed
    ensures Enabled(s, Publish(n)) && Step(s, Publish(n)) == s.(outbox := {}, lost := s.lost + {n})
  {
  }

  /** A client that has loaded Ann, published while nobody listened, and has yet to subscribe. */
  function LoadedWithAnn(): State {
    Start().(table := WITH_ANN, log := [BORN.event], lost := {BORN}, cache := map[ANN := ANNS_DTO],
             base := 1, phase := Serving(true))
  }

  lemma LoadingAnn()
    ensures Reachable(LoadedWithAnn())
  {
    hide Legal, After, Reachable, Exec, Announcement;
    StartIsReachable();
    CreateAnn(Start());
    StillReachable(Start(), Commit(Create(ANN, ANNS_PROFILE, 0)));
    var s1 := Start().(table := WITH_ANN, log := [BORN.event], outbox := {BORN});
    PublishLost(s1, BORN);
    StillReachable(s1, Publish(BORN));
    var s2 := s1.(outbox := {}, lost := {BORN});
    StillReachable(s2, FetchSnapshot);
    assert DTOView(WITH_ANN) == map[ANN := ANNS_DTO];
    var s3 := s2.(phase := Fetched(1, map[ANN := ANNS_DTO]));
    StillReachable(s3, InstallSnapshot);
    assert map[] + map[ANN := ANNS_DTO] == map[ANN := ANNS_DTO];
  }

  /** The gap between snapshot and subscription: a user deleted in it stays in the cache. */
  lemma GapLeavesDeletedUser()
    ensures exists s :: Reachable(s) && s.phase == Serving(true)
                        && s.subscribed == {CreatedKind, UpdatedKind, DeletedKind}
                        && !Pending(s, ANN) && StaleForGood(s, ANN, ANNS_DTO)
  {
    hide Legal, After, Reachable, Exec, Announcement, StaleForGood, Pending;
    LoadingAnn();
    var s4 := LoadedWithAnn();
    DeleteAnn(s4);
    StillReachable(s4, Commit(Delete(ANN, 1)));
    var s5 := s4.(table := WITHOUT_ANN, log := [BORN.event, GONE.event], outbox := {GONE});
    PublishLost(s5, GONE);
    StillReachable(s5, Publish(GONE));
    var s6 := s5.(outbox := {}, lost := {BORN} + {GONE});
    Subscribing(s6);
    var s7 := s6.(subscribed := {CreatedKind, UpdatedKind, DeletedKind});
    NothingPending(s7);
    DisagreementIsPermanent(s7, ANN);
  }

  lemma NothingPending(s: State)
    requires s.outbox == {} && s.wire == {} && s.flow.pipe == Pipe([], None, [], None)
    ensures !Pending(s, ANN)
  {
  }

  lemma Subscribing(s: State)
    requires Reachable(s) && s.phase.Serving? && s.subscribed == {}
    ensures Reachable(s.(subscribed := {CreatedKind, UpdatedKind, DeletedKind}))
  {
    hide Legal, After, Reachable;
    StillReachable(s, SubscribeTo(CreatedKind));
    var s1 := Step(s, SubscribeTo(CreatedKind));
    StillReachable(s1, SubscribeTo(UpdatedKind));
    var s2 := Step(s1, SubscribeTo(UpdatedKind));
    StillReachable(s2, SubscribeTo(DeletedKind));
    assert Step(s2, SubscribeTo(DeletedKind)).subscribed == {CreatedKind, UpdatedKind, DeletedKind};
  }

  /** One note into an otherwise empty pipeline: published and delivered, past any of other kinds. */
  lemma CarryIn(s: State, n: Note)
    requires Reachable(s) && s.outbox == {n} && n.event.Kind() in s.subscribed
    requires forall m :: m in s.wire ==> m.event.Kind() != n.event.Kind()
    requires s.flow.pipe == Pipe([], None, [], None)
    ensures Reachable(s.(outbox := {},
                         flow := s.flow.(pipe := Pipe([n], None, [], None), offered := s.flow.offered + [n])))
  {
    hide Legal, After, Reachable;
    StillReachable(s, Publish(n));
    var s1 := s.(outbox := {}, wire := s.wire + {n});
    assert s1 == Step(s, Publish(n));
    StillReachable(s1, Deliver(n));
    assert [] + [n] == [n] && s1.wire - {n} == s.wire;
    assert s.(outbox := {}, flow := s.flow.(pipe := Pipe([n], None, [], None), offered := s.flow.offered + [n]))
        == Step(s1, Deliver(n));
  }

  /** And through it: taken, put, popped and applied. */
  lemma CarryOut(s: State, n: Note)
    requires Reachable(s) && s.flow.pipe == Pipe([n], None, [], None) && !s.processor.Exited?
    ensures Reachable(ApplyWorking(s.(flow := s.flow.(pipe := Pipe([], None, [], Some(n))))))
  {
    hide Legal, After, Reachable, ApplyWorking;
    StillReachable(s, Internal(Take));
    var s3 := s.(flow := s.flow.(pipe := Pipe([], Some(n), [], None)));
    assert s3 == Step(s, Internal(Take));
    StillReachable(s3, Internal(Put));
    var s4 := s.(flow := s.flow.(pipe := Pipe([], None, [n], None)));
    assert s4 == Step(s3, Internal(Put));
    StillReachable(s4, Internal(Pop));
    var s5 := s.(flow := s.flow.(pipe := Pipe([], None, [], Some(n))));
    assert s5 == Step(s4, Internal(Pop));
    StillReachable(s5, Internal(Finish));
  }

  /** The state once a note has gone all the way. */
  ghost function Carried(s: State, n: Note): State {
    ApplyWorking(s.(outbox := {},
                    flow := s.flow.(pipe := Pipe([], None, [], Some(n)), offered := s.flow.offered + [n])))
  }

  lemma Carry(s: State, n: Note)
    requires Reachable(s) && s.outbox == {n} && n.event.Kind() in s.subscribed
    requires forall m :: m in s.wire ==> m.event.Kind() != n.event.Kind()
    requires s.flow.pipe == Pipe([], None, [], None) && !s.processor.Exited?
    ensures Reachable(Carried(s, n))
  {
    hide Reachable, ApplyWorking;
    CarryIn(s, n);
    CarryOut(s.(outbox := {}, flow := s.flow.(pipe := Pipe([n], None, [], None), offered := s.flow.offered + [n])), n);
  }

  /** A client without a snapshot that listens to everything; Ann has just been created, and a
      reader has read her record and has yet to set it. */
  function ReadingAnn(): State {
    Start().(table := WITH_ANN, log := [BORN.event], outbox := {BORN}, phase := Serving(false),
             subscribed := {CreatedKind, UpdatedKind, DeletedKind}, fills := map[0 := Fill(ANNS_DTO, 1, true)])
  }

  /** Before anyone reads her record. */
  function AnnCreated(): State {
    ReadingAnn().(fills := map[])
  }

  lemma CreatingAnn()
    ensures Reachable(AnnCreated())
  {
    hide Legal, After, Reachable, Exec, Announcement;
    StartIsReachable();
    StillReachable(Start(), FetchFails);
    var s0 := Start().(phase := Serving(false));
    Subscribing(s0);
    var s1 := s0.(subscribed := {CreatedKind, UpdatedKind, DeletedKind});
    CreateAnn(s1);
    StillReachable(s1, Commit(Create(ANN, ANNS_PROFILE, 0)));
  }

  lemma ReadingStarts()
    ensures Reachable(ReadingAnn())
  {
    hide Legal, After, Reachable, Exec, Announcement;
    CreatingAnn();
    StillReachable(AnnCreated(), FillRead(0, ANN));
    assert Step(AnnCreated(), FillRead(0, ANN)) == ReadingAnn();
  }

  /** Ann's creation has gone all the way, and then she is deleted. */
  ghost function DeletedWhileReading(): State {
    Carried(ReadingAnn(), BORN).(table := WITHOUT_ANN, log := [BORN.event, GONE.event], outbox := {GONE})
  }

  lemma DeletingWhileReading()
    ensures Reachable(DeletedWhileReading())
    ensures var s := DeletedWhileReading();
      s.flow == Flow(Pipe([], None, [], None), [BORN], [BORN], []) && s.fills == map[0 := Fill(ANNS_DTO, 1, false)]
  {
    hide Legal, After, Reachable, Exec, Announcement;
    ReadingStarts();
    Carry(ReadingAnn(), BORN);
    var s4 := Carried(ReadingAnn(), BORN);
    assert s4.flow == Flow(Pipe([], None, [], None), [BORN], [BORN], []);
    DeleteAnn(s4);
    StillReachable(s4, Commit(Delete(ANN, 1)));
  }

  /** A racing fill: nothing is lost, everything comes in commit order, and yet a deleted user is
      back in the cache to stay. */
  lemma StaleFillRevivesDeletedUser()
    ensures exists s :: Reachable(s) && s.phase.Serving? && s.lost == {} && s.flow.dropped == []
                        && (forall i :: 0 <= i < |s.flow.applied| ==> s.flow.applied[i].version == i)
                        && !Pending(s, ANN) && StaleForGood(s, ANN, ANNS_DTO)
  {
    hide Legal, After, Reachable, Exec, Announcement, StaleForGood, Pending;
    DeletingWhileReading();
    var s5 := DeletedWhileReading();
    Carry(s5, GONE);
    var s6 := Carried(s5, GONE);
    assert s6.flow == Flow(Pipe([], None, [], None), [BORN, GONE], [BORN, GONE], []);
    assert 0 in s6.fills && s6.fills[0].user == ANNS_DTO;
    StillReachable(s6, FillSet(0));
    var s7 := Step(s6, FillSet(0));
    NothingPending(s7);
    assert s7.fills == map[];
    DisagreementIsPermanent(s7, ANN);
  }

  // ---------------------------------------------------------------------------------------
  // Overtaking

  const CHANGED_ROW := ANNS_ROW.(updatedAt := MICROS_PER_SECOND)
  const CHANGED_DTO := UserDTO(ANN, ANNS_PROFILE, 0, 1)
  const CHANGED := Note(1, Updated(CHANGED_DTO))
  const ENDED := Note(2, Deleted(ANN))
  const WITH_CHANGED: Table := map[ANN := CHANGED_ROW]
  const WITHOUT_CHANGED: Table := map[ANN := CHANGED_ROW.(deletedAt := Some(2))]
  const CHANGE := Update(ANN, ANNS_PROFILE, MICROS_PER_SECOND)

  lemma UpdateAnn(s: State)
    requires s.table == WITH_ANN && s.log == [BORN.event] && s.outbox == {}
    ensures Enabled(s, Commit(CHANGE))
    ensures Step(s, Commit(CHANGE))
         == s.(table := WITH_CHANGED, log := [BORN.event, CHANGED.event], outbox := {CHANGED})
  {
    assert IsLive(WITH_ANN, ANN) && WITH_ANN[ANN] == ANNS_ROW;
    assert WITH_ANN[ANN := CHANGED_ROW] == WITH_CHANGED;
    assert Exec(WITH_ANN, CHANGE) == (WITH_CHANGED, Stored(ANN, CHANGED_ROW));
  }

  lemma DeleteChanged(s: State)
    requires s.table == WITH_CHANGED && s.log == [BORN.event, CHANGED.event] && s.outbox == {}
    ensures Enabled(s, Commit(Delete(ANN, 2)))
    ensures Step(s, Commit(Delete(ANN, 2)))
         == s.(table := WITHOUT_CHANGED, log := [BORN.event, CHANGED.event, ENDED.event], outbox := {ENDED})
  {
    assert IsLive(WITH_CHANGED, ANN) && WITH_CHANGED[ANN] == CHANGED_ROW;
    assert WITH_CHANGED[ANN := CHANGED_ROW.(deletedAt := Some(2))] == WITHOUT_CHANGED;
    assert Exec(WITH_CHANGED, Delete(ANN, 2)) == (WITHOUT_CHANGED, Removed);
  }

  /** Ann has been created, and the client has heard; she was then changed, and that event is on the
      wire when she is deleted. */
  ghost function DeletedWhileChanging(): State {
    Carried(AnnCreated(), BORN).(table := WITHOUT_CHANGED, log := [BORN.event, CHANGED.event, ENDED.event],
                                 outbox := {ENDED}, wire := {CHANGED})
  }

  lemma DeletingWhileChanging()
    ensures Reachable(DeletedWhileChanging())
    ensures var s := DeletedWhileChanging();
      && s.flow == Flow(Pipe([], None, [], None), [BORN], [BORN], [])
      && s.lost == {} && s.filled == {} && s.processor.Running? && s.phase.Serving?
      && s.subscribed == {CreatedKind, UpdatedKind, DeletedKind}
  {
    hide Legal, After, Reachable, Exec, Announcement;
    CreatingAnn();
    Carry(AnnCreated(), BORN);
    var s1 := Carried(AnnCreated(), BORN);
    UpdateAnn(s1);
    StillReachable(s1, Commit(CHANGE));
    var s2 := Step(s1, Commit(CHANGE));
    StillReachable(s2, Publish(CHANGED));
    var s3 := Step(s2, Publish(CHANGED));
    assert s3.wire == {CHANGED} && s3.outbox == {};
    DeleteChanged(s3);
    StillReachable(s3, Commit(Delete(ANN, 2)));
    assert s3 == s1.(table := WITH_CHANGED, log := [BORN.event, CHANGED.event], wire := {CHANGED});
  }

  /** Different subjects: a deletion overtakes an update of the same user. Nothing is lost and no
      fill takes part, and yet the deleted user is back in the cache to stay. */
  lemma OvertakingRevivesDeletedUser()
    ensures exists s :: Reachable(s) && s.phase.Serving? && s.lost == {} && s.flow.dropped == [] && s.filled == {}
                        && !Pending(s, ANN) && StaleForGood(s, ANN, CHANGED_DTO)
  {
    hide Legal, After, Reachable, Exec, Announcement, StaleForGood, Pending;
    DeletingWhileChanging();
    var s4 := DeletedWhileChanging();
    Carry(s4, ENDED);
    var s5 := Carried(s4, ENDED);
    StillReachable(s5, Deliver(CHANGED));
    var s6 := Step(s5, Deliver(CHANGED));
    assert s6.flow.pipe == Pipe([CHANGED], None, [], None);
    CarryOut(s6, CHANGED);
    var s7 := ApplyWorking(s6.(flow := s6.flow.(pipe := Pipe([], None, [], Some(CHANGED)))));
    NothingPending(s7);
    assert s7.fills == map[];
    DisagreementIsPermanent(s7, ANN);
  }
}
