/** The objects of the client take the steps of the replication system. */
module Refinement {
  import opened Journal
  import opened Pipeline
  import opened Replica
  import UserClient

  /** A message as the client sees it: without the commit number. */
  function Untag(n: Note): Event {
    n.event
  }

  /** The client's part of a state: its channels and its cache. */
  datatype ClientView = ClientView(pipe: Pipe<Event>, users: View)

  function ClientPart(s: State): ClientView {
    ClientView(MapPipe(Untag, s.flow.pipe), s.cache)
  }

  /** Each step of the system does to the client's part what the client's method for that step
      promises: `OnEvent` for a delivery, `BridgeTake`, `BridgePut` and `ProcessorPop` for the
      moves, `ProcessorApply` for the last, `Set` for a fill and for the snapshot; all other
      steps leave the client alone. */
  lemma StepIsClientStep(s: State, l: Label)
    requires Enabled(s, l) && PhaseInv(s)
    ensures var c, c' := ClientPart(s), ClientPart(Step(s, l));
      match l
      case Deliver(n) => c' == c.(pipe := PipeStep(c.pipe, Offer(n.event)))
      case Internal(m) =>
        && CanMove(c.pipe, MapMove(Untag, m))
        && c'.pipe == PipeStep(c.pipe, MapMove(Untag, m))
        && c'.users == if m.Finish? then Apply(c.users, c.pipe.working.value) else c.users
      case FillSet(r) => c' == c.(users := c.users[s.fills[r].user.userId := s.fills[r].user])
      case InstallSnapshot => c'.pipe == c.pipe && c'.users == s.phase.users
      case _ => c' == c
  {
    match l
    case Deliver(n) => StepCommutesWithMap(Untag, s.flow.pipe, Offer(n));
    case Internal(m) => StepCommutesWithMap(Untag, s.flow.pipe, m);
    case InstallSnapshot => assert map[] + s.phase.users == s.phase.users;
    case _ =>
  }

  /** No fill sets an entry, and no snapshot is installed. */
  predicate OnlyEvents(run: seq<Label>) {
    forall i :: 0 <= i < |run| ==> !run[i].FillSet? && !run[i].InstallSnapshot?
  }

  lemma CacheAfterStep(s: State, l: Label)
    requires Enabled(s, l) && !l.FillSet? && !l.InstallSnapshot?
    ensures var t := Step(s, l);
      && s.flow.applied <= t.flow.applied
      && t.cache == Replay(s.cache, Events(t.flow.applied[|s.flow.applied|..]))
  {
    hide Apply, Replay;
    var t := Step(s, l);
    if l == Internal(Finish) {
      var n := s.flow.pipe.working.value;
      assert t.flow.applied[|s.flow.applied|..] == [n];
      assert Events([n]) == [n.event];
      ReplayOne(s.cache, n.event);
    } else {
      assert t.flow.applied == s.flow.applied;
      assert Events(t.flow.applied[|s.flow.applied|..]) == [];
      ReplayNothing(s.cache);
    }
  }

  lemma {:induction false} CacheAfterEvents(s: State, run: seq<Label>)
    requires Legal(s, run) && OnlyEvents(run)
    ensures var t := After(s, run);
      && s.flow.applied <= t.flow.applied
      && t.cache == Replay(s.cache, Events(t.flow.applied[|s.flow.applied|..]))
    decreases run
  {
    hide Step, Enabled, Replay;
    if run == [] {
      assert Events(s.flow.applied[|s.flow.applied|..]) == [];
      ReplayNothing(s.cache);
    } else {
      var m, t := Step(s, run[0]), After(s, run);
      CacheAfterStep(s, run[0]);
      assert OnlyEvents(run[1..]);
      CacheAfterEvents(m, run[1..]);
      var a, b := m.flow.applied[|s.flow.applied|..], t.flow.applied[|m.flow.applied|..];
      assert t.flow.applied[|s.flow.applied|..] == a + b;
      assert Events(a + b) == Events(a) + Events(b);
      ReplayConcat(s.cache, Events(a), Events(b));
    }
  }

  /** A miss of the client is a read, a run of the system in which the processor may apply events,
      and a set: together they leave what the client's methods promise of a miss. */
  lemma MissIsFill(s: State, r: nat, run: seq<Label>)
    requires Legal(s, run) && OnlyEvents(run) && Enabled(After(s, run), FillSet(r))
    ensures s.flow.applied <= After(s, run).flow.applied
    ensures var t := After(s, run); var meanwhile := Events(t.flow.applied[|s.flow.applied|..]);
      && Step(t, FillSet(r)).cache == UserClient.Filled(s.cache, meanwhile, UserClient.Got(t.fills[r].user))
      && UserClient.MissFills(s.cache, meanwhile, UserClient.Got(t.fills[r].user), Step(t, FillSet(r)).cache)
  {
    hide Replay, UserClient.MissFills;
    CacheAfterEvents(s, run);
    var t := After(s, run);
    var meanwhile := Events(t.flow.applied[|s.flow.applied|..]);
    UserClient.FilledUserByUser(s.cache, meanwhile, UserClient.Got(t.fills[r].user));
  }
}
