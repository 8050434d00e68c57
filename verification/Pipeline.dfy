/** The two-stage, bounded, dropping pipeline between the event callbacks and the cache.

    A callback offers an event to `eventCh` without blocking; the bridge goroutine takes one,
    holds it, and offers it to `updateCh` without blocking; the processor goroutine pops one
    and, a moment later, applies it. A full queue drops the newcomer. */
module Pipeline {
  import opened Users

  const CAPACITY := 256

  datatype Pipe<T> = Pipe(eventCh: seq<T>, hand: Option<T>, updateCh: seq<T>, working: Option<T>) {
    /** Everything inside, the next to be applied first. */
    function Contents(): seq<T> {
      Held(working) + updateCh + Held(hand) + eventCh
    }

    predicate Bounded() {
      |eventCh| <= CAPACITY && |updateCh| <= CAPACITY
    }
  }

  function Held<T>(slot: Option<T>): seq<T> {
    if slot.Some? then [slot.value] else []
  }

  datatype Move<T> = Offer(x: T) | Take | Put | Pop | Finish

  /** A pipeline with its history: what was offered, what was applied, what was dropped. */
  datatype Flow<T> = Flow(pipe: Pipe<T>, offered: seq<T>, applied: seq<T>, dropped: seq<T>)

  function Idle<T>(): Flow<T> {
    Flow(Pipe([], None, [], None), [], [], [])
  }

  predicate CanMove<T>(p: Pipe<T>, m: Move<T>) {
    match m
    case Offer(_) => true
    case Take => p.hand.None? && p.eventCh != []
    case Put => p.hand.Some?
    case Pop => p.working.None? && p.updateCh != []
    case Finish => p.working.Some?
  }

  predicate Drops<T>(p: Pipe<T>, m: Move<T>) {
    (m.Offer? && |p.eventCh| >= CAPACITY) || (m.Put? && |p.updateCh| >= CAPACITY)
  }

  function PipeStep<T>(p: Pipe<T>, m: Move<T>): Pipe<T>
    requires CanMove(p, m)
  {
    match m
    case Offer(x) => if Drops(p, m) then p else p.(eventCh := p.eventCh + [x])
    case Take => p.(eventCh := p.eventCh[1..], hand := Some(p.eventCh[0]))
    case Put => if Drops(p, m) then p.(hand := None) else p.(updateCh := p.updateCh + [p.hand.value], hand := None)
    case Pop => p.(updateCh := p.updateCh[1..], working := Some(p.updateCh[0]))
    case Finish => p.(working := None)
  }

  function FlowStep<T>(f: Flow<T>, m: Move<T>): Flow<T>
    requires CanMove(f.pipe, m)
  {
    Flow(
      PipeStep(f.pipe, m),
      if m.Offer? then f.offered + [m.x] else f.offered,
      if m.Finish? then f.applied + [f.pipe.working.value] else f.applied,
      if !Drops(f.pipe, m) then f.dropped else f.dropped + [if m.Offer? then m.x else f.pipe.hand.value])
  }

  // ---------------------------------------------------------------------------------------
  // Ordered subsequences

  ghost predicate Subsequence<T>(a: seq<T>, b: seq<T>)
    decreases b
  {
    a == [] ||
    (b != [] && ((a[|a| - 1] == b[|b| - 1] && Subsequence(a[..|a| - 1], b[..|b| - 1])) || Subsequence(a, b[..|b| - 1])))
  }

  lemma SubsequenceOfSnoc<T>(a: seq<T>, x: T, b: seq<T>, y: T)
    ensures Subsequence(a + [x], b + [y]) <==> (x == y && Subsequence(a, b)) || Subsequence(a + [x], b)
    ensures Subsequence([], b)
    ensures !Subsequence(a + [x], [])
  {
  }

  lemma SubsequenceGrows<T>(a: seq<T>, b: seq<T>, x: T)
    requires Subsequence(a, b)
    ensures Subsequence(a, b + [x]) && Subsequence(a + [x], b + [x])
  {
  }

  lemma {:induction false} SubsequenceWithout<T>(left: seq<T>, x: T, right: seq<T>, b: seq<T>)
    requires Subsequence(left + [x] + right, b)
    ensures Subsequence(left + right, b)
    decreases b
  {
    hide Subsequence;
    var a := if right == [] then left else left + [x] + right[..|right| - 1];
    var z := if right == [] then x else right[|right| - 1];
    assert left + [x] + right == a + [z];
    SubsequenceOfSnoc(a, z, [], z);
    var b', y := b[..|b| - 1], b[|b| - 1];
    assert b == b' + [y];
    SubsequenceOfSnoc(a, z, b', y);
    if Subsequence(a + [z], b') {
      SubsequenceWithout(left, x, right, b');
      SubsequenceGrows(left + right, b', y);
    } else if right == [] {
      assert left + right == left;
      SubsequenceGrows(left, b', y);
    } else {
      var right' := right[..|right| - 1];
      SubsequenceWithout(left, x, right', b');
      SubsequenceGrows(left + right', b', y);
      assert left + right' + [y] == left + right;
    }
  }

  lemma {:induction false} SubsequenceOfSameLength<T>(a: seq<T>, b: seq<T>)
    requires Subsequence(a, b)
    ensures |a| <= |b| && (|a| == |b| ==> a == b)
    decreases b
  {
    if a == [] {
    } else {
      if a[|a| - 1] == b[|b| - 1] && Subsequence(a[..|a| - 1], b[..|b| - 1]) {
        SubsequenceOfSameLength(a[..|a| - 1], b[..|b| - 1]);
      } else {
        SubsequenceOfSameLength(a, b[..|b| - 1]);
      }
    }
  }

  // ---------------------------------------------------------------------------------------
  // What every step keeps

  /** What went through and what is inside, in order. */
  function Through<T>(f: Flow<T>): seq<T> {
    f.applied + f.pipe.Contents()
  }

  ghost predicate FlowInv<T(!new)>(f: Flow<T>) {
    && f.pipe.Bounded()
    && Subsequence(Through(f), f.offered)
    && Balanced(f.offered, Through(f), f.dropped)
  }

  lemma OfferJoinsEnd<T>(p: Pipe<T>, x: T)
    ensures p.(eventCh := p.eventCh + [x]).Contents() == p.Contents() + [x]
  {
  }

  lemma TakeKeepsContents<T>(p: Pipe<T>)
    requires CanMove(p, Take)
    ensures PipeStep(p, Take).Contents() == p.Contents()
  {
  }

  lemma PutKeepsContents<T>(p: Pipe<T>)
    requires CanMove(p, Put) && !Drops(p, Put)
    ensures PipeStep(p, Put).Contents() == p.Contents()
  {
  }

  lemma PopKeepsContents<T>(p: Pipe<T>)
    requires CanMove(p, Pop)
    ensures PipeStep(p, Pop).Contents() == p.Contents()
  {
  }

  lemma FinishTakesHead<T>(p: Pipe<T>)
    requires CanMove(p, Finish)
    ensures p.Contents() == [p.working.value] + PipeStep(p, Finish).Contents()
  {
  }

  /** Each step leaves the contents alone, except that an accepted offer joins the end, a
      dropped hand leaves from the middle, and the processor finishes with the first. */
  lemma ContentsAfter<T>(p: Pipe<T>, m: Move<T>)
    requires CanMove(p, m)
    ensures var after := PipeStep(p, m).Contents();
      match m
      case Offer(x) => after == if Drops(p, m) then p.Contents() else p.Contents() + [x]
      case Put => if Drops(p, m) then after == Held(p.working) + p.updateCh + p.eventCh else after == p.Contents()
      case Finish => p.Contents() == [p.working.value] + after
      case _ => after == p.Contents()
  {
    match m
    case Offer(x) => OfferJoinsEnd(p, x);
    case Take => TakeKeepsContents(p);
    case Put => if !Drops(p, m) { PutKeepsContents(p); }
    case Pop => PopKeepsContents(p);
    case Finish => FinishTakesHead(p);
  }

  lemma ThroughAfter<T>(f: Flow<T>, m: Move<T>)
    requires CanMove(f.pipe, m)
    ensures Through(FlowStep(f, m)) ==
            if m.Offer? && !Drops(f.pipe, m) then Through(f) + [m.x]
            else if m.Put? && Drops(f.pipe, m) then
              f.applied + (Held(f.pipe.working) + f.pipe.updateCh + f.pipe.eventCh)
            else Through(f)
  {
    ContentsAfter(f.pipe, m);
    hide Pipe.Contents;
    if m.Offer? && !Drops(f.pipe, m) {
      assert f.applied + (f.pipe.Contents() + [m.x]) == Through(f) + [m.x];
    } else if m.Finish? {
      var after := PipeStep(f.pipe, m).Contents();
      assert f.applied + ([f.pipe.working.value] + after) == f.applied + [f.pipe.working.value] + after;
    }
  }

  /** The bridge drops from the middle. */
  lemma ThroughAroundDrop<T>(f: Flow<T>)
    requires CanMove(f.pipe, Put) && Drops(f.pipe, Put)
    ensures var left := f.applied + Held(f.pipe.working) + f.pipe.updateCh;
      && Through(f) == left + [f.pipe.hand.value] + f.pipe.eventCh
      && Through(FlowStep(f, Put)) == left + f.pipe.eventCh
  {
    ThroughAfter(f, Put);
    Regroup(f.applied, Held(f.pipe.working), f.pipe.updateCh, f.pipe.hand.value, f.pipe.eventCh);
    assert Through(f) == f.applied + (Held(f.pipe.working) + f.pipe.updateCh + [f.pipe.hand.value] + f.pipe.eventCh);
    hide FlowStep, PipeStep, Through;
  }

  lemma Regroup<T>(a: seq<T>, w: seq<T>, u: seq<T>, h: T, e: seq<T>)
    ensures a + (w + u + [h] + e) == a + w + u + [h] + e
    ensures a + (w + u + e) == a + w + u + e
  {
  }

  lemma StepKeepsOrder<T(!new)>(f: Flow<T>, m: Move<T>)
    requires Subsequence(Through(f), f.offered) && CanMove(f.pipe, m)
    ensures Subsequence(Through(FlowStep(f, m)), FlowStep(f, m).offered)
  {
    hide Subsequence, Through, PipeStep;
    ThroughAfter(f, m);
    if m.Offer? {
      SubsequenceGrows(Through(f), f.offered, m.x);
    } else if m.Put? && Drops(f.pipe, m) {
      ThroughAroundDrop(f);
      var left := f.applied + Held(f.pipe.working) + f.pipe.updateCh;
      SubsequenceWithout(left, f.pipe.hand.value, f.pipe.eventCh, f.offered);
    }
  }

  ghost predicate Balanced<T>(offered: seq<T>, through: seq<T>, dropped: seq<T>) {
    multiset(offered) == multiset(through) + multiset(dropped)
  }

  lemma BalancedAfterOffer<T>(offered: seq<T>, through: seq<T>, dropped: seq<T>, x: T)
    requires Balanced(offered, through, dropped)
    ensures Balanced(offered + [x], through + [x], dropped) && Balanced(offered + [x], through, dropped + [x])
  {
  }

  lemma BalancedAfterDrop<T>(offered: seq<T>, left: seq<T>, x: T, right: seq<T>, dropped: seq<T>)
    requires Balanced(offered, left + [x] + right, dropped)
    ensures Balanced(offered, left + right, dropped + [x])
  {
  }

  lemma StepConserves<T(!new)>(f: Flow<T>, m: Move<T>)
    requires Balanced(f.offered, Through(f), f.dropped) && CanMove(f.pipe, m)
    ensures Balanced(FlowStep(f, m).offered, Through(FlowStep(f, m)), FlowStep(f, m).dropped)
  {
    hide Balanced, Through, PipeStep;
    ThroughAfter(f, m);
    if m.Offer? {
      BalancedAfterOffer(f.offered, Through(f), f.dropped, m.x);
    } else if m.Put? && Drops(f.pipe, m) {
      ThroughAroundDrop(f);
      var left := f.applied + Held(f.pipe.working) + f.pipe.updateCh;
      BalancedAfterDrop(f.offered, left, f.pipe.hand.value, f.pipe.eventCh, f.dropped);
    }
  }

  lemma FlowStepKeepsInv<T(!new)>(f: Flow<T>, m: Move<T>)
    requires FlowInv(f) && CanMove(f.pipe, m)
    ensures FlowInv(FlowStep(f, m))
  {
    hide Subsequence, Balanced, Through;
    StepKeepsOrder(f, m);
    StepConserves(f, m);
  }

  predicate Admits<T>(f: Flow<T>, moves: seq<Move<T>>)
    decreases moves
  {
    moves == [] || (CanMove(f.pipe, moves[0]) && Admits(FlowStep(f, moves[0]), moves[1..]))
  }

  function FlowRun<T>(f: Flow<T>, moves: seq<Move<T>>): Flow<T>
    requires Admits(f, moves)
    decreases moves
  {
    if moves == [] then f else FlowRun(FlowStep(f, moves[0]), moves[1..])
  }

  lemma {:induction false} RunThen<T(!new)>(f: Flow<T>, moves: seq<Move<T>>, m: Move<T>)
    requires Admits(f, moves) && CanMove(FlowRun(f, moves).pipe, m)
    ensures Admits(f, moves + [m]) && FlowRun(f, moves + [m]) == FlowStep(FlowRun(f, moves), m)
    decreases moves
  {
    if moves == [] {
      assert [m][1..] == [];
    } else {
      RunThen(FlowStep(f, moves[0]), moves[1..], m);
      assert (moves + [m])[1..] == moves[1..] + [m];
    }
  }

  /** Two-stage lossy pipeline, over every run: the applied events, then those inside, are an
      ordered subsequence of the offered; nothing is lost but by being dropped, nothing is
      duplicated; and both queues stay within their capacity. */
  lemma {:induction false} PipelineConserves<T(!new)>(f: Flow<T>, moves: seq<Move<T>>)
    requires FlowInv(f) && Admits(f, moves)
    ensures FlowInv(FlowRun(f, moves))
    ensures var g := FlowRun(f, moves);
            |g.offered| == |g.applied| + |g.pipe.Contents()| + |g.dropped|
    ensures |FlowRun(f, moves).pipe.eventCh| <= 256 && |FlowRun(f, moves).pipe.updateCh| <= 256
    decreases moves
  {
    if moves == [] {
      assert |multiset(f.offered)| == |multiset(Through(f))| + |multiset(f.dropped)|;
    } else {
      FlowStepKeepsInv(f, moves[0]);
      PipelineConserves(FlowStep(f, moves[0]), moves[1..]);
    }
  }

  /** No more than 256 events are ever outstanding, the one being offered included. */
  predicate NeverCrowded<T>(f: Flow<T>, moves: seq<Move<T>>)
    requires Admits(f, moves)
    decreases moves
  {
    moves == [] ||
    ((moves[0].Offer? ==> |f.pipe.Contents()| < 256) && NeverCrowded(FlowStep(f, moves[0]), moves[1..]))
  }

  /** If at most 256 events are ever outstanding then nothing is dropped, so what went
      through and what is inside are all that was offered, in order. */
  lemma {:induction false} NothingDroppedUnlessCrowded<T(!new)>(f: Flow<T>, moves: seq<Move<T>>)
    requires FlowInv(f) && f.dropped == [] && |f.pipe.Contents()| <= 256
    requires Admits(f, moves) && NeverCrowded(f, moves)
    ensures FlowRun(f, moves).dropped == []
    ensures Through(FlowRun(f, moves)) == FlowRun(f, moves).offered
    decreases moves
  {
    hide Subsequence;
    if moves == [] {
      SubsequenceOfSameLength(Through(f), f.offered);
      assert |multiset(f.offered)| == |multiset(Through(f))|;
    } else {
      var f' := FlowStep(f, moves[0]);
      FlowStepKeepsInv(f, moves[0]);
      ThroughAfter(f, moves[0]);
      assert |f'.applied| + |f'.pipe.Contents()| == |Through(f')|;
      NothingDroppedUnlessCrowded(f', moves[1..]);
    }
  }

  // ---------------------------------------------------------------------------------------
  // Tags do not matter: steps commute with a change of element

  function MapSeq<A, B>(g: A -> B, s: seq<A>): (r: seq<B>)
    ensures |r| == |s| && forall i :: 0 <= i < |s| ==> r[i] == g(s[i])
  {
    seq(|s|, i requires 0 <= i < |s| => g(s[i]))
  }

  function MapOption<A, B>(g: A -> B, o: Option<A>): Option<B> {
    if o.Some? then Some(g(o.value)) else None
  }

  function MapPipe<A, B>(g: A -> B, p: Pipe<A>): Pipe<B> {
    Pipe(MapSeq(g, p.eventCh), MapOption(g, p.hand), MapSeq(g, p.updateCh), MapOption(g, p.working))
  }

  function MapMove<A, B>(g: A -> B, m: Move<A>): Move<B> {
    match m
    case Offer(x) => Offer(g(x))
    case Take => Take
    case Put => Put
    case Pop => Pop
    case Finish => Finish
  }

  /** A pipeline of tagged events moves as the pipeline of the events themselves. */
  lemma StepCommutesWithMap<A, B>(g: A -> B, p: Pipe<A>, m: Move<A>)
    ensures CanMove(MapPipe(g, p), MapMove(g, m)) <==> CanMove(p, m)
    ensures CanMove(p, m) ==> PipeStep(MapPipe(g, p), MapMove(g, m)) == MapPipe(g, PipeStep(p, m))
  {
  }

  // ---------------------------------------------------------------------------------------
  // Shutdown

  /** The work left once delivery has stopped. */
  function Backlog<T>(p: Pipe<T>): nat {
    4 * |p.eventCh| + 3 * |Held(p.hand)| + 2 * |p.updateCh| + |Held(p.working)|
  }

  /** The processor's drain ends when it finds its queue empty and holds nothing. */
  predicate DrainDone<T>(p: Pipe<T>) {
    p.working.None? && p.updateCh == []
  }

  predicate NoOffers<T>(moves: seq<Move<T>>) {
    forall i :: 0 <= i < |moves| ==> !moves[i].Offer?
  }

  /** The drain terminates: with delivery stopped, every step of the bridge or the processor
      uses up backlog, so no schedule is longer than the backlog it starts with; and while
      the drain is not done a processor step is possible. */
  lemma {:induction false} DrainTerminates<T(!new)>(f: Flow<T>, moves: seq<Move<T>>)
    requires Admits(f, moves) && NoOffers(moves)
    ensures Backlog(FlowRun(f, moves).pipe) + |moves| <= Backlog(f.pipe)
    ensures var p := FlowRun(f, moves).pipe; DrainDone(p) <==> !CanMove(p, Pop) && !CanMove(p, Finish)
    decreases moves
  {
    if moves == [] {
    } else {
      assert Backlog(PipeStep(f.pipe, moves[0])) < Backlog(f.pipe);
      DrainTerminates(FlowStep(f, moves[0]), moves[1..]);
    }
  }

  /** Applied, or already where only the processor will touch it. */
  function AtProcessor<T>(f: Flow<T>): seq<T> {
    f.applied + Held(f.pipe.working) + f.pipe.updateCh
  }

  lemma {:induction false} ReadyOnlyGrows<T(!new)>(f: Flow<T>, moves: seq<Move<T>>)
    requires Admits(f, moves)
    ensures AtProcessor(f) <= AtProcessor(FlowRun(f, moves))
    decreases moves
  {
    if moves == [] {
    } else {
      var f', m := FlowStep(f, moves[0]), moves[0];
      if m.Put? && !Drops(f.pipe, m) {
        assert AtProcessor(f') == AtProcessor(f) + [f.pipe.hand.value];
      } else {
        assert AtProcessor(f') == AtProcessor(f);
      }
      ReadyOnlyGrows(f', moves[1..]);
    }
  }

  /** What the drain leaves: everything that was ready for the processor when it began has
      been applied, in order, and what is still inside is only with the bridge. */
  lemma DrainAppliesReady<T(!new)>(f: Flow<T>, moves: seq<Move<T>>)
    requires Admits(f, moves) && DrainDone(FlowRun(f, moves).pipe)
    ensures var g := FlowRun(f, moves);
      && AtProcessor(f) <= g.applied
      && g.pipe.Contents() == Held(g.pipe.hand) + g.pipe.eventCh
  {
    ReadyOnlyGrows(f, moves);
    var g := FlowRun(f, moves);
    assert AtProcessor(g) == g.applied;
  }
}
