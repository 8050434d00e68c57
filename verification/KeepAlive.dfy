/** Ping, pong and the read deadline. */
module KeepAlive {
  /** Times are in any fixed unit, counted from the moment both pumps start. */
  datatype Config = Config(pongWait: nat, pingPeriod: nat) {
    /** A positive period, shorter than the wait. */
    predicate Sensible() {
      0 < pingPeriod < pongWait
    }
  }

  /** `unanswered` holds the tick times of pings without a pong, oldest first. */
  datatype State = State(now: nat, nextTick: nat, unanswered: seq<nat>, deadline: nat)

  datatype Label = Tick | Pong | Wait(time: nat)

  function Start(c: Config): State {
    State(0, c.pingPeriod, [], c.pongWait)
  }

  /** Time may pass up to the next tick, and up to `patience` after the tick of the oldest
      unanswered ping: that is what it means for every ping to be answered in time. */
  predicate Enabled(c: Config, patience: nat, s: State, l: Label) {
    match l
    case Tick => s.now == s.nextTick
    case Pong => s.unanswered != []
    case Wait(d) => s.now + d <= s.nextTick && (s.unanswered != [] ==> s.now + d <= s.unanswered[0] + patience)
  }

  function Step(c: Config, s: State, l: Label): State
    requires l.Pong? ==> s.unanswered != []
  {
    match l
    case Tick => s.(unanswered := s.unanswered + [s.now], nextTick := s.nextTick + c.pingPeriod)
    case Pong => s.(unanswered := s.unanswered[1..], deadline := s.now + c.pongWait)
    case Wait(d) => s.(now := s.now + d)
  }

  predicate Legal(c: Config, patience: nat, s: State, run: seq<Label>)
    decreases run
  {
    run == [] || (Enabled(c, patience, s, run[0]) && Legal(c, patience, Step(c, s, run[0]), run[1..]))
  }

  function After(c: Config, patience: nat, s: State, run: seq<Label>): State
    requires Legal(c, patience, s, run)
    decreases run
  {
    if run == [] then s else After(c, patience, Step(c, s, run[0]), run[1..])
  }

  /** The read deadline has not passed. */
  predicate Alive(s: State) {
    s.now <= s.deadline
  }

  /** The tick of the next ping to be answered. */
  function NextAnswered(s: State): nat {
    if s.unanswered != [] then s.unanswered[0] else s.nextTick
  }

  /** The deadline counts from no earlier than the last tick that was answered. */
  predicate Inv(c: Config, patience: nat, s: State) {
    && (forall i :: 0 <= i < |s.unanswered| ==>
          s.unanswered[i] == s.nextTick - c.pingPeriod * (|s.unanswered| - i) && s.unanswered[i] <= s.now)
    && s.now <= s.nextTick
    && s.now <= NextAnswered(s) + patience
    && NextAnswered(s) + c.pongWait <= s.deadline + c.pingPeriod
  }

  lemma OneMore(period: nat, k: int)
    ensures period * (k + 1) == period * k + period
    ensures period * 0 == 0
  {
  }

  lemma StepKeepsInv(c: Config, patience: nat, s: State, l: Label)
    requires c.Sensible() && Inv(c, patience, s) && Enabled(c, patience, s, l)
    ensures Inv(c, patience, Step(c, s, l))
  {
    var t := Step(c, s, l);
    var n := |s.unanswered|;
    match l
    case Tick =>
      forall i | 0 <= i < n ensures t.unanswered[i] == t.nextTick - c.pingPeriod * (n + 1 - i) {
        OneMore(c.pingPeriod, n - i);
      }
      OneMore(c.pingPeriod, 0);
    case Pong =>
      OneMore(c.pingPeriod, n - 1);
      assert t.unanswered != [] ==> t.unanswered[0] == s.unanswered[1];
      forall i | 0 <= i < n - 1 ensures t.unanswered[i] == t.nextTick - c.pingPeriod * (n - 1 - i) {
        assert t.unanswered[i] == s.unanswered[i + 1];
      }
    case Wait(_) =>
  }

  lemma {:induction false} PatientPeersStayAlive(c: Config, patience: nat, s: State, run: seq<Label>)
    requires c.Sensible() && patience <= c.pongWait - c.pingPeriod
    requires Inv(c, patience, s) && Legal(c, patience, s, run)
    ensures Alive(After(c, patience, s, run))
    decreases run
  {
    if run == [] {
    } else {
      StepKeepsInv(c, patience, s, run[0]);
      PatientPeersStayAlive(c, patience, Step(c, s, run[0]), run[1..]);
    }
  }

  /** A peer that stays silent for a while: only the ticker runs. */
  function Silence(c: Config, time: nat): seq<Label>
    requires c.pingPeriod > 0
  {
    if time <= c.pingPeriod then [Wait(time)] else [Wait(c.pingPeriod), Tick] + Silence(c, time - c.pingPeriod)
  }

  /** Silence is allowed for as long as the first ping may go unanswered. */
  lemma {:induction false} SilenceIsLegal(c: Config, patience: nat, s: State, time: nat)
    requires c.Sensible() && s.now + c.pingPeriod == s.nextTick
    requires if s.unanswered == [] then s.now == 0 else s.unanswered[0] == c.pingPeriod
    requires s.now + time <= c.pingPeriod + patience
    ensures Legal(c, patience, s, Silence(c, time))
    ensures var t := After(c, patience, s, Silence(c, time)); t.now == s.now + time && t.deadline == s.deadline
    decreases time
  {
    var run := Silence(c, time);
    var s1 := Step(c, s, run[0]);
    if time <= c.pingPeriod {
      assert run[1..] == [];
    } else {
      var rest := Silence(c, time - c.pingPeriod);
      var s2 := Step(c, s1, Tick);
      assert run[1..] == [Tick] + rest && run[1..][1..] == rest;
      SilenceIsLegal(c, patience, s2, time - c.pingPeriod);
      assert Legal(c, patience, s1, run[1..]);
    }
  }

  /** Keep-alive, with the exact bound: whatever the run and however long, the read deadline
      never expires, if and only if every ping is answered within the wait less the period. */
  lemma NeverExpiresIff(c: Config, patience: nat)
    requires c.Sensible()
    ensures (forall run :: Legal(c, patience, Start(c), run) ==> Alive(After(c, patience, Start(c), run)))
       <==> patience <= c.pongWait - c.pingPeriod
  {
    if patience <= c.pongWait - c.pingPeriod {
      forall run | Legal(c, patience, Start(c), run) ensures Alive(After(c, patience, Start(c), run)) {
        PatientPeersStayAlive(c, patience, Start(c), run);
      }
    } else {
      // Without a pong until just after the first deadline.
      var run := Silence(c, c.pongWait + 1);
      SilenceIsLegal(c, patience, Start(c), c.pongWait + 1);
      assert Legal(c, patience, Start(c), run) && !Alive(After(c, patience, Start(c), run));
    }
  }

  // ---------------------------------------------------------------------------------------
  // Exactly when it expires, told from the labels alone

  function Elapsed(run: seq<Label>): nat {
    if run == [] then 0 else (if run[0].Wait? then run[0].time else 0) + Elapsed(run[1..])
  }

  function Ticks(run: seq<Label>): nat {
    if run == [] then 0 else (if run[0].Tick? then 1 else 0) + Ticks(run[1..])
  }

  function Pongs(run: seq<Label>): nat {
    if run == [] then 0 else (if run[0].Pong? then 1 else 0) + Pongs(run[1..])
  }

  /** The time of the last pong in a run that starts at `now`, or `last` if there is none. */
  function LastPong(now: nat, last: nat, run: seq<Label>): nat
    decreases run
  {
    if run == [] then last
    else match run[0]
      case Tick => LastPong(now, last, run[1..])
      case Pong => LastPong(now, now, run[1..])
      case Wait(time) => LastPong(now + time, last, run[1..])
  }

  lemma {:induction false} StateFromLabels(c: Config, patience: nat, s: State, last: nat, run: seq<Label>)
    requires Legal(c, patience, s, run) && s.deadline == last + c.pongWait
    ensures var t := After(c, patience, s, run);
      && t.now == s.now + Elapsed(run)
      && |t.unanswered| + Pongs(run) == |s.unanswered| + Ticks(run)
      && t.deadline == LastPong(s.now, last, run) + c.pongWait
    decreases run
  {
    if run == [] {
    } else {
      var s1 := Step(c, s, run[0]);
      StateFromLabels(c, patience, s1, if run[0].Pong? then s.now else last, run[1..]);
    }
  }

  lemma {:induction false} TicksAtPeriods(c: Config, patience: nat, s: State, run: seq<Label>)
    requires Legal(c, patience, s, run)
    ensures After(c, patience, s, run).nextTick == s.nextTick + c.pingPeriod * Ticks(run)
    decreases run
  {
    OneMore(c.pingPeriod, 0);
    if run == [] {
    } else {
      TicksAtPeriods(c, patience, Step(c, s, run[0]), run[1..]);
      OneMore(c.pingPeriod, Ticks(run[1..]));
    }
  }

  /** The connection expires exactly when more than the pong wait has passed since the last pong, or
      since the start if there was none; pings go out at every period; and each pong answers one. */
  lemma ExpiresIff(c: Config, patience: nat, run: seq<Label>)
    requires Legal(c, patience, Start(c), run)
    ensures var t := After(c, patience, Start(c), run);
      && (!Alive(t) <==> Elapsed(run) - LastPong(0, 0, run) > c.pongWait)
      && t.nextTick == c.pingPeriod * (Ticks(run) + 1)
      && |t.unanswered| == Ticks(run) - Pongs(run)
  {
    StateFromLabels(c, patience, Start(c), 0, run);
    TicksAtPeriods(c, patience, Start(c), run);
    OneMore(c.pingPeriod, Ticks(run));
  }

  /** A peer that answers every ping at once. */
  function Prompt(c: Config, pings: nat): seq<Label> {
    if pings == 0 then [] else [Wait(c.pingPeriod), Tick, Pong] + Prompt(c, pings - 1)
  }

  lemma {:induction false} PromptIsLegal(c: Config, patience: nat, s: State, pings: nat)
    requires c.Sensible() && s.unanswered == [] && s.now + c.pingPeriod == s.nextTick
    ensures Legal(c, patience, s, Prompt(c, pings))
    ensures After(c, patience, s, Prompt(c, pings)).now == s.now + c.pingPeriod * pings
    decreases pings
  {
    if pings == 0 {
    } else {
      var rest := Prompt(c, pings - 1);
      var s1 := Step(c, s, Wait(c.pingPeriod));
      var s2 := Step(c, s1, Tick);
      var s3 := Step(c, s2, Pong);
      assert Prompt(c, pings)[1..] == [Tick, Pong] + rest && ([Tick, Pong] + rest)[1..] == [Pong] + rest;
      assert ([Pong] + rest)[1..] == rest;
      PromptIsLegal(c, patience, s3, pings - 1);
      assert Legal(c, patience, s2, [Pong] + rest) && Legal(c, patience, s1, [Tick, Pong] + rest);
      assert Legal(c, patience, s, Prompt(c, pings));
      assert After(c, patience, s2, [Pong] + rest) == After(c, patience, s3, rest);
      assert After(c, patience, s1, [Tick, Pong] + rest) == After(c, patience, s2, [Pong] + rest);
      OneMore(c.pingPeriod, pings - 1);
    }
  }

  /** So connections do live for any length of time, whatever little patience is needed. */
  lemma PromptPeersLiveOn(c: Config, pings: nat)
    requires c.Sensible()
    ensures Legal(c, 0, Start(c), Prompt(c, pings))
    ensures var t := After(c, 0, Start(c), Prompt(c, pings)); t.now == c.pingPeriod * pings && Alive(t)
  {
    PromptIsLegal(c, 0, Start(c), pings);
    PatientPeersStayAlive(c, 0, Start(c), Prompt(c, pings));
  }
}
