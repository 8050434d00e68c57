/** The client library: the cache and the goroutines around it, as objects. */
module UserClient {
  import opened Sequences
  import opened Users
  import opened UserTable
  import opened Journal
  import opened Service
  import opened Pipeline
  import opened Paging

  newtype int32 = x: int | -0x8000_0000 <= x < 0x8000_0000
  newtype int64 = x: int | -0x8000_0000_0000_0000 <= x < 0x8000_0000_0000_0000

  class Cache {
    var users: View

    constructor ()
      ensures users == map[]
    {
      users := map[];
    }

    method Get(id: Id) returns (found: Option<UserDTO>)
      ensures found == Lookup(users, id)
    {
      found := if id in users then Some(users[id]) else None;
    }

    method Set(user: UserDTO)
      modifies this
      ensures Lookup(users, user.userId) == Some(user)
      ensures forall id :: id != user.userId ==> Lookup(users, id) == Lookup(old(users), id)
      ensures users == old(users)[user.userId := user]
    {
      users := users[user.userId := user];
    }

    method Delete(id: Id)
      modifies this
      ensures Lookup(users, id) == None
      ensures forall other :: other != id ==> Lookup(users, other) == Lookup(old(users), other)
      ensures users == old(users) - {id}
    {
      users := users - {id};
    }

    /** Searches in whatever order the map is iterated. */
    method GetByEmail(email: string) returns (found: Option<UserDTO>)
      ensures found.Some? <==> HasEmail(users, email)
      ensures found.Some? ==> exists id :: id in users && users[id] == found.value && found.value.profile.email == email
    {
      var rest := users.Keys;
      while rest != {}
        invariant rest <= users.Keys
        invariant forall id :: id in users && id !in rest ==> users[id].profile.email != email
        decreases |rest|
      {
        var id :| id in rest;
        if users[id].profile.email == email {
          return Some(users[id]);
        }
        rest := rest - {id};
      }
      found := None;
    }

    /** Meets the users in whatever order the map is iterated. */
    method Filter(status: Option<string>) returns (filtered: seq<UserDTO>)
      ensures |filtered| == |Matching(users, status)|
      ensures exists order :: IsEnumeration(order, users, status) && filtered == Records(users, order)
    {
      filtered := [];
      ghost var order: seq<Id> := [];
      var rest := users.Keys;
      while rest != {}
        invariant rest <= users.Keys
        invariant NoRepeats(order)
        invariant forall id :: id in order <==> id in users && id !in rest && Matches(users[id], status)
        invariant filtered == Records(users, order)
        decreases |rest|
      {
        var id :| id in rest;
        rest := rest - {id};
        if Matches(users[id], status) {
          filtered := filtered + [users[id]];
          order := order + [id];
        }
      }
      NoRepeatsSize(order, Matching(users, status));
      assert IsEnumeration(order, users, status);
    }

    /** Offset and limit are 32-bit and their sum is taken in 64 bits, so it cannot overflow.
        `None` is a panic, which comes of nothing but a negative offset or limit that the slice
        expression meets. */
    method List(status: Option<string>, limit: int32, offset: int32) returns (page: Option<seq<UserDTO>>)
      ensures page.None? <==>
              limit != 0 && (limit < 0 || offset < 0) && (offset as int) < |Matching(users, status)|
      ensures page.Some? ==> IsCachedPage(page.value, users, status, limit as int, offset as int)
    {
      var filtered := Filter(status);
      ghost var order :| IsEnumeration(order, users, status) && filtered == Records(users, order);
      hide Records, IsEnumeration, Matching;
      if limit == 0 {
        page := Some(filtered);
      } else if offset as int >= |filtered| {
        page := Some([]);
      } else {
        var start := offset as int64;
        var end := start + limit as int64;
        if end as int > |filtered| {
          end := |filtered| as int64;
        }
        page := if 0 <= start <= end then Some(filtered[start..end]) else None;
      }
      assert page.Some? ==> page.value == Page(Records(users, order), limit as int, offset as int);
    }
  }

  // ---------------------------------------------------------------------------------------
  // Cache updates

  const CREATED := "created"
  const UPDATED := "updated"
  const DELETED := "deleted"

  /** What the bridge puts on the update channel. */
  datatype CacheUpdate = CacheUpdate(eventType: string, user: Option<UserDTO>, userId: Id)

  function ToUpdate(e: Event): CacheUpdate {
    match e
    case Created(user) => CacheUpdate(CREATED, Some(user), "")
    case Updated(user) => CacheUpdate(UPDATED, Some(user), "")
    case Deleted(id) => CacheUpdate(DELETED, None, id)
  }

  /** An update without a user, or of an unknown type, is logged and changes nothing. */
  function ApplyUpdate(v: View, update: CacheUpdate): View {
    if update.eventType == CREATED || update.eventType == UPDATED then
      if update.user.None? then v else v[update.user.value.userId := update.user.value]
    else if update.eventType == DELETED then
      v - {update.userId}
    else v
  }

  lemma UpdateDoesAsEvent(v: View, e: Event)
    ensures ApplyUpdate(v, ToUpdate(e)) == Apply(v, e)
    ensures ToUpdate(e).eventType == if e.Created? then "created" else if e.Updated? then "updated" else "deleted"
  {
  }

  /** Setting the users of a list one by one. */
  function SetAll(v: View, users: seq<UserDTO>): View {
    if users == [] then v
    else SetAll(v, users[..|users| - 1])[users[|users| - 1].userId := users[|users| - 1]]
  }

  lemma {:induction false} SetAllLookup(v: View, users: seq<UserDTO>, id: Id)
    requires forall i, j :: 0 <= i < j < |users| ==> users[i].userId != users[j].userId
    ensures forall i :: 0 <= i < |users| && users[i].userId == id ==> Lookup(SetAll(v, users), id) == Some(users[i])
    ensures (forall i :: 0 <= i < |users| ==> users[i].userId != id) ==> Lookup(SetAll(v, users), id) == Lookup(v, id)
  {
    if users == [] {
    } else {
      SetAllLookup(v, users[..|users| - 1], id);
    }
  }

  /** Loading the server's reply into an empty cache, in whatever order the rows come, gives
      exactly the live view. */
  lemma LoadGivesLiveView(t: Table, scan: seq<Id>, dtos: seq<UserDTO>)
    requires IsScan(t, None, scan) && |dtos| == |scan|
    requires forall i :: 0 <= i < |scan| ==> scan[i] in t && dtos[i] == ToDTO(scan[i], t[scan[i]])
    ensures SetAll(map[], dtos) == DTOView(t)
  {
    forall id ensures Lookup(SetAll(map[], dtos), id) == Lookup(DTOView(t), id) {
      SetAllLookup(map[], dtos, id);
      if id in DTOView(t) {
        assert Selected(t, None, id);
        var i :| 0 <= i < |scan| && scan[i] == id;
        assert dtos[i].userId == id;
      } else {
        assert forall i :: 0 <= i < |scan| ==> scan[i] in scan && dtos[i].userId == scan[i];
      }
    }
    LookupsDetermineView(SetAll(map[], dtos), DTOView(t));
  }

  // ---------------------------------------------------------------------------------------
  // The client

  /** What a call comes to. A call that panicked does not return. */
  datatype Answer<+T> = Got(value: T) | Refused(code: ErrorCode) | NoAnswer | Panicked

  /** What some moves of bridge and processor do to the channels and to the cache, which takes in
      order what the processor finishes with. */
  ghost predicate MovedBy(moves: seq<Move<Event>>, p: Pipe<Event>, q: Pipe<Event>, before: View, after: View) {
    var f := Flow(p, [], [], []);
    && NoOffers(moves) && Admits(f, moves)
    && FlowRun(f, moves).pipe == q
    && after == Replay(before, FlowRun(f, moves).applied)
  }

  lemma MovedByNone(p: Pipe<Event>, before: View)
    ensures MovedBy([], p, p, before, before)
  {
  }

  lemma MovedByOneMore(moves: seq<Move<Event>>, m: Move<Event>, p: Pipe<Event>, q: Pipe<Event>,
                       before: View, after: View)
    requires MovedBy(moves, p, q, before, after) && !m.Offer? && CanMove(q, m)
    ensures MovedBy(moves + [m], p, PipeStep(q, m), before, if m.Finish? then Apply(after, q.working.value) else after)
  {
    hide PipeStep, Apply, Replay;
    var f := Flow(p, [], [], []);
    RunThen(f, moves, m);
    if m.Finish? {
      ReplayConcat(before, FlowRun(f, moves).applied, [q.working.value]);
      ReplayOne(Replay(before, FlowRun(f, moves).applied), q.working.value);
    }
  }

  /** A shutdown: all that was with the processor when it began has been applied, and perhaps more;
      and with nothing left to the bridge, exactly that. */
  ghost predicate DrainedBy(moves: seq<Move<Event>>, p: Pipe<Event>, q: Pipe<Event>, before: View, after: View) {
    && MovedBy(moves, p, q, before, after)
    && DrainDone(q)
    && var applied := FlowRun(Flow(p, [], [], []), moves).applied;
       && Held(p.working) + p.updateCh <= applied
       && (p.hand.None? && p.eventCh == [] ==> applied == p.Contents() && q.Contents() == [])
  }

  /** With the bridge empty-handed nothing can be dropped. */
  lemma {:induction false} QuietBridge(f: Flow<Event>, moves: seq<Move<Event>>)
    requires f.pipe.hand.None? && f.pipe.eventCh == [] && NoOffers(moves) && Admits(f, moves)
    ensures var g := FlowRun(f, moves);
      g.pipe.hand.None? && g.pipe.eventCh == [] && Through(g) == Through(f)
    decreases moves
  {
    if moves == [] {
    } else {
      ThroughAfter(f, moves[0]);
      assert NoOffers(moves[1..]);
      hide Through;
      QuietBridge(FlowStep(f, moves[0]), moves[1..]);
    }
  }

  lemma DrainIsDone(moves: seq<Move<Event>>, p: Pipe<Event>, q: Pipe<Event>, before: View, after: View)
    requires MovedBy(moves, p, q, before, after) && DrainDone(q)
    ensures DrainedBy(moves, p, q, before, after)
  {
    hide Replay, FlowRun;
    var f := Flow(p, [], [], []);
    DrainAppliesReady(f, moves);
    assert AtProcessor(f) == Held(p.working) + p.updateCh;
    if p.hand.None? && p.eventCh == [] {
      QuietBridge(f, moves);
      assert Through(f) == p.Contents();
    }
  }

  predicate HasEmail(v: View, email: string) {
    exists id :: id in v && v[id].profile.email == email
  }

  /** Setting what a miss brought back, once the events that came first have been applied. */
  function Filled(v: View, meanwhile: seq<Event>, answer: Answer<UserDTO>): View {
    var w := Replay(v, meanwhile);
    if answer.Got? then w[answer.value.userId := answer.value] else w
  }

  /** User by user: the answer, if it is about the user; and otherwise what the events that came
      first settle about the user, or what was there before. */
  ghost predicate MissFills(before: View, meanwhile: seq<Event>, answer: Answer<UserDTO>, after: View) {
    forall id ::
      Lookup(after, id) == if answer.Got? && answer.value.userId == id then Some(answer.value)
                           else if Verdict(meanwhile, id).Some? then Verdict(meanwhile, id).value
                           else Lookup(before, id)
  }

  lemma FilledUserByUser(v: View, meanwhile: seq<Event>, answer: Answer<UserDTO>)
    ensures MissFills(v, meanwhile, answer, Filled(v, meanwhile, answer))
  {
    forall id ensures Lookup(Replay(v, meanwhile), id)
                   == if Verdict(meanwhile, id).Some? then Verdict(meanwhile, id).value else Lookup(v, id) {
      LastWriterWins(v, meanwhile, id);
    }
    hide Replay, Verdict;
  }

  const DEFAULT_LIST_LIMIT: int32 := 50

  /** One method for each atomic step of the client's goroutines, which run only in a client that
      has a cache. `pipe` is the pipeline whose steps they are; `Valid` ties it to the channels. */
  class Client {
    const cache: Cache?
    var eventCh: seq<Event>
    var hand: Option<Event>
    var updateCh: seq<CacheUpdate>
    var working: Option<CacheUpdate>
    var cacheFullyLoaded: bool
    ghost var pipe: Pipe<Event>

    ghost predicate Valid()
      reads this
    {
      && pipe.eventCh == eventCh && pipe.hand == hand
      && updateCh == MapSeq(ToUpdate, pipe.updateCh)
      && working == MapOption(ToUpdate, pipe.working)
    }

    constructor (cache: Cache?)
      ensures Valid() && this.cache == cache && !cacheFullyLoaded
      ensures pipe.Contents() == []
    {
      this.cache := cache;
      eventCh, hand, updateCh, working := [], None, [], None;
      cacheFullyLoaded := false;
      pipe := Pipe([], None, [], None);
    }

    /** The snapshot is set user by user; a failed load leaves the cache marked incomplete. */
    method LoadCache(answer: Answer<seq<UserDTO>>)
      requires Valid()
      requires cache != null
      modifies cache, this`cacheFullyLoaded
      ensures Valid()
      ensures answer.Got? ==> cacheFullyLoaded && cache.users == SetAll(old(cache.users), answer.value)
      ensures !answer.Got? ==> cacheFullyLoaded == old(cacheFullyLoaded) && cache.users == old(cache.users)
    {
      if !answer.Got? {
        return;
      }
      for i := 0 to |answer.value|
        invariant cache.users == SetAll(old(cache.users), answer.value[..i])
      {
        assert answer.value[..i + 1][..i] == answer.value[..i];
        cache.Set(answer.value[i]);
      }
      assert answer.value[..|answer.value|] == answer.value;
      cacheFullyLoaded := true;
    }

    /** The callback of an event subscription. */
    method OnEvent(e: Event)
      requires Valid()
      modifies this`eventCh, this`pipe
      ensures Valid() && pipe == PipeStep(old(pipe), Offer(e))
    {
      pipe := PipeStep(pipe, Offer(e));
      if |eventCh| < CAPACITY {
        eventCh := eventCh + [e];
      }
    }

    method BridgeTake()
      requires Valid() && CanMove(pipe, Take)
      modifies this`eventCh, this`hand, this`pipe
      ensures Valid() && pipe == PipeStep(old(pipe), Take)
    {
      pipe := PipeStep(pipe, Take);
      hand := Some(eventCh[0]);
      eventCh := eventCh[1..];
    }

    method BridgePut()
      requires Valid() && CanMove(pipe, Put)
      modifies this`hand, this`updateCh, this`pipe
      ensures Valid() && pipe == PipeStep(old(pipe), Put)
    {
      pipe := PipeStep(pipe, Put);
      if |updateCh| < CAPACITY {
        updateCh := updateCh + [ToUpdate(hand.value)];
      }
      hand := None;
    }

    method ProcessorPop()
      requires Valid() && CanMove(pipe, Pop)
      modifies this`updateCh, this`working, this`pipe
      ensures Valid() && pipe == PipeStep(old(pipe), Pop)
    {
      pipe := PipeStep(pipe, Pop);
      working := Some(updateCh[0]);
      updateCh := updateCh[1..];
    }

    method ApplyCacheUpdate(update: CacheUpdate)
      requires cache != null
      modifies cache
      ensures cache.users == ApplyUpdate(old(cache.users), update)
      ensures (update.eventType == "created" || update.eventType == "updated") && update.user.Some? ==>
                cache.users == old(cache.users)[update.user.value.userId := update.user.value]
      ensures update.eventType == "deleted" ==> cache.users == old(cache.users) - {update.userId}
      ensures update.eventType !in {"created", "updated", "deleted"} ==> cache.users == old(cache.users)
      ensures update.eventType != "deleted" && update.user.None? ==> cache.users == old(cache.users)
    {
      if update.eventType == CREATED || update.eventType == UPDATED {
        if update.user.None? {
          return;
        }
        cache.Set(update.user.value);
      } else if update.eventType == DELETED {
        cache.Delete(update.userId);
      }
    }

    method ProcessorApply()
      requires Valid() && CanMove(pipe, Finish)
      requires cache != null
      modifies cache, this`working, this`pipe
      ensures Valid() && pipe == PipeStep(old(pipe), Finish)
      ensures cache.users == Apply(old(cache.users), old(pipe).working.value)
    {
      UpdateDoesAsEvent(cache.users, pipe.working.value);
      ApplyCacheUpdate(working.value);
      pipe := PipeStep(pipe, Finish);
      working := None;
    }

    /** After `Close`, the processor applies what it finds and returns when it finds nothing. The
        bridge may go on in between, in any way. */
    method Drain()
      requires Valid()
      requires cache != null
      modifies cache, this`eventCh, this`hand, this`updateCh, this`working, this`pipe
      ensures Valid()
      ensures exists moves :: DrainedBy(moves, old(pipe), pipe, old(cache.users), cache.users)
    {
      ghost var moves: seq<Move<Event>> := [];
      MovedByNone(pipe, cache.users);
      while working.Some? || updateCh != []
        invariant Valid()
        invariant MovedBy(moves, old(pipe), pipe, old(cache.users), cache.users)
        decreases Backlog(pipe)
      {
        hide MovedBy;
        if
        case hand.None? && eventCh != [] =>
          MovedByOneMore(moves, Take, old(pipe), pipe, old(cache.users), cache.users);
          moves := moves + [Take];
          BridgeTake();
        case hand.Some? =>
          MovedByOneMore(moves, Put, old(pipe), pipe, old(cache.users), cache.users);
          moves := moves + [Put];
          BridgePut();
        case working.None? && updateCh != [] =>
          MovedByOneMore(moves, Pop, old(pipe), pipe, old(cache.users), cache.users);
          moves := moves + [Pop];
          ProcessorPop();
        case working.Some? =>
          MovedByOneMore(moves, Move.Finish, old(pipe), pipe, old(cache.users), cache.users);
          moves := moves + [Move.Finish];
          ProcessorApply();
      }
      DrainIsDone(moves, old(pipe), pipe, old(cache.users), cache.users);
    }

    /** The processor goroutine, while a request is out. */
    method ApplyMeanwhile(events: seq<Event>)
      requires cache != null
      modifies cache
      ensures cache.users == Replay(old(cache.users), events)
    {
      for i := 0 to |events|
        invariant cache.users == Replay(old(cache.users), events[..i])
      {
        assert events[..i + 1][..i] == events[..i];
        UpdateDoesAsEvent(cache.users, events[i]);
        ApplyCacheUpdate(ToUpdate(events[i]));
      }
      assert events[..|events|] == events;
    }

    /** `answer` is what the server replies, if it is asked, and `meanwhile` what the processor
        applies between the look at the cache and the set. A hit does not ask; a client without a
        cache always does. */
    method GetUserByID(id: Id, answer: Answer<UserDTO>, meanwhile: seq<Event>) returns (result: Answer<UserDTO>)
      modifies cache
      ensures cache == null ==> result == answer
      ensures cache != null && id in old(cache.users) ==>
                result == Got(old(cache.users)[id]) && cache.users == old(cache.users)
      ensures cache != null && id !in old(cache.users) ==>
                && result == answer && cache.users == Filled(old(cache.users), meanwhile, answer)
                && MissFills(old(cache.users), meanwhile, answer, cache.users)
    {
      if cache != null {
        FilledUserByUser(cache.users, meanwhile, answer);
        var found := cache.Get(id);
        if found.Some? {
          return Got(found.value);
        }
        ApplyMeanwhile(meanwhile);
      }
      if !answer.Got? {
        return answer;
      }
      if cache != null {
        cache.Set(answer.value);
      }
      result := answer;
    }

    method GetUserByEmail(email: string, answer: Answer<UserDTO>, meanwhile: seq<Event>)
      returns (result: Answer<UserDTO>)
      modifies cache
      ensures cache == null ==> result == answer
      ensures cache != null && HasEmail(old(cache.users), email) ==>
                && cache.users == old(cache.users) && result.Got?
                && result.value.profile.email == email
                && exists id :: id in cache.users && cache.users[id] == result.value
      ensures cache != null && !HasEmail(old(cache.users), email) ==>
                && result == answer && cache.users == Filled(old(cache.users), meanwhile, answer)
                && MissFills(old(cache.users), meanwhile, answer, cache.users)
    {
      if cache != null {
        FilledUserByUser(cache.users, meanwhile, answer);
        var found := cache.GetByEmail(email);
        if found.Some? {
          return Got(found.value);
        }
        ApplyMeanwhile(meanwhile);
      }
      if !answer.Got? {
        return answer;
      }
      if cache != null {
        cache.Set(answer.value);
      }
      result := answer;
    }

    /** A page comes from the cache only if the snapshot was loaded; a zero limit means 50. */
    method ListUsers(status: Option<string>, limit: int32, offset: int32, answer: Answer<seq<UserDTO>>)
      returns (result: Answer<seq<UserDTO>>)
      ensures cache == null || !cacheFullyLoaded ==> result == answer
      ensures cache != null && cacheFullyLoaded ==>
                var effective := if limit == 0 then 50 else limit as int;
                if (effective < 0 || offset < 0) && (offset as int) < |Matching(cache.users, status)|
                then result == Panicked
                else result.Got? && IsCachedPage(result.value, cache.users, status, effective, offset as int)
    {
      var effective := if limit == 0 then DEFAULT_LIST_LIMIT else limit;
      if cache != null && cacheFullyLoaded {
        var users := cache.List(status, effective, offset);
        return if users.Some? then Got(users.value) else Panicked;
      }
      result := answer;
    }
  }
}
