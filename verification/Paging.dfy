/** Pages of a list, as the cache cuts them and as the database does. */
module Paging {
  import opened Sequences
  import opened Users
  import opened UserTable
  import opened Journal
  import opened Service

  /** The cache can cut the page out of `n` users: otherwise its slice expression panics. */
  predicate PageFits(n: nat, limit: int, offset: int) {
    limit == 0 || offset >= n || (limit > 0 && offset >= 0)
  }

  /** A page as the cache cuts it: a zero limit means no paging at all. */
  function Page<T>(s: seq<T>, limit: int, offset: int): seq<T>
    requires PageFits(|s|, limit, offset)
  {
    if limit == 0 then s
    else if offset >= |s| then []
    else
      var end := if offset + limit > |s| then |s| else offset + limit;
      s[offset..end]
  }

  function Min(a: int, b: int): int {
    if a <= b then a else b
  }

  function Max(a: int, b: int): int {
    if a <= b then b else a
  }

  /** With a positive limit the cache pages as SQL does, and the page has the length one
      expects. */
  lemma PageIsWindow<T>(s: seq<T>, limit: nat, offset: nat)
    requires limit > 0
    ensures Page(s, limit, offset) == Window(s, limit, offset)
    ensures |Page(s, limit, offset)| == Max(0, Min(limit, |s| - offset))
  {
  }

  /** The first `count` pages, one after the other. */
  function FirstPages<T>(s: seq<T>, limit: nat, count: nat): seq<T> {
    if count == 0 then [] else FirstPages(s, limit, count - 1) + Page(s, limit, limit * (count - 1))
  }

  lemma NextPage<T>(s: seq<T>, limit: nat, offset: nat)
    requires limit > 0
    ensures s[..Min(offset, |s|)] + Page(s, limit, offset) == s[..Min(offset + limit, |s|)]
  {
    if offset < |s| {
      assert s[..offset] + s[offset..Min(offset + limit, |s|)] == s[..Min(offset + limit, |s|)];
    }
  }

  /** Pages partition: the pages at offsets 0, L, 2L, ... put together are exactly the list, as
      far as they reach. */
  lemma {:induction false} PagesPartition<T>(s: seq<T>, limit: nat, count: nat)
    requires limit > 0
    ensures FirstPages(s, limit, count) == s[..Min(limit * count, |s|)]
  {
    if count == 0 {
    } else {
      PagesPartition(s, limit, count - 1);
      assert limit * count == limit * (count - 1) + limit;
      NextPage(s, limit, limit * (count - 1));
    }
  }

  lemma EnoughPagesCoverAll<T>(s: seq<T>, limit: nat, count: nat)
    requires limit > 0 && limit * count >= |s|
    ensures FirstPages(s, limit, count) == s
  {
    PagesPartition(s, limit, count);
  }

  // ---------------------------------------------------------------------------------------
  // A cached page beside the server's

  predicate Matches(u: UserDTO, status: Option<string>) {
    status.None? || u.profile.status == status.value
  }

  /** An order in which iterating over the cache may meet the matching users. */
  ghost predicate IsEnumeration(order: seq<Id>, v: View, status: Option<string>) {
    NoRepeats(order) && forall id :: id in order <==> id in v && Matches(v[id], status)
  }

  /** The records at some ids. */
  function Records(v: View, ids: seq<Id>): (r: seq<UserDTO>)
    requires forall id :: id in ids ==> id in v
    ensures |r| == |ids|
  {
    seq(|ids|, i requires 0 <= i < |ids| => v[ids[i]])
  }

  function Matching(v: View, status: Option<string>): set<Id> {
    set id | id in v && Matches(v[id], status)
  }

  /** A page that the cache may answer with: cut from the matching users, in some order. */
  ghost predicate IsCachedPage(page: seq<UserDTO>, v: View, status: Option<string>, limit: int, offset: int) {
    exists order ::
      && IsEnumeration(order, v, status)
      && PageFits(|order|, limit, offset)
      && page == Page(Records(v, order), limit, offset)
  }

  lemma RecordsOfLiveView(t: Table, status: Option<string>, ids: seq<Id>)
    requires NoRepeats(ids) && forall id :: id in ids <==> Selected(t, status, id)
    ensures forall id :: id in ids ==> id in DTOView(t)
    ensures NoRepeats(Records(DTOView(t), ids))
    ensures forall u: UserDTO :: u in Records(DTOView(t), ids) <==>
              Selected(t, status, u.userId) && u == ToDTO(u.userId, t[u.userId])
  {
    var us := Records(DTOView(t), ids);
    forall i | 0 <= i < |ids| ensures ids[i] in t && us[i].userId == ids[i] && us[i] == ToDTO(ids[i], t[ids[i]]) {
      assert ids[i] in ids;
    }
    forall u: UserDTO | Selected(t, status, u.userId) && u == ToDTO(u.userId, t[u.userId]) ensures u in us {
      var i :| 0 <= i < |ids| && ids[i] == u.userId;
      assert us[i] == u;
    }
  }

  /** When the cache is the live view, a cached page has the length of the server's page, holds
      only live users that match, as the server would send them, and none of them twice; and a
      page that covers everything is a permutation of the server's. Their orders may differ:
      neither is fixed. */
  lemma CachedPageAgrees(t: Table, status: Option<string>, page: seq<UserDTO>, scan: seq<Id>, limit: nat, offset: nat)
    requires IsCachedPage(page, DTOView(t), status, limit, offset) && IsScan(t, status, scan) && limit > 0
    ensures |page| == |Window(scan, limit, offset)|
    ensures NoRepeats(page)
    ensures forall u :: u in page ==> Selected(t, status, u.userId) && u == ToDTO(u.userId, t[u.userId])
    ensures forall id :: id in scan ==> id in DTOView(t)
    ensures offset == 0 && limit >= |scan| ==> multiset(page) == multiset(Records(DTOView(t), scan))
  {
    var order :| IsEnumeration(order, DTOView(t), status) && page == Page(Records(DTOView(t), order), limit, offset);
    hide Page, Window, Records, ToDTO;
    RecordsOfLiveView(t, status, order);
    RecordsOfLiveView(t, status, scan);
    var cached, served := Records(DTOView(t), order), Records(DTOView(t), scan);
    SameMembersSameMultiset(cached, served);
    PageFacts(cached, limit, offset);
    PageIsWindow(cached, limit, offset);
    PageIsWindow(scan, limit, offset);
  }

  lemma PageFacts<T(!new)>(s: seq<T>, limit: int, offset: int)
    requires PageFits(|s|, limit, offset)
    ensures NoRepeats(s) ==> NoRepeats(Page(s, limit, offset))
    ensures forall x :: x in Page(s, limit, offset) ==> x in s
    ensures offset == 0 && limit >= |s| ==> Page(s, limit, offset) == s
  {
    if limit != 0 && offset < |s| {
      var end := if offset + limit > |s| then |s| else offset + limit;
      assert forall x :: x in s[offset..end] ==> x in s;
    }
  }

  /** When the cache is the live view, a hit by email can only be the user that the server
      would return, whatever order the cache is searched in; and there is a hit exactly when
      the server would find someone. */
  lemma EmailHitAgrees(t: Table, email: string)
    requires UniqueEmails(t)
    ensures forall i, j :: i in DTOView(t) && DTOView(t)[i].profile.email == email
                           && IsLive(t, j) && t[j].profile.email == email
                           ==> i == j && DTOView(t)[i] == ToDTO(j, t[j])
    ensures (exists i :: i in DTOView(t) && DTOView(t)[i].profile.email == email) <==> EmailTaken(t, email, {})
  {
    forall i, j | i in DTOView(t) && DTOView(t)[i].profile.email == email && IsLive(t, j) && t[j].profile.email == email
      ensures i == j
    {
      assert IsLive(t, i);
    }
    if EmailTaken(t, email, {}) {
      var id :| id in t && t[id].Live() && t[id].profile.email == email;
      assert id in DTOView(t) && DTOView(t)[id].profile.email == email;
    }
  }
}
