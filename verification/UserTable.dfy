/** The users table: what each SQL statement does to it, and the repository in front of it.

    A statement is atomic. `Exec` is the meaning of the three mutating statements; the
    methods of `Repository` are proved against it. */
module UserTable {
  import opened Users

  type Table = map<Id, Row>

  datatype Op =
    | Create(id: Id, profile: Profile, now: nat)
    | Update(id: Id, profile: Profile, now: nat)
    | Delete(id: Id, now: nat)

  /** `Errored` is a database error that the repository does not know. */
  datatype Outcome = Stored(id: Id, row: Row) | Removed | NotFound | AlreadyExists | Errored {
    predicate Succeeded() {
      Stored? || Removed?
    }
  }

  predicate IsLive(t: Table, id: Id) {
    id in t && t[id].Live()
  }

  /** The partial unique index: some live row, other than those excepted, has the email. */
  predicate EmailTaken(t: Table, email: string, except: set<Id>) {
    exists id :: id in t && id !in except && t[id].Live() && t[id].profile.email == email
  }

  function Exec(t: Table, op: Op): (Table, Outcome) {
    match op
    case Create(id, profile, now) =>
      if EmailTaken(t, profile.email, {}) then
        (t, AlreadyExists)
      else
        var row := Row(profile, now, now, None);
        (t[id := row], Stored(id, row))
    case Update(id, profile, now) =>
      if !IsLive(t, id) then
        (t, NotFound)
      else if EmailTaken(t, profile.email, {id}) then
        (t, AlreadyExists)
      else
        var row := t[id].(profile := profile, updatedAt := now);
        (t[id := row], Stored(id, row))
    case Delete(id, now) =>
      if !IsLive(t, id) then
        (t, NotFound)
      else
        (t[id := t[id].(deletedAt := Some(now))], Removed)
  }

  /** What the repository makes of a statement. When the database does not answer, the statement
      has had no effect; `Create` and `Delete` report the error, but `Update` swallows it and
      returns a blank user. */
  function Attempt(t: Table, op: Op, answers: bool): (Table, Outcome) {
    if answers then Exec(t, op) else (t, if op.Update? then Stored(NIL_ID, BLANK_ROW) else Errored)
  }

  /** A generated identifier has never been used, not even by a deleted row. */
  predicate FreshId(t: Table, op: Op) {
    op.Create? ==> op.id !in t
  }

  predicate FreshIds(t: Table, ops: seq<Op>)
    decreases ops
  {
    ops == [] || (FreshId(t, ops[0]) && FreshIds(Exec(t, ops[0]).0, ops[1..]))
  }

  function Run(t: Table, ops: seq<Op>): (Table, seq<Outcome>)
    decreases ops
  {
    if ops == [] then (t, [])
    else
      var (t1, first) := Exec(t, ops[0]);
      var (t2, rest) := Run(t1, ops[1..]);
      (t2, [first] + rest)
  }

  ghost predicate UniqueEmails(t: Table) {
    forall i, j :: IsLive(t, i) && IsLive(t, j) && t[i].profile.email == t[j].profile.email ==> i == j
  }

  lemma ExecKeepsEmailsUnique(t: Table, op: Op)
    requires UniqueEmails(t)
    ensures UniqueEmails(Exec(t, op).0)
  {
  }

  /** What later tables owe to earlier ones: rows never disappear, keep their creation time,
      and stay as they are once deleted. */
  ghost predicate Extends(t: Table, t': Table) {
    forall id :: id in t ==> id in t' && t'[id].createdAt == t[id].createdAt && (t[id].Live() || t'[id] == t[id])
  }

  /** Over every run: live emails stay unique, and a deleted row is frozen and never revives. */
  lemma {:induction false} RunKeepsHistory(t: Table, ops: seq<Op>)
    requires UniqueEmails(t) && FreshIds(t, ops)
    ensures UniqueEmails(Run(t, ops).0) && Extends(t, Run(t, ops).0)
    decreases ops
  {
    hide Extends, UniqueEmails, Exec;
    if ops == [] {
      ExtendsIsReflexive(t);
    } else {
      var t1 := Exec(t, ops[0]).0;
      ExecKeepsEmailsUnique(t, ops[0]);
      ExecExtends(t, ops[0]);
      RunKeepsHistory(t1, ops[1..]);
      ExtendsIsTransitive(t, t1, Run(t1, ops[1..]).0);
    }
  }

  lemma ExecExtends(t: Table, op: Op)
    requires FreshId(t, op)
    ensures Extends(t, Exec(t, op).0)
  {
  }

  lemma ExtendsIsReflexive(t: Table)
    ensures Extends(t, t)
  {
  }

  lemma ExtendsIsTransitive(a: Table, b: Table, c: Table)
    requires Extends(a, b) && Extends(b, c)
    ensures Extends(a, c)
  {
  }

  /** Exactly when each statement succeeds, and what a failure leaves behind: the table as
      it was. */
  lemma ExecSucceedsIff(t: Table, op: Op)
    ensures Exec(t, op).1.Succeeded() <==>
            match op
            case Create(_, p, _) => forall i :: IsLive(t, i) ==> t[i].profile.email != p.email
            case Update(id, p, _) =>
              IsLive(t, id) && forall i :: IsLive(t, i) && i != id ==> t[i].profile.email != p.email
            case Delete(id, _) => IsLive(t, id)
    ensures !Exec(t, op).1.Succeeded() ==> Exec(t, op).0 == t
  {
  }

  /** What each statement writes when it succeeds: one row, field by field, and no other. */
  lemma ExecWrites(t: Table, op: Op)
    requires Exec(t, op).1.Succeeded()
    ensures var t' := Exec(t, op).0;
      && t'.Keys == t.Keys + {op.id}
      && (forall id :: id in t && id != op.id ==> t'[id] == t[id])
      && match op
         case Create(id, p, now) => t'[id] == Row(p, now, now, None)
         case Update(id, p, now) => id in t && t'[id] == Row(p, t[id].createdAt, now, None)
         case Delete(id, now) => id in t && t'[id] == Row(t[id].profile, t[id].createdAt, t[id].updatedAt, Some(now))
  {
  }

  /** A deleted user's email can be used again at once, and the newcomer is then the only
      live user who has it. */
  lemma DeletedEmailIsReusable(t: Table, id: Id, deletedAt: nat, newId: Id, profile: Profile, now: nat)
    requires UniqueEmails(t) && IsLive(t, id) && newId !in t
    requires profile.email == t[id].profile.email
    ensures var t1 := Exec(t, Delete(id, deletedAt)).0;
      var (t2, outcome) := Exec(t1, Create(newId, profile, now));
      && outcome.Stored?
      && IsLive(t2, newId) && !IsLive(t2, id)
      && forall i :: IsLive(t2, i) && t2[i].profile.email == profile.email ==> i == newId
  {
  }

  // ---------------------------------------------------------------------------------------
  // The plain map of live users that the table stands for

  /** Live users only, with an index from email to id that each operation maintains. */
  datatype Directory = Directory(users: map<Id, Row>, byEmail: map<string, Id>)

  function DirectoryExec(d: Directory, op: Op): (Directory, Outcome) {
    match op
    case Create(id, profile, now) =>
      if profile.email in d.byEmail then
        (d, AlreadyExists)
      else
        var row := Row(profile, now, now, None);
        (Directory(d.users[id := row], d.byEmail[profile.email := id]), Stored(id, row))
    case Update(id, profile, now) =>
      if id !in d.users then
        (d, NotFound)
      else if profile.email in d.byEmail && d.byEmail[profile.email] != id then
        (d, AlreadyExists)
      else
        var row := d.users[id].(profile := profile, updatedAt := now);
        (Directory(d.users[id := row], (d.byEmail - {d.users[id].profile.email})[profile.email := id]),
         Stored(id, row))
    case Delete(id, now) =>
      if id !in d.users then
        (d, NotFound)
      else
        (Directory(d.users - {id}, d.byEmail - {d.users[id].profile.email}), Removed)
  }

  function DirectoryRun(d: Directory, ops: seq<Op>): (Directory, seq<Outcome>)
    decreases ops
  {
    if ops == [] then (d, [])
    else
      var (d1, first) := DirectoryExec(d, ops[0]);
      var (d2, rest) := DirectoryRun(d1, ops[1..]);
      (d2, [first] + rest)
  }

  /** The directory holds exactly the live rows, and its index is exactly their emails. */
  ghost predicate Represents(d: Directory, t: Table) {
    && (forall id :: id in d.users <==> IsLive(t, id))
    && (forall id :: id in d.users ==> d.users[id] == t[id])
    && (forall e :: e in d.byEmail ==> d.byEmail[e] in d.users && d.users[d.byEmail[e]].profile.email == e)
    && (forall id :: id in d.users ==> d.users[id].profile.email in d.byEmail
                                       && d.byEmail[d.users[id].profile.email] == id)
  }

  lemma EmailTakenIsIndexed(d: Directory, t: Table, email: string, except: set<Id>)
    requires Represents(d, t)
    ensures EmailTaken(t, email, except) <==> email in d.byEmail && d.byEmail[email] !in except
  {
  }

  lemma StepRefinesDirectory(d: Directory, t: Table, op: Op)
    requires Represents(d, t) && FreshId(t, op)
    ensures Represents(DirectoryExec(d, op).0, Exec(t, op).0)
    ensures DirectoryExec(d, op).1 == Exec(t, op).1
  {
    var d' := DirectoryExec(d, op).0;
    var t' := Exec(t, op).0;
    if op.Create? {
      EmailTakenIsIndexed(d, t, op.profile.email, {});
    } else if op.Update? {
      EmailTakenIsIndexed(d, t, op.profile.email, {op.id});
    }
    assert IsLive(t, op.id) <==> op.id in d.users;
    forall id ensures id in d'.users <==> IsLive(t', id) {
      assert id != op.id ==> (IsLive(t', id) <==> IsLive(t, id));
    }
  }

  /** The table refines the directory: over every run the two give the same outcomes and
      stay related, so a caller cannot tell them apart. */
  lemma {:induction false} TableRefinesDirectory(d: Directory, t: Table, ops: seq<Op>)
    requires Represents(d, t) && FreshIds(t, ops)
    ensures Represents(DirectoryRun(d, ops).0, Run(t, ops).0)
    ensures DirectoryRun(d, ops).1 == Run(t, ops).1
    decreases ops
  {
    if ops == [] {
    } else {
      StepRefinesDirectory(d, t, ops[0]);
      TableRefinesDirectory(DirectoryExec(d, ops[0]).0, Exec(t, ops[0]).0, ops[1..]);
    }
  }

  // ---------------------------------------------------------------------------------------
  // Queries

  predicate Selected(t: Table, status: Option<string>, id: Id) {
    IsLive(t, id) && (status.None? || t[id].profile.status == status.value)
  }

  /** An answer the database may give to the ordered query: every selected row once, newest
      first. Rows created at the same instant may come in either order. */
  ghost predicate IsScan(t: Table, status: Option<string>, scan: seq<Id>) {
    && (forall id :: id in scan <==> Selected(t, status, id))
    && (forall i, j :: 0 <= i < j < |scan| ==> scan[i] != scan[j])
    && (forall i, j :: 0 <= i < j < |scan| && scan[i] in t && scan[j] in t ==>
          t[scan[i]].createdAt >= t[scan[j]].createdAt)
  }

  /** SQL `LIMIT limit OFFSET offset`. */
  function Window<T>(s: seq<T>, limit: nat, offset: nat): seq<T> {
    var rest := if offset <= |s| then s[offset..] else [];
    if limit <= |rest| then rest[..limit] else rest
  }

  lemma WindowIsSelected(t: Table, status: Option<string>, scan: seq<Id>, limit: nat, offset: nat)
    requires IsScan(t, status, scan)
    ensures var result := Window(scan, limit, offset);
      && (forall i :: 0 <= i < |result| ==> Selected(t, status, result[i]))
      && (forall i, j :: 0 <= i < j < |result| ==>
            result[i] != result[j] && t[result[i]].createdAt >= t[result[j]].createdAt)
  {
    var result := Window(scan, limit, offset);
    forall i | 0 <= i < |result| ensures result[i] in scan && Selected(t, status, result[i]) {
      assert result[i] == scan[offset + i];
    }
    forall i, j | 0 <= i < j < |result|
      ensures result[i] != result[j] && t[result[i]].createdAt >= t[result[j]].createdAt
    {
      assert result[i] == scan[offset + i] && result[j] == scan[offset + j];
    }
  }

  datatype Found = Hit(id: Id, row: Row) | Miss | Unavailable

  class Repository {
    var rows: Table

    constructor ()
      ensures rows == map[]
    {
      rows := map[];
    }

    /** `id` is the identifier the database generates. */
    method CreateUser(id: Id, profile: Profile, now: nat, answers: bool) returns (outcome: Outcome)
      requires id !in rows
      modifies this
      ensures (rows, outcome) == Attempt(old(rows), Create(id, profile, now), answers)
      ensures outcome.Stored? <==> id in rows
      ensures outcome.Stored? ==>
                rows == old(rows)[id := Row(profile, now, now, None)] && outcome == Stored(id, rows[id])
      ensures outcome.Stored? || (outcome.Errored? == !answers && rows == old(rows))
    {
      if !answers {
        return Errored;
      }
      if exists other :: other in rows && rows[other].Live() && rows[other].profile.email == profile.email {
        return AlreadyExists;
      }
      var row := Row(profile, now, now, None);
      rows := rows[id := row];
      outcome := Stored(id, row);
    }

    /** An error that the repository does not know is swallowed, and a blank user returned. */
    method UpdateUser(id: Id, profile: Profile, now: nat, answers: bool) returns (outcome: Outcome)
      modifies this
      ensures (rows, outcome) == Attempt(old(rows), Update(id, profile, now), answers)
      ensures outcome.NotFound? <==> answers && !IsLive(old(rows), id)
      ensures outcome.Stored? && answers ==>
                && IsLive(old(rows), id) && outcome == Stored(id, rows[id])
                && rows == old(rows)[id := Row(profile, old(rows)[id].createdAt, now, None)]
      ensures !answers ==> outcome == Stored(NIL_ID, BLANK_ROW) && rows == old(rows)
    {
      if !answers {
        return Stored(NIL_ID, BLANK_ROW);
      }
      if id !in rows || !rows[id].Live() {
        return NotFound;
      }
      if exists other ::
           other in rows && other != id && rows[other].Live() && rows[other].profile.email == profile.email
      {
        return AlreadyExists;
      }
      var row := rows[id].(profile := profile, updatedAt := now);
      rows := rows[id := row];
      outcome := Stored(id, row);
    }

    method DeleteUser(id: Id, now: nat, answers: bool) returns (outcome: Outcome)
      modifies this
      ensures (rows, outcome) == Attempt(old(rows), Delete(id, now), answers)
      ensures (answers ==> !IsLive(rows, id)) && rows.Keys == old(rows).Keys
      ensures outcome.Removed? ==>
                IsLive(old(rows), id) && rows == old(rows)[id := old(rows)[id].(deletedAt := Some(now))]
      ensures !outcome.Removed? ==> rows == old(rows) && outcome == if answers then NotFound else Errored
    {
      if !answers {
        return Errored;
      }
      var rowsAffected := 0;
      if id in rows && rows[id].Live() {
        rows := rows[id := rows[id].(deletedAt := Some(now))];
        rowsAffected := 1;
      }
      outcome := if rowsAffected == 0 then NotFound else Removed;
    }

    /** Swallows an unknown error too. */
    method GetByID(id: Id, answers: bool) returns (found: Found)
      ensures answers ==> (found.Hit? <==> IsLive(rows, id)) && (found.Miss? <==> !IsLive(rows, id))
      ensures answers && found.Hit? ==> found.id == id && found.row == rows[id]
      ensures !answers ==> found == Hit(NIL_ID, BLANK_ROW)
    {
      if !answers {
        return Hit(NIL_ID, BLANK_ROW);
      }
      if id in rows && rows[id].Live() {
        return Hit(id, rows[id]);
      }
      found := Miss;
    }

    method GetByEmail(email: string, answers: bool) returns (found: Found)
      ensures found.Unavailable? <==> !answers
      ensures found.Hit? <==> answers && EmailTaken(rows, email, {})
      ensures found.Hit? ==> IsLive(rows, found.id) && found.row == rows[found.id] && found.row.profile.email == email
    {
      if !answers {
        return Unavailable;
      }
      if exists id :: id in rows && rows[id].Live() && rows[id].profile.email == email {
        var id :| id in rows && rows[id].Live() && rows[id].profile.email == email;
        return Hit(id, rows[id]);
      }
      found := Miss;
    }

    /** `scan` is the order in which the database happens to answer. */
    method List(ghost status: Option<string>, limit: nat, offset: nat, scan: seq<Id>, answers: bool)
      returns (found: Option<seq<(Id, Row)>>)
      requires IsScan(rows, status, scan)
      ensures found.Some? <==> answers
      ensures found.Some? ==> |found.value| == |Window(scan, limit, offset)|
      ensures found.Some? ==> forall i :: 0 <= i < |found.value| ==>
                && found.value[i].0 == Window(scan, limit, offset)[i]
                && IsLive(rows, found.value[i].0)
                && found.value[i].1 == rows[found.value[i].0]
                && (status.Some? ==> found.value[i].1.profile.status == status.value)
      ensures found.Some? ==> forall i, j :: 0 <= i < j < |found.value| ==>
                found.value[i].0 != found.value[j].0 && found.value[i].1.createdAt >= found.value[j].1.createdAt
    {
      if !answers {
        return None;
      }
      var result := Window(scan, limit, offset);
      WindowIsSelected(rows, status, scan, limit, offset);
      hide IsScan, Window;
      var users: seq<(Id, Row)> := [];
      for i := 0 to |result|
        invariant |users| == i
        invariant forall j :: 0 <= j < i ==>
                    users[j].0 == result[j] && IsLive(rows, result[j]) && users[j].1 == rows[result[j]]
      {
        users := users + [(result[i], rows[result[i]])];
      }
      found := Some(users);
    }
  }

  /** Lookups by id and by email answer as the directory would. */
  lemma LookupsAnswerAsDirectory(d: Directory, t: Table, id: Id, email: string)
    requires Represents(d, t)
    ensures IsLive(t, id) <==> id in d.users
    ensures IsLive(t, id) ==> d.users[id] == t[id]
    ensures EmailTaken(t, email, {}) <==> email in d.byEmail
    ensures forall i :: IsLive(t, i) && t[i].profile.email == email ==> email in d.byEmail && d.byEmail[email] == i
  {
  }
}
