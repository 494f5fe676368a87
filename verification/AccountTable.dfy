/**
 The table of user accounts (src/data/repositories/UserAccountDao.cpp), the rows the audit
 trail keeps about it, and what can be read back from those rows.
 */
module AccountTable {
  import opened Prelude
  import opened Lockout
  import SetFacts

  datatype Role = Viewer | Operator | Admin

  datatype Account = Account(username: string, role: Role, passwordHash: string, active: bool,
                             mustChange: bool, lock: LockState)

  /** The rows by id, and the highest id ever given out: ids are not used again. */
  datatype Users = Users(rows: map<nat, Account>, lastId: nat)

  predicate IsActiveAdmin(a: Account) { a.role == Admin && a.active }

  predicate AdminAt(rows: map<nat, Account>, id: nat) { id in rows && IsActiveAdmin(rows[id]) }

  ghost predicate SomeAdmin(rows: map<nat, Account>) { exists id: nat :: AdminAt(rows, id) }

  // ---- Queries; each may fail ---------------------------------------------------------

  function FindById(u: Users, id: int, works: bool): Option<Account> {
    if works && 0 <= id && id in u.rows then Some(u.rows[id]) else None
  }

  function ActiveAdmins(rows: map<nat, Account>): set<nat> { set id: nat | id in rows && IsActiveAdmin(rows[id]) }

  /** A failing query counts no administrators, which refuses rather than allows. */
  function CountActiveAdmins(u: Users, works: bool): nat {
    if works then |ActiveAdmins(u.rows)| else 0
  }

  /** A failing query yields -1. */
  function Count(u: Users, works: bool): int { if works then |u.rows| else -1 }

  ghost predicate NameTaken(u: Users, username: string) { exists id :: id in u.rows && u.rows[id].username == username }

  /** The row with this username, if any. */
  method FindByUsername(u: Users, username: string, works: bool) returns (id: nat)
    ensures id != 0 ==> works && id in u.rows && u.rows[id].username == username
    ensures works && NameTaken(u, username) && 0 !in u.rows ==> id != 0
  {
    id := 0;
    if works && exists i :: i in u.rows && u.rows[i].username == username {
      id :| id in u.rows && u.rows[id].username == username;
    }
  }

  // ---- Statements; None when the row is missing or the database refuses ------------------

  function Insert(u: Users, a: Account, works: bool): Option<Users> {
    if works && a.username != "" && a.passwordHash != "" &&
       forall id | id in u.rows :: u.rows[id].username != a.username
    then Some(Users(u.rows[u.lastId + 1 := a], u.lastId + 1))
    else None
  }

  function SetActive(u: Users, id: int, active: bool, works: bool): Option<Users> {
    if works && 0 <= id && id in u.rows then Some(u.(rows := u.rows[id := u.rows[id].(active := active)])) else None
  }

  function SetRole(u: Users, id: int, role: Role, works: bool): Option<Users> {
    if works && 0 <= id && id in u.rows then Some(u.(rows := u.rows[id := u.rows[id].(role := role)])) else None
  }

  function UpdateDetails(u: Users, id: int, role: Role, active: bool, works: bool): Option<Users> {
    if works && 0 < id && id in u.rows
    then Some(u.(rows := u.rows[id := u.rows[id].(role := role, active := active)]))
    else None
  }

  function Remove(u: Users, id: int, works: bool): Option<Users> {
    if works && 0 < id && id in u.rows then Some(u.(rows := u.rows - {id})) else None
  }

  /** A new password also lifts the lockout. */
  function UpdatePasswordHash(u: Users, id: int, hash: string, mustChange: bool, works: bool): Option<Users> {
    if works && hash != "" && 0 < id && id in u.rows
    then Some(u.(rows := u.rows[id := u.rows[id].(passwordHash := hash, mustChange := mustChange, lock := CLEAN)]))
    else None
  }

  function UpdateLock(u: Users, id: nat, lock: LockState, works: bool): Option<Users> {
    if works && id in u.rows then Some(u.(rows := u.rows[id := u.rows[id].(lock := lock)])) else None
  }

  // ---- The last administrator ------------------------------------------------------------

  /** The guard before a change that takes an account away from the administrators. */
  predicate IsLastAdmin(u: Users, before: Account, staysAdmin: bool, counts: bool) {
    IsActiveAdmin(before) && !staysAdmin && CountActiveAdmins(u, counts) <= 1
  }

  function AfterChange(u: Users, id: nat, after: Option<Account>): map<nat, Account> {
    match after
    case Some(a) => u.rows[id := a]
    case None => u.rows - {id}
  }

  lemma OtherAdmin(u: Users, id: nat)
    requires CountActiveAdmins(u, true) >= 2
    ensures exists other: nat :: other != id && AdminAt(u.rows, other)
  {
    var admins := ActiveAdmins(u.rows);
    SetFacts.SomethingElse(admins, id);
    var other :| other in admins && other != id;
    assert AdminAt(u.rows, other);
  }

  lemma OnlyAdmin(u: Users, id: nat, other: nat)
    requires CountActiveAdmins(u, true) <= 1 && AdminAt(u.rows, id) && AdminAt(u.rows, other)
    ensures other == id
  {
    var admins := ActiveAdmins(u.rows);
    if other != id {
      SetFacts.SubsetIsSmaller({id, other}, admins);
    }
  }

  /**
   The guard is exact: while the count can be read it refuses precisely the changes that
   would leave nobody to administer, and when it cannot be read it refuses more, never less.
   */
  lemma LastAdminIsExact(u: Users, id: nat, after: Option<Account>, counts: bool)
    requires id in u.rows && SomeAdmin(u.rows)
    ensures var stays := after.Some? && IsActiveAdmin(after.value);
            && (counts ==> (IsLastAdmin(u, u.rows[id], stays, counts) <==> !SomeAdmin(AfterChange(u, id, after))))
            && (!IsLastAdmin(u, u.rows[id], stays, counts) ==> SomeAdmin(AfterChange(u, id, after)))
  {
    var stays := after.Some? && IsActiveAdmin(after.value);
    var rows' := AfterChange(u, id, after);
    if stays {
      assert AdminAt(rows', id);
    } else if !IsActiveAdmin(u.rows[id]) {
      var admin: nat :| AdminAt(u.rows, admin);
      assert AdminAt(rows', admin);
    } else if CountActiveAdmins(u, true) >= 2 {
      OtherAdmin(u, id);
      var other: nat :| other != id && AdminAt(u.rows, other);
      assert AdminAt(rows', other);
    } else {
      assert AdminAt(u.rows, id);
      forall other: nat ensures !AdminAt(rows', other) {
        if AdminAt(rows', other) {
          assert AdminAt(u.rows, other);
          OnlyAdmin(u, id, other);
        }
      }
    }
  }

  // ---- The audit trail ---------------------------------------------------------------------

  datatype Change =
    | Bootstrapped(id: nat)
    | Created(id: nat, role: Role)
    | Enabled(id: nat)
    | Disabled(id: nat)
    | RoleChanged(id: nat, before: Role, after: Role)
    | Updated(id: nat, newRole: Option<Role>, newActive: Option<bool>)
    | Deleted(id: nat)
    | PasswordReset(id: nat)
    | PasswordChanged(id: nat)
    | SignedIn(id: nat)
    | Unlocked(id: nat)
    | ScreenLocked(id: nat)
    | SignedOut(id: nat)

  /** A row about something done, or about something refused or failed. Actor 0 is the system. */
  datatype Entry = Ok(actor: nat, change: Change) | NotOk(action: string, reason: string)

  /** What the trail says about an account. */
  datatype Standing = Standing(role: Role, active: bool)

  function StandingOf(a: Account): Standing { Standing(a.role, a.active) }

  function Standings(rows: map<nat, Account>): map<nat, Standing> { map id | id in rows :: StandingOf(rows[id]) }

  function Reader(s: map<nat, Standing>, c: Change): map<nat, Standing> {
    match c
    case Bootstrapped(id) => s[id := Standing(Admin, true)]
    case Created(id, role) => s[id := Standing(role, true)]
    case Deleted(id) => s - {id}
    case Enabled(id) => if id in s then s[id := s[id].(active := true)] else s
    case Disabled(id) => if id in s then s[id := s[id].(active := false)] else s
    case RoleChanged(id, _, after) => if id in s then s[id := s[id].(role := after)] else s
    case Updated(id, role, active) =>
      if id !in s then s
      else s[id := Standing(if role.Some? then role.value else s[id].role,
                            if active.Some? then active.value else s[id].active)]
    case _ => s
  }

  /** Reading the trail from its first row. */
  function Replay(audit: seq<Entry>): map<nat, Standing> {
    if audit == [] then map[]
    else
      var before, last := Replay(audit[..|audit| - 1]), audit[|audit| - 1];
      if last.Ok? then Reader(before, last.change) else before
  }

  predicate NeedsAdmin(c: Change) {
    c.Created? || c.Enabled? || c.Disabled? || c.RoleChanged? || c.Updated? || c.Deleted? || c.PasswordReset?
  }

  /**
   Every change to other people's accounts was made by somebody who, by the rows before it, was
   an active administrator.
   */
  predicate Authorised(audit: seq<Entry>) {
    audit == [] ||
    (var before, last := audit[..|audit| - 1], audit[|audit| - 1];
     && Authorised(before)
     && (last.Ok? && NeedsAdmin(last.change) ==>
           last.actor in Replay(before) && Replay(before)[last.actor] == Standing(Admin, true)))
  }

  lemma AppendedRow(audit: seq<Entry>, e: Entry)
    ensures Replay(audit + [e]) == if e.Ok? then Reader(Replay(audit), e.change) else Replay(audit)
    ensures Authorised(audit + [e]) <==>
            Authorised(audit) && (e.Ok? && NeedsAdmin(e.change) ==>
                                    e.actor in Replay(audit) && Replay(audit)[e.actor] == Standing(Admin, true))
  {
    assert (audit + [e])[..|audit|] == audit;
  }

  lemma StandingsOfUpdate(rows: map<nat, Account>, id: nat, a: Account)
    ensures Standings(rows[id := a]) == Standings(rows)[id := StandingOf(a)]
  {}

  lemma StandingsOfRemoval(rows: map<nat, Account>, id: nat)
    ensures Standings(rows - {id}) == Standings(rows) - {id}
  {}

  lemma SameStanding(rows: map<nat, Account>, id: nat, a: Account)
    requires id in rows && StandingOf(a) == StandingOf(rows[id])
    ensures Standings(rows[id := a]) == Standings(rows)
  {
    StandingsOfUpdate(rows, id, a);
    assert Standings(rows)[id := StandingOf(a)] == Standings(rows);
  }

  // ---- What always holds of table and trail together ------------------------------------------

  /** True of every id; the facts below about all rows are looked up through it. */
  predicate Row(id: nat) { true }

  /** An account table is empty or has an active administrator, and the trail tells its standings. */
  ghost predicate Sound(u: Users, audit: seq<Entry>) {
    && (u.rows == map[] || SomeAdmin(u.rows))
    && Standings(u.rows) == Replay(audit)
    && (forall id: nat {:trigger Row(id)} :: Row(id) && id in u.rows ==> 0 < id <= u.lastId)
  }

  /** Nobody lost an account, a role or access. */
  ghost predicate NobodyWeakened(a: map<nat, Account>, b: map<nat, Account>) {
    forall id: nat {:trigger Row(id)} :: Row(id) && id in a ==>
      id in b && StandingOf(b[id]) == StandingOf(a[id]) && b[id].username == a[id].username
  }

  lemma AdminsRemain(a: map<nat, Account>, b: map<nat, Account>)
    requires NobodyWeakened(a, b) && SomeAdmin(a)
    ensures SomeAdmin(b)
  {
    var id: nat :| AdminAt(a, id);
    assert Row(id);
    assert AdminAt(b, id);
  }

  lemma SoundWithNote(u: Users, audit: seq<Entry>, e: Entry)
    requires Sound(u, audit) && Replay(audit + [e]) == Replay(audit)
    ensures Sound(u, audit + [e])
  {}

  /** A row replaced without touching name or standing. */
  lemma SoundAfterPrivateChange(u: Users, audit: seq<Entry>, id: nat, a: Account)
    requires Sound(u, audit) && id in u.rows
    requires StandingOf(a) == StandingOf(u.rows[id]) && a.username == u.rows[id].username
    ensures Sound(u.(rows := u.rows[id := a]), audit) && NobodyWeakened(u.rows, u.rows[id := a])
  {
    SameStanding(u.rows, id, a);
    if SomeAdmin(u.rows) {
      AdminsRemain(u.rows, u.rows[id := a]);
    }
  }

  /** A new row, recorded. */
  lemma SoundAfterInsert(u: Users, audit: seq<Entry>, a: Account, e: Entry)
    requires Sound(u, audit) && Insert(u, a, true).Some? && a.active
    requires u.rows == map[] ==> a.role == Admin
    requires e.Ok? && (e.change == Created(u.lastId + 1, a.role)
                       || (e.change == Bootstrapped(u.lastId + 1) && a.role == Admin))
    ensures Sound(Insert(u, a, true).value, audit + [e]) && NobodyWeakened(u.rows, Insert(u, a, true).value.rows)
    ensures SomeAdmin(Insert(u, a, true).value.rows)
  {
    var rows' := Insert(u, a, true).value.rows;
    AppendedRow(audit, e);
    StandingsOfUpdate(u.rows, u.lastId + 1, a);
    if u.rows == map[] {
      assert AdminAt(rows', u.lastId + 1);
    } else {
      AdminsRemain(u.rows, rows');
    }
  }

  /** A row changed in role or access, or removed; recorded, and not the last administrator's. */
  lemma SoundAfterChange(u: Users, audit: seq<Entry>, id: nat, after: Option<Account>, e: Entry, counts: bool)
    requires Sound(u, audit) && id in u.rows
    requires after.Some? ==> after.value.username == u.rows[id].username
    requires !IsLastAdmin(u, u.rows[id], after.Some? && IsActiveAdmin(after.value), counts)
    requires e.Ok? && Reader(Standings(u.rows), e.change) ==
                      if after.Some? then Standings(u.rows)[id := StandingOf(after.value)] else Standings(u.rows) - {id}
    ensures Sound(u.(rows := AfterChange(u, id, after)), audit + [e]) && SomeAdmin(AfterChange(u, id, after))
  {
    assert u.rows != map[];
    AppendedRow(audit, e);
    LastAdminIsExact(u, id, after, counts);
    if after.Some? {
      StandingsOfUpdate(u.rows, id, after.value);
    } else {
      StandingsOfRemoval(u.rows, id);
    }
  }

  // ---- Lockout histories -----------------------------------------------------------------------

  /** Each account's lock columns are those of the wrong passwords since it was last clean. */
  ghost predicate LocksAreHistory(rows: map<nat, Account>, tries: map<nat, seq<Try>>) {
    forall id: nat {:trigger Row(id)} :: Row(id) && id in rows ==> id in tries && rows[id].lock == StateAfter(tries[id])
  }

  lemma LocksAfterUpdate(rows: map<nat, Account>, tries: map<nat, seq<Try>>, id: nat, a: Account, history: seq<Try>)
    requires LocksAreHistory(rows, tries) && a.lock == StateAfter(history)
    ensures LocksAreHistory(rows[id := a], tries[id := history])
  {
    forall i: nat | Row(i) && i in rows[id := a]
      ensures i in tries[id := history] && rows[id := a][i].lock == StateAfter(tries[id := history][i])
    {
      assert Row(i);
    }
  }

  lemma LocksAfterSubset(rows: map<nat, Account>, rows': map<nat, Account>, tries: map<nat, seq<Try>>)
    requires LocksAreHistory(rows, tries)
    requires forall id :: id in rows' ==> id in rows && rows'[id].lock == rows[id].lock
    ensures LocksAreHistory(rows', tries)
  {
    forall i: nat | Row(i) && i in rows' ensures i in tries && rows'[i].lock == StateAfter(tries[i]) {
      assert Row(i);
    }
  }

  lemma OneMoreTry(tries: seq<Try>, t: Try)
    ensures StateAfter(tries + [t]) == AfterTry(StateAfter(tries), t)
  {
    assert (tries + [t])[..|tries|] == tries;
  }
}
