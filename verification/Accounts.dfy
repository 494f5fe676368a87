/**
 The account service (src/core/AuthService.cpp): one session at the device, password work
 on a background thread, and account management on the main thread, which may run while
 the background work is under way.
 */
module Accounts {
  import opened Prelude
  import opened Lockout
  import opened AccountTable
  import opened Transactions
  import SetFacts

  datatype Permission =
    ViewData | RunTester | Calibrate | ConfigureSensors | ConfigureSystem | ManageUsers | ViewAudit

  /** Background work: at most one at a time. */
  datatype Task =
    | Login(name: string)
    | Unlock(id: nat)
    | CreateFirstAdmin(name: string)
    | CreateUser(actor: nat, name: string, role: Role)
    | ChangePassword(id: nat)
    | ResetPassword(actor: nat, target: int)

  /** Between a request and the return of its result to the main thread. */
  datatype Stage = Idle | Started(task: Task) | Done(task: Task, ok: bool, id: nat, user: Account)

  /**
   What the outside answers to one operation: the clock, the database's queries, statements,
   transaction and separate audit rows (notes), and the password hasher: whether the
   password matches, wants a new hash, and what a new password hashes to ("" on failure).
   */
  datatype World = World(now: int, finds: bool, counts: bool, writes: bool, rehashes: bool, notes: bool, faults: Faults,
                         matches: bool, needsRehash: bool, hash: string, policyOk: bool)

  const NOBODY := Account("", Viewer, "", true, false, CLEAN)

  function WithRow(changed: Option<Users>, e: Entry): Option<(Users, Entry)> {
    if changed.Some? then Some((changed.value, e)) else None
  }

  predicate RoleAllows(role: Role, p: Permission) {
    match role
    case Admin => true
    case Operator => p == ViewData || p == RunTester || p == Calibrate
    case Viewer => p == ViewData
  }

  // ---- What holds of the session ---------------------------------------------------------

  /** Whoever is signed in has an active account with the role the session remembers. */
  ghost predicate SessionIsReal(rows: map<nat, Account>, id: nat, user: Account) {
    id in rows && StandingOf(rows[id]) == Standing(user.role, true) && (rows[id].mustChange ==> user.mustChange)
  }

  ghost predicate TaskIsReal(t: Task, rows: map<nat, Account>, authenticated: bool, locked: bool, currentId: nat) {
    match t
    case Login(_) => !authenticated
    case CreateFirstAdmin(_) => true
    case Unlock(id) => authenticated ==> locked && id == currentId
    case ChangePassword(id) => authenticated ==> id == currentId
    case CreateUser(actor, _, _) => AdminAt(rows, actor) && (authenticated ==> actor == currentId)
    case ResetPassword(actor, target) => AdminAt(rows, actor) && (authenticated ==> actor == currentId != target)
  }

  ghost predicate StageIsReal(s: Stage, rows: map<nat, Account>, authenticated: bool, locked: bool, currentId: nat) {
    match s
    case Idle => true
    case Started(t) => TaskIsReal(t, rows, authenticated, locked, currentId)
    case Done(t, ok, id, user) =>
      match t
      case Login(_) => !authenticated && (ok ==> SessionIsReal(rows, id, user))
      case CreateFirstAdmin(_) => true
      case Unlock(_) => authenticated ==> locked && (ok ==> id == currentId && SessionIsReal(rows, id, user))
      case ChangePassword(i) => authenticated ==> i == currentId && (ok ==> i in rows && !rows[i].mustChange)
      case _ => true
  }

  /** A first administrator still to be signed in: what the result remembers of the account. */
  ghost predicate SetupIsReal(s: Stage, rows: map<nat, Account>) {
    s.Done? && s.ok && s.task.CreateFirstAdmin? ==>
      && StandingOf(s.user) == Standing(Admin, true) && !s.user.mustChange
      && (s.id in rows ==> !rows[s.id].mustChange)
  }

  /** What a task makes of the recorded tries; the result's id is 0 when no account was found. */
  function TriesAfter(tries: map<nat, seq<Try>>, rows: map<nat, Account>, t: Task, ok: bool, id: nat, w: World):
    map<nat, seq<Try>> {
    match t
    case Login(_) => Tried(tries, rows, ok, id, w, true)
    case Unlock(_) => Tried(tries, rows, ok, id, w, false)
    case CreateFirstAdmin(_) => if ok then tries[id := []] else tries
    case CreateUser(_, _, _) => if ok then tries[id := []] else tries
    case ChangePassword(_) => if ok then tries[id := []] else tries
    case ResetPassword(_, target) => if ok && target >= 0 then tries[target := []] else tries
  }

  /** A password refused to an active account is one more try; the right one clears the history. */
  function Tried(tries: map<nat, seq<Try>>, rows: map<nat, Account>, ok: bool, id: nat, w: World, mayRehash: bool):
    map<nat, seq<Try>> {
    if id !in rows || id !in tries || !rows[id].active then tries
    else if !ok then tries[id := tries[id] + [Try(w.now, w.writes)]]
    else if Rehashed(id, w, mayRehash) || w.writes then tries[id := []]
    else tries
  }

  /** A login with the right password may store a stronger hash, which clears the lock as well. */
  predicate Rehashed(id: nat, w: World, mayRehash: bool) {
    mayRehash && w.needsRehash && w.rehashes && w.hash != "" && id > 0
  }

  /** Stages that only somebody with an account can have brought about. */
  predicate NeedsAccounts(authenticated: bool, s: Stage) {
    authenticated || (s.Started? && s.task.CreateUser?)
      || (s.Done? && s.ok && (s.task.Login? || s.task.CreateFirstAdmin?))
  }

  /** What background work leaves of the table: everybody's standing, and no new duty for the session's own account. */
  ghost predicate Kept(before: map<nat, Account>, after: map<nat, Account>, own: nat) {
    && NobodyWeakened(before, after)
    && (own in before && own in after ==> (after[own].mustChange ==> before[own].mustChange))
  }

  /** The trail grows by at most one row. */
  ghost predicate AtMostOneMore(before: seq<Entry>, after: seq<Entry>) {
    after == before || (|after| == |before| + 1 && after[..|before|] == before)
  }

  lemma GuardStillHolds(before: Users, after: Users, id: nat, stays: bool, counts: bool)
    requires NobodyWeakened(before.rows, after.rows) && id in before.rows
    requires !IsLastAdmin(before, before.rows[id], stays, counts)
    ensures id in after.rows && !IsLastAdmin(after, after.rows[id], stays, counts)
  {
    assert Row(id);
    forall i | i in ActiveAdmins(before.rows) ensures i in ActiveAdmins(after.rows) {
      assert Row(i);
    }
    SetFacts.SubsetByMembers(ActiveAdmins(before.rows), ActiveAdmins(after.rows));
    SetFacts.SubsetIsSmaller(ActiveAdmins(before.rows), ActiveAdmins(after.rows));
  }

  lemma StandingOnTheTrail(u: Users, audit: seq<Entry>, id: nat)
    requires Sound(u, audit) && id in u.rows
    ensures id in Replay(audit) && Replay(audit)[id] == StandingOf(u.rows[id])
  {
    assert id in Standings(u.rows) && Standings(u.rows)[id] == StandingOf(u.rows[id]);
  }

  /** Background work leaves the session, and every claim to an account, as real as before. */
  lemma SessionSurvives(before: map<nat, Account>, after: map<nat, Account>, own: nat, user: Account)
    requires Kept(before, after, own) && SessionIsReal(before, own, user)
    ensures SessionIsReal(after, own, user)
  {
    assert Row(own);
  }

  /** Nor does a manager's change to another account, or one to his own that leaves it standing. */
  lemma SessionSurvivesChange(u: Users, id: nat, after: Option<Account>, s: Stage, own: nat, user: Account)
    requires SessionIsReal(u.rows, own, user) && AdminAt(u.rows, own) && StageIsReal(s, u.rows, true, false, own)
             && id in u.rows
    requires after.Some? ==> after.value.mustChange == u.rows[id].mustChange
    requires id == own ==> after.Some? && StandingOf(after.value) == StandingOf(u.rows[id])
    ensures SessionIsReal(AfterChange(u, id, after), own, user)
            && StageIsReal(s, AfterChange(u, id, after), true, false, own)
  {}

  class AuthService {
    const db: Connection<Users, Entry>
    var currentId: nat
    var current: Account
    var authenticated: bool
    var locked: bool
    var firstRun: bool
    var stage: Stage

    /** The wrong or refused passwords of each account since its lock columns were last cleared. */
    ghost var tries: map<nat, seq<Try>>
    /** A session was once begun on an account that had lost its role or access since it was set up. */
    ghost var strayed: bool

    ghost predicate TablesOk()
      reads this, db
    {
      !db.inTransaction && Sound(db.data, db.audit) && LocksAreHistory(db.data.rows, tries)
    }

    ghost predicate Valid()
      reads this, db
    {
      && TablesOk()
      && (NeedsAccounts(authenticated, stage) ==> SomeAdmin(db.data.rows))
      && SetupIsReal(stage, db.data.rows)
      && (!strayed ==>
            && Authorised(db.audit)
            && (authenticated ==> SessionIsReal(db.data.rows, currentId, current))
            && StageIsReal(stage, db.data.rows, authenticated, locked, currentId))
    }

    /** The service on a new, empty database. */
    constructor ()
      ensures Valid() && fresh(db) && db.data == Users(map[], 0) && db.audit == []
      ensures firstRun && !authenticated && stage == Idle && !strayed
    {
      db := new Connection(Users(map[], 0));
      currentId, current, authenticated, locked, firstRun, stage := 0, NOBODY, false, false, true, Idle;
      tries, strayed := map[], false;
    }

    predicate Can(p: Permission)
      reads this
    {
      authenticated && !locked && (current.mustChange ==> p == ViewData) && RoleAllows(current.role, p)
    }

    /** Whoever may manage accounts really is an active administrator who has no password to change first. */
    lemma ManagersAreAdmins()
      requires Valid() && Can(ManageUsers) && !strayed
      ensures AdminAt(db.data.rows, currentId) && !db.data.rows[currentId].mustChange
    {}

    /** An audit row of its own, outside any transaction; it may be lost. */
    method Note(e: Entry, works: bool)
      requires TablesOk() && (e.Ok? ==> !NeedsAdmin(e.change) && forall s :: Reader(s, e.change) == s)
      modifies db`audit
      ensures TablesOk() && db.audit == old(db.audit) + (if works then [e] else [])
      ensures Authorised(db.audit) == Authorised(old(db.audit))
    {
      var _ := db.Append(e, works);
      if works {
        AppendedRow(old(db.audit), e);
        SoundWithNote(db.data, old(db.audit), e);
      } else {
        assert db.audit == old(db.audit) + [];
      }
    }

    /** The row about a refusal. */
    method Deny(e: Entry, works: bool)
      requires Valid() && e.NotOk?
      modifies db`audit
      ensures Valid()
      ensures db.audit == old(db.audit) || db.audit == old(db.audit) + [e]
    {
      Note(e, works);
      assert db.audit == old(db.audit) + if works then [e] else [];
    }

    // ---- Requests ------------------------------------------------------------------------

    /** Requests come to nothing while other background work is under way. */
    method RequestLogin(name: string, passwordGiven: bool)
      requires Valid()
      modifies this`stage
      ensures Valid()
      ensures stage == if name != "" && passwordGiven && !authenticated && old(stage) == Idle then Started(Login(name))
                       else old(stage)
    {
      if name == "" || !passwordGiven || authenticated || stage != Idle { return; }
      stage := Started(Login(name));
    }

    method RequestUnlock(passwordGiven: bool)
      requires Valid()
      modifies this`stage
      ensures Valid()
      ensures stage == if authenticated && locked && passwordGiven && old(stage) == Idle then Started(Unlock(currentId))
                       else old(stage)
    {
      if !authenticated || !locked || !passwordGiven || stage != Idle { return; }
      stage := Started(Unlock(currentId));
    }

    /** formOk: a name was entered, the two passwords agree and meet the policy. */
    method RequestFirstAdmin(name: string, formOk: bool)
      requires Valid()
      modifies this`stage
      ensures Valid()
      ensures stage == if old(stage) == Idle && firstRun && name != "" && formOk
                       then Started(CreateFirstAdmin(name)) else old(stage)
    {
      if stage != Idle || !firstRun || name == "" || !formOk { return; }
      stage := Started(CreateFirstAdmin(name));
    }

    method RequestChangePassword(formOk: bool)
      requires Valid()
      modifies this`stage
      ensures Valid()
      ensures stage == if authenticated && !locked && formOk && old(stage) == Idle
                       then Started(ChangePassword(currentId)) else old(stage)
    {
      if !authenticated || locked || !formOk || stage != Idle { return; }
      stage := Started(ChangePassword(currentId));
    }

    /** An unknown role is None. */
    method RequestCreateUser(name: string, role: Option<Role>, formOk: bool, notes: bool)
      requires Valid()
      modifies this`stage, db`audit
      ensures Valid()
      ensures stage == if Can(ManageUsers) && role.Some? && name != "" && formOk && old(stage) == Idle
                       then Started(CreateUser(currentId, name, role.value)) else old(stage)
      ensures db.audit == old(db.audit) +
              if !Can(ManageUsers) && notes then [NotOk("user.create", "missing_permission")] else []
    {
      if !Can(ManageUsers) {
        Note(NotOk("user.create", "missing_permission"), notes);
        return;
      }
      assert db.audit == old(db.audit) + [];
      if role.None? || name == "" || !formOk || stage != Idle { return; }
      stage := Started(CreateUser(currentId, name, role.value));
    }

    method RequestResetPassword(target: int, passwordsAgree: bool, notes: bool)
      requires Valid()
      modifies this`stage, db`audit
      ensures Valid()
      ensures stage == if Can(ManageUsers) && target != currentId && passwordsAgree && old(stage) == Idle
                       then Started(ResetPassword(currentId, target)) else old(stage)
      ensures db.audit == old(db.audit) +
              if !Can(ManageUsers) && notes then [NotOk("user.reset_password", "missing_permission")] else []
    {
      if !Can(ManageUsers) {
        Note(NotOk("user.reset_password", "missing_permission"), notes);
        return;
      }
      assert db.audit == old(db.audit) + [];
      if target == currentId || !passwordsAgree || stage != Idle { return; }
      stage := Started(ResetPassword(currentId, target));
    }

    // ---- Background work --------------------------------------------------------------------

    /** Replaces one row's password or lock columns; the history of tries follows the lock. */
    method Replace(id: nat, a: Account, ghost history: seq<Try>)
      requires TablesOk() && id in db.data.rows
      requires StandingOf(a) == StandingOf(db.data.rows[id]) && a.username == db.data.rows[id].username
      requires a.lock == StateAfter(history)
      modifies db`data, this`tries
      ensures TablesOk() && tries == old(tries)[id := history]
      ensures db.data == old(db.data).(rows := old(db.data.rows)[id := a])
      ensures NobodyWeakened(old(db.data.rows), db.data.rows)
    {
      SoundAfterPrivateChange(db.data, db.audit, id, a);
      LocksAfterUpdate(db.data.rows, tries, id, a, history);
      db.data := db.data.(rows := db.data.rows[id := a]);
      tries := tries[id := history];
    }

    /** A password turned away, and counted when it was wrong and the account was open to it. */
    method Reject(id: nat, action: string, reason: string, w: World)
      requires TablesOk() && id in db.data.rows
      modifies db`data, db`audit, this`tries
      ensures TablesOk() && NobodyWeakened(old(db.data.rows), db.data.rows)
      ensures db.data == old(db.data).(rows := old(db.data.rows)[id :=
                old(db.data.rows)[id].(lock := AfterTry(old(db.data.rows)[id].lock, Try(w.now, w.writes)))])
      ensures AtMostOneMore(old(db.audit), db.audit) && Authorised(db.audit) == Authorised(old(db.audit))
      ensures id in old(tries) && tries == old(tries)[id := old(tries)[id] + [Try(w.now, w.writes)]]
    {
      assert Row(id);
      var a, t := db.data.rows[id], Try(w.now, w.writes);
      OneMoreTry(tries[id], t);
      Replace(id, a.(lock := AfterTry(a.lock, t)), tries[id] + [t]);
      Note(NotOk(action, reason), w.notes);
    }

    /** The right password clears the lock columns; login may also store a stronger hash. */
    method Welcome(id: nat, done: Change, mayRehash: bool, w: World)
      requires TablesOk() && id in db.data.rows
      requires done == SignedIn(id) || done == Unlocked(id)
      modifies db`data, db`audit, this`tries
      ensures TablesOk() && NobodyWeakened(old(db.data.rows), db.data.rows)
      ensures var a, rehashed := old(db.data.rows)[id], Rehashed(id, w, mayRehash);
              db.data == old(db.data).(rows := old(db.data.rows)[id :=
                a.(passwordHash := if rehashed then w.hash else a.passwordHash,
                   lock := if rehashed || w.writes then CLEAN else a.lock)])
      ensures AtMostOneMore(old(db.audit), db.audit) && Authorised(db.audit) == Authorised(old(db.audit))
      ensures id in old(tries)
      ensures tries == old(tries)[id := if Rehashed(id, w, mayRehash) || w.writes then [] else old(tries)[id]]
    {
      assert Row(id);
      var a := db.data.rows[id];
      var hash, lock := a.passwordHash, a.lock;
      ghost var history := tries[id];
      if mayRehash && w.needsRehash && UpdatePasswordHash(db.data, id, w.hash, a.mustChange, w.rehashes).Some? {
        hash, lock, history := w.hash, CLEAN, [];
      }
      if UpdateLock(db.data, id, CLEAN, w.writes).Some? {
        lock, history := CLEAN, [];
      }
      Replace(id, a.(passwordHash := hash, lock := lock), history);
      Note(Ok(id, done), w.notes);
    }

    /** The part of login and unlock after the account was found. */
    method TryPassword(id: nat, action: string, done: Change, mayRehash: bool, w: World) returns (ok: bool)
      requires TablesOk() && id in db.data.rows
      requires done == SignedIn(id) || done == Unlocked(id)
      modifies db`data, db`audit, this`tries
      ensures TablesOk() && NobodyWeakened(old(db.data.rows), db.data.rows)
      ensures ok <==> Admits(old(db.data.rows)[id], w)
      ensures !ok ==> db.data == old(db.data).(rows := old(db.data.rows)[id :=
                        var a := old(db.data.rows)[id];
                        if a.active then a.(lock := AfterTry(a.lock, Try(w.now, w.writes))) else a])
      ensures ok ==> var a, rehashed := old(db.data.rows)[id], Rehashed(id, w, mayRehash);
                     db.data == old(db.data).(rows := old(db.data.rows)[id :=
                       a.(passwordHash := if rehashed then w.hash else a.passwordHash,
                          lock := if rehashed || w.writes then CLEAN else a.lock)])
      ensures AtMostOneMore(old(db.audit), db.audit) && Authorised(db.audit) == Authorised(old(db.audit))
      ensures tries == Tried(old(tries), old(db.data.rows), ok, id, w, mayRehash)
    {
      var a := db.data.rows[id];
      assert Row(id);
      ok := false;
      if !a.active {
        assert db.data.rows[id := a] == db.data.rows;
        Note(NotOk(action, "account_disabled"), w.notes);
      } else if IsLocked(a.lock, w.now) {
        Reject(id, action, "account_locked", w);
      } else if !w.matches {
        Reject(id, action, "wrong_password", w);
      } else {
        Welcome(id, done, mayRehash, w);
        assert old(tries)[id := old(tries)[id]] == old(tries);
        ok := true;
      }
    }

    /** The account lets the password in. */
    static predicate Admits(a: Account, w: World) { a.active && !IsLocked(a.lock, w.now) && w.matches }

    method WorkLogin(name: string, w: World)
      requires Valid() && stage == Started(Login(name))
      modifies db, this`stage, this`tries
      ensures Valid() && stage.Done? && stage.task == old(stage.task)
      ensures Kept(old(db.data.rows), db.data.rows, currentId) && AtMostOneMore(old(db.audit), db.audit)
      ensures stage.id != 0 <==> w.finds && NameTaken(old(db.data), name)
      ensures stage.id != 0 ==> stage.id in old(db.data.rows) && old(db.data.rows)[stage.id].username == name
      ensures stage.ok <==> stage.id != 0 && Admits(old(db.data.rows)[stage.id], w)
      ensures stage.ok ==> SessionIsReal(db.data.rows, stage.id, stage.user) && stage.user.username == name
      ensures tries == TriesAfter(old(tries), old(db.data.rows), stage.task, stage.ok, stage.id, w)
      ensures !stage.ok && stage.id in old(db.data.rows) && old(db.data.rows)[stage.id].active && stage.id != 0 ==>
                var a := old(db.data.rows)[stage.id];
                && a.username == name
                && db.data.rows == old(db.data.rows)[stage.id := a.(lock := AfterTry(a.lock, Try(w.now, w.writes)))]
    {
      assert Row(0);
      var id := FindByUsername(db.data, name, w.finds);
      if id == 0 {
        Note(NotOk("auth.login", "unknown_user"), w.notes);
        stage := Done(stage.task, false, 0, NOBODY);
        return;
      }
      var user := db.data.rows[id].(lock := CLEAN);
      var ok := TryPassword(id, "auth.login", SignedIn(id), true, w);
      SurvivesWork(old(db.data.rows));
      stage := Done(stage.task, ok, id, user);
    }

    method WorkUnlock(id: nat, w: World)
      requires Valid() && stage == Started(Unlock(id))
      modifies db, this`stage, this`tries
      ensures Valid() && stage.Done? && stage.task == old(stage.task)
      ensures Kept(old(db.data.rows), db.data.rows, currentId) && AtMostOneMore(old(db.audit), db.audit)
      ensures stage.id == if FindById(old(db.data), id, w.finds).Some? then id else 0
      ensures stage.ok <==> stage.id != 0 && Admits(old(db.data.rows)[id], w)
      ensures stage.ok ==> SessionIsReal(db.data.rows, id, stage.user)
      ensures tries == TriesAfter(old(tries), old(db.data.rows), stage.task, stage.ok, stage.id, w)
    {
      var found, user, ok := TryUnlock(id, w);
      SurvivesWork(old(db.data.rows));
      stage := Done(stage.task, ok, found, user);
    }

    /** The account, if it is found, and whether it lets the password in. */
    method TryUnlock(id: nat, w: World) returns (found: nat, user: Account, ok: bool)
      requires TablesOk()
      modifies db`data, db`audit, this`tries
      ensures TablesOk() && Kept(old(db.data.rows), db.data.rows, currentId) && AtMostOneMore(old(db.audit), db.audit)
      ensures Authorised(db.audit) == Authorised(old(db.audit))
      ensures found == if FindById(old(db.data), id, w.finds).Some? then id else 0
      ensures ok <==> found != 0 && Admits(old(db.data.rows)[id], w)
      ensures ok ==> SessionIsReal(db.data.rows, id, user)
      ensures tries == Tried(old(tries), old(db.data.rows), ok, found, w, false)
    {
      assert Row(id) && Row(0);
      found, user, ok := 0, NOBODY, false;
      if FindById(db.data, id, w.finds).None? {
        Note(NotOk("auth.unlock", "account_missing"), w.notes);
        return;
      }
      found, user := id, db.data.rows[id].(lock := CLEAN);
      ok := TryPassword(id, "auth.unlock", Unlocked(id), false, w);
    }

    /** Whatever keeps everybody's standing keeps what the session relies on. */
    lemma SurvivesWork(before: map<nat, Account>)
      requires Kept(before, db.data.rows, currentId) && (before == map[] || SomeAdmin(before))
      ensures SomeAdmin(before) ==> SomeAdmin(db.data.rows)
      ensures SessionIsReal(before, currentId, current) ==> SessionIsReal(db.data.rows, currentId, current)
    {
      if SomeAdmin(before) { AdminsRemain(before, db.data.rows); }
      if SessionIsReal(before, currentId, current) { SessionSurvives(before, db.data.rows, currentId, current); }
    }

    /** A new account and its audit row, in one transaction. */
    method AddAccount(a: Account, e: Entry, w: World) returns (ok: bool)
      requires TablesOk() && a.active && a.lock == CLEAN
      requires db.data.rows == map[] ==> a.role == Admin
      requires e.Ok? && (e.change == Created(db.data.lastId + 1, a.role)
                         || (e.change == Bootstrapped(db.data.lastId + 1) && a.role == Admin))
      modifies db, this`tries
      ensures TablesOk() && Kept(old(db.data.rows), db.data.rows, currentId)
      ensures ok <==> Insert(old(db.data), a, w.writes).Some? && AllWork(w.faults)
      ensures ok ==> db.data == Insert(old(db.data), a, w.writes).value && db.audit == old(db.audit) + [e]
      ensures !ok ==> (db.data, db.audit) == (old(db.data), old(db.audit))
      ensures ok ==> SomeAdmin(db.data.rows)
                     && (SessionIsReal(old(db.data.rows), currentId, current) ==>
                           SessionIsReal(db.data.rows, currentId, current))
      ensures Authorised(old(db.audit)) && (e.change.Bootstrapped? || AdminAt(old(db.data.rows), e.actor)) ==>
                Authorised(db.audit)
      ensures tries == if ok then old(tries)[old(db.data.lastId) + 1 := []] else old(tries)
    {
      var id := db.data.lastId + 1;
      ok := db.RunWithAudit(WithRow(Insert(db.data, a, w.writes), e), w.faults);
      if ok {
        SoundAfterInsert(old(db.data), old(db.audit), a, e);
        LocksAfterUpdate(old(db.data.rows), tries, id, a, []);
        assert Row(currentId);
        tries := tries[id := []];
      }
    }

    /**
     The first administrator. Refused when accounts exist; a failing count does not refuse.
     */
    method WorkFirstAdmin(name: string, w: World)
      requires Valid() && stage == Started(CreateFirstAdmin(name))
      modifies db, this`stage, this`tries
      ensures Valid() && stage.Done? && stage.task == old(stage.task)
      ensures Kept(old(db.data.rows), db.data.rows, currentId)
      ensures stage.ok <==> && (old(db.data.rows) == map[] || !w.counts) && name != "" && w.hash != ""
                            && !NameTaken(old(db.data), name) && w.writes && AllWork(w.faults)
      ensures tries == TriesAfter(old(tries), old(db.data.rows), stage.task, stage.ok, stage.id, w)
      ensures stage.ok ==> SomeAdmin(db.data.rows)
      ensures stage.ok ==>
                stage.id == old(db.data.lastId) + 1 && stage.user == Account(name, Admin, w.hash, true, false, CLEAN)
      ensures db.data == if stage.ok then Users(old(db.data.rows)[stage.id := stage.user], stage.id) else old(db.data)
      ensures db.audit == old(db.audit) + if stage.ok then [Ok(stage.id, Bootstrapped(stage.id))] else []
    {
      assert db.audit == old(db.audit) + [];
      var id, user := db.data.lastId + 1, Account(name, Admin, w.hash, true, false, CLEAN);
      assert |db.data.rows| == 0 <==> db.data.rows == map[];
      if Count(db.data, w.counts) > 0 || w.hash == "" {
        stage := Done(stage.task, false, id, user);
        return;
      }
      var ok := AddAccount(user, Ok(id, Bootstrapped(id)), w);
      if ok {
        assert AdminAt(db.data.rows, id);
      }
      stage := Done(stage.task, ok, id, user);
    }

    method WorkCreateUser(actor: nat, name: string, role: Role, w: World)
      requires Valid() && stage == Started(CreateUser(actor, name, role))
      modifies db, this`stage, this`tries
      ensures Valid() && stage.Done? && stage.task == old(stage.task)
      ensures Kept(old(db.data.rows), db.data.rows, currentId)
      ensures stage.ok <==> && name != "" && w.hash != "" && !NameTaken(old(db.data), name)
                            && w.writes && AllWork(w.faults)
      ensures stage.ok ==> stage.id == old(db.data.lastId) + 1
      ensures tries == TriesAfter(old(tries), old(db.data.rows), stage.task, stage.ok, stage.id, w)
      ensures db.data.rows ==
              if stage.ok then old(db.data.rows)[stage.id := Account(name, role, w.hash, true, true, CLEAN)]
              else old(db.data.rows)
      ensures db.audit == old(db.audit) + if stage.ok then [Ok(actor, Created(stage.id, role))] else []
    {
      var id := db.data.lastId + 1;
      var ok := TryCreate(actor, name, role, w);
      stage := Done(stage.task, ok, id, NOBODY);
    }

    /** The account and its row, unless the name is found to be taken; the table refuses a second one anyway. */
    method TryCreate(actor: nat, name: string, role: Role, w: World) returns (ok: bool)
      requires TablesOk() && SomeAdmin(db.data.rows)
      modifies db, this`tries
      ensures TablesOk() && SomeAdmin(db.data.rows) && Kept(old(db.data.rows), db.data.rows, currentId)
      ensures ok <==> name != "" && w.hash != "" && !NameTaken(old(db.data), name) && w.writes && AllWork(w.faults)
      ensures var id := old(db.data.lastId) + 1;
              && tries == (if ok then old(tries)[id := []] else old(tries))
              && db.data.rows == (if ok then old(db.data.rows)[id := Account(name, role, w.hash, true, true, CLEAN)]
                                  else old(db.data.rows))
              && db.audit == old(db.audit) + if ok then [Ok(actor, Created(id, role))] else []
      ensures SessionIsReal(old(db.data.rows), currentId, current) ==> SessionIsReal(db.data.rows, currentId, current)
      ensures Authorised(old(db.audit)) && AdminAt(old(db.data.rows), actor) ==> Authorised(db.audit)
    {
      assert db.audit == old(db.audit) + [];
      ok := false;
      var taken := FindByUsername(db.data, name, w.finds);
      if taken == 0 && w.hash != "" {
        var e := Ok(actor, Created(db.data.lastId + 1, role));
        ok := AddAccount(Account(name, role, w.hash, true, true, CLEAN), e, w);
      }
    }

    /** A new password hash and its audit row, in one transaction. */
    method SetHash(id: int, mustChange: bool, e: Entry, w: World) returns (ok: bool)
      requires TablesOk()
      requires e.Ok? && (e.change.PasswordChanged? || e.change.PasswordReset?)
      modifies db, this`tries
      ensures TablesOk() && NobodyWeakened(old(db.data.rows), db.data.rows)
      ensures ok <==> UpdatePasswordHash(old(db.data), id, w.hash, mustChange, w.writes).Some? && AllWork(w.faults)
      ensures ok ==> db.data == UpdatePasswordHash(old(db.data), id, w.hash, mustChange, w.writes).value
                     && db.audit == old(db.audit) + [e]
      ensures !ok ==> (db.data, db.audit) == (old(db.data), old(db.audit))
      ensures tries == if ok then old(tries)[id as nat := []] else old(tries)
    {
      ok := db.RunWithAudit(WithRow(UpdatePasswordHash(db.data, id, w.hash, mustChange, w.writes), e), w.faults);
      if ok {
        SoundAfterPrivateChange(old(db.data), old(db.audit), id, db.data.rows[id]);
        LocksAfterUpdate(old(db.data.rows), tries, id, db.data.rows[id], []);
        AppendedRow(old(db.audit), e);
        SoundWithNote(db.data, old(db.audit), e);
        tries := tries[id as nat := []];
      }
    }

    /** The session's own new password; an empty hash stands for a hasher that failed. */
    method StorePassword(id: nat, w: World) returns (ok: bool)
      requires TablesOk()
      modifies db, this`tries
      ensures TablesOk() && Kept(old(db.data.rows), db.data.rows, currentId)
      ensures Authorised(db.audit) == Authorised(old(db.audit))
      ensures ok <==> 0 < id && id in old(db.data.rows) && w.hash != "" && w.writes && AllWork(w.faults)
      ensures ok ==> db.audit == old(db.audit) + [Ok(id, PasswordChanged(id))]
      ensures tries == if ok then old(tries)[id := []] else old(tries)
      ensures ok ==> db.data.rows == old(db.data.rows)[id :=
                       old(db.data.rows)[id].(passwordHash := w.hash, mustChange := false, lock := CLEAN)]
      ensures !ok ==> (db.data, db.audit) == (old(db.data), old(db.audit))
    {
      if w.hash == "" { return false; }
      var e := Ok(id, PasswordChanged(id));
      ok := SetHash(id, false, e, w);
      AppendedRow(old(db.audit), e);
    }

    method WorkChangePassword(id: nat, w: World)
      requires Valid() && stage == Started(ChangePassword(id))
      modifies db, this`stage, this`tries
      ensures Valid() && stage.Done? && stage.task == old(stage.task)
      ensures Kept(old(db.data.rows), db.data.rows, currentId) && AtMostOneMore(old(db.audit), db.audit)
      ensures stage.ok <==> && FindById(old(db.data), id, w.finds).Some? && w.matches && w.hash != ""
                            && w.writes && AllWork(w.faults)
      ensures tries == TriesAfter(old(tries), old(db.data.rows), stage.task, stage.ok, stage.id, w)
      ensures stage.ok ==> db.audit == old(db.audit) + [Ok(id, PasswordChanged(id))]
      ensures stage.ok ==> db.data.rows == old(db.data.rows)[id :=
                             old(db.data.rows)[id].(passwordHash := w.hash, mustChange := false, lock := CLEAN)]
      ensures !stage.ok ==> db.data == old(db.data)
    {
      assert Row(id);
      var ok := false;
      if FindById(db.data, id, w.finds).None? {
        Note(NotOk("auth.password.change", "account_missing"), w.notes);
      } else if !w.matches {
        Note(NotOk("auth.password.change", "wrong_password"), w.notes);
      } else {
        ok := StorePassword(id, w);
      }
      SurvivesWork(old(db.data.rows));
      stage := Done(stage.task, ok, id, NOBODY);
    }

    method WorkResetPassword(actor: nat, target: int, w: World)
      requires Valid() && stage == Started(ResetPassword(actor, target))
      modifies db, this`stage, this`tries
      ensures Valid() && stage.Done? && stage.task == old(stage.task)
      ensures NobodyWeakened(old(db.data.rows), db.data.rows)
      ensures stage.ok <==> && FindById(old(db.data), target, w.finds).Some? && w.policyOk && w.hash != ""
                            && w.writes && AllWork(w.faults)
      ensures tries == TriesAfter(old(tries), old(db.data.rows), stage.task, stage.ok, stage.id, w)
      ensures stage.ok ==> db.audit == old(db.audit) + [Ok(actor, PasswordReset(target))]
      ensures stage.ok ==> db.data.rows == old(db.data.rows)[target :=
                             old(db.data.rows)[target].(passwordHash := w.hash, mustChange := true, lock := CLEAN)]
      ensures !stage.ok ==> (db.data, db.audit) == (old(db.data), old(db.audit))
    {
      var ok := false;
      if FindById(db.data, target, w.finds).Some? && w.policyOk && w.hash != "" {
        assert Row(target);
        var e := Ok(actor, PasswordReset(target));
        ok := SetHash(target, true, e, w);
        AppendedRow(old(db.audit), e);
        if AdminAt(old(db.data.rows), actor) { StandingOnTheTrail(old(db.data), old(db.audit), actor); }
      }
      if SomeAdmin(old(db.data.rows)) { AdminsRemain(old(db.data.rows), db.data.rows); }
      if authenticated && !strayed { SessionSurvives(old(db.data.rows), db.data.rows, currentId, current); }
      stage := Done(stage.task, ok, 0, NOBODY);
    }

    /** The background thread does its work on the database; the session is not touched. */
    method Work(w: World)
      requires Valid() && stage.Started?
      modifies db, this`stage, this`tries
      ensures Valid() && stage.Done? && stage.task == old(stage.task)
      ensures NobodyWeakened(old(db.data.rows), db.data.rows)
      ensures AtMostOneMore(old(db.audit), db.audit)
      ensures tries == TriesAfter(old(tries), old(db.data.rows), stage.task, stage.ok, stage.id, w)
    {
      match stage.task {
        case Login(name) => WorkLogin(name, w);
        case Unlock(id) => WorkUnlock(id, w);
        case CreateFirstAdmin(name) => WorkFirstAdmin(name, w);
        case CreateUser(actor, name, role) => WorkCreateUser(actor, name, role, w);
        case ChangePassword(id) => WorkChangePassword(id, w);
        case ResetPassword(actor, target) => WorkResetPassword(actor, target, w);
      }
    }

    /** The result arrives on the main thread, and only now does the session change. */
    method FinishTask(counts: bool)
      requires Valid() && stage.Done?
      modifies this`stage, this`currentId, this`current, this`authenticated, this`locked, this`firstRun, this`strayed
      ensures Valid() && stage == Idle
      // A first administrator's session is real exactly when the account was left as it was set up.
      ensures var was, rows := old(stage), db.data.rows;
              var setUp := was.ok && was.task.CreateFirstAdmin?;
              && (setUp ==> Can(ManageUsers) && (SessionIsReal(rows, currentId, current) <==> AdminAt(rows, was.id)))
              && strayed == (old(strayed) || (setUp && !AdminAt(rows, was.id)))
      ensures var was := old(stage);
              && (authenticated <==> old(authenticated) || (was.ok && (was.task.Login? || was.task.CreateFirstAdmin?)))
              && (was.ok && (was.task.Login? || was.task.CreateFirstAdmin? || was.task.Unlock?) ==>
                    !locked && currentId == was.id && current == was.user)
              && (!was.ok || was.task.CreateUser? || was.task.ResetPassword? || was.task.ChangePassword? ==>
                    locked == old(locked) && currentId == old(currentId))
              && (was.ok && was.task.ChangePassword? ==> current == old(current).(mustChange := false))
              && (!was.ok || was.task.CreateUser? || was.task.ResetPassword? ==> current == old(current))
              && (was.ok && (was.task.CreateFirstAdmin? || was.task.CreateUser?) ==>
                    (firstRun <==> !counts || db.data.rows == map[]))
    {
      var was := stage;
      stage := Idle;
      if !was.ok { return; }
      match was.task {
        case Login(_) => currentId, current, authenticated, locked := was.id, was.user, true, false;
        case CreateFirstAdmin(_) =>
          UpdateUserCount(counts);
          strayed := strayed || !AdminAt(db.data.rows, was.id);
          currentId, current, authenticated, locked := was.id, was.user, true, false;
        case Unlock(_) => currentId, current, locked := was.id, was.user, false;
        case ChangePassword(_) => current := current.(mustChange := false);
        case CreateUser(_, _, _) => UpdateUserCount(counts);
        case ResetPassword(_, _) =>
      }
    }

    /** A count that fails reads as no accounts at all. */
    method UpdateUserCount(counts: bool)
      modifies this`firstRun
      ensures firstRun <==> !counts || db.data.rows == map[]
    {
      firstRun := Max(0, Count(db.data, counts)) == 0;
      assert |db.data.rows| == 0 <==> db.data.rows == map[];
    }

    method Lock(notes: bool)
      requires Valid()
      modifies this`locked, db`audit
      ensures Valid() && (authenticated ==> locked)
    {
      if !authenticated || locked { return; }
      Note(Ok(currentId, ScreenLocked(currentId)), notes);
      locked := true;
    }

    method Logout(notes: bool)
      requires Valid()
      modifies this`currentId, this`current, this`authenticated, this`locked, db`audit
      ensures Valid() && !authenticated
    {
      if !authenticated { return; }
      Note(Ok(currentId, SignedOut(currentId)), notes);
      currentId, current, authenticated, locked := 0, NOBODY, false, false;
    }

    /** The program ends and starts again; background work it had not finished is lost. */
    method Restart(counts: bool)
      requires Valid()
      modifies this`stage, this`currentId, this`current, this`authenticated, this`locked, this`firstRun
      ensures Valid() && !authenticated && stage == Idle
    {
      stage, currentId, current, authenticated, locked := Idle, 0, NOBODY, false, false;
      UpdateUserCount(counts);
    }

    // ---- Account management on the main thread ----------------------------------------------

    /** Background work may run between a check and the change it allows. */
    method Meanwhile(during: Option<World>)
      requires Valid()
      modifies db, this`stage, this`tries
      ensures Valid() && NobodyWeakened(old(db.data.rows), db.data.rows)
      ensures during.None? || !old(stage).Started? ==>
                (db.data, db.audit, stage) == (old(db.data), old(db.audit), old(stage))
    {
      if during.Some? && stage.Started? { Work(during.value); }
    }

    /** A checked change to one account and its audit row, in one transaction. */
    method Change(id: nat, after: Option<Account>, changed: Option<Users>, c: AccountTable.Change, counts: bool,
                  f: Faults) returns (ok: bool)
      requires Valid() && Can(ManageUsers) && id in db.data.rows
      requires changed.Some? ==> changed.value == db.data.(rows := AfterChange(db.data, id, after))
      requires after.Some? ==> after.value == db.data.rows[id].(role := after.value.role, active := after.value.active)
      requires id == currentId ==>
                 after.Some? && StandingOf(after.value).active && after.value.role == db.data.rows[id].role
      requires !IsLastAdmin(db.data, db.data.rows[id], after.Some? && IsActiveAdmin(after.value), counts)
      requires NeedsAdmin(c) && Reader(Standings(db.data.rows), c) ==
                 if after.Some? then Standings(db.data.rows)[id := StandingOf(after.value)]
                 else Standings(db.data.rows) - {id}
      modifies db
      ensures Valid()
      ensures ok <==> changed.Some? && AllWork(f)
      ensures ok ==> db.data == changed.value && db.audit == old(db.audit) + [Ok(currentId, c)]
                     && SomeAdmin(db.data.rows)
      ensures !ok ==> (db.data, db.audit) == (old(db.data), old(db.audit))
    {
      var e := Ok(currentId, c);
      ok := db.RunWithAudit(WithRow(changed, e), f);
      if ok {
        SoundAfterChange(old(db.data), old(db.audit), id, after, e, counts);
        LocksAfterSubset(old(db.data.rows), db.data.rows, tries);
        AppendedRow(old(db.audit), e);
        if !strayed {
          StandingOnTheTrail(old(db.data), old(db.audit), currentId);
          SessionSurvivesChange(old(db.data), id, after, stage, currentId, current);
        }
      }
    }

    /**
     Disabling spares oneself and the last administrator. The check is made before the
     transaction, with background work possibly in between; mid is the state the change met.
     */
    method SetUserActive(userId: int, active: bool, w: World, during: Option<World>)
      returns (ok: bool, ghost mid: (Users, seq<Entry>))
      requires Valid()
      modifies db, this`stage, this`tries
      ensures Valid() && (SomeAdmin(old(db.data.rows)) ==> SomeAdmin(db.data.rows))
      ensures NobodyWeakened(old(db.data.rows), mid.0.rows)
      ensures during.None? || !old(stage).Started? ==> mid == (old(db.data), old(db.audit)) && stage == old(stage)
      ensures ok <==> && old(Can(ManageUsers)) && (active || userId != currentId)
                      && FindById(old(db.data), userId, w.finds).Some?
                      && !IsLastAdmin(old(db.data), old(db.data.rows)[userId], active, w.counts)
                      && w.writes && AllWork(w.faults)
      ensures ok ==> userId in mid.0.rows
                     && db.data == mid.0.(rows := mid.0.rows[userId := mid.0.rows[userId].(active := active)])
      ensures ok ==> db.audit == mid.1 + [Ok(currentId, if active then Enabled(userId) else Disabled(userId))]
      ensures !ok ==> db.data == mid.0 && (db.audit == mid.1 || exists e: Entry :: e.NotOk? && db.audit == mid.1 + [e])
    {
      mid := (db.data, db.audit);
      ok := false;
      if !Can(ManageUsers) {
        Deny(NotOk("user.update", "missing_permission"), w.notes);
        return;
      }
      if userId == currentId && !active {
        Deny(NotOk("user.disable", "self"), w.notes);
        return;
      }
      var target := FindById(db.data, userId, w.finds);
      if target.None? { return; }
      if IsLastAdmin(db.data, target.value, active, w.counts) {
        Deny(NotOk("user.disable", "last_admin"), w.notes);
        return;
      }
      Meanwhile(during);
      mid := (db.data, db.audit);
      assert Row(userId);
      GuardStillHolds(old(db.data), db.data, userId, active, w.counts);
      var after := db.data.rows[userId].(active := active);
      ok := Change(userId, Some(after), SetActive(db.data, userId, active, w.writes),
                   if active then Enabled(userId) else Disabled(userId), w.counts, w.faults);
    }

    method SetUserRole(userId: int, role: Option<Role>, w: World, during: Option<World>)
      returns (ok: bool, ghost mid: (Users, seq<Entry>))
      requires Valid()
      modifies db, this`stage, this`tries
      ensures Valid() && (SomeAdmin(old(db.data.rows)) ==> SomeAdmin(db.data.rows))
      ensures NobodyWeakened(old(db.data.rows), mid.0.rows)
      ensures during.None? || !old(stage).Started? ==> mid == (old(db.data), old(db.audit)) && stage == old(stage)
      ensures ok <==> && old(Can(ManageUsers)) && role.Some? && userId != currentId
                      && FindById(old(db.data), userId, w.finds).Some?
                      && !IsLastAdmin(old(db.data), old(db.data.rows)[userId], role.value == Admin, w.counts)
                      && w.writes && AllWork(w.faults)
      ensures ok ==> userId in mid.0.rows
                     && db.data == mid.0.(rows := mid.0.rows[userId := mid.0.rows[userId].(role := role.value)])
      ensures ok ==> db.audit ==
                     mid.1 + [Ok(currentId, RoleChanged(userId, old(db.data.rows)[userId].role, role.value))]
      ensures !ok ==> db.data == mid.0 && (db.audit == mid.1 || exists e: Entry :: e.NotOk? && db.audit == mid.1 + [e])
    {
      mid := (db.data, db.audit);
      ok := false;
      if !Can(ManageUsers) {
        Deny(NotOk("user.role_change", "missing_permission"), w.notes);
        return;
      }
      if role.None? { return; }
      if userId == currentId {
        Deny(NotOk("user.role_change", "self"), w.notes);
        return;
      }
      var target := FindById(db.data, userId, w.finds);
      if target.None? { return; }
      if IsLastAdmin(db.data, target.value, role.value == Admin, w.counts) {
        Deny(NotOk("user.role_change", "last_admin"), w.notes);
        return;
      }
      Meanwhile(during);
      mid := (db.data, db.audit);
      assert Row(userId);
      GuardStillHolds(old(db.data), db.data, userId, role.value == Admin, w.counts);
      var after := db.data.rows[userId].(role := role.value);
      ok := Change(userId, Some(after), SetRole(db.data, userId, role.value, w.writes),
                   RoleChanged(userId, target.value.role, role.value), w.counts, w.faults);
    }

    /** Role and access at once, checked inside the transaction. */
    method UpdateUser(userId: int, role: Option<Role>, active: bool, w: World) returns (ok: bool)
      requires Valid()
      modifies db
      ensures Valid() && (SomeAdmin(old(db.data.rows)) ==> SomeAdmin(db.data.rows))
      ensures ok <==> && Can(ManageUsers) && stage == Idle && role.Some? && 0 < userId
                      && FindById(old(db.data), userId, w.finds).Some?
                      && (userId == currentId ==> active && role.value == old(db.data.rows)[userId].role)
                      && !IsLastAdmin(old(db.data), old(db.data.rows)[userId], active && role.value == Admin, w.counts)
                      && w.writes && AllWork(w.faults)
      ensures ok ==> var was := old(db.data.rows)[userId];
                     && db.data ==
                        old(db.data).(rows := old(db.data.rows)[userId := was.(role := role.value, active := active)])
                     && db.audit == old(db.audit) + [Ok(currentId, Updated(userId,
                          if was.role == role.value then None else role,
                          if was.active == active then None else Some(active)))]
      ensures !ok ==> db.data == old(db.data)
                      && (db.audit == old(db.audit) || exists e: Entry :: e.NotOk? && db.audit == old(db.audit) + [e])
    {
      ok := false;
      if !Can(ManageUsers) {
        Deny(NotOk("user.update", "missing_permission"), w.notes);
        return;
      }
      if stage != Idle || role.None? || !w.faults.begins { return; }
      var target := FindById(db.data, userId, w.finds);
      if target.None? { return; }
      if userId == currentId && (!active || role.value != target.value.role) {
        Deny(NotOk("user.update", "self"), w.notes);
        return;
      }
      if IsLastAdmin(db.data, target.value, active && role.value == Admin, w.counts) {
        Deny(NotOk("user.update", "last_admin"), w.notes);
        return;
      }
      var after := target.value.(role := role.value, active := active);
      var c := Updated(userId, if target.value.role == role.value then None else role,
                       if target.value.active == active then None else Some(active));
      ok := Change(userId, Some(after), UpdateDetails(db.data, userId, role.value, active, w.writes), c, w.counts,
                   w.faults);
    }

    method DeleteUser(userId: int, w: World, recounts: bool) returns (ok: bool)
      requires Valid()
      modifies db, this`firstRun
      ensures Valid() && (SomeAdmin(old(db.data.rows)) ==> SomeAdmin(db.data.rows))
      ensures ok <==> && Can(ManageUsers) && userId != currentId && stage == Idle && 0 < userId
                      && FindById(old(db.data), userId, w.finds).Some?
                      && !IsLastAdmin(old(db.data), old(db.data.rows)[userId], false, w.counts)
                      && w.writes && AllWork(w.faults)
      ensures ok ==> db.data == old(db.data).(rows := old(db.data.rows) - {userId})
                     && db.audit == old(db.audit) + [Ok(currentId, Deleted(userId))]
      ensures !ok ==> db.data == old(db.data)
                      && (db.audit == old(db.audit) || exists e: Entry :: e.NotOk? && db.audit == old(db.audit) + [e])
    {
      ok := false;
      if !Can(ManageUsers) {
        Deny(NotOk("user.delete", "missing_permission"), w.notes);
        return;
      }
      if userId == currentId {
        Deny(NotOk("user.delete", "self"), w.notes);
        return;
      }
      if stage != Idle || !w.faults.begins { return; }
      var target := FindById(db.data, userId, w.finds);
      if target.None? { return; }
      if IsLastAdmin(db.data, target.value, false, w.counts) {
        Deny(NotOk("user.delete", "last_admin"), w.notes);
        return;
      }
      ok := Change(userId, None, Remove(db.data, userId, w.writes), Deleted(userId), w.counts, w.faults);
      if ok { UpdateUserCount(recounts); }
    }

    // ---- Over whole runs -------------------------------------------------------------------

    /**
     Guessing at the login or the unlock screen is slow on every account, as long as the
     clock does not run backwards: of the tries since the lock was last cleared (TriesAfter),
     the recorded failure after n others came no earlier than the first plus all n waits, and
     the account counts the failures. A wrong old password in a change of password is not a
     try: it is neither counted nor slowed.
     */
    lemma GuessingIsSlow(id: nat, n: nat)
      requires Valid() && id in db.data.rows && id in tries && Monotone(tries[id]) && n < |Failures(tries[id])|
      ensures Failures(tries[id])[n] >= Failures(tries[id])[0] + Waits(n)
      ensures db.data.rows[id].lock.failedAttempts == |Failures(tries[id])|
    {
      assert Row(id);
      AttackIsSlow(tries[id], n);
      FailuresAreSpaced(tries[id]);
    }
  }

  datatype Event =
    | RequestLogin(name: string, given: bool)
    | RequestUnlock(given: bool)
    | RequestFirstAdmin(name: string, formOk: bool)
    | RequestChangePassword(formOk: bool)
    | RequestCreateUser(name: string, newRole: Option<Role>, formOk: bool, notes: bool)
    | RequestResetPassword(target: int, agree: bool, notes: bool)
    | Work(w: World)
    | FinishTask(counts: bool)
    | Lock(notes: bool)
    | Logout(notes: bool)
    | Restart(counts: bool)
    | SetUserActive(userId: int, active: bool, w: World, during: Option<World>)
    | SetUserRole(userId: int, newRole: Option<Role>, w: World, during: Option<World>)
    | UpdateUser(userId: int, newRole: Option<Role>, active: bool, w: World)
    | DeleteUser(userId: int, w: World, recounts: bool)

  method Step(service: AuthService, event: Event)
    requires service.Valid()
    modifies service, service.db
    ensures service.Valid()
    ensures SomeAdmin(old(service.db.data.rows)) ==> SomeAdmin(service.db.data.rows)
  {
    match event {
      case RequestLogin(name, given) => service.RequestLogin(name, given);
      case RequestUnlock(given) => service.RequestUnlock(given);
      case RequestFirstAdmin(name, formOk) => service.RequestFirstAdmin(name, formOk);
      case RequestChangePassword(formOk) => service.RequestChangePassword(formOk);
      case RequestCreateUser(name, role, formOk, notes) => service.RequestCreateUser(name, role, formOk, notes);
      case RequestResetPassword(target, agree, notes) => service.RequestResetPassword(target, agree, notes);
      case Work(w) =>
        if service.stage.Started? {
          service.Work(w);
          if SomeAdmin(old(service.db.data.rows)) { AdminsRemain(old(service.db.data.rows), service.db.data.rows); }
        }
      case FinishTask(counts) =>
        if service.stage.Done? { service.FinishTask(counts); }
      case Lock(notes) => service.Lock(notes);
      case Logout(notes) => service.Logout(notes);
      case Restart(counts) => service.Restart(counts);
      case SetUserActive(userId, active, w, during) => var _, _ := service.SetUserActive(userId, active, w, during);
      case SetUserRole(userId, role, w, during) => var _, _ := service.SetUserRole(userId, role, w, during);
      case UpdateUser(userId, role, active, w) => var _ := service.UpdateUser(userId, role, active, w);
      case DeleteUser(userId, w, recounts) => var _ := service.DeleteUser(userId, w, recounts);
    }
  }

  /**
   Any run from a new database: the account table is empty or has an active administrator,
   the trail alone tells every account's role and access, and, unless a session was begun on
   an administrator's account that had lost its role or access between its setup and that
   moment, every change to other accounts was made by an active administrator.
   */
  method Run(events: seq<Event>) returns (service: AuthService)
    ensures fresh(service) && service.Valid()
    ensures service.db.data.rows == map[] || SomeAdmin(service.db.data.rows)
    ensures Standings(service.db.data.rows) == Replay(service.db.audit)
    ensures service.strayed || Authorised(service.db.audit)
  {
    service := new AuthService();
    for i := 0 to |events|
      invariant service.Valid() && fresh(service) && fresh(service.db)
    {
      Step(service, events[i]);
    }
  }

  // ---- A first administrator over a running session -----------------------------------------

  const WORKS := World(0, true, true, true, true, true, Faults(true, true, true), true, false, "hash", true)

  /** The first administrator signed in while the count of accounts has failed. */
  method FirstSetup() returns (service: AuthService)
    ensures fresh(service) && fresh(service.db) && service.Valid() && !service.strayed
    ensures service.Can(ManageUsers) && service.currentId == 1 && service.firstRun && service.stage == Idle
    ensures service.db.data == Users(map[1 := Account("a", Admin, "hash", true, false, CLEAN)], 1)
  {
    service := new AuthService();
    service.RequestFirstAdmin("a", true);
    service.WorkFirstAdmin("a", WORKS);
    service.FinishTask(false);
  }

  /** The first administrator signed in while the count of accounts has failed, and a second one set up. */
  method SecondSetup() returns (service: AuthService)
    ensures fresh(service) && fresh(service.db) && service.Valid() && !service.strayed
    ensures service.Can(ManageUsers) && service.currentId == 1
    ensures service.stage.Done? && service.stage.ok && service.stage.task.CreateFirstAdmin? && service.stage.id == 2
    ensures service.stage.user == Account("b", Admin, "hash", true, false, CLEAN)
    ensures AdminAt(service.db.data.rows, 1) && AdminAt(service.db.data.rows, 2)
  {
    service := FirstSetup();
    service.RequestFirstAdmin("b", true);
    service.WorkFirstAdmin("b", WORKS.(counts := false));
  }

  /** The second one is disabled before its result arrives, and its session begins all the same. */
  method DisabledMeanwhile() returns (service: AuthService)
    ensures fresh(service) && fresh(service.db) && service.Valid() && service.strayed
    ensures service.Can(ManageUsers) && service.currentId == 2 && service.stage == Idle
    ensures 2 in service.db.data.rows && StandingOf(service.db.data.rows[2]) == Standing(Admin, false)
  {
    service := SecondSetup();
    if CountActiveAdmins(service.db.data, true) <= 1 { OnlyAdmin(service.db.data, 1, 2); }
    var disabled, _ := service.SetUserActive(2, false, WORKS, None);
    service.FinishTask(true);
  }

  /**
   Whoever may manage accounts without being an active administrator in the database can make
   a change that the trail shows to be unauthorised: enable his own account.
   */
  method UnrealManagerMisuses(service: AuthService, w: World) returns (ok: bool)
    requires service.Valid() && service.Can(ManageUsers)
    requires service.currentId in service.db.data.rows && !AdminAt(service.db.data.rows, service.currentId)
    requires w.finds && w.writes && AllWork(w.faults)
    modifies service, service.db
    ensures ok && service.Valid() && service.strayed == old(service.strayed) && !Authorised(service.db.audit)
  {
    var own := service.currentId;
    StandingOnTheTrail(service.db.data, service.db.audit, own);
    AppendedRow(service.db.audit, Ok(own, Enabled(own)));
    ghost var mid;
    ok, mid := service.SetUserActive(own, true, w, None);
  }

  /** A run in which a change is made by somebody who was no administrator. */
  method SetupOverSessionStrays() returns (service: AuthService)
    ensures fresh(service) && service.Valid() && service.strayed && !Authorised(service.db.audit)
  {
    service := DisabledMeanwhile();
    var _ := UnrealManagerMisuses(service, WORKS);
  }

  /** Left alone, the second administrator's session is real and nothing is amiss. */
  method SetupOverSessionAlone() returns (service: AuthService)
    ensures fresh(service) && service.Valid() && !service.strayed && service.currentId == 2
    ensures Authorised(service.db.audit)
  {
    service := SecondSetup();
    service.FinishTask(true);
  }
}
