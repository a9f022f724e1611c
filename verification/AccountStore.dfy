/**
  internal/store/store.go and internal/registration/app.go as objects: rows changed
  in place, a statement at a time, and the registration form that drives them.
 */
module AccountStore {
  import opened Wrappers
  import opened Ordering
  import opened Accounts
  import opened Invites
  import opened Lockout

  datatype StoreError = ErrNotFound | ErrLastUsableAdmin | ErrUsernameTaken | ErrInviteInvalid | ErrNoPending | ErrNotSuspended

  predicate Holds(users: Users, name: Name, id: UserId) {
    id in users && users[id].username == name
  }

  /** The rows a guarded statement touches. */
  function Affected(users: Users, name: Name, now: int): set<UserId> {
    set id | id in users && users[id].username == name && MayLose(users, id, now)
  }

  /** Why a guarded statement touched no row: there is none, or it is the last admin who can log in. */
  lemma WhyRefused(users: Users, name: Name, now: int)
    requires UniqueNames(users)
    ensures Affected(users, name, now) == {} <==>
              (!Taken(users, name) || exists id: UserId :: Holds(users, name, id) && UsableAdmins(users, now) == {id})
    ensures Affected(users, name, now) == {} ==> Delete(users, name, now) == users
    ensures Affected(users, name, now) == {} ==> forall until :: Ban(users, name, until, now) == users
  {
    forall id: UserId | Holds(users, name, id)
      ensures id in Affected(users, name, now) <==> UsableAdmins(users, now) != {id}
    {
      GuardIsTight(users, id, None, now);
    }
    if id: UserId :| Holds(users, name, id) && UsableAdmins(users, now) == {id} {
      assert forall j: UserId :: j in Affected(users, name, now) ==> j == id;
    }
    if Affected(users, name, now) == {} && Taken(users, name) {
      var id :| id in users && users[id].username == name;
      assert Holds(users, name, id) && id !in Affected(users, name, now);
    }
  }

  lemma SameName(users: Users, name: Name)
    requires UniqueNames(users)
    ensures forall i, j :: Holds(users, name, i) && Holds(users, name, j) ==> i == j
  {
  }

  /** A waiting row made more than `maxAge` seconds ago, where there is such a limit. */
  predicate TooOld(u: User, maxAge: int, now: int) {
    maxAge > 0 && u.status == Waiting && u.createdAt < now - maxAge
  }

  lemma FreesOld(users: Users, name: Name, maxAge: int, now: int)
    ensures var dropped := DropExpired(users, name, maxAge, now);
            && (Taken(dropped, name) <==> exists j: UserId :: Holds(users, name, j) && !TooOld(users[j], maxAge, now))
            && (forall j: UserId :: j in dropped <==> j in users && !(Holds(users, name, j) && TooOld(users[j], maxAge, now)))
            && (forall j: UserId :: j in dropped ==> dropped[j] == users[j])
  {
    var dropped := DropExpired(users, name, maxAge, now);
    forall j: UserId
      ensures j in dropped <==> j in users && !(Holds(users, name, j) && TooOld(users[j], maxAge, now))
      ensures j in dropped ==> dropped[j] == users[j]
    {
      OldRows(users, name, maxAge, now, j);
    }
    if j: UserId :| Holds(users, name, j) && !TooOld(users[j], maxAge, now) { assert j in dropped && dropped[j].username == name; }
    if j :| j in dropped && dropped[j].username == name { assert Holds(users, name, j); }
  }

  /** The role fits the listener, the password is right, no lock is on, and the row is active or its ban is over. */
  predicate MayLogIn(u: User, adminListener: bool, verify: Verify, now: int) {
    && (u.role == "admin" <==> adminListener)
    && u.hash.Some? && verify == Match && Unlocked(u, now)
    && (u.status == Active
        || (u.status == Suspended && u.bannedUntil.Some? && u.bannedUntil.value < now && u.bannedUntil.value < 3786912000))
  }

  /** Who logs in, and the row that is left: active, without ban, lock or failures, and otherwise as it was. */
  lemma LoginMeans(u: User, id: UserId, adminListener: bool, verify: Verify, now: int)
    requires u.role == "admin" <==> adminListener
    ensures var (u', verdict) := CompleteAuth(Lift(map[id := u], id, now)[id], verify, now);
            && (verdict == LoggedIn <==> MayLogIn(u, adminListener, verify, now))
            && (verdict == LoggedIn ==>
                  u' == u.(status := Active, bannedUntil := if u.status == Suspended then None else u.bannedUntil,
                           failedAttempts := 0, lockedUntil := None))
  {
  }

  lemma WrongListener(u: User, adminListener: bool, verify: Verify, now: int)
    requires (u.role == "admin") != adminListener
    ensures !MayLogIn(u, adminListener, verify, now)
  {
  }

  lemma NotSuspended(users: Users, id: UserId, now: int)
    requires id in users
    ensures users[id].status != Suspended ==> Lift(users, id, now) == users
    ensures Lift(users, id, now).Keys == users.Keys && forall j :: j in users && j != id ==> Lift(users, id, now)[j] == users[j]
    ensures UniqueNames(users) ==> UniqueNames(Lift(users, id, now))
  {
  }

  lemma LiftAlone(users: Users, id: UserId, now: int)
    requires id in users
    ensures id in Lift(users, id, now) && Lift(users, id, now)[id] == Lift(map[id := users[id]], id, now)[id]
  {
  }

  /** A connection that the public listener sends to the registration form. */
  predicate Registers(name: Name, adminListener: bool) {
    !adminListener && SameLetters(name, "new")
  }

  class Store {
    var users: Users
    var invites: Invitations

    ghost predicate Valid()
      reads this
    {
      UniqueNames(users)
    }

    constructor ()
      ensures Valid() && users == map[] && invites == map[]
    {
      users, invites := map[], map[];
    }

    method BanUser(name: Name, until: Option<int>, now: int) returns (err: Option<StoreError>)
      requires Valid()
      modifies this`users
      ensures Valid() && users == Ban(old(users), name, until, now)
      ensures err == Some(ErrNotFound) <==> !Taken(old(users), name)
      ensures err == Some(ErrLastUsableAdmin) <==> exists id: UserId :: Holds(old(users), name, id) && UsableAdmins(old(users), now) == {id}
      ensures err.Some? ==> users == old(users) && err.value in {ErrNotFound, ErrLastUsableAdmin}
      ensures forall id: UserId :: Holds(old(users), name, id) && err == None ==>
                id in users && users[id].status == Suspended && users[id].bannedUntil == Some(if until.Some? then until.value else NEVER_EXPIRES)
      ensures forall id: UserId :: id in users <==> id in old(users)
      ensures forall id: UserId :: id in users && !Holds(old(users), name, id) ==> users[id] == old(users)[id]
      ensures UsableAdmins(old(users), now) != {} ==> UsableAdmins(users, now) != {}
    {
      WhyRefused(users, name, now);
      KeepsOne(Table(users, now), BanStep(name, until));
      var rows := Affected(users, name, now);
      users := Ban(users, name, until, now);
      if |rows| == 0 {
        if !Taken(users, name) { return Some(ErrNotFound); }
        return Some(ErrLastUsableAdmin);
      }
      return None;
    }

    method DeleteUser(name: Name, now: int) returns (err: Option<StoreError>)
      requires Valid()
      modifies this`users
      ensures Valid() && users == Delete(old(users), name, now)
      ensures err == Some(ErrNotFound) <==> !Taken(old(users), name)
      ensures err == Some(ErrLastUsableAdmin) <==> exists id: UserId :: Holds(old(users), name, id) && UsableAdmins(old(users), now) == {id}
      ensures err == None ==> !Taken(users, name)
      ensures err.Some? ==> users == old(users)
      ensures forall id: UserId :: id in old(users) && !Holds(old(users), name, id) ==> id in users && users[id] == old(users)[id]
      ensures UsableAdmins(old(users), now) != {} ==> UsableAdmins(users, now) != {}
    {
      WhyRefused(users, name, now);
      KeepsOne(Table(users, now), DeleteStep(name));
      var rows := Affected(users, name, now);
      users := Delete(users, name, now);
      if |rows| == 0 {
        if !Taken(users, name) { return Some(ErrNotFound); }
        return Some(ErrLastUsableAdmin);
      }
      return None;
    }

    method UnbanUser(name: Name) returns (err: Option<StoreError>)
      requires Valid()
      modifies this`users
      ensures Valid() && users == Unban(old(users), name)
      ensures err == None <==> exists id: UserId :: Holds(old(users), name, id) && old(users)[id].status == Suspended
      ensures err == None || err == Some(ErrNotSuspended)
      ensures forall id: UserId :: id in users <==> id in old(users)
      ensures forall id: UserId :: id in users ==>
                users[id] == if Holds(old(users), name, id) && old(users)[id].status == Suspended
                             then old(users)[id].(status := Active, bannedUntil := None) else old(users)[id]
    {
      var rows := set id | id in users && users[id].username == name && users[id].status == Suspended;
      assert rows == {} <==> !exists id: UserId :: Holds(users, name, id) && users[id].status == Suspended by {
        if id: UserId :| Holds(users, name, id) && users[id].status == Suspended { assert id in rows; }
        if rows != {} { var id :| id in rows; assert Holds(users, name, id); }
      }
      users := Unban(users, name);
      return if |rows| == 0 then Some(ErrNotSuspended) else None;
    }

    method CheckAndLiftExpiredBan(id: UserId, now: int) returns (lifted: bool)
      requires Valid()
      modifies this`users
      ensures Valid() && users == Lift(old(users), id, now)
      ensures lifted <==> id in old(users) && Lapsed(old(users)[id], now)
      ensures lifted <==> id in old(users) && old(users)[id].status == Suspended && old(users)[id].bannedUntil.Some?
                          && old(users)[id].bannedUntil.value < now && old(users)[id].bannedUntil.value < 3786912000
      ensures users == if lifted then old(users)[id := old(users)[id].(status := Active, bannedUntil := None)] else old(users)
      ensures UsableAdmins(users, now) == UsableAdmins(old(users), now)
    {
      lifted := id in users && Lapsed(users[id], now);
      users := Lift(users, id, now);
    }

    /** `id` is the row ID that the insert is given. */
    method CreatePendingAccount(name: Name, hash: string, maxAge: int, now: int, id: UserId) returns (err: Option<StoreError>)
      requires Valid() && id !in users
      modifies this`users
      ensures Valid() && var dropped := DropExpired(old(users), name, maxAge, now);
              && (err == Some(ErrUsernameTaken) <==> Taken(dropped, name))
              && (err == None || err == Some(ErrUsernameTaken))
              && users == if err == None then dropped[id := NewUser(name, "user", hash, Waiting, now)] else dropped
      ensures err == Some(ErrUsernameTaken) <==>
                exists j: UserId :: Holds(old(users), name, j) && !TooOld(old(users)[j], maxAge, now)
      ensures forall j: UserId :: j in old(users) && !(Holds(old(users), name, j) && TooOld(old(users)[j], maxAge, now)) ==>
                j in users && users[j] == old(users)[j]
      ensures forall j: UserId :: Holds(old(users), name, j) && TooOld(old(users)[j], maxAge, now) ==> j !in users
      ensures err == None ==> id in users && users[id] == User(name, "user", Waiting, None, now, Some(hash), 0, None)
    {
      FreesOld(users, name, maxAge, now);
      if maxAge > 0 { users := DropExpired(users, name, maxAge, now); }
      if Taken(users, name) { return Some(ErrUsernameTaken); }
      users := users[id := NewUser(name, "user", hash, Waiting, now)];
      return None;
    }

    method ActivateAccount(name: Name)
      requires Valid()
      modifies this`users
      ensures Valid() && users == Activate(old(users), name)
    {
      users := Activate(users, name);
    }

    method RejectPendingAccount(name: Name) returns (err: Option<StoreError>)
      requires Valid()
      modifies this`users
      ensures Valid() && users == RejectWaiting(old(users), name)
      ensures err == None <==> WaitingUnder(old(users), name) != {}
      ensures WaitingUnder(users, name) == {}
    {
      var rows := WaitingUnder(users, name);
      users := RejectWaiting(users, name);
      return if |rows| == 0 then Some(ErrNoPending) else None;
    }

    method ValidateInvite(code: Code, nanos: int) returns (err: Option<StoreError>)
      ensures err == None <==> ValidInvite(invites, code, nanos)
      ensures err == None || err == Some(ErrInviteInvalid)
    {
      if code !in invites { return Some(ErrInviteInvalid); }
      if invites[code].uses <= 0 { return Some(ErrInviteInvalid); }
      if ExpiredInvite(invites[code], nanos) { return Some(ErrInviteInvalid); }
      return None;
    }

    method ValidateAndConsumeInvite(code: Code, nanos: int) returns (err: Option<StoreError>)
      modifies this`invites
      ensures invites == Consumed(old(invites), code, nanos)
      ensures err == None <==> ValidInvite(old(invites), code, nanos)
      ensures err == None || err == Some(ErrInviteInvalid)
    {
      if code !in invites { return Some(ErrInviteInvalid); }
      var uses := invites[code].uses;
      if uses <= 0 { return Some(ErrInviteInvalid); }
      if ExpiredInvite(invites[code], nanos) { return Some(ErrInviteInvalid); }
      invites := invites[code := invites[code].(uses := uses - 1)];
      return None;
    }

    /**
      A password login on one of the two listeners: a lapsed ban is lifted first, then
      completeAuth. On the public one the name "new", in any case, is no account: it is
      let in to register unless registration is closed.
     */
    method Authenticate(name: Name, adminListener: bool, closed: bool, verify: Verify, now: int) returns (ok: bool)
      requires Valid()
      modifies this`users
      ensures Valid()
      ensures Registers(name, adminListener) ==> users == old(users) && (ok <==> !closed)
      ensures forall id :: id in old(users) && !Holds(old(users), name, id) ==> id in users && users[id] == old(users)[id]
      ensures users.Keys == old(users).Keys
      ensures forall id: UserId :: Holds(old(users), name, id) && !Registers(name, adminListener) ==>
                var u := old(users)[id];
                if (u.role == "admin") != adminListener then users[id] == u && !ok
                else
                  var (u', verdict) := CompleteAuth(Lift(old(users), id, now)[id], verify, now);
                  users[id] == u' && (ok <==> verdict == LoggedIn)
      ensures !Taken(old(users), name) && !Registers(name, adminListener) ==> !ok && users == old(users)
      ensures !Registers(name, adminListener) ==>
                (ok <==> exists id: UserId :: Holds(old(users), name, id) && MayLogIn(old(users)[id], adminListener, verify, now))
      ensures ok && !Registers(name, adminListener) ==> forall id: UserId :: Holds(old(users), name, id) ==>
                var u := old(users)[id];
                users[id] == u.(status := Active, bannedUntil := if u.status == Suspended then None else u.bannedUntil,
                                failedAttempts := 0, lockedUntil := None)
    {
      hide UniqueNames, CompleteAuth, EqualFold, SameLetters, MayLogIn, Lift;
      SameName(users, name);
      FoldMeans(name, "new");
      if !adminListener && EqualFold(name, "new") { return !closed; }
      if !Taken(users, name) { return false; }
      var id :| id in users && users[id].username == name;
      assert Holds(users, name, id);
      if (users[id].role == "admin") != adminListener {
        WrongListener(users[id], adminListener, verify, now);
        return false;
      }
      LoginMeans(users[id], id, adminListener, verify, now);
      LiftAlone(users, id, now);
      NotSuspended(users, id, now);
      if users[id].status == Suspended {
        var lifted := CheckAndLiftExpiredBan(id, now);
      }
      ok := CompleteAuthentication(id, verify, now);
    }

    method CompleteAuthentication(id: UserId, verify: Verify, now: int) returns (ok: bool)
      requires Valid() && id in users
      modifies this`users
      ensures Valid() && users == old(users)[id := CompleteAuth(old(users)[id], verify, now).0]
      ensures ok <==> CompleteAuth(old(users)[id], verify, now).1 == LoggedIn
    {
      var u := users[id];
      if u.status != Active { return false; }
      if u.lockedUntil.Some? && u.lockedUntil.value > now { return false; }
      if u.hash == None { return false; }
      match verify
      case Malformed => return false;
      case Mismatch =>
        users := RecordFailure(users, id, now);
        return false;
      case Match =>
        users := ClearFailures(users, id);
        return true;
    }
  }

  lemma KeepsOne(t: Table, step: Step)
    requires UniqueNames(t.users)
    ensures UsableAdmins(t.users, t.now) != {} ==> UsableAdmins(Apply(t, step).users, Apply(t, step).now) != {}
    ensures UniqueNames(Apply(t, step).users)
  {
    StepUnique(t, step);
    if UsableAdmins(t.users, t.now) != {} {
      var id :| id in UsableAdmins(t.users, t.now);
      var id' := StepKeepsOne(t, step, id);
    }
  }

  // ---- The registration form --------------------------------------------------------------------

  datatype FormStep = StateUsername | StateEmail | StateEmailConfirm | StateInviteCode | StatePassword | StateConfirm | StateDone

  class Form {
    const db: Store
    const inviteOnly: bool
    const maxAge: int
    var step: FormStep
    var username: Name
    var email: string
    var invite: Code
    var password: string

    constructor (store: Store, invites: bool, expiry: int)
      ensures db == store && inviteOnly == invites && maxAge == expiry && step == StateUsername
    {
      db, inviteOnly, maxAge := store, invites, expiry;
      step, username, email, invite, password := StateUsername, "", "", "", "";
    }

    /**
      Enter pressed on `input`. `valid` is what the validator of the username or the
      password says of it, `hash` what hashing returns, and `id` a free row ID; the row is
      made at second `now` and the invite read at `nanos`.
      Nothing but the confirmed last step touches the store.
     */
    method Submit(input: string, valid: bool, hash: Option<string>, id: UserId, now: int, nanos: int)
      requires db.Valid() && id !in db.users
      modifies this, db
      ensures db.Valid()
      ensures !(old(step) == StateConfirm && input == old(password)) ==> db.users == old(db.users) && db.invites == old(db.invites)
      ensures old(step) != StateConfirm ==>
                (step, username, email, invite, password) ==
                  Typed(old(db.users), old(db.invites), old(step), old(username), old(email), old(invite), old(password),
                        input, valid, inviteOnly, nanos)
      ensures old(step) == StateInviteCode && step == StatePassword ==> ValidInvite(db.invites, invite, nanos)
      ensures old(step) == StateConfirm && input != old(password) ==> step == StatePassword
      ensures old(step) == StateConfirm && input == old(password) ==> Finalised(old(db.users), old(db.invites), db.users, db.invites, step,
                old(username), old(invite), inviteOnly, maxAge, hash, id, now, nanos)
    {
      match step
      case StateUsername =>
        if !valid || Taken(db.users, input) { return; }
        username := input;
        step := if inviteOnly then StateInviteCode else StateEmail;
      case StateEmail =>
        email := input;
        step := if email == "" then StatePassword else StateEmailConfirm;
      case StateEmailConfirm =>
        if input != email {
          email, step := "", StateEmail;
          return;
        }
        step := StatePassword;
      case StateInviteCode =>
        if input == "" { return; }
        var err := db.ValidateInvite(input, nanos);
        if err != None { return; }
        invite, step := input, StatePassword;
      case StatePassword =>
        if !valid { return; }
        password, step := input, StateConfirm;
      case StateConfirm =>
        if input != password {
          step := StatePassword;
          return;
        }
        Finalise(hash, id, now, nanos);
      case StateDone =>
    }

    method Finalise(hash: Option<string>, id: UserId, now: int, nanos: int)
      requires db.Valid() && id !in db.users
      modifies this`step, db
      ensures db.Valid()
      ensures Finalised(old(db.users), old(db.invites), db.users, db.invites, step,
                        username, invite, inviteOnly, maxAge, hash, id, now, nanos)
    {
      hide DropExpired, Taken, ValidInvite, Activate, RejectWaiting, UniqueNames, Consumed;
      if hash == None {
        step := StateDone;
        return;
      }
      DropsNone(db.users, username, maxAge, now, id);
      ConsumedOne(db.invites, invite, nanos);
      ghost var dropped := DropExpired(db.users, username, maxAge, now);
      var err := db.CreatePendingAccount(username, hash.value, maxAge, now, id);
      if err != None {
        step := StateUsername;
        return;
      }
      OnlyNewRow(dropped, username, id, NewUser(username, "user", hash.value, Waiting, now));
      if inviteOnly {
        err := db.ValidateAndConsumeInvite(invite, nanos);
        if err != None {
          var ignored := db.RejectPendingAccount(username);
          step := StateUsername;
          return;
        }
        db.ActivateAccount(username);
      }
      step := StateDone;
    }
  }

  /** The form after Enter, before its last step: on to the next question, back to the email, or still at this one. */
  function Typed(users: Users, invites: Invitations, step: FormStep, username: Name, email: string, invite: Code, password: string,
                 input: string, valid: bool, inviteOnly: bool, nanos: int): (FormStep, Name, string, Code, string)
    requires step != StateConfirm
  {
    match step
    case StateUsername =>
      if valid && !Taken(users, input) then (if inviteOnly then StateInviteCode else StateEmail, input, email, invite, password)
      else (step, username, email, invite, password)
    case StateEmail => (if input == "" then StatePassword else StateEmailConfirm, username, input, invite, password)
    case StateEmailConfirm =>
      if input == email then (StatePassword, username, email, invite, password) else (StateEmail, username, "", invite, password)
    case StateInviteCode =>
      if input != "" && ValidInvite(invites, input, nanos) then (StatePassword, username, email, input, password)
      else (step, username, email, invite, password)
    case StatePassword => (if valid then StateConfirm else step, username, email, invite, if valid then input else password)
    case StateDone => (step, username, email, invite, password)
  }

  /**
    What one uninterrupted finalise comes to. An account is made exactly when the name
    is free; it is active exactly when an invite use was taken for it; and where no
    account results, no use is taken and every other row is as before.
   */
  ghost predicate Finalised(users: Users, invites: Invitations, users': Users, invites': Invitations, step: FormStep,
                            name: Name, code: Code, inviteOnly: bool, maxAge: int, hash: Option<string>, id: UserId, now: int, nanos: int)
  {
    var dropped := DropExpired(users, name, maxAge, now);
    var made := hash.Some? && !Taken(dropped, name) && (inviteOnly ==> ValidInvite(invites, code, nanos));
    && (if made then users' == dropped[id := User(name, "user", if inviteOnly then Active else Waiting, None, now, hash, 0, None)]
                     && step == StateDone
        else (hash.Some? ==> users' == dropped && step == StateUsername) && (hash == None ==> users' == users && step == StateDone))
    && (if made && inviteOnly then invites' == Consumed(invites, code, nanos) && invites'[code].uses == invites[code].uses - 1
        else invites' == invites)
  }

  /** A row just made is the only one of its name, so approval and denial are about it alone. */
  lemma OnlyNewRow(dropped: Users, name: Name, id: UserId, u: User)
    requires !Taken(dropped, name) && id !in dropped && u.username == name && u.status == Waiting
    ensures Activate(dropped[id := u], name) == dropped[id := u.(status := Active)]
    ensures RejectWaiting(dropped[id := u], name) == dropped
    ensures Insert(dropped, id, u) == dropped[id := u]
  {
    assert forall j :: j in dropped ==> dropped[j].username != name;
    assert RejectWaiting(dropped[id := u], name).Keys == dropped.Keys;
  }

  /** The object's finalise is the desk's statements with nobody else between them. */
  lemma FinaliseIsActs(d: Desk, a: AttemptId, id: UserId, hash: string, maxAge: int, part: Fraction)
    requires In(d, a, Filling) && id !in d.table.users
    ensures var d1 := Do(d, Create(a, id, hash, maxAge));
            var d2 := Do(d1, Consume(a, part));
            var d3 := Do(Do(d2, ActivateIt(a)), RollBack(a));
            Finalised(d.table.users, d.invites, d3.table.users, d3.invites, if In(d3, a, Finished) then StateDone else StateUsername,
                      d.attempts[a].name, d.attempts[a].code, true, maxAge, Some(hash), id, d.table.now, Clock(d.table, part))
  {
    hide Do, DropExpired, ValidInvite, Consumed, Taken;
    var name, code := d.attempts[a].name, d.attempts[a].code;
    var dropped, u := DropExpired(d.table.users, name, maxAge, d.table.now), NewUser(name, "user", hash, Waiting, d.table.now);
    DropsNone(d.table.users, name, maxAge, d.table.now, id);
    CreateFields(d, a, id, hash, maxAge);
    var d1 := Do(d, Create(a, id, hash, maxAge));
    if Taken(dropped, name) {
      NothingMore(d1, a, part);
    } else {
      OnlyNewRow(dropped, name, id, u);
      ConsumeFields(d1, a, part);
      ConsumedOne(d1.invites, code, Clock(d.table, part));
      SettleFields(Do(d1, Consume(a, part)), a);
    }
  }

  lemma DropsNone(users: Users, name: Name, maxAge: int, now: int, id: UserId)
    requires id !in users
    ensures id !in DropExpired(users, name, maxAge, now)
  {
  }

  lemma CreateFields(d: Desk, a: AttemptId, id: UserId, hash: string, maxAge: int)
    requires In(d, a, Filling) && id !in d.table.users
    ensures var d', name := Do(d, Create(a, id, hash, maxAge)), d.attempts[a].name;
            var dropped := DropExpired(d.table.users, name, maxAge, d.table.now);
            && d'.invites == d.invites && d'.table.now == d.table.now
            && d'.attempts == d.attempts[a := Attempt(name, d.attempts[a].code, if Taken(dropped, name) then NameTaken else Created)]
            && d'.table.users == if Taken(dropped, name) then dropped
                                 else Insert(dropped, id, NewUser(name, "user", hash, Waiting, d.table.now))
  {
    hide DropExpired, Insert, Taken;
  }

  lemma NothingMore(d: Desk, a: AttemptId, part: Fraction)
    requires In(d, a, NameTaken)
    ensures Do(Do(Do(d, Consume(a, part)), ActivateIt(a)), RollBack(a)) == d
  {
  }

  lemma ConsumedOne(invites: Invitations, code: Code, nanos: int)
    ensures ValidInvite(invites, code, nanos) ==>
              code in invites && Consumed(invites, code, nanos) == invites[code := invites[code].(uses := invites[code].uses - 1)]
    ensures !ValidInvite(invites, code, nanos) ==> Consumed(invites, code, nanos) == invites
  {
  }

  lemma SettleFields(d: Desk, a: AttemptId)
    requires In(d, a, Paid) || In(d, a, Refused)
    ensures var d', name := Do(Do(d, ActivateIt(a)), RollBack(a)), d.attempts[a].name;
            && d'.invites == d.invites && a in d'.attempts && (In(d', a, Finished) <==> In(d, a, Paid))
            && d'.table.users == if In(d, a, Paid) then Activate(d.table.users, name) else RejectWaiting(d.table.users, name)
  {
    hide Activate, RejectWaiting, WaitingUnder;
  }
}
