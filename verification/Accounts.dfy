/**
  internal/store/store.go: the users table, one function for each statement that
  changes it. Timestamps are whole seconds since 1970 in UTC. The main result is
  that the guard folded into the ban and delete statements is enough: an admin who
  can log in remains, whatever is interleaved with whatever.
 */
module Accounts {
  import opened Wrappers

  type Name = string
  type UserId = nat

  /** The first second of the year 2090, and the sentinel of NeverExpires. */
  const YEAR_2090 := 3786912000
  const NEVER_EXPIRES := 4102444799

  datatype Status = Waiting | Active | Suspended

  datatype User = User(
    username: Name,
    role: string,
    status: Status,
    bannedUntil: Option<int>,
    createdAt: int,
    hash: Option<string>,
    failedAttempts: int,
    lockedUntil: Option<int>)

  type Users = map<UserId, User>

  /** usableAdminPredicate: an admin who can log in now, or whose timed ban has lapsed. */
  predicate Usable(u: User, now: int) {
    u.role == "admin" && (u.status == Active || Lapsed(u, now))
  }

  predicate Lapsed(u: User, now: int) {
    u.status == Suspended && u.bannedUntil.Some? && u.bannedUntil.value < now && u.bannedUntil.value < YEAR_2090
  }

  function UsableAdmins(users: Users, now: int): set<UserId> {
    set id | id in users && Usable(users[id], now)
  }

  /** The UNIQUE constraint on usernames. */
  predicate UniqueNames(users: Users) {
    forall i, j :: i in users && j in users && users[i].username == users[j].username ==> i == j
  }

  predicate Taken(users: Users, name: Name) {
    exists id :: id in users && users[id].username == name
  }

  // ---- The statements --------------------------------------------------------------------

  /** The guard of BanUser and DeleteUser on one row. */
  predicate MayLose(users: Users, id: UserId, now: int)
    requires id in users
  {
    !Usable(users[id], now) || |UsableAdmins(users, now)| > 1
  }

  function Banned(u: User, until: Option<int>): User {
    u.(status := Suspended, bannedUntil := Some(if until.Some? then until.value else NEVER_EXPIRES))
  }

  function Ban(users: Users, name: Name, until: Option<int>, now: int): Users {
    map id | id in users :: if users[id].username == name && MayLose(users, id, now) then Banned(users[id], until) else users[id]
  }

  function Delete(users: Users, name: Name, now: int): Users {
    map id | id in users && !(users[id].username == name && MayLose(users, id, now)) :: users[id]
  }

  function Unban(users: Users, name: Name): Users {
    map id | id in users ::
      if users[id].username == name && users[id].status == Suspended then users[id].(status := Active, bannedUntil := None)
      else users[id]
  }

  /** CheckAndLiftExpiredBan. */
  function Lift(users: Users, id: UserId, now: int): Users {
    if id in users && Lapsed(users[id], now) then users[id := users[id].(status := Active, bannedUntil := None)] else users
  }

  /** An INSERT under a free ID; a taken name fails. */
  function Insert(users: Users, id: UserId, u: User): Users {
    if Taken(users, u.username) || id in users then users else users[id := u]
  }

  function NewUser(name: Name, role: string, hash: string, status: Status, now: int): User {
    User(name, role, status, None, now, Some(hash), 0, None)
  }

  predicate Expired(u: User, maxAge: int, now: int) {
    u.status == Waiting && u.createdAt < now - maxAge
  }

  /** The DELETE that CreatePendingAccount begins with. */
  function DropExpired(users: Users, name: Name, maxAge: int, now: int): Users {
    if maxAge <= 0 then users
    else map id | id in users && !(users[id].username == name && Expired(users[id], maxAge, now)) :: users[id]
  }

  function Purge(users: Users, maxAge: int, now: int): Users {
    if maxAge <= 0 then users else map id | id in users && !Expired(users[id], maxAge, now) :: users[id]
  }

  /** ActivateAccount and ApprovePendingAccount. */
  function Activate(users: Users, name: Name): Users {
    map id | id in users ::
      if users[id].username == name && users[id].status == Waiting then users[id].(status := Active) else users[id]
  }

  function RejectWaiting(users: Users, name: Name): Users {
    map id | id in users && !(users[id].username == name && users[id].status == Waiting) :: users[id]
  }

  const LOCKOUT_THRESHOLD := 5
  const LOCKOUT_SECONDS := 900

  function Failed(u: User, now: int): User {
    u.(failedAttempts := u.failedAttempts + 1,
       lockedUntil := if u.failedAttempts + 1 >= LOCKOUT_THRESHOLD then Some(now + LOCKOUT_SECONDS) else u.lockedUntil)
  }

  function RecordFailure(users: Users, id: UserId, now: int): Users {
    if id in users then users[id := Failed(users[id], now)] else users
  }

  function ClearFailures(users: Users, id: UserId): Users {
    if id in users then users[id := users[id].(failedAttempts := 0, lockedUntil := None)] else users
  }

  function SetHash(users: Users, name: Name, hash: string): Users {
    map id | id in users :: if users[id].username == name then users[id].(hash := Some(hash)) else users[id]
  }

  // ---- Any interleaving of them, on a clock that does not go back ----------------------------

  datatype Step =
    | BanStep(name: Name, until: Option<int>)
    | DeleteStep(name: Name)
    | UnbanStep(name: Name)
    | LiftStep(id: UserId)
    | CreateStep(id: UserId, name: Name, role: string, hash: string)
    | RegisterStep(id: UserId, name: Name, hash: string)
    | DropExpiredStep(name: Name, maxAge: int)
    | PurgeStep(maxAge: int)
    | ApproveStep(name: Name)
    | RejectStep(name: Name)
    | FailureStep(id: UserId)
    | ClearStep(id: UserId)
    | SetHashStep(name: Name, hash: string)
    | WaitStep(seconds: nat)

  datatype Table = Table(users: Users, now: int)

  function Apply(t: Table, step: Step): Table {
    match step
    case BanStep(name, until) => t.(users := Ban(t.users, name, until, t.now))
    case DeleteStep(name) => t.(users := Delete(t.users, name, t.now))
    case UnbanStep(name) => t.(users := Unban(t.users, name))
    case LiftStep(id) => t.(users := Lift(t.users, id, t.now))
    case CreateStep(id, name, role, hash) => t.(users := Insert(t.users, id, NewUser(name, role, hash, Active, t.now)))
    case RegisterStep(id, name, hash) => t.(users := Insert(t.users, id, NewUser(name, "user", hash, Waiting, t.now)))
    case DropExpiredStep(name, maxAge) => t.(users := DropExpired(t.users, name, maxAge, t.now))
    case PurgeStep(maxAge) => t.(users := Purge(t.users, maxAge, t.now))
    case ApproveStep(name) => t.(users := Activate(t.users, name))
    case RejectStep(name) => t.(users := RejectWaiting(t.users, name))
    case FailureStep(id) => t.(users := RecordFailure(t.users, id, t.now))
    case ClearStep(id) => t.(users := ClearFailures(t.users, id))
    case SetHashStep(name, hash) => t.(users := SetHash(t.users, name, hash))
    case WaitStep(seconds) => t.(now := t.now + seconds)
  }

  function Run(t: Table, steps: seq<Step>): Table
    decreases steps
  {
    if steps == [] then t else Run(Apply(t, steps[0]), steps[1..])
  }

  lemma StepUnique(t: Table, step: Step)
    requires UniqueNames(t.users)
    ensures UniqueNames(Apply(t, step).users)
  {
  }

  /** Time alone never makes an admin unusable. */
  lemma UsableStays(u: User, now: int, later: int)
    requires Usable(u, now) && now <= later
    ensures Usable(u, later)
  {
  }

  lemma AnotherOne(s: set<UserId>, x: UserId) returns (y: UserId)
    requires |s| > 1
    ensures y in s && y != x
  {
    var rest := s - {x};
    assert |rest| >= 1 by {
      if x in s { assert s == rest + {x}; } else { assert rest == s; }
    }
    y :| y in rest;
  }

  /** Someone who can log in as admin after the step, given one before it. */
  lemma StepKeepsOne(t: Table, step: Step, id: UserId) returns (id': UserId)
    requires UniqueNames(t.users) && id in UsableAdmins(t.users, t.now)
    ensures id' in UsableAdmins(Apply(t, step).users, Apply(t, step).now)
  {
    id' := id;
    if (step.BanStep? || step.DeleteStep?) && t.users[id].username == step.name && |UsableAdmins(t.users, t.now)| > 1 {
      id' := AnotherOne(UsableAdmins(t.users, t.now), id);
    }
  }

  /** Once one admin is usable, one is usable ever after. */
  lemma {:induction false} LastAdminStays(t: Table, steps: seq<Step>)
    requires UniqueNames(t.users) && UsableAdmins(t.users, t.now) != {}
    ensures UniqueNames(Run(t, steps).users) && UsableAdmins(Run(t, steps).users, Run(t, steps).now) != {}
    decreases steps
  {
    if steps != [] {
      var id :| id in UsableAdmins(t.users, t.now);
      StepUnique(t, steps[0]);
      var id' := StepKeepsOne(t, steps[0], id);
      LastAdminStays(Apply(t, steps[0]), steps[1..]);
    }
  }

  /**
    The guard refuses no more than it must: it holds back a ban to a later time, or
    a delete, exactly when the target is the only usable admin.
   */
  lemma GuardIsTight(users: Users, id: UserId, until: Option<int>, now: int)
    requires UniqueNames(users) && id in users && (until.Some? ==> until.value >= now)
    ensures MayLose(users, id, now) <==> !(UsableAdmins(users, now) == {id})
    ensures var name := users[id].username;
            if UsableAdmins(users, now) == {id} then Ban(users, name, until, now) == users && Delete(users, name, now) == users
            else id !in Delete(users, name, now) && (now <= YEAR_2090 ==> id !in UsableAdmins(Ban(users, name, until, now), now))
  {
    GuardExact(users, id, now);
    hide UsableAdmins, MayLose;
    if UsableAdmins(users, now) == {id} { GuardHolds(users, id, until, now); } else { GuardLetsGo(users, id, until, now); }
  }

  lemma GuardExact(users: Users, id: UserId, now: int)
    requires id in users
    ensures MayLose(users, id, now) <==> !(UsableAdmins(users, now) == {id})
  {
    var s := UsableAdmins(users, now);
    assert id in s ==> s == {id} + (s - {id});
    assert s == {id} ==> |s| == 1;
    assert id in s && |s| <= 1 ==> s - {id} == {};
  }

  lemma GuardHolds(users: Users, id: UserId, until: Option<int>, now: int)
    requires UniqueNames(users) && id in users && !MayLose(users, id, now)
    ensures Ban(users, users[id].username, until, now) == users && Delete(users, users[id].username, now) == users
  {
    hide MayLose;
    var name := users[id].username;
    assert forall j :: j in users && users[j].username == name ==> j == id;
    assert Delete(users, name, now).Keys == users.Keys;
  }

  lemma GuardLetsGo(users: Users, id: UserId, until: Option<int>, now: int)
    requires id in users && MayLose(users, id, now) && (until.Some? ==> until.value >= now)
    ensures id !in Delete(users, users[id].username, now)
    ensures now <= YEAR_2090 ==> id !in UsableAdmins(Ban(users, users[id].username, until, now), now)
  {
    hide MayLose;
  }

  // ---- What each statement does to a row ------------------------------------------------------------

  /** A ban suspends the named row until its time, or for ever, unless that would lose the last usable admin. It changes nothing else. */
  lemma BanRows(users: Users, name: Name, until: Option<int>, now: int, id: UserId)
    ensures var users' := Ban(users, name, until, now);
            && (id in users' <==> id in users)
            && (id in users ==>
                  users'[id] ==
                    if users[id].username == name && UsableAdmins(users, now) != {id}
                    then users[id].(status := Suspended, bannedUntil := if until.Some? then until else Some(4102444799))
                    else users[id])
  {
    if id in users { GuardExact(users, id, now); }
  }

  lemma DeleteRows(users: Users, name: Name, now: int, id: UserId)
    ensures var users' := Delete(users, name, now);
            && (id in users' <==> id in users && !(users[id].username == name && UsableAdmins(users, now) != {id}))
            && (id in users' ==> users'[id] == users[id])
  {
    if id in users { GuardExact(users, id, now); }
  }

  /** A ban that was lifted, by hand or because its time is over, leaves no trace on the row. */
  lemma UnbanRows(users: Users, name: Name, now: int, id: UserId)
    requires id in users
    ensures Unban(users, name).Keys == users.Keys && Lift(users, id, now).Keys == users.Keys
    ensures var u, u' := users[id], Unban(users, name)[id];
            u' == if u.username == name && u.status == Suspended then u.(status := Active, bannedUntil := None) else u
    ensures var u, u' := users[id], Lift(users, id, now)[id];
            u' == if u.status == Suspended && u.bannedUntil.Some? && u.bannedUntil.value < now && u.bannedUntil.value < 3786912000
                  then u.(status := Active, bannedUntil := None) else u
    ensures forall j :: j in users && j != id ==> Lift(users, id, now)[j] == users[j]
  {
  }

  /** A timed ban is over after its last second, if that is before the year 2090; one without a time never is. */
  lemma BanEnds(users: Users, name: Name, until: Option<int>, now: int, id: UserId, later: int)
    requires id in users && users[id].username == name && UsableAdmins(users, now) != {id}
    ensures var u := Ban(users, name, until, now);
            id in u && (Lapsed(u[id], later) <==> until.Some? && until.value < later && until.value < 3786912000)
  {
    BanRows(users, name, until, now, id);
  }

  /** Whatever clears waiting rows by age takes exactly those made more than `maxAge` seconds ago. */
  lemma OldRows(users: Users, name: Name, maxAge: int, now: int, id: UserId)
    ensures var users' := Purge(users, maxAge, now);
            && (id in users' <==> id in users && !(maxAge > 0 && users[id].status == Waiting && users[id].createdAt < now - maxAge))
            && (id in users' ==> users'[id] == users[id])
    ensures var users' := DropExpired(users, name, maxAge, now);
            && (id in users' <==> id in users && !(maxAge > 0 && users[id].username == name && users[id].status == Waiting
                                                   && users[id].createdAt < now - maxAge))
            && (id in users' ==> users'[id] == users[id])
  {
  }

  /** A waiting row young enough keeps its name; one too old gives it back, if no other row bears it. */
  lemma AgeFreesNames(users: Users, name: Name, maxAge: int, now: int, id: UserId)
    requires UniqueNames(users) && id in users && users[id].username == name && maxAge > 0
    ensures Taken(DropExpired(users, name, maxAge, now), name) <==> users[id].status != Waiting || users[id].createdAt >= now - maxAge
    ensures Taken(Purge(users, maxAge, now), name) <==> users[id].status != Waiting || users[id].createdAt >= now - maxAge
  {
    OldRows(users, name, maxAge, now, id);
    var dropped, purged := DropExpired(users, name, maxAge, now), Purge(users, maxAge, now);
    assert forall j :: j in dropped && dropped[j].username == name ==> j == id;
    assert forall j :: j in purged && purged[j].username == name ==> j == id;
  }

  /** Approval activates the waiting row of that name and denial removes it; neither touches any other row. */
  lemma WaitingRows(users: Users, name: Name, id: UserId)
    ensures Activate(users, name).Keys == users.Keys
    ensures id in users ==>
              Activate(users, name)[id] ==
                if users[id].username == name && users[id].status == Waiting then users[id].(status := Active) else users[id]
    ensures id in RejectWaiting(users, name) <==> id in users && !(users[id].username == name && users[id].status == Waiting)
    ensures id in RejectWaiting(users, name) ==> RejectWaiting(users, name)[id] == users[id]
  {
  }

  /** A new row is made under a free name and a free ID or not at all; it starts unlocked, unbanned and with no failures. */
  lemma InsertRows(users: Users, id: UserId, name: Name, role: string, hash: string, status: Status, now: int)
    ensures var users' := Insert(users, id, NewUser(name, role, hash, status, now));
            if id in users || exists j :: j in users && users[j].username == name then users' == users
            else users' == users[id := User(name, role, status, None, now, Some(hash), 0, None)]
  {
  }

  /** The counters: the fifth failure in a row, and each one after it, locks the row for 900 seconds. */
  lemma CounterRows(users: Users, name: Name, hash: string, id: UserId, now: int)
    requires id in users
    ensures RecordFailure(users, id, now) ==
              users[id := users[id].(failedAttempts := users[id].failedAttempts + 1,
                                     lockedUntil := if users[id].failedAttempts >= 4 then Some(now + 900) else users[id].lockedUntil)]
    ensures ClearFailures(users, id) == users[id := users[id].(failedAttempts := 0, lockedUntil := None)]
    ensures SetHash(users, name, hash).Keys == users.Keys
    ensures SetHash(users, name, hash)[id] == if users[id].username == name then users[id].(hash := Some(hash)) else users[id]
  {
  }

  // ---- The Go twin of the predicate --------------------------------------------------------------

  const NANOS := 1_000_000_000

  /** IsUsableAdmin reads a clock of nanoseconds; the statements read whole seconds. */
  predicate IsUsableAdmin(u: User, nanos: int) {
    if u.role != "admin" then false
    else if u.status == Active then true
    else u.status == Suspended && u.bannedUntil.Some? && u.bannedUntil.value * NANOS < nanos && u.bannedUntil.value < YEAR_2090
  }

  /** They agree except for an admin in the very second in which the ban lapses. */
  lemma TwinsAgree(u: User, nanos: int)
    ensures (IsUsableAdmin(u, nanos) <==> Usable(u, nanos / NANOS)) <==>
              !(u.role == "admin" && u.status == Suspended && u.bannedUntil == Some(nanos / NANOS)
                && nanos % NANOS > 0 && nanos / NANOS < YEAR_2090)
  {
    var sec, frac := nanos / NANOS, nanos % NANOS;
    assert nanos == sec * NANOS + frac && 0 <= frac < NANOS;
    if u.bannedUntil.Some? {
      var b := u.bannedUntil.value;
      assert b < sec ==> b * NANOS <= (sec - 1) * NANOS < nanos;
      assert b > sec ==> b * NANOS >= (sec + 1) * NANOS > nanos;
    }
  }
}
