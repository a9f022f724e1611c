/**
  cmd/server/main.go, completeAuth, and the counter it drives: how many passwords
  can really be tried against one account. A login attempt is one step on a clock
  of whole seconds; what the hash says of the password is a parameter.
 */
module Lockout {
  import opened Wrappers
  import opened Accounts

  datatype Verify = Match | Mismatch | Malformed

  datatype Verdict = NotActive | Locked | NoPassword | VerifyError | WrongPassword | LoggedIn

  predicate IsLocked(u: User, now: int) {
    u.lockedUntil.Some? && u.lockedUntil.value > now
  }

  /** completeAuth, branch by branch: the row afterwards, and what became of the attempt. */
  function CompleteAuth(u: User, verify: Verify, now: int): (User, Verdict) {
    if u.status != Active then (u, NotActive)
    else if IsLocked(u, now) then (u, Locked)
    else if u.hash == None then (u, NoPassword)
    else match verify
      case Malformed => (u, VerifyError)
      case Mismatch => (Failed(u, now), WrongPassword)
      case Match => (u.(failedAttempts := 0, lockedUntil := None), LoggedIn)
  }

  /** An attempt, or anything else that happens to the row but leaves the counter alone. */
  datatype Event = Try(now: int, verify: Verify) | Meddle(status: Status, bannedUntil: Option<int>, hash: Option<string>)

  function After(u: User, e: Event): User {
    match e
    case Try(now, verify) => CompleteAuth(u, verify, now).0
    case Meddle(status, bannedUntil, hash) => u.(status := status, bannedUntil := bannedUntil, hash := hash)
  }

  predicate Wrong(u: User, e: Event) {
    e.Try? && CompleteAuth(u, e.verify, e.now).1 == WrongPassword
  }

  /** The times at which a wrong password was really checked. */
  function WrongTimes(u: User, es: seq<Event>): seq<int>
    decreases es
  {
    if es == [] then []
    else (if Wrong(u, es[0]) then [es[0].now] else []) + WrongTimes(After(u, es[0]), es[1..])
  }

  predicate NoSuccess(u: User, es: seq<Event>)
    decreases es
  {
    es == [] ||
    (!(es[0].Try? && CompleteAuth(u, es[0].verify, es[0].now).1 == LoggedIn) && NoSuccess(After(u, es[0]), es[1..]))
  }

  /** The clock does not go back. */
  predicate InOrder(es: seq<Event>) {
    forall i, j :: 0 <= i < j < |es| && es[i].Try? && es[j].Try? ==> es[i].now <= es[j].now
  }

  /** The lock has ended, or there is none. */
  predicate Unlocked(u: User, now: int) {
    u.lockedUntil == None || u.lockedUntil.value <= now
  }

  /** An attempt succeeds exactly on an active, unlocked row whose password it has; each refusal has its own condition. */
  lemma LogsInExactly(u: User, verify: Verify, now: int)
    ensures var verdict := CompleteAuth(u, verify, now).1;
            && (verdict == LoggedIn <==> u.status == Active && Unlocked(u, now) && u.hash.Some? && verify == Match)
            && (verdict == NotActive <==> u.status != Active)
            && (verdict == Locked <==> u.status == Active && !Unlocked(u, now))
            && (verdict == NoPassword <==> u.status == Active && Unlocked(u, now) && u.hash == None)
            && (verdict == VerifyError <==> u.status == Active && Unlocked(u, now) && u.hash.Some? && verify == Malformed)
            && (verdict == WrongPassword <==> u.status == Active && Unlocked(u, now) && u.hash.Some? && verify == Mismatch)
  {
  }

  /** The row an attempt leaves: a login clears the counter and the lock, a wrong password counts, and nothing else changes it. */
  lemma RowAfterAttempt(u: User, verify: Verify, now: int)
    ensures var (u', verdict) := CompleteAuth(u, verify, now);
            && (verdict == LoggedIn ==> u' == u.(failedAttempts := 0, lockedUntil := None))
            && (verdict == WrongPassword ==>
                  u' == u.(failedAttempts := u.failedAttempts + 1,
                           lockedUntil := if u.failedAttempts + 1 >= 5 then Some(now + 900) else u.lockedUntil))
            && (verdict != LoggedIn && verdict != WrongPassword ==> u' == u)
  {
  }

  /** The admins that the guard counts are those who can log in, once a lapsed ban is lifted, with a password and without a lock. */
  lemma UsableCanLogIn(u: User, id: UserId, now: int)
    requires u.role == "admin" && u.hash.Some? && u.lockedUntil == None
    ensures Usable(u, now) <==> CompleteAuth(Lift(map[id := u], id, now)[id], Match, now).1 == LoggedIn
  {
  }

  /** A refused attempt changes nothing, so it cannot extend the lock. */
  lemma RefusalIsFree(u: User, verify: Verify, now: int)
    requires CompleteAuth(u, verify, now).1 != WrongPassword && CompleteAuth(u, verify, now).1 != LoggedIn
    ensures CompleteAuth(u, verify, now).0 == u
  {
  }

  /** Times that a counter at `failed`, locked until `lock`, allows from `from` on. */
  predicate Spaced(failed: int, lock: Option<int>, c: seq<int>, from: int) {
    && (c != [] ==> from <= c[0] && (lock.Some? ==> lock.value <= c[0]))
    && (forall i :: 0 <= i < |c| - 1 ==> c[i] <= c[i + 1])
    && (forall i :: 0 <= i < |c| - 1 && failed + i + 1 >= LOCKOUT_THRESHOLD ==> c[i] + LOCKOUT_SECONDS <= c[i + 1])
  }

  lemma OneEarlier(failed: int, lock: Option<int>, now: int, c: seq<int>, from: int)
    requires from <= now && (lock.Some? ==> lock.value <= now)
    requires Spaced(failed + 1, if failed + 1 >= LOCKOUT_THRESHOLD then Some(now + LOCKOUT_SECONDS) else lock, c, now)
    ensures Spaced(failed, lock, [now] + c, from)
  {
    var d := [now] + c;
    forall i | 0 <= i < |d| - 1
      ensures d[i] <= d[i + 1]
      ensures failed + i + 1 >= LOCKOUT_THRESHOLD ==> d[i] + LOCKOUT_SECONDS <= d[i + 1]
    {
      if i > 0 { assert d[i] == c[i - 1] && d[i + 1] == c[i]; }
    }
  }

  /** No attempt is earlier than `from`. */
  predicate NotBefore(es: seq<Event>, from: int) {
    forall i :: 0 <= i < |es| && es[i].Try? ==> from <= es[i].now
  }

  lemma InOrderRest(es: seq<Event>, from: int)
    requires es != [] && InOrder(es) && NotBefore(es, from)
    ensures InOrder(es[1..]) && NotBefore(es[1..], from) && (es[0].Try? ==> from <= es[0].now && NotBefore(es[1..], es[0].now))
  {
    assert forall i :: 0 <= i < |es| - 1 ==> es[1..][i] == es[i + 1];
  }

  lemma WrongFirst(u: User, es: seq<Event>)
    requires es != [] && Wrong(u, es[0])
    ensures WrongTimes(u, es) == [es[0].now] + WrongTimes(After(u, es[0]), es[1..])
    ensures NoSuccess(u, es) <==> NoSuccess(After(u, es[0]), es[1..])
  {
    hide After;
  }

  lemma OtherFirst(u: User, es: seq<Event>)
    requires es != [] && !Wrong(u, es[0]) && NoSuccess(u, es)
    ensures WrongTimes(u, es) == WrongTimes(After(u, es[0]), es[1..]) && NoSuccess(After(u, es[0]), es[1..])
    ensures After(u, es[0]).failedAttempts == u.failedAttempts && After(u, es[0]).lockedUntil == u.lockedUntil
  {
  }

  lemma AfterWrong(u: User, e: Event)
    requires Wrong(u, e)
    ensures var u1 := After(u, e);
            && e.Try? && (u.lockedUntil.Some? ==> u.lockedUntil.value <= e.now)
            && u1.failedAttempts == u.failedAttempts + 1
            && u1.lockedUntil == if u1.failedAttempts >= LOCKOUT_THRESHOLD then Some(e.now + LOCKOUT_SECONDS) else u.lockedUntil
  {
  }

  /** The fifth wrong password in a row, and each one after it, locks the account for 900 seconds. */
  lemma {:induction false} Spacing(u: User, es: seq<Event>, from: int)
    requires InOrder(es) && NoSuccess(u, es) && NotBefore(es, from)
    ensures Spaced(u.failedAttempts, u.lockedUntil, WrongTimes(u, es), from)
    decreases es
  {
    hide Spaced, InOrder, NotBefore, NoSuccess, After, Wrong;
    if es == [] {
      NoTimes(u, from);
    } else {
      hide WrongTimes;
      var u1 := After(u, es[0]);
      InOrderRest(es, from);
      if Wrong(u, es[0]) {
        AfterWrong(u, es[0]);
        WrongFirst(u, es);
        Spacing(u1, es[1..], es[0].now);
        OneEarlier(u.failedAttempts, u.lockedUntil, es[0].now, WrongTimes(u1, es[1..]), from);
      } else {
        OtherFirst(u, es);
        Spacing(u1, es[1..], from);
      }
    }
  }

  lemma NoTimes(u: User, from: int)
    ensures Spaced(u.failedAttempts, u.lockedUntil, [], from)
  {
  }

  lemma {:induction false} FarApart(c: seq<int>, n: nat)
    requires n < |c| && n >= 4
    requires forall i :: 0 <= i < |c| - 1 ==> c[i] <= c[i + 1]
    requires forall i :: 4 <= i < |c| - 1 ==> c[i] + LOCKOUT_SECONDS <= c[i + 1]
    ensures c[n] >= c[0] + (n - 4) * LOCKOUT_SECONDS
    decreases n
  {
    if n == 4 {
      assert c[0] <= c[1] <= c[2] <= c[3] <= c[4];
    } else {
      FarApart(c, n - 1);
    }
  }

  /** From a cleared counter, k wrong passwords take at least 900 (k - 5) seconds. */
  lemma LockoutBound(u: User, es: seq<Event>)
    requires u.failedAttempts == 0 && u.lockedUntil == None && InOrder(es) && NoSuccess(u, es)
    ensures var c := WrongTimes(u, es);
            c != [] ==> c[0] <= c[|c| - 1] && |c| <= LOCKOUT_THRESHOLD + (c[|c| - 1] - c[0]) / LOCKOUT_SECONDS
  {
    var c := WrongTimes(u, es);
    if c != [] {
      var from := Earliest(es);
      Spacing(u, es, from);
      if |c| > 5 {
        FarApart(c, |c| - 1);
        var d := c[|c| - 1] - c[0];
        assert d >= (|c| - 5) * LOCKOUT_SECONDS;
        assert d / LOCKOUT_SECONDS >= |c| - 5;
      } else {
        Ascending(c, |c| - 1);
      }
    }
  }

  lemma {:induction false} Ascending(c: seq<int>, n: nat)
    requires n < |c| && forall i :: 0 <= i < |c| - 1 ==> c[i] <= c[i + 1]
    ensures c[0] <= c[n]
    decreases n
  {
    if n > 0 { Ascending(c, n - 1); }
  }

  /** A time no later than any attempt. */
  function Earliest(es: seq<Event>): (t: int)
    ensures forall i :: 0 <= i < |es| && es[i].Try? ==> t <= es[i].now
  {
    if es == [] then 0 else
      var t := Earliest(es[1..]);
      assert forall i :: 1 <= i < |es| ==> es[i] == es[1..][i - 1];
      if es[0].Try? && es[0].now < t then es[0].now else t
  }

  /** The bound is met: five at once, and one more in every 900 seconds, all really checked. */
  lemma BoundIsMet(u: User, start: int, k: nat)
    requires u.failedAttempts == 0 && u.lockedUntil == None && u.status == Active && u.hash.Some?
    ensures var es := Attack(start, k);
            InOrder(es) && NoSuccess(u, es) && |WrongTimes(u, es)| == LOCKOUT_THRESHOLD + k
            && WrongTimes(u, es)[LOCKOUT_THRESHOLD + k - 1] == start + k * LOCKOUT_SECONDS
  {
    AttackWorks(u, start, LOCKOUT_THRESHOLD + k, 0);
    assert Attack(start, k)[0..] == Attack(start, k);
  }

  function Attack(start: int, k: nat): seq<Event> {
    seq(LOCKOUT_THRESHOLD + k, i => Try(start + (if i < LOCKOUT_THRESHOLD then 0 else (i - 4) * LOCKOUT_SECONDS), Mismatch))
  }

  /** The next wrong password comes when the lock of the last has just run out. */
  lemma AttackStep(u: User, start: int, n: nat, i: nat)
    requires n >= LOCKOUT_THRESHOLD && i < n && u.failedAttempts == i && u.status == Active && u.hash.Some?
    requires if i < LOCKOUT_THRESHOLD then u.lockedUntil == None else u.lockedUntil == Some(start + (i - 4) * LOCKOUT_SECONDS)
    ensures var e := Attack(start, n - LOCKOUT_THRESHOLD)[i];
            var u1 := After(u, e);
            && e.Try? && Wrong(u, e) && u1.failedAttempts == i + 1 && u1.status == Active && u1.hash.Some?
            && if i + 1 < LOCKOUT_THRESHOLD then u1.lockedUntil == None else u1.lockedUntil == Some(start + (i - 3) * LOCKOUT_SECONDS)
  {
  }

  lemma {:induction false} AttackWorks(u: User, start: int, n: nat, i: nat)
    requires n >= LOCKOUT_THRESHOLD && i <= n && u.failedAttempts == i && u.status == Active && u.hash.Some?
    requires if i < LOCKOUT_THRESHOLD then u.lockedUntil == None else u.lockedUntil == Some(start + (i - 4) * LOCKOUT_SECONDS)
    ensures var es := Attack(start, n - LOCKOUT_THRESHOLD);
            NoSuccess(u, es[i..]) && |WrongTimes(u, es[i..])| == n - i
            && (i < n ==> WrongTimes(u, es[i..])[n - i - 1] == es[n - 1].now)
    decreases n - i
  {
    var es := Attack(start, n - LOCKOUT_THRESHOLD);
    if i < n {
      hide Attack, After, Wrong;
      assert es[i..][0] == es[i] && es[i..][1..] == es[i + 1..];
      AttackStep(u, start, n, i);
      WrongFirst(u, es[i..]);
      hide WrongTimes, NoSuccess;
      AttackWorks(After(u, es[i]), start, n, i + 1);
    }
  }
}
