/**
  internal/registration/app.go over internal/store/store.go: any number of invited
  registrations, interleaved with each other and with everything an admin can do,
  one statement or transaction at a time.
 */
module Invites {
  import opened Wrappers
  import opened Accounts

  type Code = string
  type AttemptId = nat

  /** `expiry` is None when the stored text parses as no time. */
  datatype Invite = Invite(uses: int, expiry: Option<int>)

  type Invitations = map<Code, Invite>

  /** inviteExpired: unreadable is expired, the year 2090 and later never is. The clock is read in nanoseconds. */
  predicate ExpiredInvite(inv: Invite, nanos: int) {
    match inv.expiry
    case None => true
    case Some(t) => t < YEAR_2090 && nanos > t * NANOS
  }

  /** ValidateInvite. */
  predicate ValidInvite(invites: Invitations, code: Code, nanos: int) {
    code in invites && invites[code].uses > 0 && !ExpiredInvite(invites[code], nanos)
  }

  /** ValidateAndConsumeInvite, in its transaction. */
  function Consumed(invites: Invitations, code: Code, nanos: int): Invitations {
    if ValidInvite(invites, code, nanos) then invites[code := invites[code].(uses := invites[code].uses - 1)] else invites
  }

  /** A code is good exactly while it has uses left and its second has not gone by; from the year 2090 on, that is for ever. */
  lemma GoodCodes(invites: Invitations, code: Code, nanos: int, other: Code)
    ensures ValidInvite(invites, code, nanos) <==>
              && code in invites && invites[code].uses > 0 && invites[code].expiry.Some?
              && (invites[code].expiry.value >= 3786912000 || nanos <= invites[code].expiry.value * 1_000_000_000)
    ensures Consumed(invites, code, nanos).Keys == invites.Keys
    ensures other in invites ==>
              Consumed(invites, code, nanos)[other] ==
                if other == code && ValidInvite(invites, code, nanos) then Invite(invites[code].uses - 1, invites[code].expiry) else invites[other]
  {
  }

  /** The part of the current second that has gone by. */
  type Fraction = n: nat | n < NANOS

  function Clock(t: Table, part: Fraction): int {
    t.now * NANOS + part
  }

  // ---- Registrations -----------------------------------------------------------------------

  /** Where one registration stands: filling the form in, or after each statement of finalise. */
  datatype Phase = Filling | Abandoned | NameTaken | Created | Paid | Refused | RolledBack | Finished

  datatype Attempt = Attempt(name: Name, code: Code, phase: Phase)

  /** `issued` and `activated` are history: the uses each code began with, and the accounts it activated. */
  datatype Desk = Desk(
    table: Table,
    invites: Invitations,
    attempts: map<AttemptId, Attempt>,
    issued: map<Code, int>,
    activated: map<Code, nat>)

  datatype Act =
    | Issue(code: Code, uses: int, expiry: Option<int>)
    | Enter(a: AttemptId, name: Name, code: Code, part: Fraction)
    | Leave(a: AttemptId)
    | Create(a: AttemptId, id: UserId, hash: string, maxAge: int)
    | Consume(a: AttemptId, part: Fraction)
    | RollBack(a: AttemptId)
    | ActivateIt(a: AttemptId)
    | Elsewhere(step: Step)

  predicate In(d: Desk, a: AttemptId, phase: Phase) {
    a in d.attempts && d.attempts[a].phase == phase
  }

  function Move(d: Desk, a: AttemptId, phase: Phase): Desk
    requires a in d.attempts
  {
    d.(attempts := d.attempts[a := d.attempts[a].(phase := phase)])
  }

  /** The accounts that ActivateAccount changes. */
  function WaitingUnder(users: Users, name: Name): set<UserId> {
    set id | id in users && users[id].username == name && users[id].status == Waiting
  }

  function CountOf(counts: map<Code, nat>, code: Code): nat {
    if code in counts then counts[code] else 0
  }

  function Do(d: Desk, act: Act): Desk {
    match act
    case Issue(code, uses, expiry) =>
      if code in d.invites then d else d.(invites := d.invites[code := Invite(uses, expiry)], issued := d.issued[code := uses])
    case Enter(a, name, code, part) =>
      if a in d.attempts || !ValidInvite(d.invites, code, Clock(d.table, part)) then d
      else d.(attempts := d.attempts[a := Attempt(name, code, Filling)])
    case Leave(a) => if !In(d, a, Filling) then d else Move(d, a, Abandoned)
    case Create(a, id, hash, maxAge) =>
      if !In(d, a, Filling) || id in d.table.users then d else
        var name := d.attempts[a].name;
        var dropped := DropExpired(d.table.users, name, maxAge, d.table.now);
        if Taken(dropped, name) then Move(d.(table := d.table.(users := dropped)), a, NameTaken)
        else Move(d.(table := d.table.(users := Insert(dropped, id, NewUser(name, "user", hash, Waiting, d.table.now)))), a, Created)
    case Consume(a, part) =>
      if !In(d, a, Created) then d else
        var code := d.attempts[a].code;
        Move(d.(invites := Consumed(d.invites, code, Clock(d.table, part))), a,
             if ValidInvite(d.invites, code, Clock(d.table, part)) then Paid else Refused)
    case RollBack(a) =>
      if !In(d, a, Refused) then d
      else Move(d.(table := d.table.(users := RejectWaiting(d.table.users, d.attempts[a].name))), a, RolledBack)
    case ActivateIt(a) =>
      if !In(d, a, Paid) then d else
        var name, code := d.attempts[a].name, d.attempts[a].code;
        var n := |WaitingUnder(d.table.users, name)|;
        Move(d.(table := d.table.(users := Activate(d.table.users, name)),
                activated := d.activated[code := CountOf(d.activated, code) + n]), a, Finished)
    case Elsewhere(step) => d.(table := Apply(d.table, step))
  }

  function DoAll(d: Desk, acts: seq<Act>): Desk
    decreases acts
  {
    if acts == [] then d else DoAll(Do(d, acts[0]), acts[1..])
  }

  /** A registration gets past the invite question exactly with a good code, which keeps all its uses for now. */
  lemma EntersWithGoodCode(d: Desk, a: AttemptId, name: Name, code: Code, part: Fraction)
    requires a !in d.attempts
    ensures var d' := Do(d, Enter(a, name, code, part));
            && (a in d'.attempts <==> ValidInvite(d.invites, code, Clock(d.table, part)))
            && (a in d'.attempts ==> d'.attempts[a] == Attempt(name, code, Filling))
            && d'.invites == d.invites && d'.table == d.table
  {
  }

  /** The registrations that took a use of this code. */
  function Payers(d: Desk, code: Code): set<AttemptId> {
    set a | a in d.attempts && d.attempts[a].code == code && d.attempts[a].phase in {Paid, Finished}
  }

  function Finishers(d: Desk, code: Code): set<AttemptId> {
    set a | a in d.attempts && d.attempts[a].code == code && d.attempts[a].phase == Finished
  }

  // ---- What is conserved -----------------------------------------------------------------------

  ghost predicate Conserved(d: Desk) {
    && UniqueNames(d.table.users)
    && d.issued.Keys == d.invites.Keys
    && (forall a :: a in d.attempts ==> d.attempts[a].code in d.invites)
    && (forall code :: code in d.invites ==>
          && d.invites[code].uses + |Payers(d, code)| == d.issued[code]
          && (d.invites[code].uses >= 0 || d.invites[code].uses == d.issued[code]))
    && (forall code :: CountOf(d.activated, code) <= |Finishers(d, code)|)
  }

  lemma SamePayers(d: Desk, d': Desk)
    requires forall a :: a in d'.attempts && d'.attempts[a].phase in {Paid, Finished} ==> a in d.attempts && d.attempts[a] == d'.attempts[a]
    requires forall a :: a in d.attempts && d.attempts[a].phase in {Paid, Finished} ==> a in d'.attempts && d.attempts[a] == d'.attempts[a]
    ensures forall code :: Payers(d', code) == Payers(d, code) && Finishers(d', code) == Finishers(d, code)
  {
  }

  /** Nobody paid or finished in this step, and no use was taken. */
  lemma Unpaid(d: Desk, d': Desk)
    requires Conserved(d) && UniqueNames(d'.table.users)
    requires d'.invites == d.invites && d'.issued == d.issued && d'.activated == d.activated
    requires forall a :: a in d'.attempts ==> d'.attempts[a].code in d.invites
    requires forall a :: a in d'.attempts && d'.attempts[a].phase in {Paid, Finished} ==> a in d.attempts && d.attempts[a] == d'.attempts[a]
    requires forall a :: a in d.attempts && d.attempts[a].phase in {Paid, Finished} ==> a in d'.attempts && d.attempts[a] == d'.attempts[a]
    ensures Conserved(d')
  {
    SamePayers(d, d');
  }

  lemma OneWaiting(users: Users, name: Name)
    requires UniqueNames(users)
    ensures |WaitingUnder(users, name)| <= 1
  {
    var s := WaitingUnder(users, name);
    if s != {} {
      var id :| id in s;
      assert s == {id};
    }
  }

  lemma IssueConserves(d: Desk, code: Code, uses: int, expiry: Option<int>)
    requires Conserved(d)
    ensures Conserved(Do(d, Issue(code, uses, expiry)))
  {
    var d' := Do(d, Issue(code, uses, expiry));
    if code !in d.invites {
      SamePayers(d, d');
      assert Payers(d, code) == {};
    }
  }

  lemma EnterConserves(d: Desk, a: AttemptId, name: Name, code: Code, part: Fraction)
    requires Conserved(d)
    ensures Conserved(Do(d, Enter(a, name, code, part)))
  {
    hide Payers, Finishers, ExpiredInvite, UniqueNames;
    Unpaid(d, Do(d, Enter(a, name, code, part)));
  }

  /** One registration moved between phases that take no use. */
  lemma MovedUnpaid(d: Desk, d': Desk, a: AttemptId)
    requires Conserved(d) && UniqueNames(d'.table.users) && a in d.attempts && a in d'.attempts
    requires d'.invites == d.invites && d'.issued == d.issued && d'.activated == d.activated
    requires d'.attempts == d.attempts[a := d.attempts[a].(phase := d'.attempts[a].phase)]
    requires d.attempts[a].phase !in {Paid, Finished} && d'.attempts[a].phase !in {Paid, Finished}
    ensures Conserved(d')
  {
    hide Payers, Finishers, UniqueNames;
    Unpaid(d, d');
  }

  lemma ConservedUnique(d: Desk)
    requires Conserved(d)
    ensures UniqueNames(d.table.users)
  {
  }

  lemma LeaveConserves(d: Desk, a: AttemptId)
    requires Conserved(d)
    ensures Conserved(Do(d, Leave(a)))
  {
    hide Conserved, UniqueNames;
    ConservedUnique(d);
    if In(d, a, Filling) { MovedUnpaid(d, Do(d, Leave(a)), a); }
  }

  lemma CreateUnique(d: Desk, a: AttemptId, id: UserId, hash: string, maxAge: int)
    requires UniqueNames(d.table.users)
    ensures UniqueNames(Do(d, Create(a, id, hash, maxAge)).table.users)
  {
    hide UniqueNames, DropExpired, Insert, Taken;
    if In(d, a, Filling) && id !in d.table.users {
      var name := d.attempts[a].name;
      DropUnique(d.table.users, name, maxAge, d.table.now);
      InsertUnique(DropExpired(d.table.users, name, maxAge, d.table.now), id, NewUser(name, "user", hash, Waiting, d.table.now));
    }
  }

  lemma DropUnique(users: Users, name: Name, maxAge: int, now: int)
    requires UniqueNames(users)
    ensures UniqueNames(DropExpired(users, name, maxAge, now))
  {
  }

  lemma InsertUnique(users: Users, id: UserId, u: User)
    requires UniqueNames(users)
    ensures UniqueNames(Insert(users, id, u))
  {
  }

  lemma CreateConserves(d: Desk, a: AttemptId, id: UserId, hash: string, maxAge: int)
    requires Conserved(d)
    ensures Conserved(Do(d, Create(a, id, hash, maxAge)))
  {
    hide Conserved, UniqueNames, DropExpired, Insert, Taken;
    ConservedUnique(d);
    CreateUnique(d, a, id, hash, maxAge);
    if In(d, a, Filling) && id !in d.table.users { MovedUnpaid(d, Do(d, Create(a, id, hash, maxAge)), a); }
  }

  /** One registration moved into Paid or Finished. */
  lemma PayersAfter(d: Desk, d': Desk, a: AttemptId, phase: Phase, code: Code)
    requires a in d.attempts && d'.attempts == d.attempts[a := d.attempts[a].(phase := phase)]
    ensures d.attempts[a].phase == Created && phase == Paid ==>
              Finishers(d', code) == Finishers(d, code)
              && Payers(d', code) == if code == d.attempts[a].code then Payers(d, code) + {a} else Payers(d, code)
    ensures d.attempts[a].phase == Paid && phase == Finished ==>
              Payers(d', code) == Payers(d, code)
              && Finishers(d', code) == if code == d.attempts[a].code then Finishers(d, code) + {a} else Finishers(d, code)
    ensures a in Payers(d, code) ==> d.attempts[a].phase in {Paid, Finished}
    ensures a in Finishers(d, code) ==> d.attempts[a].phase == Finished
  {
  }

  lemma ConsumeFields(d: Desk, a: AttemptId, part: Fraction)
    requires In(d, a, Created)
    ensures var d', code := Do(d, Consume(a, part)), d.attempts[a].code;
            var ok := ValidInvite(d.invites, code, Clock(d.table, part));
            && d'.table == d.table && d'.issued == d.issued && d'.activated == d.activated
            && d'.attempts == d.attempts[a := d.attempts[a].(phase := if ok then Paid else Refused)]
            && (ok ==> d.invites[code].uses > 0)
            && d'.invites == if ok then d.invites[code := d.invites[code].(uses := d.invites[code].uses - 1)] else d.invites
  {
  }

  lemma PaidConserves(d: Desk, d': Desk, a: AttemptId)
    requires Conserved(d) && In(d, a, Created) && d.attempts[a].code in d.invites && d.invites[d.attempts[a].code].uses > 0
    requires d'.table == d.table && d'.issued == d.issued && d'.activated == d.activated
    requires d'.attempts == d.attempts[a := d.attempts[a].(phase := Paid)]
    requires var code := d.attempts[a].code; d'.invites == d.invites[code := d.invites[code].(uses := d.invites[code].uses - 1)]
    ensures Conserved(d')
  {
    hide Payers, Finishers, UniqueNames;
    var code := d.attempts[a].code;
    forall c ensures |Payers(d', c)| == |Payers(d, c)| + (if c == code then 1 else 0) && Finishers(d', c) == Finishers(d, c) {
      PayersAfter(d, d', a, Paid, c);
    }
  }

  lemma ConsumeConserves(d: Desk, a: AttemptId, part: Fraction)
    requires Conserved(d)
    ensures Conserved(Do(d, Consume(a, part)))
  {
    if In(d, a, Created) {
      hide Do, Payers, Finishers, UniqueNames, ExpiredInvite;
      var d' := Do(d, Consume(a, part));
      ConsumeFields(d, a, part);
      if ValidInvite(d.invites, d.attempts[a].code, Clock(d.table, part)) { PaidConserves(d, d', a); } else { Unpaid(d, d'); }
    }
  }

  lemma RollBackConserves(d: Desk, a: AttemptId)
    requires Conserved(d)
    ensures Conserved(Do(d, RollBack(a)))
  {
    hide Conserved, UniqueNames, RejectWaiting;
    ConservedUnique(d);
    if In(d, a, Refused) {
      RejectUnique(d.table.users, d.attempts[a].name);
      MovedUnpaid(d, Do(d, RollBack(a)), a);
    }
  }

  lemma RejectUnique(users: Users, name: Name)
    requires UniqueNames(users)
    ensures UniqueNames(RejectWaiting(users, name))
  {
  }

  lemma ActivateFields(d: Desk, a: AttemptId)
    requires In(d, a, Paid) && UniqueNames(d.table.users)
    ensures var d', code := Do(d, ActivateIt(a)), d.attempts[a].code;
            && UniqueNames(d'.table.users) && d'.issued == d.issued && d'.invites == d.invites
            && d'.attempts == d.attempts[a := d.attempts[a].(phase := Finished)]
            && (forall c :: c != code ==> CountOf(d'.activated, c) == CountOf(d.activated, c))
            && CountOf(d'.activated, code) <= CountOf(d.activated, code) + 1
  {
    OneWaiting(d.table.users, d.attempts[a].name);
  }

  lemma FinishedConserves(d: Desk, d': Desk, a: AttemptId)
    requires Conserved(d) && In(d, a, Paid) && UniqueNames(d'.table.users) && d'.issued == d.issued && d'.invites == d.invites
    requires d'.attempts == d.attempts[a := d.attempts[a].(phase := Finished)]
    requires forall c :: CountOf(d'.activated, c) <= CountOf(d.activated, c) + if c == d.attempts[a].code then 1 else 0
    ensures Conserved(d')
  {
    hide Payers, Finishers, UniqueNames, CountOf;
    var code := d.attempts[a].code;
    forall c ensures Payers(d', c) == Payers(d, c) && |Finishers(d', c)| == |Finishers(d, c)| + if c == code then 1 else 0 {
      PayersAfter(d, d', a, Finished, c);
    }
  }

  lemma ActivateConserves(d: Desk, a: AttemptId)
    requires Conserved(d)
    ensures Conserved(Do(d, ActivateIt(a)))
  {
    if In(d, a, Paid) {
      ActivateFields(d, a);
      hide Do, Conserved, UniqueNames, CountOf;
      FinishedConserves(d, Do(d, ActivateIt(a)), a);
    }
  }

  lemma ElsewhereConserves(d: Desk, step: Step)
    requires Conserved(d)
    ensures Conserved(Do(d, Elsewhere(step)))
  {
    hide Payers, Finishers, Apply, UniqueNames;
    StepUnique(d.table, step);
    Unpaid(d, Do(d, Elsewhere(step)));
  }

  lemma DoConserves(d: Desk, act: Act)
    requires Conserved(d)
    ensures Conserved(Do(d, act))
  {
    hide Conserved, Do;
    match act
    case Issue(code, uses, expiry) => IssueConserves(d, code, uses, expiry);
    case Enter(a, name, code, part) => EnterConserves(d, a, name, code, part);
    case Leave(a) => LeaveConserves(d, a);
    case Create(a, id, hash, maxAge) => CreateConserves(d, a, id, hash, maxAge);
    case Consume(a, part) => ConsumeConserves(d, a, part);
    case RollBack(a) => RollBackConserves(d, a);
    case ActivateIt(a) => ActivateConserves(d, a);
    case Elsewhere(step) => ElsewhereConserves(d, step);
  }

  lemma {:induction false} AllConserve(d: Desk, acts: seq<Act>)
    requires Conserved(d)
    ensures Conserved(DoAll(d, acts))
    decreases acts
  {
    if acts != [] {
      DoConserves(d, acts[0]);
      AllConserve(Do(d, acts[0]), acts[1..]);
    }
  }

  /**
    Over every run from a desk with no registrations: the uses a code began with are
    those left and those taken, never below zero, and no code activates more accounts
    than the uses taken of it.
   */
  lemma InviteConservation(table: Table, acts: seq<Act>, code: Code)
    requires UniqueNames(table.users)
    ensures var d := DoAll(Desk(table, map[], map[], map[], map[]), acts);
            code in d.invites ==>
              && code in d.issued && d.issued[code] == d.invites[code].uses + |Payers(d, code)|
              && (d.issued[code] >= 0 ==> d.invites[code].uses >= 0)
              && CountOf(d.activated, code) <= |Payers(d, code)|
  {
    var d0 := Desk(table, map[], map[], map[], map[]);
    assert Conserved(d0);
    AllConserve(d0, acts);
    var d := DoAll(d0, acts);
    Subset(Finishers(d, code), Payers(d, code));
  }

  lemma Subset(a: set<AttemptId>, b: set<AttemptId>)
    requires a <= b
    ensures |a| <= |b|
  {
    assert b == a + (b - a);
  }

  /** A use is taken only by a registration whose account row was just made, and it takes exactly one. */
  lemma OnlyTheCreatedPay(d: Desk, act: Act, code: Code)
    requires code in d.invites
    ensures var d' := Do(d, act);
            code in d'.invites &&
            (d'.invites[code] == d.invites[code] ||
             (act.Consume? && In(d, act.a, Created) && In(d', act.a, Paid) && d.attempts[act.a].code == code
              && d'.invites[code].uses == d.invites[code].uses - 1 && d.invites[code].uses > 0))
  {
  }

  /** A registration that stopped early, found its name taken, or was refused has taken nothing, then or later. */
  lemma {:induction false} StoppedNeverPays(d: Desk, acts: seq<Act>, a: AttemptId)
    requires a in d.attempts && d.attempts[a].phase in {Abandoned, NameTaken, Refused, RolledBack}
    ensures var d' := DoAll(d, acts);
            a in d'.attempts && d'.attempts[a].phase in {Abandoned, NameTaken, Refused, RolledBack} && forall code :: a !in Payers(d', code)
    decreases acts
  {
    if acts != [] {
      StoppedStays(d, acts[0], a);
      StoppedNeverPays(Do(d, acts[0]), acts[1..], a);
    }
  }

  lemma StoppedStays(d: Desk, act: Act, a: AttemptId)
    requires a in d.attempts && d.attempts[a].phase in {Abandoned, NameTaken, Refused, RolledBack}
    ensures a in Do(d, act).attempts && Do(d, act).attempts[a].phase in {Abandoned, NameTaken, Refused, RolledBack}
  {
    hide Apply, DropExpired, Taken, Insert, RejectWaiting, Activate, Consumed, ValidInvite, WaitingUnder;
  }

  /** A registration whose invite failed leaves no waiting account under its name. */
  lemma RollBackClears(d: Desk, a: AttemptId)
    requires In(d, a, Refused)
    ensures var d' := Do(d, RollBack(a));
            && In(d', a, RolledBack) && WaitingUnder(d'.table.users, d.attempts[a].name) == {}
            && (forall id :: id in d.table.users && (d.table.users[id].username != d.attempts[a].name || d.table.users[id].status != Waiting) ==>
                  id in d'.table.users && d'.table.users[id] == d.table.users[id])
  {
  }
}
