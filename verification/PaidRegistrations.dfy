/**
  What a paid registration is sure of. ActivateAccount goes by name, and finalise is
  three statements, so others can take the waiting row away between them: this says
  exactly which, and that nothing else stands between the payment and the account.
 */
module PaidRegistrations {
  import opened Wrappers
  import opened Accounts
  import opened Invites

  predicate Stands(users: Users, id: UserId, name: Name, status: Status) {
    id in users && users[id].username == name && users[id].status == status
  }

  predicate Waits(d: Desk, id: UserId, name: Name) {
    Stands(d.table.users, id, name, Waiting)
  }

  /** What takes a waiting row from under its name, read off the state before. */
  predicate Clears(d: Desk, act: Act, id: UserId, name: Name) {
    id in d.table.users &&
    match act
    case Create(a, row, _, maxAge) =>
      In(d, a, Filling) && row !in d.table.users && d.attempts[a].name == name && maxAge > 0 && Expired(d.table.users[id], maxAge, d.table.now)
    case RollBack(a) => In(d, a, Refused) && d.attempts[a].name == name
    case ActivateIt(a) => In(d, a, Paid) && d.attempts[a].name == name
    case Elsewhere(BanStep(n, _)) => n == name
    case Elsewhere(DeleteStep(n)) => n == name
    case Elsewhere(ApproveStep(n)) => n == name
    case Elsewhere(RejectStep(n)) => n == name
    case Elsewhere(DropExpiredStep(n, maxAge)) => n == name && maxAge > 0 && Expired(d.table.users[id], maxAge, d.table.now)
    case Elsewhere(PurgeStep(maxAge)) => maxAge > 0 && Expired(d.table.users[id], maxAge, d.table.now)
    case _ => false
  }

  /** A waiting row goes on waiting exactly when the act is none of these. */
  lemma ClearsExactly(d: Desk, act: Act, id: UserId, name: Name)
    requires Waits(d, id, name)
    ensures Waits(Do(d, act), id, name) <==> !Clears(d, act, id, name)
  {
    match act
    case Elsewhere(step) => StepClearsExactly(d, step, id, name);
    case Create(a, row, hash, maxAge) => CreateClearsExactly(d, a, row, hash, maxAge, id, name);
    case _ =>
  }

  lemma StepClearsExactly(d: Desk, step: Step, id: UserId, name: Name)
    requires Waits(d, id, name)
    ensures Waits(Do(d, Elsewhere(step)), id, name) <==> !Clears(d, Elsewhere(step), id, name)
  {
    hide UsableAdmins;
  }

  lemma CreateClearsExactly(d: Desk, a: AttemptId, row: UserId, hash: string, maxAge: int, id: UserId, name: Name)
    requires Waits(d, id, name)
    ensures Waits(Do(d, Create(a, row, hash, maxAge)), id, name) <==> !Clears(d, Create(a, row, hash, maxAge), id, name)
  {
    if In(d, a, Filling) && row !in d.table.users {
      assert id in d.table.users && id != row;
    }
  }

  /** An act that may make a row under the name. */
  predicate Inserts(d: Desk, act: Act, name: Name) {
    match act
    case Create(a, _, _, _) => In(d, a, Filling) && d.attempts[a].name == name
    case Elsewhere(CreateStep(_, n, _, _)) => n == name
    case Elsewhere(RegisterStep(_, n, _)) => n == name
    case _ => false
  }

  predicate ClearedIn(d: Desk, acts: seq<Act>, id: UserId, name: Name)
    decreases acts
  {
    acts != [] && (Clears(d, acts[0], id, name) || ClearedIn(Do(d, acts[0]), acts[1..], id, name))
  }

  predicate InsertedIn(d: Desk, acts: seq<Act>, name: Name)
    decreases acts
  {
    acts != [] && (Inserts(d, acts[0], name) || InsertedIn(Do(d, acts[0]), acts[1..], name))
  }

  lemma {:induction false} WaitsThrough(d: Desk, acts: seq<Act>, id: UserId, name: Name)
    requires Waits(d, id, name) && !ClearedIn(d, acts, id, name)
    ensures Waits(DoAll(d, acts), id, name)
    decreases acts
  {
    if acts != [] {
      ClearsExactly(d, acts[0], id, name);
      WaitsThrough(Do(d, acts[0]), acts[1..], id, name);
    }
  }

  /** A row comes to wait under the name only where one is made. */
  lemma MakesNone(d: Desk, act: Act, id: UserId, name: Name)
    requires !Waits(d, id, name) && !Inserts(d, act, name)
    ensures !Waits(Do(d, act), id, name)
  {
    match act
    case Elsewhere(step) => StepMakesNone(d.table, step, id, name);
    case Create(a, row, hash, maxAge) => CreateMakesNone(d, a, row, hash, maxAge, id, name);
    case _ =>
  }

  lemma NoneStays(d: Desk, act: Act, name: Name)
    requires WaitingUnder(d.table.users, name) == {} && !Inserts(d, act, name)
    ensures WaitingUnder(Do(d, act).table.users, name) == {}
  {
    hide Do, Inserts;
    forall id ensures id !in WaitingUnder(Do(d, act).table.users, name) {
      assert id !in WaitingUnder(d.table.users, name);
      MakesNone(d, act, id, name);
    }
  }

  lemma StepMakesNone(t: Table, step: Step, id: UserId, name: Name)
    requires !Stands(t.users, id, name, Waiting)
    requires !(step.CreateStep? && step.name == name) && !(step.RegisterStep? && step.name == name)
    ensures !Stands(Apply(t, step).users, id, name, Waiting)
  {
    hide UsableAdmins;
  }

  lemma CreateMakesNone(d: Desk, a: AttemptId, row: UserId, hash: string, maxAge: int, id: UserId, name: Name)
    requires !Waits(d, id, name) && !Inserts(d, Create(a, row, hash, maxAge), name)
    ensures !Waits(Do(d, Create(a, row, hash, maxAge)), id, name)
  {
  }

  lemma {:induction false} NoneThrough(d: Desk, acts: seq<Act>, name: Name)
    requires WaitingUnder(d.table.users, name) == {} && !InsertedIn(d, acts, name)
    ensures WaitingUnder(DoAll(d, acts).table.users, name) == {}
    decreases acts
  {
    hide WaitingUnder;
    if acts != [] {
      NoneStays(d, acts[0], name);
      NoneThrough(Do(d, acts[0]), acts[1..], name);
    }
  }

  lemma OnlyRow(d: Desk, act: Act, id: UserId, name: Name)
    requires UniqueNames(d.table.users) && Waits(d, id, name) && Clears(d, act, id, name) && !Inserts(d, act, name)
    ensures WaitingUnder(Do(d, act).table.users, name) == {}
  {
    ClearsExactly(d, act, id, name);
    forall j ensures !Waits(Do(d, act), j, name) {
      assert j != id ==> !Waits(d, j, name);
      if j != id { MakesNone(d, act, j, name); }
    }
  }

  lemma {:induction false} ClearedThrough(d: Desk, acts: seq<Act>, id: UserId, name: Name)
    requires UniqueNames(d.table.users) && Waits(d, id, name) && ClearedIn(d, acts, id, name) && !InsertedIn(d, acts, name)
    ensures WaitingUnder(DoAll(d, acts).table.users, name) == {}
    decreases acts
  {
    if Clears(d, acts[0], id, name) {
      OnlyRow(d, acts[0], id, name);
      NoneThrough(Do(d, acts[0]), acts[1..], name);
    } else {
      ClearsExactly(d, acts[0], id, name);
      DoUnique(d, acts[0]);
      ClearedThrough(Do(d, acts[0]), acts[1..], id, name);
    }
  }

  lemma DoUnique(d: Desk, act: Act)
    requires UniqueNames(d.table.users)
    ensures UniqueNames(Do(d, act).table.users)
  {
    match act
    case Create(a, id, hash, maxAge) => CreateUnique(d, a, id, hash, maxAge);
    case Elsewhere(step) => StepUnique(d.table, step);
    case _ =>
  }

  lemma AttemptStays(d: Desk, act: Act, a: AttemptId)
    requires a in d.attempts
    ensures var d' := Do(d, act); a in d'.attempts && d'.attempts[a] == d.attempts[a].(phase := d'.attempts[a].phase)
  {
    hide Apply, DropExpired, Taken, Insert, RejectWaiting, Activate, Consumed, ValidInvite, WaitingUnder;
    match act
    case Elsewhere(step) =>
    case Create(b, id, hash, maxAge) =>
    case _ =>
  }

  lemma {:induction false} AttemptThrough(d: Desk, acts: seq<Act>, a: AttemptId)
    requires a in d.attempts
    ensures var d' := DoAll(d, acts); a in d'.attempts && d'.attempts[a].name == d.attempts[a].name && d'.attempts[a].code == d.attempts[a].code
    decreases acts
  {
    if acts != [] {
      AttemptStays(d, acts[0], a);
      AttemptThrough(Do(d, acts[0]), acts[1..], a);
    }
  }

  /**
    At the moment of ActivateAccount: the name has an active account afterwards exactly
    when its row was active or waiting, and one is activated exactly when it was waiting.
   */
  lemma PaidAtActivation(d: Desk, a: AttemptId)
    requires In(d, a, Paid) && UniqueNames(d.table.users)
    ensures var d', name, code := Do(d, ActivateIt(a)), d.attempts[a].name, d.attempts[a].code;
            && ((exists id :: Stands(d'.table.users, id, name, Active))
                <==> exists id :: Stands(d.table.users, id, name, Active) || Stands(d.table.users, id, name, Waiting))
            && CountOf(d'.activated, code) == CountOf(d.activated, code) + if exists id :: Waits(d, id, name) then 1 else 0
  {
    var d', name := Do(d, ActivateIt(a)), d.attempts[a].name;
    OneWaiting(d.table.users, name);
    if id :| Waits(d, id, name) {
      assert id in WaitingUnder(d.table.users, name);
    } else {
      assert forall id :: id in WaitingUnder(d.table.users, name) ==> Waits(d, id, name);
    }
    ActivateStands(d.table.users, name);
  }

  lemma ActivateStands(users: Users, name: Name)
    ensures forall id :: Stands(Activate(users, name), id, name, Active) <==> Stands(users, id, name, Active) || Stands(users, id, name, Waiting)
  {
  }

  /**
    From the row made to the account active, whatever comes between: a registration that
    pays activates its own row exactly when nothing took the row away. If something did
    and no one made another row under the name, nothing is activated and the use is gone.
   */
  lemma PaidEndsActive(d: Desk, acts: seq<Act>, a: AttemptId, id: UserId)
    requires UniqueNames(d.table.users) && a in d.attempts && Waits(d, id, d.attempts[a].name) && In(DoAll(d, acts), a, Paid)
    ensures var name, code, d1 := d.attempts[a].name, d.attempts[a].code, DoAll(d, acts);
            var d2 := Do(d1, ActivateIt(a));
            && (!ClearedIn(d, acts, id, name) ==>
                  && id in d1.table.users && id in d2.table.users
                  && d2.table.users[id] == d1.table.users[id].(status := Active) && d2.table.users[id].username == name
                  && CountOf(d2.activated, code) == CountOf(d1.activated, code) + 1)
            && (ClearedIn(d, acts, id, name) && !InsertedIn(d, acts, name) ==>
                  d2.table == d1.table && CountOf(d2.activated, code) == CountOf(d1.activated, code))
  {
    var name, d1 := d.attempts[a].name, DoAll(d, acts);
    AttemptThrough(d, acts, a);
    UniqueThrough(d, acts);
    if !ClearedIn(d, acts, id, name) {
      WaitsThrough(d, acts, id, name);
      PaidAtActivation(d1, a);
    } else if !InsertedIn(d, acts, name) {
      ClearedThrough(d, acts, id, name);
      NothingToActivate(d1.table.users, name);
    }
  }

  lemma NothingToActivate(users: Users, name: Name)
    requires WaitingUnder(users, name) == {}
    ensures Activate(users, name) == users
  {
    forall id | id in users ensures !(users[id].username == name && users[id].status == Waiting) {
      assert id !in WaitingUnder(users, name);
    }
  }

  lemma {:induction false} UniqueThrough(d: Desk, acts: seq<Act>)
    requires UniqueNames(d.table.users)
    ensures UniqueNames(DoAll(d, acts).table.users)
    decreases acts
  {
    if acts != [] {
      DoUnique(d, acts[0]);
      UniqueThrough(Do(d, acts[0]), acts[1..]);
    }
  }

  // ---- A use spent on nothing -----------------------------------------------------------------------

  /** A roll-back goes by name too: it removes the row of another registration, whose use is then spent on nothing. */
  lemma RollBackTakesAnothers(d: Desk, a: AttemptId, b: AttemptId, id: UserId, part: Fraction)
    requires UniqueNames(d.table.users)
    requires In(d, a, Refused) && In(d, b, Created) && d.attempts[a].name == d.attempts[b].name && Waits(d, id, d.attempts[b].name)
    requires ValidInvite(d.invites, d.attempts[b].code, Clock(d.table, part))
    ensures var name, code := d.attempts[b].name, d.attempts[b].code;
            var d' := Do(Do(Do(d, RollBack(a)), Consume(b, part)), ActivateIt(b));
            && In(d', b, Finished) && code in d'.invites && d'.invites[code].uses == d.invites[code].uses - 1
            && CountOf(d'.activated, code) == CountOf(d.activated, code) && !Taken(d'.table.users, name)
  {
    var d1 := Do(d, RollBack(a));
    var name := d.attempts[b].name;
    assert !Taken(d1.table.users, name) && In(d1, b, Created) && d1.invites == d.invites && d1.activated == d.activated;
    VainUse(d1, b, part);
  }

  lemma VainUse(d: Desk, b: AttemptId, part: Fraction)
    requires In(d, b, Created) && !Taken(d.table.users, d.attempts[b].name)
    requires ValidInvite(d.invites, d.attempts[b].code, Clock(d.table, part))
    ensures var name, code := d.attempts[b].name, d.attempts[b].code;
            var d' := Do(Do(d, Consume(b, part)), ActivateIt(b));
            && In(d', b, Finished) && code in d'.invites && d'.invites[code].uses == d.invites[code].uses - 1
            && CountOf(d'.activated, code) == CountOf(d.activated, code) && !Taken(d'.table.users, name)
  {
    hide UniqueNames;
    var d1 := Do(d, Consume(b, part));
    ConsumeFields(d, b, part);
    assert WaitingUnder(d1.table.users, d.attempts[b].name) == {};
    NothingToActivate(d1.table.users, d.attempts[b].name);
  }

  const EMPTY_DESK := Desk(Table(map[], 0), map[], map[], map[], map[])

  /** Two registrations of one name, the first with a code that lapses before it pays, and an admin who denies its row. */
  const MORNING := [Issue("A", 1, Some(10)), Issue("B", 1, Some(NEVER_EXPIRES)), Enter(1, "carol", "A", 0), Enter(2, "carol", "B", 0)]
  const NOON := [Elsewhere(WaitStep(11)), Create(1, 1, "hash", 0), Consume(1, 0), Elsewhere(RejectStep("carol"))]
  const EVENING := [Create(2, 2, "hash", 0), RollBack(1), Consume(2, 0), ActivateIt(2)]

  lemma DoFour(d: Desk, a: Act, b: Act, c: Act, e: Act)
    ensures DoAll(d, [a, b, c, e]) == Do(Do(Do(Do(d, a), b), c), e)
  {
    hide Do;
    assert [a, b, c, e][1..] == [b, c, e] && [b, c, e][1..] == [c, e] && [c, e][1..] == [e] && [e][1..] == [];
    assert DoAll(d, [a, b, c, e]) == DoAll(Do(d, a), [b, c, e]) == DoAll(Do(Do(d, a), b), [c, e]);
    assert DoAll(Do(Do(d, a), b), [c, e]) == DoAll(Do(Do(Do(d, a), b), c), [e]) == DoAll(Do(Do(Do(Do(d, a), b), c), e), []);
  }

  /** The desk with both forms open on that name, and its first attempt in this phase. */
  function Midday(now: int, phase: Phase): Desk {
    Desk(Table(map[], now), map["A" := Invite(1, Some(10)), "B" := Invite(1, Some(NEVER_EXPIRES))],
         map[1 := Attempt("carol", "A", phase), 2 := Attempt("carol", "B", Filling)], map["A" := 1, "B" := 1], map[])
  }

  lemma MorningRuns()
    ensures DoAll(EMPTY_DESK, MORNING) == Midday(0, Filling)
  {
    DoFour(EMPTY_DESK, MORNING[0], MORNING[1], MORNING[2], MORNING[3]);
    var d2 := Do(Do(EMPTY_DESK, MORNING[0]), MORNING[1]);
    assert d2.invites == map["A" := Invite(1, Some(10)), "B" := Invite(1, Some(NEVER_EXPIRES))];
    assert d2.issued == map["A" := 1, "B" := 1];
  }

  lemma NoonRuns()
    ensures DoAll(Midday(0, Filling), NOON) == Midday(11, Refused)
  {
    hide Do, Midday;
    DoFour(Midday(0, Filling), NOON[0], NOON[1], NOON[2], NOON[3]);
    FirstCreates();
    FirstRefused();
  }

  /** The desk at noon, with the first row waiting. */
  function AtNoon(phase: Phase): Desk {
    Midday(11, phase).(table := Table(map[1 := NewUser("carol", "user", "hash", Waiting, 11)], 11))
  }

  lemma FirstCreates()
    ensures Do(Do(Midday(0, Filling), NOON[0]), NOON[1]) == AtNoon(Created)
  {
    assert Do(Midday(0, Filling), NOON[0]) == Midday(11, Filling);
    assert Do(Midday(11, Filling), NOON[1]).attempts == Midday(11, Created).attempts;
  }

  lemma FirstRefused()
    ensures Do(Do(AtNoon(Created), NOON[2]), NOON[3]) == Midday(11, Refused)
  {
    assert Do(AtNoon(Created), NOON[2]).attempts == Midday(11, Refused).attempts;
    assert Do(AtNoon(Created), NOON[2]) == AtNoon(Refused);
    assert RejectWaiting(AtNoon(Refused).table.users, "carol") == map[];
  }

  /** A run in which a registration pays, and nobody of that name is in the table at its end. */
  lemma SpentOnNothing()
    ensures var d := DoAll(DoAll(DoAll(EMPTY_DESK, MORNING), NOON), EVENING);
            && In(d, 2, Finished) && d.attempts[2] == Attempt("carol", "B", Finished)
            && "B" in d.invites && d.invites["B"].uses == 0 && CountOf(d.activated, "B") == 0 && !Taken(d.table.users, "carol")
  {
    hide Do, DoAll;
    MorningRuns();
    NoonRuns();
    var d8 := Midday(11, Refused);
    DoFour(d8, EVENING[0], EVENING[1], EVENING[2], EVENING[3]);
    SecondCreates();
    RollBackTakesAnothers(Do(d8, EVENING[0]), 1, 2, 2, 0);
    AttemptThrough(d8, EVENING, 2);
  }

  lemma SecondCreates()
    ensures var d := Do(Midday(11, Refused), EVENING[0]);
            && In(d, 2, Created) && d.attempts[2] == Attempt("carol", "B", Created)
            && In(d, 1, Refused) && d.attempts[1].name == "carol" && Waits(d, 2, "carol") && UniqueNames(d.table.users)
            && d.invites == Midday(11, Refused).invites && d.activated == map[] && ValidInvite(d.invites, "B", Clock(d.table, 0))
  {
  }
}
