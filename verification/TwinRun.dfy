/**
  A run in which a screen loses a party that is still there. bob dials alice, one of
  her sessions answers, bob adds her other session, and the first one leaves: bob's
  screen takes alice off, finds nobody left, and hangs up on the second.
 */
module TwinRun {
  import opened Wrappers
  import opened Ordering
  import opened Registry
  import opened CallTable
  import opened TableInvariant
  import opened TableMotion
  import opened TableLaws
  import opened Protocol
  import opened WorldInvariant
  import opened Agreement
  import opened Reachability
  import opened Notices
  import opened ScreenLaws
  import opened ScreenNames
  import opened ScreenRuns
  import opened KeyLaws
  import opened ScreenTheorem

  // ---- The registry of the run -----------------------------------------------------------------

  predicate People(r: Presence) {
    && r.accounts.Keys == {"alice", "bob"} && r.accounts["alice"].sessions == {1, 3} && r.accounts["bob"].sessions == {2}
    && r.index.Keys == {1, 2, 3} && r.index[1].username == "alice" && r.index[2].username == "bob" && r.index[3].username == "alice"
    && r.nextId == 3 && r.lost == {}
  }

  predicate Queues(r: Presence, q1: seq<PhoneEvent>, q2: seq<PhoneEvent>, q3: seq<PhoneEvent>) {
    People(r) && r.index[1].notify == q1 && r.index[2].notify == q2 && r.index[3].notify == q3
  }

  function Plus(q: seq<PhoneEvent>, hears: bool, e: PhoneEvent): seq<PhoneEvent> {
    if hears then q + [e] else q
  }

  lemma Fanned(r: Presence, q1: seq<PhoneEvent>, q2: seq<PhoneEvent>, q3: seq<PhoneEvent>, sids: set<SessionId>, e: PhoneEvent)
    requires Queues(r, q1, q2, q3) && |q1| < 8 && |q2| < 8 && |q3| < 8
    ensures Queues(FanOut(r, sids, e), Plus(q1, 1 in sids, e), Plus(q2, 2 in sids, e), Plus(q3, 3 in sids, e))
  {
    var r' := FanOut(r, sids, e);
    forall s ensures s !in r'.lost { DeliverMeans(r, ToAll(sids, e), s); }
    DeliverMeans(r, ToAll(sids, e), 1);
    DeliverMeans(r, ToAll(sids, e), 2);
    DeliverMeans(r, ToAll(sids, e), 3);
    assert r'.index.Keys == r.index.Keys;
  }

  lemma SentTo(r: Presence, q1: seq<PhoneEvent>, q2: seq<PhoneEvent>, q3: seq<PhoneEvent>, s: SessionId, e: PhoneEvent)
    requires Queues(r, q1, q2, q3) && |q1| < 8 && |q2| < 8 && |q3| < 8
    ensures Queues(Send(r, s, e), Plus(q1, s == 1, e), Plus(q2, s == 2, e), Plus(q3, s == 3, e))
  {
    hide Queues, Deliver;
    assert map[s := e] == ToAll({s}, e);
    Fanned(r, q1, q2, q3, {s}, e);
  }

  lemma SentToTwo(r: Presence, q1: seq<PhoneEvent>, q2: seq<PhoneEvent>, q3: seq<PhoneEvent>, s: SessionId, t: SessionId, e: PhoneEvent)
    requires Queues(r, q1, q2, q3) && |q1| < 7 && |q2| < 7 && |q3| < 7 && s != t
    ensures Queues(SendEach(r, [s, t], e), Plus(q1, 1 in {s, t}, e), Plus(q2, 2 in {s, t}, e), Plus(q3, 3 in {s, t}, e))
  {
    hide Queues, Send;
    SentTo(r, q1, q2, q3, s, e);
    SentTo(Send(r, s, e), Plus(q1, s == 1, e), Plus(q2, s == 2, e), Plus(q3, s == 3, e), t, e);
    assert [s, t][1..] == [t] && [t][1..] == [];
    assert SendEach(Send(Send(r, s, e), t, e), [], e) == Send(Send(r, s, e), t, e);
  }

  lemma SentToOne(r: Presence, q1: seq<PhoneEvent>, q2: seq<PhoneEvent>, q3: seq<PhoneEvent>, s: SessionId, e: PhoneEvent)
    requires Queues(r, q1, q2, q3) && |q1| < 8 && |q2| < 8 && |q3| < 8
    ensures Queues(SendEach(r, [s], e), Plus(q1, s == 1, e), Plus(q2, s == 2, e), Plus(q3, s == 3, e))
  {
    hide Queues, Send;
    SentTo(r, q1, q2, q3, s, e);
    assert [s][1..] == [] && SendEach(Send(r, s, e), [], e) == Send(r, s, e);
  }

  // ---- The scenes ---------------------------------------------------------------------------------

  const RINGS := PhoneEvent(EventRing, 1, "bob", "alice")
  const ANSWERS := PhoneEvent(EventAnswer, 1, "bob", "alice")
  const ELSEWHERE := PhoneEvent(EventAnswerElsewhere, 1, "bob", "alice")
  const RINGING := PhoneEvent(EventRinging, 1, "bob", "alice")
  const LEAVES := PhoneEvent(EventHangup, 1, "alice", "")

  /** The only call, and the sessions in it by name. */
  predicate InIt(b: Switchboard, state: CallState, who: seq<SessionId>) {
    && b.calls.Keys == {1} && b.calls[1].state == state && b.calls[1].caller == "bob" && b.calls[1].callee == "alice"
    && |b.calls[1].participants| == |who|
    && forall i :: 0 <= i < |who| ==> b.calls[1].participants[i].sid == who[i]
                                      && b.calls[1].participants[i].username == if who[i] == 2 then "bob" else "alice"
  }

  lemma SidsAre(b: Switchboard, state: CallState, who: seq<SessionId>)
    requires InIt(b, state, who)
    ensures 1 in b.calls && Sids(b.calls[1].participants) == who
    ensures forall s :: InCall(b, s) <==> s in who
  {
    assert forall i :: 0 <= i < |who| ==> Sids(b.calls[1].participants)[i] == who[i];
    assert forall s :: InCall(b, s) ==> s in Sids(b.calls[1].participants);
  }

  ghost predicate Scene(w: World, q1: seq<PhoneEvent>, q2: seq<PhoneEvent>, q3: seq<PhoneEvent>, u1: Ui, u2: Ui, u3: Ui) {
    Queues(w.board.reg, q1, q2, q3) && w.ui == map[1 := u1, 2 := u2, 3 := u3] && w.gate == None && w.misused == {}
  }

  const ALICE := LobbyUi("alice")
  const BOB := LobbyUi("bob")
  const TALKING := Ui("bob", true, CallActive, Some(1), None, None, ["alice"], ["bob", "alice"])

  lemma Logins() returns (w: World)
    ensures w == Run(START, [Connect("alice", "user", false), Connect("bob", "user", false), Connect("alice", "user", false)])
    ensures Scene(w, [], [], [], ALICE, BOB, ALICE) && w.board.calls == map[] && w.board.adds == map[] && w.board.chans.made == {}
  {
    var a, b := Connect("alice", "user", false), Connect("bob", "user", false);
    ThreeSteps(START, a, b, a);
    var w1 := Apply(START, a);
    var w2 := Apply(w1, b);
    w := Apply(w2, a);
    assert "alice"[0] != "bob"[0];
    assert w1.board.reg.accounts.Keys == {"alice"} && w1.board.reg.accounts["alice"].sessions == {1};
    assert w2.board.reg.accounts.Keys == {"alice", "bob"} && w2.board.reg.accounts["alice"].sessions == {1} && w2.board.reg.accounts["bob"].sessions == {2};
    assert w.board.reg.accounts.Keys == {"alice", "bob"} && w.board.reg.accounts["alice"].sessions == {1, 3} && w.board.reg.accounts["bob"].sessions == {2};
    assert w.ui == map[1 := ALICE, 2 := BOB, 3 := ALICE];
  }

  lemma ThreeSteps(w: World, a: Step, b: Step, c: Step)
    ensures Run(w, [a, b, c]) == Apply(Apply(Apply(w, a), b), c)
  {
    hide Apply;
    assert [a, b, c][1..] == [b, c] && [b, c][1..] == [c] && [c][1..] == [];
    assert Run(w, [a, b, c]) == Run(Apply(w, a), [b, c]) == Run(Apply(Apply(w, a), b), [c]);
    assert Run(Apply(Apply(w, a), b), [c]) == Run(Apply(Apply(Apply(w, a), b), c), []);
  }

  lemma FreeOf(b: Switchboard, user: Account)
    requires People(b.reg) && user in b.reg.accounts
    ensures forall s :: s in Ringable(b, user) <==> s in b.reg.accounts[user].sessions && !InCall(b, s)
  {
  }

  const WAITING := Ui("bob", true, CallPending, Some(1), None, None, ["alice"], ["bob", "alice"])
  const OFFERED := ALICE.(incoming := Some(1))
  const ANSWERED := Ui("alice", true, CallActive, Some(1), None, None, ["bob"], ["alice", "bob"])
  const INVITED := AddKey(1, "alice")

  /** alice is another account, is not being rung, and has a session to ring. */
  lemma BobMayRing(b: Switchboard, s: SessionId)
    requires People(b.reg) && b.adds == map[] && (forall id :: !Pending(b, id)) && s in {1, 3} && !InCall(b, s)
    ensures Admit(b, "bob", "alice") == None
  {
    AdmitMeans(b, "bob", "alice");
    forall id ensures !DialRings(b, id, "alice") { assert !Pending(b, id); }
    assert |"bob"| != |"alice"|;
    assert s in b.reg.accounts["alice"].sessions && s in Ringable(b, "alice");
  }

  /** Both of alice's sessions are rung. */
  lemma BobDials(w: World) returns (w': World)
    requires Scene(w, [], [], [], ALICE, BOB, ALICE) && w.board.calls == map[] && w.board.adds == map[] && w.board.chans.made == {}
    ensures w' == Run(w, [Ring(2, "alice"), Recheck, Commit(1)])
    ensures Scene(w', [RINGS], [], [RINGS], ALICE, WAITING, ALICE) && InIt(w'.board, CallPending, [2]) && w'.board.adds == map[]
  {
    hide ApplyRing, ApplyRecheck, Admit, Queues, FanOut, PlaceDial;
    ThreeSteps(w, Ring(2, "alice"), Recheck, Commit(1));
    w' := Apply(Apply(Apply(w, Ring(2, "alice")), Recheck), Commit(1));
    InScene(w, [], [], [], ALICE, BOB, ALICE);
    BobMayRing(w.board, 1);
    Checked(w, 2, "alice");
    DialPlaced(w.board);
    assert w'.ui == map[1 := ALICE, 2 := WAITING, 3 := ALICE];
  }

  lemma InScene(w: World, q1: seq<PhoneEvent>, q2: seq<PhoneEvent>, q3: seq<PhoneEvent>, u1: Ui, u2: Ui, u3: Ui)
    requires Scene(w, q1, q2, q3, u1, u2, u3)
    ensures People(w.board.reg)
  {
  }

  lemma DialPlaced(b: Switchboard)
    requires Queues(b.reg, [], [], []) && b.calls == map[] && b.adds == map[]
    ensures var b' := PlaceDial(b, 1, 2, "bob", "alice");
            Queues(b'.reg, [RINGS], [], [RINGS]) && InIt(b', CallPending, [2]) && b'.adds == map[]
  {
    hide FanOut, Ringable;
    var b' := PlaceDial(b, 1, 2, "bob", "alice");
    var b1 := b'.(reg := b.reg);
    assert InIt(b1, CallPending, [2]);
    SidsAre(b1, CallPending, [2]);
    FreeOf(b1, "alice");
    assert Ringable(b1, "alice") == {1, 3};
    Fanned(b.reg, [], [], [], {1, 3}, RINGS);
  }

  /** One session reads its oldest event. */
  lemma Reads(w: World, q1: seq<PhoneEvent>, q2: seq<PhoneEvent>, q3: seq<PhoneEvent>, u1: Ui, u2: Ui, u3: Ui, s: SessionId)
    requires Scene(w, q1, q2, q3, u1, u2, u3) && s in {1, 2, 3}
    requires var q := if s == 1 then q1 else if s == 2 then q2 else q3;
             q != [] && !EveryoneLeft(w.ui[s], q[0])
    ensures var w' := Apply(w, Consume(s));
            && Scene(w', if s == 1 then q1[1..] else q1, if s == 2 then q2[1..] else q2, if s == 3 then q3[1..] else q3,
                     if s == 1 then Handle(u1, q1[0]).0 else u1, if s == 2 then Handle(u2, q2[0]).0 else u2,
                     if s == 3 then Handle(u3, q3[0]).0 else u3)
            && w'.board.calls == w.board.calls && w'.board.adds == w.board.adds
  {
    hide Handle, EveryoneLeft, ApplyConsume;
    ReadOnly(w, s);
    QueueRead(w.board.reg, q1, q2, q3, s);
    Assembled(w, Apply(w, Consume(s)), q1, q2, q3, u1, u2, u3, s, Handle(w.ui[s], w.board.reg.index[s].notify[0]).0);
  }

  lemma Assembled(w: World, w': World, q1: seq<PhoneEvent>, q2: seq<PhoneEvent>, q3: seq<PhoneEvent>, u1: Ui, u2: Ui, u3: Ui,
                  s: SessionId, u: Ui)
    requires Scene(w, q1, q2, q3, u1, u2, u3) && s in {1, 2, 3} && w'.ui == w.ui[s := u] && w'.gate == None && w'.misused == w.misused
    ensures w'.ui == map[1 := if s == 1 then u else u1, 2 := if s == 2 then u else u2, 3 := if s == 3 then u else u3] && w'.misused == {}
  {
    hide Queues;
  }

  lemma QueueRead(r: Presence, q1: seq<PhoneEvent>, q2: seq<PhoneEvent>, q3: seq<PhoneEvent>, s: SessionId)
    requires Queues(r, q1, q2, q3) && s in {1, 2, 3} && r.index[s].notify != []
    ensures Queues(Receive(r, s), if s == 1 then q1[1..] else q1, if s == 2 then q2[1..] else q2, if s == 3 then q3[1..] else q3)
  {
  }

  lemma FirstAnswers(b: Switchboard)
    requires Queues(b.reg, [], [], [RINGS]) && InIt(b, CallPending, [2]) && b.adds == map[]
    ensures var (b', err) := Answer(b, 1, 1, "alice");
            err == None && Queues(b'.reg, [], [ANSWERS], [RINGS, ELSEWHERE]) && InIt(b', CallActive, [2, 1]) && b'.adds == map[]
  {
    hide FanOut, Send;
    var b' := Answer(b, 1, 1, "alice").0;
    assert b' == AnswerDial(b, 1, 1, "alice");
    assert SessionsOf(b.reg, "alice") - {1} == {3};
    SentTo(b.reg, [], [], [RINGS], 2, ANSWERS);
    Fanned(Send(b.reg, 2, ANSWERS), [], [ANSWERS], [RINGS], {3}, ELSEWHERE);
  }

  lemma AliceAnswers(w: World) returns (w': World)
    requires Scene(w, [RINGS], [], [RINGS], ALICE, WAITING, ALICE) && InIt(w.board, CallPending, [2]) && w.board.adds == map[]
    ensures w' == Run(w, [Consume(1), AnswerKey(1), Consume(2)])
    ensures Scene(w', [], [], [RINGS, ELSEWHERE], ANSWERED, TALKING, ALICE) && InIt(w'.board, CallActive, [2, 1]) && w'.board.adds == map[]
  {
    hide ApplyConsume, ApplyAnswer, Answer, Queues, InIt, Settle;
    ThreeSteps(w, Consume(1), AnswerKey(1), Consume(2));
    Reads(w, [RINGS], [], [RINGS], ALICE, WAITING, ALICE, 1);
    var w1 := Apply(w, Consume(1));
    assert [RINGS][1..] == [] && Handle(ALICE, RINGS).0 == OFFERED;
    SameIt(w.board, w1.board, CallPending, [2]);
    FirstAnswers(w1.board);
    AnsweredFirst(w1);
    var w2 := Apply(w1, AnswerKey(1));
    NamesInIt(w2.board, CallActive, [2, 1]);
    AliceShown(w1, w2);
    Reads(w2, [], [ANSWERS], [RINGS, ELSEWHERE], ANSWERED, WAITING, ALICE, 2);
    w' := Apply(w2, Consume(2));
    assert [ANSWERS][1..] == [] && Handle(WAITING, ANSWERS).0 == TALKING;
    SameIt(w2.board, w'.board, CallActive, [2, 1]);
  }

  lemma AnsweredFirst(w: World)
    requires Scene(w, [], [], [RINGS], OFFERED, WAITING, ALICE) && InIt(w.board, CallPending, [2]) && Answer(w.board, 1, 1, "alice").1 == None
    ensures ApplyAnswer(w, 1).board == Answer(w.board, 1, 1, "alice").0
  {
    hide ApplyAnswer, Answer, Queues, Settle;
    AnswerOutcome(w, 1);
    AnswerResult(w.board, 1, 1, "alice");
  }

  lemma SameIt(b: Switchboard, b': Switchboard, state: CallState, who: seq<SessionId>)
    requires InIt(b, state, who) && b'.calls == b.calls
    ensures InIt(b', state, who)
  {
  }

  lemma NamesInIt(b: Switchboard, state: CallState, who: seq<SessionId>)
    requires InIt(b, state, who)
    ensures 1 in b.calls && |Names(b.calls[1].participants)| == |who|
    ensures forall i :: 0 <= i < |who| ==> Names(b.calls[1].participants)[i] == if who[i] == 2 then "bob" else "alice"
  {
  }

  lemma AliceShown(w: World, w': World)
    requires Scene(w, [], [], [RINGS], OFFERED, WAITING, ALICE) && InIt(w.board, CallPending, [2])
    requires Answer(w.board, 1, 1, "alice").1 == None && w' == ApplyAnswer(w, 1)
    requires 1 in w'.board.calls && Names(w'.board.calls[1].participants) == ["bob", "alice"]
    requires Queues(w'.board.reg, [], [ANSWERS], [RINGS, ELSEWHERE])
    ensures Scene(w', [], [ANSWERS], [RINGS, ELSEWHERE], ANSWERED, WAITING, ALICE)
  {
    hide ApplyAnswer, Answer, Queues, Settle, Names;
    AnswerOutcome(w, 1);
    AnswerResult(w.board, 1, 1, "alice");
    assert ["bob", "alice"][1..] == ["alice"] && ["alice"][1..] == [];
    assert NotNamed(["alice"], "alice") == NotNamed([], "alice");
    assert NotNamed(["bob", "alice"], "alice") == ["bob"] + NotNamed(["alice"], "alice") == ["bob"];
    assert ["alice"] + ["bob"] == ["alice", "bob"];
    assert Answered(OFFERED, 1, ["bob", "alice"]) == ANSWERED;
    assert w'.ui == map[1 := ANSWERED, 2 := WAITING, 3 := ALICE];
  }

  // ---- The second session --------------------------------------------------------------------------

  lemma AddPlaced(b: Switchboard)
    requires Queues(b.reg, [], [], [RINGS, ELSEWHERE]) && InIt(b, CallActive, [2, 1]) && b.adds == map[]
    ensures var b' := PlaceAdd(b, 1, "bob", "alice");
            Queues(b'.reg, [RINGING], [], [RINGS, ELSEWHERE, RINGS]) && InIt(b', CallActive, [2, 1]) && b'.adds.Keys == {INVITED}
  {
    hide FanOut, Ringable, SendEach, Queues, InIt;
    SidsAre(b, CallActive, [2, 1]);
    var b1 := b.(adds := b.adds[INVITED := PendingRing(b.chans.serial, "bob")], chans := Make(b.chans, AddStop(INVITED, b.chans.serial)));
    OnlySecondFree(b, b1);
    Fanned(b.reg, [], [], [RINGS, ELSEWHERE], {3}, RINGS);
    OthersOfBob(b);
    assert [RINGS, ELSEWHERE] + [RINGS] == [RINGS, ELSEWHERE, RINGS] && [] + [RINGING] == [RINGING];
    assert 1 !in {3} && 2 !in {3} && 3 in {3};
    assert PlaceAdd(b, 1, "bob", "alice").reg ==
           SendEach(FanOut(b.reg, Ringable(b1, "alice"), RINGS), OthersByName(b.calls[1].participants, "bob"), RINGING);
    SentToOne(FanOut(b.reg, {3}, RINGS), [], [], [RINGS, ELSEWHERE, RINGS], 1, RINGING);
    AddTable(b, 1, "bob", "alice");
    SameIt(b, PlaceAdd(b, 1, "bob", "alice"), CallActive, [2, 1]);
    assert PlaceAdd(b, 1, "bob", "alice").adds == map[INVITED := PendingRing(b.chans.serial, "bob")];
  }

  lemma OnlySecondFree(b: Switchboard, b1: Switchboard)
    requires Queues(b.reg, [], [], [RINGS, ELSEWHERE]) && InIt(b, CallActive, [2, 1]) && b1.calls == b.calls && b1.reg == b.reg
    ensures Ringable(b1, "alice") == {3}
  {
    hide Ringable;
    SidsAre(b, CallActive, [2, 1]);
    FreeOf(b1, "alice");
    assert forall s :: InCall(b1, s) <==> InCall(b, s);
  }

  lemma OthersOfBob(b: Switchboard)
    requires InIt(b, CallActive, [2, 1])
    ensures OthersByName(b.calls[1].participants, "bob") == [1]
  {
    var ps := b.calls[1].participants;
    assert ps == [ps[0], ps[1]] && ps[1..] == [ps[1]] && [ps[1]][1..] == [];
    assert OthersByName([ps[1]], "bob") == [1] + OthersByName([], "bob");
  }

  lemma Added(w: World, w1: World)
    requires w1 == w.(gate := Some(AddGate(2, 1, "alice"))) && 2 in w.ui && 1 in w.board.calls && w.ui[2].username == "bob"
    ensures var w' := ApplyCommit(w1, 0);
            && w'.board == PlaceAdd(w.board, 1, "bob", "alice") && w'.ui == w.ui[2 := w.ui[2].(addTarget := Some("alice"))]
            && w'.gate == None && w'.misused == w.misused
  {
    hide PlaceAdd;
  }

  lemma ActiveIt(b: Switchboard, who: seq<SessionId>)
    requires InIt(b, CallActive, who)
    ensures Active(b, 1) && forall id :: !Pending(b, id)
  {
  }

  lemma BobAdds(w: World) returns (w': World)
    requires Scene(w, [], [], [RINGS, ELSEWHERE], ANSWERED, TALKING, ALICE) && InIt(w.board, CallActive, [2, 1]) && w.board.adds == map[]
    ensures w' == Run(w, [Ring(2, "alice"), Recheck, Commit(0)])
    ensures Scene(w', [RINGING], [], [RINGS, ELSEWHERE, RINGS], ANSWERED, TALKING.(addTarget := Some("alice")), ALICE)
    ensures InIt(w'.board, CallActive, [2, 1]) && w'.board.adds.Keys == {INVITED}
  {
    hide ApplyRing, ApplyRecheck, ApplyCommit, Admit, Queues, FanOut, PlaceAdd;
    ThreeSteps(w, Ring(2, "alice"), Recheck, Commit(0));
    w' := Apply(Apply(Apply(w, Ring(2, "alice")), Recheck), Commit(0));
    InScene(w, [], [], [RINGS, ELSEWHERE], ANSWERED, TALKING, ALICE);
    SidsAre(w.board, CallActive, [2, 1]);
    ActiveIt(w.board, [2, 1]);
    hide InIt;
    BobMayRing(w.board, 3);
    Checked(w, 2, "alice");
    AddPlaced(w.board);
    Added(w, w.(gate := Some(AddGate(2, 1, "alice"))));
    assert w'.ui == map[1 := ANSWERED, 2 := TALKING.(addTarget := Some("alice")), 3 := ALICE];
  }

  /** The second session reads what came, and is offered the call when it has. */
  lemma SecondReads(w: World) returns (w': World)
    requires Scene(w, [RINGING], [], [RINGS, ELSEWHERE, RINGS], ANSWERED, TALKING.(addTarget := Some("alice")), ALICE)
    ensures w' == Run(w, [Consume(3), Consume(3), Consume(3)])
    ensures Scene(w', [RINGING], [], [], ANSWERED, TALKING.(addTarget := Some("alice")), OFFERED)
    ensures w'.board.calls == w.board.calls && w'.board.adds == w.board.adds
  {
    hide ApplyConsume, Queues;
    var u2 := TALKING.(addTarget := Some("alice"));
    ThreeSteps(w, Consume(3), Consume(3), Consume(3));
    Reads(w, [RINGING], [], [RINGS, ELSEWHERE, RINGS], ANSWERED, u2, ALICE, 3);
    var w1 := Apply(w, Consume(3));
    assert [RINGS, ELSEWHERE, RINGS][1..] == [ELSEWHERE, RINGS] && [ELSEWHERE, RINGS][1..] == [RINGS] && [RINGS][1..] == [];
    assert Handle(ALICE, RINGS).0 == OFFERED && Handle(OFFERED, ELSEWHERE).0 == ALICE;
    Reads(w1, [RINGING], [], [ELSEWHERE, RINGS], ANSWERED, u2, OFFERED, 3);
    var w2 := Apply(w1, Consume(3));
    Reads(w2, [RINGING], [], [RINGS], ANSWERED, u2, ALICE, 3);
    w' := Apply(w2, Consume(3));
  }

  lemma SecondJoins(b: Switchboard)
    requires Queues(b.reg, [RINGING], [], []) && InIt(b, CallActive, [2, 1]) && b.adds.Keys == {INVITED}
    ensures var (b', err) := Answer(b, 1, 3, "alice");
            err == None && Queues(b'.reg, [RINGING, ANSWERS], [ANSWERS], []) && InIt(b', CallActive, [2, 1, 3])
  {
    hide SendEach;
    var b', ps := Answer(b, 1, 3, "alice").0, b.calls[1].participants;
    assert INVITED in b.adds && b' == AnswerAdd(b, 1, 3, "alice");
    var all := ps + [Participant("alice", 3, b.chans.serial)];
    assert b'.calls[1].participants == all;
    OthersOfSecond(ps, all[2]);
    SentToTwo(b.reg, [RINGING], [], [], 2, 1, ANSWERS);
  }

  lemma OthersOfSecond(ps: seq<Participant>, p: Participant)
    requires |ps| == 2 && ps[0].sid == 2 && ps[1].sid == 1 && p.sid == 3
    ensures OthersBySession(ps + [p], 3) == [2, 1]
  {
    assert ps + [p] == [ps[0], ps[1], p] && [ps[0], ps[1], p][1..] == [ps[1], p] && [ps[1], p][1..] == [p] && [p][1..] == [];
    assert OthersBySession([p], 3) == OthersBySession([], 3);
    assert OthersBySession([ps[1], p], 3) == [1] + OthersBySession([p], 3);
  }

  lemma FirstLeaves(b: Switchboard)
    requires Queues(b.reg, [RINGING, ANSWERS], [ANSWERS], []) && InIt(b, CallActive, [2, 1, 3])
    ensures var b' := Leave(b, 1, 1);
            Queues(b'.reg, [RINGING, ANSWERS], [ANSWERS, LEAVES], [LEAVES]) && InIt(b', CallActive, [2, 3])
  {
    hide SendEach, CloseCall;
    var ps := b.calls[1].participants;
    SidsAre(b, CallActive, [2, 1, 3]);
    FindsSecond(ps);
    var rest := ps[..1] + ps[2..];
    assert rest == [ps[0], ps[2]] && rest[1..] == [ps[2]] && [ps[2]][1..] == [];
    assert Sids([ps[2]]) == [3] + Sids([]);
    assert Sids(rest) == [2, 3];
    SentToTwo(b.reg, [RINGING, ANSWERS], [ANSWERS], [], 2, 3, LEAVES);
  }

  lemma FindsSecond(ps: seq<Participant>)
    requires |ps| == 3 && ps[0].sid == 2 && ps[1].sid == 1
    ensures Find(ps, 1) == 1
  {
    assert Find(ps[1..], 1) == 0;
  }

  /** The second session joins, the first leaves, and bob reads that somebody joined. */
  lemma FirstGoes(w: World) returns (w': World)
    requires Scene(w, [RINGING], [], [], ANSWERED, TALKING.(addTarget := Some("alice")), OFFERED)
    requires InIt(w.board, CallActive, [2, 1]) && w.board.adds.Keys == {INVITED}
    ensures w' == Run(w, [AnswerKey(3), HangupKey(1), Consume(2)])
    ensures InIt(w'.board, CallActive, [2, 3]) && 2 in w'.ui && w'.ui[2] == TALKING && w'.gate == None && w'.misused == {}
    ensures People(w'.board.reg) && w'.board.reg.index[2].notify == [LEAVES]
  {
    hide ApplyConsume, ApplyAnswer, ApplyHangup, Answer, Leave, Queues, InIt, Settle, Answered, People;
    var u2 := TALKING.(addTarget := Some("alice"));
    ThreeSteps(w, AnswerKey(3), HangupKey(1), Consume(2));
    var w1 := Apply(w, AnswerKey(3));
    SecondJoins(w.board);
    SecondShown(w, w1);
    var w2 := Apply(w1, HangupKey(1));
    FirstLeaves(w1.board);
    SidsAre(w1.board, CallActive, [2, 1, 3]);
    Gone(w1, w2);
    Reads(w2, [RINGING, ANSWERS], [ANSWERS, LEAVES], [LEAVES], GoIdle(ANSWERED), u2, w1.ui[3], 2);
    w' := Apply(w2, Consume(2));
    assert [ANSWERS, LEAVES][1..] == [LEAVES] && Handle(u2, ANSWERS).0 == TALKING;
    SameIt(w2.board, w'.board, CallActive, [2, 3]);
    SceneTells(w', [RINGING, ANSWERS], [LEAVES], [LEAVES], GoIdle(ANSWERED), TALKING, w1.ui[3]);
  }

  lemma SceneTells(w: World, q1: seq<PhoneEvent>, q2: seq<PhoneEvent>, q3: seq<PhoneEvent>, u1: Ui, u2: Ui, u3: Ui)
    requires Scene(w, q1, q2, q3, u1, u2, u3)
    ensures People(w.board.reg) && w.board.reg.index[2].notify == q2
    ensures 2 in w.ui && w.ui[2] == u2 && w.gate == None && w.misused == {}
  {
  }

  lemma SecondShown(w: World, w': World)
    requires Scene(w, [RINGING], [], [], ANSWERED, TALKING.(addTarget := Some("alice")), OFFERED) && InIt(w.board, CallActive, [2, 1])
    requires Answer(w.board, 1, 3, "alice").1 == None && w' == ApplyAnswer(w, 3)
    requires Queues(Answer(w.board, 1, 3, "alice").0.reg, [RINGING, ANSWERS], [ANSWERS], [])
    ensures w'.board == Answer(w.board, 1, 3, "alice").0 && 3 in w'.ui
    ensures Scene(w', [RINGING, ANSWERS], [ANSWERS], [], ANSWERED, TALKING.(addTarget := Some("alice")), w'.ui[3])
  {
    hide Answer, Queues, Settle, Answered;
    assert w'.ui == map[1 := ANSWERED, 2 := TALKING.(addTarget := Some("alice")), 3 := w'.ui[3]];
  }

  lemma Gone(w: World, w': World)
    requires 3 in w.ui && Scene(w, [RINGING, ANSWERS], [ANSWERS], [], ANSWERED, TALKING.(addTarget := Some("alice")), w.ui[3])
    requires 1 in w.board.calls && Sids(w.board.calls[1].participants) == [2, 1, 3] && w' == ApplyHangup(w, 1)
    requires Queues(Leave(w.board, 1, 1).reg, [RINGING, ANSWERS], [ANSWERS, LEAVES], [LEAVES])
    ensures w'.board == Leave(w.board, 1, 1)
    ensures Scene(w', [RINGING, ANSWERS], [ANSWERS, LEAVES], [LEAVES], GoIdle(ANSWERED), TALKING.(addTarget := Some("alice")), w.ui[3])
  {
    hide Leave, Queues, Settle, Sids, LeaveCall;
    LeaveBoard(w, 1, 1, Cancelled);
    LeaveCallAside(w, 1, 1, Cancelled);
    assert 1 in [2, 1, 3] by { assert [2, 1, 3][1] == 1; }
    assert w'.ui == map[1 := GoIdle(ANSWERED), 2 := TALKING.(addTarget := Some("alice")), 3 := w.ui[3]];
  }

  // ---- The finding -----------------------------------------------------------------------------------

  /**
    A session that lost no event, in an active call with another account, is about to
    read that everyone has left it, and to hang up: a namesake had left, and the screen
    cannot tell them apart.
   */
  lemma HangsUpOnAlice() returns (steps: seq<Step>, s: SessionId)
    ensures var w := Run(START, steps);
            && !Tainted(w, s) && s in w.ui && w.ui[s].callId.Some? && Active(w.board, w.ui[s].callId.value)
            && Others(w.board, w.ui[s].callId.value, w.ui[s].username) != {}
            && s in w.board.reg.index && w.board.reg.index[s].notify != [] && EveryoneLeft(w.ui[s], w.board.reg.index[s].notify[0])
  {
    hide Run, Apply, InIt, Scene, Queues, People;
    var logins := [Connect("alice", "user", false), Connect("bob", "user", false), Connect("alice", "user", false)];
    var dials := [Ring(2, "alice"), Recheck, Commit(1)];
    var answers := [Consume(1), AnswerKey(1), Consume(2)];
    var adds := [Ring(2, "alice"), Recheck, Commit(0)];
    var catches := [Consume(3), Consume(3), Consume(3)];
    var goes := [AnswerKey(3), HangupKey(1), Consume(2)];
    var w0 := Logins();
    var w1 := BobDials(w0);
    var w2 := AliceAnswers(w1);
    var w3 := BobAdds(w2);
    var w4 := SecondReads(w3);
    SameIt(w3.board, w4.board, CallActive, [2, 1]);
    var w5 := FirstGoes(w4);
    steps, s := logins + dials + answers + adds + catches + goes, 2;
    hide *;
    RunConcat(START, logins, dials);
    RunConcat(START, logins + dials, answers);
    RunConcat(START, logins + dials + answers, adds);
    RunConcat(START, logins + dials + answers + adds, catches);
    RunConcat(START, logins + dials + answers + adds + catches, goes);
    AtLast(w5);
  }

  lemma AtLast(w: World)
    requires InIt(w.board, CallActive, [2, 3]) && 2 in w.ui && w.ui[2] == TALKING && w.misused == {}
    requires People(w.board.reg) && w.board.reg.index[2].notify == [LEAVES]
    ensures !Tainted(w, 2) && Active(w.board, 1) && Others(w.board, 1, "bob") != {} && EveryoneLeft(TALKING, LEAVES)
    ensures 2 in w.board.reg.index
  {
    var p := w.board.calls[1].participants[1];
    assert p in w.board.calls[1].participants && p.username == "alice";
    assert "alice" in Others(w.board, 1, "bob");
  }
}
