/**
  ANSWER has no test of the session's own state (internal/phone/app.go:793), and a
  ring noted before a DIAL is kept through it (internal/phone/app.go:758). So one
  call for each session is not a law of the code. This module says exactly when a
  successful ANSWER keeps it, and gives a run that breaks it.
 */
module Misuse {
  import opened Wrappers
  import opened Ordering
  import opened Registry
  import opened CallTable
  import opened TableInvariant
  import opened TableMotion
  import opened Protocol
  import opened WorldInvariant
  import opened Agreement
  import opened Guarantees
  import opened Reachability

  /** The session is one participant of one call. */
  ghost predicate InOneCall(b: Switchboard, sid: SessionId) {
    exists id, state :: OnlyIn(b, sid, id, state)
  }

  /** An ANSWER that the table accepts. */
  ghost predicate Answers(w: World, sid: SessionId) {
    && Acts(w, sid) && w.ui[sid].incoming.Some? && w.ui[sid].state != CallPending
    && AnswerError(w.board, w.ui[sid].incoming.value, w.ui[sid].username) == None
  }

  lemma AnsweredBoard(w: World, sid: SessionId)
    requires Core(w) && Answers(w, sid)
    ensures ApplyAnswer(w, sid).board == Answer(w.board, w.ui[sid].incoming.value, sid, w.ui[sid].username).0
    ensures w.ui[sid].state == CallActive ==> sid in ApplyAnswer(w, sid).misused
  {
    hide Answered, Settle, AnswerDial, AnswerAdd, OneRing, ChansExact, QueuesOk, UisOk, RecordsOk, SeatsOk, GateOk;
    var id := w.ui[sid].incoming.value;
    assert CallShape(w.board.calls[id]);
  }

  /** In a reachable state, a successful ANSWER leaves an untainted session in one call exactly when it came from CallIdle. */
  lemma AnswerOnlyFromIdle(steps: seq<Step>, sid: SessionId)
    requires var w := Run(START, steps); !Tainted(w, sid) && Answers(w, sid)
    ensures var w := Run(START, steps);
            InOneCall(Apply(w, AnswerKey(sid)).board, sid) <==> w.ui[sid].state == CallIdle
  {
    hide Core, Agrees, InOneCall, ApplyAnswer, AnswerError;
    var w := Run(START, steps);
    StartHolds();
    RunKeeps(START, steps);
    ScreensAgree(steps, sid);
    AnsweredBoard(w, sid);
    AnswersTwice(w, sid);
  }

  lemma AnswersTwice(w: World, sid: SessionId)
    requires Core(w) && Answers(w, sid) && sid in w.board.reg.index && Agrees(w.board, sid, w.ui[sid])
    ensures InOneCall(Answer(w.board, w.ui[sid].incoming.value, sid, w.ui[sid].username).0, sid) <==> w.ui[sid].state == CallIdle
  {
    hide Answer, Core, OnlyIn;
    var b, u := w.board, w.ui[sid];
    var id := u.incoming.value;
    CoreSound(w);
    var b' := Answer(b, id, sid, u.username).0;
    AnswerSeats(b, id, sid, u.username);
    if u.state == CallActive {
      AnswerMoves(b, id, sid, u.username);
      SecondSeat(b, b', id, sid, u.callId.value);
    }
  }

  /** One more seat, for a session that has one already. */
  lemma SecondSeat(b: Switchboard, b': Switchboard, id: CallId, sid: SessionId, own: CallId)
    requires OnlyIn(b, sid, own, CallActive) && id in b.calls && id in b'.calls
    requires Seats(b'.calls[id]) == Seats(b.calls[id]) + multiset{sid}
    requires forall s, c :: c != id ==> SeatOf(b', c, s) == SeatOf(b, c, s)
    ensures !InOneCall(b', sid)
  {
    hide Seats;
    assert SeatOf(b, own, sid) == Some((CallActive, 1));
    assert SeatOf(b', id, sid).Some? && (id == own ==> SeatOf(b', id, sid).value.1 == 2);
    assert SeatOf(b', own, sid) != None;
    forall c, state ensures !OnlyIn(b', sid, c, state) {
      assert SeatOf(b', if c == id then own else id, sid) != None;
    }
  }

  // ---- A run that does it -------------------------------------------------------------------

  function Three(a: seq<PhoneEvent>, b: seq<PhoneEvent>, c: seq<PhoneEvent>): Presence {
    Presence(map["alice" := Entry("user", false, "LOBBY", {1}), "bob" := Entry("user", false, "LOBBY", {2}),
                 "carol" := Entry("user", false, "LOBBY", {3})],
             map[1 := Session("alice", a, false), 2 := Session("bob", b, false), 3 := Session("carol", c, false)],
             3, {1, 2, 3}, false, {})
  }

  const BOB_RINGS := PhoneEvent(EventRing, 1, "bob", "alice")
  const ALICE_RINGS := PhoneEvent(EventRing, 2, "alice", "carol")
  const CAROL_ANSWERS := PhoneEvent(EventAnswer, 2, "alice", "carol")

  const FROM_BOB := Call(CallPending, "bob", "alice", [Participant("bob", 2, 0)])
  const TO_CAROL := Call(CallPending, "alice", "carol", [Participant("alice", 1, 2)])
  const WITH_CAROL := Call(CallActive, "alice", "carol", [Participant("alice", 1, 2), Participant("carol", 3, 4)])

  /** The parts of a world that the next step of this run depends on. */
  ghost predicate Stage(w: World, calls: map<CallId, Call>, made: set<CallId>, serial: nat, reg: Presence, gate: Option<Gate>) {
    && w.board.calls == calls && w.board.adds == map[] && w.board.reg == reg
    && w.board.chans.serial == serial && (forall id :: DialStop(id) in w.board.chans.made ==> id in made)
    && w.gate == gate && w.misused == {}
  }

  const IN_PHONE := LobbyUi("alice").(inPhone := true)

  lemma Rung(b: Switchboard, user: Account, e: PhoneEvent, sid: SessionId)
    requires SessionsOf(b.reg, user) == {sid} && !InCall(b, sid) && sid in b.reg.index && !Full(b.reg, sid)
    ensures RingAll(b, user, e).reg == b.reg.(index := b.reg.index[sid := Push(b.reg.index[sid], e)])
    ensures Ringable(b, user) == {sid}
  {
    var r', r'' := RingAll(b, user, e).reg, b.reg.(index := b.reg.index[sid := Push(b.reg.index[sid], e)]);
    assert Ringable(b, user) == {sid};
    assert r'.index == r''.index;
    assert r'.lost == r''.lost;
  }

  lemma Logins() returns (w: World)
    ensures w == Run(START, [Connect("alice", "user", false), Connect("bob", "user", false), Connect("carol", "user", false)])
    ensures Stage(w, map[], {}, 0, Three([], [], []), None)
    ensures w.ui == map[1 := LobbyUi("alice"), 2 := LobbyUi("bob"), 3 := LobbyUi("carol")]
  {
    var a, b, c := Connect("alice", "user", false), Connect("bob", "user", false), Connect("carol", "user", false);
    RunThree(START, a, b, c);
    var w1, none: set<SessionId> := Apply(START, a), {};
    assert none + {1} == {1} && none + {2} == {2} && none + {3} == {3};
    assert {1} + {2} == {1, 2} && {1, 2} + {3} == {1, 2, 3};
    assert w1.board.reg == Presence(map["alice" := Entry("user", false, "LOBBY", {1})], map[1 := Session("alice", [], false)],
                                    1, {1}, false, {});
    var w2 := Apply(w1, b);
    assert "bob" !in w1.board.reg.accounts by { assert "bob"[0] != "alice"[0]; }
    assert w2.board.reg == Presence(map["alice" := Entry("user", false, "LOBBY", {1}), "bob" := Entry("user", false, "LOBBY", {2})],
                                    map[1 := Session("alice", [], false), 2 := Session("bob", [], false)], 2, {1, 2}, false, {});
    w := Apply(w2, c);
    assert "carol" !in w2.board.reg.accounts by { assert "carol"[0] != "alice"[0] && "carol"[0] != "bob"[0]; }
    assert w.board.reg == Three([], [], []);
  }

  lemma RunFour(w: World, a: Step, b: Step, c: Step, d: Step)
    ensures Run(w, [a, b, c, d]) == Apply(Apply(Apply(Apply(w, a), b), c), d)
  {
    hide Apply;
    RunThree(Apply(w, a), b, c, d);
    assert [a, b, c, d][1..] == [b, c, d];
  }

  /** DIAL, checked twice and committed. */
  lemma DialsThrough(w: World, sid: SessionId, callee: Account, id: CallId)
    requires Acts(w, sid) && w.ui[sid].state == CallIdle && callee != "" && DialStop(id) !in w.board.chans.made
    requires Admit(w.board, w.ui[sid].username, callee) == None
    ensures var w' := Apply(Apply(Apply(w, Ring(sid, callee)), Recheck), Commit(id));
            && w'.board == PlaceDial(w.board, id, sid, w.ui[sid].username, callee)
            && w'.ui == w.ui[sid := Dialed(w.ui[sid], id, callee)] && w'.gate == None && w'.misused == w.misused
  {
    hide PlaceDial, FirstRefusal, Ringable, Dialed;
  }

  /** An event whose handling does not hang up. */
  lemma ConsumesOne(w: World, sid: SessionId)
    requires Acts(w, sid) && sid in w.board.reg.index && w.board.reg.index[sid].notify != []
    requires !Handle(w.ui[sid], w.board.reg.index[sid].notify[0]).1
    ensures var w' := Apply(w, Consume(sid));
            && w'.board == w.board.(reg := Receive(w.board.reg, sid))
            && w'.ui == w.ui[sid := Handle(w.ui[sid], w.board.reg.index[sid].notify[0]).0]
            && w'.gate == None && w'.misused == w.misused
  {
    hide Handle, Receive, LeaveCall;
  }

  /** The first event in a queue of this run, and the queue when it has been read. */
  lemma FirstInQueue()
    ensures var r := Three([], [], []);
            && r.(index := r.index[1 := Push(r.index[1], BOB_RINGS)]) == Three([BOB_RINGS], [], [])
            && r.(index := r.index[3 := Push(r.index[3], ALICE_RINGS)]) == Three([], [], [ALICE_RINGS])
  {
    assert [] + [BOB_RINGS] == [BOB_RINGS] && [] + [ALICE_RINGS] == [ALICE_RINGS];
    var r := Three([], [], []);
    assert r.index[1 := Push(r.index[1], BOB_RINGS)] == Three([BOB_RINGS], [], []).index;
    assert r.index[3 := Push(r.index[3], ALICE_RINGS)] == Three([], [], [ALICE_RINGS]).index;
  }

  lemma QueueRead()
    ensures Receive(Three([BOB_RINGS], [], []), 1) == Three([], [], [])
    ensures Receive(Three([], [], [ALICE_RINGS]), 3) == Three([], [], [])
    ensures Receive(Three([CAROL_ANSWERS], [], []), 1) == Three([], [], [])
  {
    assert [BOB_RINGS][1..] == [] && [ALICE_RINGS][1..] == [] && [CAROL_ANSWERS][1..] == [];
    assert Receive(Three([BOB_RINGS], [], []), 1).index == Three([], [], []).index;
    assert Receive(Three([], [], [ALICE_RINGS]), 3).index == Three([], [], []).index;
    assert Receive(Three([CAROL_ANSWERS], [], []), 1).index == Three([], [], []).index;
  }

  /** bob dials alice, who has entered PHONE. */
  lemma BobDials(w: World) returns (w': World)
    requires Stage(w, map[], {}, 0, Three([], [], []), None)
    requires w.ui == map[1 := LobbyUi("alice"), 2 := LobbyUi("bob"), 3 := LobbyUi("carol")]
    ensures w' == Run(w, [EnterPhone(1), Ring(2, "alice"), Recheck, Commit(1)])
    ensures Stage(w', map[1 := FROM_BOB], {1}, 2, Three([BOB_RINGS], [], []), None)
    ensures w'.ui == map[1 := IN_PHONE, 2 := Dialed(LobbyUi("bob"), 1, "alice"), 3 := LobbyUi("carol")]
  {
    hide PlaceDial, Admit, EqualFold, Push, ApplyRing, ApplyRecheck, ApplyCommit;
    RunFour(w, EnterPhone(1), Ring(2, "alice"), Recheck, Commit(1));
    var w1 := Apply(w, EnterPhone(1));
    assert w1 == w.(ui := w.ui[1 := IN_PHONE]);
    NamesDiffer();
    Admitted(w1.board, "bob", "alice", 1);
    DialsThrough(w1, 2, "alice", 1);
    w' := Apply(Apply(Apply(w1, Ring(2, "alice")), Recheck), Commit(1));
    Placed(w1.board, 1, 2, "bob", "alice", 1);
    FirstInQueue();
  }

  lemma NamesDiffer()
    ensures !EqualFold("bob", "alice") && !EqualFold("alice", "carol") && "alice" != "carol"
  {
    assert Lower("alice"[0]) != Lower("carol"[0]);
  }

  /** alice notes the ring, and dials carol all the same: the noted ring is kept. */
  lemma AliceDials(w: World) returns (w': World)
    requires Stage(w, map[1 := FROM_BOB], {1}, 2, Three([BOB_RINGS], [], []), None)
    requires w.ui == map[1 := IN_PHONE, 2 := Dialed(LobbyUi("bob"), 1, "alice"), 3 := LobbyUi("carol")]
    ensures w' == Run(w, [Consume(1), Ring(1, "carol"), Recheck, Commit(2)])
    ensures Stage(w', map[1 := FROM_BOB, 2 := TO_CAROL], {1, 2}, 4, Three([], [], [ALICE_RINGS]), None)
    ensures w'.ui == w.ui[1 := Dialed(IN_PHONE.(incoming := Some(1)), 2, "carol")]
  {
    hide PlaceDial, Admit, EqualFold, Push, Receive, ApplyConsume, ApplyRing, ApplyRecheck, ApplyCommit;
    RunFour(w, Consume(1), Ring(1, "carol"), Recheck, Commit(2));
    var w1 := Apply(w, Consume(1));
    ConsumesOne(w, 1);
    QueueRead();
    NamesDiffer();
    assert !DialRings(w1.board, 1, "carol");
    Admitted(w1.board, "alice", "carol", 3);
    DialsThrough(w1, 1, "carol", 2);
    w' := Apply(Apply(Apply(w1, Ring(1, "carol")), Recheck), Commit(2));
    Placed(w1.board, 2, 1, "alice", "carol", 3);
    FirstInQueue();
  }

  /** carol answers, and alice learns of it: she is in a call, with bob's ring still noted. */
  lemma CarolAnswers(w: World) returns (w': World)
    requires Stage(w, map[1 := FROM_BOB, 2 := TO_CAROL], {1, 2}, 4, Three([], [], [ALICE_RINGS]), None)
    requires 1 in w.ui && w.ui[1] == Dialed(IN_PHONE.(incoming := Some(1)), 2, "carol")
    requires 3 in w.ui && w.ui[3] == LobbyUi("carol")
    ensures w' == Run(w, [Consume(3), AnswerKey(3), Consume(1)])
    ensures Stage(w', map[1 := FROM_BOB, 2 := WITH_CAROL], {1, 2}, 5, Three([], [], []), None)
    ensures 1 in w'.ui && w'.ui[1] == w.ui[1].(state := CallActive)
  {
    hide Receive, ApplyConsume, ApplyAnswer;
    RunThree(w, Consume(3), AnswerKey(3), Consume(1));
    var w1 := Apply(w, Consume(3));
    ConsumesOne(w, 3);
    QueueRead();
    var w2 := Apply(w1, AnswerKey(3));
    CarolKey(w1);
    ConsumesOne(w2, 1);
    w' := Apply(w2, Consume(1));
    QueueRead();
  }

  lemma CarolKey(w: World)
    requires Stage(w, map[1 := FROM_BOB, 2 := TO_CAROL], {1, 2}, 4, Three([], [], []), None)
    requires 3 in w.ui && w.ui[3] == LobbyUi("carol").(incoming := Some(2))
    ensures var w' := Apply(w, AnswerKey(3));
            && Stage(w', map[1 := FROM_BOB, 2 := WITH_CAROL], {1, 2}, 5, Three([CAROL_ANSWERS], [], []), None)
            && UiKept(w, w', 3)
  {
    hide Answer, Settle, Answered;
    CarolJoins(w.board);
  }

  lemma CarolJoins(b: Switchboard)
    requires b.calls == map[1 := FROM_BOB, 2 := TO_CAROL] && b.reg == Three([], [], []) && b.chans.serial == 4
    ensures Answer(b, 2, 3, "carol").1 == None
    ensures var b' := Answer(b, 2, 3, "carol").0;
            && b'.calls == map[1 := FROM_BOB, 2 := WITH_CAROL] && b'.adds == b.adds && b'.reg == Three([CAROL_ANSWERS], [], [])
            && b'.chans.serial == 5 && (forall id :: DialStop(id) in b'.chans.made ==> DialStop(id) in b.chans.made)
  {
    hide FanOut, Send;
    var b' := Answer(b, 2, 3, "carol").0;
    assert b' == AnswerDial(b, 2, 3, "carol");
    assert TO_CAROL.participants + [Participant("carol", 3, 4)] == WITH_CAROL.participants;
    assert SessionsOf(b.reg, "carol") - {3} == {};
    OnlyCallerHears(PhoneEvent(EventAnswerElsewhere, 2, "alice", "carol"));
  }

  lemma OnlyCallerHears(e: PhoneEvent)
    ensures FanOut(Send(Three([], [], []), 1, CAROL_ANSWERS), {}, e) == Three([CAROL_ANSWERS], [], [])
  {
    CallerHears();
    NobodyHears(Three([CAROL_ANSWERS], [], []), e);
  }

  lemma CallerHears()
    ensures Send(Three([], [], []), 1, CAROL_ANSWERS) == Three([CAROL_ANSWERS], [], [])
  {
    var r := Send(Three([], [], []), 1, CAROL_ANSWERS);
    assert [] + [CAROL_ANSWERS] == [CAROL_ANSWERS];
    assert r.index == Three([CAROL_ANSWERS], [], []).index;
    assert r.lost == {};
  }

  lemma NobodyHears(r: Presence, e: PhoneEvent)
    ensures FanOut(r, {}, e) == r
  {
    assert FanOut(r, {}, e).index == r.index;
  }

  /** A session that has lost no event, in two calls at once: alice answers bob from inside her call with carol. */
  lemma OneCallCanFail() returns (steps: seq<Step>, sid: SessionId)
    ensures var w := Run(START, steps);
            && !Tainted(w, sid) && Answers(w, sid) && w.ui[sid].state == CallActive
            && var b := Apply(w, AnswerKey(sid)).board;
               exists id, id' :: id != id' && SeatOf(b, id, sid).Some? && SeatOf(b, id', sid).Some?
  {
    hide Run, Apply, Core, Agrees;
    var logins := [Connect("alice", "user", false), Connect("bob", "user", false), Connect("carol", "user", false)];
    var bob := [EnterPhone(1), Ring(2, "alice"), Recheck, Commit(1)];
    var alice := [Consume(1), Ring(1, "carol"), Recheck, Commit(2)];
    var carol := [Consume(3), AnswerKey(3), Consume(1)];
    var w0 := Logins();
    var w1 := BobDials(w0);
    var w2 := AliceDials(w1);
    var w3 := CarolAnswers(w2);
    steps, sid := logins + bob + alice + carol, 1;
    RunConcat(START, logins, bob);
    RunConcat(START, logins + bob, alice);
    RunConcat(START, logins + bob + alice, carol);
    StartHolds();
    RunKeeps(START, steps);
    AliceAnswers(w3);
  }

  lemma AliceAnswers(w: World)
    requires Core(w) && Stage(w, map[1 := FROM_BOB, 2 := WITH_CAROL], {1, 2}, 5, Three([], [], []), None)
    requires 1 in w.ui && w.ui[1] == Dialed(IN_PHONE.(incoming := Some(1)), 2, "carol").(state := CallActive)
    ensures Answers(w, 1)
    ensures SeatOf(Apply(w, AnswerKey(1)).board, 1, 1).Some? && SeatOf(Apply(w, AnswerKey(1)).board, 2, 1).Some?
  {
    hide Answer, Core, ApplyAnswer, Sound, Later;
    CoreSound(w);
    AnsweredBoard(w, 1);
    AnswerMoves(w.board, 1, 1, "alice");
    var b := Apply(w, AnswerKey(1)).board;
    assert 1 in Seats(b.calls[1]);
    assert b.calls[2] == WITH_CAROL && Sids(WITH_CAROL.participants)[0] == 1;
    assert 1 in Seats(b.calls[2]);
  }

  lemma Admitted(b: Switchboard, caller: Account, callee: Account, sid: SessionId)
    requires !EqualFold(caller, callee)
    requires SessionsOf(b.reg, callee) == {sid} && b.adds == map[] && !InCall(b, sid)
    requires forall id :: !DialRings(b, id, callee)
    ensures Admit(b, caller, callee) == None
  {
    assert sid in Ringable(b, callee);
  }

  lemma Placed(b: Switchboard, id: CallId, sid: SessionId, caller: Account, callee: Account, rung: SessionId)
    requires SessionsOf(b.reg, callee) == {rung} && !InCall(b, rung) && rung != sid && rung in b.reg.index && !Full(b.reg, rung)
    ensures var b' := PlaceDial(b, id, sid, caller, callee);
            && b'.reg == b.reg.(index := b.reg.index[rung := Push(b.reg.index[rung], PhoneEvent(EventRing, id, caller, callee))])
            && b'.calls == b.calls[id := Call(CallPending, caller, callee, [Participant(caller, sid, b.chans.serial)])]
            && b'.adds == b.adds && b'.chans.serial == b.chans.serial + 2
            && (forall c :: DialStop(c) in b'.chans.made ==> DialStop(c) in b.chans.made || c == id)
  {
    var p := Participant(caller, sid, b.chans.serial);
    var b1 := b.(calls := b.calls[id := Call(CallPending, caller, callee, [p])],
                 chans := Make(Make(b.chans, Incoming(id, p)), DialStop(id)));
    assert forall c :: c in b1.calls && rung in Sids(b1.calls[c].participants) ==> c != id;
    Rung(b1, callee, PhoneEvent(EventRing, id, caller, callee), rung);
  }
}
