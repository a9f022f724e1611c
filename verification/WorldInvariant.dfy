/**
  The part of the protocol's invariant that needs no promise from anyone: it holds
  of every run, whatever the users type and however many events are lost.
 */
module WorldInvariant {
  import opened Wrappers
  import opened Ordering
  import opened Registry
  import opened CallTable
  import opened TableInvariant
  import opened TableMotion
  import opened Protocol

  // ---- What events, models and records refer to -------------------------------

  /**
    An event names a call that was made. EventAnswer never names a pending call,
    and EventRing reaches only the account it is for, which is the callee if the
    call is still pending.
   */
  ghost predicate EventOk(b: Switchboard, user: Account, e: PhoneEvent) {
    e.kind != EventAdminNotify ==>
      && !Fresh(b, e.callId)
      && (e.kind == EventAnswer ==> !Pending(b, e.callId))
      && (e.kind == EventRing ==> e.callee == user && (Pending(b, e.callId) ==> b.calls[e.callId].callee == user))
  }

  ghost predicate QueuesOk(b: Switchboard) {
    forall s, i :: s in b.reg.index && 0 <= i < |b.reg.index[s].notify| ==>
      EventOk(b, b.reg.index[s].username, b.reg.index[s].notify[i])
  }

  /** A pending call belongs to the one session that dialled it, and is offered only to its callee. */
  ghost predicate UiOk(b: Switchboard, s: SessionId, u: Ui) {
    && (u.callId == None <==> u.state == CallIdle)
    && (u.inPhone || u.state == CallIdle)
    && (u.callId.Some? ==>
          && !Fresh(b, u.callId.value)
          && (Pending(b, u.callId.value) ==>
                u.state == CallPending && Sids(b.calls[u.callId.value].participants) == [s]))
    && (u.incoming.Some? ==>
          && !Fresh(b, u.incoming.value)
          && (Pending(b, u.incoming.value) ==> b.calls[u.incoming.value].callee == u.username))
  }

  ghost predicate UisOk(b: Switchboard, ui: map<SessionId, Ui>) {
    forall s :: s in ui ==> UiOk(b, s, ui[s])
  }

  ghost predicate RecordOk(b: Switchboard, c: Chan, r: RingRecord) {
    && !Fresh(b, r.id)
    && (Pending(b, r.id) ==> b.calls[r.id].callee == r.callee)
  }

  ghost predicate RecordsOk(b: Switchboard, rings: map<Chan, RingRecord>) {
    forall c :: c in rings ==> RecordOk(b, c, rings[c])
  }

  /** A participant's session was minted by the registry, and bears that participant's name while registered. */
  ghost predicate SeatsOk(b: Switchboard) {
    forall id, p :: id in b.calls && p in b.calls[id].participants ==>
      p.sid <= b.reg.nextId && (p.sid in b.reg.index ==> b.reg.index[p.sid].username == p.username)
  }

  // ---- References survive every move of the table --------------------------------

  lemma EventsSurvive(b: Switchboard, b': Switchboard)
    requires Later(b, b') && b'.reg == b.reg && QueuesOk(b)
    ensures QueuesOk(b')
  {
    forall s, i | s in b.reg.index && 0 <= i < |b.reg.index[s].notify|
      ensures EventOk(b', b.reg.index[s].username, b.reg.index[s].notify[i])
    {
      assert EventOk(b, b.reg.index[s].username, b.reg.index[s].notify[i]);
    }
  }

  lemma UisSurvive(b: Switchboard, b': Switchboard, ui: map<SessionId, Ui>)
    requires Later(b, b') && UisOk(b, ui)
    ensures UisOk(b', ui)
  {
    forall s | s in ui ensures UiOk(b', s, ui[s]) {
      assert UiOk(b, s, ui[s]);
    }
  }

  lemma RecordsSurvive(b: Switchboard, b': Switchboard, rings: map<Chan, RingRecord>)
    requires Later(b, b') && RecordsOk(b, rings)
    ensures RecordsOk(b', rings)
  {
    forall c | c in rings ensures RecordOk(b', c, rings[c]) {
      assert RecordOk(b, c, rings[c]);
    }
  }

  /** Deliveries keep the queues in order when each event delivered is. */
  lemma DeliveriesOk(b: Switchboard, reg: Presence, events: iset<PhoneEvent>, targets: set<SessionId>)
    requires QueuesOk(b) && Grown(b.reg, reg, events, targets)
    requires forall s, e :: s in targets && s in b.reg.index && e in events ==> EventOk(b, b.reg.index[s].username, e)
    ensures QueuesOk(b.(reg := reg))
  {
    var b' := b.(reg := reg);
    forall s, i | s in reg.index && 0 <= i < |reg.index[s].notify|
      ensures EventOk(b', reg.index[s].username, reg.index[s].notify[i])
    {
      assert GrownAt(b.reg.index[s], reg.index[s], events);
      if i < |b.reg.index[s].notify| {
        assert EventOk(b, b.reg.index[s].username, b.reg.index[s].notify[i]);
      } else {
        assert s in targets && EventOk(b, b.reg.index[s].username, reg.index[s].notify[i]);
      }
    }
  }

  /** `b'` is `b` moved on, with nothing but deliveries of `events` to the registry. */
  lemma MovedQueues(b: Switchboard, b': Switchboard, events: iset<PhoneEvent>, targets: set<SessionId>)
    requires Later(b, b') && QueuesOk(b) && Grown(b.reg, b'.reg, events, targets)
    requires forall s, e :: s in targets && s in b.reg.index && e in events ==> EventOk(b', b.reg.index[s].username, e)
    ensures QueuesOk(b')
  {
    var b1 := b'.(reg := b.reg);
    EventsSurvive(b, b1);
    DeliveriesOk(b1, b'.reg, events, targets);
    assert b1.(reg := b'.reg) == b';
  }

  lemma MovedSeats(b: Switchboard, b': Switchboard, events: iset<PhoneEvent>, targets: set<SessionId>)
    requires SeatsOk(b) && Grown(b.reg, b'.reg, events, targets)
    requires forall id :: id in b'.calls ==> id in b.calls
    requires forall id, p :: id in b'.calls && p in b'.calls[id].participants ==> p in b.calls[id].participants
    ensures SeatsOk(b')
  {
    forall id, p | id in b'.calls && p in b'.calls[id].participants
      ensures p.sid <= b'.reg.nextId && (p.sid in b'.reg.index ==> b'.reg.index[p.sid].username == p.username)
    {
      assert p in b.calls[id].participants;
      if p.sid in b.reg.index { assert GrownAt(b.reg.index[p.sid], b'.reg.index[p.sid], events); }
    }
  }

  // ---- Each method, as a move of the whole board ------------------------------------

  ghost predicate BoardOk(b: Switchboard) {
    Agree(b.reg) && Sound(b) && QueuesOk(b) && SeatsOk(b)
  }

  /** The same sessions are registered under the same names. */
  ghost predicate SamePeople(r: Presence, r': Presence) {
    && r'.accounts == r.accounts && r'.index.Keys == r.index.Keys && r'.nextId == r.nextId
    && (forall s :: s in r.index ==> r'.index[s].username == r.index[s].username)
  }

  ghost predicate Moves(b: Switchboard, b': Switchboard) {
    BoardOk(b') && Later(b, b') && SamePeople(b.reg, b'.reg)
  }

  lemma GrownPeople(r: Presence, r': Presence, events: iset<PhoneEvent>, targets: set<SessionId>)
    requires Grown(r, r', events, targets)
    ensures SamePeople(r, r')
  {
    forall s | s in r.index ensures r'.index[s].username == r.index[s].username {
      assert GrownAt(r.index[s], r'.index[s], events);
    }
  }

  /** The common case: the table moved without a new seat, and events were delivered. */
  lemma PlainMove(b: Switchboard, b': Switchboard, events: iset<PhoneEvent>, targets: set<SessionId>)
    requires BoardOk(b) && Sound(b') && Later(b, b') && Grown(b.reg, b'.reg, events, targets)
    requires forall s, e :: s in targets && s in b.reg.index && e in events ==> EventOk(b', b.reg.index[s].username, e)
    requires forall id :: id in b'.calls ==> id in b.calls
    requires forall id, p :: id in b'.calls && p in b'.calls[id].participants ==> p in b.calls[id].participants
    ensures Moves(b, b')
  {
    GrownAgrees(b.reg, b'.reg, events, targets);
    GrownPeople(b.reg, b'.reg, events, targets);
    MovedQueues(b, b', events, targets);
    MovedSeats(b, b', events, targets);
  }

  /** Nothing moved but the queues. */
  lemma DeliveryMove(b: Switchboard, reg: Presence, events: iset<PhoneEvent>, targets: set<SessionId>)
    requires BoardOk(b) && Grown(b.reg, reg, events, targets)
    requires forall s, e :: s in targets && s in b.reg.index && e in events ==> EventOk(b, b.reg.index[s].username, e)
    ensures Moves(b, b.(reg := reg))
  {
    hide Sound, QueuesOk, SeatsOk, Agree, Moves, Grown;
    SoundIgnoresRegistry(b, reg);
    PlainMove(b, b.(reg := reg), events, targets);
  }

  lemma TellMove(b: Switchboard, reg: Presence, kind: EventKind, id: CallId, targets: set<SessionId>)
    requires BoardOk(b) && Grown(b.reg, reg, About({kind}, id), targets)
    requires kind != EventRing && !Fresh(b, id) && (kind == EventAnswer ==> !Pending(b, id))
    ensures Moves(b, b.(reg := reg))
  {
    DeliveryMove(b, reg, About({kind}, id), targets);
  }

  lemma RingAllMoves(b: Switchboard, callee: Account, e: PhoneEvent)
    requires BoardOk(b) && e.kind == EventRing && EventOk(b, callee, e)
    ensures Moves(b, RingAll(b, callee, e))
  {
    FanOutGrows(b.reg, Ringable(b, callee), e, iset{e});
    DeliveryMove(b, RingAll(b, callee, e).reg, iset{e}, Ringable(b, callee));
  }

  lemma AdviseMoves(b: Switchboard, id: CallId, caller: Account, callee: Account)
    requires BoardOk(b) && id in b.calls
    ensures Moves(b, Advise(b, id, caller, callee))
  {
    var targets := AdviseTells(b, id, caller, callee);
    TellMove(b, Advise(b, id, caller, callee).reg, EventRinging, id, targets);
  }

  lemma MovesTwice(b: Switchboard, b1: Switchboard, b2: Switchboard)
    requires BoardOk(b) && Moves(b, b1) && Moves(b1, b2)
    ensures Moves(b, b2)
  {
    forall id | id in b2.calls && id in b.calls ensures id in b1.calls {
      assert DialStop(id) in b.chans.made;
    }
  }

  lemma DialMoves(b: Switchboard, id: CallId, sid: SessionId, caller: Account, callee: Account)
    requires BoardOk(b) && Fresh(b, id) && !EqualFold(caller, callee) && !BeingRung(b, callee)
    requires sid in b.reg.index && b.reg.index[sid].username == caller
    ensures Moves(b, PlaceDial(b, id, sid, caller, callee))
  {
    hide PlaceDial, RingAll, Sound, QueuesOk, SeatsOk, Agree, EqualFold, BeingRung, EventOk;
    var b' := PlaceDial(b, id, sid, caller, callee);
    var b1 := b'.(reg := b.reg);
    PlaceDialSound(b, id, sid, caller, callee);
    PlaceDialMoves(b, id, sid, caller, callee);
    PlaceDialTable(b, id, sid, caller, callee);
    SoundIgnoresRegistry(b', b.reg);
    EventsSurvive(b, b1);
    NewCallSeats(b, b1, id, Participant(caller, sid, b.chans.serial));
    NewCallRing(b1, id, caller, callee);
    RingAllMoves(b1, callee, PhoneEvent(EventRing, id, caller, callee));
    DialRingsAll(b, id, sid, caller, callee);
  }

  lemma NewCallRing(b: Switchboard, id: CallId, caller: Account, callee: Account)
    requires !Fresh(b, id) && id in b.calls && b.calls[id].callee == callee
    ensures EventOk(b, callee, PhoneEvent(EventRing, id, caller, callee))
  {
  }

  lemma DialRingsAll(b: Switchboard, id: CallId, sid: SessionId, caller: Account, callee: Account)
    ensures var b' := PlaceDial(b, id, sid, caller, callee);
            RingAll(b'.(reg := b.reg), callee, PhoneEvent(EventRing, id, caller, callee)) == b'
  {
    hide FanOut, Ringable;
    var b' := PlaceDial(b, id, sid, caller, callee);
    RingableIgnoresQueues(b'.(reg := b.reg), b.(calls := b'.calls, chans := b'.chans), callee);
  }

  lemma RingableIgnoresQueues(b: Switchboard, b': Switchboard, user: Account)
    requires b'.calls == b.calls && b'.reg.accounts == b.reg.accounts
    ensures Ringable(b', user) == Ringable(b, user)
  {
    assert forall s :: InCall(b', s) <==> InCall(b, s);
  }

  lemma NewCallSeats(b: Switchboard, b': Switchboard, id: CallId, p: Participant)
    requires SeatsOk(b) && b'.reg == b.reg && Agree(b.reg)
    requires p.sid in b.reg.index && b.reg.index[p.sid].username == p.username
    requires forall c :: c in b'.calls && c != id ==> c in b.calls && b'.calls[c] == b.calls[c]
    requires id in b'.calls && b'.calls[id].participants == [p]
    ensures SeatsOk(b')
  {
  }

  lemma AddMoves(b: Switchboard, id: CallId, caller: Account, callee: Account)
    requires BoardOk(b) && Active(b, id) && !BeingRung(b, callee)
    ensures Moves(b, PlaceAdd(b, id, caller, callee))
  {
    hide PlaceAdd, FanOut, Ringable, Advise, Sound, QueuesOk, SeatsOk, Agree, BeingRung, EventOk, Later;
    var b' := PlaceAdd(b, id, caller, callee);
    var b1 := b'.(reg := b.reg);
    var e := PhoneEvent(EventRing, id, caller, callee);
    PlaceAddSound(b, id, caller, callee);
    PlaceAddMoves(b, id, caller, callee);
    LaterIgnoresRegistry(b, b', b.reg);
    SoundIgnoresRegistry(b', b.reg);
    EventsSurvive(b, b1);
    SameSeatsOk(b, b1);
    LiveIsMade(b1, id);
    ActiveRing(b1, id, caller, callee);
    RingAllMoves(b1, callee, e);
    AdviseMoves(RingAll(b1, callee, e), id, caller, callee);
    AddRingsAll(b, id, caller, callee);
    MovesTwice(b1, RingAll(b1, callee, e), b');
  }

  lemma LaterIgnoresRegistry(b: Switchboard, b': Switchboard, reg: Presence)
    requires Later(b, b')
    ensures Later(b, b'.(reg := reg))
  {
  }

  lemma SameSeatsOk(b: Switchboard, b': Switchboard)
    requires SeatsOk(b) && b'.calls == b.calls && b'.reg == b.reg
    ensures SeatsOk(b')
  {
  }

  lemma ActiveRing(b: Switchboard, id: CallId, caller: Account, callee: Account)
    requires !Fresh(b, id) && Active(b, id)
    ensures EventOk(b, callee, PhoneEvent(EventRing, id, caller, callee))
  {
  }

  lemma AddRingsAll(b: Switchboard, id: CallId, caller: Account, callee: Account)
    requires id in b.calls
    ensures var b' := PlaceAdd(b, id, caller, callee);
            var b2 := RingAll(b'.(reg := b.reg), callee, PhoneEvent(EventRing, id, caller, callee));
            id in b2.calls && Advise(b2, id, caller, callee) == b'
  {
    hide FanOut, SendEach, Ringable, OthersByName;
    var b' := PlaceAdd(b, id, caller, callee);
    RingableIgnoresQueues(b'.(reg := b.reg), b.(calls := b'.calls, chans := b'.chans), callee);
  }

  lemma TickMoves(b: Switchboard, id: CallId, caller: Account, callee: Account, isAdd: bool)
    requires BoardOk(b) && !Fresh(b, id) && (Pending(b, id) ==> b.calls[id].callee == callee)
    ensures Moves(b, Tick(b, id, caller, callee, isAdd))
  {
    if id in b.calls {
      var e := PhoneEvent(EventRing, id, caller, callee);
      RingAllMoves(b, callee, e);
      if isAdd {
        AdviseMoves(RingAll(b, callee, e), id, caller, callee);
        MovesTwice(b, RingAll(b, callee, e), Tick(b, id, caller, callee, isAdd));
      }
    }
  }

  /** A newcomer takes a seat under its registered name. */
  lemma SeatedOk(b: Switchboard, b': Switchboard, id: CallId, p: Participant)
    requires SeatsOk(b) && id in b.calls && b'.reg == b.reg && Agree(b.reg)
    requires p.sid in b.reg.index && b.reg.index[p.sid].username == p.username
    requires b'.calls.Keys == b.calls.Keys && (forall c :: c in b.calls && c != id ==> b'.calls[c] == b.calls[c])
    requires b'.calls[id].participants == b.calls[id].participants + [p]
    ensures SeatsOk(b')
  {
    forall c, q | c in b'.calls && q in b'.calls[c].participants
      ensures q.sid <= b.reg.nextId && (q.sid in b.reg.index ==> b.reg.index[q.sid].username == q.username)
    {
      if q != p || c != id {
        assert q in b.calls[c].participants;
      }
    }
  }

  lemma AnswerBoardMoves(b: Switchboard, id: CallId, sid: SessionId, user: Account)
    requires BoardOk(b) && AnswerError(b, id, user) == None
    requires sid in b.reg.index && b.reg.index[sid].username == user
    ensures Moves(b, Answer(b, id, sid, user).0)
  {
    hide BoardOk, Moves, AnswerAdd, AnswerDial;
    AnswerSeated(b, id, sid, user);
    var b' := Answer(b, id, sid, user).0;
    var b1 := b'.(reg := b.reg);
    if b.calls[id].state == CallActive {
      AnswerAddDelivers(b, b1, id, sid, user);
    } else {
      AnswerDialDelivers(b, b1, id, sid, user);
    }
    FromDelivery(b, b1, b');
  }

  lemma FromDelivery(b: Switchboard, b1: Switchboard, b': Switchboard)
    requires Later(b, b1) && Moves(b1, b') && b1 == b'.(reg := b.reg)
    ensures Moves(b, b')
  {
    hide BoardOk;
  }

  /** The newcomer has a seat and nobody has been told yet. */
  lemma AnswerSeated(b: Switchboard, id: CallId, sid: SessionId, user: Account)
    requires BoardOk(b) && AnswerError(b, id, user) == None
    requires sid in b.reg.index && b.reg.index[sid].username == user
    ensures b.calls[id].participants != []
    ensures var b1 := Answer(b, id, sid, user).0.(reg := b.reg);
            BoardOk(b1) && Later(b, b1) && Active(b1, id) && !Fresh(b1, id)
  {
    hide Answer, OneRing, ChansExact, QueuesOk, SeatsOk, Agree;
    assert CallShape(b.calls[id]);
    var b' := Answer(b, id, sid, user).0;
    var b1 := b'.(reg := b.reg);
    AnswerMoves(b, id, sid, user);
    EventsSurvive(b, b1);
    SeatedOk(b, b1, id, Participant(user, sid, b.chans.serial));
    AnswerSound(b, id, sid, user);
    SoundIgnoresRegistry(b', b.reg);
    LiveIsMade(b1, id);
  }

  lemma AnswerSound(b: Switchboard, id: CallId, sid: SessionId, user: Account)
    requires Sound(b) && AnswerError(b, id, user) == None && b.calls[id].participants != []
    ensures Sound(Answer(b, id, sid, user).0)
  {
    hide Sound, AnswerAdd, AnswerDial;
    if b.calls[id].state == CallActive { AnswerAddSound(b, id, sid, user); } else { AnswerDialSound(b, id, sid, user); }
  }

  lemma AnswerAddDelivers(b: Switchboard, b1: Switchboard, id: CallId, sid: SessionId, user: Account)
    requires BoardOk(b1) && Active(b, id) && AddKey(id, user) in b.adds && !Fresh(b1, id) && Active(b1, id)
    requires b1 == AnswerAdd(b, id, sid, user).(reg := b.reg)
    ensures Moves(b1, AnswerAdd(b, id, sid, user))
  {
    hide BoardOk;
    var b' := AnswerAdd(b, id, sid, user);
    var targets := AnswerAddTells(b, id, sid, user);
    TellMove(b1, b'.reg, EventAnswer, id, targets);
    assert b1.(reg := b'.reg) == b';
  }

  lemma AnswerDialDelivers(b: Switchboard, b1: Switchboard, id: CallId, sid: SessionId, user: Account)
    requires BoardOk(b1) && Pending(b, id) && b.calls[id].participants != [] && !Fresh(b1, id) && Active(b1, id)
    requires b1 == AnswerDial(b, id, sid, user).(reg := b.reg)
    ensures Moves(b1, AnswerDial(b, id, sid, user))
  {
    hide BoardOk;
    var b' := AnswerDial(b, id, sid, user);
    var reg1 := AnswerDialTells(b, id, sid, user);
    var b2 := b1.(reg := reg1);
    TellMove(b1, reg1, EventAnswer, id, {b.calls[id].participants[0].sid});
    TellMove(b2, b'.reg, EventAnswerElsewhere, id, SessionsOf(b.reg, user) - {sid});
    assert b2.(reg := b'.reg) == b';
    MovesTwice(b1, b2, b');
  }

  lemma EndDialBoardMoves(b: Switchboard, id: CallId, e: PhoneEvent)
    requires BoardOk(b) && Pending(b, id) && e.callId == id && e.kind != EventRing && e.kind != EventAnswer
    ensures Moves(b, EndDial(b, id, e))
  {
    hide EndDial, OneRing, ChansExact, QueuesOk, SeatsOk, Agree, Grown;
    EndDialSound(b, id, e);
    EndDialMoves(b, id, e);
    EndDialTells(b, id, e);
    LiveIsMade(b, id);
    PlainMove(b, EndDial(b, id, e), About({e.kind}, id), Members(Sids(b.calls[id].participants)));
  }

  lemma RejectMoves(b: Switchboard, id: CallId, user: Account)
    requires BoardOk(b)
    ensures Moves(b, Reject(b, id, user).0)
  {
    hide OneRing, ChansExact, QueuesOk, SeatsOk, Agree, Grown, EndDial, SendEach;
    RejectSound(b, id, user);
    if Pending(b, id) {
      EndDialBoardMoves(b, id, PhoneEvent(EventReject, id, b.calls[id].caller, user));
    } else if id in b.calls {
      var e, sids := PhoneEvent(EventReject, id, "", user), Sids(b.calls[id].participants);
      LiveIsMade(b, id);
      SendEachGrows(b.reg, sids, e, About({EventReject}, id));
      PlainMove(b, Reject(b, id, user).0, About({EventReject}, id), Members(sids));
    }
  }

  lemma ReapMoves(b: Switchboard, user: Account)
    requires BoardOk(b)
    ensures Moves(b, Reap(b, user))
  {
    ReapSound(b, user);
    if Ringable(b, user) == {} {
      if exists id :: DialRings(b, id, user) {
        var id :| DialRings(b, id, user) && Reap(b, user) == EndDial(b, id, ReapEvent(b, id, b.calls[id].caller, user));
        EndDialBoardMoves(b, id, ReapEvent(b, id, b.calls[id].caller, user));
      } else if exists k :: AddRings(b, k, user) {
        var k :| AddRings(b, k, user) && Reap(b, user) == ReapAdd(b, k);
        ReapAddMoves(b, k);
      }
    }
  }

  lemma ReapAddMoves(b: Switchboard, k: AddKey)
    requires BoardOk(b) && k in b.adds && Sound(ReapAdd(b, k))
    ensures Moves(b, ReapAdd(b, k))
  {
    hide OneRing, ChansExact, QueuesOk, SeatsOk, Agree, Grown, SendEach;
    var e := ReapEvent(b, k.callId, b.adds[k].inviter, k.callee);
    var sids := Sids(b.calls[k.callId].participants);
    LiveIsMade(b, k.callId);
    SendEachGrows(b.reg, sids, e, About({e.kind}, k.callId));
    PlainMove(b, ReapAdd(b, k), About({e.kind}, k.callId), Members(sids));
  }

  lemma LeaveBoardMoves(b: Switchboard, id: CallId, sid: SessionId)
    requires BoardOk(b) && id in b.calls
    ensures Moves(b, Leave(b, id, sid))
  {
    hide OneRing, ChansExact, Leave;
    var b', ps := Leave(b, id, sid), b.calls[id].participants;
    var i := Find(ps, sid);
    LeaveSound(b, id, sid);
    var targets := LeaveTells(b, id, sid);
    LeaveNothing(b, id, sid);
    LiveIsMade(b, id);
    if i < |ps| {
      FindHits(ps, sid);
      LeaveMoves(b, id, sid);
      LeaveSeats(b, id, sid, i);
      PlainMove(b, b', About({EventHangup}, id), targets);
    }
  }

  lemma LeaveNothing(b: Switchboard, id: CallId, sid: SessionId)
    requires id in b.calls
    ensures Find(b.calls[id].participants, sid) == |b.calls[id].participants| ==> Leave(b, id, sid) == b
  {
  }

  lemma LiveIsMade(b: Switchboard, id: CallId)
    requires Sound(b) && id in b.calls
    ensures !Fresh(b, id)
  {
  }

  lemma FindHits(ps: seq<Participant>, sid: SessionId)
    ensures Find(ps, sid) < |ps| ==> sid in Sids(ps)
  {
    if Find(ps, sid) < |ps| { assert Sids(ps)[Find(ps, sid)] == sid; }
  }

  lemma LeaveSeats(b: Switchboard, id: CallId, sid: SessionId, i: nat)
    requires id in b.calls && i == Find(b.calls[id].participants, sid) < |b.calls[id].participants|
    ensures var b' := Leave(b, id, sid);
            && (forall c :: c in b'.calls ==> c in b.calls)
            && (forall c, p :: c in b'.calls && p in b'.calls[c].participants ==> p in b.calls[c].participants)
  {
    LeaveTable(b, id, sid, i);
  }

  lemma CancelMoves(b: Switchboard, id: CallId, callee: Account, caller: Account)
    requires BoardOk(b) && !Fresh(b, id)
    ensures Moves(b, CancelAdd(b, id, callee, caller))
  {
    hide Sound, QueuesOk, SeatsOk, Agree, Grown, SendEach, FanOut;
    CancelAddSound(b, id, callee, caller);
    var targets := CancelAddTells(b, id, callee, caller);
    PlainMove(b, CancelAdd(b, id, callee, caller), About({EventHangup}, id), targets);
  }

  // ---- The invariant, and every step ---------------------------------------------------

  /** The registered sessions are those whose program runs or is leaving. */
  ghost predicate Present(w: World) {
    && w.board.reg.index.Keys == w.ui.Keys + w.leaving
    && w.ui.Keys !! w.leaving
    && (forall s :: s in w.ui ==> w.ui[s].username == w.board.reg.index[s].username)
    && (forall s :: s in w.reaping ==> s !in w.board.reg.index && s <= w.board.reg.nextId)
  }

  /** What admission found still stands when the admitted Dial or Add goes on. */
  ghost predicate GateOk(w: World) {
    match w.gate
    case None => true
    case Some(CheckGate(s, callee, into)) =>
      && s in w.ui && w.ui[s].state == (if into.Some? then CallActive else CallIdle)
      && (into.Some? ==> w.ui[s].callId == into && Active(w.board, into.value))
      && !EqualFold(w.ui[s].username, callee) && !BeingRung(w.board, callee)
    case Some(DialGate(s, callee)) =>
      && s in w.ui && w.ui[s].state == CallIdle
      && !EqualFold(w.ui[s].username, callee) && !BeingRung(w.board, callee)
    case Some(AddGate(s, id, callee)) =>
      && s in w.ui && w.ui[s].state == CallActive && w.ui[s].callId == Some(id)
      && Active(w.board, id) && !BeingRung(w.board, callee)
  }

  ghost predicate Core(w: World) {
    BoardOk(w.board) && Present(w) && UisOk(w.board, w.ui) && RecordsOk(w.board, w.rings) && GateOk(w)
  }

  lemma SettleOk(b: Switchboard, rings: map<Chan, RingRecord>, board: Switchboard, outcome: Outcome)
    requires RecordsOk(b, rings)
    ensures RecordsOk(b, Settle(rings, board, outcome))
  {
    forall c | c in rings ensures RecordOk(b, c, Settle(rings, board, outcome)[c]) {
      assert RecordOk(b, c, rings[c]);
    }
  }

  lemma BoardStep(w: World, b': Switchboard, outcome: Outcome)
    requires Core(w) && w.gate == None && Moves(w.board, b')
    ensures Core(SetBoard(w, b', outcome)) && Core(w.(board := b'))
  {
    UisSurvive(w.board, b', w.ui);
    RecordsSurvive(w.board, b', w.rings);
    SettleOk(b', w.rings, b', outcome);
  }

  lemma UiStep(w: World, s: SessionId, u: Ui)
    requires Core(w) && s in w.ui && u.username == w.ui[s].username && UiOk(w.board, s, u)
    requires w.gate != None && w.gate.value.sid == s ==> u.state == w.ui[s].state && u.callId == w.ui[s].callId
    ensures Core(SetUi(w, s, u))
  {
    hide BoardOk, RecordsOk, BeingRung, EqualFold, UiOk;
  }

  lemma LeaveStep(w: World, id: CallId, s: SessionId, outcome: Outcome)
    requires Core(w) && w.gate == None
    ensures Core(LeaveCall(w, id, s, outcome))
    ensures LeaveCall(w, id, s, outcome).ui == w.ui && LeaveCall(w, id, s, outcome).gate == None
  {
    hide Leave, BoardOk, UisOk, RecordsOk, Moves, Settle;
    if id in w.board.calls {
      LeaveBoardMoves(w.board, id, s);
      BoardStep(w, Leave(w.board, id, s), outcome);
    }
  }

  /** Only the registry changed, and the sessions that run with it. */
  lemma RegistryStep(w: World, w': World)
    requires Core(w) && w' == w.(board := w.board.(reg := w'.board.reg), ui := w'.ui, leaving := w'.leaving, reaping := w'.reaping)
    requires Agree(w'.board.reg) && QueuesOk(w'.board) && SeatsOk(w'.board) && Present(w')
    requires UisOk(w.board, w'.ui)
    requires forall s :: s in w.ui ==> s in w'.ui && w'.ui[s] == w.ui[s]
    ensures Core(w')
  {
    SoundIgnoresRegistry(w.board, w'.board.reg);
    RegistryOnlyUis(w.board, w'.board, w'.ui);
    RegistryOnlyRecords(w.board, w'.board, w.rings);
    RegistryOnlyGate(w, w');
  }

  lemma RegistryOnlyGate(w: World, w': World)
    requires GateOk(w) && w'.gate == w.gate && w'.board.calls == w.board.calls && w'.board.adds == w.board.adds
    requires forall s :: s in w.ui ==> s in w'.ui && w'.ui[s] == w.ui[s]
    ensures GateOk(w')
  {
    RegistryOnlyRings(w.board, w'.board);
  }

  lemma RegistryOnlyRecords(b: Switchboard, b': Switchboard, rings: map<Chan, RingRecord>)
    requires RecordsOk(b, rings) && b'.calls == b.calls && b'.chans == b.chans
    ensures RecordsOk(b', rings)
  {
    forall c | c in rings ensures RecordOk(b', c, rings[c]) {
      assert RecordOk(b, c, rings[c]);
    }
  }

  lemma RegistryOnlyQueues(b: Switchboard, b': Switchboard)
    requires QueuesOk(b) && b'.calls == b.calls && b'.chans == b.chans
    requires forall s :: s in b'.reg.index && b'.reg.index[s].notify != [] ==> s in b.reg.index && b'.reg.index[s] == b.reg.index[s]
    ensures QueuesOk(b')
  {
    forall s, i | s in b'.reg.index && 0 <= i < |b'.reg.index[s].notify|
      ensures EventOk(b', b'.reg.index[s].username, b'.reg.index[s].notify[i])
    {
      assert EventOk(b, b.reg.index[s].username, b.reg.index[s].notify[i]);
    }
  }

  lemma ConnectCore(w: World, username: Account, role: string, visible: bool)
    requires Core(w)
    ensures Core(ApplyConnect(w, username, role, visible))
  {
    hide Sound, QueuesOk, SeatsOk, RecordsOk, Agree, GateOk, UiOk;
    var w', sid := ApplyConnect(w, username, role, visible), w.board.reg.nextId + 1;
    RegisterAgrees(w.board.reg, username, role, visible, "LOBBY");
    RegistryOnlyQueues(w.board, w'.board);
    LobbyOk(w.board, sid, username);
    ConnectPresent(w, username, role, visible);
    RegistryStep(w, w');
  }

  lemma LobbyOk(b: Switchboard, sid: SessionId, username: Account)
    ensures UiOk(b, sid, LobbyUi(username)) && UiOk(b, sid, LobbyUi(username).(inPhone := true))
  {
  }

  lemma ConnectPresent(w: World, username: Account, role: string, visible: bool)
    requires Agree(w.board.reg) && Present(w) && SeatsOk(w.board)
    ensures Present(ApplyConnect(w, username, role, visible))
    ensures SeatsOk(ApplyConnect(w, username, role, visible).board)
    ensures forall s :: s in w.ui ==> s != w.board.reg.nextId + 1
  {
    hide Present, SeatsOk, ApplyConnect, Register, Agree;
    ConnectSeats(w, username, role, visible);
    ConnectSessions(w, username, role, visible);
  }

  lemma ConnectSeats(w: World, username: Account, role: string, visible: bool)
    requires SeatsOk(w.board)
    ensures SeatsOk(ApplyConnect(w, username, role, visible).board)
  {
  }

  lemma ConnectSessions(w: World, username: Account, role: string, visible: bool)
    requires Agree(w.board.reg) && Present(w)
    ensures Present(ApplyConnect(w, username, role, visible))
    ensures forall s :: s in w.ui ==> s != w.board.reg.nextId + 1
  {
    hide Present, Register, Agree;
    NextIsNew(w.board.reg);
    RegisterIndex(w.board.reg, username, role, visible);
    Joins(w, ApplyConnect(w, username, role, visible), w.board.reg.nextId + 1, username);
  }

  /** One session more is registered, and its program runs. */
  lemma Joins(w: World, w': World, sid: SessionId, username: Account)
    requires Present(w) && sid !in w.board.reg.index && w.board.reg.nextId < sid
    requires w'.board.reg.index == w.board.reg.index[sid := Session(username, [], false)] && w'.board.reg.nextId == sid
    requires w'.ui == w.ui[sid := LobbyUi(username)] && w'.leaving == w.leaving && w'.reaping == w.reaping
    ensures Present(w') && sid !in w.ui
  {
  }

  lemma NextIsNew(r: Presence)
    requires Agree(r)
    ensures r.nextId + 1 !in r.index
  {
  }

  lemma RegisterIndex(r: Presence, username: Account, role: string, visible: bool)
    ensures var r' := Register(r, username, role, visible, "LOBBY");
            r'.index == r.index[r.nextId + 1 := Session(username, [], false)] && r'.nextId == r.nextId + 1
  {
  }

  lemma RegistryOnlyUis(b: Switchboard, b': Switchboard, ui: map<SessionId, Ui>)
    requires UisOk(b, ui) && b'.calls == b.calls && b'.chans == b.chans
    ensures UisOk(b', ui)
  {
    forall s | s in ui ensures UiOk(b', s, ui[s]) {
      assert UiOk(b, s, ui[s]);
    }
  }

  lemma RegistryOnlyRings(b: Switchboard, b': Switchboard)
    requires b'.calls == b.calls && b'.adds == b.adds
    ensures forall u :: BeingRung(b', u) <==> BeingRung(b, u)
  {
    forall u ensures BeingRung(b', u) <==> BeingRung(b, u) {
      assert forall id :: DialRings(b', id, u) <==> DialRings(b, id, u);
      assert forall k :: AddRings(b', k, u) <==> AddRings(b, k, u);
    }
  }

  lemma UnregisterCore(w: World, sid: SessionId)
    requires Core(w)
    ensures Core(ApplyUnregister(w, sid))
  {
    if sid in w.leaving && sid in w.board.reg.index {
      var w' := ApplyUnregister(w, sid);
      UnregisterAgrees(w.board.reg, sid);
      RegistryOnlyQueues(w.board, w'.board);
      UnregisterPresent(w, sid);
      RegistryStep(w, w');
    }
  }

  lemma UnregisterPresent(w: World, sid: SessionId)
    requires Present(w) && SeatsOk(w.board) && sid in w.leaving && sid in w.board.reg.index && sid <= w.board.reg.nextId
    ensures Present(ApplyUnregister(w, sid)) && SeatsOk(ApplyUnregister(w, sid).board)
  {
    UnregisterIndex(w.board.reg, sid);
    hide Unregister;
    FewerSeatsOk(w.board, ApplyUnregister(w, sid).board);
    hide SeatsOk;
  }

  lemma UnregisterIndex(r: Presence, sid: SessionId)
    requires sid in r.index
    ensures Unregister(r, sid).index == r.index - {sid} && Unregister(r, sid).nextId == r.nextId
  {
  }

  lemma FewerSeatsOk(b: Switchboard, b': Switchboard)
    requires SeatsOk(b) && b'.calls == b.calls && b'.reg.nextId == b.reg.nextId
    requires forall s :: s in b'.reg.index ==> s in b.reg.index && b'.reg.index[s] == b.reg.index[s]
    ensures SeatsOk(b')
  {
  }

  lemma TeardownHangupCore(w: World, sid: SessionId, pick: Option<CallId>)
    requires Core(w)
    ensures Core(ApplyTeardownHangup(w, sid, pick))
  {
    if Acts(w, sid) && Picks(w.board, sid, pick) {
      var w1 := match pick case None => w case Some(id) => LeaveCall(w, id, sid, TornDown);
      if pick.Some? { LeaveStep(w, pick.value, sid, TornDown); }
      StopStep(w1, sid);
    }
  }

  lemma StopStep(w: World, sid: SessionId)
    requires Core(w) && Acts(w, sid)
    ensures Core(w.(ui := w.ui - {sid}, leaving := w.leaving + {sid}))
  {
  }

  lemma ReapCore(w: World, sid: SessionId)
    requires Core(w)
    ensures Core(ApplyReap(w, sid))
  {
    if sid in w.reaping && w.gate == None {
      ReapMoves(w.board, w.reaping[sid]);
      BoardStep(w, Reap(w.board, w.reaping[sid]), Reaped);
    }
  }

  lemma CommitCore(w: World, id: CallId)
    requires Core(w)
    ensures Core(ApplyCommit(w, id))
  {
    match w.gate
    case Some(DialGate(s, callee)) =>
      if Fresh(w.board, id) { CommitDialCore(w, id, s, callee); }
    case Some(AddGate(s, call, callee)) =>
      CommitAddCore(w, id, s, call, callee);
    case _ =>
  }

  /** The admitted ring goes on: the board moves, the record is made, the lock is released. */
  lemma CommitStep(w: World, b': Switchboard, stop: Chan, r: RingRecord)
    requires Core(w) && Moves(w.board, b') && RecordOk(b', stop, r)
    ensures Core(w.(board := b', gate := None, rings := w.rings[stop := r]))
  {
    UisSurvive(w.board, b', w.ui);
    RecordsSurvive(w.board, b', w.rings);
  }

  lemma CommitDialCore(w: World, id: CallId, s: SessionId, callee: Account)
    requires Core(w) && w.gate == Some(DialGate(s, callee)) && Fresh(w.board, id)
    ensures Core(ApplyCommit(w, id))
  {
    var u, b' := w.ui[s], PlaceDial(w.board, id, s, w.ui[s].username, callee);
    DialMoves(w.board, id, s, u.username, callee);
    PlaceDialMoves(w.board, id, s, u.username, callee);
    var r := RingRecord(id, u.username, callee, false, Outstanding);
    CommitStep(w, b', DialStop(id), r);
    assert UiOk(w.board, s, u);
    DialedOk(w.board, b', id, s, u, callee);
    UiStep(w.(board := b', gate := None, rings := w.rings[DialStop(id) := r]), s, Dialed(u, id, callee));
  }

  lemma DialedOk(b: Switchboard, b': Switchboard, id: CallId, s: SessionId, u: Ui, callee: Account)
    requires UiOk(b, s, u) && Fresh(b, id) && Later(b, b') && !Fresh(b', id)
    requires id in b'.calls && Sids(b'.calls[id].participants) == [s]
    ensures UiOk(b', s, Dialed(u, id, callee))
  {
  }

  lemma CommitAddCore(w: World, id: CallId, s: SessionId, call: CallId, callee: Account)
    requires Core(w) && w.gate == Some(AddGate(s, call, callee))
    ensures Core(ApplyCommit(w, id))
  {
    var u, b' := w.ui[s], PlaceAdd(w.board, call, w.ui[s].username, callee);
    AddMoves(w.board, call, u.username, callee);
    PlaceAddMoves(w.board, call, u.username, callee);
    var stop := AddStop(AddKey(call, callee), w.board.chans.serial);
    var r := RingRecord(call, u.username, callee, true, Outstanding);
    CommitStep(w, b', stop, r);
    var w1 := w.(board := b', gate := None, rings := w.rings[stop := r]);
    assert UiOk(w1.board, s, u);
    UiStep(w1, s, u.(addTarget := Some(callee)));
  }

  /** ANSWER as the key's session and the table see it. */
  lemma AnswerOutcome(w: World, sid: SessionId)
    requires Acts(w, sid) && w.ui[sid].incoming.Some? && w.ui[sid].state != CallPending
    requires var id := w.ui[sid].incoming.value; id in w.board.calls ==> w.board.calls[id].participants != []
    ensures var u, id, w' := w.ui[sid], w.ui[sid].incoming.value, ApplyAnswer(w, sid);
            if AnswerError(w.board, id, u.username) != None
            then w' == SetUi(w, sid, AnswerFailed(u)) && Answer(w.board, id, sid, u.username).0 == w.board
            else
              && w'.board == Answer(w.board, id, sid, u.username).0
              && w'.rings == Settle(w.rings, w'.board, Accepted)
              && w'.ui == w.ui[sid := Answered(u, id, if id in w'.board.calls then Names(w'.board.calls[id].participants) else [])]
              && w'.departed == w.departed && w'.gate == w.gate
              && w'.misused == if u.state == CallIdle then w.misused else w.misused + {sid}
  {
    hide AnswerDial, AnswerAdd, AnswerError, Answered, AnswerFailed, Settle, Names;
    var id, user := w.ui[sid].incoming.value, w.ui[sid].username;
    AnswerResult(w.board, id, sid, user);
    match Answer(w.board, id, sid, user)
    case (b, Some(e)) =>
      assert ApplyAnswer(w, sid).board == w.board;
    case (b, None) =>
      assert ApplyAnswer(w, sid).board == b;
  }

  lemma AnswerIdle(w: World, sid: SessionId)
    requires !Acts(w, sid) || w.ui[sid].incoming == None || w.ui[sid].state == CallPending
    ensures ApplyAnswer(w, sid) == w
  {
  }

  lemma AnswerCore(w: World, sid: SessionId)
    requires Core(w)
    ensures Core(ApplyAnswer(w, sid))
  {
    if Acts(w, sid) && w.ui[sid].incoming.Some? && w.ui[sid].state != CallPending {
      hide Answered, AnswerFailed, AnswerDial, AnswerAdd, OneRing, ChansExact, QueuesOk, RecordsOk, SeatsOk;
      var u, id := w.ui[sid], w.ui[sid].incoming.value;
      assert UiOk(w.board, sid, u);
      if AnswerError(w.board, id, u.username) == None {
        AnswerBoardMoves(w.board, id, sid, u.username);
        AnswerMoves(w.board, id, sid, u.username);
        AnsweredOk(w.board, id, sid, u);
        AnswerStep(w, sid, id);
      } else {
        AnswerFailedOk(w.board, sid, u);
        UiStep(w, sid, AnswerFailed(u));
      }
    }
  }

  lemma AnsweredOk(b: Switchboard, id: CallId, sid: SessionId, u: Ui)
    requires UiOk(b, sid, u) && u.incoming == Some(id) && id in b.calls && b.calls[id].participants != []
    requires var b' := Answer(b, id, sid, u.username).0; Later(b, b') && Active(b', id)
    ensures var b' := Answer(b, id, sid, u.username).0; UiOk(b', sid, Answered(u, id, Names(b'.calls[id].participants)))
  {
    hide Answer;
  }

  lemma AnswerFailedOk(b: Switchboard, sid: SessionId, u: Ui)
    requires UiOk(b, sid, u)
    ensures UiOk(b, sid, AnswerFailed(u)) && AnswerFailed(u).username == u.username
    ensures AnswerFailed(u).state == u.state && AnswerFailed(u).callId == u.callId
  {
  }

  lemma AnswerStep(w: World, sid: SessionId, id: CallId)
    requires Core(w) && Acts(w, sid) && w.ui[sid].incoming == Some(id) && w.ui[sid].state != CallPending
    requires AnswerError(w.board, id, w.ui[sid].username) == None && w.board.calls[id].participants != []
    requires var b' := Answer(w.board, id, sid, w.ui[sid].username).0;
             Moves(w.board, b') && id in b'.calls && UiOk(b', sid, Answered(w.ui[sid], id, Names(b'.calls[id].participants)))
    ensures Core(ApplyAnswer(w, sid))
  {
    hide Core, UiOk, Moves, Answered, AnswerDial, AnswerAdd, Settle;
    var b' := Answer(w.board, id, sid, w.ui[sid].username).0;
    var u' := Answered(w.ui[sid], id, Names(b'.calls[id].participants));
    BoardStep(w, b', Accepted);
    AnsweredName(w.ui[sid], id, Names(b'.calls[id].participants));
    UiStep(SetBoard(w, b', Accepted), sid, u');
    MisuseStep(SetUi(SetBoard(w, b', Accepted), sid, u'), w.misused + {sid});
  }

  lemma AnsweredName(u: Ui, id: CallId, everyone: seq<Account>)
    ensures Answered(u, id, everyone).username == u.username
  {
  }

  lemma MisuseStep(w: World, misused: set<SessionId>)
    requires Core(w)
    ensures Core(w.(misused := misused))
  {
  }

  lemma RejectCore(w: World, sid: SessionId)
    requires Core(w)
    ensures Core(ApplyReject(w, sid))
  {
    hide Sound, QueuesOk, SeatsOk, Agree, Reject, Settle, UiOk, GateOk, AnswerFailed, Later;
    if Acts(w, sid) && w.ui[sid].incoming.Some? && w.ui[sid].state != CallPending {
      var u, id := w.ui[sid], w.ui[sid].incoming.value;
      var b' := Reject(w.board, id, u.username).0;
      RejectMoves(w.board, id, u.username);
      BoardStep(w, b', Declined);
      assert UiOk(b', sid, u);
      AnswerFailedOk(b', sid, u);
      UiStep(SetBoard(w, b', Declined), sid, AnswerFailed(u));
    }
  }

  lemma HangupCore(w: World, sid: SessionId)
    requires Core(w)
    ensures Core(ApplyHangup(w, sid)) && Core(ApplyExit(w, sid))
  {
    hide BoardOk, UisOk, RecordsOk, Present, GateOk, UiOk, LeaveCall;
    if Acts(w, sid) {
      var u := w.ui[sid];
      if u.callId.Some? {
        var w1 := LeaveCall(w, u.callId.value, sid, Cancelled);
        LeaveStep(w, u.callId.value, sid, Cancelled);
        IdleOk(w1.board, sid, u);
        UiStep(w1, sid, GoIdle(u));
        UiStep(w1, sid, LobbyUi(u.username));
      } else {
        IdleOk(w.board, sid, u);
        UiStep(w, sid, LobbyUi(u.username));
      }
    }
  }

  lemma IdleOk(b: Switchboard, sid: SessionId, u: Ui)
    ensures UiOk(b, sid, GoIdle(u)) && UiOk(b, sid, LobbyUi(u.username))
  {
  }

  lemma CancelCore(w: World, sid: SessionId)
    requires Core(w)
    ensures Core(ApplyCancel(w, sid))
  {
    hide Sound, QueuesOk, SeatsOk, Agree, CancelAdd, Settle, UiOk, GateOk, Later;
    if ApplyCancel(w, sid) != w {
      var u := w.ui[sid];
      assert UiOk(w.board, sid, u);
      InCallIsMade(w.board, sid, u);
      var b' := CancelAdd(w.board, u.callId.value, u.addTarget.value, u.username);
      CancelMoves(w.board, u.callId.value, u.addTarget.value, u.username);
      BoardStep(w, b', Cancelled);
      assert UiOk(b', sid, u);
      NoTargetOk(b', sid, u);
      UiStep(SetBoard(w, b', Cancelled), sid, u.(addTarget := None));
    }
  }

  lemma InCallIsMade(b: Switchboard, sid: SessionId, u: Ui)
    requires UiOk(b, sid, u) && u.callId.Some?
    ensures !Fresh(b, u.callId.value)
  {
  }

  lemma NoTargetOk(b: Switchboard, sid: SessionId, u: Ui)
    requires UiOk(b, sid, u)
    ensures UiOk(b, sid, u.(addTarget := None))
  {
  }

  /** Handling an event keeps the model's references in order. */
  lemma HandleOk(b: Switchboard, s: SessionId, u: Ui, e: PhoneEvent)
    requires UiOk(b, s, u) && EventOk(b, u.username, e)
    ensures UiOk(b, s, Handle(u, e).0) && Handle(u, e).0.username == u.username
  {
  }

  lemma ReceiveOk(w: World, sid: SessionId)
    requires Core(w) && sid in w.board.reg.index && w.board.reg.index[sid].notify != []
    ensures Core(w.(board := w.board.(reg := Receive(w.board.reg, sid))))
  {
    hide Sound, UisOk, RecordsOk, QueuesOk, GateOk, SeatsOk, Present, Agree, Receive;
    ReceiveQueues(w.board, sid);
    ReceivePeople(w, sid);
    RegistryStep(w, w.(board := w.board.(reg := Receive(w.board.reg, sid))));
  }

  lemma ReceivePeople(w: World, sid: SessionId)
    requires Agree(w.board.reg) && SeatsOk(w.board) && Present(w) && sid in w.board.reg.index && w.board.reg.index[sid].notify != []
    ensures var w' := w.(board := w.board.(reg := Receive(w.board.reg, sid)));
            Agree(w'.board.reg) && SeatsOk(w'.board) && Present(w')
  {
    ReceiveAgree(w.board.reg, sid);
    hide Agree;
    var r, r' := w.board.reg, Receive(w.board.reg, sid);
    assert r'.index.Keys == r.index.Keys && r'.nextId == r.nextId;
    assert forall s :: s in r.index ==> r'.index[s].username == r.index[s].username;
    hide Receive;
    SamePeopleSeats(w.board, w.board.(reg := r'));
  }

  lemma ReceiveAgree(r: Presence, sid: SessionId)
    requires Agree(r) && sid in r.index && r.index[sid].notify != []
    ensures Agree(Receive(r, sid))
  {
    hide SessionsOf;
  }

  lemma SamePeopleSeats(b: Switchboard, b': Switchboard)
    requires SeatsOk(b) && b'.calls == b.calls && b'.reg.nextId == b.reg.nextId && b'.reg.index.Keys == b.reg.index.Keys
    requires forall s :: s in b.reg.index ==> b'.reg.index[s].username == b.reg.index[s].username
    ensures SeatsOk(b')
  {
  }

  lemma ReceiveQueues(b: Switchboard, sid: SessionId)
    requires QueuesOk(b) && sid in b.reg.index && b.reg.index[sid].notify != []
    ensures QueuesOk(b.(reg := Receive(b.reg, sid)))
  {
    var b' := b.(reg := Receive(b.reg, sid));
    forall s, i | s in b'.reg.index && 0 <= i < |b'.reg.index[s].notify|
      ensures EventOk(b', b'.reg.index[s].username, b'.reg.index[s].notify[i])
    {
      var j := if s == sid then i + 1 else i;
      assert b'.reg.index[s].notify[i] == b.reg.index[s].notify[j];
      assert EventOk(b, b.reg.index[s].username, b.reg.index[s].notify[j]);
    }
  }

  lemma ConsumeCore(w: World, sid: SessionId)
    requires Core(w)
    ensures Core(ApplyConsume(w, sid))
  {
    hide Handle, Sound, QueuesOk, UisOk, RecordsOk, SeatsOk, LeaveCall;
    if sid in w.ui && w.board.reg.index[sid].notify != [] {
      var (u', hangsUp) := Handle(w.ui[sid], w.board.reg.index[sid].notify[0]);
      ReceiveOk(w, sid);
      HeadOk(w, sid);
      HangsUpIdle(w.ui[sid], w.board.reg.index[sid].notify[0]);
      if w.gate == None || (!hangsUp && w.gate.value.sid != sid) {
        HandledStep(w.(board := w.board.(reg := Receive(w.board.reg, sid))), sid, u', hangsUp);
      }
    }
  }

  lemma HangsUpIdle(u: Ui, e: PhoneEvent)
    ensures var (u', hangsUp) := Handle(u, e); hangsUp ==> u'.state == CallIdle && u'.callId == None && u'.incoming == None
  {
  }

  lemma HeadOk(w: World, sid: SessionId)
    requires QueuesOk(w.board) && UisOk(w.board, w.ui) && Present(w)
    requires sid in w.ui && w.board.reg.index[sid].notify != []
    ensures UiOk(w.board.(reg := Receive(w.board.reg, sid)), sid, Handle(w.ui[sid], w.board.reg.index[sid].notify[0]).0)
    ensures Handle(w.ui[sid], w.board.reg.index[sid].notify[0]).0.username == w.ui[sid].username
  {
    assert EventOk(w.board, w.ui[sid].username, w.board.reg.index[sid].notify[0]) && UiOk(w.board, sid, w.ui[sid]);
    HandleOk(w.board, sid, w.ui[sid], w.board.reg.index[sid].notify[0]);
  }

  lemma HandledStep(w: World, sid: SessionId, u': Ui, hangsUp: bool)
    requires Core(w) && sid in w.ui && UiOk(w.board, sid, u') && u'.username == w.ui[sid].username
    requires w.gate == None || (!hangsUp && w.gate.value.sid != sid)
    requires hangsUp ==> u'.state == CallIdle && u'.callId == None && u'.incoming == None
    ensures var callId := w.ui[sid].callId;
            Core(SetUi(if hangsUp && callId.Some? then LeaveCall(w, callId.value, sid, Cancelled) else w, sid, u'))
  {
    var callId := w.ui[sid].callId;
    if hangsUp && callId.Some? {
      LeaveStep(w, callId.value, sid, Cancelled);
      UiStep(LeaveCall(w, callId.value, sid, Cancelled), sid, u');
    } else {
      UiStep(w, sid, u');
    }
  }

  lemma TickCore(w: World, stop: Chan)
    requires Core(w)
    ensures Core(ApplyTick(w, stop))
  {
    if stop in w.rings && w.gate == None {
      var r := w.rings[stop];
      assert RecordOk(w.board, stop, r);
      TickMoves(w.board, r.id, r.caller, r.callee, r.isAdd);
      BoardStep(w, Tick(w.board, r.id, r.caller, r.callee, r.isAdd), Reaped);
    }
  }

  lemma NotifyCore(w: World, e: PhoneEvent)
    requires Core(w)
    ensures Core(ApplyNotify(w, e))
  {
    hide Sound, UisOk, RecordsOk, QueuesOk, SeatsOk, Grown, AdminSessions, FanOut;
    if e.kind == EventAdminNotify {
      var reg := FanOut(w.board.reg, AdminSessions(w.board.reg), e);
      FanOutGrows(w.board.reg, AdminSessions(w.board.reg), e, iset{e});
      DeliveryMove(w.board, reg, iset{e}, AdminSessions(w.board.reg));
      RegistryStep(w, w.(board := w.board.(reg := reg)));
    }
  }

  lemma GateStep(w: World, gate: Gate)
    requires Core(w) && GateOk(w.(gate := Some(gate)))
    ensures Core(w.(gate := Some(gate)))
  {
  }

  lemma RingCore(w: World, sid: SessionId, target: Account)
    requires Core(w)
    ensures Core(ApplyRing(w, sid, target))
  {
    hide Sound, QueuesOk, UisOk, RecordsOk, SeatsOk, Present, EqualFold, BeingRung;
    if ApplyRing(w, sid, target) != w {
      var u := w.ui[sid];
      GateStep(w, CheckGate(sid, target, if u.state == CallIdle then None else u.callId));
    }
  }

  lemma RecheckCore(w: World)
    requires Core(w)
    ensures Core(ApplyRecheck(w))
  {
    hide Sound, QueuesOk, UisOk, RecordsOk, SeatsOk, Present, EqualFold, BeingRung, Ringable;
    match w.gate
    case Some(CheckGate(sid, callee, into)) =>
      if Ringable(w.board, callee) == {} { GateDrop(w); }
      else { GateStep(w, if into.Some? then AddGate(sid, into.value, callee) else DialGate(sid, callee)); }
    case _ =>
  }

  lemma GateDrop(w: World)
    requires Core(w)
    ensures Core(w.(gate := None))
  {
  }

  lemma EnterCore(w: World, sid: SessionId)
    requires Core(w)
    ensures Core(ApplyEnter(w, sid))
  {
    hide BoardOk, UisOk, RecordsOk, UiOk;
    if ApplyEnter(w, sid) != w {
      LobbyOk(w.board, sid, w.ui[sid].username);
      UiStep(w, sid, LobbyUi(w.ui[sid].username).(inPhone := true));
    }
  }

  lemma TypeCore(w: World, sid: SessionId)
    requires Core(w)
    ensures Core(ApplyType(w, sid))
  {
    hide Sound, QueuesOk, SeatsOk, Agree, UisOk, RecordsOk, Present, GateOk, Broadcast;
    if Acts(w, sid) && w.ui[sid].callId.Some? {
      BroadcastSound(w.board, w.ui[sid].callId.value, w.ui[sid].username);
    }
  }

  lemma StepCore(w: World, step: Step)
    requires Core(w)
    ensures Core(Apply(w, step))
  {
    hide Core, ApplyConnect, ApplyTeardownHangup, ApplyUnregister, ApplyReap, ApplyCommit, ApplyAnswer, ApplyReject,
         ApplyHangup, ApplyExit, ApplyCancel, ApplyType, ApplyConsume, ApplyTick, ApplyRing, ApplyRecheck, ApplyEnter,
         ApplyNotify;
    match step
    case Connect(username, role, visible) => ConnectCore(w, username, role, visible);
    case TeardownHangup(sid, pick) => TeardownHangupCore(w, sid, pick);
    case TeardownUnregister(sid) => UnregisterCore(w, sid);
    case TeardownReap(sid) => ReapCore(w, sid);
    case EnterPhone(sid) => EnterCore(w, sid);
    case Ring(sid, target) => RingCore(w, sid, target);
    case Recheck => RecheckCore(w);
    case Commit(id) => CommitCore(w, id);
    case AnswerKey(sid) => AnswerCore(w, sid);
    case RejectKey(sid) => RejectCore(w, sid);
    case HangupKey(sid) => HangupCore(w, sid);
    case ExitKey(sid) => HangupCore(w, sid);
    case CancelKey(sid) => CancelCore(w, sid);
    case TypeKey(sid) => TypeCore(w, sid);
    case Consume(sid) => ConsumeCore(w, sid);
    case RingTick(stop) => TickCore(w, stop);
    case NotifyAdmins(e) => NotifyCore(w, e);
  }
}
