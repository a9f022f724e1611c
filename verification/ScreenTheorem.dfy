/**
  Every step keeps what the screens claim of the names in their calls, and so every
  run does in which no twin stays behind and no stale news waits for a newcomer.
 */
module ScreenTheorem {
  import opened Wrappers
  import opened Ordering
  import opened Registry
  import opened CallTable
  import opened TableInvariant
  import opened TableMotion
  import opened TableLaws
  import opened Protocol
  import opened WorldInvariant
  import opened Agreement
  import opened Reachability
  import opened RingHistory
  import opened ScreenLaws
  import opened ScreenNames
  import opened ScreenRuns

  /** Nobody rings the account of no name. */
  ghost predicate Aimed(w: World) {
    && (forall s :: s in w.ui ==> w.ui[s].addTarget != Some(""))
    && (w.gate.Some? ==> w.gate.value.callee != "")
  }

  /** The session, if it leaves the call on its screen now, leaves no other session of its account there. */
  ghost predicate LeavesClean(w: World, sid: SessionId) {
    sid in w.ui && w.ui[sid].callId.Some? ==> !TwinStays(w.board, w.ui[sid].callId.value, sid)
  }

  /** The oldest event waiting for the session makes it hang up. */
  predicate ReadsLast(w: World, sid: SessionId) {
    && sid in w.ui && sid in w.board.reg.index && w.board.reg.index[sid].notify != []
    && EveryoneLeft(w.ui[sid], w.board.reg.index[sid].notify[0])
  }

  /** Neither of the two kinds of step that a screen cannot follow. */
  ghost predicate Clean(w: World, step: Step) {
    match step
    case HangupKey(sid) => LeavesClean(w, sid)
    case ExitKey(sid) => LeavesClean(w, sid)
    case TeardownHangup(sid, pick) => pick.Some? ==> !TwinStays(w.board, pick.value, sid)
    case Consume(sid) => ReadsLast(w, sid) ==> LeavesClean(w, sid)
    case AnswerKey(sid) => sid in w.ui && w.ui[sid].incoming.Some? ==> !StaleNews(w.board, sid, w.ui[sid].incoming.value)
    case _ => true
  }

  // ---- Steps that send no news ---------------------------------------------------------------------

  lemma ConnectShown(w: World, username: Account, role: string, visible: bool)
    requires Core(w) && AllShown(w)
    ensures AllShown(ApplyConnect(w, username, role, visible))
  {
    hide Core, Register, ShownAt;
    var w', sid := ApplyConnect(w, username, role, visible), w.board.reg.nextId + 1;
    CoreParts(w);
    NextIsNew(w.board.reg);
    RegisterIndex(w.board.reg, username, role, visible);
    RegisterLoses(w.board.reg, username, role, visible);
    IdleShown(w', sid);
    NewLogin(w, username, role, visible);
    SameQueues(w, w', {sid});
    TogetherShown(w', sid);
  }

  lemma NewLogin(w: World, username: Account, role: string, visible: bool)
    requires Core(w)
    ensures w.board.reg.nextId + 1 !in w.ui
  {
    hide Sound, QueuesOk, SeatsOk, UisOk, RecordsOk, GateOk;
  }

  lemma UnregisterShown(w: World, sid: SessionId)
    requires Core(w) && AllShown(w)
    ensures AllShown(ApplyUnregister(w, sid))
  {
    hide Sound, QueuesOk, SeatsOk, UisOk, RecordsOk, GateOk, Agree, Unregister, ShownAt;
    if ApplyUnregister(w, sid) != w {
      UnregisterIndex(w.board.reg, sid);
      UnregisterLoses(w.board.reg, sid);
      SameQueues(w, ApplyUnregister(w, sid), {});
    }
  }

  lemma UnregisterLoses(r: Presence, sid: SessionId)
    ensures Unregister(r, sid).lost == r.lost
  {
  }

  lemma EnterShown(w: World, sid: SessionId)
    requires Core(w) && AllShown(w)
    ensures AllShown(ApplyEnter(w, sid))
  {
    hide Core, ShownAt;
    if ApplyEnter(w, sid) != w {
      ScreenIndexed(w, sid);
      IdleShown(ApplyEnter(w, sid), sid);
      SameQueues(w, ApplyEnter(w, sid), {sid});
      TogetherShown(ApplyEnter(w, sid), sid);
    }
  }

  lemma GateShown(w: World, w': World)
    requires AllShown(w) && w'.board == w.board && w'.ui == w.ui && w'.misused == w.misused
    ensures AllShown(w')
  {
    hide ShownAt;
    SameQueues(w, w', {});
  }

  lemma ReapShown(w: World, sid: SessionId)
    requires Core(w) && AllShown(w)
    ensures AllShown(ApplyReap(w, sid))
  {
    hide Core, ShownAt, EndDial, ReapAdd, Settle, Ringable;
    if sid in w.reaping && w.gate == None {
      var b, user, w' := w.board, w.reaping[sid], ApplyReap(w, sid);
      if Ringable(b, user) != {} {
        GateShown(w, w');
      } else if exists id :: DialRings(b, id, user) {
        var id :| DialRings(b, id, user) && Reap(b, user) == EndDial(b, id, ReapEvent(b, id, b.calls[id].caller, user));
        EndDialShown(w, w', id, ReapEvent(b, id, b.calls[id].caller, user));
      } else if exists k :: AddRings(b, k, user) {
        var k :| AddRings(b, k, user) && Reap(b, user) == ReapAdd(b, k);
        ReapAddShown(w, w', k);
      } else {
        GateShown(w, w');
      }
    }
  }

  lemma EndDialShown(w: World, w': World, id: CallId, e: PhoneEvent)
    requires AllShown(w) && id in w.board.calls && w'.board == EndDial(w.board, id, e) && w'.misused == w.misused
    requires e.callId == id && e.kind != EventAnswer && e.kind != EventHangup
    requires forall s :: s in w'.ui ==> s in w.ui && SameScreen(w.ui[s], w'.ui[s])
    ensures AllShown(w')
  {
    hide ShownAt, EndDial;
    EndDialTable(w.board, id, e);
    EndDialTells(w.board, id, e);
    KindsNameNobody({e.kind}, id);
    QuietNames(w, w', {}, About({e.kind}, id), Members(Sids(w.board.calls[id].participants)));
  }

  lemma ReapAddShown(w: World, w': World, k: AddKey)
    requires Core(w) && AllShown(w) && k in w.board.adds && w'.board == ReapAdd(w.board, k) && w'.ui == w.ui && w'.misused == w.misused
    ensures AllShown(w')
  {
    hide ShownAt, SendEach, OneRing, ChansExact, QueuesOk, SeatsOk, UisOk, RecordsOk, GateOk, Present, Agree;
    var b := w.board;
    var e := ReapEvent(b, k.callId, b.adds[k].inviter, k.callee);
    var sids := Sids(b.calls[k.callId].participants);
    SendEachGrows(b.reg, sids, e, About({e.kind}, k.callId));
    KindsNameNobody({e.kind}, k.callId);
    QuietNames(w, w', {}, About({e.kind}, k.callId), Members(sids));
  }

  lemma RejectShown(w: World, sid: SessionId)
    requires Core(w) && AllShown(w)
    ensures AllShown(ApplyReject(w, sid))
  {
    hide Core, AllShown, ApplyReject, SameScreen;
    RejectFields(w, sid);
    if ApplyReject(w, sid) != w { RejectedShown(w, ApplyReject(w, sid), w.ui[sid].incoming.value, w.ui[sid].username); }
  }

  lemma RejectFields(w: World, sid: SessionId)
    ensures var w' := ApplyReject(w, sid);
            || w' == w
            || (&& sid in w.ui && w.ui[sid].incoming.Some? && w'.misused == w.misused
                && w'.board == Reject(w.board, w.ui[sid].incoming.value, w.ui[sid].username).0
                && forall s :: s in w'.ui ==> s in w.ui && SameScreen(w.ui[s], w'.ui[s]))
  {
    hide Reject, Settle;
  }

  lemma RejectedShown(w: World, w': World, id: CallId, user: Account)
    requires Core(w) && AllShown(w) && w'.board == Reject(w.board, id, user).0 && w'.misused == w.misused
    requires forall s :: s in w'.ui ==> s in w.ui && SameScreen(w.ui[s], w'.ui[s])
    ensures AllShown(w')
  {
    hide Core, ShownAt, EndDial, SendEach, SameScreen;
    CallShapes(w);
    if Pending(w.board, id) {
      EndDialShown(w, w', id, PhoneEvent(EventReject, id, w.board.calls[id].caller, user));
    } else if Active(w.board, id) {
      RejectTold(w, w', id, user);
    } else {
      SameQueues(w, w', {});
    }
  }

  lemma CallShapes(w: World)
    requires Core(w)
    ensures forall id :: id in w.board.calls ==> Pending(w.board, id) || Active(w.board, id)
  {
    hide OneRing, ChansExact, QueuesOk, SeatsOk, UisOk, RecordsOk, GateOk, Present, Agree;
    forall id | id in w.board.calls ensures Pending(w.board, id) || Active(w.board, id) { assert CallShape(w.board.calls[id]); }
  }

  lemma RejectTold(w: World, w': World, id: CallId, user: Account)
    requires AllShown(w) && Active(w.board, id) && w'.board == Reject(w.board, id, user).0 && w'.misused == w.misused
    requires forall s :: s in w'.ui ==> s in w.ui && SameScreen(w.ui[s], w'.ui[s])
    ensures AllShown(w')
  {
    hide ShownAt, SendEach;
    var sids := Sids(w.board.calls[id].participants);
    SendEachGrows(w.board.reg, sids, PhoneEvent(EventReject, id, "", user), About({EventReject}, id));
    KindsNameNobody({EventReject}, id);
    QuietNames(w, w', {}, About({EventReject}, id), Members(sids));
  }

  lemma CancelShown(w: World, sid: SessionId)
    requires AllShown(w) && Aimed(w)
    ensures AllShown(ApplyCancel(w, sid))
  {
    hide ShownAt, CancelAdd, Settle;
    if ApplyCancel(w, sid) != w {
      var u := w.ui[sid];
      var id, callee := u.callId.value, u.addTarget.value;
      CancelResults(w.board, id, callee, u.username);
      var targets := CancelTells(w.board, id, callee, u.username);
      QuietNames(w, ApplyCancel(w, sid), {}, iset{PhoneEvent(EventHangup, id, u.username, callee)}, targets);
    }
  }

  lemma CancelTells(b: Switchboard, id: CallId, callee: Account, caller: Account) returns (targets: set<SessionId>)
    ensures Grown(b.reg, CancelAdd(b, id, callee, caller).reg, iset{PhoneEvent(EventHangup, id, caller, callee)}, targets)
  {
    hide FanOut, SendEach;
    var e := PhoneEvent(EventHangup, id, caller, callee);
    var reg1 := FanOut(b.reg, SessionsOf(b.reg, callee), e);
    FanOutGrows(b.reg, SessionsOf(b.reg, callee), e, iset{e});
    targets := SessionsOf(b.reg, callee);
    if id in b.calls {
      var sids := OthersByName(b.calls[id].participants, caller);
      SendEachGrows(reg1, sids, e, iset{e});
      GrownTwice(b.reg, reg1, SendEach(reg1, sids, e), iset{e}, targets, Members(sids));
      targets := targets + Members(sids);
    }
  }

  lemma TypeShown(w: World, sid: SessionId)
    requires Core(w) && AllShown(w)
    ensures AllShown(ApplyType(w, sid))
  {
    hide Core, ShownAt, Broadcast;
    if Acts(w, sid) && w.ui[sid].callId.Some? {
      CoreParts(w);
      BroadcastSound(w.board, w.ui[sid].callId.value, w.ui[sid].username);
      GateShown(w, ApplyType(w, sid));
    }
  }

  lemma NotifyShown(w: World, e: PhoneEvent)
    requires AllShown(w)
    ensures AllShown(ApplyNotify(w, e))
  {
    hide ShownAt, FanOut, AdminSessions;
    if e.kind == EventAdminNotify {
      FanOutGrows(w.board.reg, AdminSessions(w.board.reg), e, iset{e});
      QuietNames(w, ApplyNotify(w, e), {}, iset{e}, AdminSessions(w.board.reg));
    }
  }

  lemma TickShown(w: World, stop: Chan)
    requires AllShown(w)
    ensures AllShown(ApplyTick(w, stop))
  {
    hide ShownAt, RingAll, Advise;
    if stop in w.rings && w.gate == None && w.rings[stop].id in w.board.calls {
      var r := w.rings[stop];
      var e := PhoneEvent(EventRing, r.id, r.caller, r.callee);
      var w1 := w.(board := RingAll(w.board, r.callee, e));
      RingAllTells(w.board, r.callee, e);
      RingAllCalls(w.board, r.callee, e);
      KindsNameNobody({EventRing}, r.id);
      QuietNames(w, w1, {}, About({EventRing}, r.id), Ringable(w.board, r.callee));
      if r.isAdd {
        var targets := AdviseTells(w1.board, r.id, r.caller, r.callee);
        AdviseCalls(w1.board, r.id, r.caller, r.callee);
        KindsNameNobody({EventRinging}, r.id);
        QuietNames(w1, ApplyTick(w, stop), {}, About({EventRinging}, r.id), targets);
      }
    }
  }

  lemma RingAllCalls(b: Switchboard, callee: Account, e: PhoneEvent)
    ensures RingAll(b, callee, e).calls == b.calls
  {
  }

  lemma AdviseCalls(b: Switchboard, id: CallId, caller: Account, callee: Account)
    requires id in b.calls
    ensures Advise(b, id, caller, callee).calls == b.calls
  {
  }

  // ---- Dials and ADDs -----------------------------------------------------------------------------------

  lemma CommitDialShown(w: World, id: CallId, sid: SessionId, callee: Account)
    requires Core(w) && AllShown(w) && w.gate == Some(DialGate(sid, callee)) && sid in w.ui && w.ui[sid].state == CallIdle && Fresh(w.board, id)
    ensures AllShown(ApplyCommit(w, id))
  {
    hide Core, ShownAt, PlaceDial;
    var u, w' := w.ui[sid], ApplyCommit(w, id);
    PlaceDialTable(w.board, id, sid, u.username, callee);
    var targets := DialTells(w.board, id, sid, u.username, callee);
    KindsNameNobody({EventRing}, id);
    OthersElsewhere(w, id);
    QuietNames(w, w', {sid}, About({EventRing}, id), targets);
    DialerShown(w, w', id, sid, callee, targets);
    TogetherShown(w', sid);
  }

  lemma OthersElsewhere(w: World, id: CallId)
    requires Core(w) && Fresh(w.board, id)
    ensures forall s :: s in w.ui ==> w.ui[s].callId != Some(id)
  {
    hide Sound, QueuesOk, SeatsOk, RecordsOk, GateOk, Present, Agree;
    forall s | s in w.ui ensures w.ui[s].callId != Some(id) { assert UiOk(w.board, s, w.ui[s]); }
  }

  lemma DialerShown(w: World, w': World, id: CallId, sid: SessionId, callee: Account, targets: set<SessionId>)
    requires Core(w) && AllShown(w) && sid in w.ui && w.ui[sid].state == CallIdle && w.misused <= w'.misused
    requires Pending(w'.board, id) && w'.board.calls[id].callee == callee && sid in w'.ui && w'.ui[sid] == Dialed(w.ui[sid], id, callee)
    requires Grown(w.board.reg, w'.board.reg, About({EventRing}, id), targets)
    ensures ShownAt(w', sid)
  {
    hide Core, GrownAt;
    assert ShownAt(w, sid);
    ScreenIndexed(w, sid);
    if !Tainted(w', sid) { assert Tidy(w.ui[sid]); }
  }

  lemma CommitAddShown(w: World, id: CallId, sid: SessionId, call: CallId, callee: Account)
    requires AllShown(w) && w.gate == Some(AddGate(sid, call, callee)) && sid in w.ui && call in w.board.calls
    ensures AllShown(ApplyCommit(w, id))
  {
    hide ShownAt, PlaceAdd;
    var u, w' := w.ui[sid], ApplyCommit(w, id);
    AddTable(w.board, call, u.username, callee);
    var targets := AddTells(w.board, call, u.username, callee);
    KindsNameNobody({EventRing, EventRinging}, call);
    QuietNames(w, w', {}, About({EventRing, EventRinging}, call), targets);
  }

  lemma AddTells(b: Switchboard, id: CallId, caller: Account, callee: Account) returns (targets: set<SessionId>)
    requires id in b.calls
    ensures Grown(b.reg, PlaceAdd(b, id, caller, callee).reg, About({EventRing, EventRinging}, id), targets)
  {
    hide FanOut, SendEach, Ringable;
    var e := PhoneEvent(EventRing, id, caller, callee);
    var b1 := b.(adds := b.adds[AddKey(id, callee) := PendingRing(b.chans.serial, caller)], chans := Make(b.chans, AddStop(AddKey(id, callee), b.chans.serial)));
    var b2 := RingAll(b1, callee, e);
    var events := About({EventRing, EventRinging}, id);
    FanOutGrows(b.reg, Ringable(b1, callee), e, events);
    var sids := OthersByName(b2.calls[id].participants, caller);
    SendEachGrows(b2.reg, sids, PhoneEvent(EventRinging, id, caller, callee), events);
    GrownTwice(b.reg, b2.reg, PlaceAdd(b, id, caller, callee).reg, events, Ringable(b1, callee), Members(sids));
    targets := Ringable(b1, callee) + Members(sids);
  }

  lemma CommitShown(w: World, id: CallId)
    requires Core(w) && AllShown(w)
    ensures AllShown(ApplyCommit(w, id))
  {
    hide AllShown, Sound, QueuesOk, SeatsOk, UisOk, RecordsOk, Present, Agree, BeingRung, EqualFold;
    match w.gate
    case Some(DialGate(sid, callee)) => if Fresh(w.board, id) { CommitDialShown(w, id, sid, callee); }
    case Some(AddGate(sid, call, callee)) => CommitAddShown(w, id, sid, call, callee);
    case _ =>
  }

  // ---- Leaving, answering, reading --------------------------------------------------------------------

  /** The session left the call on its screen, if any, and shows none. */
  lemma LeaverShown(w: World, w': World, sid: SessionId)
    requires Core(w) && Agreed(w) && AllShown(w) && sid in w.ui && LeavesClean(w, sid)
    requires w'.board == (if w.ui[sid].callId.Some? then Hangup(w.board, w.ui[sid].callId.value, sid) else w.board)
    requires w'.misused == w.misused && UiKept(w, w', sid)
    requires sid in w'.ui && w'.ui[sid].callId == None && w'.ui[sid].callsWith == [] && w'.ui[sid].viewports == [w'.ui[sid].username]
    ensures AllShown(w')
  {
    hide Core, ShownAt, Hangup, TwinStays;
    ScreenIndexed(w, sid);
    if w.ui[sid].callId.Some? {
      var id := w.ui[sid].callId.value;
      LeaveKeepsNames(w, w', id, sid);
      LostGrows(w, w', id, sid);
    } else {
      SameQueues(w, w', {sid});
    }
    IdleShown(w', sid);
    TogetherShown(w', sid);
  }

  lemma HangupShown(w: World, sid: SessionId)
    requires Core(w) && Agreed(w) && AllShown(w) && LeavesClean(w, sid)
    ensures AllShown(ApplyHangup(w, sid)) && AllShown(ApplyExit(w, sid))
  {
    hide Core, Agreed, AllShown, LeavesClean, LeaveCall, Hangup;
    if Acts(w, sid) {
      if w.ui[sid].callId.Some? {
        LeaveBoard(w, w.ui[sid].callId.value, sid, Cancelled);
        LeaverShown(w, ApplyHangup(w, sid), sid);
      }
      if w.ui[sid].inPhone { LeaverShown(w, ApplyExit(w, sid), sid); }
    }
  }

  lemma TeardownShown(w: World, sid: SessionId, pick: Option<CallId>)
    requires Core(w) && Agreed(w) && AllShown(w) && (pick.Some? ==> !TwinStays(w.board, pick.value, sid))
    ensures AllShown(ApplyTeardownHangup(w, sid, pick))
  {
    hide Core, AgreedAt, ShownAt, LeaveCall, Hangup, TwinStays, Picks;
    if Acts(w, sid) && Picks(w.board, sid, pick) {
      var w' := ApplyTeardownHangup(w, sid, pick);
      if pick.Some? {
        LeaveBoard(w, pick.value, sid, TornDown);
        LeaveKeepsNames(w, w', pick.value, sid);
      } else {
        SameQueues(w, w', {sid});
      }
      NoScreen(w', sid);
      TogetherShown(w', sid);
    }
  }

  lemma NoScreen(w: World, s: SessionId)
    requires s !in w.ui
    ensures ShownAt(w, s)
  {
  }

  lemma AnswerKeyShown(w: World, sid: SessionId)
    requires Core(w) && Agreed(w) && AllShown(w) && Clean(w, AnswerKey(sid))
    ensures AllShown(ApplyAnswer(w, sid))
  {
    hide Core, Agreed, ShownAt, ApplyAnswer, Answer, AnswerError, StaleNews, Answered;
    if Acts(w, sid) && w.ui[sid].incoming.Some? && w.ui[sid].state != CallPending {
      var u, id, w' := w.ui[sid], w.ui[sid].incoming.value, ApplyAnswer(w, sid);
      Offered(w, sid);
      AnswerOutcome(w, sid);
      if AnswerError(w.board, id, u.username) != None {
        SameQueues(w, w', {});
      } else {
        AcceptedCall(w.board, id, u.username);
        AnsweredShown(w, w', sid, id);
      }
    } else {
      AnswerIdle(w, sid);
    }
  }

  lemma AcceptedCall(b: Switchboard, id: CallId, user: Account)
    requires AnswerError(b, id, user) == None
    ensures id in b.calls
  {
  }

  lemma Offered(w: World, sid: SessionId)
    requires Core(w) && sid in w.ui && w.ui[sid].incoming.Some?
    ensures Pending(w.board, w.ui[sid].incoming.value) ==> w.board.calls[w.ui[sid].incoming.value].callee == w.ui[sid].username
    ensures w.ui[sid].incoming.value in w.board.calls ==> w.board.calls[w.ui[sid].incoming.value].participants != []
  {
    hide OneRing, ChansExact, QueuesOk, RecordsOk, SeatsOk, GateOk, Present;
    assert UiOk(w.board, sid, w.ui[sid]);
    if w.ui[sid].incoming.value in w.board.calls { assert CallShape(w.board.calls[w.ui[sid].incoming.value]); }
  }

  lemma AnsweredShown(w: World, w': World, sid: SessionId, id: CallId)
    requires Core(w) && Agreed(w) && AllShown(w) && sid in w.ui && AnswerError(w.board, id, w.ui[sid].username) == None
    requires w.board.calls[id].participants != [] && !StaleNews(w.board, sid, id)
    requires Pending(w.board, id) ==> w.board.calls[id].callee == w.ui[sid].username
    requires w'.board == Answer(w.board, id, sid, w.ui[sid].username).0 && w.misused <= w'.misused
    requires w'.ui == w.ui[sid := Answered(w.ui[sid], id, if id in w'.board.calls then Names(w'.board.calls[id].participants) else [])]
    ensures AllShown(w')
  {
    hide Core, Agreed, ShownAt, Answer, AnswerError, Answered, StaleNews, Seats, Later;
    CoreParts(w);
    AnswerMoves(w.board, id, sid, w.ui[sid].username);
    if Pending(w.board, id) {
      FirstKeepsNames(w, w', id, sid);
    } else {
      CallIsActive(w.board, id, w.ui[sid].username);
      JoinKeepsNames(w, w', id, sid);
    }
    AnswererShown(w, w', sid, id);
    TogetherShown(w', sid);
  }

  lemma AnswererShown(w: World, w': World, sid: SessionId, id: CallId)
    requires Core(w) && sid in w.ui && AnswerError(w.board, id, w.ui[sid].username) == None
    requires w.board.calls[id].participants != [] && !StaleNews(w.board, sid, id)
    requires Pending(w.board, id) ==> w.board.calls[id].callee == w.ui[sid].username
    requires w'.board == Answer(w.board, id, sid, w.ui[sid].username).0 && Active(w'.board, id)
    requires w'.ui == w.ui[sid := Answered(w.ui[sid], id, if id in w'.board.calls then Names(w'.board.calls[id].participants) else [])]
    ensures ShownAt(w', sid)
  {
    hide Core, Answer, AnswerError, Answered, Shows;
    AnswererHearsNothing(w, id, sid);
    AnswererShows(w'.board, w'.board.reg.index[sid].notify, w.ui[sid], id);
  }

  lemma ConsumeShown(w: World, sid: SessionId)
    requires Core(w) && Agreed(w) && AllShown(w) && Clean(w, Consume(sid))
    ensures AllShown(ApplyConsume(w, sid))
  {
    hide Core, Agreed, ShownAt, Handle, LeaveCall, Hangup, EveryoneLeft, LeavesClean, Receive;
    var w' := ApplyConsume(w, sid);
    if w' != w {
      var q, u, w1 := w.board.reg.index[sid].notify, w.ui[sid], w.(board := w.board.(reg := Receive(w.board.reg, sid)));
      HangsUpExactly(u, q[0]);
      ReceiveIs(w.board.reg, sid);
      if Handle(u, q[0]).1 {
        ReadLastShown(w, w1, w', sid);
      } else {
        SameQueues(w, w', {sid});
        ReaderShown(w, w', sid);
        TogetherShown(w', sid);
      }
    }
  }

  lemma ReceiveIs(r: Presence, sid: SessionId)
    requires sid in r.index && r.index[sid].notify != []
    ensures var r' := Receive(r, sid);
            && r'.index == r.index[sid := r.index[sid].(notify := r.index[sid].notify[1..])]
            && r'.lost == r.lost && r'.accounts == r.accounts
  {
  }

  lemma ReaderShown(w: World, w': World, sid: SessionId)
    requires Core(w) && Agreed(w) && AllShown(w) && sid in w.ui && sid in w.board.reg.index && w.board.reg.index[sid].notify != []
    requires !Handle(w.ui[sid], w.board.reg.index[sid].notify[0]).1 && w'.board.calls == w.board.calls
    requires sid in w'.board.reg.index && w'.board.reg.index[sid].notify == w.board.reg.index[sid].notify[1..]
    requires w'.board.reg.lost == w.board.reg.lost && w'.misused == w.misused
    requires w'.ui == w.ui[sid := Handle(w.ui[sid], w.board.reg.index[sid].notify[0]).0]
    ensures ShownAt(w', sid)
  {
    hide Shows, Handle, Agrees, Sound, QueuesOk, SeatsOk, RecordsOk, GateOk, Agree, Present;
    assert ShownAt(w, sid) && AgreedAt(w, sid);
    if !Tainted(w, sid) {
      ScreenShows(w, sid);
      assert UiOk(w.board, sid, w.ui[sid]);
      ReadOne(w.board, sid, w.board.reg.index[sid].notify, w.ui[sid]);
      SameCallsShow(w.board, w'.board, w'.board.reg.index[sid].notify, w'.ui[sid]);
    }
  }

  lemma SameCallsShow(b: Switchboard, b': Switchboard, q: seq<PhoneEvent>, u: Ui)
    requires Shows(b, q, u) && b'.calls == b.calls
    ensures Shows(b', q, u)
  {
    NoneNew(q);
    Unmoved(b, b', q, q, u);
  }

  /** The last one shown has left: the reader hangs up, as if by its own key. */
  lemma ReadLastShown(w: World, w1: World, w': World, sid: SessionId)
    requires Core(w) && Agreed(w) && AllShown(w) && w' == ApplyConsume(w, sid) && w' != w
    requires sid in w.ui && sid in w.board.reg.index && w.board.reg.index[sid].notify != [] && w.gate == None
    requires EveryoneLeft(w.ui[sid], w.board.reg.index[sid].notify[0]) && LeavesClean(w, sid)
    requires w1 == w.(board := w.board.(reg := Receive(w.board.reg, sid)))
    ensures AllShown(w')
  {
    hide Core, ShownAt, Agreed, Handle, LeaveCall, Hangup, TwinStays, Receive;
    var u, e := w.ui[sid], w.board.reg.index[sid].notify[0];
    HangsUpExactly(u, e);
    var id := u.callId.value;
    LeaveBoard(w1, id, sid, Cancelled);
    ReceiveOk(w, sid);
    ReceiveIs(w.board.reg, sid);
    ReceivedButOne(w, w1, sid);
    TwinSame(w.board, w1.board, id, sid);
    LeaveKeepsNames(w1, w', id, sid);
    LostGrows(w1, w', id, sid);
    ScreenIndexed(w, sid);
    IdleShown(w', sid);
    TogetherShown(w', sid);
  }

  lemma TwinSame(b: Switchboard, b': Switchboard, id: CallId, t: SessionId)
    requires b'.calls == b.calls
    ensures TwinStays(b', id, t) <==> TwinStays(b, id, t)
  {
  }

  /** Between the reading and the hangup the reader's own screen is behind, and nobody else's is. */
  lemma ReceivedButOne(w: World, w1: World, sid: SessionId)
    requires Agreed(w) && AllShown(w) && sid in w.ui && sid in w.board.reg.index && w.board.reg.index[sid].notify != []
    requires w1 == w.(board := w.board.(reg := Receive(w.board.reg, sid)))
    ensures OthersShown(w1, sid)
  {
    hide ShownAt, Receive;
    ReceiveIs(w.board.reg, sid);
    SameQueues(w, w1, {sid});
    PresenceAgrees(w, w1, sid);
  }

  // ---- The theorem ---------------------------------------------------------------------------------------

  lemma StepShown(w: World, step: Step)
    requires Core(w) && Agreed(w) && Aimed(w) && AllShown(w) && Clean(w, step)
    ensures AllShown(Apply(w, step))
  {
    hide Core, Agreed, Aimed, AllShown, ApplyConnect, ApplyTeardownHangup, ApplyUnregister, ApplyReap, ApplyCommit, ApplyAnswer,
         ApplyReject, ApplyHangup, ApplyExit, ApplyCancel, ApplyType, ApplyConsume, ApplyTick, ApplyEnter, ApplyNotify, StaleNews,
         LeavesClean, ReadsLast;
    match step
    case Connect(username, role, visible) => ConnectShown(w, username, role, visible);
    case TeardownHangup(sid, pick) => TeardownShown(w, sid, pick);
    case TeardownUnregister(sid) => UnregisterShown(w, sid);
    case TeardownReap(sid) => ReapShown(w, sid);
    case EnterPhone(sid) => EnterShown(w, sid);
    case Ring(sid, target) => GateShown(w, ApplyRing(w, sid, target));
    case Recheck => GateShown(w, ApplyRecheck(w));
    case Commit(id) => CommitShown(w, id);
    case AnswerKey(sid) => AnswerKeyShown(w, sid);
    case RejectKey(sid) => RejectShown(w, sid);
    case HangupKey(sid) => HangupShown(w, sid);
    case ExitKey(sid) => HangupShown(w, sid);
    case CancelKey(sid) => CancelShown(w, sid);
    case TypeKey(sid) => TypeShown(w, sid);
    case Consume(sid) => ConsumeShown(w, sid);
    case RingTick(stop) => TickShown(w, stop);
    case NotifyAdmins(e) => NotifyShown(w, e);
  }

  lemma GateAimed(w: World, sid: SessionId, target: Account, id: CallId)
    requires Aimed(w)
    ensures Aimed(ApplyRing(w, sid, target)) && Aimed(ApplyRecheck(w)) && Aimed(ApplyCommit(w, id))
  {
    hide FirstRefusal, Ringable, PlaceDial, PlaceAdd;
  }

  lemma KeysAimed(w: World, sid: SessionId, pick: Option<CallId>)
    requires Aimed(w)
    ensures Aimed(ApplyReject(w, sid)) && Aimed(ApplyHangup(w, sid)) && Aimed(ApplyExit(w, sid)) && Aimed(ApplyCancel(w, sid))
    ensures Aimed(ApplyTeardownHangup(w, sid, pick)) && Aimed(ApplyEnter(w, sid)) && Aimed(ApplyType(w, sid))
  {
    hide Reject, CancelAdd, Settle, LeaveCall, Broadcast, Picks;
    if sid in w.ui && w.ui[sid].callId.Some? { LeaveCallAside(w, w.ui[sid].callId.value, sid, Cancelled); }
    if pick.Some? { LeaveCallAside(w, pick.value, sid, TornDown); }
  }

  lemma LeaveCallAside(w: World, id: CallId, sid: SessionId, outcome: Outcome)
    ensures LeaveCall(w, id, sid, outcome).ui == w.ui && LeaveCall(w, id, sid, outcome).gate == w.gate
  {
    hide Leave, Settle;
  }

  lemma AnswerAimed(w: World, sid: SessionId)
    requires Aimed(w)
    ensures Aimed(ApplyAnswer(w, sid))
  {
    hide Answer, Settle;
  }

  lemma ConsumeAimed(w: World, sid: SessionId)
    requires Aimed(w)
    ensures Aimed(ApplyConsume(w, sid))
  {
    hide Handle, LeaveCall, Receive;
    if sid in w.ui && sid in w.board.reg.index && w.board.reg.index[sid].notify != [] {
      HandleAimed(w.ui[sid], w.board.reg.index[sid].notify[0]);
      if w.ui[sid].callId.Some? {
        LeaveCallAside(w.(board := w.board.(reg := Receive(w.board.reg, sid))), w.ui[sid].callId.value, sid, Cancelled);
      }
    }
  }

  lemma RestAimed(w: World, step: Step)
    requires Aimed(w) && (step.Connect? || step.TeardownUnregister? || step.TeardownReap? || step.RingTick? || step.NotifyAdmins?)
    ensures Aimed(Apply(w, step))
  {
    hide Register, Unregister, Reap, Settle, Tick, FanOut, AdminSessions;
  }

  lemma StepAimed(w: World, step: Step)
    requires Aimed(w)
    ensures Aimed(Apply(w, step))
  {
    hide Aimed, ApplyConnect, ApplyTeardownHangup, ApplyUnregister, ApplyReap, ApplyCommit, ApplyAnswer, ApplyReject, ApplyHangup,
         ApplyExit, ApplyCancel, ApplyType, ApplyConsume, ApplyTick, ApplyRing, ApplyRecheck, ApplyEnter, ApplyNotify;
    match step
    case Ring(sid, target) => GateAimed(w, sid, target, 0);
    case Recheck => GateAimed(w, 0, "", 0);
    case Commit(id) => GateAimed(w, 0, "", id);
    case AnswerKey(sid) => AnswerAimed(w, sid);
    case Consume(sid) => ConsumeAimed(w, sid);
    case TeardownHangup(sid, pick) => KeysAimed(w, sid, pick);
    case EnterPhone(sid) => KeysAimed(w, sid, None);
    case RejectKey(sid) => KeysAimed(w, sid, None);
    case HangupKey(sid) => KeysAimed(w, sid, None);
    case ExitKey(sid) => KeysAimed(w, sid, None);
    case CancelKey(sid) => KeysAimed(w, sid, None);
    case TypeKey(sid) => KeysAimed(w, sid, None);
    case _ => RestAimed(w, step);
  }

  lemma HandleAimed(u: Ui, e: PhoneEvent)
    ensures Handle(u, e).0.addTarget == u.addTarget || Handle(u, e).0.addTarget == None
  {
  }

  /** Every step of the run is clean. */
  ghost predicate CleanRun(w: World, steps: seq<Step>)
    decreases steps
  {
    steps != [] ==> Clean(w, steps[0]) && CleanRun(Apply(w, steps[0]), steps[1..])
  }

  lemma {:induction false} RunShown(w: World, steps: seq<Step>)
    requires Core(w) && Agreed(w) && Aimed(w) && AllShown(w) && CleanRun(w, steps)
    ensures AllShown(Run(w, steps))
    decreases steps
  {
    hide Core, Agreed, Aimed, AllShown, Apply, Clean;
    if steps != [] {
      StepCore(w, steps[0]);
      StepAgreed(w, steps[0]);
      StepAimed(w, steps[0]);
      StepShown(w, steps[0]);
      RunShown(Apply(w, steps[0]), steps[1..]);
    }
  }

  /**
    Over every clean run, a session that lost no event shows the right names in an
    active call, once it has read what waits for it; and one that has no news of its
    call waiting shows them now: exactly the other accounts seated in it.
   */
  lemma ScreensNameTheCall(steps: seq<Step>, s: SessionId)
    requires CleanRun(START, steps)
    requires var w := Run(START, steps);
             && !Tainted(w, s) && s in w.ui && w.ui[s].callId.Some? && Active(w.board, w.ui[s].callId.value)
    ensures var w := Run(START, steps);
            var u, id := w.ui[s], w.ui[s].callId.value;
            && s in w.board.reg.index && u.viewports == [u.username] + u.callsWith
            && FoldNames(NameSet(u.callsWith), u.username, w.board.reg.index[s].notify, id) == Others(w.board, id, u.username)
            && (NoneNaming(w.board.reg.index[s].notify, 0, id) ==> NameSet(u.callsWith) == Others(w.board, id, u.username))
  {
    hide Run, Core, Agreed, Others, NameSet;
    StartHolds();
    NothingStarts();
    RunShown(START, steps);
    var w := Run(START, steps);
    assert ShownAt(w, s);
    FoldsToItself(NameSet(w.ui[s].callsWith), w.ui[s].username, w.board.reg.index[s].notify, w.ui[s].callId.value);
  }

  lemma NothingStarts()
    ensures Aimed(START) && AllShown(START)
  {
  }

  lemma FoldsToItself(names: set<Account>, own: Account, q: seq<PhoneEvent>, id: CallId)
    ensures NoneNaming(q, 0, id) ==> FoldNames(names, own, q, id) == names
  {
    if NoneNaming(q, 0, id) { FoldQuiet(names, own, [], q, id); }
  }
}
