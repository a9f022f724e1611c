/**
  What each key does to the screen of the session that pressed it, field by field, and
  which keys reach the call table at all. Nobody else's screen changes.
 */
module KeyLaws {
  import opened Wrappers
  import opened Ordering
  import opened Registry
  import opened CallTable
  import opened TableInvariant
  import opened TableMotion
  import opened Protocol
  import opened WorldInvariant
  import opened Agreement
  import opened Notices
  import opened ScreenLaws
  import opened RingEvents

  /** A session in PHONE and in no call; its own viewport is the only one. */
  predicate Blank(u: Ui, username: Account, inPhone: bool) {
    u == Ui(username, inPhone, CallIdle, None, None, None, [], [username])
  }

  /** A login starts in the lobby, and PHONE with nothing on the screen. */
  lemma StartsBlank(w: World, username: Account, role: string, visible: bool, sid: SessionId)
    ensures var w' := Apply(w, Connect(username, role, visible));
            w.board.reg.nextId + 1 in w'.ui && Blank(w'.ui[w.board.reg.nextId + 1], username, false)
    ensures Acts(w, sid) && !w.ui[sid].inPhone ==>
              var w' := Apply(w, EnterPhone(sid)); UiKept(w, w', sid) && sid in w'.ui && Blank(w'.ui[sid], w.ui[sid].username, true)
  {
    hide Register;
  }

  /** A dial that goes through shows its call pending and its callee beside the caller; an ADD only notes whom it rings. */
  lemma PlacedShown(w: World, id: CallId)
    requires w.gate.Some? && w.gate.value.sid in w.ui
    ensures var w', s := Apply(w, Commit(id)), w.gate.value.sid;
            && UiKept(w, w', s) && s in w'.ui
            && match w.gate.value
               case DialGate(sid, callee) =>
                 Fresh(w.board, id) ==>
                   var u := w.ui[sid];
                   && w'.ui[sid].state == CallPending && w'.ui[sid].callId == Some(id) && w'.ui[sid].callsWith == [callee]
                   && w'.ui[sid].inPhone && w'.ui[sid].username == u.username
                   && w'.ui[sid].incoming == (if u.inPhone then u.incoming else None)
                   && w'.ui[sid].addTarget == (if u.inPhone then u.addTarget else None)
                   && w'.ui[sid].viewports == (if u.inPhone then u.viewports else [u.username]) + [callee]
               case AddGate(sid, call, callee) =>
                 call in w.board.calls ==> w'.ui[sid] == w.ui[sid].(addTarget := Some(callee))
               case CheckGate(_, _, _) => w' == w
  {
    hide PlaceDial, PlaceAdd;
  }

  /** The accounts seated in a call, in the order in which they sat down. */
  function Seated(call: Call): (names: seq<Account>)
    ensures |names| == |call.participants| && forall i :: 0 <= i < |names| ==> names[i] == call.participants[i].username
  {
    seq(|call.participants|, i requires 0 <= i < |call.participants| => call.participants[i].username)
  }

  /** An ANSWER that is accepted shows everyone else in the call, in seating order, and no ring. */
  lemma AnsweredShown(w: World, sid: SessionId)
    requires Core(w) && Happens(w, AnswerKey(sid)).Answers?
    ensures var w', x := Apply(w, AnswerKey(sid)), Happens(w, AnswerKey(sid));
            && UiKept(w, w', sid) && sid in w.ui && sid in w'.ui && x.id in w'.board.calls
            && var u, u' := w.ui[sid], w'.ui[sid];
               && u'.state == CallActive && u'.callId == Some(x.id) && u'.incoming == None && u'.inPhone && u'.username == u.username
               && IsWithout(Seated(w'.board.calls[x.id]), u.username, u'.callsWith) && u'.viewports == [u.username] + u'.callsWith
               && u'.addTarget == if u.inPhone then u.addTarget else None
  {
    hide Core, ApplyAnswer, Answer, AnswerError, RingFor, Settle, Later, IsWithout, NotNamed;
    OfferedToCallee(w, sid);
    AnswerOutcome(w, sid);
    BoardIsSound(w);
    var u, id := w.ui[sid], w.ui[sid].incoming.value;
    AcceptsExactly(w.board, id, u.username);
    AnswerTable(w.board, id, sid, u.username);
    var call := Apply(w, AnswerKey(sid)).board.calls[id];
    assert Names(call.participants) == Seated(call);
    NotNamedIs(Seated(call), u.username);
  }

  /** One that is refused forgets the ring, in PHONE, and changes nothing else. */
  lemma RefusedShown(w: World, sid: SessionId)
    requires Core(w) && Acts(w, sid) && w.ui[sid].incoming.Some? && w.ui[sid].state != CallPending
    requires Happens(w, AnswerKey(sid)) == Quiet
    ensures var w', u := Apply(w, AnswerKey(sid)), w.ui[sid];
            w' == w.(ui := w.ui[sid := if u.inPhone then u.(incoming := None) else u])
  {
    hide Core, ApplyAnswer, Answer, AnswerError, RingFor, Settle, Answered;
    OfferedToCallee(w, sid);
    AnswerOutcome(w, sid);
    BoardIsSound(w);
    AcceptsExactly(w.board, w.ui[sid].incoming.value, w.ui[sid].username);
  }

  /** REJECT forgets the ring, in PHONE; a cancelled ADD is forgotten; both change nothing else on the screen. */
  lemma DroppedShown(w: World, sid: SessionId)
    requires Acts(w, sid)
    ensures var w', u := Apply(w, RejectKey(sid)), w.ui[sid];
            && UiKept(w, w', sid) && sid in w'.ui
            && w'.ui[sid] == if u.incoming.Some? && u.state != CallPending && u.inPhone then u.(incoming := None) else u
    ensures var w', u := Apply(w, CancelKey(sid)), w.ui[sid];
            && UiKept(w, w', sid) && sid in w'.ui
            && w'.ui[sid] == if u.state == CallActive && u.callId.Some? then u.(addTarget := None) else u
  {
    hide ApplyReject, ApplyCancel, UiKept;
    RejectScreen(w, sid);
    CancelScreen(w, sid);
    OneScreen(w, ApplyReject(w, sid), sid);
    OneScreen(w, ApplyCancel(w, sid), sid);
  }

  lemma RejectScreen(w: World, sid: SessionId)
    requires Acts(w, sid)
    ensures var w', u := ApplyReject(w, sid), w.ui[sid];
            w'.ui == w.ui[sid := if u.incoming.Some? && u.state != CallPending && u.inPhone then u.(incoming := None) else u]
  {
    hide Reject, Settle;
    assert w.ui == w.ui[sid := w.ui[sid]];
  }

  lemma CancelScreen(w: World, sid: SessionId)
    requires Acts(w, sid)
    ensures var w', u := ApplyCancel(w, sid), w.ui[sid];
            w'.ui == w.ui[sid := if u.state == CallActive && u.callId.Some? then u.(addTarget := None) else u]
  {
    hide CancelAdd, Settle;
    assert w.ui == w.ui[sid := w.ui[sid]];
  }

  lemma OneScreen(w: World, w': World, sid: SessionId)
    requires sid in w'.ui && (w'.ui == w.ui || w'.ui == w.ui[sid := w'.ui[sid]])
    ensures UiKept(w, w', sid)
  {
  }

  /** HANGUP leaves PHONE idle and EXIT leaves it; either way the session shows no call. */
  lemma LeftShown(w: World, sid: SessionId)
    requires Acts(w, sid)
    ensures var w', u := Apply(w, HangupKey(sid)), w.ui[sid];
            UiKept(w, w', sid) && sid in w'.ui && if u.callId.Some? then ShownIdle(u, w'.ui[sid]) else w'.ui[sid] == u
    ensures var w', u := Apply(w, ExitKey(sid)), w.ui[sid];
            UiKept(w, w', sid) && sid in w'.ui && if u.inPhone then Blank(w'.ui[sid], u.username, false) else w'.ui[sid] == u
  {
    hide ApplyHangup, ApplyExit, UiKept, ShownIdle, Blank;
    HangupScreen(w, sid);
    ExitScreen(w, sid);
    OneScreen(w, ApplyHangup(w, sid), sid);
    OneScreen(w, ApplyExit(w, sid), sid);
  }

  lemma HangupScreen(w: World, sid: SessionId)
    requires Acts(w, sid)
    ensures var w', u := ApplyHangup(w, sid), w.ui[sid];
            && sid in w'.ui && (w'.ui == w.ui || w'.ui == w.ui[sid := w'.ui[sid]])
            && if u.callId.Some? then ShownIdle(u, w'.ui[sid]) else w'.ui[sid] == u
  {
    hide LeaveCall;
    if w.ui[sid].callId.Some? { LeaveBoard(w, w.ui[sid].callId.value, sid, Cancelled); }
  }

  lemma ExitScreen(w: World, sid: SessionId)
    requires Acts(w, sid)
    ensures var w', u := ApplyExit(w, sid), w.ui[sid];
            && sid in w'.ui && (w'.ui == w.ui || w'.ui == w.ui[sid := w'.ui[sid]])
            && if u.inPhone then Blank(w'.ui[sid], u.username, false) else w'.ui[sid] == u
  {
    hide LeaveCall;
    if w.ui[sid].callId.Some? { LeaveBoard(w, w.ui[sid].callId.value, sid, Cancelled); }
  }

  lemma ReadOnly(w: World, s: SessionId)
    requires w.gate == None && s in w.ui && s in w.board.reg.index && w.board.reg.index[s].notify != []
    requires !EveryoneLeft(w.ui[s], w.board.reg.index[s].notify[0])
    ensures ApplyConsume(w, s) == w.(board := w.board.(reg := Receive(w.board.reg, s)),
                                     ui := w.ui[s := Handle(w.ui[s], w.board.reg.index[s].notify[0]).0])
  {
    hide Handle, EveryoneLeft, LeaveCall, Receive;
    HangsUpExactly(w.ui[s], w.board.reg.index[s].notify[0]);
  }

  lemma ReadLast(w: World, s: SessionId)
    requires w.gate == None && s in w.ui && s in w.board.reg.index && w.board.reg.index[s].notify != []
    requires EveryoneLeft(w.ui[s], w.board.reg.index[s].notify[0])
    ensures ApplyConsume(w, s).ui == w.ui[s := Handle(w.ui[s], w.board.reg.index[s].notify[0]).0]
  {
    hide Handle, LeaveCall, Receive;
    HangsUpExactly(w.ui[s], w.board.reg.index[s].notify[0]);
    LeaveBoard(w.(board := w.board.(reg := Receive(w.board.reg, s))), w.ui[s].callId.value, s, Cancelled);
  }

  /** Consuming takes the oldest event off the queue, and the screen becomes what handling it makes of it. */
  lemma ConsumedShown(w: World, sid: SessionId)
    requires w.gate == None && sid in w.ui && sid in w.board.reg.index && w.board.reg.index[sid].notify != []
    ensures var w', q := Apply(w, Consume(sid)), w.board.reg.index[sid].notify;
            && UiKept(w, w', sid) && sid in w'.ui && w'.ui[sid] == Handle(w.ui[sid], q[0]).0
            && (!EveryoneLeft(w.ui[sid], q[0]) ==>
                  && w'.board.calls == w.board.calls && w'.board.adds == w.board.adds
                  && w'.board.reg == w.board.reg.(index := w.board.reg.index[sid := w.board.reg.index[sid].(notify := q[1..])]))
  {
    hide Handle, ApplyConsume, EveryoneLeft, UiKept;
    if EveryoneLeft(w.ui[sid], w.board.reg.index[sid].notify[0]) { ReadLast(w, sid); } else { ReadOnly(w, sid); }
    OneScreen(w, ApplyConsume(w, sid), sid);
  }

  /** A DIAL or ADD, its three steps together, places a call exactly from an idle screen and a ring exactly from an active call, when it is admitted. */
  lemma RingPlaced(w: World, sid: SessionId, target: Account, id: CallId)
    requires Core(w) && Acts(w, sid) && Fresh(w.board, id)
    ensures var u, w' := w.ui[sid], Apply(Apply(Apply(w, Ring(sid, target)), Recheck), Commit(id));
            && w'.gate == None
            && (id in w'.board.calls <==> u.state == CallIdle && target != "" && Admit(w.board, u.username, target) == None)
            && (w'.board.adds != w.board.adds <==>
                  && u.state == CallActive && u.callId.Some? && Active(w.board, u.callId.value)
                  && target != "" && Admit(w.board, u.username, target) == None)
  {
    hide Admit, ApplyRing, ApplyRecheck, ApplyCommit, BoardOk, UisOk, RecordsOk, GateOk, Present;
    FreshIsNew(w, id);
    Checked(w, sid, target);
    var w2 := ApplyRecheck(ApplyRing(w, sid, target));
    Committed(w, w2, id);
  }

  lemma FreshIsNew(w: World, id: CallId)
    requires Core(w) && Fresh(w.board, id)
    ensures id !in w.board.calls
  {
  }

  lemma Checked(w: World, sid: SessionId, target: Account)
    requires Acts(w, sid)
    ensures var u := w.ui[sid];
            ApplyRecheck(ApplyRing(w, sid, target)) ==
              w.(gate := if target == "" || Admit(w.board, u.username, target) != None then None
                         else if u.state == CallIdle then Some(DialGate(sid, target))
                         else if u.state == CallActive && u.callId.Some? && Active(w.board, u.callId.value)
                         then Some(AddGate(sid, u.callId.value, target))
                         else None)
  {
    hide FirstRefusal, Ringable;
  }

  lemma Committed(w: World, w2: World, id: CallId)
    requires Core(w) && w.gate == None && w2 == w.(gate := w2.gate) && Fresh(w.board, id) && id !in w.board.calls
    requires w2.gate.Some? ==> !w2.gate.value.CheckGate? && w2.gate.value.sid in w.ui
    requires w2.gate.Some? && w2.gate.value.AddGate? ==>
               Active(w.board, w2.gate.value.id) && Admit(w.board, w.ui[w2.gate.value.sid].username, w2.gate.value.callee) == None
    ensures var w' := ApplyCommit(w2, id);
            && w'.gate == None
            && (id in w'.board.calls <==> w2.gate.Some? && w2.gate.value.DialGate?)
            && (w'.board.adds != w.board.adds <==> w2.gate.Some? && w2.gate.value.AddGate?)
  {
    hide PlaceDial, PlaceAdd, Admit, BoardOk, UisOk, RecordsOk, GateOk, Present;
    match w2.gate
    case Some(DialGate(sid, callee)) => PlaceDialTable(w.board, id, sid, w.ui[sid].username, callee);
    case Some(AddGate(sid, call, callee)) => AddedOne(w.board, call, w.ui[sid].username, callee);
    case _ =>
  }

  lemma AddedOne(b: Switchboard, id: CallId, caller: Account, callee: Account)
    requires id in b.calls && Admit(b, caller, callee) == None
    ensures var b' := PlaceAdd(b, id, caller, callee); b'.calls == b.calls && b'.adds != b.adds
  {
    hide FanOut, SendEach, Ringable, OthersByName, EqualFold;
    AdmitMeans(b, caller, callee);
    assert !AddRings(b, AddKey(id, callee), callee);
    assert AddKey(id, callee) in PlaceAdd(b, id, caller, callee).adds && AddKey(id, callee) !in b.adds;
  }

  /** A ring may tick at any time while no Dial or Add holds the lock, whatever has become of it; its call and its parties are those it was placed with. */
  lemma TicksAnyTime(w: World, stop: Chan)
    requires stop in w.rings && w.gate == None
    ensures var r := w.rings[stop];
            Apply(w, RingTick(stop)) == w.(board := Tick(w.board, r.id, r.caller, r.callee, r.isAdd))
  {
    hide Tick;
  }

  /** A notice to admins reaches exactly the sessions of admin accounts. */
  lemma NoticeReaches(w: World, e: PhoneEvent, s: SessionId)
    requires Agree(w.board.reg) && e.kind == EventAdminNotify && s in w.board.reg.index
    ensures var r, w' := w.board.reg, Apply(w, NotifyAdmins(e));
            && w' == w.(board := w.board.(reg := w'.board.reg)) && s in w'.board.reg.index
            && Hears(r, w'.board.reg, s, if r.accounts[r.index[s].username].role == "admin" then [e] else [])
  {
    hide AdminSessions, FanOut, Hears;
    AdminsMeans(w.board.reg, s);
    FanOutHeard(w.board.reg, AdminSessions(w.board.reg), e, s);
    NoticeIndex(w.board.reg, AdminSessions(w.board.reg), e, s);
  }

  lemma NoticeIndex(r: Presence, sids: set<SessionId>, e: PhoneEvent, s: SessionId)
    requires s in r.index
    ensures s in FanOut(r, sids, e).index
  {
  }
}
