/**
  The main theorem about PHONE: in every reachable state, what a session's screen
  believes and what the shared table holds agree, for each session that has lost
  no event and has not run ANSWER from inside a call.
 */
module Agreement {
  import opened Wrappers
  import opened Registry
  import opened CallTable
  import opened TableInvariant
  import opened TableMotion
  import opened Protocol
  import opened WorldInvariant

  /** The events that can move a session out of CallPending, or that belong only after that. */
  predicate Signals(e: PhoneEvent, id: CallId) {
    e.callId == id &&
    (e.kind == EventAnswer || e.kind == EventHangup || e.kind == EventReject
     || e.kind == EventCalleeGone || e.kind == EventCalleeUnavailable)
  }

  /** The first waiting event that signals something about this call. */
  function First(q: seq<PhoneEvent>, id: CallId): Option<EventKind> {
    if q == [] then None
    else if Signals(q[0], id) then Some(q[0].kind)
    else First(q[1..], id)
  }

  /** How session `s` sits in call `id`: the call's state, and how many of its participants are `s`. */
  ghost function SeatOf(b: Switchboard, id: CallId, s: SessionId): Option<(CallState, nat)> {
    if id in b.calls && s in Seats(b.calls[id]) then Some((b.calls[id].state, Seats(b.calls[id])[s])) else None
  }

  ghost predicate Nowhere(b: Switchboard, s: SessionId) {
    forall id :: SeatOf(b, id, s) == None
  }

  /** `s` is one participant of call `id` and of no other call. */
  ghost predicate OnlyIn(b: Switchboard, s: SessionId, id: CallId, state: CallState) {
    forall c :: SeatOf(b, c, s) == if c == id then Some((state, 1)) else None
  }

  ghost predicate Agrees(b: Switchboard, s: SessionId, u: Ui)
    requires s in b.reg.index
  {
    match u.state
    case CallIdle => Nowhere(b, s)
    case CallActive => u.callId.Some? && OnlyIn(b, s, u.callId.value, CallActive)
    case CallPending =>
      u.callId.Some? &&
      var id, first := u.callId.value, First(b.reg.index[s].notify, u.callId.value);
      || (OnlyIn(b, s, id, CallPending) && first == None)
      || (OnlyIn(b, s, id, CallActive) && first == Some(EventAnswer))
      || (Nowhere(b, s) && id !in b.calls && first.Some? &&
          (first.value == EventReject || first.value == EventCalleeGone || first.value == EventCalleeUnavailable))
  }

  ghost predicate Tainted(w: World, s: SessionId) {
    s in w.board.reg.lost || s in w.misused
  }

  /** What is claimed of one session: agreement while its program runs, and no seat in any call otherwise. */
  ghost predicate AgreedAt(w: World, s: SessionId) {
    Tainted(w, s) ||
    if s in w.ui then s in w.board.reg.index && Agrees(w.board, s, w.ui[s]) else Nowhere(w.board, s)
  }

  ghost predicate Agreed(w: World) {
    forall s :: AgreedAt(w, s)
  }

  // ---- Waiting events ---------------------------------------------------------------

  lemma {:induction false} FirstStays(q: seq<PhoneEvent>, q': seq<PhoneEvent>, id: CallId)
    requires q <= q' && First(q, id).Some?
    ensures First(q', id) == First(q, id)
  {
    if !Signals(q[0], id) {
      FirstStays(q[1..], q'[1..], id);
    }
  }

  lemma {:induction false} FirstNone(q: seq<PhoneEvent>, q': seq<PhoneEvent>, id: CallId)
    requires q <= q' && First(q, id) == None
    requires forall i :: |q| <= i < |q'| ==> !Signals(q'[i], id)
    ensures First(q', id) == None
    decreases q'
  {
    if q' != [] {
      FirstNone(if q == [] then [] else q[1..], q'[1..], id);
    }
  }

  lemma {:induction false} FirstNew(q: seq<PhoneEvent>, q': seq<PhoneEvent>, id: CallId, kind: EventKind)
    requires q < q' && First(q, id) == None
    requires forall i :: |q| <= i < |q'| ==> Signals(q'[i], id) && q'[i].kind == kind
    ensures First(q', id) == Some(kind)
  {
    if q != [] {
      FirstNew(q[1..], q'[1..], id, kind);
    }
  }

  // ---- Those who did not act -----------------------------------------------------------

  ghost predicate SeatsKept(b: Switchboard, b': Switchboard, s: SessionId) {
    forall id :: SeatOf(b', id, s) == SeatOf(b, id, s)
  }

  /** The session keeps its seats and hears nothing that signals about a call it waits on. */
  lemma Bystander(b: Switchboard, b': Switchboard, s: SessionId, u: Ui, events: iset<PhoneEvent>, targets: set<SessionId>)
    requires s in b.reg.index && Agrees(b, s, u) && UiOk(b, s, u)
    requires Later(b, b') && Grown(b.reg, b'.reg, events, targets) && SeatsKept(b, b', s)
    requires u.callId.Some? && Pending(b, u.callId.value) ==>
               s !in targets || forall e :: e in events ==> !Signals(e, u.callId.value)
    ensures Agrees(b', s, u)
  {
    var q, q' := b.reg.index[s].notify, b'.reg.index[s].notify;
    assert GrownAt(b.reg.index[s], b'.reg.index[s], events);
    if u.state == CallPending {
      var id := u.callId.value;
      if First(q, id) == None {
        assert SeatOf(b, id, s) == Some((CallPending, 1));
        FirstNone(q, q', id);
      } else {
        FirstStays(q, q', id);
      }
    }
  }

  predicate Quiet(kinds: set<EventKind>) {
    kinds <= {EventRing, EventRinging, EventAnswerElsewhere, EventAdminNotify}
  }

  /** A step about call `id` that leaves session `s` its seats and its model, and no signal it waits for. */
  ghost predicate Spares(w: World, w': World, s: SessionId, kinds: set<EventKind>, id: CallId, targets: set<SessionId>) {
    && Later(w.board, w'.board) && Grown(w.board.reg, w'.board.reg, About(kinds, id), targets)
    && SeatsKept(w.board, w'.board, s)
    && (s in w'.ui <==> s in w.ui) && (s in w.ui ==> w'.ui[s] == w.ui[s])
    && w.misused <= w'.misused
    && (Quiet(kinds) || !Pending(w.board, id) || Sids(w.board.calls[id].participants) != [s])
  }

  lemma SparedAgrees(w: World, w': World, s: SessionId, kinds: set<EventKind>, id: CallId, targets: set<SessionId>)
    requires Core(w) && AgreedAt(w, s) && Spares(w, w', s, kinds, id, targets)
    ensures AgreedAt(w', s)
  {
    hide Agrees, Sound, QueuesOk, RecordsOk, GateOk, SeatsOk, Agree, GrownAt, Later, SeatOf;
    if !Tainted(w', s) && s in w.ui {
      var u := w.ui[s];
      assert UiOk(w.board, s, u);
      if u.callId.Some? && Pending(w.board, u.callId.value) {
        forall e | e in About(kinds, id) ensures !Signals(e, u.callId.value) {
        }
      }
      Bystander(w.board, w'.board, s, u, About(kinds, id), targets);
    }
  }

  /** A step of session `t` about call `id`, as everyone else meets it. */
  ghost predicate Affects(w: World, w': World, t: SessionId, kinds: set<EventKind>, id: CallId, targets: set<SessionId>) {
    && Later(w.board, w'.board) && Grown(w.board.reg, w'.board.reg, About(kinds, id), targets)
    && (forall s :: s != t ==> SeatsKept(w.board, w'.board, s))
    && UiKept(w, w', t)
    && w.misused <= w'.misused
    && (Quiet(kinds) || !Pending(w.board, id) || Sids(w.board.calls[id].participants) == [t])
  }

  ghost predicate UiKept(w: World, w': World, t: SessionId) {
    forall s :: s != t ==> (s in w'.ui <==> s in w.ui) && (s in w.ui ==> w'.ui[s] == w.ui[s])
  }

  lemma OthersAgree(w: World, w': World, t: SessionId, kinds: set<EventKind>, id: CallId, targets: set<SessionId>)
    requires Core(w) && Agreed(w) && Affects(w, w', t, kinds, id, targets)
    ensures forall s :: s != t ==> AgreedAt(w', s)
  {
    forall s | s != t ensures AgreedAt(w', s) {
      assert AgreedAt(w, s) && SeatsKept(w.board, w'.board, s);
      SparedAgrees(w, w', s, kinds, id, targets);
    }
  }

  // ---- Which seats each method keeps ----------------------------------------------------

  lemma DialSeats(b: Switchboard, id: CallId, sid: SessionId, caller: Account, callee: Account)
    requires id !in b.calls
    ensures forall s :: s != sid ==> SeatsKept(b, PlaceDial(b, id, sid, caller, callee), s)
    ensures Nowhere(b, sid) ==> OnlyIn(PlaceDial(b, id, sid, caller, callee), sid, id, CallPending)
  {
    var b', p := PlaceDial(b, id, sid, caller, callee), Participant(caller, sid, b.chans.serial);
    assert b'.calls == b.calls[id := Call(CallPending, caller, callee, [p])];
    assert Sids([p]) == [sid];
    assert multiset([sid])[sid] == 1;
    assert forall c, s :: c != id ==> SeatOf(b', c, s) == SeatOf(b, c, s);
  }

  /** Call `id` changed, and nothing else. */
  lemma OneCallChanged(b: Switchboard, b': Switchboard, id: CallId)
    requires id in b.calls && (forall c :: c != id ==> (c in b'.calls <==> c in b.calls) && (c in b.calls ==> b'.calls[c] == b.calls[c]))
    ensures forall c, s :: c != id ==> SeatOf(b', c, s) == SeatOf(b, c, s)
  {
  }

  lemma AnswerSeats(b: Switchboard, id: CallId, sid: SessionId, user: Account)
    requires Sound(b) && AnswerError(b, id, user) == None
    ensures var b' := Answer(b, id, sid, user).0;
            && (forall s, c :: c != id ==> SeatOf(b', c, s) == SeatOf(b, c, s))
            && (forall s :: s != sid ==> SeatOf(b', id, s) == if SeatOf(b, id, s) == None then None
                                                              else Some((CallActive, SeatOf(b, id, s).value.1)))
            && (Nowhere(b, sid) ==> OnlyIn(b', sid, id, CallActive))
  {
    AnswerMoves(b, id, sid, user);
    var b' := Answer(b, id, sid, user).0;
    OneCallChanged(b, b', id);
    SeatTaken(b, b', id, sid);
  }

  lemma SeatTaken(b: Switchboard, b': Switchboard, id: CallId, sid: SessionId)
    requires id in b.calls && id in b'.calls && b'.calls[id].state == CallActive
    requires Seats(b'.calls[id]) == Seats(b.calls[id]) + multiset{sid}
    requires forall c, s :: c != id ==> SeatOf(b', c, s) == SeatOf(b, c, s)
    ensures forall s :: s != sid ==> SeatOf(b', id, s) == if SeatOf(b, id, s) == None then None
                                                          else Some((CallActive, SeatOf(b, id, s).value.1))
    ensures Nowhere(b, sid) ==> OnlyIn(b', sid, id, CallActive)
  {
    var m, m' := Seats(b.calls[id]), Seats(b'.calls[id]);
    assert forall s :: s != sid ==> m'[s] == m[s];
    if Nowhere(b, sid) {
      assert SeatOf(b, id, sid) == None;
      assert m'[sid] == 1;
      MovedInto(b, b', id, sid);
    }
  }

  lemma MovedInto(b: Switchboard, b': Switchboard, id: CallId, sid: SessionId)
    requires Nowhere(b, sid) && SeatOf(b', id, sid) == Some((CallActive, 1))
    requires forall c, s :: c != id ==> SeatOf(b', c, s) == SeatOf(b, c, s)
    ensures OnlyIn(b', sid, id, CallActive)
  {
    forall c ensures SeatOf(b', c, sid) == if c == id then Some((CallActive, 1)) else None {
      assert SeatOf(b, c, sid) == None;
    }
  }

  lemma EndDialSeats(b: Switchboard, id: CallId, e: PhoneEvent)
    requires Sound(b) && Pending(b, id)
    ensures var b' := EndDial(b, id, e);
            && (forall s, c :: SeatOf(b', c, s) == if c == id then None else SeatOf(b, c, s))
  {
    EndDialMoves(b, id, e);
  }

  lemma LeaveSeatsKept(b: Switchboard, id: CallId, sid: SessionId)
    requires id in b.calls && CallShape(b.calls[id]) && sid in Sids(b.calls[id].participants)
    ensures forall s :: s != sid ==> SeatsKept(b, Leave(b, id, sid), s)
    ensures OnlyIn(b, sid, id, b.calls[id].state) ==> Nowhere(Leave(b, id, sid), sid)
  {
    hide Leave, Seats, SeatOf;
    LeaveMoves(b, id, sid);
    var b' := Leave(b, id, sid);
    OneCallChanged(b, b', id);
    SeatGivenUp(b, b', id, sid);
  }

  lemma SeatGivenUp(b: Switchboard, b': Switchboard, id: CallId, sid: SessionId)
    requires id in b.calls && sid in Sids(b.calls[id].participants)
    requires if |b.calls[id].participants| == 1 then id !in b'.calls
             else id in b'.calls && b'.calls[id].state == b.calls[id].state
                  && Seats(b'.calls[id]) == Seats(b.calls[id]) - multiset{sid}
    requires forall c, s :: c != id ==> SeatOf(b', c, s) == SeatOf(b, c, s)
    ensures forall s :: s != sid ==> SeatsKept(b, b', s)
    ensures OnlyIn(b, sid, id, b.calls[id].state) ==> Nowhere(b', sid)
  {
    OneSeatLess(b, b', id, sid);
    hide SeatOf, Seats, Sids;
    if OnlyIn(b, sid, id, b.calls[id].state) {
      assert SeatOf(b, id, sid) == Some((b.calls[id].state, 1));
      MovedOut(b, b', id, sid, b.calls[id].state);
    }
  }

  lemma OneSeatLess(b: Switchboard, b': Switchboard, id: CallId, sid: SessionId)
    requires id in b.calls && sid in Sids(b.calls[id].participants)
    requires if |b.calls[id].participants| == 1 then id !in b'.calls
             else id in b'.calls && b'.calls[id].state == b.calls[id].state
                  && Seats(b'.calls[id]) == Seats(b.calls[id]) - multiset{sid}
    ensures forall s :: s != sid ==> SeatOf(b', id, s) == SeatOf(b, id, s)
    ensures SeatOf(b, id, sid) == Some((b.calls[id].state, 1)) ==> SeatOf(b', id, sid) == None
  {
    hide SeatOf, Seats, Sids;
    if |b.calls[id].participants| == 1 {
      LastSeat(b.calls[id], sid);
      NoSeatLeft(b, b', id, sid);
    } else {
      FewerSeats(b, b', id, sid);
    }
  }

  lemma NoSeatLeft(b: Switchboard, b': Switchboard, id: CallId, sid: SessionId)
    requires id in b.calls && id !in b'.calls && Seats(b.calls[id]) == multiset{sid}
    ensures forall s :: s != sid ==> SeatOf(b', id, s) == SeatOf(b, id, s)
    ensures SeatOf(b', id, sid) == None
  {
    hide Seats;
  }

  lemma FewerSeats(b: Switchboard, b': Switchboard, id: CallId, sid: SessionId)
    requires id in b.calls && id in b'.calls && b'.calls[id].state == b.calls[id].state
    requires Seats(b'.calls[id]) == Seats(b.calls[id]) - multiset{sid}
    ensures forall s :: s != sid ==> SeatOf(b', id, s) == SeatOf(b, id, s)
    ensures SeatOf(b, id, sid) == Some((b.calls[id].state, 1)) ==> SeatOf(b', id, sid) == None
  {
    hide Seats;
    var m, m' := Seats(b.calls[id]), Seats(b'.calls[id]);
    assert forall s :: m'[s] == if s == sid && m[s] > 0 then m[s] - 1 else m[s];
  }

  lemma LastSeat(call: Call, sid: SessionId)
    requires |call.participants| == 1 && sid in Sids(call.participants)
    ensures Seats(call) == multiset{sid}
  {
    assert Sids(call.participants) == [sid];
  }

  lemma MovedOut(b: Switchboard, b': Switchboard, id: CallId, sid: SessionId, state: CallState)
    requires OnlyIn(b, sid, id, state) && SeatOf(b', id, sid) == None
    requires forall c, s :: c != id ==> SeatOf(b', c, s) == SeatOf(b, c, s)
    ensures Nowhere(b', sid)
  {
    forall c ensures SeatOf(b', c, sid) == None {
      assert SeatOf(b, c, sid) == if c == id then Some((state, 1)) else None;
    }
  }

  // ---- The caller whose ring ends -----------------------------------------------------------

  lemma WaitingCaller(b: Switchboard, s: SessionId, u: Ui, id: CallId)
    requires s in b.reg.index && Agrees(b, s, u) && Pending(b, id) && Sids(b.calls[id].participants) == [s]
    ensures u.state == CallPending && u.callId == Some(id) && OnlyIn(b, s, id, CallPending)
    ensures First(b.reg.index[s].notify, id) == None
  {
    assert Seats(b.calls[id]) == multiset{s};
    assert SeatOf(b, id, s) == Some((CallPending, 1));
  }

  /** The caller is told the answer, and then perhaps something quiet. */
  lemma CallerAnswered(b: Switchboard, b': Switchboard, reg1: Presence, s: SessionId, u: Ui, id: CallId, more: set<SessionId>)
    requires s in b.reg.index && Agrees(b, s, u) && Pending(b, id) && Sids(b.calls[id].participants) == [s]
    requires Grown(b.reg, reg1, About({EventAnswer}, id), {s})
    requires Grown(reg1, b'.reg, About({EventAnswerElsewhere}, id), more)
    requires OnlyIn(b', s, id, CallActive) && s !in b'.reg.lost
    ensures Agrees(b', s, u)
  {
    WaitingCaller(b, s, u, id);
    var q, q1, q' := b.reg.index[s].notify, reg1.index[s].notify, b'.reg.index[s].notify;
    assert GrownAt(b.reg.index[s], reg1.index[s], About({EventAnswer}, id));
    assert GrownAt(reg1.index[s], b'.reg.index[s], About({EventAnswerElsewhere}, id));
    FirstNew(q, q1, id, EventAnswer);
    FirstStays(q1, q', id);
  }

  /** The caller is told that the ring came to nothing. */
  lemma CallerRefused(b: Switchboard, b': Switchboard, s: SessionId, u: Ui, id: CallId, kind: EventKind)
    requires s in b.reg.index && Agrees(b, s, u) && Pending(b, id) && Sids(b.calls[id].participants) == [s]
    requires kind == EventReject || kind == EventCalleeGone || kind == EventCalleeUnavailable
    requires Grown(b.reg, b'.reg, About({kind}, id), {s})
    requires Nowhere(b', s) && id !in b'.calls && s !in b'.reg.lost
    ensures Agrees(b', s, u)
  {
    WaitingCaller(b, s, u, id);
    assert GrownAt(b.reg.index[s], b'.reg.index[s], About({kind}, id));
    FirstNew(b.reg.index[s].notify, b'.reg.index[s].notify, id, kind);
  }

  // ---- Every step ------------------------------------------------------------------------------

  lemma PendingSeat(b: Switchboard, id: CallId)
    requires Sound(b) && Pending(b, id)
    ensures Sids(b.calls[id].participants) == [b.calls[id].participants[0].sid]
  {
  }

  /** A pending call ends by Reject or by the reaper. */
  lemma EndDialAgrees(w: World, w': World, id: CallId, e: PhoneEvent)
    requires Core(w) && Agreed(w) && Pending(w.board, id) && w'.board == EndDial(w.board, id, e)
    requires e.callId == id && (e.kind == EventReject || e.kind == EventCalleeGone || e.kind == EventCalleeUnavailable)
    requires w'.ui == w.ui && w.misused <= w'.misused
    ensures Agreed(w')
  {
    hide EndDial, QueuesOk, UisOk, RecordsOk, GateOk, Agree, Grown, OneRing, ChansExact;
    var b, b' := w.board, w'.board;
    var t := b.calls[id].participants[0].sid;
    PendingSeat(b, id);
    EndDialMoves(b, id, e);
    EndDialSeats(b, id, e);
    EndDialTells(b, id, e);
    assert Members([t]) == {t};
    EndDialBystanders(b, b', id, t);
    OthersAgree(w, w', t, {e.kind}, id, {t});
    assert AgreedAt(w, t);
    if !Tainted(w', t) {
      assert SeatOf(b, id, t) == Some((CallPending, 1)) by { assert Seats(b.calls[id]) == multiset{t}; }
      WaitingCaller(b, t, w.ui[t], id);
      CallerRefused(b, b', t, w.ui[t], id, e.kind);
    }
    assert AgreedAt(w', t);
  }

  lemma EndDialBystanders(b: Switchboard, b': Switchboard, id: CallId, t: SessionId)
    requires Pending(b, id) && Sids(b.calls[id].participants) == [t]
    requires forall s, c :: SeatOf(b', c, s) == if c == id then None else SeatOf(b, c, s)
    ensures forall s :: s != t ==> SeatsKept(b, b', s)
    ensures OnlyIn(b, t, id, CallPending) ==> Nowhere(b', t)
  {
    assert Seats(b.calls[id]) == multiset{t};
    if OnlyIn(b, t, id, CallPending) {
      forall c ensures SeatOf(b', c, t) == None {
        assert SeatOf(b, c, t) == if c == id then Some((CallPending, 1)) else None;
      }
    }
  }

  /** The board moved without anyone's seat changing and without a signal about a pending call. */
  lemma QuietStep(w: World, w': World, kinds: set<EventKind>, id: CallId, targets: set<SessionId>)
    requires Core(w) && Agreed(w)
    requires w'.board.calls == w.board.calls && w.board.chans.made <= w'.board.chans.made
    requires Grown(w.board.reg, w'.board.reg, About(kinds, id), targets)
    requires w'.ui == w.ui && w.misused <= w'.misused
    requires Quiet(kinds) || !Pending(w.board, id)
    ensures Agreed(w')
  {
    var t := w.board.reg.nextId + 1;
    assert Later(w.board, w'.board);
    OthersAgree(w, w', t, kinds, id, targets);
    OthersAgree(w, w', t + 1, kinds, id, targets);
  }

  lemma SameBoard(w: World, w': World)
    requires Agreed(w) && w'.board == w.board && w'.ui == w.ui && w'.misused == w.misused
    ensures Agreed(w')
  {
    forall s ensures AgreedAt(w', s) {
      assert AgreedAt(w, s);
    }
  }

  lemma ReapAgrees(w: World, sid: SessionId)
    requires Core(w) && Agreed(w)
    ensures Agreed(ApplyReap(w, sid))
  {
    hide Core, Agreed, EndDial, ReapAdd, Settle, Ringable;
    if sid in w.reaping && w.gate == None {
      var b, user, w' := w.board, w.reaping[sid], ApplyReap(w, sid);
      if Ringable(b, user) != {} {
        SameBoard(w, w');
      } else if exists id :: DialRings(b, id, user) {
        var id :| DialRings(b, id, user) && Reap(b, user) == EndDial(b, id, ReapEvent(b, id, b.calls[id].caller, user));
        EndDialAgrees(w, w', id, ReapEvent(b, id, b.calls[id].caller, user));
      } else if exists k :: AddRings(b, k, user) {
        var k :| AddRings(b, k, user) && Reap(b, user) == ReapAdd(b, k);
        ReapAddAgrees(w, w', k);
      } else {
        SameBoard(w, w');
      }
    }
  }

  lemma ReapAddAgrees(w: World, w': World, k: AddKey)
    requires Core(w) && Agreed(w) && k in w.board.adds
    requires w'.board == ReapAdd(w.board, k) && w'.ui == w.ui && w'.misused == w.misused
    ensures Agreed(w')
  {
    hide Agreed, SendEach, OneRing, ChansExact, QueuesOk, SeatsOk, UisOk, RecordsOk, GateOk, Present, Agree;
    var b := w.board;
    var e := ReapEvent(b, k.callId, b.adds[k].inviter, k.callee);
    SendEachGrows(b.reg, Sids(b.calls[k.callId].participants), e, About({e.kind}, k.callId));
    QuietStep(w, w', {e.kind}, k.callId, Members(Sids(b.calls[k.callId].participants)));
  }

  lemma RejectAgrees(w: World, sid: SessionId)
    requires Core(w) && Agreed(w)
    ensures Agreed(ApplyReject(w, sid))
  {
    if Acts(w, sid) && w.ui[sid].incoming.Some? && w.ui[sid].state != CallPending {
      var u, id := w.ui[sid], w.ui[sid].incoming.value;
      var w1 := SetBoard(w, Reject(w.board, id, u.username).0, Declined);
      RejectBoardAgrees(w, w1, id, u.username);
      SameView(w1, sid, AnswerFailed(u));
    }
  }

  lemma RejectBoardAgrees(w: World, w': World, id: CallId, user: Account)
    requires Core(w) && Agreed(w) && w'.board == Reject(w.board, id, user).0 && w'.ui == w.ui && w'.misused == w.misused
    ensures Agreed(w')
  {
    var b := w.board;
    if Pending(b, id) {
      EndDialAgrees(w, w', id, PhoneEvent(EventReject, id, b.calls[id].caller, user));
    } else if id in b.calls {
      var sids := Sids(b.calls[id].participants);
      SendEachGrows(b.reg, sids, PhoneEvent(EventReject, id, "", user), About({EventReject}, id));
      assert b.calls[id].state == CallActive;
      QuietStep(w, w', {EventReject}, id, Members(sids));
    } else {
      SameBoard(w, w');
    }
  }

  /** A model that changed neither its state nor its call still agrees. */
  lemma SameView(w: World, sid: SessionId, u: Ui)
    requires Agreed(w) && sid in w.ui && u.state == w.ui[sid].state && u.callId == w.ui[sid].callId
    ensures Agreed(SetUi(w, sid, u))
  {
    forall s ensures AgreedAt(SetUi(w, sid, u), s) {
      assert AgreedAt(w, s);
    }
  }

  lemma CancelAgrees(w: World, sid: SessionId)
    requires Core(w) && Agreed(w)
    ensures Agreed(ApplyCancel(w, sid))
  {
    hide Sound, QueuesOk, SeatsOk, RecordsOk, Agree, Agreed, GateOk, SendEach, FanOut, Grown;
    if ApplyCancel(w, sid) != w {
      var u := w.ui[sid];
      assert UiOk(w.board, sid, u);
      var w1 := SetBoard(w, CancelAdd(w.board, u.callId.value, u.addTarget.value, u.username), Cancelled);
      var targets := CancelAddTells(w.board, u.callId.value, u.addTarget.value, u.username);
      QuietStep(w, w1, {EventHangup}, u.callId.value, targets);
      SameView(w1, sid, u.(addTarget := None));
    }
  }

  lemma TickAgrees(w: World, stop: Chan)
    requires Core(w) && Agreed(w)
    ensures Agreed(ApplyTick(w, stop))
  {
    if stop in w.rings && w.gate == None && w.rings[stop].id in w.board.calls {
      var r := w.rings[stop];
      var e := PhoneEvent(EventRing, r.id, r.caller, r.callee);
      var w1 := w.(board := RingAll(w.board, r.callee, e));
      RingAllTells(w.board, r.callee, e);
      QuietStep(w, w1, {EventRing}, r.id, Ringable(w.board, r.callee));
      if r.isAdd {
        TickCore(w, stop);
        assert RecordOk(w.board, stop, r);
        RingAllMoves(w.board, r.callee, e);
        BoardStep(w, w1.board, Reaped);
        var targets := AdviseTells(w1.board, r.id, r.caller, r.callee);
        QuietStep(w1, ApplyTick(w, stop), {EventRinging}, r.id, targets);
      }
    }
  }

  lemma NotifyAgrees(w: World, e: PhoneEvent)
    requires Core(w) && Agreed(w)
    ensures Agreed(ApplyNotify(w, e))
  {
    if e.kind == EventAdminNotify {
      FanOutGrows(w.board.reg, AdminSessions(w.board.reg), e, About({EventAdminNotify}, e.callId));
      QuietStep(w, ApplyNotify(w, e), {EventAdminNotify}, e.callId, AdminSessions(w.board.reg));
    }
  }

  // ---- Hanging up ---------------------------------------------------------------------------

  /** Leaving a call disturbs nobody else, and a session that agreed is then in no call. */
  lemma LeaveAgrees(w: World, w': World, id: CallId, sid: SessionId)
    requires Core(w) && Agreed(w) && sid in w.ui
    requires w'.board == Hangup(w.board, id, sid) && w'.misused == w.misused
    requires UiKept(w, w', sid)
    ensures forall s :: s != sid ==> AgreedAt(w', s)
    ensures !Tainted(w', sid) && (SeatOf(w.board, id, sid) != None || Nowhere(w.board, sid)) ==> Nowhere(w'.board, sid)
  {
    if SeatOf(w.board, id, sid) != None {
      LeaveOthers(w, w', id, sid);
      LostGrows(w, w', id, sid);
      assert AgreedAt(w, sid);
      if !Tainted(w', sid) { LeaveSelf(w.board, id, sid, w.ui[sid]); }
    } else {
      NotSeated(w.board, id, sid);
      forall s | s != sid ensures AgreedAt(w', s) { assert AgreedAt(w, s); }
    }
  }

  lemma LeaveSelf(b: Switchboard, id: CallId, sid: SessionId, u: Ui)
    requires Shape(b) && sid in b.reg.index && Agrees(b, sid, u) && SeatOf(b, id, sid) != None
    ensures Nowhere(Leave(b, id, sid), sid)
  {
    hide Leave, Agrees, OnlyIn, Nowhere, First;
    SeatIn(b, id, sid);
    assert CallShape(b.calls[id]);
    OnlyCall(b, id, sid, u);
    LeaveSeatsKept(b, id, sid);
  }

  lemma SeatIn(b: Switchboard, id: CallId, sid: SessionId)
    requires SeatOf(b, id, sid) != None
    ensures id in b.calls && sid in Sids(b.calls[id].participants)
  {
  }

  lemma OnlyCall(b: Switchboard, id: CallId, sid: SessionId, u: Ui)
    requires sid in b.reg.index && Agrees(b, sid, u) && id in b.calls && SeatOf(b, id, sid).Some?
    ensures OnlyIn(b, sid, id, b.calls[id].state)
  {
    hide First, Seats;
  }

  lemma SeatFound(b: Switchboard, id: CallId, sid: SessionId)
    requires Sound(b) && id in b.calls && sid in Sids(b.calls[id].participants)
    ensures SeatOf(b, id, sid).Some? && CallShape(b.calls[id])
  {
    hide ChansExact, OneRing;
  }

  lemma NotSeated(b: Switchboard, id: CallId, sid: SessionId)
    requires SeatOf(b, id, sid) == None
    ensures Hangup(b, id, sid) == b
  {
    if id in b.calls { FindHits(b.calls[id].participants, sid); }
  }

  lemma LeaveOthers(w: World, w': World, id: CallId, sid: SessionId)
    requires Core(w) && Agreed(w) && SeatOf(w.board, id, sid) != None
    requires w'.board == Leave(w.board, id, sid) && w'.misused == w.misused
    requires UiKept(w, w', sid)
    ensures forall s :: s != sid ==> AgreedAt(w', s)
  {
    var b := w.board;
    var targets := LeaveTells(b, id, sid);
    LeaveMoves(b, id, sid);
    LeaveSeatsKept(b, id, sid);
    if Pending(b, id) { PendingSeat(b, id); }
    OthersAgree(w, w', sid, {EventHangup}, id, targets);
  }

  /** Whatever the screen shows, hanging up the call it shows leaves the session in none. */
  lemma OwnCall(w: World, sid: SessionId)
    requires Core(w) && Agreed(w) && sid in w.ui && !Tainted(w, sid) && w.ui[sid].callId.Some?
    ensures SeatOf(w.board, w.ui[sid].callId.value, sid) != None || Nowhere(w.board, sid)
  {
    assert AgreedAt(w, sid) && UiOk(w.board, sid, w.ui[sid]);
    var id := w.ui[sid].callId.value;
    if OnlyIn(w.board, sid, id, CallActive) {
      assert SeatOf(w.board, id, sid) == Some((CallActive, 1));
    } else if OnlyIn(w.board, sid, id, CallPending) {
      assert SeatOf(w.board, id, sid) == Some((CallPending, 1));
    }
  }

  lemma LostGrows(w: World, w': World, id: CallId, sid: SessionId)
    requires w'.board == Hangup(w.board, id, sid) && w'.misused == w.misused
    ensures forall s :: Tainted(w, s) ==> Tainted(w', s)
    ensures w'.board.reg.index.Keys == w.board.reg.index.Keys
  {
    if id in w.board.calls {
      var targets := LeaveTells(w.board, id, sid);
    }
  }

  /** The session has hung up the call its screen showed, and its screen is idle. */
  lemma IdleAfter(w: World, w': World, id: CallId, sid: SessionId)
    requires Core(w) && Agreed(w) && sid in w.ui && w.ui[sid].callId == Some(id)
    requires w'.board == Hangup(w.board, id, sid) && w'.misused == w.misused
    requires UiKept(w, w', sid) && sid in w'.ui && w'.ui[sid].state == CallIdle
    ensures Agreed(w')
  {
    LeaveAgrees(w, w', id, sid);
    LostGrows(w, w', id, sid);
    if !Tainted(w', sid) { OwnCall(w, sid); }
    assert AgreedAt(w', sid);
  }

  lemma StillIdle(w: World, w': World, sid: SessionId)
    requires Core(w) && Agreed(w) && sid in w.ui && w.ui[sid].state == CallIdle
    requires w'.board == w.board && w'.misused == w.misused
    requires UiKept(w, w', sid) && sid in w'.ui && w'.ui[sid].state == CallIdle
    ensures Agreed(w')
  {
    forall s ensures AgreedAt(w', s) { assert AgreedAt(w, s); }
  }

  lemma HangupAgrees(w: World, sid: SessionId)
    requires Core(w) && Agreed(w)
    ensures Agreed(ApplyHangup(w, sid))
  {
    if Acts(w, sid) && w.ui[sid].callId.Some? {
      LeaveBoard(w, w.ui[sid].callId.value, sid, Cancelled);
      IdleAfter(w, ApplyHangup(w, sid), w.ui[sid].callId.value, sid);
    }
  }

  lemma ExitAgrees(w: World, sid: SessionId)
    requires Core(w) && Agreed(w)
    ensures Agreed(ApplyExit(w, sid))
  {
    hide BoardOk, RecordsOk, GateOk, Present, Agreed, LeaveCall, Hangup;
    if Acts(w, sid) && w.ui[sid].inPhone {
      assert UiOk(w.board, sid, w.ui[sid]);
      match w.ui[sid].callId
      case Some(id) =>
        LeaveBoard(w, id, sid, Cancelled);
        IdleAfter(w, ApplyExit(w, sid), id, sid);
      case None =>
        StillIdle(w, ApplyExit(w, sid), sid);
    }
  }

  lemma LeaveBoard(w: World, id: CallId, sid: SessionId, outcome: Outcome)
    ensures LeaveCall(w, id, sid, outcome).board == Hangup(w.board, id, sid)
    ensures LeaveCall(w, id, sid, outcome).ui == w.ui && LeaveCall(w, id, sid, outcome).misused == w.misused
  {
    if id in w.board.calls && sid !in Sids(w.board.calls[id].participants) {
      NotSeated(w.board, id, sid);
    }
  }

  lemma TeardownHangupAgrees(w: World, sid: SessionId, pick: Option<CallId>)
    requires Core(w) && Agreed(w)
    ensures Agreed(ApplyTeardownHangup(w, sid, pick))
  {
    hide Core, Agrees, LeaveCall, Hangup, Nowhere, SeatOf;
    if Acts(w, sid) && Picks(w.board, sid, pick) {
      var w' := ApplyTeardownHangup(w, sid, pick);
      match pick
      case Some(id) =>
        LeaveBoard(w, id, sid, TornDown);
        CoreSound(w);
        SeatFound(w.board, id, sid);
        LeaveAgrees(w, w', id, sid);
        assert AgreedAt(w', sid);
      case None =>
        NotInCall(w.board, sid);
        forall s ensures AgreedAt(w', s) { assert AgreedAt(w, s); }
    }
  }

  lemma CoreSound(w: World)
    requires Core(w)
    ensures Sound(w.board)
  {
  }

  lemma NotInCall(b: Switchboard, sid: SessionId)
    requires !InCall(b, sid)
    ensures Nowhere(b, sid)
  {
    forall id ensures SeatOf(b, id, sid) == None {
    }
  }

  /** The registry gained or lost a session in no call; the others keep their queues. */
  lemma PresenceAgrees(w: World, w': World, sid: SessionId)
    requires Agreed(w) && w'.board.calls == w.board.calls && w'.misused == w.misused
    requires w.board.reg.lost <= w'.board.reg.lost
    requires forall s :: s != sid && s in w.ui && s in w.board.reg.index ==>
               s in w'.board.reg.index && w'.board.reg.index[s] == w.board.reg.index[s]
    requires UiKept(w, w', sid)
    ensures forall s :: s != sid ==> AgreedAt(w', s)
    ensures Nowhere(w.board, sid) ==> Nowhere(w'.board, sid)
  {
    assert forall id, s :: SeatOf(w'.board, id, s) == SeatOf(w.board, id, s);
    forall s | s != sid ensures AgreedAt(w', s) {
      assert AgreedAt(w, s);
      if Nowhere(w.board, s) {
        assert Nowhere(w'.board, s);
      }
      if !Tainted(w, s) && s in w.ui && w.ui[s].callId.Some? {
        assert forall state :: OnlyIn(w.board, s, w.ui[s].callId.value, state) ==> OnlyIn(w'.board, s, w.ui[s].callId.value, state);
      }
    }
  }

  lemma ConnectAgrees(w: World, username: Account, role: string, visible: bool)
    requires Core(w) && Agreed(w)
    ensures Agreed(ApplyConnect(w, username, role, visible))
  {
    hide Sound, QueuesOk, UisOk, RecordsOk, GateOk, SeatsOk, Agree, Nowhere, Register;
    var w', sid := ApplyConnect(w, username, role, visible), w.board.reg.nextId + 1;
    NextIsNew(w.board.reg);
    RegisterIndex(w.board.reg, username, role, visible);
    RegisterLoses(w.board.reg, username, role, visible);
    assert AgreedAt(w, sid);
    PresenceAgrees(w, w', sid);
    assert AgreedAt(w', sid);
  }

  lemma RegisterLoses(r: Presence, username: Account, role: string, visible: bool)
    ensures Register(r, username, role, visible, "LOBBY").lost == r.lost
  {
  }

  lemma UnregisterAgrees'(w: World, sid: SessionId)
    requires Core(w) && Agreed(w)
    ensures Agreed(ApplyUnregister(w, sid))
  {
    hide Sound, QueuesOk, UisOk, RecordsOk, GateOk, Agrees, Nowhere;
    if sid in w.leaving && sid in w.board.reg.index {
      var w' := ApplyUnregister(w, sid);
      assert AgreedAt(w, sid);
      PresenceAgrees(w, w', sid);
      assert AgreedAt(w', sid);
    }
  }

  // ---- Placing and answering a ring ------------------------------------------------------------

  lemma CommitAgrees(w: World, id: CallId)
    requires Core(w) && Agreed(w)
    ensures Agreed(ApplyCommit(w, id))
  {
    match w.gate
    case Some(DialGate(sid, callee)) =>
      if Fresh(w.board, id) { CommitDialAgrees(w, id, sid, callee); }
    case Some(AddGate(sid, call, callee)) =>
      CommitAddAgrees(w, id, sid, call, callee);
    case _ =>
  }

  lemma DialTells(b: Switchboard, id: CallId, sid: SessionId, caller: Account, callee: Account) returns (targets: set<SessionId>)
    ensures Grown(b.reg, PlaceDial(b, id, sid, caller, callee).reg, About({EventRing}, id), targets)
  {
    var b1 := PlaceDial(b, id, sid, caller, callee).(reg := b.reg);
    var e := PhoneEvent(EventRing, id, caller, callee);
    targets := Ringable(b1, callee);
    FanOutGrows(b.reg, targets, e, About({EventRing}, id));
  }

  lemma CommitDialAgrees(w: World, id: CallId, sid: SessionId, callee: Account)
    requires Core(w) && Agreed(w) && w.gate == Some(DialGate(sid, callee)) && Fresh(w.board, id)
    ensures Agreed(ApplyCommit(w, id))
  {
    hide PlaceDial, Sound, QueuesOk, UisOk, RecordsOk, SeatsOk, Agree, SeatOf, Nowhere;
    var u, w' := w.ui[sid], ApplyCommit(w, id);
    var targets := CommitDialOthers(w, w', id, sid, callee);
    assert AgreedAt(w, sid);
    if !Tainted(w', sid) {
      DialSeats(w.board, id, sid, u.username, callee);
      DialerAgrees(w.board, w'.board, id, sid, w'.ui[sid], targets);
    }
    assert AgreedAt(w', sid);
  }

  lemma CommitDialOthers(w: World, w': World, id: CallId, sid: SessionId, callee: Account) returns (targets: set<SessionId>)
    requires Core(w) && Agreed(w) && sid in w.ui && Fresh(w.board, id)
    requires w'.board == PlaceDial(w.board, id, sid, w.ui[sid].username, callee) && UiKept(w, w', sid) && w'.misused == w.misused
    ensures forall s :: s != sid ==> AgreedAt(w', s)
    ensures id !in w.board.calls && Grown(w.board.reg, w'.board.reg, About({EventRing}, id), targets)
  {
    var u := w.ui[sid];
    PlaceDialMoves(w.board, id, sid, u.username, callee);
    DialSeats(w.board, id, sid, u.username, callee);
    targets := DialTells(w.board, id, sid, u.username, callee);
    OthersAgree(w, w', sid, {EventRing}, id, targets);
  }

  /** A fresh call ID is in no queue, so the dialler starts with nothing waiting. */
  lemma DialerAgrees(b: Switchboard, b': Switchboard, id: CallId, sid: SessionId, u: Ui, targets: set<SessionId>)
    requires QueuesOk(b) && Fresh(b, id) && sid in b.reg.index
    requires Grown(b.reg, b'.reg, About({EventRing}, id), targets)
    requires OnlyIn(b', sid, id, CallPending) && u.state == CallPending && u.callId == Some(id)
    ensures Agrees(b', sid, u)
  {
    var q, q' := b.reg.index[sid].notify, b'.reg.index[sid].notify;
    assert GrownAt(b.reg.index[sid], b'.reg.index[sid], About({EventRing}, id));
    forall i | 0 <= i < |q| ensures !Signals(q[i], id) {
      assert EventOk(b, b.reg.index[sid].username, q[i]);
    }
    FirstNone([], q', id);
  }

  lemma CommitAddAgrees(w: World, id: CallId, sid: SessionId, call: CallId, callee: Account)
    requires Core(w) && Agreed(w) && w.gate == Some(AddGate(sid, call, callee))
    ensures Agreed(ApplyCommit(w, id))
  {
    var u := w.ui[sid];
    var b' := PlaceAdd(w.board, call, u.username, callee);
    var e := PhoneEvent(EventRing, call, u.username, callee);
    var b1 := b'.(reg := w.board.reg);
    var b2 := RingAll(b1, callee, e);
    FanOutGrows(w.board.reg, Ringable(b1, callee), e, About({EventRing, EventRinging}, call));
    var sids := OthersByName(b2.calls[call].participants, u.username);
    SendEachGrows(b2.reg, sids, PhoneEvent(EventRinging, call, u.username, callee), About({EventRing, EventRinging}, call));
    GrownTwice(w.board.reg, b2.reg, b'.reg, About({EventRing, EventRinging}, call), Ringable(b1, callee), Members(sids));
    var w1 := w.(board := b', gate := None, rings := ApplyCommit(w, id).rings);
    QuietStep(w, w1, {EventRing, EventRinging}, call, Ringable(b1, callee) + Members(sids));
    SameView(w1, sid, u.(addTarget := Some(callee)));
  }

  lemma AnswerAgrees(w: World, sid: SessionId)
    requires Core(w) && Agreed(w)
    ensures Agreed(ApplyAnswer(w, sid))
  {
    hide Agreed, ApplyAnswer, Answer, AnswerError, OneRing, ChansExact, QueuesOk, SeatsOk, RecordsOk, GateOk, Present, Agree;
    if Acts(w, sid) && w.ui[sid].incoming.Some? && w.ui[sid].state != CallPending {
      var u, id := w.ui[sid], w.ui[sid].incoming.value;
      assert UiOk(w.board, sid, u);
      assert id in w.board.calls ==> CallShape(w.board.calls[id]);
      AnswerOutcome(w, sid);
      if AnswerError(w.board, id, u.username) != None {
        SameView(w, sid, AnswerFailed(u));
      } else {
        AnsweredAgrees(w, ApplyAnswer(w, sid), id, sid);
      }
    } else {
      AnswerIdle(w, sid);
    }
  }

  lemma AnsweredAgrees(w: World, w': World, id: CallId, sid: SessionId)
    requires Core(w) && Agreed(w) && sid in w.ui && AnswerError(w.board, id, w.ui[sid].username) == None
    requires Pending(w.board, id) ==> w.board.calls[id].callee == w.ui[sid].username
    requires w'.board == Answer(w.board, id, sid, w.ui[sid].username).0
    requires sid in w'.ui && w'.ui[sid].state == CallActive && w'.ui[sid].callId == Some(id)
    requires UiKept(w, w', sid) && w.misused <= w'.misused && (w.ui[sid].state == CallIdle || sid in w'.misused)
    ensures Agreed(w')
  {
    if w.board.calls[id].state == CallActive {
      JoinOthers(w, w', id, sid, w.ui[sid].username);
    } else {
      FirstAnswerOthers(w, w', id, sid, w.ui[sid].username);
    }
    AnswererAgrees(w, w', id, sid);
  }

  /** The answering session, if it was idle, is now in this call and in no other. */
  lemma AnswererAgrees(w: World, w': World, id: CallId, sid: SessionId)
    requires Core(w) && Agreed(w) && sid in w.ui && AnswerError(w.board, id, w.ui[sid].username) == None
    requires w'.board == Answer(w.board, id, sid, w.ui[sid].username).0 && sid in w'.ui && sid in w'.board.reg.index
    requires w'.ui[sid].state == CallActive && w'.ui[sid].callId == Some(id)
    requires w.board.reg.lost <= w'.board.reg.lost && w.misused <= w'.misused
    requires w.ui[sid].state == CallIdle || sid in w'.misused
    ensures AgreedAt(w', sid)
  {
    hide Answer, OneRing, ChansExact, QueuesOk, SeatsOk, UisOk, RecordsOk, GateOk, Present, Agree, SeatOf;
    AnswerSeats(w.board, id, sid, w.ui[sid].username);
    assert AgreedAt(w, sid);
  }

  lemma JoinOthers(w: World, w': World, id: CallId, sid: SessionId, user: Account)
    requires Core(w) && Agreed(w) && Active(w.board, id) && AnswerError(w.board, id, user) == None
    requires w'.board == Answer(w.board, id, sid, user).0 && w.misused <= w'.misused && UiKept(w, w', sid)
    ensures forall s :: s != sid ==> AgreedAt(w', s)
    ensures w.board.reg.lost <= w'.board.reg.lost && w'.board.reg.index.Keys == w.board.reg.index.Keys
  {
    var targets := AnswerAddTells(w.board, id, sid, user);
    AnswerMoves(w.board, id, sid, user);
    AnswerSeats(w.board, id, sid, user);
    JoinSeats(w.board, w'.board, id, sid);
    OthersAgree(w, w', sid, {EventAnswer}, id, targets);
  }

  /** Joining an active call keeps every other seat; the first answer keeps all but the caller's. */
  lemma JoinSeats(b: Switchboard, b': Switchboard, id: CallId, sid: SessionId)
    requires forall s, c :: c != id ==> SeatOf(b', c, s) == SeatOf(b, c, s)
    requires forall s :: s != sid ==> SeatOf(b', id, s) == if SeatOf(b, id, s) == None then None
                                                            else Some((CallActive, SeatOf(b, id, s).value.1))
    ensures forall s :: s != sid && (Active(b, id) || SeatOf(b, id, s) == None) ==> SeatsKept(b, b', s)
  {
    forall s | s != sid && (Active(b, id) || SeatOf(b, id, s) == None) ensures SeatsKept(b, b', s) {
      forall c ensures SeatOf(b', c, s) == SeatOf(b, c, s) {
      }
    }
  }

  lemma FirstAnswerOthers(w: World, w': World, id: CallId, sid: SessionId, user: Account)
    requires Core(w) && Agreed(w) && Pending(w.board, id) && sid in w.ui && w.ui[sid].username == user
    requires w.board.calls[id].callee == user
    requires w'.board == Answer(w.board, id, sid, user).0 && w.misused <= w'.misused && UiKept(w, w', sid)
    ensures forall s :: s != sid ==> AgreedAt(w', s)
    ensures w.board.reg.lost <= w'.board.reg.lost && w'.board.reg.index.Keys == w.board.reg.index.Keys
  {
    hide AnswerDial, AnswerAdd, OneRing, ChansExact, QueuesOk, UisOk, RecordsOk, GateOk, Agree, SeatsOk, AgreedAt, SeatOf;
    var t, more := w.board.calls[id].participants[0].sid, SessionsOf(w.board.reg, user) - {sid};
    PendingSeat(w.board, id);
    var reg1 := AnswerDialTells(w.board, id, sid, user);
    AnswerMoves(w.board, id, sid, user);
    AnswerSeats(w.board, id, sid, user);
    FirstAnswerGrown(w.board.reg, reg1, w'.board.reg, id, {t}, more);
    forall s | s != sid ensures AgreedAt(w', s) {
      FirstAnswerOther(w, w', reg1, id, sid, s, t, more);
    }
  }

  lemma FirstAnswerOther(w: World, w': World, reg1: Presence, id: CallId, sid: SessionId, s: SessionId, t: SessionId, more: set<SessionId>)
    requires Core(w) && Agreed(w) && Pending(w.board, id) && Sids(w.board.calls[id].participants) == [t] && s != sid
    requires w.misused <= w'.misused && UiKept(w, w', sid) && Later(w.board, w'.board)
    requires Grown(w.board.reg, reg1, About({EventAnswer}, id), {t}) && Grown(reg1, w'.board.reg, About({EventAnswerElsewhere}, id), more)
    requires Grown(w.board.reg, w'.board.reg, About({EventAnswer, EventAnswerElsewhere}, id), {t} + more)
    requires forall x, c :: c != id ==> SeatOf(w'.board, c, x) == SeatOf(w.board, c, x)
    requires forall x :: x != sid ==> SeatOf(w'.board, id, x) == if SeatOf(w.board, id, x) == None then None
                                                                   else Some((CallActive, SeatOf(w.board, id, x).value.1))
    ensures AgreedAt(w', s)
  {
    hide Sound, QueuesOk, UisOk, RecordsOk, GateOk, Agree, SeatsOk, Agrees, Later;
    assert AgreedAt(w, s) && Seats(w.board.calls[id]) == multiset{t};
    if s != t {
      assert SeatOf(w.board, id, s) == None;
      JoinSeats(w.board, w'.board, id, sid);
      SparedAgrees(w, w', s, {EventAnswer, EventAnswerElsewhere}, id, {t} + more);
    } else if !Tainted(w', t) {
      assert SeatOf(w.board, id, t) == Some((CallPending, 1));
      AnsweredCaller(w, w'.board, reg1, id, t, more);
    }
  }

  lemma AnsweredCaller(w: World, b': Switchboard, reg1: Presence, id: CallId, t: SessionId, more: set<SessionId>)
    requires Core(w) && AgreedAt(w, t) && !Tainted(w, t) && t !in b'.reg.lost
    requires Pending(w.board, id) && Sids(w.board.calls[id].participants) == [t]
    requires Grown(w.board.reg, reg1, About({EventAnswer}, id), {t}) && Grown(reg1, b'.reg, About({EventAnswerElsewhere}, id), more)
    requires SeatOf(b', id, t) == Some((CallActive, 1)) && (forall c :: c != id ==> SeatOf(b', c, t) == SeatOf(w.board, c, t))
    ensures t in w.ui && Agrees(b', t, w.ui[t])
  {
    assert Seats(w.board.calls[id]) == multiset{t};
    assert SeatOf(w.board, id, t) == Some((CallPending, 1));
    WaitingCaller(w.board, t, w.ui[t], id);
    forall c ensures SeatOf(b', c, t) == if c == id then Some((CallActive, 1)) else None {
      assert SeatOf(w.board, c, t) == if c == id then Some((CallPending, 1)) else None;
    }
    CallerAnswered(w.board, b', reg1, t, w.ui[t], id, more);
  }

  lemma FirstAnswerGrown(r: Presence, r1: Presence, r': Presence, id: CallId, first: set<SessionId>, second: set<SessionId>)
    requires Grown(r, r1, About({EventAnswer}, id), first) && Grown(r1, r', About({EventAnswerElsewhere}, id), second)
    ensures Grown(r, r', About({EventAnswer, EventAnswerElsewhere}, id), first + second)
  {
    var events := About({EventAnswer, EventAnswerElsewhere}, id);
    GrownWiden(r, r1, About({EventAnswer}, id), events, first);
    GrownWiden(r1, r', About({EventAnswerElsewhere}, id), events, second);
    GrownTwice(r, r1, r', events, first, second);
  }

  // ---- Consuming an event -----------------------------------------------------------------------

  /** How one event moves a model's state and call. */
  lemma HandleMoves(u: Ui, e: PhoneEvent)
    requires (u.callId == None <==> u.state == CallIdle) && (u.inPhone || u.state == CallIdle)
    ensures var (u', hangsUp) := Handle(u, e);
            match u.state
            case CallIdle => !hangsUp && u'.state == CallIdle
            case CallActive => if hangsUp then u'.state == CallIdle else u'.state == CallActive && u'.callId == u.callId
            case CallPending =>
              && !hangsUp
              && (!Signals(e, u.callId.value) ==> u'.state == CallPending && u'.callId == u.callId)
              && (Signals(e, u.callId.value) && e.kind == EventAnswer ==> u'.state == CallActive && u'.callId == u.callId)
              && (Signals(e, u.callId.value) && e.kind != EventAnswer && e.kind != EventHangup ==> u'.state == CallIdle)
  {
  }

  lemma SameSeatsAgree(b: Switchboard, b': Switchboard, sid: SessionId)
    requires b'.calls == b.calls
    ensures Nowhere(b, sid) ==> Nowhere(b', sid)
    ensures forall id, state :: OnlyIn(b, sid, id, state) ==> OnlyIn(b', sid, id, state)
  {
    assert forall c :: SeatOf(b', c, sid) == SeatOf(b, c, sid);
  }

  /** What a screen that agrees makes of its oldest event. */
  lemma HandleAgrees(b: Switchboard, b': Switchboard, sid: SessionId, u: Ui)
    requires sid in b.reg.index && Agrees(b, sid, u) && UiOk(b, sid, u)
    requires b.reg.index[sid].notify != [] && b' == b.(reg := Receive(b.reg, sid))
    ensures var (u', hangsUp) := Handle(u, b.reg.index[sid].notify[0]);
            if hangsUp then u.callId.Some? && Agrees(b', sid, u) else Agrees(b', sid, u')
  {
    HandleMoves(u, b.reg.index[sid].notify[0]);
    SameSeatsAgree(b, b', sid);
    assert b'.reg.index[sid].notify == b.reg.index[sid].notify[1..];
  }

  lemma ConsumeAgrees(w: World, sid: SessionId)
    requires Core(w) && Agreed(w)
    ensures Agreed(ApplyConsume(w, sid))
  {
    if sid in w.ui && w.board.reg.index[sid].notify != [] {
      var (u', hangsUp) := Handle(w.ui[sid], w.board.reg.index[sid].notify[0]);
      if w.gate == None || (!hangsUp && w.gate.value.sid != sid) {
        var w1 := w.(board := w.board.(reg := Receive(w.board.reg, sid)));
        ReceiveOk(w, sid);
        ReceiveAgrees(w, w1, sid, u', hangsUp);
        HandledAgrees(w1, sid, u', hangsUp);
      }
    }
  }

  /** After the receive and the handling, before any hangup. */
  ghost predicate Handled(w: World, sid: SessionId, u': Ui, hangsUp: bool) {
    if hangsUp then sid in w.ui && w.ui[sid].callId.Some? && u'.state == CallIdle && Agreed(w)
    else (forall s :: s != sid ==> AgreedAt(w, s)) && AgreedAt(SetUi(w, sid, u'), sid)
  }

  lemma ReceiveAgrees(w: World, w1: World, sid: SessionId, u': Ui, hangsUp: bool)
    requires Core(w) && Agreed(w) && sid in w.ui && w.board.reg.index[sid].notify != []
    requires w1 == w.(board := w.board.(reg := Receive(w.board.reg, sid)))
    requires (u', hangsUp) == Handle(w.ui[sid], w.board.reg.index[sid].notify[0])
    ensures Handled(w1, sid, u', hangsUp)
  {
    hide Handle, Sound, QueuesOk, RecordsOk, GateOk, Agree, SeatsOk, Agrees, First;
    PresenceAgrees(w, w1, sid);
    assert AgreedAt(w, sid) && UiOk(w.board, sid, w.ui[sid]);
    HandleMoves(w.ui[sid], w.board.reg.index[sid].notify[0]);
    if !Tainted(w, sid) {
      HandleAgrees(w.board, w1.board, sid, w.ui[sid]);
    }
  }

  lemma HandledAgrees(w: World, sid: SessionId, u': Ui, hangsUp: bool)
    requires Core(w) && sid in w.ui && Handled(w, sid, u', hangsUp)
    ensures var id := w.ui[sid].callId;
            Agreed(SetUi(if hangsUp && id.Some? then LeaveCall(w, id.value, sid, Cancelled) else w, sid, u'))
  {
    hide Core, LeaveCall, Hangup, AgreedAt;
    if hangsUp {
      var id := w.ui[sid].callId.value;
      LeaveBoard(w, id, sid, Cancelled);
      IdleAfter(w, SetUi(LeaveCall(w, id, sid, Cancelled), sid, u'), id, sid);
    } else {
      ShownAgrees(w, SetUi(w, sid, u'), sid);
    }
  }

  lemma ShownAgrees(w: World, w': World, sid: SessionId)
    requires forall s :: s != sid ==> AgreedAt(w, s)
    requires w'.board == w.board && w'.misused == w.misused && UiKept(w, w', sid) && AgreedAt(w', sid)
    ensures Agreed(w')
  {
    forall s ensures AgreedAt(w', s) {
      if s != sid { assert AgreedAt(w, s); }
    }
  }

  // ---- The theorem -------------------------------------------------------------------------------

  lemma RingAgrees(w: World, sid: SessionId, target: Account)
    requires Agreed(w)
    ensures Agreed(ApplyRing(w, sid, target)) && Agreed(ApplyRecheck(w))
  {
    SameBoard(w, ApplyRing(w, sid, target));
    SameBoard(w, ApplyRecheck(w));
  }

  lemma EnterAgrees(w: World, sid: SessionId)
    requires Core(w) && Agreed(w)
    ensures Agreed(ApplyEnter(w, sid))
  {
    if Acts(w, sid) && !w.ui[sid].inPhone {
      assert UiOk(w.board, sid, w.ui[sid]);
      StillIdle(w, ApplyEnter(w, sid), sid);
    }
  }

  lemma TypeAgrees(w: World, sid: SessionId)
    requires Core(w) && Agreed(w)
    ensures Agreed(ApplyType(w, sid))
  {
    if Acts(w, sid) && w.ui[sid].callId.Some? {
      BroadcastSound(w.board, w.ui[sid].callId.value, w.ui[sid].username);
      SameBoard(w, ApplyType(w, sid));
    }
  }

  lemma StepAgreed(w: World, step: Step)
    requires Core(w) && Agreed(w)
    ensures Agreed(Apply(w, step))
  {
    hide Core, Agreed, ApplyConnect, ApplyTeardownHangup, ApplyUnregister, ApplyReap, ApplyCommit, ApplyAnswer,
         ApplyReject, ApplyHangup, ApplyExit, ApplyCancel, ApplyType, ApplyConsume, ApplyTick, ApplyRing,
         ApplyRecheck, ApplyEnter, ApplyNotify;
    match step
    case Connect(username, role, visible) => ConnectAgrees(w, username, role, visible);
    case TeardownHangup(sid, pick) => TeardownHangupAgrees(w, sid, pick);
    case TeardownUnregister(sid) => UnregisterAgrees'(w, sid);
    case TeardownReap(sid) => ReapAgrees(w, sid);
    case EnterPhone(sid) => EnterAgrees(w, sid);
    case Ring(sid, target) => RingAgrees(w, sid, target);
    case Recheck => RingAgrees(w, 0, "");
    case Commit(id) => CommitAgrees(w, id);
    case AnswerKey(sid) => AnswerAgrees(w, sid);
    case RejectKey(sid) => RejectAgrees(w, sid);
    case HangupKey(sid) => HangupAgrees(w, sid);
    case ExitKey(sid) => ExitAgrees(w, sid);
    case CancelKey(sid) => CancelAgrees(w, sid);
    case TypeKey(sid) => TypeAgrees(w, sid);
    case Consume(sid) => ConsumeAgrees(w, sid);
    case RingTick(stop) => TickAgrees(w, stop);
    case NotifyAdmins(e) => NotifyAgrees(w, e);
  }

  lemma StartHolds()
    ensures Core(START) && Agreed(START)
  {
  }

  lemma {:induction false} RunKeeps(w: World, steps: seq<Step>)
    requires Core(w) && Agreed(w)
    ensures Core(Run(w, steps)) && Agreed(Run(w, steps))
    decreases steps
  {
    if steps != [] {
      StepCore(w, steps[0]);
      StepAgreed(w, steps[0]);
      RunKeeps(Apply(w, steps[0]), steps[1..]);
    }
  }

  /** In every reachable state, every untainted session's screen agrees with the table. */
  lemma ScreensAgree(steps: seq<Step>, sid: SessionId)
    ensures var w := Run(START, steps);
            !Tainted(w, sid) ==>
              if sid in w.ui then sid in w.board.reg.index && Agrees(w.board, sid, w.ui[sid]) else Nowhere(w.board, sid)
  {
    StartHolds();
    RunKeeps(START, steps);
    assert AgreedAt(Run(START, steps), sid);
  }

  /**
    The branch of handlePhoneEvent kept only as a guard is never taken by a session that
    lost no event: over every run, what a pending caller consumes is no EventHangup for
    its own call.
   */
  lemma NoHangupWhilePending(steps: seq<Step>, sid: SessionId)
    requires var w := Run(START, steps);
             && !Tainted(w, sid) && sid in w.ui && w.ui[sid].state == CallPending
             && sid in w.board.reg.index && w.board.reg.index[sid].notify != []
             && w.board.reg.index[sid].notify[0].kind == EventHangup
    ensures var w := Run(START, steps); Some(w.board.reg.index[sid].notify[0].callId) != w.ui[sid].callId
  {
    ScreensAgree(steps, sid);
  }
}
