/**
  The life of every ring as a history of events. What a step does to the rings is read
  off its guards alone, the table is shown to change exactly so, and the counts of a
  whole run follow from the history: no record kept beside the table has a say in them.
 */
module RingEvents {
  import opened Wrappers
  import opened Ordering
  import opened Registry
  import opened CallTable
  import opened TableInvariant
  import opened TableMotion
  import opened Protocol
  import opened WorldInvariant
  import opened Agreement
  import opened Reachability
  import opened RingHistory
  import opened ScreenLaws

  // ---- The rings of a table --------------------------------------------------------------

  /** The outstanding rings: one for each pending call and one for each ADD entry. */
  function Stops(b: Switchboard): set<Chan> {
    (set id | id in b.calls && b.calls[id].state == CallPending :: DialStop(id))
    + (set k | k in b.adds :: AddStop(k, b.adds[k].serial))
  }

  function CallOf(c: Chan): CallId {
    match c case DialStop(id) => id case AddStop(k, n) => k.callId case Incoming(id, p) => id
  }

  /** The account that a ring is aimed at. */
  function CalleeOf(b: Switchboard, c: Chan): Account {
    match c
    case DialStop(id) => if id in b.calls then b.calls[id].callee else ""
    case AddStop(k, n) => k.callee
    case Incoming(id, p) => ""
  }

  function StopsIn(b: Switchboard, id: CallId): set<Chan> {
    set c | c in Stops(b) && CallOf(c) == id
  }

  function RingsAt(b: Switchboard, user: Account): set<Chan> {
    set c | c in Stops(b) && CalleeOf(b, c) == user
  }

  /** The ring by which this account is offered this call. */
  function RingFor(b: Switchboard, id: CallId, user: Account): Option<Chan> {
    if Pending(b, id) then Some(DialStop(id))
    else if Active(b, id) && AddKey(id, user) in b.adds then Some(AddStop(AddKey(id, user), b.adds[AddKey(id, user)].serial))
    else None
  }

  // ---- What a step does to them --------------------------------------------------------------

  datatype Happening =
    | Quiet
    | Places(ring: Chan, id: CallId, user: Account, isAdd: bool)
    | Answers(ring: Chan, id: CallId, user: Account)
    | Declines(ring: Chan, id: CallId, user: Account)
    | Cancels(ring: Chan, id: CallId, user: Account)
    | Reaps(ring: Chan, id: CallId, user: Account)
    | Departs(id: CallId, rings: set<Chan>, torn: bool)

  /** A session leaves a call; the last to leave takes the call's rings along. */
  function LeaveHappens(b: Switchboard, id: CallId, sid: SessionId, torn: bool): Happening {
    if id in b.calls && sid in Sids(b.calls[id].participants) then
      Departs(id, if |b.calls[id].participants| == 1 then StopsIn(b, id) else {}, torn)
    else Quiet
  }

  function CommitHappens(w: World, id: CallId): Happening {
    match w.gate
    case Some(DialGate(sid, callee)) =>
      if sid in w.ui && DialStop(id) !in w.board.chans.made then Places(DialStop(id), id, callee, false) else Quiet
    case Some(AddGate(sid, call, callee)) =>
      if sid in w.ui && call in w.board.calls then Places(AddStop(AddKey(call, callee), w.board.chans.serial), call, callee, true)
      else Quiet
    case _ => Quiet
  }

  function AnswerHappens(w: World, sid: SessionId): Happening {
    if !Acts(w, sid) || w.ui[sid].incoming == None || w.ui[sid].state == CallPending then Quiet else
      var id, user := w.ui[sid].incoming.value, w.ui[sid].username;
      if RingFor(w.board, id, user).Some? then Answers(RingFor(w.board, id, user).value, id, user) else Quiet
  }

  function RejectHappens(w: World, sid: SessionId): Happening {
    if !Acts(w, sid) || w.ui[sid].incoming == None || w.ui[sid].state == CallPending then Quiet else
      var id, user := w.ui[sid].incoming.value, w.ui[sid].username;
      if RingFor(w.board, id, user).Some? then Declines(RingFor(w.board, id, user).value, id, user) else Quiet
  }

  function CancelHappens(w: World, sid: SessionId): Happening {
    if !Acts(w, sid) || w.ui[sid].state != CallActive || w.ui[sid].addTarget == None || w.ui[sid].callId == None then Quiet else
      var k := AddKey(w.ui[sid].callId.value, w.ui[sid].addTarget.value);
      if k in w.board.adds then Cancels(AddStop(k, w.board.adds[k].serial), k.callId, k.callee) else Quiet
  }

  ghost function ReapHappens(w: World, sid: SessionId): Happening {
    if sid !in w.reaping || w.gate != None then Quiet else
      var user := w.reaping[sid];
      if Ringable(w.board, user) == {} && RingsAt(w.board, user) != {} then
        var c :| c in RingsAt(w.board, user);
        Reaps(c, CallOf(c), user)
      else Quiet
  }

  function ConsumeHappens(w: World, sid: SessionId): Happening {
    if sid !in w.ui || sid !in w.board.reg.index || w.board.reg.index[sid].notify == [] || w.gate != None then Quiet
    else if EveryoneLeft(w.ui[sid], w.board.reg.index[sid].notify[0]) then
      LeaveHappens(w.board, w.ui[sid].callId.value, sid, false)
    else Quiet
  }

  /** Read off the state before the step, and off nothing that the step leaves behind. */
  ghost function Happens(w: World, step: Step): Happening {
    match step
    case Commit(id) => CommitHappens(w, id)
    case AnswerKey(sid) => AnswerHappens(w, sid)
    case RejectKey(sid) => RejectHappens(w, sid)
    case CancelKey(sid) => CancelHappens(w, sid)
    case TeardownReap(sid) => ReapHappens(w, sid)
    case HangupKey(sid) =>
      if Acts(w, sid) && w.ui[sid].callId.Some? then LeaveHappens(w.board, w.ui[sid].callId.value, sid, false) else Quiet
    case ExitKey(sid) =>
      if Acts(w, sid) && w.ui[sid].inPhone && w.ui[sid].callId.Some? then LeaveHappens(w.board, w.ui[sid].callId.value, sid, false)
      else Quiet
    case TeardownHangup(sid, pick) =>
      if Acts(w, sid) && Picks(w.board, sid, pick) && pick.Some? then LeaveHappens(w.board, pick.value, sid, true) else Quiet
    case Consume(sid) => ConsumeHappens(w, sid)
    case _ => Quiet
  }

  ghost function History(w: World, steps: seq<Step>): seq<Happening>
    decreases steps
  {
    if steps == [] then [] else [Happens(w, steps[0])] + History(Apply(w, steps[0]), steps[1..])
  }

  // ---- The table changes exactly so -------------------------------------------------------------

  /** From `b` to `b'` the calls and the rings changed as `x` says, and no further. */
  ghost predicate Explains(b: Switchboard, b': Switchboard, x: Happening) {
    && b.chans.made <= b'.chans.made
    && match x
       case Quiet => b'.calls == b.calls && Stops(b') == Stops(b)
       case Places(ring, id, user, isAdd) =>
         && ring !in b.chans.made && ring in b'.chans.made && !ring.Incoming? && CallOf(ring) == id && CalleeOf(b', ring) == user
         && Stops(b') == Stops(b) + {ring}
         && if isAdd then ring.AddStop? && Active(b, id) && b'.calls == b.calls
            else ring == DialStop(id) && id !in b.calls && Pending(b', id) && |b'.calls[id].participants| == 1
                 && b'.calls == b.calls[id := b'.calls[id]]
       case Answers(ring, id, user) =>
         && Ends1(b, b', ring, id, user)
         && id in b.calls && Active(b', id) && |b'.calls[id].participants| == |b.calls[id].participants| + 1
         && b'.calls == b.calls[id := b'.calls[id]]
       case Departs(id, rings, torn) =>
         && id in b.calls && Stops(b') == Stops(b) - rings
         && if |b.calls[id].participants| == 1 then rings == StopsIn(b, id) && b'.calls == b.calls - {id}
            else rings == {} && Active(b, id) && Active(b', id) && |b'.calls[id].participants| == |b.calls[id].participants| - 1
                 && b'.calls == b.calls[id := b'.calls[id]]
       case _ =>
         && Ends1(b, b', x.ring, x.id, x.user)
         && b'.calls == if x.ring.DialStop? then b.calls - {x.id} else b.calls
  }

  /** One outstanding ring, by which `user` was offered call `id`, is gone, and no other. */
  ghost predicate Ends1(b: Switchboard, b': Switchboard, ring: Chan, id: CallId, user: Account) {
    && ring in Stops(b) && CallOf(ring) == id && CalleeOf(b, ring) == user && Stops(b') == Stops(b) - {ring}
  }

  lemma InStops(b: Switchboard, c: Chan)
    ensures c in Stops(b) <==> match c
              case DialStop(id) => Pending(b, id)
              case AddStop(k, n) => k in b.adds && b.adds[k].serial == n
              case Incoming(id, p) => false
  {
  }

  lemma SameStops(b: Switchboard, b': Switchboard)
    requires b'.adds == b.adds && forall id :: Pending(b', id) <==> Pending(b, id)
    ensures Stops(b') == Stops(b)
  {
    hide Stops;
    forall c ensures c in Stops(b') <==> c in Stops(b) {
      InStops(b, c);
      InStops(b', c);
    }
  }

  /** The call is gone, and its ADD entries with it. */
  lemma CallGone(b: Switchboard, b': Switchboard, id: CallId)
    requires b'.calls == b.calls - {id} && b'.adds == map k | k in b.adds && k.callId != id :: b.adds[k]
    ensures Stops(b') == Stops(b) - StopsIn(b, id)
  {
    hide Stops;
    forall c ensures c in Stops(b') <==> c in Stops(b) && CallOf(c) != id {
      InStops(b, c);
      InStops(b', c);
    }
  }

  /** The ADD entry `k` is gone. */
  lemma AddGone(b: Switchboard, b': Switchboard, k: AddKey)
    requires k in b.adds && b'.adds == b.adds - {k}
    requires forall id :: Pending(b', id) <==> Pending(b, id)
    ensures Ends1(b, b', AddStop(k, b.adds[k].serial), k.callId, k.callee)
  {
    var ring := AddStop(k, b.adds[k].serial);
    forall c ensures c in Stops(b') <==> c in Stops(b) && c != ring {
      InStops(b, c);
      InStops(b', c);
    }
  }

  /** The pending call `id` is no longer pending. */
  lemma DialGone(b: Switchboard, b': Switchboard, id: CallId)
    requires Pending(b, id) && b'.adds == b.adds
    requires forall c :: Pending(b', c) <==> Pending(b, c) && c != id
    ensures Ends1(b, b', DialStop(id), id, b.calls[id].callee)
  {
    forall c ensures c in Stops(b') <==> c in Stops(b) && c != DialStop(id) {
      InStops(b, c);
      InStops(b', c);
    }
  }

  lemma AnswerTable(b: Switchboard, id: CallId, sid: SessionId, user: Account)
    requires Sound(b) && AnswerError(b, id, user) == None
    ensures id in b.calls && b.calls[id].participants != []
    ensures var b' := Answer(b, id, sid, user).0;
            && id in b.calls && Active(b', id)
            && |b'.calls[id].participants| == |b.calls[id].participants| + 1
            && b'.calls == b.calls[id := b'.calls[id]]
            && RingFor(b, id, user).Some?
            && b'.adds == if Pending(b, id) then b.adds else b.adds - {AddKey(id, user)}
  {
    hide ChansExact, OneRing, Answer, Later;
    assert CallShape(b.calls[id]);
    AnswerMoves(b, id, sid, user);
    AnswerAddsKept(b, id, sid, user);
  }

  lemma AnswerMade(b: Switchboard, id: CallId, sid: SessionId, user: Account)
    requires Sound(b) && AnswerError(b, id, user) == None
    ensures b.chans.made <= Answer(b, id, sid, user).0.chans.made
  {
    hide ChansExact, OneRing, Answer;
    assert CallShape(b.calls[id]);
    AnswerAddsKept(b, id, sid, user);
  }

  lemma AnswerExplained(b: Switchboard, id: CallId, sid: SessionId, user: Account)
    requires Sound(b) && AnswerError(b, id, user) == None && (Pending(b, id) ==> b.calls[id].callee == user)
    ensures RingFor(b, id, user).Some? && Explains(b, Answer(b, id, sid, user).0, Answers(RingFor(b, id, user).value, id, user))
  {
    hide Answer, Sound, AnswerError, Stops;
    AnswerTable(b, id, sid, user);
    AnswerMade(b, id, sid, user);
    AnswerEnds(b, Answer(b, id, sid, user).0, id, user);
  }

  lemma AnswerEnds(b: Switchboard, b': Switchboard, id: CallId, user: Account)
    requires id in b.calls && Active(b', id) && b'.calls == b.calls[id := b'.calls[id]] && RingFor(b, id, user).Some?
    requires b'.adds == if Pending(b, id) then b.adds else b.adds - {AddKey(id, user)}
    requires Pending(b, id) ==> b.calls[id].callee == user
    ensures Ends1(b, b', RingFor(b, id, user).value, id, user)
  {
    hide Stops, Ends1;
    assert forall c :: Pending(b', c) <==> Pending(b, c) && c != id;
    if Pending(b, id) { DialGone(b, b', id); } else { AddGone(b, b', AddKey(id, user)); }
  }

  lemma EndDialExplained(b: Switchboard, id: CallId, e: PhoneEvent, user: Account)
    requires Pending(b, id) && b.calls[id].callee == user
    ensures var b' := EndDial(b, id, e);
            && b.chans.made <= b'.chans.made && b'.calls == b.calls - {id} && Ends1(b, b', DialStop(id), id, user)
  {
    hide SendEach, Ends1, Stops;
    DialGone(b, EndDial(b, id, e), id);
  }

  lemma RejectExplained(b: Switchboard, id: CallId, user: Account)
    requires Sound(b) && (Pending(b, id) ==> b.calls[id].callee == user)
    ensures var b', ring := Reject(b, id, user).0, RingFor(b, id, user);
            Explains(b, b', if ring.Some? then Declines(ring.value, id, user) else Quiet)
  {
    hide SendEach, Ends1, Stops, ChansExact, OneRing, EndDial;
    var b' := Reject(b, id, user).0;
    if Pending(b, id) {
      EndDialExplained(b, id, PhoneEvent(EventReject, id, b.calls[id].caller, user), user);
    } else if Active(b, id) && AddKey(id, user) in b.adds {
      AddGone(b, b', AddKey(id, user));
    } else {
      SameStops(b, b');
    }
  }

  lemma CancelExplained(b: Switchboard, k: AddKey, caller: Account)
    ensures var b' := CancelAdd(b, k.callId, k.callee, caller);
            Explains(b, b', if k in b.adds then Cancels(AddStop(k, b.adds[k].serial), k.callId, k.callee) else Quiet)
  {
    hide SendEach, FanOut, Ends1, Stops;
    var b' := CancelAdd(b, k.callId, k.callee, caller);
    assert AddKey(k.callId, k.callee) == k;
    if k in b.adds { AddGone(b, b', k); } else { SameStops(b, b'); }
  }

  lemma RingsAtAre(b: Switchboard, user: Account, c: Chan)
    ensures c in RingsAt(b, user) <==> match c
              case DialStop(id) => DialRings(b, id, user)
              case AddStop(k, n) => AddRings(b, k, user) && b.adds[k].serial == n
              case Incoming(id, p) => false
  {
    hide Stops;
    InStops(b, c);
  }

  /** There is never more than one. */
  lemma OneRingAt(b: Switchboard, user: Account, c: Chan, c': Chan)
    requires OneRing(b) && c in RingsAt(b, user) && c' in RingsAt(b, user)
    ensures c == c'
  {
    hide RingsAt;
    RingsAtAre(b, user, c);
    RingsAtAre(b, user, c');
  }

  lemma ReapExplained(b: Switchboard, user: Account, c: Chan)
    requires Sound(b) && Ringable(b, user) == {} && c in RingsAt(b, user)
    ensures Explains(b, Reap(b, user), Reaps(c, CallOf(c), user))
  {
    hide SendEach, Ends1, Stops, ChansExact, Shape, RingsAt, EndDial, Ringable;
    RingsAtAre(b, user, c);
    var b' := Reap(b, user);
    if id :| DialRings(b, id, user) {
      var id' :| DialRings(b, id', user) && b' == EndDial(b, id', ReapEvent(b, id', b.calls[id'].caller, user));
      EndDialExplained(b, id', ReapEvent(b, id', b.calls[id'].caller, user), user);
      assert c == DialStop(id');
    } else {
      var k :| AddRings(b, k, user) && b' == ReapAdd(b, k);
      AddGone(b, b', k);
      assert c == AddStop(k, b.adds[k].serial);
    }
  }

  lemma ReapNothing(b: Switchboard, user: Account)
    requires Ringable(b, user) != {} || RingsAt(b, user) == {}
    ensures Reap(b, user) == b
  {
    hide RingsAt;
    if id :| DialRings(b, id, user) { RingsAtAre(b, user, DialStop(id)); }
    if k :| AddRings(b, k, user) { RingsAtAre(b, user, AddStop(k, b.adds[k].serial)); }
  }

  lemma LeaveExplained(b: Switchboard, id: CallId, sid: SessionId, torn: bool)
    requires Sound(b)
    ensures Explains(b, Hangup(b, id, sid), LeaveHappens(b, id, sid, torn))
  {
    hide Leave, Stops, StopsIn, ChansExact, OneRing, Sids;
    if id in b.calls && sid in Sids(b.calls[id].participants) {
      FindIs(b.calls[id].participants, sid);
      LeaveMoves(b, id, sid);
      LeaveTableAdds(b, id, sid);
      if |b.calls[id].participants| == 1 {
        CallGone(b, Leave(b, id, sid), id);
      } else {
        LeaveSize(b, id, sid);
        SameStops(b, Leave(b, id, sid));
      }
    } else {
      if id in b.calls {
        FindIs(b.calls[id].participants, sid);
        LeaveNothing(b, id, sid);
      }
    }
  }

  lemma FindIs(ps: seq<Participant>, sid: SessionId)
    ensures Find(ps, sid) < |ps| <==> sid in Sids(ps)
  {
    FindHits(ps, sid);
    var i := Find(ps, sid);
    assert forall j :: 0 <= j < |ps| && Sids(ps)[j] == sid ==> i <= j;
  }

  lemma LeaveSize(b: Switchboard, id: CallId, sid: SessionId)
    requires id in b.calls && Find(b.calls[id].participants, sid) < |b.calls[id].participants| && |b.calls[id].participants| > 1
    ensures var b' := Leave(b, id, sid); id in b'.calls && |b'.calls[id].participants| == |b.calls[id].participants| - 1
  {
    hide Leave;
    LeaveTable(b, id, sid, Find(b.calls[id].participants, sid));
  }

  lemma PlaceDialExplained(b: Switchboard, id: CallId, sid: SessionId, caller: Account, callee: Account)
    requires Sound(b) && Fresh(b, id)
    ensures Explains(b, PlaceDial(b, id, sid, caller, callee), Places(DialStop(id), id, callee, false))
  {
    hide Stops, Shape, OneRing, PlaceDial;
    var b' := PlaceDial(b, id, sid, caller, callee);
    PlaceDialMoves(b, id, sid, caller, callee);
    PlaceDialTable(b, id, sid, caller, callee);
    forall c ensures c in Stops(b') <==> c in Stops(b) || c == DialStop(id) {
      InStops(b, c);
      InStops(b', c);
    }
  }

  lemma PlaceAddExplained(b: Switchboard, id: CallId, caller: Account, callee: Account)
    requires Sound(b) && Active(b, id) && AddKey(id, callee) !in b.adds
    ensures Explains(b, PlaceAdd(b, id, caller, callee), Places(AddStop(AddKey(id, callee), b.chans.serial), id, callee, true))
  {
    hide Stops, Shape, OneRing, PlaceAdd;
    var b', k, n := PlaceAdd(b, id, caller, callee), AddKey(id, callee), b.chans.serial;
    NewAddBoard(b, id, caller, callee);
    assert AddStop(k, n) !in b.chans.made;
    forall c ensures c in Stops(b') <==> c in Stops(b) || c == AddStop(k, n) {
      InStops(b, c);
      InStops(b', c);
    }
  }

  // ---- Every step is what it was read to be --------------------------------------------------------

  lemma CommitExplained(w: World, id: CallId)
    requires Core(w)
    ensures Explains(w.board, ApplyCommit(w, id).board, CommitHappens(w, id))
  {
    hide Explains, PlaceDial, PlaceAdd, Dialed, EqualFold, QueuesOk, UisOk, RecordsOk, SeatsOk, ChansExact, CallShape;
    match w.gate
    case Some(DialGate(sid, callee)) =>
      if Fresh(w.board, id) { PlaceDialExplained(w.board, id, sid, w.ui[sid].username, callee); } else { NothingExplained(w.board); }
    case Some(AddGate(sid, call, callee)) =>
      assert !AddRings(w.board, AddKey(call, callee), callee);
      PlaceAddExplained(w.board, call, w.ui[sid].username, callee);
    case _ => NothingExplained(w.board);
  }

  lemma NothingExplained(b: Switchboard)
    ensures Explains(b, b, Quiet)
  {
  }

  lemma OfferedToCallee(w: World, sid: SessionId)
    requires Core(w) && sid in w.ui && w.ui[sid].incoming.Some?
    ensures Pending(w.board, w.ui[sid].incoming.value) ==> w.board.calls[w.ui[sid].incoming.value].callee == w.ui[sid].username
    ensures w.ui[sid].incoming.value in w.board.calls ==> w.board.calls[w.ui[sid].incoming.value].participants != []
  {
    hide OneRing, ChansExact, QueuesOk, RecordsOk, SeatsOk, GateOk, Present;
    assert UiOk(w.board, sid, w.ui[sid]);
    if w.ui[sid].incoming.value in w.board.calls { assert CallShape(w.board.calls[w.ui[sid].incoming.value]); }
  }

  /** An answer is accepted exactly when the table holds a ring by which that account is offered that call. */
  lemma AcceptsExactly(b: Switchboard, id: CallId, user: Account)
    requires Sound(b)
    ensures AnswerError(b, id, user) == None <==> RingFor(b, id, user).Some?
  {
    hide OneRing, ChansExact;
    if id in b.calls { assert CallShape(b.calls[id]); }
  }

  lemma AnswerStepExplained(w: World, sid: SessionId)
    requires Core(w)
    ensures Explains(w.board, ApplyAnswer(w, sid).board, AnswerHappens(w, sid))
  {
    hide Explains, Answer, AnswerError, BoardOk, UisOk, RecordsOk, GateOk, Present, ApplyAnswer, RingFor;
    NothingExplained(w.board);
    if Acts(w, sid) && w.ui[sid].incoming.Some? && w.ui[sid].state != CallPending {
      var id, user := w.ui[sid].incoming.value, w.ui[sid].username;
      OfferedToCallee(w, sid);
      AnswerOutcome(w, sid);
      BoardIsSound(w);
      AcceptsExactly(w.board, id, user);
      if AnswerError(w.board, id, user) == None { AnswerExplained(w.board, id, sid, user); }
    } else {
      AnswerIdle(w, sid);
    }
  }

  lemma BoardIsSound(w: World)
    requires Core(w)
    ensures Sound(w.board)
  {
  }

  lemma RejectStepExplained(w: World, sid: SessionId)
    requires Core(w)
    ensures Explains(w.board, ApplyReject(w, sid).board, RejectHappens(w, sid))
  {
    hide Explains, Reject, Core, RingFor, Settle, AnswerFailed;
    NothingExplained(w.board);
    if Acts(w, sid) && w.ui[sid].incoming.Some? && w.ui[sid].state != CallPending {
      OfferedToCallee(w, sid);
      BoardIsSound(w);
      RejectExplained(w.board, w.ui[sid].incoming.value, w.ui[sid].username);
    }
  }

  lemma CancelStepExplained(w: World, sid: SessionId)
    ensures Explains(w.board, ApplyCancel(w, sid).board, CancelHappens(w, sid))
  {
    hide Explains, CancelAdd, Settle;
    NothingExplained(w.board);
    if Acts(w, sid) && w.ui[sid].addTarget.Some? && w.ui[sid].callId.Some? {
      CancelExplained(w.board, AddKey(w.ui[sid].callId.value, w.ui[sid].addTarget.value), w.ui[sid].username);
    }
  }

  lemma ReapStepExplained(w: World, sid: SessionId)
    requires Core(w)
    ensures Explains(w.board, ApplyReap(w, sid).board, ReapHappens(w, sid))
  {
    hide Explains, Reap, Core, Settle, RingsAt, Ringable;
    NothingExplained(w.board);
    if sid in w.reaping && w.gate == None {
      var user := w.reaping[sid];
      if Ringable(w.board, user) == {} && RingsAt(w.board, user) != {} {
        BoardIsSound(w);
        ReapExplained(w.board, user, ReapHappens(w, sid).ring);
      } else {
        ReapNothing(w.board, user);
      }
    }
  }

  lemma HangupStepsExplained(w: World, sid: SessionId, pick: Option<CallId>)
    requires Core(w)
    ensures Explains(w.board, ApplyHangup(w, sid).board, Happens(w, HangupKey(sid)))
    ensures Explains(w.board, ApplyExit(w, sid).board, Happens(w, ExitKey(sid)))
    ensures Explains(w.board, ApplyTeardownHangup(w, sid, pick).board, Happens(w, TeardownHangup(sid, pick)))
  {
    hide Explains, Core, LeaveCall, LeaveHappens, GoIdle, Picks, Hangup;
    NothingExplained(w.board);
    BoardIsSound(w);
    if sid in w.ui && w.ui[sid].callId.Some? {
      LeaveBoard(w, w.ui[sid].callId.value, sid, Cancelled);
      LeaveExplained(w.board, w.ui[sid].callId.value, sid, false);
    }
    if pick.Some? {
      LeaveBoard(w, pick.value, sid, TornDown);
      LeaveExplained(w.board, pick.value, sid, true);
    }
  }

  lemma ConsumeStepExplained(w: World, sid: SessionId)
    requires Core(w)
    ensures Explains(w.board, ApplyConsume(w, sid).board, ConsumeHappens(w, sid))
  {
    hide Explains, Core, LeaveCall, LeaveHappens, Handle, Hangup;
    NothingExplained(w.board);
    if sid in w.ui && sid in w.board.reg.index && w.board.reg.index[sid].notify != [] {
      HangsUpExactly(w.ui[sid], w.board.reg.index[sid].notify[0]);
      BoardIsSound(w);
      var w1 := w.(board := w.board.(reg := Receive(w.board.reg, sid)));
      RegistryAside(w.board, w1.board, w1.board, Quiet);
      if w.ui[sid].callId.Some? {
        var id := w.ui[sid].callId.value;
        LeaveBoard(w1, id, sid, Cancelled);
        SoundIgnoresRegistry(w.board, w1.board.reg);
        LeaveExplained(w1.board, id, sid, false);
        RegistryAside(w.board, w1.board, Hangup(w1.board, id, sid), LeaveHappens(w1.board, id, sid, false));
        LeaveReadsNoQueue(w.board, w1.board, id, sid);
      }
    }
  }

  /** What happens to calls and rings does not depend on what waits in the queues. */
  lemma RegistryAside(b: Switchboard, b1: Switchboard, b': Switchboard, x: Happening)
    requires b1 == b.(reg := b1.reg)
    ensures Explains(b1, b1, Quiet) && (Explains(b1, b', x) ==> Explains(b, b', x))
  {
    hide StopsIn;
    assert Stops(b1) == Stops(b);
    assert forall id :: StopsIn(b1, id) == StopsIn(b, id) by { StopsInAside(b, b1); }
  }

  lemma StopsInAside(b: Switchboard, b1: Switchboard)
    requires b1 == b.(reg := b1.reg)
    ensures forall id :: StopsIn(b1, id) == StopsIn(b, id)
  {
  }

  lemma LeaveReadsNoQueue(b: Switchboard, b1: Switchboard, id: CallId, sid: SessionId)
    requires b1 == b.(reg := b1.reg)
    ensures LeaveHappens(b1, id, sid, false) == LeaveHappens(b, id, sid, false)
  {
    hide StopsIn;
    StopsInAside(b, b1);
  }

  lemma QuietStepExplained(w: World, step: Step)
    requires TableAside(step)
    ensures Explains(w.board, Apply(w, step).board, Quiet)
  {
    hide Apply, Stops;
    TableUntouched(w, step);
    SameStops(w.board, Apply(w, step).board);
  }

  lemma TypeStepExplained(w: World, sid: SessionId)
    ensures Explains(w.board, ApplyType(w, sid).board, Quiet)
  {
    hide Stops;
    SameStops(w.board, ApplyType(w, sid).board);
  }

  /** In every reachable state, every step changes the calls and the rings exactly as its guards tell. */
  lemma StepExplained(w: World, step: Step)
    requires Core(w)
    ensures Explains(w.board, Apply(w, step).board, Happens(w, step))
  {
    hide Core, Explains, CommitHappens, AnswerHappens, RejectHappens, CancelHappens, ReapHappens, ConsumeHappens,
         LeaveHappens, Picks, ApplyConnect, ApplyTeardownHangup, ApplyUnregister, ApplyReap, ApplyCommit, ApplyAnswer,
         ApplyReject, ApplyHangup, ApplyExit, ApplyCancel, ApplyType, ApplyConsume, ApplyTick, ApplyRing,
         ApplyRecheck, ApplyEnter, ApplyNotify;
    match step
    case Commit(id) => CommitExplained(w, id);
    case AnswerKey(sid) => AnswerStepExplained(w, sid);
    case RejectKey(sid) => RejectStepExplained(w, sid);
    case CancelKey(sid) => CancelStepExplained(w, sid);
    case TeardownReap(sid) => ReapStepExplained(w, sid);
    case HangupKey(sid) => HangupStepsExplained(w, sid, None);
    case ExitKey(sid) => HangupStepsExplained(w, sid, None);
    case TeardownHangup(sid, pick) => HangupStepsExplained(w, sid, pick);
    case Consume(sid) => ConsumeStepExplained(w, sid);
    case TypeKey(sid) => TypeStepExplained(w, sid);
    case _ => QuietStepExplained(w, step);
  }
}
