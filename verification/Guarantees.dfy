/**
  What PHONE promises over whole runs, drawn together from the invariants: who a
  ring can reach, what a teardown removes and spares, and that no channel is ever
  misused.
 */
module Guarantees {
  import opened Wrappers
  import opened Registry
  import opened CallTable
  import opened TableInvariant
  import opened TableMotion
  import opened Protocol
  import opened WorldInvariant
  import opened Agreement
  import opened CallFacts
  import opened Reachability
  import opened RingHistory

  // ---- Rings reach the free only ------------------------------------------------------

  lemma SamePlaceFree(r: Presence, r': Presence)
    requires forall s :: s in r'.index && r'.index[s].notify != [] ==> s in r.index && r'.index[s] == r.index[s]
    ensures forall s, e :: !NewRing(r, r', s, e)
  {
  }

  lemma AnswerKeyFree(w: World, sid: SessionId)
    ensures forall s, e :: !NewRing(w.board.reg, ApplyAnswer(w, sid).board.reg, s, e)
  {
    hide NewRing, Answer, Answered, Settle;
    NoNewRing(w.board.reg);
    if Acts(w, sid) && w.ui[sid].incoming.Some? && w.ui[sid].state != CallPending {
      var user, id := w.ui[sid].username, w.ui[sid].incoming.value;
      if !(id in w.board.calls && w.board.calls[id].participants == []) {
        AnswerErrorKeeps(w.board, id, sid, user);
        if AnswerError(w.board, id, user) == None { AnswerFree(w.board, id, sid, user); }
      }
    }
  }

  lemma AnswerErrorKeeps(b: Switchboard, id: CallId, sid: SessionId, user: Account)
    requires id in b.calls && b.calls[id].state == CallPending ==> b.calls[id].participants != []
    ensures Answer(b, id, sid, user).1 == AnswerError(b, id, user)
    ensures AnswerError(b, id, user) != None ==> Answer(b, id, sid, user).0 == b
  {
  }

  lemma RejectKeyFree(w: World, sid: SessionId)
    ensures forall s, e :: !NewRing(w.board.reg, ApplyReject(w, sid).board.reg, s, e)
  {
    hide NewRing, Reject, Settle;
    NoNewRing(w.board.reg);
    if Acts(w, sid) && w.ui[sid].incoming.Some? {
      RejectFree(w.board, w.ui[sid].incoming.value, w.ui[sid].username);
    }
  }

  lemma CancelKeyFree(w: World, sid: SessionId)
    ensures forall s, e :: !NewRing(w.board.reg, ApplyCancel(w, sid).board.reg, s, e)
  {
    hide NewRing, CancelAdd, Settle;
    NoNewRing(w.board.reg);
    if Acts(w, sid) && w.ui[sid].addTarget.Some? && w.ui[sid].callId.Some? {
      CancelFree(w.board, w.ui[sid].callId.value, w.ui[sid].addTarget.value, w.ui[sid].username);
    }
  }

  lemma HangupsFree(w: World, sid: SessionId, pick: Option<CallId>)
    ensures forall s, e :: !NewRing(w.board.reg, ApplyHangup(w, sid).board.reg, s, e)
    ensures forall s, e :: !NewRing(w.board.reg, ApplyExit(w, sid).board.reg, s, e)
    ensures forall s, e :: !NewRing(w.board.reg, ApplyTeardownHangup(w, sid, pick).board.reg, s, e)
  {
    hide NewRing, LeaveCall, GoIdle, Picks, Hangup;
    NoNewRing(w.board.reg);
    if sid in w.ui && w.ui[sid].callId.Some? {
      LeaveBoard(w, w.ui[sid].callId.value, sid, Cancelled);
      LeaveFree(w.board, w.ui[sid].callId.value, sid);
    }
    if pick.Some? {
      LeaveBoard(w, pick.value, sid, TornDown);
      LeaveFree(w.board, pick.value, sid);
    }
  }

  lemma CommitFree(w: World, id: CallId)
    ensures RingsFree(w.board.reg, ApplyCommit(w, id).board)
  {
    hide RingsFree, PlaceDial, PlaceAdd, Dialed;
    SilentBoard(w.board);
    match w.gate
    case Some(DialGate(s, callee)) =>
      if s in w.ui { PlaceDialFree(w.board, id, s, w.ui[s].username, callee); }
    case Some(AddGate(s, call, callee)) =>
      if s in w.ui && call in w.board.calls { PlaceAddFree(w.board, call, w.ui[s].username, callee); }
    case _ =>
  }

  lemma SilentBoard(b: Switchboard)
    ensures RingsFree(b.reg, b)
  {
    NoNewRing(b.reg);
  }

  lemma RegistryFree(w: World, username: Account, role: string, visible: bool, sid: SessionId)
    ensures forall s, x :: !NewRing(w.board.reg, ApplyConnect(w, username, role, visible).board.reg, s, x)
    ensures forall s, x :: !NewRing(w.board.reg, ApplyUnregister(w, sid).board.reg, s, x)
  {
    hide NewRing, ApplyConnect, ApplyUnregister;
    ConnectFree(w, username, role, visible);
    UnregisterFree(w, sid);
  }

  lemma ConnectFree(w: World, username: Account, role: string, visible: bool)
    ensures forall s, x :: !NewRing(w.board.reg, ApplyConnect(w, username, role, visible).board.reg, s, x)
  {
    hide NewRing;
    SamePlaceFree(w.board.reg, ApplyConnect(w, username, role, visible).board.reg);
  }

  lemma UnregisterFree(w: World, sid: SessionId)
    ensures forall s, x :: !NewRing(w.board.reg, ApplyUnregister(w, sid).board.reg, s, x)
  {
    hide NewRing;
    SamePlaceFree(w.board.reg, ApplyUnregister(w, sid).board.reg);
  }

  lemma NotifyFree(w: World, e: PhoneEvent)
    ensures forall s, x :: !NewRing(w.board.reg, ApplyNotify(w, e).board.reg, s, x)
  {
    hide NewRing, FanOut;
    NoNewRing(w.board.reg);
    if e.kind == EventAdminNotify {
      FanOutGrows(w.board.reg, AdminSessions(w.board.reg), e, iset{e});
      NoRings(w.board.reg, ApplyNotify(w, e).board.reg, iset{e}, AdminSessions(w.board.reg));
    }
  }

  lemma ReapKeyFree(w: World, sid: SessionId)
    ensures forall s, e :: !NewRing(w.board.reg, ApplyReap(w, sid).board.reg, s, e)
  {
    hide NewRing, Reap, Settle;
    NoNewRing(w.board.reg);
    if sid in w.reaping { ReapFree(w.board, w.reaping[sid]); }
  }

  lemma RingTickFree(w: World, stop: Chan)
    ensures RingsFree(w.board.reg, ApplyTick(w, stop).board)
  {
    hide RingsFree, Tick;
    SilentBoard(w.board);
    if stop in w.rings {
      TickFree(w.board, w.rings[stop].id, w.rings[stop].caller, w.rings[stop].callee, w.rings[stop].isAdd);
    }
  }

  /**
    No step of any run, ticks included, queues an EventRing for a session that is
    in a call, or for a call that is not in the table when the step is over.
   */
  lemma RingsReachTheFree(w: World, step: Step)
    ensures var b' := Apply(w, step).board;
            forall s, e :: NewRing(w.board.reg, b'.reg, s, e) ==> Nowhere(b', s) && e.callId in b'.calls
  {
    hide NewRing, Nowhere, ApplyConnect, ApplyTeardownHangup, ApplyUnregister, ApplyReap, ApplyCommit, ApplyAnswer,
         ApplyReject, ApplyHangup, ApplyExit, ApplyCancel, ApplyConsume, ApplyTick, ApplyNotify;
    NoNewRing(w.board.reg);
    match step
    case Connect(u, role, visible) => RegistryFree(w, u, role, visible, 0);
    case TeardownHangup(sid, pick) => HangupsFree(w, sid, pick);
    case TeardownUnregister(sid) => RegistryFree(w, "", "", false, sid);
    case TeardownReap(sid) => ReapKeyFree(w, sid);
    case EnterPhone(sid) =>
    case Ring(sid, target) =>
    case Recheck =>
    case Commit(id) => CommitFree(w, id);
    case AnswerKey(sid) => AnswerKeyFree(w, sid);
    case RejectKey(sid) => RejectKeyFree(w, sid);
    case HangupKey(sid) => HangupsFree(w, sid, None);
    case ExitKey(sid) => HangupsFree(w, sid, None);
    case CancelKey(sid) => CancelKeyFree(w, sid);
    case TypeKey(sid) =>
    case Consume(sid) => ConsumeFree(w, sid);
    case RingTick(stop) => RingTickFree(w, stop);
    case NotifyAdmins(e) => NotifyFree(w, e);
  }

  // ---- Teardown -----------------------------------------------------------------------------

  /** An untainted session is a participant of at most one call, once, and a participant is registered. */
  lemma OneCallEach(steps: seq<Step>, sid: SessionId, id: CallId, id': CallId)
    requires var w := Run(START, steps);
             !Tainted(w, sid) && SeatOf(w.board, id, sid).Some? && SeatOf(w.board, id', sid).Some?
    ensures var w := Run(START, steps);
            id == id' && SeatOf(w.board, id, sid).value.1 == 1 && sid in w.board.reg.index
  {
    var w := Run(START, steps);
    ScreensAgree(steps, sid);
  }

  /** A session past Unregister is in no index and, unless tainted, in no call: nothing of it is left for the reaper but rings. */
  lemma DepartedIsGone(steps: seq<Step>, sid: SessionId)
    requires var w := Run(START, steps); sid !in w.ui && sid !in w.leaving
    ensures var w := Run(START, steps);
            && sid !in w.board.reg.index && (forall u :: sid !in SessionsOf(w.board.reg, u))
            && (!Tainted(w, sid) ==> Nowhere(w.board, sid))
  {
    StartHolds();
    RunKeeps(START, steps);
    ScreensAgree(steps, sid);
    OnlyPresent(Run(START, steps), sid);
  }

  lemma OnlyPresent(w: World, sid: SessionId)
    requires Core(w) && sid !in w.ui && sid !in w.leaving
    ensures sid !in w.board.reg.index && (forall u :: sid !in SessionsOf(w.board.reg, u))
  {
    hide Sound, QueuesOk, UisOk, RecordsOk, SeatsOk, GateOk;
  }

  ghost function Torn(w: World, sid: SessionId, pick: Option<CallId>): World {
    Apply(Apply(Apply(w, TeardownHangup(sid, pick)), TeardownUnregister(sid)), TeardownReap(sid))
  }

  /** HangupSession touches only the call it leaves. */
  lemma HangupSpares(w: World, sid: SessionId, pick: Option<CallId>, id: CallId)
    requires Core(w) && Acts(w, sid) && Picks(w.board, sid, pick)
    requires id in w.board.calls && sid !in Sids(w.board.calls[id].participants)
    ensures var w' := ApplyTeardownHangup(w, sid, pick);
            id in w'.board.calls && w'.board.calls[id] == w.board.calls[id] && w'.gate == None && sid in w'.leaving
  {
    hide Leave, OneRing, ChansExact, QueuesOk, UisOk, RecordsOk, GateOk, SeatsOk, Agree, Present, Seats;
    if pick.Some? {
      LeaveBoard(w, pick.value, sid, TornDown);
      assert CallShape(w.board.calls[pick.value]);
      LeaveMoves(w.board, pick.value, sid);
    }
  }

  /** The reaper ends a pending call exactly when it is aimed at this account and no session is left to ring. */
  lemma ReapSpares(b: Switchboard, user: Account, id: CallId)
    requires Sound(b) && id in b.calls
    ensures id !in Reap(b, user).calls <==> DialRings(b, id, user) && Ringable(b, user) == {}
    ensures id in Reap(b, user).calls ==> Reap(b, user).calls[id] == b.calls[id]
  {
    hide ChansExact, CallShape;
    if Ringable(b, user) == {} && exists c :: DialRings(b, c, user) {
      var c :| DialRings(b, c, user) && Reap(b, user) == EndDial(b, c, ReapEvent(b, c, b.calls[c].caller, user));
      assert DialRings(b, id, user) <==> id == c;
    }
  }

  lemma UnregisterFields(w: World, sid: SessionId)
    requires Core(w) && sid in w.leaving && w.gate == None
    ensures var w' := ApplyUnregister(w, sid);
            && sid in w.board.reg.index && sid in w'.reaping && w'.reaping[sid] == w.board.reg.index[sid].username
            && w'.gate == None && w'.board.calls == w.board.calls && sid !in w'.leaving && w'.ui == w.ui
            && w'.board == w.board.(reg := Unregister(w.board.reg, sid))
  {
    hide Sound, QueuesOk, UisOk, RecordsOk, SeatsOk, GateOk;
  }

  lemma TeardownName(w: World, sid: SessionId, pick: Option<CallId>)
    requires Core(w) && Acts(w, sid) && Picks(w.board, sid, pick)
    ensures var w' := ApplyTeardownHangup(w, sid, pick);
            && w'.gate == None && sid in w'.leaving && sid !in w'.ui
            && sid in w'.board.reg.index && w'.board.reg.index[sid].username == w.ui[sid].username
  {
    hide Leave, Sound, QueuesOk, RecordsOk, GateOk;
    if pick.Some? {
      LeaveBoard(w, pick.value, sid, TornDown);
      LeaveBoardMoves(w.board, pick.value, sid);
    }
  }

  /**
    After the three teardown actions the session is nowhere. Each call it was not
    in stands as it was, except a pending one aimed at its account when no session
    of that account is left to ring.
   */
  lemma TeardownComplete(steps: seq<Step>, sid: SessionId, pick: Option<CallId>, id: CallId)
    requires var w := Run(START, steps); Acts(w, sid) && Picks(w.board, sid, pick) && !Tainted(w, sid)
    ensures var w := Run(START, steps);
            var user, w2, w' := w.ui[sid].username, Apply(Apply(w, TeardownHangup(sid, pick)), TeardownUnregister(sid)), Torn(w, sid, pick);
            && sid !in w'.ui && sid !in w'.leaving && sid !in w'.reaping && sid !in w'.board.reg.index
            && Nowhere(w'.board, sid)
            && (id in w.board.calls && sid !in Sids(w.board.calls[id].participants) ==>
                  if Pending(w.board, id) && w.board.calls[id].callee == user && Ringable(w2.board, user) == {}
                  then id !in w'.board.calls
                  else id in w'.board.calls && w'.board.calls[id] == w.board.calls[id])
  {
    hide Run, Picks, ApplyTeardownHangup, ApplyUnregister, Reap, Core, Agreed, Tainted, Nowhere, Ringable;
    var w := Run(START, steps);
    var w1 := Apply(w, TeardownHangup(sid, pick));
    var w2 := Apply(w1, TeardownUnregister(sid));
    StartHolds();
    RunKeeps(START, steps);
    StepCore(w, TeardownHangup(sid, pick));
    StepCore(w1, TeardownUnregister(sid));
    TeardownName(w, sid, pick);
    UnregisterFields(w1, sid);
    CoreSound(w2);
    var teardown := [TeardownHangup(sid, pick), TeardownUnregister(sid), TeardownReap(sid)];
    RunThree(w, teardown[0], teardown[1], teardown[2]);
    RunConcat(START, steps, teardown);
    DepartedIsGone(steps + teardown, sid);
    HangsUpEverywhere(w, sid, pick);
    StaysNowhere(w1.board, w2.board, w.ui[sid].username, sid);
    if id in w.board.calls && sid !in Sids(w.board.calls[id].participants) {
      HangupSpares(w, sid, pick, id);
      ReapSpares(w2.board, w.ui[sid].username, id);
    }
  }

  /** An untainted session has at most the one call that the scan finds. */
  lemma HangsUpEverywhere(w: World, sid: SessionId, pick: Option<CallId>)
    requires Core(w) && Agreed(w) && Acts(w, sid) && Picks(w.board, sid, pick) && !Tainted(w, sid)
    ensures Nowhere(ApplyTeardownHangup(w, sid, pick).board, sid)
  {
    hide Core, Leave, Agrees, Nowhere, OnlyIn, SeatOf, CallShape;
    assert AgreedAt(w, sid);
    match pick
    case None => NotInCall(w.board, sid);
    case Some(id) =>
      CoreSound(w);
      SeatFound(w.board, id, sid);
      OnlyCall(w.board, id, sid, w.ui[sid]);
      LeaveBoard(w, id, sid, TornDown);
      LeaveSeatsKept(w.board, id, sid);
  }

  lemma StaysNowhere(b: Switchboard, b': Switchboard, user: Account, sid: SessionId)
    requires Sound(b') && Nowhere(b, sid) && b'.calls == b.calls
    ensures Nowhere(Reap(b', user), sid)
  {
    hide Reap;
    forall id ensures SeatOf(Reap(b', user), id, sid) == None {
      assert SeatOf(b, id, sid) == None;
      if id in b'.calls { ReapSpares(b', user, id); } else { ReapAddsNoCall(b', user, id); }
    }
  }

  lemma ReapAddsNoCall(b: Switchboard, user: Account, id: CallId)
    requires Sound(b) && id !in b.calls
    ensures id !in Reap(b, user).calls
  {
    hide ChansExact, CallShape, EndDial;
    if Ringable(b, user) == {} && exists c :: DialRings(b, c, user) {
      var c :| DialRings(b, c, user) && Reap(b, user) == EndDial(b, c, ReapEvent(b, c, b.calls[c].caller, user));
      EndDialMoves(b, c, ReapEvent(b, c, b.calls[c].caller, user));
    }
  }

  lemma RunThree(w: World, a: Step, b: Step, c: Step)
    ensures Run(w, [a, b, c]) == Apply(Apply(Apply(w, a), b), c)
  {
    hide Apply;
    assert [a, b, c][1..] == [b, c] && [b, c][1..] == [c] && [c][1..] == [];
    assert Run(Apply(Apply(w, a), b), [c]) == Run(Apply(Apply(Apply(w, a), b), c), []);
    assert Run(Apply(w, a), [b, c]) == Run(Apply(Apply(w, a), b), [c]);
  }

  // ---- Channels and rings, over every run ------------------------------------------------------

  /** No run closes a channel twice or sends on a closed one, and the open channels are exactly those still needed. */
  lemma ChannelsAccounted(steps: seq<Step>, c: Chan)
    ensures var b := Run(START, steps).board;
            && !b.chans.panicked && !b.reg.closedTwice && b.reg.done == b.reg.index.Keys
            && (c in b.chans.open <==>
                  match c
                  case DialStop(id) => Pending(b, id)
                  case AddStop(k, n) => k in b.adds && b.adds[k].serial == n
                  case Incoming(id, p) => id in b.calls && p in b.calls[id].participants)
  {
    StartHolds();
    RunKeeps(START, steps);
    ExactChan(Run(START, steps).board, c);
  }

  lemma ExactChan(b: Switchboard, c: Chan)
    requires Sound(b)
    ensures c in b.chans.open <==>
              match c
              case DialStop(id) => Pending(b, id)
              case AddStop(k, n) => k in b.adds && b.adds[k].serial == n
              case Incoming(id, p) => id in b.calls && p in b.calls[id].participants
  {
    hide OneRing, Shape;
    match c {
      case DialStop(id) => assert DialStop(id) in b.chans.open <==> Pending(b, id);
      case AddStop(k, n) => assert AddStop(k, n) in b.chans.open <==> k in b.adds && b.adds[k].serial == n;
      case Incoming(id, p) => assert Incoming(id, p) in b.chans.open <==> id in b.calls && p in b.calls[id].participants;
    }
  }

  /** In every reachable state no account is rung twice at once, and the calls keep their shape. */
  lemma OneRingEach(steps: seq<Step>, user: Account)
    ensures var b := Run(START, steps).board;
            && (forall id, id' :: DialRings(b, id, user) && DialRings(b, id', user) ==> id == id')
            && (forall k, k' :: AddRings(b, k, user) && AddRings(b, k', user) ==> k == k')
            && !((exists id :: DialRings(b, id, user)) && (exists k :: AddRings(b, k, user)))
            && (forall id :: Pending(b, id) ==> |b.calls[id].participants| == 1 && b.calls[id].participants[0].username == b.calls[id].caller)
            && (forall id :: Active(b, id) ==> b.calls[id].participants != [])
            && (forall k :: k in b.adds ==> Active(b, k.callId))
  {
    StartHolds();
    RunKeeps(START, steps);
    SoundRings(Run(START, steps).board, user);
  }

  lemma SoundRings(b: Switchboard, user: Account)
    requires Sound(b)
    ensures forall id, id' :: DialRings(b, id, user) && DialRings(b, id', user) ==> id == id'
    ensures forall k, k' :: AddRings(b, k, user) && AddRings(b, k', user) ==> k == k'
    ensures !((exists id :: DialRings(b, id, user)) && (exists k :: AddRings(b, k, user)))
    ensures forall id :: Pending(b, id) ==> |b.calls[id].participants| == 1 && b.calls[id].participants[0].username == b.calls[id].caller
    ensures forall id :: Active(b, id) ==> b.calls[id].participants != []
    ensures forall k :: k in b.adds ==> Active(b, k.callId)
  {
    hide ChansExact;
  }

  // ---- In whose name a conference ring ends, over every run -----------------------------------------

  /** Whoever leaves a call last, each session of an account still rung for it is told that the account which placed that ring gave up. */
  lemma CancelledByItsInviter(steps: seq<Step>, id: CallId, last: SessionId, k: AddKey, s: SessionId)
    requires var w := Run(START, steps);
             && Active(w.board, id) && Sids(w.board.calls[id].participants) == [last]
             && k in w.board.adds && k.callId == id && s in SessionsOf(w.board.reg, k.callee)
    ensures var w := Run(START, steps);
            && s in w.board.reg.index && StopOf(w.board, k) in w.rings
            && Gets(w.board.reg, Hangup(w.board, id, last).reg, s,
                    PhoneEvent(EventHangup, id, w.rings[StopOf(w.board, k)].caller, k.callee))
  {
    hide Run, Core, Leave, Gets;
    StartHolds();
    StartHist();
    RunHist(START, steps);
    CoreAgree(Run(START, steps));
    TeardownAttribution(Run(START, steps), id, last, k, s);
  }

  lemma CoreAgree(w: World)
    requires Core(w)
    ensures Agree(w.board.reg) && Sound(w.board)
  {
  }

  /** The reaper, too, names the account that placed the ring. */
  lemma ReapedForItsInviter(steps: seq<Step>, k: AddKey)
    requires var w := Run(START, steps); k in w.board.adds && Ringable(w.board, k.callee) == {}
    ensures var w := Run(START, steps);
            && StopOf(w.board, k) in w.rings && k.callId in w.board.calls
            && Reap(w.board, k.callee).reg ==
                 SendEach(w.board.reg, Sids(w.board.calls[k.callId].participants),
                          PhoneEvent(if Connected(w.board.reg, k.callee) then EventCalleeUnavailable else EventCalleeGone,
                                     k.callId, w.rings[StopOf(w.board, k)].caller, k.callee))
  {
    hide Run, Core, Reap, SendEach, ChansExact, OneRing;
    StartHolds();
    StartHist();
    RunHist(START, steps);
    CoreAgree(Run(START, steps));
    ReapAttribution(Run(START, steps), k);
  }
}
