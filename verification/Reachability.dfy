/**
  Nobody stays un-dialable: whenever an account is being rung, one of its sessions
  is registered, or one is between its Unregister and its ReapUnreachableRings.
 */
module Reachability {
  import opened Wrappers
  import opened Ordering
  import opened Registry
  import opened CallTable
  import opened TableInvariant
  import opened TableMotion
  import opened Protocol
  import opened WorldInvariant
  import opened Agreement

  ghost predicate WillBeReaped(w: World, user: Account) {
    exists s :: s in w.reaping && w.reaping[s] == user
  }

  ghost predicate Reachable(w: World, user: Account) {
    Connected(w.board.reg, user) || WillBeReaped(w, user)
  }

  /** The account that an admitted Dial or Add is about to ring. */
  predicate Targets(w: World, user: Account) {
    w.gate.Some? && !w.gate.value.CheckGate? && w.gate.value.callee == user
  }

  ghost predicate AllReachable(w: World) {
    forall u :: BeingRung(w.board, u) || Targets(w, u) ==> Reachable(w, u)
  }

  // ---- Who can still be rung after a method --------------------------------------

  lemma RingsShrink(b: Switchboard, b': Switchboard)
    requires Later(b, b') && b'.calls.Keys <= b.calls.Keys && b'.adds.Keys <= b.adds.Keys
    ensures forall u :: BeingRung(b', u) ==> BeingRung(b, u)
  {
    forall u | BeingRung(b', u) ensures BeingRung(b, u) {
      if id :| DialRings(b', id, u) {
        assert DialRings(b, id, u);
      } else {
        var k :| AddRings(b', k, u);
        assert AddRings(b, k, u);
      }
    }
  }

  lemma PlacedRings(b: Switchboard, b': Switchboard, callee: Account)
    requires forall id, u :: DialRings(b', id, u) ==> DialRings(b, id, u) || u == callee
    requires forall k, u :: AddRings(b', k, u) ==> AddRings(b, k, u) || u == callee
    ensures forall u :: BeingRung(b', u) ==> BeingRung(b, u) || u == callee
  {
    forall u | BeingRung(b', u) && u != callee ensures BeingRung(b, u) {
      if id :| DialRings(b', id, u) {
        assert DialRings(b, id, u);
      } else {
        var k :| AddRings(b', k, u);
        assert AddRings(b, k, u);
      }
    }
  }

  lemma LeaveShrinks(b: Switchboard, id: CallId, sid: SessionId)
    requires BoardOk(b) && id in b.calls
    ensures forall u :: BeingRung(Leave(b, id, sid), u) ==> BeingRung(b, u)
  {
    hide BeingRung, ChansExact, OneRing, QueuesOk, SeatsOk;
    LeaveBoardMoves(b, id, sid);
    RingsShrink(b, Leave(b, id, sid));
  }

  lemma RejectShrinks(b: Switchboard, id: CallId, user: Account)
    requires BoardOk(b) && id in b.calls
    ensures forall u :: BeingRung(Reject(b, id, user).0, u) ==> BeingRung(b, u)
  {
    hide BeingRung, ChansExact, OneRing, QueuesOk, SeatsOk;
    RejectMoves(b, id, user);
    RingsShrink(b, Reject(b, id, user).0);
  }

  /** After the reaper has run for an account with no session left to ring, nothing rings it. */
  lemma ReapedIsSilent(b: Switchboard, user: Account)
    requires BoardOk(b)
    ensures Ringable(b, user) == {} ==> !BeingRung(Reap(b, user), user)
    ensures forall u :: BeingRung(Reap(b, user), u) ==> BeingRung(b, u)
  {
    hide ChansExact, CallShape, QueuesOk, SeatsOk, Agree, SendEach, Ringable, Later;
    var b' := Reap(b, user);
    ReapMoves(b, user);
    if Ringable(b, user) == {} {
      if exists id :: DialRings(b, id, user) {
        var id :| DialRings(b, id, user) && b' == EndDial(b, id, ReapEvent(b, id, b.calls[id].caller, user));
        assert forall c :: DialRings(b', c, user) ==> DialRings(b, c, user) && c != id;
        assert forall k :: AddRings(b', k, user) ==> AddRings(b, k, user);
      } else if exists k :: AddRings(b, k, user) {
        var k :| AddRings(b, k, user) && b' == ReapAdd(b, k);
        assert forall c :: DialRings(b', c, user) ==> DialRings(b, c, user);
        assert forall k' :: AddRings(b', k', user) ==> AddRings(b, k', user) && k' != k;
      }
    }
    RingsShrink(b, b');
  }

  // ---- Every step ---------------------------------------------------------------------

  /** No new ring, and nobody disconnected or left the reaper's queue. */
  lemma NothingNew(w: World, w': World)
    requires AllReachable(w)
    requires forall u :: BeingRung(w'.board, u) ==> BeingRung(w.board, u) || Targets(w, u)
    requires forall u :: Targets(w', u) ==> Targets(w, u) || Connected(w'.board.reg, u)
    requires forall u :: Connected(w.board.reg, u) ==> Connected(w'.board.reg, u)
    requires forall s :: s in w.reaping ==> s in w'.reaping && w'.reaping[s] == w.reaping[s]
    ensures AllReachable(w')
  {
    forall u | BeingRung(w'.board, u) || Targets(w', u) ensures Reachable(w', u) {
      if !Connected(w'.board.reg, u) {
        assert WillBeReaped(w, u);
        var s :| s in w.reaping && w.reaping[s] == u;
        assert s in w'.reaping;
      }
    }
  }

  lemma UnregisterReachable(w: World, sid: SessionId)
    requires Core(w) && AllReachable(w)
    ensures AllReachable(ApplyUnregister(w, sid))
  {
    var w' := ApplyUnregister(w, sid);
    if sid in w.leaving && sid in w.board.reg.index {
      UnregisterAgrees(w.board.reg, sid);
      RegistryOnlyRings(w.board, w'.board);
      forall u | BeingRung(w'.board, u) || Targets(w', u) ensures Reachable(w', u) {
        assert Reachable(w, u);
        assert SessionsOf(w'.board.reg, u) == SessionsOf(w.board.reg, u) - {sid};
        if !Connected(w'.board.reg, u) {
          StillReaped(w, w', sid, u);
        }
      }
    }
  }

  lemma StillReaped(w: World, w': World, sid: SessionId, u: Account)
    requires Core(w) && Reachable(w, u) && !Connected(w'.board.reg, u)
    requires sid in w.board.reg.index && w'.reaping == w.reaping[sid := w.board.reg.index[sid].username]
    requires SessionsOf(w'.board.reg, u) == SessionsOf(w.board.reg, u) - {sid} && Agree(w'.board.reg)
    ensures WillBeReaped(w', u)
  {
    if Connected(w.board.reg, u) {
      assert sid in SessionsOf(w.board.reg, u) by {
        assert SessionsOf(w'.board.reg, u) == {};
        assert SessionsOf(w.board.reg, u) != {};
      }
      assert w'.reaping[sid] == u;
    } else {
      var s :| s in w.reaping && w.reaping[s] == u;
      assert s != sid && w'.reaping[s] == u;
    }
  }

  lemma ReapReachable(w: World, sid: SessionId)
    requires Core(w) && AllReachable(w)
    ensures AllReachable(ApplyReap(w, sid))
  {
    hide Sound, Agree, QueuesOk, SeatsOk, UisOk, RecordsOk, GateOk, BeingRung, Settle, Reap;
    if sid in w.reaping && w.gate == None {
      var w', user := ApplyReap(w, sid), w.reaping[sid];
      ReapMoves(w.board, user);
      ReapedIsSilent(w.board, user);
      forall u | BeingRung(w'.board, u) || Targets(w', u) ensures Reachable(w', u) {
        assert BeingRung(w.board, u) && Reachable(w, u);
        assert Connected(w'.board.reg, u) == Connected(w.board.reg, u);
        if !Connected(w.board.reg, u) {
          assert SessionsOf(w.board.reg, u) == {};
          assert Ringable(w.board, u) <= SessionsOf(w.board.reg, u);
          assert u != user;
          var s :| s in w.reaping && w.reaping[s] == u;
          assert s in w'.reaping;
        }
      }
    }
  }

  lemma CommitReachable(w: World, id: CallId)
    requires Core(w) && AllReachable(w)
    ensures AllReachable(ApplyCommit(w, id))
  {
    hide AllReachable, Sound, Agree, QueuesOk, SeatsOk, UisOk, RecordsOk, Present, BeingRung, EqualFold;
    match w.gate
    case Some(DialGate(sid, callee)) =>
      if Fresh(w.board, id) { CommitDialReachable(w, id, sid, callee); }
    case Some(AddGate(sid, call, callee)) =>
      CommitAddReachable(w, id, sid, call, callee);
    case _ =>
  }

  lemma CommitDialReachable(w: World, id: CallId, sid: SessionId, callee: Account)
    requires Core(w) && AllReachable(w) && w.gate == Some(DialGate(sid, callee)) && sid in w.ui && Fresh(w.board, id)
    requires !EqualFold(w.ui[sid].username, callee) && !BeingRung(w.board, callee)
    ensures AllReachable(ApplyCommit(w, id))
  {
    hide PlaceDial, AllReachable, Sound, QueuesOk, SeatsOk, UisOk, RecordsOk, BeingRung, EqualFold, Later, Agree, GateOk;
    var u, b' := w.ui[sid].username, PlaceDial(w.board, id, sid, w.ui[sid].username, callee);
    DialMoves(w.board, id, sid, u, callee);
    PlaceDialTable(w.board, id, sid, u, callee);
    assert forall c, v :: DialRings(b', c, v) ==> DialRings(w.board, c, v) || v == callee;
    assert forall k, v :: AddRings(b', k, v) ==> AddRings(w.board, k, v);
    PlacedRings(w.board, b', callee);
    NothingNew(w, ApplyCommit(w, id));
  }

  lemma CommitAddReachable(w: World, id: CallId, sid: SessionId, call: CallId, callee: Account)
    requires Core(w) && AllReachable(w) && w.gate == Some(AddGate(sid, call, callee)) && sid in w.ui
    requires Active(w.board, call) && !BeingRung(w.board, callee)
    ensures AllReachable(ApplyCommit(w, id))
  {
    hide AllReachable, Sound, QueuesOk, SeatsOk, UisOk, RecordsOk, BeingRung, Later, Agree, GateOk, FanOut, SendEach, Ringable;
    var u, b' := w.ui[sid].username, PlaceAdd(w.board, call, w.ui[sid].username, callee);
    AddMoves(w.board, call, u, callee);
    assert forall c, v :: DialRings(b', c, v) ==> DialRings(w.board, c, v);
    assert forall k, v :: AddRings(b', k, v) ==> AddRings(w.board, k, v) || v == callee;
    PlacedRings(w.board, b', callee);
    NothingNew(w, ApplyCommit(w, id));
  }

  /** A step that only moved the board, without a new ring. */
  lemma MovedReachable(w: World, w': World)
    requires AllReachable(w) && Moves(w.board, w'.board) && w'.gate == w.gate && w'.reaping == w.reaping
    requires forall u :: BeingRung(w'.board, u) ==> BeingRung(w.board, u)
    ensures AllReachable(w')
  {
    NothingNew(w, w');
  }

  lemma LeaveReachable(w: World, w': World, id: CallId, sid: SessionId)
    requires Core(w) && AllReachable(w) && w'.board == Hangup(w.board, id, sid) && w'.gate == w.gate && w'.reaping == w.reaping
    ensures AllReachable(w')
  {
    if id in w.board.calls {
      LeaveBoardMoves(w.board, id, sid);
      LeaveShrinks(w.board, id, sid);
    }
    NothingNew(w, w');
  }

  lemma AnswerShrinks(b: Switchboard, id: CallId, sid: SessionId, user: Account)
    requires BoardOk(b) && AnswerError(b, id, user) == None
    requires sid in b.reg.index && b.reg.index[sid].username == user
    ensures Moves(b, Answer(b, id, sid, user).0)
    ensures forall u :: BeingRung(Answer(b, id, sid, user).0, u) ==> BeingRung(b, u)
  {
    hide OneRing, ChansExact, QueuesOk, SeatsOk, Agree, BeingRung, Later, FanOut, Send, SendEach, OthersBySession;
    AnswerBoardMoves(b, id, sid, user);
    AnswerMoves(b, id, sid, user);
    RingsShrink(b, Answer(b, id, sid, user).0);
  }

  lemma AnswerCases(w: World, sid: SessionId)
    ensures var w' := ApplyAnswer(w, sid);
            && w'.gate == w.gate && w'.reaping == w.reaping
            && (w'.board == w.board ||
                (Acts(w, sid) && w.ui[sid].incoming.Some? &&
                 AnswerError(w.board, w.ui[sid].incoming.value, w.ui[sid].username) == None &&
                 w.board.calls[w.ui[sid].incoming.value].participants != [] &&
                 w'.board == Answer(w.board, w.ui[sid].incoming.value, sid, w.ui[sid].username).0))
  {
  }

  lemma AnswerReachable(w: World, sid: SessionId)
    requires Core(w) && AllReachable(w)
    ensures AllReachable(ApplyAnswer(w, sid))
  {
    AnswerCases(w, sid);
    var w' := ApplyAnswer(w, sid);
    if w'.board == w.board {
      NothingNew(w, w');
    } else {
      AnswerShrinks(w.board, w.ui[sid].incoming.value, sid, w.ui[sid].username);
      MovedReachable(w, w');
    }
  }

  lemma RejectReachable(w: World, sid: SessionId)
    requires Core(w) && AllReachable(w)
    ensures AllReachable(ApplyReject(w, sid))
  {
    hide EndDial, SendEach, Sound, Agree, QueuesOk, SeatsOk, UisOk, RecordsOk, GateOk, Present, BeingRung,
         AllReachable, Settle, Moves;
    if Acts(w, sid) && w.ui[sid].incoming.Some? && w.ui[sid].state != CallPending {
      var user, id := w.ui[sid].username, w.ui[sid].incoming.value;
      RejectMoves(w.board, id, user);
      if id in w.board.calls { RejectShrinks(w.board, id, user); }
      MovedReachable(w, ApplyReject(w, sid));
    }
  }

  lemma CancelReachable(w: World, sid: SessionId)
    requires Core(w) && AllReachable(w)
    ensures AllReachable(ApplyCancel(w, sid))
  {
    hide Sound, Agree, QueuesOk, SeatsOk, RecordsOk, GateOk, Present, BeingRung, AllReachable, Settle, SendEach, FanOut;
    if ApplyCancel(w, sid) != w {
      var u := w.ui[sid];
      assert UiOk(w.board, sid, u);
      CancelMoves(w.board, u.callId.value, u.addTarget.value, u.username);
      RingsShrink(w.board, CancelAdd(w.board, u.callId.value, u.addTarget.value, u.username));
      MovedReachable(w, ApplyCancel(w, sid));
    }
  }

  lemma TickReachable(w: World, stop: Chan)
    requires Core(w) && AllReachable(w)
    ensures AllReachable(ApplyTick(w, stop))
  {
    if stop in w.rings && w.gate == None {
      var r := w.rings[stop];
      assert RecordOk(w.board, stop, r);
      TickMoves(w.board, r.id, r.caller, r.callee, r.isAdd);
      RingsShrink(w.board, Tick(w.board, r.id, r.caller, r.callee, r.isAdd));
      MovedReachable(w, ApplyTick(w, stop));
    }
  }

  /** Steps that end with the session's model changed, perhaps after it hung up `id`. */
  lemma HangingUpReachable(w: World, w': World, id: Option<CallId>, sid: SessionId)
    requires Core(w) && AllReachable(w) && w'.gate == w.gate && w'.reaping == w.reaping
    requires match id case Some(c) => w'.board == Hangup(w.board, c, sid) case None => w'.board == w.board
    ensures AllReachable(w')
  {
    if id.Some? { LeaveReachable(w, w', id.value, sid); } else { NothingNew(w, w'); }
  }

  lemma LeaveCallBoard(w: World, id: CallId, sid: SessionId, outcome: Outcome)
    ensures var w' := LeaveCall(w, id, sid, outcome);
            w'.board == Hangup(w.board, id, sid) && w'.gate == w.gate && w'.reaping == w.reaping
  {
    LeaveBoard(w, id, sid, outcome);
  }

  lemma HangupKeyReachable(w: World, sid: SessionId)
    requires Core(w) && AllReachable(w)
    ensures AllReachable(ApplyHangup(w, sid)) && AllReachable(ApplyExit(w, sid))
  {
    if Acts(w, sid) {
      var id := w.ui[sid].callId;
      if id.Some? { LeaveCallBoard(w, id.value, sid, Cancelled); }
      if id.Some? { HangingUpReachable(w, ApplyHangup(w, sid), id, sid); }
      if w.ui[sid].inPhone { HangingUpReachable(w, ApplyExit(w, sid), id, sid); }
    }
  }

  lemma TeardownReachable(w: World, sid: SessionId, pick: Option<CallId>)
    requires Core(w) && AllReachable(w)
    ensures AllReachable(ApplyTeardownHangup(w, sid, pick))
  {
    if Acts(w, sid) && Picks(w.board, sid, pick) {
      if pick.Some? { LeaveCallBoard(w, pick.value, sid, TornDown); }
      HangingUpReachable(w, ApplyTeardownHangup(w, sid, pick), pick, sid);
    }
  }

  lemma ConsumeReachable(w: World, sid: SessionId)
    requires Core(w) && AllReachable(w)
    ensures AllReachable(ApplyConsume(w, sid))
  {
    if sid in w.ui && w.board.reg.index[sid].notify != [] {
      var w1 := w.(board := w.board.(reg := Receive(w.board.reg, sid)));
      var id := w.ui[sid].callId;
      var hangsUp := Handle(w.ui[sid], w.board.reg.index[sid].notify[0]).1;
      ReceiveOk(w, sid);
      RegistryOnlyRings(w.board, w1.board);
      NothingNew(w, w1);
      if hangsUp && id.Some? { LeaveCallBoard(w1, id.value, sid, Cancelled); }
      if w.gate == None || (!hangsUp && w.gate.value.sid != sid) {
        HangingUpReachable(w1, ApplyConsume(w, sid), if hangsUp then id else None, sid);
      }
    }
  }

  lemma ConnectReachable(w: World, username: Account, role: string, visible: bool)
    requires Core(w) && AllReachable(w)
    ensures AllReachable(ApplyConnect(w, username, role, visible))
  {
    RegistryOnlyRings(w.board, ApplyConnect(w, username, role, visible).board);
    RegisterAgrees(w.board.reg, username, role, visible, "LOBBY");
    NothingNew(w, ApplyConnect(w, username, role, visible));
  }

  lemma RingReachable(w: World, sid: SessionId, target: Account)
    requires AllReachable(w)
    ensures AllReachable(ApplyRing(w, sid, target))
  {
    hide FirstRefusal, BeingRung;
    NothingNew(w, ApplyRing(w, sid, target));
  }

  /** The last reading of the check is the one that counts: it found a session registered at that moment. */
  lemma RecheckReachable(w: World)
    requires AllReachable(w)
    ensures AllReachable(ApplyRecheck(w))
  {
    hide BeingRung;
    if w.gate.Some? && w.gate.value.CheckGate? {
      assert Ringable(w.board, w.gate.value.callee) <= SessionsOf(w.board.reg, w.gate.value.callee);
    }
    NothingNew(w, ApplyRecheck(w));
  }

  lemma EnterReachable(w: World, sid: SessionId)
    requires AllReachable(w)
    ensures AllReachable(ApplyEnter(w, sid)) && AllReachable(ApplyType(w, sid))
  {
    NothingNew(w, ApplyEnter(w, sid));
    RegistryOnlyRings(w.board, ApplyType(w, sid).board);
    NothingNew(w, ApplyType(w, sid));
  }

  lemma NotifyReachable(w: World, e: PhoneEvent)
    requires AllReachable(w)
    ensures AllReachable(ApplyNotify(w, e))
  {
    RegistryOnlyRings(w.board, ApplyNotify(w, e).board);
    NothingNew(w, ApplyNotify(w, e));
  }

  lemma StepReachable(w: World, step: Step)
    requires Core(w) && AllReachable(w)
    ensures AllReachable(Apply(w, step))
  {
    hide Core, AllReachable, ApplyConnect, ApplyTeardownHangup, ApplyUnregister, ApplyReap, ApplyCommit, ApplyAnswer,
         ApplyReject, ApplyHangup, ApplyExit, ApplyCancel, ApplyType, ApplyConsume, ApplyTick, ApplyRing,
         ApplyRecheck, ApplyEnter, ApplyNotify;
    match step
    case Connect(username, role, visible) => ConnectReachable(w, username, role, visible);
    case Ring(sid, target) => RingReachable(w, sid, target);
    case Recheck => RecheckReachable(w);
    case TeardownHangup(sid, pick) => TeardownReachable(w, sid, pick);
    case TeardownUnregister(sid) => UnregisterReachable(w, sid);
    case TeardownReap(sid) => ReapReachable(w, sid);
    case Commit(id) => CommitReachable(w, id);
    case AnswerKey(sid) => AnswerReachable(w, sid);
    case RejectKey(sid) => RejectReachable(w, sid);
    case HangupKey(sid) => HangupKeyReachable(w, sid);
    case ExitKey(sid) => HangupKeyReachable(w, sid);
    case CancelKey(sid) => CancelReachable(w, sid);
    case Consume(sid) => ConsumeReachable(w, sid);
    case RingTick(stop) => TickReachable(w, stop);
    case EnterPhone(sid) => EnterReachable(w, sid);
    case TypeKey(sid) => EnterReachable(w, sid);
    case NotifyAdmins(e) => NotifyReachable(w, e);
  }

  lemma {:induction false} RunReachable(w: World, steps: seq<Step>)
    requires Core(w) && AllReachable(w)
    ensures Core(Run(w, steps)) && AllReachable(Run(w, steps))
    decreases steps
  {
    if steps != [] {
      StepCore(w, steps[0]);
      StepReachable(w, steps[0]);
      RunReachable(Apply(w, steps[0]), steps[1..]);
    }
  }

  // ---- The theorems ------------------------------------------------------------------------

  lemma StartReachable()
    ensures Core(START) && AllReachable(START)
  {
    StartHolds();
  }

  /** Whoever is being rung is connected or about to be reaped, in every reachable state. */
  lemma RungAreReachable(steps: seq<Step>, user: Account)
    ensures var w := Run(START, steps);
            BeingRung(w.board, user) || Targets(w, user) ==> Connected(w.board.reg, user) || WillBeReaped(w, user)
  {
    StartReachable();
    RunReachable(START, steps);
    assert Reachable(Run(START, steps), user) || !(BeingRung(Run(START, steps).board, user) || Targets(Run(START, steps), user));
  }

  /** An account that left completely can be dialled by any other account as soon as it logs in again. */
  lemma DialableAgain(steps: seq<Step>, user: Account, role: string, visible: bool, caller: Account)
    requires var w := Run(START, steps); !Connected(w.board.reg, user) && !WillBeReaped(w, user)
    requires !EqualFold(caller, user)
    ensures Admit(Run(START, steps + [Connect(user, role, visible)]).board, caller, user) == None
  {
    hide Core, BeingRung, Ringable, ApplyConnect, EqualFold;
    var w := Run(START, steps);
    RunConcat(START, steps, [Connect(user, role, visible)]);
    assert Run(w, [Connect(user, role, visible)]) == ApplyConnect(w, user, role, visible);
    StartReachable();
    RunReachable(START, steps);
    assert !BeingRung(w.board, user) by {
      assert Reachable(w, user) || !BeingRung(w.board, user);
    }
    FreshLoginRings(w, user, role, visible);
    AdmitMeans(ApplyConnect(w, user, role, visible).board, caller, user);
  }

  lemma FreshLoginRings(w: World, user: Account, role: string, visible: bool)
    requires Core(w) && !BeingRung(w.board, user)
    ensures var b' := ApplyConnect(w, user, role, visible).board;
            !BeingRung(b', user) && Connected(b'.reg, user) && Ringable(b', user) != {}
  {
    var b', sid := ApplyConnect(w, user, role, visible).board, w.board.reg.nextId + 1;
    RegisterAgrees(w.board.reg, user, role, visible, "LOBBY");
    RegistryOnlyRings(w.board, b');
    assert sid in SessionsOf(b'.reg, user);
    assert !InCall(b', sid) by {
      forall id | id in b'.calls ensures sid !in Sids(b'.calls[id].participants) {
        var ps := w.board.calls[id].participants;
        forall i | 0 <= i < |ps| ensures Sids(ps)[i] != sid { assert ps[i] in ps; }
      }
    }
    assert sid in Ringable(b', user);
  }

  lemma {:induction false} RunConcat(w: World, first: seq<Step>, second: seq<Step>)
    ensures Run(w, first + second) == Run(Run(w, first), second)
    decreases first
  {
    if first == [] {
      assert first + second == second;
    } else {
      assert (first + second)[1..] == first[1..] + second;
      RunConcat(Apply(w, first[0]), first[1..], second);
    }
  }
}
