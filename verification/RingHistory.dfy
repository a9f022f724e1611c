/**
  The record kept of every ring ever admitted: outstanding exactly while its stop
  channel is open, and in the name of whoever placed it. RingLedger ties the records
  to the events of the run.
 */
module RingHistory {
  import opened Wrappers
  import opened Ordering
  import opened Registry
  import opened CallTable
  import opened TableInvariant
  import opened TableMotion
  import opened Protocol
  import opened WorldInvariant
  import opened Agreement

  /** The records belong to the stop channels, and exactly those of open channels are outstanding. */
  ghost predicate RecordsMatch(b: Switchboard, rings: map<Chan, RingRecord>) {
    && (forall c :: c in rings ==> c in b.chans.made && RecordShape(c, rings[c]) && (rings[c].outcome == Outstanding <==> c in b.chans.open))
    && (forall c :: c in b.chans.open && !c.Incoming? ==> c in rings)
    && (forall k :: k in b.adds ==> StopOf(b, k) in rings && rings[StopOf(b, k)].caller == b.adds[k].inviter)
    && (forall id :: Pending(b, id) ==> DialStop(id) in rings && rings[DialStop(id)].caller == b.calls[id].caller)
  }

  predicate RecordShape(c: Chan, r: RingRecord) {
    if r.isAdd then c.AddStop? && c.key == AddKey(r.id, r.callee) else c == DialStop(r.id)
  }

  function StopOf(b: Switchboard, k: AddKey): Chan
    requires k in b.adds
  {
    AddStop(k, b.adds[k].serial)
  }

  /** The rings of one call that were answered. */
  function AcceptedFor(rings: map<Chan, RingRecord>, id: CallId): set<Chan> {
    set c | c in rings && rings[c].id == id && rings[c].outcome == Accepted
  }

  /** Each call has its caller, plus one participant for every answer, less those who left. */
  ghost predicate Balanced(w: World) {
    && (forall id :: id in w.departed ==> !Fresh(w.board, id))
    && (forall id :: id in w.board.calls ==> BalancedAt(w, id))
  }

  ghost predicate BalancedAt(w: World, id: CallId)
    requires id in w.board.calls
  {
    |w.board.calls[id].participants| + Left(w.departed, id) == 1 + |AcceptedFor(w.rings, id)|
  }

  ghost predicate Hist(w: World) {
    RecordsMatch(w.board, w.rings) && Balanced(w)
  }

  // ---- A board that only lost rings --------------------------------------------------

  /** No ring was added between the two boards. */
  ghost predicate Winds(b: Switchboard, b': Switchboard) {
    && Sound(b) && Sound(b') && Later(b, b')
    && b'.calls.Keys <= b.calls.Keys
    && (forall k :: k in b'.adds ==> k in b.adds && b'.adds[k] == b.adds[k])
  }

  lemma StopsShrink(b: Switchboard, b': Switchboard)
    requires Winds(b, b')
    ensures forall c :: c in b'.chans.open && !c.Incoming? ==> c in b.chans.open
  {
    forall c | c in b'.chans.open && !c.Incoming? ensures c in b.chans.open {
      match c
      case DialStop(id) => assert Pending(b', id) && b'.calls[id] == b.calls[id];
      case AddStop(k, n) => assert k in b'.adds && k in b.adds;
    }
  }

  lemma SettledMatch(b: Switchboard, b': Switchboard, rings: map<Chan, RingRecord>, outcome: Outcome)
    requires Winds(b, b') && RecordsMatch(b, rings) && outcome != Outstanding
    ensures RecordsMatch(b', Settle(rings, b', outcome))
  {
    hide Sound, Settle;
    StopsShrink(b, b');
    var rings' := Settle(rings, b', outcome);
    SettledRecords(b, b', rings, outcome);
    forall k | k in b'.adds ensures StopOf(b', k) in rings' && rings'[StopOf(b', k)].caller == b'.adds[k].inviter {
      assert k in b.adds && StopOf(b, k) in rings;
    }
    forall id | Pending(b', id) ensures DialStop(id) in rings' && rings'[DialStop(id)].caller == b'.calls[id].caller {
      assert Pending(b, id);
    }
  }

  lemma SettledRecords(b: Switchboard, b': Switchboard, rings: map<Chan, RingRecord>, outcome: Outcome)
    requires RecordsMatch(b, rings) && b.chans.made <= b'.chans.made && outcome != Outstanding
    requires forall c: Chan :: c in b'.chans.open && !c.Incoming? ==> c in b.chans.open
    ensures var rings' := Settle(rings, b', outcome);
            && rings'.Keys == rings.Keys && (forall c :: c in rings ==> rings'[c].caller == rings[c].caller)
            && (forall c :: c in rings' ==> c in b'.chans.made && RecordShape(c, rings'[c]) && (rings'[c].outcome == Outstanding <==> c in b'.chans.open))
            && (forall c: Chan :: c in b'.chans.open && !c.Incoming? ==> c in rings')
  {
  }

  lemma SettleKeepsAccepted(rings: map<Chan, RingRecord>, b': Switchboard, outcome: Outcome, id: CallId)
    requires outcome != Accepted
    ensures AcceptedFor(Settle(rings, b', outcome), id) == AcceptedFor(rings, id)
  {
  }

  /** Nobody sat down or left: the rings that ended did so without an answer. */
  lemma WindHist(w: World, w': World, outcome: Outcome)
    requires Hist(w) && Winds(w.board, w'.board) && outcome != Outstanding && outcome != Accepted
    requires w'.rings == Settle(w.rings, w'.board, outcome) && w'.departed == w.departed
    requires forall id :: id in w'.board.calls ==> w'.board.calls[id].participants == w.board.calls[id].participants
    ensures Hist(w')
  {
    SettledMatch(w.board, w'.board, w.rings, outcome);
    forall id | id in w'.board.calls ensures BalancedAt(w', id) {
      assert BalancedAt(w, id);
      SettleKeepsAccepted(w.rings, w'.board, outcome, id);
    }
  }

  /** Nothing that the history speaks of has changed. */
  lemma SameHist(w: World, w': World)
    requires Hist(w) && w'.board.calls == w.board.calls && w'.board.adds == w.board.adds && w'.board.chans == w.board.chans
    requires w'.rings == w.rings && w'.departed == w.departed
    ensures Hist(w')
  {
    assert forall id :: Pending(w'.board, id) <==> Pending(w.board, id);
    forall k | k in w'.board.adds ensures StopOf(w'.board, k) in w.rings && w.rings[StopOf(w'.board, k)].caller == w'.board.adds[k].inviter {
      assert StopOf(w'.board, k) == StopOf(w.board, k);
    }
    forall id | id in w'.board.calls ensures BalancedAt(w', id) {
      assert BalancedAt(w, id);
    }
  }

  // ---- Hanging up ----------------------------------------------------------------------

  lemma LeaveWinds(b: Switchboard, id: CallId, sid: SessionId)
    requires Sound(b) && id in b.calls && sid in Sids(b.calls[id].participants)
    ensures Winds(b, Leave(b, id, sid))
    ensures var b' := Leave(b, id, sid);
            && (id in b'.calls ==> |b'.calls[id].participants| == |b.calls[id].participants| - 1)
            && (forall c :: c in b'.calls && c != id ==> b'.calls[c] == b.calls[c])
  {
    hide OneRing, ChansExact, Leave, Seats, Later;
    assert CallShape(b.calls[id]);
    LeaveSound(b, id, sid);
    LeaveMoves(b, id, sid);
    var i := Find(b.calls[id].participants, sid);
    assert i < |b.calls[id].participants|;
    LeaveTable(b, id, sid, i);
    LeaveTableAdds(b, id, sid);
  }

  lemma LeaveHist(w: World, id: CallId, sid: SessionId, outcome: Outcome)
    requires Sound(w.board) && Hist(w) && outcome != Outstanding && outcome != Accepted
    ensures Hist(LeaveCall(w, id, sid, outcome))
  {
    if id in w.board.calls && sid in Sids(w.board.calls[id].participants) {
      LeaveWinds(w.board, id, sid);
      LeaveFields(w, id, sid, outcome);
      LeftHist(w, LeaveCall(w, id, sid, outcome), id, outcome);
    }
  }

  lemma LeaveFields(w: World, id: CallId, sid: SessionId, outcome: Outcome)
    requires id in w.board.calls && sid in Sids(w.board.calls[id].participants)
    ensures var w', b' := LeaveCall(w, id, sid, outcome), Leave(w.board, id, sid);
            && w'.board == b' && w'.rings == Settle(w.rings, b', outcome)
            && w'.departed == w.departed[id := Left(w.departed, id) + 1]
  {
    hide Leave, Settle, Sids;
  }

  lemma LeftHist(w: World, w': World, id: CallId, outcome: Outcome)
    requires Hist(w) && id in w.board.calls && Winds(w.board, w'.board) && outcome != Outstanding && outcome != Accepted
    requires w'.rings == Settle(w.rings, w'.board, outcome) && w'.departed == w.departed[id := Left(w.departed, id) + 1]
    requires id in w'.board.calls ==> |w'.board.calls[id].participants| == |w.board.calls[id].participants| - 1
    requires forall c :: c in w'.board.calls && c != id ==> w'.board.calls[c] == w.board.calls[c]
    ensures Hist(w')
  {
    hide Sound, AcceptedFor, RecordsMatch, Settle;
    SettledMatch(w.board, w'.board, w.rings, outcome);
    LiveIsMade(w.board, id);
    forall c | c in w'.board.calls ensures BalancedAt(w', c) {
      assert c in w.board.calls && BalancedAt(w, c);
      SettleKeepsAccepted(w.rings, w'.board, outcome, c);
    }
  }

  // ---- Answering -------------------------------------------------------------------------

  /** The stop channel of the ring that an answer takes. */
  function AnsweredStop(b: Switchboard, id: CallId, user: Account): Chan
    requires id in b.calls && (b.calls[id].state == CallActive ==> AddKey(id, user) in b.adds)
  {
    if b.calls[id].state == CallActive then StopOf(b, AddKey(id, user)) else DialStop(id)
  }

  /** An answer closes the stop channel of the ring it answers, and of no other. */
  lemma AnswerStopsOne(b: Switchboard, id: CallId, sid: SessionId, user: Account)
    requires Sound(b) && AnswerError(b, id, user) == None
    ensures var b', c0 := Answer(b, id, sid, user).0, AnsweredStop(b, id, user);
            && c0 in b.chans.open
            && Winds(b, b')
            && (forall c: Chan :: !c.Incoming? ==> (c in b'.chans.open <==> c in b.chans.open && c != c0))
  {
    hide Answer, OneRing, Later;
    assert CallShape(b.calls[id]);
    assert AnsweredStop(b, id, user) in b.chans.open;
    hide ChansExact;
    AnswerMoves(b, id, sid, user);
    AnswerSound(b, id, sid, user);
    AnswerAddsKept(b, id, sid, user);
    AnswerOpen(b, id, sid, user);
  }

  lemma AnswerOpen(b: Switchboard, id: CallId, sid: SessionId, user: Account)
    requires AnswerError(b, id, user) == None && b.calls[id].participants != []
    ensures var b', c0 := Answer(b, id, sid, user).0, AnsweredStop(b, id, user);
            forall c: Chan :: !c.Incoming? ==> (c in b'.chans.open <==> c in b.chans.open && c != c0)
  {
    hide FanOut, Send, SendEach, OthersBySession;
  }

  lemma AnswerHist(w: World, w': World, id: CallId, sid: SessionId, user: Account)
    requires Sound(w.board) && Hist(w) && AnswerError(w.board, id, user) == None
    requires w'.board == Answer(w.board, id, sid, user).0 && w'.departed == w.departed
    requires w'.rings == Settle(w.rings, w'.board, Accepted)
    ensures Hist(w')
    ensures w'.rings == w.rings[AnsweredStop(w.board, id, user) := w.rings[AnsweredStop(w.board, id, user)].(outcome := Accepted)]
  {
    hide Hist, Sound, Settle, Answer, Winds, Later;
    AnswerStopsOne(w.board, id, sid, user);
    AnswerMoves(w.board, id, sid, user);
    AnsweredHist(w, w', id, AnsweredStop(w.board, id, user));
  }

  lemma AnsweredHist(w: World, w': World, id: CallId, c0: Chan)
    requires Hist(w) && Winds(w.board, w'.board) && id in w.board.calls && w'.departed == w.departed
    requires w'.rings == Settle(w.rings, w'.board, Accepted)
    requires c0 in w.board.chans.open && (c0 == DialStop(id) || (c0.AddStop? && c0.key.callId == id))
    requires forall c: Chan :: !c.Incoming? ==> (c in w'.board.chans.open <==> c in w.board.chans.open && c != c0)
    requires w'.board.calls.Keys == w.board.calls.Keys
    requires |w'.board.calls[id].participants| == |w.board.calls[id].participants| + 1
    requires forall c :: c in w.board.calls && c != id ==> w'.board.calls[c] == w.board.calls[c]
    ensures Hist(w') && c0 in w.rings && w'.rings == w.rings[c0 := w.rings[c0].(outcome := Accepted)]
  {
    SettledMatch(w.board, w'.board, w.rings, Accepted);
    SettleOne(w.board, w'.board, w.rings, c0);
    AnswerBalance(w, w', id, c0);
  }

  lemma SettleOne(b: Switchboard, b': Switchboard, rings: map<Chan, RingRecord>, c0: Chan)
    requires RecordsMatch(b, rings) && c0 in b.chans.open && !c0.Incoming?
    requires forall c: Chan :: !c.Incoming? ==> (c in b'.chans.open <==> c in b.chans.open && c != c0)
    ensures c0 in rings && rings[c0].outcome == Outstanding && RecordShape(c0, rings[c0])
    ensures Settle(rings, b', Accepted) == rings[c0 := rings[c0].(outcome := Accepted)]
  {
  }

  lemma AnswerBalance(w: World, w': World, id: CallId, c0: Chan)
    requires Balanced(w) && w.board.chans.made <= w'.board.chans.made && w'.departed == w.departed
    requires c0 in w.rings && w.rings[c0].outcome == Outstanding && w.rings[c0].id == id && id in w.board.calls
    requires w'.rings == w.rings[c0 := w.rings[c0].(outcome := Accepted)]
    requires w'.board.calls.Keys == w.board.calls.Keys
    requires |w'.board.calls[id].participants| == |w.board.calls[id].participants| + 1
    requires forall c :: c in w.board.calls && c != id ==> w'.board.calls[c] == w.board.calls[c]
    ensures Balanced(w')
  {
    hide AcceptedFor;
    forall c | c in w'.board.calls ensures BalancedAt(w', c) {
      assert BalancedAt(w, c);
      OneAccepted(w.rings, c0, c);
    }
  }

  lemma OneAccepted(rings: map<Chan, RingRecord>, c0: Chan, id: CallId)
    requires c0 in rings && rings[c0].outcome == Outstanding
    ensures var rings' := rings[c0 := rings[c0].(outcome := Accepted)];
            |AcceptedFor(rings', id)| == |AcceptedFor(rings, id)| + if rings[c0].id == id then 1 else 0
  {
    var rings' := rings[c0 := rings[c0].(outcome := Accepted)];
    assert AcceptedFor(rings', id) == AcceptedFor(rings, id) + if rings[c0].id == id then {c0} else {};
  }

  // ---- Placing a ring ------------------------------------------------------------------------

  lemma StopIsNew(w: World, c: Chan)
    requires RecordsMatch(w.board, w.rings) && c !in w.board.chans.made
    ensures c !in w.rings
  {
  }

  lemma CommitDialHist(w: World, id: CallId, sid: SessionId, callee: Account)
    requires Hist(w) && RecordsOk(w.board, w.rings) && id !in w.board.calls
    requires w.gate == Some(DialGate(sid, callee)) && sid in w.ui && Fresh(w.board, id)
    ensures Hist(ApplyCommit(w, id))
  {
    hide PlaceDial, Dialed, RecordsMatch, Balanced;
    var u, w' := w.ui[sid], ApplyCommit(w, id);
    StopIsNew(w, DialStop(id));
    NewDialBoard(w.board, id, sid, u.username, callee);
    NewDialMatch(w, w', id, u.username, callee);
    NewDialBalance(w, w', id);
  }

  lemma NewDialBoard(b: Switchboard, id: CallId, sid: SessionId, caller: Account, callee: Account)
    ensures var b', p := PlaceDial(b, id, sid, caller, callee), Participant(caller, sid, b.chans.serial);
            && b'.calls == b.calls[id := Call(CallPending, caller, callee, [p])]
            && b'.chans.open == b.chans.open + {Incoming(id, p), DialStop(id)}
            && b'.adds == b.adds && b.chans.made + {DialStop(id)} <= b'.chans.made
            && (forall c: Chan :: !c.Incoming? ==> (c in b'.chans.open <==> c in b.chans.open || c == DialStop(id)))
            && (forall c :: Pending(b', c) && c != id ==> Pending(b, c) && b'.calls[c] == b.calls[c])
  {
  }

  lemma NewDialMatch(w: World, w': World, id: CallId, caller: Account, callee: Account)
    requires RecordsMatch(w.board, w.rings) && id !in w.board.calls && DialStop(id) !in w.rings
    requires w.board.chans.made + {DialStop(id)} <= w'.board.chans.made
    requires w'.rings == w.rings[DialStop(id) := RingRecord(id, caller, callee, false, Outstanding)]
    requires forall c: Chan :: !c.Incoming? ==> (c in w'.board.chans.open <==> c in w.board.chans.open || c == DialStop(id))
    requires forall c :: Pending(w'.board, c) && c != id ==> Pending(w.board, c) && w'.board.calls[c] == w.board.calls[c]
    requires id in w'.board.calls && w'.board.calls[id].caller == caller && w'.board.adds == w.board.adds
    ensures RecordsMatch(w'.board, w'.rings)
  {
    forall k | k in w'.board.adds ensures StopOf(w'.board, k) in w'.rings && w'.rings[StopOf(w'.board, k)].caller == w'.board.adds[k].inviter {
      assert StopOf(w.board, k) in w.rings;
    }
  }

  lemma NotYetAccepted(rings: map<Chan, RingRecord>, rings': map<Chan, RingRecord>, c: Chan, id: CallId)
    requires c !in rings && c in rings' && rings'[c].outcome == Outstanding && rings' == rings[c := rings'[c]]
    ensures AcceptedFor(rings', id) == AcceptedFor(rings, id)
  {
  }

  lemma NoneAccepted(b: Switchboard, rings: map<Chan, RingRecord>, id: CallId)
    requires RecordsOk(b, rings) && Fresh(b, id)
    ensures AcceptedFor(rings, id) == {}
  {
    forall c | c in rings ensures rings[c].id != id { assert RecordOk(b, c, rings[c]); }
  }

  lemma NewDialBalance(w: World, w': World, id: CallId)
    requires Balanced(w) && RecordsOk(w.board, w.rings) && Fresh(w.board, id)
    requires w.board.chans.made <= w'.board.chans.made && w'.departed == w.departed
    requires w'.board.calls.Keys == w.board.calls.Keys + {id} && |w'.board.calls[id].participants| == 1
    requires forall c :: c in w.board.calls && c != id ==> w'.board.calls[c] == w.board.calls[c]
    requires DialStop(id) in w'.rings && w'.rings[DialStop(id)].outcome == Outstanding
    requires w'.rings == w.rings[DialStop(id) := w'.rings[DialStop(id)]] && DialStop(id) !in w.rings
    ensures Balanced(w')
  {
    hide AcceptedFor;
    NoneAccepted(w.board, w.rings, id);
    forall c | c in w'.board.calls ensures BalancedAt(w', c) {
      if c != id { assert BalancedAt(w, c); }
      NotYetAccepted(w.rings, w'.rings, DialStop(id), c);
    }
  }

  lemma CommitAddHist(w: World, id: CallId, sid: SessionId, call: CallId, callee: Account)
    requires Hist(w) && Sound(w.board) && w.gate == Some(AddGate(sid, call, callee))
    requires sid in w.ui && Active(w.board, call) && AddKey(call, callee) !in w.board.adds
    ensures Hist(ApplyCommit(w, id))
  {
    var u, w' := w.ui[sid], ApplyCommit(w, id);
    var k, n := AddKey(call, callee), w.board.chans.serial;
    assert AddStop(k, n) !in w.board.chans.made;
    NewAddBoard(w.board, call, u.username, callee);
    NewAddMatch(w, w', k, n, u.username);
    NewAddBalance(w, w', AddStop(k, n));
  }

  lemma NewAddBoard(b: Switchboard, call: CallId, caller: Account, callee: Account)
    requires call in b.calls
    ensures var b', k, n := PlaceAdd(b, call, caller, callee), AddKey(call, callee), b.chans.serial;
            && b'.calls == b.calls && b'.adds == b.adds[k := PendingRing(n, caller)]
            && b'.chans.open == b.chans.open + {AddStop(k, n)} && b'.chans.made == b.chans.made + {AddStop(k, n)}
  {
  }

  lemma NewAddMatch(w: World, w': World, k: AddKey, n: nat, inviter: Account)
    requires RecordsMatch(w.board, w.rings) && AddStop(k, n) !in w.board.chans.made && k !in w.board.adds
    requires w'.rings == w.rings[AddStop(k, n) := RingRecord(k.callId, inviter, k.callee, true, Outstanding)]
    requires w'.board.calls == w.board.calls && w'.board.adds == w.board.adds[k := PendingRing(n, inviter)]
    requires w'.board.chans.open == w.board.chans.open + {AddStop(k, n)}
    requires w'.board.chans.made == w.board.chans.made + {AddStop(k, n)}
    ensures RecordsMatch(w'.board, w'.rings)
  {
    forall j | j in w'.board.adds ensures StopOf(w'.board, j) in w'.rings && w'.rings[StopOf(w'.board, j)].caller == w'.board.adds[j].inviter {
      if j != k { assert StopOf(w'.board, j) == StopOf(w.board, j); }
    }
    forall c | Pending(w'.board, c) ensures DialStop(c) in w'.rings && w'.rings[DialStop(c)].caller == w'.board.calls[c].caller {
      assert Pending(w.board, c);
    }
  }

  lemma NewAddBalance(w: World, w': World, stop: Chan)
    requires Balanced(w) && w.board.chans.made <= w'.board.chans.made && w'.departed == w.departed
    requires w'.board.calls == w.board.calls && stop !in w.rings
    requires stop in w'.rings && w'.rings[stop].outcome == Outstanding && w'.rings == w.rings[stop := w'.rings[stop]]
    ensures Balanced(w')
  {
    forall c | c in w'.board.calls ensures BalancedAt(w', c) {
      assert BalancedAt(w, c);
      NotYetAccepted(w.rings, w'.rings, stop, c);
    }
  }

  // ---- Every step ------------------------------------------------------------------------------

  lemma RejectWinds(b: Switchboard, id: CallId, user: Account)
    requires Sound(b)
    ensures var b' := Reject(b, id, user).0;
            Winds(b, b') && (forall c :: c in b'.calls ==> b'.calls[c] == b.calls[c])
  {
    hide Sound, SendEach;
    RejectSound(b, id, user);
  }

  lemma ReapWinds(b: Switchboard, user: Account)
    requires Sound(b)
    ensures var b' := Reap(b, user);
            Winds(b, b') && (forall c :: c in b'.calls ==> b'.calls[c] == b.calls[c])
  {
    hide Sound, SendEach, Ringable;
    ReapSound(b, user);
  }

  lemma CancelWinds(b: Switchboard, id: CallId, callee: Account, caller: Account)
    requires Sound(b)
    ensures Winds(b, CancelAdd(b, id, callee, caller)) && CancelAdd(b, id, callee, caller).calls == b.calls
  {
    hide Sound, SendEach, FanOut;
    CancelAddSound(b, id, callee, caller);
  }

  lemma AnswerKeyHist(w: World, sid: SessionId)
    requires Core(w) && Hist(w)
    ensures Hist(ApplyAnswer(w, sid))
  {
    hide Hist, Settle, Answer, Answered, Names, Shape, OneRing, ChansExact, QueuesOk, SeatsOk, UisOk, RecordsOk, Present;
    var w' := ApplyAnswer(w, sid);
    if Acts(w, sid) && w.ui[sid].incoming.Some? && w.ui[sid].state != CallPending {
      var user, id := w.ui[sid].username, w.ui[sid].incoming.value;
      if id in w.board.calls && w.board.calls[id].participants == [] {
      } else {
        AnswerResult(w.board, id, sid, user);
        if AnswerError(w.board, id, user) == None {
          AnswerHist(w, w', id, sid, user);
        } else {
          SameHist(w, w');
        }
      }
    }
  }

  lemma RejectKeyHist(w: World, sid: SessionId)
    requires Core(w) && Hist(w)
    ensures Hist(ApplyReject(w, sid))
  {
    hide Reject, Settle, Sound, Agree, QueuesOk, SeatsOk, UisOk, RecordsOk, GateOk, Present, Winds, Hist;
    if Acts(w, sid) && w.ui[sid].incoming.Some? && w.ui[sid].state != CallPending {
      RejectWinds(w.board, w.ui[sid].incoming.value, w.ui[sid].username);
      WindHist(w, ApplyReject(w, sid), Declined);
    }
  }

  lemma CancelKeyHist(w: World, sid: SessionId)
    requires Core(w) && Hist(w)
    ensures Hist(ApplyCancel(w, sid))
  {
    hide CancelAdd, Settle, Sound, Agree, QueuesOk, SeatsOk, UisOk, RecordsOk, GateOk, Present, Winds, Hist;
    if ApplyCancel(w, sid) != w {
      CancelWinds(w.board, w.ui[sid].callId.value, w.ui[sid].addTarget.value, w.ui[sid].username);
      WindHist(w, ApplyCancel(w, sid), Cancelled);
    }
  }

  lemma ReapHist(w: World, sid: SessionId)
    requires Core(w) && Hist(w)
    ensures Hist(ApplyReap(w, sid))
  {
    hide Reap, Settle, Sound, Agree, QueuesOk, SeatsOk, UisOk, RecordsOk, GateOk, Present, Winds, Hist;
    if sid in w.reaping && w.gate == None {
      ReapWinds(w.board, w.reaping[sid]);
      WindHist(w, ApplyReap(w, sid), Reaped);
    }
  }

  lemma CommitHist(w: World, id: CallId)
    requires Core(w) && Hist(w)
    ensures Hist(ApplyCommit(w, id))
  {
    hide Hist, PlaceDial, PlaceAdd, Shape, QueuesOk, SeatsOk, UisOk, Present, Agree, EqualFold;
    match w.gate
    case Some(DialGate(sid, callee)) =>
      if Fresh(w.board, id) { CommitDialHist(w, id, sid, callee); }
    case Some(AddGate(sid, call, callee)) =>
      assert !AddRings(w.board, AddKey(call, callee), callee);
      CommitAddHist(w, id, sid, call, callee);
    case _ =>
  }

  /** The steps that touch the registry, the models and the gate, and neither calls nor channels. */
  predicate TableAside(step: Step) {
    step.Connect? || step.TeardownUnregister? || step.EnterPhone? || step.Ring? || step.Recheck? || step.RingTick? || step.NotifyAdmins?
  }

  lemma TableUntouched(w: World, step: Step)
    requires TableAside(step)
    ensures var w' := Apply(w, step);
            && w'.board.calls == w.board.calls && w'.board.adds == w.board.adds && w'.board.chans == w.board.chans
            && w'.rings == w.rings && w'.departed == w.departed
  {
    hide ApplyConnect, ApplyUnregister, ApplyNotify, ApplyEnter, ApplyRing, ApplyRecheck, ApplyTick;
    match step
    case RingTick(stop) => TickUntouched(w, stop);
    case EnterPhone(sid) => ScreensOnly(w, sid, "");
    case Ring(sid, target) => ScreensOnly(w, sid, target);
    case Recheck => ScreensOnly(w, 0, "");
    case Connect(username, role, visible) => RegistryOnly(w, username, role, visible, 0, PhoneEvent(EventRing, 0, "", ""));
    case TeardownUnregister(sid) => RegistryOnly(w, "", "", false, sid, PhoneEvent(EventRing, 0, "", ""));
    case NotifyAdmins(e) => RegistryOnly(w, "", "", false, 0, e);
  }

  lemma TickUntouched(w: World, stop: Chan)
    ensures var w' := ApplyTick(w, stop);
            && w'.board.calls == w.board.calls && w'.board.adds == w.board.adds && w'.board.chans == w.board.chans
            && w'.rings == w.rings && w'.departed == w.departed
  {
    hide FanOut, SendEach, Ringable, OthersByName;
  }

  lemma ScreensOnly(w: World, sid: SessionId, target: Account)
    ensures ApplyEnter(w, sid) == w.(ui := ApplyEnter(w, sid).ui)
    ensures ApplyRing(w, sid, target) == w.(gate := ApplyRing(w, sid, target).gate)
    ensures ApplyRecheck(w) == w.(gate := ApplyRecheck(w).gate)
  {
    hide FirstRefusal, Ringable, EqualFold;
  }

  lemma RegistryOnly(w: World, username: Account, role: string, visible: bool, sid: SessionId, e: PhoneEvent)
    ensures var w' := ApplyConnect(w, username, role, visible); w' == w.(board := w.board.(reg := w'.board.reg), ui := w'.ui)
    ensures var w' := ApplyUnregister(w, sid);
            w' == w.(board := w.board.(reg := w'.board.reg), leaving := w'.leaving, reaping := w'.reaping)
    ensures var w' := ApplyNotify(w, e); w' == w.(board := w.board.(reg := w'.board.reg))
  {
    hide Register, Unregister, FanOut, AdminSessions;
  }

  /** Only the registry and the models changed. */
  lemma RegistryHist(w: World, step: Step)
    requires Hist(w) && TableAside(step)
    ensures Hist(Apply(w, step))
  {
    hide Hist, Apply;
    TableUntouched(w, step);
    SameHist(w, Apply(w, step));
  }

  lemma TypeHist(w: World, sid: SessionId)
    requires Core(w) && Hist(w)
    ensures Hist(ApplyType(w, sid))
  {
    hide Hist, Broadcast, Shape, OneRing, ChansExact, QueuesOk, SeatsOk, UisOk, RecordsOk, Present, GateOk;
    if Acts(w, sid) && w.ui[sid].callId.Some? {
      BroadcastSound(w.board, w.ui[sid].callId.value, w.ui[sid].username);
    }
    SameHist(w, ApplyType(w, sid));
  }

  /** A step that may first leave a call, and then changes only models. */
  lemma LeaveKeeps(w: World, w': World, id: Option<CallId>, sid: SessionId, outcome: Outcome)
    requires Core(w) && Hist(w) && outcome != Outstanding && outcome != Accepted
    requires var w1 := match id case Some(c) => LeaveCall(w, c, sid, outcome) case None => w;
             w'.board == w1.board && w'.rings == w1.rings && w'.departed == w1.departed
    ensures Hist(w')
  {
    hide Hist, Leave, Settle, Shape, OneRing, ChansExact, QueuesOk, SeatsOk, UisOk, RecordsOk, Present, GateOk, LeaveCall;
    match id
    case Some(c) =>
      LeaveHist(w, c, sid, outcome);
      SameHist(LeaveCall(w, c, sid, outcome), w');
    case None =>
      SameHist(w, w');
  }

  lemma HangupKeysHist(w: World, sid: SessionId, pick: Option<CallId>)
    requires Core(w) && Hist(w)
    ensures Hist(ApplyHangup(w, sid)) && Hist(ApplyExit(w, sid)) && Hist(ApplyTeardownHangup(w, sid, pick))
  {
    hide Core, Hist, LeaveCall, Picks;
    if Acts(w, sid) {
      LeaveKeeps(w, ApplyHangup(w, sid), w.ui[sid].callId, sid, Cancelled);
      if w.ui[sid].inPhone { LeaveKeeps(w, ApplyExit(w, sid), w.ui[sid].callId, sid, Cancelled); }
      if Picks(w.board, sid, pick) { LeaveKeeps(w, ApplyTeardownHangup(w, sid, pick), pick, sid, TornDown); }
    }
  }

  lemma ConsumeHist(w: World, sid: SessionId)
    requires Core(w) && Hist(w)
    ensures Hist(ApplyConsume(w, sid))
  {
    hide Core, Hist, LeaveCall, Receive, Handle;
    if ApplyConsume(w, sid) != w {
      var w1, id := w.(board := w.board.(reg := Receive(w.board.reg, sid))), w.ui[sid].callId;
      var hangsUp := Handle(w.ui[sid], w.board.reg.index[sid].notify[0]).1;
      SameHist(w, w1);
      ReceiveOk(w, sid);
      LeaveKeeps(w1, ApplyConsume(w, sid), if hangsUp then id else None, sid, Cancelled);
    }
  }

  lemma StepHist(w: World, step: Step)
    requires Core(w) && Hist(w)
    ensures Hist(Apply(w, step))
  {
    hide Core, Hist, ApplyConnect, ApplyTeardownHangup, ApplyUnregister, ApplyReap, ApplyCommit, ApplyAnswer,
         ApplyReject, ApplyHangup, ApplyExit, ApplyCancel, ApplyType, ApplyConsume, ApplyTick, ApplyRing,
         ApplyRecheck, ApplyEnter, ApplyNotify;
    match step
    case TeardownHangup(sid, pick) => HangupKeysHist(w, sid, pick);
    case TeardownReap(sid) => ReapHist(w, sid);
    case Commit(id) => CommitHist(w, id);
    case AnswerKey(sid) => AnswerKeyHist(w, sid);
    case RejectKey(sid) => RejectKeyHist(w, sid);
    case HangupKey(sid) => HangupKeysHist(w, sid, None);
    case ExitKey(sid) => HangupKeysHist(w, sid, None);
    case CancelKey(sid) => CancelKeyHist(w, sid);
    case Consume(sid) => ConsumeHist(w, sid);
    case TypeKey(sid) => TypeHist(w, sid);
    case _ => RegistryHist(w, step);
  }

  lemma {:induction false} RunHist(w: World, steps: seq<Step>)
    requires Core(w) && Hist(w)
    ensures Core(Run(w, steps)) && Hist(Run(w, steps))
    decreases steps
  {
    if steps != [] {
      StepCore(w, steps[0]);
      StepHist(w, steps[0]);
      RunHist(Apply(w, steps[0]), steps[1..]);
    }
  }

  lemma StartHist()
    ensures Hist(START)
  {
  }
}
