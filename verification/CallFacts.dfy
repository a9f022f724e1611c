/**
  What a caller, a callee and a bystander can rely on, call by call: who is told
  what, in whose name, and that a departed session is gone everywhere.
 */
module CallFacts {
  import opened Wrappers
  import opened Registry
  import opened CallTable
  import opened TableInvariant
  import opened TableMotion
  import opened Protocol
  import opened WorldInvariant
  import opened Agreement
  import opened RingHistory
  import opened RingEvents
  import opened RingLedger

  // ---- First answer wins -------------------------------------------------------------

  /** This account has answered this call, and no ring offers it again. */
  ghost predicate Taken(b: Switchboard, id: CallId, user: Account) {
    && !Fresh(b, id)
    && (id in b.calls ==> Active(b, id))
    && (forall n :: AddStop(AddKey(id, user), n) !in Stops(b))
  }

  lemma TakenRefuses(b: Switchboard, id: CallId, user: Account, loser: SessionId)
    requires Taken(b, id, user)
    ensures id in b.calls ==> Active(b, id)
    ensures Answer(b, id, loser, user) == (b, Some(if id in b.calls then ErrAlreadyAnswered else ErrNotFound))
  {
    if AddKey(id, user) in b.adds { InStops(b, AddStop(AddKey(id, user), b.adds[AddKey(id, user)].serial)); }
  }

  /** Only an ADD of that account into that call offers it again. */
  lemma TakenStays(b: Switchboard, b': Switchboard, x: Happening, id: CallId, user: Account)
    requires Explains(b, b', x) && Taken(b, id, user) && !IsAddOf(x, id, user)
    ensures Taken(b', id, user)
  {
    hide Stops, StopsIn;
  }

  predicate IsAddOf(x: Happening, id: CallId, user: Account) {
    x.Places? && x.isAdd && x.id == id && x.user == user
  }

  lemma {:induction false} TakenRun(w: World, steps: seq<Step>, id: CallId, user: Account)
    requires Core(w) && Taken(w.board, id, user)
    requires forall x :: x in History(w, steps) ==> !IsAddOf(x, id, user)
    ensures Taken(Run(w, steps).board, id, user)
    decreases steps
  {
    hide Core, Apply, Happens, Explains, Taken;
    if steps != [] {
      StepCore(w, steps[0]);
      StepExplained(w, steps[0]);
      assert Happens(w, steps[0]) in History(w, steps);
      TakenStays(w.board, Apply(w, steps[0]).board, Happens(w, steps[0]), id, user);
      TakenRun(Apply(w, steps[0]), steps[1..], id, user);
    }
  }

  lemma AnswerTakes(w: World, step: Step)
    requires Core(w) && Happens(w, step).Answers?
    ensures var x := Happens(w, step); Taken(Apply(w, step).board, x.id, x.user)
  {
    hide Core, Apply, Happens, Stops, RingsAt;
    var b', x := Apply(w, step).board, Happens(w, step);
    StepExplained(w, step);
    StepCore(w, step);
    BoardIsSound(Apply(w, step));
    EndsTheOneAimedAt(w, step, x.user);
    LiveIsMade(b', x.id);
    forall n ensures AddStop(AddKey(x.id, x.user), n) !in Stops(b') {
      RingsAtAre(b', x.user, AddStop(AddKey(x.id, x.user), n));
      InStops(b', AddStop(AddKey(x.id, x.user), n));
    }
  }

  /**
    Once a session of an account has answered a call, any other session of it is refused,
    and its Answer changes neither the table nor any queue, for as long as no ADD of that
    account into that call is admitted.
   */
  lemma RaceLoserRefused(steps: seq<Step>, winner: SessionId, more: seq<Step>, loser: SessionId)
    requires var w := Run(START, steps);
             && Happens(w, AnswerKey(winner)).Answers?
             && var x := Happens(w, AnswerKey(winner));
             forall y :: y in History(Apply(w, AnswerKey(winner)), more) ==> !IsAddOf(y, x.id, x.user)
    ensures var w := Run(START, steps);
            var x, b' := Happens(w, AnswerKey(winner)), Run(Apply(w, AnswerKey(winner)), more).board;
            && (x.id in b'.calls ==> Active(b', x.id))
            && Answer(b', x.id, loser, x.user) == (b', Some(if x.id in b'.calls then ErrAlreadyAnswered else ErrNotFound))
  {
    hide Core, Run, Apply, Happens, History, Taken, Answer;
    var w := Run(START, steps);
    var x := Happens(w, AnswerKey(winner));
    StartHolds();
    RunKeeps(START, steps);
    AnswerTakes(w, AnswerKey(winner));
    StepCore(w, AnswerKey(winner));
    TakenRun(Apply(w, AnswerKey(winner)), more, x.id, x.user);
    TakenRefuses(Run(Apply(w, AnswerKey(winner)), more).board, x.id, x.user, loser);
  }

  /** How one session's queue takes one event: pushed, or lost to a full queue. */
  ghost predicate Gets(r: Presence, r': Presence, s: SessionId, e: PhoneEvent)
  {
    s in r.index && s in r'.index && if |r.index[s].notify| < QUEUE_CAPACITY then r'.index[s].notify == r.index[s].notify + [e]
                     else s in r'.lost && r'.index[s].notify == r.index[s].notify
  }

  /** The winning answer tells the caller, and tells every other session of the callee once; nobody else hears. */
  lemma WinnerTells(b: Switchboard, id: CallId, winner: SessionId)
    requires Sound(b) && Agree(b.reg) && SeatsOk(b) && Pending(b, id)
    requires winner in b.reg.index && b.reg.index[winner].username == b.calls[id].callee
    ensures var call := b.calls[id];
            var reg', t := Answer(b, id, winner, call.callee).0.reg, call.participants[0].sid;
            && (t in b.reg.index ==> Gets(b.reg, reg', t, PhoneEvent(EventAnswer, id, call.caller, call.callee)))
            && (forall s :: s in SessionsOf(b.reg, call.callee) && s != winner ==>
                  Gets(b.reg, reg', s, PhoneEvent(EventAnswerElsewhere, id, call.caller, call.callee)))
            && (forall s :: s in b.reg.index && s != t && (s !in SessionsOf(b.reg, call.callee) || s == winner) ==>
                  reg'.index[s] == b.reg.index[s])
  {
    hide ChansExact, OneRing, Gets, Send, FanOut;
    var call, t := b.calls[id], b.calls[id].participants[0].sid;
    assert call.participants[0] in call.participants;
    assert t !in SessionsOf(b.reg, call.callee) by { assert call.caller != call.callee; }
    TwoTells(b.reg, t, PhoneEvent(EventAnswer, id, call.caller, call.callee), SessionsOf(b.reg, call.callee) - {winner},
             PhoneEvent(EventAnswerElsewhere, id, call.caller, call.callee));
  }

  lemma TwoTells(r: Presence, t: SessionId, e: PhoneEvent, others: set<SessionId>, e': PhoneEvent)
    requires t !in others
    ensures var r' := FanOut(Send(r, t, e), others, e');
            && (t in r.index ==> Gets(r, r', t, e))
            && (forall s :: s in r.index && s in others ==> Gets(r, r', s, e'))
            && (forall s :: s in r.index && s != t && s !in others ==> r'.index[s] == r.index[s])
  {
  }

  // ---- In whose name a ring is ended ----------------------------------------------------

  /** A conference ring that dies with its call is cancelled in the name of the account that placed it, whoever left last. */
  lemma TeardownAttribution(w: World, id: CallId, last: SessionId, k: AddKey, s: SessionId)
    requires Agree(w.board.reg) && RecordsMatch(w.board, w.rings)
    requires Active(w.board, id) && Sids(w.board.calls[id].participants) == [last]
    requires k in w.board.adds && k.callId == id && s in SessionsOf(w.board.reg, k.callee)
    ensures StopOf(w.board, k) in w.rings
    ensures Gets(w.board.reg, Leave(w.board, id, last).reg, s,
                 PhoneEvent(EventHangup, id, w.rings[StopOf(w.board, k)].caller, k.callee))
  {
    var b, ps := w.board, w.board.calls[id].participants;
    assert |ps| == 1 && Find(ps, last) == 0;
    assert ps[..0] + ps[1..] == [];
    var b1 := b.(calls := b.calls[id := b.calls[id].(participants := [])], chans := Close(b.chans, Incoming(id, ps[0])),
                 reg := SendEach(b.reg, Sids([]), PhoneEvent(EventHangup, id, ps[0].username, "")));
    assert b1.reg == b.reg;
    assert Leave(b, id, last) == CloseCall(b1, id, ps[0].username);
    assert Leave(b, id, last).reg == Deliver(b.reg, Retractions(b1, id));
    assert b.reg.index[s].username == k.callee && AddKey(id, k.callee) == k;
    assert s in Retractions(b1, id);
  }

  /** The reaper names the same account to everyone in the call. */
  lemma ReapAttribution(w: World, k: AddKey)
    requires Sound(w.board) && RecordsMatch(w.board, w.rings) && k in w.board.adds
    requires Ringable(w.board, k.callee) == {}
    ensures StopOf(w.board, k) in w.rings
    ensures var kind := if Connected(w.board.reg, k.callee) then EventCalleeUnavailable else EventCalleeGone;
            Reap(w.board, k.callee).reg ==
              SendEach(w.board.reg, Sids(w.board.calls[k.callId].participants),
                       PhoneEvent(kind, k.callId, w.rings[StopOf(w.board, k)].caller, k.callee))
  {
    hide ChansExact, CallShape;
    var b := w.board;
    assert AddRings(b, k, k.callee);
    assert !exists id :: DialRings(b, id, k.callee);
    var j :| AddRings(b, j, k.callee) && Reap(b, k.callee) == ReapAdd(b, j);
    assert j == k;
  }

  // ---- Whom a ring reaches ------------------------------------------------------------------

  function Waiting(r: Presence, s: SessionId): seq<PhoneEvent> {
    if s in r.index then r.index[s].notify else []
  }

  /** The session's queue gained an EventRing. */
  ghost predicate NewRing(r: Presence, r': Presence, s: SessionId, e: PhoneEvent) {
    e.kind == EventRing && multiset(Waiting(r', s))[e] > multiset(Waiting(r, s))[e]
  }

  ghost predicate RingsFree(r: Presence, b': Switchboard) {
    forall s, e :: NewRing(r, b'.reg, s, e) ==> Nowhere(b', s) && e.callId in b'.calls
  }

  lemma SameCount(q: seq<PhoneEvent>, q': seq<PhoneEvent>, e: PhoneEvent)
    requires q <= q' && (forall i :: |q| <= i < |q'| ==> q'[i] != e)
    ensures multiset(q')[e] == multiset(q)[e]
  {
    assert q' == q + q'[|q|..];
    assert e !in multiset(q'[|q|..]);
  }

  /** Deliveries of `events` to `targets` add no ring but those. */
  lemma GrownRings(r: Presence, r': Presence, events: iset<PhoneEvent>, targets: set<SessionId>)
    requires Grown(r, r', events, targets)
    ensures forall s, e :: NewRing(r, r', s, e) ==> s in targets && e in events
  {
    forall s, e | NewRing(r, r', s, e) ensures s in targets && e in events {
      assert s in r.index;
      assert GrownAt(r.index[s], r'.index[s], events);
      if e !in events { SameCount(r.index[s].notify, r'.index[s].notify, e); }
    }
  }

  lemma RingAllFree(b: Switchboard, callee: Account, e: PhoneEvent)
    requires e.kind == EventRing && e.callId in b.calls
    ensures RingsFree(b.reg, RingAll(b, callee, e))
  {
    var b' := RingAll(b, callee, e);
    FanOutGrows(b.reg, Ringable(b, callee), e, iset{e});
    GrownRings(b.reg, b'.reg, iset{e}, Ringable(b, callee));
    forall s, x | NewRing(b.reg, b'.reg, s, x) ensures Nowhere(b', s) {
      assert x == e && !InCall(b, s);
      NotInCall(b, s);
      SameSeatsAgree(b, b', s);
    }
  }

  lemma NoRings(r: Presence, r': Presence, events: iset<PhoneEvent>, targets: set<SessionId>)
    requires Grown(r, r', events, targets) && forall e :: e in events ==> e.kind != EventRing
    ensures forall s, e :: !NewRing(r, r', s, e)
  {
    GrownRings(r, r', events, targets);
  }

  /** A first delivery that rings only the free, and a second that rings nobody. */
  lemma RingThenAdvise(b: Switchboard, b1: Switchboard, b': Switchboard)
    requires RingsFree(b.reg, b1) && b'.calls == b1.calls
    requires forall s, e :: !NewRing(b1.reg, b'.reg, s, e)
    ensures RingsFree(b.reg, b')
  {
    forall s, e | NewRing(b.reg, b'.reg, s, e) ensures Nowhere(b', s) && e.callId in b'.calls {
      assert NewRing(b.reg, b1.reg, s, e) by { assert !NewRing(b1.reg, b'.reg, s, e); }
      SameSeatsAgree(b1, b', s);
    }
  }

  lemma AdviseFree(b: Switchboard, id: CallId, caller: Account, callee: Account)
    requires id in b.calls
    ensures forall s, e :: !NewRing(b.reg, Advise(b, id, caller, callee).reg, s, e)
  {
    var targets := AdviseTells(b, id, caller, callee);
    NoRings(b.reg, Advise(b, id, caller, callee).reg, About({EventRinging}, id), targets);
  }

  lemma PlaceAddFree(b: Switchboard, id: CallId, caller: Account, callee: Account)
    requires id in b.calls
    ensures RingsFree(b.reg, PlaceAdd(b, id, caller, callee))
  {
    var b' := PlaceAdd(b, id, caller, callee);
    var b0 := b'.(reg := b.reg);
    var b1 := RingAll(b0, callee, PhoneEvent(EventRing, id, caller, callee));
    RingAllFree(b0, callee, PhoneEvent(EventRing, id, caller, callee));
    AdviseFree(b1, id, caller, callee);
    RingThenAdvise(b0, b1, b');
  }

  lemma TickFree(b: Switchboard, id: CallId, caller: Account, callee: Account, isAdd: bool)
    ensures RingsFree(b.reg, Tick(b, id, caller, callee, isAdd))
  {
    if id in b.calls {
      var b1 := RingAll(b, callee, PhoneEvent(EventRing, id, caller, callee));
      RingAllFree(b, callee, PhoneEvent(EventRing, id, caller, callee));
      if isAdd {
        AdviseFree(b1, id, caller, callee);
        RingThenAdvise(b, b1, Tick(b, id, caller, callee, isAdd));
      }
    }
  }

  lemma PlaceDialFree(b: Switchboard, id: CallId, sid: SessionId, caller: Account, callee: Account)
    ensures RingsFree(b.reg, PlaceDial(b, id, sid, caller, callee))
  {
    var b0 := PlaceDial(b, id, sid, caller, callee).(reg := b.reg);
    RingAllFree(b0, callee, PhoneEvent(EventRing, id, caller, callee));
  }

  lemma LeaveFree(b: Switchboard, id: CallId, sid: SessionId)
    ensures forall s, e :: !NewRing(b.reg, Hangup(b, id, sid).reg, s, e)
  {
    if id in b.calls {
      var targets := LeaveTells(b, id, sid);
      NoRings(b.reg, Leave(b, id, sid).reg, About({EventHangup}, id), targets);
    }
  }

  lemma AnswerFree(b: Switchboard, id: CallId, sid: SessionId, user: Account)
    requires AnswerError(b, id, user) == None && b.calls[id].participants != []
    ensures forall s, e :: !NewRing(b.reg, Answer(b, id, sid, user).0.reg, s, e)
  {
    var b' := Answer(b, id, sid, user).0;
    if b.calls[id].state == CallActive {
      var targets := AnswerAddTells(b, id, sid, user);
      NoRings(b.reg, b'.reg, About({EventAnswer}, id), targets);
    } else {
      var reg1 := AnswerDialTells(b, id, sid, user);
      NoRings(b.reg, reg1, About({EventAnswer}, id), {b.calls[id].participants[0].sid});
      NoRings(reg1, b'.reg, About({EventAnswerElsewhere}, id), SessionsOf(b.reg, user) - {sid});
      forall s, e ensures !NewRing(b.reg, b'.reg, s, e) {
        assert !NewRing(b.reg, reg1, s, e) && !NewRing(reg1, b'.reg, s, e);
      }
    }
  }

  lemma RejectFree(b: Switchboard, id: CallId, user: Account)
    ensures forall s, e :: !NewRing(b.reg, Reject(b, id, user).0.reg, s, e)
  {
    if id in b.calls {
      var e := if b.calls[id].state == CallActive then PhoneEvent(EventReject, id, "", user)
               else PhoneEvent(EventReject, id, b.calls[id].caller, user);
      var sids := Sids(b.calls[id].participants);
      SendEachGrows(b.reg, sids, e, About({EventReject}, id));
      NoRings(b.reg, SendEach(b.reg, sids, e), About({EventReject}, id), Members(sids));
    }
  }

  lemma ReapAddFree(b: Switchboard, k: AddKey)
    requires k in b.adds
    ensures forall s, e :: !NewRing(b.reg, ReapAdd(b, k).reg, s, e)
  {
    var e := ReapEvent(b, k.callId, b.adds[k].inviter, k.callee);
    if k.callId in b.calls {
      var sids := Sids(b.calls[k.callId].participants);
      SendEachGrows(b.reg, sids, e, About({e.kind}, k.callId));
      NoRings(b.reg, SendEach(b.reg, sids, e), About({e.kind}, k.callId), Members(sids));
    }
  }

  lemma ReapDialFree(b: Switchboard, id: CallId, user: Account)
    requires id in b.calls
    ensures forall s, e :: !NewRing(b.reg, EndDial(b, id, ReapEvent(b, id, b.calls[id].caller, user)).reg, s, e)
  {
    var e := ReapEvent(b, id, b.calls[id].caller, user);
    EndDialTells(b, id, e);
    NoRings(b.reg, EndDial(b, id, e).reg, About({e.kind}, id), Members(Sids(b.calls[id].participants)));
  }

  lemma ReapFree(b: Switchboard, user: Account)
    ensures forall s, e :: !NewRing(b.reg, Reap(b, user).reg, s, e)
  {
    hide NewRing, EndDial, ReapAdd;
    if Ringable(b, user) == {} && exists id :: DialRings(b, id, user) {
      var id :| DialRings(b, id, user) && Reap(b, user) == EndDial(b, id, ReapEvent(b, id, b.calls[id].caller, user));
      ReapDialFree(b, id, user);
    } else if Ringable(b, user) == {} && exists k :: AddRings(b, k, user) {
      var k :| AddRings(b, k, user) && Reap(b, user) == ReapAdd(b, k);
      ReapAddFree(b, k);
    } else {
      NoNewRing(b.reg);
    }
  }

  lemma NoNewRing(r: Presence)
    ensures forall s, e :: !NewRing(r, r, s, e)
  {
  }

  lemma CancelFree(b: Switchboard, id: CallId, callee: Account, caller: Account)
    ensures forall s, e :: !NewRing(b.reg, CancelAdd(b, id, callee, caller).reg, s, e)
  {
    var targets := CancelAddTells(b, id, callee, caller);
    NoRings(b.reg, CancelAdd(b, id, callee, caller).reg, About({EventHangup}, id), targets);
  }

  lemma ReceiveFree(r: Presence, sid: SessionId)
    requires sid in r.index && r.index[sid].notify != []
    ensures forall s, e :: multiset(Waiting(Receive(r, sid), s))[e] <= multiset(Waiting(r, s))[e]
  {
    var q := r.index[sid].notify;
    assert q == [q[0]] + q[1..];
  }

  lemma ConsumeFree(w: World, sid: SessionId)
    ensures forall s, e :: !NewRing(w.board.reg, ApplyConsume(w, sid).board.reg, s, e)
  {
    hide Handle, Leave;
    var w' := ApplyConsume(w, sid);
    if w' != w {
      var w1 := w.(board := w.board.(reg := Receive(w.board.reg, sid)));
      ReceiveFree(w.board.reg, sid);
      if w.ui[sid].callId.Some? {
        LeaveBoard(w1, w.ui[sid].callId.value, sid, Cancelled);
        LeaveFree(w1.board, w.ui[sid].callId.value, sid);
      }
      assert w'.board == w1.board || (w.ui[sid].callId.Some? && w'.board == Hangup(w1.board, w.ui[sid].callId.value, sid));
      forall s, e ensures !NewRing(w.board.reg, w'.board.reg, s, e) {
        assert multiset(Waiting(w1.board.reg, s))[e] <= multiset(Waiting(w.board.reg, s))[e];
        assert w'.board == w1.board || !NewRing(w1.board.reg, w'.board.reg, s, e);
      }
    }
  }
}
