/**
  How each method of the call table can move it: calls never go back from active
  to pending, an ID is never used twice, and each session is told only what
  concerns it.
 */
module TableMotion {
  import opened Wrappers
  import opened Registry
  import opened CallTable
  import opened TableInvariant

  predicate Pending(b: Switchboard, id: CallId) {
    id in b.calls && b.calls[id].state == CallPending
  }

  predicate Active(b: Switchboard, id: CallId) {
    id in b.calls && b.calls[id].state == CallActive
  }

  /** `b'` can follow `b`: calls keep their parties, a pending call is untouched, and a new call has a fresh ID. */
  ghost predicate Later(b: Switchboard, b': Switchboard) {
    && b.chans.made <= b'.chans.made
    && (forall id :: id in b'.calls ==>
          if id in b.calls then
            && b'.calls[id].caller == b.calls[id].caller
            && b'.calls[id].callee == b.calls[id].callee
            && (b'.calls[id].state == CallPending ==> b'.calls[id] == b.calls[id])
          else Fresh(b, id))
  }

  /** Outside `actor`, every session is in the same calls as before, in the same seats. */
  ghost predicate SameSeats(b: Switchboard, b': Switchboard, actor: SessionId) {
    forall s :: s != actor ==> CallsOf(b', s) == CallsOf(b, s)
  }

  /** How many participants of the call each session is. */
  function Seats(call: Call): multiset<SessionId> {
    multiset(Sids(call.participants))
  }

  // ---- Dial and Add ------------------------------------------------------------

  lemma PlaceDialTable(b: Switchboard, id: CallId, sid: SessionId, caller: Account, callee: Account)
    ensures var b' := PlaceDial(b, id, sid, caller, callee);
            && b'.calls == b.calls[id := Call(CallPending, caller, callee, [Participant(caller, sid, b.chans.serial)])]
            && b'.adds == b.adds && DialStop(id) in b'.chans.made && b.chans.made <= b'.chans.made
  {
    hide FanOut, Ringable;
  }

  lemma PlaceDialMoves(b: Switchboard, id: CallId, sid: SessionId, caller: Account, callee: Account)
    requires Sound(b) && Fresh(b, id)
    ensures var b' := PlaceDial(b, id, sid, caller, callee);
            && id !in b.calls && Later(b, b') && !Fresh(b', id)
            && SameSeats(b, b', sid) && CallsOf(b', sid) == CallsOf(b, sid) + {id}
  {
    hide PlaceDial, Shape, OneRing;
    var b' := PlaceDial(b, id, sid, caller, callee);
    PlaceDialTable(b, id, sid, caller, callee);
    assert id !in b.calls;
    hide ChansExact;
    assert b'.calls[id].participants[0].sid == sid && Sids(b'.calls[id].participants) == [sid];
  }

  lemma PlaceAddMoves(b: Switchboard, id: CallId, caller: Account, callee: Account)
    requires Sound(b) && Active(b, id)
    ensures var b' := PlaceAdd(b, id, caller, callee);
            Later(b, b') && b'.calls == b.calls
  {
  }

  // ---- Answer --------------------------------------------------------------------

  /** The call is active, with the newcomer in its last seat; all else stands. */
  lemma AnswerMoves(b: Switchboard, id: CallId, sid: SessionId, user: Account)
    requires Sound(b) && AnswerError(b, id, user) == None
    ensures var b' := Answer(b, id, sid, user).0;
            && Later(b, b')
            && b'.calls == b.calls[id := b.calls[id].(state := CallActive,
                 participants := b.calls[id].participants + [Participant(user, sid, b.chans.serial)])]
            && Seats(b'.calls[id]) == Seats(b.calls[id]) + multiset{sid}
  {
    hide OneRing, ChansExact, Answer;
    assert CallShape(b.calls[id]);
    AnswerCalls(b, id, sid, user);
    SidsAppend(b.calls[id].participants, Participant(user, sid, b.chans.serial));
  }

  lemma AnswerCalls(b: Switchboard, id: CallId, sid: SessionId, user: Account)
    requires AnswerError(b, id, user) == None && b.calls[id].participants != []
    ensures var b' := Answer(b, id, sid, user).0;
            && b.chans.made <= b'.chans.made
            && b'.calls == b.calls[id := b.calls[id].(state := CallActive,
                 participants := b.calls[id].participants + [Participant(user, sid, b.chans.serial)])]
  {
    hide FanOut, Send, SendEach;
  }

  lemma AnswerResult(b: Switchboard, id: CallId, sid: SessionId, user: Account)
    requires id in b.calls && b.calls[id].state == CallPending ==> b.calls[id].participants != []
    ensures Answer(b, id, sid, user).1 == AnswerError(b, id, user)
    ensures AnswerError(b, id, user) != None ==> Answer(b, id, sid, user).0 == b
  {
  }

  lemma AnswerAddsKept(b: Switchboard, id: CallId, sid: SessionId, user: Account)
    requires AnswerError(b, id, user) == None && (b.calls[id].state == CallPending ==> b.calls[id].participants != [])
    ensures b.chans.made <= Answer(b, id, sid, user).0.chans.made
    ensures Answer(b, id, sid, user).0.adds == if Pending(b, id) then b.adds else b.adds - {AddKey(id, user)}
  {
    hide SendEach, FanOut, Send;
  }

  lemma SidsAppend(ps: seq<Participant>, p: Participant)
    ensures Sids(ps + [p]) == Sids(ps) + [p.sid]
  {
  }

  // ---- Reject, Reap, CancelAdd ----------------------------------------------------

  lemma EndDialMoves(b: Switchboard, id: CallId, e: PhoneEvent)
    requires Sound(b) && Pending(b, id)
    ensures var b' := EndDial(b, id, e);
            && Later(b, b') && b'.calls == b.calls - {id}
            && (forall s :: CallsOf(b', s) == CallsOf(b, s) - {id})
  {
  }

  // ---- Hangup ----------------------------------------------------------------------

  /** One seat is given up; the call goes exactly when that was the last. */
  lemma LeaveMoves(b: Switchboard, id: CallId, sid: SessionId)
    requires id in b.calls && CallShape(b.calls[id]) && sid in Sids(b.calls[id].participants)
    ensures var b' := Leave(b, id, sid);
            && Later(b, b')
            && (if |b.calls[id].participants| == 1 then b'.calls == b.calls - {id}
                else && id in b'.calls && b.calls[id].state == CallActive
                     && b'.calls == b.calls[id := b.calls[id].(participants := b'.calls[id].participants)]
                     && Seats(b'.calls[id]) == Seats(b.calls[id]) - multiset{sid})
  {
    var ps := b.calls[id].participants;
    var i := Find(ps, sid);
    assert i < |ps|;
    SidsWithout(ps, i);
    LeaveTable(b, id, sid, i);
  }

  lemma LeaveTable(b: Switchboard, id: CallId, sid: SessionId, i: nat)
    requires id in b.calls && i == Find(b.calls[id].participants, sid) < |b.calls[id].participants|
    ensures var b', ps := Leave(b, id, sid), b.calls[id].participants;
            var rest := ps[..i] + ps[i + 1..];
            && b'.chans.made == b.chans.made
            && b'.calls == if rest == [] then b.calls - {id}
                           else b.calls[id := b.calls[id].(participants := rest)]
  {
    hide FanOut, SendEach, Deliver, Retractions, AddStops, Sids, SessionsOf;
  }

  lemma LeaveTableAdds(b: Switchboard, id: CallId, sid: SessionId)
    requires id in b.calls && Find(b.calls[id].participants, sid) < |b.calls[id].participants|
    ensures var b' := Leave(b, id, sid);
            && (|b.calls[id].participants| > 1 ==> b'.adds == b.adds)
            && (|b.calls[id].participants| == 1 ==> b'.adds == map k | k in b.adds && k.callId != id :: b.adds[k])
  {
    hide SendEach, FanOut, Deliver, AddStops, Retractions;
    var ps, i := b.calls[id].participants, Find(b.calls[id].participants, sid);
    assert |ps[..i] + ps[i + 1..]| == |ps| - 1;
  }

  lemma SidsWithout(ps: seq<Participant>, i: nat)
    requires i < |ps|
    ensures multiset(Sids(ps[..i] + ps[i + 1..])) == multiset(Sids(ps)) - multiset{ps[i].sid}
  {
    SidsConcat(ps[..i], ps[i + 1..]);
    SidsConcat(ps[..i], ps[i..]);
    assert ps == ps[..i] + ps[i..];
    assert Sids(ps[i..]) == [ps[i].sid] + Sids(ps[i + 1..]);
  }

  lemma SidsConcat(ps: seq<Participant>, qs: seq<Participant>)
    ensures Sids(ps + qs) == Sids(ps) + Sids(qs)
  {
    if ps == [] {
      assert ps + qs == qs;
    } else {
      assert (ps + qs)[1..] == ps[1..] + qs;
    }
  }

  // ---- Who is told what --------------------------------------------------------------

  ghost function About(kinds: set<EventKind>, id: CallId): iset<PhoneEvent> {
    iset e: PhoneEvent | e.kind in kinds && e.callId == id
  }

  lemma RingAllTells(b: Switchboard, callee: Account, e: PhoneEvent)
    requires e.kind == EventRing
    ensures Grown(b.reg, RingAll(b, callee, e).reg, About({EventRing}, e.callId), Ringable(b, callee))
  {
    FanOutGrows(b.reg, Ringable(b, callee), e, About({EventRing}, e.callId));
  }

  lemma AdviseTells(b: Switchboard, id: CallId, caller: Account, callee: Account) returns (targets: set<SessionId>)
    requires id in b.calls
    ensures Grown(b.reg, Advise(b, id, caller, callee).reg, About({EventRinging}, id), targets)
  {
    var sids, e := OthersByName(b.calls[id].participants, caller), PhoneEvent(EventRinging, id, caller, callee);
    SendEachGrows(b.reg, sids, e, About({EventRinging}, id));
    targets := Members(sids);
  }

  /** The caller hears EventAnswer, and only the callee's other sessions EventAnswerElsewhere. */
  lemma AnswerDialTells(b: Switchboard, id: CallId, sid: SessionId, user: Account) returns (reg1: Presence)
    requires Pending(b, id) && b.calls[id].participants != []
    ensures Grown(b.reg, reg1, About({EventAnswer}, id), {b.calls[id].participants[0].sid})
    ensures Grown(reg1, AnswerDial(b, id, sid, user).reg, About({EventAnswerElsewhere}, id), SessionsOf(b.reg, user) - {sid})
  {
    var e := PhoneEvent(EventAnswer, id, b.calls[id].caller, user);
    var e' := PhoneEvent(EventAnswerElsewhere, id, b.calls[id].caller, user);
    reg1 := Send(b.reg, b.calls[id].participants[0].sid, e);
    SendGrows(b.reg, b.calls[id].participants[0].sid, e, About({EventAnswer}, id));
    FanOutGrows(reg1, SessionsOf(b.reg, user) - {sid}, e', About({EventAnswerElsewhere}, id));
  }

  lemma AnswerAddTells(b: Switchboard, id: CallId, sid: SessionId, user: Account) returns (targets: set<SessionId>)
    requires id in b.calls && AddKey(id, user) in b.adds
    ensures Grown(b.reg, AnswerAdd(b, id, sid, user).reg, About({EventAnswer}, id), targets)
  {
    var sids := OthersBySession(AnswerAdd(b, id, sid, user).calls[id].participants, sid);
    SendEachGrows(b.reg, sids, PhoneEvent(EventAnswer, id, b.calls[id].caller, user), About({EventAnswer}, id));
    targets := Members(sids);
  }

  lemma EndDialTells(b: Switchboard, id: CallId, e: PhoneEvent)
    requires id in b.calls && e.callId == id
    ensures Grown(b.reg, EndDial(b, id, e).reg, About({e.kind}, id), Members(Sids(b.calls[id].participants)))
  {
    SendEachGrows(b.reg, Sids(b.calls[id].participants), e, About({e.kind}, id));
  }

  lemma LeaveTells(b: Switchboard, id: CallId, sid: SessionId) returns (targets: set<SessionId>)
    requires id in b.calls
    ensures Grown(b.reg, Leave(b, id, sid).reg, About({EventHangup}, id), targets)
  {
    var ps := b.calls[id].participants;
    var i := Find(ps, sid);
    if i == |ps| {
      targets := {};
    } else {
      var rest := ps[..i] + ps[i + 1..];
      var e := PhoneEvent(EventHangup, id, ps[i].username, "");
      var b1 := b.(calls := b.calls[id := b.calls[id].(participants := rest)],
                   chans := Close(b.chans, Incoming(id, ps[i])), reg := SendEach(b.reg, Sids(rest), e));
      SendEachGrows(b.reg, Sids(rest), e, About({EventHangup}, id));
      targets := Members(Sids(rest));
      if rest == [] {
        var more := CloseCallTells(b1, id, ps[i].username);
        GrownTwice(b.reg, b1.reg, Leave(b, id, sid).reg, About({EventHangup}, id), targets, more);
        targets := targets + more;
      }
    }
  }

  lemma CloseCallTells(b: Switchboard, id: CallId, last: Account) returns (targets: set<SessionId>)
    requires id in b.calls
    ensures Grown(b.reg, CloseCall(b, id, last).reg, About({EventHangup}, id), targets)
  {
    var call, events := b.calls[id], About({EventHangup}, id);
    var e := PhoneEvent(EventHangup, id, last, call.callee);
    var rung := if call.state != CallPending || call.callee == "" then {} else SessionsOf(b.reg, call.callee);
    var reg1 := if call.state != CallPending || call.callee == "" then b.reg else FanOut(b.reg, rung, e);
    GrownNothing(b.reg, events);
    FanOutGrows(b.reg, SessionsOf(b.reg, call.callee), e, events);
    DeliverGrows(reg1, Retractions(b, id), events);
    GrownTwice(b.reg, reg1, Deliver(reg1, Retractions(b, id)), events, rung, Retractions(b, id).Keys);
    targets := rung + Retractions(b, id).Keys;
  }

  lemma CancelAddTells(b: Switchboard, id: CallId, callee: Account, caller: Account) returns (targets: set<SessionId>)
    ensures Grown(b.reg, CancelAdd(b, id, callee, caller).reg, About({EventHangup}, id), targets)
  {
    var e, events := PhoneEvent(EventHangup, id, caller, callee), About({EventHangup}, id);
    var reg1 := FanOut(b.reg, SessionsOf(b.reg, callee), e);
    FanOutGrows(b.reg, SessionsOf(b.reg, callee), e, events);
    targets := SessionsOf(b.reg, callee);
    if id in b.calls {
      var sids := OthersByName(b.calls[id].participants, caller);
      SendEachGrows(reg1, sids, e, events);
      GrownTwice(b.reg, reg1, SendEach(reg1, sids, e), events, targets, Members(sids));
      targets := targets + Members(sids);
    }
  }
}
