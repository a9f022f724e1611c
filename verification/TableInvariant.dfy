/**
  What every method of the call table keeps: the shape of the calls, at most one
  outstanding ring for each callee, and the exact set of open channels.
 */
module TableInvariant {
  import opened Wrappers
  import opened Ordering
  import opened Registry
  import opened CallTable

  /** A pending call has its caller for only participant, an active one is not empty, and ADD rings belong to active calls. */
  ghost predicate Shape(b: Switchboard) {
    && (forall id :: id in b.calls ==> CallShape(b.calls[id]))
    && (forall k :: k in b.adds ==> k.callId in b.calls && b.calls[k.callId].state == CallActive)
  }

  predicate CallShape(call: Call) {
    && !EqualFold(call.caller, call.callee)
    && match call.state
       case CallPending => |call.participants| == 1 && call.participants[0].username == call.caller
       case CallActive => call.participants != []
       case CallIdle => false
  }

  /** At most one outstanding ring for each callee account, dials and ADDs together. */
  ghost predicate OneRing(b: Switchboard) {
    && (forall id, id', u :: DialRings(b, id, u) && DialRings(b, id', u) ==> id == id')
    && (forall k, k', u :: AddRings(b, k, u) && AddRings(b, k', u) ==> k == k')
    && (forall id, k, u :: DialRings(b, id, u) ==> !AddRings(b, k, u))
  }

  /** The open channels are those of the pending calls, the ADD entries and the participants, and nothing went wrong. */
  ghost predicate ChansExact(b: Switchboard) {
    && !b.chans.panicked
    && b.chans.open <= b.chans.made
    && (forall id {:trigger DialStop(id)} :: DialStop(id) in b.chans.open <==> id in b.calls && b.calls[id].state == CallPending)
    && (forall k, n: nat {:trigger AddStop(k, n)} :: AddStop(k, n) in b.chans.open <==> k in b.adds && b.adds[k].serial == n)
    && (forall id, p {:trigger Incoming(id, p)} :: Incoming(id, p) in b.chans.open <==> id in b.calls && p in b.calls[id].participants)
    && (forall id :: id in b.calls ==> DialStop(id) in b.chans.made && Distinct(b.calls[id].participants))
    && (forall k, n: nat {:trigger AddStop(k, n)} :: AddStop(k, n) in b.chans.made ==> n < b.chans.serial)
    && (forall id, p {:trigger Incoming(id, p)} :: Incoming(id, p) in b.chans.made ==> p.serial < b.chans.serial)
  }

  predicate Distinct(ps: seq<Participant>) {
    forall i, j :: 0 <= i < j < |ps| ==> ps[i] != ps[j]
  }

  ghost predicate Sound(b: Switchboard) {
    Shape(b) && OneRing(b) && ChansExact(b)
  }

  ghost predicate Fresh(b: Switchboard, id: CallId) {
    DialStop(id) !in b.chans.made
  }

  /** `Sound` reads nothing of the registry. */
  lemma SoundIgnoresRegistry(b: Switchboard, reg: Presence)
    requires Sound(b)
    ensures Sound(b.(reg := reg))
  {
    var b' := b.(reg := reg);
    assert forall id, u :: DialRings(b', id, u) <==> DialRings(b, id, u);
    assert forall k, u :: AddRings(b', k, u) <==> AddRings(b, k, u);
  }

  lemma PlaceDialSound(b: Switchboard, id: CallId, sid: SessionId, caller: Account, callee: Account)
    requires Sound(b) && Fresh(b, id) && !EqualFold(caller, callee) && !BeingRung(b, callee)
    ensures Sound(PlaceDial(b, id, sid, caller, callee))
  {
    hide PlaceDial, EqualFold, BeingRung, OneRing, CallShape;
    assert id !in b.calls;
    PlaceDialRings(b, id, sid, caller, callee);
    PlaceDialChans(b, id, sid, caller, callee);
  }

  lemma PlaceDialRings(b: Switchboard, id: CallId, sid: SessionId, caller: Account, callee: Account)
    requires Shape(b) && OneRing(b) && id !in b.calls && !EqualFold(caller, callee) && !BeingRung(b, callee)
    ensures Shape(PlaceDial(b, id, sid, caller, callee)) && OneRing(PlaceDial(b, id, sid, caller, callee))
  {
    hide FanOut, Ringable, EqualFold;
    var b' := PlaceDial(b, id, sid, caller, callee);
    assert forall i, u :: DialRings(b', i, u) <==> DialRings(b, i, u) || (i == id && u == callee);
    assert forall k, u :: AddRings(b', k, u) <==> AddRings(b, k, u);
  }

  lemma PlaceDialChans(b: Switchboard, id: CallId, sid: SessionId, caller: Account, callee: Account)
    requires ChansExact(b) && Fresh(b, id)
    ensures ChansExact(PlaceDial(b, id, sid, caller, callee))
  {
    assert id !in b.calls;
  }

  lemma AdmitMeans(b: Switchboard, caller: Account, callee: Account)
    ensures Admit(b, caller, callee) == None <==>
              !EqualFold(caller, callee) && Connected(b.reg, callee) && !BeingRung(b, callee) && Ringable(b, callee) != {}
  {
  }

  lemma PlaceAddSound(b: Switchboard, id: CallId, caller: Account, callee: Account)
    requires Sound(b) && id in b.calls && b.calls[id].state == CallActive && !BeingRung(b, callee)
    ensures AddKey(id, callee) !in b.adds
    ensures Sound(PlaceAdd(b, id, caller, callee))
  {
    hide PlaceAdd, OneRing, ChansExact, Shape;
    assert !AddRings(b, AddKey(id, callee), callee);
    PlaceAddRings(b, id, caller, callee);
    PlaceAddChans(b, id, caller, callee);
  }

  lemma PlaceAddRings(b: Switchboard, id: CallId, caller: Account, callee: Account)
    requires Shape(b) && OneRing(b) && id in b.calls && b.calls[id].state == CallActive && !BeingRung(b, callee)
    ensures Shape(PlaceAdd(b, id, caller, callee)) && OneRing(PlaceAdd(b, id, caller, callee))
  {
    hide FanOut, SendEach, Ringable, CallShape;
    var b', k0 := PlaceAdd(b, id, caller, callee), AddKey(id, callee);
    assert forall i, u :: DialRings(b', i, u) <==> DialRings(b, i, u);
    assert forall k, u :: AddRings(b', k, u) <==> AddRings(b, k, u) || (k == k0 && u == callee);
  }

  lemma PlaceAddChans(b: Switchboard, id: CallId, caller: Account, callee: Account)
    requires ChansExact(b) && id in b.calls && AddKey(id, callee) !in b.adds
    ensures ChansExact(PlaceAdd(b, id, caller, callee))
  {
    hide FanOut, SendEach, Ringable;
  }

  lemma DropAddSound(b: Switchboard, k: AddKey)
    requires Sound(b) && k in b.adds
    ensures Sound(DropAdd(b, k))
  {
    var b' := DropAdd(b, k);
    assert forall i, u :: DialRings(b', i, u) <==> DialRings(b, i, u);
    assert forall k', u :: AddRings(b', k', u) <==> AddRings(b, k', u) && k' != k;
  }

  lemma SeatSound(b: Switchboard, id: CallId, sid: SessionId, user: Account)
    requires Sound(b) && id in b.calls && b.calls[id].state == CallActive
    ensures Sound(Seat(b, id, sid, user))
  {
    hide Seat, Shape, OneRing, ChansExact;
    SeatRings(b, id, sid, user);
    SeatChans(b, id, sid, user);
  }

  lemma SeatRings(b: Switchboard, id: CallId, sid: SessionId, user: Account)
    requires Shape(b) && OneRing(b) && id in b.calls && b.calls[id].state == CallActive
    ensures Shape(Seat(b, id, sid, user)) && OneRing(Seat(b, id, sid, user))
  {
    var b' := Seat(b, id, sid, user);
    assert forall i, u :: DialRings(b', i, u) <==> DialRings(b, i, u);
    assert forall k, u :: AddRings(b', k, u) <==> AddRings(b, k, u);
  }

  lemma SeatChans(b: Switchboard, id: CallId, sid: SessionId, user: Account)
    requires ChansExact(b) && id in b.calls
    ensures ChansExact(Seat(b, id, sid, user))
  {
    var b', p := Seat(b, id, sid, user), Participant(user, sid, b.chans.serial);
    assert Incoming(id, p) !in b.chans.made;
    assert forall q :: q in b'.calls[id].participants <==> q in b.calls[id].participants || q == p;
  }

  lemma AnswerAddSound(b: Switchboard, id: CallId, sid: SessionId, user: Account)
    requires Sound(b) && AddKey(id, user) in b.adds && id in b.calls
    ensures Sound(AnswerAdd(b, id, sid, user))
  {
    DropAddSound(b, AddKey(id, user));
    var b1 := DropAdd(b, AddKey(id, user));
    SeatSound(b1, id, sid, user);
    SoundIgnoresRegistry(Seat(b1, id, sid, user), AnswerAdd(b, id, sid, user).reg);
  }

  lemma AnswerDialSound(b: Switchboard, id: CallId, sid: SessionId, user: Account)
    requires Sound(b) && id in b.calls && b.calls[id].state == CallPending
    ensures Sound(AnswerDial(b, id, sid, user))
  {
    hide AnswerDial, OneRing, ChansExact;
    AnswerDialRings(b, id, sid, user);
    AnswerDialChans(b, id, sid, user);
  }

  lemma AnswerDialRings(b: Switchboard, id: CallId, sid: SessionId, user: Account)
    requires Shape(b) && OneRing(b) && id in b.calls && b.calls[id].state == CallPending
    ensures Shape(AnswerDial(b, id, sid, user)) && OneRing(AnswerDial(b, id, sid, user))
  {
    var b' := AnswerDial(b, id, sid, user);
    assert forall i, u :: DialRings(b', i, u) <==> DialRings(b, i, u) && i != id;
    assert forall k, u :: AddRings(b', k, u) <==> AddRings(b, k, u);
  }

  lemma AnswerDialChans(b: Switchboard, id: CallId, sid: SessionId, user: Account)
    requires ChansExact(b) && id in b.calls && b.calls[id].state == CallPending && b.calls[id].participants != []
    ensures ChansExact(AnswerDial(b, id, sid, user))
  {
    hide FanOut, Send, SessionsOf, Seat, ChansExact;
    SeatChans(b, id, sid, user);
    SeatState(b, id, sid, user);
    StopClosed(Seat(b, id, sid, user), AnswerDial(b, id, sid, user), id);
  }

  lemma SeatState(b: Switchboard, id: CallId, sid: SessionId, user: Account)
    requires id in b.calls
    ensures id in Seat(b, id, sid, user).calls && Seat(b, id, sid, user).calls[id].state == b.calls[id].state
    ensures Seat(b, id, sid, user).adds == b.adds
  {
  }

  /** The pending call is active now, and its stop channel is closed. */
  lemma StopClosed(b: Switchboard, b': Switchboard, id: CallId)
    requires ChansExact(b) && id in b.calls && b.calls[id].state == CallPending
    requires b'.calls == b.calls[id := b.calls[id].(state := CallActive)] && b'.adds == b.adds
    requires b'.chans == Close(b.chans, DialStop(id))
    ensures ChansExact(b')
  {
    assert DialStop(id) in b.chans.open;
  }

  lemma EndDialSound(b: Switchboard, id: CallId, e: PhoneEvent)
    requires Sound(b) && id in b.calls && b.calls[id].state == CallPending
    ensures Sound(EndDial(b, id, e))
  {
    hide EndDial, OneRing, ChansExact;
    EndDialRings(b, id, e);
    EndDialChans(b, id, e);
  }

  lemma EndDialRings(b: Switchboard, id: CallId, e: PhoneEvent)
    requires Shape(b) && OneRing(b) && id in b.calls && b.calls[id].state == CallPending
    ensures Shape(EndDial(b, id, e)) && OneRing(EndDial(b, id, e))
  {
    hide SendEach, CallShape;
    var b' := EndDial(b, id, e);
    assert forall i, u :: DialRings(b', i, u) <==> DialRings(b, i, u) && i != id;
    assert forall k, u :: AddRings(b', k, u) <==> AddRings(b, k, u);
  }

  lemma EndDialChans(b: Switchboard, id: CallId, e: PhoneEvent)
    requires ChansExact(b) && id in b.calls && b.calls[id].state == CallPending
    ensures ChansExact(EndDial(b, id, e))
  {
    hide SendEach;
    var ps := b.calls[id].participants;
    assert forall p :: Incoming(id, p) in Incomings(id, ps) <==> p in ps;
    assert Incomings(id, ps) <= b.chans.open - {DialStop(id)};
  }

  lemma LeaveSound(b: Switchboard, id: CallId, sid: SessionId)
    requires Sound(b) && id in b.calls
    ensures Sound(Leave(b, id, sid))
  {
    hide Sound, SendEach, CloseCall;
    var ps := b.calls[id].participants;
    var i := Find(ps, sid);
    if i < |ps| {
      var rest := ps[..i] + ps[i + 1..];
      var reg1 := SendEach(b.reg, Sids(rest), PhoneEvent(EventHangup, id, ps[i].username, ""));
      var b1 := b.(calls := b.calls[id := b.calls[id].(participants := rest)],
                   chans := Close(b.chans, Incoming(id, ps[i])), reg := reg1);
      if rest != [] {
        DepartSound(b, id, i);
        SoundIgnoresRegistry(b1.(reg := b.reg), reg1);
        assert b1.(reg := b.reg).(reg := reg1) == b1;
      } else {
        CloseCallSound(b, b1, id);
      }
    }
  }

  /** One participant of several goes. */
  lemma DepartSound(b: Switchboard, id: CallId, i: nat)
    requires Sound(b) && id in b.calls && i < |b.calls[id].participants| && |b.calls[id].participants| > 1
    ensures var ps := b.calls[id].participants;
            Sound(b.(calls := b.calls[id := b.calls[id].(participants := ps[..i] + ps[i + 1..])],
                     chans := Close(b.chans, Incoming(id, ps[i]))))
  {
    var ps := b.calls[id].participants;
    var rest := ps[..i] + ps[i + 1..];
    var b1 := b.(calls := b.calls[id := b.calls[id].(participants := rest)],
                 chans := Close(b.chans, Incoming(id, ps[i])));
    RemovedOnce(ps, i);
    DepartRings(b, b1, id);
    assert ChansExact(b1) by { hide Shape, OneRing; }
  }

  lemma DepartRings(b: Switchboard, b1: Switchboard, id: CallId)
    requires Shape(b) && OneRing(b) && id in b.calls && |b.calls[id].participants| > 1
    requires id in b1.calls && b1.calls == b.calls[id := b.calls[id].(participants := b1.calls[id].participants)]
    requires b1.adds == b.adds && b1.calls[id].participants != []
    ensures Shape(b1) && OneRing(b1)
  {
    assert forall c, u :: DialRings(b1, c, u) <==> DialRings(b, c, u);
    assert forall k, u :: AddRings(b1, k, u) <==> AddRings(b, k, u);
  }

  lemma RemovedOnce(ps: seq<Participant>, i: nat)
    requires Distinct(ps) && i < |ps|
    ensures Distinct(ps[..i] + ps[i + 1..])
    ensures forall p :: p in ps[..i] + ps[i + 1..] <==> p in ps && p != ps[i]
  {
    var rest := ps[..i] + ps[i + 1..];
    forall p ensures p in rest <==> p in ps && p != ps[i] {
      if p in ps && p != ps[i] {
        var j :| 0 <= j < |ps| && ps[j] == p;
        assert p == rest[if j < i then j else j - 1];
      }
    }
  }

  /** `b1` is `b` after the only participant of the call was taken out. */
  lemma CloseCallSound(b: Switchboard, b1: Switchboard, id: CallId)
    requires Sound(b) && id in b.calls && |b.calls[id].participants| == 1
    requires b1.calls == b.calls[id := b.calls[id].(participants := [])] && b1.adds == b.adds
    requires b1.chans == Close(b.chans, Incoming(id, b.calls[id].participants[0]))
    ensures Sound(CloseCall(b1, id, b.calls[id].participants[0].username))
  {
    var b' := CloseCall(b1, id, b.calls[id].participants[0].username);
    assert Shape(b');
    assert OneRing(b') by {
      assert forall c, u :: DialRings(b', c, u) <==> DialRings(b, c, u) && c != id;
      assert forall k, u :: AddRings(b', k, u) <==> AddRings(b, k, u) && k.callId != id;
    }
    CloseCallChans(b, b1, id);
  }

  lemma CloseCallChans(b: Switchboard, b1: Switchboard, id: CallId)
    requires Sound(b) && id in b.calls && |b.calls[id].participants| == 1
    requires b1.calls == b.calls[id := b.calls[id].(participants := [])] && b1.adds == b.adds
    requires b1.chans == Close(b.chans, Incoming(id, b.calls[id].participants[0]))
    ensures ChansExact(CloseCall(b1, id, b.calls[id].participants[0].username))
  {
    hide Shape, OneRing, FanOut, Deliver, Retractions, SessionsOf;
    var b' := CloseCall(b1, id, b.calls[id].participants[0].username);
    var gone := {Incoming(id, b.calls[id].participants[0]), DialStop(id)} + AddStops(b, id);
    AddStopsOpen(b, id);
    assert AddStops(b1, id) == AddStops(b, id);
    assert b'.chans == b.chans.(open := b.chans.open - gone);
    assert b'.calls == b.calls - {id};
    assert forall k :: k in b'.adds <==> k in b.adds && k.callId != id;
    GoneExactly(b, b', id, gone);
  }

  lemma AddStopsOpen(b: Switchboard, id: CallId)
    requires Sound(b)
    ensures AddStops(b, id) <= b.chans.open
    ensures forall k, n: nat :: AddStop(k, n) in AddStops(b, id) <==> k in b.adds && k.callId == id && n == b.adds[k].serial
  {
  }

  /** Closing every channel that belongs to one call leaves exactly those of the others. */
  lemma GoneExactly(b: Switchboard, b': Switchboard, id: CallId, gone: set<Chan>)
    requires ChansExact(b) && id in b.calls && |b.calls[id].participants| == 1
    requires gone == {Incoming(id, b.calls[id].participants[0]), DialStop(id)} + AddStops(b, id)
    requires b'.chans == b.chans.(open := b.chans.open - gone) && b'.calls == b.calls - {id}
    requires forall k :: k in b'.adds <==> k in b.adds && k.callId != id
    requires forall k :: k in b'.adds ==> b'.adds[k] == b.adds[k]
    requires forall k, n: nat :: AddStop(k, n) in AddStops(b, id) <==> k in b.adds && k.callId == id && n == b.adds[k].serial
    ensures ChansExact(b')
  {
  }

  lemma ReapSound(b: Switchboard, user: Account)
    requires Sound(b)
    ensures Sound(Reap(b, user))
  {
    if Ringable(b, user) == {} {
      if exists id :: DialRings(b, id, user) {
        var id :| DialRings(b, id, user) && Reap(b, user) == EndDial(b, id, ReapEvent(b, id, b.calls[id].caller, user));
        EndDialSound(b, id, ReapEvent(b, id, b.calls[id].caller, user));
      } else if exists k :: AddRings(b, k, user) {
        var k :| AddRings(b, k, user) && Reap(b, user) == ReapAdd(b, k);
        DropAddSound(b, k);
        SoundIgnoresRegistry(DropAdd(b, k), ReapAdd(b, k).reg);
      }
    }
  }

  lemma RejectSound(b: Switchboard, id: CallId, user: Account)
    requires Sound(b)
    ensures Sound(Reject(b, id, user).0)
  {
    var b' := Reject(b, id, user).0;
    if id in b.calls && b.calls[id].state == CallActive {
      var k := AddKey(id, user);
      if k in b.adds {
        DropAddSound(b, k);
        SoundIgnoresRegistry(DropAdd(b, k), b'.reg);
      } else {
        SoundIgnoresRegistry(b, b'.reg);
      }
    } else if id in b.calls {
      EndDialSound(b, id, PhoneEvent(EventReject, id, b.calls[id].caller, user));
    }
  }

  lemma CancelAddSound(b: Switchboard, id: CallId, callee: Account, caller: Account)
    requires Sound(b)
    ensures Sound(CancelAdd(b, id, callee, caller))
  {
    var b', k := CancelAdd(b, id, callee, caller), AddKey(id, callee);
    if k in b.adds {
      DropAddSound(b, k);
      SoundIgnoresRegistry(DropAdd(b, k), b'.reg);
    } else {
      SoundIgnoresRegistry(b, b'.reg);
    }
  }

  /** Typing never sends on a closed channel. */
  lemma BroadcastSound(b: Switchboard, id: CallId, sender: Account)
    requires Sound(b)
    ensures Broadcast(b, id, sender) == b
  {
  }

  lemma TickSound(b: Switchboard, id: CallId, caller: Account, callee: Account, isAdd: bool)
    requires Sound(b)
    ensures Sound(Tick(b, id, caller, callee, isAdd))
  {
    SoundIgnoresRegistry(b, Tick(b, id, caller, callee, isAdd).reg);
  }
}
