/**
  internal/phone/call.go as the object it is: two maps updated in place under one
  lock, with the loops of the source. Each method leaves the state that the
  function of the same name in module CallTable says, and keeps the table sound.
 */
module CallService {
  import opened Wrappers
  import opened Ordering
  import opened Registry
  import opened CallTable
  import opened TableInvariant
  import opened TableMotion
  import SR = SessionRegistry

  // ---- What a loop has done so far -------------------------------------------------

  lemma {:induction false} SidsOneMore(ps: seq<Participant>, i: nat)
    requires i < |ps|
    ensures Sids(ps[..i + 1]) == Sids(ps[..i]) + [ps[i].sid]
  {
    assert ps[..i + 1] == ps[..i] + [ps[i]];
    SidsAppend(ps[..i], ps[i]);
  }

  lemma OthersByNameStep(ps: seq<Participant>, name: Account)
    requires ps != []
    ensures OthersByName(ps, name) ==
              if ps[0].username != name then [ps[0].sid] + OthersByName(ps[1..], name) else OthersByName(ps[1..], name)
  {
  }

  lemma {:induction false} OthersByNameAppend(ps: seq<Participant>, p: Participant, name: Account)
    ensures OthersByName(ps + [p], name) ==
              if p.username != name then OthersByName(ps, name) + [p.sid] else OthersByName(ps, name)
    decreases ps
  {
    OthersByNameStep(ps + [p], name);
    if ps == [] {
      assert (ps + [p])[1..] == [];
    } else {
      assert (ps + [p])[1..] == ps[1..] + [p];
      OthersByNameAppend(ps[1..], p, name);
    }
  }

  lemma OthersBySessionStep(ps: seq<Participant>, sid: SessionId)
    requires ps != []
    ensures OthersBySession(ps, sid) ==
              if ps[0].sid != sid then [ps[0].sid] + OthersBySession(ps[1..], sid) else OthersBySession(ps[1..], sid)
  {
  }

  lemma {:induction false} OthersBySessionAppend(ps: seq<Participant>, p: Participant, sid: SessionId)
    ensures OthersBySession(ps + [p], sid) ==
              if p.sid != sid then OthersBySession(ps, sid) + [p.sid] else OthersBySession(ps, sid)
    decreases ps
  {
    OthersBySessionStep(ps + [p], sid);
    if ps == [] {
      assert (ps + [p])[1..] == [];
    } else {
      assert (ps + [p])[1..] == ps[1..] + [p];
      OthersBySessionAppend(ps[1..], p, sid);
    }
  }

  lemma CloseOneMore(cs: Chans, gone: set<Chan>, c: Chan)
    requires c !in gone
    ensures Close(CloseAll(cs, gone), c) == CloseAll(cs, gone + {c})
  {
    assert cs.open - gone - {c} == cs.open - (gone + {c});
  }

  lemma CloseNothing(cs: Chans)
    ensures CloseAll(cs, {}) == cs && SendOn(cs, {}) == cs
  {
  }

  /** The ring stops of some of the ADD entries. */
  function StopsOf(adds: map<AddKey, PendingRing>, ks: set<AddKey>): set<Chan>
    requires ks <= adds.Keys
  {
    set k | k in ks :: AddStop(k, adds[k].serial)
  }

  /** What hangupLocked sends for some of the ADD entries. */
  ghost function RetractionsFor(b: Switchboard, ks: set<AddKey>, id: CallId): map<SessionId, PhoneEvent>
    requires ks <= b.adds.Keys
  {
    map s | s in b.reg.index && AddKey(id, b.reg.index[s].username) in ks ::
      var u := b.reg.index[s].username;
      PhoneEvent(EventHangup, id, b.adds[AddKey(id, u)].inviter, u)
  }

  ghost function KeysOf(b: Switchboard, id: CallId): set<AddKey> {
    set k | k in b.adds && k.callId == id
  }

  lemma AllKeys(b: Switchboard, id: CallId)
    ensures StopsOf(b.adds, KeysOf(b, id)) == AddStops(b, id)
    ensures RetractionsFor(b, KeysOf(b, id), id) == Retractions(b, id)
  {
  }

  /** The sessions of one more account are told. */
  lemma RetractOneMore(b: Switchboard, ks: set<AddKey>, k: AddKey)
    requires Agree(b.reg) && k in b.adds && k !in ks && ks <= b.adds.Keys
    ensures var e := PhoneEvent(EventHangup, k.callId, b.adds[k].inviter, k.callee);
            FanOut(Deliver(b.reg, RetractionsFor(b, ks, k.callId)), SessionsOf(b.reg, k.callee), e)
              == Deliver(b.reg, RetractionsFor(b, ks + {k}, k.callId))
  {
    hide Deliver;
    var e := PhoneEvent(EventHangup, k.callId, b.adds[k].inviter, k.callee);
    var m, told := RetractionsFor(b, ks, k.callId), SessionsOf(b.reg, k.callee);
    KeyOfAccount(b.reg, k.callee);
    SR.DeliverTwice(b.reg, m, ToAll(told, e));
    assert m + ToAll(told, e) == RetractionsFor(b, ks + {k}, k.callId);
  }

  lemma KeyOfAccount(r: Presence, u: Account)
    requires Agree(r)
    ensures forall s :: s in SessionsOf(r, u) <==> s in r.index && r.index[s].username == u
  {
  }

  lemma SamePeopleSessions(r: Presence, m: map<SessionId, PhoneEvent>)
    ensures forall u :: SessionsOf(Deliver(r, m), u) == SessionsOf(r, u)
    ensures Deliver(r, m).index.Keys == r.index.Keys
    ensures forall s :: s in r.index ==> Deliver(r, m).index[s].username == r.index[s].username
  {
  }

  /** Retractions read no queue. */
  lemma RetractionsStay(b: Switchboard, m: map<SessionId, PhoneEvent>, id: CallId)
    ensures Retractions(b.(reg := Deliver(b.reg, m)), id) == Retractions(b, id)
  {
    SamePeopleSessions(b.reg, m);
  }

  // ---- The object ---------------------------------------------------------------------

  class Calls {
    var calls: map<CallId, Call>
    var pendingAdds: map<AddKey, PendingRing>
    var chans: Chans
    const reg: SR.Registry

    ghost function View(): Switchboard
      reads this, reg
    {
      Switchboard(calls, pendingAdds, chans, reg.View())
    }

    ghost predicate Valid()
      reads this, reg
    {
      reg.Valid() && Sound(View())
    }

    constructor (registry: SR.Registry)
      requires registry.Valid()
      ensures reg == registry && Valid() && View() == EMPTY_BOARD.(reg := registry.View())
    {
      calls, pendingAdds, chans, reg := map[], map[], EMPTY_BOARD.chans, registry;
    }

    // ---- Who is told ----

    method TellEach(ps: seq<Participant>, e: PhoneEvent)
      modifies reg
      ensures reg.View() == SendEach(old(reg.View()), Sids(ps), e)
      ensures old(reg.Valid()) ==> reg.Valid()
    {
      for i := 0 to |ps|
        modifies reg
        invariant reg.View() == SendEach(old(reg.View()), Sids(ps[..i]), e)
        invariant old(reg.Valid()) ==> reg.Valid()
      {
        SidsOneMore(ps, i);
        SR.SendEachOneMore(old(reg.View()), Sids(ps[..i]), ps[i].sid, e);
        reg.SendToSession(ps[i].sid, e);
      }
      assert ps[..|ps|] == ps;
    }

    method TellOthersByName(ps: seq<Participant>, name: Account, e: PhoneEvent)
      modifies reg
      ensures reg.View() == SendEach(old(reg.View()), OthersByName(ps, name), e)
      ensures old(reg.Valid()) ==> reg.Valid()
    {
      for i := 0 to |ps|
        modifies reg
        invariant reg.View() == SendEach(old(reg.View()), OthersByName(ps[..i], name), e)
        invariant old(reg.Valid()) ==> reg.Valid()
      {
        assert ps[..i + 1] == ps[..i] + [ps[i]];
        OthersByNameAppend(ps[..i], ps[i], name);
        if ps[i].username != name {
          SR.SendEachOneMore(old(reg.View()), OthersByName(ps[..i], name), ps[i].sid, e);
          reg.SendToSession(ps[i].sid, e);
        }
      }
      assert ps[..|ps|] == ps;
    }

    method TellOthersBySession(ps: seq<Participant>, sid: SessionId, e: PhoneEvent)
      modifies reg
      ensures reg.View() == SendEach(old(reg.View()), OthersBySession(ps, sid), e)
      ensures old(reg.Valid()) ==> reg.Valid()
    {
      for i := 0 to |ps|
        modifies reg
        invariant reg.View() == SendEach(old(reg.View()), OthersBySession(ps[..i], sid), e)
        invariant old(reg.Valid()) ==> reg.Valid()
      {
        assert ps[..i + 1] == ps[..i] + [ps[i]];
        OthersBySessionAppend(ps[..i], ps[i], sid);
        if ps[i].sid != sid {
          SR.SendEachOneMore(old(reg.View()), OthersBySession(ps[..i], sid), ps[i].sid, e);
          reg.SendToSession(ps[i].sid, e);
        }
      }
      assert ps[..|ps|] == ps;
    }

    method SendToAll(ids: seq<SessionId>, e: PhoneEvent)
      requires forall i, j :: 0 <= i < j < |ids| ==> ids[i] != ids[j]
      modifies reg
      ensures reg.View() == FanOut(old(reg.View()), Members(ids), e)
      ensures old(reg.Valid()) ==> reg.Valid()
    {
      SR.FanOutNobody(reg.View(), e);
      for i := 0 to |ids|
        modifies reg
        invariant reg.View() == FanOut(old(reg.View()), Members(ids[..i]), e)
        invariant old(reg.Valid()) ==> reg.Valid()
      {
        assert Members(ids[..i + 1]) == Members(ids[..i]) + {ids[i]};
        SR.FanOutOneMore(old(reg.View()), Members(ids[..i]), ids[i], e);
        reg.SendToSession(ids[i], e);
      }
      assert ids[..|ids|] == ids;
    }

    method NotifyAccount(username: Account, e: PhoneEvent)
      modifies reg
      ensures reg.View() == FanOut(old(reg.View()), SessionsOf(old(reg.View()), username), e)
      ensures old(reg.Valid()) ==> reg.Valid()
    {
      var ids := reg.SessionsOf(username);
      SendToAll(ids, e);
    }

    method SessionInCall(sid: SessionId) returns (yes: bool)
      ensures yes <==> InCall(View(), sid)
    {
      var todo := calls.Keys;
      while todo != {}
        invariant todo <= calls.Keys
        invariant forall id :: id in calls && id !in todo ==> sid !in Sids(calls[id].participants)
        decreases |todo|
      {
        var id :| id in todo;
        todo := todo - {id};
        var ps := calls[id].participants;
        for i := 0 to |ps|
          invariant forall j :: 0 <= j < i ==> Sids(ps)[j] != sid
        {
          if ps[i].sid == sid {
            assert Sids(ps)[i] == sid;
            return true;
          }
        }
      }
      return false;
    }

    method RingableSessions(username: Account) returns (ids: seq<SessionId>)
      ensures Members(ids) == Ringable(View(), username)
      ensures forall i, j :: 0 <= i < j < |ids| ==> ids[i] != ids[j]
    {
      ids := [];
      var all := reg.SessionsOf(username);
      for i := 0 to |all|
        invariant Members(ids) == set s | s in Members(all[..i]) && !InCall(View(), s)
        invariant forall s :: s in ids ==> s in all[..i]
        invariant forall j, k :: 0 <= j < k < |ids| ==> ids[j] != ids[k]
      {
        assert Members(all[..i + 1]) == Members(all[..i]) + {all[i]};
        var busy := SessionInCall(all[i]);
        if !busy {
          assert Members(ids + [all[i]]) == Members(ids) + {all[i]};
          ids := ids + [all[i]];
        }
      }
      assert all[..|all|] == all;
    }

    method RingLocked(callee: Account, e: PhoneEvent)
      modifies reg
      ensures View() == RingAll(old(View()), callee, e)
      ensures old(reg.Valid()) ==> reg.Valid()
    {
      var ids := RingableSessions(callee);
      SendToAll(ids, e);
    }

    // ---- Dial and Add ----

    method BeingRungLocked(user: Account) returns (yes: bool)
      ensures yes <==> BeingRung(View(), user)
    {
      var todo := calls.Keys;
      while todo != {}
        invariant todo <= calls.Keys
        invariant forall id :: id in calls && id !in todo ==> !DialRings(View(), id, user)
        decreases |todo|
      {
        var id :| id in todo;
        todo := todo - {id};
        if calls[id].state == CallPending && calls[id].callee == user {
          assert DialRings(View(), id, user);
          return true;
        }
      }
      var keys := pendingAdds.Keys;
      while keys != {}
        invariant keys <= pendingAdds.Keys
        invariant forall k :: k in pendingAdds && k !in keys ==> !AddRings(View(), k, user)
        decreases |keys|
      {
        var k :| k in keys;
        keys := keys - {k};
        if k.callee == user {
          assert AddRings(View(), k, user);
          return true;
        }
      }
      return false;
    }

    method AdmitLocked(caller: Account, callee: Account) returns (err: Option<Refusal>)
      ensures err == Admit(View(), caller, callee)
    {
      if EqualFold(caller, callee) { return Some(ErrSelfCall); }
      var connected := reg.Connected(callee);
      if !connected { return Some(ErrNotConnected); }
      var rung := BeingRungLocked(callee);
      if rung { return Some(ErrBeingRung); }
      var ids := RingableSessions(callee);
      assert |ids| == 0 <==> Members(ids) == {} by { if |ids| > 0 { assert ids[0] in Members(ids); } }
      if |ids| == 0 { return Some(ErrBusy); }
      return None;
    }

    /** `id` is the call ID minted from the clock, which no call has had before. */
    method Dial(id: CallId, sid: SessionId, caller: Account, callee: Account) returns (err: Option<Refusal>)
      requires Valid() && Fresh(View(), id)
      modifies this, reg
      ensures Valid() && (View(), err) == CallTable.Dial(old(View()), id, sid, caller, callee)
    {
      err := AdmitLocked(caller, callee);
      if err != None { return; }
      PlaceDialSound(View(), id, sid, caller, callee);
      var p := Participant(caller, sid, chans.serial);
      chans := Make(Make(chans, Incoming(id, p)), DialStop(id));
      calls := calls[id := Call(CallPending, caller, callee, [p])];
      RingLocked(callee, PhoneEvent(EventRing, id, caller, callee));
    }

    method Add(id: CallId, caller: Account, callee: Account) returns (err: Option<CallError>)
      requires Valid()
      modifies this, reg
      ensures Valid() && (View(), err) == CallTable.Add(old(View()), id, caller, callee)
    {
      hide Sound, FanOut, SendEach, Ringable, Admit;
      AdmitMeans(View(), caller, callee);
      if id !in calls { return Some(ErrNotFound); }
      if calls[id].state != CallActive { return Some(ErrNotActive); }
      var refusal := AdmitLocked(caller, callee);
      if refusal != None { return Some(Refused(refusal.value)); }
      PlaceAddSound(View(), id, caller, callee);
      var key := AddKey(id, callee);
      pendingAdds := pendingAdds[key := PendingRing(chans.serial, caller)];
      chans := Make(chans, AddStop(key, chans.serial));
      RingLocked(callee, PhoneEvent(EventRing, id, caller, callee));
      TellOthersByName(calls[id].participants, caller, PhoneEvent(EventRinging, id, caller, callee));
      return None;
    }

    /** One tick of a Dial's or an Add's ring goroutine, past its select. */
    method RingTick(id: CallId, caller: Account, callee: Account, isAdd: bool)
      requires Valid()
      modifies reg
      ensures Valid() && View() == Tick(old(View()), id, caller, callee, isAdd)
    {
      TickSound(View(), id, caller, callee, isAdd);
      if id !in calls { return; }
      RingLocked(callee, PhoneEvent(EventRing, id, caller, callee));
      if isAdd {
        TellOthersByName(calls[id].participants, caller, PhoneEvent(EventRinging, id, caller, callee));
      }
    }

    // ---- Answer, Reject, CancelAdd ----

    method StopAdd(key: AddKey)
      requires key in pendingAdds
      modifies this
      ensures View() == DropAdd(old(View()), key)
    {
      var ring := pendingAdds[key];
      chans := Close(chans, AddStop(key, ring.serial));
      pendingAdds := pendingAdds - {key};
    }

    method Join(id: CallId, sid: SessionId, user: Account)
      requires id in calls
      modifies this
      ensures View() == Seat(old(View()), id, sid, user)
    {
      var p := Participant(user, sid, chans.serial);
      chans := Make(chans, Incoming(id, p));
      calls := calls[id := calls[id].(participants := calls[id].participants + [p])];
    }

    method Answer(id: CallId, sid: SessionId, user: Account) returns (err: Option<CallError>)
      requires Valid()
      modifies this, reg
      ensures Valid() && (View(), err) == CallTable.Answer(old(View()), id, sid, user)
    {
      hide OneRing, ChansExact, FanOut, SendEach, Send;
      if id !in calls { return Some(ErrNotFound); }
      var call := calls[id];
      if call.state == CallActive {
        var key := AddKey(id, user);
        if key !in pendingAdds { return Some(ErrAlreadyAnswered); }
        AnswerAddSound(View(), id, sid, user);
        StopAdd(key);
        Join(id, sid, user);
        TellOthersBySession(calls[id].participants, sid, PhoneEvent(EventAnswer, id, call.caller, user));
        return None;
      }
      if call.state != CallPending { return Some(ErrUnexpectedState); }
      AnswerDialSound(View(), id, sid, user);
      var callerP := call.participants[0];
      Join(id, sid, user);
      chans := Close(chans, DialStop(id));
      calls := calls[id := calls[id].(state := CallActive)];
      reg.SendToSession(callerP.sid, PhoneEvent(EventAnswer, id, call.caller, user));
      RetractElsewhere(user, sid, PhoneEvent(EventAnswerElsewhere, id, call.caller, user));
      return None;
    }

    /** Every session of the account but this one. */
    method RetractElsewhere(user: Account, sid: SessionId, e: PhoneEvent)
      modifies reg
      ensures reg.View() == FanOut(old(reg.View()), SessionsOf(old(reg.View()), user) - {sid}, e)
      ensures old(reg.Valid()) ==> reg.Valid()
    {
      var ids := reg.SessionsOf(user);
      SR.FanOutNobody(reg.View(), e);
      for i := 0 to |ids|
        modifies reg
        invariant reg.View() == FanOut(old(reg.View()), Members(ids[..i]) - {sid}, e)
        invariant old(reg.Valid()) ==> reg.Valid()
      {
        assert Members(ids[..i + 1]) == Members(ids[..i]) + {ids[i]};
        if ids[i] != sid {
          SR.FanOutOneMore(old(reg.View()), Members(ids[..i]) - {sid}, ids[i], e);
          assert Members(ids[..i + 1]) - {sid} == Members(ids[..i]) - {sid} + {ids[i]};
          reg.SendToSession(ids[i], e);
        } else {
          assert Members(ids[..i + 1]) - {sid} == Members(ids[..i]) - {sid};
        }
      }
      assert ids[..|ids|] == ids;
    }

    method CloseIncoming(id: CallId, ps: seq<Participant>)
      requires Distinct(ps)
      modifies this
      ensures chans == CloseAll(old(chans), Incomings(id, ps)) && calls == old(calls) && pendingAdds == old(pendingAdds)
    {
      CloseNothing(chans);
      for i := 0 to |ps|
        invariant chans == CloseAll(old(chans), Incomings(id, ps[..i])) && calls == old(calls) && pendingAdds == old(pendingAdds)
      {
        assert Incomings(id, ps[..i + 1]) == Incomings(id, ps[..i]) + {Incoming(id, ps[i])};
        CloseOneMore(old(chans), Incomings(id, ps[..i]), Incoming(id, ps[i]));
        chans := Close(chans, Incoming(id, ps[i]));
      }
      assert ps[..|ps|] == ps;
    }

    method Reject(id: CallId, user: Account) returns (err: Option<CallError>)
      requires Valid()
      modifies this, reg
      ensures Valid() && (View(), err) == CallTable.Reject(old(View()), id, user)
    {
      RejectSound(View(), id, user);
      if id !in calls { return Some(ErrNotFound); }
      var call := calls[id];
      if call.state == CallActive {
        var key := AddKey(id, user);
        if key in pendingAdds { StopAdd(key); }
        TellEach(call.participants, PhoneEvent(EventReject, id, "", user));
        return None;
      }
      if call.state != CallPending { return Some(ErrUnexpectedState); }
      var callerP := call.participants[0];
      assert call.participants == [callerP];
      chans := Close(chans, DialStop(id));
      CloseIncoming(id, call.participants);
      calls := calls - {id};
      SendEachOne(reg.View(), callerP.sid, PhoneEvent(EventReject, id, call.caller, user));
      assert Sids([callerP]) == [callerP.sid];
      reg.SendToSession(callerP.sid, PhoneEvent(EventReject, id, call.caller, user));
      return None;
    }

    method CancelAdd(id: CallId, callee: Account, caller: Account)
      requires Valid()
      modifies this, reg
      ensures Valid() && View() == CallTable.CancelAdd(old(View()), id, callee, caller)
    {
      CancelAddSound(View(), id, callee, caller);
      var key, e := AddKey(id, callee), PhoneEvent(EventHangup, id, caller, callee);
      if key in pendingAdds { StopAdd(key); }
      NotifyAccount(callee, e);
      if id !in calls { return; }
      TellOthersByName(calls[id].participants, caller, e);
    }

    // ---- Hangup and teardown ----

    method Hangup(id: CallId, sid: SessionId)
      requires Valid()
      modifies this, reg
      ensures Valid() && View() == CallTable.Hangup(old(View()), id, sid)
    {
      if id in calls { HangupLocked(id, sid); }
    }

    method HangupLocked(id: CallId, sid: SessionId)
      requires Valid() && id in calls
      modifies this, reg
      ensures Valid() && View() == Leave(old(View()), id, sid)
    {
      hide Sound, SendEach, CloseCall;
      LeaveSound(View(), id, sid);
      var ps, idx := calls[id].participants, 0;
      while idx < |ps| && ps[idx].sid != sid
        invariant idx <= |ps| && forall j :: 0 <= j < idx ==> ps[j].sid != sid
      {
        idx := idx + 1;
      }
      assert idx == Find(ps, sid);
      if idx == |ps| { return; }
      var removed, rest := ps[idx], ps[..idx] + ps[idx + 1..];
      calls := calls[id := calls[id].(participants := rest)];
      chans := Close(chans, Incoming(id, removed));
      TellEach(rest, PhoneEvent(EventHangup, id, removed.username, ""));
      if |rest| == 0 { TearDown(id, removed.username); }
    }

    /** The end of a call that nobody is left in. */
    method TearDown(id: CallId, last: Account)
      requires reg.Valid() && id in calls
      modifies this, reg
      ensures reg.Valid() && View() == CloseCall(old(View()), id, last)
    {
      var call := calls[id];
      ghost var b := View();
      if call.state == CallPending {
        chans := Close(chans, DialStop(id));
        if call.callee != "" {
          RetractionsStay(View(), ToAll(SessionsOf(b.reg, call.callee), PhoneEvent(EventHangup, id, last, call.callee)), id);
          NotifyAccount(call.callee, PhoneEvent(EventHangup, id, last, call.callee));
        }
      }
      CancelRings(id);
      calls := calls - {id};
    }

    /** Stop every conference ring of the call, and tell each account rung, in its inviter's name. */
    method CancelRings(id: CallId)
      requires reg.Valid()
      modifies this, reg
      ensures reg.Valid() && calls == old(calls)
      ensures pendingAdds == map k | k in old(pendingAdds) && k.callId != id :: old(pendingAdds)[k]
      ensures chans == CloseAll(old(chans), AddStops(old(View()), id))
      ensures reg.View() == Deliver(old(reg.View()), Retractions(old(View()), id))
    {
      hide Deliver, CloseAll, RetractionsFor, Agree;
      ghost var b, told := View(), {};
      var keys := pendingAdds.Keys;
      CloseNothing(chans);
      NothingRetracted(b, id);
      while keys != {}
        invariant keys <= b.adds.Keys && told <= b.adds.Keys
        invariant forall k :: k in told <==> k in b.adds && k !in keys && k.callId == id
        invariant Cancelled(b, told, id)
        decreases |keys|
      {
        var k :| k in keys;
        keys := keys - {k};
        if k.callId == id {
          CancelRing(k, b, told);
          told := told + {k};
        }
      }
      assert told == KeysOf(b, id);
      AllKeys(b, id);
    }

    /** The rings `told` of the board `b` have been cancelled. */
    ghost predicate Cancelled(b: Switchboard, told: set<AddKey>, id: CallId)
      requires told <= b.adds.Keys
      reads this, reg
    {
      && reg.Valid() && calls == b.calls && pendingAdds == b.adds - told
      && chans == CloseAll(b.chans, StopsOf(b.adds, told))
      && reg.View() == Deliver(b.reg, RetractionsFor(b, told, id))
    }

    method CancelRing(k: AddKey, ghost b: Switchboard, ghost told: set<AddKey>)
      requires Agree(b.reg) && told <= b.adds.Keys && Cancelled(b, told, k.callId) && k in b.adds && k !in told
      modifies this, reg
      ensures Cancelled(b, told + {k}, k.callId)
    {
      hide Deliver, RetractionsFor;
      var ring := pendingAdds[k];
      assert StopsOf(b.adds, told + {k}) == StopsOf(b.adds, told) + {AddStop(k, ring.serial)};
      CloseOneMore(b.chans, StopsOf(b.adds, told), AddStop(k, ring.serial));
      chans := Close(chans, AddStop(k, ring.serial));
      pendingAdds := pendingAdds - {k};
      RetractOneMore(b, told, k);
      SamePeopleSessions(b.reg, RetractionsFor(b, told, k.callId));
      NotifyAccount(k.callee, PhoneEvent(EventHangup, k.callId, ring.inviter, k.callee));
    }

    method HangupSession(sid: SessionId) returns (ghost pick: Option<CallId>)
      requires Valid()
      modifies this, reg
      ensures Valid() && Picks(old(View()), sid, pick)
      ensures View() == CallTable.HangupSession(old(View()), sid, pick)
    {
      var todo := calls.Keys;
      while todo != {}
        invariant View() == old(View()) && Valid() && todo <= calls.Keys
        invariant forall id :: id in calls && id !in todo ==> sid !in Sids(calls[id].participants)
        decreases |todo|
      {
        var id :| id in todo;
        todo := todo - {id};
        var ps := calls[id].participants;
        for i := 0 to |ps|
          invariant View() == old(View()) && Valid()
          invariant forall j :: 0 <= j < i ==> Sids(ps)[j] != sid
        {
          if ps[i].sid == sid {
            assert Sids(ps)[i] == sid;
            HangupLocked(id, sid);
            return Some(id);
          }
        }
      }
      return None;
    }

    /** With no session left to ring, every ring aimed at the account is ended; there is never more than one. */
    method ReapUnreachableRings(user: Account)
      requires Valid()
      modifies this, reg
      ensures Valid() && View() == Reap(old(View()), user)
    {
      ghost var b := View();
      ReapSound(b, user);
      var ids := RingableSessions(user);
      if |ids| > 0 {
        assert ids[0] in Ringable(b, user);
        return;
      }
      assert Ringable(b, user) == {};
      var connected := reg.Connected(user);
      var kind := if connected then EventCalleeUnavailable else EventCalleeGone;
      ghost var dial := ReapDials(user, kind);
      ghost var add := ReapAdds(user, kind, b, dial);
      ReapIs(b, user, dial, add);
    }

    /** The first loop: pending calls aimed at the account. */
    method ReapDials(user: Account, kind: EventKind) returns (ghost hit: Option<CallId>)
      requires Valid() && kind == KindFor(View(), user)
      modifies this, reg
      ensures reg.Valid() && DialEnded(old(View()), View(), user, old(View()).calls.Keys, hit)
    {
      ghost var b := View();
      var todo := calls.Keys;
      hit := None;
      while todo != {}
        invariant reg.Valid() && todo <= b.calls.Keys
        invariant DialEnded(b, View(), user, b.calls.Keys - todo, hit)
        decreases |todo|
      {
        var id :| id in todo;
        todo := todo - {id};
        StillThere(b, View(), user, b.calls.Keys - todo - {id}, hit, id);
        var call := calls[id];
        if call.state == CallPending && call.callee == user {
          EndPending(id, PhoneEvent(kind, id, call.caller, user));
          hit := Some(id);
        }
      }
      assert b.calls.Keys - {} == b.calls.Keys;
    }

    method EndPending(id: CallId, e: PhoneEvent)
      requires Valid() && id in calls && calls[id].state == CallPending
      modifies this, reg
      ensures reg.Valid() && View() == EndDial(old(View()), id, e)
    {
      var ps := calls[id].participants;
      chans := Close(chans, DialStop(id));
      CloseIncoming(id, ps);
      TellEach(ps, e);
      calls := calls - {id};
    }

    /** The second loop: conference rings aimed at the account, whose calls live on. */
    method ReapAdds(user: Account, kind: EventKind, ghost b: Switchboard, ghost dial: Option<CallId>)
      returns (ghost hit: Option<AddKey>)
      requires reg.Valid() && Sound(b) && DialEnded(b, View(), user, b.calls.Keys, dial) && kind == KindFor(b, user)
      modifies this, reg
      ensures reg.Valid() && AddEnded(b, old(View()), View(), user, b.adds.Keys, hit)
    {
      hide Sound, DialEnded, EndDial, SendEach;
      ghost var b1 := View();
      var keys := pendingAdds.Keys;
      hit := None;
      AddsLeft(b, b1, user, dial);
      while keys != {}
        invariant reg.Valid() && keys <= b.adds.Keys
        invariant AddEnded(b, b1, View(), user, b.adds.Keys - keys, hit)
        decreases |keys|
      {
        var k :| k in keys;
        keys := keys - {k};
        RingStillThere(b, b1, View(), user, dial, b.adds.Keys - keys - {k}, hit, k);
        if k.callee == user {
          var e := PhoneEvent(kind, k.callId, pendingAdds[k].inviter, user);
          StopAdd(k);
          if k.callId in calls { TellEach(calls[k.callId].participants, e); }
          hit := Some(k);
        }
      }
      assert b.adds.Keys - {} == b.adds.Keys;
    }

    /** `sent` is what the character went to: the channel of everyone in the call who is not of the sender's account. */
    method BroadcastChar(id: CallId, sender: Account) returns (ghost sent: set<Chan>)
      requires Valid()
      modifies this
      ensures Valid() && View() == Broadcast(old(View()), id, sender)
      ensures forall c :: c in sent <==>
                id in calls && exists p :: p in calls[id].participants && p.username != sender && c == Incoming(id, p)
      ensures sent <= chans.open
    {
      sent := {};
      BroadcastSound(View(), id, sender);
      if id !in calls { return; }
      var ps := calls[id].participants;
      CloseNothing(chans);
      for i := 0 to |ps|
        invariant calls == old(calls) && pendingAdds == old(pendingAdds)
        invariant chans == SendOn(old(chans), Hearers(id, ps[..i], sender)) && sent == Hearers(id, ps[..i], sender)
      {
        assert ps[..i + 1] == ps[..i] + [ps[i]];
        if ps[i].username != sender {
          assert Hearers(id, ps[..i + 1], sender) == Hearers(id, ps[..i], sender) + {Incoming(id, ps[i])};
          chans := SendOn(chans, {Incoming(id, ps[i])});
          sent := sent + {Incoming(id, ps[i])};
        } else {
          assert Hearers(id, ps[..i + 1], sender) == Hearers(id, ps[..i], sender);
        }
      }
      assert ps[..|ps|] == ps;
    }
  }

  /** The channels of the participants other than the sender's. */
  function Hearers(id: CallId, ps: seq<Participant>, sender: Account): set<Chan> {
    set p | p in ps && p.username != sender :: Incoming(id, p)
  }

  ghost function KindFor(b: Switchboard, user: Account): EventKind {
    if Connected(b.reg, user) then EventCalleeUnavailable else EventCalleeGone
  }

  /** Of the calls `seen`, those ringing `user` are ended: at most `hit`. */
  ghost predicate DialEnded(b: Switchboard, b': Switchboard, user: Account, seen: set<CallId>, hit: Option<CallId>) {
    && Sound(b)
    && match hit
       case None => b' == b && forall id :: id in seen ==> !DialRings(b, id, user)
       case Some(id) => id in seen && DialRings(b, id, user)
                        && b' == EndDial(b, id, ReapEvent(b, id, b.calls[id].caller, user))
  }

  ghost predicate AddEnded(b: Switchboard, b1: Switchboard, b': Switchboard, user: Account, seen: set<AddKey>, hit: Option<AddKey>) {
    match hit
    case None => b' == b1 && forall k :: k in seen ==> !AddRings(b, k, user)
    case Some(k) => k in seen && AddRings(b, k, user) && b1 == b && b' == ReapAdd(b, k)
  }

  /** Any other call is untouched so far, and if one ring was ended it is not another. */
  lemma StillThere(b: Switchboard, b': Switchboard, user: Account, seen: set<CallId>, hit: Option<CallId>, id: CallId)
    requires DialEnded(b, b', user, seen, hit) && id in b.calls && id !in seen
    ensures id in b'.calls && b'.calls[id] == b.calls[id]
    ensures hit.Some? ==> !DialRings(b, id, user)
  {
    hide ChansExact, CallShape;
  }

  lemma AddsLeft(b: Switchboard, b1: Switchboard, user: Account, dial: Option<CallId>)
    requires DialEnded(b, b1, user, b.calls.Keys, dial)
    ensures b1.adds == b.adds
  {
  }

  lemma RingStillThere(b: Switchboard, b1: Switchboard, b': Switchboard, user: Account, dial: Option<CallId>,
                       seen: set<AddKey>, hit: Option<AddKey>, k: AddKey)
    requires DialEnded(b, b1, user, b.calls.Keys, dial) && AddEnded(b, b1, b', user, seen, hit) && k in b.adds && k !in seen
    ensures k in b'.adds && b'.adds[k] == b.adds[k]
    ensures k.callee == user ==> dial == None && hit == None && b' == b
  {
    hide ChansExact, CallShape;
    assert AddRings(b, k, user) <==> k.callee == user;
  }

  lemma ReapIs(b: Switchboard, user: Account, dial: Option<CallId>, add: Option<AddKey>)
    requires Sound(b) && Ringable(b, user) == {}
    ensures forall b1, b' :: DialEnded(b, b1, user, b.calls.Keys, dial) && AddEnded(b, b1, b', user, b.adds.Keys, add)
              ==> b' == Reap(b, user)
  {
    hide ChansExact, CallShape, EndDial, ReapAdd;
    forall b1, b' | DialEnded(b, b1, user, b.calls.Keys, dial) && AddEnded(b, b1, b', user, b.adds.Keys, add)
      ensures b' == Reap(b, user)
    {
      if dial.Some? {
        var id :| DialRings(b, id, user) && Reap(b, user) == EndDial(b, id, ReapEvent(b, id, b.calls[id].caller, user));
      } else if add.Some? {
        assert forall id :: DialRings(b, id, user) ==> id in b.calls.Keys;
        var k :| AddRings(b, k, user) && Reap(b, user) == ReapAdd(b, k);
      } else {
        assert forall id :: DialRings(b, id, user) ==> id in b.calls.Keys;
        assert forall k :: AddRings(b, k, user) ==> k in b.adds.Keys;
      }
    }
  }

  lemma SendEachOne(r: Presence, sid: SessionId, e: PhoneEvent)
    ensures SendEach(r, [sid], e) == Send(r, sid, e)
  {
    hide Send;
    assert [sid][1..] == [] && SendEach(Send(r, sid, e), [], e) == Send(r, sid, e);
  }

  lemma NothingRetracted(b: Switchboard, id: CallId)
    ensures Deliver(b.reg, RetractionsFor(b, {}, id)) == b.reg
    ensures StopsOf(b.adds, {}) == {}
  {
    assert Deliver(b.reg, RetractionsFor(b, {}, id)).index == b.reg.index;
  }
}
