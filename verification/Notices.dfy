/**
  Who hears what: for each method of the call table, the events that every registered
  session's queue gains, in order, each lost only if eight are waiting when it comes.
 */
module Notices {
  import opened Wrappers
  import opened Registry
  import opened CallTable
  import opened TableInvariant
  import opened TableMotion
  import opened WorldInvariant
  import opened Agreement

  function PushAll(q: seq<PhoneEvent>, es: seq<PhoneEvent>): seq<PhoneEvent>
    decreases es
  {
    if es == [] then q else PushAll(if |q| < QUEUE_CAPACITY then q + [es[0]] else q, es[1..])
  }

  function Times(n: nat, e: PhoneEvent): (es: seq<PhoneEvent>)
    ensures |es| == n && forall i :: 0 <= i < n ==> es[i] == e
  {
    seq(n, i => e)
  }

  /** The session's queue takes exactly these events. */
  ghost predicate Hears(r: Presence, r': Presence, s: SessionId, es: seq<PhoneEvent>)
    requires s in r.index
  {
    s in r'.index && r'.index[s].username == r.index[s].username && r'.index[s].notify == PushAll(r.index[s].notify, es)
  }

  lemma {:induction false} PushAllTwice(q: seq<PhoneEvent>, es: seq<PhoneEvent>, fs: seq<PhoneEvent>)
    ensures PushAll(PushAll(q, es), fs) == PushAll(q, es + fs)
    decreases es
  {
    if es == [] {
      assert es + fs == fs;
    } else {
      assert (es + fs)[1..] == es[1..] + fs;
      PushAllTwice(if |q| < QUEUE_CAPACITY then q + [es[0]] else q, es[1..], fs);
    }
  }

  lemma HearsTwice(r: Presence, r1: Presence, r2: Presence, s: SessionId, es: seq<PhoneEvent>, fs: seq<PhoneEvent>)
    requires s in r.index && Hears(r, r1, s, es) && Hears(r1, r2, s, fs)
    ensures Hears(r, r2, s, es + fs)
  {
    PushAllTwice(r.index[s].notify, es, fs);
  }

  lemma DeliverHeard(r: Presence, m: map<SessionId, PhoneEvent>, s: SessionId)
    requires s in r.index
    ensures Hears(r, Deliver(r, m), s, if s in m then [m[s]] else [])
  {
    var q := r.index[s].notify;
    if s in m {
      assert [m[s]][1..] == [];
      assert PushAll(q, [m[s]]) == PushAll(if |q| < QUEUE_CAPACITY then q + [m[s]] else q, []);
    }
  }

  lemma FanOutHeard(r: Presence, sids: set<SessionId>, e: PhoneEvent, s: SessionId)
    requires s in r.index
    ensures Hears(r, FanOut(r, sids, e), s, if s in sids then [e] else [])
  {
    DeliverHeard(r, ToAll(sids, e), s);
  }

  lemma {:induction false} SendEachHeard(r: Presence, sids: seq<SessionId>, e: PhoneEvent, s: SessionId)
    requires s in r.index
    ensures Hears(r, SendEach(r, sids, e), s, Times(multiset(sids)[s], e))
    decreases sids
  {
    hide Send;
    if sids == [] {
      assert Times(0, e) == [];
    } else {
      DeliverOne(r, sids[0], e, s);
      SendEachHeard(Send(r, sids[0], e), sids[1..], e, s);
      assert sids == [sids[0]] + sids[1..];
      var one := if s == sids[0] then [e] else [];
      HearsTwice(r, Send(r, sids[0], e), SendEach(r, sids, e), s, one, Times(multiset(sids[1..])[s], e));
      assert one + Times(multiset(sids[1..])[s], e) == Times(multiset(sids)[s], e);
    }
  }

  lemma DeliverOne(r: Presence, sid: SessionId, e: PhoneEvent, s: SessionId)
    requires s in r.index
    ensures Hears(r, Send(r, sid, e), s, if s == sid then [e] else [])
  {
    DeliverHeard(r, map[sid := e], s);
  }

  // ---- Counting those in a call ------------------------------------------------------------

  lemma {:induction false} OthersByNameCount(ps: seq<Participant>, name: Account, s: SessionId, user: Account)
    requires forall p :: p in ps && p.sid == s ==> p.username == user
    ensures multiset(OthersByName(ps, name))[s] == if user != name then multiset(Sids(ps))[s] else 0
    decreases ps
  {
    if ps != [] {
      assert ps[0] in ps && forall p :: p in ps[1..] ==> p in ps;
      OthersByNameCount(ps[1..], name, s, user);
    }
  }

  lemma {:induction false} OthersBySessionCount(ps: seq<Participant>, sid: SessionId, s: SessionId)
    ensures multiset(OthersBySession(ps, sid))[s] == if s != sid then multiset(Sids(ps))[s] else 0
    decreases ps
  {
    if ps != [] { OthersBySessionCount(ps[1..], sid, s); }
  }

  /** How often a registered session is told of something said to everyone in the call not named `name`. */
  function OthersCount(call: Call, name: Account, user: Account, s: SessionId): nat {
    if user != name then Seats(call)[s] else 0
  }

  lemma TellOthersHeard(b: Switchboard, reg: Presence, id: CallId, name: Account, e: PhoneEvent, s: SessionId)
    requires SeatsOk(b) && id in b.calls && s in b.reg.index && s in reg.index
    ensures Hears(reg, SendEach(reg, OthersByName(b.calls[id].participants, name), e), s,
                  Times(OthersCount(b.calls[id], name, b.reg.index[s].username, s), e))
  {
    OthersByNameCount(b.calls[id].participants, name, s, b.reg.index[s].username);
    SendEachHeard(reg, OthersByName(b.calls[id].participants, name), e, s);
  }

  // ---- Method by method ------------------------------------------------------------------------

  /** A dial rings each session of the callee that is in no call, once, and nobody else. */
  lemma DialHeard(b: Switchboard, id: CallId, sid: SessionId, caller: Account, callee: Account, s: SessionId)
    requires Agree(b.reg) && s in b.reg.index
    ensures var b' := PlaceDial(b, id, sid, caller, callee);
            Hears(b.reg, b'.reg, s,
                  if b.reg.index[s].username == callee && !InCall(b', s) then [PhoneEvent(EventRing, id, caller, callee)] else [])
  {
    var b' := PlaceDial(b, id, sid, caller, callee);
    RingAllHeard(b'.(reg := b.reg), callee, PhoneEvent(EventRing, id, caller, callee), s);
    assert InCall(b'.(reg := b.reg), s) <==> InCall(b', s);
  }

  lemma RingAllHeard(b: Switchboard, callee: Account, e: PhoneEvent, s: SessionId)
    requires Agree(b.reg) && s in b.reg.index
    ensures Hears(b.reg, RingAll(b, callee, e).reg, s, if b.reg.index[s].username == callee && !InCall(b, s) then [e] else [])
  {
    FanOutHeard(b.reg, Ringable(b, callee), e, s);
  }

  /** An ADD rings the same way, and tells everyone in the call but the inviter's account who is being rung. */
  lemma AddHeard(b: Switchboard, id: CallId, caller: Account, callee: Account, s: SessionId)
    requires Agree(b.reg) && SeatsOk(b) && id in b.calls && s in b.reg.index
    ensures var user := b.reg.index[s].username;
            Hears(b.reg, PlaceAdd(b, id, caller, callee).reg, s,
                  (if user == callee && !InCall(b, s) then [PhoneEvent(EventRing, id, caller, callee)] else [])
                  + Times(OthersCount(b.calls[id], caller, user, s), PhoneEvent(EventRinging, id, caller, callee)))
  {
    hide RingAll;
    var b' := PlaceAdd(b, id, caller, callee);
    var b0 := b'.(reg := b.reg);
    var e := PhoneEvent(EventRing, id, caller, callee);
    RingAllHeard(b0, callee, e, s);
    AddRingsOnly(b, b0, id, caller, callee);
    assert InCall(b0, s) <==> InCall(b, s);
    TellOthersHeard(b, RingAll(b0, callee, e).reg, id, caller, PhoneEvent(EventRinging, id, caller, callee), s);
    HearsTwice(b.reg, RingAll(b0, callee, e).reg, b'.reg, s, if b.reg.index[s].username == callee && !InCall(b, s) then [e] else [],
               Times(OthersCount(b.calls[id], caller, b.reg.index[s].username, s), PhoneEvent(EventRinging, id, caller, callee)));
  }

  lemma AddRingsOnly(b: Switchboard, b0: Switchboard, id: CallId, caller: Account, callee: Account)
    requires id in b.calls && b0 == PlaceAdd(b, id, caller, callee).(reg := b.reg)
    ensures b0.calls == b.calls
    ensures PlaceAdd(b, id, caller, callee).reg ==
              SendEach(RingAll(b0, callee, PhoneEvent(EventRing, id, caller, callee)).reg, OthersByName(b.calls[id].participants, caller),
                       PhoneEvent(EventRinging, id, caller, callee))
  {
  }

  lemma JoinReg(b: Switchboard, id: CallId, sid: SessionId, user: Account)
    requires Active(b, id) && AnswerError(b, id, user) == None
    ensures Answer(b, id, sid, user).0.reg ==
              SendEach(b.reg, OthersBySession(b.calls[id].participants + [Participant(user, sid, b.chans.serial)], sid),
                       PhoneEvent(EventAnswer, id, b.calls[id].caller, user))
  {
    hide SendEach;
  }

  /** When an invited account joins, every session already in the call hears it, and the newcomer does not. */
  lemma JoinHeard(b: Switchboard, id: CallId, sid: SessionId, user: Account, s: SessionId)
    requires Active(b, id) && AnswerError(b, id, user) == None && s in b.reg.index
    ensures Hears(b.reg, Answer(b, id, sid, user).0.reg, s,
                  Times(if s != sid then Seats(b.calls[id])[s] else 0, PhoneEvent(EventAnswer, id, b.calls[id].caller, user)))
  {
    hide Answer, SendEach;
    var ps, p := b.calls[id].participants, Participant(user, sid, b.chans.serial);
    JoinReg(b, id, sid, user);
    OthersBySessionCount(ps + [p], sid, s);
    SidsAppend(ps, p);
    assert s != sid ==> multiset(Sids(ps) + [sid])[s] == multiset(Sids(ps))[s];
    SendEachHeard(b.reg, OthersBySession(ps + [p], sid), PhoneEvent(EventAnswer, id, b.calls[id].caller, user), s);
  }

  /** A rejection is told to each session in the call, and to nobody else; in a pending call that is its caller. */
  lemma RejectHeard(b: Switchboard, id: CallId, user: Account, s: SessionId)
    requires Sound(b) && id in b.calls && s in b.reg.index
    ensures var caller := if b.calls[id].state == CallActive then "" else b.calls[id].caller;
            Hears(b.reg, Reject(b, id, user).0.reg, s, Times(Seats(b.calls[id])[s], PhoneEvent(EventReject, id, caller, user)))
  {
    hide ChansExact, OneRing;
    assert CallShape(b.calls[id]);
    var caller := if b.calls[id].state == CallActive then "" else b.calls[id].caller;
    SendEachHeard(b.reg, Sids(b.calls[id].participants), PhoneEvent(EventReject, id, caller, user), s);
  }

  /** Cancelling an ADD is told to every session of the account rung, and to everyone in the call but the canceller's account. */
  lemma CancelHeard(b: Switchboard, id: CallId, callee: Account, caller: Account, s: SessionId)
    requires Agree(b.reg) && SeatsOk(b) && s in b.reg.index
    ensures var user, e := b.reg.index[s].username, PhoneEvent(EventHangup, id, caller, callee);
            Hears(b.reg, CancelAdd(b, id, callee, caller).reg, s,
                  (if user == callee then [e] else []) + (if id in b.calls then Times(OthersCount(b.calls[id], caller, user, s), e) else []))
  {
    hide Hears;
    var user, e := b.reg.index[s].username, PhoneEvent(EventHangup, id, caller, callee);
    var told := if user == callee then [e] else [];
    var reg1 := FanOut(b.reg, SessionsOf(b.reg, callee), e);
    FanOutHeard(b.reg, SessionsOf(b.reg, callee), e, s);
    if id in b.calls {
      TellOthersHeard(b, reg1, id, caller, e, s);
      HearsTwice(b.reg, reg1, CancelAdd(b, id, callee, caller).reg, s, told, Times(OthersCount(b.calls[id], caller, user, s), e));
    } else {
      assert told + [] == told;
    }
  }

  /** A departure is told, by name, to each session that stays, and to nobody else while anyone stays. */
  lemma DepartureHeard(b: Switchboard, id: CallId, sid: SessionId, s: SessionId)
    requires id in b.calls && |b.calls[id].participants| > 1 && s in b.reg.index
    requires Find(b.calls[id].participants, sid) < |b.calls[id].participants|
    ensures var ps := b.calls[id].participants;
            var i := Find(ps, sid);
            Hears(b.reg, Leave(b, id, sid).reg, s,
                  Times((Seats(b.calls[id]) - multiset{sid})[s], PhoneEvent(EventHangup, id, ps[i].username, "")))
  {
    hide SendEach, Leave, Hears, Sids;
    var ps := b.calls[id].participants;
    var i := Find(ps, sid);
    SidsWithout(ps, i);
    DepartureReg(b, id, sid);
    SendEachHeard(b.reg, Sids(ps[..i] + ps[i + 1..]), PhoneEvent(EventHangup, id, ps[i].username, ""), s);
  }

  lemma DepartureReg(b: Switchboard, id: CallId, sid: SessionId)
    requires id in b.calls && |b.calls[id].participants| > 1 && Find(b.calls[id].participants, sid) < |b.calls[id].participants|
    ensures var ps := b.calls[id].participants;
            var i := Find(ps, sid);
            Leave(b, id, sid).reg == SendEach(b.reg, Sids(ps[..i] + ps[i + 1..]), PhoneEvent(EventHangup, id, ps[i].username, ""))
  {
    hide SendEach, CloseCall;
    var ps, i := b.calls[id].participants, Find(b.calls[id].participants, sid);
    assert |ps[..i] + ps[i + 1..]| > 0;
  }

  /** When the last one leaves, the account still being dialled and each account still rung by an ADD is told, and nobody else. */
  lemma LastDepartureHeard(b: Switchboard, id: CallId, sid: SessionId, s: SessionId)
    requires Agree(b.reg) && id in b.calls && Sids(b.calls[id].participants) == [sid] && s in b.reg.index
    ensures var user, call := b.reg.index[s].username, b.calls[id];
            var last := call.participants[0].username;
            Hears(b.reg, Leave(b, id, sid).reg, s,
                  (if call.state == CallPending && call.callee != "" && user == call.callee
                   then [PhoneEvent(EventHangup, id, last, user)] else [])
                  + (if AddKey(id, user) in b.adds
                     then [PhoneEvent(EventHangup, id, b.adds[AddKey(id, user)].inviter, user)] else []))
  {
    hide Hears, Deliver, FanOut;
    var user, call := b.reg.index[s].username, b.calls[id];
    var last := call.participants[0].username;
    var first := if call.state == CallPending && call.callee != "" && user == call.callee then [PhoneEvent(EventHangup, id, last, user)] else [];
    var second := if AddKey(id, user) in b.adds then [PhoneEvent(EventHangup, id, b.adds[AddKey(id, user)].inviter, user)] else [];
    var reg1 := if call.state == CallPending && call.callee != ""
                then FanOut(b.reg, SessionsOf(b.reg, call.callee), PhoneEvent(EventHangup, id, last, call.callee)) else b.reg;
    LastLeaves(b, id, sid, reg1);
    FanOutHeard(b.reg, SessionsOf(b.reg, call.callee), PhoneEvent(EventHangup, id, last, call.callee), s);
    NothingHeard(b.reg, s);
    IndexKept(b.reg, reg1, s, first);
    DeliverHeard(reg1, Retractions(b, id), s);
    HearsTwice(b.reg, reg1, Leave(b, id, sid).reg, s, first, second);
  }

  lemma NothingHeard(r: Presence, s: SessionId)
    requires s in r.index
    ensures Hears(r, r, s, [])
  {
  }

  lemma IndexKept(r: Presence, r1: Presence, s: SessionId, es: seq<PhoneEvent>)
    requires s in r.index && Hears(r, r1, s, es)
    ensures s in r1.index
  {
  }

  lemma LastLeaves(b: Switchboard, id: CallId, sid: SessionId, reg1: Presence)
    requires id in b.calls && Sids(b.calls[id].participants) == [sid]
    requires var call := b.calls[id];
             reg1 == if call.state == CallPending && call.callee != ""
                     then FanOut(b.reg, SessionsOf(b.reg, call.callee), PhoneEvent(EventHangup, id, call.participants[0].username, call.callee))
                     else b.reg
    ensures Leave(b, id, sid).reg == Deliver(reg1, Retractions(b, id))
  {
    hide Deliver, FanOut;
    var ps := b.calls[id].participants;
    assert |ps| == 1 && Find(ps, sid) == 0 && ps[..0] + ps[1..] == [];
    var b1 := b.(calls := b.calls[id := b.calls[id].(participants := [])], chans := Close(b.chans, Incoming(id, ps[0])),
                 reg := SendEach(b.reg, Sids([]), PhoneEvent(EventHangup, id, ps[0].username, "")));
    assert b1.reg == b.reg && Leave(b, id, sid) == CloseCall(b1, id, ps[0].username);
    assert Retractions(b1, id) == Retractions(b, id);
  }

  /** A ring tick rings the free sessions again and, for an ADD, tells the call again; a tick for a call that is gone is silent. */
  lemma TickHeard(b: Switchboard, id: CallId, caller: Account, callee: Account, isAdd: bool, s: SessionId)
    requires Agree(b.reg) && SeatsOk(b) && s in b.reg.index
    ensures var user := b.reg.index[s].username;
            Hears(b.reg, Tick(b, id, caller, callee, isAdd).reg, s,
                  if id !in b.calls then []
                  else (if user == callee && !InCall(b, s) then [PhoneEvent(EventRing, id, caller, callee)] else [])
                       + (if isAdd then Times(OthersCount(b.calls[id], caller, user, s), PhoneEvent(EventRinging, id, caller, callee)) else []))
  {
    hide RingAll, SendEach, Hears;
    var user, e := b.reg.index[s].username, PhoneEvent(EventRing, id, caller, callee);
    var rung := if user == callee && !InCall(b, s) then [e] else [];
    NothingHeard(b.reg, s);
    if id in b.calls {
      var b1 := RingAll(b, callee, e);
      RingAllHeard(b, callee, e, s);
      IndexKept(b.reg, b1.reg, s, rung);
      SameCalls(b, callee, e);
      if isAdd {
        TellOthersHeard(b, b1.reg, id, caller, PhoneEvent(EventRinging, id, caller, callee), s);
        HearsTwice(b.reg, b1.reg, Tick(b, id, caller, callee, isAdd).reg, s, rung,
                   Times(OthersCount(b.calls[id], caller, user, s), PhoneEvent(EventRinging, id, caller, callee)));
      } else {
        assert rung + [] == rung;
      }
    }
  }

  lemma SameCalls(b: Switchboard, callee: Account, e: PhoneEvent)
    ensures RingAll(b, callee, e).calls == b.calls
  {
  }

  /** The reaper tells the caller of a dial whether the account is gone or only busy, and tells nobody else. */
  lemma ReapHeard(b: Switchboard, id: CallId, user: Account, s: SessionId)
    requires Sound(b) && DialRings(b, id, user) && Ringable(b, user) == {} && s in b.reg.index
    ensures var kind := if Connected(b.reg, user) then EventCalleeUnavailable else EventCalleeGone;
            Hears(b.reg, Reap(b, user).reg, s, Times(Seats(b.calls[id])[s], PhoneEvent(kind, id, b.calls[id].caller, user)))
  {
    hide ChansExact, CallShape, EndDial, SendEach, Hears;
    var c :| DialRings(b, c, user) && Reap(b, user) == EndDial(b, c, ReapEvent(b, c, b.calls[c].caller, user));
    assert c == id;
    EndDialReg(b, id, ReapEvent(b, id, b.calls[id].caller, user));
    SendEachHeard(b.reg, Sids(b.calls[id].participants), ReapEvent(b, id, b.calls[id].caller, user), s);
  }

  lemma EndDialReg(b: Switchboard, id: CallId, e: PhoneEvent)
    requires id in b.calls
    ensures EndDial(b, id, e).reg == SendEach(b.reg, Sids(b.calls[id].participants), e)
  {
  }
}
