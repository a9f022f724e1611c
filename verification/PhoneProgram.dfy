/**
  internal/phone/app.go as one session runs it: a model whose handlers assign its
  fields and call the shared table. Each handler does to the model and the table
  exactly what the matching step of the protocol does to the world.
 */
module PhoneProgram {
  import opened Wrappers
  import opened Registry
  import opened CallTable
  import opened TableInvariant
  import opened TableMotion
  import opened Protocol
  import CS = CallService

  // ---- What each command does, to the model and the table together -------------------

  ghost function DialCommand(u: Ui, b: Switchboard, sid: SessionId, id: CallId, target: Account): (Ui, Switchboard) {
    if target == "" || u.state == CallPending then (u, b)
    else if u.state == CallActive then AddCommand(u, b, target)
    else
      var (b', err) := Dial(b, id, sid, u.username, target);
      (if err == None then Dialed(u, id, target) else u, b')
  }

  ghost function AddCommand(u: Ui, b: Switchboard, target: Account): (Ui, Switchboard) {
    if target == "" || u.state != CallActive || u.callId == None then (u, b) else
      var (b', err) := Add(b, u.callId.value, u.username, target);
      (if err == None then u.(addTarget := Some(target)) else u, b')
  }

  ghost function AnswerCommand(u: Ui, b: Switchboard, sid: SessionId): (Ui, Switchboard)
    requires forall id :: id in b.calls ==> b.calls[id].participants != []
  {
    if u.incoming == None then (u, b) else
      var id := u.incoming.value;
      var (b', err) := Answer(b, id, sid, u.username);
      (if err == None then Answered(u, id, if id in b'.calls then Names(b'.calls[id].participants) else []) else AnswerFailed(u), b')
  }

  ghost function RejectCommand(u: Ui, b: Switchboard): (Ui, Switchboard) {
    if u.incoming == None then (u, b) else (AnswerFailed(u), Reject(b, u.incoming.value, u.username).0)
  }

  ghost function HangupCommand(u: Ui, b: Switchboard, sid: SessionId): (Ui, Switchboard) {
    (GoIdle(u), if u.callId.Some? then Hangup(b, u.callId.value, sid) else b)
  }

  ghost function CancelCommand(u: Ui, b: Switchboard): (Ui, Switchboard) {
    if u.addTarget == None || u.callId == None then (u, b)
    else (u.(addTarget := None), CancelAdd(b, u.callId.value, u.addTarget.value, u.username))
  }

  ghost function EventHandled(u: Ui, b: Switchboard, sid: SessionId, e: PhoneEvent): (Ui, Switchboard) {
    var (u', hangsUp) := Handle(u, e);
    (u', if hangsUp && u.callId.Some? then Hangup(b, u.callId.value, sid) else b)
  }

  // ---- The commands are the steps of the protocol ----------------------------------------

  /** The two readings of admission, with nothing between, are the admission check. */
  lemma IdleRings(w: World, sid: SessionId, target: Account)
    requires Acts(w, sid) && w.ui[sid].state == CallIdle && target != ""
    ensures ApplyRecheck(ApplyRing(w, sid, target)) ==
              w.(gate := if Admit(w.board, w.ui[sid].username, target) == None then Some(DialGate(sid, target)) else None)
  {
    hide FirstRefusal, Ringable;
  }

  lemma ActiveRings(w: World, sid: SessionId, target: Account)
    requires Acts(w, sid) && w.ui[sid].state == CallActive && w.ui[sid].callId.Some? && target != ""
    ensures var id := w.ui[sid].callId.value;
            ApplyRecheck(ApplyRing(w, sid, target)) ==
              w.(gate := if AddError(w.board, id, w.ui[sid].username, target) == None then Some(AddGate(sid, id, target)) else None)
  {
    hide FirstRefusal, Ringable;
  }

  lemma DialSteps(w: World, sid: SessionId, target: Account, id: CallId)
    requires Acts(w, sid) && Fresh(w.board, id) && w.ui[sid].state == CallIdle && target != ""
    ensures var w' := ApplyCommit(ApplyRecheck(ApplyRing(w, sid, target)), id);
            sid in w'.ui && (w'.ui[sid], w'.board) == DialCommand(w.ui[sid], w.board, sid, id, target)
  {
    hide ApplyRing, ApplyRecheck, PlaceDial, Admit, Dialed;
    IdleRings(w, sid, target);
  }

  lemma AddSteps(w: World, sid: SessionId, target: Account, id: CallId)
    requires Acts(w, sid) && w.ui[sid].state == CallActive && w.ui[sid].callId.Some? && target != ""
    ensures var w' := ApplyCommit(ApplyRecheck(ApplyRing(w, sid, target)), id);
            sid in w'.ui && (w'.ui[sid], w'.board) == AddCommand(w.ui[sid], w.board, target)
  {
    hide ApplyRing, ApplyRecheck, PlaceAdd, Admit;
    ActiveRings(w, sid, target);
  }

  lemma NoSteps(w: World, sid: SessionId, target: Account, id: CallId)
    requires Acts(w, sid) && (w.ui[sid].state == CallPending || target == "")
    ensures ApplyCommit(ApplyRecheck(ApplyRing(w, sid, target)), id) == w
  {
  }

  /** DIAL and ADD, with nothing between the two readings of admission and the rest. */
  lemma DialIsRingAndCommit(w: World, sid: SessionId, target: Account, id: CallId)
    requires Acts(w, sid) && Fresh(w.board, id) && (w.ui[sid].state == CallActive ==> w.ui[sid].callId.Some?)
    ensures var w' := Apply(Apply(Apply(w, Ring(sid, target)), Recheck), Commit(id));
            sid in w'.ui && (w'.ui[sid], w'.board) == DialCommand(w.ui[sid], w.board, sid, id, target)
  {
    hide ApplyRing, ApplyRecheck, ApplyCommit, AddCommand, Dial;
    if w.ui[sid].state == CallPending || target == "" {
      NoSteps(w, sid, target, id);
    } else if w.ui[sid].state == CallIdle {
      DialSteps(w, sid, target, id);
    } else {
      AddSteps(w, sid, target, id);
    }
  }

  lemma AnswerIsStep(w: World, sid: SessionId)
    requires Acts(w, sid) && w.ui[sid].state != CallPending
    requires forall id :: id in w.board.calls ==> w.board.calls[id].participants != []
    ensures var w' := Apply(w, AnswerKey(sid));
            sid in w'.ui && (w'.ui[sid], w'.board) == AnswerCommand(w.ui[sid], w.board, sid)
  {
    hide AnswerDial, AnswerAdd, Answered, AnswerFailed, Settle;
  }

  lemma CommandsAreSteps(w: World, sid: SessionId)
    requires Acts(w, sid)
    ensures w.ui[sid].state != CallPending ==>
              var w' := Apply(w, RejectKey(sid));
              sid in w'.ui && (w'.ui[sid], w'.board) == RejectCommand(w.ui[sid], w.board)
    ensures w.ui[sid].callId.Some? ==>
              var w' := Apply(w, HangupKey(sid));
              sid in w'.ui && (w'.ui[sid], w'.board) == HangupCommand(w.ui[sid], w.board, sid)
    ensures w.ui[sid].state == CallActive ==>
              var w' := Apply(w, CancelKey(sid));
              sid in w'.ui && (w'.ui[sid], w'.board) == CancelCommand(w.ui[sid], w.board)
  {
    hide Leave, CancelAdd, Reject, Settle, GoIdle, AnswerFailed;
    if w.ui[sid].callId.Some? { LeavesOrNot(w, w.ui[sid].callId.value, sid); }
  }

  lemma LeavesOrNot(w: World, id: CallId, sid: SessionId)
    ensures LeaveCall(w, id, sid, Cancelled).board == Hangup(w.board, id, sid)
    ensures LeaveCall(w, id, sid, Cancelled).ui == w.ui
  {
    if id in w.board.calls {
      var ps := w.board.calls[id].participants;
      if Find(ps, sid) < |ps| { assert Sids(ps)[Find(ps, sid)] == sid; }
    }
  }

  lemma HandlingIsConsume(w: World, sid: SessionId)
    requires Acts(w, sid) && sid in w.board.reg.index && w.board.reg.index[sid].notify != []
    ensures var w', e := Apply(w, Consume(sid)), w.board.reg.index[sid].notify[0];
            sid in w'.ui && (w'.ui[sid], w'.board) ==
              EventHandled(w.ui[sid], w.board.(reg := Receive(w.board.reg, sid)), sid, e)
  {
    hide Leave, Handle, Receive, Settle;
    if w.ui[sid].callId.Some? {
      LeavesOrNot(w.(board := w.board.(reg := Receive(w.board.reg, sid))), w.ui[sid].callId.value, sid);
    }
  }

  lemma NobodyEmpty(b: Switchboard)
    requires Sound(b)
    ensures forall id :: id in b.calls ==> b.calls[id].participants != []
  {
    forall id | id in b.calls ensures b.calls[id].participants != [] {
      assert CallShape(b.calls[id]);
    }
  }

  // ---- The program -------------------------------------------------------------------------

  lemma {:induction false} NotNamedAppend(names: seq<Account>, x: Account, name: Account)
    ensures NotNamed(names + [x], name) == if x != name then NotNamed(names, name) + [x] else NotNamed(names, name)
    decreases names
  {
    if names == [] {
      assert [x][1..] == [] && [] + [x] == [x];
    } else {
      assert (names + [x])[1..] == names[1..] + [x];
      NotNamedAppend(names[1..], x, name);
    }
  }

  class Program {
    const calls: CS.Calls
    const sid: SessionId
    const username: Account
    var inPhone: bool
    var state: CallState
    var callId: Option<CallId>
    var incoming: Option<CallId>
    var addTarget: Option<Account>
    var callsWith: seq<Account>
    var viewports: seq<Account>

    ghost function View(): Ui
      reads this
    {
      Ui(username, inPhone, state, callId, incoming, addTarget, callsWith, viewports)
    }

    /** A model has a call ID exactly while it is in or placing a call. */
    ghost predicate Valid()
      reads this, calls, calls.reg
    {
      calls.Valid() && (callId == None <==> state == CallIdle)
    }

    constructor (table: CS.Calls, session: SessionId, user: Account)
      requires table.Valid()
      ensures Valid() && calls == table && sid == session && View() == LobbyUi(user).(inPhone := true)
    {
      calls, sid, username, inPhone, state := table, session, user, true, CallIdle;
      callId, incoming, addTarget, callsWith, viewports := None, None, None, [], [user];
    }

    method GoIdle()
      modifies this
      ensures View() == Protocol.GoIdle(old(View()))
    {
      state, callId, callsWith, viewports, incoming := CallIdle, None, [], [username], None;
    }

    method DoHangup()
      requires Valid()
      modifies this, calls, calls.reg
      ensures Valid() && (View(), calls.View()) == HangupCommand(old(View()), old(calls.View()), sid)
    {
      if state != CallIdle { calls.Hangup(callId.value, sid); }
      GoIdle();
    }

    method DoExit()
      requires Valid()
      modifies this, calls, calls.reg
      ensures Valid() && View() == LobbyUi(username)
      ensures calls.View() == HangupCommand(old(View()), old(calls.View()), sid).1
    {
      hide Hangup, Sound, Agree;
      if state != CallIdle { calls.Hangup(callId.value, sid); }
      inPhone, state, callId, incoming, addTarget, callsWith, viewports := false, CallIdle, None, None, None, [], [username];
    }

    method CancelPendingAdd()
      requires Valid()
      modifies this, calls, calls.reg
      ensures Valid() && (View(), calls.View()) == CancelCommand(old(View()), old(calls.View()))
    {
      if addTarget == None || callId == None { return; }
      var target := addTarget.value;
      addTarget := None;
      calls.CancelAdd(callId.value, target, username);
    }

    method DoDial(target: Account, id: CallId)
      requires Valid() && inPhone && Fresh(calls.View(), id)
      modifies this, calls, calls.reg
      ensures Valid() && (View(), calls.View()) == DialCommand(old(View()), old(calls.View()), sid, id, target)
    {
      hide Dial, AddCommand, Sound, Agree;
      if target == "" { return; }
      if state == CallActive {
        DoAddToCall(target);
        return;
      }
      if state != CallIdle { return; }
      var err := calls.Dial(id, sid, username, target);
      if err != None { return; }
      callId, state, callsWith, viewports := Some(id), CallPending, [target], viewports + [target];
    }

    method DoAddToCall(target: Account)
      requires Valid()
      modifies this, calls, calls.reg
      ensures Valid() && (View(), calls.View()) == AddCommand(old(View()), old(calls.View()), target)
    {
      hide Add, Sound, Agree;
      if target == "" || state != CallActive { return; }
      var err := calls.Add(callId.value, username, target);
      if err != None { return; }
      addTarget := Some(target);
    }

    method DoAnswer()
      requires Valid() && inPhone
      modifies this, calls, calls.reg
      ensures (forall id :: id in old(calls.calls) ==> old(calls.calls)[id].participants != [])
      ensures Valid() && (View(), calls.View()) == AnswerCommand(old(View()), old(calls.View()), sid)
    {
      hide AnswerDial, AnswerAdd, OneRing, ChansExact, CallShape;
      NobodyEmpty(calls.View());
      if incoming == None { return; }
      var id := incoming.value;
      var err := calls.Answer(id, sid, username);
      if err != None {
        incoming := None;
        return;
      }
      callId, state, incoming := Some(id), CallActive, None;
      ShowEveryone(if id in calls.calls then calls.calls[id].participants else []);
    }

    /** A viewport for each participant who is not this account, its own first. */
    method ShowEveryone(all: seq<Participant>)
      modifies this`callsWith, this`viewports
      ensures callsWith == NotNamed(Names(all), username) && viewports == [username] + callsWith
    {
      callsWith, viewports := [], [username];
      for i := 0 to |all|
        invariant callsWith == NotNamed(Names(all)[..i], username) && viewports == [username] + callsWith
      {
        assert Names(all)[..i + 1] == Names(all)[..i] + [all[i].username];
        NotNamedAppend(Names(all)[..i], all[i].username, username);
        if all[i].username != username {
          callsWith, viewports := callsWith + [all[i].username], viewports + [all[i].username];
        }
      }
      assert Names(all)[..|all|] == Names(all);
    }

    method DoReject()
      requires Valid() && inPhone
      modifies this, calls, calls.reg
      ensures Valid() && (View(), calls.View()) == RejectCommand(old(View()), old(calls.View()))
    {
      if incoming == None { return; }
      var id := incoming.value;
      incoming := None;
      var err := calls.Reject(id, username);
    }

    /** Those in the list who are not `name`, in order. */
    method Without(names: seq<Account>, name: Account) returns (rest: seq<Account>)
      ensures rest == NotNamed(names, name)
    {
      rest := [];
      for i := 0 to |names|
        invariant rest == NotNamed(names[..i], name)
      {
        assert names[..i + 1] == names[..i] + [names[i]];
        NotNamedAppend(names[..i], names[i], name);
        if names[i] != name { rest := rest + [names[i]]; }
      }
      assert names[..|names|] == names;
    }

    method ClearTarget(callee: Account)
      modifies this
      ensures View() == Protocol.ClearTarget(old(View()), callee)
    {
      if addTarget == Some(callee) { addTarget := None; }
    }

    method Unring(id: CallId)
      modifies this
      ensures View() == Protocol.Unring(old(View()), id)
    {
      if incoming == Some(id) { incoming := None; }
    }

    /** handleRing, while the session is in the lobby. */
    method HandleRing(e: PhoneEvent)
      requires Valid() && !inPhone
      modifies this
      ensures Valid() && calls.View() == old(calls.View()) && View() == Handle(old(View()), e).0
    {
      match e.kind
      case EventRing => incoming := Some(e.callId);
      case EventHangup | EventReject | EventAnswerElsewhere => Unring(e.callId);
      case _ =>
    }

    method HandlePhoneEvent(e: PhoneEvent)
      requires Valid() && inPhone
      modifies this, calls, calls.reg
      ensures Valid() && (View(), calls.View()) == EventHandled(old(View()), old(calls.View()), sid, e)
    {
      match e.kind
      case EventAnswer => HandleAnswer(e);
      case EventHangup => HandleHangup(e);
      case EventReject | EventCalleeGone | EventCalleeUnavailable =>
        if callId != Some(e.callId) { return; }
        if state == CallActive { ClearTarget(e.callee); } else { GoIdle(); }
      case EventAnswerElsewhere => Unring(e.callId);
      case EventRing => if state == CallIdle { incoming := Some(e.callId); }
      case _ =>
    }

    method HandleAnswer(e: PhoneEvent)
      requires Valid() && inPhone && e.kind == EventAnswer
      modifies this
      ensures Valid() && calls.View() == old(calls.View()) && View() == Handle(old(View()), e).0
    {
      if callId != Some(e.callId) { return; }
      if state == CallPending {
        state := CallActive;
      } else if state == CallActive {
        var present := e.callee in viewports;
        if !present {
          callsWith, viewports := callsWith + [e.callee], viewports + [e.callee];
        }
        ClearTarget(e.callee);
      }
    }

    method HandleHangup(e: PhoneEvent)
      requires Valid() && inPhone && e.kind == EventHangup
      modifies this, calls, calls.reg
      ensures Valid() && (View(), calls.View()) == EventHandled(old(View()), old(calls.View()), sid, e)
    {
      if state == CallIdle {
        Unring(e.callId);
        return;
      }
      if callId != Some(e.callId) { return; }
      if state == CallActive {
        if e.callee != "" { return; }
        viewports := Without(viewports, e.caller);
        callsWith := Without(callsWith, e.caller);
        if |callsWith| == 0 {
          calls.Hangup(callId.value, sid);
          GoIdle();
        }
        return;
      }
      incoming := None;
    }
  }

  // ---- The end of a session --------------------------------------------------------------------

  /** The table after the teardown sequence, when the scan of HangupSession meets `pick` first. */
  ghost function TornDownTable(b: Switchboard, sid: SessionId, user: Account, pick: Option<CallId>): Switchboard
    requires Picks(b, sid, pick)
  {
    var b1 := HangupSession(b, sid, pick);
    Reap(b1.(reg := Unregister(b1.reg, sid)), user)
  }

  /** The deferred cleanup of cmd/server/main.go, in its order. */
  method Teardown(calls: CS.Calls, sid: SessionId, user: Account) returns (ghost pick: Option<CallId>)
    requires calls.Valid()
    modifies calls, calls.reg
    ensures calls.Valid() && Picks(old(calls.View()), sid, pick)
    ensures calls.View() == TornDownTable(old(calls.View()), sid, user, pick)
  {
    hide Leave, Reap, Sound, Unregister;
    pick := calls.HangupSession(sid);
    ghost var b := calls.View();
    SoundIgnoresRegistry(b, Unregister(b.reg, sid));
    calls.reg.Unregister(sid);
    calls.ReapUnreachableRings(user);
  }

  /** It is the three teardown steps of the protocol with nothing between. */
  lemma TeardownIsSteps(w: World, sid: SessionId, pick: Option<CallId>)
    requires Acts(w, sid) && Picks(w.board, sid, pick) && sid in w.board.reg.index && w.board.reg.index[sid].username == w.ui[sid].username
    ensures var w' := Apply(Apply(Apply(w, TeardownHangup(sid, pick)), TeardownUnregister(sid)), TeardownReap(sid));
            w'.board == TornDownTable(w.board, sid, w.ui[sid].username, pick) && sid !in w'.ui
  {
    hide Leave, Reap, Settle, Unregister;
    if pick.Some? {
      var targets := LeaveTells(w.board, pick.value, sid);
      assert GrownAt(w.board.reg.index[sid], Leave(w.board, pick.value, sid).reg.index[sid], About({EventHangup}, pick.value));
    }
  }
}
