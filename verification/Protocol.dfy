/**
  The PHONE protocol as a state machine: the call table and registry, the model
  each session's program runs (internal/phone/app.go, and internal/lobby/model.go
  while no app is open), and the teardown sequence of cmd/server/main.go. A step
  is one method call under its lock, one key or command, one event consumed, one
  ring tick, or one of the three teardown actions. A step that is not possible in
  a state leaves it unchanged, so every sequence of steps is a run.
 */
module Protocol {
  import opened Wrappers
  import opened Registry
  import opened CallTable

  // ---- One session's program -----------------------------------------------

  /** `inPhone` is false in the lobby, where `incoming` is the lobby's pending call ID. */
  datatype Ui = Ui(
    username: Account,
    inPhone: bool,
    state: CallState,
    callId: Option<CallId>,
    incoming: Option<CallId>,
    addTarget: Option<Account>,
    callsWith: seq<Account>,
    viewports: seq<Account>)

  function LobbyUi(username: Account): Ui {
    Ui(username, false, CallIdle, None, None, None, [], [username])
  }

  function GoIdle(u: Ui): Ui {
    u.(state := CallIdle, callId := None, incoming := None, callsWith := [], viewports := [u.username])
  }

  /** The model after a successful Dial: a new one from the lobby, the same one inside PHONE. */
  function Dialed(u: Ui, id: CallId, target: Account): Ui {
    if u.inPhone then
      u.(state := CallPending, callId := Some(id), callsWith := [target], viewports := u.viewports + [target])
    else
      Ui(u.username, true, CallPending, Some(id), None, None, [target], [u.username, target])
  }

  function NotNamed(names: seq<Account>, name: Account): seq<Account> {
    if names == [] then []
    else (if names[0] != name then [names[0]] else []) + NotNamed(names[1..], name)
  }

  /** The model after a successful Answer, given everyone in the call by name. */
  function Answered(u: Ui, id: CallId, everyone: seq<Account>): Ui {
    var others := NotNamed(everyone, u.username);
    Ui(u.username, true, CallActive, Some(id), None, if u.inPhone then u.addTarget else None,
       others, [u.username] + others)
  }

  /** A failed Answer clears the ring inside PHONE; the lobby's command handler cannot. */
  function AnswerFailed(u: Ui): Ui {
    if u.inPhone then u.(incoming := None) else u
  }

  function Unring(u: Ui, id: CallId): Ui {
    if u.incoming == Some(id) then u.(incoming := None) else u
  }

  function ClearTarget(u: Ui, callee: Account): Ui {
    if u.addTarget == Some(callee) then u.(addTarget := None) else u
  }

  function HandleInLobby(u: Ui, e: PhoneEvent): Ui {
    match e.kind
    case EventRing => u.(incoming := Some(e.callId))
    case EventHangup | EventReject | EventAnswerElsewhere => Unring(u, e.callId)
    case _ => u
  }

  /** handlePhoneEvent: the new model, and whether it also hangs up its call. */
  function Handle(u: Ui, e: PhoneEvent): (Ui, bool) {
    if !u.inPhone then (HandleInLobby(u, e), false) else
      match e.kind
      case EventAnswer =>
        if u.callId != Some(e.callId) then (u, false)
        else if u.state == CallPending then (u.(state := CallActive), false)
        else if u.state == CallActive then
          var u1 := if e.callee in u.viewports then u
                    else u.(callsWith := u.callsWith + [e.callee], viewports := u.viewports + [e.callee]);
          (ClearTarget(u1, e.callee), false)
        else (u, false)
      case EventHangup =>
        if u.state == CallIdle then (Unring(u, e.callId), false)
        else if u.callId != Some(e.callId) then (u, false)
        else if u.state == CallPending then (u.(incoming := None), false)
        else if e.callee != "" then (u, false)
        else
          var u1 := u.(callsWith := NotNamed(u.callsWith, e.caller), viewports := NotNamed(u.viewports, e.caller));
          if u1.callsWith == [] then (GoIdle(u1), true) else (u1, false)
      case EventReject | EventCalleeGone | EventCalleeUnavailable =>
        if u.callId != Some(e.callId) then (u, false)
        else if u.state == CallActive then (ClearTarget(u, e.callee), false)
        else (GoIdle(u), false)
      case EventAnswerElsewhere => (Unring(u, e.callId), false)
      case EventRing => (if u.state == CallIdle then u.(incoming := Some(e.callId)) else u, false)
      case _ => (u, false)
  }

  // ---- The world -------------------------------------------------------------

  /**
    A Dial or Add that holds the lock of the call table. `CheckGate` has read that the
    callee is connected, but not yet which of its sessions are free; `into` is the call of
    an Add. The other two have passed admission.
   */
  datatype Gate =
    | CheckGate(sid: SessionId, callee: Account, into: Option<CallId>)
    | DialGate(sid: SessionId, callee: Account)
    | AddGate(sid: SessionId, id: CallId, callee: Account)

  datatype Outcome = Outstanding | Accepted | Declined | Cancelled | Reaped | TornDown

  /** History of one admitted ring, kept under its stop channel. */
  datatype RingRecord = RingRecord(id: CallId, caller: Account, callee: Account, isAdd: bool, outcome: Outcome)

  /**
    `ui` holds the sessions whose program runs, `leaving` those past
    HangupSession and `reaping` those past Unregister. The last three fields are
    history: every ring admitted, how many participants have left each call, and
    the sessions that ran ANSWER while in a call.
   */
  datatype World = World(
    board: Switchboard,
    ui: map<SessionId, Ui>,
    leaving: set<SessionId>,
    reaping: map<SessionId, Account>,
    gate: Option<Gate>,
    rings: map<Chan, RingRecord>,
    departed: map<CallId, nat>,
    misused: set<SessionId>)

  const START := World(EMPTY_BOARD, map[], {}, map[], None, map[], map[], {})

  datatype Step =
    | Connect(username: Account, role: string, adminVisible: bool)
    | TeardownHangup(sid: SessionId, pick: Option<CallId>)
    | TeardownUnregister(sid: SessionId)
    | TeardownReap(sid: SessionId)
    | EnterPhone(sid: SessionId)
    | Ring(sid: SessionId, target: Account)
    | Recheck
    | Commit(id: CallId)
    | AnswerKey(sid: SessionId)
    | RejectKey(sid: SessionId)
    | HangupKey(sid: SessionId)
    | ExitKey(sid: SessionId)
    | CancelKey(sid: SessionId)
    | TypeKey(sid: SessionId)
    | Consume(sid: SessionId)
    | RingTick(stop: Chan)
    | NotifyAdmins(event: PhoneEvent)

  ghost function Apply(w: World, step: Step): World {
    match step
    case Connect(username, role, visible) => ApplyConnect(w, username, role, visible)
    case TeardownHangup(sid, pick) => ApplyTeardownHangup(w, sid, pick)
    case TeardownUnregister(sid) => ApplyUnregister(w, sid)
    case TeardownReap(sid) => ApplyReap(w, sid)
    case EnterPhone(sid) => ApplyEnter(w, sid)
    case Ring(sid, target) => ApplyRing(w, sid, target)
    case Recheck => ApplyRecheck(w)
    case Commit(id) => ApplyCommit(w, id)
    case AnswerKey(sid) => ApplyAnswer(w, sid)
    case RejectKey(sid) => ApplyReject(w, sid)
    case HangupKey(sid) => ApplyHangup(w, sid)
    case ExitKey(sid) => ApplyExit(w, sid)
    case CancelKey(sid) => ApplyCancel(w, sid)
    case TypeKey(sid) => ApplyType(w, sid)
    case Consume(sid) => ApplyConsume(w, sid)
    case RingTick(stop) => ApplyTick(w, stop)
    case NotifyAdmins(e) => ApplyNotify(w, e)
  }

  ghost function Run(w: World, steps: seq<Step>): World
    decreases steps
  {
    if steps == [] then w else Run(Apply(w, steps[0]), steps[1..])
  }

  /** The session's program runs and no Dial or Add holds the lock. */
  predicate Acts(w: World, sid: SessionId) {
    sid in w.ui && w.gate == None
  }

  function SetUi(w: World, sid: SessionId, u: Ui): World {
    w.(ui := w.ui[sid := u])
  }

  /** Every ring whose stop channel `board` no longer holds open has met this outcome. */
  function Settle(rings: map<Chan, RingRecord>, board: Switchboard, outcome: Outcome): map<Chan, RingRecord> {
    map c | c in rings ::
      if rings[c].outcome == Outstanding && c !in board.chans.open then rings[c].(outcome := outcome) else rings[c]
  }

  function SetBoard(w: World, board: Switchboard, outcome: Outcome): World {
    w.(board := board, rings := Settle(w.rings, board, outcome))
  }

  ghost function ApplyConnect(w: World, username: Account, role: string, visible: bool): World {
    w.(board := w.board.(reg := Register(w.board.reg, username, role, visible, "LOBBY")),
       ui := w.ui[w.board.reg.nextId + 1 := LobbyUi(username)])
  }

  function Left(departed: map<CallId, nat>, id: CallId): nat {
    if id in departed then departed[id] else 0
  }

  /** hangupLocked, with the departure counted. */
  ghost function LeaveCall(w: World, id: CallId, sid: SessionId, outcome: Outcome): World {
    if id in w.board.calls && sid in Sids(w.board.calls[id].participants) then
      SetBoard(w, Leave(w.board, id, sid), outcome).(departed := w.departed[id := Left(w.departed, id) + 1])
    else w
  }

  ghost function ApplyTeardownHangup(w: World, sid: SessionId, pick: Option<CallId>): World {
    if !Acts(w, sid) || !Picks(w.board, sid, pick) then w else
      var w1 := match pick case None => w case Some(id) => LeaveCall(w, id, sid, TornDown);
      w1.(ui := w1.ui - {sid}, leaving := w1.leaving + {sid})
  }

  ghost function ApplyUnregister(w: World, sid: SessionId): World {
    if sid !in w.leaving || sid !in w.board.reg.index then w else
      w.(board := w.board.(reg := Unregister(w.board.reg, sid)),
         leaving := w.leaving - {sid},
         reaping := w.reaping[sid := w.board.reg.index[sid].username])
  }

  ghost function ApplyReap(w: World, sid: SessionId): World {
    if sid !in w.reaping || w.gate != None then w else
      SetBoard(w, Reap(w.board, w.reaping[sid]), Reaped).(reaping := w.reaping - {sid})
  }

  function ApplyEnter(w: World, sid: SessionId): World {
    if !Acts(w, sid) || w.ui[sid].inPhone then w
    else SetUi(w, sid, LobbyUi(w.ui[sid].username).(inPhone := true))
  }

  /** DIAL or ADD: a dial from an idle session, an invitation from one in a call, up to the first reading of the registry. */
  ghost function ApplyRing(w: World, sid: SessionId, target: Account): World {
    if !Acts(w, sid) || target == "" || FirstRefusal(w.board, w.ui[sid].username, target) != None then w else
      var u := w.ui[sid];
      if u.state == CallIdle then w.(gate := Some(CheckGate(sid, target, None)))
      else if u.state == CallActive && u.callId.Some? && u.callId.value in w.board.calls
              && w.board.calls[u.callId.value].state == CallActive then
        w.(gate := Some(CheckGate(sid, target, u.callId)))
      else w
  }

  /** The second reading of the registry, which decides: is a session of the callee free to ring? */
  ghost function ApplyRecheck(w: World): World {
    match w.gate
    case Some(CheckGate(sid, callee, into)) =>
      if Ringable(w.board, callee) == {} then w.(gate := None)
      else w.(gate := Some(if into.Some? then AddGate(sid, into.value, callee) else DialGate(sid, callee)))
    case _ => w
  }

  /** The rest of the admitted Dial or Add; `id` is the call ID a Dial mints. */
  ghost function ApplyCommit(w: World, id: CallId): World {
    match w.gate
    case Some(DialGate(sid, callee)) =>
      if sid !in w.ui || DialStop(id) in w.board.chans.made then w else
        var u := w.ui[sid];
        SetUi(w.(board := PlaceDial(w.board, id, sid, u.username, callee),
                 gate := None,
                 rings := w.rings[DialStop(id) := RingRecord(id, u.username, callee, false, Outstanding)]),
              sid, Dialed(u, id, callee))
    case Some(AddGate(sid, call, callee)) =>
      if sid !in w.ui || call !in w.board.calls then w else
        var u := w.ui[sid];
        var stop := AddStop(AddKey(call, callee), w.board.chans.serial);
        SetUi(w.(board := PlaceAdd(w.board, call, u.username, callee),
                 gate := None,
                 rings := w.rings[stop := RingRecord(call, u.username, callee, true, Outstanding)]),
              sid, u.(addTarget := Some(callee)))
    case _ => w
  }

  function Names(ps: seq<Participant>): seq<Account> {
    seq(|ps|, i requires 0 <= i < |ps| => ps[i].username)
  }

  ghost function ApplyAnswer(w: World, sid: SessionId): World {
    if !Acts(w, sid) || w.ui[sid].incoming == None || w.ui[sid].state == CallPending then w else
      var u, id := w.ui[sid], w.ui[sid].incoming.value;
      if id in w.board.calls && w.board.calls[id].participants == [] then w
      else match Answer(w.board, id, sid, u.username)
        case (_, Some(_)) => SetUi(w, sid, AnswerFailed(u))
        case (b, None) =>
          var w1 := SetUi(SetBoard(w, b, Accepted), sid,
                          Answered(u, id, if id in b.calls then Names(b.calls[id].participants) else []));
          if u.state == CallIdle then w1 else w1.(misused := w1.misused + {sid})
  }

  ghost function ApplyReject(w: World, sid: SessionId): World {
    if !Acts(w, sid) || w.ui[sid].incoming == None || w.ui[sid].state == CallPending then w else
      var u, id := w.ui[sid], w.ui[sid].incoming.value;
      SetUi(SetBoard(w, Reject(w.board, id, u.username).0, Declined), sid, AnswerFailed(u))
  }

  ghost function ApplyHangup(w: World, sid: SessionId): World {
    if !Acts(w, sid) || w.ui[sid].callId == None then w else
      SetUi(LeaveCall(w, w.ui[sid].callId.value, sid, Cancelled), sid, GoIdle(w.ui[sid]))
  }

  ghost function ApplyExit(w: World, sid: SessionId): World {
    if !Acts(w, sid) || !w.ui[sid].inPhone then w else
      var w1 := match w.ui[sid].callId case None => w case Some(id) => LeaveCall(w, id, sid, Cancelled);
      SetUi(w1, sid, LobbyUi(w.ui[sid].username))
  }

  ghost function ApplyCancel(w: World, sid: SessionId): World {
    if !Acts(w, sid) || w.ui[sid].state != CallActive || w.ui[sid].addTarget == None || w.ui[sid].callId == None then w else
      var u := w.ui[sid];
      SetUi(SetBoard(w, CancelAdd(w.board, u.callId.value, u.addTarget.value, u.username), Cancelled),
            sid, u.(addTarget := None))
  }

  ghost function ApplyType(w: World, sid: SessionId): World {
    if !Acts(w, sid) || w.ui[sid].callId == None then w
    else w.(board := Broadcast(w.board, w.ui[sid].callId.value, w.ui[sid].username))
  }

  /** The oldest waiting event is handled. Only handling that hangs up needs the lock. */
  ghost function ApplyConsume(w: World, sid: SessionId): World {
    if sid !in w.ui || sid !in w.board.reg.index || w.board.reg.index[sid].notify == [] then w else
      var u := w.ui[sid];
      var (u', hangsUp) := Handle(u, w.board.reg.index[sid].notify[0]);
      if w.gate != None && (hangsUp || w.gate.value.sid == sid) then w else
        var w1 := w.(board := w.board.(reg := Receive(w.board.reg, sid)));
        SetUi(if hangsUp && u.callId.Some? then LeaveCall(w1, u.callId.value, sid, Cancelled) else w1, sid, u')
  }

  /** Any ring ever admitted may tick, even one whose stop channel is closed by now. */
  ghost function ApplyTick(w: World, stop: Chan): World {
    if stop !in w.rings || w.gate != None then w else
      var r := w.rings[stop];
      w.(board := Tick(w.board, r.id, r.caller, r.callee, r.isAdd))
  }

  ghost function ApplyNotify(w: World, e: PhoneEvent): World {
    if e.kind != EventAdminNotify then w
    else w.(board := w.board.(reg := FanOut(w.board.reg, AdminSessions(w.board.reg), e)))
  }
}
