/**
  internal/phone/call.go: the shared table of calls and outstanding conference
  rings, on top of the registry. `Switchboard` is the whole state that the mutex
  `c.mu` guards, together with the registry it sends through; each function says
  what one method does to it.
 */
module CallTable {
  import opened Wrappers
  import opened Ordering
  import opened Registry

  datatype CallState = CallIdle | CallPending | CallActive

  datatype Participant = Participant(username: Account, sid: SessionId, serial: nat)

  datatype Call = Call(state: CallState, caller: Account, callee: Account, participants: seq<Participant>)

  datatype AddKey = AddKey(callId: CallId, callee: Account)

  datatype PendingRing = PendingRing(serial: nat, inviter: Account)

  /**
    A Go channel is named by what it was made for. Two channels made for the same
    purpose differ in their serial number, which is never used twice; a stopRing
    channel is made once for each call ID.
   */
  datatype Chan =
    | DialStop(id: CallId)
    | AddStop(key: AddKey, serial: nat)
    | Incoming(id: CallId, p: Participant)

  /** `panicked`: a channel was closed when it was not open, was sent on when closed, or was made twice. */
  datatype Chans = Chans(serial: nat, made: set<Chan>, open: set<Chan>, panicked: bool)

  datatype Switchboard = Switchboard(
    calls: map<CallId, Call>,
    adds: map<AddKey, PendingRing>,
    chans: Chans,
    reg: Presence)

  const EMPTY_BOARD := Switchboard(map[], map[], Chans(0, {}, {}, false), EMPTY)

  datatype Refusal = ErrSelfCall | ErrNotConnected | ErrBeingRung | ErrBusy

  datatype CallError =
    | ErrNotFound
    | ErrNotActive
    | ErrUnexpectedState
    | ErrAlreadyAnswered
    | Refused(refusal: Refusal)

  function Make(cs: Chans, c: Chan): Chans {
    Chans(cs.serial + 1, cs.made + {c}, cs.open + {c}, cs.panicked || c in cs.made)
  }

  function Close(cs: Chans, c: Chan): Chans {
    cs.(open := cs.open - {c}, panicked := cs.panicked || c !in cs.open)
  }

  function CloseAll(cs: Chans, gone: set<Chan>): Chans {
    cs.(open := cs.open - gone, panicked := cs.panicked || !(gone <= cs.open))
  }

  function SendOn(cs: Chans, gone: set<Chan>): Chans {
    cs.(panicked := cs.panicked || !(gone <= cs.open))
  }

  // ---- Reading the table ---------------------------------------------------

  function Sids(ps: seq<Participant>): (ss: seq<SessionId>)
    ensures |ss| == |ps|
    ensures forall i :: 0 <= i < |ps| ==> ss[i] == ps[i].sid
  {
    if ps == [] then [] else [ps[0].sid] + Sids(ps[1..])
  }

  /** The sessions of the participants not named `username`, in order. */
  function OthersByName(ps: seq<Participant>, username: Account): (ss: seq<SessionId>)
    ensures forall s :: s in ss ==> s in Sids(ps)
  {
    if ps == [] then []
    else (if ps[0].username != username then [ps[0].sid] else []) + OthersByName(ps[1..], username)
  }

  /** The sessions of the participants other than session `sid`, in order. */
  function OthersBySession(ps: seq<Participant>, sid: SessionId): (ss: seq<SessionId>)
    ensures forall s :: s in ss <==> s in Sids(ps) && s != sid
  {
    if ps == [] then []
    else (if ps[0].sid != sid then [ps[0].sid] else []) + OthersBySession(ps[1..], sid)
  }

  /** Index of the first participant with this session, or the length. */
  function Find(ps: seq<Participant>, sid: SessionId): (i: nat)
    ensures i <= |ps|
    ensures forall j :: 0 <= j < i ==> ps[j].sid != sid
    ensures i < |ps| ==> ps[i].sid == sid
  {
    if ps == [] || ps[0].sid == sid then 0 else 1 + Find(ps[1..], sid)
  }

  ghost function CallsOf(b: Switchboard, sid: SessionId): set<CallId> {
    set id | id in b.calls && sid in Sids(b.calls[id].participants)
  }

  ghost predicate InCall(b: Switchboard, sid: SessionId) {
    exists id :: id in b.calls && sid in Sids(b.calls[id].participants)
  }

  ghost function Ringable(b: Switchboard, username: Account): set<SessionId> {
    set sid | sid in SessionsOf(b.reg, username) && !InCall(b, sid)
  }

  ghost predicate DialRings(b: Switchboard, id: CallId, username: Account) {
    id in b.calls && b.calls[id].state == CallPending && b.calls[id].callee == username
  }

  ghost predicate AddRings(b: Switchboard, k: AddKey, username: Account) {
    k in b.adds && k.callee == username
  }

  /** Some ring at this account is outstanding, from a dial or from an ADD. */
  ghost predicate BeingRung(b: Switchboard, username: Account) {
    (exists id :: DialRings(b, id, username)) || (exists k :: AddRings(b, k, username))
  }

  /** The admission check up to and with its reading of Connected. */
  ghost function FirstRefusal(b: Switchboard, caller: Account, callee: Account): Option<Refusal> {
    if EqualFold(caller, callee) then Some(ErrSelfCall)
    else if !Connected(b.reg, callee) then Some(ErrNotConnected)
    else if BeingRung(b, callee) then Some(ErrBeingRung)
    else None
  }

  /** The whole check: last, one session must be free to ring. */
  ghost function Admit(b: Switchboard, caller: Account, callee: Account): Option<Refusal> {
    if FirstRefusal(b, caller, callee) != None then FirstRefusal(b, caller, callee)
    else if Ringable(b, callee) == {} then Some(ErrBusy)
    else None
  }

  // ---- The methods ---------------------------------------------------------

  /** Dial, once admitted: a pending call under the fresh `id`, and the first ring. */
  ghost function PlaceDial(b: Switchboard, id: CallId, sid: SessionId, caller: Account, callee: Account): Switchboard {
    var p := Participant(caller, sid, b.chans.serial);
    var b1 := b.(calls := b.calls[id := Call(CallPending, caller, callee, [p])],
                 chans := Make(Make(b.chans, Incoming(id, p)), DialStop(id)));
    RingAll(b1, callee, PhoneEvent(EventRing, id, caller, callee))
  }

  /** ringLocked: one event to every session of the callee that is in no call now. */
  ghost function RingAll(b: Switchboard, callee: Account, e: PhoneEvent): Switchboard {
    b.(reg := FanOut(b.reg, Ringable(b, callee), e))
  }

  ghost function Dial(b: Switchboard, id: CallId, sid: SessionId, caller: Account, callee: Account)
    : (Switchboard, Option<Refusal>)
  {
    match Admit(b, caller, callee)
    case Some(err) => (b, Some(err))
    case None => (PlaceDial(b, id, sid, caller, callee), None)
  }

  /** Add, once admitted: a ring entry, the first ring, and word of it to the others in the call. */
  ghost function PlaceAdd(b: Switchboard, id: CallId, caller: Account, callee: Account): Switchboard
    requires id in b.calls
  {
    var k, n := AddKey(id, callee), b.chans.serial;
    var b1 := b.(adds := b.adds[k := PendingRing(n, caller)], chans := Make(b.chans, AddStop(k, n)));
    Advise(RingAll(b1, callee, PhoneEvent(EventRing, id, caller, callee)), id, caller, callee)
  }

  ghost function Advise(b: Switchboard, id: CallId, caller: Account, callee: Account): Switchboard
    requires id in b.calls
  {
    b.(reg := SendEach(b.reg, OthersByName(b.calls[id].participants, caller),
                       PhoneEvent(EventRinging, id, caller, callee)))
  }

  ghost function AddError(b: Switchboard, id: CallId, caller: Account, callee: Account): Option<CallError> {
    if id !in b.calls then Some(ErrNotFound)
    else if b.calls[id].state != CallActive then Some(ErrNotActive)
    else match Admit(b, caller, callee)
         case Some(err) => Some(Refused(err))
         case None => None
  }

  ghost function Add(b: Switchboard, id: CallId, caller: Account, callee: Account): (Switchboard, Option<CallError>) {
    match AddError(b, id, caller, callee)
    case Some(err) => (b, Some(err))
    case None => (PlaceAdd(b, id, caller, callee), None)
  }

  ghost function AnswerError(b: Switchboard, id: CallId, user: Account): Option<CallError> {
    if id !in b.calls then Some(ErrNotFound)
    else if b.calls[id].state == CallActive then
      if AddKey(id, user) in b.adds then None else Some(ErrAlreadyAnswered)
    else if b.calls[id].state != CallPending then Some(ErrUnexpectedState)
    else None
  }

  /** A new participant at the end of the call's list, with a channel of its own. */
  ghost function Seat(b: Switchboard, id: CallId, sid: SessionId, user: Account): Switchboard
    requires id in b.calls
  {
    var p := Participant(user, sid, b.chans.serial);
    b.(calls := b.calls[id := b.calls[id].(participants := b.calls[id].participants + [p])],
       chans := Make(b.chans, Incoming(id, p)))
  }

  /** The first answer to a dialled call. */
  ghost function AnswerDial(b: Switchboard, id: CallId, sid: SessionId, user: Account): Switchboard
    requires id in b.calls && b.calls[id].participants != []
  {
    var call := b.calls[id];
    var b1 := Seat(b, id, sid, user);
    b1.(calls := b1.calls[id := b1.calls[id].(state := CallActive)],
        chans := Close(b1.chans, DialStop(id)),
        reg := FanOut(Send(b.reg, call.participants[0].sid, PhoneEvent(EventAnswer, id, call.caller, user)),
                      SessionsOf(b.reg, user) - {sid},
                      PhoneEvent(EventAnswerElsewhere, id, call.caller, user)))
  }

  /** An invited account joins a call that is already active. */
  ghost function AnswerAdd(b: Switchboard, id: CallId, sid: SessionId, user: Account): Switchboard
    requires id in b.calls && AddKey(id, user) in b.adds
  {
    var b1 := DropAdd(b, AddKey(id, user));
    var b2 := Seat(b1, id, sid, user);
    b2.(reg := SendEach(b.reg, OthersBySession(b2.calls[id].participants, sid),
                        PhoneEvent(EventAnswer, id, b.calls[id].caller, user)))
  }

  ghost function DropAdd(b: Switchboard, k: AddKey): Switchboard
    requires k in b.adds
  {
    b.(adds := b.adds - {k}, chans := Close(b.chans, AddStop(k, b.adds[k].serial)))
  }

  ghost function Answer(b: Switchboard, id: CallId, sid: SessionId, user: Account): (Switchboard, Option<CallError>)
    requires id in b.calls && b.calls[id].state == CallPending ==> b.calls[id].participants != []
  {
    match AnswerError(b, id, user)
    case Some(err) => (b, Some(err))
    case None =>
      (if b.calls[id].state == CallActive then AnswerAdd(b, id, sid, user) else AnswerDial(b, id, sid, user), None)
  }

  /** Remove a pending call and tell its caller why. */
  ghost function EndDial(b: Switchboard, id: CallId, e: PhoneEvent): Switchboard
    requires id in b.calls
  {
    var ps := b.calls[id].participants;
    b.(calls := b.calls - {id},
       chans := CloseAll(Close(b.chans, DialStop(id)), Incomings(id, ps)),
       reg := SendEach(b.reg, Sids(ps), e))
  }

  ghost function Incomings(id: CallId, ps: seq<Participant>): set<Chan> {
    set p | p in ps :: Incoming(id, p)
  }

  ghost function Reject(b: Switchboard, id: CallId, user: Account): (Switchboard, Option<CallError>) {
    if id !in b.calls then (b, Some(ErrNotFound))
    else if b.calls[id].state == CallActive then
      var k := AddKey(id, user);
      var b1 := if k in b.adds then DropAdd(b, k) else b;
      (b1.(reg := SendEach(b.reg, Sids(b.calls[id].participants), PhoneEvent(EventReject, id, "", user))), None)
    else if b.calls[id].state != CallPending then (b, Some(ErrUnexpectedState))
    else (EndDial(b, id, PhoneEvent(EventReject, id, b.calls[id].caller, user)), None)
  }

  /** hangupLocked: one session leaves one call, and the last to leave takes its rings along. */
  ghost function Leave(b: Switchboard, id: CallId, sid: SessionId): Switchboard
    requires id in b.calls
  {
    var ps := b.calls[id].participants;
    var i := Find(ps, sid);
    if i == |ps| then b else
      var rest := ps[..i] + ps[i + 1..];
      var b1 := b.(calls := b.calls[id := b.calls[id].(participants := rest)],
                   chans := Close(b.chans, Incoming(id, ps[i])),
                   reg := SendEach(b.reg, Sids(rest), PhoneEvent(EventHangup, id, ps[i].username, "")));
      if rest != [] then b1 else CloseCall(b1, id, ps[i].username)
  }

  /** The call has no participant left: stop its rings, retract them, and drop the call. */
  ghost function CloseCall(b: Switchboard, id: CallId, last: Account): Switchboard
    requires id in b.calls
  {
    var call := b.calls[id];
    var b1 := if call.state != CallPending then b else
                b.(chans := Close(b.chans, DialStop(id)),
                   reg := if call.callee == "" then b.reg
                          else FanOut(b.reg, SessionsOf(b.reg, call.callee),
                                      PhoneEvent(EventHangup, id, last, call.callee)));
    b1.(calls := b.calls - {id},
        adds := map k | k in b.adds && k.callId != id :: b.adds[k],
        chans := CloseAll(b1.chans, AddStops(b, id)),
        reg := Deliver(b1.reg, Retractions(b, id)))
  }

  ghost function AddStops(b: Switchboard, id: CallId): set<Chan> {
    set k | k in b.adds && k.callId == id :: AddStop(k, b.adds[k].serial)
  }

  /** Each session rung for this call by an ADD is told that the inviter gave up. */
  ghost function Retractions(b: Switchboard, id: CallId): map<SessionId, PhoneEvent> {
    map s | s in b.reg.index && AddKey(id, b.reg.index[s].username) in b.adds ::
      var u := b.reg.index[s].username;
      PhoneEvent(EventHangup, id, b.adds[AddKey(id, u)].inviter, u)
  }

  ghost function Hangup(b: Switchboard, id: CallId, sid: SessionId): Switchboard {
    if id in b.calls then Leave(b, id, sid) else b
  }

  /** HangupSession leaves the call that the scan of the table meets first, here `pick`. */
  ghost predicate Picks(b: Switchboard, sid: SessionId, pick: Option<CallId>) {
    match pick
    case None => !InCall(b, sid)
    case Some(id) => id in b.calls && sid in Sids(b.calls[id].participants)
  }

  ghost function HangupSession(b: Switchboard, sid: SessionId, pick: Option<CallId>): Switchboard
    requires Picks(b, sid, pick)
  {
    match pick case None => b case Some(id) => Leave(b, id, sid)
  }

  ghost function ReapEvent(b: Switchboard, id: CallId, ringer: Account, user: Account): PhoneEvent {
    PhoneEvent(if Connected(b.reg, user) then EventCalleeUnavailable else EventCalleeGone, id, ringer, user)
  }

  /** ReapUnreachableRings: with no session left to ring, end the ring aimed at `user`. */
  ghost function Reap(b: Switchboard, user: Account): Switchboard {
    if Ringable(b, user) != {} then b
    else if exists id :: DialRings(b, id, user) then
      var id :| DialRings(b, id, user);
      EndDial(b, id, ReapEvent(b, id, b.calls[id].caller, user))
    else if exists k :: AddRings(b, k, user) then
      var k :| AddRings(b, k, user);
      ReapAdd(b, k)
    else b
  }

  ghost function ReapAdd(b: Switchboard, k: AddKey): Switchboard
    requires k in b.adds
  {
    var e := ReapEvent(b, k.callId, b.adds[k].inviter, k.callee);
    var b1 := DropAdd(b, k);
    if k.callId !in b.calls then b1
    else b1.(reg := SendEach(b.reg, Sids(b.calls[k.callId].participants), e))
  }

  ghost function CancelAdd(b: Switchboard, id: CallId, callee: Account, caller: Account): Switchboard {
    var k, e := AddKey(id, callee), PhoneEvent(EventHangup, id, caller, callee);
    var b1 := if k in b.adds then DropAdd(b, k) else b;
    var reg1 := FanOut(b.reg, SessionsOf(b.reg, callee), e);
    b1.(reg := if id !in b.calls then reg1
               else SendEach(reg1, OthersByName(b.calls[id].participants, caller), e))
  }

  /** BroadcastChar sends on the channel of every participant not named `sender`. */
  ghost function Broadcast(b: Switchboard, id: CallId, sender: Account): Switchboard {
    if id !in b.calls then b
    else b.(chans := SendOn(b.chans, set p | p in b.calls[id].participants && p.username != sender :: Incoming(id, p)))
  }

  /** A ring goroutine that is past its select tests only that the call still exists. */
  ghost function Tick(b: Switchboard, id: CallId, caller: Account, callee: Account, isAdd: bool): Switchboard {
    if id !in b.calls then b else
      var b1 := RingAll(b, callee, PhoneEvent(EventRing, id, caller, callee));
      if isAdd then Advise(b1, id, caller, callee) else b1
  }
}
