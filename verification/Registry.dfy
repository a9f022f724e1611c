/**
  internal/registry/registry.go: who is connected, and one bounded event queue
  for each session. `Presence` is the registry's state as a value, and the functions
  over it say what each method does to that state; the object that does it is in
  module SessionRegistry.
 */
module Registry {
  import opened Wrappers

  type Account = string
  type SessionId = nat
  type CallId = nat

  const QUEUE_CAPACITY := 8

  datatype EventKind =
    | EventRing | EventHangup | EventReject | EventAnswer | EventRinging
    | EventAdminNotify | EventAnswerElsewhere | EventCalleeGone | EventCalleeUnavailable

  datatype PhoneEvent = PhoneEvent(kind: EventKind, callId: CallId, caller: Account, callee: Account)

  datatype Session = Session(username: Account, notify: seq<PhoneEvent>, kick: bool)

  datatype Entry = Entry(role: string, adminVisible: bool, currentApp: string, sessions: set<SessionId>)

  /**
    `done` holds the sessions whose done channel is open, `closedTwice` records
    that one was closed when it was not, and `lost` is a history of the sessions
    that had an event discarded because their queue was full.
   */
  datatype Presence = Presence(
    accounts: map<Account, Entry>,
    index: map<SessionId, Session>,
    nextId: nat,
    done: set<SessionId>,
    closedTwice: bool,
    lost: set<SessionId>)

  const EMPTY := Presence(map[], map[], 0, {}, false, {})

  function SessionsOf(r: Presence, username: Account): set<SessionId> {
    if username in r.accounts then r.accounts[username].sessions else {}
  }

  predicate Connected(r: Presence, username: Account) {
    username in r.accounts && r.accounts[username].sessions != {}
  }

  predicate Full(r: Presence, sid: SessionId) {
    sid in r.index && |r.index[sid].notify| >= QUEUE_CAPACITY
  }

  function Push(s: Session, e: PhoneEvent): Session {
    if |s.notify| < QUEUE_CAPACITY then s.(notify := s.notify + [e]) else s
  }

  /** One event to each session of `m`, discarded where the queue is full. */
  ghost function Deliver(r: Presence, m: map<SessionId, PhoneEvent>): Presence {
    r.(index := map sid | sid in r.index :: if sid in m then Push(r.index[sid], m[sid]) else r.index[sid],
       lost := r.lost + set sid | sid in m && Full(r, sid))
  }

  ghost function FanOut(r: Presence, sids: set<SessionId>, e: PhoneEvent): Presence {
    Deliver(r, ToAll(sids, e))
  }

  function ToAll(sids: set<SessionId>, e: PhoneEvent): map<SessionId, PhoneEvent> {
    map sid | sid in sids :: e
  }

  ghost function Send(r: Presence, sid: SessionId, e: PhoneEvent): Presence {
    Deliver(r, map[sid := e])
  }

  ghost function SendEach(r: Presence, sids: seq<SessionId>, e: PhoneEvent): Presence
    decreases sids
  {
    if sids == [] then r else SendEach(Send(r, sids[0], e), sids[1..], e)
  }

  ghost function Receive(r: Presence, sid: SessionId): Presence
    requires sid in r.index && r.index[sid].notify != []
  {
    r.(index := r.index[sid := r.index[sid].(notify := r.index[sid].notify[1..])])
  }

  ghost function Register(r: Presence, username: Account, role: string, adminVisible: bool, app: string): Presence {
    var sid := r.nextId + 1;
    var e := if username in r.accounts then r.accounts[username] else Entry(role, adminVisible, app, {});
    r.(nextId := sid,
       accounts := r.accounts[username := e.(sessions := e.sessions + {sid})],
       index := r.index[sid := Session(username, [], false)],
       done := r.done + {sid})
  }

  ghost function Unregister(r: Presence, sid: SessionId): Presence {
    if sid !in r.index then r else
      var u := r.index[sid].username;
      var r1 := r.(index := r.index - {sid}, done := r.done - {sid},
                   closedTwice := r.closedTwice || sid !in r.done);
      if u !in r.accounts then r1 else
        var rest := r.accounts[u].sessions - {sid};
        r1.(accounts := if rest == {} then r.accounts - {u}
                        else r.accounts[u := r.accounts[u].(sessions := rest)])
  }

  /** Every session of an admin account. */
  ghost function AdminSessions(r: Presence): set<SessionId> {
    set u, sid | u in r.accounts && r.accounts[u].role == "admin" && sid in r.accounts[u].sessions :: sid
  }

  // ---- What every step keeps ----------------------------------------------

  /**
    The two indexes describe one relation, no account entry is empty, every live
    ID was minted by the counter, and exactly the live sessions have an open done
    channel.
   */
  ghost predicate Agree(r: Presence) {
    && (forall sid :: sid in r.index ==>
          && r.index[sid].username in r.accounts
          && sid in r.accounts[r.index[sid].username].sessions
          && 1 <= sid <= r.nextId
          && |r.index[sid].notify| <= QUEUE_CAPACITY)
    && (forall u, sid :: u in r.accounts && sid in r.accounts[u].sessions ==>
          sid in r.index && r.index[sid].username == u)
    && (forall u :: u in r.accounts ==> r.accounts[u].sessions != {})
    && r.done == r.index.Keys
    && !r.closedTwice
  }

  lemma RegisterAgrees(r: Presence, username: Account, role: string, adminVisible: bool, app: string)
    requires Agree(r)
    ensures Agree(Register(r, username, role, adminVisible, app))
    ensures r.nextId + 1 !in r.index
    ensures forall u :: SessionsOf(Register(r, username, role, adminVisible, app), u)
                     == SessionsOf(r, u) + (if u == username then {r.nextId + 1} else {})
  {
    var r', sid := Register(r, username, role, adminVisible, app), r.nextId + 1;
    RegisterSessions(r, username, role, adminVisible, app);
    assert r'.index == r.index[sid := Session(username, [], false)] && r'.done == r.done + {sid};
    assert r'.accounts.Keys == r.accounts.Keys + {username} && r'.nextId == sid && !r'.closedTwice;
    hide Register;
    forall u, s | s in SessionsOf(r', u) ensures s in r'.index && r'.index[s].username == u {
      if s != sid { assert s in SessionsOf(r, u); }
    }
    AgreeBySessions(r');
  }

  lemma RegisterSessions(r: Presence, username: Account, role: string, adminVisible: bool, app: string)
    ensures forall u :: SessionsOf(Register(r, username, role, adminVisible, app), u)
                     == SessionsOf(r, u) + (if u == username then {r.nextId + 1} else {})
  {
  }

  /** `Agree`, told by `SessionsOf`. */
  lemma AgreeBySessions(r: Presence)
    requires forall sid :: sid in r.index ==>
               sid in SessionsOf(r, r.index[sid].username) && 1 <= sid <= r.nextId && |r.index[sid].notify| <= QUEUE_CAPACITY
    requires forall u, sid :: sid in SessionsOf(r, u) ==> sid in r.index && r.index[sid].username == u
    requires forall u :: u in r.accounts ==> SessionsOf(r, u) != {}
    requires r.done == r.index.Keys && !r.closedTwice
    ensures Agree(r)
  {
    forall u, sid | u in r.accounts && sid in r.accounts[u].sessions ensures sid in r.index && r.index[sid].username == u {
      assert sid in SessionsOf(r, u);
    }
    forall u | u in r.accounts ensures r.accounts[u].sessions != {} { assert SessionsOf(r, u) != {}; }
  }

  lemma UnregisterAgrees(r: Presence, sid: SessionId)
    requires Agree(r)
    ensures Agree(Unregister(r, sid))
    ensures forall u :: SessionsOf(Unregister(r, sid), u) == SessionsOf(r, u) - {sid}
  {
    if sid in r.index {
      var r' := Unregister(r, sid);
      UnregisterSessions(r, sid);
      assert r'.index == r.index - {sid} && r'.done == r.done - {sid} && r'.nextId == r.nextId && !r'.closedTwice;
      UnregisterAccounts(r, sid);
      hide Unregister;
      forall s | s in r'.index ensures s in SessionsOf(r', r'.index[s].username) { }
      AgreeBySessions(r');
    }
  }

  lemma UnregisterSessions(r: Presence, sid: SessionId)
    requires Agree(r)
    ensures forall u :: SessionsOf(Unregister(r, sid), u) == SessionsOf(r, u) - {sid}
  {
    if sid in r.index {
      forall u ensures SessionsOf(Unregister(r, sid), u) == SessionsOf(r, u) - {sid} {
        assert u != r.index[sid].username ==> sid !in SessionsOf(r, u);
      }
    }
  }

  lemma UnregisterAccounts(r: Presence, sid: SessionId)
    requires Agree(r)
    ensures var r' := Unregister(r, sid); forall u :: u in r'.accounts ==> SessionsOf(r', u) != {}
  {
  }

  // ---- What each method does to one session or account ---------------------------------------

  /** A login opens one session under a new ID; the account keeps what its first login said of it. */
  lemma RegisterMeans(r: Presence, username: Account, role: string, adminVisible: bool, app: string, u: Account)
    ensures var r', sid := Register(r, username, role, adminVisible, app), r.nextId + 1;
            && r'.nextId == sid && r'.index == r.index[sid := Session(username, [], false)] && r'.done == r.done + {sid} && r'.lost == r.lost
            && (u in r'.accounts <==> u in r.accounts || u == username)
            && (u in r.accounts ==> r'.accounts[u] == if u == username then r.accounts[u].(sessions := r.accounts[u].sessions + {sid})
                                                      else r.accounts[u])
            && (username !in r.accounts ==> r'.accounts[username] == Entry(role, adminVisible, app, {sid}))
  {
  }

  /** A logout closes that session, and its account goes with the last one. */
  lemma UnregisterMeans(r: Presence, sid: SessionId, u: Account)
    requires Agree(r) && sid in r.index
    ensures var r' := Unregister(r, sid);
            && r'.index == r.index - {sid} && r'.done == r.done - {sid} && r'.nextId == r.nextId && r'.lost == r.lost
            && (u in r'.accounts <==> u in r.accounts && !(r.index[sid].username == u && r.accounts[u].sessions == {sid}))
            && (u in r'.accounts ==> r'.accounts[u] == r.accounts[u].(sessions := r.accounts[u].sessions - {sid}))
  {
    if u in r.accounts && r.index[sid].username != u { assert r.accounts[u].sessions - {sid} == r.accounts[u].sessions; }
  }

  /** An event waits behind those that came before it, unless eight are waiting: then it is lost. */
  lemma DeliverMeans(r: Presence, m: map<SessionId, PhoneEvent>, s: SessionId)
    ensures var r' := Deliver(r, m);
            && r'.accounts == r.accounts && r'.done == r.done && r'.nextId == r.nextId
            && (s in r'.index <==> s in r.index)
            && (s in r.index ==>
                  r'.index[s] == if s in m && |r.index[s].notify| < 8 then r.index[s].(notify := r.index[s].notify + [m[s]]) else r.index[s])
            && (s in r'.lost <==> s in r.lost || (s in m && s in r.index && |r.index[s].notify| >= 8))
  {
  }

  /** The sessions that an admin's notice reaches. */
  lemma AdminsMeans(r: Presence, s: SessionId)
    requires Agree(r)
    ensures s in AdminSessions(r) <==> s in r.index && r.accounts[r.index[s].username].role == "admin"
  {
    if s in r.index && r.accounts[r.index[s].username].role == "admin" {
      var u := r.index[s].username;
      assert u in r.accounts && s in r.accounts[u].sessions;
    }
  }

  // ---- What a delivery can change ------------------------------------------

  /**
    From `r` to `r'` nothing happened but deliveries: each event added is in
    `events`, each session that got or lost one is in `targets`, and a target
    that lost nothing really was handed something.
   */
  ghost predicate Grown(r: Presence, r': Presence, events: iset<PhoneEvent>, targets: set<SessionId>) {
    && r'.accounts == r.accounts && r'.nextId == r.nextId
    && r'.done == r.done && r'.closedTwice == r.closedTwice
    && r'.index.Keys == r.index.Keys
    && r.lost <= r'.lost <= r.lost + targets
    && (forall s :: s in r.index ==> GrownAt(r.index[s], r'.index[s], events))
    && (forall s :: s in r.index && s !in targets ==> r'.index[s] == r.index[s])
    && (forall s :: s in r.index && s in targets && s !in r'.lost ==>
          |r.index[s].notify| < |r'.index[s].notify|)
  }

  ghost predicate GrownAt(s: Session, s': Session, events: iset<PhoneEvent>) {
    && s'.username == s.username && s'.kick == s.kick
    && s.notify <= s'.notify
    && (|s.notify| <= QUEUE_CAPACITY ==> |s'.notify| <= QUEUE_CAPACITY)
    && (forall i :: |s.notify| <= i < |s'.notify| ==> s'.notify[i] in events)
  }

  lemma DeliverGrows(r: Presence, m: map<SessionId, PhoneEvent>, events: iset<PhoneEvent>)
    requires forall s :: s in m ==> m[s] in events
    ensures Grown(r, Deliver(r, m), events, m.Keys)
  {
  }

  lemma FanOutGrows(r: Presence, sids: set<SessionId>, e: PhoneEvent, events: iset<PhoneEvent>)
    requires e in events
    ensures Grown(r, FanOut(r, sids, e), events, sids)
  {
    assert ToAll(sids, e).Keys == sids;
    DeliverGrows(r, ToAll(sids, e), events);
  }

  lemma GrownTwice(r: Presence, r1: Presence, r2: Presence, events: iset<PhoneEvent>,
                   first: set<SessionId>, second: set<SessionId>)
    requires Grown(r, r1, events, first) && Grown(r1, r2, events, second)
    ensures Grown(r, r2, events, first + second)
  {
    forall s | s in r.index
      ensures GrownAt(r.index[s], r2.index[s], events)
      ensures s in first + second && s !in r2.lost ==> |r.index[s].notify| < |r2.index[s].notify|
    {
      assert GrownAt(r.index[s], r1.index[s], events) && GrownAt(r1.index[s], r2.index[s], events);
    }
  }

  lemma SendGrows(r: Presence, sid: SessionId, e: PhoneEvent, events: iset<PhoneEvent>)
    requires e in events
    ensures Grown(r, Send(r, sid, e), events, {sid})
  {
    assert map[sid := e].Keys == {sid};
    DeliverGrows(r, map[sid := e], events);
  }

  lemma GrownNothing(r: Presence, events: iset<PhoneEvent>)
    ensures Grown(r, r, events, {})
  {
  }

  function Members(sids: seq<SessionId>): (ms: set<SessionId>) {
    set s | s in sids
  }

  lemma GrownWiden(r: Presence, r': Presence, events: iset<PhoneEvent>, more: iset<PhoneEvent>, targets: set<SessionId>)
    requires Grown(r, r', events, targets) && events <= more
    ensures Grown(r, r', more, targets)
  {
    forall s | s in r.index ensures GrownAt(r.index[s], r'.index[s], more) {
      assert GrownAt(r.index[s], r'.index[s], events);
    }
  }

  lemma {:induction false} SendEachGrows(r: Presence, sids: seq<SessionId>, e: PhoneEvent, events: iset<PhoneEvent>)
    requires e in events
    ensures Grown(r, SendEach(r, sids, e), events, Members(sids))
    decreases sids
  {
    if sids == [] {
      GrownNothing(r, events);
    } else {
      var r1 := Send(r, sids[0], e);
      SendGrows(r, sids[0], e, events);
      SendEachGrows(r1, sids[1..], e, events);
      assert {sids[0]} + Members(sids[1..]) == Members(sids);
      GrownTwice(r, r1, SendEach(r1, sids[1..], e), events, {sids[0]}, Members(sids[1..]));
    }
  }

  /** Deliveries never disturb who is connected. */
  lemma GrownAgrees(r: Presence, r': Presence, events: iset<PhoneEvent>, targets: set<SessionId>)
    requires Agree(r) && Grown(r, r', events, targets)
    ensures Agree(r')
    ensures forall u :: SessionsOf(r', u) == SessionsOf(r, u) && Connected(r', u) == Connected(r, u)
  {
    forall s | s in r'.index ensures r'.index[s].username == r.index[s].username && |r'.index[s].notify| <= QUEUE_CAPACITY {
      assert GrownAt(r.index[s], r'.index[s], events);
    }
  }
}
