/**
  Whom the screens show, over whole runs: each step of anyone keeps every untainted
  screen right, but for two kinds of step, and these are told apart by what stands in
  the table and the queue before them.
 */
module ScreenRuns {
  import opened Wrappers
  import opened Registry
  import opened CallTable
  import opened TableInvariant
  import opened TableMotion
  import opened TableLaws
  import opened Protocol
  import opened WorldInvariant
  import opened Agreement
  import opened Reachability
  import opened Notices
  import opened ScreenLaws
  import opened CallFacts
  import opened ScreenNames

  // ---- Events that reach a queue ---------------------------------------------------------------

  /** The queue took this one event. */
  ghost predicate Took(r: Presence, r': Presence, s: SessionId, e: PhoneEvent) {
    s in r.index && s in r'.index && r'.index[s].notify == r.index[s].notify + [e]
  }

  /** One event sent among others to a session that loses nothing is the last in its queue. */
  lemma SentOnce(r: Presence, sids: seq<SessionId>, e: PhoneEvent, s: SessionId)
    requires s in r.index && multiset(sids)[s] == 1 && s !in SendEach(r, sids, e).lost
    ensures Took(r, SendEach(r, sids, e), s, e)
  {
    hide SendEach;
    SendEachHeard(r, sids, e, s);
    SendEachGrows(r, sids, e, iset{e});
    assert s in sids;
    OnePush(r.index[s].notify, e);
  }

  lemma TookIs(r: Presence, r': Presence, s: SessionId, e: PhoneEvent)
    requires Took(r, r', s, e)
    ensures s in r.index && s in r'.index && r'.index[s].notify == r.index[s].notify + [e]
  {
  }

  lemma OnePush(q: seq<PhoneEvent>, e: PhoneEvent)
    ensures PushAll(q, Times(1, e)) == if |q| < QUEUE_CAPACITY then q + [e] else q
  {
    assert Times(1, e)[1..] == [];
    assert PushAll(q, Times(1, e)) == PushAll(if |q| < QUEUE_CAPACITY then q + [e] else q, []);
  }

  lemma NotOfThisCall(r: Presence, r': Presence, events: iset<PhoneEvent>, targets: set<SessionId>, s: SessionId, id: CallId)
    requires s in r.index && Grown(r, r', events, targets) && (s in targets ==> forall e :: e in events ==> !Naming(e, id))
    ensures s in r'.index && r.index[s].notify <= r'.index[s].notify && NoneNaming(r'.index[s].notify, |r.index[s].notify|, id)
  {
    assert GrownAt(r.index[s], r'.index[s], events);
  }

  // ---- A departure --------------------------------------------------------------------------------

  /** Another session of the leaver's account has a seat in the call too. */
  ghost predicate TwinStays(b: Switchboard, id: CallId, t: SessionId) {
    id in b.calls && exists i :: FirstSeat(b.calls[id].participants, i, t) && Namesake(b.calls[id].participants, i)
  }

  predicate Namesake(ps: seq<Participant>, i: int)
    requires 0 <= i < |ps|
  {
    exists j :: 0 <= j < |ps| && j != i && ps[j].username == ps[i].username
  }

  /** The session waits in an active call that its screen shows, in one seat. */
  lemma SeatOfScreen(w: World, s: SessionId, id: CallId)
    requires Core(w) && AgreedAt(w, s) && !Tainted(w, s) && s in w.ui && w.ui[s].callId == Some(id) && Active(w.board, id)
    ensures SeatOf(w.board, id, s) == Some((CallActive, 1))
  {
    hide Sound, QueuesOk, SeatsOk, RecordsOk, GateOk, Agree, Seats, First;
    assert UiOk(w.board, s, w.ui[s]);
    var b, u := w.board, w.ui[s];
    assert OnlyIn(b, s, id, CallPending) ==> SeatOf(b, id, s) == Some((CallPending, 1));
  }

  lemma OthersWithout(b: Switchboard, b': Switchboard, id: CallId, i: nat, own: Account)
    requires id in b.calls && i < |b.calls[id].participants| && id in b'.calls
    requires var ps := b.calls[id].participants; b'.calls[id].participants == ps[..i] + ps[i + 1..]
    ensures var name := b.calls[id].participants[i].username;
            && (name != own ==> Others(b, id, own) == Others(b', id, own) + {name})
            && (name != own ==> (name in Others(b', id, own) <==> Namesake(b.calls[id].participants, i)))
  {
    var ps := b.calls[id].participants;
    var rest := ps[..i] + ps[i + 1..];
    assert forall p :: p in ps <==> p in rest || p == ps[i] by {
      forall p | p in ps && p != ps[i] ensures p in rest {
        var j :| 0 <= j < |ps| && ps[j] == p;
        assert rest[if j < i then j else j - 1] == p;
      }
      assert ps[i] in ps;
    }
    var name := ps[i].username;
    if name != own {
      if j :| 0 <= j < |ps| && j != i && ps[j].username == name { assert rest[if j < i then j else j - 1] == ps[j]; }
      if p :| p in rest && p.username == name {
        var k :| 0 <= k < |rest| && rest[k] == p;
        var j := if k < i then k else k + 1;
        assert ps[j] == p && j != i;
      }
    }
  }

  lemma FindsSeat(ps: seq<Participant>, t: SessionId)
    requires t in Sids(ps)
    ensures Find(ps, t) < |ps| && FirstSeat(ps, Find(ps, t), t)
  {
    var j :| 0 <= j < |ps| && Sids(ps)[j] == t;
    assert ps[j].sid == t;
  }

  lemma SeatsWithout(ps: seq<Participant>, i: nat, s: SessionId)
    requires i < |ps| && ps[i].sid != s
    ensures multiset(Sids(ps[..i] + ps[i + 1..]))[s] == multiset(Sids(ps))[s]
  {
    hide Sids;
    SidsWithout(ps, i);
  }

  lemma SeatOnce(b: Switchboard, id: CallId, s: SessionId)
    requires SeatOf(b, id, s) == Some((CallActive, 1))
    ensures id in b.calls && multiset(Sids(b.calls[id].participants))[s] == 1
  {
  }

  lemma ScreenIndexed(w: World, s: SessionId)
    requires Core(w) && s in w.ui
    ensures s in w.board.reg.index && w.board.reg.index[s].username == w.ui[s].username
  {
    hide Sound, QueuesOk, SeatsOk, UisOk, RecordsOk, GateOk, Agree;
  }

  lemma ScreenShows(w: World, s: SessionId)
    requires ShownAt(w, s) && !Tainted(w, s) && s in w.ui
    ensures s in w.board.reg.index && Shows(w.board, w.board.reg.index[s].notify, w.ui[s])
  {
  }

  /** The leaver has the name of a session that stays. */
  lemma OwnSeat(w: World, id: CallId, s: SessionId, i: nat)
    requires Core(w) && s in w.ui && SeatOf(w.board, id, s) == Some((CallActive, 1)) && id in w.board.calls
    requires i < |w.board.calls[id].participants| && w.board.calls[id].participants[i].sid != s
    requires w.board.calls[id].participants[i].username == w.ui[s].username
    ensures Namesake(w.board.calls[id].participants, i)
  {
    hide Sound, QueuesOk, UisOk, RecordsOk, GateOk, Agree;
    var ps := w.board.calls[id].participants;
    SeatOnce(w.board, id, s);
    assert s in Sids(ps);
    var j :| 0 <= j < |ps| && Sids(ps)[j] == s;
    assert ps[j] in ps && ps[j].sid == s;
  }

  /** One of several leaves: the screen of another in the call stays right exactly if no namesake of the leaver stays. */
  lemma DepartureKeeps(w: World, b': Switchboard, id: CallId, t: SessionId, s: SessionId)
    requires Core(w) && AgreedAt(w, s) && ShownAt(w, s) && s != t && !Tainted(w, s) && s !in b'.reg.lost
    requires s in w.ui && w.ui[s].callId == Some(id) && Active(w.board, id) && b' == Leave(w.board, id, t)
    requires |w.board.calls[id].participants| > 1 && t in Sids(w.board.calls[id].participants)
    ensures s in b'.reg.index
    ensures var ps := w.board.calls[id].participants;
            ps[Find(ps, t)].username != w.ui[s].username ==>
              (Shows(b', b'.reg.index[s].notify, w.ui[s]) <==> !Namesake(ps, Find(ps, t)))
    ensures !TwinStays(w.board, id, t) ==> Shows(b', b'.reg.index[s].notify, w.ui[s])
  {
    hide Core, Leave, Seats, Others, AgreedAt, Shows, Took;
    var b, ps, u := w.board, w.board.calls[id].participants, w.ui[s];
    var i := Find(ps, t);
    SeatOfScreen(w, s, id);
    FindHits(ps, t);
    FindsSeat(ps, t);
    LeaveTable(b, id, t, i);
    assert |ps[..i] + ps[i + 1..]| == |ps| - 1;
    DepartureReg(b, id, t);
    SeatsWithout(ps, i, s);
    var e := PhoneEvent(EventHangup, id, ps[i].username, "");
    SentOnce(b.reg, Sids(ps[..i] + ps[i + 1..]), e, s) by { ScreenIndexed(w, s); SeatOnce(b, id, s); }
    OthersWithout(b, b', id, i, u.username);
    ScreenShows(w, s);
    TookIs(b.reg, b'.reg, s, e);
    if e.caller != u.username {
      LeftBehind(b, b', b.reg.index[s].notify, u, id, e);
    } else {
      OwnSeat(w, id, s, i);
    }
    assert FirstSeat(ps, i, t);
  }

  lemma DeadShows(b: Switchboard, b': Switchboard, q: seq<PhoneEvent>, q': seq<PhoneEvent>, u: Ui)
    requires Shows(b, q, u) && u.callId.Some? && u.callId.value !in b'.calls
    ensures Shows(b', q', u)
  {
  }

  lemma AnotherCall(events: iset<PhoneEvent>, kinds: set<EventKind>, id: CallId, c: CallId)
    requires events == About(kinds, id) && c != id
    ensures forall e :: e in events ==> !Naming(e, c)
  {
  }

  /** What is claimed of every session but one. */
  ghost predicate OthersShown(w: World, t: SessionId) {
    forall s :: s != t ==> ShownAt(w, s) && AgreedAt(w, s)
  }

  /** A departure, as everyone else's screen meets it. */
  lemma LeaveKeepsNames(w: World, w': World, id: CallId, t: SessionId)
    requires Core(w) && OthersShown(w, t)
    requires w'.board == Hangup(w.board, id, t) && w'.misused == w.misused && UiKept(w, w', t)
    requires !TwinStays(w.board, id, t)
    ensures forall s :: s != t ==> ShownAt(w', s)
  {
    hide Core, Leave, Shows, TwinStays, Seats, AgreedAt;
    if id in w.board.calls && t in Sids(w.board.calls[id].participants) {
      var targets := LeaveTells(w.board, id, t);
      FindsSeat(w.board.calls[id].participants, t);
      LeaveTable(w.board, id, t, Find(w.board.calls[id].participants, t));
      forall s | s != t ensures ShownAt(w', s) {
        if !Tainted(w', s) && s in w'.ui { OneAfterLeave(w, w', id, t, s, targets); }
      }
    } else {
      NotSeatedHere(w.board, id, t);
      forall s | s != t ensures ShownAt(w', s) { assert ShownAt(w, s); }
    }
  }

  lemma NotSeatedHere(b: Switchboard, id: CallId, t: SessionId)
    requires !(id in b.calls && t in Sids(b.calls[id].participants))
    ensures Hangup(b, id, t) == b
  {
    if id in b.calls { FindHits(b.calls[id].participants, t); }
  }

  lemma OneAfterLeave(w: World, w': World, id: CallId, t: SessionId, s: SessionId, targets: set<SessionId>)
    requires Core(w) && OthersShown(w, t) && id in w.board.calls && t in Sids(w.board.calls[id].participants)
    requires w'.board == Leave(w.board, id, t) && w'.misused == w.misused && UiKept(w, w', t)
    requires Grown(w.board.reg, w'.board.reg, About({EventHangup}, id), targets)
    requires var ps := w.board.calls[id].participants;
             var i := Find(ps, t);
             && i < |ps|
             && w'.board.calls == if ps[..i] + ps[i + 1..] == [] then w.board.calls - {id}
                                  else w.board.calls[id := w.board.calls[id].(participants := ps[..i] + ps[i + 1..])]
    requires !TwinStays(w.board, id, t) && s != t && !Tainted(w', s) && s in w'.ui
    ensures ShownAt(w', s)
  {
    hide Leave, Shows, TwinStays, Sound, QueuesOk, SeatsOk, RecordsOk, GateOk, Agree, Agrees, GrownAt, UisOk;
    var b, b', u, ps := w.board, w'.board, w.ui[s], w.board.calls[id].participants;
    assert ShownAt(w, s) && AgreedAt(w, s) && !Tainted(w, s);
    ScreenShows(w, s);
    var q, q' := b.reg.index[s].notify, b'.reg.index[s].notify;
    GrownPrefix(b.reg, b'.reg, About({EventHangup}, id), targets, s);
    if u.callId == Some(id) {
      if |ps| == 1 {
        DeadShows(b, b', q, q', u);
      } else {
        SeveralAreActive(w, id);
        DepartureKeeps(w, b', id, t, s);
      }
    } else {
      if u.callId.Some? {
        AnotherCall(About({EventHangup}, id), {EventHangup}, id, u.callId.value);
        NotOfThisCall(b.reg, b'.reg, About({EventHangup}, id), targets, s, u.callId.value);
      }
      Unmoved(b, b', q, q', u);
    }
  }

  lemma GrownPrefix(r: Presence, r': Presence, events: iset<PhoneEvent>, targets: set<SessionId>, s: SessionId)
    requires s in r.index && Grown(r, r', events, targets)
    ensures s in r'.index && r.index[s].notify <= r'.index[s].notify
  {
    assert GrownAt(r.index[s], r'.index[s], events);
  }

  lemma SeveralAreActive(w: World, id: CallId)
    requires Core(w) && id in w.board.calls && |w.board.calls[id].participants| > 1
    ensures Active(w.board, id)
  {
    hide QueuesOk, SeatsOk, RecordsOk, GateOk, Agree, UisOk, Present, OneRing, ChansExact;
    assert CallShape(w.board.calls[id]);
  }

  // ---- Steps that name nobody ----------------------------------------------------------------------

  /** The parts of a screen that the claim is about. */
  predicate SameScreen(u: Ui, u': Ui) {
    u'.username == u.username && u'.state == u.state && u'.callId == u.callId && u'.callsWith == u.callsWith && u'.viewports == u.viewports
  }

  lemma SameScreenShows(b: Switchboard, q: seq<PhoneEvent>, u: Ui, u': Ui)
    requires Shows(b, q, u) && SameScreen(u, u')
    ensures Shows(b, q, u')
  {
  }

  /** A step that sends no news of who joined or left, and changes no call that a screen shows. */
  lemma QuietNames(w: World, w': World, skip: set<SessionId>, events: iset<PhoneEvent>, targets: set<SessionId>)
    requires AllShown(w) && Grown(w.board.reg, w'.board.reg, events, targets) && w.misused <= w'.misused
    requires forall e, id :: e in events ==> !Naming(e, id)
    requires forall s :: s in w'.ui && s !in skip ==> s in w.ui && SameScreen(w.ui[s], w'.ui[s])
    requires forall s :: s in w'.ui && s !in skip && w'.ui[s].callId.Some? ==> SameCall(w.board, w'.board, w'.ui[s].callId.value)
    ensures forall s :: s !in skip ==> ShownAt(w', s)
  {
    hide Shows, GrownAt;
    forall s | s !in skip ensures ShownAt(w', s) {
      assert ShownAt(w, s);
      if !Tainted(w', s) && s in w'.ui {
        ScreenShows(w, s);
        var q, u := w.board.reg.index[s].notify, w.ui[s];
        GrownPrefix(w.board.reg, w'.board.reg, events, targets, s);
        if u.callId.Some? { NotOfThisCall(w.board.reg, w'.board.reg, events, targets, s, u.callId.value); }
        Unmoved(w.board, w'.board, q, w'.board.reg.index[s].notify, u);
        SameScreenShows(w'.board, w'.board.reg.index[s].notify, u, w'.ui[s]);
      }
    }
  }

  /** Nothing was sent to the sessions whose program runs, and no call changed. */
  lemma SameQueues(w: World, w': World, skip: set<SessionId>)
    requires AllShown(w) && w'.board.calls == w.board.calls && w.misused <= w'.misused && w.board.reg.lost <= w'.board.reg.lost
    requires forall s :: s in w'.ui && s !in skip ==>
               && s in w.ui && SameScreen(w.ui[s], w'.ui[s])
               && (s in w.board.reg.index ==> s in w'.board.reg.index && w'.board.reg.index[s].notify == w.board.reg.index[s].notify)
    ensures forall s :: s !in skip ==> ShownAt(w', s)
  {
    hide Shows;
    forall s | s !in skip ensures ShownAt(w', s) {
      assert ShownAt(w, s);
      if !Tainted(w', s) && s in w'.ui {
        ScreenShows(w, s);
        var q, u := w.board.reg.index[s].notify, w.ui[s];
        NoneNew(q);
        Unmoved(w.board, w'.board, q, q, u);
        SameScreenShows(w'.board, q, u, w'.ui[s]);
      }
    }
  }

  lemma NoneNew(q: seq<PhoneEvent>)
    ensures forall id :: NoneNaming(q, |q|, id)
  {
  }

  lemma IdleShown(w: World, s: SessionId)
    requires s in w.ui && s in w.board.reg.index && w.ui[s].callId == None && w.ui[s].callsWith == [] && w.ui[s].viewports == [w.ui[s].username]
    ensures ShownAt(w, s)
  {
    hide Shows;
    IdleShows(w.board, w.board.reg.index[s].notify, w.ui[s]);
  }

  lemma TogetherShown(w: World, t: SessionId)
    requires (forall s :: s != t ==> ShownAt(w, s)) && ShownAt(w, t)
    ensures AllShown(w)
  {
  }

  lemma KindsNameNobody(kinds: set<EventKind>, id: CallId)
    requires EventAnswer !in kinds && EventHangup !in kinds
    ensures forall e, c :: e in About(kinds, id) ==> !Naming(e, c)
  {
  }

  // ---- An answer --------------------------------------------------------------------------------------

  lemma OthersJoined(b: Switchboard, b': Switchboard, id: CallId, p: Participant, own: Account)
    requires id in b.calls && id in b'.calls && b'.calls[id].participants == b.calls[id].participants + [p]
    ensures Others(b', id, own) == Others(b, id, own) + ({p.username} - {own})
  {
    var ps := b.calls[id].participants;
    assert forall x :: x in ps + [p] <==> x in ps || x == p;
  }

  /** An invited account joins: everyone else's screen. */
  lemma JoinKeepsNames(w: World, w': World, id: CallId, t: SessionId)
    requires Core(w) && Agreed(w) && AllShown(w) && t in w.ui && Active(w.board, id) && AnswerError(w.board, id, w.ui[t].username) == None
    requires w'.board == Answer(w.board, id, t, w.ui[t].username).0 && w.misused <= w'.misused && UiKept(w, w', t)
    ensures forall s :: s != t ==> ShownAt(w', s)
  {
    hide Core, Answer, AnswerError, Shows;
    CoreSound(w);
    var user := w.ui[t].username;
    AnswerMoves(w.board, id, t, user);
    var targets := JoinTells(w.board, id, t, user);
    forall s | s != t ensures ShownAt(w', s) {
      if !Tainted(w', s) && s in w'.ui { OneAfterJoin(w, w', id, t, s, targets); }
    }
  }

  lemma JoinTells(b: Switchboard, id: CallId, t: SessionId, user: Account) returns (targets: set<SessionId>)
    requires Active(b, id) && AnswerError(b, id, user) == None
    ensures Grown(b.reg, Answer(b, id, t, user).0.reg, About({EventAnswer}, id), targets)
  {
    hide AnswerAdd;
    targets := AnswerAddTells(b, id, t, user);
  }

  lemma OneAfterJoin(w: World, w': World, id: CallId, t: SessionId, s: SessionId, targets: set<SessionId>)
    requires Core(w) && Agreed(w) && AllShown(w) && t in w.ui && Active(w.board, id) && AnswerError(w.board, id, w.ui[t].username) == None
    requires w'.board == Answer(w.board, id, t, w.ui[t].username).0 && w.misused <= w'.misused && UiKept(w, w', t)
    requires Grown(w.board.reg, w'.board.reg, About({EventAnswer}, id), targets)
    requires w'.board.calls == w.board.calls[id := w.board.calls[id].(state := CallActive,
               participants := w.board.calls[id].participants + [Participant(w.ui[t].username, t, w.board.chans.serial)])]
    requires s != t && !Tainted(w', s) && s in w'.ui
    ensures ShownAt(w', s)
  {
    hide Core, Answer, AnswerError, Shows, Agrees, GrownAt, Seats, Others;
    var b, b', u, user := w.board, w'.board, w.ui[s], w.ui[t].username;
    assert ShownAt(w, s) && AgreedAt(w, s) && !Tainted(w, s);
    ScreenShows(w, s);
    var q, q' := b.reg.index[s].notify, b'.reg.index[s].notify;
    GrownPrefix(b.reg, b'.reg, About({EventAnswer}, id), targets, s);
    if u.callId == Some(id) {
      var e := PhoneEvent(EventAnswer, id, b.calls[id].caller, user);
      SeatOfScreen(w, s, id);
      SeatOnce(b, id, s);
      JoinReg(b, id, t, user);
      JoinCount(b.calls[id].participants, Participant(user, t, b.chans.serial), s);
      SentOnce(b.reg, OthersBySession(b.calls[id].participants + [Participant(user, t, b.chans.serial)], t), e, s);
      TookIs(b.reg, b'.reg, s, e);
      OthersJoined(b, b', id, Participant(user, t, b.chans.serial), u.username);
      Joined(b, b', q, u, id, e);
    } else {
      if u.callId.Some? {
        AnotherCall(About({EventAnswer}, id), {EventAnswer}, id, u.callId.value);
        NotOfThisCall(b.reg, b'.reg, About({EventAnswer}, id), targets, s, u.callId.value);
      }
      Unmoved(b, b', q, q', u);
    }
  }

  lemma JoinCount(ps: seq<Participant>, p: Participant, s: SessionId)
    requires s != p.sid
    ensures multiset(OthersBySession(ps + [p], p.sid))[s] == multiset(Sids(ps))[s]
  {
    OthersBySessionCount(ps + [p], p.sid, s);
    SidsAppend(ps, p);
    assert multiset(Sids(ps) + [p.sid])[s] == multiset(Sids(ps))[s];
  }

  lemma {:induction false} FirstNoneIs(q: seq<PhoneEvent>, id: CallId)
    requires First(q, id) == None
    ensures NoneNaming(q, 0, id)
    decreases q
  {
    if q != [] {
      FirstNoneIs(q[1..], id);
      assert forall i :: 1 <= i < |q| ==> q[i] == q[1..][i - 1];
    }
  }

  lemma FirstTells(b: Switchboard, id: CallId, t: SessionId, user: Account) returns (targets: set<SessionId>)
    requires Pending(b, id) && b.calls[id].participants != []
    ensures Grown(b.reg, Answer(b, id, t, user).0.reg, About({EventAnswer, EventAnswerElsewhere}, id), targets)
  {
    hide AnswerDial, AnswerAdd;
    var reg1 := AnswerDialTells(b, id, t, user);
    var first, second := {b.calls[id].participants[0].sid}, SessionsOf(b.reg, user) - {t};
    FirstAnswerGrown(b.reg, reg1, AnswerDial(b, id, t, user).reg, id, first, second);
    targets := first + second;
  }

  /** Only its caller's screen shows a pending call. */
  lemma OnlyCaller(w: World, s: SessionId, id: CallId)
    requires Core(w) && s in w.ui && w.ui[s].callId == Some(id) && Pending(w.board, id)
    ensures Sids(w.board.calls[id].participants) == [s] && CallShape(w.board.calls[id])
  {
    hide QueuesOk, SeatsOk, RecordsOk, GateOk, Agree, Present, OneRing, ChansExact;
    assert UiOk(w.board, s, w.ui[s]) && CallShape(w.board.calls[id]);
  }

  /** A dialled call is answered: everyone else's screen. */
  lemma FirstKeepsNames(w: World, w': World, id: CallId, t: SessionId)
    requires Core(w) && Agreed(w) && AllShown(w) && t in w.ui && Pending(w.board, id) && w.board.calls[id].callee == w.ui[t].username
    requires w.board.calls[id].participants != []
    requires w'.board == Answer(w.board, id, t, w.ui[t].username).0 && w.misused <= w'.misused && UiKept(w, w', t)
    ensures forall s :: s != t ==> ShownAt(w', s)
  {
    hide Core, Answer, Shows;
    CoreSound(w);
    var user := w.ui[t].username;
    AnswerMoves(w.board, id, t, user);
    var targets := FirstTells(w.board, id, t, user);
    forall s | s != t ensures ShownAt(w', s) {
      if !Tainted(w', s) && s in w'.ui { OneAfterFirst(w, w', id, t, s, targets); }
    }
  }

  lemma OneAfterFirst(w: World, w': World, id: CallId, t: SessionId, s: SessionId, targets: set<SessionId>)
    requires Core(w) && Agreed(w) && AllShown(w) && t in w.ui && Pending(w.board, id) && w.board.calls[id].callee == w.ui[t].username
    requires w.board.calls[id].participants != []
    requires w'.board == Answer(w.board, id, t, w.ui[t].username).0 && w.misused <= w'.misused && UiKept(w, w', t)
    requires Grown(w.board.reg, w'.board.reg, About({EventAnswer, EventAnswerElsewhere}, id), targets)
    requires w'.board.calls == w.board.calls[id := w.board.calls[id].(state := CallActive,
               participants := w.board.calls[id].participants + [Participant(w.ui[t].username, t, w.board.chans.serial)])]
    requires s != t && !Tainted(w', s) && s in w'.ui
    ensures ShownAt(w', s)
  {
    hide Core, Answer, Shows, Agrees, GrownAt, Seats, Others, Gets, UiOk, CallShape;
    var b, b', u := w.board, w'.board, w.ui[s];
    assert ShownAt(w, s) && AgreedAt(w, s) && !Tainted(w, s);
    ScreenShows(w, s);
    var q, q' := b.reg.index[s].notify, b'.reg.index[s].notify;
    GrownPrefix(b.reg, b'.reg, About({EventAnswer, EventAnswerElsewhere}, id), targets, s);
    if u.callId == Some(id) {
      OnlyCaller(w, s, id);
      CallerAfterFirst(w, w', id, t, s);
    } else {
      if u.callId.Some? {
        AnotherCall(About({EventAnswer, EventAnswerElsewhere}, id), {EventAnswer, EventAnswerElsewhere}, id, u.callId.value);
        NotOfThisCall(b.reg, b'.reg, About({EventAnswer, EventAnswerElsewhere}, id), targets, s, u.callId.value);
      }
      Unmoved(b, b', q, q', u);
    }
  }

  lemma CallerAfterFirst(w: World, w': World, id: CallId, t: SessionId, s: SessionId)
    requires Core(w) && AgreedAt(w, s) && ShownAt(w, s) && t in w.ui && Pending(w.board, id) && w.board.calls[id].callee == w.ui[t].username
    requires Sids(w.board.calls[id].participants) == [s] && CallShape(w.board.calls[id])
    requires w'.board == Answer(w.board, id, t, w.ui[t].username).0 && w.misused <= w'.misused && UiKept(w, w', t)
    requires w'.board.calls == w.board.calls[id := w.board.calls[id].(state := CallActive,
               participants := w.board.calls[id].participants + [Participant(w.ui[t].username, t, w.board.chans.serial)])]
    requires s != t && s in w.ui && !Tainted(w, s) && !Tainted(w', s) && s in w'.ui && w'.ui[s] == w.ui[s]
    ensures ShownAt(w', s)
  {
    hide Core, Answer, Shows, Agrees, Seats, Others, UiOk, Sound;
    var b, b', u, call := w.board, w'.board, w.ui[s], w.board.calls[id];
    ScreenShows(w, s);
    ScreenIndexed(w, s);
    ScreenIndexed(w, t);
    CoreParts(w);
    assert call.participants[0].sid == s;
    WaitingCaller(b, s, u, id);
    FirstNoneIs(b.reg.index[s].notify, id);
    WinnerTells(b, id, t);
    var e := PhoneEvent(EventAnswer, id, call.caller, call.callee);
    assert Gets(b.reg, b'.reg, s, e);
    SeatBearsName(w, id, 0);
    TwoSeats(b', id, call.participants[0], Participant(call.callee, t, b.chans.serial));
    Answered1(b, b', b.reg.index[s].notify, u, id, e);
  }

  lemma CoreParts(w: World)
    requires Core(w)
    ensures Sound(w.board) && Agree(w.board.reg) && SeatsOk(w.board)
  {
  }

  lemma SeatBearsName(w: World, id: CallId, i: nat)
    requires Core(w) && id in w.board.calls && i < |w.board.calls[id].participants| && w.board.calls[id].participants[i].sid in w.ui
    ensures w.ui[w.board.calls[id].participants[i].sid].username == w.board.calls[id].participants[i].username
  {
    hide Sound, QueuesOk, UisOk, RecordsOk, GateOk, Agree;
    assert w.board.calls[id].participants[i] in w.board.calls[id].participants;
  }

  lemma TwoSeats(b: Switchboard, id: CallId, p: Participant, p': Participant)
    requires id in b.calls && b.calls[id].participants == [p] + [p'] && p.username != p'.username
    ensures Others(b, id, p.username) == {p'.username}
  {
    assert p' in b.calls[id].participants && forall x :: x in b.calls[id].participants <==> x == p || x == p';
  }

  /** Old news of the call still waits for the session that is about to join it. */
  ghost predicate StaleNews(b: Switchboard, t: SessionId, id: CallId) {
    t in b.reg.index && !NoneNaming(b.reg.index[t].notify, 0, id)
  }

  lemma NamesOthers(b: Switchboard, id: CallId, own: Account)
    requires id in b.calls
    ensures NameSet(NotNamed(Names(b.calls[id].participants), own)) == Others(b, id, own)
  {
    var ps := b.calls[id].participants;
    WithoutSet(Names(ps), own);
    hide NotNamed;
    forall n ensures n in NameSet(Names(ps)) - {own} <==> n in Others(b, id, own) {
      if n in Names(ps) && n != own {
        var i :| 0 <= i < |ps| && Names(ps)[i] == n;
        assert ps[i] in ps && ps[i].username == n;
      }
      if p :| p in ps && p.username == n {
        var i :| 0 <= i < |ps| && ps[i] == p;
        assert Names(ps)[i] == n;
      }
    }
  }

  /** The screen of the session that answered. */
  lemma AnswererShows(b': Switchboard, q: seq<PhoneEvent>, u: Ui, id: CallId)
    requires Active(b', id) && NoneNaming(q, 0, id)
    ensures Shows(b', q, Answered(u, id, Names(b'.calls[id].participants)))
  {
    hide Others, NotNamed, NameSet;
    var u' := Answered(u, id, Names(b'.calls[id].participants));
    NamesOthers(b', id, u.username);
    FoldQuiet(NameSet(u'.callsWith), u.username, [], q, id);
  }

  /** The answer reaches others, not the one who gave it. */
  lemma AnswererHearsNothing(w: World, id: CallId, t: SessionId)
    requires Core(w) && t in w.ui && AnswerError(w.board, id, w.ui[t].username) == None && w.board.calls[id].participants != []
    requires Pending(w.board, id) ==> w.board.calls[id].callee == w.ui[t].username
    ensures t in w.board.reg.index
    ensures var reg' := Answer(w.board, id, t, w.ui[t].username).0.reg;
            t in reg'.index && reg'.index[t].notify == w.board.reg.index[t].notify
  {
    hide Core, Answer;
    CoreParts(w);
    ScreenIndexed(w, t);
    var b, user := w.board, w.ui[t].username;
    if Pending(b, id) {
      WinnerTells(b, id, t);
      CallerIsAnother(w, id, t);
      FirstIndex(b, id, t, user);
    } else {
      CallIsActive(b, id, user);
      JoinHeard(b, id, t, user, t);
      assert Times(0, PhoneEvent(EventAnswer, id, b.calls[id].caller, user)) == [];
    }
  }

  lemma CallIsActive(b: Switchboard, id: CallId, user: Account)
    requires AnswerError(b, id, user) == None && !Pending(b, id)
    ensures Active(b, id)
  {
  }

  lemma FirstIndex(b: Switchboard, id: CallId, t: SessionId, user: Account)
    requires Pending(b, id) && b.calls[id].participants != [] && t in b.reg.index
    ensures t in Answer(b, id, t, user).0.reg.index
  {
    hide AnswerDial;
    var targets := FirstTells(b, id, t, user);
  }

  lemma CallerIsAnother(w: World, id: CallId, t: SessionId)
    requires Core(w) && t in w.ui && Pending(w.board, id) && w.board.calls[id].callee == w.ui[t].username && w.board.calls[id].participants != []
    ensures w.board.calls[id].participants[0].sid != t
  {
    hide QueuesOk, UisOk, RecordsOk, GateOk, Agree, OneRing, ChansExact;
    assert CallShape(w.board.calls[id]);
    if w.board.calls[id].participants[0].sid == t { SeatBearsName(w, id, 0); }
  }
}
