/**
  Whom a screen shows. Over every run in which no account leaves a call that another
  of its sessions stays in, and nobody joins a call with old news of it still waiting,
  a session that lost no event shows exactly the other accounts in its call, once it
  has read what waits for it.
 */
module ScreenNames {
  import opened Wrappers
  import opened Registry
  import opened CallTable
  import opened TableInvariant
  import opened TableMotion
  import opened TableLaws
  import opened Protocol
  import opened WorldInvariant
  import opened Agreement
  import opened Notices
  import opened ScreenLaws

  // ---- What the waiting events will make of the names -----------------------------------------

  function NameSet(names: seq<Account>): (r: set<Account>)
    ensures forall n :: n in r <==> n in names
  {
    set n | n in names
  }

  /** An event that says who joined or left this call. */
  predicate Naming(e: PhoneEvent, id: CallId) {
    e.callId == id && (e.kind == EventAnswer || (e.kind == EventHangup && e.callee == ""))
  }

  function NextNames(names: set<Account>, own: Account, e: PhoneEvent, id: CallId): set<Account> {
    if !Naming(e, id) then names
    else if e.kind == EventAnswer then names + ({e.callee} - {own})
    else names - {e.caller}
  }

  function FoldNames(names: set<Account>, own: Account, q: seq<PhoneEvent>, id: CallId): set<Account>
    decreases q
  {
    if q == [] then names else FoldNames(NextNames(names, own, q[0], id), own, q[1..], id)
  }

  lemma {:induction false} FoldAppend(names: set<Account>, own: Account, q: seq<PhoneEvent>, e: PhoneEvent, id: CallId)
    ensures FoldNames(names, own, q + [e], id) == NextNames(FoldNames(names, own, q, id), own, e, id)
    decreases q
  {
    if q == [] {
      assert [] + [e] == [e] && [e][1..] == [];
      assert FoldNames(NextNames(names, own, e, id), own, [], id) == NextNames(names, own, e, id);
    } else {
      assert (q + [e])[1..] == q[1..] + [e];
      FoldAppend(NextNames(names, own, q[0], id), own, q[1..], e, id);
    }
  }

  predicate NoneNaming(q: seq<PhoneEvent>, from: nat, id: CallId) {
    forall i :: from <= i < |q| ==> !Naming(q[i], id)
  }

  lemma {:induction false} FoldQuiet(names: set<Account>, own: Account, q: seq<PhoneEvent>, q': seq<PhoneEvent>, id: CallId)
    requires q <= q' && NoneNaming(q', |q|, id)
    ensures FoldNames(names, own, q', id) == FoldNames(names, own, q, id)
    decreases q'
  {
    if q' != [] {
      var next := NextNames(names, own, q'[0], id);
      assert forall i :: 0 <= i < |q'| - 1 ==> q'[1..][i] == q'[i + 1];
      FoldQuiet(next, own, if q == [] then [] else q[1..], q'[1..], id);
    }
  }

  /** The account whose answer is the first to wait. */
  function FirstAnswerer(q: seq<PhoneEvent>, id: CallId): Option<Account> {
    if q == [] then None
    else if q[0].kind == EventAnswer && q[0].callId == id then Some(q[0].callee)
    else FirstAnswerer(q[1..], id)
  }

  lemma {:induction false} AnswererStays(q: seq<PhoneEvent>, q': seq<PhoneEvent>, id: CallId)
    requires q <= q' && FirstAnswerer(q, id).Some?
    ensures FirstAnswerer(q', id) == FirstAnswerer(q, id)
    decreases q
  {
    if !(q[0].kind == EventAnswer && q[0].callId == id) { AnswererStays(q[1..], q'[1..], id); }
  }

  lemma {:induction false} AnswererNew(q: seq<PhoneEvent>, e: PhoneEvent, id: CallId)
    requires NoneNaming(q, 0, id) && e.kind == EventAnswer && e.callId == id
    ensures FirstAnswerer(q + [e], id) == Some(e.callee)
    decreases q
  {
    if q == [] {
      assert ([] + [e])[0] == e;
    } else {
      assert (q + [e])[1..] == q[1..] + [e] && !Naming(q[0], id);
      assert forall i :: 0 <= i < |q| - 1 ==> q[1..][i] == q[i + 1];
      AnswererNew(q[1..], e, id);
    }
  }

  // ---- What is claimed of a screen -----------------------------------------------------------------

  /** The accounts in the call but this one. */
  ghost function Others(b: Switchboard, id: CallId, own: Account): set<Account>
    requires id in b.calls
  {
    set p | p in b.calls[id].participants && p.username != own :: p.username
  }

  /** No event that waits says that the session's own account left. */
  predicate OwnStays(q: seq<PhoneEvent>, id: CallId, own: Account) {
    forall i :: 0 <= i < |q| && Naming(q[i], id) && q[i].kind == EventHangup ==> q[i].caller != own
  }

  /** Its own viewport first, and one for each name. */
  predicate Tidy(u: Ui) {
    u.viewports == [u.username] + u.callsWith && (u.state == CallIdle ==> u.callsWith == [])
  }

  /** The names on the screen, once the queue `q` is read, are those in its call. */
  ghost predicate NamesRight(b: Switchboard, q: seq<PhoneEvent>, u: Ui, id: CallId) {
    && (Pending(b, id) ==> u.callsWith == [b.calls[id].callee])
    && (Active(b, id) ==>
          && FoldNames(NameSet(u.callsWith), u.username, q, id) == Others(b, id, u.username)
          && OwnStays(q, id, u.username)
          && (u.state == CallPending ==> |u.callsWith| == 1 && FirstAnswerer(q, id) == Some(u.callsWith[0])))
  }

  ghost predicate Shows(b: Switchboard, q: seq<PhoneEvent>, u: Ui) {
    Tidy(u) && (u.callId.Some? ==> NamesRight(b, q, u, u.callId.value))
  }

  ghost predicate ShownAt(w: World, s: SessionId) {
    Tainted(w, s) || s !in w.ui || (s in w.board.reg.index && Shows(w.board, w.board.reg.index[s].notify, w.ui[s]))
  }

  ghost predicate AllShown(w: World) {
    forall s :: ShownAt(w, s)
  }

  // ---- How a screen's claim moves ---------------------------------------------------------------------

  /** The call is as it was, or gone. */
  ghost predicate SameCall(b: Switchboard, b': Switchboard, id: CallId) {
    id in b'.calls ==> id in b.calls && b'.calls[id] == b.calls[id]
  }

  lemma Unmoved(b: Switchboard, b': Switchboard, q: seq<PhoneEvent>, q': seq<PhoneEvent>, u: Ui)
    requires Shows(b, q, u) && q <= q'
    requires u.callId.Some? ==> SameCall(b, b', u.callId.value) && NoneNaming(q', |q|, u.callId.value)
    ensures Shows(b', q', u)
  {
    if u.callId.Some? {
      var id := u.callId.value;
      FoldQuiet(NameSet(u.callsWith), u.username, q, q', id);
      if FirstAnswerer(q, id).Some? { AnswererStays(q, q', id); }
    }
  }

  /** Someone joined, and word of it waits. */
  lemma Joined(b: Switchboard, b': Switchboard, q: seq<PhoneEvent>, u: Ui, id: CallId, e: PhoneEvent)
    requires Shows(b, q, u) && u.callId == Some(id) && Active(b, id) && Active(b', id)
    requires Naming(e, id) && e.kind == EventAnswer
    requires Others(b', id, u.username) == Others(b, id, u.username) + ({e.callee} - {u.username})
    ensures Shows(b', q + [e], u)
  {
    hide Others;
    FoldAppend(NameSet(u.callsWith), u.username, q, e, id);
    if FirstAnswerer(q, id).Some? { AnswererStays(q, q + [e], id); }
  }

  /** Someone left, and word of it waits. The screen stays right exactly if no other session of that account stays. */
  lemma LeftBehind(b: Switchboard, b': Switchboard, q: seq<PhoneEvent>, u: Ui, id: CallId, e: PhoneEvent)
    requires Shows(b, q, u) && u.callId == Some(id) && Active(b, id) && Active(b', id)
    requires Naming(e, id) && e.kind == EventHangup && e.caller != u.username
    requires Others(b, id, u.username) == Others(b', id, u.username) + {e.caller}
    ensures Shows(b', q + [e], u) <==> e.caller !in Others(b', id, u.username)
  {
    hide Others;
    FoldAppend(NameSet(u.callsWith), u.username, q, e, id);
    if FirstAnswerer(q, id).Some? { AnswererStays(q, q + [e], id); }
    assert forall i :: 0 <= i < |q| ==> (q + [e])[i] == q[i];
  }

  /** The pending call on the screen was answered, and word of it waits. */
  lemma Answered1(b: Switchboard, b': Switchboard, q: seq<PhoneEvent>, u: Ui, id: CallId, e: PhoneEvent)
    requires Shows(b, q, u) && u.callId == Some(id) && Pending(b, id) && Active(b', id) && NoneNaming(q, 0, id)
    requires Naming(e, id) && e.kind == EventAnswer && e.callee == b.calls[id].callee && e.callee != u.username
    requires Others(b', id, u.username) == {e.callee}
    ensures Shows(b', q + [e], u)
  {
    hide Others;
    FoldAppend(NameSet(u.callsWith), u.username, q, e, id);
    FoldQuiet(NameSet(u.callsWith), u.username, [], q, id);
    AnswererNew(q, e, id);
    assert NameSet(u.callsWith) == {e.callee};
  }

  /** The screen of a session in no call that shows none. */
  lemma IdleShows(b: Switchboard, q: seq<PhoneEvent>, u: Ui)
    requires u.callId == None && u.callsWith == [] && u.viewports == [u.username]
    ensures Shows(b, q, u)
  {
  }

  // ---- Reading one event ----------------------------------------------------------------------------------

  lemma WithoutSet(names: seq<Account>, name: Account)
    ensures NameSet(NotNamed(names, name)) == NameSet(names) - {name}
  {
    if names != [] {
      WithoutSet(names[1..], name);
      assert names == [names[0]] + names[1..];
      assert NameSet(names) == {names[0]} + NameSet(names[1..]);
      var r := NotNamed(names[1..], name);
      assert NameSet([names[0]] + r) == {names[0]} + NameSet(r);
      assert [] + r == r;
    }
  }

  /** Handling the oldest event keeps what is claimed; an active screen that hangs up is idle afterwards. */
  lemma ReadOne(b: Switchboard, s: SessionId, q: seq<PhoneEvent>, u: Ui)
    requires q != [] && s in b.reg.index && b.reg.index[s].notify == q && Shows(b, q, u) && Agrees(b, s, u)
    requires (u.callId == None <==> u.state == CallIdle) && (u.inPhone || u.state == CallIdle)
    ensures var (u', hangsUp) := Handle(u, q[0]); !hangsUp ==> Shows(b, q[1..], u')
    ensures var (u', hangsUp) := Handle(u, q[0]); hangsUp ==> u'.callId == None && u'.callsWith == [] && u'.viewports == [u'.username]
  {
    var e := q[0];
    hide Others, Handle, NameSet, Agrees;
    if u.state == CallIdle {
      HandleIdle(u, e);
    } else if u.state == CallPending {
      ReadPending(b, s, q, u);
    } else {
      SeatedNow(b, s, u);
      ReadActive(b, q, u);
    }
  }

  lemma SeatedNow(b: Switchboard, s: SessionId, u: Ui)
    requires s in b.reg.index && Agrees(b, s, u) && u.state == CallActive
    ensures u.callId.Some? && Active(b, u.callId.value)
  {
    hide Seats;
    assert u.callId.Some? && SeatOf(b, u.callId.value, s) == Some((CallActive, 1));
  }

  lemma HandleIdle(u: Ui, e: PhoneEvent)
    requires u.state == CallIdle && u.callId == None && Tidy(u)
    ensures var (u', hangsUp) := Handle(u, e); !hangsUp && u'.callId == None && u'.callsWith == [] && u'.viewports == [u'.username]
  {
  }

  lemma ReadPending(b: Switchboard, s: SessionId, q: seq<PhoneEvent>, u: Ui)
    requires q != [] && s in b.reg.index && b.reg.index[s].notify == q && Shows(b, q, u) && Agrees(b, s, u)
    requires u.inPhone && u.state == CallPending && u.callId.Some?
    ensures !Handle(u, q[0]).1 && Shows(b, q[1..], Handle(u, q[0]).0)
  {
    var e, id, u' := q[0], u.callId.value, Handle(u, q[0]).0;
    hide Others, NameSet;
    PendingHandled(u, e, id);
    assert forall i :: 0 <= i < |q| - 1 ==> q[1..][i] == q[i + 1];
    if Active(b, id) {
      SeatedActive(b, s, u, id);
      if Signals(e, id) {
        AnswerIsShown(u, e);
        assert FoldNames(NameSet(u'.callsWith), u.username, q[1..], id) == Others(b, id, u.username);
      } else {
        assert NextNames(NameSet(u.callsWith), u.username, e, id) == NameSet(u.callsWith);
      }
    } else if Pending(b, id) {
      SeatedPending(b, s, u, id);
    }
  }

  /** A pending screen moves only on a signal about its call: to active on an answer, and to idle on a refusal. */
  lemma PendingHandled(u: Ui, e: PhoneEvent, id: CallId)
    requires u.inPhone && u.state == CallPending && u.callId == Some(id) && Tidy(u)
    ensures var (u', hangsUp) := Handle(u, e);
            && !hangsUp && Tidy(u') && u'.username == u.username
            && (!Signals(e, id) || e.kind == EventHangup ==> u'.state == CallPending && u'.callId == u.callId && u'.callsWith == u.callsWith)
            && (Signals(e, id) && e.kind == EventAnswer ==> u'.state == CallActive && u'.callId == u.callId && u'.callsWith == u.callsWith)
            && (Signals(e, id) && e.kind != EventAnswer && e.kind != EventHangup ==> u'.callId == None)
  {
  }

  lemma SeatedActive(b: Switchboard, s: SessionId, u: Ui, id: CallId)
    requires s in b.reg.index && Agrees(b, s, u) && u.state == CallPending && u.callId == Some(id) && Active(b, id)
    ensures First(b.reg.index[s].notify, id) == Some(EventAnswer)
  {
    hide Seats;
    assert OnlyIn(b, s, id, CallPending) ==> SeatOf(b, id, s) == Some((CallPending, 1));
  }

  lemma SeatedPending(b: Switchboard, s: SessionId, u: Ui, id: CallId)
    requires s in b.reg.index && Agrees(b, s, u) && u.state == CallPending && u.callId == Some(id) && Pending(b, id)
    ensures First(b.reg.index[s].notify, id) == None
  {
    hide Seats;
    assert OnlyIn(b, s, id, CallActive) ==> SeatOf(b, id, s) == Some((CallActive, 1));
  }

  lemma AnswerIsShown(u: Ui, e: PhoneEvent)
    requires |u.callsWith| == 1 && e.kind == EventAnswer && e.callee == u.callsWith[0]
    ensures NameSet(u.callsWith) + ({e.callee} - {u.username}) == NameSet(u.callsWith)
  {
  }

  lemma ReadActive(b: Switchboard, q: seq<PhoneEvent>, u: Ui)
    requires q != [] && Shows(b, q, u) && u.inPhone && u.state == CallActive && u.callId.Some?
    ensures var (u', hangsUp) := Handle(u, q[0]); !hangsUp && Active(b, u.callId.value) ==> Shows(b, q[1..], u')
    ensures var (u', hangsUp) := Handle(u, q[0]); hangsUp ==> u'.callId == None && u'.callsWith == [] && u'.viewports == [u'.username]
  {
    var e, id := q[0], u.callId.value;
    var (u', hangsUp) := Handle(u, e);
    hide Others, Handle, NameSet;
    HangsUpExactly(u, e);
    if !hangsUp && Active(b, id) {
      ActiveNames(u, e, id);
      assert forall i :: 0 <= i < |q| - 1 ==> q[1..][i] == q[i + 1];
    }
  }

  lemma ActiveNames(u: Ui, e: PhoneEvent, id: CallId)
    requires Tidy(u) && u.inPhone && u.state == CallActive && u.callId == Some(id) && !EveryoneLeft(u, e)
    requires !(Naming(e, id) && e.kind == EventHangup && e.caller == u.username)
    ensures var u' := Handle(u, e).0;
            && u'.callId == u.callId && u'.state == CallActive && u'.username == u.username && Tidy(u')
            && NameSet(u'.callsWith) == NextNames(NameSet(u.callsWith), u.username, e, id)
  {
    hide NotNamed, NameSet;
    if SomeoneLeft(u, e) {
      OneLess(u, e);
      WithoutSet(u.callsWith, e.caller);
      WithoutOthers([u.username], u.callsWith, e.caller);
    } else if Own(u, e) && e.kind == EventAnswer {
      AnswerShown(u, e);
      OneMore(u, e);
    } else {
      SameNames(u, e, id);
    }
  }

  lemma OneLess(u: Ui, e: PhoneEvent)
    requires SomeoneLeft(u, e) && !EveryoneLeft(u, e)
    ensures var u' := Handle(u, e).0;
            u' == u.(callsWith := NotNamed(u.callsWith, e.caller), viewports := NotNamed(u.viewports, e.caller))
  {
    hide NotNamed;
    NobodyElse(u.callsWith, e.caller);
  }

  lemma WithoutOthers(first: seq<Account>, names: seq<Account>, name: Account)
    requires |first| == 1
    ensures NotNamed(first + names, name) == (if first[0] != name then first else []) + NotNamed(names, name)
  {
    assert (first + names)[1..] == names && [first[0]] == first;
  }

  lemma OneMore(u: Ui, e: PhoneEvent)
    requires Tidy(u)
    ensures e.callee in u.viewports <==> e.callee == u.username || e.callee in u.callsWith
    ensures NameSet(u.callsWith + [e.callee]) == NameSet(u.callsWith) + {e.callee}
    ensures e.callee in u.callsWith ==> NameSet(u.callsWith) + {e.callee} == NameSet(u.callsWith)
    ensures NameSet(u.callsWith) + {} == NameSet(u.callsWith)
  {
  }

  lemma SameNames(u: Ui, e: PhoneEvent, id: CallId)
    requires u.inPhone && u.state == CallActive && u.callId == Some(id) && !SomeoneLeft(u, e) && !(Own(u, e) && e.kind == EventAnswer)
    ensures var u' := Handle(u, e).0;
            && u'.callId == u.callId && u'.state == CallActive && u'.username == u.username
            && u'.callsWith == u.callsWith && u'.viewports == u.viewports && !Naming(e, id)
  {
  }
}
