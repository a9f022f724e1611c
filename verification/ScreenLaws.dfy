/**
  What each event does to one session's screen, case by case and field by field: when
  a departure ends the session's own call, who is shown afterwards, and which ring is
  noted. Together the cases leave no event and no screen out.
 */
module ScreenLaws {
  import opened Wrappers
  import opened Registry
  import opened CallTable
  import opened Protocol

  // ---- Lists without a name ------------------------------------------------------------

  /** How often the name stands among the first `k`. */
  function Before(q: seq<Account>, name: Account, k: nat): nat
    requires k <= |q|
  {
    multiset(q[..k])[name]
  }

  /** `r` lists everyone in `q` but `name`, in the same order: each moves up by as many places as were dropped before it. */
  predicate IsWithout(q: seq<Account>, name: Account, r: seq<Account>) {
    && |r| == |q| - Before(q, name, |q|)
    && forall k :: 0 <= k < |q| && q[k] != name ==> 0 <= k - Before(q, name, k) < |r| && r[k - Before(q, name, k)] == q[k]
  }

  lemma BeforeNext(q: seq<Account>, name: Account, k: nat)
    requires 0 < k <= |q|
    ensures Before(q, name, k) == Before(q[1..], name, k - 1) + if q[0] == name then 1 else 0
  {
    assert q[..k] == [q[0]] + q[1..][..k - 1];
  }

  /** Each place of the tail is one further on, and its entry moves up as far as before or one place more. */
  lemma PlaceNext(names: seq<Account>, name: Account, rest: seq<Account>, k: nat)
    requires 0 < k < |names| && names[k] != name && IsWithout(names[1..], name, rest)
    ensures var r := (if names[0] != name then [names[0]] else []) + rest;
            0 <= k - Before(names, name, k) < |r| && r[k - Before(names, name, k)] == names[k]
  {
    hide Before;
    BeforeNext(names, name, k);
    assert names[1..][k - 1] == names[k];
    var i := k - 1 - Before(names[1..], name, k - 1);
    assert 0 <= i < |rest| && rest[i] == names[k];
  }

  lemma WithoutNext(names: seq<Account>, name: Account, rest: seq<Account>)
    requires names != [] && IsWithout(names[1..], name, rest)
    ensures IsWithout(names, name, (if names[0] != name then [names[0]] else []) + rest)
  {
    hide Before;
    var r := (if names[0] != name then [names[0]] else []) + rest;
    BeforeNext(names, name, |names|);
    NoneBefore(names, name);
    forall k | 0 <= k < |names| && names[k] != name
      ensures 0 <= k - Before(names, name, k) < |r| && r[k - Before(names, name, k)] == names[k]
    {
      if k > 0 { PlaceNext(names, name, rest, k); }
    }
  }

  lemma {:induction false} NotNamedIs(names: seq<Account>, name: Account)
    ensures IsWithout(names, name, NotNamed(names, name))
    decreases names
  {
    if names != [] {
      hide IsWithout;
      NotNamedIs(names[1..], name);
      WithoutNext(names, name, NotNamed(names[1..], name));
    } else {
      NoneBefore(names, name);
    }
  }

  lemma NoneBefore(q: seq<Account>, name: Account)
    ensures Before(q, name, 0) == 0
  {
  }

  lemma {:induction false} NobodyElse(names: seq<Account>, name: Account)
    ensures NotNamed(names, name) == [] <==> forall x :: x in names ==> x == name
    decreases names
  {
    if names != [] {
      NobodyElse(names[1..], name);
      assert names[0] in names && forall x :: x in names <==> x == names[0] || x in names[1..];
    }
  }

  // ---- The cases ---------------------------------------------------------------------------

  /** An event about the call that an in-PHONE screen shows. */
  predicate Own(u: Ui, e: PhoneEvent) {
    u.inPhone && u.callId == Some(e.callId)
  }

  /** Someone left the active call on this screen. */
  predicate SomeoneLeft(u: Ui, e: PhoneEvent) {
    Own(u, e) && u.state == CallActive && e.kind == EventHangup && e.callee == ""
  }

  /** And nobody else is shown in it. */
  predicate EveryoneLeft(u: Ui, e: PhoneEvent) {
    SomeoneLeft(u, e) && forall name :: name in u.callsWith ==> name == e.caller
  }

  /** The screen of a session in PHONE and in no call. */
  predicate ShownIdle(u: Ui, u': Ui) {
    u' == u.(state := CallIdle, callId := None, incoming := None, callsWith := [], viewports := [u.username])
  }

  /** The session hangs up its own call exactly when everyone else it shows has left it. */
  lemma HangsUpExactly(u: Ui, e: PhoneEvent)
    ensures Handle(u, e).1 <==> EveryoneLeft(u, e)
    ensures EveryoneLeft(u, e) ==> ShownIdle(u, Handle(u, e).0)
  {
    NobodyElse(u.callsWith, e.caller);
  }

  /** Otherwise a departure takes one name off the screen, and changes nothing else. */
  lemma DepartureShown(u: Ui, e: PhoneEvent)
    requires SomeoneLeft(u, e) && !EveryoneLeft(u, e)
    ensures var u' := Handle(u, e).0;
            && u' == u.(callsWith := u'.callsWith, viewports := u'.viewports)
            && IsWithout(u.callsWith, e.caller, u'.callsWith) && IsWithout(u.viewports, e.caller, u'.viewports)
  {
    hide NotNamed, IsWithout;
    NobodyElse(u.callsWith, e.caller);
    NotNamedIs(u.callsWith, e.caller);
    NotNamedIs(u.viewports, e.caller);
  }

  /** An answer makes a pending call active; in an active one it shows the newcomer, once, and ends the wait for that account. */
  lemma AnswerShown(u: Ui, e: PhoneEvent)
    requires Own(u, e) && e.kind == EventAnswer && u.state != CallIdle
    ensures var u' := Handle(u, e).0;
            if u.state == CallPending then u' == u.(state := CallActive)
            else
              && u' == u.(callsWith := u'.callsWith, viewports := u'.viewports, addTarget := u'.addTarget)
              && (if e.callee in u.viewports then u'.callsWith == u.callsWith && u'.viewports == u.viewports
                  else u'.callsWith == u.callsWith + [e.callee] && u'.viewports == u.viewports + [e.callee])
              && (u'.addTarget == None <==> u.addTarget == None || u.addTarget == Some(e.callee))
              && (u'.addTarget.Some? ==> u'.addTarget == u.addTarget)
  {
  }

  /** A ring that came to nothing ends a pending call's screen; an active one only stops waiting for that account. */
  lemma RefusalShown(u: Ui, e: PhoneEvent)
    requires Own(u, e) && (e.kind == EventReject || e.kind == EventCalleeGone || e.kind == EventCalleeUnavailable)
    ensures var u' := Handle(u, e).0;
            if u.state == CallActive then
              && u' == u.(addTarget := u'.addTarget)
              && (u'.addTarget == None <==> u.addTarget == None || u.addTarget == Some(e.callee))
              && (u'.addTarget.Some? ==> u'.addTarget == u.addTarget)
            else ShownIdle(u, u')
  {
  }

  /** Whether the event may retract the ring that the screen notes, or only if it is that ring's. */
  predicate Retracts(u: Ui, e: PhoneEvent) {
    if !u.inPhone then e.kind == EventHangup || e.kind == EventReject || e.kind == EventAnswerElsewhere
    else e.kind == EventAnswerElsewhere || (e.kind == EventHangup && u.state == CallIdle)
  }

  /** A ring is noted exactly by a session in no call, and retracted by its own call's events alone. */
  lemma RingNoted(u: Ui, e: PhoneEvent)
    requires e.kind == EventRing || Retracts(u, e)
    ensures var u' := Handle(u, e).0;
            && u' == u.(incoming := u'.incoming)
            && (e.kind == EventRing ==> u'.incoming == if !u.inPhone || u.state == CallIdle then Some(e.callId) else u.incoming)
            && (e.kind != EventRing ==> (u'.incoming == None <==> u.incoming == None || u.incoming == Some(e.callId)))
            && (e.kind != EventRing && u'.incoming.Some? ==> u'.incoming == u.incoming)
  {
  }

  /** The branch kept as a guard: an EventHangup for the pending call on the screen. */
  predicate Guarded(u: Ui, e: PhoneEvent) {
    Own(u, e) && u.state == CallPending && e.kind == EventHangup
  }

  lemma GuardShown(u: Ui, e: PhoneEvent)
    requires Guarded(u, e)
    ensures Handle(u, e).0 == u.(incoming := None)
  {
  }

  /** Every other event leaves the screen as it was. */
  lemma NothingShown(u: Ui, e: PhoneEvent)
    requires !SomeoneLeft(u, e) && !Guarded(u, e) && e.kind != EventRing && !Retracts(u, e)
    requires !(Own(u, e) && e.kind == EventAnswer && u.state != CallIdle)
    requires !(Own(u, e) && (e.kind == EventReject || e.kind == EventCalleeGone || e.kind == EventCalleeUnavailable))
    ensures Handle(u, e) == (u, false)
  {
  }
}
