/**
  What each method of the call table returns and when: every error by an exact
  condition on accounts, sessions, calls and ring entries, and what an accepted call
  leaves in the table.
 */
module TableLaws {
  import opened Wrappers
  import opened Ordering
  import opened Registry
  import opened CallTable
  import opened TableInvariant
  import opened TableMotion

  // ---- Who is free -------------------------------------------------------------------------

  /** The session is logged in to the account. */
  predicate LoggedIn(b: Switchboard, user: Account, s: SessionId) {
    s in b.reg.index && b.reg.index[s].username == user
  }

  /** The session has a seat in some call. */
  ghost predicate Seated(b: Switchboard, s: SessionId) {
    exists id, i :: id in b.calls && 0 <= i < |b.calls[id].participants| && b.calls[id].participants[i].sid == s
  }

  /** A pending call is offered to the account. */
  ghost predicate Dialled(b: Switchboard, user: Account) {
    exists id :: id in b.calls && b.calls[id].state == CallPending && b.calls[id].callee == user
  }

  /** A conference call is offered to it. */
  ghost predicate Invited(b: Switchboard, user: Account) {
    exists k :: k in b.adds && k.callee == user
  }

  ghost predicate Online(b: Switchboard, user: Account) {
    exists s :: LoggedIn(b, user, s)
  }

  ghost predicate HasFree(b: Switchboard, user: Account) {
    exists s :: LoggedIn(b, user, s) && !Seated(b, s)
  }

  lemma SeatedMeans(b: Switchboard, s: SessionId)
    ensures InCall(b, s) <==> Seated(b, s)
  {
    if id :| id in b.calls && s in Sids(b.calls[id].participants) {
      var i :| 0 <= i < |b.calls[id].participants| && Sids(b.calls[id].participants)[i] == s;
      assert b.calls[id].participants[i].sid == s;
    }
    if id, i :| id in b.calls && 0 <= i < |b.calls[id].participants| && b.calls[id].participants[i].sid == s {
      assert Sids(b.calls[id].participants)[i] == s;
    }
  }

  /** The sessions that a ring reaches. */
  lemma FreeSessions(b: Switchboard, user: Account, s: SessionId)
    requires Agree(b.reg)
    ensures s in Ringable(b, user) <==> LoggedIn(b, user, s) && !Seated(b, s)
  {
    SeatedMeans(b, s);
  }

  lemma OnlineMeans(b: Switchboard, user: Account)
    requires Agree(b.reg)
    ensures Connected(b.reg, user) <==> Online(b, user)
  {
    if Connected(b.reg, user) {
      var s :| s in b.reg.accounts[user].sessions;
      assert LoggedIn(b, user, s);
    }
  }

  lemma OfferedMeans(b: Switchboard, user: Account)
    ensures BeingRung(b, user) <==> Dialled(b, user) || Invited(b, user)
  {
    if id :| id in b.calls && b.calls[id].state == CallPending && b.calls[id].callee == user { assert DialRings(b, id, user); }
    if k :| k in b.adds && k.callee == user { assert AddRings(b, k, user); }
  }

  lemma FreeMeans(b: Switchboard, user: Account)
    requires Agree(b.reg)
    ensures Ringable(b, user) != {} <==> HasFree(b, user)
    ensures HasFree(b, user) ==> Online(b, user)
  {
    hide Ringable, Seated, Agree;
    if Ringable(b, user) != {} {
      var s :| s in Ringable(b, user);
      FreeSessions(b, user, s);
    }
    if s :| LoggedIn(b, user, s) && !Seated(b, s) { FreeSessions(b, user, s); }
  }

  // ---- Dial and Add --------------------------------------------------------------------------

  /** Each refusal of a ring has one condition, and the four are told in this order. */
  lemma AdmitRefuses(b: Switchboard, caller: Account, callee: Account)
    requires Agree(b.reg)
    ensures var r := Admit(b, caller, callee);
            && (r == Some(ErrSelfCall) <==> SameLetters(caller, callee))
            && (r == Some(ErrNotConnected) <==> !SameLetters(caller, callee) && !Online(b, callee))
            && (r == Some(ErrBeingRung) <==> !SameLetters(caller, callee) && Online(b, callee) && (Dialled(b, callee) || Invited(b, callee)))
            && (r == Some(ErrBusy) <==> !SameLetters(caller, callee) && Online(b, callee)
                                        && !Dialled(b, callee) && !Invited(b, callee) && !HasFree(b, callee))
            && (r == None <==> !SameLetters(caller, callee) && !Dialled(b, callee) && !Invited(b, callee) && HasFree(b, callee))
  {
    hide SameLetters, Online, Dialled, Invited, HasFree, EqualFold, Connected, BeingRung, Ringable, Agree;
    FoldMeans(caller, callee);
    OnlineMeans(b, callee);
    OfferedMeans(b, callee);
    FreeMeans(b, callee);
  }

  /** A dial that is refused changes nothing; one that is not leaves one pending call more, with its caller in it. */
  lemma DialResults(b: Switchboard, id: CallId, sid: SessionId, caller: Account, callee: Account)
    ensures var (b', err) := Dial(b, id, sid, caller, callee);
            && err == Admit(b, caller, callee)
            && if err != None then b' == b
               else b'.adds == b.adds && b'.calls == b.calls[id := Call(CallPending, caller, callee, [Participant(caller, sid, b.chans.serial)])]
  {
    hide PlaceDial, Admit;
    PlaceDialTable(b, id, sid, caller, callee);
  }

  /** An ADD is refused for want of an active call, or as a dial is; one that is not leaves one ring entry more, in its inviter's name. */
  lemma AddResults(b: Switchboard, id: CallId, caller: Account, callee: Account)
    ensures var (b', err) := Add(b, id, caller, callee);
            && (err == Some(ErrNotFound) <==> id !in b.calls)
            && (err == Some(ErrNotActive) <==> id in b.calls && b.calls[id].state != CallActive)
            && (forall r :: err == Some(Refused(r)) <==> Active(b, id) && Admit(b, caller, callee) == Some(r))
            && (err == None <==> Active(b, id) && Admit(b, caller, callee) == None)
            && if err != None then b' == b
               else b'.calls == b.calls && b'.adds == b.adds[AddKey(id, callee) := PendingRing(b.chans.serial, caller)]
  {
    hide Admit, RingAll, SendEach, OthersByName;
    if Active(b, id) { AddTable(b, id, caller, callee); }
  }

  lemma AddTable(b: Switchboard, id: CallId, caller: Account, callee: Account)
    requires id in b.calls
    ensures var b' := PlaceAdd(b, id, caller, callee);
            b'.calls == b.calls && b'.adds == b.adds[AddKey(id, callee) := PendingRing(b.chans.serial, caller)]
  {
    hide FanOut, SendEach, Ringable, OthersByName;
  }

  // ---- Answer and Reject ------------------------------------------------------------------------

  /** An answer is refused exactly when the call is gone, or is active with no ring entry for the account. */
  lemma AnswerResults(b: Switchboard, id: CallId, sid: SessionId, user: Account)
    requires Sound(b)
    ensures id in b.calls ==> b.calls[id].participants != []
    ensures var (b', err) := Answer(b, id, sid, user);
            && (err == Some(ErrNotFound) <==> id !in b.calls)
            && (err == Some(ErrAlreadyAnswered) <==> Active(b, id) && AddKey(id, user) !in b.adds)
            && (err == None <==> Pending(b, id) || (Active(b, id) && AddKey(id, user) in b.adds))
            && if err != None then b' == b
               else
                 && b'.calls == b.calls[id := Call(CallActive, b.calls[id].caller, b.calls[id].callee,
                                                   b.calls[id].participants + [Participant(user, sid, b.chans.serial)])]
                 && b'.adds == if Pending(b, id) then b.adds else b.adds - {AddKey(id, user)}
  {
    hide OneRing, ChansExact, AnswerDial, AnswerAdd;
    if id in b.calls {
      assert CallShape(b.calls[id]);
      if AnswerError(b, id, user) == None {
        AnswerCalls(b, id, sid, user);
        AnswerAddsKept(b, id, sid, user);
      }
    }
  }

  /** A rejection fails only when the call is gone. It ends a pending call; in an active one it ends that account's ring, if there is one. */
  lemma RejectResults(b: Switchboard, id: CallId, user: Account)
    requires Sound(b)
    ensures var (b', err) := Reject(b, id, user);
            && err == (if id in b.calls then None else Some(ErrNotFound))
            && b'.calls == (if Pending(b, id) then b.calls - {id} else b.calls)
            && b'.adds == (if Active(b, id) then b.adds - {AddKey(id, user)} else b.adds)
  {
    hide OneRing, ChansExact, SendEach;
    if id in b.calls { assert CallShape(b.calls[id]); }
  }

  // ---- The ends of rings and calls ---------------------------------------------------------------

  /** Cancelling an ADD ends that ring entry and no other. */
  lemma CancelResults(b: Switchboard, id: CallId, callee: Account, caller: Account)
    ensures var b' := CancelAdd(b, id, callee, caller);
            b'.calls == b.calls && b'.adds == b.adds - {AddKey(id, callee)}
  {
    hide FanOut, SendEach;
  }

  /** The reaper ends what is offered to an account that has no free session, and otherwise nothing. */
  lemma ReapResults(b: Switchboard, user: Account)
    requires Sound(b) && Agree(b.reg)
    ensures var b' := Reap(b, user);
            if HasFree(b, user) then b' == b
            else
              && (forall id :: id in b'.calls <==> id in b.calls && !(b.calls[id].state == CallPending && b.calls[id].callee == user))
              && (forall id :: id in b'.calls ==> b'.calls[id] == b.calls[id])
              && (forall k :: k in b'.adds <==> k in b.adds && k.callee != user)
              && (forall k :: k in b'.adds ==> b'.adds[k] == b.adds[k])
  {
    hide ChansExact, Shape, EndDial, ReapAdd, Ringable, HasFree, Agree;
    FreeMeans(b, user);
    if !HasFree(b, user) {
      if exists id :: DialRings(b, id, user) {
        var id :| DialRings(b, id, user) && Reap(b, user) == EndDial(b, id, ReapEvent(b, id, b.calls[id].caller, user));
        EndDialTable(b, id, ReapEvent(b, id, b.calls[id].caller, user));
        DialAlone(b, id, user);
      } else if exists k :: AddRings(b, k, user) {
        var k :| AddRings(b, k, user) && Reap(b, user) == ReapAdd(b, k);
        ReapAddTable(b, k);
        AddAlone(b, k, user);
      } else {
        NothingOffered(b, user);
      }
    }
  }

  lemma DialAlone(b: Switchboard, id: CallId, user: Account)
    requires OneRing(b) && DialRings(b, id, user)
    ensures forall c :: c in b.calls && b.calls[c].state == CallPending && b.calls[c].callee == user ==> c == id
    ensures forall k :: k in b.adds ==> k.callee != user
  {
    forall c | c in b.calls && b.calls[c].state == CallPending && b.calls[c].callee == user ensures c == id {
      assert DialRings(b, c, user);
    }
    forall k | k in b.adds ensures k.callee != user { assert !AddRings(b, k, user); }
  }

  lemma AddAlone(b: Switchboard, k: AddKey, user: Account)
    requires OneRing(b) && AddRings(b, k, user)
    ensures forall j :: j in b.adds && j.callee == user ==> j == k
    ensures forall c :: c in b.calls ==> !(b.calls[c].state == CallPending && b.calls[c].callee == user)
  {
    forall j | j in b.adds && j.callee == user ensures j == k { assert AddRings(b, j, user); }
    forall c | c in b.calls ensures !(b.calls[c].state == CallPending && b.calls[c].callee == user) { assert !DialRings(b, c, user); }
  }

  lemma NothingOffered(b: Switchboard, user: Account)
    requires (forall id :: !DialRings(b, id, user)) && (forall k :: !AddRings(b, k, user))
    ensures forall id :: id in b.calls ==> !(b.calls[id].state == CallPending && b.calls[id].callee == user)
    ensures forall k :: k in b.adds ==> k.callee != user
  {
    forall id | id in b.calls ensures !(b.calls[id].state == CallPending && b.calls[id].callee == user) { assert !DialRings(b, id, user); }
    forall k | k in b.adds ensures k.callee != user { assert !AddRings(b, k, user); }
  }

  lemma EndDialTable(b: Switchboard, id: CallId, e: PhoneEvent)
    requires id in b.calls
    ensures EndDial(b, id, e).calls == b.calls - {id} && EndDial(b, id, e).adds == b.adds
  {
    hide SendEach;
  }

  lemma ReapAddTable(b: Switchboard, k: AddKey)
    requires k in b.adds
    ensures ReapAdd(b, k).calls == b.calls && ReapAdd(b, k).adds == b.adds - {k}
  {
    hide SendEach;
  }

  /**
    A hangup gives up the first seat that the session has in the call. With the last
    seat the call goes, and every ring entry for it; nothing else does.
   */
  lemma HangupResults(b: Switchboard, id: CallId, sid: SessionId)
    ensures var b' := Hangup(b, id, sid);
            if id !in b.calls || (forall p :: p in b.calls[id].participants ==> p.sid != sid) then b' == b
            else
              exists i :: FirstSeat(b.calls[id].participants, i, sid) &&
                var ps := b.calls[id].participants;
                if |ps| == 1 then
                  && b'.calls == b.calls - {id}
                  && (forall k :: k in b'.adds <==> k in b.adds && k.callId != id) && (forall k :: k in b'.adds ==> b'.adds[k] == b.adds[k])
                else
                  b'.adds == b.adds && b'.calls == b.calls[id := b.calls[id].(participants := ps[..i] + ps[i + 1..])]
  {
    hide Leave;
    if id in b.calls {
      var ps := b.calls[id].participants;
      var i := Find(ps, sid);
      if i == |ps| {
        NoSeat(b, id, sid);
        assert forall p :: p in ps ==> p.sid != sid;
      } else {
        assert ps[i] in ps && FirstSeat(ps, i, sid);
        assert |ps[..i] + ps[i + 1..]| == |ps| - 1;
        LeaveTable(b, id, sid, i);
        LeaveTableAdds(b, id, sid);
      }
    }
  }

  /** The session's first seat in the list. */
  predicate FirstSeat(ps: seq<Participant>, i: int, sid: SessionId) {
    0 <= i < |ps| && ps[i].sid == sid && forall j :: 0 <= j < i ==> ps[j].sid != sid
  }

  lemma NoSeat(b: Switchboard, id: CallId, sid: SessionId)
    requires id in b.calls && Find(b.calls[id].participants, sid) == |b.calls[id].participants|
    ensures Leave(b, id, sid) == b
  {
  }
}
