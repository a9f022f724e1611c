/**
  internal/registry/registry.go as the object it is: two indexes updated in place
  under one lock, each method tied to the function of module Registry that says
  what it does to the registry's state.
 */
module SessionRegistry {
  import opened Wrappers
  import R = Registry
  import opened Ordering

  datatype SessionView = SessionView(username: R.Account, count: nat, currentApp: string)

  /** The sessions that the index holds for one account. */
  function IndexedFor(r: R.Presence, username: R.Account): set<R.SessionId> {
    set sid | sid in r.index && r.index[sid].username == username
  }

  lemma IndexedAreSessions(r: R.Presence, username: R.Account)
    requires R.Agree(r)
    ensures IndexedFor(r, username) == R.SessionsOf(r, username)
    ensures username in r.accounts <==> IndexedFor(r, username) != {}
  {
  }

  /** Who a viewer of this role may see. */
  predicate Visible(e: R.Entry, viewerRole: string) {
    !(e.role == "admin" && viewerRole != "admin" && !e.adminVisible)
  }

  /** What List and Get show of one account. */
  predicate Shows(r: R.Presence, v: SessionView) {
    v.username in r.accounts && v.count == |IndexedFor(r, v.username)| && v.currentApp == r.accounts[v.username].currentApp
  }

  // ---- Deliveries, one at a time ------------------------------------------------------

  lemma DeliverTwice(r: R.Presence, m1: map<R.SessionId, R.PhoneEvent>, m2: map<R.SessionId, R.PhoneEvent>)
    requires m1.Keys !! m2.Keys
    ensures R.Deliver(R.Deliver(r, m1), m2) == R.Deliver(r, m1 + m2)
  {
    var r1, r2, r' := R.Deliver(r, m1), R.Deliver(R.Deliver(r, m1), m2), R.Deliver(r, m1 + m2);
    assert forall s :: s in m1 + m2 <==> s in m1 || s in m2;
    forall s | s in r.index ensures r2.index[s] == r'.index[s] {
    }
    assert r2.index == r'.index;
    forall s ensures s in r2.lost <==> s in r'.lost {
      assert s in m2 ==> (R.Full(r1, s) <==> R.Full(r, s));
    }
    assert r2.lost == r'.lost;
  }

  /** A fan-out is its sends one after another, in any order. */
  lemma FanOutOneMore(r: R.Presence, done: set<R.SessionId>, sid: R.SessionId, e: R.PhoneEvent)
    requires sid !in done
    ensures R.Send(R.FanOut(r, done, e), sid, e) == R.FanOut(r, done + {sid}, e)
  {
    hide R.Deliver;
    DeliverTwice(r, R.ToAll(done, e), map[sid := e]);
    assert R.ToAll(done, e) + map[sid := e] == R.ToAll(done + {sid}, e);
  }

  lemma FanOutNobody(r: R.Presence, e: R.PhoneEvent)
    ensures R.FanOut(r, {}, e) == r
  {
    assert R.FanOut(r, {}, e).index == r.index;
  }

  lemma {:induction false} SendEachOneMore(r: R.Presence, sids: seq<R.SessionId>, sid: R.SessionId, e: R.PhoneEvent)
    ensures R.SendEach(r, sids + [sid], e) == R.Send(R.SendEach(r, sids, e), sid, e)
    decreases sids
  {
    hide R.Send;
    if sids == [] {
      assert ([] + [sid])[1..] == [];
      assert R.SendEach(R.Send(r, sid, e), [], e) == R.Send(r, sid, e);
    } else {
      assert (sids + [sid])[1..] == sids[1..] + [sid];
      SendEachOneMore(R.Send(r, sids[0], e), sids[1..], sid, e);
    }
  }

  lemma SendAgrees(r: R.Presence, sid: R.SessionId, e: R.PhoneEvent)
    ensures R.Agree(r) ==> R.Agree(R.Send(r, sid, e))
  {
  }

  // ---- The object -----------------------------------------------------------------------

  class Registry {
    var accounts: map<R.Account, R.Entry>
    var sessionIndex: map<R.SessionId, R.Session>
    var nextID: nat
    var done: set<R.SessionId>
    ghost var closedTwice: bool
    ghost var lost: set<R.SessionId>

    ghost function View(): R.Presence
      reads this
    {
      R.Presence(accounts, sessionIndex, nextID, done, closedTwice, lost)
    }

    ghost predicate Valid()
      reads this
    {
      R.Agree(View())
    }

    constructor ()
      ensures Valid() && View() == R.EMPTY
    {
      accounts, sessionIndex, nextID, done, closedTwice, lost := map[], map[], 0, {}, false, {};
    }

    method Register(username: R.Account, role: string, adminVisible: bool, initialApp: string) returns (sid: R.SessionId)
      requires Valid()
      modifies this
      ensures Valid() && View() == R.Register(old(View()), username, role, adminVisible, initialApp)
      ensures sid == View().nextId && sid !in old(sessionIndex) && sid in R.SessionsOf(View(), username)
    {
      hide R.Agree, R.SessionsOf;
      R.RegisterAgrees(View(), username, role, adminVisible, initialApp);
      ghost var before := View();
      nextID := nextID + 1;
      sid := nextID;
      if username !in accounts {
        accounts := accounts[username := R.Entry(role, adminVisible, initialApp, {})];
      }
      var e := accounts[username];
      accounts := accounts[username := e.(sessions := e.sessions + {sid})];
      sessionIndex := sessionIndex[sid := R.Session(username, [], false)];
      done := done + {sid};
      assert View() == R.Register(before, username, role, adminVisible, initialApp);
    }

    method Unregister(sid: R.SessionId)
      requires Valid()
      modifies this
      ensures Valid() && View() == R.Unregister(old(View()), sid)
      ensures sid !in sessionIndex && !closedTwice
    {
      R.UnregisterAgrees(View(), sid);
      if sid !in sessionIndex { return; }
      var ss := sessionIndex[sid];
      sessionIndex := sessionIndex - {sid};
      closedTwice := closedTwice || sid !in done;
      done := done - {sid};
      if ss.username in accounts {
        var e := accounts[ss.username];
        var rest := e.sessions - {sid};
        if rest == {} {
          accounts := accounts - {ss.username};
        } else {
          accounts := accounts[ss.username := e.(sessions := rest)];
        }
      }
    }

    method SetApp(username: R.Account, app: string)
      requires Valid()
      modifies this
      ensures Valid() && sessionIndex == old(sessionIndex) && nextID == old(nextID) && done == old(done) && lost == old(lost)
      ensures accounts == if username in old(accounts) then old(accounts)[username := old(accounts)[username].(currentApp := app)]
                          else old(accounts)
    {
      if username in accounts {
        accounts := accounts[username := accounts[username].(currentApp := app)];
      }
    }

    method SendToSession(sid: R.SessionId, e: R.PhoneEvent)
      modifies this
      ensures View() == R.Send(old(View()), sid, e) && accounts == old(accounts)
      ensures forall s :: s != sid && s in sessionIndex ==> s in old(sessionIndex) && sessionIndex[s] == old(sessionIndex)[s]
      ensures old(Valid()) ==> Valid()
    {
      SendAgrees(View(), sid, e);
      hide R.Agree;
      if sid in sessionIndex {
        var ss := sessionIndex[sid];
        if |ss.notify| < R.QUEUE_CAPACITY {
          sessionIndex := sessionIndex[sid := ss.(notify := ss.notify + [e])];
        } else {
          lost := lost + {sid};
        }
      }
      assert View().index == R.Send(old(View()), sid, e).index;
      assert View().lost == R.Send(old(View()), sid, e).lost;
    }

    method SessionsOf(username: R.Account) returns (ids: seq<R.SessionId>)
      ensures R.Members(ids) == R.SessionsOf(View(), username)
      ensures forall i, j :: 0 <= i < j < |ids| ==> ids[i] != ids[j]
    {
      ids := [];
      if username !in accounts { return; }
      var rest := accounts[username].sessions;
      while rest != {}
        invariant R.Members(ids) + rest == accounts[username].sessions && R.Members(ids) !! rest
        invariant forall i, j :: 0 <= i < j < |ids| ==> ids[i] != ids[j]
        decreases |rest|
      {
        var sid :| sid in rest;
        assert R.Members(ids + [sid]) == R.Members(ids) + {sid};
        assert forall i :: 0 <= i < |ids| ==> ids[i] in R.Members(ids);
        ids := ids + [sid];
        rest := rest - {sid};
      }
    }

    method Connected(username: R.Account) returns (yes: bool)
      ensures yes <==> R.Connected(View(), username)
    {
      yes := username in accounts && |accounts[username].sessions| > 0;
      if username in accounts && |accounts[username].sessions| == 0 {
        assert accounts[username].sessions == {};
      }
    }

    method Get(username: R.Account) returns (view: Option<SessionView>)
      requires Valid()
      ensures view == None <==> IndexedFor(View(), username) == {}
      ensures view.Some? ==> view.value.username == username && Shows(View(), view.value)
    {
      IndexedAreSessions(View(), username);
      if username !in accounts { return None; }
      var e := accounts[username];
      return Some(SessionView(username, |e.sessions|, e.currentApp));
    }

    /** A snapshot in alphabetical order of everyone the viewer may see, each once. */
    method List(viewerRole: string) returns (views: seq<SessionView>)
      requires Valid()
      ensures forall i, j :: 0 <= i < j < |views| ==> Less(views[i].username, views[j].username)
      ensures forall v :: v in views ==> Shows(View(), v) && Visible(accounts[v.username], viewerRole)
      ensures forall u :: u in accounts && Visible(accounts[u], viewerRole) ==> exists v :: v in views && v.username == u
      ensures forall u :: (exists v :: v in views && v.username == u) <==>
                u in accounts && (viewerRole == "admin" || accounts[u].role != "admin" || accounts[u].adminVisible)
    {
      views := [];
      var rest := accounts.Keys;
      while rest != {}
        invariant rest <= accounts.Keys
        invariant SortedViews(views)
        invariant forall v :: v in views ==> v.username !in rest && Shows(View(), v) && Visible(accounts[v.username], viewerRole)
        invariant forall u :: u in accounts && u !in rest && Visible(accounts[u], viewerRole) ==> Listed(views, u)
        decreases |rest|
      {
        var u :| u in rest;
        rest := rest - {u};
        var e := accounts[u];
        if Visible(e, viewerRole) {
          IndexedAreSessions(View(), u);
          views := InsertView(views, SessionView(u, |e.sessions|, e.currentApp));
        }
      }
      forall u | u in accounts && Visible(accounts[u], viewerRole) ensures exists v :: v in views && v.username == u {
        assert Listed(views, u);
      }
    }

    method SetKick(sid: R.SessionId)
      requires Valid()
      modifies this
      ensures Valid() && accounts == old(accounts) && nextID == old(nextID) && done == old(done) && lost == old(lost)
      ensures sessionIndex == if sid in old(sessionIndex) then old(sessionIndex)[sid := old(sessionIndex)[sid].(kick := true)]
                              else old(sessionIndex)
    {
      if sid in sessionIndex {
        sessionIndex := sessionIndex[sid := sessionIndex[sid].(kick := true)];
      }
    }

    /** The sessions whose hook Kick calls once the lock is released: every session of the account that has one, once. */
    method Kick(username: R.Account) returns (kicked: seq<R.SessionId>)
      requires Valid()
      ensures R.Members(kicked) == set s | s in IndexedFor(View(), username) && sessionIndex[s].kick
      ensures |kicked| == |R.Members(kicked)|
    {
      kicked := [];
      IndexedAreSessions(View(), username);
      if username !in accounts { return; }
      var rest := accounts[username].sessions;
      while rest != {}
        invariant rest <= accounts[username].sessions
        invariant R.Members(kicked) == set s | s in accounts[username].sessions && s !in rest && sessionIndex[s].kick
        invariant |kicked| == |R.Members(kicked)|
        decreases |rest|
      {
        var sid :| sid in rest;
        rest := rest - {sid};
        if sessionIndex[sid].kick {
          assert R.Members(kicked + [sid]) == R.Members(kicked) + {sid};
          kicked := kicked + [sid];
        }
      }
    }

    method NotifyAdmins(e: R.PhoneEvent)
      requires Valid()
      modifies this
      ensures Valid() && View() == R.FanOut(old(View()), R.AdminSessions(old(View())), e)
    {
      hide R.Agree, R.FanOut, R.AdminSessions, AdminsAmong;
      ghost var r0, told := View(), {};
      var names := accounts.Keys;
      FanOutNobody(r0, e);
      NoAdmins(r0);
      while names != {}
        invariant names <= accounts.Keys && accounts == r0.accounts && Valid()
        invariant told == AdminsAmong(r0, r0.accounts.Keys - names)
        invariant View() == R.FanOut(r0, told, e)
        decreases |names|
      {
        var u :| u in names;
        ghost var before := names;
        names := names - {u};
        AdminsOneMore(r0, r0.accounts.Keys - names, u);
        assert (r0.accounts.Keys - names) - {u} == r0.accounts.Keys - before;
        if accounts[u].role == "admin" {
          told := NotifyAccount(u, e, r0, told);
        }
      }
      assert r0.accounts.Keys - {} == r0.accounts.Keys;
      AllAdmins(r0);
    }

    /** Every session of one account, after `told` others. */
    method NotifyAccount(u: R.Account, e: R.PhoneEvent, ghost r0: R.Presence, ghost told: set<R.SessionId>)
      returns (ghost told': set<R.SessionId>)
      requires Valid() && u in accounts && View() == R.FanOut(r0, told, e) && told !! accounts[u].sessions
      modifies this
      ensures Valid() && accounts == old(accounts)
      ensures told' == told + accounts[u].sessions && View() == R.FanOut(r0, told', e)
    {
      hide R.Agree, R.FanOut, R.Send;
      told' := told;
      var rest := accounts[u].sessions;
      while rest != {}
        invariant accounts == old(accounts) && rest <= accounts[u].sessions && Valid()
        invariant told' == told + (accounts[u].sessions - rest)
        invariant View() == R.FanOut(r0, told', e)
        decreases |rest|
      {
        var sid :| sid in rest;
        rest := rest - {sid};
        FanOutOneMore(r0, told', sid, e);
        told' := told' + {sid};
        SendToSession(sid, e);
      }
    }
  }

  ghost function AdminsAmong(r: R.Presence, names: set<R.Account>): set<R.SessionId> {
    set u, sid | u in r.accounts && u in names && r.accounts[u].role == "admin" && sid in r.accounts[u].sessions :: sid
  }

  lemma NoAdmins(r: R.Presence)
    ensures AdminsAmong(r, r.accounts.Keys - r.accounts.Keys) == {}
  {
  }

  lemma AllAdmins(r: R.Presence)
    ensures AdminsAmong(r, r.accounts.Keys) == R.AdminSessions(r)
  {
  }

  lemma AccountsApart(r: R.Presence, u: R.Account, v: R.Account)
    requires R.Agree(r) && u in r.accounts && v in r.accounts && u != v
    ensures r.accounts[u].sessions !! r.accounts[v].sessions
  {
    forall sid | sid in r.accounts[u].sessions ensures sid !in r.accounts[v].sessions {
      assert r.index[sid].username == u;
    }
  }

  lemma AdminsOneMore(r: R.Presence, names: set<R.Account>, u: R.Account)
    requires R.Agree(r) && u in names && u in r.accounts
    ensures AdminsAmong(r, names) == AdminsAmong(r, names - {u}) + (if r.accounts[u].role == "admin" then r.accounts[u].sessions else {})
    ensures AdminsAmong(r, names - {u}) !! r.accounts[u].sessions
  {
    hide R.Agree;
    forall sid | sid in AdminsAmong(r, names - {u}) ensures sid !in r.accounts[u].sessions {
      var v :| v in r.accounts && v in names - {u} && sid in r.accounts[v].sessions;
      AccountsApart(r, u, v);
    }
    var more := if r.accounts[u].role == "admin" then r.accounts[u].sessions else {};
    forall sid ensures sid in AdminsAmong(r, names) <==> sid in AdminsAmong(r, names - {u}) + more {
      if v :| v in r.accounts && v in names && r.accounts[v].role == "admin" && sid in r.accounts[v].sessions {
        assert v == u || v in names - {u};
      }
    }
  }

  // ---- Keeping the list in order -----------------------------------------------------------

  predicate SortedViews(views: seq<SessionView>) {
    forall i, j :: 0 <= i < j < |views| ==> Less(views[i].username, views[j].username)
  }

  predicate Listed(views: seq<SessionView>, u: R.Account) {
    exists v :: v in views && v.username == u
  }

  function InsertView(views: seq<SessionView>, v: SessionView): (r: seq<SessionView>)
    requires SortedViews(views) && forall w :: w in views ==> w.username != v.username
    ensures SortedViews(r)
    ensures forall w :: w in r <==> w in views || w == v
    ensures forall u :: Listed(r, u) <==> Listed(views, u) || u == v.username
  {
    if views == [] then [v]
    else if Less(v.username, views[0].username) then
      LessThanAll(views, v);
      [v] + views
    else
      LessTotal(v.username, views[0].username);
      assert views[0] in views && forall w :: w in views[1..] ==> w in views;
      var rest := InsertView(views[1..], v);
      assert forall w :: w in rest ==> Less(views[0].username, w.username);
      assert v in [views[0]] + rest;
      [views[0]] + rest
  }

  lemma LessThanAll(views: seq<SessionView>, v: SessionView)
    requires SortedViews(views) && views != [] && Less(v.username, views[0].username)
    ensures forall w :: w in views ==> Less(v.username, w.username)
  {
    forall w | w in views ensures Less(v.username, w.username) {
      if w != views[0] { LessTransitive(v.username, views[0].username, w.username); }
    }
  }
}
