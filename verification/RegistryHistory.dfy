/**
  The registry over whole runs: the two indexes never come apart, a session ID is
  never used again, and what a session receives is what it was sent, in order,
  minus what was sent while eight events were waiting.
 */
module RegistryHistory {
  import opened Registry

  datatype RegStep =
    | DoRegister(username: Account, role: string, adminVisible: bool, app: string)
    | DoUnregister(sid: SessionId)
    | DoSend(sid: SessionId, event: PhoneEvent)
    | DoReceive(sid: SessionId)
    | DoNotify(event: PhoneEvent)

  ghost function After(r: Presence, step: RegStep): Presence {
    match step
    case DoRegister(username, role, adminVisible, app) => Register(r, username, role, adminVisible, app)
    case DoUnregister(sid) => Unregister(r, sid)
    case DoSend(sid, e) => Send(r, sid, e)
    case DoReceive(sid) => if sid in r.index && r.index[sid].notify != [] then Receive(r, sid) else r
    case DoNotify(e) => FanOut(r, AdminSessions(r), e)
  }

  ghost function AfterAll(r: Presence, steps: seq<RegStep>): Presence
    decreases steps
  {
    if steps == [] then r else AfterAll(After(r, steps[0]), steps[1..])
  }

  function Waiting(r: Presence, s: SessionId): seq<PhoneEvent> {
    if s in r.index then r.index[s].notify else []
  }

  /** What this step sends to the session. */
  ghost function SentBy(r: Presence, step: RegStep, s: SessionId): seq<PhoneEvent> {
    match step
    case DoSend(sid, e) => if sid == s then [e] else []
    case DoNotify(e) => if s in AdminSessions(r) then [e] else []
    case _ => []
  }

  /** What the queue keeps of it: nothing if the session is unknown or eight events wait. */
  ghost function TakenIn(r: Presence, step: RegStep, s: SessionId): seq<PhoneEvent> {
    if s in r.index && |Waiting(r, s)| < QUEUE_CAPACITY then SentBy(r, step, s) else []
  }

  ghost function TakenOff(r: Presence, step: RegStep, s: SessionId): seq<PhoneEvent> {
    if step == DoReceive(s) && Waiting(r, s) != [] then [Waiting(r, s)[0]] else []
  }

  /** All that was sent to the session while it was registered with fewer than eight events waiting, in order. */
  ghost function Accepted(r: Presence, steps: seq<RegStep>, s: SessionId): seq<PhoneEvent>
    decreases steps
  {
    if steps == [] then [] else
      TakenIn(r, steps[0], s) + Accepted(After(r, steps[0]), steps[1..], s)
  }

  /** All that the session took off its queue, in order. */
  ghost function Received(r: Presence, steps: seq<RegStep>, s: SessionId): seq<PhoneEvent>
    decreases steps
  {
    if steps == [] then [] else
      TakenOff(r, steps[0], s) + Received(After(r, steps[0]), steps[1..], s)
  }

  lemma StepAgrees(r: Presence, step: RegStep)
    requires Agree(r)
    ensures Agree(After(r, step)) && r.nextId <= After(r, step).nextId
  {
    hide FanOut, Send, Register, Unregister;
    match step
    case DoRegister(username, role, adminVisible, app) =>
      RegisterAgrees(r, username, role, adminVisible, app);
      CounterGrows(r, step);
    case DoUnregister(sid) =>
      UnregisterAgrees(r, sid);
      CounterGrows(r, step);
    case DoSend(sid, e) =>
      SendGrows(r, sid, e, iset{e});
      GrownAgrees(r, After(r, step), iset{e}, {sid});
    case DoReceive(sid) =>
    case DoNotify(e) =>
      FanOutGrows(r, AdminSessions(r), e, iset{e});
      GrownAgrees(r, After(r, step), iset{e}, AdminSessions(r));
  }

  lemma CounterGrows(r: Presence, step: RegStep)
    requires step.DoRegister? || step.DoUnregister?
    ensures r.nextId <= After(r, step).nextId
  {
  }

  /** Whatever is called in whatever order, the two indexes agree, and with them every count that WHO and FINGER show. */
  lemma {:induction false} IndexesAgree(r: Presence, steps: seq<RegStep>)
    requires Agree(r)
    ensures Agree(AfterAll(r, steps)) && r.nextId <= AfterAll(r, steps).nextId
    decreases steps
  {
    if steps != [] {
      StepAgrees(r, steps[0]);
      IndexesAgree(After(r, steps[0]), steps[1..]);
    }
  }

  lemma StaysGone(r: Presence, step: RegStep, s: SessionId)
    requires s <= r.nextId && s !in r.index
    ensures s !in After(r, step).index
  {
  }

  /** A session ID that is spent is never seen again. */
  lemma {:induction false} NeverReused(r: Presence, steps: seq<RegStep>, s: SessionId)
    requires Agree(r) && s <= r.nextId && s !in r.index
    ensures s !in AfterAll(r, steps).index
    decreases steps
  {
    if steps != [] {
      StaysGone(r, steps[0], s);
      StepAgrees(r, steps[0]);
      NeverReused(After(r, steps[0]), steps[1..], s);
    }
  }

  /** One step, for a session that outlives it. */
  lemma StepQueue(r: Presence, step: RegStep, s: SessionId)
    requires Agree(r) && (step == DoUnregister(s) ==> s !in r.index)
    ensures Waiting(r, s) + TakenIn(r, step, s) == TakenOff(r, step, s) + Waiting(After(r, step), s)
  {
    hide AdminSessions;
    if step == DoReceive(s) && Waiting(r, s) != [] {
      assert Waiting(r, s) == [Waiting(r, s)[0]] + Waiting(r, s)[1..];
    }
  }

  /** First in, first out, and lossy exactly when full. */
  lemma {:induction false} QueueHistory(r: Presence, steps: seq<RegStep>, s: SessionId)
    requires Agree(r) && s in AfterAll(r, steps).index
    ensures Waiting(r, s) + Accepted(r, steps, s) == Received(r, steps, s) + Waiting(AfterAll(r, steps), s)
    decreases steps
  {
    hide After, TakenIn, TakenOff, Waiting, Agree;
    if steps != [] {
      var step, r1 := steps[0], After(r, steps[0]);
      StepAgrees(r, step);
      NotReturning(r, s, steps[1..]);
      assert step == DoUnregister(s) ==> s !in r.index;
      QueueHistory(r1, steps[1..], s);
      StepQueue(r, step, s);
      Splice(Waiting(r, s), TakenIn(r, step, s), Accepted(r1, steps[1..], s), TakenOff(r, step, s), Waiting(r1, s),
             Received(r1, steps[1..], s), Waiting(AfterAll(r, steps), s));
    }
  }

  lemma Splice<T>(q: seq<T>, sent: seq<T>, later: seq<T>, got: seq<T>, q1: seq<T>, gotLater: seq<T>, q2: seq<T>)
    requires q + sent == got + q1 && q1 + later == gotLater + q2
    ensures q + (sent + later) == (got + gotLater) + q2
  {
    assert q + (sent + later) == (got + q1) + later == got + (q1 + later);
  }

  lemma NotReturning(r: Presence, s: SessionId, steps: seq<RegStep>)
    requires Agree(r)
    ensures s in r.index ==> s !in AfterAll(After(r, DoUnregister(s)), steps).index
  {
    StepAgrees(r, DoUnregister(s));
    if s in r.index { NeverReused(After(r, DoUnregister(s)), steps, s); }
  }
}
