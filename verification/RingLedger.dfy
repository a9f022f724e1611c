/**
  What becomes of every ring ever placed, counted over the events of a run: each is
  placed once and ended once at most, by one event; the rings placed, those outstanding
  and those ended balance; and a call has one participant for its caller and one for
  every answer, less those who left, for as long as it lives and when it is gone.
 */
module RingLedger {
  import opened Wrappers
  import opened Registry
  import opened CallTable
  import opened TableInvariant
  import opened TableMotion
  import opened Protocol
  import opened WorldInvariant
  import opened Agreement
  import opened Reachability
  import opened RingHistory
  import opened RingEvents
  import opened ScreenLaws

  // ---- Counting ------------------------------------------------------------------------

  /** The rings that an event ends. */
  function Ends(x: Happening): set<Chan> {
    match x
    case Quiet => {}
    case Places(_, _, _, _) => {}
    case Departs(_, rings, _) => rings
    case _ => {x.ring}
  }

  /** The ring that an event places. */
  function New(x: Happening): set<Chan> {
    if x.Places? then {x.ring} else {}
  }

  predicate Concerns(x: Happening, id: CallId) {
    !x.Quiet? && x.id == id
  }

  datatype Measure =
    | PlacedRing
    | AnsweredRing
    | DeclinedRing
    | CancelledRing
    | ReapedRing
    | TakenAlong(torn: bool)
    | PlacedIn(id: CallId)
    | EndedIn(id: CallId)
    | AddsIn(id: CallId)
    | AnswersIn(id: CallId)
    | DeparturesIn(id: CallId)
    | PlacingOf(ring: Chan)
    | EndingOf(ring: Chan)

  function Weight(m: Measure, x: Happening): nat {
    match m
    case PlacedRing => One(x.Places?)
    case AnsweredRing => One(x.Answers?)
    case DeclinedRing => One(x.Declines?)
    case CancelledRing => One(x.Cancels?)
    case ReapedRing => One(x.Reaps?)
    case TakenAlong(torn) => if x.Departs? && x.torn == torn then |x.rings| else 0
    case PlacedIn(id) => One(x.Places? && x.id == id)
    case EndedIn(id) => if Concerns(x, id) then |Ends(x)| else 0
    case AddsIn(id) => One(x.Places? && x.isAdd && x.id == id)
    case AnswersIn(id) => One(x.Answers? && x.id == id)
    case DeparturesIn(id) => One(x.Departs? && x.id == id)
    case PlacingOf(ring) => One(x.Places? && x.ring == ring)
    case EndingOf(ring) => One(ring in Ends(x))
  }

  function One(happened: bool): nat {
    if happened then 1 else 0
  }

  function Tally(m: Measure, h: seq<Happening>): nat {
    if h == [] then 0 else Tally(m, h[..|h| - 1]) + Weight(m, h[|h| - 1])
  }

  lemma TallyNext(m: Measure, h: seq<Happening>, x: Happening)
    ensures Tally(m, h + [x]) == Tally(m, h) + Weight(m, x)
  {
    assert (h + [x])[..|h|] == h;
  }

  lemma {:induction false} TallySplit(m: Measure, h: seq<Happening>, h': seq<Happening>)
    ensures Tally(m, h + h') == Tally(m, h) + Tally(m, h')
  {
    if h' == [] {
      assert h + h' == h;
    } else {
      var rest := h'[..|h'| - 1];
      assert (h + h')[..|h + h'| - 1] == h + rest;
      TallySplit(m, h, rest);
    }
  }

  // ---- What the counts come to, in every reachable state ----------------------------------

  /** Every ring placed is outstanding or was ended by one of the five kinds of event. */
  ghost predicate TotalsBalance(b: Switchboard, h: seq<Happening>) {
    Tally(PlacedRing, h) == |Stops(b)| + Tally(AnsweredRing, h) + Tally(DeclinedRing, h) + Tally(CancelledRing, h)
                        + Tally(ReapedRing, h) + Tally(TakenAlong(false), h) + Tally(TakenAlong(true), h)
  }

  ghost predicate RingBalances(b: Switchboard, h: seq<Happening>, ring: Chan) {
    && Tally(PlacingOf(ring), h) == Tally(EndingOf(ring), h) + One(ring in Stops(b))
    && Tally(PlacingOf(ring), h) <= One(ring in b.chans.made)
  }

  ghost predicate RingsOfCallBalance(b: Switchboard, h: seq<Happening>, id: CallId) {
    && Tally(PlacedIn(id), h) == |StopsIn(b, id)| + Tally(EndedIn(id), h)
    && Tally(PlacedIn(id), h) <= Tally(AddsIn(id), h) + One(!Fresh(b, id))
    && Tally(AnswersIn(id), h) <= Tally(EndedIn(id), h)
  }

  ghost predicate SeatsOfCallBalance(b: Switchboard, h: seq<Happening>, id: CallId) {
    && (Fresh(b, id) ==> id !in b.calls && Tally(AnswersIn(id), h) == 0 && Tally(DeparturesIn(id), h) == 0)
    && (Pending(b, id) ==> Tally(AnswersIn(id), h) == 0 && Tally(DeparturesIn(id), h) == 0)
    && (id in b.calls ==> |b.calls[id].participants| + Tally(DeparturesIn(id), h) == 1 + Tally(AnswersIn(id), h))
    && (id !in b.calls ==>
          || Tally(DeparturesIn(id), h) == 1 + Tally(AnswersIn(id), h)
          || (Tally(DeparturesIn(id), h) == 0 && Tally(AnswersIn(id), h) == 0))
  }

  /** All four accounts, for one call and one ring. */
  ghost predicate Ledger(b: Switchboard, h: seq<Happening>, id: CallId, ring: Chan) {
    TotalsBalance(b, h) && RingBalances(b, h, ring) && RingsOfCallBalance(b, h, id) && SeatsOfCallBalance(b, h, id)
  }

  lemma StopsAreMade(b: Switchboard)
    requires Sound(b)
    ensures Stops(b) <= b.chans.made
    ensures forall c: Chan :: c in Stops(b) <==> c in b.chans.open && !c.Incoming?
  {
    hide Shape, OneRing, Stops;
    forall c: Chan ensures c in Stops(b) <==> c in b.chans.open && !c.Incoming? { InStops(b, c); }
  }

  lemma SizeLess<T>(a: set<T>, b: set<T>)
    requires b <= a
    ensures |a - b| == |a| - |b|
  {
  }

  lemma TotalsStep(b: Switchboard, b': Switchboard, h: seq<Happening>, x: Happening)
    requires Stops(b) <= b.chans.made && Explains(b, b', x) && TotalsBalance(b, h)
    ensures TotalsBalance(b', h + [x])
  {
    hide Stops, StopsIn, Explains, Weight, Ends, Tally;
    forall m ensures Tally(m, h + [x]) == Tally(m, h) + Weight(m, x) { TallyNext(m, h, x); }
    StopsStep(b, b', x);
    EndsByKind(x);
  }

  lemma StopsStep(b: Switchboard, b': Switchboard, x: Happening)
    requires Stops(b) <= b.chans.made && Explains(b, b', x)
    ensures |Stops(b')| + |Ends(x)| == |Stops(b)| + Weight(PlacedRing, x)
  {
    hide Stops, Ends;
    EndsAreOutstanding(b, b', x);
    if x.Places? { PlacesNew(b, b', x); }
    SizeLess(Stops(b), Ends(x));
  }

  lemma PlacesNew(b: Switchboard, b': Switchboard, x: Happening)
    requires Explains(b, b', x) && x.Places?
    ensures x.ring !in b.chans.made && x.ring in b'.chans.made && CallOf(x.ring) == x.id && Ends(x) == {}
  {
    hide Stops;
  }

  lemma EndsByKind(x: Happening)
    ensures |Ends(x)| == Weight(AnsweredRing, x) + Weight(DeclinedRing, x) + Weight(CancelledRing, x)
                         + Weight(ReapedRing, x) + Weight(TakenAlong(false), x) + Weight(TakenAlong(true), x)
  {
  }

  lemma EndsAreOutstanding(b: Switchboard, b': Switchboard, x: Happening)
    requires Explains(b, b', x)
    ensures Ends(x) <= Stops(b)
    ensures Stops(b') == Stops(b) - Ends(x) + New(x)
    ensures forall c :: c in Ends(x) ==> CallOf(c) == x.id
  {
    hide Stops;
  }

  lemma RingStep(b: Switchboard, b': Switchboard, h: seq<Happening>, x: Happening, ring: Chan)
    requires b.chans.made <= b'.chans.made && Explains(b, b', x) && RingBalances(b, h, ring)
    ensures RingBalances(b', h + [x], ring)
  {
    hide Stops, Explains, Ends;
    TallyNext(PlacingOf(ring), h, x);
    TallyNext(EndingOf(ring), h, x);
    EndsAreOutstanding(b, b', x);
    if x.Places? { PlacesNew(b, b', x); }
  }

  lemma StopsInMove(b: Switchboard, b': Switchboard, x: Happening, id: CallId)
    requires Explains(b, b', x)
    ensures StopsIn(b', id) == if Concerns(x, id) then StopsIn(b, id) - Ends(x) + New(x) else StopsIn(b, id)
    ensures Concerns(x, id) ==> Ends(x) <= StopsIn(b, id)
  {
    hide Stops, Explains, Ends;
    EndsAreOutstanding(b, b', x);
    if x.Places? { PlacesNew(b, b', x); }
    if x.Quiet? { assert Ends(x) == {} by { QuietEnds(); } }
    forall c ensures c in StopsIn(b', id) <==> c in if Concerns(x, id) then StopsIn(b, id) - Ends(x) + New(x) else StopsIn(b, id) {
    }
  }

  lemma QuietEnds()
    ensures Ends(Quiet) == {}
  {
  }

  lemma StopsInStep(b: Switchboard, b': Switchboard, x: Happening, id: CallId)
    requires Stops(b) <= b.chans.made && Explains(b, b', x)
    ensures |StopsIn(b', id)| + Weight(EndedIn(id), x) == |StopsIn(b, id)| + Weight(PlacedIn(id), x)
  {
    hide Stops, Explains, Ends;
    StopsInMove(b, b', x, id);
    if x.Places? {
      PlacesNew(b, b', x);
      assert x.ring !in StopsIn(b, id);
      hide StopsIn;
      assert StopsIn(b, id) - Ends(x) == StopsIn(b, id);
    } else if Concerns(x, id) {
      hide StopsIn;
      assert New(x) == {};
      assert StopsIn(b', id) == StopsIn(b, id) - Ends(x);
      SizeLess(StopsIn(b, id), Ends(x));
    }
  }

  /** A ring that is not an ADD's is the call's first, and an answer ends a ring. */
  lemma FirstRingOnce(b: Switchboard, b': Switchboard, x: Happening, id: CallId)
    requires b.chans.made <= b'.chans.made && Explains(b, b', x)
    ensures Weight(PlacedIn(id), x) + One(!Fresh(b, id)) <= Weight(AddsIn(id), x) + One(!Fresh(b', id))
    ensures Weight(AnswersIn(id), x) <= Weight(EndedIn(id), x)
  {
    hide Stops, StopsIn;
  }

  lemma RingsOfCallStep(b: Switchboard, b': Switchboard, h: seq<Happening>, x: Happening, id: CallId)
    requires Stops(b) <= b.chans.made && Explains(b, b', x) && RingsOfCallBalance(b, h, id)
    ensures RingsOfCallBalance(b', h + [x], id)
  {
    hide Stops, StopsIn, Weight, Tally;
    TallyNext(PlacedIn(id), h, x);
    TallyNext(EndedIn(id), h, x);
    TallyNext(AddsIn(id), h, x);
    TallyNext(AnswersIn(id), h, x);
    StopsInStep(b, b', x, id);
    FirstRingOnce(b, b', x, id);
  }

  lemma SeatsOfCallStep(b: Switchboard, b': Switchboard, h: seq<Happening>, x: Happening, id: CallId)
    requires Explains(b, b', x) && SeatsOfCallBalance(b, h, id)
    requires forall c :: c in Stops(b) ==> c.DialStop? ==> Pending(b, c.id)
    ensures SeatsOfCallBalance(b', h + [x], id)
  {
    hide Stops, StopsIn;
    TallyNext(AnswersIn(id), h, x);
    TallyNext(DeparturesIn(id), h, x);
  }

  lemma MadeGrows(b: Switchboard, b': Switchboard, x: Happening)
    requires Explains(b, b', x)
    ensures b.chans.made <= b'.chans.made
  {
    hide Stops, StopsIn;
  }

  lemma LedgerStep(w: World, step: Step, h: seq<Happening>, id: CallId, ring: Chan)
    requires Core(w) && Ledger(w.board, h, id, ring)
    ensures Ledger(Apply(w, step).board, h + [Happens(w, step)], id, ring)
  {
    hide Core, Apply, Happens, Explains, TotalsBalance, RingBalances, RingsOfCallBalance, Stops;
    var b, b', x := w.board, Apply(w, step).board, Happens(w, step);
    StepExplained(w, step);
    BoardIsSound(w);
    StopsAreMade(b);
    MadeGrows(b, b', x);
    forall c | c in Stops(b) && c.DialStop? ensures Pending(b, c.id) { InStops(b, c); }
    TotalsStep(b, b', h, x);
    RingStep(b, b', h, x, ring);
    RingsOfCallStep(b, b', h, x, id);
    SeatsOfCallStep(b, b', h, x, id);
  }

  lemma {:induction false} LedgerRun(w: World, steps: seq<Step>, h: seq<Happening>, id: CallId, ring: Chan)
    requires Core(w) && Ledger(w.board, h, id, ring)
    ensures Ledger(Run(w, steps).board, h + History(w, steps), id, ring)
    decreases steps
  {
    hide Core, Apply, Happens, Ledger;
    if steps == [] {
      assert h + History(w, steps) == h;
    } else {
      var x, rest := Happens(w, steps[0]), History(Apply(w, steps[0]), steps[1..]);
      StepCore(w, steps[0]);
      LedgerStep(w, steps[0], h, id, ring);
      LedgerRun(Apply(w, steps[0]), steps[1..], h + [x], id, ring);
      assert h + ([x] + rest) == (h + [x]) + rest;
    }
  }

  lemma LedgerStarts(id: CallId, ring: Chan)
    ensures Ledger(START.board, [], id, ring)
  {
    assert Stops(EMPTY_BOARD) == {} && StopsIn(EMPTY_BOARD, id) == {};
  }

  lemma LedgerOf(steps: seq<Step>, id: CallId, ring: Chan)
    ensures Ledger(Run(START, steps).board, History(START, steps), id, ring)
  {
    hide Core, Run, History, Ledger;
    StartHolds();
    LedgerStarts(id, ring);
    LedgerRun(START, steps, [], id, ring);
    assert [] + History(START, steps) == History(START, steps);
  }

  // ---- The theorems ------------------------------------------------------------------------------

  function PendingCalls(b: Switchboard): set<CallId> {
    set id | id in b.calls && b.calls[id].state == CallPending
  }

  /** The dials and ADDs that were ever committed are those that still ring and those that an event ended. */
  lemma RingsConserved(steps: seq<Step>)
    ensures var b, h := Run(START, steps).board, History(START, steps);
            Tally(PlacedRing, h) == |PendingCalls(b)| + |b.adds|
                                + Tally(AnsweredRing, h) + Tally(DeclinedRing, h) + Tally(CancelledRing, h)
                                + Tally(ReapedRing, h) + Tally(TakenAlong(false), h) + Tally(TakenAlong(true), h)
  {
    hide Run, History, RingBalances, RingsOfCallBalance, SeatsOfCallBalance;
    LedgerOf(steps, 0, DialStop(0));
    StopsCount(Run(START, steps).board);
  }

  lemma StopsCount(b: Switchboard)
    ensures |Stops(b)| == |PendingCalls(b)| + |b.adds|
  {
    var dials := set id | id in PendingCalls(b) :: DialStop(id);
    var adds := set k | k in b.adds.Keys :: AddStop(k, b.adds[k].serial);
    hide Stops, PendingCalls;
    DialStopsCount(PendingCalls(b));
    AddStopsCount(b.adds, b.adds.Keys);
    StopsAre(b, dials, adds);
    assert dials !! adds;
  }

  lemma StopsAre(b: Switchboard, dials: set<Chan>, adds: set<Chan>)
    requires dials == set id | id in PendingCalls(b) :: DialStop(id)
    requires adds == set k | k in b.adds.Keys :: AddStop(k, b.adds[k].serial)
    ensures Stops(b) == dials + adds
  {
    hide Stops;
    forall c ensures c in Stops(b) <==> c in dials + adds { InStops(b, c); }
  }

  lemma {:induction false} DialStopsCount(ids: set<CallId>)
    ensures |set id | id in ids :: DialStop(id)| == |ids|
  {
    var stops := set id | id in ids :: DialStop(id);
    if ids != {} {
      var x :| x in ids;
      var rest := ids - {x};
      DialStopsCount(rest);
      assert stops == (set id | id in rest :: DialStop(id)) + {DialStop(x)};
    }
  }

  lemma {:induction false} AddStopsCount(adds: map<AddKey, PendingRing>, ks: set<AddKey>)
    requires ks <= adds.Keys
    ensures |set k | k in ks :: AddStop(k, adds[k].serial)| == |ks|
  {
    var stops := set k | k in ks :: AddStop(k, adds[k].serial);
    if ks != {} {
      var x :| x in ks;
      var rest := ks - {x};
      AddStopsCount(adds, rest);
      assert stops == (set k | k in rest :: AddStop(k, adds[k].serial)) + {AddStop(x, adds[x].serial)};
    }
  }

  /**
    However many sessions race to answer, a call takes one answer at most, and one more
    for each ADD placed from it. While the call lives it has a seat for its caller and one
    for each answer, less the departures; once it is gone everybody has left, or nobody had
    answered and nobody needed to.
   */
  lemma FirstAnswerWins(steps: seq<Step>, id: CallId)
    ensures var b, h := Run(START, steps).board, History(START, steps);
            && Tally(AnswersIn(id), h) <= 1 + Tally(AddsIn(id), h)
            && (id in b.calls ==> |b.calls[id].participants| + Tally(DeparturesIn(id), h) == 1 + Tally(AnswersIn(id), h))
            && (id !in b.calls ==>
                  || Tally(DeparturesIn(id), h) == 1 + Tally(AnswersIn(id), h)
                  || (Tally(DeparturesIn(id), h) == 0 && Tally(AnswersIn(id), h) == 0))
  {
    hide Run, History, Tally, Stops, StopsIn;
    LedgerOf(steps, id, DialStop(id));
  }

  /** A ring is placed once at most, and has been ended once if it was placed and is not outstanding, and otherwise never. */
  lemma OneLife(steps: seq<Step>, ring: Chan)
    ensures var b, h := Run(START, steps).board, History(START, steps);
            && Tally(PlacingOf(ring), h) <= 1
            && Tally(EndingOf(ring), h) == One(Tally(PlacingOf(ring), h) == 1 && ring !in Stops(b))
            && (ring in Stops(b) ==> Tally(PlacingOf(ring), h) == 1)
  {
    hide Run, History, Tally, Stops, StopsIn, TotalsBalance, RingsOfCallBalance, SeatsOfCallBalance;
    LedgerOf(steps, 0, ring);
  }

  /** The event that ends a ring is the last in its life: however the run goes on, nothing places, answers or ends it again. */
  lemma EndedIsOver(steps: seq<Step>, more: seq<Step>, ring: Chan)
    requires Tally(EndingOf(ring), History(START, steps)) > 0
    ensures var w := Run(START, steps);
            && ring !in Stops(Run(w, more).board)
            && Tally(PlacingOf(ring), History(w, more)) == 0 && Tally(EndingOf(ring), History(w, more)) == 0
  {
    hide Run, History, Tally, Stops;
    OneLife(steps, ring);
    OneLife(steps + more, ring);
    RunConcat(START, steps, more);
    HistoryConcat(START, steps, more);
    TallySplit(PlacingOf(ring), History(START, steps), History(Run(START, steps), more));
    TallySplit(EndingOf(ring), History(START, steps), History(Run(START, steps), more));
  }

  lemma {:induction false} HistoryConcat(w: World, steps: seq<Step>, more: seq<Step>)
    ensures History(w, steps + more) == History(w, steps) + History(Run(w, steps), more)
    decreases steps
  {
    hide Apply, Happens;
    if steps == [] {
      assert steps + more == more;
      assert History(w, steps) + History(w, more) == History(w, more);
    } else {
      assert (steps + more)[1..] == steps[1..] + more;
      HistoryConcat(Apply(w, steps[0]), steps[1..], more);
    }
  }

  /** The account and the call that a key, or the reaper, is aimed at. */
  predicate AimedAt(w: World, step: Step, id: CallId, user: Account) {
    match step
    case AnswerKey(sid) => sid in w.ui && w.ui[sid].incoming == Some(id) && w.ui[sid].username == user
    case RejectKey(sid) => sid in w.ui && w.ui[sid].incoming == Some(id) && w.ui[sid].username == user
    case CancelKey(sid) => sid in w.ui && w.ui[sid].callId == Some(id) && w.ui[sid].addTarget == Some(user)
    case TeardownReap(sid) => sid in w.reaping && w.reaping[sid] == user
    case _ => false
  }

  /**
    A step that answers, declines, cancels or reaps ends the one ring there is at the
    account it is aimed at; it leaves that account without a ring, and every other
    account's rings alone.
   */
  lemma EndsTheOneAimedAt(w: World, step: Step, other: Account)
    requires Core(w)
    requires var x := Happens(w, step); x.Answers? || x.Declines? || x.Cancels? || x.Reaps?
    ensures var b', x := Apply(w, step).board, Happens(w, step);
            && AimedAt(w, step, x.id, x.user)
            && RingsAt(w.board, x.user) == {x.ring} && RingsAt(b', x.user) == {}
            && (other != x.user ==> RingsAt(b', other) == RingsAt(w.board, other))
            && Stops(b') == Stops(w.board) - {x.ring}
  {
    hide Core, Apply, Happens, Stops, AimedAt;
    var b, b', x := w.board, Apply(w, step).board, Happens(w, step);
    StepExplained(w, step);
    BoardIsSound(w);
    SameCallees(b, b', x);
    Aims(w, step);
    forall c | c in RingsAt(b, x.user) ensures c == x.ring { OneRingAt(b, x.user, c, x.ring); }
  }

  lemma Aims(w: World, step: Step)
    requires var x := Happens(w, step); x.Answers? || x.Declines? || x.Cancels? || x.Reaps?
    ensures var x := Happens(w, step); AimedAt(w, step, x.id, x.user)
  {
    hide RingFor, RingsAt, AnswerError, Ringable, StopsIn, Picks;
  }

  /** An ANSWER that the table accepts has taken a ring, and one that takes a ring is accepted. */
  lemma AcceptedTakesARing(w: World, sid: SessionId)
    requires Core(w) && Acts(w, sid) && w.ui[sid].incoming.Some? && w.ui[sid].state != CallPending
    ensures Happens(w, AnswerKey(sid)).Answers? <==> AnswerError(w.board, w.ui[sid].incoming.value, w.ui[sid].username) == None
  {
    hide Core, RingFor, AnswerError;
    BoardIsSound(w);
    AcceptsExactly(w.board, w.ui[sid].incoming.value, w.ui[sid].username);
  }

  lemma SameCallees(b: Switchboard, b': Switchboard, x: Happening)
    requires Sound(b) && Explains(b, b', x) && (x.Answers? || x.Declines? || x.Cancels? || x.Reaps?)
    ensures forall c :: c in Stops(b') ==> CalleeOf(b', c) == CalleeOf(b, c)
  {
    hide Shape, OneRing, ChansExact, Stops;
    forall c | c in Stops(b') ensures CalleeOf(b', c) == CalleeOf(b, c) {
      InStops(b, c);
      InStops(b', c);
    }
  }

  // ---- The records kept beside the table are the events ---------------------------------------------

  function With(rings: map<Chan, RingRecord>, outcome: Outcome): set<Chan> {
    set c | c in rings && rings[c].outcome == outcome
  }

  /** The outcome of a ring that this event ends. */
  function How(x: Happening): Outcome
    requires !x.Quiet? && !x.Places?
  {
    match x
    case Answers(_, _, _) => Accepted
    case Declines(_, _, _) => Declined
    case Cancels(_, _, _) => Cancelled
    case Reaps(_, _, _) => Reaped
    case Departs(_, _, torn) => if torn then TornDown else Cancelled
  }

  /** The rings in `rings` that `x` ends get its outcome, one that it places is outstanding, and no other record changes. */
  ghost predicate Records(rings: map<Chan, RingRecord>, rings': map<Chan, RingRecord>, x: Happening) {
    && rings'.Keys == rings.Keys + New(x)
    && New(x) !! rings.Keys
    && (forall c :: c in New(x) ==> rings'[c].outcome == Outstanding)
    && (forall c :: c in Ends(x) ==> c in rings && rings[c].outcome == Outstanding)
    && (forall c :: c in rings ==> rings'[c] == if c in Ends(x) then rings[c].(outcome := How(x)) else rings[c])
  }

  /** Settling gives its outcome to exactly the rings that the event ended. */
  lemma SettledRecords(b: Switchboard, b': Switchboard, rings: map<Chan, RingRecord>, outcome: Outcome, x: Happening)
    requires Sound(b) && Sound(b') && RecordsMatch(b, rings) && Explains(b, b', x) && New(x) == {}
    requires Ends(x) != {} ==> How(x) == outcome
    ensures Records(rings, Settle(rings, b', outcome), x)
  {
    hide Sound, Stops, Explains, Ends, How;
    EndsAreOutstanding(b, b', x);
    StopsAreMade(b);
    StopsAreMade(b');
  }

  function OutcomeOf(step: Step): Outcome {
    match step
    case AnswerKey(_) => Accepted
    case RejectKey(_) => Declined
    case TeardownReap(_) => Reaped
    case TeardownHangup(_, _) => TornDown
    case _ => Cancelled
  }

  /** The records after a step that commits nothing. */
  ghost predicate Settles(w: World, step: Step) {
    var w', x := Apply(w, step), Happens(w, step);
    && New(x) == {} && (Ends(x) != {} ==> How(x) == OutcomeOf(step))
    && (w'.rings == Settle(w.rings, w'.board, OutcomeOf(step)) || (w'.rings == w.rings && x == Quiet))
  }

  lemma RejectSettles(w: World, sid: SessionId)
    ensures Settles(w, RejectKey(sid))
  {
    hide Reject, Settle, RingFor;
  }

  lemma CancelSettles(w: World, sid: SessionId)
    ensures Settles(w, CancelKey(sid))
  {
    hide CancelAdd, Settle;
  }

  lemma ReapSettles(w: World, sid: SessionId)
    ensures Settles(w, TeardownReap(sid))
  {
    hide Reap, Settle, RingsAt, Ringable;
  }

  lemma AnswerSettles(w: World, sid: SessionId)
    requires Core(w)
    ensures Settles(w, AnswerKey(sid))
  {
    hide ApplyAnswer, Answer, AnswerError, Settle, RingFor, Core;
    if Acts(w, sid) && w.ui[sid].incoming.Some? && w.ui[sid].state != CallPending {
      OfferedToCallee(w, sid);
      AnswerOutcome(w, sid);
      BoardIsSound(w);
      AcceptsExactly(w.board, w.ui[sid].incoming.value, w.ui[sid].username);
    } else {
      AnswerIdle(w, sid);
    }
  }

  lemma LeaveSettles(w: World, id: CallId, sid: SessionId, outcome: Outcome, torn: bool)
    ensures var w', x := LeaveCall(w, id, sid, outcome), LeaveHappens(w.board, id, sid, torn);
            && (x == Quiet || (x.Departs? && x.torn == torn))
            && (w'.rings == Settle(w.rings, w'.board, outcome) || (w'.rings == w.rings && x == Quiet))
  {
    hide Leave, Settle, Sids, StopsIn;
  }

  lemma HangupSettles(w: World, sid: SessionId)
    ensures Settles(w, HangupKey(sid)) && Settles(w, ExitKey(sid))
  {
    hide LeaveCall, LeaveHappens, Settle;
    if sid in w.ui && w.ui[sid].callId.Some? { LeaveSettles(w, w.ui[sid].callId.value, sid, Cancelled, false); }
  }

  lemma TeardownSettles(w: World, sid: SessionId, pick: Option<CallId>)
    ensures Settles(w, TeardownHangup(sid, pick))
  {
    hide LeaveCall, LeaveHappens, Picks, Settle;
    if pick.Some? { LeaveSettles(w, pick.value, sid, TornDown, true); }
  }

  lemma ConsumeSettles(w: World, sid: SessionId)
    ensures Settles(w, Consume(sid))
  {
    hide LeaveCall, LeaveHappens, Settle, Handle, Receive;
    if sid in w.ui && sid in w.board.reg.index && w.board.reg.index[sid].notify != [] {
      HangsUpExactly(w.ui[sid], w.board.reg.index[sid].notify[0]);
    }
    if sid in w.ui && w.ui[sid].callId.Some? && sid in w.board.reg.index && w.board.reg.index[sid].notify != [] {
      var id, w1 := w.ui[sid].callId.value, w.(board := w.board.(reg := Receive(w.board.reg, sid)));
      LeaveSettles(w1, id, sid, Cancelled, false);
      LeaveReadsNoQueue(w.board, w1.board, id, sid);
    }
  }

  lemma StepSettles(w: World, step: Step)
    requires Core(w) && !step.Commit?
    ensures Settles(w, step)
  {
    hide Core, Settles;
    match step
    case RejectKey(sid) => RejectSettles(w, sid);
    case CancelKey(sid) => CancelSettles(w, sid);
    case TeardownReap(sid) => ReapSettles(w, sid);
    case AnswerKey(sid) => AnswerSettles(w, sid);
    case HangupKey(sid) => HangupSettles(w, sid);
    case ExitKey(sid) => HangupSettles(w, sid);
    case TeardownHangup(sid, pick) => TeardownSettles(w, sid, pick);
    case Consume(sid) => ConsumeSettles(w, sid);
    case _ => QuietSettles(w, step);
  }

  lemma QuietSettles(w: World, step: Step)
    requires TableAside(step) || step.TypeKey?
    ensures Settles(w, step)
  {
    hide Settle, Broadcast;
    if TableAside(step) {
      hide Apply;
      TableUntouched(w, step);
    }
  }

  lemma NextSerialIsNew(b: Switchboard, k: AddKey)
    requires Sound(b)
    ensures AddStop(k, b.chans.serial) !in b.chans.made
  {
    hide Shape, OneRing;
  }

  lemma NewRecord(rings: map<Chan, RingRecord>, c: Chan, r: RingRecord, id: CallId, user: Account, isAdd: bool)
    requires c !in rings && r.outcome == Outstanding
    ensures Records(rings, rings[c := r], Places(c, id, user, isAdd))
  {
  }

  lemma CommitRecords(w: World, id: CallId)
    requires Core(w) && RecordsMatch(w.board, w.rings)
    ensures Records(w.rings, ApplyCommit(w, id).rings, CommitHappens(w, id))
  {
    hide PlaceDial, PlaceAdd, Core, RecordsMatch, Dialed, Records;
    BoardIsSound(w);
    KeptRecords(w.rings);
    match w.gate
    case Some(DialGate(sid, callee)) =>
      if sid in w.ui && Fresh(w.board, id) {
        StopIsNew(w, DialStop(id));
        NewRecord(w.rings, DialStop(id), RingRecord(id, w.ui[sid].username, callee, false, Outstanding), id, callee, false);
      }
    case Some(AddGate(sid, call, callee)) =>
      if sid in w.ui && call in w.board.calls {
        var c := AddStop(AddKey(call, callee), w.board.chans.serial);
        NextSerialIsNew(w.board, AddKey(call, callee));
        StopIsNew(w, c);
        NewRecord(w.rings, c, RingRecord(call, w.ui[sid].username, callee, true, Outstanding), call, callee, true);
      }
    case _ =>
  }

  lemma SettlingRecords(w: World, step: Step)
    requires Core(w) && RecordsMatch(w.board, w.rings) && !step.Commit?
    ensures Records(w.rings, Apply(w, step).rings, Happens(w, step))
  {
    hide Core, Apply, Happens, Records, How, OutcomeOf, RecordsMatch, Sound, Explains, Settle;
    StepSettles(w, step);
    StepExplained(w, step);
    StepCore(w, step);
    BoardIsSound(w);
    BoardIsSound(Apply(w, step));
    if Happens(w, step) == Quiet && Apply(w, step).rings == w.rings {
      KeptRecords(w.rings);
    } else {
      SettledRecords(w.board, Apply(w, step).board, w.rings, OutcomeOf(step), Happens(w, step));
    }
  }

  lemma KeptRecords(rings: map<Chan, RingRecord>)
    ensures Records(rings, rings, Quiet)
  {
  }

  /** Every step writes into the records exactly what happened. */
  lemma StepRecords(w: World, step: Step)
    requires Core(w) && RecordsMatch(w.board, w.rings)
    ensures Records(w.rings, Apply(w, step).rings, Happens(w, step))
  {
    hide Core, Records, RecordsMatch, ApplyCommit, CommitHappens;
    if step.Commit? {
      CommitRecords(w, step.id);
      assert Apply(w, step) == ApplyCommit(w, step.id);
    } else {
      hide Apply, Happens;
      SettlingRecords(w, step);
    }
  }

  /** As many rings bear each outcome as events of that kind have ended. */
  ghost predicate Labelled(rings: map<Chan, RingRecord>, h: seq<Happening>) {
    && |rings| == Tally(PlacedRing, h)
    && |With(rings, Accepted)| == Tally(AnsweredRing, h)
    && |With(rings, Declined)| == Tally(DeclinedRing, h)
    && |With(rings, Cancelled)| == Tally(CancelledRing, h) + Tally(TakenAlong(false), h)
    && |With(rings, Reaped)| == Tally(ReapedRing, h)
    && |With(rings, TornDown)| == Tally(TakenAlong(true), h)
  }

  /** The rings to which the event gives this outcome. */
  function EndsBy(x: Happening, outcome: Outcome): set<Chan> {
    if x.Quiet? || x.Places? || How(x) != outcome then {} else Ends(x)
  }

  lemma WithStep(rings: map<Chan, RingRecord>, rings': map<Chan, RingRecord>, x: Happening, outcome: Outcome)
    requires Records(rings, rings', x) && outcome != Outstanding
    ensures |With(rings', outcome)| == |With(rings, outcome)| + |EndsBy(x, outcome)|
  {
    var ended := EndsBy(x, outcome);
    hide Ends, EndsBy, How, Records, With;
    WithEnds(x, outcome);
    WithGrows(rings, rings', x, outcome);
    assert With(rings, outcome) !! ended;
    assert With(rings', outcome) == With(rings, outcome) + ended;
  }

  lemma WithGrows(rings: map<Chan, RingRecord>, rings': map<Chan, RingRecord>, x: Happening, outcome: Outcome)
    requires Records(rings, rings', x) && outcome != Outstanding
    ensures forall c :: c in With(rings', outcome) <==> c in With(rings, outcome) || (c in Ends(x) && How(x) == outcome)
    ensures Ends(x) !! With(rings, outcome)
  {
    hide Ends, How;
  }

  lemma WithEnds(x: Happening, outcome: Outcome)
    ensures forall c :: c in EndsBy(x, outcome) <==> c in Ends(x) && How(x) == outcome
    ensures Ends(x) != {} ==> !x.Quiet? && !x.Places?
  {
  }

  lemma LabelledStep(rings: map<Chan, RingRecord>, rings': map<Chan, RingRecord>, h: seq<Happening>, x: Happening)
    requires Records(rings, rings', x) && Labelled(rings, h)
    ensures Labelled(rings', h + [x])
  {
    hide With, Tally, Records, Weight, Ends, How;
    forall m ensures Tally(m, h + [x]) == Tally(m, h) + Weight(m, x) { TallyNext(m, h, x); }
    forall outcome | outcome != Outstanding ensures |With(rings', outcome)| == |With(rings, outcome)| + |EndsBy(x, outcome)| {
      WithStep(rings, rings', x, outcome);
    }
    EndsByWeighs(x);
    KeysStep(rings, rings', x);
  }

  lemma EndsByWeighs(x: Happening)
    ensures |EndsBy(x, Accepted)| == Weight(AnsweredRing, x) && |EndsBy(x, Declined)| == Weight(DeclinedRing, x)
    ensures |EndsBy(x, Cancelled)| == Weight(CancelledRing, x) + Weight(TakenAlong(false), x)
    ensures |EndsBy(x, Reaped)| == Weight(ReapedRing, x) && |EndsBy(x, TornDown)| == Weight(TakenAlong(true), x)
  {
  }

  lemma KeysStep(rings: map<Chan, RingRecord>, rings': map<Chan, RingRecord>, x: Happening)
    requires Records(rings, rings', x)
    ensures |rings'| == |rings| + Weight(PlacedRing, x)
  {
    hide Ends, How;
    assert |rings'.Keys| == |rings.Keys| + |New(x)|;
  }

  lemma {:induction false} LabelledRun(w: World, steps: seq<Step>, h: seq<Happening>)
    requires Core(w) && Hist(w) && Labelled(w.rings, h)
    ensures Labelled(Run(w, steps).rings, h + History(w, steps))
    decreases steps
  {
    hide Core, Apply, Happens, Labelled, RecordsMatch, Balanced, Records;
    if steps == [] {
      assert h + History(w, steps) == h;
    } else {
      var x, rest := Happens(w, steps[0]), History(Apply(w, steps[0]), steps[1..]);
      StepCore(w, steps[0]);
      StepHist(w, steps[0]);
      StepRecords(w, steps[0]);
      LabelledStep(w.rings, Apply(w, steps[0]).rings, h, x);
      LabelledRun(Apply(w, steps[0]), steps[1..], h + [x]);
      assert h + ([x] + rest) == (h + [x]) + rest;
    }
  }

  /** The records count the events: as many rings as were placed, and with each outcome as many as events of that kind ended. */
  lemma OutcomesAreEvents(steps: seq<Step>)
    ensures var rings, h := Run(START, steps).rings, History(START, steps);
            && |rings| == Tally(PlacedRing, h)
            && |With(rings, Accepted)| == Tally(AnsweredRing, h)
            && |With(rings, Declined)| == Tally(DeclinedRing, h)
            && |With(rings, Cancelled)| == Tally(CancelledRing, h) + Tally(TakenAlong(false), h)
            && |With(rings, Reaped)| == Tally(ReapedRing, h)
            && |With(rings, TornDown)| == Tally(TakenAlong(true), h)
  {
    hide Core, Hist, Run, History;
    StartHolds();
    StartHist();
    LabelledRun(START, steps, []);
    assert [] + History(START, steps) == History(START, steps);
  }

  lemma {:induction false} RecordStays(w: World, steps: seq<Step>, ring: Chan)
    requires Core(w) && Hist(w) && ring in w.rings && w.rings[ring].outcome != Outstanding
    ensures var w' := Run(w, steps); ring in w'.rings && w'.rings[ring] == w.rings[ring]
    decreases steps
  {
    hide Core, Apply, Happens, RecordsMatch, Balanced, Ends, How;
    if steps != [] {
      StepCore(w, steps[0]);
      StepHist(w, steps[0]);
      StepRecords(w, steps[0]);
      RecordStays(Apply(w, steps[0]), steps[1..], ring);
    }
  }

  /**
    The event that ends a ring settles it for good: nothing had ended that ring before,
    nothing places, answers or ends it afterwards however the run goes on, and its
    record says for ever what that event was.
   */
  lemma OutcomeFinal(steps: seq<Step>, step: Step, more: seq<Step>, ring: Chan)
    requires ring in Ends(Happens(Run(START, steps), step))
    ensures var w := Run(START, steps);
            var x, w1 := Happens(w, step), Apply(w, step);
            var w2 := Run(w1, more);
            && Tally(EndingOf(ring), History(START, steps)) == 0 && Tally(PlacingOf(ring), History(START, steps)) == 1
            && Tally(EndingOf(ring), History(w1, more)) == 0 && Tally(PlacingOf(ring), History(w1, more)) == 0
            && ring !in Stops(w2.board) && ring in w2.rings && w2.rings[ring].outcome == How(x)
  {
    hide Core, Hist, Apply, Happens, Stops, Tally, Ends, How;
    var w := Run(START, steps);
    StartHolds();
    StartHist();
    RunHist(START, steps);
    StepCore(w, step);
    StepHist(w, step);
    EndedHere(w, step, ring);
    RecordStays(Apply(w, step), more, ring);
    OneLife(steps, ring);
    OneMore(steps, step, ring);
    EndedIsOver(steps + [step], more, ring);
  }

  lemma EndedHere(w: World, step: Step, ring: Chan)
    requires Core(w) && Hist(w) && ring in Ends(Happens(w, step))
    ensures ring in Stops(w.board)
    ensures var w', x := Apply(w, step), Happens(w, step);
            ring in w'.rings && How(x) != Outstanding && w'.rings[ring].outcome == How(x)
  {
    hide Core, Apply, Happens, RecordsMatch, Balanced, Stops;
    StepExplained(w, step);
    StepRecords(w, step);
    EndsAreOutstanding(w.board, Apply(w, step).board, Happens(w, step));
  }

  lemma OneMore(steps: seq<Step>, step: Step, ring: Chan)
    ensures Run(START, steps + [step]) == Apply(Run(START, steps), step)
    ensures Tally(EndingOf(ring), History(START, steps + [step]))
            == Tally(EndingOf(ring), History(START, steps)) + One(ring in Ends(Happens(Run(START, steps), step)))
  {
    hide Apply, Happens, Tally, Ends;
    var w := Run(START, steps);
    RunConcat(START, steps, [step]);
    HistoryConcat(START, steps, [step]);
    assert [step][1..] == [] && Run(w, [step]) == Run(Apply(w, step), []);
    assert History(w, [step]) == [Happens(w, step)] + History(Apply(w, step), []) == [Happens(w, step)];
    TallyNext(EndingOf(ring), History(START, steps), Happens(w, step));
  }
}
