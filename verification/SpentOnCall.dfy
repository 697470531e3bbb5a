/** A run that spends its last session on a call, next to the interpreter of the same nodes. */
module SpentOnCall {
  // A document without edges: one session, then a call that nobody waits for, on a budget of two. Every
  // unit succeeds, and the run ends at the cap all the same, because a pick asks for the budget before it
  // asks whether the walk is over. The sequential interpreter ends in success after the same visits.

  import opened Documents
  import opened Validator
  import opened WalkState
  import opened Dispatch
  import opened Endings
  import opened Machine
  import opened Lineage
  import opened Sessions
  import opened Schedule
  import opened Sequential
  import opened Guards
  import Stalls

  const DOC: Doc := Doc([Single("a", Activity.Session), Single("b", Call("child", false))], [], 2, 8)

  const ENV := Stalls.ENV

  const T := Top("m")

  /** The answers of the sessions and of the calls: they all succeed. */
  const ALL_WELL: Oracle := Oracle((u, pos, round) => OK_REPORT, (u, pos, round) => true)

  predicate AllOk(done: seq<Entry>) { forall i: nat | i < |done| :: done[i].ok }

  ghost predicate Main(rf: RunFile) {
    rf.doc == Started(DOC) && rf.depth == 0 && rf.path == ["m"] && Loaded(rf)
  }

  lemma DocValid()
    ensures Valid(DOC) && Chain(Started(DOC)) && Sound(ENV)
    ensures Started(DOC).units == DOC.units && Started(DOC).maxSessions == 2 && |DOC.units| == 2
  {
    assert "a"[0] != "b"[0];
    forall u: nat, k: nat, v: nat, m: nat | SameId(DOC, u, k, v, m) ensures u == v && k == m {
      assert DOC.units[u].children[k].id[0] == DOC.units[v].children[m].id[0];
    }
    assert Ranked(DOC, [0, 0]);
    RankedAcyclic(DOC, [0, 0]);
    StartedChain(DOC);
    Stalls.DocsValid();
  }

  lemma SessionsAt(rf: RunFile)
    requires Main(rf)
    ensures Chain(rf.doc) && |rf.doc.units| == 2 && rf.doc.maxSessions == 2 && Fits(rf.doc, rf.state)
    ensures rf.state.cells[0] == FRESH.(status := Dispatched) || rf.state.cells[0] == FRESH ==>
              ExpectedNode(rf.doc, rf.state, 0) == Node("a", Activity.Session)
    ensures rf.state.cells[1] == FRESH ==> ExpectedNode(rf.doc, rf.state, 1) == Node("b", Call("child", false))
  {
    DocValid();
  }

  /** The first pick hands out a. */
  lemma PickA(f: Files, rf: RunFile)
    requires Main(rf) && rf.state == Init(rf.doc)
    ensures var out := rf.(state := rf.state.(cells := [FRESH.(status := Dispatched), FRESH]));
            Pick(ENV, f, T, rf, 1) == (Saved(f, T, out), Steps([0]), out)
  {
    SessionsAt(rf);
    var d, s := rf.doc, rf.state;
    assert s.cells == [FRESH, FRESH] && s.sessions == 0 && Front(d, s, 0, FRESH) && !AnyDispatched(s);
    assert Emit(d, s, [0]).cells == [FRESH.(status := Dispatched), FRESH] && Emit(d, s, [0]).bounces == s.bounces;
    ChosenOne(d, s, 0, 1);
    assert Emit(d, s, [0]) == s.(cells := [FRESH.(status := Dispatched), FRESH]);
    SweepIdle(ENV, f, T, rf, 0);
    hide *;
    FrontCandidates(d, s, 0, FRESH);
    OneCallPass(ENV, f, T, rf, 0);
    PickForms(ENV, f, T, rf, 1);
  }

  /** What the report on a makes of the run: a succeeded, b is next, one session is spent. */
  ghost predicate AtB(rf: RunFile) {
    && Main(rf)
    && Front(rf.doc, rf.state, 1, FRESH) && rf.state.cells[1] == FRESH && !AnyDispatched(rf.state)
    && rf.state.sessions == 1 && AllOk(rf.state.done)
  }

  lemma RecordedA(rf: RunFile)
    requires Main(rf) && rf.state == Init(rf.doc).(cells := [FRESH.(status := Dispatched), FRESH])
    ensures AtB(rf.(state := RecordSession(rf.doc, rf.state, 0, OK_REPORT)))
  {
    SessionsAt(rf);
    var d, s := rf.doc, rf.state;
    assert Front(d, s, 0, FRESH);
    assert AfterSession(d.units[0], FRESH, OK_REPORT) == FRESH.(status := Success);
    SessionLeads(d, s, 0, FRESH, OK_REPORT);
    SessionDone(d, s, 0, OK_REPORT);
    hide RecordSession, Chain, AfterSession;
  }

  lemma SessionDone(d: Doc, s: State, u: nat, r: Report)
    requires Fits(d, s) && u < |d.units| && ExpectedNode(d, s, u).activity.Session?
    ensures AllOk(s.done) && !r.error ==> AllOk(RecordSession(d, s, u, r).done)
  {
    hide Skips, Bounce, AfterSession;
  }

  lemma GoesOnToB(rf: RunFile)
    requires AtB(rf)
    ensures AfterRecord(rf.doc, rf.state) == Verdict.Continue
  {
    SessionsAt(rf);
    FrontCandidates(rf.doc, rf.state, 1, FRESH);
    hide Candidates, Chain;
  }

  /** The report on a, as the run alone sees it and in the log directory. */
  lemma TellA(w: Files, rf: RunFile)
    requires Main(rf) && rf.state == Init(rf.doc).(cells := [FRESH.(status := Dispatched), FRESH])
    ensures Handed(rf.doc, rf.state, "a")
    ensures var next := rf.(state := RecordSession(rf.doc, rf.state, 0, OK_REPORT));
            && TellOf(rf.doc, rf.state, "a", Ended(OK_REPORT)) == Progress(next.state, None)
            && Record(w, T, rf, "a", Ended(OK_REPORT)).0 == Saved(w, T, next)
    ensures Recorder(rf.doc, rf.state, "a", 0) == Some(0)
  {
    SessionsAt(rf);
    RecordedA(rf);
    GoesOnToB(rf.(state := RecordSession(rf.doc, rf.state, 0, OK_REPORT)));
    assert Recorder(rf.doc, rf.state, "a", 0) == Some(0);
    hide RecordSession, AfterRecord, Recorder, Main;
  }

  /** The call starts, nobody waits for it, and the walk is over with its budget spent. */
  lemma CallB(f: Files, rf: RunFile)
    requires AtB(rf) && Sub(T, "b") !in f.runs
    ensures ExpectedNode(rf.doc, rf.state, 1).activity.Call?
    ensures var end := StartCall(ENV, f, T, rf, 1).1;
            && end.doc == rf.doc && Over(end.state) && WalkOutcome(end.doc, end.state) == RunSuccess
            && (forall u: nat | u < |end.doc.units| :: end.state.cells[u].status.Success? && end.state.cells[u].child.None?)
            && end.state.sessions == 2 && AllOk(end.state.done)
  {
    SessionsAt(rf);
    var d, s := rf.doc, rf.state;
    assert "child"[0] != "m"[0];
    assert MayStart(ENV, f, T, rf, ExpectedNode(d, s, 1));
    StartForms(ENV, f, T, rf, 1);
    FrontPaid(d, s, 1, FRESH);
    assert AfterCall(d.units[1], FRESH, true) == FRESH.(status := Success);
    CallLeads(d, Paid(s), 1, FRESH, true);
    CallDone(d, Paid(s), 1, true);
    hide StartCall, MayStart, RecordCall, Chain, WalkOutcome;
  }

  lemma CallDone(d: Doc, s: State, u: nat, ok: bool)
    requires Fits(d, s) && u < |d.units|
    ensures AllOk(s.done) && ok ==> AllOk(RecordCall(d, s, u, ok).done)
  {
    hide Skips, Bounce, AfterCall;
  }

  /** The pick that starts the call ends the run at the cap, with every unit done well. */
  lemma PickB(f: Files, rf: RunFile)
    requires AtB(rf) && Sub(T, "b") !in f.runs
    ensures var (_, answer, end) := Pick(ENV, f, T, rf, 1);
            && answer == Done(RunCapped) && end.doc == rf.doc
            && Over(end.state) && WalkOutcome(end.doc, end.state) == RunSuccess
            && (forall u: nat | u < |end.doc.units| :: end.state.cells[u].status.Success?)
            && AllOk(end.state.done)
  {
    SessionsAt(rf);
    CallB(f, rf);
    var d, s := rf.doc, rf.state;
    var (g, end) := StartCall(ENV, f, T, rf, 1);
    assert !AnyDispatched(end.state);
    SweepIdle(ENV, f, T, rf, 0);
    SweepIdle(ENV, Saved(g, T, end), T, end, 0);
    assert d.maxSessions == 2;
    hide *;
    FrontCandidates(d, s, 1, FRESH);
    OneCallPass(ENV, f, T, rf, 1);
    ChosenOne(d, end.state, 1, 1);
    assert end.(state := Emit(d, end.state, [])) == end;
    PickForms(ENV, f, T, rf, 1);
    PickForms(ENV, Saved(g, T, end), T, end, 1);
  }

  // --------------------------------------------------------------------------------- the execution

  const BEGIN := Begin("m", DOC, "m")
  const PICK := PickRun(ENV, T, 1)
  const RECORD := RecordRun(T, "a", Ended(OK_REPORT))

  const RUN: RunFile := NewRun(DOC, 0, ["m"])

  function AOut(rf: RunFile): RunFile { rf.(state := rf.state.(cells := [FRESH.(status := Dispatched), FRESH])) }

  ghost function ADone(): RunFile {
    RunStarts();
    SessionsAt(AOut(RUN));
    AOut(RUN).(state := RecordSession(RUN.doc, AOut(RUN).state, 0, OK_REPORT))
  }

  lemma DoneForms()
    ensures Main(AOut(RUN)) && Loaded(AOut(RUN)) && AOut(RUN).doc == RUN.doc
    ensures AOut(RUN).state.cells != [] && AOut(RUN).state.cells[0].child.None?
    ensures ADone() == AOut(RUN).(state := RecordSession(RUN.doc, AOut(RUN).state, 0, OK_REPORT))
  {
    RunStarts();
    hide RecordSession;
  }

  lemma RunStarts()
    ensures Main(RUN) && RUN.state == Init(RUN.doc) && Loaded(RUN) && RUN.doc == Started(DOC) && Chain(RUN.doc)
    ensures Main(AOut(RUN)) && AOut(RUN).state == Init(RUN.doc).(cells := [FRESH.(status := Dispatched), FRESH])
  {
    DocValid();
  }

  /** The log directory while only the run itself is in it. */
  function Alone(rf: RunFile): Files { Files(map[T := rf], map[]) }

  lemma SavedAlone(a: RunFile, b: RunFile)
    ensures T in Alone(a).runs && Alone(a).runs[T] == a && Saved(Alone(a), T, b) == Alone(b) && Sub(T, "b") !in Alone(a).runs
  {
  }

  lemma BeginStep()
    ensures Step(NOTHING, BEGIN) == Alone(RUN)
  {
    DocValid();
    hide Valid, Sound, Chain, Started, NewRun;
    assert (map[])[T := RUN] == map[T := RUN];
  }

  lemma StepPick(w: Files)
    requires T in w.runs && Loaded(w.runs[T])
    ensures Step(w, PICK) == Pick(ENV, w, T, w.runs[T], 1).0
  {
    DocValid();
    hide Pick, Valid, Chain, Started;
  }

  lemma StepRecord(w: Files)
    requires T in w.runs && Loaded(w.runs[T]) && Handed(w.runs[T].doc, w.runs[T].state, "a")
    ensures Step(w, RECORD) == Record(w, T, w.runs[T], "a", Ended(OK_REPORT)).0
  {
    hide Record, Handed;
  }

  lemma MainLoaded(rf: RunFile)
    requires Main(rf)
    ensures Loaded(rf)
  {
  }

  lemma PickStep()
    ensures Step(Alone(RUN), PICK) == Alone(AOut(RUN))
  {
    RunStarts();
    hide *;
    SavedAlone(RUN, AOut(RUN));
    StepPick(Alone(RUN));
    PickA(Alone(RUN), RUN);
    OutForms(RUN);
  }

  lemma OutForms(rf: RunFile)
    ensures AOut(rf) == rf.(state := rf.state.(cells := [FRESH.(status := Dispatched), FRESH]))
  {
  }

  lemma RecordStep()
    ensures Step(Alone(AOut(RUN)), RECORD) == Alone(ADone()) && AtB(ADone())
  {
    RunStarts();
    DoneForms();
    hide *;
    MainLoaded(AOut(RUN));
    OutForms(RUN);
    SavedAlone(AOut(RUN), ADone());
    TellA(Alone(AOut(RUN)), AOut(RUN));
    RecordedA(AOut(RUN));
    StepRecord(Alone(AOut(RUN)));
  }

  lemma ExecNext(es: seq<Event>, e: Event)
    ensures Exec(es + [e]) == Step(Exec(es), e) && Exec([]) == NOTHING
  {
    assert (es + [e])[..|es|] == es;
  }

  lemma Execution()
    ensures Exec([]) == NOTHING && Exec([BEGIN]) == Alone(RUN) && Exec([BEGIN, PICK]) == Alone(AOut(RUN))
    ensures Exec([BEGIN, PICK, RECORD]) == Alone(ADone()) && AtB(ADone())
  {
    hide *;
    BeginStep();
    PickStep();
    RecordStep();
    ExecNext([], BEGIN);
    ExecNext([BEGIN], PICK);
    ExecNext([BEGIN, PICK], RECORD);
    assert [] + [BEGIN] == [BEGIN] && [BEGIN] + [PICK] == [BEGIN, PICK] && [BEGIN, PICK] + [RECORD] == [BEGIN, PICK, RECORD];
  }

  /** An execution whose run is capped by a pick after which every unit of it has succeeded, and which
      would have judged the walk a success. */
  lemma CappedThoughAllSucceeded()
    ensures Valid(DOC) && DOC.edges == [] && Sound(ENV)
    ensures var w := Exec([BEGIN, PICK, RECORD]);
            && T in w.runs && Loaded(w.runs[T]) && w.runs[T].doc == Started(DOC)
            && var (_, answer, end) := Pick(ENV, w, T, w.runs[T], 1);
            && answer == Done(RunCapped) && end.doc == w.runs[T].doc
            && Over(end.state) && WalkOutcome(end.doc, end.state) == RunSuccess
            && forall u: nat | u < |end.doc.units| :: end.state.cells[u].status.Success?
  {
    DocValid();
    NoEdges();
    RunStarts();
    Execution();
    hide *;
    AtBFacts(ADone());
    SavedAlone(ADone(), RUN);
    PickB(Alone(ADone()), ADone());
  }

  lemma NoEdges()
    ensures DOC.edges == []
  {
  }

  lemma AtBFacts(rf: RunFile)
    requires AtB(rf)
    ensures Main(rf) && Loaded(rf) && rf.doc == Started(DOC)
  {
  }

  // ------------------------------------------------------------------------------- the interpreter

  lemma InterpreterEnds()
    ensures Chain(RUN.doc) && After(RUN.doc, ALL_WELL, 2).outcome == Some(RunSuccess)
  {
    RunStarts();
    DocValid();
    var d := RUN.doc;
    ChainUnits(d);
    var q0, q1 := After(d, ALL_WELL, 0), After(d, ALL_WELL, 1);
    assert Visit(d.units[0], 0, ALL_WELL, FRESH) == (FRESH.(status := Success), Turn(0, 1, true));
    assert Visit(d.units[1], 1, ALL_WELL, FRESH) == (FRESH.(status := Success), Turn(0, 1, true));
    assert q1 == Interpret(d, ALL_WELL, q0) && q1 == Cursor(1, FRESH, [(0, 0, 1, true)], None);
    assert After(d, ALL_WELL, 2) == Interpret(d, ALL_WELL, q1);
  }

  /** The same run on its own: a pick, the report on a, and the pick that starts the call. */
  ghost function Deeds(): seq<Deed> {
    RunStarts();
    [Look(ENV, Alone(RUN), 1), Deed.Tell("a", Ended(OK_REPORT)), Look(ENV, Alone(ADone()), 1)]
  }

  lemma NobodyCalled(f: Files, rf: RunFile)
    requires Loaded(rf) && forall u: nat | u < |rf.doc.units| :: rf.state.cells[u].child.None?
    ensures Minds(f, T, rf)
  {
  }

  lemma AllAgree(d: Doc, done: seq<Entry>)
    requires AllOk(done)
    ensures CallsAgree(d, ALL_WELL, done)
  {
  }

  lemma NoChildren(rf: RunFile)
    requires Main(rf) && (rf.state == Init(rf.doc) || AtB(rf))
    ensures forall u: nat | u < |rf.doc.units| :: rf.state.cells[u].child.None?
    ensures AllOk(rf.state.done)
  {
  }

  lemma FirstDeed()
    ensures var a := Look(ENV, Alone(RUN), 1);
            Honest(T, ALL_WELL, Course(RUN, None), a) && Do(T, Course(RUN, None), a) == Course(AOut(RUN), None)
  {
    RunStarts();
    NoChildren(RUN);
    NobodyCalled(Alone(RUN), RUN);
    PickA(Alone(RUN), RUN);
    AllAgree(RUN.doc, AOut(RUN).state.done);
    DoForms(T, Course(RUN, None), Look(ENV, Alone(RUN), 1));
    LookedForms(Course(RUN, None), RunCapped, [0], AOut(RUN));
    hide Pick, Do, RUN, Main, Minds, CallsAgree, Looked, AOut;
    OutForms(RUN);
  }

  lemma SecondDeed()
    ensures var a := Deed.Tell("a", Ended(OK_REPORT));
            Honest(T, ALL_WELL, Course(AOut(RUN), None), a) && Do(T, Course(AOut(RUN), None), a) == Course(ADone(), None)
  {
    RunStarts();
    DoneForms();
    TellA(Alone(AOut(RUN)), AOut(RUN));
    DoForms(T, Course(AOut(RUN), None), Deed.Tell("a", Ended(OK_REPORT)));
    hide Do, RUN, Main, Recorder, RecordSession, TellOf, Handed, Record;
  }

  lemma ThirdDeed()
    ensures var a := Look(ENV, Alone(ADone()), 1);
            Honest(T, ALL_WELL, Course(ADone(), None), a) &&
            Do(T, Course(ADone(), None), a).outcome == Some(RunCapped)
  {
    RunStarts();
    Execution();
    var rf := ADone();
    NoChildren(rf);
    NobodyCalled(Alone(rf), rf);
    PickB(Alone(rf), rf);
    var end := Pick(ENV, Alone(rf), T, rf, 1).2;
    AllAgree(rf.doc, end.state.done);
    DoForms(T, Course(rf, None), Look(ENV, Alone(rf), 1));
    LookedForms(Course(rf, None), RunCapped, [], end);
    hide Pick, Do, RUN, Main, Minds, CallsAgree, Looked, AOut, ADone;
  }

  /** The same answers for the run on its own and for the interpreter: the run is capped, the interpreter
      succeeds. */
  lemma InterpreterSucceeds()
    ensures Chain(RUN.doc) && RUN.state == Init(RUN.doc) && Loaded(RUN)
    ensures AllHonest(T, ALL_WELL, RUN, Deeds()) && Work(T, RUN, Deeds()).outcome == Some(RunCapped)
    ensures After(RUN.doc, ALL_WELL, 2).outcome == Some(RunSuccess)
  {
    hide *;
    RunStarts();
    DeedsForm();
    InterpreterEnds();
    FirstDeed();
    SecondDeed();
    ThirdDeed();
    var a, b, c := Look(ENV, Alone(RUN), 1), Deed.Tell("a", Ended(OK_REPORT)), Look(ENV, Alone(ADone()), 1);
    NoDeeds();
    WorkNext(T, RUN, [], a);
    HonestMore([], a);
    WorkNext(T, RUN, [] + [a], b);
    HonestMore([] + [a], b);
    WorkNext(T, RUN, [] + [a] + [b], c);
    HonestMore([] + [a] + [b], c);
  }

  lemma DeedsForm()
    ensures Main(RUN) && RUN.state == Init(RUN.doc)
    ensures Deeds() == [] + [Look(ENV, Alone(RUN), 1)] + [Deed.Tell("a", Ended(OK_REPORT))] + [Look(ENV, Alone(ADone()), 1)]
  {
    RunStarts();
    hide Main, RUN, ADone, Alone;
  }

  lemma NoDeeds()
    ensures Loaded(RUN) && AllHonest(T, ALL_WELL, RUN, [])
  {
    RunStarts();
  }

  lemma HonestMore(deeds: seq<Deed>, a: Deed)
    requires Loaded(RUN) && AllHonest(T, ALL_WELL, RUN, deeds) && Honest(T, ALL_WELL, Work(T, RUN, deeds), a)
    ensures AllHonest(T, ALL_WELL, RUN, deeds + [a])
  {
    hide Honest, Work;
    assert (deeds + [a])[..|deeds|] == deeds;
  }
}
