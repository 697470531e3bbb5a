/** Two runs that show why the theorems on budgets and on edge consistency carry their guards. */
module Guards {
  import opened Documents
  import opened Validator
  import opened WalkState
  import opened Dispatch
  import opened WalkInvariants
  import opened Moves
  import opened Machine
  import opened CallTree
  import opened SessionCap
  import opened Sessions

  const OK_REPORT := Report(false, false, None)

  function Single(id: string, activity: Activity): Unit { Unit(Plain, JoinAll, [Node(id, activity)]) }

  // --------------------------------------------------------------- a pick while a session is out

  /** c waits for a; b is free; the budget is two sessions. */
  const CAP_DOC: Doc :=
    Doc([Single("c", Activity.Session), Single("a", Activity.Session), Single("b", Activity.Session)],
        [Edge(1, 0, OnSuccess, false, 0)], 2, 8)

  lemma CapDocValid()
    ensures Valid(CAP_DOC) && NoCalls(CAP_DOC) && Safe(CAP_DOC)
  {
    assert Ranked(CAP_DOC, [1, 0, 0]);
    RankedAcyclic(CAP_DOC, [1, 0, 0]);
  }

  /** The cells after a and b were handed out, after a was recorded, and after one more hand-out. */
  const BOTH_OUT := [FRESH, FRESH.(status := Dispatched), FRESH.(status := Dispatched)]
  const A_DONE := [FRESH, FRESH.(status := Success), FRESH.(status := Dispatched)]
  const C_OUT := [FRESH.(status := Dispatched), FRESH.(status := Success), FRESH.(status := Dispatched)]

  lemma FirstBatch()
    requires Fits(CAP_DOC, Init(CAP_DOC))
    ensures HandOut(CAP_DOC, Init(CAP_DOC), 2) == Progress(Init(CAP_DOC).(cells := BOTH_OUT), None)
  {
    var d, s := CAP_DOC, Init(CAP_DOC);
    assert Enters(d, 0, 0) && EdgeAt(d, s, 0).Open?;
    assert !Eligible(d, s, 0) && Eligible(d, s, 1) && Eligible(d, s, 2);
    assert Candidates(d, s, 3) == [] && Candidates(d, s, 2) == [2] && Candidates(d, s, 1) == [1, 2];
    assert Candidates(d, s, 0) == [1, 2];
    assert Emit(d, s, [1, 2]).cells == BOTH_OUT;
  }

  lemma ResolvedA(s: State)
    requires Fits(CAP_DOC, s) && s == Init(CAP_DOC).(cells := BOTH_OUT)
    ensures var r := Resolved(CAP_DOC, s, 1, s.cells[1].(status := Success), true).(sessions := 1);
            r.cells == A_DONE && Fits(CAP_DOC, r) && Skips(CAP_DOC, r) == r && Firing(CAP_DOC, r, 1, 0).None?
  {
    var d := CAP_DOC;
    var r := Resolved(d, s, 1, s.cells[1].(status := Success), true).(sessions := 1);
    assert r.cells == A_DONE;
    assert !Enters(d, 0, 1) && !Enters(d, 0, 2) && EdgeAt(d, r, 0).Satisfied?;
    assert !Doomed(d, r, 0);
    NothingSkipped(d, r);
  }

  lemma RecordedA(s: State)
    requires Fits(CAP_DOC, s) && s == Init(CAP_DOC).(cells := BOTH_OUT)
    ensures var r := RecordSession(CAP_DOC, s, 1, OK_REPORT); r.cells == A_DONE && r.sessions == 1
  {
    ResolvedA(s);
    hide Skips, Resolved, Firing;
    assert AfterSession(CAP_DOC.units[1], s.cells[1], OK_REPORT) == s.cells[1].(status := Success);
  }

  lemma RecorderA(s: State)
    requires Fits(CAP_DOC, s) && s == Init(CAP_DOC).(cells := BOTH_OUT)
    ensures Recorder(CAP_DOC, s, "a", 0) == Some(1)
  {
  }

  /** The run goes on: b is still out. */
  lemma GoesOnAfterA(s: State)
    requires Fits(CAP_DOC, s) && s.cells == A_DONE && s.sessions == 1
    ensures AfterRecord(CAP_DOC, s).Continue?
  {
    hide Candidates, WalkOutcome, AnyPending;
    assert s.cells[2].status.Dispatched?;
  }

  lemma RecordA(s: State)
    requires Fits(CAP_DOC, s) && s == Init(CAP_DOC).(cells := BOTH_OUT)
    ensures var p := TellOf(CAP_DOC, s, "a", Ended(OK_REPORT));
            p.outcome.None? && p.state.cells == A_DONE && p.state.sessions == 1
  {
    RecordedA(s);
    RecorderA(s);
    hide Recorder, RecordSession, AfterRecord, SetStatus;
    GoesOnAfterA(RecordSession(CAP_DOC, s, 1, OK_REPORT));
  }

  lemma SecondBatch(s: State)
    requires Fits(CAP_DOC, s) && s.cells == A_DONE && s.sessions == 1
    ensures HandOut(CAP_DOC, s, 1) == Progress(s.(cells := C_OUT), None)
  {
    var d := CAP_DOC;
    assert Eligible(d, s, 0) && !Eligible(d, s, 1) && Eligible(d, s, 2);
    assert Candidates(d, s, 3) == [] && Candidates(d, s, 2) == [2] && Candidates(d, s, 1) == [2];
    assert Candidates(d, s, 0) == [0, 2];
    assert Emit(d, s, [0]).cells == C_OUT;
  }

  lemma DriveMore(d: Doc, acts: seq<Act>, a: Act)
    requires Shaped(d) && NoCalls(d)
    ensures Drive(d, acts + [a]) == Act1(d, Drive(d, acts), a)
  {
    hide Act1;
    assert (acts + [a])[..|acts|] == acts;
  }

  /** Without the discipline of recording a whole batch first, the budget is overshot: c is handed out
      ahead of b, which is still out, and three sessions are paid for or promised on a budget of two. */
  lemma CapNeedsDiscipline()
    ensures Valid(CAP_DOC) && NoCalls(CAP_DOC)
    ensures var p := Drive(CAP_DOC, [Hand(2), Tell("a", Ended(OK_REPORT)), Hand(1)]);
            p.outcome.None? && p.state.sessions + |OutSet(CAP_DOC, p.state)| == 3 > CAP_DOC.maxSessions
  {
    CapDocValid();
    hide Valid, NoCalls, HandOut, TellOf, Fits, Outstanding, Drive, OutSet;
    var d := CAP_DOC;
    var start := Progress(Init(d), None);
    assert Drive(d, []) == start by { NoActs(d); }
    FirstBatch();
    var s1 := Init(d).(cells := BOTH_OUT);
    DriveMore(d, [], Hand(2));
    assert [] + [Hand(2)] == [Hand(2)];
    RecordA(s1);
    var s2 := TellOf(d, s1, "a", Ended(OK_REPORT)).state;
    DriveMore(d, [Hand(2)], Tell("a", Ended(OK_REPORT)));
    SecondBatch(s2);
    DriveMore(d, [Hand(2), Tell("a", Ended(OK_REPORT))], Hand(1));
    assert [Hand(2)] + [Tell("a", Ended(OK_REPORT))] == [Hand(2), Tell("a", Ended(OK_REPORT))];
    assert [Hand(2), Tell("a", Ended(OK_REPORT))] + [Hand(1)] == [Hand(2), Tell("a", Ended(OK_REPORT)), Hand(1)];
    TwoOut(s2.(cells := C_OUT));
  }

  lemma NoActs(d: Doc)
    requires Shaped(d) && NoCalls(d)
    ensures Drive(d, []) == Progress(Init(d), None)
  {
  }

  lemma TwoOut(s: State)
    requires Fits(CAP_DOC, s) && s.cells == C_OUT
    ensures |OutSet(CAP_DOC, s)| == 2
  {
    assert OutSet(CAP_DOC, s) == {0, 2};
  }

  /** The assumptions of the theorems on executions can be met: a disciplined execution over one good
      configuration that begins a run of a valid, safe document. */
  lemma AssumptionsMet(env: Env)
    requires env.library == map[]
    ensures var cfg := Config(map["cap" := CAP_DOC], map[]);
            var es := [Begin("cap", CAP_DOC, "cap")];
            && GoodConfig(cfg) && Sound(env) && Follows(cfg, es[0]) && Disciplined(Exec(es[..0]), es[0])
            && Top("cap") in Exec(es).runs && Safe(Exec(es).runs[Top("cap")].doc)
  {
    CapDocValid();
    var es := [Begin("cap", CAP_DOC, "cap")];
    assert es[..0] == [] && Exec([]) == NOTHING;
    assert Exec(es) == Step(NOTHING, es[0]);
    assert Started(CAP_DOC) == CAP_DOC;
  }

  // -------------------------------------------------------------- a call that bounces mid-pass

  /** p, then a call and y side by side; the call's failure loops back to p. */
  const STALE_DOC: Doc :=
    Doc([Unit(Stage, JoinAll, [Node("p", Activity.Session)]), Single("x", Call("gone", true)), Single("y", Activity.Session)],
        [Edge(0, 1, OnSuccess, false, 0), Edge(0, 2, OnSuccess, false, 0), Edge(1, 0, OnFailure, true, 1)], 9, 8)

  const P_DONE := [FRESH.(status := Success), FRESH, FRESH]
  const ALL_FRESH := [FRESH, FRESH, FRESH]
  const Y_ALONE := [FRESH, FRESH, FRESH.(status := Dispatched)]

  lemma OneStep(d: Doc, u: nat, v: nat)
    requires Shaped(d) && Arc(d, u, v)
    ensures Reaches(d, u, v)
  {
    var p := [u, v];
    assert IsPath(d, p) && p[|p| - 1] == v;
  }

  lemma StaleShape()
    ensures Shaped(STALE_DOC) && Arc(STALE_DOC, 0, 1) && Arc(STALE_DOC, 0, 2)
  {
    assert Forward(STALE_DOC, 0) && Forward(STALE_DOC, 1);
  }

  lemma StaleReach()
    ensures Shaped(STALE_DOC) && Reaches(STALE_DOC, 0, 0) && Reaches(STALE_DOC, 0, 1) && Reaches(STALE_DOC, 0, 2)
  {
    StaleShape();
    ReachesSelf(STALE_DOC, 0);
    hide Reaches, Arc, Shaped;
    OneStep(STALE_DOC, 0, 1);
    OneStep(STALE_DOC, 0, 2);
  }

  lemma StaleDocValid()
    ensures Valid(STALE_DOC)
  {
    StaleReach();
    assert Ranked(STALE_DOC, [0, 1, 1]);
    RankedAcyclic(STALE_DOC, [0, 1, 1]);
  }

  lemma AllReset(s: State)
    requires Fits(STALE_DOC, s)
    ensures Reset(STALE_DOC, s, 0).cells == ALL_FRESH
  {
    StaleReach();
    assert ReachSet(STALE_DOC, 0) == {0, 1, 2};
  }

  lemma NobodyDoomed(s: State)
    requires Fits(STALE_DOC, s) && s.cells == ALL_FRESH
    ensures Skips(STALE_DOC, s) == s
  {
    var d := STALE_DOC;
    assert EdgeAt(d, s, 0).Open? && EdgeAt(d, s, 1).Open?;
    NothingSkipped(d, s);
  }

  /** The failing call re-pends everything. */
  lemma CallBounces(s: State)
    requires Fits(STALE_DOC, s) && s.cells == P_DONE && s.bounces == map[]
    ensures RecordCall(STALE_DOC, s, 1, false).cells == ALL_FRESH
  {
    var d := STALE_DOC;
    var c := AfterCall(d.units[1], s.cells[1], false);
    assert c == FRESH.(status := Failure);
    var r := Resolved(d, s, 1, c, false);
    assert r.cells[1].status.Failure? && r.bounces == map[];
    assert Firing(d, r, 1, 0) == Some(2);
    var b := CountBounce(r, 1, 0);
    AllReset(b);
    NobodyDoomed(Reset(d, b, 0));
  }

  lemma StaleFrontier(s: State)
    requires Fits(STALE_DOC, s) && s.cells == P_DONE
    ensures Candidates(STALE_DOC, s, 0) == [1, 2]
  {
    var d := STALE_DOC;
    assert EdgeAt(d, s, 0).Satisfied? && EdgeAt(d, s, 1).Satisfied?;
    assert !Eligible(d, s, 0) && Eligible(d, s, 1) && Eligible(d, s, 2);
    assert Candidates(d, s, 3) == [] && Candidates(d, s, 2) == [2] && Candidates(d, s, 1) == [1, 2];
  }

  const P_OUT := [FRESH.(status := Dispatched), FRESH, FRESH]

  lemma PEmitted(s: State)
    requires Fits(STALE_DOC, s) && s == Init(STALE_DOC)
    ensures Enabled(STALE_DOC, s, EmitBatch([0])) && Emit(STALE_DOC, s, [0]) == s.(cells := P_OUT)
  {
    assert Eligible(STALE_DOC, s, 0);
    assert Emit(STALE_DOC, s, [0]).cells == P_OUT;
  }

  lemma PResolved(s: State)
    requires Fits(STALE_DOC, s) && s.cells == P_OUT
    ensures var r := Resolved(STALE_DOC, s, 0, s.cells[0].(status := Success), true).(sessions := s.sessions + 1);
            Fits(STALE_DOC, r) && r.cells == P_DONE && Firing(STALE_DOC, r, 0, 0).None? && Skips(STALE_DOC, r) == r
  {
    var d := STALE_DOC;
    var r := Resolved(d, s, 0, s.cells[0].(status := Success), true).(sessions := s.sessions + 1);
    assert r.cells == P_DONE;
    assert EdgeAt(d, r, 0).Satisfied? && EdgeAt(d, r, 1).Satisfied?;
    assert !Doomed(d, r, 1) && !Doomed(d, r, 2);
    NothingSkipped(d, r);
  }

  lemma PRecorded(s: State)
    requires Fits(STALE_DOC, s) && s.cells == P_OUT
    ensures Enabled(STALE_DOC, s, Move.Session(0, OK_REPORT))
    ensures var r := RecordSession(STALE_DOC, s, 0, OK_REPORT);
            r.cells == P_DONE && r.bounces == s.bounces && r.sessions == s.sessions + 1
  {
    PResolved(s);
    hide Resolved, Firing, Skips;
    assert AfterSession(STALE_DOC.units[0], s.cells[0], OK_REPORT) == s.cells[0].(status := Success);
  }

  lemma PDone() returns (s: State)
    ensures Fits(STALE_DOC, s) && Reached(STALE_DOC, s) && s.cells == P_DONE && s.bounces == map[] && s.sessions == 1
  {
    StaleReach();
    hide Emit, RecordSession, Reached, Enabled;
    var d := STALE_DOC;
    var s0 := Init(d);
    ReachedInit(d);
    PEmitted(s0);
    ReachedMove(d, s0, EmitBatch([0]));
    var s1 := Emit(d, s0, [0]);
    PRecorded(s1);
    ReachedMove(d, s1, Move.Session(0, OK_REPORT));
    s := RecordSession(d, s1, 0, OK_REPORT);
  }

  /** The call cannot start, and its failure loops back. */
  lemma StaleStart(env: Env, f: Files, t: Token, rf: RunFile)
    requires "gone" !in env.library && rf.doc == STALE_DOC && Loaded(rf)
    requires rf.state.cells == P_DONE && rf.state.bounces == map[]
    ensures StartCall(env, f, t, rf, 1).1.state.cells == ALL_FRESH
  {
    CallBounces(Paid(rf.state));
    assert !MayStart(env, f, t, rf, ExpectedNode(rf.doc, rf.state, 1));
    hide RecordCall, MayStart;
  }

  lemma StalePass(env: Env, f: Files, t: Token, rf: RunFile)
    requires "gone" !in env.library && rf.doc == STALE_DOC && Loaded(rf)
    requires rf.state.cells == P_DONE && rf.state.bounces == map[] && rf.state.sessions == 1
    ensures var pass := CallPass(env, f, t, rf, [1, 2], 0);
            pass.1.state.cells == ALL_FRESH && pass.1.state.sessions == 2 && pass.2 == [2]
  {
    StaleStart(env, f, t, rf);
    hide StartCall, Fits;
    var step := StartCall(env, f, t, rf, 1);
    StaleSteps(env, step.0, t, step.1);
  }

  lemma StaleSteps(env: Env, f: Files, t: Token, rf: RunFile)
    requires rf.doc == STALE_DOC && Loaded(rf) && rf.state.cells == ALL_FRESH
    ensures CallPass(env, f, t, rf, [1, 2], 1) == (f, rf, [2])
  {
    hide StartCall;
    assert CallPass(env, f, t, rf, [1, 2], 2) == (f, rf, []);
    assert [2] + [] == [2];
  }

  /** With a call and a back-edge in one frontier, the candidates go stale: the call cannot start, its
      failure re-pends p, and the same pick still hands out y, whose parent is pending again. The
      document is valid and the state before the pick is a consistent, reachable one. */
  lemma MixedFrontierGoesStale(env: Env, f: Files, t: Token) returns (rf: RunFile)
    requires "gone" !in env.library
    ensures rf.doc == STALE_DOC && Loaded(rf) && Valid(rf.doc)
    ensures Reached(rf.doc, rf.state) && Consistent(rf.doc, rf.state)
    ensures var end := Pick(env, f, t, rf, 1).2;
            && Fits(rf.doc, end.state) && StatusOf(end.state, 0).Pending? && StatusOf(end.state, 2).Dispatched?
            && !Consistent(rf.doc, end.state)
  {
    StaleDocValid();
    var s := PDone();
    rf := RunFile(STALE_DOC, s, 0, []);
    ReachedConsistent(STALE_DOC, s);
    SweepIdle(env, f, t, rf, 0);
    StaleFrontier(s);
    StalePass(env, f, t, rf);
    PickStale(env, f, t, rf);
  }

  lemma PickStale(env: Env, f: Files, t: Token, rf: RunFile)
    requires rf.doc == STALE_DOC && Loaded(rf) && rf.state.sessions == 1
    requires Sweep(env, f, t, rf, 0) == (f, rf) && Candidates(rf.doc, rf.state, 0) == [1, 2]
    requires var pass := CallPass(env, f, t, rf, [1, 2], 0);
             pass.1.state.cells == ALL_FRESH && pass.1.state.sessions == 2 && pass.2 == [2]
    ensures var end := Pick(env, f, t, rf, 1).2;
            && Fits(rf.doc, end.state) && StatusOf(end.state, 0).Pending? && StatusOf(end.state, 2).Dispatched?
            && !Consistent(rf.doc, end.state)
  {
    var rf2 := CallPass(env, f, t, rf, [1, 2], 0).1;
    assert Chosen(STALE_DOC, rf2.state, [2], 1) == [2];
    var end := rf2.(state := Emit(STALE_DOC, rf2.state, [2]));
    assert end.state.cells == Y_ALONE;
    hide Sweep, CallPass, Candidates;
    assert Pick(env, f, t, rf, 1).2 == end;
    assert Enters(STALE_DOC, 1, 2) && EdgeAt(STALE_DOC, end.state, 1).Open?;
    assert !Justified(STALE_DOC, end.state, 2);
  }
}
