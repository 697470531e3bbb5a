/** A run whose walk stalls, and what going on after that does to its budget. */
module Stalls {
  // A call that cannot start bounces in the middle of a pick, and the same pick starts two more calls whose
  // parent is pending again. The parent then fails, the calls come back, and nothing can go on. The refused
  // pick has consumed both outcomes without saving the state, so the next pick restarts both calls.

  import opened Documents
  import opened Validator
  import opened WalkState
  import opened Dispatch
  import opened Machine
  import opened SessionCap
  import opened Guards

  function Caller(call: string, session: string): Unit {
    Unit(Stage, JoinAll, [Node(call, Call("child", true)), Node(session, Activity.Session)])
  }

  /** p, then a call that cannot start and leads back to p, and two stages that call and then work. */
  const DOC: Doc :=
    Doc([Unit(Stage, JoinAll, [Node("p", Activity.Session)]), Single("x", Call("gone", true)),
         Caller("y", "yy"), Caller("z", "zz")],
        [Edge(0, 1, OnSuccess, false, 0), Edge(0, 2, OnSuccess, false, 0), Edge(0, 3, OnSuccess, false, 0),
         Edge(1, 0, OnFailure, true, 1)], 6, 8)

  const CHILD: Doc := Doc([Single("c", Activity.Session)], [], 2, 1)

  const ENV := Env(map["child" := CHILD], {})

  const T := Top("m")
  const Y := Sub(Top("m"), "y")
  const Z := Sub(Top("m"), "z")

  const OUT_Y := FRESH.(status := Dispatched, child := Some(Sub(Top("m"), "y")))
  const OUT_Z := FRESH.(status := Dispatched, child := Some(Sub(Top("m"), "z")))

  const FRESH_ALL := [FRESH, FRESH, FRESH, FRESH]
  const P_OUT := [FRESH.(status := Dispatched), FRESH, FRESH, FRESH]
  const P_OK := [FRESH.(status := Success), FRESH, FRESH, FRESH]
  const CALLED := [FRESH, FRESH, OUT_Y, OUT_Z]
  const AGAIN := [FRESH.(status := Dispatched), FRESH, OUT_Y, OUT_Z]
  const P_FAILED := [FRESH.(status := Failure), FRESH, OUT_Y, OUT_Z]
  const SKIPPED := [FRESH.(status := Failure), FRESH.(status := Skipped), OUT_Y, OUT_Z]
  const STUCK := [FRESH.(status := Failure), FRESH.(status := Skipped), FRESH.(pos := 1), FRESH.(pos := 1)]

  // ------------------------------------------------------------------------------------- the document

  lemma DocShaped()
    ensures Shaped(DOC) && Shaped(CHILD)
  {
    assert "p"[0] != "x"[0] && "y"[0] != "z"[0];
    forall u: nat, k: nat, v: nat, m: nat | SameId(DOC, u, k, v, m) ensures u == v && k == m {
      assert |DOC.units[u].children[k].id| == |DOC.units[v].children[m].id|;
      assert DOC.units[u].children[k].id[0] == DOC.units[v].children[m].id[0];
    }
    forall u: nat, k: nat, v: nat, m: nat | SameId(CHILD, u, k, v, m) ensures u == v && k == m {
    }
  }

  lemma DocArcs()
    ensures Arc(DOC, 0, 1) && Arc(DOC, 0, 2) && Arc(DOC, 0, 3)
  {
    assert Forward(DOC, 0) && Forward(DOC, 1) && Forward(DOC, 2);
  }

  lemma DocReach()
    ensures Reaches(DOC, 0, 0) && Reaches(DOC, 0, 1) && Reaches(DOC, 0, 2) && Reaches(DOC, 0, 3)
  {
    DocShaped();
    DocArcs();
    ReachesSelf(DOC, 0);
    hide Reaches, Arc, Shaped;
    OneStep(DOC, 0, 1);
    OneStep(DOC, 0, 2);
    OneStep(DOC, 0, 3);
  }

  lemma AllReached()
    ensures forall u: nat | u < 4 :: u in ReachSet(DOC, 0)
  {
    DocReach();
    hide Reaches;
  }

  lemma DocAcyclic()
    ensures Acyclic(DOC) && Acyclic(CHILD)
  {
    assert Ranked(DOC, [0, 1, 1, 1]);
    RankedAcyclic(DOC, [0, 1, 1, 1]);
    assert Ranked(CHILD, [0]);
    RankedAcyclic(CHILD, [0]);
  }

  lemma DocsValid()
    ensures Valid(DOC) && Valid(CHILD) && Sound(ENV) && Started(DOC) == DOC && Started(CHILD) == CHILD
  {
    DocShaped();
    DocReach();
    DocAcyclic();
    hide Shaped, Acyclic, Reaches;
    StartedSame();
  }

  lemma StartedSame()
    ensures Started(DOC) == DOC && Started(CHILD) == CHILD
  {
  }

  /** The cells of a state of DOC, and the numbers that go with them. */
  ghost predicate Looks(s: State, cells: seq<Cell>, bounced: bool, n: nat) {
    Fits(DOC, s) && s.cells == cells && s.bounces == (if bounced then map[(1, 0) := 1] else map[]) && s.sessions == n
  }

  lemma Entering()
    ensures forall i: nat :: Enters(DOC, i, 1) <==> i == 0
    ensures forall i: nat :: Enters(DOC, i, 2) <==> i == 1
    ensures forall i: nat :: Enters(DOC, i, 3) <==> i == 2
    ensures forall i: nat :: !Enters(DOC, i, 0)
  {
  }

  /** Who is eligible: p whenever it is pending, the others when p succeeded; and who is dispatched. */
  lemma WhoEligible(s: State, u: nat)
    requires Fits(DOC, s) && u < 4
    ensures Met(DOC, s, u) <==> u == 0 || s.cells[0].status.Success?
    ensures Doomed(DOC, s, u) <==> u != 0 && (s.cells[0].status.Failure? || s.cells[0].status.Skipped?)
  {
    Entering();
    if u > 0 {
      assert Enters(DOC, u - 1, u);
    }
  }

  lemma FrontierStep(s: State, u: nat)
    requires Fits(DOC, s) && u < 4
    ensures Candidates(DOC, s, u) == (if Eligible(DOC, s, u) then [u] else []) + Candidates(DOC, s, u + 1)
    ensures Candidates(DOC, s, 4) == []
  {
    hide Eligible;
  }

  lemma Frontier(s: State)
    requires Fits(DOC, s)
    ensures Candidates(DOC, s, 0) ==
              (if Eligible(DOC, s, 0) then [0] else []) + ((if Eligible(DOC, s, 1) then [1] else [])
              + ((if Eligible(DOC, s, 2) then [2] else []) + (if Eligible(DOC, s, 3) then [3] else [])))
  {
    hide Eligible, Candidates, Fits;
    FrontierStep(s, 0);
    FrontierStep(s, 1);
    FrontierStep(s, 2);
    FrontierStep(s, 3);
  }

  lemma FrontierOf(s: State)
    requires Fits(DOC, s)
    ensures s.cells == FRESH_ALL ==> Candidates(DOC, s, 0) == [0]
    ensures s.cells == P_OK ==> Candidates(DOC, s, 0) == [1, 2, 3]
    ensures s.cells == CALLED ==> Candidates(DOC, s, 0) == [0, 2, 3]
    ensures s.cells == SKIPPED ==> Candidates(DOC, s, 0) == [2, 3]
    ensures s.cells == STUCK ==> Candidates(DOC, s, 0) == []
  {
    Frontier(s);
    WhoEligible(s, 0);
    WhoEligible(s, 1);
    WhoEligible(s, 2);
    WhoEligible(s, 3);
    hide Met, Candidates;
  }

  // ----------------------------------------------------------------------------------------- records

  /** Skips: after p failed exactly the pending units behind it go. */
  lemma NoSkip(s: State)
    requires Fits(DOC, s) && !s.cells[0].status.Failure? && !s.cells[0].status.Skipped?
    ensures Skips(DOC, s) == s
  {
    forall u: nat | u < |DOC.units| && s.cells[u].status.Pending? ensures !Doomed(DOC, s, u) {
      WhoEligible(s, u);
    }
    NothingSkipped(DOC, s);
  }

  lemma XDoomed(s: State, k: set<nat>)
    requires Fits(DOC, s) && s.cells[0].status.Failure?
    ensures Doomed(DOC, Mark(s, k), 1) || 0 in k
  {
    if 0 !in k {
      assert Mark(s, k).cells[0] == s.cells[0];
      WhoEligible(Mark(s, k), 1);
    }
  }

  lemma OneSkips(s: State)
    requires Fits(DOC, s) && s.cells == P_FAILED
    ensures SkipSet(DOC, s) == {1}
  {
    SkipSetClosed(DOC, s);
    var least := SkipSet(DOC, s);
    XDoomed(s, least);
    OneCloses(s);
    hide Doomed, SkipSet, Mark;
    assert 0 !in least && 2 !in least && 3 !in least;
    assert 1 in least;
  }

  lemma OneCloses(s: State)
    requires Fits(DOC, s) && s.cells == P_FAILED
    ensures SkipClosed(DOC, s, {1})
  {
    hide Doomed;
    forall u: nat | u < |DOC.units| && s.cells[u].status.Pending? ensures u == 1 {
    }
  }

  lemma MarkX(s: State)
    requires s.cells == P_FAILED
    ensures Mark(s, {1}).cells == SKIPPED
  {
  }

  lemma SkipX(s: State)
    requires Fits(DOC, s) && s.cells == P_FAILED
    ensures Skips(DOC, s).cells == SKIPPED && Skips(DOC, s).bounces == s.bounces
  {
    OneSkips(s);
    MarkX(s);
    hide SkipSet, Fits;
  }

  lemma NoBounceFromP(s: State)
    requires Fits(DOC, s)
    ensures Bounce(DOC, s, 0) == s
  {
  }

  lemma RecordP(s: State, ok: bool, bounced: bool, n: nat)
    requires ok ==> Looks(s, P_OUT, bounced, n)
    requires !ok ==> Looks(s, AGAIN, bounced, n)
    ensures var r := RecordSession(DOC, s, 0, Report(!ok, false, None));
            ok ==> Looks(r, P_OK, bounced, n + 1)
    ensures var r := RecordSession(DOC, s, 0, Report(!ok, false, None));
            !ok ==> Looks(r, SKIPPED, bounced, n + 1)
  {
    var rep := Report(!ok, false, None);
    var c := s.cells[0].(status := if ok then Success else Failure);
    assert AfterSession(DOC.units[0], s.cells[0], rep) == c;
    var r := Resolved(DOC, s, 0, c, ok).(sessions := s.sessions + 1);
    NoBounceFromP(r);
    assert r.cells == if ok then P_OK else P_FAILED;
    if ok {
      NoSkip(r);
    } else {
      SkipX(r);
    }
    hide Skips, Bounce, Fits;
  }

  // ------------------------------------------------------------------------------------------- calls

  /** The run of DOC, with these cells. */
  ghost predicate Main(rf: RunFile, cells: seq<Cell>, bounced: bool, n: nat) {
    rf.doc == DOC && rf.depth == 0 && rf.path == ["m"] && Looks(rf.state, cells, bounced, n)
  }

  const KID: RunFile := NewRun(CHILD, 1, ["m", "child"])

  lemma XResolved(s: State)
    requires Fits(DOC, s) && s.cells == P_OK && s.bounces == map[]
    ensures var r := Resolved(DOC, s, 1, FRESH.(status := Failure), false);
            Firing(DOC, r, 1, 0) == Some(3) && Bounce(DOC, r, 1).cells == FRESH_ALL && Bounce(DOC, r, 1).bounces == map[(1, 0) := 1]
  {
    var r := Resolved(DOC, s, 1, FRESH.(status := Failure), false);
    assert Firing(DOC, r, 1, 0) == Some(3);
    AllReached();
    hide ReachSet, Firing;
    var b := CountBounce(r, 1, 0);
    assert Reset(DOC, b, 0).cells == FRESH_ALL;
  }

  lemma CallX(f: Files, rf: RunFile, n: nat)
    requires Main(rf, P_OK, false, n)
    ensures var (g, rf') := StartCall(ENV, f, T, rf, 1); g == f && Main(rf', FRESH_ALL, true, n + 1)
  {
    var s := Paid(rf.state);
    XResolved(s);
    assert AfterCall(DOC.units[1], s.cells[1], false) == FRESH.(status := Failure);
    NoSkip(Bounce(DOC, Resolved(DOC, s, 1, FRESH.(status := Failure), false), 1));
    hide Skips, Bounce;
    assert !MayStart(ENV, f, T, rf, DOC.units[1].children[0]);
  }

  lemma Startable(f: Files, rf: RunFile, node: Node)
    requires rf.depth == 0 && rf.path == ["m"] && node.activity == Call("child", true) && Sub(T, node.id) !in f.runs
    ensures MayStart(ENV, f, T, rf, node) && Spawned(ENV, f, T, rf, node) == f.(runs := f.runs[Sub(T, node.id) := KID])
  {
    assert "child"[0] != "m"[0];
    assert ["m"] + ["child"] == ["m", "child"];
  }

  /** A call of unit u starts and the unit waits for it, whatever it waited for before. */
  lemma CallChild(f: Files, rf: RunFile, u: nat, c: Cell)
    requires rf.doc == DOC && rf.depth == 0 && rf.path == ["m"] && Fits(DOC, rf.state) && 2 <= u < 4
    requires rf.state.cells[u] == c && c.(status := Pending) == FRESH
    requires Sub(T, DOC.units[u].children[0].id) !in f.runs
    ensures var child := Sub(T, DOC.units[u].children[0].id);
            StartCall(ENV, f, T, rf, u) == (f.(runs := f.runs[child := KID]), rf.(state := Park(Paid(rf.state), u, child)))
  {
    Startable(f, rf, DOC.units[u].children[0]);
    hide MayStart, Spawned, RecordCall;
  }

  lemma CallBoth(f: Files, rf: RunFile, n: nat)
    requires Main(rf, FRESH_ALL, true, n) && n + 2 <= 6 && Y !in f.runs && Z !in f.runs
    ensures var (g, rf', steps) := CallPass(ENV, f, T, rf, [1, 2, 3], 1);
            g == f.(runs := f.runs[Y := KID][Z := KID]) && Main(rf', CALLED, true, n + 2) && steps == []
  {
    assert "y"[0] != "z"[0];
    CallChild(f, rf, 2, FRESH);
    var f2 := f.(runs := f.runs[Y := KID]);
    var rf2 := rf.(state := Park(Paid(rf.state), 2, Y));
    assert rf2.state.cells == [FRESH, FRESH, OUT_Y, FRESH];
    CallChild(f2, rf2, 3, FRESH);
    var f3 := f2.(runs := f2.runs[Z := KID]);
    var rf3 := rf2.(state := Park(Paid(rf2.state), 3, Z));
    assert rf3.state.cells == CALLED;
    hide StartCall, Park;
    assert CallPass(ENV, f3, T, rf3, [1, 2, 3], 3) == (f3, rf3, []);
    assert CallPass(ENV, f2, T, rf2, [1, 2, 3], 2) == (f3, rf3, []);
  }

  lemma CallAll(f: Files, rf: RunFile)
    requires Main(rf, P_OK, false, 1) && Y !in f.runs && Z !in f.runs
    ensures var (g, rf', steps) := CallPass(ENV, f, T, rf, [1, 2, 3], 0);
            g == f.(runs := f.runs[Y := KID][Z := KID]) && Main(rf', CALLED, true, 4) && steps == []
  {
    CallX(f, rf, 1);
    hide StartCall;
    var step := StartCall(ENV, f, T, rf, 1);
    CallBoth(f, step.1, 2);
  }

  // ------------------------------------------------------------------------------------------ sweeps

  lemma {:induction false} SweepWaits(env: Env, f: Files, t: Token, rf: RunFile, u: nat)
    requires Loaded(rf) && u <= |rf.doc.units|
    requires forall v: nat | v < |rf.doc.units| && Waits(rf.state, v) ::
               rf.state.cells[v].child.value in f.runs && rf.state.cells[v].child.value !in f.parked
    ensures Sweep(env, f, t, rf, u) == (f, rf)
    decreases |rf.doc.units| - u
  {
    SweepNext(env, f, t, rf, u);
    hide Sweep;
    if u < |rf.doc.units| {
      SweepWaits(env, f, t, rf, u + 1);
    }
  }

  lemma Consumed(s: State, u: nat)
    requires Fits(DOC, s) && 2 <= u < 4 && s.cells[u].(child := None) == FRESH.(status := Dispatched)
    ensures var r := RecordCall(DOC, s, u, true);
            r.cells == s.cells[u := FRESH.(pos := 1)] && r.bounces == s.bounces && r.sessions == s.sessions
  {
    hide Skips, Bounce;
  }

  lemma SweepOne(f: Files, rf: RunFile, u: nat, child: Token)
    requires rf.doc == DOC && Loaded(rf) && 2 <= u < 4 && rf.state.cells[u] == FRESH.(status := Dispatched, child := Some(child))
    requires child in f.parked && f.parked[child]
    ensures var g := f.(parked := f.parked - {child});
            var rf' := rf.(state := RecordCall(DOC, rf.state, u, true));
            && Sweep(ENV, f, T, rf, u) == Sweep(ENV, g, T, rf', u + 1)
            && rf'.state.cells == rf.state.cells[u := FRESH.(pos := 1)]
            && rf'.state.bounces == rf.state.bounces && rf'.state.sessions == rf.state.sessions
  {
    SweepNext(ENV, f, T, rf, u);
    Consumed(rf.state, u);
    hide RecordCall, Sweep, StartCall;
  }

  lemma SweepStart(f: Files, rf: RunFile)
    requires rf.doc == DOC && Loaded(rf) && !Waits(rf.state, 0) && !Waits(rf.state, 1)
    ensures Sweep(ENV, f, T, rf, 0) == Sweep(ENV, f, T, rf, 2)
  {
    SweepNext(ENV, f, T, rf, 0);
    SweepNext(ENV, f, T, rf, 1);
    hide Sweep;
  }

  lemma Emptied(f: Files)
    requires f.parked == map[Y := true, Z := true]
    ensures Y != Z && Z in f.parked - {Y} && (f.parked - {Y})[Z] && f.parked - {Y} - {Z} == map[]
  {
    assert "y"[0] != "z"[0];
  }

  /** The refused pick consumes both outcomes. */
  lemma SweepBoth(f: Files, rf: RunFile, n: nat)
    requires Main(rf, SKIPPED, true, n) && f.parked == map[Y := true, Z := true]
    ensures var (g, rf') := Sweep(ENV, f, T, rf, 0); g.runs == f.runs && g.parked == map[] && Main(rf', STUCK, true, n)
  {
    Emptied(f);
    SweepStart(f, rf);
    SweepOne(f, rf, 2, Y);
    var f1 := f.(parked := f.parked - {Y});
    var rf1 := rf.(state := RecordCall(DOC, rf.state, 2, true));
    hide Sweep, RecordCall;
    SweepOne(f1, rf1, 3, Z);
    var f2 := f1.(parked := f1.parked - {Z});
    var rf2 := rf1.(state := RecordCall(DOC, rf1.state, 3, true));
    SweepNext(ENV, f2, T, rf2, 4);
  }

  lemma RestartOne(f: Files, rf: RunFile, u: nat)
    requires rf.doc == DOC && rf.depth == 0 && rf.path == ["m"] && Loaded(rf) && 2 <= u < 4
    requires var child := Sub(T, DOC.units[u].children[0].id);
             && rf.state.cells[u] == FRESH.(status := Dispatched, child := Some(child))
             && child !in f.parked && child !in f.runs
    ensures var child := Sub(T, DOC.units[u].children[0].id);
            Sweep(ENV, f, T, rf, u) == Sweep(ENV, f.(runs := f.runs[child := KID]), T, rf.(state := Paid(rf.state)), u + 1)
  {
    var child := Sub(T, DOC.units[u].children[0].id);
    SweepNext(ENV, f, T, rf, u);
    var cleared := rf.(state := rf.state.(cells := rf.state.cells[u := FRESH.(status := Dispatched)]));
    CallChild(f, cleared, u, FRESH.(status := Dispatched));
    ParkAgain(rf.state, u, child);
    hide Sweep, StartCall, Park, Paid, KID, MayStart;
  }

  lemma ParkAgain(s: State, u: nat, child: Token)
    requires u < |s.cells| && s.cells[u] == FRESH.(status := Dispatched, child := Some(child))
    ensures Park(Paid(s.(cells := s.cells[u := FRESH.(status := Dispatched)])), u, child) == Paid(s)
  {
    assert s.cells[u := FRESH.(status := Dispatched)][u := s.cells[u]] == s.cells;
  }

  /** Afterwards both children are gone without a trace, and both are started again. */
  lemma SweepRestarts(f: Files, rf: RunFile, n: nat)
    requires Main(rf, SKIPPED, true, n) && f.parked == map[] && Y !in f.runs && Z !in f.runs
    ensures var (g, rf') := Sweep(ENV, f, T, rf, 0);
            g == f.(runs := f.runs[Y := KID][Z := KID]) && Main(rf', SKIPPED, true, n + 2)
  {
    assert "y"[0] != "z"[0];
    SweepStart(f, rf);
    RestartOne(f, rf, 2);
    var f1 := f.(runs := f.runs[Y := KID]);
    var rf1 := rf.(state := Paid(rf.state));
    hide Sweep;
    RestartOne(f1, rf1, 3);
    var f2 := f1.(runs := f1.runs[Z := KID]);
    var rf2 := rf1.(state := Paid(rf1.state));
    SweepNext(ENV, f2, T, rf2, 4);
  }

  // ------------------------------------------------------------------------------------------- picks

  lemma OneStepPass(f: Files, rf: RunFile, frontier: seq<nat>)
    requires rf.doc == DOC && Loaded(rf) && (frontier == [0] || frontier == [0, 2, 3] || frontier == [2, 3])
    requires rf.state.cells[0].pos == 0
    requires 2 in frontier ==> rf.state.cells[2] == OUT_Y && rf.state.cells[3] == OUT_Z
    ensures CallPass(ENV, f, T, rf, frontier, 0) == (f, rf, if 0 in frontier then [0] else [])
  {
    hide StartCall;
    var k := |frontier|;
    assert CallPass(ENV, f, T, rf, frontier, k) == (f, rf, []);
    if k > 1 {
      assert CallPass(ENV, f, T, rf, frontier, k - 1) == (f, rf, []);
      assert CallPass(ENV, f, T, rf, frontier, k - 2) == (f, rf, []);
    }
    assert [0] + [] == [0];
  }

  lemma ChooseP(s: State)
    requires Fits(DOC, s) && s.sessions < 6
    ensures Chosen(DOC, s, [0], 1) == [0] && Chosen(DOC, s, [], 1) == []
  {
  }

  lemma ChooseNone(s: State, n: int)
    requires Fits(DOC, s)
    ensures Chosen(DOC, s, [], n) == [] && Emit(DOC, s, []) == s
  {
    assert Emit(DOC, s, []).cells == s.cells;
  }

  lemma EmitP(rf: RunFile, again: bool)
    requires Main(rf, if again then CALLED else FRESH_ALL, again, if again then 4 else 0)
    ensures Main(rf.(state := Emit(DOC, rf.state, [0])), if again then AGAIN else P_OUT, again, if again then 4 else 0)
    ensures Loaded(rf) && rf.doc == DOC && rf.doc.maxSessions == 6 && rf.state.sessions < 6
    ensures rf.state.cells == if again then CALLED else FRESH_ALL
    ensures rf.state.cells[0].pos == 0 && (again ==> rf.state.cells[2] == OUT_Y && rf.state.cells[3] == OUT_Z)
  {
    assert Emit(DOC, rf.state, [0]).cells == if again then AGAIN else P_OUT;
  }

  /** p is handed out, alone or beside the calls that are out. */
  lemma PickP(f: Files, rf: RunFile, again: bool)
    requires Main(rf, if again then CALLED else FRESH_ALL, again, if again then 4 else 0)
    requires again ==> Y in f.runs && Z in f.runs && Y !in f.parked && Z !in f.parked
    ensures Loaded(rf)
    ensures var (g, answer, end) := Pick(ENV, f, T, rf, 1);
            answer == Steps([0]) && g == Saved(f, T, end) &&
            Main(end, if again then AGAIN else P_OUT, again, if again then 4 else 0)
  {
    SweepWaits(ENV, f, T, rf, 0);
    EmitP(rf, again);
    hide *;
    LoadedFits(rf);
    FrontierOf(rf.state);
    ChooseP(rf.state);
    OneStepPass(f, rf, if again then [0, 2, 3] else [0]);
    PickForms(ENV, f, T, rf, 1);
  }

  lemma SomeOut(s: State)
    requires Fits(DOC, s)
    ensures s.cells == FRESH_ALL || s.cells == P_OK || s.cells == STUCK ==> !AnyDispatched(s)
    ensures s.cells == CALLED || s.cells == SKIPPED ==> AnyDispatched(s)
    ensures s.cells == STUCK ==> AnyPending(s)
  {
    if s.cells == CALLED || s.cells == SKIPPED {
      assert s.cells[2].status.Dispatched?;
    }
    if s.cells == STUCK {
      assert s.cells[2].status.Pending?;
    }
  }

  /** The pick in which the call fails, loops back, and two more calls start. */
  lemma PickCalls(f: Files, rf: RunFile)
    requires Main(rf, P_OK, false, 1) && Y !in f.runs && Z !in f.runs
    ensures var (g, answer, end) := Pick(ENV, f, T, rf, 1);
            && answer == Waiting && Main(end, CALLED, true, 4)
            && g == Saved(f.(runs := f.runs[Y := KID][Z := KID]), T, end)
  {
    SweepWaits(ENV, f, T, rf, 0);
    FrontierOf(rf.state);
    CallAll(f, rf);
    PickForms(ENV, f, T, rf, 1);
    SomeOut(rf.state);
    var rf2 := CallPass(ENV, f, T, rf, [1, 2, 3], 0).1;
    ChooseNone(rf2.state, 1);
    SomeOut(rf2.state);
    hide Pick, Sweep, CallPass, Candidates, Chosen, AnyDispatched, Emit;
  }

  /** The refused pick. */
  lemma PickStalls(f: Files, rf: RunFile)
    requires Main(rf, SKIPPED, true, 5) && f.parked == map[Y := true, Z := true]
    ensures var (g, answer, _) := Pick(ENV, f, T, rf, 1);
            answer == WalkStalled && g == Files(f.runs, map[])
  {
    SweepBoth(f, rf, 5);
    var (f1, rf1) := Sweep(ENV, f, T, rf, 0);
    FrontierOf(rf1.state);
    SomeOut(rf1.state);
    PickForms(ENV, f, T, rf, 1);
    hide Pick, Sweep, CallPass, Candidates, Chosen, AnyDispatched, AnyPending, Emit;
  }

  /** The pick after it. */
  lemma PickOvershoots(f: Files, rf: RunFile)
    requires Main(rf, SKIPPED, true, 5) && f.parked == map[] && Y !in f.runs && Z !in f.runs
    ensures var (g, answer, end) := Pick(ENV, f, T, rf, 1);
            answer == Waiting && Main(end, SKIPPED, true, 7) && T in g.runs && g.runs[T] == end
  {
    SweepRestarts(f, rf, 5);
    var (f1, rf1) := Sweep(ENV, f, T, rf, 0);
    FrontierOf(rf1.state);
    SomeOut(rf1.state);
    OneStepPass(f1, rf1, [2, 3]);
    ChooseNone(rf1.state, 1);
    PickForms(ENV, f, T, rf, 1);
    hide Pick, Sweep, CallPass, Candidates, Chosen, AnyDispatched, AnyPending, Emit;
  }

  // ------------------------------------------------------------------------------------ child runs

  const KID_OUT: RunFile := KID.(state := KID.state.(cells := [FRESH.(status := Dispatched)]))

  lemma KidFits()
    ensures KID.doc == CHILD && Loaded(KID) && Loaded(KID_OUT) && KID.state == Init(CHILD) && KID.state.cells == [FRESH]
  {
    DocsValid();
    hide Valid, Sound;
    assert Init(CHILD).cells == [FRESH];
  }

  lemma KidPick(f: Files, c: Token)
    ensures Loaded(KID) && Pick(ENV, f, c, KID, 1) == (Saved(f, c, KID_OUT), Steps([0]), KID_OUT)
  {
    KidFits();
    hide KID, KID_OUT, Shaped;
    var rf, s := KID, KID.state;
    SweepWaits(ENV, f, c, rf, 0);
    assert Eligible(CHILD, s, 0) && !AnyDispatched(s);
    assert Candidates(CHILD, s, 1) == [] && Candidates(CHILD, s, 0) == [0];
    assert CallPass(ENV, f, c, rf, [0], 1) == (f, rf, []) && CallPass(ENV, f, c, rf, [0], 0) == (f, rf, [0]);
    assert Chosen(CHILD, s, [0], 1) == [0];
    assert Emit(CHILD, s, [0]).cells == [FRESH.(status := Dispatched)];
    KidOut();
    PickForms(ENV, f, c, rf, 1);
    hide Pick, Sweep, CallPass, Candidates, Chosen, AnyDispatched, Eligible, Emit;
  }

  lemma KidOut()
    ensures KID_OUT == KID.(state := KID.state.(cells := [FRESH.(status := Dispatched)]))
  {
  }

  lemma KidRecord(f: Files, c: Token)
    requires c.Sub?
    ensures Loaded(KID_OUT) && Handed(CHILD, KID_OUT.state, "c")
    ensures Record(f, c, KID_OUT, "c", Ended(OK_REPORT)).0 == Files(f.runs - {c}, f.parked[c := true])
  {
    KidFits();
    var s := KID_OUT.state;
    assert Recorder(CHILD, s, "c", 0) == Some(0);
    KidEnds(s);
    hide RecordSession, AfterRecord, Recorder;
  }

  lemma KidEnds(s: State)
    requires Fits(CHILD, s) && s.cells == [FRESH.(status := Dispatched)] && s.sessions == 0
    ensures var r := RecordSession(CHILD, s, 0, OK_REPORT); AfterRecord(CHILD, r) == Finish(RunSuccess)
  {
    var c := FRESH.(status := Success);
    assert AfterSession(CHILD.units[0], s.cells[0], OK_REPORT) == c;
    var r := Resolved(CHILD, s, 0, c, true).(sessions := 1);
    assert r.cells == [c] && Bounce(CHILD, r, 0) == r;
    NothingSkipped(CHILD, r);
    assert RecordSession(CHILD, s, 0, OK_REPORT) == r;
    hide Skips, Bounce;
    assert !Eligible(CHILD, r, 0) && Candidates(CHILD, r, 1) == [] && Candidates(CHILD, r, 0) == [];
  }

  // ------------------------------------------------------------------------------------ the execution

  const PICK := PickRun(ENV, T, 1)

  /** The run of DOC and the given other runs; and what is parked. */
  ghost predicate World(w: Files, cells: seq<Cell>, bounced: bool, n: nat, kids: map<Token, RunFile>, parked: map<Token, bool>) {
    && T in w.runs && T !in kids && Main(w.runs[T], cells, bounced, n)
    && w.runs - {T} == kids && w.parked == parked
  }

  lemma TokensDiffer()
    ensures T != Y && T != Z && Y != Z
  {
    assert "y"[0] != "z"[0];
  }

  lemma WorldSaved(w: Files, kids: map<Token, RunFile>, parked: map<Token, bool>, rf: RunFile, cells: seq<Cell>, bounced: bool, n: nat)
    requires T !in kids && w.runs - {T} == kids && w.parked == parked && Main(rf, cells, bounced, n)
    ensures World(Saved(w, T, rf), cells, bounced, n, kids, parked)
  {
    assert (w.runs[T := rf]) - {T} == kids;
  }

  lemma MainLoaded(rf: RunFile, cells: seq<Cell>, bounced: bool, n: nat)
    requires Main(rf, cells, bounced, n)
    ensures Loaded(rf) && Fits(DOC, rf.state) && rf.doc == DOC && rf.state.cells == cells && rf.state.sessions == n
  {
  }

  lemma Began()
    ensures World(Step(NOTHING, Begin("m", DOC, "m")), FRESH_ALL, false, 0, map[], map[])
  {
    DocsValid();
    var rf := NewRun(DOC, 0, ["m"]);
    hide Valid, Sound;
    assert Init(DOC).cells == FRESH_ALL;
    WorldSaved(NOTHING, map[], map[], rf, FRESH_ALL, false, 0);
  }

  lemma StepPick(w: Files, t: Token)
    requires t in w.runs && Loaded(w.runs[t])
    ensures Step(w, PickRun(ENV, t, 1)) == Pick(ENV, w, t, w.runs[t], 1).0
  {
    DocsValid();
    hide Pick, Valid;
  }

  lemma PickedP(w: Files, again: bool, kids: map<Token, RunFile>)
    requires World(w, if again then CALLED else FRESH_ALL, again, if again then 4 else 0, kids, map[])
    requires again ==> Y in w.runs && Z in w.runs
    ensures World(Step(w, PICK), if again then AGAIN else P_OUT, again, if again then 4 else 0, kids, map[])
  {
    MainLoaded(w.runs[T], if again then CALLED else FRESH_ALL, again, if again then 4 else 0);
    PickP(w, w.runs[T], again);
    StepPick(w, T);
    hide Pick, Main, Step;
    var end := Pick(ENV, w, T, w.runs[T], 1).2;
    WorldSaved(w, kids, map[], end, if again then AGAIN else P_OUT, again, if again then 4 else 0);
  }

  lemma StepRecord(w: Files, t: Token, id: string, res: Result)
    requires t in w.runs && Loaded(w.runs[t]) && Handed(w.runs[t].doc, w.runs[t].state, id)
    ensures Step(w, RecordRun(t, id, res)) == Record(w, t, w.runs[t], id, res).0
  {
    hide Record, Handed;
  }

  lemma RecordGoesOn(w: Files, t: Token, rf: RunFile, id: string, u: nat, r: Report)
    requires Loaded(rf) && Recorder(rf.doc, rf.state, id, 0) == Some(u) && rf.state.cells[u].child.None?
    requires AfterRecord(rf.doc, RecordSession(rf.doc, rf.state, u, r)) == Verdict.Continue
    ensures Handed(rf.doc, rf.state, id)
    ensures Record(w, t, rf, id, Ended(r)).0 == Saved(w, t, rf.(state := RecordSession(rf.doc, rf.state, u, r)))
  {
    hide RecordSession, AfterRecord, Recorder;
  }

  lemma RecordedP(w: Files, ok: bool, n: nat, kids: map<Token, RunFile>)
    requires World(w, if ok then P_OUT else AGAIN, !ok, n, kids, map[]) && n + 1 < 6
    ensures World(Step(w, RecordRun(T, "p", Ended(Report(!ok, false, None)))), if ok then P_OK else SKIPPED, !ok, n + 1, kids, map[])
  {
    var rf := w.runs[T];
    MainLoaded(rf, if ok then P_OUT else AGAIN, !ok, n);
    assert Recorder(DOC, rf.state, "p", 0) == Some(0);
    RecordP(rf.state, ok, !ok, n);
    var s := RecordSession(DOC, rf.state, 0, Report(!ok, false, None));
    GoesOn(s);
    RecordGoesOn(w, T, rf, "p", 0, Report(!ok, false, None));
    StepRecord(w, T, "p", Ended(Report(!ok, false, None)));
    hide RecordSession, AfterRecord, Recorder, Fits, Step, Record;
    WorldSaved(w, kids, map[], rf.(state := s), if ok then P_OK else SKIPPED, !ok, n + 1);
  }

  lemma GoesOn(s: State)
    requires Fits(DOC, s) && s.sessions < 6 && (s.cells == P_OK || s.cells == SKIPPED)
    ensures AfterRecord(DOC, s) == Verdict.Continue
  {
    FrontierOf(s);
    SomeOut(s);
    hide Candidates, AnyDispatched, WalkOutcome;
  }

  lemma PickedCalls(w: Files)
    requires World(w, P_OK, false, 1, map[], map[])
    ensures World(Step(w, PICK), CALLED, true, 4, map[Y := KID, Z := KID], map[])
  {
    hide Pick, Main, Step, KID, ENV;
    TokensDiffer();
    assert Y !in w.runs && Z !in w.runs by { assert Y !in w.runs - {T} && Z !in w.runs - {T}; }
    MainLoaded(w.runs[T], P_OK, false, 1);
    PickCalls(w, w.runs[T]);
    StepPick(w, T);
    var end := Pick(ENV, w, T, w.runs[T], 1).2;
    var w2 := w.(runs := w.runs[Y := KID][Z := KID]);
    assert w2.runs - {T} == map[Y := KID, Z := KID];
    WorldSaved(w2, map[Y := KID, Z := KID], map[], end, CALLED, true, 4);
  }

  /** A child runs from its first pick to its parked outcome; nothing else changes. */
  lemma ChildRuns(w: Files, c: Token)
    requires c in w.runs && w.runs[c] == KID && c.Sub?
    ensures var w1 := Step(w, PickRun(ENV, c, 1));
            var w2 := Step(w1, RecordRun(c, "c", Ended(OK_REPORT)));
            w2 == Files(w.runs - {c}, w.parked[c := true])
  {
    KidFits();
    KidPick(w, c);
    StepPick(w, c);
    var w1 := Saved(w, c, KID_OUT);
    KidRecord(w1, c);
    hide Pick, Record, KID_OUT, KID;
    assert w1.runs - {c} == w.runs - {c};
    KidDoc();
  }

  lemma KidDoc()
    ensures KID_OUT.doc == CHILD && KID.doc == CHILD
  {
  }

  lemma BothRan(w: Files)
    requires World(w, SKIPPED, true, 5, map[Y := KID, Z := KID], map[])
    ensures var w1 := Step(w, PickRun(ENV, Y, 1));
            var w2 := Step(w1, RecordRun(Y, "c", Ended(OK_REPORT)));
            var w3 := Step(w2, PickRun(ENV, Z, 1));
            var w4 := Step(w3, RecordRun(Z, "c", Ended(OK_REPORT)));
            && Y in w.runs && w.runs[Y] == KID && Z in w2.runs && w2.runs[Z] == KID
            && World(w4, SKIPPED, true, 5, map[], map[Y := true, Z := true])
  {
    TokensDiffer();
    hide Step, Main, KID;
    assert Y in w.runs - {T} && Z in w.runs - {T};
    assert w.runs[Y] == (w.runs - {T})[Y] && w.runs[Z] == (w.runs - {T})[Z];
    ChildRuns(w, Y);
    var w2 := Files(w.runs - {Y}, w.parked[Y := true]);
    ChildRuns(w2, Z);
    var w4 := Files(w2.runs - {Z}, w2.parked[Z := true]);
    assert w4.runs - {T} == (w.runs - {T}) - {Y} - {Z};
    assert map[Y := KID, Z := KID] - {Y} - {Z} == map[];
    assert w4.parked == map[Y := true, Z := true];
  }

  lemma Stalled(w: Files)
    requires World(w, SKIPPED, true, 5, map[], map[Y := true, Z := true])
    ensures T in w.runs && Loaded(w.runs[T]) && Pick(ENV, w, T, w.runs[T], 1).1 == WalkStalled
    ensures World(Step(w, PICK), SKIPPED, true, 5, map[], map[])
  {
    MainLoaded(w.runs[T], SKIPPED, true, 5);
    PickStalls(w, w.runs[T]);
    StepPick(w, T);
    hide Pick, Main, Step;
  }

  lemma Overshot(w: Files)
    requires World(w, SKIPPED, true, 5, map[], map[])
    ensures var w' := Step(w, PICK); T in w'.runs && Main(w'.runs[T], SKIPPED, true, 7)
  {
    assert Y !in w.runs - {T} && Z !in w.runs - {T};
    TokensDiffer();
    MainLoaded(w.runs[T], SKIPPED, true, 5);
    PickOvershoots(w, w.runs[T]);
    StepPick(w, T);
    hide Pick, Main, Step;
  }

  // ------------------------------------------------------------------------------ and its discipline

  lemma Extend(es: seq<Event>, e: Event)
    requires AllDisciplined(es) && Disciplined(Exec(es), e)
    ensures AllDisciplined(es + [e]) && Exec(es + [e]) == Step(Exec(es), e)
    ensures (es + [e])[..|es|] == es && (es + [e])[|es|] == e
  {
    hide Disciplined, Step;
    var all := es + [e];
    assert all[..|es|] == es;
    forall i: nat | i < |all| ensures Disciplined(Exec(all[..i]), all[i]) {
      if i < |es| {
        assert all[..i] == es[..i] && all[i] == es[i];
      }
    }
  }

  lemma NoneOut(w: Files, cells: seq<Cell>, bounced: bool, n: nat, kids: map<Token, RunFile>, parked: map<Token, bool>)
    requires World(w, cells, bounced, n, kids, parked)
    requires cells == FRESH_ALL || cells == P_OK || cells == CALLED || cells == SKIPPED
    ensures Disciplined(w, PICK)
  {
    forall u: nat | u < 4 ensures !Outstanding(DOC, w.runs[T].state, u) {
    }
  }

  lemma KidDisciplined(w: Files, c: Token)
    requires c in w.runs && w.runs[c] == KID
    ensures Disciplined(w, PickRun(ENV, c, 1))
  {
    KidFits();
    hide KID, Shaped;
    assert !Outstanding(CHILD, KID.state, 0);
  }

  lemma OthersFree(w: Files, e: Event)
    requires !e.PickRun?
    ensures Disciplined(w, e)
  {
  }

  /** A disciplined execution over valid documents in which one pick is refused because the walk stalled, and
      after which the run has spent more sessions than its cap. */
  lemma StalledRunOvershoots() returns (es: seq<Event>, k: nat)
    ensures Valid(DOC) && Sound(ENV) && AllDisciplined(es) && k < |es| && es[k] == PICK
    ensures var w := Exec(es[..k]);
            T in w.runs && w.runs[T].doc == DOC && Loaded(w.runs[T]) && Pick(ENV, w, T, w.runs[T], 1).1 == WalkStalled
    ensures T in Exec(es).runs && Exec(es).runs[T].doc == DOC && Exec(es).runs[T].state.sessions > DOC.maxSessions
  {
    DocsValid();
    es := [];
    Nothing();
    hide *;
    var kids := map[Y := KID, Z := KID];
    NotPicks();
    OthersFree(Exec(es), Begin("m", DOC, "m"));
    Extend(es, Begin("m", DOC, "m"));
    Began();
    es := es + [Begin("m", DOC, "m")];
    NoneOut(Exec(es), FRESH_ALL, false, 0, map[], map[]);
    Extend(es, PICK);
    PickedP(Exec(es), false, map[]);
    es := es + [PICK];
    es := AfterP(es, true, 0, map[]);
    NoneOut(Exec(es), P_OK, false, 1, map[], map[]);
    Extend(es, PICK);
    PickedCalls(Exec(es));
    es := es + [PICK];
    NoneOut(Exec(es), CALLED, true, 4, kids, map[]);
    KidsIn(Exec(es));
    Extend(es, PICK);
    PickedP(Exec(es), true, kids);
    es := es + [PICK];
    es := AfterP(es, false, 4, kids);
    es := AfterKids(es);
    k := |es|;
    NoneOut(Exec(es), SKIPPED, true, 5, map[], map[Y := true, Z := true]);
    Extend(es, PICK);
    Stalled(Exec(es));
    WorldDoc(Exec(es), SKIPPED, true, 5, map[], map[Y := true, Z := true]);
    var before := es;
    es := es + [PICK];
    NoneOut(Exec(es), SKIPPED, true, 5, map[], map[]);
    Extend(es, PICK);
    Overshot(Exec(es));
    es := es + [PICK];
    MainLoaded(Exec(es).runs[T], SKIPPED, true, 7);
    CapSix();
    assert es == before + [PICK] + [PICK];
    assert es[..k] == before && es[k] == PICK;
  }

  lemma Nothing()
    ensures Exec([]) == NOTHING && AllDisciplined([])
  {
  }

  lemma CapSix()
    ensures DOC.maxSessions == 6
  {
  }

  lemma NotPicks()
    ensures forall name, doc, title :: !Begin(name, doc, title).PickRun?
    ensures forall t, id, res :: !RecordRun(t, id, res).PickRun?
  {
  }

  lemma KidsIn(w: Files)
    requires World(w, CALLED, true, 4, map[Y := KID, Z := KID], map[])
    ensures Y in w.runs && Z in w.runs
  {
    hide Main, KID;
    assert Y in w.runs - {T} && Z in w.runs - {T};
  }

  lemma WorldDoc(w: Files, cells: seq<Cell>, bounced: bool, n: nat, kids: map<Token, RunFile>, parked: map<Token, bool>)
    requires World(w, cells, bounced, n, kids, parked)
    ensures T in w.runs && w.runs[T].doc == DOC
  {
  }

  lemma AfterP(es: seq<Event>, ok: bool, n: nat, kids: map<Token, RunFile>) returns (more: seq<Event>)
    requires AllDisciplined(es) && World(Exec(es), if ok then P_OUT else AGAIN, !ok, n, kids, map[]) && n + 1 < 6
    ensures AllDisciplined(more) && World(Exec(more), if ok then P_OK else SKIPPED, !ok, n + 1, kids, map[])
  {
    hide *;
    NotPicks();
    var e := RecordRun(T, "p", Ended(Report(!ok, false, None)));
    OthersFree(Exec(es), e);
    Extend(es, e);
    RecordedP(Exec(es), ok, n, kids);
    more := es + [e];
  }

  lemma AfterKids(es: seq<Event>) returns (more: seq<Event>)
    requires AllDisciplined(es) && World(Exec(es), SKIPPED, true, 5, map[Y := KID, Z := KID], map[])
    ensures AllDisciplined(more) && World(Exec(more), SKIPPED, true, 5, map[], map[Y := true, Z := true])
  {
    hide *;
    NotPicks();
    BothRan(Exec(es));
    KidDisciplined(Exec(es), Y);
    Extend(es, PickRun(ENV, Y, 1));
    var e1 := es + [PickRun(ENV, Y, 1)];
    OthersFree(Exec(e1), RecordRun(Y, "c", Ended(OK_REPORT)));
    Extend(e1, RecordRun(Y, "c", Ended(OK_REPORT)));
    var e2 := e1 + [RecordRun(Y, "c", Ended(OK_REPORT))];
    KidDisciplined(Exec(e2), Z);
    Extend(e2, PickRun(ENV, Z, 1));
    var e3 := e2 + [PickRun(ENV, Z, 1)];
    OthersFree(Exec(e3), RecordRun(Z, "c", Ended(OK_REPORT)));
    Extend(e3, RecordRun(Z, "c", Ended(OK_REPORT)));
    more := e3 + [RecordRun(Z, "c", Ended(OK_REPORT))];
  }
}
