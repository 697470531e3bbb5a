/** Every way the engine changes a run: seven moves. */
module Moves {
  // A state is reached when some sequence of moves leads to it; what every move keeps therefore holds in
  // every reachable state.

  import opened Counting
  import opened Documents
  import opened Validator
  import opened WalkState
  import opened Dispatch
  import opened WalkInvariants

  datatype Move =
    | Pay(u: nat)                      // a call start reserves its session
    | Clear(u: nat)                    // a vanished child is forgotten before its restart
    | ParkOn(u: nat, child: Token)     // a call unit waits for its child
    | EmitBatch(us: seq<nat>)          // session units are handed out
    | Release(u: nat)                  // a session is retried later
    | Session(u: nat, report: Report)  // a session reported
    | Called(u: nat, ok: bool)         // a call ended, or could not start

  predicate Emittable(d: Doc, s: State, u: nat)
    requires Fits(d, s) && u < |d.units|
  {
    Eligible(d, s, u) && ExpectedNode(d, s, u).activity.Session?
  }

  ghost predicate Enabled(d: Doc, s: State, m: Move) {
    && Fits(d, s)
    && match m
       case Pay(u) => u < |d.units| && Eligible(d, s, u) && ExpectedNode(d, s, u).activity.Call?
       case Clear(u) => u < |d.units| && s.cells[u].status.Dispatched?
       case ParkOn(u, _) => u < |d.units| && Eligible(d, s, u) && ExpectedNode(d, s, u).activity.Call?
       case EmitBatch(us) => Within(d, us) && forall i: nat | i < |us| :: Emittable(d, s, us[i])
       case Release(u) =>
         u < |d.units| && s.cells[u].status.Dispatched? && ExpectedNode(d, s, u).activity.Session?
       case Session(u, _) =>
         u < |d.units| && s.cells[u].status.Dispatched? && ExpectedNode(d, s, u).activity.Session?
       case Called(u, _) => u < |d.units| && Eligible(d, s, u) && ExpectedNode(d, s, u).activity.Call?
  }

  /** The unit has not run: it waits, is out, or was skipped. */
  predicate Unrun(s: State, u: nat) {
    u < |s.cells| && !Ran(s.cells[u].status)
  }

  /** What a move needs to make sense at all: its unit has not run. */
  ghost predicate Possible(d: Doc, s: State, m: Move) {
    && Fits(d, s)
    && match m
       case Pay(u) => u < |d.units|
       case Clear(u) => u < |d.units| && s.cells[u].status.Dispatched?
       case ParkOn(u, _) => Unrun(s, u) && ExpectedNode(d, s, u).activity.Call?
       case EmitBatch(us) => Within(d, us) && forall i: nat | i < |us| :: Unrun(s, us[i])
       case Release(u) => u < |d.units| && s.cells[u].status.Dispatched?
       case Session(u, _) => Unrun(s, u) && s.cells[u].child.None?
       case Called(u, _) => Unrun(s, u)
  }

  ghost function Effect(d: Doc, s: State, m: Move): (r: State)
    requires Possible(d, s, m)
    ensures Fits(d, r)
  {
    match m
    case Pay(_) => Paid(s)
    case Clear(u) => s.(cells := s.cells[u := s.cells[u].(child := None)])
    case ParkOn(u, child) => Park(s, u, child)
    case EmitBatch(us) => Emit(d, s, us)
    case Release(u) => SetStatus(s, u, Pending)
    case Session(u, report) => RecordSession(d, s, u, report)
    case Called(u, ok) => RecordCall(d, s, u, ok)
  }

  lemma EnabledPossible(d: Doc, s: State, m: Move)
    requires Enabled(d, s, m)
    ensures Possible(d, s, m)
  {
  }

  ghost function Apply(d: Doc, s: State, m: Move): State {
    if !Enabled(d, s, m) then s
    else
      EnabledPossible(d, s, m);
      Effect(d, s, m)
  }

  ghost function Play(d: Doc, ms: seq<Move>): State {
    if ms == [] then Init(d) else Apply(d, Play(d, ms[..|ms| - 1]), ms[|ms| - 1])
  }

  ghost predicate Reached(d: Doc, s: State) {
    exists ms :: s == Play(d, ms)
  }

  lemma ReachedMove(d: Doc, s: State, m: Move)
    requires Reached(d, s)
    ensures Reached(d, Apply(d, s, m))
  {
    var ms :| s == Play(d, ms);
    assert (ms + [m])[..|ms|] == ms;
    assert Apply(d, s, m) == Play(d, ms + [m]);
  }

  lemma ReachedInit(d: Doc)
    ensures Reached(d, Init(d))
  {
    assert Init(d) == Play(d, []);
  }

  lemma MoveConsistent(d: Doc, s: State, m: Move)
    requires Consistent(d, s)
    ensures Consistent(d, Apply(d, s, m))
  {
    if Enabled(d, s, m) {
      match m
      case Pay(_) => PaidConsistent(d, s, 0);
      case Clear(u) =>
        assert Justified(d, s, u);
        LiveSwap(d, s, Apply(d, s, m));
      case ParkOn(u, child) => ParkedConsistent(d, s, u, child);
      case EmitBatch(us) => EmitConsistent(d, s, us);
      case Release(u) => ReleaseConsistent(d, s, u);
      case Session(u, report) => RecordSessionConsistent(d, s, u, report);
      case Called(u, ok) => RecordCallConsistent(d, s, u, ok);
    }
  }

  lemma {:induction false} PlayConsistent(d: Doc, ms: seq<Move>)
    requires Shaped(d)
    ensures Consistent(d, Play(d, ms))
  {
    if ms == [] {
      InitConsistent(d);
    } else {
      PlayConsistent(d, ms[..|ms| - 1]);
      MoveConsistent(d, Play(d, ms[..|ms| - 1]), ms[|ms| - 1]);
    }
  }

  lemma ReachedConsistent(d: Doc, s: State)
    requires Shaped(d) && Reached(d, s)
    ensures Consistent(d, s)
  {
    var ms :| s == Play(d, ms);
    PlayConsistent(d, ms);
  }

  // ------------------------------------------------------ the dispatch protocol makes only moves

  lemma CalledReached(d: Doc, s: State, u: nat, ok: bool)
    requires Fits(d, s) && Reached(d, s) && u < |d.units|
    requires Eligible(d, s, u) && ExpectedNode(d, s, u).activity.Call?
    ensures Reached(d, RecordCall(d, s, u, ok))
  {
    var m := Called(u, ok);
    assert Enabled(d, s, m);
    ReachedMove(d, s, m);
  }

  lemma ParkReached(d: Doc, s: State, u: nat, child: Token)
    requires Fits(d, s) && Reached(d, s) && u < |d.units|
    requires Eligible(d, s, u) && ExpectedNode(d, s, u).activity.Call?
    ensures Reached(d, Park(s, u, child))
  {
    ReachedMove(d, s, ParkOn(u, child));
  }

  lemma EmitReached(d: Doc, s: State, us: seq<nat>)
    requires Fits(d, s) && Reached(d, s) && Within(d, us)
    requires forall i: nat | i < |us| :: Emittable(d, s, us[i])
    ensures Reached(d, Emit(d, s, us))
  {
    ReachedMove(d, s, EmitBatch(us));
  }

  lemma PaidReached(d: Doc, s: State, u: nat)
    requires Consistent(d, s) && Reached(d, s) && u < |d.units| && Eligible(d, s, u)
    requires ExpectedNode(d, s, u).activity.Call?
    ensures Reached(d, Paid(s)) && Eligible(d, Paid(s), u)
  {
    PaidConsistent(d, s, u);
    ReachedMove(d, s, Pay(u));
  }

  lemma StartCallReached(env: Env, f: Files, t: Token, rf: RunFile, u: nat)
    requires Loaded(rf) && Reached(rf.doc, rf.state) && u < |rf.doc.units|
    requires ExpectedNode(rf.doc, rf.state, u).activity.Call? && Eligible(rf.doc, rf.state, u)
    ensures Reached(rf.doc, StartCall(env, f, t, rf, u).1.state)
  {
    var d, s := rf.doc, rf.state;
    ReachedConsistent(d, s);
    PaidReached(d, s, u);
    var node := ExpectedNode(d, s, u);
    if !MayStart(env, f, t, rf, node) {
      CalledReached(d, Paid(s), u, false);
    } else if node.activity.wait {
      ParkReached(d, Paid(s), u, Sub(t, node.id));
    } else {
      CalledReached(d, Paid(s), u, true);
    }
  }

  lemma SweepUnitReached(env: Env, f: Files, t: Token, rf: RunFile, u: nat)
    requires Loaded(rf) && Reached(rf.doc, rf.state) && u < |rf.doc.units|
    ensures Reached(rf.doc, SweepUnit(env, f, t, rf, u).1.state)
  {
    var d, s := rf.doc, rf.state;
    if Waits(s, u) {
      var child := s.cells[u].child.value;
      if child in f.parked {
        CalledReached(d, s, u, f.parked[child]);
      } else if child !in f.runs {
        ReachedMove(d, s, Clear(u));
        StartCallReached(env, f, t, rf.(state := Apply(d, s, Clear(u))), u);
      }
    }
  }

  lemma {:induction false} SweepReached(env: Env, f: Files, t: Token, rf: RunFile, u: nat)
    requires Loaded(rf) && Reached(rf.doc, rf.state) && u <= |rf.doc.units|
    ensures Reached(rf.doc, Sweep(env, f, t, rf, u).1.state)
    decreases |rf.doc.units| - u
  {
    if u < |rf.doc.units| {
      SweepUnitReached(env, f, t, rf, u);
      var step := SweepUnit(env, f, t, rf, u);
      SweepReached(env, step.0, t, step.1, u + 1);
    }
  }

  /** In a safe document starting one call of the frontier leaves the rest of it eligible. */
  lemma StartCallElsewhere(env: Env, f: Files, t: Token, rf: RunFile, u: nat, v: nat)
    requires Consistent(rf.doc, rf.state) && u < |rf.doc.units| && v < |rf.doc.units| && u != v
    requires ExpectedNode(rf.doc, rf.state, u).activity.Call? && Safe(rf.doc)
    requires Eligible(rf.doc, rf.state, u) && Eligible(rf.doc, rf.state, v)
    ensures StartCall(env, f, t, rf, u).1.state.cells[v] == rf.state.cells[v]
    ensures Eligible(rf.doc, StartCall(env, f, t, rf, u).1.state, v)
  {
    var d, s := rf.doc, rf.state;
    var node := ExpectedNode(d, s, u);
    var r := StartCall(env, f, t, rf, u).1.state;
    assert HasCall(d.units[u]);
    assert Justified(d, s, u) && Justified(d, s, v);
    PaidConsistent(d, s, u);
    PaidConsistent(d, s, v);
    forall i: nat | i < |d.edges| && d.edges[i].back && d.edges[i].src == u
      ensures v !in ReachSet(d, d.edges[i].dst)
    {
      if v in ReachSet(d, d.edges[i].dst) {
        ComparableExclusive(d, s, v, u);
      }
    }
    if MayStart(env, f, t, rf, node) && node.activity.wait {
      assert SameInputs(d, s, r, v);
      SameInputsSameJoin(d, s, r, v);
    } else {
      var ok := MayStart(env, f, t, rf, node);
      ResolutionElsewhere(d, Paid(s), Resolved(d, Paid(s), u, AfterCall(d.units[u], s.cells[u], ok), ok), u, v);
    }
  }

  lemma {:induction false} CallPassReached(env: Env, f: Files, t: Token, rf: RunFile, frontier: seq<nat>, k: nat)
    requires Loaded(rf) && Reached(rf.doc, rf.state)
    requires Safe(rf.doc) && k <= |frontier| && Within(rf.doc, frontier)
    requires forall i: nat | k <= i < |frontier| :: Eligible(rf.doc, rf.state, frontier[i])
    requires Distinct(frontier)
    ensures
      var pass := CallPass(env, f, t, rf, frontier, k);
      && Reached(rf.doc, pass.1.state)
      && (forall i: nat | i < |pass.2| :: pass.2[i] in frontier[k..] && Emittable(rf.doc, pass.1.state, pass.2[i]))
      && (forall v: nat | v < |rf.doc.units| && v !in frontier[k..] && Eligible(rf.doc, rf.state, v) ::
            Eligible(rf.doc, pass.1.state, v) && pass.1.state.cells[v] == rf.state.cells[v])
    decreases |frontier| - k
  {
    hide Reached, Met, StartCall, Safe, Consistent, Valid, Emit;
    if k < |frontier| {
      var u := frontier[k];
      assert frontier[k..] == [u] + frontier[k + 1..];
      if ExpectedNode(rf.doc, rf.state, u).activity.Call? &&
         !rf.state.cells[u].status.Dispatched? && rf.state.sessions < rf.doc.maxSessions {
        var step := StartCall(env, f, t, rf, u);
        ReachedConsistent(rf.doc, rf.state);
        StartCallReached(env, f, t, rf, u);
        forall v: nat | v < |rf.doc.units| && v != u && Eligible(rf.doc, rf.state, v)
          ensures Eligible(rf.doc, step.1.state, v) && step.1.state.cells[v] == rf.state.cells[v]
        {
          StartCallElsewhere(env, f, t, rf, u, v);
        }
        CallPassReached(env, step.0, t, step.1, frontier, k + 1);
      } else {
        CallPassReached(env, f, t, rf, frontier, k + 1);
        assert u !in frontier[k + 1..];
      }
    }
  }

  lemma {:induction false} ReclaimsFrom(s: State, steps: seq<nat>)
    requires forall i: nat | i < |steps| :: steps[i] < |s.cells|
    ensures forall u | u in Reclaims(s, steps) :: u in steps
  {
    if steps != [] {
      ReclaimsFrom(s, steps[1..]);
    }
  }

  /** The step pass only emits session units that may run. */
  lemma ChosenEmittable(env: Env, f: Files, t: Token, rf: RunFile, n: int)
    requires Loaded(rf) && Reached(rf.doc, rf.state) && Safe(rf.doc)
    ensures
      var pass := CallPass(env, f, t, rf, Candidates(rf.doc, rf.state, 0), 0);
      var chosen := Chosen(rf.doc, pass.1.state, pass.2, n);
      && Reached(rf.doc, pass.1.state)
      && forall i: nat | i < |chosen| :: Emittable(rf.doc, pass.1.state, chosen[i])
  {
    var d := rf.doc;
    var frontier := Candidates(d, rf.state, 0);
    CandidatesExact(d, rf.state);
    CallPassReached(env, f, t, rf, frontier, 0);
    var pass := CallPass(env, f, t, rf, frontier, 0);
    var chosen := Chosen(d, pass.1.state, pass.2, n);
    ReclaimsFrom(pass.1.state, pass.2);
    forall i: nat | i < |chosen| ensures Emittable(d, pass.1.state, chosen[i]) {
      assert chosen[i] in chosen && chosen[i] in pass.2;
    }
  }

  /** The call pass and the step pass of one pick. */
  lemma PassReached(env: Env, f: Files, t: Token, rf: RunFile, n: int)
    requires Loaded(rf) && Reached(rf.doc, rf.state) && Safe(rf.doc)
    ensures
      var pass := CallPass(env, f, t, rf, Candidates(rf.doc, rf.state, 0), 0);
      Reached(rf.doc, Emit(rf.doc, pass.1.state, Chosen(rf.doc, pass.1.state, pass.2, n)))
  {
    ChosenEmittable(env, f, t, rf, n);
    var pass := CallPass(env, f, t, rf, Candidates(rf.doc, rf.state, 0), 0);
    EmitReached(rf.doc, pass.1.state, Chosen(rf.doc, pass.1.state, pass.2, n));
  }

  /** Every pick of a safe document only makes moves, up to the state in which it answers. */
  lemma {:induction false} PickReached(env: Env, f: Files, t: Token, rf: RunFile, n: int)
    requires Loaded(rf) && Reached(rf.doc, rf.state) && Safe(rf.doc)
    ensures Reached(rf.doc, Pick(env, f, t, rf, n).2.state)
    decreases Max(0, rf.doc.maxSessions - rf.state.sessions)
  {
    var d := rf.doc;
    SweepReached(env, f, t, rf, 0);
    var (f1, rf1) := Sweep(env, f, t, rf, 0);
    if !(rf1.state.sessions >= d.maxSessions && !AnyDispatched(rf1.state)) {
      var frontier := Candidates(d, rf1.state, 0);
      if frontier != [] {
        PassReached(env, f1, t, rf1, n);
        var (f2, rf2, steps) := CallPass(env, f1, t, rf1, frontier, 0);
        var chosen := Chosen(d, rf2.state, steps, n);
        var rf3 := rf2.(state := Emit(d, rf2.state, chosen));
        if chosen == [] && !AnyDispatched(rf3.state) {
          ReentryProgress(env, f, t, rf, n);
          PickReached(env, Saved(f2, t, rf3), t, rf3, n);
        }
      }
    }
  }
}
