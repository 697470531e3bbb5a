/** The engine as a machine over the log directory. */
module Machine {
  // Runs are begun, picked and recorded in any order. What holds in every state of every run of the tree.

  import opened Counting
  import opened Documents
  import opened Validator
  import opened WalkState
  import opened Dispatch
  import opened WalkInvariants
  import opened Moves

  datatype Event =
    | Begin(name: string, doc: Doc, title: string)
    | PickRun(env: Env, t: Token, n: int)
    | RecordRun(t: Token, id: string, res: Result)

  const NOTHING := Files(map[], map[])

  /** One action of the driver. An event the engine cannot act on changes nothing. */
  ghost function Step(w: Files, e: Event): Files {
    match e
    case Begin(name, doc, title) =>
      if Top(name) in w.runs || !Valid(doc) then w
      else StartedShape(doc); Saved(w, Top(name), NewRun(doc, 0, [title]))
    case PickRun(env, t, n) =>
      if t in w.runs && Loaded(w.runs[t]) && Sound(env) then Pick(env, w, t, w.runs[t], n).0 else w
    case RecordRun(t, id, res) =>
      if t in w.runs && Loaded(w.runs[t]) && Handed(w.runs[t].doc, w.runs[t].state, id)
      then Record(w, t, w.runs[t], id, res).0 else w
  }

  ghost function Exec(es: seq<Event>): Files {
    if es == [] then NOTHING else Step(Exec(es[..|es| - 1]), es[|es| - 1])
  }

  lemma StartedShape(doc: Doc)
    requires Valid(doc)
    ensures Valid(Started(doc)) && Reached(Started(doc), Init(Started(doc)))
  {
    StartedValid(doc);
    ReachedInit(Started(doc));
  }

  /** Every call unit that is dispatched waits for its child run. */
  predicate Anchored(d: Doc, s: State)
    requires Fits(d, s)
  {
    forall u: nat | u < |d.units| && s.cells[u].status.Dispatched? && ExpectedNode(d, s, u).activity.Call? ::
      s.cells[u].child.Some?
  }

  /** A run of a valid document; it got where it is by moves wherever its frontier cannot go stale. */
  ghost predicate Sane(rf: RunFile) {
    && Valid(rf.doc)
    && Loaded(rf)
    && (Safe(rf.doc) ==> Reached(rf.doc, rf.state) && Anchored(rf.doc, rf.state))
  }

  ghost predicate AllSane(w: Files) {
    forall t | t in w.runs :: Sane(w.runs[t])
  }

  // ------------------------------------------------------------------------------------ progress

  /** Following pending parents down the numbering ends at a ready unit. */
  lemma {:induction false} ReadyBelow(d: Doc, s: State, rank: seq<nat>, u: nat) returns (v: nat)
    requires Consistent(d, s) && Ranked(d, rank) && !AnyDispatched(s)
    requires u < |d.units| && s.cells[u].status.Pending?
    ensures v < |d.units| && Ready(d, s, v)
    decreases rank[u]
  {
    if i: nat :| i < |d.edges| && Enters(d, i, u) && EdgeAt(d, s, i).Open? {
      assert Forward(d, i) && Arc(d, d.edges[i].src, u);
      v := ReadyBelow(d, s, rank, d.edges[i].src);
    } else {
      assert !Doomed(d, s, u);
      v := u;
    }
  }

  /** On a validated graph, something is ready whenever something is pending and nothing runs. */
  lemma SomethingReady(d: Doc, s: State)
    requires Valid(d) && Consistent(d, s) && !AnyDispatched(s) && AnyPending(s)
    ensures Candidates(d, s, 0) != []
  {
    var rank := AcyclicRank(d);
    var u: nat :| u < |s.cells| && s.cells[u].status.Pending?;
    var v := ReadyBelow(d, s, rank, u);
    CandidatesExact(d, s);
    assert v in Candidates(d, s, 0);
  }

  lemma DispatchedIsCandidate(d: Doc, s: State)
    requires Fits(d, s) && AnyDispatched(s)
    ensures Candidates(d, s, 0) != []
  {
    var u: nat :| u < |s.cells| && s.cells[u].status.Dispatched?;
    CandidatesExact(d, s);
    assert u in Candidates(d, s, 0);
  }

  // --------------------------------------------------------------------- calls that are out stay anchored

  lemma ResolutionAnchored(d: Doc, s: State, s': State, u: nat)
    requires Fits(d, s) && Anchored(d, s) && Fits(d, s') && u < |d.units|
    requires s'.cells == s.cells[u := s'.cells[u]] && !s'.cells[u].status.Dispatched?
    ensures Anchored(d, Settle(d, s', u))
  {
    hide Settle;
    SettleLoosens(d, s', u);
  }

  lemma RecordCallAnchored(d: Doc, s: State, u: nat, ok: bool)
    requires Fits(d, s) && Anchored(d, s) && u < |d.units|
    ensures Anchored(d, RecordCall(d, s, u, ok))
  {
    hide Settle, AfterCall;
    ResolutionAnchored(d, s, Resolved(d, s, u, AfterCall(d.units[u], s.cells[u], ok), ok), u);
  }

  lemma RecordSessionAnchored(d: Doc, s: State, u: nat, r: Report)
    requires Fits(d, s) && Anchored(d, s) && u < |d.units| && s.cells[u].child.None?
    ensures Anchored(d, RecordSession(d, s, u, r))
  {
    hide Settle, AfterSession;
    var c := AfterSession(d.units[u], s.cells[u], r);
    ResolutionAnchored(d, s, Resolved(d, s, u, c, !r.error).(sessions := s.sessions + 1), u);
  }

  /** Starting a call anchors its unit, whether or not it was anchored before. */
  lemma StartCallAnchored(env: Env, f: Files, t: Token, rf: RunFile, u: nat)
    requires Loaded(rf) && u < |rf.doc.units| && ExpectedNode(rf.doc, rf.state, u).activity.Call?
    requires forall v: nat | v < |rf.doc.units| && v != u && rf.state.cells[v].status.Dispatched? &&
               ExpectedNode(rf.doc, rf.state, v).activity.Call? :: rf.state.cells[v].child.Some?
    ensures Anchored(rf.doc, StartCall(env, f, t, rf, u).1.state)
  {
    hide RecordCall, Settle, AfterCall;
    var d, s := rf.doc, rf.state;
    var node := ExpectedNode(d, s, u);
    var ok := MayStart(env, f, t, rf, node);
    if !(ok && node.activity.wait) {
      var idle := SetStatus(Paid(s), u, Pending);
      ResolutionAnchored(d, idle, Resolved(d, Paid(s), u, AfterCall(d.units[u], s.cells[u], ok), ok), u);
      CallIsSettle(d, Paid(s), u, ok);
    }
  }

  lemma CallIsSettle(d: Doc, s: State, u: nat, ok: bool)
    requires Fits(d, s) && u < |d.units|
    ensures RecordCall(d, s, u, ok) == Settle(d, Resolved(d, s, u, AfterCall(d.units[u], s.cells[u], ok), ok), u)
  {
    hide Settle, AfterCall;
  }

  lemma {:induction false} SweepAnchored(env: Env, f: Files, t: Token, rf: RunFile, u: nat)
    requires Loaded(rf) && u <= |rf.doc.units| && Anchored(rf.doc, rf.state)
    ensures Anchored(rf.doc, Sweep(env, f, t, rf, u).1.state)
    decreases |rf.doc.units| - u
  {
    hide StartCall, RecordCall;
    if u < |rf.doc.units| {
      var step := SweepUnit(env, f, t, rf, u);
      if Waits(rf.state, u) {
        var child := rf.state.cells[u].child.value;
        if child in f.parked {
          RecordCallAnchored(rf.doc, rf.state, u, f.parked[child]);
        } else if child !in f.runs {
          var cleared := rf.state.(cells := rf.state.cells[u := rf.state.cells[u].(child := None)]);
          StartCallAnchored(env, f, t, rf.(state := cleared), u);
        }
      }
      SweepAnchored(env, step.0, t, step.1, u + 1);
    }
  }

  lemma {:induction false} CallPassAnchored(env: Env, f: Files, t: Token, rf: RunFile, frontier: seq<nat>, k: nat)
    requires Loaded(rf) && k <= |frontier| && Within(rf.doc, frontier) && Anchored(rf.doc, rf.state)
    ensures Anchored(rf.doc, CallPass(env, f, t, rf, frontier, k).1.state)
    decreases |frontier| - k
  {
    hide StartCall, Anchored;
    if k < |frontier| {
      var u := frontier[k];
      if ExpectedNode(rf.doc, rf.state, u).activity.Call? &&
         !rf.state.cells[u].status.Dispatched? && rf.state.sessions < rf.doc.maxSessions {
        var step := StartCall(env, f, t, rf, u);
        AnchoredElsewhere(rf.doc, rf.state, u);
        StartCallAnchored(env, f, t, rf, u);
        CallPassAnchored(env, step.0, t, step.1, frontier, k + 1);
      } else {
        CallPassAnchored(env, f, t, rf, frontier, k + 1);
      }
    }
  }

  lemma AnchoredElsewhere(d: Doc, s: State, u: nat)
    requires Fits(d, s) && Anchored(d, s)
    ensures forall v: nat | v < |d.units| && v != u && s.cells[v].status.Dispatched? &&
              ExpectedNode(d, s, v).activity.Call? :: s.cells[v].child.Some?
  {
  }

  /** Handing out session units leaves the calls alone. */
  lemma EmitAnchored(d: Doc, s: State, chosen: seq<nat>)
    requires Fits(d, s) && Anchored(d, s) && Within(d, chosen)
    requires forall i: nat | i < |chosen| :: ExpectedNode(d, s, chosen[i]).activity.Session?
    ensures Anchored(d, Emit(d, s, chosen))
  {
  }

  // ------------------------------------------------------------------- picks and records stay sane

  lemma StartCallSane(env: Env, f: Files, t: Token, rf: RunFile, u: nat)
    requires Sound(env) && AllSane(f) && Loaded(rf) && u < |rf.doc.units|
    requires ExpectedNode(rf.doc, rf.state, u).activity.Call?
    ensures AllSane(StartCall(env, f, t, rf, u).0)
  {
    hide Reached, RecordCall, Valid, Safe;
    var node := ExpectedNode(rf.doc, rf.state, u);
    if MayStart(env, f, t, rf, node) {
      StartedShape(env.library[node.activity.pipeline]);
    }
  }

  lemma {:induction false} SweepSane(env: Env, f: Files, t: Token, rf: RunFile, u: nat)
    requires Sound(env) && AllSane(f) && Loaded(rf) && u <= |rf.doc.units|
    ensures AllSane(Sweep(env, f, t, rf, u).0)
    decreases |rf.doc.units| - u
  {
    hide StartCall, RecordCall, Sane;
    if u < |rf.doc.units| {
      var step := SweepUnit(env, f, t, rf, u);
      if Waits(rf.state, u) {
        var child := rf.state.cells[u].child.value;
        if child !in f.parked && child !in f.runs {
          var cleared := rf.state.(cells := rf.state.cells[u := rf.state.cells[u].(child := None)]);
          StartCallSane(env, f, t, rf.(state := cleared), u);
        }
      }
      SweepSane(env, step.0, t, step.1, u + 1);
    }
  }

  lemma {:induction false} CallPassSane(env: Env, f: Files, t: Token, rf: RunFile, frontier: seq<nat>, k: nat)
    requires Sound(env) && AllSane(f) && Loaded(rf) && k <= |frontier| && Within(rf.doc, frontier)
    ensures AllSane(CallPass(env, f, t, rf, frontier, k).0)
    decreases |frontier| - k
  {
    if k < |frontier| {
      var u := frontier[k];
      if ExpectedNode(rf.doc, rf.state, u).activity.Call? &&
         !rf.state.cells[u].status.Dispatched? && rf.state.sessions < rf.doc.maxSessions {
        var step := StartCall(env, f, t, rf, u);
        StartCallSane(env, f, t, rf, u);
        CallPassSane(env, step.0, t, step.1, frontier, k + 1);
      } else {
        CallPassSane(env, f, t, rf, frontier, k + 1);
      }
    }
  }

  /** What the second half of a pick saves, after a non-empty frontier, is sane again. */
  lemma PassSane(env: Env, f: Files, t: Token, rf: RunFile, n: int)
    requires Sound(env) && AllSane(f) && Sane(rf)
    ensures
      var pass := CallPass(env, f, t, rf, Candidates(rf.doc, rf.state, 0), 0);
      var rf3 := pass.1.(state := Emit(rf.doc, pass.1.state, Chosen(rf.doc, pass.1.state, pass.2, n)));
      Sane(rf3) && AllSane(Saved(pass.0, t, rf3))
  {
    hide Reached, Valid, Met, Candidates, CallPass, Chosen, AllSane, Emit, Safe;
    CallPassSane(env, f, t, rf, Candidates(rf.doc, rf.state, 0), 0);
    var pass := CallPass(env, f, t, rf, Candidates(rf.doc, rf.state, 0), 0);
    var rf3 := pass.1.(state := Emit(rf.doc, pass.1.state, Chosen(rf.doc, pass.1.state, pass.2, n)));
    if Safe(rf.doc) {
      PassReached(env, f, t, rf, n);
      ChosenEmittable(env, f, t, rf, n);
      CallPassAnchored(env, f, t, rf, Candidates(rf.doc, rf.state, 0), 0);
      EmitAnchored(rf.doc, pass.1.state, Chosen(rf.doc, pass.1.state, pass.2, n));
    }
    SavedSane(pass.0, t, rf3);
  }

  lemma SavedSane(f: Files, t: Token, rf: RunFile)
    requires AllSane(f) && Sane(rf)
    ensures AllSane(Saved(f, t, rf))
  {
    hide Sane;
  }

  lemma FinishedSane(f: Files, t: Token)
    requires AllSane(f)
    ensures forall o :: AllSane(Finished(f, t, o))
  {
    hide Sane;
  }

  lemma {:induction false} PickSane(env: Env, f: Files, t: Token, rf: RunFile, n: int)
    requires Sound(env) && AllSane(f) && Sane(rf)
    ensures AllSane(Pick(env, f, t, rf, n).0)
    ensures Safe(rf.doc) ==> !Pick(env, f, t, rf, n).1.WalkStalled?
    ensures !Pick(env, f, t, rf, n).1.Refusal?
    decreases Max(0, rf.doc.maxSessions - rf.state.sessions)
  {
    hide Valid, Reached, AllSane, Sweep, CallPass, Consistent;
    var d := rf.doc;
    SweepSane(env, f, t, rf, 0);
    var (f1, rf1) := Sweep(env, f, t, rf, 0);
    FinishedSane(f1, t);
    if Safe(d) {
      SweepReached(env, f, t, rf, 0);
      SweepAnchored(env, f, t, rf, 0);
    }
    if !(rf1.state.sessions >= d.maxSessions && !AnyDispatched(rf1.state)) {
      var frontier := Candidates(d, rf1.state, 0);
      if frontier == [] {
        if AnyDispatched(rf1.state) {
          DispatchedIsCandidate(d, rf1.state);
        }
        if Safe(d) && AnyPending(rf1.state) && !AnyDispatched(rf1.state) {
          ReachedConsistent(d, rf1.state);
          SomethingReady(d, rf1.state);
        }
      } else {
        PassSane(env, f1, t, rf1, n);
        var (f2, rf2, steps) := CallPass(env, f1, t, rf1, frontier, 0);
        var chosen := Chosen(d, rf2.state, steps, n);
        var rf3 := rf2.(state := Emit(d, rf2.state, chosen));
        if chosen == [] && !AnyDispatched(rf3.state) {
          ReentryProgress(env, f, t, rf, n);
          PickSane(env, Saved(f2, t, rf3), t, rf3, n);
        }
      }
    }
  }

  lemma RecordedSessionSane(d: Doc, s: State, u: nat, r: Report)
    requires Valid(d) && Fits(d, s) && Reached(d, s) && u < |d.units|
    requires s.cells[u].status.Dispatched? && ExpectedNode(d, s, u).activity.Session?
    ensures Reached(d, RecordSession(d, s, u, r))
    ensures !AfterRecord(d, RecordSession(d, s, u, r)).Stalled?
  {
    var m := Move.Session(u, r);
    assert Enabled(d, s, m);
    ReachedMove(d, s, m);
    var s' := RecordSession(d, s, u, r);
    ReachedConsistent(d, s');
    if !AnyDispatched(s') && AnyPending(s') {
      SomethingReady(d, s');
    }
  }

  lemma ReleaseReached(d: Doc, s: State, u: nat)
    requires Fits(d, s) && Reached(d, s) && u < |d.units| && s.cells[u].status.Dispatched?
    requires ExpectedNode(d, s, u).activity.Session?
    ensures Reached(d, SetStatus(s, u, Pending))
  {
    ReachedMove(d, s, Release(u));
  }

  lemma HandedSession(d: Doc, s: State, u: nat)
    requires Fits(d, s) && Anchored(d, s) && u < |d.units| && s.cells[u].status.Dispatched? && s.cells[u].child.None?
    ensures ExpectedNode(d, s, u).activity.Session?
    ensures Anchored(d, SetStatus(s, u, Pending))
  {
  }

  lemma ConcludedSane(f: Files, t: Token, rf: RunFile, v: Verdict)
    requires AllSane(f) && Sane(rf)
    ensures AllSane(Concluded(f, t, rf, v))
  {
  }

  lemma RecordSane(f: Files, t: Token, rf: RunFile, id: string, res: Result)
    requires AllSane(f) && Sane(rf) && Handed(rf.doc, rf.state, id)
    ensures AllSane(Record(f, t, rf, id, res).0)
    ensures Safe(rf.doc) ==> Record(f, t, rf, id, res).1 != Recorded(Stalled)
  {
    var d := rf.doc;
    match Recorder(d, rf.state, id, 0)
    case None =>
    case Some(u) =>
      if res.Retry? {
        if Safe(d) {
          HandedSession(d, rf.state, u);
          ReleaseReached(d, rf.state, u);
        }
        ConcludedSane(f, t, rf.(state := SetStatus(rf.state, u, Pending)), Verdict.Continue);
      } else {
        var s := RecordSession(d, rf.state, u, res.report);
        if Safe(d) {
          HandedSession(d, rf.state, u);
          RecordedSessionSane(d, rf.state, u, res.report);
          RecordSessionAnchored(d, rf.state, u, res.report);
        }
        ConcludedSane(f, t, rf.(state := s), AfterRecord(d, s));
      }
  }

  // ------------------------------------------------------------------------------- over all runs

  lemma StepSane(w: Files, e: Event)
    requires AllSane(w)
    ensures AllSane(Step(w, e))
  {
    hide Pick, RecordSession, Valid, Safe, Reached;
    match e
    case Begin(name, doc, title) =>
      if Valid(doc) {
        StartedShape(doc);
      }
    case PickRun(env, t, n) =>
      if t in w.runs && Sound(env) {
        PickSane(env, w, t, w.runs[t], n);
      }
    case RecordRun(t, id, res) =>
      if t in w.runs && Handed(w.runs[t].doc, w.runs[t].state, id) {
        RecordSane(w, t, w.runs[t], id, res);
      }
  }

  lemma {:induction false} ExecSane(es: seq<Event>)
    ensures AllSane(Exec(es))
  {
    if es != [] {
      ExecSane(es[..|es| - 1]);
      StepSane(Exec(es[..|es| - 1]), es[|es| - 1]);
    }
  }

  /** Every state of every run is reached by moves alone. */
  lemma RunsReached(es: seq<Event>, t: Token)
    requires t in Exec(es).runs && Safe(Exec(es).runs[t].doc)
    ensures var rf := Exec(es).runs[t];
            Valid(rf.doc) && Loaded(rf) && Reached(rf.doc, rf.state) && Anchored(rf.doc, rf.state)
  {
    ExecSane(es);
  }

  /** Edge consistency in every reachable state of every run, bounces and parallel batches included. */
  lemma EdgeConsistency(es: seq<Event>, t: Token)
    requires t in Exec(es).runs && Safe(Exec(es).runs[t].doc)
    ensures Consistent(Exec(es).runs[t].doc, Exec(es).runs[t].state)
  {
    RunsReached(es, t);
    ReachedConsistent(Exec(es).runs[t].doc, Exec(es).runs[t].state);
  }

  /** The walk never stalls: whatever happened before, neither picking nor recording finds pending
      units with nothing ready and nothing running. */
  lemma WalkNeverStalls(es: seq<Event>, t: Token, env: Env, n: int, id: string, res: Result)
    requires t in Exec(es).runs && Safe(Exec(es).runs[t].doc) && Sound(env)
    ensures Loaded(Exec(es).runs[t])
    ensures !Pick(env, Exec(es), t, Exec(es).runs[t], n).1.WalkStalled?
    ensures !Pick(env, Exec(es), t, Exec(es).runs[t], n).1.Refusal?
    ensures Handed(Exec(es).runs[t].doc, Exec(es).runs[t].state, id) ==>
              Record(Exec(es), t, Exec(es).runs[t], id, res).1 != Recorded(Stalled)
  {
    ExecSane(es);
    PickSane(env, Exec(es), t, Exec(es).runs[t], n);
    if Handed(Exec(es).runs[t].doc, Exec(es).runs[t].state, id) {
      RecordSane(Exec(es), t, Exec(es).runs[t], id, res);
    }
  }
}
