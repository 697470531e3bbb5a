/** Every run of the tree. */
module Lineage {
  // How deep a run is and on which call path; who waits for whom, as long as no pick is refused because the
  // walk stalled. Back-edges and calls may meet in any way.

  import opened Documents
  import opened Validator
  import opened WalkState
  import opened Dispatch
  import opened WalkInvariants
  import opened Moves
  import opened Machine

  // ---------------------------------------------------------------------------- depth and call path

  /** A run of a valid document of the kind `ok`, at most three calls deep, on a call path without repeats. */
  ghost predicate Fine(ok: Doc -> bool, rf: RunFile) {
    && Valid(rf.doc) && Loaded(rf) && ok(rf.doc)
    && |rf.path| == rf.depth + 1 && rf.depth <= MAX_CALL_DEPTH
    && forall i: nat, j: nat | i < j < |rf.path| :: rf.path[i] != rf.path[j]
  }

  ghost predicate AllFine(ok: Doc -> bool, w: Files) {
    forall t | t in w.runs :: Fine(ok, w.runs[t])
  }

  /** The pipelines that calls resolve to, as they run, are of this kind. */
  ghost predicate Installs(ok: Doc -> bool, env: Env) {
    forall name | name in env.library :: ok(Started(env.library[name]))
  }

  lemma SpawnedFine(ok: Doc -> bool, env: Env, f: Files, t: Token, rf: RunFile, node: Node)
    requires Sound(env) && Installs(ok, env) && AllFine(ok, f) && Fine(ok, rf) && node.activity.Call? && MayStart(env, f, t, rf, node)
    ensures AllFine(ok, Spawned(env, f, t, rf, node))
  {
    var name := node.activity.pipeline;
    StartedShape(env.library[name]);
    hide Valid;
    var path := rf.path + [name];
    forall i: nat, j: nat | i < j < |path| ensures path[i] != path[j] {
      if j == |rf.path| {
        assert path[i] in rf.path;
      }
    }
  }

  lemma StartCallFine(ok: Doc -> bool, env: Env, f: Files, t: Token, rf: RunFile, u: nat)
    requires Sound(env) && Installs(ok, env) && AllFine(ok, f) && Fine(ok, rf) && u < |rf.doc.units|
    requires ExpectedNode(rf.doc, rf.state, u).activity.Call?
    ensures AllFine(ok, StartCall(env, f, t, rf, u).0) && Fine(ok, StartCall(env, f, t, rf, u).1)
  {
    hide RecordCall, Valid, MayStart, Spawned, AllFine;
    var node := ExpectedNode(rf.doc, rf.state, u);
    if MayStart(env, f, t, rf, node) {
      SpawnedFine(ok, env, f, t, rf, node);
    }
  }

  lemma SweepUnitFine(ok: Doc -> bool, env: Env, f: Files, t: Token, rf: RunFile, u: nat)
    requires Sound(env) && Installs(ok, env) && AllFine(ok, f) && Fine(ok, rf) && u < |rf.doc.units|
    ensures AllFine(ok, SweepUnit(env, f, t, rf, u).0) && Fine(ok, SweepUnit(env, f, t, rf, u).1)
  {
    hide RecordCall, StartCall, Valid;
    if Waits(rf.state, u) {
      var child := rf.state.cells[u].child.value;
      if child !in f.parked && child !in f.runs {
        var cleared := rf.state.(cells := rf.state.cells[u := rf.state.cells[u].(child := None)]);
        StartCallFine(ok, env, f, t, rf.(state := cleared), u);
      }
    }
  }

  lemma FineLoaded(ok: Doc -> bool, rf: RunFile)
    requires Fine(ok, rf)
    ensures Loaded(rf) && Fits(rf.doc, rf.state) && Shaped(rf.doc)
  {
  }

  lemma {:induction false} SweepFine(ok: Doc -> bool, env: Env, f: Files, t: Token, rf: RunFile, u: nat)
    requires Sound(env) && Installs(ok, env) && AllFine(ok, f) && Fine(ok, rf) && u <= |rf.doc.units|
    ensures Loaded(rf)
    ensures AllFine(ok, Sweep(env, f, t, rf, u).0) && Fine(ok, Sweep(env, f, t, rf, u).1)
    decreases |rf.doc.units| - u
  {
    hide *;
    FineLoaded(ok, rf);
    SweepNext(env, f, t, rf, u);
    if u < |rf.doc.units| {
      SweepUnitFine(ok, env, f, t, rf, u);
      var step := SweepUnit(env, f, t, rf, u);
      SweepFine(ok, env, step.0, t, step.1, u + 1);
    }
  }

  lemma {:induction false} CallPassFine(ok: Doc -> bool, env: Env, f: Files, t: Token, rf: RunFile, frontier: seq<nat>, k: nat)
    requires Sound(env) && Installs(ok, env) && AllFine(ok, f) && Fine(ok, rf) && k <= |frontier| && Within(rf.doc, frontier)
    ensures AllFine(ok, CallPass(env, f, t, rf, frontier, k).0) && Fine(ok, CallPass(env, f, t, rf, frontier, k).1)
    decreases |frontier| - k
  {
    hide StartCall, AllFine, Valid;
    if k < |frontier| {
      var u := frontier[k];
      if ExpectedNode(rf.doc, rf.state, u).activity.Call? &&
         !rf.state.cells[u].status.Dispatched? && rf.state.sessions < rf.doc.maxSessions {
        var step := StartCall(env, f, t, rf, u);
        StartCallFine(ok, env, f, t, rf, u);
        CallPassFine(ok, env, step.0, t, step.1, frontier, k + 1);
      } else {
        CallPassFine(ok, env, f, t, rf, frontier, k + 1);
      }
    }
  }

  lemma SavedFine(ok: Doc -> bool, f: Files, t: Token, rf: RunFile)
    requires AllFine(ok, f) && Fine(ok, rf)
    ensures AllFine(ok, Saved(f, t, rf))
  {
    hide Fine;
  }

  lemma FinishedFine(ok: Doc -> bool, f: Files, t: Token, o: Outcome)
    requires AllFine(ok, f)
    ensures AllFine(ok, Finished(f, t, o))
  {
    hide Fine;
  }

  lemma NowIn(ok: Doc -> bool, rf: RunFile, s: State)
    requires Fine(ok, rf) && Fits(rf.doc, s)
    ensures Fine(ok, rf.(state := s))
  {
  }

  lemma {:induction false} PickFine(ok: Doc -> bool, env: Env, f: Files, t: Token, rf: RunFile, n: int)
    requires Sound(env) && Installs(ok, env) && AllFine(ok, f) && Fine(ok, rf)
    ensures Loaded(rf)
    ensures AllFine(ok, Pick(env, f, t, rf, n).0) && Fine(ok, Pick(env, f, t, rf, n).2)
    decreases rf.doc.maxSessions - rf.state.sessions
  {
    hide *;
    FineLoaded(ok, rf);
    PickForms(env, f, t, rf, n);
    SweepFine(ok, env, f, t, rf, 0);
    var (f1, rf1) := Sweep(env, f, t, rf, 0);
    LoadedFits(rf1);
    FinishedFine(ok, f1, t, RunCapped);
    FinishedFine(ok, f1, t, WalkOutcome(rf.doc, rf1.state));
    CallPassFine(ok, env, f1, t, rf1, Candidates(rf.doc, rf1.state, 0), 0);
    var pass := CallPass(env, f1, t, rf1, Candidates(rf.doc, rf1.state, 0), 0);
    LoadedFits(pass.1);
    var chosen := Chosen(rf.doc, pass.1.state, pass.2, n);
    var rf3 := pass.1.(state := Emit(rf.doc, pass.1.state, chosen));
    NowIn(ok, pass.1, rf3.state);
    SavedFine(ok, pass.0, t, rf3);
    if !(rf1.state.sessions >= rf.doc.maxSessions && !AnyDispatched(rf1.state)) &&
       Candidates(rf.doc, rf1.state, 0) != [] && chosen == [] && !AnyDispatched(rf3.state) {
      PickFine(ok, env, Saved(pass.0, t, rf3), t, rf3, n);
    }
  }

  lemma RecordFine(ok: Doc -> bool, w: Files, t: Token, id: string, res: Result)
    requires AllFine(ok, w) && t in w.runs && Loaded(w.runs[t]) && Handed(w.runs[t].doc, w.runs[t].state, id)
    ensures AllFine(ok, Record(w, t, w.runs[t], id, res).0)
  {
    hide RecordSession, AfterRecord, AllFine, Recorder, SetStatus, Finished, Saved;
    var rf := w.runs[t];
    assert Fine(ok, rf) by { FineAt(ok, w, t); }
    match Recorder(rf.doc, rf.state, id, 0)
    case None =>
    case Some(u) =>
      if res.Retry? {
        RetryFits(rf.doc, rf.state, u);
        SavedFine(ok, w, t, rf.(state := SetStatus(rf.state, u, Pending)));
      } else {
        var s := RecordSession(rf.doc, rf.state, u, res.report);
        SavedFine(ok, w, t, rf.(state := s));
        if AfterRecord(rf.doc, s).Finish? {
          FinishedFine(ok, w, t, AfterRecord(rf.doc, s).outcome);
        }
      }
  }

  lemma FineAt(ok: Doc -> bool, w: Files, t: Token)
    requires AllFine(ok, w) && t in w.runs
    ensures Fine(ok, w.runs[t])
  {
    hide Fine;
  }

  lemma RetryFits(d: Doc, s: State, u: nat)
    requires Fits(d, s) && u < |d.units|
    ensures Fits(d, SetStatus(s, u, Pending))
  {
  }

  lemma RootFine(ok: Doc -> bool, w: Files, name: string, doc: Doc, title: string)
    requires AllFine(ok, w) && Valid(doc) && ok(Started(doc))
    ensures AllFine(ok, Saved(w, Top(name), NewRun(doc, 0, [title])))
  {
    StartedShape(doc);
    hide Valid, Saved;
    SavedFine(ok, w, Top(name), NewRun(doc, 0, [title]));
  }

  /** The event brings in only documents of this kind. */
  ghost predicate Brings(ok: Doc -> bool, e: Event) {
    match e
    case Begin(_, doc, _) => ok(Started(doc))
    case PickRun(env, _, _) => Installs(ok, env)
    case RecordRun(_, _, _) => true
  }

  lemma StepFine(ok: Doc -> bool, w: Files, e: Event)
    requires AllFine(ok, w) && Brings(ok, e)
    ensures AllFine(ok, Step(w, e))
  {
    hide AllFine, Pick, Record, Valid, NewRun, Fits, Handed;
    match e
    case Begin(name, doc, title) =>
      if Valid(doc) {
        RootFine(ok, w, name, doc, title);
      }
    case PickRun(env, t, n) =>
      if t in w.runs && Loaded(w.runs[t]) && Sound(env) {
        FineAt(ok, w, t);
        PickFine(ok, env, w, t, w.runs[t], n);
      }
    case RecordRun(t, id, res) =>
      if t in w.runs && Loaded(w.runs[t]) && Handed(w.runs[t].doc, w.runs[t].state, id) {
        RecordFine(ok, w, t, id, res);
      }
  }

  /** In every execution, whatever the documents and however they change in between, every run is at most
      three calls deep, on a call path without repeats; and its document is one of those brought in. */
  lemma {:induction false} ExecFine(ok: Doc -> bool, es: seq<Event>)
    requires forall i: nat | i < |es| :: Brings(ok, es[i])
    ensures AllFine(ok, Exec(es))
  {
    if es != [] {
      ExecFine(ok, es[..|es| - 1]);
      StepFine(ok, Exec(es[..|es| - 1]), es[|es| - 1]);
    }
  }

  // ------------------------------------------------------------------------------ who waits for whom

  /** Unit u waits for no child, or for its own, which runs or has left its outcome. */
  predicate WaitKnown(f: Files, t: Token, rf: RunFile, u: nat)
    requires Loaded(rf) && u < |rf.doc.units|
  {
    rf.state.cells[u].child.Some? ==>
      && rf.state.cells[u].child.value == Sub(t, ExpectedNode(rf.doc, rf.state, u).id)
      && Known(f, rf.state.cells[u].child.value)
  }

  /** Run t knows every child it waits for. */
  ghost predicate Minds(f: Files, t: Token, rf: RunFile) {
    Loaded(rf) && forall u: nat | u < |rf.doc.units| :: WaitKnown(f, t, rf, u)
  }

  ghost predicate AllMind(w: Files) {
    forall t | t in w.runs :: Minds(w, t, w.runs[t])
  }

  /** Every unit but u waits for what it waited for, or for nothing. */
  predicate WaitsKept(s: State, s': State, u: nat) {
    && |s'.cells| == |s.cells|
    && forall v: nat | v < |s.cells| && v != u && s'.cells[v].child.Some? ::
         s'.cells[v].child == s.cells[v].child && s'.cells[v].pos == s.cells[v].pos
  }

  lemma MindsKept(f: Files, g: Files, t: Token, rf: RunFile, s: State, u: nat)
    requires Minds(f, t, rf) && Fits(rf.doc, s) && u < |rf.doc.units| && WaitsKept(rf.state, s, u)
    requires forall v: nat | v < |rf.doc.units| && v != u && rf.state.cells[v].child.Some? &&
               Known(f, rf.state.cells[v].child.value) :: Known(g, rf.state.cells[v].child.value)
    requires s.cells[u].child.Some? ==>
               s.cells[u].child.value == Sub(t, ExpectedNode(rf.doc, s, u).id) && Known(g, s.cells[u].child.value)
    ensures Minds(g, t, rf.(state := s))
  {
    forall v: nat | v < |rf.doc.units| ensures WaitKnown(g, t, rf.(state := s), v) {
      assert WaitKnown(f, t, rf, v);
    }
  }

  lemma SettleKeepsWaits(d: Doc, s: State, u: nat)
    requires Fits(d, s) && u < |d.units|
    ensures WaitsKept(s, Settle(d, s, u), |d.units|)
    ensures s.cells[u].child.None? ==> Settle(d, s, u).cells[u].child.None?
  {
    hide Settle;
    SettleLoosens(d, s, u);
  }

  lemma RecordCallKeepsWaits(d: Doc, s: State, u: nat, ok: bool)
    requires Fits(d, s) && u < |d.units|
    ensures WaitsKept(s, RecordCall(d, s, u, ok), u) && RecordCall(d, s, u, ok).cells[u].child.None?
  {
    hide Settle, AfterCall;
    SettleKeepsWaits(d, Resolved(d, s, u, AfterCall(d.units[u], s.cells[u], ok), ok), u);
  }

  lemma RecordSessionKeepsWaits(d: Doc, s: State, u: nat, r: Report)
    requires Fits(d, s) && u < |d.units| && s.cells[u].child.None?
    ensures WaitsKept(s, RecordSession(d, s, u, r), u) && RecordSession(d, s, u, r).cells[u].child.None?
  {
    hide Settle, AfterSession;
    var c := AfterSession(d.units[u], s.cells[u], r);
    SettleKeepsWaits(d, Resolved(d, s, u, c, !r.error).(sessions := s.sessions + 1), u);
  }

  /** From the files f to the files g run t added children of its own, fresh ones, and consumed outcomes of
      its own children; everything else is as it was. */
  ghost predicate Tended(f: Files, g: Files, t: Token) {
    && (forall q | q in f.runs :: q in g.runs && g.runs[q] == f.runs[q])
    && (forall q | q in g.runs && q !in f.runs ::
          q.Sub? && q.parent == t && Loaded(g.runs[q]) && g.runs[q].state == Init(g.runs[q].doc))
    && (forall c: Token | c in f.parked && c !in g.parked :: c.Sub? && c.parent == t)
  }

  lemma TendedTrans(f: Files, g: Files, h: Files, t: Token)
    requires Tended(f, g, t) && Tended(g, h, t)
    ensures Tended(f, h, t)
  {
    hide Loaded;
  }

  lemma TendedSelf(f: Files, t: Token)
    ensures Tended(f, f, t)
  {
  }

  lemma StartedFiles(env: Env, f: Files, t: Token, rf: RunFile, u: nat)
    requires Loaded(rf) && u < |rf.doc.units| && ExpectedNode(rf.doc, rf.state, u).activity.Call?
    ensures var node, g := ExpectedNode(rf.doc, rf.state, u), StartCall(env, f, t, rf, u).0;
            g == if MayStart(env, f, t, rf, node) then Spawned(env, f, t, rf, node) else f
  {
    hide RecordCall, MayStart, Spawned;
  }

  lemma StartCallTends(env: Env, f: Files, t: Token, rf: RunFile, u: nat)
    requires Sound(env) && Loaded(rf) && u < |rf.doc.units| && ExpectedNode(rf.doc, rf.state, u).activity.Call?
    ensures var g := StartCall(env, f, t, rf, u).0;
            Tended(f, g, t) && g.parked == f.parked && forall c | Known(f, c) :: Known(g, c)
  {
    StartedFiles(env, f, t, rf, u);
    hide StartCall, Valid;
    var node := ExpectedNode(rf.doc, rf.state, u);
    if MayStart(env, f, t, rf, node) {
      StartedShape(env.library[node.activity.pipeline]);
    }
  }

  lemma StartCallWaits(env: Env, f: Files, t: Token, rf: RunFile, u: nat)
    requires Loaded(rf) && u < |rf.doc.units| && ExpectedNode(rf.doc, rf.state, u).activity.Call?
    ensures var (g, rf') := StartCall(env, f, t, rf, u);
            && WaitsKept(rf.state, rf'.state, u) && rf' == rf.(state := rf'.state)
            && (rf'.state.cells[u].child.Some? ==>
                  rf'.state.cells[u].child.value == Sub(t, ExpectedNode(rf.doc, rf'.state, u).id) &&
                  Known(g, rf'.state.cells[u].child.value))
  {
    hide RecordCall;
    var node := ExpectedNode(rf.doc, rf.state, u);
    RecordCallKeepsWaits(rf.doc, Paid(rf.state), u, MayStart(env, f, t, rf, node));
  }

  lemma StartCallMinds(env: Env, f: Files, t: Token, rf: RunFile, u: nat)
    requires Sound(env) && Minds(f, t, rf) && u < |rf.doc.units| && ExpectedNode(rf.doc, rf.state, u).activity.Call?
    ensures Minds(StartCall(env, f, t, rf, u).0, t, StartCall(env, f, t, rf, u).1)
  {
    StartCallTends(env, f, t, rf, u);
    StartCallWaits(env, f, t, rf, u);
    hide StartCall, Known, WaitsKept, Minds, Tended;
    var (g, rf') := StartCall(env, f, t, rf, u);
    MindsKept(f, g, t, rf, rf'.state, u);
  }

  lemma MindLoaded(f: Files, t: Token, rf: RunFile)
    requires Minds(f, t, rf)
    ensures Loaded(rf) && Fits(rf.doc, rf.state)
  {
  }

  /** The sweep of one unit restarts nothing: a unit that waits knows its child. */
  lemma SweepUnitMinds(env: Env, f: Files, t: Token, rf: RunFile, u: nat)
    requires Minds(f, t, rf) && u < |rf.doc.units|
    ensures var (g, rf') := SweepUnit(env, f, t, rf, u);
            && Minds(g, t, rf') && Tended(f, g, t) && g.runs == f.runs && rf' == rf.(state := rf'.state)
            && rf'.state.sessions == rf.state.sessions
            && (rf' == rf || exists ok :: rf'.state == RecordCall(rf.doc, rf.state, u, ok))
  {
    hide RecordCall, StartCall;
    assert WaitKnown(f, t, rf, u);
    if Waits(rf.state, u) && rf.state.cells[u].child.value in f.parked {
      var c := rf.state.cells[u].child.value;
      var g := f.(parked := f.parked - {c});
      var s := RecordCall(rf.doc, rf.state, u, f.parked[c]);
      RecordCallKeepsWaits(rf.doc, rf.state, u, f.parked[c]);
      forall v: nat | v < |rf.doc.units| && v != u && rf.state.cells[v].child.Some?
        ensures rf.state.cells[v].child.value != c
      {
        assert WaitKnown(f, t, rf, v);
        if rf.state.cells[v].child.value == c {
          SameCall(rf.doc, rf.state, u, v);
        }
      }
      MindsKept(f, g, t, rf, s, u);
    }
  }

  lemma {:induction false} SweepMinds(env: Env, f: Files, t: Token, rf: RunFile, u: nat)
    requires Minds(f, t, rf) && u <= |rf.doc.units|
    ensures Loaded(rf)
    ensures var (g, rf') := Sweep(env, f, t, rf, u);
            && Minds(g, t, rf') && Tended(f, g, t) && g.runs == f.runs && rf' == rf.(state := rf'.state)
            && rf'.state.sessions == rf.state.sessions
    decreases |rf.doc.units| - u
  {
    hide *;
    MindLoaded(f, t, rf);
    SweepNext(env, f, t, rf, u);
    TendedSelf(f, t);
    if u < |rf.doc.units| {
      SweepUnitMinds(env, f, t, rf, u);
      var step := SweepUnit(env, f, t, rf, u);
      SweepMinds(env, step.0, t, step.1, u + 1);
      TendedTrans(f, step.0, Sweep(env, step.0, t, step.1, u + 1).0, t);
    }
  }

  lemma {:induction false} CallPassMinds(env: Env, f: Files, t: Token, rf: RunFile, frontier: seq<nat>, k: nat)
    requires Sound(env) && Minds(f, t, rf) && k <= |frontier| && Within(rf.doc, frontier)
    ensures var (g, rf', steps) := CallPass(env, f, t, rf, frontier, k);
            Minds(g, t, rf') && Tended(f, g, t) && g.parked == f.parked && rf' == rf.(state := rf'.state)
    decreases |frontier| - k
  {
    MindLoaded(f, t, rf);
    hide StartCall, Minds, Tended, Sound;
    TendedSelf(f, t);
    if k < |frontier| {
      var u := frontier[k];
      if ExpectedNode(rf.doc, rf.state, u).activity.Call? &&
         !rf.state.cells[u].status.Dispatched? && rf.state.sessions < rf.doc.maxSessions {
        var step := StartCall(env, f, t, rf, u);
        StartCallMinds(env, f, t, rf, u);
        StartCallTends(env, f, t, rf, u);
        StartCallWaits(env, f, t, rf, u);
        CallPassMinds(env, step.0, t, step.1, frontier, k + 1);
        TendedTrans(f, step.0, CallPass(env, step.0, t, step.1, frontier, k + 1).0, t);
      } else {
        CallPassMinds(env, f, t, rf, frontier, k + 1);
      }
    }
  }

  lemma EmitMinds(f: Files, t: Token, rf: RunFile, chosen: seq<nat>)
    requires Minds(f, t, rf)
    ensures Minds(Saved(f, t, rf.(state := Emit(rf.doc, rf.state, chosen))), t, rf.(state := Emit(rf.doc, rf.state, chosen)))
  {
    var rf' := rf.(state := Emit(rf.doc, rf.state, chosen));
    forall u: nat | u < |rf.doc.units| ensures WaitKnown(Saved(f, t, rf'), t, rf', u) {
      assert WaitKnown(f, t, rf, u);
    }
  }

  /** Every child of q that f knows, g knows. */
  ghost predicate KnowsFor(f: Files, g: Files, q: Token) {
    forall c: Token | c.Sub? && c.parent == q && Known(f, c) :: Known(g, c)
  }

  lemma MindsMore(f: Files, g: Files, q: Token, rf: RunFile)
    requires Minds(f, q, rf) && KnowsFor(f, g, q)
    ensures Minds(g, q, rf)
  {
    hide Known;
    forall u: nat | u < |rf.doc.units| ensures WaitKnown(g, q, rf, u) {
      assert WaitKnown(f, q, rf, u);
    }
  }

  lemma TendedKnows(f: Files, g: Files, t: Token, q: Token)
    requires Tended(f, g, t) && q != t
    ensures KnowsFor(f, g, q) && (forall rf :: KnowsFor(f, Saved(g, t, rf), q)) && forall o :: KnowsFor(f, Finished(g, t, o), q)
  {
  }

  /** Another run still knows its children after run t was at work, and after it was saved or ended. */
  lemma OthersMind(f: Files, g: Files, t: Token, q: Token, rf: RunFile)
    requires Minds(f, q, rf) && q != t && Tended(f, g, t)
    ensures (forall rf' :: Minds(Saved(g, t, rf'), q, rf)) && forall o :: Minds(Finished(g, t, o), q, rf)
  {
    TendedKnows(f, g, t, q);
    hide Minds, KnowsFor, Tended, Saved, Finished;
    forall rf' ensures Minds(Saved(g, t, rf'), q, rf) {
      MindsMore(f, Saved(g, t, rf'), q, rf);
    }
    forall o ensures Minds(Finished(g, t, o), q, rf) {
      MindsMore(f, Finished(g, t, o), q, rf);
    }
  }

  lemma FreshMinds(g: Files, q: Token, rf: RunFile)
    requires Loaded(rf) && rf.state == Init(rf.doc)
    ensures Minds(g, q, rf)
  {
    forall u: nat | u < |rf.doc.units| ensures WaitKnown(g, q, rf, u) {
    }
  }

  /** All runs but t know their children. */
  ghost predicate RestMind(f: Files, t: Token) {
    forall q | q in f.runs && q != t :: Minds(f, q, f.runs[q])
  }

  lemma RestTended(f: Files, g: Files, t: Token)
    requires RestMind(f, t) && Tended(f, g, t)
    ensures forall rf :: RestMind(Saved(g, t, rf), t)
    ensures forall o :: RestMind(Finished(g, t, o), t)
  {
    hide Minds, Loaded;
    forall q | q in g.runs && q != t
      ensures forall rf :: Minds(Saved(g, t, rf), q, g.runs[q])
      ensures forall o :: Minds(Finished(g, t, o), q, g.runs[q])
    {
      if q in f.runs {
        OthersMind(f, g, t, q, f.runs[q]);
      } else {
        FreshAll(g, t, q, g.runs[q]);
      }
    }
  }

  lemma FreshAll(g: Files, t: Token, q: Token, child: RunFile)
    requires Loaded(child) && child.state == Init(child.doc)
    ensures forall rf :: Minds(Saved(g, t, rf), q, child)
    ensures forall o :: Minds(Finished(g, t, o), q, child)
  {
    hide Saved, Finished, Minds;
    forall rf ensures Minds(Saved(g, t, rf), q, child) {
      FreshMinds(Saved(g, t, rf), q, child);
    }
    forall o ensures Minds(Finished(g, t, o), q, child) {
      FreshMinds(Finished(g, t, o), q, child);
    }
  }

  lemma MindAll(g: Files, t: Token, rf: RunFile)
    requires RestMind(Saved(g, t, rf), t) && Minds(Saved(g, t, rf), t, rf)
    ensures AllMind(Saved(g, t, rf))
  {
    hide Minds;
  }

  lemma MindEnded(g: Files, t: Token, o: Outcome)
    requires RestMind(Finished(g, t, o), t)
    ensures AllMind(Finished(g, t, o))
  {
    hide Minds;
  }

  /** A pick that is not refused leaves every run knowing the children it waits for. */
  lemma {:induction false} PickMinds(env: Env, f: Files, t: Token, rf: RunFile, n: int)
    requires Sound(env) && Minds(f, t, rf) && RestMind(f, t)
    ensures Loaded(rf)
    ensures var (g, answer, _) := Pick(env, f, t, rf, n);
            answer.Done? || answer.Steps? || answer.Waiting? ==> AllMind(g)
    decreases rf.doc.maxSessions - rf.state.sessions
  {
    hide *;
    MindLoaded(f, t, rf);
    PickForms(env, f, t, rf, n);
    SweepMinds(env, f, t, rf, 0);
    var (f1, rf1) := Sweep(env, f, t, rf, 0);
    LoadedFits(rf1);
    RestTended(f, f1, t);
    MindEnded(f1, t, RunCapped);
    MindEnded(f1, t, WalkOutcome(rf.doc, rf1.state));
    CallPassMinds(env, f1, t, rf1, Candidates(rf.doc, rf1.state, 0), 0);
    var pass := CallPass(env, f1, t, rf1, Candidates(rf.doc, rf1.state, 0), 0);
    LoadedFits(pass.1);
    var chosen := Chosen(rf.doc, pass.1.state, pass.2, n);
    var rf3 := pass.1.(state := Emit(rf.doc, pass.1.state, chosen));
    EmitMinds(pass.0, t, pass.1, chosen);
    TendedTrans(f, f1, pass.0, t);
    RestTended(f, pass.0, t);
    MindAll(pass.0, t, rf3);
    if !(rf1.state.sessions >= rf.doc.maxSessions && !AnyDispatched(rf1.state)) &&
       Candidates(rf.doc, rf1.state, 0) != [] && chosen == [] && !AnyDispatched(rf3.state) {
      PickMinds(env, Saved(pass.0, t, rf3), t, rf3, n);
    }
  }

  lemma RecordMinds(w: Files, t: Token, id: string, res: Result)
    requires AllMind(w) && t in w.runs && Loaded(w.runs[t]) && Handed(w.runs[t].doc, w.runs[t].state, id)
    ensures AllMind(Record(w, t, w.runs[t], id, res).0)
  {
    hide RecordSession, AfterRecord, AllMind, Minds, Recorder, SetStatus, Finished, Saved, Tended, RestMind;
    var rf := w.runs[t];
    MindAt(w, t);
    TendedSelf(w, t);
    RestTended(w, w, t);
    match Recorder(rf.doc, rf.state, id, 0)
    case None =>
    case Some(u) =>
      if res.Retry? {
        RetryMinds(w, t, rf, u);
        MindAll(w, t, rf.(state := SetStatus(rf.state, u, Pending)));
      } else {
        var s := RecordSession(rf.doc, rf.state, u, res.report);
        SessionMinds(w, t, rf, u, res.report);
        MindAll(w, t, rf.(state := s));
        if AfterRecord(rf.doc, s).Finish? {
          MindEnded(w, t, AfterRecord(rf.doc, s).outcome);
        }
      }
  }

  lemma MindAt(w: Files, t: Token)
    requires AllMind(w) && t in w.runs
    ensures Minds(w, t, w.runs[t]) && RestMind(w, t)
  {
    hide Minds;
  }

  lemma RetryMinds(w: Files, t: Token, rf: RunFile, u: nat)
    requires Minds(w, t, rf) && u < |rf.doc.units| && rf.state.cells[u].child.None?
    ensures var rf' := rf.(state := SetStatus(rf.state, u, Pending)); Minds(Saved(w, t, rf'), t, rf')
  {
    var rf' := rf.(state := SetStatus(rf.state, u, Pending));
    MindsKept(w, Saved(w, t, rf'), t, rf, rf'.state, u);
  }

  lemma SessionMinds(w: Files, t: Token, rf: RunFile, u: nat, r: Report)
    requires Minds(w, t, rf) && u < |rf.doc.units| && rf.state.cells[u].child.None?
    ensures var rf' := rf.(state := RecordSession(rf.doc, rf.state, u, r)); Minds(Saved(w, t, rf'), t, rf')
  {
    var rf' := rf.(state := RecordSession(rf.doc, rf.state, u, r));
    RecordSessionKeepsWaits(rf.doc, rf.state, u, r);
    hide RecordSession;
    MindsKept(w, Saved(w, t, rf'), t, rf, rf'.state, u);
  }

  // --------------------------------------------------------------------------- over whole executions

  /** No pick is refused because the walk stalled. A stalled pick has already consumed the outcomes that its
      sweep found, but the state that says so is not saved. */
  ghost predicate Unstalled(w: Files, e: Event) {
    e.PickRun? && e.t in w.runs && Loaded(w.runs[e.t]) && Sound(e.env) ==>
      !Pick(e.env, w, e.t, w.runs[e.t], e.n).1.WalkStalled?
  }

  ghost predicate NeverStalls(es: seq<Event>) {
    forall i: nat | i < |es| :: Unstalled(Exec(es[..i]), es[i])
  }

  lemma NeverStallsFront(es: seq<Event>)
    requires NeverStalls(es) && es != []
    ensures NeverStalls(es[..|es| - 1]) && Unstalled(Exec(es[..|es| - 1]), es[|es| - 1])
  {
    hide Unstalled;
    var front := es[..|es| - 1];
    forall i: nat | i < |front| ensures Unstalled(Exec(front[..i]), front[i]) {
      assert front[..i] == es[..i] && front[i] == es[i];
    }
  }

  lemma RootMinds(w: Files, name: string, root: RunFile)
    requires AllMind(w) && Top(name) !in w.runs && Loaded(root) && root.state == Init(root.doc)
    ensures AllMind(Saved(w, Top(name), root))
  {
    hide Minds, Loaded, KnowsFor;
    var w' := Saved(w, Top(name), root);
    forall q | q in w'.runs ensures Minds(w', q, w'.runs[q]) {
      if q == Top(name) {
        FreshMinds(w', q, root);
      } else {
        MoreKnown(w, w', q);
        MindsMore(w, w', q, w.runs[q]);
      }
    }
  }

  lemma MoreKnown(f: Files, g: Files, q: Token)
    requires f.parked == g.parked && forall c | c in f.runs :: c in g.runs
    ensures KnowsFor(f, g, q)
  {
  }

  lemma PickAnswers(env: Env, w: Files, t: Token, n: int)
    requires AllSane(w) && Sound(env) && t in w.runs
    ensures Loaded(w.runs[t]) && !Pick(env, w, t, w.runs[t], n).1.Refusal?
  {
    hide Pick, Valid, Safe, Reached, Anchored;
    PickSane(env, w, t, w.runs[t], n);
  }

  lemma StepMinds(w: Files, e: Event)
    requires AllSane(w) && AllMind(w) && Unstalled(w, e)
    ensures AllMind(Step(w, e))
  {
    hide AllSane, AllMind, Pick, Record, Valid, Fits, Handed, RestMind, Minds;
    match e
    case Begin(name, doc, title) =>
      if Top(name) !in w.runs && Valid(doc) {
        StartedShape(doc);
        RootFits(doc);
        RootMinds(w, name, NewRun(doc, 0, [title]));
      }
    case PickRun(env, t, n) =>
      if t in w.runs && Loaded(w.runs[t]) && Sound(env) {
        MindAt(w, t);
        PickAnswers(env, w, t, n);
        PickMinds(env, w, t, w.runs[t], n);
      }
    case RecordRun(t, id, res) =>
      if t in w.runs && Loaded(w.runs[t]) && Handed(w.runs[t].doc, w.runs[t].state, id) {
        RecordMinds(w, t, id, res);
      }
  }

  lemma RootFits(doc: Doc)
    requires Valid(doc) && Valid(Started(doc))
    ensures Loaded(NewRun(doc, 0, []))  && forall path :: Loaded(NewRun(doc, 0, path))
  {
  }

  /** As long as no pick is refused for a stall, every unit that waits, waits for its own child, which is
      running or has left its outcome. */
  lemma {:induction false} ExecMinds(es: seq<Event>)
    requires NeverStalls(es)
    ensures AllMind(Exec(es))
  {
    hide AllMind, NeverStalls, Unstalled, Step;
    if es == [] {
      NobodyMinds();
    } else {
      NeverStallsFront(es);
      ExecMinds(es[..|es| - 1]);
      ExecSane(es[..|es| - 1]);
      StepMinds(Exec(es[..|es| - 1]), es[|es| - 1]);
    }
  }

  lemma NobodyMinds()
    ensures AllMind(Exec([]))
  {
  }

  /** Where no frontier can go stale, no pick ever stalls. */
  lemma SafeNeverStalls(es: seq<Event>)
    requires forall i: nat | i < |es| :: Brings((d: Doc) => Safe(d), es[i])
    ensures NeverStalls(es)
  {
    hide Safe, Pick, Exec, AllSane;
    var safe := (d: Doc) => Safe(d);
    forall i: nat | i < |es| ensures Unstalled(Exec(es[..i]), es[i]) {
      var w, e := Exec(es[..i]), es[i];
      ExecSane(es[..i]);
      ExecFine(safe, es[..i]);
      if e.PickRun? && e.t in w.runs && Loaded(w.runs[e.t]) && Sound(e.env) {
        FineAt(safe, w, e.t);
        SaneAt(w, e.t);
        PickSane(e.env, w, e.t, w.runs[e.t], e.n);
      }
    }
  }

  lemma SaneAt(w: Files, t: Token)
    requires AllSane(w) && t in w.runs
    ensures Sane(w.runs[t])
  {
    hide Sane;
  }
}
