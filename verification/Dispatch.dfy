/** The dispatch protocol of one run in the tree. */
module Dispatch {
  // Sweeping finished children, starting call nodes as child runs, and choosing the sessions to dispatch
  // next. The log directory is two maps: the live run states and the parked outcomes of child runs.

  import opened Counting
  import opened Documents
  import opened Validator
  import opened WalkState

  const MAX_CALL_DEPTH: nat := 3

  /** A run's state file. */
  datatype RunFile = RunFile(doc: Doc, state: State, depth: nat, path: seq<string>)

  /** The log directory: live run states, and for each parked child outcome whether it succeeded. */
  datatype Files = Files(runs: map<Token, RunFile>, parked: map<Token, bool>)

  /** What starting a child depends on besides the files: the pipelines that resolve to a valid
      document, and the child names refused for their length or their parameters. */
  datatype Env = Env(library: map<string, Doc>, refused: set<Token>)

  ghost predicate Sound(env: Env) {
    forall name | name in env.library :: Valid(env.library[name])
  }

  ghost predicate Loaded(rf: RunFile) {
    Fits(rf.doc, rf.state)
  }

  ghost predicate AllLoaded(w: Files) {
    forall t | t in w.runs :: Loaded(w.runs[t])
  }

  /** Run c is in progress or has left its outcome. */
  predicate Known(f: Files, c: Token) { c in f.runs || c in f.parked }

  function NewRun(doc: Doc, depth: nat, path: seq<string>): RunFile {
    RunFile(Started(doc), Init(Started(doc)), depth, path)
  }

  /** A child run starts unless it would go too deep, call itself, not resolve, or collide with a
      state file that is still there. */
  predicate MayStart(env: Env, f: Files, t: Token, rf: RunFile, node: Node)
    requires node.activity.Call?
  {
    && rf.depth + 1 <= MAX_CALL_DEPTH
    && node.activity.pipeline !in rf.path
    && node.activity.pipeline in env.library
    && Sub(t, node.id) !in env.refused
    && Sub(t, node.id) !in f.runs
  }

  function Paid(s: State): State { s.(sessions := s.sessions + 1) }

  /** u waits for its child run. */
  function Park(s: State, u: nat, child: Token): State
    requires u < |s.cells|
  {
    s.(cells := s.cells[u := s.cells[u].(status := Dispatched, child := Some(child))])
  }

  function Spawned(env: Env, f: Files, t: Token, rf: RunFile, node: Node): Files
    requires node.activity.Call? && MayStart(env, f, t, rf, node)
  {
    var name := node.activity.pipeline;
    f.(runs := f.runs[Sub(t, node.id) := NewRun(env.library[name], rf.depth + 1, rf.path + [name])])
  }

  /** Dispatch of a call unit: one session of budget is spent whatever happens next. A refused start
      is a failure of the node, a detached call succeeds at once, a waited one parks the unit. */
  ghost function StartCall(env: Env, f: Files, t: Token, rf: RunFile, u: nat): (r: (Files, RunFile))
    requires Loaded(rf) && u < |rf.doc.units| && ExpectedNode(rf.doc, rf.state, u).activity.Call?
    ensures r.1.doc == rf.doc && Loaded(r.1) && r.1.state.sessions == rf.state.sessions + 1
  {
    var node := ExpectedNode(rf.doc, rf.state, u);
    if !MayStart(env, f, t, rf, node) then
      (f, rf.(state := RecordCall(rf.doc, Paid(rf.state), u, false)))
    else if node.activity.wait then
      (Spawned(env, f, t, rf, node), rf.(state := Park(Paid(rf.state), u, Sub(t, node.id))))
    else
      (Spawned(env, f, t, rf, node), rf.(state := RecordCall(rf.doc, Paid(rf.state), u, true)))
  }

  predicate Waits(s: State, u: nat)
    requires u < |s.cells|
  {
    s.cells[u].status.Dispatched? && s.cells[u].child.Some?
  }

  /** One unit of the sweep: consume a parked outcome, keep waiting for a live child, restart a
      vanished one. */
  ghost function SweepUnit(env: Env, f: Files, t: Token, rf: RunFile, u: nat): (r: (Files, RunFile))
    requires Loaded(rf) && u < |rf.doc.units|
    ensures r.1.doc == rf.doc && Loaded(r.1)
  {
    if !Waits(rf.state, u) then (f, rf)
    else
      var child := rf.state.cells[u].child.value;
      if child in f.parked then
        (f.(parked := f.parked - {child}), rf.(state := RecordCall(rf.doc, rf.state, u, f.parked[child])))
      else if child in f.runs then (f, rf)
      else
        var cleared := rf.state.(cells := rf.state.cells[u := rf.state.cells[u].(child := None)]);
        StartCall(env, f, t, rf.(state := cleared), u)
  }

  /** The sweep of the units from index u on, in document order. */
  ghost function Sweep(env: Env, f: Files, t: Token, rf: RunFile, u: nat): (r: (Files, RunFile))
    requires Loaded(rf) && u <= |rf.doc.units|
    ensures r.1.doc == rf.doc && Loaded(r.1)
    decreases |rf.doc.units| - u
  {
    if u == |rf.doc.units| then (f, rf)
    else
      var step := SweepUnit(env, f, t, rf, u);
      Sweep(env, step.0, t, step.1, u + 1)
  }

  /** The call pass over a frontier: call units with budget left start now, session units are kept
      for the step pass. */
  ghost function CallPass(env: Env, f: Files, t: Token, rf: RunFile, frontier: seq<nat>, k: nat)
    : (r: (Files, RunFile, seq<nat>))
    requires Loaded(rf) && k <= |frontier| && Within(rf.doc, frontier)
    ensures r.1.doc == rf.doc && Loaded(r.1) && rf.state.sessions <= r.1.state.sessions
    ensures r.1.state.sessions <= if rf.state.sessions <= rf.doc.maxSessions then rf.doc.maxSessions
                                  else rf.state.sessions
    ensures Within(rf.doc, r.2)
    decreases |frontier| - k
  {
    if k == |frontier| then (f, rf, [])
    else
      var u := frontier[k];
      if ExpectedNode(rf.doc, rf.state, u).activity.Call? then
        if rf.state.cells[u].status.Dispatched? || rf.state.sessions >= rf.doc.maxSessions then
          CallPass(env, f, t, rf, frontier, k + 1)
        else
          var step := StartCall(env, f, t, rf, u);
          CallPass(env, step.0, t, step.1, frontier, k + 1)
      else
        var rest := CallPass(env, f, t, rf, frontier, k + 1);
        (rest.0, rest.1, [u] + rest.2)
  }

  /** With the budget spent only units that are already dispatched may be emitted again. */
  function Reclaims(s: State, steps: seq<nat>): (r: seq<nat>)
    requires forall i: nat | i < |steps| :: steps[i] < |s.cells|
    ensures forall i: nat | i < |r| :: r[i] < |s.cells| && r[i] in steps && s.cells[r[i]].status.Dispatched?
  {
    if steps == [] then []
    else
      var rest := Reclaims(s, steps[1..]);
      if s.cells[steps[0]].status.Dispatched? then [steps[0]] + rest else rest
  }

  /** The size of a batch: clamped by the fan-out ceiling and by the remaining budget, at least 1. */
  function BatchSize(d: Doc, s: State, n: int): nat {
    Max(1, Min(Min(n, d.maxParallel), d.maxSessions - s.sessions))
  }

  /** The units a step pass emits. */
  function Chosen(d: Doc, s: State, steps: seq<nat>, n: int): (r: seq<nat>)
    requires Fits(d, s) && Within(d, steps)
    ensures Within(d, r)
  {
    var open := if s.sessions < d.maxSessions then steps else Reclaims(s, steps);
    if |open| <= BatchSize(d, s, n) then open else open[..BatchSize(d, s, n)]
  }

  /** The emitted units are dispatched. */
  function Emit(d: Doc, s: State, chosen: seq<nat>): (r: State)
    requires Fits(d, s)
    ensures Fits(d, r)
  {
    s.(cells := seq(|s.cells|, u requires 0 <= u < |s.cells| =>
      if u in chosen then s.cells[u].(status := Dispatched) else s.cells[u]))
  }

  datatype Answer = Done(outcome: Outcome) | Steps(units: seq<nat>) | Waiting | Refusal | WalkStalled

  /** The end of a run: a child parks its outcome for its parent, then the state file goes. */
  function Finished(f: Files, t: Token, outcome: Outcome): Files {
    Files(f.runs - {t}, if t.Sub? then f.parked[t := outcome.RunSuccess?] else f.parked)
  }

  function Saved(f: Files, t: Token, rf: RunFile): Files {
    f.(runs := f.runs[t := rf])
  }

  /** A whole pick for the run t: the files it leaves, its answer, and the run as it stood then. */
  ghost function Pick(env: Env, f: Files, t: Token, rf: RunFile, n: int): (r: (Files, Answer, RunFile))
    requires Loaded(rf)
    ensures r.2.doc == rf.doc && Loaded(r.2)
    decreases Max(0, rf.doc.maxSessions - rf.state.sessions)
  {
    var d := rf.doc;
    var (f1, rf1) := Sweep(env, f, t, rf, 0);
    if rf1.state.sessions >= d.maxSessions && !AnyDispatched(rf1.state) then
      (Finished(f1, t, RunCapped), Done(RunCapped), rf1)
    else
      var frontier := Candidates(d, rf1.state, 0);
      if frontier == [] then
        if AnyDispatched(rf1.state) then (f1, Refusal, rf1)
        else if AnyPending(rf1.state) then (f1, WalkStalled, rf1)
        else
          var outcome := WalkOutcome(d, rf1.state);
          (Finished(f1, t, outcome), Done(outcome), rf1)
      else
        var (f2, rf2, steps) := CallPass(env, f1, t, rf1, frontier, 0);
        var chosen := Chosen(d, rf2.state, steps, n);
        var rf3 := rf2.(state := Emit(d, rf2.state, chosen));
        if chosen != [] then (Saved(f2, t, rf3), Steps(chosen), rf3)
        else if AnyDispatched(rf3.state) then (Saved(f2, t, rf3), Waiting, rf3)
        else
          ReentryProgress(env, f, t, rf, n);
          Pick(env, Saved(f2, t, rf3), t, rf3, n)
  }

  lemma SweepNext(env: Env, f: Files, t: Token, rf: RunFile, u: nat)
    requires Loaded(rf) && u <= |rf.doc.units|
    ensures u == |rf.doc.units| ==> Sweep(env, f, t, rf, u) == (f, rf)
    ensures u < |rf.doc.units| ==>
              Sweep(env, f, t, rf, u) ==
                Sweep(env, SweepUnit(env, f, t, rf, u).0, t, SweepUnit(env, f, t, rf, u).1, u + 1)
  {
    hide SweepUnit;
  }

  /** Where no unit waits, the sweep does nothing. */
  lemma {:induction false} SweepIdle(env: Env, f: Files, t: Token, rf: RunFile, u: nat)
    requires Loaded(rf) && u <= |rf.doc.units| && forall v: nat | v < |rf.doc.units| :: !Waits(rf.state, v)
    ensures Sweep(env, f, t, rf, u) == (f, rf)
    decreases |rf.doc.units| - u
  {
    if u < |rf.doc.units| {
      SweepIdle(env, f, t, rf, u + 1);
    }
  }

  /** The sweep passes by the units that do not wait. */
  lemma {:induction false} SweepSkip(env: Env, f: Files, t: Token, rf: RunFile, k: nat, u: nat)
    requires Loaded(rf) && k <= u <= |rf.doc.units| && forall v: nat | k <= v < u :: !Waits(rf.state, v)
    ensures Sweep(env, f, t, rf, k) == Sweep(env, f, t, rf, u)
    decreases u - k
  {
    if k < u {
      SweepNext(env, f, t, rf, k);
      hide Sweep;
      SweepSkip(env, f, t, rf, k + 1, u);
    }
  }

  // --------------------------------------------------------------------------------- history grows

  lemma RecordCallGrows(d: Doc, s: State, u: nat, ok: bool)
    requires Fits(d, s) && u < |d.units|
    ensures s.done <= RecordCall(d, s, u, ok).done
  {
    hide Settle, AfterCall;
  }

  lemma StartCallGrows(env: Env, f: Files, t: Token, rf: RunFile, u: nat)
    requires Loaded(rf) && u < |rf.doc.units| && ExpectedNode(rf.doc, rf.state, u).activity.Call?
    ensures rf.state.done <= StartCall(env, f, t, rf, u).1.state.done
  {
    hide RecordCall, MayStart;
    RecordCallGrows(rf.doc, Paid(rf.state), u, true);
    RecordCallGrows(rf.doc, Paid(rf.state), u, false);
  }

  lemma Prefixes(a: seq<Entry>, b: seq<Entry>, c: seq<Entry>)
    requires a <= b && b <= c
    ensures a <= c
  {
  }

  lemma {:induction false} SweepGrows(env: Env, f: Files, t: Token, rf: RunFile, u: nat)
    requires Loaded(rf) && u <= |rf.doc.units|
    ensures rf.state.done <= Sweep(env, f, t, rf, u).1.state.done
    decreases |rf.doc.units| - u
  {
    hide RecordCall, StartCall;
    if u < |rf.doc.units| {
      var step := SweepUnit(env, f, t, rf, u);
      if Waits(rf.state, u) {
        RecordCallGrows(rf.doc, rf.state, u, true);
        RecordCallGrows(rf.doc, rf.state, u, false);
        var cleared := rf.state.(cells := rf.state.cells[u := rf.state.cells[u].(child := None)]);
        StartCallGrows(env, f, t, rf.(state := cleared), u);
      }
      SweepGrows(env, step.0, t, step.1, u + 1);
      Prefixes(rf.state.done, step.1.state.done, Sweep(env, f, t, rf, u).1.state.done);
    }
  }

  lemma {:induction false} CallPassGrows(env: Env, f: Files, t: Token, rf: RunFile, frontier: seq<nat>, k: nat)
    requires Loaded(rf) && k <= |frontier| && Within(rf.doc, frontier)
    ensures rf.state.done <= CallPass(env, f, t, rf, frontier, k).1.state.done
    decreases |frontier| - k
  {
    hide StartCall;
    if k < |frontier| {
      var u := frontier[k];
      if ExpectedNode(rf.doc, rf.state, u).activity.Call? &&
         !rf.state.cells[u].status.Dispatched? && rf.state.sessions < rf.doc.maxSessions {
        var step := StartCall(env, f, t, rf, u);
        StartCallGrows(env, f, t, rf, u);
        CallPassGrows(env, step.0, t, step.1, frontier, k + 1);
        Prefixes(rf.state.done, step.1.state.done, CallPass(env, f, t, rf, frontier, k).1.state.done);
      } else {
        CallPassGrows(env, f, t, rf, frontier, k + 1);
      }
    }
  }

  lemma {:induction false} SweepSpends(env: Env, f: Files, t: Token, rf: RunFile, u: nat)
    requires Loaded(rf) && u <= |rf.doc.units|
    ensures rf.state.sessions <= Sweep(env, f, t, rf, u).1.state.sessions
    decreases |rf.doc.units| - u
  {
    if u < |rf.doc.units| {
      var step := SweepUnit(env, f, t, rf, u);
      SweepSpends(env, step.0, t, step.1, u + 1);
    }
  }

  /** A call pass that spends nothing changes nothing; with budget left and nothing dispatched it
      drops no candidate either. */
  lemma {:induction false} CallPassIdle(env: Env, f: Files, t: Token, rf: RunFile, frontier: seq<nat>, k: nat)
    requires Loaded(rf) && k <= |frontier| && Within(rf.doc, frontier)
    requires CallPass(env, f, t, rf, frontier, k).1.state.sessions == rf.state.sessions
    ensures CallPass(env, f, t, rf, frontier, k).0 == f && CallPass(env, f, t, rf, frontier, k).1 == rf
    ensures rf.state.sessions < rf.doc.maxSessions && !AnyDispatched(rf.state) ==>
              CallPass(env, f, t, rf, frontier, k).2 == frontier[k..]
    decreases |frontier| - k
  {
    if k < |frontier| {
      var u := frontier[k];
      if ExpectedNode(rf.doc, rf.state, u).activity.Call? &&
         !rf.state.cells[u].status.Dispatched? && rf.state.sessions < rf.doc.maxSessions {
      } else {
        CallPassIdle(env, f, t, rf, frontier, k + 1);
      }
    }
  }

  /** A pick re-enters only after a call start has spent a session, so its self-call ends. */
  lemma ReentryProgress(env: Env, f: Files, t: Token, rf: RunFile, n: int)
    requires Loaded(rf)
    requires
      var rf1 := Sweep(env, f, t, rf, 0).1;
      && !(rf1.state.sessions >= rf.doc.maxSessions && !AnyDispatched(rf1.state))
      && var frontier := Candidates(rf.doc, rf1.state, 0);
      && frontier != []
      && var pass := CallPass(env, Sweep(env, f, t, rf, 0).0, t, rf1, frontier, 0);
      && Chosen(rf.doc, pass.1.state, pass.2, n) == []
      && !AnyDispatched(Emit(rf.doc, pass.1.state, []))
    ensures
      var (f1, rf1) := Sweep(env, f, t, rf, 0);
      var pass := CallPass(env, f1, t, rf1, Candidates(rf.doc, rf1.state, 0), 0);
      rf.state.sessions < pass.1.state.sessions <= rf.doc.maxSessions
  {
    hide Sweep, CallPass, Candidates;
    SweepSpends(env, f, t, rf, 0);
    var (f1, rf1) := Sweep(env, f, t, rf, 0);
    var frontier := Candidates(rf.doc, rf1.state, 0);
    var pass := CallPass(env, f1, t, rf1, frontier, 0);
    assert Emit(rf.doc, rf1.state, []) == rf1.state;
    if pass.1.state.sessions == rf1.state.sessions {
      CallPassIdle(env, f1, t, rf1, frontier, 0);
    }
  }

  /** A pick, case by case; where it starts over it has spent a session and is within the cap. */
  lemma PickForms(env: Env, f: Files, t: Token, rf: RunFile, n: int)
    requires Loaded(rf)
    ensures
      var d := rf.doc;
      var (f1, rf1) := Sweep(env, f, t, rf, 0);
      var frontier := Candidates(d, rf1.state, 0);
      var pass := CallPass(env, f1, t, rf1, frontier, 0);
      var chosen := Chosen(d, pass.1.state, pass.2, n);
      var rf3 := pass.1.(state := Emit(d, pass.1.state, chosen));
      var again := frontier != [] && chosen == [] && !AnyDispatched(rf3.state) &&
                   !(rf1.state.sessions >= d.maxSessions && !AnyDispatched(rf1.state));
      && (again ==> rf.state.sessions < rf3.state.sessions <= d.maxSessions)
      && Pick(env, f, t, rf, n) ==
           if rf1.state.sessions >= d.maxSessions && !AnyDispatched(rf1.state) then
             (Finished(f1, t, RunCapped), Done(RunCapped), rf1)
           else if frontier == [] then
             if AnyDispatched(rf1.state) then (f1, Refusal, rf1)
             else if AnyPending(rf1.state) then (f1, WalkStalled, rf1)
             else (Finished(f1, t, WalkOutcome(d, rf1.state)), Done(WalkOutcome(d, rf1.state)), rf1)
           else if chosen != [] then (Saved(pass.0, t, rf3), Steps(chosen), rf3)
           else if AnyDispatched(rf3.state) then (Saved(pass.0, t, rf3), Waiting, rf3)
           else Pick(env, Saved(pass.0, t, rf3), t, rf3, n)
  {
    hide Sweep, CallPass, Candidates, Chosen, AnyDispatched, AnyPending, WalkOutcome;
    var (f1, rf1) := Sweep(env, f, t, rf, 0);
    var frontier := Candidates(rf.doc, rf1.state, 0);
    var pass := CallPass(env, f1, t, rf1, frontier, 0);
    var chosen := Chosen(rf.doc, pass.1.state, pass.2, n);
    if frontier != [] && chosen == [] && !AnyDispatched(Emit(rf.doc, pass.1.state, chosen)) &&
       !(rf1.state.sessions >= rf.doc.maxSessions && !AnyDispatched(rf1.state)) {
      ReentryProgress(env, f, t, rf, n);
    }
  }

  lemma {:induction false} NotOwnChild(t: Token, id: string)
    ensures Sub(t, id) != t
  {
    if t.Sub? {
      NotOwnChild(t.parent, t.node);
    }
  }

  /** Two units that stand at nodes of the same id are the same unit. */
  lemma SameCall(d: Doc, s: State, u: nat, v: nat)
    requires Fits(d, s) && u < |d.units| && v < |d.units|
    requires ExpectedNode(d, s, u).id == ExpectedNode(d, s, v).id
    ensures u == v
  {
    assert SameId(d, u, s.cells[u].pos, v, s.cells[v].pos);
  }

  lemma LoadedFits(rf: RunFile)
    ensures Loaded(rf) <==> Fits(rf.doc, rf.state)
  {
  }

  lemma EmitDone(d: Doc, s: State, chosen: seq<nat>)
    requires Fits(d, s)
    ensures Emit(d, s, chosen).done == s.done && Emit(d, s, chosen).sessions == s.sessions
  {
  }

  /** History only grows during a pick, and all that its sweep wrote is in it. */
  lemma {:induction false} PickGrows(env: Env, f: Files, t: Token, rf: RunFile, n: int)
    requires Loaded(rf)
    ensures rf.state.done <= Sweep(env, f, t, rf, 0).1.state.done <= Pick(env, f, t, rf, n).2.state.done
    decreases rf.doc.maxSessions - rf.state.sessions
  {
    hide *;
    PickForms(env, f, t, rf, n);
    SweepGrows(env, f, t, rf, 0);
    var (f1, rf1) := Sweep(env, f, t, rf, 0);
    LoadedFits(rf1);
    CallPassGrows(env, f1, t, rf1, Candidates(rf.doc, rf1.state, 0), 0);
    var pass := CallPass(env, f1, t, rf1, Candidates(rf.doc, rf1.state, 0), 0);
    LoadedFits(pass.1);
    var chosen := Chosen(rf.doc, pass.1.state, pass.2, n);
    EmitDone(rf.doc, pass.1.state, chosen);
    var rf3 := pass.1.(state := Emit(rf.doc, pass.1.state, chosen));
    LoadedFits(rf3);
    if !(rf1.state.sessions >= rf.doc.maxSessions && !AnyDispatched(rf1.state)) &&
       Candidates(rf.doc, rf1.state, 0) != [] && chosen == [] && !AnyDispatched(rf3.state) {
      PickGrows(env, Saved(pass.0, t, rf3), t, rf3, n);
      SweepGrows(env, Saved(pass.0, t, rf3), t, rf3, 0);
      var again := Pick(env, Saved(pass.0, t, rf3), t, rf3, n).2.state.done;
      Prefixes(rf3.state.done, Sweep(env, Saved(pass.0, t, rf3), t, rf3, 0).1.state.done, again);
      Prefixes(rf1.state.done, rf3.state.done, again);
    }
    Prefixes(rf.state.done, rf1.state.done, Pick(env, f, t, rf, n).2.state.done);
  }

  lemma SavedTwice(f: Files, t: Token, a: RunFile, b: RunFile)
    ensures Saved(Saved(f, t, a), t, b) == Saved(f, t, b)
  {
  }

  // --------------------------------------------------------------------------------- recording

  datatype Result = Retry | Ended(report: Report)

  datatype RecordAnswer = Refused | Recorded(verdict: Verdict)

  /** A step handed out and not recorded yet: the unit is dispatched and waits for no child run. */
  predicate Outstanding(d: Doc, s: State, u: nat)
    requires Fits(d, s)
  {
    u < |d.units| && s.cells[u].status.Dispatched? && s.cells[u].child.None?
  }

  /** The unit that a record of node id goes to was handed out as a step: it waits for no child run. */
  predicate Handed(d: Doc, s: State, id: string)
    requires Fits(d, s)
  {
    var who := Recorder(d, s, id, 0);
    who.Some? ==> s.cells[who.value].child.None?
  }

  /** Recording what the session of node id did: refused unless a dispatched unit expects it. */
  ghost function Record(f: Files, t: Token, rf: RunFile, id: string, res: Result): (r: (Files, RecordAnswer))
    requires Loaded(rf) && Handed(rf.doc, rf.state, id)
  {
    match Recorder(rf.doc, rf.state, id, 0)
    case None => (f, Refused)
    case Some(u) =>
      if res.Retry? then (Saved(f, t, rf.(state := SetStatus(rf.state, u, Pending))), Recorded(Continue))
      else
        var s := RecordSession(rf.doc, rf.state, u, res.report);
        (Concluded(f, t, rf.(state := s), AfterRecord(rf.doc, s)), Recorded(AfterRecord(rf.doc, s)))
  }

  /** What a record's verdict leaves in the log directory; a stalled walk is refused unsaved. */
  function Concluded(f: Files, t: Token, rf: RunFile, v: Verdict): Files {
    match v
    case Continue => Saved(f, t, rf)
    case Stalled => f
    case Finish(outcome) => Finished(f, t, outcome)
  }
}
