/** Every run, as moves. */
module Runs {
  // Whatever its document, and however stale its frontier, a run only makes moves of units that have not run.
  // What every such move keeps therefore holds of every run in every execution.

  import opened Documents
  import opened Validator
  import opened WalkState
  import opened Dispatch
  import opened WalkInvariants
  import opened Moves
  import opened Machine

  /** A unit of run t only waits for the child of its own node. */
  ghost predicate Own(t: Token, d: Doc, s: State, m: Move)
    requires Possible(d, s, m)
  {
    m.ParkOn? ==> m.child == Sub(t, ExpectedNode(d, s, m.u).id)
  }

  ghost function Act(t: Token, d: Doc, s: State, m: Move): State {
    if Possible(d, s, m) && Own(t, d, s, m) then Effect(d, s, m) else s
  }

  ghost function Walked(t: Token, d: Doc, ms: seq<Move>): State {
    if ms == [] then Init(d) else Act(t, d, Walked(t, d, ms[..|ms| - 1]), ms[|ms| - 1])
  }

  /** Some sequence of possible moves leads run t to this state. */
  ghost predicate Led(t: Token, d: Doc, s: State) {
    exists ms :: s == Walked(t, d, ms)
  }

  lemma LedInit(t: Token, d: Doc)
    ensures Led(t, d, Init(d))
  {
    assert Init(d) == Walked(t, d, []);
  }

  lemma LedMove(t: Token, d: Doc, s: State, m: Move)
    requires Led(t, d, s)
    ensures Led(t, d, Act(t, d, s, m))
  {
    hide Act;
    var ms :| s == Walked(t, d, ms);
    assert (ms + [m])[..|ms|] == ms;
    assert Act(t, d, s, m) == Walked(t, d, ms + [m]);
  }

  lemma {:induction false} WalkedFits(t: Token, d: Doc, ms: seq<Move>)
    requires Shaped(d)
    ensures Fits(d, Walked(t, d, ms))
  {
    if ms != [] {
      WalkedFits(t, d, ms[..|ms| - 1]);
      hide Effect, Possible;
    }
  }

  // ------------------------------------------------------ the dispatch protocol makes only such moves

  lemma CalledLed(t: Token, d: Doc, s: State, u: nat, ok: bool)
    requires Fits(d, s) && Led(t, d, s) && Unrun(s, u)
    ensures Led(t, d, RecordCall(d, s, u, ok))
  {
    hide Led, RecordCall;
    LedMove(t, d, s, Called(u, ok));
  }

  lemma ParkLed(t: Token, d: Doc, s: State, u: nat)
    requires Fits(d, s) && Led(t, d, s) && Unrun(s, u) && ExpectedNode(d, s, u).activity.Call?
    ensures Led(t, d, Park(s, u, Sub(t, ExpectedNode(d, s, u).id)))
  {
    hide Led, RecordCall;
    LedMove(t, d, s, ParkOn(u, Sub(t, ExpectedNode(d, s, u).id)));
  }

  lemma PaidLed(t: Token, d: Doc, s: State, u: nat)
    requires Fits(d, s) && Led(t, d, s) && Unrun(s, u)
    ensures Led(t, d, Paid(s)) && Fits(d, Paid(s)) && Unrun(Paid(s), u)
  {
    hide Led, RecordCall;
    LedMove(t, d, s, Pay(u));
  }

  lemma StartCallLed(env: Env, f: Files, t: Token, rf: RunFile, u: nat)
    requires Loaded(rf) && Led(t, rf.doc, rf.state) && u < |rf.doc.units| && Unrun(rf.state, u)
    requires ExpectedNode(rf.doc, rf.state, u).activity.Call?
    ensures Led(t, rf.doc, StartCall(env, f, t, rf, u).1.state)
  {
    hide Led, RecordCall, MayStart, Park;
    var d, s := rf.doc, rf.state;
    var node := ExpectedNode(d, s, u);
    PaidLed(t, d, s, u);
    CalledLed(t, d, Paid(s), u, false);
    CalledLed(t, d, Paid(s), u, true);
    ParkLed(t, d, Paid(s), u);
  }

  /** Whatever a call start does, it makes no other unit run. */
  lemma StartCallUnrun(env: Env, f: Files, t: Token, rf: RunFile, u: nat, v: nat)
    requires Loaded(rf) && u < |rf.doc.units| && ExpectedNode(rf.doc, rf.state, u).activity.Call?
    requires v != u && Unrun(rf.state, v)
    ensures Unrun(StartCall(env, f, t, rf, u).1.state, v)
  {
    hide MayStart, Settle, AfterCall;
    var d, s := rf.doc, Paid(rf.state);
    RecordCallUnrun(d, s, u, true, v);
    RecordCallUnrun(d, s, u, false, v);
    hide RecordCall;
  }

  lemma RecordCallUnrun(d: Doc, s: State, u: nat, ok: bool, v: nat)
    requires Fits(d, s) && u < |d.units| && v != u && Unrun(s, v)
    ensures Unrun(RecordCall(d, s, u, ok), v)
  {
    hide Settle, AfterCall;
    SettleLoosens(d, Resolved(d, s, u, AfterCall(d.units[u], s.cells[u], ok), ok), u);
  }

  ghost predicate AllLed(w: Files) {
    forall t | t in w.runs :: Led(t, w.runs[t].doc, w.runs[t].state)
  }

  lemma SavedLed(f: Files, t: Token, rf: RunFile)
    requires AllLed(f) && Led(t, rf.doc, rf.state)
    ensures AllLed(Saved(f, t, rf))
  {
    hide Led;
  }

  lemma FinishedLed(f: Files, t: Token)
    requires AllLed(f)
    ensures forall o :: AllLed(Finished(f, t, o))
  {
    hide Led;
  }

  lemma StartCallFiles(env: Env, f: Files, t: Token, rf: RunFile, u: nat)
    requires AllLed(f) && Loaded(rf) && u < |rf.doc.units| && ExpectedNode(rf.doc, rf.state, u).activity.Call?
    ensures AllLed(StartCall(env, f, t, rf, u).0)
  {
    hide Led, RecordCall;
    var node := ExpectedNode(rf.doc, rf.state, u);
    if MayStart(env, f, t, rf, node) {
      LedInit(Sub(t, node.id), Started(env.library[node.activity.pipeline]));
    }
  }

  lemma SweepUnitLed(env: Env, f: Files, t: Token, rf: RunFile, u: nat)
    requires AllLed(f) && Loaded(rf) && Led(t, rf.doc, rf.state) && u < |rf.doc.units|
    ensures AllLed(SweepUnit(env, f, t, rf, u).0)
    ensures Led(t, rf.doc, SweepUnit(env, f, t, rf, u).1.state)
  {
    hide Led, RecordCall, StartCall;
    var d, s := rf.doc, rf.state;
    if Waits(s, u) {
      var child := s.cells[u].child.value;
      if child in f.parked {
        CalledLed(t, d, s, u, f.parked[child]);
      } else if child !in f.runs {
        LedMove(t, d, s, Clear(u));
        var cleared := s.(cells := s.cells[u := s.cells[u].(child := None)]);
        assert Act(t, d, s, Clear(u)) == cleared;
        StartCallLed(env, f, t, rf.(state := cleared), u);
        StartCallFiles(env, f, t, rf.(state := cleared), u);
      }
    }
  }

  lemma {:induction false} SweepLed(env: Env, f: Files, t: Token, rf: RunFile, u: nat)
    requires AllLed(f) && Loaded(rf) && Led(t, rf.doc, rf.state) && u <= |rf.doc.units|
    ensures AllLed(Sweep(env, f, t, rf, u).0)
    ensures Led(t, rf.doc, Sweep(env, f, t, rf, u).1.state)
    decreases |rf.doc.units| - u
  {
    hide *;
    SweepNext(env, f, t, rf, u);
    if u < |rf.doc.units| {
      SweepUnitLed(env, f, t, rf, u);
      var step := SweepUnit(env, f, t, rf, u);
      SweepLed(env, step.0, t, step.1, u + 1);
    }
  }

  /** The frontier from k on holds no unit that has run. */
  predicate AllUnrun(s: State, frontier: seq<nat>, k: nat) {
    forall i: nat | k <= i < |frontier| :: Unrun(s, frontier[i])
  }

  lemma CallPassNext(env: Env, f: Files, t: Token, rf: RunFile, frontier: seq<nat>, k: nat)
    requires Loaded(rf) && k < |frontier| && Within(rf.doc, frontier)
    ensures
      var u := frontier[k];
      var pass := CallPass(env, f, t, rf, frontier, k);
      var rest := CallPass(env, f, t, rf, frontier, k + 1);
      if !ExpectedNode(rf.doc, rf.state, u).activity.Call? then pass == (rest.0, rest.1, [u] + rest.2)
      else if rf.state.cells[u].status.Dispatched? || rf.state.sessions >= rf.doc.maxSessions then pass == rest
      else pass == CallPass(env, StartCall(env, f, t, rf, u).0, t, StartCall(env, f, t, rf, u).1, frontier, k + 1)
  {
    hide StartCall;
  }

  lemma StartCallFrontier(env: Env, f: Files, t: Token, rf: RunFile, frontier: seq<nat>, k: nat)
    requires Loaded(rf) && k < |frontier| && Within(rf.doc, frontier) && Distinct(frontier)
    requires ExpectedNode(rf.doc, rf.state, frontier[k]).activity.Call? && AllUnrun(rf.state, frontier, k)
    ensures AllUnrun(StartCall(env, f, t, rf, frontier[k]).1.state, frontier, k + 1)
  {
    hide StartCall, Unrun;
    forall i: nat | k + 1 <= i < |frontier| ensures Unrun(StartCall(env, f, t, rf, frontier[k]).1.state, frontier[i]) {
      StartCallUnrun(env, f, t, rf, frontier[k], frontier[i]);
    }
  }

  /** A unit that stands in no part of the frontier still to come is left as little run as it was. */
  lemma {:induction false} CallPassUnrun(env: Env, f: Files, t: Token, rf: RunFile, frontier: seq<nat>, k: nat, v: nat)
    requires Loaded(rf) && k <= |frontier| && Within(rf.doc, frontier) && Unrun(rf.state, v)
    requires forall i: nat | k <= i < |frontier| :: frontier[i] != v
    ensures Unrun(CallPass(env, f, t, rf, frontier, k).1.state, v)
    decreases |frontier| - k
  {
    if k < |frontier| {
      CallPassNext(env, f, t, rf, frontier, k);
      hide CallPass, StartCall, Unrun;
      var u := frontier[k];
      if ExpectedNode(rf.doc, rf.state, u).activity.Call? &&
         !rf.state.cells[u].status.Dispatched? && rf.state.sessions < rf.doc.maxSessions {
        var step := StartCall(env, f, t, rf, u);
        StartCallUnrun(env, f, t, rf, u, v);
        CallPassUnrun(env, step.0, t, step.1, frontier, k + 1, v);
      } else {
        CallPassUnrun(env, f, t, rf, frontier, k + 1, v);
      }
    }
  }

  lemma {:induction false} CallPassLed(env: Env, f: Files, t: Token, rf: RunFile, frontier: seq<nat>, k: nat)
    requires AllLed(f) && Loaded(rf) && Led(t, rf.doc, rf.state)
    requires k <= |frontier| && Within(rf.doc, frontier) && Distinct(frontier) && AllUnrun(rf.state, frontier, k)
    ensures
      var pass := CallPass(env, f, t, rf, frontier, k);
      && AllLed(pass.0) && Led(t, rf.doc, pass.1.state)
      && forall i: nat | i < |pass.2| :: Unrun(pass.1.state, pass.2[i])
    decreases |frontier| - k
  {
    hide AllLed, Led, StartCall, Unrun, CallPass;
    if k == |frontier| {
      PassEmpty(env, f, t, rf, frontier, k);
    } else {
      CallPassNext(env, f, t, rf, frontier, k);
      var u := frontier[k];
      assert Unrun(rf.state, u);
      if ExpectedNode(rf.doc, rf.state, u).activity.Call? {
        if !rf.state.cells[u].status.Dispatched? && rf.state.sessions < rf.doc.maxSessions {
          var step := StartCall(env, f, t, rf, u);
          StartCallLed(env, f, t, rf, u);
          StartCallFiles(env, f, t, rf, u);
          StartCallFrontier(env, f, t, rf, frontier, k);
          CallPassLed(env, step.0, t, step.1, frontier, k + 1);
        } else {
          CallPassLed(env, f, t, rf, frontier, k + 1);
        }
      } else {
        CallPassLed(env, f, t, rf, frontier, k + 1);
        CallPassUnrun(env, f, t, rf, frontier, k + 1, u);
      }
    }
  }

  lemma PassEmpty(env: Env, f: Files, t: Token, rf: RunFile, frontier: seq<nat>, k: nat)
    requires Loaded(rf) && k == |frontier| && Within(rf.doc, frontier)
    ensures CallPass(env, f, t, rf, frontier, k) == (f, rf, [])
  {
  }

  lemma FrontierUnrun(d: Doc, s: State)
    requires Fits(d, s)
    ensures var l := Candidates(d, s, 0); Within(d, l) && Distinct(l) && AllUnrun(s, l, 0)
  {
    CandidatesExact(d, s);
    var l := Candidates(d, s, 0);
    forall i: nat | i < |l| ensures Unrun(s, l[i]) {
      assert l[i] in l && Eligible(d, s, l[i]);
    }
  }

  /** Handing out units that have not run. */
  lemma EmitLed(t: Token, d: Doc, s: State, steps: seq<nat>, n: int)
    requires Fits(d, s) && Led(t, d, s) && Within(d, steps) && forall i: nat | i < |steps| :: Unrun(s, steps[i])
    ensures Led(t, d, Emit(d, s, Chosen(d, s, steps, n)))
  {
    hide Led, Emit, RecordCall, RecordSession;
    var us := Chosen(d, s, steps, n);
    ReclaimsFrom(s, steps);
    forall i: nat | i < |us| ensures Unrun(s, us[i]) {
      assert us[i] in us && us[i] in steps;
    }
    hide Chosen;
    LedMove(t, d, s, EmitBatch(us));
  }

  /** Every pick only makes such moves, and so do the runs that it starts. */
  lemma {:induction false} PickLed(env: Env, f: Files, t: Token, rf: RunFile, n: int)
    requires AllLed(f) && Loaded(rf) && Led(t, rf.doc, rf.state)
    ensures AllLed(Pick(env, f, t, rf, n).0)
    ensures Led(t, rf.doc, Pick(env, f, t, rf, n).2.state)
    decreases rf.doc.maxSessions - rf.state.sessions
  {
    hide *;
    PickForms(env, f, t, rf, n);
    SweepLed(env, f, t, rf, 0);
    var (f1, rf1) := Sweep(env, f, t, rf, 0);
    LoadedFits(rf1);
    FinishedLed(f1, t);
    var frontier := Candidates(rf.doc, rf1.state, 0);
    FrontierUnrun(rf.doc, rf1.state);
    CallPassLed(env, f1, t, rf1, frontier, 0);
    var pass := CallPass(env, f1, t, rf1, frontier, 0);
    LoadedFits(pass.1);
    EmitLed(t, rf.doc, pass.1.state, pass.2, n);
    var chosen := Chosen(rf.doc, pass.1.state, pass.2, n);
    var rf3 := pass.1.(state := Emit(rf.doc, pass.1.state, chosen));
    LoadedFits(rf3);
    SavedLed(pass.0, t, rf3);
    if !(rf1.state.sessions >= rf.doc.maxSessions && !AnyDispatched(rf1.state)) && frontier != [] &&
       chosen == [] && !AnyDispatched(rf3.state) {
      PickLed(env, Saved(pass.0, t, rf3), t, rf3, n);
    }
  }

  /** A record of a unit that is out and waits for no child. */
  lemma TellLed(t: Token, d: Doc, s: State, u: nat, r: Report)
    requires Fits(d, s) && Led(t, d, s) && u < |d.units| && s.cells[u].status.Dispatched? && s.cells[u].child.None?
    ensures Led(t, d, RecordSession(d, s, u, r)) && Led(t, d, SetStatus(s, u, Pending))
  {
    hide Led, RecordSession, RecordCall, SetStatus;
    LedMove(t, d, s, Move.Session(u, r));
    LedMove(t, d, s, Release(u));
  }

  lemma RecordLed(w: Files, t: Token, rf: RunFile, id: string, res: Result)
    requires AllLed(w) && Loaded(rf) && Led(t, rf.doc, rf.state) && Handed(rf.doc, rf.state, id)
    ensures AllLed(Record(w, t, rf, id, res).0)
  {
    hide AllLed, Led, RecordSession, AfterRecord, Recorder, SetStatus;
    match Recorder(rf.doc, rf.state, id, 0)
    case None =>
    case Some(u) =>
      TellLed(t, rf.doc, rf.state, u, if res.Ended? then res.report else Report(false, false, None));
      FinishedLed(w, t);
      if res.Retry? {
        SavedLed(w, t, rf.(state := SetStatus(rf.state, u, Pending)));
      } else {
        SavedLed(w, t, rf.(state := RecordSession(rf.doc, rf.state, u, res.report)));
      }
  }

  lemma LedAt(w: Files, t: Token)
    requires AllLed(w) && t in w.runs
    ensures Led(t, w.runs[t].doc, w.runs[t].state)
  {
    hide Led;
  }

  lemma StepLed(w: Files, e: Event)
    requires AllLed(w)
    ensures AllLed(Step(w, e))
  {
    hide AllLed, Led, Pick, Record, Valid, Handed, Fits;
    match e
    case Begin(name, doc, title) =>
      if Top(name) !in w.runs && Valid(doc) {
        LedInit(Top(name), Started(doc));
        SavedLed(w, Top(name), NewRun(doc, 0, [title]));
      }
    case PickRun(env, t, n) =>
      if t in w.runs && Loaded(w.runs[t]) && Sound(env) {
        LedAt(w, t);
        PickLed(env, w, t, w.runs[t], n);
      }
    case RecordRun(t, id, res) =>
      if t in w.runs && Loaded(w.runs[t]) && Handed(w.runs[t].doc, w.runs[t].state, id) {
        LedAt(w, t);
        RecordLed(w, t, w.runs[t], id, res);
      }
  }

  lemma {:induction false} ExecLed(es: seq<Event>)
    ensures AllLed(Exec(es))
  {
    hide Step, Led;
    if es != [] {
      ExecLed(es[..|es| - 1]);
      StepLed(Exec(es[..|es| - 1]), es[|es| - 1]);
    }
  }

  /** In every execution every run, of whatever valid document, is in a state that possible moves lead to. */
  lemma RunsLed(es: seq<Event>, t: Token)
    requires t in Exec(es).runs
    ensures var rf := Exec(es).runs[t]; Valid(rf.doc) && Loaded(rf) && Led(t, rf.doc, rf.state)
  {
    ExecSane(es);
    ExecLed(es);
  }

  // --------------------------------------------------------------------------- whom a unit waits for

  /** Every unit that waits, waits for the child of the node it stands at. */
  ghost predicate OwnChildren(t: Token, d: Doc, s: State)
    requires Fits(d, s)
  {
    forall u: nat | u < |d.units| && s.cells[u].child.Some? :: s.cells[u].child.value == Sub(t, ExpectedNode(d, s, u).id)
  }

  lemma SettleOwn(t: Token, d: Doc, s: State, s': State, u: nat)
    requires Fits(d, s) && OwnChildren(t, d, s) && Fits(d, s') && u < |d.units|
    requires s'.cells == s.cells[u := s'.cells[u]] && s'.cells[u].child.None?
    ensures OwnChildren(t, d, Settle(d, s', u))
  {
    hide Settle;
    SettleLoosens(d, s', u);
  }

  lemma ActOwn(t: Token, d: Doc, s: State, m: Move)
    requires Fits(d, s) && OwnChildren(t, d, s)
    ensures Fits(d, Act(t, d, s, m)) && OwnChildren(t, d, Act(t, d, s, m))
  {
    hide Settle;
    if Possible(d, s, m) && Own(t, d, s, m) {
      match m
      case Session(u, r) =>
        var c := AfterSession(d.units[u], s.cells[u], r);
        SettleOwn(t, d, s, Resolved(d, s, u, c, !r.error).(sessions := s.sessions + 1), u);
      case Called(u, ok) => SettleOwn(t, d, s, Resolved(d, s, u, AfterCall(d.units[u], s.cells[u], ok), ok), u);
      case _ =>
    }
  }

  lemma {:induction false} WalkedOwn(t: Token, d: Doc, ms: seq<Move>)
    requires Shaped(d)
    ensures Fits(d, Walked(t, d, ms)) && OwnChildren(t, d, Walked(t, d, ms))
  {
    if ms == [] {
      InitOwn(t, d);
    } else {
      WalkedOwn(t, d, ms[..|ms| - 1]);
      ActOwn(t, d, Walked(t, d, ms[..|ms| - 1]), ms[|ms| - 1]);
      hide Act, OwnChildren;
    }
  }

  lemma InitOwn(t: Token, d: Doc)
    requires Shaped(d)
    ensures Fits(d, Init(d)) && OwnChildren(t, d, Init(d))
  {
  }

  /** So in every execution, whatever stalled or vanished before. */
  lemma RunsOwn(es: seq<Event>, t: Token)
    requires t in Exec(es).runs
    ensures var rf := Exec(es).runs[t]; Loaded(rf) && OwnChildren(t, rf.doc, rf.state)
  {
    hide Exec, Valid, Walked, OwnChildren;
    RunsLed(es, t);
    var rf := Exec(es).runs[t];
    var ms :| rf.state == Walked(t, rf.doc, ms);
    WalkedOwn(t, rf.doc, ms);
  }
}
