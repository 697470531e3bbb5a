/** The tree of runs never deadlocks. */
module Progress {
  // A run in which nothing can happen waits for children that all run. This takes no assumption on the
  // documents, and none on what stalled or vanished before.

  import opened Documents
  import opened Validator
  import opened WalkState
  import opened Dispatch
  import opened WalkInvariants
  import opened Moves
  import opened Machine
  import opened Runs

  /** Nothing can happen in run t: no session of it can be recorded, and picking it only waits. */
  ghost predicate Idle(env: Env, w: Files, t: Token, n: int)
    requires t in w.runs && Loaded(w.runs[t])
  {
    && (forall u: nat :: !Outstanding(w.runs[t].doc, w.runs[t].state, u))
    && Pick(env, w, t, w.runs[t], n).0 == w
    && Pick(env, w, t, w.runs[t], n).1.Waiting?
  }

  // ------------------------------------------------------------------------------- what a pick leaves

  /** A pick spends no less than its sweep. */
  lemma {:induction false} PickSpends(env: Env, f: Files, t: Token, rf: RunFile, n: int)
    requires Loaded(rf)
    ensures rf.state.sessions <= Sweep(env, f, t, rf, 0).1.state.sessions <= Pick(env, f, t, rf, n).2.state.sessions
    decreases rf.doc.maxSessions - rf.state.sessions
  {
    hide *;
    SweepSpends(env, f, t, rf, 0);
    PickForms(env, f, t, rf, n);
    var (f1, rf1) := Sweep(env, f, t, rf, 0);
    LoadedFits(rf1);
    var pass := CallPass(env, f1, t, rf1, Candidates(rf.doc, rf1.state, 0), 0);
    LoadedFits(pass.1);
    var chosen := Chosen(rf.doc, pass.1.state, pass.2, n);
    EmitDone(rf.doc, pass.1.state, chosen);
    var rf3 := pass.1.(state := Emit(rf.doc, pass.1.state, chosen));
    LoadedFits(rf3);
    if !(rf1.state.sessions >= rf.doc.maxSessions && !AnyDispatched(rf1.state)) &&
       Candidates(rf.doc, rf1.state, 0) != [] && chosen == [] && !AnyDispatched(rf3.state) {
      PickSpends(env, Saved(pass.0, t, rf3), t, rf3, n);
    }
  }

  lemma {:induction false} PickWaitingFile(env: Env, f: Files, t: Token, rf: RunFile, n: int)
    requires Loaded(rf) && Pick(env, f, t, rf, n).1.Waiting?
    ensures var (f', _, end) := Pick(env, f, t, rf, n);
            t in f'.runs && f'.runs[t] == end && AnyDispatched(end.state)
    decreases rf.doc.maxSessions - rf.state.sessions
  {
    hide *;
    PickForms(env, f, t, rf, n);
    var (f1, rf1) := Sweep(env, f, t, rf, 0);
    LoadedFits(rf1);
    var pass := CallPass(env, f1, t, rf1, Candidates(rf.doc, rf1.state, 0), 0);
    LoadedFits(pass.1);
    var chosen := Chosen(rf.doc, pass.1.state, pass.2, n);
    var rf3 := pass.1.(state := Emit(rf.doc, pass.1.state, chosen));
    LoadedFits(rf3);
    SavedIn(pass.0, t, rf3);
    if !(rf1.state.sessions >= rf.doc.maxSessions && !AnyDispatched(rf1.state)) &&
       Candidates(rf.doc, rf1.state, 0) != [] && chosen == [] && !AnyDispatched(rf3.state) {
      PickWaitingFile(env, Saved(pass.0, t, rf3), t, rf3, n);
    }
  }

  lemma SavedIn(f: Files, t: Token, rf: RunFile)
    ensures t in Saved(f, t, rf).runs && Saved(f, t, rf).runs[t] == rf
  {
  }

  /** Unit u waits for a child that runs and has left no outcome. */
  predicate WaitsLive(f: Files, s: State, u: nat)
    requires u < |s.cells|
  {
    Waits(s, u) && s.cells[u].child.value in f.runs && s.cells[u].child.value !in f.parked
  }

  /** One unit of the sweep records, or spends, or leaves everything as it is. */
  lemma SweepUnitTells(env: Env, f: Files, t: Token, rf: RunFile, u: nat)
    requires Loaded(rf) && u < |rf.doc.units|
    ensures !Waits(rf.state, u) || WaitsLive(f, rf.state, u) ==> SweepUnit(env, f, t, rf, u) == (f, rf)
    ensures Waits(rf.state, u) && !WaitsLive(f, rf.state, u) ==>
              var s := SweepUnit(env, f, t, rf, u).1.state;
              |s.done| > |rf.state.done| || s.sessions > rf.state.sessions
  {
    hide StartCall, RecordCall;
  }

  /** A sweep that records nothing and spends nothing found all waited children live. */
  lemma {:induction false} SweepTells(env: Env, f: Files, t: Token, rf: RunFile, u: nat)
    requires Loaded(rf) && u <= |rf.doc.units|
    requires |Sweep(env, f, t, rf, u).1.state.done| <= |rf.state.done|
    requires Sweep(env, f, t, rf, u).1.state.sessions <= rf.state.sessions
    ensures forall v: nat | u <= v < |rf.doc.units| && Waits(rf.state, v) :: WaitsLive(f, rf.state, v)
    decreases |rf.doc.units| - u
  {
    hide *;
    CellsSize(rf);
    SweepNext(env, f, t, rf, u);
    if u < |rf.doc.units| {
      SweepUnitTells(env, f, t, rf, u);
      var step := SweepUnit(env, f, t, rf, u);
      LoadedFits(step.1);
      SweepGrows(env, step.0, t, step.1, u + 1);
      SweepSpends(env, step.0, t, step.1, u + 1);
      SweepUnitGrows(env, f, t, rf, u);
      assert !Waits(rf.state, u) || WaitsLive(f, rf.state, u);
      SweepTells(env, f, t, rf, u + 1);
    }
  }

  lemma CellsSize(rf: RunFile)
    requires Loaded(rf)
    ensures |rf.state.cells| == |rf.doc.units| && Fits(rf.doc, rf.state)
  {
  }

  lemma SweepUnitGrows(env: Env, f: Files, t: Token, rf: RunFile, u: nat)
    requires Loaded(rf) && u < |rf.doc.units|
    ensures |rf.state.done| <= |SweepUnit(env, f, t, rf, u).1.state.done|
    ensures rf.state.sessions <= SweepUnit(env, f, t, rf, u).1.state.sessions
  {
    hide StartCall, RecordCall;
    if Waits(rf.state, u) {
      var cleared := rf.state.(cells := rf.state.cells[u := rf.state.cells[u].(child := None)]);
      StartCallGrows(env, f, t, rf.(state := cleared), u);
    }
  }

  lemma PrefixSize(a: seq<Entry>, b: seq<Entry>)
    requires a <= b
    ensures |a| <= |b|
  {
  }

  /** An idle run waits for a child that runs. */
  lemma IdleHasLiveChild(env: Env, w: Files, t: Token, n: int) returns (child: Token)
    requires t in w.runs && Loaded(w.runs[t]) && OwnChildren(t, w.runs[t].doc, w.runs[t].state) && Idle(env, w, t, n)
    ensures child.Sub? && child.parent == t && child in w.runs
  {
    var rf := w.runs[t];
    hide Pick, Sweep, RecordCall;
    PickWaitingFile(env, w, t, rf, n);
    PickGrows(env, w, t, rf, n);
    PickSpends(env, w, t, rf, n);
    PrefixSize(Sweep(env, w, t, rf, 0).1.state.done, rf.state.done);
    SweepTells(env, w, t, rf, 0);
    var u: nat :| u < |rf.state.cells| && rf.state.cells[u].status.Dispatched?;
    assert !Outstanding(rf.doc, rf.state, u);
    assert Waits(rf.state, u) && WaitsLive(w, rf.state, u);
    child := rf.state.cells[u].child.value;
  }

  // ------------------------------------------------------------------------------------ the tree below

  predicate Descends(a: Token, b: Token) {
    b == a || (b.Sub? && Descends(a, b.parent))
  }

  lemma {:induction false} DescendsTrans(t: Token, id: string, b: Token)
    requires Descends(Sub(t, id), b)
    ensures Descends(t, b)
  {
    if b != Sub(t, id) {
      DescendsTrans(t, id, b.parent);
    } else {
      assert Descends(t, b.parent);
    }
  }

  function Rank(t: Token): nat { if t.Sub? then 1 + Rank(t.parent) else 0 }

  lemma {:induction false} DescendsRank(a: Token, b: Token)
    requires Descends(a, b)
    ensures Rank(a) <= Rank(b)
  {
    if b != a {
      DescendsRank(a, b.parent);
    }
  }

  /** The runs in progress at or below t. */
  ghost function Below(w: Files, t: Token): set<Token> { set q | q in w.runs && Descends(t, q) }

  lemma ChildBelow(w: Files, t: Token, child: Token)
    requires t in w.runs && child.Sub? && child.parent == t
    ensures Below(w, child) < Below(w, t)
  {
    forall q | q in Below(w, child) ensures q in Below(w, t) {
      DescendsTrans(t, child.node, q);
    }
    if t in Below(w, child) {
      DescendsRank(child, t);
    }
    assert t in Below(w, t);
  }

  /** The tree never deadlocks: in every execution, below every live run some run has a session to record or a
      pick that does more than wait. That pick is never refused for what is out; in a safe document it does
      not stall either. */
  lemma {:induction false} NoDeadlock(es: seq<Event>, env: Env, t: Token, n: int) returns (mover: Token)
    requires t in Exec(es).runs
    ensures Descends(t, mover) && mover in Exec(es).runs
    ensures Loaded(Exec(es).runs[mover]) && !Idle(env, Exec(es), mover, n)
    ensures var rf := Exec(es).runs[mover];
            var answer := Pick(env, Exec(es), mover, rf, n).1;
            Sound(env) ==> !answer.Refusal? && (Safe(rf.doc) ==> !answer.WalkStalled?)
    decreases Below(Exec(es), t)
  {
    hide *;
    RunsOwn(es, t);
    if !Idle(env, Exec(es), t, n) {
      mover := t;
      Itself(t);
      Answers(es, env, t, n);
    } else {
      var child := IdleHasLiveChild(env, Exec(es), t, n);
      ChildBelow(Exec(es), t, child);
      mover := NoDeadlock(es, env, child, n);
      DescendsTrans(t, child.node, mover);
    }
  }

  lemma Itself(t: Token)
    ensures Descends(t, t)
  {
  }

  lemma Answers(es: seq<Event>, env: Env, t: Token, n: int)
    requires t in Exec(es).runs
    ensures var rf := Exec(es).runs[t];
            && Loaded(rf)
            && (Sound(env) ==> !Pick(env, Exec(es), t, rf, n).1.Refusal?)
            && (Sound(env) && Safe(rf.doc) ==> !Pick(env, Exec(es), t, rf, n).1.WalkStalled?)
  {
    hide Pick, Exec, Valid, Safe, Reached, Anchored;
    ExecSane(es);
    if Sound(env) {
      PickSane(env, Exec(es), t, Exec(es).runs[t], n);
    }
  }
}
