/** The session budget. */
module SessionCap {
  // What a run has spent plus what it has handed out stays within its cap, as long as every batch is
  // recorded or retried before the next pick.

  import opened Counting
  import opened Documents
  import opened Validator
  import opened WalkState
  import opened Dispatch
  import opened WalkInvariants
  import opened Machine
  import opened Lineage

  /** The sessions handed out and not recorded yet. */
  ghost function OutSet(d: Doc, s: State): set<nat>
    requires Fits(d, s)
  {
    set u | u in Below(|d.units|) && Outstanding(d, s, u)
  }

  ghost predicate WithinCap(d: Doc, s: State) {
    Fits(d, s) && s.sessions + |OutSet(d, s)| <= d.maxSessions
  }

  // ------------------------------------------------------------- which moves add to what is out

  lemma SettleOut(d: Doc, s: State, u: nat)
    requires Fits(d, s) && u < |d.units|
    ensures OutSet(d, Settle(d, s, u)) <= OutSet(d, s)
  {
    hide Skips, ReachSet, Fires;
    if Ran(s.cells[u].status) {
      var b := Bounce(d, s, u);
      forall v | v in OutSet(d, Skips(d, b)) ensures v in OutSet(d, s) {
        SkipsOnlyPending(d, b, v);
      }
    }
  }

  lemma RecordSessionOut(d: Doc, s: State, u: nat, r: Report)
    requires Fits(d, s) && Outstanding(d, s, u)
    ensures OutSet(d, RecordSession(d, s, u, r)) <= OutSet(d, s) - {u}
    ensures s.sessions + |OutSet(d, s)| >=
            RecordSession(d, s, u, r).sessions + |OutSet(d, RecordSession(d, s, u, r))|
  {
    hide Settle, AfterSession;
    var c := AfterSession(d.units[u], s.cells[u], r);
    var s' := Resolved(d, s, u, c, !r.error).(sessions := s.sessions + 1);
    SettleOut(d, s', u);
    assert OutSet(d, s') <= OutSet(d, s) - {u};
    SubsetSize(OutSet(d, RecordSession(d, s, u, r)), OutSet(d, s) - {u});
  }

  lemma RecordCallOut(d: Doc, s: State, u: nat, ok: bool)
    requires Fits(d, s) && u < |d.units|
    ensures OutSet(d, RecordCall(d, s, u, ok)) <= OutSet(d, s)
  {
    hide Settle, AfterCall;
    var s' := Resolved(d, s, u, AfterCall(d.units[u], s.cells[u], ok), ok);
    SettleOut(d, s', u);
    assert OutSet(d, s') <= OutSet(d, s);
  }

  lemma StartCallOut(env: Env, f: Files, t: Token, rf: RunFile, u: nat)
    requires Loaded(rf) && u < |rf.doc.units| && ExpectedNode(rf.doc, rf.state, u).activity.Call?
    ensures OutSet(rf.doc, StartCall(env, f, t, rf, u).1.state) <= OutSet(rf.doc, rf.state)
  {
    hide RecordCall;
    var node := ExpectedNode(rf.doc, rf.state, u);
    RecordCallOut(rf.doc, Paid(rf.state), u, MayStart(env, f, t, rf, node));
  }

  lemma {:induction false} SweepOut(env: Env, f: Files, t: Token, rf: RunFile, u: nat)
    requires Minds(f, t, rf) && u <= |rf.doc.units|
    ensures Loaded(rf)
    ensures OutSet(rf.doc, Sweep(env, f, t, rf, u).1.state) <= OutSet(rf.doc, rf.state)
    decreases |rf.doc.units| - u
  {
    hide *;
    MindLoaded(f, t, rf);
    SweepNext(env, f, t, rf, u);
    LoadedFits(Sweep(env, f, t, rf, u).1);
    if u < |rf.doc.units| {
      SweepUnitMinds(env, f, t, rf, u);
      var step := SweepUnit(env, f, t, rf, u);
      LoadedFits(step.1);
      if step.1 != rf {
        var ok :| step.1.state == RecordCall(rf.doc, rf.state, u, ok);
        RecordCallOut(rf.doc, rf.state, u, ok);
      }
      SweepOut(env, step.0, t, step.1, u + 1);
    }
  }

  lemma {:induction false} CallPassOut(env: Env, f: Files, t: Token, rf: RunFile, frontier: seq<nat>, k: nat)
    requires Loaded(rf) && k <= |frontier| && Within(rf.doc, frontier)
    ensures OutSet(rf.doc, CallPass(env, f, t, rf, frontier, k).1.state) <= OutSet(rf.doc, rf.state)
    decreases |frontier| - k
  {
    hide OutSet, StartCall, Shaped;
    if k < |frontier| {
      var u := frontier[k];
      if ExpectedNode(rf.doc, rf.state, u).activity.Call? &&
         !rf.state.cells[u].status.Dispatched? && rf.state.sessions < rf.doc.maxSessions {
        var step := StartCall(env, f, t, rf, u);
        StartCallOut(env, f, t, rf, u);
        CallPassOut(env, step.0, t, step.1, frontier, k + 1);
      } else {
        CallPassOut(env, f, t, rf, frontier, k + 1);
      }
    }
  }

  lemma {:induction false} MembersSize(s: seq<nat>)
    ensures |Members(s)| <= |s|
  {
    if s != [] {
      MembersPop(s);
      MembersSize(s[..|s| - 1]);
    }
  }

  lemma {:induction false} UnionSize(a: set<nat>, b: set<nat>)
    ensures |a + b| <= |a| + |b|
  {
    if b != {} {
      var x :| x in b;
      UnionSize(a, b - {x});
      assert a + b == (a + (b - {x})) + {x};
    }
  }

  /** A batch is no larger than the budget that is left, and with none left nothing new goes out. */
  lemma EmitOut(d: Doc, s: State, steps: seq<nat>, n: int)
    requires Fits(d, s) && Within(d, steps)
    ensures
      var r := Emit(d, s, Chosen(d, s, steps, n));
      r.sessions + |OutSet(d, r)| <= Max(d.maxSessions, s.sessions) + |OutSet(d, s)|
  {
    var chosen := Chosen(d, s, steps, n);
    var r := Emit(d, s, chosen);
    assert OutSet(d, r) <= OutSet(d, s) + Members(chosen);
    if s.sessions < d.maxSessions {
      MembersSize(chosen);
      UnionSize(OutSet(d, s), Members(chosen));
      SubsetSize(OutSet(d, r), OutSet(d, s) + Members(chosen));
    } else {
      forall u | u in OutSet(d, r) ensures u in OutSet(d, s) {
        if u in chosen {
          ReclaimsDispatched(s, steps, u);
        }
      }
      SubsetSize(OutSet(d, r), OutSet(d, s));
    }
  }

  lemma {:induction false} ReclaimsDispatched(s: State, steps: seq<nat>, u: nat)
    requires (forall i: nat | i < |steps| :: steps[i] < |s.cells|) && u in Reclaims(s, steps)
    ensures u < |s.cells| && s.cells[u].status.Dispatched?
  {
    var i: nat :| i < |Reclaims(s, steps)| && Reclaims(s, steps)[i] == u;
  }

  /** A pick overshoots the cap by no more than the batch that was still out when it was made. */
  lemma {:induction false} PickWithinCap(env: Env, f: Files, t: Token, rf: RunFile, n: int)
    requires Sound(env) && Minds(f, t, rf) && rf.state.sessions <= rf.doc.maxSessions
    ensures Loaded(rf)
    ensures var (_, answer, end) := Pick(env, f, t, rf, n);
            && end.state.sessions <= rf.doc.maxSessions
            && end.state.sessions + |OutSet(rf.doc, end.state)| <= rf.doc.maxSessions + |OutSet(rf.doc, rf.state)|
    decreases rf.doc.maxSessions - rf.state.sessions
  {
    hide *;
    var d := rf.doc;
    MindLoaded(f, t, rf);
    PickForms(env, f, t, rf, n);
    SweepMinds(env, f, t, rf, 0);
    SweepOut(env, f, t, rf, 0);
    var (f1, rf1) := Sweep(env, f, t, rf, 0);
    LoadedFits(rf1);
    SubsetSize(OutSet(d, rf1.state), OutSet(d, rf.state));
    var frontier := Candidates(d, rf1.state, 0);
    CallPassOut(env, f1, t, rf1, frontier, 0);
    CallPassMinds(env, f1, t, rf1, frontier, 0);
    var pass := CallPass(env, f1, t, rf1, frontier, 0);
    LoadedFits(pass.1);
    SubsetSize(OutSet(d, pass.1.state), OutSet(d, rf1.state));
    EmitOut(d, pass.1.state, pass.2, n);
    EmitSessions(d, pass.1.state, Chosen(d, pass.1.state, pass.2, n));
    MaxForms(d.maxSessions, pass.1.state.sessions);
    var chosen := Chosen(d, pass.1.state, pass.2, n);
    var rf3 := pass.1.(state := Emit(d, pass.1.state, chosen));
    EmitMinds(pass.0, t, pass.1, chosen);
    if !(rf1.state.sessions >= d.maxSessions && !AnyDispatched(rf1.state)) && frontier != [] && chosen == [] &&
       !AnyDispatched(rf3.state) {
      NothingOut(d, rf3.state);
      PickWithinCap(env, Saved(pass.0, t, rf3), t, rf3, n);
    }
    LoadedFits(Pick(env, f, t, rf, n).2);
  }

  lemma EmitSessions(d: Doc, s: State, chosen: seq<nat>)
    requires Fits(d, s)
    ensures Emit(d, s, chosen).sessions == s.sessions
  {
  }

  lemma MaxForms(a: int, b: int)
    ensures Max(a, b) == if a < b then b else a
  {
  }

  lemma NothingOut(d: Doc, s: State)
    requires Fits(d, s) && !AnyDispatched(s)
    ensures OutSet(d, s) == {}
  {
  }

  // --------------------------------------------------------------- what a pick does to other runs

  /** Every other run is untouched or just begun. */
  ghost predicate OthersKept(f: Files, f': Files, t: Token) {
    forall q | q in f'.runs && q != t ::
      (q in f.runs && f'.runs[q] == f.runs[q]) || f'.runs[q].state == Init(f'.runs[q].doc)
  }

  lemma StartCallOthers(env: Env, f: Files, t: Token, rf: RunFile, u: nat)
    requires Loaded(rf) && u < |rf.doc.units| && ExpectedNode(rf.doc, rf.state, u).activity.Call?
    ensures OthersKept(f, StartCall(env, f, t, rf, u).0, t)
  {
    hide RecordCall;
  }

  lemma {:induction false} SweepOthers(env: Env, f: Files, t: Token, rf: RunFile, u: nat)
    requires Loaded(rf) && u <= |rf.doc.units|
    ensures OthersKept(f, Sweep(env, f, t, rf, u).0, t)
    decreases |rf.doc.units| - u
  {
    hide StartCall, RecordCall;
    if u < |rf.doc.units| {
      var step := SweepUnit(env, f, t, rf, u);
      if Waits(rf.state, u) {
        var cleared := rf.state.(cells := rf.state.cells[u := rf.state.cells[u].(child := None)]);
        StartCallOthers(env, f, t, rf.(state := cleared), u);
      }
      SweepOthers(env, step.0, t, step.1, u + 1);
    }
  }

  lemma {:induction false} CallPassOthers(env: Env, f: Files, t: Token, rf: RunFile, frontier: seq<nat>, k: nat)
    requires Loaded(rf) && k <= |frontier| && Within(rf.doc, frontier)
    ensures OthersKept(f, CallPass(env, f, t, rf, frontier, k).0, t)
    decreases |frontier| - k
  {
    hide StartCall;
    if k < |frontier| {
      var u := frontier[k];
      if ExpectedNode(rf.doc, rf.state, u).activity.Call? &&
         !rf.state.cells[u].status.Dispatched? && rf.state.sessions < rf.doc.maxSessions {
        var step := StartCall(env, f, t, rf, u);
        StartCallOthers(env, f, t, rf, u);
        CallPassOthers(env, step.0, t, step.1, frontier, k + 1);
      } else {
        CallPassOthers(env, f, t, rf, frontier, k + 1);
      }
    }
  }

  /** A pick leaves other runs alone, and leaves its own as it stood when it answered, or gone. */
  lemma {:induction false} PickOthers(env: Env, f: Files, t: Token, rf: RunFile, n: int)
    requires Loaded(rf)
    ensures var (f', answer, end) := Pick(env, f, t, rf, n);
            && OthersKept(f, f', t)
            && (answer.Steps? || answer.Waiting? ==> t in f'.runs && f'.runs[t] == end)
            && (answer.Done? ==> t !in f'.runs)
    decreases Max(0, rf.doc.maxSessions - rf.state.sessions)
  {
    hide Sweep, CallPass, Candidates, Chosen, AnyDispatched, AnyPending, WalkOutcome;
    var d := rf.doc;
    SweepOthers(env, f, t, rf, 0);
    var (f1, rf1) := Sweep(env, f, t, rf, 0);
    if !(rf1.state.sessions >= d.maxSessions && !AnyDispatched(rf1.state)) {
      var frontier := Candidates(d, rf1.state, 0);
      if frontier != [] {
        CallPassOthers(env, f1, t, rf1, frontier, 0);
        var (f2, rf2, steps) := CallPass(env, f1, t, rf1, frontier, 0);
        var chosen := Chosen(d, rf2.state, steps, n);
        var rf3 := rf2.(state := Emit(d, rf2.state, chosen));
        if chosen == [] && !AnyDispatched(rf3.state) {
          ReentryProgress(env, f, t, rf, n);
          PickOthers(env, Saved(f2, t, rf3), t, rf3, n);
        }
      }
    }
  }

  // ------------------------------------------------------------------------ disciplined executions

  /** The driver picks a run only when no session of it is out. */
  ghost predicate Disciplined(w: Files, e: Event) {
    e.PickRun? && e.t in w.runs && Loaded(w.runs[e.t]) ==> OutSet(w.runs[e.t].doc, w.runs[e.t].state) == {}
  }

  ghost predicate AllWithinCap(w: Files) {
    forall t | t in w.runs :: WithinCap(w.runs[t].doc, w.runs[t].state)
  }

  lemma PickRunWithinCap(w: Files, env: Env, t: Token, n: int)
    requires Sound(env) && AllSane(w) && AllMind(w) && AllWithinCap(w) && t in w.runs
    requires Loaded(w.runs[t]) && OutSet(w.runs[t].doc, w.runs[t].state) == {}
    requires !Pick(env, w, t, w.runs[t], n).1.WalkStalled?
    requires AllLoaded(Pick(env, w, t, w.runs[t], n).0)
    ensures AllWithinCap(Pick(env, w, t, w.runs[t], n).0)
  {
    hide AllSane, AllMind, Minds, Pick, Valid, OutSet, RestMind;
    var rf := w.runs[t];
    assert WithinCap(rf.doc, rf.state);
    MindAt(w, t);
    PickWithinCap(env, w, t, rf, n);
    PickOthers(env, w, t, rf, n);
    PickAnswers(env, w, t, n);
    var w' := Pick(env, w, t, rf, n).0;
    forall q | q in w'.runs ensures WithinCap(w'.runs[q].doc, w'.runs[q].state) {
      if q != t && w'.runs[q].state == Init(w'.runs[q].doc) {
        NothingOut(w'.runs[q].doc, w'.runs[q].state);
      }
    }
  }

  lemma RecordWithinCap(w: Files, t: Token, id: string, res: Result)
    requires AllWithinCap(w) && t in w.runs && Loaded(w.runs[t]) && Handed(w.runs[t].doc, w.runs[t].state, id)
    ensures AllWithinCap(Record(w, t, w.runs[t], id, res).0)
  {
    hide RecordSession, OutSet, AfterRecord;
    var rf := w.runs[t];
    assert WithinCap(rf.doc, rf.state);
    match Recorder(rf.doc, rf.state, id, 0)
    case None =>
    case Some(u) =>
      if res.Retry? {
        ReleaseOut(rf.doc, rf.state, u);
      } else {
        RecordSessionOut(rf.doc, rf.state, u, res.report);
      }
  }

  lemma ReleaseOut(d: Doc, s: State, u: nat)
    requires Fits(d, s) && u < |d.units|
    ensures |OutSet(d, SetStatus(s, u, Pending))| <= |OutSet(d, s)|
  {
    SubsetSize(OutSet(d, SetStatus(s, u, Pending)), OutSet(d, s));
  }

  ghost predicate AllDisciplined(es: seq<Event>) {
    forall i: nat | i < |es| :: Disciplined(Exec(es[..i]), es[i])
  }

  lemma DisciplinedFront(es: seq<Event>)
    requires AllDisciplined(es) && es != []
    ensures AllDisciplined(es[..|es| - 1]) && Disciplined(Exec(es[..|es| - 1]), es[|es| - 1])
  {
    hide Disciplined;
    var front := es[..|es| - 1];
    forall i: nat | i < |front| ensures Disciplined(Exec(front[..i]), front[i]) {
      assert front[..i] == es[..i] && front[i] == es[i];
    }
  }

  lemma BeginWithinCap(w: Files, e: Event)
    requires AllWithinCap(w) && e.Begin? && AllLoaded(Step(w, e))
    ensures AllWithinCap(Step(w, e))
  {
    hide Valid, OutSet, WithinCap, Started;
    NothingOutAtStart(Started(e.doc));
  }

  lemma PickEventWithinCap(w: Files, e: Event)
    requires AllSane(w) && AllMind(w) && AllWithinCap(w) && e.PickRun? && AllLoaded(Step(w, e))
    requires Disciplined(w, e) && Unstalled(w, e)
    ensures AllWithinCap(Step(w, e))
  {
    hide AllSane, AllMind, AllWithinCap, AllLoaded, Pick, OutSet, Sound, Fits;
    if e.t in w.runs && Loaded(w.runs[e.t]) && Sound(e.env) {
      PickRunWithinCap(w, e.env, e.t, e.n);
    }
  }

  lemma RecordEventWithinCap(w: Files, e: Event)
    requires AllWithinCap(w) && e.RecordRun?
    ensures AllWithinCap(Step(w, e))
  {
    hide AllWithinCap, Record, Handed, Fits;
    if e.t in w.runs && Loaded(w.runs[e.t]) && Handed(w.runs[e.t].doc, w.runs[e.t].state, e.id) {
      RecordWithinCap(w, e.t, e.id, e.res);
    }
  }

  lemma StepWithinCap(w: Files, e: Event)
    requires AllSane(w) && AllMind(w) && AllWithinCap(w) && AllSane(Step(w, e))
    requires Disciplined(w, e) && Unstalled(w, e)
    ensures AllWithinCap(Step(w, e))
  {
    hide *;
    SaneLoaded(Step(w, e));
    if e.Begin? {
      BeginWithinCap(w, e);
    } else if e.PickRun? {
      PickEventWithinCap(w, e);
    } else {
      RecordEventWithinCap(w, e);
    }
  }

  lemma SaneLoaded(w: Files)
    requires AllSane(w)
    ensures AllLoaded(w)
  {
    hide Valid, Safe;
  }

  /** Over every disciplined execution in which no pick is refused for a stall, no run ever spends or hands out
      more sessions than its cap, calls included, in whatever way its back-edges and calls meet. */
  lemma {:induction false} CapHolds(es: seq<Event>)
    requires AllDisciplined(es) && NeverStalls(es)
    ensures AllWithinCap(Exec(es))
  {
    hide *;
    if es == [] {
      NobodyOut();
    } else {
      var front, e := es[..|es| - 1], es[|es| - 1];
      DisciplinedFront(es);
      NeverStallsFront(es);
      CapHolds(front);
      ExecSane(front);
      ExecSane(es);
      ExecMinds(front);
      LastStep(es);
      StepWithinCap(Exec(front), e);
    }
  }

  lemma LastStep(es: seq<Event>)
    requires es != []
    ensures Exec(es) == Step(Exec(es[..|es| - 1]), es[|es| - 1])
  {
  }

  lemma NobodyOut()
    ensures AllWithinCap(Exec([]))
  {
  }

  /** Where no frontier can go stale, the discipline alone is enough. */
  lemma CapHoldsWhereSafe(es: seq<Event>)
    requires AllDisciplined(es) && forall i: nat | i < |es| :: Brings((d: Doc) => Safe(d), es[i])
    ensures AllWithinCap(Exec(es))
  {
    SafeNeverStalls(es);
    CapHolds(es);
  }

  lemma NothingOutAtStart(d: Doc)
    ensures Shaped(d) ==> WithinCap(d, Init(d))
  {
    if Shaped(d) {
      NothingOut(d, Init(d));
    }
  }
}
