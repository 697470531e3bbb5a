/** What a call comes to. */
module CallResults {
  // From the end of a child run to the line that its parent writes for the call: over every execution, the
  // call is booked as a success exactly when the child's run was one.

  import opened Documents
  import opened Validator
  import opened WalkState
  import opened Dispatch
  import opened Machine
  import opened Runs
  import opened Endings

  // ------------------------------------------------------------------------- what a run leaves alone

  /** From the files f to the files g only run t acted: no other run went, and of the children of other runs none
      came, and no word of one came, went or changed. */
  ghost predicate Around(f: Files, g: Files, t: Token) {
    && (forall q | q in f.runs && q != t :: q in g.runs)
    && forall q: Token | q.Sub? && q.parent != t && q != t ::
         && (q in g.runs ==> q in f.runs)
         && (q in g.parked <==> q in f.parked)
         && (q in f.parked ==> g.parked[q] == f.parked[q])
  }

  /** Nor did its own state file go. */
  ghost predicate Alongside(f: Files, g: Files, t: Token) { Around(f, g, t) && (t in f.runs ==> t in g.runs) }

  lemma WithinTrans(f: Files, g: Files, h: Files, t: Token)
    requires Alongside(f, g, t)
    ensures Around(g, h, t) ==> Around(f, h, t)
    ensures Alongside(g, h, t) ==> Alongside(f, h, t)
  {
  }

  lemma StartCallAround(env: Env, f: Files, t: Token, rf: RunFile, u: nat)
    requires Loaded(rf) && u < |rf.doc.units| && ExpectedNode(rf.doc, rf.state, u).activity.Call?
    ensures Alongside(f, StartCall(env, f, t, rf, u).0, t)
  {
    hide RecordCall, MayStart, NewRun;
  }

  lemma OwnAt(t: Token, d: Doc, s: State, u: nat)
    requires Shaped(d) && Fits(d, s) && Led(t, d, s) && u < |d.units| && s.cells[u].child.Some?
    ensures s.cells[u].child.value == Sub(t, ExpectedNode(d, s, u).id)
  {
    hide Walked;
    var ms :| s == Walked(t, d, ms);
    WalkedOwn(t, d, ms);
  }

  lemma FitsShaped(d: Doc, s: State)
    requires Fits(d, s)
    ensures Shaped(d)
  {
  }

  lemma SweepUnitAround(env: Env, f: Files, t: Token, rf: RunFile, u: nat)
    requires Loaded(rf) && Led(t, rf.doc, rf.state) && u < |rf.doc.units|
    ensures Alongside(f, SweepUnit(env, f, t, rf, u).0, t)
  {
    hide RecordCall, StartCall, Led, Shaped;
    if Waits(rf.state, u) {
      FitsShaped(rf.doc, rf.state);
      OwnAt(t, rf.doc, rf.state, u);
      if rf.state.cells[u].child.value !in f.parked {
        var cleared := rf.state.(cells := rf.state.cells[u := rf.state.cells[u].(child := None)]);
        StartCallAround(env, f, t, rf.(state := cleared), u);
      }
    }
  }

  lemma {:induction false} SweepAround(env: Env, f: Files, t: Token, rf: RunFile, u: nat)
    requires AllLed(f) && Loaded(rf) && Led(t, rf.doc, rf.state) && u <= |rf.doc.units|
    ensures Alongside(f, Sweep(env, f, t, rf, u).0, t)
    decreases |rf.doc.units| - u
  {
    hide *;
    SweepNext(env, f, t, rf, u);
    if u < |rf.doc.units| {
      var step := SweepUnit(env, f, t, rf, u);
      SweepUnitAround(env, f, t, rf, u);
      SweepUnitLed(env, f, t, rf, u);
      SweepAround(env, step.0, t, step.1, u + 1);
      WithinTrans(f, step.0, Sweep(env, step.0, t, step.1, u + 1).0, t);
    } else {
      WithinSelf(f, t);
    }
  }

  lemma WithinSelf(f: Files, t: Token)
    ensures Alongside(f, f, t)
  {
  }

  lemma {:induction false} CallPassAround(env: Env, f: Files, t: Token, rf: RunFile, frontier: seq<nat>, k: nat)
    requires Loaded(rf) && k <= |frontier| && Within(rf.doc, frontier)
    ensures Alongside(f, CallPass(env, f, t, rf, frontier, k).0, t)
    decreases |frontier| - k
  {
    hide Alongside, StartCall, CallPass;
    if k == |frontier| {
      PassEmpty(env, f, t, rf, frontier, k);
      WithinSelf(f, t);
    } else {
      CallPassNext(env, f, t, rf, frontier, k);
      var u := frontier[k];
      if ExpectedNode(rf.doc, rf.state, u).activity.Call? &&
         !rf.state.cells[u].status.Dispatched? && rf.state.sessions < rf.doc.maxSessions {
        var step := StartCall(env, f, t, rf, u);
        StartCallAround(env, f, t, rf, u);
        CallPassAround(env, step.0, t, step.1, frontier, k + 1);
        WithinTrans(f, step.0, CallPass(env, step.0, t, step.1, frontier, k + 1).0, t);
      } else {
        CallPassAround(env, f, t, rf, frontier, k + 1);
      }
    }
  }

  lemma SavedAround(f: Files, g: Files, t: Token, rf: RunFile)
    requires Alongside(f, g, t)
    ensures Alongside(f, Saved(g, t, rf), t) && t in Saved(g, t, rf).runs
  {
  }

  /** The end of a run leaves word with its outcome, and takes the state file away. */
  ghost predicate LeavesWord(f: Files, g: Files, t: Token, o: Outcome) {
    Around(f, g, t) && t !in g.runs && (t.Sub? ==> t in g.parked && (g.parked[t] <==> o == RunSuccess))
  }

  lemma FinishedLeaves(f: Files, g: Files, t: Token, o: Outcome)
    requires Alongside(f, g, t)
    ensures LeavesWord(f, Finished(g, t, o), t, o)
  {
  }

  lemma LeavesLater(f: Files, g: Files, h: Files, t: Token)
    requires Alongside(f, g, t)
    ensures forall o | LeavesWord(g, h, t, o) :: LeavesWord(f, h, t, o)
  {
  }

  lemma {:induction false} PickAround(env: Env, f: Files, t: Token, rf: RunFile, n: int)
    requires AllLed(f) && Loaded(rf) && Led(t, rf.doc, rf.state)
    ensures var (f', answer, _) := Pick(env, f, t, rf, n);
            if answer.Done? then LeavesWord(f, f', t, answer.outcome) else Alongside(f, f', t)
    decreases rf.doc.maxSessions - rf.state.sessions
  {
    hide *;
    PickForms(env, f, t, rf, n);
    SweepAround(env, f, t, rf, 0);
    SweepLed(env, f, t, rf, 0);
    var (f1, rf1) := Sweep(env, f, t, rf, 0);
    LoadedFits(rf1);
    FinishedLeaves(f, f1, t, RunCapped);
    FinishedLeaves(f, f1, t, WalkOutcome(rf.doc, rf1.state));
    var frontier := Candidates(rf.doc, rf1.state, 0);
    FrontierUnrun(rf.doc, rf1.state);
    CallPassAround(env, f1, t, rf1, frontier, 0);
    CallPassLed(env, f1, t, rf1, frontier, 0);
    var pass := CallPass(env, f1, t, rf1, frontier, 0);
    WithinTrans(f, f1, pass.0, t);
    LoadedFits(pass.1);
    EmitLed(t, rf.doc, pass.1.state, pass.2, n);
    var chosen := Chosen(rf.doc, pass.1.state, pass.2, n);
    var rf3 := pass.1.(state := Emit(rf.doc, pass.1.state, chosen));
    LoadedFits(rf3);
    SavedLed(pass.0, t, rf3);
    SavedAround(f, pass.0, t, rf3);
    if !(rf1.state.sessions >= rf.doc.maxSessions && !AnyDispatched(rf1.state)) && frontier != [] &&
       chosen == [] && !AnyDispatched(rf3.state) {
      var g := Saved(pass.0, t, rf3);
      PickAround(env, g, t, rf3, n);
      var h := Pick(env, g, t, rf3, n).0;
      WithinTrans(f, g, h, t);
      LeavesLater(f, g, h, t);
    }
  }

  lemma RecordAround(f: Files, t: Token, rf: RunFile, id: string, res: Result)
    requires Loaded(rf) && Handed(rf.doc, rf.state, id)
    ensures var (f', answer) := Record(f, t, rf, id, res);
            if answer.Recorded? && answer.verdict.Finish? then LeavesWord(f, f', t, answer.verdict.outcome)
            else Alongside(f, f', t)
  {
    hide RecordSession, AfterRecord, Recorder, SetStatus;
  }

  // --------------------------------------------------------------------------------- how a run ended

  /** How, and in which state, event e ends run t, if it does. */
  ghost function EndOf(w: Files, e: Event, t: Token): Option<(Outcome, State)> {
    if t !in w.runs || !Loaded(w.runs[t]) then None
    else
      var rf := w.runs[t];
      match e
      case Begin(_, _, _) => None
      case PickRun(env, q, n) =>
        if q == t && Sound(env) && Pick(env, w, t, rf, n).1.Done?
        then Some((Pick(env, w, t, rf, n).1.outcome, Pick(env, w, t, rf, n).2.state)) else None
      case RecordRun(q, id, res) =>
        if q == t && Handed(rf.doc, rf.state, id) && res.Ended? && Recorder(rf.doc, rf.state, id, 0).Some? then
          var s := RecordSession(rf.doc, rf.state, Recorder(rf.doc, rf.state, id, 0).value, res.report);
          if AfterRecord(rf.doc, s).Finish? then Some((AfterRecord(rf.doc, s).outcome, s)) else None
        else None
  }

  lemma LedAround(w: Files, e: Event, t: Token)
    requires AllLed(w) && t.Sub? && t in w.runs
    ensures EndOf(w, e, t).Some? ==> LeavesWord(w, Step(w, e), t, EndOf(w, e, t).value.0)
    ensures EndOf(w, e, t).None? ==> t in Step(w, e).runs
  {
    hide Led, Pick, Record, RecordSession, AfterRecord, Fits, Valid;
    match e
    case Begin(_, _, _) =>
    case PickRun(env, q, n) =>
      if q in w.runs && Loaded(w.runs[q]) && Sound(env) {
        PickAround(env, w, q, w.runs[q], n);
      }
    case RecordRun(q, id, res) =>
      if q in w.runs && Loaded(w.runs[q]) && Handed(w.runs[q].doc, w.runs[q].state, id) {
        RecordAround(w, q, w.runs[q], id, res);
        RecordForms(w, q, w.runs[q], id, res);
      }
  }

  lemma RecordForms(f: Files, t: Token, rf: RunFile, id: string, res: Result)
    requires Loaded(rf) && Handed(rf.doc, rf.state, id)
    ensures var answer := Record(f, t, rf, id, res).1;
            var who := Recorder(rf.doc, rf.state, id, 0);
            answer.Recorded? && answer.verdict.Finish? <==>
              && who.Some? && res.Ended?
              && AfterRecord(rf.doc, RecordSession(rf.doc, rf.state, who.value, res.report)).Finish?
    ensures var answer := Record(f, t, rf, id, res).1;
            var who := Recorder(rf.doc, rf.state, id, 0);
            who.Some? && res.Ended? ==>
              answer == Recorded(AfterRecord(rf.doc, RecordSession(rf.doc, rf.state, who.value, res.report)))
  {
    hide RecordSession, AfterRecord, Recorder;
  }

  /** Every end of a run leaves word with its outcome, and that outcome says what the run's last state says. */
  lemma EndIsFaithful(es: seq<Event>, e: Event, t: Token)
    requires t.Sub? && t in Exec(es).runs
    ensures var w := Exec(es);
            var rf := w.runs[t];
            && Loaded(rf)
            && (t in Step(w, e).runs <==> EndOf(w, e, t).None?)
            && (EndOf(w, e, t).Some? ==>
                  var (o, s) := EndOf(w, e, t).value;
                  LeavesWord(w, Step(w, e), t, o) && Fits(rf.doc, s) && Faithful(rf.doc, s, o))
  {
    hide Exec, Step, Led, Pick, RecordSession, AfterRecord, Faithful, Valid, Recorder;
    ExecLed(es);
    RunsLed(es, t);
    LedAround(Exec(es), e, t);
    match e
    case Begin(_, _, _) =>
    case PickRun(env, q, n) => EveryEndingFaithful(es, t, env, n, "", Report(false, false, None));
    case RecordRun(q, id, res) =>
      EveryEndingFaithful(es, t, Env(map[], {}), 0, id, if res.Ended? then res.report else Report(false, false, None));
  }

  // ------------------------------------------------------------------------------- word waits to be read

  lemma RecordAlone(f: Files, t: Token, rf: RunFile, id: string, res: Result, q: Token)
    requires Loaded(rf) && Handed(rf.doc, rf.state, id) && q != t
    ensures var g := Record(f, t, rf, id, res).0;
            (q in g.runs <==> q in f.runs) && (q in g.parked <==> q in f.parked) && (q in f.parked ==> g.parked[q] == f.parked[q])
  {
    hide RecordSession, AfterRecord, Recorder, SetStatus;
  }

  /** Word of a child that is gone stays as it is, whatever happens but a pick of its parent. */
  lemma StepKeepsWord(w: Files, e: Event, c: Token)
    requires AllLed(w) && c.Sub? && c !in w.runs && c in w.parked && !(e.PickRun? && e.t == c.parent)
    ensures c !in Step(w, e).runs && c in Step(w, e).parked && Step(w, e).parked[c] == w.parked[c]
  {
    hide Led, Pick, Record, Fits, Valid;
    match e
    case Begin(_, _, _) =>
    case PickRun(env, q, n) =>
      if q in w.runs && Loaded(w.runs[q]) && Sound(env) {
        PickAround(env, w, q, w.runs[q], n);
      }
    case RecordRun(q, id, res) =>
      if q in w.runs && Loaded(w.runs[q]) && Handed(w.runs[q].doc, w.runs[q].state, id) {
        RecordAlone(w, q, w.runs[q], id, res, c);
      }
  }

  /** No event is a pick of run t. */
  predicate NoPickOf(es: seq<Event>, t: Token) { forall k | 0 <= k < |es| :: !(es[k].PickRun? && es[k].t == t) }

  lemma {:induction false} WordStays(es: seq<Event>, fs: seq<Event>, c: Token)
    requires c.Sub? && c !in Exec(es).runs && c in Exec(es).parked && NoPickOf(fs, c.parent)
    ensures c !in Exec(es + fs).runs && c in Exec(es + fs).parked && Exec(es + fs).parked[c] == Exec(es).parked[c]
    decreases |fs|
  {
    hide Step, AllLed;
    if fs == [] {
      assert es + fs == es;
    } else {
      var front, last := fs[..|fs| - 1], fs[|fs| - 1];
      WordStays(es, front, c);
      ExecLed(es + front);
      assert (es + fs)[..|es + fs| - 1] == es + front;
      StepKeepsWord(Exec(es + front), last, c);
    }
  }

  // ---------------------------------------------------------------------------- the parent reads the word

  /** Counters only grew. */
  ghost predicate CountsGrow(s: State, s': State) { forall a: nat, b: nat :: Bounces(s, a, b) <= Bounces(s', a, b) }

  /** Some back-edge was taken. */
  ghost predicate Bounced(s: State, s': State) { exists a: nat, b: nat :: Bounces(s, a, b) < Bounces(s', a, b) }

  /** Counters only grew, and a unit that was out is as it was unless a back-edge was taken. */
  ghost predicate OutKept(s: State, s': State, u: nat) {
    && u < |s.cells| == |s'.cells| && CountsGrow(s, s')
    && (s.cells[u].status == Dispatched ==> s'.cells[u] == s.cells[u] || Bounced(s, s'))
  }

  lemma SettleKeepsOut(d: Doc, s: State, u: nat, v: nat)
    requires Fits(d, s) && u < |d.units| && v < |d.units|
    ensures OutKept(s, Settle(d, s, u), v)
  {
    hide Skips;
    if Ran(s.cells[u].status) {
      var m := Bounce(d, s, u);
      SkipsOnlyPending(d, m, v);
      assert Skips(d, m).bounces == m.bounces by { SkipsKeepCounts(d, m); }
      if Firing(d, s, u, 0).Some? {
        var target := d.edges[Firing(d, s, u, 0).value].dst;
        assert Bounces(s, u, target) < Bounces(m, u, target);
        assert Bounces(s, u, target) < Bounces(Skips(d, m), u, target);
      }
    }
  }

  lemma SkipsKeepCounts(d: Doc, s: State)
    requires Fits(d, s)
    ensures Skips(d, s).bounces == s.bounces
  {
  }

  lemma RecordCallKeepsOut(d: Doc, s: State, u: nat, ok: bool, v: nat)
    requires Fits(d, s) && u < |d.units| && v < |d.units| && v != u
    ensures OutKept(s, RecordCall(d, s, u, ok), v)
    ensures var r := RecordCall(d, s, u, ok).done;
            |r| == |s.done| + 1 && r[..|s.done|] == s.done && r[|s.done|].unit == u && r[|s.done|].ok == ok
  {
    hide Settle, AfterCall;
    SettleKeepsOut(d, Resolved(d, s, u, AfterCall(d.units[u], s.cells[u], ok), ok), u, v);
  }

  lemma OutKeptTrans(a: State, b: State, c: State)
    requires CountsGrow(a, b) && CountsGrow(b, c)
    ensures CountsGrow(a, c) && (Bounced(a, b) || Bounced(b, c) ==> Bounced(a, c))
  {
    if x: nat, y: nat :| Bounces(a, x, y) < Bounces(b, x, y) {
      assert Bounces(a, x, y) < Bounces(c, x, y);
    }
    if x: nat, y: nat :| Bounces(b, x, y) < Bounces(c, x, y) {
      assert Bounces(a, x, y) < Bounces(c, x, y);
    }
  }

  /** b grew from a by lines of unit u alone. */
  ghost predicate LinesOf(a: seq<Entry>, b: seq<Entry>, u: nat) {
    a <= b && forall i: nat | |a| <= i < |b| :: b[i].unit == u
  }

  lemma StartCallKeepsOut(env: Env, f: Files, t: Token, rf: RunFile, u: nat, v: nat)
    requires Loaded(rf) && u < |rf.doc.units| && ExpectedNode(rf.doc, rf.state, u).activity.Call?
    requires v < |rf.doc.units| && v != u
    ensures var (g, rf') := StartCall(env, f, t, rf, u);
            g.parked == f.parked && OutKept(rf.state, rf'.state, v) && LinesOf(rf.state.done, rf'.state.done, u)
  {
    hide RecordCall, MayStart;
    RecordCallKeepsOut(rf.doc, Paid(rf.state), u, true, v);
    RecordCallKeepsOut(rf.doc, Paid(rf.state), u, false, v);
    PaidCounts(rf.state);
  }

  lemma PaidCounts(s: State)
    ensures Paid(s).cells == s.cells && Paid(s).done == s.done
    ensures forall a: nat, b: nat :: Bounces(Paid(s), a, b) == Bounces(s, a, b)
  {
  }

  /** The turn of unit u in the sweep, seen by a unit v with another node. */
  lemma SweepUnitKeepsOut(env: Env, f: Files, t: Token, rf: RunFile, u: nat, v: nat, c: Token)
    requires Loaded(rf) && Led(t, rf.doc, rf.state) && u < |rf.doc.units| && v < |rf.doc.units| && v != u
    requires c == Sub(t, ExpectedNode(rf.doc, rf.state, v).id) && c in f.parked
    ensures var (g, rf') := SweepUnit(env, f, t, rf, u);
            && c in g.parked && g.parked[c] == f.parked[c]
            && OutKept(rf.state, rf'.state, v) && LinesOf(rf.state.done, rf'.state.done, u)
  {
    hide RecordCall, StartCall, Led, Shaped;
    var d, s := rf.doc, rf.state;
    if Waits(s, u) {
      FitsShaped(d, s);
      OwnAt(t, d, s, u);
      var child := s.cells[u].child.value;
      if child == c {
        SameCall(d, s, u, v);
      }
      if child in f.parked {
        RecordCallKeepsOut(d, s, u, f.parked[child], v);
      } else if child !in f.runs {
        var cleared := s.(cells := s.cells[u := s.cells[u].(child := None)]);
        StartCallKeepsOut(env, f, t, rf.(state := cleared), u, v);
        assert forall a: nat, b: nat :: Bounces(cleared, a, b) == Bounces(s, a, b);
      }
    }
  }

  lemma RecordCallCounts(d: Doc, s: State, u: nat, ok: bool)
    requires Fits(d, s) && u < |d.units|
    ensures CountsGrow(s, RecordCall(d, s, u, ok))
    ensures s.done <= RecordCall(d, s, u, ok).done
  {
    hide Settle, AfterCall;
    var r := Resolved(d, s, u, AfterCall(d.units[u], s.cells[u], ok), ok);
    SettleKeepsOut(d, r, u, u);
  }

  lemma SweepUnitCounts(env: Env, f: Files, t: Token, rf: RunFile, u: nat)
    requires Loaded(rf) && u < |rf.doc.units|
    ensures CountsGrow(rf.state, SweepUnit(env, f, t, rf, u).1.state)
  {
    hide RecordCall, MayStart;
    var d, s := rf.doc, rf.state;
    if Waits(s, u) {
      RecordCallCounts(d, s, u, true);
      RecordCallCounts(d, s, u, false);
      var cleared := s.(cells := s.cells[u := s.cells[u].(child := None)]);
      RecordCallCounts(d, Paid(cleared), u, true);
      RecordCallCounts(d, Paid(cleared), u, false);
      PaidCounts(cleared);
      assert forall a: nat, b: nat :: Bounces(cleared, a, b) == Bounces(s, a, b);
    }
  }

  lemma {:induction false} SweepCounts(env: Env, f: Files, t: Token, rf: RunFile, u: nat)
    requires Loaded(rf) && u <= |rf.doc.units|
    ensures CountsGrow(rf.state, Sweep(env, f, t, rf, u).1.state)
    decreases |rf.doc.units| - u
  {
    SweepNext(env, f, t, rf, u);
    hide Sweep, SweepUnit;
    if u < |rf.doc.units| {
      SweepUnitCounts(env, f, t, rf, u);
      var step := SweepUnit(env, f, t, rf, u);
      SweepCounts(env, step.0, t, step.1, u + 1);
      OutKeptTrans(rf.state, step.1.state, Sweep(env, step.0, t, step.1, u + 1).1.state);
    }
  }

  /** b grew from a, and the first new line of unit u says ok. */
  ghost predicate FirstLine(a: seq<Entry>, b: seq<Entry>, u: nat, ok: bool) {
    a <= b && exists i: nat :: |a| <= i < |b| && b[i].unit == u && b[i].ok == ok && forall j: nat | |a| <= j < i :: b[j].unit != u
  }

  lemma FirstLineLater(a: seq<Entry>, b: seq<Entry>, c: seq<Entry>, v: nat, u: nat, ok: bool)
    requires LinesOf(a, b, v) && v != u && FirstLine(b, c, u, ok)
    ensures FirstLine(a, c, u, ok)
  {
    var i: nat :| |b| <= i < |c| && c[i].unit == u && c[i].ok == ok && forall j: nat | |b| <= j < i :: c[j].unit != u;
    forall j: nat | |a| <= j < i ensures c[j].unit != u {
      if j < |b| {
        assert c[j] == b[j];
      }
    }
  }

  lemma FirstLineStays(a: seq<Entry>, b: seq<Entry>, c: seq<Entry>, u: nat, ok: bool)
    requires FirstLine(a, b, u, ok) && b <= c
    ensures FirstLine(a, c, u, ok)
  {
  }

  /** The sweep of unit u, when its child has left word. */
  lemma SweepReads(env: Env, f: Files, t: Token, rf: RunFile, u: nat)
    requires Loaded(rf) && u < |rf.doc.units| && Waits(rf.state, u) && rf.state.cells[u].child.value in f.parked
    ensures FirstLine(rf.state.done, SweepUnit(env, f, t, rf, u).1.state.done, u, f.parked[rf.state.cells[u].child.value])
  {
    hide AfterCall;
    var ok := f.parked[rf.state.cells[u].child.value];
    var r := RecordCall(rf.doc, rf.state, u, ok);
    hide Settle;
    assert r.done[|rf.state.done|].unit == u && r.done[|rf.state.done|].ok == ok;
    assert SweepUnit(env, f, t, rf, u).1.state.done == r.done;
  }

  lemma {:induction false} SweepBooks(env: Env, f: Files, t: Token, rf: RunFile, v: nat, u: nat)
    requires AllLed(f) && Loaded(rf) && Led(t, rf.doc, rf.state) && v <= u < |rf.doc.units|
    requires Waits(rf.state, u) && rf.state.cells[u].child.value in f.parked
    ensures var s := Sweep(env, f, t, rf, v).1.state;
            FirstLine(rf.state.done, s.done, u, f.parked[rf.state.cells[u].child.value]) || Bounced(rf.state, s)
    decreases u - v
  {
    hide *;
    SweepNext(env, f, t, rf, v);
    LoadedFits(rf);
    WaitOwn(t, rf, u);
    var c := Sub(t, ExpectedNode(rf.doc, rf.state, u).id);
    var step := SweepUnit(env, f, t, rf, v);
    var last := Sweep(env, step.0, t, step.1, v + 1).1.state;
    LoadedFits(step.1);
    SweepUnitLed(env, f, t, rf, v);
    if v == u {
      SweepReads(env, f, t, rf, u);
      SweepGrows(env, step.0, t, step.1, u + 1);
      FirstLineStays(rf.state.done, step.1.state.done, last.done, u, f.parked[c]);
    } else {
      SweepUnitKeepsOut(env, f, t, rf, v, u, c);
      SweepCounts(env, step.0, t, step.1, v + 1);
      StillOut(rf.state, step.1.state, u);
      OutKeptTrans(rf.state, step.1.state, last);
      if !Bounced(rf.state, step.1.state) {
        SweepBooks(env, step.0, t, step.1, v + 1, u);
        if FirstLine(step.1.state.done, last.done, u, f.parked[c]) {
          FirstLineLater(rf.state.done, step.1.state.done, last.done, v, u, f.parked[c]);
        }
      }
    }
  }

  lemma WaitOwn(t: Token, rf: RunFile, u: nat)
    requires Loaded(rf) && Led(t, rf.doc, rf.state) && u < |rf.doc.units| && Waits(rf.state, u)
    ensures rf.state.cells[u].child.value == Sub(t, ExpectedNode(rf.doc, rf.state, u).id)
  {
    hide Led, Shaped;
    FitsShaped(rf.doc, rf.state);
    OwnAt(t, rf.doc, rf.state, u);
  }

  lemma StillOut(s: State, s': State, u: nat)
    requires OutKept(s, s', u) && Waits(s, u)
    ensures CountsGrow(s, s')
    ensures Bounced(s, s') || (u < |s'.cells| && s'.cells[u] == s.cells[u] && Waits(s', u))
  {
    hide Bounced, CountsGrow;
  }

  /** From the end of a child to the line its parent writes. Event e ends run Sub(t, id); then anything happens
      but a pick of t; then t, in which unit u waits for that child, is picked. The first line that the pick adds
      for u is a success if and only if the child ended as one, unless the sweep took a back-edge before it came
      to u. And the child ended as a success only if each of its failed units recovered. */
  lemma CallRecordsOutcome(es: seq<Event>, e: Event, fs: seq<Event>, t: Token, id: string, env: Env, n: int, u: nat)
    requires Sub(t, id) in Exec(es).runs && Sub(t, id) !in Exec(es + [e]).runs && NoPickOf(fs, t)
    requires var w := Exec(es + [e] + fs);
             && t in w.runs && u < |w.runs[t].doc.units| && u < |w.runs[t].state.cells|
             && w.runs[t].state.cells[u].status == Dispatched && w.runs[t].state.cells[u].child == Some(Sub(t, id))
    ensures EndOf(Exec(es), e, Sub(t, id)).Some?
    ensures var (o, s) := EndOf(Exec(es), e, Sub(t, id)).value;
            var d, w := Exec(es).runs[Sub(t, id)].doc, Exec(es + [e] + fs);
            && Fits(d, s) && Faithful(d, s, o)
            && Loaded(w.runs[t])
            && var before, after := w.runs[t].state, Pick(env, w, t, w.runs[t], n).2.state;
               FirstLine(before.done, after.done, u, o == RunSuccess) ||
               Bounced(before, Sweep(env, w, t, w.runs[t], 0).1.state)
  {
    hide *;
    var c := Sub(t, id);
    ExecLast(es, e);
    EndIsFaithful(es, e, c);
    var (o, s) := EndOf(Exec(es), e, c).value;
    LeftWord(Exec(es), Exec(es + [e]), c, o);
    WordStays(es + [e], fs, c);
    var w := Exec(es + [e] + fs);
    RunsLed(es + [e] + fs, t);
    ExecLed(es + [e] + fs);
    var rf := w.runs[t];
    LoadedFits(rf);
    WaitsIs(rf.state, u, c);
    SweepBooks(env, w, t, rf, 0, u);
    PickGrows(env, w, t, rf, n);
    var mid := Sweep(env, w, t, rf, 0).1.state;
    if FirstLine(rf.state.done, mid.done, u, w.parked[c]) {
      FirstLineStays(rf.state.done, mid.done, Pick(env, w, t, rf, n).2.state.done, u, w.parked[c]);
    }
  }

  lemma ExecLast(es: seq<Event>, e: Event)
    ensures Exec(es + [e]) == Step(Exec(es), e)
  {
    hide Step;
    assert (es + [e])[..|es + [e]| - 1] == es;
  }

  lemma LeftWord(f: Files, g: Files, c: Token, o: Outcome)
    requires c.Sub? && LeavesWord(f, g, c, o)
    ensures c !in g.runs && c in g.parked && (g.parked[c] <==> o == RunSuccess)
  {
  }

  lemma WaitsIs(s: State, u: nat, c: Token)
    requires u < |s.cells| && s.cells[u].status == Dispatched && s.cells[u].child == Some(c)
    ensures Waits(s, u) && s.cells[u].child.value == c
  {
  }
}
