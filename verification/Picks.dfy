/** What a pick does. */
module Picks {
  // A pick as the turns it gives to the units: first the sweep, then the call pass over the frontier, then the
  // batch that is handed out.

  import opened Counting
  import opened Documents
  import opened Validator
  import opened WalkState
  import opened Dispatch
  import opened Frontier
  import opened Records

  datatype At = At(files: Files, run: RunFile)

  // ------------------------------------------------------------------------------------ call starts

  /** The child of a call node may start: not deeper than three calls, no pipeline twice on the call path, a
      pipeline that resolves, a name that is not refused and not taken. */
  predicate Allowed(env: Env, f: Files, t: Token, rf: RunFile, name: string, child: Token) {
    rf.depth < 3 && name !in rf.path && name in env.library && child !in env.refused && child !in f.runs
  }

  /** The run of a document at its beginning. */
  function Begun(doc: Doc, depth: nat, path: seq<string>): RunFile {
    RunFile(Started(doc), State(seq(|doc.units|, _ => Cell(Pending, 0, 1, false, None)), map[], 0, []), depth, path)
  }

  /** b is a after unit u, which stands at a call node, was dispatched: one session is spent. A child that may
      not start is a failed call. One that may is begun; waited for, the unit is out until it ends, and otherwise
      the call has succeeded. */
  ghost predicate Dispatches(env: Env, t: Token, a: At, u: nat, b: At)
    requires Loaded(a.run) && u < |a.run.doc.units| && ExpectedNode(a.run.doc, a.run.state, u).activity.Call?
  {
    var d, s := a.run.doc, a.run.state;
    var node := ExpectedNode(d, s, u);
    var name, child := node.activity.pipeline, Sub(t, node.id);
    var paid := s.(sessions := s.sessions + 1);
    && b.run == a.run.(state := b.run.state) && b.files.parked == a.files.parked
    && if !Allowed(env, a.files, t, a.run, name, child) then
         && b.files.runs == a.files.runs
         && Fits(d, paid) && Booked(d, paid, u, AfterCall(d.units[u], s.cells[u], false), false, 0, b.run.state)
       else
         && b.files.runs == a.files.runs[child := Begun(env.library[name], a.run.depth + 1, a.run.path + [name])]
         && if node.activity.wait
            then b.run.state == paid.(cells := s.cells[u := s.cells[u].(status := Dispatched, child := Some(child))])
            else Fits(d, paid) && Booked(d, paid, u, AfterCall(d.units[u], s.cells[u], true), true, 0, b.run.state)
  }

  lemma StartMeans(env: Env, t: Token, a: At, u: nat)
    requires Valid(a.run.doc) && Loaded(a.run) && u < |a.run.doc.units|
    requires ExpectedNode(a.run.doc, a.run.state, u).activity.Call?
    ensures var b := StartCall(env, a.files, t, a.run, u); Dispatches(env, t, a, u, At(b.0, b.1))
  {
    hide Booked, AfterCall, RecordCall, Valid;
    var d, s := a.run.doc, a.run.state;
    PaidFits(d, s);
    CallMeans(d, Paid(s), u, false, RecordCall(d, Paid(s), u, false));
    CallMeans(d, Paid(s), u, true, RecordCall(d, Paid(s), u, true));
    if ExpectedNode(d, s, u).activity.pipeline in env.library {
      ChainUnits(env.library[ExpectedNode(d, s, u).activity.pipeline]);
    }
  }

  lemma PaidFits(d: Doc, s: State)
    requires Fits(d, s)
    ensures Fits(d, Paid(s))
  {
  }

  lemma ChainUnits(doc: Doc)
    ensures NewRun(doc, 0, []).state == Begun(doc, 0, []).state
    ensures forall depth, path :: NewRun(doc, depth, path) == Begun(doc, depth, path)
  {
  }

  // -------------------------------------------------------------------------------------- the sweep

  /** b is a after unit u's turn in the sweep. Only a unit that waits for a child has one: word that the child
      left is taken and is the outcome of the call, a child that still runs is waited for, and one that has
      vanished is started again. */
  ghost predicate Swept(env: Env, t: Token, a: At, u: nat, b: At)
    requires Loaded(a.run) && u < |a.run.doc.units|
  {
    var d, s := a.run.doc, a.run.state;
    if s.cells[u].status != Dispatched || s.cells[u].child == None then b == a
    else
      var child := s.cells[u].child.value;
      if child in a.files.parked then
        var ok := a.files.parked[child];
        && b.files == Files(a.files.runs, a.files.parked - {child}) && b.run == a.run.(state := b.run.state)
        && Booked(d, s, u, AfterCall(d.units[u], s.cells[u], ok), ok, 0, b.run.state)
      else if child in a.files.runs then b == a
      else
        var alone := a.run.(state := s.(cells := s.cells[u := s.cells[u].(child := None)]));
        && Loaded(alone) && ExpectedNode(d, alone.state, u).activity.Call?
        && Dispatches(env, t, At(a.files, alone), u, b)
  }

  lemma SweepUnitMeans(env: Env, t: Token, a: At, u: nat)
    requires Valid(a.run.doc) && Loaded(a.run) && u < |a.run.doc.units|
    ensures var b := SweepUnit(env, a.files, t, a.run, u); Swept(env, t, a, u, At(b.0, b.1))
  {
    hide Booked, AfterCall, RecordCall, StartCall, Valid, Dispatches;
    var d, s := a.run.doc, a.run.state;
    if Waits(s, u) {
      var child := s.cells[u].child.value;
      if child in a.files.parked {
        CallMeans(d, s, u, a.files.parked[child], RecordCall(d, s, u, a.files.parked[child]));
      } else if child !in a.files.runs {
        StartMeans(env, t, At(a.files, a.run.(state := s.(cells := s.cells[u := s.cells[u].(child := None)]))), u);
      }
    }
  }

  /** The turns of a sweep, unit by unit from u on. */
  ghost predicate Sweeping(env: Env, t: Token, d: Doc, u: nat, turns: seq<At>) {
    && u <= |d.units| && |turns| == |d.units| - u + 1
    && (forall k: nat | k < |turns| :: turns[k].run.doc == d && Loaded(turns[k].run))
    && forall k: nat, m: nat | m == k + 1 < |turns| :: Swept(env, t, turns[k], u + k, turns[m])
  }

  lemma {:induction false} SweepMeans(env: Env, t: Token, a: At, u: nat) returns (turns: seq<At>)
    requires Valid(a.run.doc) && Loaded(a.run) && u <= |a.run.doc.units|
    ensures Sweeping(env, t, a.run.doc, u, turns) && |turns| > 0 && turns[0] == a
    ensures var b := Sweep(env, a.files, t, a.run, u); turns[|turns| - 1] == At(b.0, b.1)
    decreases |a.run.doc.units| - u
  {
    hide Swept, SweepUnit, Valid;
    SweepNext(env, a.files, t, a.run, u);
    hide Sweep;
    turns := [a];
    if u < |a.run.doc.units| {
      SweepUnitMeans(env, t, a, u);
      var step := SweepUnit(env, a.files, t, a.run, u);
      var rest := SweepMeans(env, t, At(step.0, step.1), u + 1);
      turns := [a] + rest;
      forall k: nat, m: nat | m == k + 1 < |turns| ensures Swept(env, t, turns[k], u + k, turns[m]) {
        assert k > 0 ==> turns[k] == rest[k - 1] && turns[m] == rest[m - 1];
      }
    }
  }

  // ---------------------------------------------------------------------------------- the call pass

  /** b is a after unit u's turn in the call pass: a call node is dispatched while a session is left, unless the
      unit is out already. */
  ghost predicate Passed(env: Env, t: Token, a: At, u: nat, b: At)
    requires Loaded(a.run) && u < |a.run.doc.units|
  {
    var s := a.run.state;
    if ExpectedNode(a.run.doc, s, u).activity.Call? && s.cells[u].status != Dispatched && s.sessions < a.run.doc.maxSessions
    then Dispatches(env, t, a, u, b)
    else b == a
  }

  /** The turns of a call pass over the frontier, from its k-th unit on. */
  ghost predicate Passing(env: Env, t: Token, d: Doc, frontier: seq<nat>, k: nat, turns: seq<At>) {
    && k <= |frontier| && |turns| == |frontier| - k + 1 && Within(d, frontier)
    && (forall i: nat | i < |turns| :: turns[i].run.doc == d && Loaded(turns[i].run))
    && forall i: nat, j: nat | j == i + 1 < |turns| :: Passed(env, t, turns[i], frontier[k + i], turns[j])
  }

  /** v is a unit of the frontier, from its k-th on, that stood at a session when its turn came. */
  ghost predicate Stepped(d: Doc, frontier: seq<nat>, k: nat, turns: seq<At>, v: nat) {
    exists i: nat :: i < |turns| && k + i < |frontier| && frontier[k + i] == v && StandsAtSession(d, turns[i].run.state, v)
  }

  ghost predicate StandsAtSession(d: Doc, s: State, v: nat) {
    Fits(d, s) && v < |d.units| && ExpectedNode(d, s, v).activity == Session
  }

  predicate Increasing(us: seq<nat>) { forall i, j | 0 <= i < j < |us| :: us[i] < us[j] }

  lemma CallPassNext(env: Env, a: At, t: Token, frontier: seq<nat>, k: nat)
    requires Loaded(a.run) && k < |frontier| && Within(a.run.doc, frontier)
    ensures var u := frontier[k];
            var node := ExpectedNode(a.run.doc, a.run.state, u);
            var go := node.activity.Call? && a.run.state.cells[u].status != Dispatched && a.run.state.sessions < a.run.doc.maxSessions;
            var b := if go then StartCall(env, a.files, t, a.run, u) else (a.files, a.run);
            var rest := CallPass(env, b.0, t, b.1, frontier, k + 1);
            CallPass(env, a.files, t, a.run, frontier, k) ==
              (rest.0, rest.1, if node.activity.Call? then rest.2 else [u] + rest.2)
  {
    hide StartCall;
  }

  lemma CallPassEnd(env: Env, a: At, t: Token, frontier: seq<nat>)
    requires Loaded(a.run) && Within(a.run.doc, frontier)
    ensures CallPass(env, a.files, t, a.run, frontier, |frontier|) == (a.files, a.run, [])
  {
  }

  lemma {:induction false} PassMeans(env: Env, t: Token, a: At, frontier: seq<nat>, k: nat) returns (turns: seq<At>)
    requires Valid(a.run.doc) && Loaded(a.run) && k <= |frontier| && Within(a.run.doc, frontier) && Increasing(frontier)
    ensures Passing(env, t, a.run.doc, frontier, k, turns) && |turns| > 0 && turns[0] == a
    ensures var b := CallPass(env, a.files, t, a.run, frontier, k);
            && turns[|turns| - 1] == At(b.0, b.1)
            && Increasing(b.2) && (forall v :: v in b.2 <==> Stepped(a.run.doc, frontier, k, turns, v))
            && (forall v | v in b.2 :: v in frontier[k..])
    decreases |frontier| - k
  {
    hide Passed, StartCall, CallPass, Valid, Fits;
    turns := [a];
    if k == |frontier| {
      CallPassEnd(env, a, t, frontier);
    } else {
      var d, u := a.run.doc, frontier[k];
      CallPassNext(env, a, t, frontier, k);
      var b := PassTurn(env, t, a, u);
      var rest := PassMeans(env, t, b, frontier, k + 1);
      turns := [a] + rest;
      forall i: nat, j: nat | j == i + 1 < |turns| ensures Passed(env, t, turns[i], frontier[k + i], turns[j]) {
        assert i > 0 ==> turns[i] == rest[i - 1] && turns[j] == rest[j - 1] && frontier[k + i] == frontier[k + 1 + (i - 1)];
      }
      var tail := CallPass(env, b.files, t, b.run, frontier, k + 1).2;
      forall v ensures Stepped(d, frontier, k, turns, v) <==> (v == u && StandsAtSession(d, a.run.state, u)) || v in tail {
        SteppedCons(d, frontier, k, a, rest, v);
      }
      TailAfter(frontier, k, tail);
      SessionStands(d, a.run.state, u);
    }
  }

  lemma SessionStands(d: Doc, s: State, u: nat)
    requires Fits(d, s) && u < |d.units|
    ensures StandsAtSession(d, s, u) <==> !ExpectedNode(d, s, u).activity.Call?
  {
  }

  lemma SteppedCons(d: Doc, frontier: seq<nat>, k: nat, a: At, rest: seq<At>, v: nat)
    requires k < |frontier|
    ensures Stepped(d, frontier, k, [a] + rest, v) <==>
              (v == frontier[k] && StandsAtSession(d, a.run.state, v)) || Stepped(d, frontier, k + 1, rest, v)
  {
    hide StandsAtSession;
    var turns := [a] + rest;
    if i: nat :| i < |turns| && k + i < |frontier| && frontier[k + i] == v && StandsAtSession(d, turns[i].run.state, v) {
      if i > 0 {
        assert turns[i] == rest[i - 1] && frontier[k + 1 + (i - 1)] == v;
      }
    }
    if v == frontier[k] && StandsAtSession(d, a.run.state, v) {
      assert turns[0] == a && frontier[k + 0] == v;
    }
    if i: nat :| i < |rest| && k + 1 + i < |frontier| && frontier[k + 1 + i] == v && StandsAtSession(d, rest[i].run.state, v) {
      assert turns[i + 1] == rest[i] && frontier[k + (i + 1)] == v;
    }
  }

  lemma TailAfter(frontier: seq<nat>, k: nat, tail: seq<nat>)
    requires k < |frontier| && Increasing(frontier) && Increasing(tail) && forall v | v in tail :: v in frontier[k + 1..]
    ensures Increasing([frontier[k]] + tail)
    ensures forall v | v in [frontier[k]] + tail :: v in frontier[k..]
    ensures forall v | v in tail :: v in frontier[k..]
  {
    assert frontier[k..] == [frontier[k]] + frontier[k + 1..];
    forall i | 0 <= i < |tail| ensures frontier[k] < tail[i] {
      assert tail[i] in tail;
      var j :| 0 <= j < |frontier[k + 1..]| && frontier[k + 1..][j] == tail[i];
      assert frontier[k + 1 + j] == tail[i];
    }
  }

  lemma PassTurn(env: Env, t: Token, a: At, u: nat) returns (b: At)
    requires Valid(a.run.doc) && Loaded(a.run) && u < |a.run.doc.units|
    ensures Passed(env, t, a, u, b) && b.run.doc == a.run.doc && Loaded(b.run)
    ensures var go := ExpectedNode(a.run.doc, a.run.state, u).activity.Call? && a.run.state.cells[u].status != Dispatched &&
                      a.run.state.sessions < a.run.doc.maxSessions;
            (b.files, b.run) == if go then StartCall(env, a.files, t, a.run, u) else (a.files, a.run)
  {
    hide Dispatches, StartCall, Valid;
    b := a;
    if ExpectedNode(a.run.doc, a.run.state, u).activity.Call? && a.run.state.cells[u].status != Dispatched &&
       a.run.state.sessions < a.run.doc.maxSessions {
      StartMeans(env, t, a, u);
      var c := StartCall(env, a.files, t, a.run, u);
      b := At(c.0, c.1);
    }
  }

  // --------------------------------------------------------------------------------------- the batch

  /** us is the beginning, in document order, of the units in `open`, so many of them. */
  ghost predicate Beginning(us: seq<nat>, open: set<nat>, size: nat) {
    && Increasing(us) && (forall i: nat | i < |us| :: us[i] in open)
    && (forall v: nat, i: nat | v in open && i < |us| && v < us[i] :: v in us)
    && |us| == if |open| < size then |open| else size
  }

  ghost function Open(s: State, steps: seq<nat>, max: nat): set<nat> {
    set v | v in steps && v < |s.cells| && (s.sessions < max || s.cells[v].status == Dispatched)
  }

  /** As many as were asked for, no more than run in parallel, no more than sessions are left, but one at least. */
  function Size(d: Doc, s: State, n: int): (k: nat)
    ensures k >= 1 && (n >= 1 ==> k <= n) && (k > 1 ==> k <= n && k <= d.maxParallel && k <= d.maxSessions - s.sessions)
    ensures n >= 1 && d.maxParallel >= 1 && d.maxSessions > s.sessions ==>
              k == n || k == d.maxParallel || k == d.maxSessions - s.sessions
  {
    Max(1, Min(n, Min(d.maxParallel, d.maxSessions - s.sessions)))
  }

  lemma {:induction false} ReclaimsMean(s: State, steps: seq<nat>, max: nat)
    requires (forall i: nat | i < |steps| :: steps[i] < |s.cells|) && Increasing(steps)
    ensures var r := Reclaims(s, steps);
            Increasing(r) && forall v :: v in r <==> v in steps && v < |s.cells| && s.cells[v].status == Dispatched
    decreases |steps|
  {
    if steps != [] {
      var rest := Reclaims(s, steps[1..]);
      ReclaimsMean(s, steps[1..], max);
      forall i | 0 <= i < |rest| ensures steps[0] < rest[i] {
        assert rest[i] in rest;
        var j :| 0 <= j < |steps[1..]| && steps[1..][j] == rest[i];
        assert steps[j + 1] == rest[i];
      }
    }
  }

  lemma BeginningOf(all: seq<nat>, size: nat)
    requires Increasing(all)
    ensures Beginning(if |all| <= size then all else all[..size], Members(all), size)
  {
    DistinctSize(all);
    var us := if |all| <= size then all else all[..size];
    forall i: nat | i < |us| ensures us[i] in all {
      assert us[i] == all[i];
    }
    forall v: nat, i: nat | v in all && i < |us| && v < us[i] ensures v in us {
      var j: nat :| j < |all| && all[j] == v;
      assert us[i] == all[i] && j < i;
      assert us[j] == v;
    }
  }

  lemma ChosenMeans(d: Doc, s: State, steps: seq<nat>, n: int)
    requires Fits(d, s) && Within(d, steps) && Increasing(steps)
    ensures Beginning(Chosen(d, s, steps, n), Open(s, steps, d.maxSessions), Size(d, s, n))
  {
    var all := if s.sessions < d.maxSessions then steps else Reclaims(s, steps);
    ReclaimsMean(s, steps, d.maxSessions);
    assert Members(all) == Open(s, steps, d.maxSessions);
    assert Size(d, s, n) == BatchSize(d, s, n);
    BeginningOf(all, Size(d, s, n));
    hide Reclaims, Beginning, Increasing;
  }

  /** The units that the join rules let go, or that are out, in document order. */
  ghost predicate MayGo(d: Doc, s: State, frontier: seq<nat>)
    requires Fits(d, s)
  {
    && Increasing(frontier)
    && (forall i: nat | i < |frontier| :: frontier[i] < |d.units|)
    && forall u: nat | u < |d.units| ::
         u in frontier <==> s.cells[u].status == Dispatched || (s.cells[u].status == Pending && Cleared(d, s, u))
  }

  lemma FrontierMeans(d: Doc, s: State)
    requires Fits(d, s)
    ensures Within(d, Candidates(d, s, 0)) && MayGo(d, s, Candidates(d, s, 0))
  {
    hide Candidates, Cleared;
    CandidatesExact(d, s);
    forall u: nat | u < |d.units|
      ensures u in Candidates(d, s, 0) <==> s.cells[u].status == Dispatched || (s.cells[u].status == Pending && Cleared(d, s, u))
    {
      CandidatesMean(d, s, u);
    }
  }

  /** One round of a pick, from a to b, up to its batch: the sweep, the frontier, the pass over it, and the units
      that are handed out. There is no such round where the budget is spent and nothing is out. */
  ghost predicate Round(env: Env, t: Token, n: int, a: At, us: seq<nat>, b: At) {
    exists sweep: seq<At>, frontier: seq<nat>, pass: seq<At> ::
      && Sweeping(env, t, a.run.doc, 0, sweep) && sweep[0] == a
      && var swept := sweep[|sweep| - 1];
      && (swept.run.state.sessions < a.run.doc.maxSessions || SomeIs(swept.run.state, Dispatched))
      && MayGo(a.run.doc, swept.run.state, frontier) && frontier != []
      && Passing(env, t, a.run.doc, frontier, 0, pass) && pass[0] == swept
      && HandsOut(a.run.doc, frontier, pass, n, us, b)
  }

  /** What may be handed out: the units that stood at a session when the pass came to them, or, when no session is
      left after the pass, those of them that are out already. */
  ghost function Offered(d: Doc, s: State, frontier: seq<nat>, pass: seq<At>): set<nat> {
    set v: nat | v < |s.cells| && Stepped(d, frontier, 0, pass, v) && (s.sessions < d.maxSessions || s.cells[v].status == Dispatched)
  }

  ghost predicate HandsOut(d: Doc, frontier: seq<nat>, pass: seq<At>, n: int, us: seq<nat>, b: At)
    requires |pass| > 0
  {
    var last := pass[|pass| - 1];
    var s := last.run.state;
    && Beginning(us, Offered(d, s, frontier, pass), Size(d, s, n))
    && b.files == last.files && b.run == last.run.(state := s.(cells := b.run.state.cells))
    && |b.run.state.cells| == |s.cells|
    && forall v: nat | v < |s.cells| :: b.run.state.cells[v] == if v in us then s.cells[v].(status := Dispatched) else s.cells[v]
  }

  lemma RoundHolds(env: Env, t: Token, a: At, n: int) returns (b: At)
    requires Valid(a.run.doc) && Loaded(a.run)
    ensures var (f1, rf1) := Sweep(env, a.files, t, a.run, 0);
            var frontier := Candidates(a.run.doc, rf1.state, 0);
            var pass := CallPass(env, f1, t, rf1, frontier, 0);
            var chosen := Chosen(a.run.doc, pass.1.state, pass.2, n);
            && b == At(pass.0, pass.1.(state := Emit(a.run.doc, pass.1.state, chosen)))
            && (!(rf1.state.sessions >= a.run.doc.maxSessions && !AnyDispatched(rf1.state)) && frontier != [] ==>
                  Round(env, t, n, a, chosen, b))
  {
    hide *;
    var d := a.run.doc;
    var sweep := SweepMeans(env, t, a, 0);
    var (f1, rf1) := Sweep(env, a.files, t, a.run, 0);
    LoadedFits(rf1);
    var frontier := Candidates(d, rf1.state, 0);
    FrontierMeans(d, rf1.state);
    MayGoForms(d, rf1.state, frontier);
    var pass := PassMeans(env, t, At(f1, rf1), frontier, 0);
    var p := CallPass(env, f1, t, rf1, frontier, 0);
    LoadedFits(p.1);
    var chosen := Chosen(d, p.1.state, p.2, n);
    b := At(p.0, p.1.(state := Emit(d, p.1.state, chosen)));
    ChosenMeans(d, p.1.state, p.2, n);
    OpenOffered(d, p.1.state, frontier, pass, p.2);
    HandedOut(d, frontier, pass, n, chosen, b);
    SomeMean(d, rf1.state);
    RoundIs(env, t, n, a, sweep, frontier, pass, chosen, b);
  }

  lemma MayGoForms(d: Doc, s: State, frontier: seq<nat>)
    requires Fits(d, s) && MayGo(d, s, frontier)
    ensures Increasing(frontier) && Within(d, frontier)
  {
  }

  lemma OpenOffered(d: Doc, s: State, frontier: seq<nat>, pass: seq<At>, steps: seq<nat>)
    requires forall v :: v in steps <==> Stepped(d, frontier, 0, pass, v)
    ensures Open(s, steps, d.maxSessions) == Offered(d, s, frontier, pass)
  {
    hide Stepped;
  }

  lemma HandedOut(d: Doc, frontier: seq<nat>, pass: seq<At>, n: int, us: seq<nat>, b: At)
    requires |pass| > 0
    requires var s := pass[|pass| - 1].run.state;
             Fits(d, s) && Beginning(us, Offered(d, s, frontier, pass), Size(d, s, n)) &&
             b == At(pass[|pass| - 1].files, pass[|pass| - 1].run.(state := Emit(d, s, us)))
    ensures HandsOut(d, frontier, pass, n, us, b)
  {
    hide Beginning, Offered, Size;
  }

  lemma RoundIs(env: Env, t: Token, n: int, a: At, sweep: seq<At>, frontier: seq<nat>, pass: seq<At>, us: seq<nat>, b: At)
    requires Sweeping(env, t, a.run.doc, 0, sweep) && |sweep| > 0 && sweep[0] == a
    requires var swept := sweep[|sweep| - 1];
             Fits(a.run.doc, swept.run.state) && MayGo(a.run.doc, swept.run.state, frontier) &&
             Passing(env, t, a.run.doc, frontier, 0, pass) && |pass| > 0 && pass[0] == swept
    requires HandsOut(a.run.doc, frontier, pass, n, us, b)
    ensures var swept := sweep[|sweep| - 1];
            (swept.run.state.sessions < a.run.doc.maxSessions || SomeIs(swept.run.state, Dispatched)) && frontier != [] ==>
              Round(env, t, n, a, us, b)
  {
    hide Swept, Passed, HandsOut, MayGo, SomeIs;
  }

  /** A round of a pick that hands nothing out because the run is over: with nothing out, the budget is asked for
      first, then whether any unit may go. */
  ghost predicate RunOver(env: Env, t: Token, a: At, f': Files, answer: Answer, end: RunFile) {
    exists sweep: seq<At> ::
      && Sweeping(env, t, a.run.doc, 0, sweep) && sweep[0] == a && sweep[|sweep| - 1].run == end
      && Closes(t, sweep[|sweep| - 1].files, a.run.doc, end.state, f', answer)
  }

  ghost predicate Closes(t: Token, f: Files, d: Doc, s: State, f': Files, answer: Answer) {
    && Fits(d, s) && !SomeIs(s, Dispatched)
    && if s.sessions >= d.maxSessions then answer == Done(RunCapped) && Gone(f, t, RunCapped, f')
       else
         && !SomeMayGo(d, s)
         && if SomeIs(s, Pending) then answer == WalkStalled && f' == f
            else exists o :: Judged(d, s, o) && answer == Done(o) && Gone(f, t, o, f')
  }

  lemma OverHolds(env: Env, t: Token, a: At, f': Files, answer: Answer, end: RunFile)
    requires Valid(a.run.doc) && Loaded(a.run)
    requires var (f1, rf1) := Sweep(env, a.files, t, a.run, 0);
             end == rf1 &&
             if rf1.state.sessions >= a.run.doc.maxSessions && !AnyDispatched(rf1.state) then
               f' == Finished(f1, t, RunCapped) && answer == Done(RunCapped)
             else
               && Candidates(a.run.doc, rf1.state, 0) == []
               && if AnyDispatched(rf1.state) then answer == Refusal
                  else if AnyPending(rf1.state) then f' == f1 && answer == WalkStalled
                  else f' == Finished(f1, t, WalkOutcome(a.run.doc, rf1.state)) &&
                       answer == Done(WalkOutcome(a.run.doc, rf1.state))
    ensures RunOver(env, t, a, f', answer, end)
  {
    hide Sweep, Candidates, WalkOutcome, Judged, SomeMayGo, Sweeping, Swept, AnyDispatched, AnyPending, Valid, Cleared;
    var (f1, rf1) := Sweep(env, a.files, t, a.run, 0);
    var sweep := SweepMeans(env, t, a, 0);
    SomeMean(a.run.doc, rf1.state);
    OutcomeMeans(a.run.doc, rf1.state);
    OutIsCandidate(a.run.doc, rf1.state);
    assert Closes(t, sweep[|sweep| - 1].files, a.run.doc, end.state, f', answer);
  }

  lemma OutIsCandidate(d: Doc, s: State)
    requires Fits(d, s)
    ensures AnyDispatched(s) ==> Candidates(d, s, 0) != []
  {
    hide Candidates;
    CandidatesExact(d, s);
    if u: nat :| u < |s.cells| && s.cells[u].status.Dispatched? {
      assert Eligible(d, s, u);
    }
  }

  /** A whole pick is a number of rounds that find nothing to hand out and nothing out, each of which has spent a
      session on calls, and then one that answers: it hands out a batch, waits for what is out, or finds the run
      over. */
  lemma {:induction false} BatchMeans(env: Env, t: Token, a: At, n: int) returns (last: At, b: At)
    requires Valid(a.run.doc) && Loaded(a.run)
    ensures var (f', answer, end) := Pick(env, a.files, t, a.run, n);
            && last.run.doc == a.run.doc && Loaded(last.run)
            && (last == a || last.run.state.sessions > a.run.state.sessions)
            && (answer.Steps? ==> Round(env, t, n, last, answer.units, b) && f' == Saved(b.files, t, b.run) && end == b.run)
            && (answer.Waiting? ==> Round(env, t, n, last, [], b) && f' == Saved(b.files, t, b.run) && end == b.run &&
                                    SomeIs(b.run.state, Dispatched))
            && (!answer.Steps? && !answer.Waiting? ==> RunOver(env, t, last, f', answer, end))
    decreases a.run.doc.maxSessions - a.run.state.sessions
  {
    hide *;
    PickForms(env, a.files, t, a.run, n);
    last := a;
    b := RoundHolds(env, t, a, n);
    var (f1, rf1) := Sweep(env, a.files, t, a.run, 0);
    LoadedFits(rf1);
    var pass := CallPass(env, f1, t, rf1, Candidates(a.run.doc, rf1.state, 0), 0);
    LoadedFits(pass.1);
    LoadedFits(b.run);
    SomeMean(b.run.doc, b.run.state);
    var (f', answer, end) := Pick(env, a.files, t, a.run, n);
    if (rf1.state.sessions >= a.run.doc.maxSessions && !AnyDispatched(rf1.state)) || Candidates(a.run.doc, rf1.state, 0) == [] {
      OverHolds(env, t, a, f', answer, end);
    }
    if !(rf1.state.sessions >= a.run.doc.maxSessions && !AnyDispatched(rf1.state)) &&
       Candidates(a.run.doc, rf1.state, 0) != [] && Chosen(a.run.doc, pass.1.state, pass.2, n) == [] &&
       !AnyDispatched(b.run.state) {
      last, b := BatchMeans(env, t, At(Saved(b.files, t, b.run), b.run), n);
    }
  }

  /** A batch is never larger than the document allows in parallel. */
  lemma BatchWithin(env: Env, t: Token, a: At, n: int)
    requires Valid(a.run.doc) && Loaded(a.run)
    ensures var answer := Pick(env, a.files, t, a.run, n).1;
            answer.Steps? ==> |answer.units| <= a.run.doc.maxParallel && (n >= 1 ==> |answer.units| <= n) && Increasing(answer.units)
  {
    hide *;
    var last, b := BatchMeans(env, t, a, n);
    var answer := Pick(env, a.files, t, a.run, n).1;
    if answer.Steps? {
      RoundWithin(env, t, n, last, answer.units, b);
    }
  }

  lemma RoundWithin(env: Env, t: Token, n: int, a: At, us: seq<nat>, b: At)
    requires Valid(a.run.doc) && Round(env, t, n, a, us, b)
    ensures |us| <= a.run.doc.maxParallel && (n >= 1 ==> |us| <= n) && Increasing(us)
  {
    hide Sweeping, Passing, MayGo, Offered, SomeIs, Increasing, Size;
  }
}
