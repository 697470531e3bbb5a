/** Without edges, a plain sequential interpreter. */
module Sequential {
  // A document that declares no edges runs in array order, loop bodies once per round, and stops at the
  // first failure or at the session cap. Its nodes may be calls: the files of the other runs are whatever
  // they are at each pick, as long as a child that is waited for has not vanished.

  import opened Documents
  import opened Validator
  import opened WalkState
  import opened Dispatch
  import opened WalkInvariants
  import opened Endings
  import opened Sessions
  import opened Schedule
  import opened Lineage

  /** One visit of a node: unit, child, round, and whether it succeeded. */
  type Line = (nat, nat, nat, bool)

  /** The interpreter: the unit it is in, that unit's record, the visits made, and how it ended. */
  datatype Cursor = Cursor(unit: nat, cell: Cell, log: seq<Line>, outcome: Option<Outcome>)

  predicate InDoc(d: Doc, q: Cursor) {
    q.unit < |d.units| && CellFits(d.units[q.unit], q.cell)
  }

  /** One visit of the interpreter: a session reports, a call succeeds or not. */
  function Interpret(d: Doc, o: Oracle, q: Cursor): (r: Cursor)
    requires (forall u: nat | u < |d.units| :: ShapedUnit(d.units[u])) && InDoc(d, q)
    ensures InDoc(d, r)
  {
    if q.outcome.Some? then q
    else
      var (c, turn) := Visit(d.units[q.unit], q.unit, o, q.cell);
      var log := q.log + [(q.unit, turn.pos, turn.round, turn.ok)];
      if c.status.Failure? then Cursor(q.unit, c, log, Some(if c.capped then RunCapped else RunFailure))
      else if c.status.Success? && q.unit + 1 == |d.units| then Cursor(q.unit, c, log, Some(RunSuccess))
      else if |log| >= d.maxSessions then Cursor(q.unit, c, log, Some(RunCapped))
      else if c.status.Success? then
        assert ShapedUnit(d.units[q.unit + 1]);
        Cursor(q.unit + 1, FRESH, log, None)
      else Cursor(q.unit, c, log, None)
  }

  function After(d: Doc, o: Oracle, k: nat): (r: Cursor)
    requires |d.units| > 0 && forall u: nat | u < |d.units| :: ShapedUnit(d.units[u])
    ensures InDoc(d, r)
  {
    assert ShapedUnit(d.units[0]);
    if k == 0 then Cursor(0, FRESH, [], None) else Interpret(d, o, After(d, o, k - 1))
  }

  /** The last visit was a call. */
  predicate LastCall(d: Doc, q: Cursor) {
    q.log != [] &&
    var (u, pos, _, _) := q.log[|q.log| - 1];
    u < |d.units| && pos < |d.units[u].children| && d.units[u].children[pos].activity.Call?
  }

  // ------------------------------------------------------------------------------- the run on its own

  /** What a driver does with the run: pick, next to some files of the other runs, or record. */
  datatype Deed = Look(env: Env, files: Files, n: int) | Tell(id: string, res: Result)

  datatype Course = Course(rf: RunFile, outcome: Option<Outcome>)

  /** One deed. A refused pick or record changes nothing of the run. */
  ghost function Do(t: Token, c: Course, a: Deed): (r: Course)
    requires Loaded(c.rf)
    ensures Loaded(r.rf) && r.rf.doc == c.rf.doc
  {
    if c.outcome.Some? then c
    else
      match a
      case Look(env, files, n) =>
        var (_, answer, end) := Pick(env, files, t, c.rf, n);
        (match answer
         case Done(outcome) => Course(end, Some(outcome))
         case Steps(_) => Course(end, None)
         case Waiting => Course(end, None)
         case _ => c)
      case Tell(id, res) =>
        if !Handed(c.rf.doc, c.rf.state, id) then c
        else
          var p := TellOf(c.rf.doc, c.rf.state, id, res);
          Course(c.rf.(state := p.state), p.outcome)
  }

  ghost function Work(t: Token, rf: RunFile, deeds: seq<Deed>): (r: Course)
    requires Loaded(rf)
    ensures Loaded(r.rf) && r.rf.doc == rf.doc
  {
    if deeds == [] then Course(rf, None) else Do(t, Work(t, rf, deeds[..|deeds| - 1]), deeds[|deeds| - 1])
  }

  /** Every call in the history ended as the oracle says. */
  ghost predicate CallsAgree(d: Doc, o: Oracle, done: seq<Entry>) {
    forall i: nat | i < |done| && done[i].unit < |d.units| && done[i].pos < |d.units[done[i].unit].children| &&
      d.units[done[i].unit].children[done[i].pos].activity.Call? ::
      done[i].ok == o.called(done[i].unit, done[i].pos, done[i].round)
  }

  /** Sessions answer and calls end as the oracle says, and no child that the run waits for has vanished. */
  ghost predicate Honest(t: Token, o: Oracle, c: Course, a: Deed)
    requires Loaded(c.rf)
  {
    match a
    case Look(env, files, n) => Minds(files, t, c.rf) && CallsAgree(c.rf.doc, o, Pick(env, files, t, c.rf, n).2.state.done)
    case Tell(id, res) =>
      var who := Recorder(c.rf.doc, c.rf.state, id, 0);
      res.Ended? && who.Some? ==>
        var cell := c.rf.state.cells[who.value];
        res.report == o.report(who.value, cell.pos, cell.round)
  }

  ghost predicate AllHonest(t: Token, o: Oracle, rf: RunFile, deeds: seq<Deed>)
    requires Loaded(rf)
  {
    deeds != [] ==>
      && AllHonest(t, o, rf, deeds[..|deeds| - 1])
      && Honest(t, o, Work(t, rf, deeds[..|deeds| - 1]), deeds[|deeds| - 1])
  }

  lemma AgreeBefore(d: Doc, o: Oracle, a: seq<Entry>, b: seq<Entry>)
    requires a <= b && CallsAgree(d, o, b)
    ensures CallsAgree(d, o, a)
  {
    forall i: nat | i < |a| ensures a[i] == b[i] {
    }
  }

  // --------------------------------------------------------------------------------------- the chain

  /** A started document whose edges are the implicit success chain. */
  ghost predicate Chain(d: Doc) {
    && Shaped(d)
    && |d.edges| == |d.units| - 1
    && forall i: nat | i < |d.edges| :: d.edges[i] == Edge(i, i + 1, OnSuccess, false, 0)
  }

  lemma StartedChain(d: Doc)
    requires Valid(d) && d.edges == []
    ensures Chain(Started(d)) && Valid(Started(d))
  {
    StartedValid(d);
  }

  /** Everything before unit u succeeded, u is live with record c, everything after it is untouched. */
  ghost predicate Front(d: Doc, s: State, u: nat, c: Cell)
    requires Fits(d, s)
  {
    && u < |d.units|
    && (forall v: nat | v < u :: s.cells[v].status.Success? && s.cells[v].child.None?)
    && Live(s.cells[u].status) && c == Bare(s.cells[u])
    && forall v: nat | u < v < |d.units| :: s.cells[v] == FRESH
  }

  function LogOf(done: seq<Entry>): seq<Line> {
    if done == [] then []
    else
      var e := done[|done| - 1];
      LogOf(done[..|done| - 1]) + [(e.unit, e.pos, e.round, e.ok)]
  }

  /** The unit has started the call it stands at and waits for it. */
  predicate Calling(s: State, u: nat)
    requires u < |s.cells|
  {
    s.cells[u].child.Some?
  }

  /** The run is over at unit u: everything before it succeeded, and everything after it was skipped if u
      failed, and is untouched otherwise. */
  ghost predicate OverAt(d: Doc, s: State, u: nat, c: Cell)
    requires Fits(d, s)
  {
    && u < |d.units| && s.cells[u] == c && c.child.None? && !AnyDispatched(s)
    && (forall v: nat | v < u :: s.cells[v].status.Success?)
    && forall v: nat | u < v < |d.units| ::
         if c.status.Failure? then s.cells[v].status.Skipped? else s.cells[v] == FRESH
  }

  /** What a run that stands where the interpreter stands has ended with: the interpreter's outcome, unless
      its last session went to a call, for then a pick asks for the budget first. */
  function EndOf(d: Doc, q: Cursor): Option<Outcome> {
    if q.outcome.Some? && LastCall(d, q) && |q.log| >= d.maxSessions then Some(RunCapped) else q.outcome
  }

  /** The walk stands where the interpreter stands: same visits, same outcome, and a session spent for each
      visit and for the call that is out. */
  ghost predicate Matches(c: Course, q: Cursor)
    requires Loaded(c.rf)
  {
    var d, s := c.rf.doc, c.rf.state;
    && LogOf(s.done) == q.log && c.outcome == EndOf(d, q)
    && (q.outcome.Some? ==> OverAt(d, s, q.unit, q.cell) && s.sessions == |q.log|)
    && (q.outcome.None? ==>
          && |q.log| < d.maxSessions && Front(d, s, q.unit, q.cell)
          && s.sessions == |q.log| + (if Calling(s, q.unit) then 1 else 0)
          && (s.cells[q.unit].status.Dispatched? && ExpectedNode(d, s, q.unit).activity.Call? <==> Calling(s, q.unit)))
  }

  // ---------------------------------------------------------------------------- the frontier of a chain

  lemma FrontEligible(d: Doc, s: State, u: nat, c: Cell, v: nat)
    requires Chain(d) && Fits(d, s) && Front(d, s, u, c) && v < |d.units|
    ensures Eligible(d, s, v) <==> v == u
  {
    if v == u {
      forall i: nat | i < |d.edges| && Enters(d, i, u) ensures EdgeAt(d, s, i).Satisfied? {
        assert i + 1 == u;
      }
      if d.units[u].join.JoinAny? && !Root(d, u) {
        var i: nat :| i < |d.edges| && Enters(d, i, u);
        assert EdgeAt(d, s, i).Satisfied?;
      }
    } else if v > u {
      assert Enters(d, v - 1, v) && EdgeAt(d, s, v - 1).Open?;
    }
  }

  lemma FrontCandidates(d: Doc, s: State, u: nat, c: Cell)
    requires Chain(d) && Fits(d, s) && Front(d, s, u, c)
    ensures Candidates(d, s, 0) == [u]
  {
    hide Eligible, Chain, Front;
    CandidatesExact(d, s);
    var l := Candidates(d, s, 0);
    forall v: nat | v < |d.units| ensures Eligible(d, s, v) <==> v == u {
      FrontEligible(d, s, u, c, v);
    }
    FrontInRange(d, s, u, c);
    assert Members(l) == {u};
    DistinctSize(l);
  }

  lemma FrontInRange(d: Doc, s: State, u: nat, c: Cell)
    requires Fits(d, s) && Front(d, s, u, c)
    ensures u < |d.units| && ShapedUnit(d.units[u]) && CellFits(d.units[u], c) && CellFits(d.units[u], s.cells[u])
    ensures Live(s.cells[u].status) && c == Bare(s.cells[u])
  {
  }

  // ---------------------------------------------------------------------------- skips along a chain

  lemma FrontNoDoom(d: Doc, s: State, u: nat, c: Cell, v: nat)
    requires Chain(d) && Fits(d, s) && Front(d, s, u, c) && v < |d.units|
    ensures !Doomed(d, s, v)
  {
    forall i: nat | i < |d.edges| && Enters(d, i, v) ensures !EdgeAt(d, s, i).Dead? {
      assert i + 1 == v;
    }
  }

  lemma FrontNoSkips(d: Doc, s: State, u: nat, c: Cell)
    requires Chain(d) && Fits(d, s) && Front(d, s, u, c)
    ensures Skips(d, s) == s
  {
    hide Doomed, Front, Chain;
    forall v: nat | v < |d.units| && s.cells[v].status.Pending? ensures !Doomed(d, s, v) {
      FrontNoDoom(d, s, u, c, v);
    }
    NothingSkipped(d, s);
  }

  lemma AllSuccessNoSkips(d: Doc, s: State)
    requires Fits(d, s) && forall v: nat | v < |d.units| :: s.cells[v].status.Success?
    ensures Skips(d, s) == s
  {
    NothingSkipped(d, s);
  }

  /** A failure at u: every later unit is skipped, one dead edge after the other. */
  lemma {:induction false} FailureSkips(d: Doc, s: State, u: nat, v: nat)
    requires Chain(d) && Fits(d, s) && u < v < |d.units| && s.cells[u].status.Failure?
    requires forall w: nat | u < w < |d.units| :: s.cells[w] == FRESH
    ensures v in SkipSet(d, s)
  {
    hide Skips, SkipSet;
    if v > u + 1 {
      FailureSkips(d, s, u, v - 1);
    }
    var r := Skips(d, s);
    SkipsCell(d, s, v - 1);
    SkipsOnlyPending(d, s, v - 1);
    SkipsCell(d, s, v);
    DeadPredecessor(d, r, v);
  }

  lemma DeadPredecessor(d: Doc, s: State, v: nat)
    requires Chain(d) && Fits(d, s) && 0 < v < |d.units|
    requires s.cells[v - 1].status.Failure? || s.cells[v - 1].status.Skipped?
    ensures Doomed(d, s, v)
  {
    assert Enters(d, v - 1, v) && EdgeAt(d, s, v - 1).Dead?;
    forall i: nat | i < |d.edges| && Enters(d, i, v) ensures EdgeAt(d, s, i).Dead? {
      assert i == v - 1;
    }
  }

  lemma OneFailure(d: Doc, s: State, u: nat)
    requires Chain(d) && Fits(d, s) && u < |d.units|
    requires forall v: nat | v < |d.units| :: s.cells[v].status.Failure? <==> v == u
    ensures WalkOutcome(d, s) == if s.cells[u].capped then RunCapped else RunFailure
  {
    forall i: nat | i < |d.edges| ensures !Handles(d, s, u, i) {
      assert d.edges[i].on.OnSuccess?;
    }
    assert Unhandled(d, s, u);
  }

  lemma FailureEnds(d: Doc, s: State, u: nat)
    requires Chain(d) && Fits(d, s) && u < |d.units| && s.cells[u].status.Failure?
    requires forall v: nat | v < u :: s.cells[v].status.Success?
    requires forall v: nat | u < v < |d.units| :: s.cells[v] == FRESH
    ensures var r := Skips(d, s);
            && r.cells[u] == s.cells[u] && Over(r)
            && (forall v: nat | v < u :: r.cells[v] == s.cells[v])
            && (forall v: nat | u < v < |d.units| :: r.cells[v].status.Skipped?)
            && WalkOutcome(d, r) == if s.cells[u].capped then RunCapped else RunFailure
  {
    hide Skips, SkipSet, WalkOutcome;
    var r := Skips(d, s);
    forall v: nat | v < |d.units|
      ensures if v <= u then r.cells[v] == s.cells[v] else r.cells[v].status.Skipped?
    {
      SkipsOnlyPending(d, s, v);
      SkipsCell(d, s, v);
      if v > u {
        FailureSkips(d, s, u, v);
      }
    }
    OneFailure(d, r, u);
  }

  // ------------------------------------------------------------------------------------- one visit

  lemma NoBounceOnChain(d: Doc, s: State, u: nat)
    requires Chain(d) && Fits(d, s) && u < |d.units|
    ensures Bounce(d, s, u) == s
  {
  }

  lemma LogAppend(done: seq<Entry>, e: Entry)
    ensures LogOf(done + [e]) == LogOf(done) + [(e.unit, e.pos, e.round, e.ok)]
  {
    assert (done + [e])[..|done|] == done;
  }

  /** Where the walk stands once unit u has got the record c and this has settled: at u, at the next unit,
      or over. */
  ghost predicate Stands(d: Doc, s: State, u: nat, c: Cell)
    requires Fits(d, s)
  {
    && u < |d.units| && !AnyDispatched(s)
    && match c.status
       case Pending => Front(d, s, u, c) && s.cells[u] == c
       case Success =>
         if u + 1 < |d.units| then Front(d, s, u + 1, FRESH) && s.cells[u + 1] == FRESH && s.cells[u] == c
         else Over(s) && WalkOutcome(d, s) == RunSuccess && OverAt(d, s, u, c)
       case Failure =>
         Over(s) && (WalkOutcome(d, s) == if c.capped then RunCapped else RunFailure) && OverAt(d, s, u, c)
       case _ => false
  }

  /** Only unit u is not settled yet: everything before it succeeded, everything after it is untouched. */
  ghost predicate UpTo(d: Doc, s: State, u: nat)
    requires Fits(d, s)
  {
    && u < |d.units| && s.cells[u].child.None?
    && (forall v: nat | v < u :: s.cells[v].status.Success? && s.cells[v].child.None?)
    && forall v: nat | u < v < |d.units| :: s.cells[v] == FRESH
  }

  lemma UpToFront(d: Doc, s: State, u: nat)
    requires Fits(d, s) && UpTo(d, s, u)
    ensures s.cells[u].status.Pending? ==> Front(d, s, u, s.cells[u]) && Stands(d, s, u, s.cells[u])
    ensures s.cells[u].status.Success? && u + 1 < |d.units| ==>
              Front(d, s, u + 1, FRESH) && Stands(d, s, u, s.cells[u])
    ensures s.cells[u].status.Success? && u + 1 == |d.units| ==>
              forall v: nat | v < |d.units| :: s.cells[v].status.Success?
  {
    hide WalkOutcome;
  }

  lemma LastSettles(d: Doc, s: State, u: nat)
    requires Fits(d, s) && UpTo(d, s, u) && s.cells[u].status.Success? && u + 1 == |d.units|
    ensures Skips(d, s) == s && Stands(d, s, u, s.cells[u])
  {
    UpToFront(d, s, u);
    AllSuccessNoSkips(d, s);
    NoFailure(d, s);
    hide Skips, WalkOutcome;
  }

  lemma FailureSettles(d: Doc, s: State, u: nat)
    requires Chain(d) && Fits(d, s) && UpTo(d, s, u) && s.cells[u].status.Failure?
    ensures Stands(d, Skips(d, s), u, s.cells[u])
  {
    FailureEnds(d, s, u);
    hide Skips, WalkOutcome, Chain;
  }

  lemma Settles(d: Doc, s: State, u: nat)
    requires Chain(d) && Fits(d, s) && UpTo(d, s, u) && (s.cells[u].status.Pending? || Ran(s.cells[u].status))
    ensures Stands(d, Settle(d, s, u), u, s.cells[u])
  {
    NoBounceOnChain(d, s, u);
    hide Skips, WalkOutcome, Bounce, Chain, Stands, Front, UpTo;
    if s.cells[u].status.Failure? {
      FailureSettles(d, s, u);
    } else if s.cells[u].status.Success? {
      UpToFront(d, s, u);
      if u + 1 < |d.units| {
        FrontNoSkips(d, s, u + 1, FRESH);
      } else {
        LastSettles(d, s, u);
      }
    } else {
      UpToFront(d, s, u);
    }
  }

  lemma NoFailure(d: Doc, s: State)
    requires Fits(d, s) && forall v: nat | v < |d.units| :: s.cells[v].status.Success?
    ensures WalkOutcome(d, s) == RunSuccess
  {
  }

  /** A call at unit u that ended or could not wait. */
  lemma CallLeads(d: Doc, s: State, u: nat, c: Cell, ok: bool)
    requires Chain(d) && Fits(d, s) && Front(d, s, u, c)
    ensures u < |d.units| && ShapedUnit(d.units[u]) && CellFits(d.units[u], c)
    ensures var s' := RecordCall(d, s, u, ok);
            && Stands(d, s', u, AfterCall(d.units[u], c, ok)) && s'.sessions == s.sessions
            && LogOf(s'.done) == LogOf(s.done) + [(u, c.pos, c.round, ok)]
            && |s'.done| == |s.done| + 1 && s'.done[|s.done|].unit == u && s'.done[|s.done|].pos == c.pos
            && s'.done[|s.done|].round == c.round && s'.done[|s.done|].ok == ok
  {
    FrontInRange(d, s, u, c);
    hide Skips, Bounce, Via, Chain, LogOf, Stands;
    assert AfterCall(d.units[u], s.cells[u], ok) == AfterCall(d.units[u], c, ok);
    var s1 := Resolved(d, s, u, AfterCall(d.units[u], c, ok), ok);
    LogAppend(s.done, s1.done[|s.done|]);
    Settles(d, s1, u);
  }

  /** A session at unit u that reported. */
  lemma SessionLeads(d: Doc, s: State, u: nat, c: Cell, r: WalkState.Report)
    requires Chain(d) && Fits(d, s) && Front(d, s, u, c) && s.cells[u].child.None?
    ensures u < |d.units| && ShapedUnit(d.units[u]) && CellFits(d.units[u], c)
    ensures var s' := RecordSession(d, s, u, r);
            && Stands(d, s', u, AfterSession(d.units[u], c, r)) && s'.sessions == s.sessions + 1
            && LogOf(s'.done) == LogOf(s.done) + [(u, c.pos, c.round, !r.error)]
  {
    FrontInRange(d, s, u, c);
    hide Skips, Bounce, Via, Chain, LogOf, Stands;
    assert AfterSession(d.units[u], s.cells[u], r) == AfterSession(d.units[u], c, r);
    var s1 := Resolved(d, s, u, AfterSession(d.units[u], c, r), !r.error).(sessions := s.sessions + 1);
    LogAppend(s.done, s1.done[|s.done|]);
    Settles(d, s1, u);
  }

  /** Nothing of the run is out, and it stands where the interpreter stands, over or not. */
  ghost predicate Level(d: Doc, s: State, q: Cursor)
    requires Fits(d, s)
  {
    && LogOf(s.done) == q.log && s.sessions == |q.log| && !AnyDispatched(s)
    && (q.outcome.None? ==>
          |q.log| < d.maxSessions && Front(d, s, q.unit, q.cell) && s.cells[q.unit] == q.cell)
    && (q.outcome.Some? ==>
          && OverAt(d, s, q.unit, q.cell)
          && (if Over(s) then WalkOutcome(d, s) == q.outcome.value
              else |q.log| >= d.maxSessions && q.outcome == Some(RunCapped)))
  }

  /** After the visit that the interpreter makes from q the walk is level with the interpreter again. */
  lemma VisitLevel(d: Doc, o: Oracle, s: State, q: Cursor)
    requires Chain(d) && Fits(d, s) && InDoc(d, q) && q.outcome.None?
    requires var (c, turn) := Visit(d.units[q.unit], q.unit, o, q.cell);
             && Stands(d, s, q.unit, c)
             && LogOf(s.done) == q.log + [(q.unit, turn.pos, turn.round, turn.ok)] && s.sessions == |q.log| + 1
    ensures Level(d, s, Interpret(d, o, q))
  {
    hide Visit, WalkOutcome, LogOf, Chain;
    var (c, turn) := Visit(d.units[q.unit], q.unit, o, q.cell);
    match c.status
    case Pending =>
    case Success =>
    case Failure =>
    case _ =>
  }

  // ------------------------------------------------------------------------------------- one pick

  /** What a pick makes of the run, as far as the run is concerned. */
  ghost function Looked(c: Course, answer: Answer, end: RunFile): Course {
    match answer
    case Done(outcome) => Course(end, Some(outcome))
    case Steps(_) => Course(end, None)
    case Waiting => Course(end, None)
    case _ => c
  }

  lemma OneCallPass(env: Env, f: Files, t: Token, rf: RunFile, u: nat)
    requires Loaded(rf) && u < |rf.doc.units|
    ensures var node := ExpectedNode(rf.doc, rf.state, u);
            CallPass(env, f, t, rf, [u], 0) ==
              if !node.activity.Call? then (f, rf, [u])
              else if rf.state.cells[u].status.Dispatched? || rf.state.sessions >= rf.doc.maxSessions then (f, rf, [])
              else (StartCall(env, f, t, rf, u).0, StartCall(env, f, t, rf, u).1, [])
  {
    hide StartCall;
    assert CallPass(env, f, t, rf, [u], 1) == (f, rf, []);
    if ExpectedNode(rf.doc, rf.state, u).activity.Call? && !rf.state.cells[u].status.Dispatched? &&
       rf.state.sessions < rf.doc.maxSessions {
      var step := StartCall(env, f, t, rf, u);
      assert CallPass(env, step.0, t, step.1, [u], 1) == (step.0, step.1, []);
    }
    assert [u] + [] == [u];
  }

  lemma ChosenOne(d: Doc, s: State, u: nat, n: int)
    requires Fits(d, s) && u < |d.units|
    ensures Chosen(d, s, [], n) == [] && Emit(d, s, []) == s
    ensures s.sessions < d.maxSessions ==> Chosen(d, s, [u], n) == [u]
    ensures Emit(d, s, [u]).cells == s.cells[u := s.cells[u].(status := Dispatched)]
    ensures Emit(d, s, [u]).done == s.done && Emit(d, s, [u]).sessions == s.sessions
  {
    assert Emit(d, s, []).cells == s.cells;
  }

  lemma StartForms(env: Env, f: Files, t: Token, rf: RunFile, u: nat)
    requires Loaded(rf) && u < |rf.doc.units| && ExpectedNode(rf.doc, rf.state, u).activity.Call?
    ensures var node := ExpectedNode(rf.doc, rf.state, u);
            var ok := MayStart(env, f, t, rf, node);
            StartCall(env, f, t, rf, u).1 ==
              rf.(state := if ok && node.activity.wait then Park(Paid(rf.state), u, Sub(t, node.id))
                           else RecordCall(rf.doc, Paid(rf.state), u, ok))
  {
    hide RecordCall, MayStart, Park;
  }

  lemma FrontPaid(d: Doc, s: State, u: nat, c: Cell)
    requires Fits(d, s) && Front(d, s, u, c)
    ensures Fits(d, Paid(s)) && Front(d, Paid(s), u, c)
  {
  }

  /** The call that the interpreter would visit ended as the oracle says. */
  lemma CallVisit(d: Doc, o: Oracle, s: State, q: Cursor, ok: bool, done: seq<Entry>)
    requires Chain(d) && Fits(d, s) && InDoc(d, q) && q.outcome.None? && Front(d, s, q.unit, q.cell)
    requires ExpectedNode(d, s, q.unit).activity.Call? && LogOf(s.done) == q.log && s.sessions == |q.log| + 1
    requires RecordCall(d, s, q.unit, ok).done <= done && CallsAgree(d, o, done)
    ensures Level(d, RecordCall(d, s, q.unit, ok), Interpret(d, o, q)) && LastCall(d, Interpret(d, o, q))
  {
    FrontInRange(d, s, q.unit, q.cell);
    CallLeads(d, s, q.unit, q.cell, ok);
    var s' := RecordCall(d, s, q.unit, ok);
    AgreeBefore(d, o, s'.done, done);
    assert ok == o.called(q.unit, q.cell.pos, q.cell.round);
    BareSelf(s.cells[q.unit]);
    hide RecordCall, Stands, Front, LogOf, Chain, AfterCall, CallsAgree;
    VisitLevel(d, o, s', q);
  }

  lemma BareSelf(c: Cell)
    ensures Bare(Bare(c)) == Bare(c) && Bare(c).pos == c.pos && Bare(c).round == c.round
  {
  }

  lemma NobodyWaits(d: Doc, s: State, q: Cursor)
    requires Fits(d, s) && Level(d, s, q)
    ensures forall v: nat | v < |d.units| :: !Waits(s, v)
    ensures !AnyDispatched(s)
  {
  }

  lemma EndLevel(rf: RunFile, q: Cursor)
    requires Loaded(rf) && Level(rf.doc, rf.state, q) && q.outcome.Some? && LastCall(rf.doc, q)
    ensures rf.state.sessions < rf.doc.maxSessions ==>
              && Candidates(rf.doc, rf.state, 0) == [] && !AnyPending(rf.state)
              && Matches(Course(rf, Some(WalkOutcome(rf.doc, rf.state))), q)
    ensures rf.state.sessions >= rf.doc.maxSessions ==> Matches(Course(rf, Some(RunCapped)), q)
  {
    hide WalkOutcome, LogOf, Candidates;
    if Over(rf.state) {
      NoCandidates(rf.doc, rf.state, 0);
    }
  }

  lemma HandedMatches(rf: RunFile, q: Cursor)
    requires Loaded(rf) && Level(rf.doc, rf.state, q) && q.outcome.None?
    requires ExpectedNode(rf.doc, rf.state, q.unit).activity.Session?
    ensures q.unit < |rf.doc.units|
    ensures Matches(Course(rf.(state := Emit(rf.doc, rf.state, [q.unit])), None), q)
  {
    hide LogOf;
    ChosenOne(rf.doc, rf.state, q.unit, 1);
    hide Emit;
  }

  lemma ParkedMatches(rf: RunFile, q: Cursor, child: Token)
    requires Loaded(rf) && Level(rf.doc, rf.state, q) && q.outcome.None?
    requires ExpectedNode(rf.doc, rf.state, q.unit).activity.Call?
    ensures q.unit < |rf.doc.units|
    ensures var s := Park(Paid(rf.state), q.unit, child);
            Fits(rf.doc, s) && Matches(Course(rf.(state := s), None), q) && AnyDispatched(s)
  {
    hide LogOf;
    var s := Park(Paid(rf.state), q.unit, child);
    assert s.cells[q.unit].status.Dispatched?;
  }

  lemma LevelFacts(d: Doc, s: State, q: Cursor)
    requires Fits(d, s) && Level(d, s, q)
    ensures LogOf(s.done) == q.log && s.sessions == |q.log| && !AnyDispatched(s)
    ensures q.outcome.None? ==>
              |q.log| < d.maxSessions && Front(d, s, q.unit, q.cell) && s.cells[q.unit] == q.cell && q.unit < |d.units|
              && !s.cells[q.unit].status.Dispatched?
  {
    hide WalkOutcome, LogOf;
  }

  /** A call that the pick starts and that ends at once. */
  lemma CallLevel(o: Oracle, env: Env, f: Files, t: Token, rf: RunFile, q: Cursor, done: seq<Entry>)
    requires Loaded(rf) && Chain(rf.doc) && InDoc(rf.doc, q) && Level(rf.doc, rf.state, q) && q.outcome.None?
    requires ExpectedNode(rf.doc, rf.state, q.unit).activity.Call?
    requires var node := ExpectedNode(rf.doc, rf.state, q.unit);
             !(MayStart(env, f, t, rf, node) && node.activity.wait)
    requires StartCall(env, f, t, rf, q.unit).1.state.done <= done && CallsAgree(rf.doc, o, done)
    ensures var rf' := StartCall(env, f, t, rf, q.unit).1;
            && rf'.doc == rf.doc && Level(rf.doc, rf'.state, Interpret(rf.doc, o, q))
            && LastCall(rf.doc, Interpret(rf.doc, o, q)) && rf'.state.sessions == rf.state.sessions + 1
  {
    LevelFacts(rf.doc, rf.state, q);
    StartForms(env, f, t, rf, q.unit);
    FrontPaid(rf.doc, rf.state, q.unit, q.cell);
    hide StartCall, MayStart, RecordCall, Level, Front, LogOf, Chain, LastCall, CallsAgree, Interpret;
    var ok := MayStart(env, f, t, rf, ExpectedNode(rf.doc, rf.state, q.unit));
    CallVisit(rf.doc, o, Paid(rf.state), q, ok, done);
  }

  lemma LookedForms(c: Course, outcome: Outcome, us: seq<nat>, end: RunFile)
    ensures Looked(c, Done(outcome), end) == Course(end, Some(outcome))
    ensures Looked(c, Steps(us), end) == Course(end, None) && Looked(c, Waiting, end) == Course(end, None)
  {
  }

  lemma AfterNext(d: Doc, o: Oracle, k: nat)
    requires |d.units| > 0 && forall u: nat | u < |d.units| :: ShapedUnit(d.units[u])
    ensures InDoc(d, After(d, o, k)) && After(d, o, k + 1) == Interpret(d, o, After(d, o, k))
  {
  }

  lemma ChainUnits(d: Doc)
    requires Chain(d)
    ensures |d.units| > 0 && forall u: nat | u < |d.units| :: ShapedUnit(d.units[u])
  {
  }

  /** Once the walk is level with the interpreter, a pick takes it through all the calls that end at once. */
  lemma {:induction false} PickLevel(o: Oracle, env: Env, f: Files, t: Token, rf: RunFile, n: int, c: Course, k: nat)
    returns (k': nat)
    requires Loaded(rf) && Chain(rf.doc) && Level(rf.doc, rf.state, After(rf.doc, o, k))
    requires After(rf.doc, o, k).outcome.Some? ==> LastCall(rf.doc, After(rf.doc, o, k))
    requires CallsAgree(rf.doc, o, Pick(env, f, t, rf, n).2.state.done)
    ensures var (_, answer, end) := Pick(env, f, t, rf, n);
            var r := Looked(c, answer, end);
            && r == Course(end, r.outcome) && Loaded(r.rf) && r.rf.doc == rf.doc
            && Matches(r, After(rf.doc, o, k'))
    decreases rf.doc.maxSessions - rf.state.sessions, 1
  {
    var d, s, q := rf.doc, rf.state, After(rf.doc, o, k);
    k' := k;
    hide *;
    LoadedFits(rf);
    ChainUnits(d);
    NobodyWaits(d, s, q);
    SweepIdle(env, f, t, rf, 0);
    LevelFacts(d, s, q);
    var u := q.unit;
    PickForms(env, f, t, rf, n);
    if q.outcome.Some? {
      EndLevel(rf, q);
      LookedForms(c, RunCapped, [], rf);
      LookedForms(c, WalkOutcome(d, s), [], rf);
    } else {
      FrontCandidates(d, s, u, q.cell);
      OneCallPass(env, f, t, rf, u);
      ChosenOne(d, s, u, n);
      if ExpectedNode(d, s, u).activity.Session? {
        HandedMatches(rf, q);
        LookedForms(c, RunCapped, [u], rf.(state := Emit(d, s, [u])));
      } else {
        k' := CallStep(o, env, f, t, rf, n, c, k);
      }
    }
  }

  lemma {:induction false} CallStep(o: Oracle, env: Env, f: Files, t: Token, rf: RunFile, n: int, c: Course, k: nat)
    returns (k': nat)
    requires Loaded(rf) && Chain(rf.doc) && Level(rf.doc, rf.state, After(rf.doc, o, k))
    requires After(rf.doc, o, k).outcome.None?
    requires ExpectedNode(rf.doc, rf.state, After(rf.doc, o, k).unit).activity.Call?
    requires CallsAgree(rf.doc, o, Pick(env, f, t, rf, n).2.state.done)
    ensures var (_, answer, end) := Pick(env, f, t, rf, n);
            var r := Looked(c, answer, end);
            && r == Course(end, r.outcome) && Loaded(r.rf) && r.rf.doc == rf.doc
            && Matches(r, After(rf.doc, o, k'))
    decreases rf.doc.maxSessions - rf.state.sessions, 0
  {
    var d, s, q := rf.doc, rf.state, After(rf.doc, o, k);
    k' := k;
    hide *;
    LoadedFits(rf);
    ChainUnits(d);
    NobodyWaits(d, s, q);
    SweepIdle(env, f, t, rf, 0);
    LevelFacts(d, s, q);
    var u := q.unit;
    PickForms(env, f, t, rf, n);
    FrontCandidates(d, s, u, q.cell);
    OneCallPass(env, f, t, rf, u);
    var (g, rf') := StartCall(env, f, t, rf, u);
    LoadedFits(rf');
    ChosenOne(d, rf'.state, u, n);
    StartForms(env, f, t, rf, u);
    var node := ExpectedNode(d, s, u);
    var end := Pick(env, f, t, rf, n).2;
    if MayStart(env, f, t, rf, node) && node.activity.wait {
      ParkedMatches(rf, q, Sub(t, node.id));
      LookedForms(c, RunCapped, [], rf');
    } else {
      var again := Saved(g, t, rf');
      if !AnyDispatched(rf'.state) {
        PickGrows(env, again, t, rf', n);
        Prefixes(rf'.state.done, Sweep(env, again, t, rf', 0).1.state.done, end.state.done);
      }
      CallLevel(o, env, f, t, rf, q, end.state.done);
      AfterNext(d, o, k);
      NobodyWaits(d, rf'.state, After(d, o, k + 1));
      k' := PickLevel(o, env, again, t, rf', n, c, k + 1);
    }
  }

  // ------------------------------------------------------------------------- one pick, from anywhere

  lemma MatchesFacts(c: Course, q: Cursor)
    requires Loaded(c.rf) && Matches(c, q) && c.outcome.None?
    ensures var d, s := c.rf.doc, c.rf.state;
            && q.outcome.None? && LogOf(s.done) == q.log && |q.log| < d.maxSessions
            && Front(d, s, q.unit, q.cell) && q.unit < |d.units|
            && (forall v: nat | v < |d.units| && v != q.unit :: !Waits(s, v) && !s.cells[v].status.Dispatched?)
            && s.sessions == |q.log| + (if Calling(s, q.unit) then 1 else 0)
            && (Calling(s, q.unit) <==> Waits(s, q.unit))
            && (Calling(s, q.unit) <==> s.cells[q.unit].status.Dispatched? && ExpectedNode(d, s, q.unit).activity.Call?)
            && (AnyDispatched(s) <==> s.cells[q.unit].status.Dispatched?)
  {
    hide LogOf;
  }

  lemma LevelMatches(c: Course, q: Cursor)
    requires Loaded(c.rf) && Matches(c, q) && c.outcome.None? && !AnyDispatched(c.rf.state)
    ensures Level(c.rf.doc, c.rf.state, q)
  {
    hide LogOf, WalkOutcome;
  }

  /** A session that is out is handed out again. */
  lemma LookAgain(env: Env, f: Files, t: Token, c: Course, n: int, q: Cursor)
    requires Loaded(c.rf) && Chain(c.rf.doc) && Matches(c, q) && c.outcome.None?
    requires AnyDispatched(c.rf.state) && !Calling(c.rf.state, q.unit)
    ensures var (_, answer, end) := Pick(env, f, t, c.rf, n);
            answer.Steps? && end == c.rf
  {
    var rf := c.rf;
    var d, s, u := rf.doc, rf.state, q.unit;
    hide *;
    MatchesFacts(c, q);
    LoadedFits(rf);
    SweepIdle(env, f, t, rf, 0);
    PickForms(env, f, t, rf, n);
    FrontCandidates(d, s, u, q.cell);
    OneCallPass(env, f, t, rf, u);
    ChosenOne(d, s, u, n);
    AlreadyOut(d, s, u);
    EitherActivity(ExpectedNode(d, s, u));
  }

  lemma EitherActivity(node: Node)
    ensures node.activity.Call? || node.activity.Session?
  {
  }

  lemma AlreadyOut(d: Doc, s: State, u: nat)
    requires Fits(d, s) && u < |d.units| && s.cells[u].status.Dispatched?
    ensures Emit(d, s, [u]) == s
  {
    assert Emit(d, s, [u]).cells == s.cells;
  }

  /** A child that is out and still runs is waited for. */
  lemma LookWaits(env: Env, f: Files, t: Token, c: Course, n: int, q: Cursor)
    requires Loaded(c.rf) && Chain(c.rf.doc) && Matches(c, q) && c.outcome.None?
    requires Calling(c.rf.state, q.unit)
    requires c.rf.state.cells[q.unit].child.value in f.runs && c.rf.state.cells[q.unit].child.value !in f.parked
    ensures var (_, answer, end) := Pick(env, f, t, c.rf, n);
            answer.Waiting? && end == c.rf
  {
    var rf := c.rf;
    var d, s, u := rf.doc, rf.state, q.unit;
    hide *;
    MatchesFacts(c, q);
    LoadedFits(rf);
    SweepSkip(env, f, t, rf, 0, u);
    SweepWaiting(env, f, t, rf, u);
    SweepNext(env, f, t, rf, u);
    SweepRest(env, f, t, rf, u + 1);
    PickForms(env, f, t, rf, n);
    FrontCandidates(d, s, u, q.cell);
    OneCallPass(env, f, t, rf, u);
    ChosenOne(d, s, u, n);
  }

  /** The sweep passes by the units from k on, if none of them waits. */
  lemma SweepRest(env: Env, f: Files, t: Token, rf: RunFile, k: nat)
    requires Loaded(rf) && k <= |rf.doc.units| && forall v: nat | k <= v < |rf.doc.units| :: !Waits(rf.state, v)
    ensures Sweep(env, f, t, rf, k) == (f, rf)
  {
    hide Sweep, Waits;
    SweepSkip(env, f, t, rf, k, |rf.doc.units|);
    SweepNext(env, f, t, rf, |rf.doc.units|);
  }

  lemma SweepWaiting(env: Env, f: Files, t: Token, rf: RunFile, u: nat)
    requires Loaded(rf) && u < |rf.doc.units| && Waits(rf.state, u)
    ensures var child := rf.state.cells[u].child.value;
            && (child in f.parked ==>
                  SweepUnit(env, f, t, rf, u) ==
                    (f.(parked := f.parked - {child}), rf.(state := RecordCall(rf.doc, rf.state, u, f.parked[child]))))
            && (child !in f.parked && child in f.runs ==> SweepUnit(env, f, t, rf, u) == (f, rf))
  {
    hide RecordCall, StartCall;
  }

  /** The sweep takes back the outcome that the child of unit u has left. */
  lemma SweepTakesBack(o: Oracle, env: Env, f: Files, t: Token, c: Course, q: Cursor, done: seq<Entry>)
    requires Loaded(c.rf) && Chain(c.rf.doc) && Matches(c, q) && InDoc(c.rf.doc, q) && c.outcome.None?
    requires Calling(c.rf.state, q.unit) && c.rf.state.cells[q.unit].child.value in f.parked
    requires CallsAgree(c.rf.doc, o, done) && Sweep(env, f, t, c.rf, 0).1.state.done <= done
    ensures var (f1, rf1) := Sweep(env, f, t, c.rf, 0);
            && rf1.doc == c.rf.doc && Level(rf1.doc, rf1.state, Interpret(rf1.doc, o, q))
            && LastCall(rf1.doc, Interpret(rf1.doc, o, q)) && Sweep(env, f1, t, rf1, 0) == (f1, rf1)
  {
    var rf := c.rf;
    var d, s, u := rf.doc, rf.state, q.unit;
    var ok := f.parked[s.cells[u].child.value];
    ChainUnits(d);
    var q' := Interpret(d, o, q);
    hide *;
    MatchesFacts(c, q);
    LoadedFits(rf);
    TakenBack(env, f, t, rf, u);
    var rf1 := Sweep(env, f, t, rf, 0).1;
    CallVisit(d, o, s, q, ok, done);
    NobodyWaits(d, rf1.state, q');
    SweepIdle(env, Sweep(env, f, t, rf, 0).0, t, rf1, 0);
  }

  /** The sweep takes back the outcome of the one child that is out. */
  lemma TakenBack(env: Env, f: Files, t: Token, rf: RunFile, u: nat)
    requires Loaded(rf) && u < |rf.doc.units| && Waits(rf.state, u) && rf.state.cells[u].child.value in f.parked
    requires forall v: nat | v < |rf.doc.units| && v != u :: !Waits(rf.state, v) && !rf.state.cells[v].status.Dispatched?
    ensures var child := rf.state.cells[u].child.value;
            Sweep(env, f, t, rf, 0) ==
              (f.(parked := f.parked - {child}), rf.(state := RecordCall(rf.doc, rf.state, u, f.parked[child])))
  {
    var child := rf.state.cells[u].child.value;
    var rf1 := rf.(state := RecordCall(rf.doc, rf.state, u, f.parked[child]));
    hide *;
    LoadedFits(rf1);
    SweepSkip(env, f, t, rf, 0, u);
    SweepWaiting(env, f, t, rf, u);
    SweepNext(env, f, t, rf, u);
    forall v: nat | u < v < |rf.doc.units| ensures !Waits(rf1.state, v) {
      RecordDispatches(rf.doc, rf.state, u, f.parked[child], v);
    }
    SweepRest(env, f.(parked := f.parked - {child}), t, rf1, u + 1);
  }

  /** A record dispatches nobody. */
  lemma RecordDispatches(d: Doc, s: State, u: nat, ok: bool, v: nat)
    requires Fits(d, s) && u < |d.units| && v < |d.units| && v != u && !s.cells[v].status.Dispatched?
    ensures !Waits(RecordCall(d, s, u, ok), v)
  {
    var s1 := Resolved(d, s, u, AfterCall(d.units[u], s.cells[u], ok), ok);
    SkipsOnlyPending(d, Bounce(d, s1, u), v);
    hide Skips, AfterCall;
  }

  /** A child that has left its outcome is taken back, and the same pick goes on from there. */
  lemma LookTakesBack(o: Oracle, env: Env, f: Files, t: Token, c: Course, n: int, k: nat) returns (k': nat)
    requires Loaded(c.rf) && Chain(c.rf.doc) && Matches(c, After(c.rf.doc, o, k)) && c.outcome.None?
    requires var q := After(c.rf.doc, o, k);
             Calling(c.rf.state, q.unit) && c.rf.state.cells[q.unit].child.value in f.parked
    requires CallsAgree(c.rf.doc, o, Pick(env, f, t, c.rf, n).2.state.done)
    ensures var (_, answer, end) := Pick(env, f, t, c.rf, n);
            var r := Looked(c, answer, end);
            && r == Course(end, r.outcome) && Loaded(r.rf) && r.rf.doc == c.rf.doc
            && Matches(r, After(c.rf.doc, o, k'))
  {
    var rf := c.rf;
    var (f1, rf1) := Sweep(env, f, t, rf, 0);
    hide *;
    ChainUnits(rf.doc);
    AfterNext(rf.doc, o, k);
    PickGrows(env, f, t, rf, n);
    SweepTakesBack(o, env, f, t, c, After(rf.doc, o, k), Pick(env, f, t, rf, n).2.state.done);
    LoadedFits(rf1);
    PickForms(env, f, t, rf, n);
    PickForms(env, f1, t, rf1, n);
    k' := PickLevel(o, env, f1, t, rf1, n, c, k + 1);
  }

  /** Whatever a pick finds, it leaves the run where the interpreter is. */
  lemma LookMatches(o: Oracle, env: Env, f: Files, t: Token, c: Course, n: int, k: nat) returns (k': nat)
    requires Loaded(c.rf) && Chain(c.rf.doc) && Matches(c, After(c.rf.doc, o, k)) && c.outcome.None?
    requires Minds(f, t, c.rf) && CallsAgree(c.rf.doc, o, Pick(env, f, t, c.rf, n).2.state.done)
    ensures var (_, answer, end) := Pick(env, f, t, c.rf, n);
            var r := Looked(c, answer, end);
            && Loaded(r.rf) && r.rf.doc == c.rf.doc
            && Matches(r, After(c.rf.doc, o, k'))
  {
    var rf, q := c.rf, After(c.rf.doc, o, k);
    hide *;
    MatchesFacts(c, q);
    LoadedFits(rf);
    var (_, answer, end) := Pick(env, f, t, rf, n);
    k' := k;
    if Calling(rf.state, q.unit) {
      MindsChild(f, t, rf, q.unit);
      if rf.state.cells[q.unit].child.value in f.parked {
        k' := LookTakesBack(o, env, f, t, c, n, k);
      } else {
        LookWaits(env, f, t, c, n, q);
        LookedSame(c, answer, end);
      }
    } else if AnyDispatched(rf.state) {
      LookAgain(env, f, t, c, n, q);
      LookedSame(c, answer, end);
    } else {
      LevelMatches(c, q);
      k' := PickLevel(o, env, f, t, rf, n, c, k);
    }
  }

  lemma MindsChild(f: Files, t: Token, rf: RunFile, u: nat)
    requires Minds(f, t, rf) && u < |rf.doc.units| && Calling(rf.state, u)
    ensures Loaded(rf) && (rf.state.cells[u].child.value in f.runs || rf.state.cells[u].child.value in f.parked)
  {
    assert WaitKnown(f, t, rf, u);
  }

  lemma LookedSame(c: Course, answer: Answer, end: RunFile)
    requires (answer.Steps? || answer.Waiting?) && end == c.rf && c.outcome.None?
    ensures Looked(c, answer, end) == c
  {
  }

  // ------------------------------------------------------------------------------------- one record

  /** What the interpreter's visit of a session makes of the walk, and the verdict of the record. */
  lemma SessionVisit(d: Doc, o: Oracle, s: State, q: Cursor, r: WalkState.Report)
    requires Chain(d) && Fits(d, s) && InDoc(d, q) && q.outcome.None? && Front(d, s, q.unit, q.cell)
    requires s.cells[q.unit].child.None? && ExpectedNode(d, s, q.unit).activity.Session?
    requires LogOf(s.done) == q.log && s.sessions == |q.log|
    requires r == o.report(q.unit, q.cell.pos, q.cell.round)
    ensures var s', q' := RecordSession(d, s, q.unit, r), Interpret(d, o, q);
            && Level(d, s', q') && !LastCall(d, q') && (Over(s') || Candidates(d, s', 0) != [])
  {
    FrontInRange(d, s, q.unit, q.cell);
    SessionLeads(d, s, q.unit, q.cell, r);
    BareSelf(s.cells[q.unit]);
    var s' := RecordSession(d, s, q.unit, r);
    StandsReady(d, s', q.unit, AfterSession(d.units[q.unit], q.cell, r));
    hide RecordSession, Stands, Front, LogOf, Chain, AfterSession, Candidates, Over;
    VisitLevel(d, o, s', q);
  }

  lemma StandsReady(d: Doc, s: State, u: nat, c: Cell)
    requires Chain(d) && Fits(d, s) && Stands(d, s, u, c)
    ensures Over(s) || Candidates(d, s, 0) != []
  {
    hide Chain, Candidates, WalkOutcome, OverAt, Front;
    if c.status.Pending? {
      FrontCandidates(d, s, u, c);
    } else if c.status.Success? && u + 1 < |d.units| {
      FrontCandidates(d, s, u + 1, FRESH);
    }
  }

  /** The verdict of a record that leaves the walk level with the interpreter. */
  lemma LevelVerdict(d: Doc, s: State, q: Cursor)
    requires Chain(d) && Fits(d, s) && Level(d, s, q) && (Over(s) || Candidates(d, s, 0) != [])
    ensures AfterRecord(d, s) == if q.outcome.Some? then Finish(q.outcome.value) else Verdict.Continue
  {
    hide Chain, Candidates, WalkOutcome, OverAt, LogOf;
    if Over(s) {
      NoCandidates(d, s, 0);
    }
    if q.outcome.None? {
      FrontCandidates(d, s, q.unit, q.cell);
    }
  }

  lemma LevelEnds(rf: RunFile, q: Cursor)
    requires Loaded(rf) && Level(rf.doc, rf.state, q) && !LastCall(rf.doc, q)
    ensures Matches(Course(rf, q.outcome), q)
  {
    hide LogOf, WalkOutcome;
  }

  lemma TellForms(d: Doc, s: State, id: string, res: Result)
    requires Fits(d, s) && Handed(d, s, id)
    ensures var who, p := Recorder(d, s, id, 0), TellOf(d, s, id, res);
            && (who.None? ==> p == Progress(s, None))
            && (who.Some? && res.Retry? ==> p == Progress(SetStatus(s, who.value, Pending), None))
            && (who.Some? && res.Ended? ==>
                  var s' := RecordSession(d, s, who.value, res.report);
                  var v := AfterRecord(d, s');
                  && (v.Continue? ==> p == Progress(s', None))
                  && (v.Finish? ==> p == Progress(s', Some(v.outcome))))
  {
    hide Recorder, RecordSession, AfterRecord, SetStatus;
  }

  lemma HandedChild(d: Doc, s: State, id: string)
    requires Fits(d, s) && Handed(d, s, id) && Recorder(d, s, id, 0).Some?
    ensures s.cells[Recorder(d, s, id, 0).value].child.None?
  {
  }

  lemma RetryMatches(c: Course, q: Cursor)
    requires Loaded(c.rf) && Matches(c, q) && c.outcome.None?
    requires q.unit < |c.rf.doc.units| && !Calling(c.rf.state, q.unit)
    ensures var s := SetStatus(c.rf.state, q.unit, Pending);
            Fits(c.rf.doc, s) && s.done == c.rf.state.done && Matches(Course(c.rf.(state := s), None), q)
  {
    hide LogOf;
  }

  lemma TellMatches(o: Oracle, t: Token, c: Course, id: string, res: Result, k: nat) returns (k': nat)
    requires Loaded(c.rf) && Chain(c.rf.doc) && Matches(c, After(c.rf.doc, o, k)) && c.outcome.None?
    requires Honest(t, o, c, Deed.Tell(id, res)) && Handed(c.rf.doc, c.rf.state, id)
    ensures var p := TellOf(c.rf.doc, c.rf.state, id, res);
            Matches(Course(c.rf.(state := p.state), p.outcome), After(c.rf.doc, o, k'))
  {
    var rf, q := c.rf, After(c.rf.doc, o, k);
    var d, s := rf.doc, rf.state;
    if res.Ended? {
      HonestReport(t, o, c, id, res);
    }
    hide *;
    k' := k;
    MatchesFacts(c, q);
    LoadedFits(rf);
    ChainUnits(d);
    AfterNext(d, o, k);
    TellForms(d, s, id, res);
    var who := Recorder(d, s, id, 0);
    if who.None? {
      assert Course(rf.(state := s), None) == c;
    } else {
      HandedChild(d, s, id);
      assert who.value == q.unit;
      NoChild(s, q.unit);
      if res.Retry? {
        RetryMatches(c, q);
      } else {
        EitherActivity(ExpectedNode(d, s, q.unit));
        FrontBare(d, s, q.unit, q.cell);
        SessionVisit(d, o, s, q, res.report);
        var s' := RecordSession(d, s, q.unit, res.report);
        LevelVerdict(d, s', After(d, o, k + 1));
        LoadedFits(rf.(state := s'));
        LevelEnds(rf.(state := s'), After(d, o, k + 1));
        k' := k + 1;
      }
    }
  }

  lemma NoChild(s: State, u: nat)
    requires u < |s.cells|
    ensures Calling(s, u) <==> s.cells[u].child.Some?
  {
  }

  lemma FrontBare(d: Doc, s: State, u: nat, c: Cell)
    requires Fits(d, s) && Front(d, s, u, c)
    ensures c.pos == s.cells[u].pos && c.round == s.cells[u].round
  {
  }

  lemma HonestReport(t: Token, o: Oracle, c: Course, id: string, res: Result)
    requires Loaded(c.rf) && Honest(t, o, c, Deed.Tell(id, res)) && res.Ended?
    ensures var who := Recorder(c.rf.doc, c.rf.state, id, 0);
            who.Some? ==>
              var cell := c.rf.state.cells[who.value];
              res.report == o.report(who.value, cell.pos, cell.round)
  {
    hide Recorder;
  }

  // -------------------------------------------------------------------------------------- whole runs

  lemma DoForms(t: Token, c: Course, a: Deed)
    requires Loaded(c.rf)
    ensures c.outcome.Some? ==> Do(t, c, a) == c
    ensures c.outcome.None? && a.Look? ==>
              Do(t, c, a) == Looked(c, Pick(a.env, a.files, t, c.rf, a.n).1, Pick(a.env, a.files, t, c.rf, a.n).2)
    ensures c.outcome.None? && a.Tell? && !Handed(c.rf.doc, c.rf.state, a.id) ==> Do(t, c, a) == c
    ensures c.outcome.None? && a.Tell? && Handed(c.rf.doc, c.rf.state, a.id) ==>
              var p := TellOf(c.rf.doc, c.rf.state, a.id, a.res);
              Do(t, c, a) == Course(c.rf.(state := p.state), p.outcome)
  {
    hide Pick, TellOf, Handed;
  }

  lemma LookHonest(t: Token, o: Oracle, c: Course, a: Deed)
    requires Loaded(c.rf) && Honest(t, o, c, a) && a.Look?
    ensures Minds(a.files, t, c.rf) && CallsAgree(c.rf.doc, o, Pick(a.env, a.files, t, c.rf, a.n).2.state.done)
  {
  }

  /** One deed leaves the run where the interpreter is, some visits further on. */
  lemma DeedMatches(o: Oracle, t: Token, c: Course, a: Deed, k: nat) returns (k': nat)
    requires Loaded(c.rf) && Chain(c.rf.doc) && Matches(c, After(c.rf.doc, o, k)) && Honest(t, o, c, a)
    ensures Matches(Do(t, c, a), After(c.rf.doc, o, k'))
  {
    DoForms(t, c, a);
    if a.Look? {
      LookHonest(t, o, c, a);
    }
    hide *;
    k' := k;
    if c.outcome.None? {
      match a {
        case Look(env, files, n) => k' := LookMatches(o, env, files, t, c, n, k);
        case Tell(id, res) =>
          if Handed(c.rf.doc, c.rf.state, id) {
            k' := TellMatches(o, t, c, id, res, k);
          }
      }
    }
  }

  lemma StartMatches(rf: RunFile, o: Oracle)
    requires Chain(rf.doc) && rf.state == Init(rf.doc)
    ensures Loaded(rf) && Matches(Course(rf, None), After(rf.doc, o, 0))
  {
  }

  lemma WorkNext(t: Token, rf: RunFile, deeds: seq<Deed>, a: Deed)
    requires Loaded(rf)
    ensures Work(t, rf, []) == Course(rf, None) && Work(t, rf, deeds + [a]) == Do(t, Work(t, rf, deeds), a)
  {
    hide Do;
    assert (deeds + [a])[..|deeds|] == deeds;
  }

  lemma HonestNext(t: Token, o: Oracle, rf: RunFile, deeds: seq<Deed>)
    requires Loaded(rf) && AllHonest(t, o, rf, deeds) && deeds != []
    ensures var front := deeds[..|deeds| - 1];
            AllHonest(t, o, rf, front) && Honest(t, o, Work(t, rf, front), deeds[|deeds| - 1])
  {
    hide Honest, Work;
  }

  /** Refinement: whatever the driver does, and whatever the other runs do meanwhile, the run is where the
      interpreter is after some number of visits. So it makes the same visits in the same order, a failure
      skips every unit after it, and the outcome is the interpreter's or, after a last call, the cap. */
  lemma {:induction false} RunsLikeInterpreter(t: Token, o: Oracle, rf: RunFile, deeds: seq<Deed>) returns (k: nat)
    requires Chain(rf.doc) && rf.state == Init(rf.doc) && Loaded(rf) && AllHonest(t, o, rf, deeds)
    ensures Matches(Work(t, rf, deeds), After(rf.doc, o, k))
  {
    hide *;
    StartMatches(rf, o);
    k := 0;
    WorkNext(t, rf, [], Look(Env(map[], {}), Files(map[], map[]), 0));
    if deeds != [] {
      var front, a := deeds[..|deeds| - 1], deeds[|deeds| - 1];
      HonestNext(t, o, rf, deeds);
      k := RunsLikeInterpreter(t, o, rf, front);
      WorkNext(t, rf, front, a);
      assert front + [a] == deeds;
      k := DeedMatches(o, t, Work(t, rf, front), a, k);
    }
  }

  /** How the end of a run compares with the end of the interpreter: the visits and the sessions spent are
      the same, and so is the outcome exactly when a session is left, the last visit was no call, or the
      interpreter ends at the cap itself. */
  lemma EndsLikeInterpreter(t: Token, o: Oracle, rf: RunFile, deeds: seq<Deed>) returns (k: nat)
    requires Chain(rf.doc) && rf.state == Init(rf.doc) && Loaded(rf) && AllHonest(t, o, rf, deeds)
    requires Work(t, rf, deeds).outcome.Some?
    ensures var c, q := Work(t, rf, deeds), After(rf.doc, o, k);
            && LogOf(c.rf.state.done) == q.log && c.rf.state.sessions == |q.log|
            && q.outcome.Some? && OverAt(rf.doc, c.rf.state, q.unit, q.cell)
            && (c.outcome == q.outcome <==>
                 c.rf.state.sessions < rf.doc.maxSessions || !LastCall(rf.doc, q) || q.outcome.value.RunCapped?)
            && (c.outcome != q.outcome ==> c.outcome == Some(RunCapped))
  {
    k := RunsLikeInterpreter(t, o, rf, deeds);
    hide Work, After, LogOf, OverAt, LastCall, Chain;
  }
}
