/** What a record does. */
module Records {
  // The end of a session or of a call, told as a relation between the run before and the run after: what is
  // counted and written down, what is sent back, what is skipped, and whether the run is over.

  import opened Documents
  import opened Validator
  import opened WalkState
  import opened Dispatch
  import opened Frontier

  /** r is s after u's current child has finished and u moved on to record c: one line of history, what was
      spent, and, where the unit is through, what follows its end. */
  ghost predicate Booked(d: Doc, s: State, u: nat, c: Cell, ok: bool, cost: nat, r: State)
    requires Fits(d, s) && u < |d.units| && CellFits(d.units[u], c)
  {
    var line := Entry(u, s.cells[u].pos, s.cells[u].round, ok, Grounds(d, s, u));
    var noted := State(s.cells[u := c], s.bounces, s.sessions + cost, s.done + [line]);
    Fits(d, noted) && if c.status == Success || c.status == Failure then Settled(d, noted, u, r) else r == noted
  }

  lemma NotedMeans(d: Doc, s: State, u: nat, c: Cell, ok: bool, cost: nat)
    requires Fits(d, s) && u < |d.units| && CellFits(d.units[u], c)
    ensures Resolved(d, s, u, c, ok).(sessions := s.sessions + cost) ==
              State(s.cells[u := c], s.bounces, s.sessions + cost,
                    s.done + [Entry(u, s.cells[u].pos, s.cells[u].round, ok, Grounds(d, s, u))])
  {
    JoinMeans(d, s, u);
  }

  /** A recorded session, in every state. */
  lemma SessionMeans(d: Doc, s: State, u: nat, rep: Report, r: State)
    requires Valid(d) && Fits(d, s) && u < |d.units| && s.cells[u].child.None?
    ensures r == RecordSession(d, s, u, rep) <==> Booked(d, s, u, AfterSession(d.units[u], s.cells[u], rep), !rep.error, 1, r)
  {
    hide Settled, Settle, AfterSession, Grounds, Valid, Resolved;
    var c := AfterSession(d.units[u], s.cells[u], rep);
    NotedMeans(d, s, u, c, !rep.error, 1);
    SettleMeans(d, Resolved(d, s, u, c, !rep.error).(sessions := s.sessions + 1), u, r);
  }

  /** A recorded call, in every state. */
  lemma CallMeans(d: Doc, s: State, u: nat, ok: bool, r: State)
    requires Valid(d) && Fits(d, s) && u < |d.units|
    ensures r == RecordCall(d, s, u, ok) <==> Booked(d, s, u, AfterCall(d.units[u], s.cells[u], ok), ok, 0, r)
  {
    hide Settled, Settle, AfterCall, Grounds, Valid, Resolved;
    var c := AfterCall(d.units[u], s.cells[u], ok);
    NotedMeans(d, s, u, c, ok, 0);
    SettleMeans(d, Resolved(d, s, u, c, ok), u, r);
  }

  // ------------------------------------------------------------------------------- the end of a walk

  /** u failed, and no forward edge for failures leads from it to a unit that ran. */
  ghost predicate LeftAlone(d: Doc, s: State, u: nat)
    requires Fits(d, s) && u < |d.units|
  {
    && s.cells[u].status == Failure
    && forall i: nat | i < |d.edges| && Forward(d, i) && d.edges[i].src == u && d.edges[i].on != OnSuccess ::
         s.cells[d.edges[i].dst].status != Success && s.cells[d.edges[i].dst].status != Failure
  }

  /** What a walk that is over comes to. */
  ghost predicate Judged(d: Doc, s: State, o: Outcome)
    requires Fits(d, s)
  {
    o == if exists u: nat :: u < |d.units| && LeftAlone(d, s, u) && s.cells[u].capped then RunCapped
         else if exists u: nat :: u < |d.units| && LeftAlone(d, s, u) then RunFailure
         else RunSuccess
  }

  lemma AloneMeans(d: Doc, s: State, u: nat)
    requires Fits(d, s) && u < |d.units|
    ensures Unhandled(d, s, u) <==> LeftAlone(d, s, u)
  {
    if s.cells[u].status.Failure? {
      forall i: nat | i < |d.edges| && d.edges[i].src == u
        ensures Handles(d, s, u, i) <==>
                  Forward(d, i) && d.edges[i].on != OnSuccess && Ran(s.cells[d.edges[i].dst].status)
      {
      }
    }
  }

  /** The run ends capped if a failure that a loop's round cap made is left alone, failed if another is, and as
      a success if none is. */
  lemma OutcomeMeans(d: Doc, s: State)
    requires Fits(d, s)
    ensures Judged(d, s, WalkOutcome(d, s))
  {
    hide Unhandled, LeftAlone;
    forall u: nat | u < |d.units| ensures Unhandled(d, s, u) <==> LeftAlone(d, s, u) {
      AloneMeans(d, s, u);
    }
  }

  // ------------------------------------------------------------------------------- a whole record

  ghost predicate SomeIs(s: State, st: Status) { exists u: nat :: u < |s.cells| && s.cells[u].status == st }

  /** Some pending unit may go. */
  ghost predicate SomeMayGo(d: Doc, s: State)
    requires Fits(d, s)
  {
    exists u: nat :: u < |d.units| && s.cells[u].status == Pending && Cleared(d, s, u)
  }

  lemma SomeMean(d: Doc, s: State)
    requires Fits(d, s)
    ensures AnyDispatched(s) <==> SomeIs(s, Dispatched)
    ensures AnyPending(s) <==> SomeIs(s, Pending)
    ensures !AnyDispatched(s) ==> (Candidates(d, s, 0) != [] <==> SomeMayGo(d, s))
  {
    var c := Candidates(d, s, 0);
    CandidatesExact(d, s);
    hide Candidates, Cleared;
    if c != [] {
      assert c[0] in c;
      CandidatesMean(d, s, c[0]);
    }
    if u: nat :| u < |d.units| && s.cells[u].status == Pending && Cleared(d, s, u) {
      CandidatesMean(d, s, u);
    }
  }

  /** The state file of t goes; a child leaves word whether it succeeded. */
  ghost predicate Gone(f: Files, t: Token, o: Outcome, f': Files) {
    && f'.runs == f.runs - {t}
    && f'.parked == if t.Sub? then f.parked[t := o == RunSuccess] else f.parked
  }

  /** The state file of t now says r. */
  ghost predicate Kept(f: Files, t: Token, rf: RunFile, r: State, f': Files) {
    f' == Files(f.runs[t := rf.(state := r)], f.parked)
  }

  /** What is decided when a record has led to state r. A run never ends while a unit is out; with none out it
      ends when no unit may go, or when one may but the budget is spent. */
  ghost predicate Decided(f: Files, t: Token, rf: RunFile, r: State, f': Files, v: Verdict)
    requires Fits(rf.doc, r)
  {
    if SomeIs(r, Dispatched) || (SomeMayGo(rf.doc, r) && r.sessions < rf.doc.maxSessions) then
      v == Continue && Kept(f, t, rf, r, f')
    else if SomeMayGo(rf.doc, r) then v == Finish(RunCapped) && Gone(f, t, RunCapped, f')
    else if SomeIs(r, Pending) then v == Stalled && f' == f
    else exists o :: Judged(rf.doc, r, o) && v == Finish(o) && Gone(f, t, o, f')
  }

  lemma DecisionMeans(f: Files, t: Token, rf: RunFile, r: State)
    requires Fits(rf.doc, r)
    ensures Decided(f, t, rf, r, Concluded(f, t, rf.(state := r), AfterRecord(rf.doc, r)), AfterRecord(rf.doc, r))
  {
    hide SomeIs, SomeMayGo, Candidates, WalkOutcome, Judged, AnyDispatched, AnyPending;
    SomeMean(rf.doc, r);
    OutcomeMeans(rf.doc, r);
  }

  /** Unit u is out and stands at the node of this id. */
  predicate Expects(d: Doc, s: State, u: nat, id: string)
    requires Fits(d, s)
  {
    u < |d.units| && s.cells[u].status == Dispatched && d.units[u].children[s.cells[u].pos].id == id
  }

  /** A record, in every state: refused unless some unit that is out expects the node; a retry hands the unit
      back; otherwise the session is booked and it is decided whether the run goes on. */
  lemma RecordMeans(f: Files, t: Token, rf: RunFile, id: string, res: Result)
    requires Valid(rf.doc) && Loaded(rf) && Handed(rf.doc, rf.state, id)
    ensures var (f', answer) := Record(f, t, rf, id, res);
            && ((forall u: nat :: !Expects(rf.doc, rf.state, u, id)) ==> f' == f && answer == Refused)
            && forall u: nat | Expects(rf.doc, rf.state, u, id) ::
                 match res
                 case Retry =>
                   answer == Recorded(Continue) &&
                   Kept(f, t, rf, rf.state.(cells := rf.state.cells[u := rf.state.cells[u].(status := Pending)]), f')
                 case Ended(rep) =>
                   && rf.state.cells[u].child.None? && answer.Recorded?
                   && var c := AfterSession(rf.doc.units[u], rf.state.cells[u], rep);
                      exists r :: Booked(rf.doc, rf.state, u, c, !rep.error, 1, r) && Fits(rf.doc, r) &&
                                  Decided(f, t, rf, r, f', answer.verdict)
  {
    hide Booked, Decided, AfterSession, AfterRecord, RecordSession, Valid;
    var d, s := rf.doc, rf.state;
    forall u: nat | Expects(d, s, u, id)
      ensures Recorder(d, s, id, 0) == Some(u)
    {
      OnlyOne(d, s, u, id);
    }
    if Recorder(d, s, id, 0).Some? {
      var u := Recorder(d, s, id, 0).value;
      assert Expects(d, s, u, id);
      if res.Ended? {
        var r := RecordSession(d, s, u, res.report);
        SessionMeans(d, s, u, res.report, r);
        DecisionMeans(f, t, rf, r);
      }
    }
  }

  lemma OnlyOne(d: Doc, s: State, u: nat, id: string)
    requires Fits(d, s) && Expects(d, s, u, id)
    ensures Recorder(d, s, id, 0) == Some(u)
  {
    hide Recorder;
    var who := Recorder(d, s, id, 0);
    SameCall(d, s, who.value, u);
  }
}
