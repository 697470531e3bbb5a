/** Schedule independence. */
module Schedule {
  // With back-edges out of the way and a fixed answer for every visit of every node, how the work is
  // interleaved does not matter: every run that completes ends in the one declarative evaluation of the
  // edges and joins, with the same history.

  import opened Documents
  import opened Validator
  import opened WalkState
  import opened Frontier
  import opened WalkInvariants
  import opened Moves
  import opened Endings
  import opened Termination

  /** The answer to each visit of a node: unit, child and round. */
  datatype Oracle = Oracle(report: (nat, nat, nat) -> Report, called: (nat, nat, nat) -> bool)

  datatype Turn = Turn(pos: nat, round: nat, ok: bool)

  /** A cell as the next visit sees it. */
  function Bare(c: Cell): Cell { c.(status := Pending, child := None) }

  function Visit(unit: Unit, u: nat, o: Oracle, c: Cell): (r: (Cell, Turn))
    requires ShapedUnit(unit) && CellFits(unit, c)
    ensures CellFits(unit, r.0)
  {
    if unit.children[c.pos].activity.Session? then
      var report := o.report(u, c.pos, c.round);
      (AfterSession(unit, Bare(c), report), Turn(c.pos, c.round, !report.error))
    else
      var ok := o.called(u, c.pos, c.round);
      (AfterCall(unit, Bare(c), ok), Turn(c.pos, c.round, ok))
  }

  /** Running a unit on its own from record c: the record it ends with and the visits it makes. */
  ghost function RunAlone(unit: Unit, u: nat, o: Oracle, c: Cell): (r: (Cell, seq<Turn>))
    requires ShapedUnit(unit) && CellFits(unit, c)
    ensures CellFits(unit, r.0)
    decreases Left(unit, Bare(c))
  {
    var (c', mark) := Visit(unit, u, o, c);
    VisitLeft(unit, u, o, c);
    if c'.status.Pending? then
      var rest := RunAlone(unit, u, o, c');
      (rest.0, [mark] + rest.1)
    else (c', [mark])
  }

  lemma VisitLeft(unit: Unit, u: nat, o: Oracle, c: Cell)
    requires ShapedUnit(unit) && CellFits(unit, c)
    ensures Left(unit, Visit(unit, u, o, c).0) < Left(unit, Bare(c))
    ensures Visit(unit, u, o, c).0.status.Pending? ==> Bare(Visit(unit, u, o, c).0) == Visit(unit, u, o, c).0
  {
    if unit.children[c.pos].activity.Session? {
      SessionLeft(unit, Bare(c), o.report(u, c.pos, c.round));
    } else {
      CallLeft(unit, Bare(c), o.called(u, c.pos, c.round));
    }
  }

  lemma RunAloneBare(unit: Unit, u: nat, o: Oracle, c: Cell)
    requires ShapedUnit(unit) && CellFits(unit, c)
    ensures RunAlone(unit, u, o, Bare(c)) == RunAlone(unit, u, o, c)
  {
    assert Visit(unit, u, o, Bare(c)) == Visit(unit, u, o, c);
  }

  // --------------------------------------------------------------------------------- declaration

  /** The end state that edges, joins and answers declare, with no reference to any order of work. */
  ghost predicate Solves(d: Doc, o: Oracle, s: State) {
    && Fits(d, s)
    && forall u: nat | u < |d.units| ::
         s.cells[u] == if CutOff(d, s, u) then FRESH.(status := Skipped)
                       else RunAlone(d.units[u], u, o, FRESH).0
  }

  lemma {:induction false} RunAloneEnds(unit: Unit, u: nat, o: Oracle, c: Cell)
    requires ShapedUnit(unit) && CellFits(unit, c)
    ensures Ran(RunAlone(unit, u, o, c).0.status)
    decreases Left(unit, Bare(c))
  {
    VisitLeft(unit, u, o, c);
    var (c', _) := Visit(unit, u, o, c);
    if c'.status.Pending? {
      RunAloneEnds(unit, u, o, c');
    }
  }

  /** On an acyclic document there is at most one declared end state. */
  lemma {:induction false} SolutionUnique(d: Doc, o: Oracle, rank: seq<nat>, s: State, s': State, u: nat)
    requires Ranked(d, rank) && Solves(d, o, s) && Solves(d, o, s') && u < |d.units|
    ensures s.cells[u] == s'.cells[u]
    decreases rank[u]
  {
    forall i: nat | i < |d.edges| && Enters(d, i, u) ensures EdgeAt(d, s, i) == EdgeAt(d, s', i) {
      assert Forward(d, i) && Arc(d, d.edges[i].src, u);
      SolutionUnique(d, o, rank, s, s', d.edges[i].src);
    }
    assert SameInputs(d, s, s', u);
    SameInputsSameJoin(d, s, s', u);
    JoinMeans(d, s, u);
    JoinMeans(d, s', u);
  }

  // ---------------------------------------------------------------------------- what runs maintain

  /** The lines of unit u, in order. */
  function Lines(done: seq<Entry>, u: nat): seq<Entry> {
    if done == [] then []
    else
      var front := Lines(done[..|done| - 1], u);
      if done[|done| - 1].unit == u then front + [done[|done| - 1]] else front
  }

  /** Visits as history lines of unit u, reached over the edge kinds via. */
  function Written(u: nat, marks: seq<Turn>, via: set<EdgeKind>): seq<Entry> {
    if marks == [] then []
    else Written(u, marks[..|marks| - 1], via) +
         [Entry(u, marks[|marks| - 1].pos, marks[|marks| - 1].round, marks[|marks| - 1].ok, via)]
  }

  /** From record c, having made the visits past, unit u is on the way of its own run. */
  ghost predicate Midway(unit: Unit, u: nat, o: Oracle, c: Cell, past: seq<Turn>)
    requires ShapedUnit(unit) && CellFits(unit, c)
  {
    && RunAlone(unit, u, o, c).0 == RunAlone(unit, u, o, FRESH).0
    && past + RunAlone(unit, u, o, c).1 == RunAlone(unit, u, o, FRESH).1
  }

  /** Unit u is somewhere on its own run: what it wrote, and what it would still write, is the whole. */
  ghost predicate OnTrack(d: Doc, o: Oracle, s: State, u: nat)
    requires Fits(d, s) && u < |d.units|
  {
    var unit, c := d.units[u], s.cells[u];
    && (Live(c.status) ==>
          && !c.capped && (c.status.Pending? ==> c.child.None?)
          && exists past: seq<Turn> :: Midway(unit, u, o, c, past) &&
                                       Lines(s.done, u) == Written(u, past, Via(d, s, u)))
    && (Ran(c.status) ==>
          c == RunAlone(unit, u, o, FRESH).0 &&
          Lines(s.done, u) == Written(u, RunAlone(unit, u, o, FRESH).1, Via(d, s, u)))
    && (c.status.Skipped? ==> c == FRESH.(status := Skipped) && Lines(s.done, u) == [])
    && (!Met(d, s, u) ==> Lines(s.done, u) == [] && (c.status.Pending? ==> c == FRESH))
  }

  ghost predicate AllOnTrack(d: Doc, o: Oracle, s: State)
    requires Fits(d, s)
  {
    forall u: nat | u < |d.units| :: OnTrack(d, o, s, u)
  }

  /** The move gives the oracle's answer. */
  ghost predicate Obeys(d: Doc, o: Oracle, s: State, m: Move) {
    Enabled(d, s, m) ==>
      match m
      case Session(u, r) => r == o.report(u, s.cells[u].pos, s.cells[u].round)
      case Called(u, ok) => ok == o.called(u, s.cells[u].pos, s.cells[u].round)
      case _ => true
  }

  lemma ViaSame(d: Doc, s: State, s': State, v: nat)
    requires Fits(d, s) && Fits(d, s') && SameInputs(d, s, s', v)
    ensures Via(d, s, v) == Via(d, s', v)
  {
    forall k ensures k in Via(d, s, v) <==> k in Via(d, s', v) {
    }
  }

  /** What resolving u without a bounce does to the other units: nothing, or a skip for want of a join. */
  lemma SettleElsewhere(d: Doc, s: State, s': State, u: nat, v: nat)
    requires Consistent(d, s) && NoBack(d) && Fits(d, s') && u < |d.units| && v < |d.units|
    requires Live(s.cells[u].status) && Met(d, s, u) && s'.cells == s.cells[u := s'.cells[u]]
    requires s'.cells[u].status.Pending? || Ran(s'.cells[u].status)
    ensures var r := Settle(d, s', u);
            && (v == u || Met(d, s, v) ==> r.cells[v] == s'.cells[v])
            && (r.cells[v] == s'.cells[v] ||
                (s'.cells[v].status.Pending? && r.cells[v] == s'.cells[v].(status := Skipped)))
            && (Met(d, s, v) ==> SameInputs(d, s, r, v))
  {
    hide Skips, Met, Doomed;
    if Met(d, s, v) {
      MetNotDoomed(d, s, v);
    }
    if Ran(s'.cells[u].status) {
      assert Bounce(d, s', u) == s';
      SkipsOnlyPending(d, s', v);
      if Met(d, s, v) && v != u {
        ResolutionElsewhere(d, s, s', u, v);
      }
      forall i: nat | i < |d.edges| && Enters(d, i, v) && Met(d, s, v)
        ensures EdgeAt(d, s, i) == EdgeAt(d, Skips(d, s'), i)
      {
        SkipsOnlyPending(d, s', d.edges[i].src);
      }
    }
  }

  lemma LinesAppend(done: seq<Entry>, e: Entry, v: nat)
    ensures Lines(done + [e], v) == if e.unit == v then Lines(done, v) + [e] else Lines(done, v)
  {
    assert (done + [e])[..|done|] == done;
  }

  lemma WrittenAppend(u: nat, past: seq<Turn>, m: Turn, via: set<EdgeKind>)
    ensures Written(u, past + [m], via) == Written(u, past, via) + [Entry(u, m.pos, m.round, m.ok, via)]
  {
    assert (past + [m])[..|past|] == past;
  }

  /** One visit moves a unit one mark along its own run, or to its end. */
  lemma VisitMidway(unit: Unit, u: nat, o: Oracle, c: Cell, past: seq<Turn>)
    requires ShapedUnit(unit) && CellFits(unit, c) && Midway(unit, u, o, c, past)
    ensures var (c', mark) := Visit(unit, u, o, c);
            if c'.status.Pending? then Midway(unit, u, o, c', past + [mark])
            else Ran(c'.status) && c' == RunAlone(unit, u, o, FRESH).0 &&
                 past + [mark] == RunAlone(unit, u, o, FRESH).1
  {
    hide AfterSession, AfterCall;
    var (c', mark) := Visit(unit, u, o, c);
    RunAloneEnds(unit, u, o, c);
    VisitLeft(unit, u, o, c);
    if c'.status.Pending? {
      var rest := RunAlone(unit, u, o, c').1;
      assert past + ([mark] + rest) == (past + [mark]) + rest;
    }
  }

  /** The unit that was resolved makes one visit of its own run. */
  lemma VisitOnTrack(d: Doc, o: Oracle, s: State, r: State, u: nat, e: Entry)
    requires Fits(d, s) && Fits(d, r) && u < |d.units| && OnTrack(d, o, s, u)
    requires Live(s.cells[u].status) && Met(d, s, u) && SameInputs(d, s, r, u)
    requires r.cells[u] == Visit(d.units[u], u, o, s.cells[u]).0
    requires var mark := Visit(d.units[u], u, o, s.cells[u]).1;
             e == Entry(u, mark.pos, mark.round, mark.ok, Via(d, s, u)) && r.done == s.done + [e]
    ensures OnTrack(d, o, r, u)
  {
    hide Visit, RunAlone, Midway, Met, Doomed, Via, Lines, Written;
    var unit, c := d.units[u], s.cells[u];
    var mark := Visit(unit, u, o, c).1;
    SameInputsSameJoin(d, s, r, u);
    ViaSame(d, s, r, u);
    var past: seq<Turn> :| Midway(unit, u, o, c, past) && Lines(s.done, u) == Written(u, past, Via(d, s, u));
    VisitMidway(unit, u, o, c, past);
    VisitUncapped(unit, u, o, c);
    LinesAppend(s.done, e, u);
    WrittenAppend(u, past, mark, Via(d, s, u));
  }

  lemma VisitUncapped(unit: Unit, u: nat, o: Oracle, c: Cell)
    requires ShapedUnit(unit) && CellFits(unit, c) && !c.capped
    ensures Visit(unit, u, o, c).0.status.Pending? ==>
              !Visit(unit, u, o, c).0.capped && Visit(unit, u, o, c).0.child.None?
  {
  }

  /** Every other unit stays on its track. */
  lemma ElsewhereOnTrack(d: Doc, o: Oracle, s: State, r: State, v: nat)
    requires Consistent(d, s) && Fits(d, r) && v < |d.units| && OnTrack(d, o, s, v)
    requires Lines(r.done, v) == Lines(s.done, v)
    requires Met(d, s, v) ==> SameInputs(d, s, r, v) && r.cells[v] == s.cells[v]
    requires r.cells[v] == s.cells[v] ||
             (s.cells[v].status.Pending? && r.cells[v] == s.cells[v].(status := Skipped))
    ensures OnTrack(d, o, r, v)
  {
    hide Met, Doomed;
    assert Justified(d, s, v);
    if Met(d, s, v) {
      SameInputsSameJoin(d, s, r, v);
      ViaSame(d, s, r, v);
    } else {
      assert Written(v, [], Via(d, r, v)) == [];
      var rest := RunAlone(d.units[v], v, o, FRESH).1;
      assert [] + rest == rest;
    }
  }

  lemma IdleInputs(d: Doc, s: State, m: Move, v: nat)
    requires Enabled(d, s, m) && !m.Session? && !m.Called? && v < |d.units|
    ensures var r := Apply(d, s, m);
            && Fits(d, r) && r.done == s.done && SameInputs(d, s, r, v)
            && (r.cells[v] == s.cells[v] ||
                (Live(s.cells[v].status) && Live(r.cells[v].status) && Eligible(d, s, v) &&
                 Bare(r.cells[v]) == Bare(s.cells[v]) && r.cells[v].capped == s.cells[v].capped &&
                 (r.cells[v].status.Pending? ==> r.cells[v].child.None?)))
  {
    hide Met;
    forall i: nat | i < |d.edges| ensures EdgeAt(d, s, i) == EdgeAt(d, Apply(d, s, m), i) {
    }
  }

  /** Handing out, waiting and releasing show on no edge and on no visit. */
  lemma IdleOnTrack(d: Doc, o: Oracle, s: State, m: Move, v: nat)
    requires Consistent(d, s) && Enabled(d, s, m) && !m.Session? && !m.Called?
    requires v < |d.units| && OnTrack(d, o, s, v)
    ensures OnTrack(d, o, Apply(d, s, m), v)
  {
    hide Met, Doomed, RunAlone, Via, Lines, Written, Apply, Enabled;
    var r := Apply(d, s, m);
    IdleInputs(d, s, m, v);
    SameInputsSameJoin(d, s, r, v);
    ViaSame(d, s, r, v);
    assert Justified(d, s, v);
    if r.cells[v] != s.cells[v] {
      RunAloneBare(d.units[v], v, o, s.cells[v]);
      RunAloneBare(d.units[v], v, o, r.cells[v]);
      var past: seq<Turn> :| Midway(d.units[v], v, o, s.cells[v], past) &&
                             Lines(s.done, v) == Written(v, past, Via(d, s, v));
      assert Midway(d.units[v], v, o, r.cells[v], past);
    }
  }

  lemma ResolutionOnTrack(d: Doc, o: Oracle, s: State, s': State, u: nat, v: nat, e: Entry)
    requires Consistent(d, s) && NoBack(d) && Fits(d, s') && u < |d.units| && v < |d.units|
    requires OnTrack(d, o, s, v) && Live(s.cells[u].status) && Met(d, s, u)
    requires s'.cells == s.cells[u := s'.cells[u]] && s'.done == s.done + [e]
    requires s'.cells[u] == Visit(d.units[u], u, o, s.cells[u]).0
    requires s'.cells[u].status.Pending? || Ran(s'.cells[u].status)
    requires var mark := Visit(d.units[u], u, o, s.cells[u]).1;
             e == Entry(u, mark.pos, mark.round, mark.ok, Via(d, s, u))
    ensures OnTrack(d, o, Settle(d, s', u), v)
  {
    hide Settle, Met, Doomed, AfterSession, AfterCall, OnTrack;
    SettleElsewhere(d, s, s', u, v);
    var r := Settle(d, s', u);
    if v == u {
      VisitOnTrack(d, o, s, r, u, e);
    } else {
      LinesAppend(s.done, e, v);
      ElsewhereOnTrack(d, o, s, r, v);
    }
  }

  lemma MoveOnTrack(d: Doc, o: Oracle, s: State, m: Move, v: nat)
    requires Consistent(d, s) && NoBack(d) && AllOnTrack(d, o, s) && Obeys(d, o, s, m) && v < |d.units|
    ensures Fits(d, Apply(d, s, m)) && OnTrack(d, o, Apply(d, s, m), v)
  {
    hide Settle, Met, Doomed, OnTrack;
    if Enabled(d, s, m) {
      match m
      case Session(u, r) =>
        assert Justified(d, s, u);
        var c := AfterSession(d.units[u], s.cells[u], r);
        var s' := Resolved(d, s, u, c, !r.error).(sessions := s.sessions + 1);
        ResolutionOnTrack(d, o, s, s', u, v, s'.done[|s.done|]);
      case Called(u, ok) =>
        assert Justified(d, s, u);
        var s' := Resolved(d, s, u, AfterCall(d.units[u], s.cells[u], ok), ok);
        ResolutionOnTrack(d, o, s, s', u, v, s'.done[|s.done|]);
      case _ => IdleOnTrack(d, o, s, m, v);
    }
  }

  lemma InitOnTrack(d: Doc, o: Oracle, v: nat)
    requires Shaped(d) && v < |d.units|
    ensures OnTrack(d, o, Init(d), v)
  {
    hide Met;
    var rest := RunAlone(d.units[v], v, o, FRESH).1;
    assert [] + rest == rest;
    assert Written(v, [], Via(d, Init(d), v)) == [];
  }

  /** Every move of the sequence gives the oracle's answer. */
  ghost predicate AllObey(d: Doc, o: Oracle, ms: seq<Move>) {
    ms != [] ==> AllObey(d, o, ms[..|ms| - 1]) && Obeys(d, o, Play(d, ms[..|ms| - 1]), ms[|ms| - 1])
  }

  lemma {:induction false} PlayOnTrack(d: Doc, o: Oracle, ms: seq<Move>)
    requires Shaped(d) && NoBack(d) && AllObey(d, o, ms)
    ensures Fits(d, Play(d, ms)) && AllOnTrack(d, o, Play(d, ms))
  {
    hide OnTrack, Apply;
    PlayConsistent(d, ms);
    if ms == [] {
      forall v: nat | v < |d.units| ensures OnTrack(d, o, Play(d, ms), v) {
        InitOnTrack(d, o, v);
      }
    } else {
      var front := ms[..|ms| - 1];
      PlayOnTrack(d, o, front);
      PlayConsistent(d, front);
      forall v: nat | v < |d.units| ensures OnTrack(d, o, Play(d, ms), v) {
        MoveOnTrack(d, o, Play(d, front), ms[|ms| - 1], v);
      }
    }
  }

  // --------------------------------------------------------------------------------- completed runs

  /** A completed walk is the declared end state, and its history is what each unit that ran writes. */
  lemma CompletedSolves(d: Doc, o: Oracle, s: State)
    requires Consistent(d, s) && AllOnTrack(d, o, s) && Over(s)
    ensures Solves(d, o, s)
    ensures forall u: nat | u < |d.units| ::
              Lines(s.done, u) == if s.cells[u].status.Skipped? then []
                                  else Written(u, RunAlone(d.units[u], u, o, FRESH).1, Grounds(d, s, u))
  {
    hide Met, Doomed, CutOff, Via, Grounds;
    forall u: nat | u < |d.units|
      ensures s.cells[u] == if CutOff(d, s, u) then FRESH.(status := Skipped)
                            else RunAlone(d.units[u], u, o, FRESH).0
      ensures Lines(s.done, u) == if s.cells[u].status.Skipped? then []
                                  else Written(u, RunAlone(d.units[u], u, o, FRESH).1, Grounds(d, s, u))
    {
      assert Justified(d, s, u) && OnTrack(d, o, s, u);
      JoinMeans(d, s, u);
      assert !s.cells[u].status.Pending? && !s.cells[u].status.Dispatched?;
      if Met(d, s, u) {
        MetNotDoomed(d, s, u);
      }
    }
  }

  lemma SolutionsAgree(d: Doc, o: Oracle, s: State, s': State)
    requires Valid(d) && Solves(d, o, s) && Solves(d, o, s')
    ensures s.cells == s'.cells
  {
    var rank := AcyclicRank(d);
    forall u: nat | u < |d.units| ensures s.cells[u] == s'.cells[u] {
      SolutionUnique(d, o, rank, s, s', u);
    }
  }

  /** Any two completed schedules of the same answers end alike, line for line and unit for unit. */
  lemma ScheduleIndependence(d: Doc, o: Oracle, ms: seq<Move>, ms': seq<Move>)
    requires Valid(d) && NoBack(d) && AllObey(d, o, ms) && AllObey(d, o, ms')
    requires Over(Play(d, ms)) && Over(Play(d, ms'))
    ensures Solves(d, o, Play(d, ms))
    ensures Play(d, ms).cells == Play(d, ms').cells
    ensures forall u: nat | u < |d.units| :: Lines(Play(d, ms).done, u) == Lines(Play(d, ms').done, u)
    ensures Fits(d, Play(d, ms)) && Fits(d, Play(d, ms')) &&
            WalkOutcome(d, Play(d, ms)) == WalkOutcome(d, Play(d, ms'))
  {
    hide Play, Met, Doomed, Solves, AllOnTrack, CutOff, Via, Grounds;
    var s, s' := Play(d, ms), Play(d, ms');
    PlayConsistent(d, ms);
    PlayConsistent(d, ms');
    PlayOnTrack(d, o, ms);
    PlayOnTrack(d, o, ms');
    CompletedSolves(d, o, s);
    CompletedSolves(d, o, s');
    SolutionsAgree(d, o, s, s');
    forall u: nat | u < |d.units| ensures Lines(s.done, u) == Lines(s'.done, u) {
      assert SameInputs(d, s, s', u);
      ViaSame(d, s, s', u);
      JoinMeans(d, s, u);
      JoinMeans(d, s', u);
    }
    SameOutcome(d, s, s');
  }

  lemma SameOutcome(d: Doc, s: State, s': State)
    requires Fits(d, s) && Fits(d, s') && s.cells == s'.cells
    ensures WalkOutcome(d, s) == WalkOutcome(d, s')
  {
    forall u: nat, i: nat | i < |d.edges| ensures Handles(d, s, u, i) == Handles(d, s', u, i) {
    }
    forall u: nat | u < |d.units| ensures Unhandled(d, s, u) == Unhandled(d, s', u) {
    }
  }
}
