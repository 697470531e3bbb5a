/** How often the walk goes back. */
module BackEdges {
  // The counters of the back-edges over whole executions: none grows past a cap, and a unit that ends takes a
  // back-edge as long as one that fits its end has bounces left.

  import opened Documents
  import opened Validator
  import opened WalkState
  import opened Dispatch
  import opened Moves
  import opened Machine
  import opened Runs
  import opened Frontier
  import opened Records

  /** Edge i is a back-edge from a to b. */
  predicate Leads(d: Doc, i: nat, a: nat, b: nat) { i < |d.edges| && d.edges[i].back && d.edges[i].src == a && d.edges[i].dst == b }

  /** What was counted for two units stays within the cap of a back-edge between them. */
  ghost predicate Counted(d: Doc, s: State) {
    forall a: nat, b: nat | Bounces(s, a, b) > 0 :: exists i: nat :: Leads(d, i, a, b) && Bounces(s, a, b) <= d.edges[i].maxBounces
  }

  lemma CountedAs(d: Doc, s: State, r: State)
    requires Counted(d, s) && r.bounces == s.bounces
    ensures Counted(d, r)
  {
    forall a: nat, b: nat | Bounces(r, a, b) > 0
      ensures exists i: nat :: Leads(d, i, a, b) && Bounces(r, a, b) <= d.edges[i].maxBounces
    {
      assert Bounces(s, a, b) > 0;
    }
  }

  lemma SettleCounted(d: Doc, s: State, u: nat)
    requires Fits(d, s) && u < |d.units| && Counted(d, s)
    ensures Counted(d, Settle(d, s, u))
  {
    hide Skips, Counted, Reset;
    if Ran(s.cells[u].status) {
      var m := Bounce(d, s, u);
      BounceCounted(d, s, u);
      SkipsOnlyCells(d, m);
      CountedAs(d, m, Skips(d, m));
    }
  }

  lemma SkipsOnlyCells(d: Doc, s: State)
    requires Fits(d, s)
    ensures Skips(d, s) == s.(cells := Skips(d, s).cells)
  {
  }

  lemma BounceCounted(d: Doc, s: State, u: nat)
    requires Fits(d, s) && u < |d.units| && Counted(d, s)
    ensures Counted(d, Bounce(d, s, u))
  {
    var m, f := Bounce(d, s, u), Firing(d, s, u, 0);
    hide Firing;
    if f.Some? {
      var i := f.value;
      assert Leads(d, i, u, d.edges[i].dst);
      forall a: nat, b: nat | Bounces(m, a, b) > 0
        ensures exists j: nat :: Leads(d, j, a, b) && Bounces(m, a, b) <= d.edges[j].maxBounces
      {
        if a != u || b != d.edges[i].dst {
          assert Bounces(s, a, b) > 0;
        }
      }
    }
  }

  lemma ActCounted(t: Token, d: Doc, s: State, m: Move)
    requires Fits(d, s) && Counted(d, s)
    ensures Counted(d, Act(t, d, s, m))
  {
    hide Settle, Counted, AfterSession, AfterCall, Via;
    if Possible(d, s, m) && Own(t, d, s, m) {
      match m
      case Session(u, r) =>
        var noted := Resolved(d, s, u, AfterSession(d.units[u], s.cells[u], r), !r.error).(sessions := s.sessions + 1);
        CountedAs(d, s, noted);
        SettleCounted(d, noted, u);
      case Called(u, ok) =>
        var noted := Resolved(d, s, u, AfterCall(d.units[u], s.cells[u], ok), ok);
        CountedAs(d, s, noted);
        SettleCounted(d, noted, u);
      case _ => CountedAs(d, s, Act(t, d, s, m));
    }
  }

  lemma {:induction false} WalkedCounted(t: Token, d: Doc, ms: seq<Move>)
    requires Shaped(d)
    ensures Counted(d, Walked(t, d, ms))
  {
    hide Act, Counted;
    if ms == [] {
      NothingCounted(d);
    } else {
      WalkedCounted(t, d, ms[..|ms| - 1]);
      WalkedFits(t, d, ms[..|ms| - 1]);
      ActCounted(t, d, Walked(t, d, ms[..|ms| - 1]), ms[|ms| - 1]);
    }
  }

  lemma NothingCounted(d: Doc)
    ensures Counted(d, Init(d))
  {
  }

  /** In every execution, of whatever valid documents, no counter is past every cap it stands for. */
  lemma RunsCounted(es: seq<Event>, t: Token)
    requires t in Exec(es).runs
    ensures var rf := Exec(es).runs[t]; Loaded(rf) && Counted(rf.doc, rf.state)
  {
    hide Exec, Valid, Walked, Counted;
    RunsLed(es, t);
    var rf := Exec(es).runs[t];
    var ms :| rf.state == Walked(t, rf.doc, ms);
    ShapedOf(rf.doc);
    WalkedCounted(t, rf.doc, ms);
  }

  lemma ShapedOf(d: Doc)
    requires Valid(d)
    ensures Shaped(d)
  {
  }

  /** Every back-edge of u that fits this end is used up. */
  ghost predicate UsedUp(d: Doc, s: State, u: nat, end: Status) {
    forall i: nat | i < |d.edges| && Leads(d, i, u, d.edges[i].dst) && Suits(end, d.edges[i].on) ::
      Bounces(s, u, d.edges[i].dst) >= d.edges[i].maxBounces
  }

  /** One that fits and had bounces left was taken, and counted. */
  ghost predicate Took(d: Doc, s: State, r: State, u: nat, end: Status) {
    exists i: nat ::
      && i < |d.edges| && Leads(d, i, u, d.edges[i].dst) && Suits(end, d.edges[i].on)
      && Bounces(s, u, d.edges[i].dst) < d.edges[i].maxBounces
      && r.bounces == s.bounces[(u, d.edges[i].dst) := Bounces(s, u, d.edges[i].dst) + 1]
  }

  lemma SettledServes(d: Doc, s: State, u: nat, r: State)
    requires Fits(d, s) && u < |d.units| && Settled(d, s, u, r)
    ensures Took(d, s, r, u, s.cells[u].status) || (r.bounces == s.bounces && UsedUp(d, s, u, s.cells[u].status))
  {
    hide Suits, Reaches;
    var m: State :| Returned(d, s, u, m) && Fits(d, m) && Spread(d, m, r);
    if i: nat :| FirstTaken(d, s, i, u) {
      var j: nat :| FirstTaken(d, s, j, u) && SentBack(d, s, u, d.edges[j].dst, m);
    } else {
      forall i: nat | i < |d.edges| && Leads(d, i, u, d.edges[i].dst) && Suits(s.cells[u].status, d.edges[i].on)
        ensures Bounces(s, u, d.edges[i].dst) >= d.edges[i].maxBounces
      {
        if Bounces(s, u, d.edges[i].dst) < d.edges[i].maxBounces {
          var j := FirstTakenExists(d, s, i, u);
        }
      }
    }
  }

  /** In every execution, right after a recorded session has ended its unit and the run went on, a back-edge that
      fits the end was taken, or each that fits is at its cap. */
  lemma EndTakesBackEdge(es: seq<Event>, t: Token, id: string, rep: Report, u: nat)
    requires t in Exec(es).runs
    ensures var rf := Exec(es).runs[t];
            && Valid(rf.doc) && Loaded(rf)
            && (Handed(rf.doc, rf.state, id) && Expects(rf.doc, rf.state, u, id) ==>
                  && rf.state.cells[u].child.None?
                  && var c := AfterSession(rf.doc.units[u], rf.state.cells[u], rep);
                     var w := Step(Exec(es), RecordRun(t, id, Ended(rep)));
                     (c.status == Success || c.status == Failure) && Record(Exec(es), t, rf, id, Ended(rep)).1 == Recorded(Continue) ==>
                       && t in w.runs
                       && var r := w.runs[t].state;
                          Took(rf.doc, rf.state, r, u, c.status) ||
                          (r.bounces == rf.state.bounces && UsedUp(rf.doc, r, u, c.status)))
  {
    hide Exec, Step, Valid, Led, Took, UsedUp, AfterSession, Booked, Decided, Record, Handed;
    RunsLed(es, t);
    var rf := Exec(es).runs[t];
    if Handed(rf.doc, rf.state, id) && Expects(rf.doc, rf.state, u, id) {
      RecordMeans(Exec(es), t, rf, id, Ended(rep));
      var c := AfterSession(rf.doc.units[u], rf.state.cells[u], rep);
      if (c.status == Success || c.status == Failure) && Record(Exec(es), t, rf, id, Ended(rep)).1 == Recorded(Continue) {
        StepRecords(Exec(es), t, id, Ended(rep));
        var r :| Booked(rf.doc, rf.state, u, c, !rep.error, 1, r) && Fits(rf.doc, r) &&
                 Decided(Exec(es), t, rf, r, Record(Exec(es), t, rf, id, Ended(rep)).0, Continue);
        WentOn(Exec(es), t, rf, r, Record(Exec(es), t, rf, id, Ended(rep)).0);
        BookedServes(rf.doc, rf.state, u, c, !rep.error, 1, r);
      }
    }
  }

  lemma StepRecords(w: Files, t: Token, id: string, res: Result)
    requires t in w.runs && Loaded(w.runs[t]) && Handed(w.runs[t].doc, w.runs[t].state, id)
    ensures Step(w, RecordRun(t, id, res)) == Record(w, t, w.runs[t], id, res).0
  {
    hide Record;
  }

  lemma WentOn(f: Files, t: Token, rf: RunFile, r: State, g: Files)
    requires Fits(rf.doc, r) && Decided(f, t, rf, r, g, Continue)
    ensures t in g.runs && g.runs[t].state == r
  {
    hide SomeIs, SomeMayGo, Judged;
  }

  lemma BookedServes(d: Doc, s: State, u: nat, c: Cell, ok: bool, cost: nat, r: State)
    requires Fits(d, s) && u < |d.units| && CellFits(d.units[u], c) && Booked(d, s, u, c, ok, cost, r)
    requires c.status == Success || c.status == Failure
    ensures Took(d, s, r, u, c.status) || (r.bounces == s.bounces && UsedUp(d, r, u, c.status))
  {
    hide Settled, Grounds, Suits;
    var line := Entry(u, s.cells[u].pos, s.cells[u].round, ok, Grounds(d, s, u));
    var noted := State(s.cells[u := c], s.bounces, s.sessions + cost, s.done + [line]);
    SettledServes(d, noted, u, r);
    assert forall a: nat, b: nat :: Bounces(noted, a, b) == Bounces(s, a, b);
  }
}
