/** Edge consistency. */
module WalkInvariants {
  // In every state of a run, whatever entered did so with its join condition met, whatever was skipped is
  // doomed, and nothing doomed stays pending. Every walk rule keeps it.

  import opened Documents
  import opened Validator
  import opened WalkState
  import opened Dispatch

  /** The unit has run at least in part. */
  predicate Entered(c: Cell) {
    c.status.Dispatched? || Ran(c.status) || (c.status.Pending? && (c.pos > 0 || c.round > 1))
  }

  predicate Live(st: Status) { st.Pending? || st.Dispatched? }

  predicate Justified(d: Doc, s: State, u: nat)
    requires Fits(d, s) && u < |d.units|
  {
    && (Entered(s.cells[u]) ==> Met(d, s, u))
    && (s.cells[u].status.Skipped? ==> Doomed(d, s, u))
  }

  /** Every unit's record has its reason in the edges. */
  ghost predicate Reasoned(d: Doc, s: State) {
    && Fits(d, s)
    && forall u: nat | u < |d.units| :: Justified(d, s, u)
  }

  /** Edge consistency. */
  ghost predicate Consistent(d: Doc, s: State) {
    && Reasoned(d, s)
    && forall u: nat | u < |d.units| && s.cells[u].status.Pending? :: !Doomed(d, s, u)
  }

  lemma MetNotDoomed(d: Doc, s: State, u: nat)
    requires Fits(d, s) && u < |d.units| && Met(d, s, u)
    ensures !Doomed(d, s, u)
    ensures forall i: nat | i < |d.edges| && Enters(d, i, u) :: !EdgeAt(d, s, i).Open?
  {
  }

  /** The edges into u look the same in both states. */
  ghost predicate SameInputs(d: Doc, s: State, s': State, u: nat)
    requires Fits(d, s) && Fits(d, s')
  {
    forall i: nat | i < |d.edges| && Enters(d, i, u) :: EdgeAt(d, s, i) == EdgeAt(d, s', i)
  }

  lemma SameInputsSameJoin(d: Doc, s: State, s': State, u: nat)
    requires Fits(d, s) && Fits(d, s') && u < |d.units| && SameInputs(d, s, s', u)
    ensures Met(d, s, u) == Met(d, s', u) && Doomed(d, s, u) == Doomed(d, s', u)
  {
  }

  /** Edges that are already dead stay dead, so a doomed unit stays doomed. */
  lemma DoomedStays(d: Doc, s: State, s': State, u: nat)
    requires Fits(d, s) && Fits(d, s') && u < |d.units| && Doomed(d, s, u)
    requires forall i: nat | i < |d.edges| && Enters(d, i, u) && EdgeAt(d, s, i).Dead? :: EdgeAt(d, s', i).Dead?
    ensures Doomed(d, s', u)
  {
  }

  /** Swapping pending and dispatched shows on no edge. */
  lemma LiveSwap(d: Doc, s: State, s': State)
    requires Consistent(d, s) && Fits(d, s')
    requires forall u: nat | u < |d.units| :: s.cells[u].status == s'.cells[u].status ||
                                              (Live(s.cells[u].status) && Live(s'.cells[u].status))
    requires forall u: nat | u < |d.units| && s.cells[u] != s'.cells[u] :: Met(d, s, u) && Live(s'.cells[u].status)
    ensures Consistent(d, s')
  {
    forall u: nat | u < |d.units|
      ensures Justified(d, s', u) && (s'.cells[u].status.Pending? ==> !Doomed(d, s', u))
    {
      assert SameInputs(d, s, s', u);
      SameInputsSameJoin(d, s, s', u);
      assert Justified(d, s, u);
      if Met(d, s, u) {
        MetNotDoomed(d, s, u);
      }
    }
  }

  /** A live unit whose join is met becomes terminal: no unit that entered is affected. */
  lemma ResolvedReasoned(d: Doc, s: State, s': State, u: nat)
    requires Consistent(d, s) && Fits(d, s') && u < |d.units|
    requires Live(s.cells[u].status) && Met(d, s, u) && Ran(s'.cells[u].status)
    requires s'.cells == s.cells[u := s'.cells[u]]
    ensures Reasoned(d, s')
  {
    forall v: nat | v < |d.units| ensures Justified(d, s', v) {
      assert Justified(d, s, v);
      if Met(d, s, v) {
        MetNotDoomed(d, s, v);
        forall i: nat | i < |d.edges| && Enters(d, i, v) ensures EdgeAt(d, s, i) == EdgeAt(d, s', i) {
          assert d.edges[i].src != u;
        }
        assert SameInputs(d, s, s', v);
        SameInputsSameJoin(d, s, s', v);
      } else if s.cells[v].status.Skipped? {
        DoomedStays(d, s, s', v);
      }
    }
  }

  /** A bounce resets a set closed downstream, so units outside it see none of the reset. */
  lemma BounceReasoned(d: Doc, s: State, u: nat)
    requires Reasoned(d, s) && u < |d.units|
    ensures Reasoned(d, Bounce(d, s, u))
  {
    var r := Bounce(d, s, u);
    match Firing(d, s, u, 0)
    case None =>
    case Some(k) =>
      var target := d.edges[k].dst;
      ReachSetClosed(d, target);
      forall v: nat | v < |d.units| ensures Justified(d, r, v) {
        assert Justified(d, s, v);
        if v !in ReachSet(d, target) {
          forall i: nat | i < |d.edges| && Enters(d, i, v) ensures EdgeAt(d, s, i) == EdgeAt(d, r, i) {
            assert Forward(d, i) && Arc(d, d.edges[i].src, v);
          }
          assert SameInputs(d, s, r, v);
          SameInputsSameJoin(d, s, r, v);
        }
      }
  }

  /** A joined unit is not skipped and keeps its join. */
  lemma SkipsKeepJoined(d: Doc, s: State, u: nat)
    requires Reasoned(d, s) && u < |d.units| && Met(d, s, u)
    ensures Skips(d, s).cells[u] == s.cells[u] && Met(d, Skips(d, s), u) && !Doomed(d, Skips(d, s), u)
  {
    var r := Skips(d, s);
    MetNotDoomed(d, s, u);
    forall i: nat | i < |d.edges| && Enters(d, i, u) ensures EdgeAt(d, s, i) == EdgeAt(d, r, i) {
      SkipsOnlyPending(d, s, d.edges[i].src);
    }
    assert SameInputs(d, s, r, u);
    SameInputsSameJoin(d, s, r, u);
    MetNotDoomed(d, r, u);
    if u in SkipSet(d, s) {
      SkipSetDoomed(d, s, u);
    }
  }

  lemma SkipsKeepSkipped(d: Doc, s: State, u: nat)
    requires Reasoned(d, s) && u < |d.units| && s.cells[u].status.Skipped?
    ensures Doomed(d, Skips(d, s), u)
  {
    assert Justified(d, s, u);
    forall i: nat | i < |d.edges| && Enters(d, i, u) && EdgeAt(d, s, i).Dead?
      ensures EdgeAt(d, Skips(d, s), i).Dead?
    {
      SkipsOnlyPending(d, s, d.edges[i].src);
    }
    DoomedStays(d, s, Skips(d, s), u);
  }

  lemma SkipsConsistentAt(d: Doc, s: State, u: nat)
    requires Reasoned(d, s) && u < |d.units|
    ensures var r := Skips(d, s);
            && Justified(d, r, u)
            && (r.cells[u].status.Pending? ==> !Doomed(d, r, u))
            && (Met(d, s, u) ==> r.cells[u] == s.cells[u] && Met(d, r, u))
  {
    hide Met, Doomed, Skips, SkipSet;
    SkipsCell(d, s, u);
    assert Justified(d, s, u);
    if Met(d, s, u) {
      SkipsKeepJoined(d, s, u);
    }
    if u in SkipSet(d, s) {
      SkipSetDoomed(d, s, u);
    } else if s.cells[u].status.Skipped? {
      SkipsKeepSkipped(d, s, u);
    }
  }

  lemma SkipsConsistent(d: Doc, s: State)
    requires Reasoned(d, s)
    ensures Consistent(d, Skips(d, s))
    ensures forall u: nat | u < |d.units| && Met(d, s, u) ::
              Skips(d, s).cells[u] == s.cells[u] && Met(d, Skips(d, s), u)
  {
    hide Met, Doomed, Skips;
    forall u: nat | u < |d.units|
      ensures Justified(d, Skips(d, s), u)
      ensures Skips(d, s).cells[u].status.Pending? ==> !Doomed(d, Skips(d, s), u)
      ensures Met(d, s, u) ==> Skips(d, s).cells[u] == s.cells[u] && Met(d, Skips(d, s), u)
    {
      SkipsConsistentAt(d, s, u);
    }
  }

  /** The common step of session and call records: unit u, live and joined, gets the record c. */
  lemma ResolutionConsistent(d: Doc, s: State, s': State, u: nat)
    requires Consistent(d, s) && Fits(d, s') && u < |d.units|
    requires Live(s.cells[u].status) && Met(d, s, u)
    requires s'.cells == s.cells[u := s'.cells[u]]
    requires s'.cells[u].status.Pending? || Ran(s'.cells[u].status)
    ensures Consistent(d, Settle(d, s', u))
  {
    if Ran(s'.cells[u].status) {
      ResolvedReasoned(d, s, s', u);
      BounceReasoned(d, s', u);
      SkipsConsistent(d, Bounce(d, s', u));
    } else {
      LiveSwap(d, s, s');
    }
  }

  lemma RecordSessionConsistent(d: Doc, s: State, u: nat, r: Report)
    requires Consistent(d, s) && u < |d.units| && s.cells[u].child.None? && s.cells[u].status.Dispatched?
    ensures Consistent(d, RecordSession(d, s, u, r))
  {
    hide Settle, Met, AfterSession;
    assert Justified(d, s, u);
    var c := AfterSession(d.units[u], s.cells[u], r);
    ResolutionConsistent(d, s, Resolved(d, s, u, c, !r.error).(sessions := s.sessions + 1), u);
  }

  lemma RecordCallConsistent(d: Doc, s: State, u: nat, ok: bool)
    requires Consistent(d, s) && u < |d.units| && Eligible(d, s, u)
    ensures Consistent(d, RecordCall(d, s, u, ok))
  {
    assert Justified(d, s, u);
    ResolutionConsistent(d, s, Resolved(d, s, u, AfterCall(d.units[u], s.cells[u], ok), ok), u);
  }

  lemma ReleaseConsistent(d: Doc, s: State, u: nat)
    requires Consistent(d, s) && u < |d.units| && s.cells[u].status.Dispatched?
    ensures Consistent(d, SetStatus(s, u, Pending))
  {
    assert Justified(d, s, u);
    LiveSwap(d, s, SetStatus(s, u, Pending));
  }

  lemma EmitConsistent(d: Doc, s: State, chosen: seq<nat>)
    requires Consistent(d, s) && Within(d, chosen)
    requires forall i: nat | i < |chosen| :: Eligible(d, s, chosen[i])
    ensures Consistent(d, Emit(d, s, chosen))
  {
    forall u: nat | u < |d.units| && s.cells[u] != Emit(d, s, chosen).cells[u] ensures Met(d, s, u) {
      var i: nat :| i < |chosen| && chosen[i] == u;
      assert Justified(d, s, u);
    }
    LiveSwap(d, s, Emit(d, s, chosen));
  }

  lemma InitConsistent(d: Doc)
    requires Shaped(d)
    ensures Consistent(d, Init(d))
  {
    forall u: nat | u < |d.units| ensures Justified(d, Init(d), u) && !Doomed(d, Init(d), u) {
      if d.units[u].join.JoinAny? && !Root(d, u) {
        var i: nat :| i < |d.edges| && Enters(d, i, u);
        assert EdgeAt(d, Init(d), i).Open?;
      }
    }
  }

  // -------------------------------------------------------------------------- calls and picks

  predicate NoBack(d: Doc) {
    forall i: nat | i < |d.edges| :: !d.edges[i].back
  }

  predicate NoCalls(d: Doc) {
    forall u: nat, k: nat | u < |d.units| && k < |d.units[u].children| ::
      d.units[u].children[k].activity.Session?
  }

  predicate HasCall(unit: Unit) {
    exists k: nat | k < |unit.children| :: unit.children[k].activity.Call?
  }

  predicate AllJoins(d: Doc) {
    forall u: nat | u < |d.units| :: d.units[u].join.JoinAll?
  }

  /** One of the units is a strict ancestor of the other. */
  ghost predicate Comparable(d: Doc, u: nat, v: nat) {
    Upstream(d, u, v) || Upstream(d, v, u)
  }

  /** The documents whose frontier cannot go stale during a call pass. A call that ends there may
      fire a back-edge of its unit; every other unit which that re-pends must be one that can never
      share a frontier with the calling unit. */
  ghost predicate Safe(d: Doc) {
    forall i: nat, v: nat |
      i < |d.edges| && d.edges[i].back && d.edges[i].src < |d.units| && HasCall(d.units[d.edges[i].src]) &&
      v in ReachSet(d, d.edges[i].dst) && v != d.edges[i].src ::
      AllJoins(d) && Comparable(d, v, d.edges[i].src)
  }

  /** Every unit of the path but its first joins on "all". */
  predicate AllJoinsAlong(d: Doc, p: seq<nat>)
    requires forall i: nat | i < |p| :: p[i] < |d.units|
  {
    forall i: nat | 0 < i < |p| :: d.units[p[i]].join.JoinAll?
  }

  /** Whoever meets its join has strict ancestors that really ran, along every path of "all" joins. */
  lemma {:induction false} AncestorsRan(d: Doc, s: State, p: seq<nat>)
    requires Consistent(d, s) && IsPath(d, p) && AllJoinsAlong(d, p) && |p| > 1 && Met(d, s, p[|p| - 1])
    ensures Ran(s.cells[p[0]].status)
  {
    var u, q := p[|p| - 1], p[..|p| - 1];
    var parent := q[|q| - 1];
    assert Arc(d, parent, u);
    var i: nat :| i < |d.edges| && Forward(d, i) && d.edges[i].src == parent && d.edges[i].dst == u;
    assert Enters(d, i, u) && EdgeAt(d, s, i).Satisfied?;
    if |q| > 1 {
      assert Justified(d, s, parent);
      AncestorsRan(d, s, q);
    }
  }

  /** So comparable units never are both live with their joins met. */
  lemma ComparableExclusive(d: Doc, s: State, u: nat, v: nat)
    requires Consistent(d, s) && AllJoins(d) && u < |d.units| && v < |d.units| && Comparable(d, u, v)
    requires Met(d, s, u) && Met(d, s, v)
    ensures !(Live(s.cells[u].status) && Live(s.cells[v].status))
  {
    if Upstream(d, u, v) {
      var p :| IsPath(d, p) && |p| > 1 && p[0] == u && p[|p| - 1] == v;
      AncestorsRan(d, s, p);
    } else {
      var p :| IsPath(d, p) && |p| > 1 && p[0] == v && p[|p| - 1] == u;
      AncestorsRan(d, s, p);
    }
  }

  lemma PaidConsistent(d: Doc, s: State, u: nat)
    requires Consistent(d, s) && u < |d.units|
    ensures Consistent(d, Paid(s)) && Eligible(d, s, u) == Eligible(d, Paid(s), u)
    ensures Met(d, s, u) == Met(d, Paid(s), u)
  {
    LiveSwap(d, s, Paid(s));
    assert SameInputs(d, s, Paid(s), u);
    SameInputsSameJoin(d, s, Paid(s), u);
  }

  lemma ParkedConsistent(d: Doc, s: State, u: nat, child: Token)
    requires Consistent(d, s) && u < |d.units| && Eligible(d, s, u) && ExpectedNode(d, s, u).activity.Call?
    ensures Consistent(d, Park(s, u, child))
  {
    assert Justified(d, s, u);
    LiveSwap(d, s, Park(s, u, child));
  }

  /** Resolving u leaves alone every other joined unit that no bounce from u can re-pend. */
  lemma ResolutionElsewhere(d: Doc, s: State, s': State, u: nat, v: nat)
    requires Consistent(d, s) && Fits(d, s') && u < |d.units| && v < |d.units| && u != v
    requires Live(s.cells[u].status) && Met(d, s, u) && Met(d, s, v)
    requires s'.cells == s.cells[u := s'.cells[u]]
    requires s'.cells[u].status.Pending? || Ran(s'.cells[u].status)
    requires forall i: nat | i < |d.edges| && d.edges[i].back && d.edges[i].src == u ::
               v !in ReachSet(d, d.edges[i].dst)
    ensures Settle(d, s', u).cells[v] == s.cells[v] && Met(d, Settle(d, s', u), v)
  {
    MetNotDoomed(d, s, v);
    forall i: nat | i < |d.edges| && Enters(d, i, v) ensures EdgeAt(d, s, i) == EdgeAt(d, s', i) {
      assert Live(s'.cells[u].status) || d.edges[i].src != u;
    }
    assert SameInputs(d, s, s', v);
    SameInputsSameJoin(d, s, s', v);
    if Ran(s'.cells[u].status) {
      ResolvedReasoned(d, s, s', u);
      BounceReasoned(d, s', u);
      BounceElsewhere(d, s', u, v);
      SkipsConsistent(d, Bounce(d, s', u));
    }
  }

  lemma BounceElsewhere(d: Doc, s: State, u: nat, v: nat)
    requires Fits(d, s) && u < |d.units| && v < |d.units| && Met(d, s, v)
    requires forall i: nat | i < |d.edges| && d.edges[i].back && d.edges[i].src == u ::
               v !in ReachSet(d, d.edges[i].dst)
    ensures Bounce(d, s, u).cells[v] == s.cells[v] && Met(d, Bounce(d, s, u), v)
  {
    match Firing(d, s, u, 0)
    case None =>
    case Some(k) =>
      var target := d.edges[k].dst;
      var r := Bounce(d, s, u);
      ReachSetClosed(d, target);
      forall i: nat | i < |d.edges| && Enters(d, i, v) ensures EdgeAt(d, s, i) == EdgeAt(d, r, i) {
        assert Forward(d, i) && Arc(d, d.edges[i].src, v);
      }
      assert SameInputs(d, s, r, v);
      SameInputsSameJoin(d, s, r, v);
  }

  /** What a bounce and the skips do to a unit's record: nothing, a fresh start, or a skip. */
  predicate Loosened(s: State, s': State) {
    && |s'.cells| == |s.cells|
    && forall v: nat | v < |s.cells| ::
         || s'.cells[v] == s.cells[v]
         || s'.cells[v] == FRESH
         || s'.cells[v] == FRESH.(status := Skipped)
         || (s.cells[v].status.Pending? && s'.cells[v] == s.cells[v].(status := Skipped))
  }

  lemma SettleLoosens(d: Doc, s: State, u: nat)
    requires Fits(d, s) && u < |d.units|
    ensures Loosened(s, Settle(d, s, u))
  {
    hide Skips, ReachSet, Firing;
    if Ran(s.cells[u].status) {
      var b := Bounce(d, s, u);
      forall v: nat | v < |d.units| ensures b.cells[v] == s.cells[v] || b.cells[v] == FRESH {
      }
      forall v: nat | v < |d.units|
        ensures Skips(d, b).cells[v] == b.cells[v] ||
                (b.cells[v].status.Pending? && Skips(d, b).cells[v] == b.cells[v].(status := Skipped))
      {
        SkipsOnlyPending(d, b, v);
      }
    }
  }
}
