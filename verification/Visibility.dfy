/** Which outputs a reference may name. */
module Visibility {
  // The ancestor search and the back-edge channel of the static check, against what has really run when a
  // session is handed out.

  import opened Documents
  import opened Validator
  import opened WalkState
  import opened Dispatch
  import opened WalkInvariants
  import opened Moves
  import opened Machine
  import opened Runs

  ghost function AncestorSet(d: Doc, u: nat): set<nat> {
    set a | a in Below(|d.units|) && Upstream(d, a, u)
  }

  ghost predicate ParentAdjacency(d: Doc, parents: seq<seq<nat>>) {
    && |parents| == |d.units|
    && forall u: nat, v: nat | v < |parents| :: u in parents[v] <==> Arc(d, u, v)
  }

  method ParentLists(d: Doc) returns (parents: seq<seq<nat>>)
    ensures ParentAdjacency(d, parents)
  {
    parents := seq(|d.units|, _ => []);
    for i := 0 to |d.edges|
      invariant |parents| == |d.units|
      invariant forall u: nat, v: nat | v < |parents| :: u in parents[v] <==> ArcBefore(d, i, u, v)
    {
      var e := d.edges[i];
      if Forward(d, i) {
        parents := parents[e.dst := parents[e.dst] + [e.src]];
      }
      forall u: nat, v: nat
        ensures ArcBefore(d, i + 1, u, v) <==>
                ArcBefore(d, i, u, v) || (Forward(d, i) && e.src == u && e.dst == v)
      {
      }
    }
    forall u: nat, v: nat ensures Arc(d, u, v) <==> ArcBefore(d, |d.edges|, u, v) {
    }
  }

  lemma UpstreamOfParent(d: Doc, a: nat, b: nat, u: nat)
    requires Arc(d, a, b) && Upstream(d, b, u)
    ensures Upstream(d, a, u)
  {
    var p :| IsPath(d, p) && |p| > 1 && p[0] == b && p[|p| - 1] == u;
    var q := [a] + p;
    assert IsPath(d, q) && |q| > 1 && q[0] == a && q[|q| - 1] == u;
  }

  lemma UpstreamDirect(d: Doc, a: nat, u: nat)
    requires Arc(d, a, u)
    ensures Upstream(d, a, u)
  {
    ReachesSelf(d, a);
    ReachesStep(d, a, a, u);
  }

  /** A set holding u's parents and closed under parents holds every strict ancestor of u. */
  lemma {:induction false} AncestorsInClosed(d: Doc, parents: seq<seq<nat>>, p: seq<nat>, s: set<nat>)
    requires ParentAdjacency(d, parents) && IsPath(d, p) && |p| > 1
    requires Members(parents[p[|p| - 1]]) <= s && ClosedUnder(parents, s)
    ensures p[0] in s
  {
    var q := p[..|p| - 1];
    assert Arc(d, p[|p| - 2], p[|p| - 1]);
    assert p[|p| - 2] in Members(parents[p[|p| - 1]]);
    if |q| > 1 {
      assert Members(parents[q[|q| - 1]]) <= s;
      AncestorsInClosed(d, parents, q, s);
    }
  }

  /** The ancestor search finds exactly the strict ancestors over forward edges. */
  method Ancestors(d: Doc, u: nat) returns (seen: set<nat>)
    requires u < |d.units|
    ensures seen == AncestorSet(d, u)
  {
    var parents := ParentLists(d);
    ghost var above := AncestorSet(d, u);
    forall a | a in Members(parents[u]) ensures a in above {
      UpstreamDirect(d, a, u);
    }
    forall b: nat, a: nat | b in above && b < |parents| && a in parents[b] ensures a in above {
      UpstreamOfParent(d, a, b, u);
    }
    seen := Search(parents, parents[u], above);
    forall a | a in above ensures a in seen {
      var p :| IsPath(d, p) && |p| > 1 && p[0] == a && p[|p| - 1] == u;
      AncestorsInClosed(d, parents, p, seen);
    }
  }

  /** Back-edge i re-runs unit u on its way back to its own source. */
  ghost predicate Returns(d: Doc, i: nat, u: nat)
    requires i < |d.edges|
  {
    var e := d.edges[i];
    e.back && u in ReachSet(d, e.dst) && Upstream(d, u, e.src)
  }

  /** The node ids that a unit contributes: its own, or its children's. */
  function NodeIds(unit: Unit): set<string> {
    set k: nat | k < |unit.children| :: unit.children[k].id
  }

  /** The nodes of the back-edge sources, among the first n edges, that re-run u. */
  ghost function SoftNodes(d: Doc, u: nat, n: nat): set<string>
    requires Shaped(d) && n <= |d.edges|
  {
    set i: nat, id | i < n && Returns(d, i, u) && id in NodeIds(d.units[d.edges[i].src]) :: id
  }

  lemma SoftStep(d: Doc, u: nat, n: nat)
    requires Shaped(d) && n < |d.edges|
    ensures SoftNodes(d, u, n + 1) ==
              SoftNodes(d, u, n) + if Returns(d, n, u) then NodeIds(d.units[d.edges[n].src]) else {}
  {
    hide Shaped, Returns, NodeIds;
  }

  /** The code's test, on ancestor sets, is the bounce's own: a node is soft-visible exactly when it stands
      in the source of a back-edge that, fired, re-pends u, and u lies strictly upstream of that source. */
  method SoftVisible(d: Doc, u: nat) returns (soft: set<string>)
    requires Shaped(d) && u < |d.units|
    ensures soft == SoftNodes(d, u, |d.edges|)
    ensures forall id :: id in soft <==> exists i: nat, k: nat :: SoftBy(d, u, i, k, id)
  {
    var above := Ancestors(d, u);
    soft := {};
    for i := 0 to |d.edges|
      invariant soft == SoftNodes(d, u, i)
    {
      var e := d.edges[i];
      SoftStep(d, u, i);
      if e.back {
        var sourceAbove := Ancestors(d, e.src);
        ReachedIffAncestor(d, e.dst, u);
        if (u == e.dst || e.dst in above) && u in sourceAbove {
          soft := soft + NodeIds(d.units[e.src]);
        }
      }
    }
    forall id ensures id in soft <==> exists i: nat, k: nat :: SoftBy(d, u, i, k, id) {
      SoftExact(d, u, id);
    }
  }

  /** Node k of the source of back-edge i has this id; the edge leads back to where u is downstream, and u is upstream
      of its source. */
  ghost predicate SoftBy(d: Doc, u: nat, i: nat, k: nat, id: string) {
    && i < |d.edges| && d.edges[i].back && d.edges[i].src < |d.units|
    && Reaches(d, d.edges[i].dst, u) && Upstream(d, u, d.edges[i].src)
    && k < |d.units[d.edges[i].src].children| && d.units[d.edges[i].src].children[k].id == id
  }

  lemma SoftExact(d: Doc, u: nat, id: string)
    requires Shaped(d) && u < |d.units|
    ensures id in SoftNodes(d, u, |d.edges|) <==> exists i: nat, k: nat :: SoftBy(d, u, i, k, id)
  {
    hide Upstream, Reaches;
    if id in SoftNodes(d, u, |d.edges|) {
      var i: nat :| i < |d.edges| && Returns(d, i, u) && id in NodeIds(d.units[d.edges[i].src]);
      var k: nat :| k < |d.units[d.edges[i].src].children| && d.units[d.edges[i].src].children[k].id == id;
      assert SoftBy(d, u, i, k, id);
    }
    if i: nat, k: nat :| SoftBy(d, u, i, k, id) {
      assert Returns(d, i, u) && id in NodeIds(d.units[d.edges[i].src]);
    }
  }

  lemma ReachedIffAncestor(d: Doc, target: nat, u: nat)
    requires target < |d.units| && u < |d.units|
    ensures u in ReachSet(d, target) <==> u == target || target in AncestorSet(d, u)
  {
    if Reaches(d, target, u) {
      ReachesSplit(d, target, u);
    }
    if u == target {
      ReachesSelf(d, u);
    }
    if Upstream(d, target, u) {
      var p :| IsPath(d, p) && |p| > 1 && p[0] == target && p[|p| - 1] == u;
      assert Reaches(d, target, u);
    }
  }

  // ------------------------------------------------------------------- what has run by then

  /** The history has a line for child k of unit u. */
  predicate Recorded(s: State, u: nat, k: nat) {
    exists i: nat | i < |s.done| :: s.done[i].unit == u && s.done[i].pos == k
  }

  /** Children before the cursor are in the history; all of them once the unit succeeded. */
  ghost predicate Covered(d: Doc, s: State, u: nat)
    requires Fits(d, s) && u < |d.units|
  {
    && (forall k: nat | k < s.cells[u].pos :: Recorded(s, u, k))
    && (s.cells[u].status.Success? ==> forall k: nat | k < |d.units[u].children| :: Recorded(s, u, k))
  }

  ghost predicate AllCovered(d: Doc, s: State)
    requires Fits(d, s)
  {
    forall u: nat | u < |d.units| :: Covered(d, s, u)
  }

  lemma SettleCovered(d: Doc, s: State, u: nat)
    requires Fits(d, s) && AllCovered(d, s) && u < |d.units|
    ensures AllCovered(d, Settle(d, s, u))
  {
    hide Skips, ReachSet, Fires;
    if Ran(s.cells[u].status) {
      var b := Bounce(d, s, u);
      forall v: nat | v < |d.units| ensures Covered(d, Skips(d, b), v) {
        assert Covered(d, s, v);
        SkipsOnlyPending(d, b, v);
        assert forall k: nat | Recorded(s, v, k) :: Recorded(Skips(d, b), v, k);
      }
    }
  }

  /** The line that a resolution adds is the one its new record needs. */
  lemma ResolvedCovered(d: Doc, s: State, s': State, u: nat, e: Entry)
    requires Fits(d, s) && Fits(d, s') && AllCovered(d, s) && u < |d.units|
    requires s'.cells == s.cells[u := s'.cells[u]] && s'.done == s.done + [e]
    requires e.unit == u && e.pos == s.cells[u].pos
    requires s'.cells[u].pos <= s.cells[u].pos + 1
    requires s'.cells[u].status.Success? ==> s.cells[u].pos == |d.units[u].children| - 1
    ensures AllCovered(d, s')
  {
    forall v: nat | v < |d.units| ensures Covered(d, s', v) {
      assert Covered(d, s, v);
      forall k: nat | Recorded(s, v, k) ensures Recorded(s', v, k) {
        var i: nat :| i < |s.done| && s.done[i].unit == v && s.done[i].pos == k;
        assert s'.done[i] == s.done[i];
      }
      if v == u {
        assert s'.done[|s.done|] == e;
        assert Recorded(s', u, s.cells[u].pos);
      }
    }
  }

  lemma SessionCovered(t: Token, d: Doc, s: State, u: nat, r: Report)
    requires Possible(d, s, Move.Session(u, r)) && AllCovered(d, s)
    ensures AllCovered(d, Act(t, d, s, Move.Session(u, r)))
  {
    hide Settle, Met;
    var c := AfterSession(d.units[u], s.cells[u], r);
    var s' := Resolved(d, s, u, c, !r.error).(sessions := s.sessions + 1);
    ResolvedCovered(d, s, s', u, s'.done[|s.done|]);
    SettleCovered(d, s', u);
  }

  lemma CalledCovered(t: Token, d: Doc, s: State, u: nat, ok: bool)
    requires Possible(d, s, Called(u, ok)) && AllCovered(d, s)
    ensures AllCovered(d, Act(t, d, s, Called(u, ok)))
  {
    hide Settle, Met;
    var s' := Resolved(d, s, u, AfterCall(d.units[u], s.cells[u], ok), ok);
    ResolvedCovered(d, s, s', u, s'.done[|s.done|]);
    SettleCovered(d, s', u);
  }

  lemma MoveCovered(t: Token, d: Doc, s: State, m: Move)
    requires Possible(d, s, m) && AllCovered(d, s)
    ensures AllCovered(d, Act(t, d, s, m))
  {
    if m.Session? {
      SessionCovered(t, d, s, m.u, m.report);
    } else if m.Called? {
      CalledCovered(t, d, s, m.u, m.ok);
    } else {
      hide Settle, Met, AfterSession, AfterCall;
      forall v: nat | v < |d.units| ensures Covered(d, Act(t, d, s, m), v) {
        assert Covered(d, s, v);
        assert forall k: nat | Recorded(s, v, k) :: Recorded(Act(t, d, s, m), v, k);
      }
    }
  }

  lemma {:induction false} WalkedCovered(t: Token, d: Doc, ms: seq<Move>)
    requires Shaped(d)
    ensures Fits(d, Walked(t, d, ms)) && AllCovered(d, Walked(t, d, ms))
  {
    hide Effect, Possible, Covered;
    if ms != [] {
      WalkedCovered(t, d, ms[..|ms| - 1]);
      if Possible(d, Walked(t, d, ms[..|ms| - 1]), ms[|ms| - 1]) {
        MoveCovered(t, d, Walked(t, d, ms[..|ms| - 1]), ms[|ms| - 1]);
      }
    } else {
      InitCovered(d);
    }
  }

  lemma InitCovered(d: Doc)
    requires Shaped(d)
    ensures Fits(d, Init(d)) && AllCovered(d, Init(d))
  {
  }

  /** A path of "all" joins leads from a to u. */
  ghost predicate Surely(d: Doc, a: nat, u: nat) {
    exists p: seq<nat> :: IsPath(d, p) && AllJoinsAlong(d, p) && |p| > 1 && p[0] == a && p[|p| - 1] == u
  }

  /** In a document of "all" joins every strict ancestor is such. */
  lemma AllSurely(d: Doc, a: nat, u: nat)
    requires AllJoins(d) && a in AncestorSet(d, u)
    ensures Surely(d, a, u)
  {
  }

  /** In every execution, whatever the documents: every node of a unit that succeeded is in the history, and
      so is every earlier sibling of the node a unit stands at. */
  lemma NodesRecorded(es: seq<Event>, t: Token, u: nat)
    requires t in Exec(es).runs && u < |Exec(es).runs[t].doc.units|
    ensures var rf := Exec(es).runs[t]; Loaded(rf) && Covered(rf.doc, rf.state, u)
  {
    hide Exec, Valid, Walked, Covered;
    RunsLed(es, t);
    var rf := Exec(es).runs[t];
    var ms :| rf.state == Walked(t, rf.doc, ms);
    WalkedCovered(t, rf.doc, ms);
  }

  /** Visibility meets execution. Whenever a unit of a safe document is out, every ancestor that "all" joins
      lead from really ran, every node of such an ancestor that succeeded is in the history, and so is every
      earlier sibling of the node that is out. In a document of "all" joins these are all the ancestors. */
  lemma VisibleRan(es: seq<Event>, t: Token, u: nat)
    requires t in Exec(es).runs
    requires var rf := Exec(es).runs[t];
             u < |rf.doc.units| && u < |rf.state.cells| && rf.state.cells[u].status.Dispatched?
    ensures var rf := Exec(es).runs[t];
            && Loaded(rf)
            && (Safe(rf.doc) ==>
                  forall a | a in AncestorSet(rf.doc, u) && Surely(rf.doc, a, u) :: Ran(rf.state.cells[a].status))
            && (forall a, k: nat | a in AncestorSet(rf.doc, u) && rf.state.cells[a].status.Success? &&
                                   k < |rf.doc.units[a].children| :: Recorded(rf.state, a, k))
            && (forall k: nat | k < rf.state.cells[u].pos :: Recorded(rf.state, u, k))
            && (AllJoins(rf.doc) ==> forall a | a in AncestorSet(rf.doc, u) :: Surely(rf.doc, a, u))
  {
    hide Exec, Valid, Surely, Safe;
    RunsLed(es, t);
    var rf := Exec(es).runs[t];
    var d, s := rf.doc, rf.state;
    NodesRecorded(es, t, u);
    forall a | a in AncestorSet(d, u) ensures Covered(d, s, a) {
      NodesRecorded(es, t, a);
    }
    if Safe(d) {
      RunsReached(es, t);
      forall a | a in AncestorSet(d, u) && Surely(d, a, u) ensures Ran(s.cells[a].status) {
        SureRan(d, s, a, u);
      }
    }
    forall a | AllJoins(d) && a in AncestorSet(d, u) ensures Surely(d, a, u) {
      AllSurely(d, a, u);
    }
  }

  lemma SureRan(d: Doc, s: State, a: nat, u: nat)
    requires Shaped(d) && Fits(d, s) && Reached(d, s) && u < |d.units| && a < |d.units|
    requires Surely(d, a, u) && s.cells[u].status.Dispatched?
    ensures Ran(s.cells[a].status)
  {
    ReachedConsistent(d, s);
    assert Justified(d, s, u);
    var p :| IsPath(d, p) && AllJoinsAlong(d, p) && |p| > 1 && p[0] == a && p[|p| - 1] == u;
    AncestorsRan(d, s, p);
  }
}
