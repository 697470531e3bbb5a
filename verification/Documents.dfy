/** Pipeline documents as the walk sees them. */
module Documents {
  // A unit is a top-level vertex of the graph: a plain node, or a loop/stage container together with its
  // children. Units are named by their position in document order and nodes by their id.

  datatype Option<+T> = None | Some(value: T)

  datatype EdgeKind = OnSuccess | OnFailure | OnCompletion

  datatype Join = JoinAll | JoinAny

  datatype Edge = Edge(src: nat, dst: nat, on: EdgeKind, back: bool, maxBounces: nat)

  datatype Activity = Session | Call(pipeline: string, wait: bool)

  datatype Node = Node(id: string, activity: Activity)

  datatype Kind = Plain | Stage | Loop(maxRounds: nat)

  datatype Unit = Unit(kind: Kind, join: Join, children: seq<Node>)

  datatype Doc = Doc(units: seq<Unit>, edges: seq<Edge>, maxSessions: nat, maxParallel: nat)

  const MAX_BOUNCES_CEIL: nat := 9
  const MAX_ROUNDS_CEIL: nat := 99
  const MAX_SESSIONS_CEIL: nat := 500
  const MAX_PARALLEL_CEIL: nat := 8

  /** The number of rounds a unit may run: only loops repeat. */
  function Rounds(unit: Unit): nat {
    match unit.kind
    case Loop(maxRounds) => maxRounds
    case _ => 1
  }

  // ---------------------------------------------------------------------------------- paths

  /** Edge i takes part in the traversal graph: not a back-edge, both ends top-level units. */
  predicate Forward(d: Doc, i: nat)
    requires i < |d.edges|
  {
    !d.edges[i].back && d.edges[i].src < |d.units| && d.edges[i].dst < |d.units|
  }

  predicate Arc(d: Doc, u: nat, v: nat) {
    exists i: nat | i < |d.edges| :: Forward(d, i) && d.edges[i].src == u && d.edges[i].dst == v
  }

  ghost predicate IsPath(d: Doc, p: seq<nat>) {
    && |p| > 0
    && (forall k | 0 <= k < |p| :: p[k] < |d.units|)
    && (forall i: nat, j: nat | j == i + 1 < |p| :: Arc(d, p[i], p[j]))
  }

  /** v is u, or transitively downstream of u over forward edges. */
  ghost predicate Reaches(d: Doc, u: nat, v: nat) {
    exists p :: IsPath(d, p) && p[0] == u && p[|p| - 1] == v
  }

  /** a is a strict ancestor of u. */
  ghost predicate Upstream(d: Doc, a: nat, u: nat) {
    exists p :: IsPath(d, p) && |p| > 1 && p[0] == a && p[|p| - 1] == u
  }

  ghost predicate Acyclic(d: Doc) {
    forall u: nat | u < |d.units| :: !Upstream(d, u, u)
  }

  /** A numbering that grows along every forward edge. */
  ghost predicate Ranked(d: Doc, rank: seq<nat>) {
    && |rank| == |d.units|
    && forall u: nat, v: nat | u < |rank| && v < |rank| && Arc(d, u, v) :: rank[u] < rank[v]
  }

  lemma ReachesSelf(d: Doc, u: nat)
    requires u < |d.units|
    ensures Reaches(d, u, u)
  {
    assert IsPath(d, [u]);
  }

  lemma ReachesStep(d: Doc, u: nat, v: nat, w: nat)
    requires Reaches(d, u, v) && Arc(d, v, w)
    ensures Reaches(d, u, w) && Upstream(d, u, w)
  {
    var p :| IsPath(d, p) && p[0] == u && p[|p| - 1] == v;
    var q := p + [w];
    assert IsPath(d, q) && q[0] == u && q[|q| - 1] == w && |q| > 1;
  }

  lemma ReachesSplit(d: Doc, u: nat, v: nat)
    requires Reaches(d, u, v)
    ensures u == v || Upstream(d, u, v)
    ensures u < |d.units| && v < |d.units|
  {
    var p :| IsPath(d, p) && p[0] == u && p[|p| - 1] == v;
    if |p| > 1 {
      assert IsPath(d, p) && |p| > 1 && p[0] == u && p[|p| - 1] == v;
    }
  }

  lemma {:induction false} RankedPath(d: Doc, rank: seq<nat>, p: seq<nat>)
    requires Ranked(d, rank) && IsPath(d, p)
    ensures rank[p[0]] + |p| - 1 <= rank[p[|p| - 1]]
  {
    if |p| > 1 {
      var q := p[..|p| - 1];
      RankedPath(d, rank, q);
      assert Arc(d, p[|p| - 2], p[|p| - 1]);
    }
  }

  lemma RankedAcyclic(d: Doc, rank: seq<nat>)
    requires Ranked(d, rank)
    ensures Acyclic(d)
  {
    forall u: nat | u < |d.units| ensures !Upstream(d, u, u) {
      if Upstream(d, u, u) {
        var p :| IsPath(d, p) && |p| > 1 && p[0] == u && p[|p| - 1] == u;
        RankedPath(d, rank, p);
      }
    }
  }

  // ------------------------------------------------------- a set closed under parents has a cycle

  /** The first n numbers. */
  function Below(n: nat): (s: set<nat>)
    ensures |s| == n && forall u: nat :: u in s <==> u < n
  {
    if n == 0 then {} else Below(n - 1) + {n - 1}
  }

  lemma {:induction false} BelowBounds(s: set<nat>, n: nat)
    requires s <= Below(n)
    ensures |s| <= n
  {
    if n > 0 {
      BelowBounds(s - {n - 1}, n - 1);
    }
  }

  ghost predicate HasParentIn(d: Doc, s: set<nat>, u: nat) {
    exists v | v in s :: Arc(d, v, u)
  }

  /** Every member of s has a parent in s. */
  ghost predicate ParentClosed(d: Doc, s: set<nat>) {
    && s <= Below(|d.units|)
    && forall u {:trigger HasParentIn(d, s, u)} | u in s :: HasParentIn(d, s, u)
  }

  lemma {:induction false} BackwardPath(d: Doc, s: set<nat>, k: nat) returns (p: seq<nat>)
    requires ParentClosed(d, s) && s != {}
    ensures |p| == k + 1 && IsPath(d, p) && forall x | x in p :: x in s
  {
    if k == 0 {
      var u :| u in s;
      p := [u];
    } else {
      var q := BackwardPath(d, s, k - 1);
      assert q[0] in q && HasParentIn(d, s, q[0]);
      var v :| v in s && Arc(d, v, q[0]);
      p := [v] + q;
    }
  }

  lemma {:induction false} Pigeonhole(p: seq<nat>, s: set<nat>)
    requires |p| > |s| && forall x | x in p :: x in s
    ensures exists i, j :: 0 <= i < j < |p| && p[i] == p[j]
  {
    var last := p[|p| - 1];
    var front := p[..|p| - 1];
    if last in front {
      var i :| 0 <= i < |front| && front[i] == last;
      assert p[i] == p[|p| - 1];
    } else {
      forall x | x in front ensures x in s - {last} {
        assert x in p;
      }
      assert last in p;
      Pigeonhole(front, s - {last});
      var i, j :| 0 <= i < j < |front| && front[i] == front[j];
      assert p[i] == p[j];
    }
  }

  lemma ParentClosedCycle(d: Doc, s: set<nat>)
    requires ParentClosed(d, s) && s != {}
    ensures !Acyclic(d)
  {
    var p := BackwardPath(d, s, |s|);
    Pigeonhole(p, s);
    var i, j :| 0 <= i < j < |p| && p[i] == p[j];
    var c := p[i..j + 1];
    assert forall k: nat | k < |c| :: c[k] == p[i + k];
    assert IsPath(d, c) && |c| > 1 && c[0] == p[i] && c[|c| - 1] == p[i];
    assert Upstream(d, p[i], p[i]);
  }

  /** Numbering the units left in s, given one that already covers the rest. */
  lemma {:induction false} Number(d: Doc, s: set<nat>, rank: seq<nat>) returns (full: seq<nat>)
    requires Acyclic(d) && |rank| == |d.units| && s <= Below(|rank|)
    requires forall u: nat, v: nat | u < |rank| && v < |rank| && v !in s && Arc(d, u, v) ::
               u !in s && rank[u] < rank[v]
    requires forall u | u in Below(|rank|) - s :: rank[u] < |rank| - |s|
    ensures Ranked(d, full)
    decreases |s|
  {
    if s == {} {
      full := rank;
    } else {
      if ParentClosed(d, s) {
        ParentClosedCycle(d, s);
      }
      var u :| u in s && !HasParentIn(d, s, u);
      BelowBounds(s, |rank|);
      full := Number(d, s - {u}, rank[u := |rank| - |s|]);
    }
  }

  /** Acyclic is the same as having a topological numbering. */
  lemma AcyclicRank(d: Doc) returns (rank: seq<nat>)
    requires Acyclic(d)
    ensures Ranked(d, rank)
  {
    rank := Number(d, Below(|d.units|), seq(|d.units|, _ => 0));
  }
}
