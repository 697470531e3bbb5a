/** The graph checks of document validation. */
module Validator {
  // Edge shapes, acyclicity by in-degree peeling, and the search that every back-edge target is an
  // ancestor of its source.

  import opened Documents

  // --------------------------------------------------------------------------- declarative side

  predicate Container(unit: Unit) { !unit.kind.Plain? }

  predicate ShapedEdge(d: Doc, e: Edge) {
    && e.src < |d.units|
    && e.dst < |d.units|
    && (e.back ==> 1 <= e.maxBounces <= MAX_BOUNCES_CEIL && Container(d.units[e.dst]))
  }

  predicate ShapedUnit(unit: Unit) {
    && |unit.children| > 0
    && (unit.kind.Plain? ==> |unit.children| == 1)
    && (unit.kind.Loop? ==> 1 <= unit.kind.maxRounds <= MAX_ROUNDS_CEIL)
  }

  predicate SameId(d: Doc, u: nat, k: nat, v: nat, m: nat) {
    && u < |d.units| && k < |d.units[u].children|
    && v < |d.units| && m < |d.units[v].children|
    && d.units[u].children[k].id == d.units[v].children[m].id
  }

  /** Node ids are unique across the document. */
  ghost predicate UniqueIds(d: Doc) {
    forall u: nat, k: nat, v: nat, m: nat {:trigger SameId(d, u, k, v, m)} ::
      SameId(d, u, k, v, m) ==> u == v && k == m
  }

  /** What every function of the walk may rely on: shapes that earlier checks established. */
  ghost predicate Shaped(d: Doc) {
    && |d.units| > 0
    && 1 <= d.maxSessions <= MAX_SESSIONS_CEIL
    && 1 <= d.maxParallel <= MAX_PARALLEL_CEIL
    && (forall u: nat | u < |d.units| :: ShapedUnit(d.units[u]))
    && (forall i: nat | i < |d.edges| :: ShapedEdge(d, d.edges[i]))
    && UniqueIds(d)
  }

  /** A document that validation accepts. */
  ghost predicate Valid(d: Doc) {
    && Shaped(d)
    && Acyclic(d)
    && forall i: nat | i < |d.edges| && d.edges[i].back :: Reaches(d, d.edges[i].dst, d.edges[i].src)
  }

  // ---------------------------------------------------------------------------- adjacency lists

  ghost predicate Adjacency(d: Doc, fwd: seq<seq<nat>>) {
    && |fwd| == |d.units|
    && forall u: nat, v: nat | u < |fwd| :: v in fwd[u] <==> Arc(d, u, v)
  }

  ghost predicate ArcBefore(d: Doc, i: nat, u: nat, v: nat)
    requires i <= |d.edges|
  {
    exists j: nat | j < i :: Forward(d, j) && d.edges[j].src == u && d.edges[j].dst == v
  }

  method ForwardLists(d: Doc) returns (fwd: seq<seq<nat>>)
    ensures Adjacency(d, fwd)
  {
    fwd := seq(|d.units|, _ => []);
    for i := 0 to |d.edges|
      invariant |fwd| == |d.units|
      invariant forall u: nat, v: nat | u < |fwd| :: v in fwd[u] <==> ArcBefore(d, i, u, v)
    {
      var e := d.edges[i];
      if Forward(d, i) {
        fwd := fwd[e.src := fwd[e.src] + [e.dst]];
      }
      forall u: nat, v: nat
        ensures ArcBefore(d, i + 1, u, v) <==>
                ArcBefore(d, i, u, v) || (Forward(d, i) && e.src == u && e.dst == v)
      {
      }
    }
    forall u: nat, v: nat ensures Arc(d, u, v) <==> ArcBefore(d, |d.edges|, u, v) {
    }
  }

  ghost function Members(s: seq<nat>): set<nat> { set x | x in s }

  ghost predicate Distinct(s: seq<nat>) {
    forall i: nat, j: nat | i < j < |s| :: s[i] != s[j]
  }

  ghost predicate Bounded(s: seq<nat>, n: nat) {
    forall i: nat | i < |s| :: s[i] < n
  }

  lemma AdjacencyBounds(d: Doc, fwd: seq<seq<nat>>)
    requires Adjacency(d, fwd)
    ensures forall u: nat | u < |fwd| :: Bounded(fwd[u], |fwd|)
  {
    forall u: nat, k: nat | u < |fwd| && k < |fwd[u]| ensures fwd[u][k] < |fwd| {
      assert fwd[u][k] in fwd[u] && Arc(d, u, fwd[u][k]);
    }
  }

  lemma {:induction false} DistinctSize(s: seq<nat>)
    requires Distinct(s)
    ensures |Members(s)| == |s|
  {
    if s != [] {
      var front := s[..|s| - 1];
      DistinctSize(front);
      assert Members(s) == Members(front) + {s[|s| - 1]};
    }
  }

  lemma DistinctBound(s: seq<nat>, n: nat)
    requires Distinct(s) && Bounded(s, n)
    ensures |s| <= n
    ensures |s| == n ==> forall t: nat | t < n :: t in s
  {
    DistinctSize(s);
    BelowBounds(Members(s), n);
    if |s| == n {
      forall t: nat | t < n ensures t in s {
        if t !in s {
          BelowBounds(Members(s) + {t}, n);
        }
      }
    }
  }

  // ------------------------------------------------------------------- acyclicity by peeling

  /** Edges into t whose source is not peeled yet, counted with multiplicity. */
  ghost function Incoming(fwd: seq<seq<nat>>, peeled: set<nat>, t: nat): nat {
    if fwd == [] then 0
    else
      var last := |fwd| - 1;
      Incoming(fwd[..last], peeled, t) + (if last in peeled then 0 else multiset(fwd[last])[t])
  }

  lemma {:induction false} IncomingPeel(fwd: seq<seq<nat>>, peeled: set<nat>, u: nat, t: nat)
    requires u < |fwd| && u !in peeled
    ensures Incoming(fwd, peeled, t) == Incoming(fwd, peeled + {u}, t) + multiset(fwd[u])[t]
  {
    var last := |fwd| - 1;
    if u == last {
      IncomingSame(fwd[..last], peeled, peeled + {u}, t);
    } else {
      IncomingPeel(fwd[..last], peeled, u, t);
    }
  }

  lemma {:induction false} IncomingSame(fwd: seq<seq<nat>>, a: set<nat>, b: set<nat>, t: nat)
    requires forall u: nat | u < |fwd| :: u in a <==> u in b
    ensures Incoming(fwd, a, t) == Incoming(fwd, b, t)
  {
    if fwd != [] {
      IncomingSame(fwd[..|fwd| - 1], a, b, t);
    }
  }

  lemma {:induction false} IncomingWitness(fwd: seq<seq<nat>>, peeled: set<nat>, t: nat)
    ensures Incoming(fwd, peeled, t) == 0 <==>
            forall u: nat | u < |fwd| && u !in peeled :: t !in fwd[u]
  {
    if fwd != [] {
      var last := |fwd| - 1;
      IncomingWitness(fwd[..last], peeled, t);
      assert forall u: nat | u < last :: fwd[..last][u] == fwd[u];
      assert t in fwd[last] <==> multiset(fwd[last])[t] > 0;
    }
  }

  /** In-degrees of every unit, counting parallel edges and self-loops. */
  method InDegrees(fwd: seq<seq<nat>>) returns (indeg: seq<nat>)
    requires forall u: nat | u < |fwd| :: Bounded(fwd[u], |fwd|)
    ensures |indeg| == |fwd|
    ensures forall t: nat | t < |fwd| :: indeg[t] == Incoming(fwd, {}, t)
  {
    indeg := seq(|fwd|, _ => 0);
    for f := 0 to |fwd|
      invariant |indeg| == |fwd|
      invariant forall t: nat | t < |fwd| :: indeg[t] == Incoming(fwd[..f], {}, t)
    {
      for k := 0 to |fwd[f]|
        invariant |indeg| == |fwd|
        invariant forall t: nat | t < |fwd| ::
                    indeg[t] == Incoming(fwd[..f], {}, t) + multiset(fwd[f][..k])[t]
      {
        var t: nat := fwd[f][k];
        assert t in fwd[f];
        assert fwd[f][..k + 1] == fwd[f][..k] + [t];
        indeg := indeg[t := indeg[t] + 1];
      }
      assert fwd[f][..|fwd[f]|] == fwd[f];
      assert fwd[..f + 1][..f] == fwd[..f];
    }
    assert fwd[..|fwd|] == fwd;
  }

  /** peeled is a prefix of a topological order. */
  ghost predicate Peeled(fwd: seq<seq<nat>>, order: seq<nat>) {
    && Bounded(order, |fwd|)
    && Distinct(order)
    && (forall u: nat, j: nat | u < |fwd| && j < |order| && order[j] in fwd[u] :: u in order[..j])
  }

  /** One peeled unit's targets lose one in-degree per edge; those that reach zero queue up. */
  method Release(targets: seq<nat>, before: seq<nat>, waiting: seq<nat>,
                 ghost order: seq<nat>, ghost left: seq<nat>)
    returns (indeg: seq<nat>, queue: seq<nat>)
    requires |left| == |before| && Bounded(targets, |left|)
    requires Distinct(order + waiting) && Bounded(order + waiting, |left|)
    requires forall t: nat | t < |left| :: before[t] == left[t] + multiset(targets)[t]
    requires forall t: nat | t < |left| :: before[t] == 0 <==> t in order + waiting
    ensures indeg == left
    ensures Distinct(order + queue) && Bounded(order + queue, |left|)
    ensures forall t: nat | t < |left| :: indeg[t] == 0 <==> t in order + queue
  {
    indeg, queue := before, waiting;
    assert targets[0..] == targets;
    for k := 0 to |targets|
      invariant |indeg| == |left|
      invariant Distinct(order + queue) && Bounded(order + queue, |left|)
      invariant forall t: nat | t < |left| :: indeg[t] == left[t] + multiset(targets[k..])[t]
      invariant forall t: nat | t < |left| :: indeg[t] == 0 <==> t in order + queue
    {
      var t := targets[k];
      assert targets[k..] == [t] + targets[k + 1..];
      indeg := indeg[t := indeg[t] - 1];
      if indeg[t] == 0 {
        assert order + (queue + [t]) == (order + queue) + [t];
        queue := queue + [t];
      }
    }
  }

  /** The queue-based in-degree loop: consumes every unit exactly when the forward edges are
      acyclic, whatever self-loops or parallel edges there are. */
  method Peel(d: Doc, fwd: seq<seq<nat>>) returns (cyclic: bool)
    requires Adjacency(d, fwd)
    ensures cyclic <==> !Acyclic(d)
  {
    AdjacencyBounds(d, fwd);
    var n := |fwd|;
    var indeg := InDegrees(fwd);
    var queue: seq<nat> := [];
    for u := 0 to n
      invariant Bounded(queue, u) && Distinct(queue)
      invariant forall v: nat | v < u :: indeg[v] == 0 <==> v in queue
    {
      if indeg[u] == 0 {
        queue := queue + [u];
      }
    }
    var seen := 0;
    ghost var order: seq<nat> := [];
    assert Members(order) == {};
    while |queue| > 0
      invariant |indeg| == n && seen == |order|
      invariant Peeled(fwd, order)
      invariant Distinct(order + queue) && Bounded(order + queue, n)
      invariant forall t: nat | t < n :: indeg[t] == Incoming(fwd, Members(order), t)
      invariant forall t: nat | t < n :: indeg[t] == 0 <==> t in order + queue
      decreases n - |order|
    {
      var u: nat := queue[0];
      ghost var before := order;
      ghost var waiting := queue;
      assert u == (order + queue)[|order|];
      forall i: nat | i < |order| ensures order[i] != u {
        assert (order + queue)[i] == order[i];
      }
      queue := queue[1..];
      seen := seen + 1;
      order := order + [u];
      assert before + waiting == order + queue;
      assert Members(order) == Members(before) + {u} && u !in Members(before);
      IncomingWitness(fwd, Members(before), u);
      assert forall j: nat | j <= |before| :: order[..j] == before[..j];
      forall t: nat | t < n
        ensures indeg[t] == Incoming(fwd, Members(order), t) + multiset(fwd[u])[t]
      {
        IncomingPeel(fwd, Members(before), u, t);
      }
      ghost var left := seq(n, t requires 0 <= t => Incoming(fwd, Members(order), t));
      indeg, queue := Release(fwd[u], indeg, queue, order, left);
      DistinctBound(order + queue, n);
    }
    assert order + queue == order;
    cyclic := seen < n;
    PeelVerdict(d, fwd, order);
  }


  lemma PeelVerdict(d: Doc, fwd: seq<seq<nat>>, order: seq<nat>)
    requires Adjacency(d, fwd) && Peeled(fwd, order)
    requires forall t: nat | t < |fwd| :: Incoming(fwd, Members(order), t) == 0 <==> t in order
    ensures |order| < |fwd| <==> !Acyclic(d)
  {
    var n := |fwd|;
    DistinctBound(order, n);
    if |order| == n {
      var rank := seq(n, u requires 0 <= u < n => PositionIn(order, u));
      forall u: nat, v: nat | u < n && v < n && Arc(d, u, v) ensures rank[u] < rank[v] {
        assert v in fwd[u] && order[rank[v]] == v;
        var i :| 0 <= i < |order[..rank[v]]| && order[..rank[v]][i] == u;
        assert order[rank[u]] == u;
      }
      RankedAcyclic(d, rank);
    } else {
      var left := Below(n) - Members(order);
      if left == {} {
        assert Below(n) <= Members(order);
        DistinctSize(order);
      }
      forall u | u in left ensures HasParentIn(d, left, u) {
        IncomingWitness(fwd, Members(order), u);
        var v: nat :| v < n && v !in Members(order) && u in fwd[v];
        assert v in left && Arc(d, v, u);
      }
      ParentClosedCycle(d, left);
    }
  }

  ghost function PositionIn(order: seq<nat>, u: nat): (i: nat)
    requires u in order
    ensures i < |order| && order[i] == u
  {
    var i: nat :| i < |order| && order[i] == u;
    i
  }

  // ------------------------------------------------------------------------- reachability search

  ghost predicate ClosedUnder(adj: seq<seq<nat>>, s: set<nat>) {
    forall u: nat, v: nat | u in s && u < |adj| && v in adj[u] :: v in s
  }

  lemma MembersPop(s: seq<nat>)
    requires |s| > 0
    ensures Members(s) == Members(s[..|s| - 1]) + {s[|s| - 1]}
  {
    assert s == s[..|s| - 1] + [s[|s| - 1]];
  }

  lemma MembersCat(a: seq<nat>, b: seq<nat>)
    ensures Members(a + b) == Members(a) + Members(b)
  {
  }

  /** The stack search behind a bounce reset and behind the ancestor set. Whatever closed set the
      start lies in, the search stays inside it; so it finds the least one. */
  method Search(adj: seq<seq<nat>>, start: seq<nat>, ghost bound: set<nat>) returns (reached: set<nat>)
    requires Members(start) <= bound <= Below(|adj|) && ClosedUnder(adj, bound)
    ensures Members(start) <= reached <= bound && ClosedUnder(adj, reached)
  {
    var stack := start;
    reached := {};
    while |stack| > 0
      invariant reached <= bound && Members(stack) <= bound
      invariant Members(start) <= reached + Members(stack)
      invariant forall u: nat | u in reached :: Members(adj[u]) <= reached + Members(stack)
      decreases |adj| - |reached|, |stack|
    {
      MembersPop(stack);
      BelowBounds(reached, |adj|);
      var u := stack[|stack| - 1];
      stack := stack[..|stack| - 1];
      if u !in reached {
        BelowBounds(reached + {u}, |adj|);
        MembersCat(stack, adj[u]);
        reached := reached + {u};
        stack := stack + adj[u];
      }
    }
    forall u: nat, v: nat | u in reached && u < |adj| && v in adj[u] ensures v in reached {
      assert v in Members(adj[u]);
    }
  }

  /** The search of the back-edge check: is source forward-reachable from target? */
  method FindsSource(d: Doc, fwd: seq<seq<nat>>, target: nat, source: nat) returns (found: bool)
    requires Adjacency(d, fwd) && target < |d.units|
    ensures found <==> Reaches(d, target, source)
  {
    AdjacencyBounds(d, fwd);
    ghost var downstream := ReachSet(d, target);
    ReachSetClosed(d, target);
    var stack := [target];
    var visited: set<nat> := {};
    found := false;
    while |stack| > 0
      invariant !found && visited <= downstream && Members(stack) <= downstream
      invariant source !in visited && target in visited + Members(stack)
      invariant forall u: nat | u in visited :: Members(fwd[u]) <= visited + Members(stack)
      decreases |fwd| - |visited|, |stack|
    {
      MembersPop(stack);
      BelowBounds(visited, |fwd|);
      var u := stack[|stack| - 1];
      stack := stack[..|stack| - 1];
      if u == source {
        found := true;
        break;
      }
      if u in visited {
        continue;
      }
      BelowBounds(visited + {u}, |fwd|);
      MembersCat(stack, fwd[u]);
      visited := visited + {u};
      stack := stack + fwd[u];
    }
    if !found && Reaches(d, target, source) {
      var p :| IsPath(d, p) && p[0] == target && p[|p| - 1] == source;
      forall u: nat, v: nat | u in visited && Arc(d, u, v) ensures v in visited {
        assert v in Members(fwd[u]);
      }
      PathStaysIn(d, p, visited);
    }
  }

  /** The units a bounce to target re-pends: target and everything downstream of it. */
  ghost function ReachSet(d: Doc, target: nat): (s: set<nat>)
    ensures s <= Below(|d.units|)
  {
    set v | v in Below(|d.units|) && Reaches(d, target, v)
  }

  lemma ReachSetClosed(d: Doc, target: nat)
    requires target < |d.units|
    ensures target in ReachSet(d, target)
    ensures forall u: nat, v: nat | u in ReachSet(d, target) && Arc(d, u, v) :: v in ReachSet(d, target)
  {
    ReachesSelf(d, target);
    forall u: nat, v: nat | u in ReachSet(d, target) && Arc(d, u, v)
      ensures v in ReachSet(d, target)
    {
      ReachesStep(d, target, u, v);
    }
  }

  lemma {:induction false} PathStaysIn(d: Doc, p: seq<nat>, s: set<nat>)
    requires IsPath(d, p) && p[0] in s
    requires forall u: nat, v: nat | u in s && Arc(d, u, v) :: v in s
    ensures forall x | x in p :: x in s
  {
    if |p| > 1 {
      var q := p[..|p| - 1];
      PathStaysIn(d, q, s);
      assert q[|q| - 1] in q && Arc(d, p[|p| - 2], p[|p| - 1]);
      assert p == q + [p[|p| - 1]];
    }
  }

  // ------------------------------------------------------------------------------ the validator

  datatype GraphError = BadEdge(i: nat) | Cycle | NotAncestor(i: nat)

  /** The edge checks of validation, in the order the document is read. */
  method CheckEdges(d: Doc) returns (errors: seq<GraphError>)
    ensures forall i: nat :: BadEdge(i) in errors <==> i < |d.edges| && !ShapedEdge(d, d.edges[i])
    ensures Cycle in errors <==> !Acyclic(d)
    ensures forall i: nat :: NotAncestor(i) in errors <==>
              && i < |d.edges| && d.edges[i].back
              && d.edges[i].src < |d.units| && d.edges[i].dst < |d.units|
              && !Reaches(d, d.edges[i].dst, d.edges[i].src)
  {
    errors := [];
    for i := 0 to |d.edges|
      invariant forall e | e in errors :: e.BadEdge?
      invariant forall k: nat :: BadEdge(k) in errors <==> k < i && !ShapedEdge(d, d.edges[k])
    {
      if !ShapedEdge(d, d.edges[i]) {
        errors := errors + [BadEdge(i)];
      }
    }
    var fwd := ForwardLists(d);
    var cyclic := Peel(d, fwd);
    if cyclic {
      errors := errors + [Cycle];
    }
    for i := 0 to |d.edges|
      invariant Cycle in errors <==> !Acyclic(d)
      invariant forall k: nat :: BadEdge(k) in errors <==> k < |d.edges| && !ShapedEdge(d, d.edges[k])
      invariant forall k: nat :: NotAncestor(k) in errors <==>
                  && k < i && d.edges[k].back
                  && d.edges[k].src < |d.units| && d.edges[k].dst < |d.units|
                  && !Reaches(d, d.edges[k].dst, d.edges[k].src)
    {
      var e := d.edges[i];
      if e.back && e.src < |d.units| && e.dst < |d.units| {
        var found := FindsSource(d, fwd, e.dst, e.src);
        if !found {
          errors := errors + [NotAncestor(i)];
        }
      }
    }
  }

  /** Acceptance by the edge checks is exactly graph validity. */
  lemma AcceptedIffValid(d: Doc, errors: seq<GraphError>)
    requires |d.units| > 0 && 1 <= d.maxSessions <= MAX_SESSIONS_CEIL
    requires 1 <= d.maxParallel <= MAX_PARALLEL_CEIL && UniqueIds(d)
    requires forall u: nat | u < |d.units| :: ShapedUnit(d.units[u])
    requires forall i: nat :: BadEdge(i) in errors <==> i < |d.edges| && !ShapedEdge(d, d.edges[i])
    requires Cycle in errors <==> !Acyclic(d)
    requires forall i: nat :: NotAncestor(i) in errors <==>
               && i < |d.edges| && d.edges[i].back
               && d.edges[i].src < |d.units| && d.edges[i].dst < |d.units|
               && !Reaches(d, d.edges[i].dst, d.edges[i].src)
    ensures errors == [] <==> Valid(d)
  {
    if errors != [] {
      assert errors[0] in errors;
      match errors[0]
      case BadEdge(i) => assert !ShapedEdge(d, d.edges[i]);
      case Cycle =>
      case NotAncestor(i) => assert !Reaches(d, d.edges[i].dst, d.edges[i].src);
    } else {
      forall i: nat | i < |d.edges| ensures ShapedEdge(d, d.edges[i]) {
        assert BadEdge(i) !in errors;
      }
      forall i: nat | i < |d.edges| && d.edges[i].back
        ensures Reaches(d, d.edges[i].dst, d.edges[i].src)
      {
        assert NotAncestor(i) !in errors;
      }
    }
  }

  // ----------------------------------------------------------------------- the implicit chain

  /** A document that declares no edges runs as a success chain over its units. */
  function EffectiveEdges(d: Doc): seq<Edge> {
    if d.edges != [] then d.edges
    else if |d.units| == 0 then []
    else seq(|d.units| - 1, i requires 0 <= i => Edge(i, i + 1, OnSuccess, false, 0))
  }

  function Started(d: Doc): Doc { d.(edges := EffectiveEdges(d)) }

  /** Starting a run never turns a valid document into an invalid one. */
  lemma StartedValid(d: Doc)
    requires Valid(d)
    ensures Valid(Started(d))
  {
    if d.edges == [] {
      var rank := seq(|d.units|, i requires 0 <= i => i as nat);
      var c := Started(d);
      assert Ranked(c, rank);
      RankedAcyclic(c, rank);
      forall u: nat, k: nat, v: nat, m: nat | SameId(c, u, k, v, m) ensures u == v && k == m {
        assert SameId(d, u, k, v, m);
      }
    }
  }
}
