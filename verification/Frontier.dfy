/** Who may go, who never will. */
module Frontier {
  // What the join rules, the skip fixpoint and the back-edges come to, told from statuses, edge kinds and
  // counters alone.

  import opened Documents
  import opened Validator
  import opened WalkState

  /** A source that ended this way satisfies an edge of this kind: it succeeded and the kind is success or
      completion, or it failed and the kind is failure or completion. */
  predicate Suits(st: Status, on: EdgeKind) {
    (st == Success && (on == OnSuccess || on == OnCompletion)) || (st == Failure && (on == OnFailure || on == OnCompletion))
  }

  /** A source that ended this way never will: it was skipped, or it ended the other way. */
  predicate Spoils(st: Status, on: EdgeKind) {
    st == Skipped || (st == Success && on == OnFailure) || (st == Failure && on == OnSuccess)
  }

  /** The status of the source of edge i. */
  function From(d: Doc, s: State, i: nat): Status
    requires Fits(d, s) && i < |d.edges|
  {
    s.cells[d.edges[i].src].status
  }

  /** A forward edge leads into u. */
  predicate Into(d: Doc, i: nat, u: nat) {
    i < |d.edges| && Forward(d, i) && d.edges[i].dst == u
  }

  /** The way to u is clear. */
  ghost predicate Cleared(d: Doc, s: State, u: nat)
    requires Fits(d, s) && u < |d.units|
  {
    match d.units[u].join
    case JoinAll => forall i: nat | Into(d, i, u) :: Suits(From(d, s, i), d.edges[i].on)
    case JoinAny =>
      (forall i: nat :: !Into(d, i, u)) ||
      ((forall i: nat | Into(d, i, u) :: From(d, s, i) != Pending && From(d, s, i) != Dispatched) &&
       exists i: nat :: Into(d, i, u) && Suits(From(d, s, i), d.edges[i].on))
  }

  /** The way to u is cut off for good. */
  ghost predicate CutOff(d: Doc, s: State, u: nat)
    requires Fits(d, s) && u < |d.units|
  {
    match d.units[u].join
    case JoinAll => exists i: nat :: Into(d, i, u) && Spoils(From(d, s, i), d.edges[i].on)
    case JoinAny =>
      (exists i: nat :: Into(d, i, u)) && forall i: nat | Into(d, i, u) :: Spoils(From(d, s, i), d.edges[i].on)
  }

  /** The kinds of the edges by which u was reached. */
  function Grounds(d: Doc, s: State, u: nat): set<EdgeKind>
    requires Fits(d, s)
  {
    set i: nat | i < |d.edges| && Into(d, i, u) && Suits(From(d, s, i), d.edges[i].on) :: d.edges[i].on
  }

  lemma EdgeMeans(d: Doc, s: State, i: nat, u: nat)
    requires Fits(d, s)
    ensures u < |d.units| ==> (Into(d, i, u) <==> Enters(d, i, u))
    ensures i < |d.edges| ==> (EdgeAt(d, s, i).Satisfied? <==> Suits(From(d, s, i), d.edges[i].on))
    ensures i < |d.edges| ==> (EdgeAt(d, s, i).Dead? <==> Spoils(From(d, s, i), d.edges[i].on))
    ensures i < |d.edges| ==> (EdgeAt(d, s, i).Open? <==> From(d, s, i) == Pending || From(d, s, i) == Dispatched)
  {
  }

  /** The join holds exactly where the way is clear, and can no longer hold exactly where it is cut off. */
  lemma JoinMeans(d: Doc, s: State, u: nat)
    requires Fits(d, s) && u < |d.units|
    ensures Met(d, s, u) <==> Cleared(d, s, u)
    ensures Doomed(d, s, u) <==> CutOff(d, s, u)
    ensures Via(d, s, u) == Grounds(d, s, u)
  {
    hide EdgeAt, Enters, Suits, Spoils, From, Into;
    forall i: nat
      ensures Into(d, i, u) <==> Enters(d, i, u)
      ensures i < |d.edges| ==> (EdgeAt(d, s, i).Satisfied? <==> Suits(From(d, s, i), d.edges[i].on))
      ensures i < |d.edges| ==> (EdgeAt(d, s, i).Dead? <==> Spoils(From(d, s, i), d.edges[i].on))
      ensures i < |d.edges| ==> (EdgeAt(d, s, i).Open? <==> From(d, s, i) == Pending || From(d, s, i) == Dispatched)
    {
      EdgeMeans(d, s, i, u);
    }
    forall i: nat | Into(d, i, u) ensures i < |d.edges| {
      IntoBound(d, i, u);
    }
  }

  lemma IntoBound(d: Doc, i: nat, u: nat)
    requires Into(d, i, u)
    ensures i < |d.edges|
  {
  }

  /** Who may be dispatched, in every state: what is out already, and each pending unit that nothing gates, or
      whose sources all ended as their edges ask, or, with an "any" join, have all ended and one of them so. */
  lemma CandidatesMean(d: Doc, s: State, u: nat)
    requires Fits(d, s) && u < |d.units|
    ensures u in Candidates(d, s, 0) <==>
              s.cells[u].status == Dispatched || (s.cells[u].status == Pending && Cleared(d, s, u))
    ensures s.cells[u].status == Pending && (forall i: nat :: !Into(d, i, u)) ==> u in Candidates(d, s, 0)
  {
    hide Candidates, Met;
    CandidatesExact(d, s);
    JoinMeans(d, s, u);
  }

  /** r is s after skips have spread: the pending units that r itself cuts off are skipped, nothing else changed. */
  ghost predicate Spread(d: Doc, s: State, r: State)
    requires Fits(d, s)
  {
    && Fits(d, r) && r == s.(cells := r.cells)
    && forall u: nat | u < |d.units| ::
         r.cells[u] == if s.cells[u].status == Pending && CutOff(d, r, u) then s.cells[u].(status := Skipped) else s.cells[u]
  }

  lemma {:induction false} SpreadUnique(d: Doc, s: State, a: State, b: State, rank: seq<nat>, u: nat)
    requires Fits(d, s) && Ranked(d, rank) && Spread(d, s, a) && Spread(d, s, b) && u < |d.units|
    ensures a.cells[u] == b.cells[u]
    decreases rank[u]
  {
    forall i: nat | Into(d, i, u) ensures i < |d.edges| && From(d, a, i) == From(d, b, i) {
      assert Forward(d, i) && Arc(d, d.edges[i].src, u);
      SpreadUnique(d, s, a, b, rank, d.edges[i].src);
    }
    hide Suits, Spoils, From, Into;
    assert CutOff(d, a, u) <==> CutOff(d, b, u);
  }

  /** Who is skipped: of all states, the skip loop ends in the one that Spread describes. */
  lemma SkipsMean(d: Doc, s: State, r: State)
    requires Valid(d) && Fits(d, s)
    ensures r == Skips(d, s) <==> Spread(d, s, r)
  {
    SkipsSpread(d, s);
    if Spread(d, s, r) {
      var rank := AcyclicRank(d);
      forall u: nat | u < |d.units| ensures r.cells[u] == Skips(d, s).cells[u] {
        SpreadUnique(d, s, r, Skips(d, s), rank, u);
      }
      assert r.cells == Skips(d, s).cells;
    }
  }

  lemma SkipsSpread(d: Doc, s: State)
    requires Fits(d, s)
    ensures Spread(d, s, Skips(d, s))
  {
    hide Doomed, CutOff, SkipSet;
    var r := Skips(d, s);
    forall u: nat | u < |d.units|
      ensures r.cells[u] == if s.cells[u].status == Pending && CutOff(d, r, u) then s.cells[u].(status := Skipped) else s.cells[u]
    {
      SkipsCell(d, s, u);
      JoinMeans(d, r, u);
      if u in SkipSet(d, s) {
        SkipSetDoomed(d, s, u);
      }
    }
  }

  // -------------------------------------------------------------------------------------- back-edges

  /** Back-edge i, of the unit u that ended, may be taken: its kind asks for this end, and it was taken less
      often than its cap allows. */
  predicate Takes(d: Doc, s: State, i: nat, u: nat)
    requires Fits(d, s) && u < |d.units|
  {
    && i < |d.edges| && d.edges[i].back && d.edges[i].src == u
    && Suits(s.cells[u].status, d.edges[i].on)
    && Bounces(s, u, d.edges[i].dst) < d.edges[i].maxBounces
  }

  ghost predicate FirstTaken(d: Doc, s: State, i: nat, u: nat)
    requires Fits(d, s) && u < |d.units|
  {
    Takes(d, s, i, u) && forall j: nat | j < i :: !Takes(d, s, j, u)
  }

  /** m is s after the walk was sent back to a target: one more bounce is counted, and the target and all that
      forward edges lead to from it starts over. */
  ghost predicate SentBack(d: Doc, s: State, u: nat, target: nat, m: State)
    requires Fits(d, s)
  {
    && m.bounces == s.bounces[(u, target) := Bounces(s, u, target) + 1]
    && m.sessions == s.sessions && m.done == s.done && |m.cells| == |s.cells|
    && forall v: nat | v < |s.cells| ::
         m.cells[v] == if Reaches(d, target, v) then Cell(Pending, 0, 1, false, None) else s.cells[v]
  }

  /** m is s after the back-edges of the unit that just ended: the first that may be taken is. */
  ghost predicate Returned(d: Doc, s: State, u: nat, m: State)
    requires Fits(d, s) && u < |d.units|
  {
    if exists i: nat :: FirstTaken(d, s, i, u)
    then exists i: nat :: FirstTaken(d, s, i, u) && SentBack(d, s, u, d.edges[i].dst, m)
    else m == s
  }

  /** r is s after unit u has ended: a back-edge may send the walk back, then skips spread. */
  ghost predicate Settled(d: Doc, s: State, u: nat, r: State)
    requires Fits(d, s) && u < |d.units|
  {
    exists m: State :: Returned(d, s, u, m) && Fits(d, m) && Spread(d, m, r)
  }

  lemma TakesMeans(d: Doc, s: State, i: nat, u: nat)
    requires Fits(d, s) && u < |d.units|
    ensures Takes(d, s, i, u) <==> i < |d.edges| && Fires(d, s, i, u)
  {
  }

  lemma {:induction false} FirstTakenExists(d: Doc, s: State, i: nat, u: nat) returns (j: nat)
    requires Fits(d, s) && u < |d.units| && Takes(d, s, i, u)
    ensures j <= i && FirstTaken(d, s, j, u)
  {
    hide Takes;
    j := 0;
    while !Takes(d, s, j, u)
      invariant j <= i && forall k: nat | k < j :: !Takes(d, s, k, u)
      decreases i - j
    {
      j := j + 1;
    }
  }

  lemma {:induction false} FiringFirst(d: Doc, s: State, u: nat, i: nat)
    requires Fits(d, s) && u < |d.units| && i <= |d.edges|
    ensures var r := Firing(d, s, u, i);
            r.Some? ==> forall j: nat | i <= j < r.value :: !Fires(d, s, j, u)
    decreases |d.edges| - i
  {
    hide Fires;
    if i < |d.edges| && !Fires(d, s, i, u) {
      FiringFirst(d, s, u, i + 1);
    }
  }

  lemma BounceReturned(d: Doc, s: State, u: nat, m: State)
    requires Fits(d, s) && u < |d.units|
    ensures m == Bounce(d, s, u) <==> Returned(d, s, u, m)
  {
    hide Fires, Takes;
    var f := Firing(d, s, u, 0);
    FiringFirst(d, s, u, 0);
    forall i: nat ensures Takes(d, s, i, u) <==> i < |d.edges| && Fires(d, s, i, u) {
      TakesMeans(d, s, i, u);
    }
    if f.Some? {
      assert FirstTaken(d, s, f.value, u);
      forall i: nat | FirstTaken(d, s, i, u) ensures i == f.value {
        assert !(i < f.value) && !(f.value < i);
      }
      ResetSentBack(d, s, u, d.edges[f.value].dst, m);
    }
  }

  lemma ResetSentBack(d: Doc, s: State, u: nat, target: nat, m: State)
    requires Fits(d, s)
    ensures m == Reset(d, CountBounce(s, u, target), target) <==> SentBack(d, s, u, target, m)
  {
    var r := Reset(d, CountBounce(s, u, target), target);
    if SentBack(d, s, u, target, m) {
      forall v: nat | v < |s.cells| ensures m.cells[v] == r.cells[v] {
        assert Reaches(d, target, v) <==> v in ReachSet(d, target);
      }
      assert m.cells == r.cells;
    }
  }

  /** What follows the end of a unit, in every state: the walk is sent back by the first back-edge that may be
      taken, if there is one, and what is then cut off is skipped. */
  lemma SettleMeans(d: Doc, s: State, u: nat, r: State)
    requires Valid(d) && Fits(d, s) && u < |d.units|
    ensures Ran(s.cells[u].status) ==> (r == Settle(d, s, u) <==> Settled(d, s, u, r))
    ensures !Ran(s.cells[u].status) ==> Settle(d, s, u) == s
  {
    hide Spread, Returned, Skips, Bounce, Valid;
    if Ran(s.cells[u].status) {
      var m := Bounce(d, s, u);
      BounceReturned(d, s, u, m);
      SkipsMean(d, m, r);
      forall n: State | Returned(d, s, u, n) ensures n == m {
        BounceReturned(d, s, u, n);
      }
    }
  }
}
