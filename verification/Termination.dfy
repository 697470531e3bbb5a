/** Runs end. */
module Termination {
  // A potential over the rounds and children still to run, and over the bounces still allowed, falls with
  // every finished child, whatever the session cap says.

  import opened Counting
  import opened Documents
  import opened Validator
  import opened WalkState
  import opened WalkInvariants
  import opened Moves
  import opened Machine
  import opened Runs

  // ------------------------------------------------------------------------------ work left over

  function Size(unit: Unit): nat { Rounds(unit) * |unit.children| }

  /** Children a unit may still run before it must be terminal; a skipped unit that is handed out all the same
      runs them too. */
  function Left(unit: Unit, c: Cell): nat
    requires ShapedUnit(unit) && CellFits(unit, c)
  {
    if !Ran(c.status) then (Rounds(unit) - c.round) * |unit.children| + |unit.children| - c.pos else 0
  }

  ghost function Work(d: Doc, s: State, u: nat): nat
    requires Fits(d, s) && u <= |d.units|
    decreases |d.units| - u
  {
    if u == |d.units| then 0 else Left(d.units[u], s.cells[u]) + Work(d, s, u + 1)
  }

  ghost function Capacity(d: Doc, u: nat): nat
    requires u <= |d.units|
    decreases |d.units| - u
  {
    if u == |d.units| then 0 else Size(d.units[u]) + Capacity(d, u + 1)
  }

  lemma LeftBounds(unit: Unit, c: Cell)
    requires ShapedUnit(unit) && CellFits(unit, c)
    ensures Left(unit, c) <= Size(unit)
    ensures !Ran(c.status) ==> Left(unit, c) >= 1
    ensures Left(unit, FRESH) == Size(unit)
  {
    var n, r := |unit.children|, Rounds(unit);
    assert (r - c.round) * n + n == (r - c.round + 1) * n;
    assert (r - c.round + 1) * n <= r * n by {
      MultiplyMonotone(r - c.round + 1, r, n);
    }
    MultiplyMonotone(0, r - c.round, n);
    assert (r - 1) * n + n == r * n;
  }

  lemma MultiplyMonotone(a: int, b: int, n: nat)
    requires a <= b
    ensures a * n <= b * n
  {
  }

  lemma SessionLeft(unit: Unit, c: Cell, r: Report)
    requires ShapedUnit(unit) && CellFits(unit, c) && !Ran(c.status) && c.child.None?
    ensures Left(unit, AfterSession(unit, c, r)) < Left(unit, c)
  {
    LeftBounds(unit, c);
    if c.round < Rounds(unit) {
      OneMore(Rounds(unit) - c.round - 1, |unit.children|);
    }
  }

  lemma CallLeft(unit: Unit, c: Cell, ok: bool)
    requires ShapedUnit(unit) && CellFits(unit, c) && !Ran(c.status)
    ensures Left(unit, AfterCall(unit, c, ok)) < Left(unit, c)
  {
    LeftBounds(unit, c);
  }

  lemma {:induction false} WorkBelow(d: Doc, s: State, s': State, u: nat)
    requires Fits(d, s) && Fits(d, s') && u <= |d.units|
    requires forall v: nat | u <= v < |d.units| :: Left(d.units[v], s'.cells[v]) <= Left(d.units[v], s.cells[v])
    ensures Work(d, s', u) <= Work(d, s, u)
    ensures (exists v: nat :: u <= v < |d.units| && Left(d.units[v], s'.cells[v]) < Left(d.units[v], s.cells[v])) ==>
              Work(d, s', u) < Work(d, s, u)
    decreases |d.units| - u
  {
    if u < |d.units| {
      WorkBelow(d, s, s', u + 1);
    }
  }

  lemma {:induction false} WorkWithinCapacity(d: Doc, s: State, u: nat)
    requires Fits(d, s) && u <= |d.units|
    ensures Work(d, s, u) <= Capacity(d, u)
    decreases |d.units| - u
  {
    if u < |d.units| {
      LeftBounds(d.units[u], s.cells[u]);
      WorkWithinCapacity(d, s, u + 1);
    }
  }

  // ----------------------------------------------------------------------------- bounces left over

  /** Edges i and j are back-edges that share one bounce counter. */
  predicate SameKey(d: Doc, i: nat, j: nat)
    requires i < |d.edges| && j < |d.edges|
  {
    && d.edges[i].back && d.edges[j].back
    && d.edges[i].src == d.edges[j].src && d.edges[i].dst == d.edges[j].dst
  }

  /** The largest allowance among the back-edges before k that share the counter of edge i. */
  function Limit(d: Doc, i: nat, k: nat): (m: nat)
    requires i < |d.edges| && k <= |d.edges|
    ensures forall j: nat | j < k && SameKey(d, i, j) :: d.edges[j].maxBounces <= m
  {
    if k == 0 then 0
    else
      var rest := Limit(d, i, k - 1);
      if SameKey(d, i, k - 1) && d.edges[k - 1].maxBounces > rest then d.edges[k - 1].maxBounces else rest
  }

  /** Edge i is the first back-edge with its counter. */
  predicate Leading(d: Doc, i: nat)
    requires i < |d.edges|
  {
    d.edges[i].back && forall j: nat | j < i :: !SameKey(d, i, j)
  }

  /** Bounces still allowed on the counters that start at edge i or later. */
  ghost function Allowance(d: Doc, s: State, i: nat): nat
    requires i <= |d.edges|
    decreases |d.edges| - i
  {
    if i == |d.edges| then 0
    else
      var e := d.edges[i];
      var limit := Limit(d, i, |d.edges|);
      var used := Bounces(s, e.src, e.dst);
      (if Leading(d, i) && used < limit then limit - used else 0) + Allowance(d, s, i + 1)
  }

  lemma {:induction false} LeaderOf(d: Doc, k: nat) returns (l: nat)
    requires k < |d.edges| && d.edges[k].back
    ensures l <= k && Leading(d, l) && SameKey(d, l, k)
  {
    if j: nat :| j < k && SameKey(d, k, j) {
      l := LeaderOf(d, j);
    } else {
      l := k;
    }
  }

  lemma {:induction false} AllowanceSpent(d: Doc, s: State, s': State, k: nat, l: nat, i: nat)
    requires k < |d.edges| && l < |d.edges| && i <= |d.edges|
    requires Leading(d, l) && SameKey(d, l, k)
    requires s'.bounces == CountBounce(s, d.edges[k].src, d.edges[k].dst).bounces
    requires Bounces(s, d.edges[k].src, d.edges[k].dst) < d.edges[k].maxBounces
    ensures Allowance(d, s, i) == Allowance(d, s', i) + if i <= l then 1 else 0
    decreases |d.edges| - i
  {
    if i < |d.edges| {
      AllowanceSpent(d, s, s', k, l, i + 1);
      if i != l && Leading(d, i) {
        assert SameKey(d, i, l) <==> SameKey(d, l, i);
        assert !SameKey(d, i, l);
      }
    }
  }

  lemma {:induction false} AllowanceSame(d: Doc, s: State, s': State, i: nat)
    requires i <= |d.edges| && s'.bounces == s.bounces
    ensures Allowance(d, s, i) == Allowance(d, s', i)
    decreases |d.edges| - i
  {
    if i < |d.edges| {
      AllowanceSame(d, s, s', i + 1);
    }
  }

  // ----------------------------------------------------------------------------------- potential

  ghost function Potential(d: Doc, s: State): nat
    requires Fits(d, s)
  {
    Product(Allowance(d, s, 0), Capacity(d, 0)) + Work(d, s, 0)
  }

  lemma LeftSkipped(unit: Unit, c: Cell)
    requires ShapedUnit(unit) && CellFits(unit, c) && c.status.Pending?
    ensures Left(unit, c.(status := Skipped)) == Left(unit, c)
  {
  }

  lemma SkipsLeft(d: Doc, s: State, u: nat)
    requires Fits(d, s) && u < |d.units|
    ensures Left(d.units[u], Skips(d, s).cells[u]) == Left(d.units[u], s.cells[u])
  {
    hide Left, Skips;
    SkipsOnlyPending(d, s, u);
    if s.cells[u].status.Pending? {
      LeftSkipped(d.units[u], s.cells[u]);
    }
  }

  /** Skips neither take work away nor give any. */
  lemma SkipsWork(d: Doc, s: State)
    requires Fits(d, s)
    ensures Potential(d, Skips(d, s)) <= Potential(d, s)
  {
    AllowanceSame(d, s, Skips(d, s), 0);
    hide Skips, Left;
    forall u: nat | u < |d.units|
      ensures Left(d.units[u], Skips(d, s).cells[u]) <= Left(d.units[u], s.cells[u])
    {
      SkipsLeft(d, s, u);
    }
    WorkBelow(d, s, Skips(d, s), 0);
  }

  /** One allowance is worth a full capacity of work. */
  lemma AllowanceTraded(d: Doc, s: State, r: State)
    requires Fits(d, s) && Fits(d, r) && Allowance(d, s, 0) == Allowance(d, r, 0) + 1
    ensures Potential(d, r) <= Potential(d, s)
  {
    WorkWithinCapacity(d, r, 0);
    OneMore(Allowance(d, r, 0), Capacity(d, 0));
  }

  /** A bounce trades one allowance for at most one full capacity of work. */
  lemma BounceWork(d: Doc, s: State, u: nat)
    requires Fits(d, s) && u < |d.units|
    ensures Potential(d, Bounce(d, s, u)) <= Potential(d, s)
  {
    match Firing(d, s, u, 0)
    case None =>
    case Some(k) =>
      var r := Bounce(d, s, u);
      var l := LeaderOf(d, k);
      AllowanceSpent(d, s, r, k, l, 0);
      AllowanceTraded(d, s, r);
  }

  lemma SettleWork(d: Doc, s: State, u: nat)
    requires Fits(d, s) && u < |d.units|
    ensures Potential(d, Settle(d, s, u)) <= Potential(d, s)
  {
    if Ran(s.cells[u].status) {
      BounceWork(d, s, u);
      SkipsWork(d, Bounce(d, s, u));
    }
  }

  lemma ResolvedWork(d: Doc, s: State, s': State, u: nat)
    requires Fits(d, s) && Fits(d, s') && u < |d.units| && s'.bounces == s.bounces
    requires s'.cells == s.cells[u := s'.cells[u]]
    requires Left(d.units[u], s'.cells[u]) < Left(d.units[u], s.cells[u])
    ensures Potential(d, s') < Potential(d, s)
  {
    AllowanceSame(d, s, s', 0);
    WorkBelow(d, s, s', 0);
  }

  /** Every finished session lowers the potential, bounce or no bounce. */
  lemma SessionFalls(d: Doc, s: State, u: nat, r: Report)
    requires Fits(d, s) && u < |d.units| && Unrun(s, u) && s.cells[u].child.None?
    ensures Potential(d, RecordSession(d, s, u, r)) < Potential(d, s)
  {
    hide Settle, Potential, Left, AfterSession;
    var c := AfterSession(d.units[u], s.cells[u], r);
    var s' := Resolved(d, s, u, c, !r.error).(sessions := s.sessions + 1);
    SessionLeft(d.units[u], s.cells[u], r);
    ResolvedWork(d, s, s', u);
    SettleWork(d, s', u);
  }

  /** So does every finished call. */
  lemma CallFalls(d: Doc, s: State, u: nat, ok: bool)
    requires Fits(d, s) && u < |d.units| && Unrun(s, u)
    ensures Potential(d, RecordCall(d, s, u, ok)) < Potential(d, s)
  {
    hide Settle, Potential, Left, AfterCall;
    var s' := Resolved(d, s, u, AfterCall(d.units[u], s.cells[u], ok), ok);
    CallLeft(d.units[u], s.cells[u], ok);
    ResolvedWork(d, s, s', u);
    SettleWork(d, s', u);
  }

  /** Handing out, parking, paying, clearing and releasing leave the potential alone; every finished
      child lowers it and adds one line of history. */
  lemma MovePotential(t: Token, d: Doc, s: State, m: Move)
    requires Fits(d, s)
    ensures Fits(d, Act(t, d, s, m))
    ensures |Act(t, d, s, m).done| + Potential(d, Act(t, d, s, m)) <= |s.done| + Potential(d, s)
    ensures (m.Session? || m.Called?) && Possible(d, s, m) ==>
              Potential(d, Act(t, d, s, m)) < Potential(d, s) && |Act(t, d, s, m).done| == |s.done| + 1
    ensures !(m.Session? || m.Called?) ==>
              Potential(d, Act(t, d, s, m)) == Potential(d, s) && Act(t, d, s, m).done == s.done
  {
    if Possible(d, s, m) {
      match m
      case Session(u, r) => SessionFalls(d, s, u, r);
      case Called(u, ok) => CallFalls(d, s, u, ok);
      case _ => IdleMove(t, d, s, m);
    }
  }

  lemma IdleMove(t: Token, d: Doc, s: State, m: Move)
    requires Possible(d, s, m) && !m.Session? && !m.Called?
    ensures Potential(d, Act(t, d, s, m)) == Potential(d, s)
    ensures Act(t, d, s, m).done == s.done
  {
    var r := Act(t, d, s, m);
    forall u: nat | u < |d.units| ensures Left(d.units[u], s.cells[u]) == Left(d.units[u], r.cells[u]) {
    }
    AllowanceSame(d, s, r, 0);
    SameWork(d, s, r);
  }

  lemma SameWork(d: Doc, s: State, s': State)
    requires Fits(d, s) && Fits(d, s')
    requires forall u: nat | u < |d.units| :: Left(d.units[u], s.cells[u]) == Left(d.units[u], s'.cells[u])
    ensures Work(d, s, 0) == Work(d, s', 0)
  {
    WorkBelow(d, s, s', 0);
    WorkBelow(d, s', s, 0);
  }

  lemma {:induction false} WalkedPotential(t: Token, d: Doc, ms: seq<Move>)
    requires Shaped(d)
    ensures Fits(d, Walked(t, d, ms))
    ensures |Walked(t, d, ms).done| + Potential(d, Walked(t, d, ms)) <= Potential(d, Init(d))
  {
    hide Potential, Act;
    WalkedFits(t, d, ms);
    if ms != [] {
      WalkedPotential(t, d, ms[..|ms| - 1]);
      MovePotential(t, d, Walked(t, d, ms[..|ms| - 1]), ms[|ms| - 1]);
    }
  }

  /** Without calls the session counter is the length of the history. */
  lemma {:induction false} PlaySessions(d: Doc, ms: seq<Move>)
    requires Shaped(d) && NoCalls(d)
    ensures Play(d, ms).sessions == |Play(d, ms).done|
  {
    if ms != [] {
      PlaySessions(d, ms[..|ms| - 1]);
      PlayConsistent(d, ms[..|ms| - 1]);
    }
  }

  /** The allowance of a fresh run: for every bounce counter, the largest cap on it. */
  ghost function TotalBounces(d: Doc): nat { Allowance(d, Init(d), 0) }

  lemma {:induction false} FreshWork(d: Doc, u: nat)
    requires Shaped(d) && u <= |d.units|
    ensures Work(d, Init(d), u) == Capacity(d, u)
    decreases |d.units| - u
  {
    if u < |d.units| {
      LeftBounds(d.units[u], FRESH);
      FreshWork(d, u + 1);
    }
  }

  lemma WalkedBound(t: Token, d: Doc, ms: seq<Move>)
    requires Shaped(d)
    ensures |Walked(t, d, ms).done| <= Product(TotalBounces(d) + 1, Capacity(d, 0))
  {
    hide Walked;
    WalkedPotential(t, d, ms);
    FreshWork(d, 0);
    OneMore(TotalBounces(d), Capacity(d, 0));
  }

  lemma NoCallsSafe(d: Doc)
    requires Shaped(d) && NoCalls(d)
    ensures Safe(d)
  {
  }

  /** Even without the session cap, a run of any valid document records at most (1 + all bounces) * capacity
      children; without calls it spends a session for each. */
  lemma RunBound(es: seq<Event>, t: Token)
    requires t in Exec(es).runs
    ensures
      var rf := Exec(es).runs[t];
      && |rf.state.done| <= Product(TotalBounces(rf.doc) + 1, Capacity(rf.doc, 0))
      && (NoCalls(rf.doc) ==> rf.state.sessions == |rf.state.done|)
  {
    hide Exec, TotalBounces, Capacity, Walked, Play, Product;
    RunsLed(es, t);
    var rf := Exec(es).runs[t];
    var ms :| rf.state == Walked(t, rf.doc, ms);
    WalkedBound(t, rf.doc, ms);
    if NoCalls(rf.doc) {
      NoCallsSafe(rf.doc);
      RunsReached(es, t);
      var played :| rf.state == Play(rf.doc, played);
      PlaySessions(rf.doc, played);
    }
  }
}
