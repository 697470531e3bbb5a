/** The state of one run and what each rule means. */
module WalkState {
  // Edge states, join conditions, the skip fixpoint, the bounce reset and the run's outcome.

  import opened Documents
  import opened Validator

  /** A run's name: started by a trigger, or as the child of a call node of another run. */
  datatype Token = Top(name: string) | Sub(parent: Token, node: string)

  datatype Status = Pending | Dispatched | Success | Failure | Skipped

  /** One unit's record: its status, the container cursor and round, the cap marker, and the child
      run a dispatched call unit waits for. */
  datatype Cell = Cell(status: Status, pos: nat, round: nat, capped: bool, child: Option<Token>)

  const FRESH := Cell(Pending, 0, 1, false, None)

  /** One line of session history. */
  datatype Entry = Entry(unit: nat, pos: nat, round: nat, ok: bool, via: set<EdgeKind>)

  datatype State = State(cells: seq<Cell>, bounces: map<(nat, nat), nat>, sessions: nat, done: seq<Entry>)

  datatype Outcome = RunSuccess | RunFailure | RunCapped

  /** What a finished session left behind: whether it errored, and its verdict file. */
  datatype Report = Report(error: bool, exit: bool, branch: Option<bool>)

  function Init(d: Doc): State {
    State(seq(|d.units|, _ => FRESH), map[], 0, [])
  }

  predicate CellFits(unit: Unit, c: Cell) {
    && c.pos < |unit.children|
    && 1 <= c.round <= Rounds(unit)
    && (c.child.Some? ==> unit.children[c.pos].activity.Call?)
  }

  /** The state has one record per unit, every cursor is inside its container, and only call nodes
      wait for a child. */
  ghost predicate Fits(d: Doc, s: State) {
    && Shaped(d)
    && |s.cells| == |d.units|
    && forall u: nat | u < |d.units| :: CellFits(d.units[u], s.cells[u])
  }

  function StatusOf(s: State, u: nat): Status
    requires u < |s.cells|
  {
    s.cells[u].status
  }

  predicate Ran(st: Status) { st.Success? || st.Failure? }

  // ------------------------------------------------------------------------- edges and joins

  datatype EdgeState = Open | Satisfied | Dead

  function StateOf(from: Status, on: EdgeKind): EdgeState {
    match from
    case Pending => Open
    case Dispatched => Open
    case Skipped => Dead
    case Success => if on.OnFailure? then Dead else Satisfied
    case Failure => if on.OnSuccess? then Dead else Satisfied
  }

  function EdgeAt(d: Doc, s: State, i: nat): EdgeState
    requires Fits(d, s) && i < |d.edges|
  {
    StateOf(s.cells[d.edges[i].src].status, d.edges[i].on)
  }

  /** Edge i gates unit u: back-edges never do. */
  predicate Enters(d: Doc, i: nat, u: nat) {
    i < |d.edges| && !d.edges[i].back && d.edges[i].dst == u
  }

  predicate Root(d: Doc, u: nat) {
    forall i: nat | i < |d.edges| :: !Enters(d, i, u)
  }

  /** The join condition of u holds. */
  predicate Met(d: Doc, s: State, u: nat)
    requires Fits(d, s) && u < |d.units|
  {
    match d.units[u].join
    case JoinAll => forall i: nat | i < |d.edges| && Enters(d, i, u) :: EdgeAt(d, s, i).Satisfied?
    case JoinAny =>
      Root(d, u) ||
      ((forall i: nat | i < |d.edges| && Enters(d, i, u) :: !EdgeAt(d, s, i).Open?) &&
       exists i: nat | i < |d.edges| :: Enters(d, i, u) && EdgeAt(d, s, i).Satisfied?)
  }

  predicate Ready(d: Doc, s: State, u: nat)
    requires Fits(d, s) && u < |d.units|
  {
    s.cells[u].status.Pending? && Met(d, s, u)
  }

  /** The join condition of u can no longer hold. */
  predicate Doomed(d: Doc, s: State, u: nat)
    requires Fits(d, s) && u < |d.units|
  {
    match d.units[u].join
    case JoinAll => exists i: nat | i < |d.edges| :: Enters(d, i, u) && EdgeAt(d, s, i).Dead?
    case JoinAny =>
      !Root(d, u) && forall i: nat | i < |d.edges| && Enters(d, i, u) :: EdgeAt(d, s, i).Dead?
  }

  function Via(d: Doc, s: State, u: nat): set<EdgeKind>
    requires Fits(d, s)
  {
    set i: nat | i < |d.edges| && Enters(d, i, u) && EdgeAt(d, s, i).Satisfied? :: d.edges[i].on
  }

  // ------------------------------------------------------------------------------ skip fixpoint

  /** s with the units of k marked skipped. */
  function Mark(s: State, k: set<nat>): State {
    s.(cells := seq(|s.cells|, u requires 0 <= u < |s.cells| =>
      if u in k then s.cells[u].(status := Skipped) else s.cells[u]))
  }

  /** k is a set of pending units, and marking it leaves no doomed unit pending. */
  ghost predicate SkipClosed(d: Doc, s: State, k: set<nat>)
    requires Fits(d, s)
  {
    && (forall u | u in k :: u < |d.units| && s.cells[u].status.Pending?)
    && forall u: nat | u < |d.units| && s.cells[u].status.Pending? && Doomed(d, Mark(s, k), u) :: u in k
  }

  ghost predicate InEverySkipClosed(d: Doc, s: State, u: nat)
    requires Fits(d, s)
  {
    forall k | SkipClosed(d, s, k) :: u in k
  }

  /** The least set of pending units closed under skipping. */
  ghost function SkipSet(d: Doc, s: State): set<nat>
    requires Fits(d, s)
  {
    set u | u in Below(|d.units|) && InEverySkipClosed(d, s, u)
  }

  ghost function Skips(d: Doc, s: State): (r: State)
    requires Fits(d, s)
    ensures Fits(d, r) && r.sessions == s.sessions && r.done == s.done
  {
    Mark(s, SkipSet(d, s))
  }

  lemma DoomedMonotone(d: Doc, s: State, j: set<nat>, k: set<nat>, u: nat)
    requires Fits(d, s) && u < |d.units| && j <= k
    requires Doomed(d, Mark(s, j), u)
    requires forall v | v in k && v < |d.units| :: s.cells[v].status.Pending?
    ensures Doomed(d, Mark(s, k), u)
  {
    forall i: nat | i < |d.edges| && EdgeAt(d, Mark(s, j), i).Dead?
      ensures EdgeAt(d, Mark(s, k), i).Dead?
    {
    }
  }

  /** The least closed set is itself closed. */
  lemma SkipSetClosed(d: Doc, s: State)
    requires Fits(d, s)
    ensures SkipClosed(d, s, SkipSet(d, s))
    ensures forall k | SkipClosed(d, s, k) :: SkipSet(d, s) <= k
  {
    hide Doomed;
    var least := SkipSet(d, s);
    var all := set u | u in Below(|d.units|) && s.cells[u].status.Pending?;
    assert SkipClosed(d, s, all);
    forall k | SkipClosed(d, s, k) ensures least <= k {
    }
    forall u: nat | u < |d.units| && s.cells[u].status.Pending? && Doomed(d, Mark(s, least), u)
      ensures u in least
    {
      forall k | SkipClosed(d, s, k) ensures u in k {
        DoomedMonotone(d, s, least, k, u);
      }
    }
  }

  /** Where no pending unit is doomed, the skip fixpoint changes nothing. */
  lemma NothingSkipped(d: Doc, s: State)
    requires Fits(d, s) && forall u: nat | u < |d.units| && s.cells[u].status.Pending? :: !Doomed(d, s, u)
    ensures Skips(d, s) == s
  {
    hide Doomed;
    assert Mark(s, {}).cells == s.cells;
    SkipSetClosed(d, s);
    assert SkipClosed(d, s, {});
    assert Skips(d, s).cells == s.cells;
  }

  /** Skipping touches nothing but the status of pending units. */
  lemma SkipsOnlyPending(d: Doc, s: State, u: nat)
    requires Fits(d, s) && u < |d.units|
    ensures Skips(d, s).cells[u] == s.cells[u] ||
            (s.cells[u].status.Pending? && Skips(d, s).cells[u] == s.cells[u].(status := Skipped))
  {
    hide Doomed;
    SkipSetClosed(d, s);
  }

  lemma SkipsCell(d: Doc, s: State, u: nat)
    requires Fits(d, s) && u < |d.units|
    ensures Skips(d, s).cells[u] == if u in SkipSet(d, s) then s.cells[u].(status := Skipped) else s.cells[u]
    ensures s.cells[u].status.Pending? && u !in SkipSet(d, s) ==> !Doomed(d, Skips(d, s), u)
  {
    hide Doomed;
    SkipSetClosed(d, s);
  }

  lemma SkipClosedShrinks(d: Doc, s: State, k: set<nat>, u: nat)
    requires Fits(d, s) && u < |d.units|
    requires SkipClosed(d, s, k) && !Doomed(d, Mark(s, k), u)
    ensures SkipClosed(d, s, k - {u})
  {
    forall v: nat | v < |d.units| && s.cells[v].status.Pending? && Doomed(d, Mark(s, k - {u}), v)
      ensures v in k - {u}
    {
      DoomedMonotone(d, s, k - {u}, k, v);
    }
  }

  /** Nothing is skipped without cause: every member of the least set is doomed once marked. */
  lemma SkipSetDoomed(d: Doc, s: State, u: nat)
    requires Fits(d, s) && u in SkipSet(d, s)
    ensures u < |d.units| && s.cells[u].status.Pending? && Doomed(d, Skips(d, s), u)
  {
    SkipSetClosed(d, s);
    if !Doomed(d, Skips(d, s), u) {
      SkipClosedShrinks(d, s, SkipSet(d, s), u);
    }
  }

  // -------------------------------------------------------------------------------- back-edges

  function Bounces(s: State, src: nat, dst: nat): nat {
    if (src, dst) in s.bounces then s.bounces[(src, dst)] else 0
  }

  /** Back-edge i leaves the terminal unit u, matches its status and has bounces left. */
  predicate Fires(d: Doc, s: State, i: nat, u: nat)
    requires Fits(d, s) && i < |d.edges| && u < |d.units|
  {
    var e := d.edges[i];
    && e.src == u && e.back
    && StateOf(s.cells[u].status, e.on).Satisfied?
    && Bounces(s, u, e.dst) < e.maxBounces
  }

  /** The first back-edge, from index i on, that fires. */
  function Firing(d: Doc, s: State, u: nat, i: nat): (r: Option<nat>)
    requires Fits(d, s) && i <= |d.edges| && u < |d.units|
    ensures r.Some? ==> i <= r.value < |d.edges| && Fires(d, s, r.value, u)
    ensures r.None? ==> forall j: nat | i <= j < |d.edges| :: !Fires(d, s, j, u)
    decreases |d.edges| - i
  {
    if i == |d.edges| then None
    else if Fires(d, s, i, u) then Some(i)
    else Firing(d, s, u, i + 1)
  }

  /** target and everything downstream of it starts over. */
  ghost function Reset(d: Doc, s: State, target: nat): State {
    s.(cells := seq(|s.cells|, u requires 0 <= u < |s.cells| =>
      if u in ReachSet(d, target) then FRESH else s.cells[u]))
  }

  function CountBounce(s: State, src: nat, dst: nat): State {
    s.(bounces := s.bounces[(src, dst) := Bounces(s, src, dst) + 1])
  }

  /** At most one back-edge fires from the unit that just became terminal. */
  ghost function Bounce(d: Doc, s: State, u: nat): (r: State)
    requires Fits(d, s) && u < |d.units|
    ensures Fits(d, r) && r.sessions == s.sessions && r.done == s.done
  {
    match Firing(d, s, u, 0)
    case None => s
    case Some(i) => Reset(d, CountBounce(s, u, d.edges[i].dst), d.edges[i].dst)
  }

  /** What follows a unit's resolution: a terminal unit may bounce, then skips spread. */
  ghost function Settle(d: Doc, s: State, u: nat): (r: State)
    requires Fits(d, s) && u < |d.units|
    ensures Fits(d, r) && r.sessions == s.sessions && r.done == s.done
  {
    if Ran(s.cells[u].status) then Skips(d, Bounce(d, s, u)) else s
  }

  // -------------------------------------------------------------------------------- resolution

  /** The record of a unit after its session reported. */
  function AfterSession(unit: Unit, c: Cell, r: Report): (c': Cell)
    requires ShapedUnit(unit) && CellFits(unit, c) && c.child.None?
    ensures CellFits(unit, c') && c'.child.None?
    ensures c'.status.Pending? || c'.status.Success? || c'.status.Failure?
  {
    var last := c.pos == |unit.children| - 1;
    if r.error then c.(status := Failure)
    else if unit.kind.Plain? then
      c.(status := if r.branch == Some(false) then Failure else Success)
    else if unit.kind.Loop? && last then
      if r.exit then c.(status := Success)
      else if c.round >= unit.kind.maxRounds then c.(status := Failure, capped := true)
      else c.(status := Pending, pos := 0, round := c.round + 1)
    else if last then c.(status := Success)
    else c.(status := Pending, pos := c.pos + 1)
  }

  /** The record of a unit after its call node's child ended, or could not start. */
  function AfterCall(unit: Unit, c: Cell, ok: bool): (c': Cell)
    requires ShapedUnit(unit) && CellFits(unit, c)
    ensures CellFits(unit, c') && c'.child.None?
    ensures c'.status.Pending? || c'.status.Success? || c'.status.Failure?
  {
    if !ok then c.(status := Failure, child := None)
    else if c.pos == |unit.children| - 1 then c.(status := Success, child := None)
    else c.(status := Pending, pos := c.pos + 1, child := None)
  }

  function ExpectedNode(d: Doc, s: State, u: nat): Node
    requires Fits(d, s) && u < |d.units|
  {
    d.units[u].children[s.cells[u].pos]
  }

  /** s with u's record replaced and the finished child appended to the history. */
  function Resolved(d: Doc, s: State, u: nat, c: Cell, ok: bool): (r: State)
    requires Fits(d, s) && u < |d.units| && CellFits(d.units[u], c)
    ensures Fits(d, r)
  {
    s.(cells := s.cells[u := c],
       done := s.done + [Entry(u, s.cells[u].pos, s.cells[u].round, ok, Via(d, s, u))])
  }

  ghost function RecordSession(d: Doc, s: State, u: nat, r: Report): (s': State)
    requires Fits(d, s) && u < |d.units| && s.cells[u].child.None?
    ensures Fits(d, s') && s'.sessions == s.sessions + 1 && |s'.done| == |s.done| + 1
  {
    var c := AfterSession(d.units[u], s.cells[u], r);
    Settle(d, Resolved(d, s, u, c, !r.error).(sessions := s.sessions + 1), u)
  }

  ghost function RecordCall(d: Doc, s: State, u: nat, ok: bool): (s': State)
    requires Fits(d, s) && u < |d.units|
    ensures Fits(d, s') && s'.sessions == s.sessions && |s'.done| == |s.done| + 1
  {
    Settle(d, Resolved(d, s, u, AfterCall(d.units[u], s.cells[u], ok), ok), u)
  }

  function SetStatus(s: State, u: nat, st: Status): State
    requires u < |s.cells|
  {
    s.(cells := s.cells[u := s.cells[u].(status := st)])
  }

  // ------------------------------------------------------------------------------ end of a walk

  predicate AnyDispatched(s: State) {
    exists u: nat | u < |s.cells| :: s.cells[u].status.Dispatched?
  }

  predicate AnyPending(s: State) {
    exists u: nat | u < |s.cells| :: s.cells[u].status.Pending?
  }

  predicate Eligible(d: Doc, s: State, u: nat)
    requires Fits(d, s) && u < |d.units|
  {
    s.cells[u].status.Dispatched? || Ready(d, s, u)
  }

  predicate Within(d: Doc, us: seq<nat>) {
    forall i: nat | i < |us| :: us[i] < |d.units|
  }

  /** The units from index u on that may be dispatched, in document order. */
  function Candidates(d: Doc, s: State, u: nat): (c: seq<nat>)
    requires Fits(d, s) && u <= |d.units|
    ensures Within(d, c)
    decreases |d.units| - u
  {
    if u == |d.units| then []
    else if Eligible(d, s, u) then [u] + Candidates(d, s, u + 1)
    else Candidates(d, s, u + 1)
  }

  lemma {:induction false} CandidatesFrom(d: Doc, s: State, u: nat)
    requires Fits(d, s) && u <= |d.units|
    ensures var c := Candidates(d, s, u);
            && (forall v: nat :: v in c <==> u <= v < |d.units| && Eligible(d, s, v))
            && (forall i: nat | i < |c| :: u <= c[i])
            && (forall i: nat, j: nat | i < j < |c| :: c[i] < c[j])
    decreases |d.units| - u
  {
    hide Eligible;
    if u < |d.units| {
      CandidatesFrom(d, s, u + 1);
    }
  }

  /** The candidates are exactly the eligible units, each once, in document order. */
  lemma CandidatesExact(d: Doc, s: State)
    requires Fits(d, s)
    ensures var c := Candidates(d, s, 0);
            && (forall v: nat :: v in c <==> v < |d.units| && Eligible(d, s, v))
            && (forall i: nat | i < |c| :: Eligible(d, s, c[i]))
            && (forall i: nat, j: nat | i < j < |c| :: c[i] < c[j])
            && Distinct(c)
  {
    hide Eligible;
    CandidatesFrom(d, s, 0);
    var c := Candidates(d, s, 0);
    forall i: nat | i < |c| ensures Eligible(d, s, c[i]) {
      assert c[i] in c;
    }
  }

  /** A satisfied failure or completion edge leads from u to a unit that really ran. */
  predicate Handled(d: Doc, s: State, u: nat)
    requires Fits(d, s)
  {
    exists i: nat | i < |d.edges| :: Handles(d, s, u, i)
  }

  predicate Handles(d: Doc, s: State, u: nat, i: nat)
    requires Fits(d, s) && i < |d.edges|
  {
    var e := d.edges[i];
    && e.src == u && !e.back && !e.on.OnSuccess?
    && EdgeAt(d, s, i).Satisfied?
    && Ran(s.cells[e.dst].status)
  }

  predicate Unhandled(d: Doc, s: State, u: nat)
    requires Fits(d, s) && u < |d.units|
  {
    s.cells[u].status.Failure? && !Handled(d, s, u)
  }

  /** Any unhandled failure fails the run, and a round-capped one caps it. */
  function WalkOutcome(d: Doc, s: State): Outcome
    requires Fits(d, s)
  {
    if exists u: nat | u < |d.units| :: Unhandled(d, s, u) && s.cells[u].capped then RunCapped
    else if exists u: nat | u < |d.units| :: Unhandled(d, s, u) then RunFailure
    else RunSuccess
  }

  datatype Verdict = Continue | Stalled | Finish(outcome: Outcome)

  /** What recording decides once nothing is dispatched: stop, cap, or go on. */
  function AfterRecord(d: Doc, s: State): Verdict
    requires Fits(d, s)
  {
    if AnyDispatched(s) then Continue
    else if Candidates(d, s, 0) == [] then
      if AnyPending(s) then Stalled else Finish(WalkOutcome(d, s))
    else if s.sessions >= d.maxSessions then Finish(RunCapped)
    else Continue
  }

  /** The first dispatched unit, from index u on, whose current node is id. */
  function Recorder(d: Doc, s: State, id: string, u: nat): (r: Option<nat>)
    requires Fits(d, s) && u <= |d.units|
    ensures r.Some? ==> u <= r.value < |d.units| && s.cells[r.value].status.Dispatched? &&
                        ExpectedNode(d, s, r.value).id == id
    ensures r.None? ==> forall v: nat | u <= v < |d.units| && s.cells[v].status.Dispatched? ::
                          ExpectedNode(d, s, v).id != id
    decreases |d.units| - u
  {
    if u == |d.units| then None
    else if s.cells[u].status.Dispatched? && ExpectedNode(d, s, u).id == id then Some(u)
    else Recorder(d, s, id, u + 1)
  }
}
