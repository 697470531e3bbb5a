/** How runs end. */
module Endings {
  // Success is honest: nothing is left over, something succeeded, and every failure was picked up by a
  // chain of handlers that ends in a success.

  import opened Documents
  import opened Validator
  import opened WalkState
  import opened Dispatch
  import opened Moves
  import opened Machine
  import opened Runs

  /** A forward edge for failures, or for either end, leads from u to v. */
  predicate Catches(d: Doc, i: nat, u: nat, v: nat) {
    i < |d.edges| && Forward(d, i) && d.edges[i].src == u && d.edges[i].dst == v && d.edges[i].on != OnSuccess
  }

  /** u failed, and such an edge leads from it to v, which ran. */
  ghost predicate HandsOver(d: Doc, s: State, u: nat, v: nat)
    requires Fits(d, s) && u < |d.units|
  {
    && s.cells[u].status == Failure && (exists i: nat :: Catches(d, i, u, v))
    && v < |d.units| && (s.cells[v].status == Success || s.cells[v].status == Failure)
  }

  /** The code's test of a failed unit. */
  lemma HandledOver(d: Doc, s: State, u: nat)
    requires Fits(d, s) && u < |d.units| && s.cells[u].status.Failure?
    ensures Handled(d, s, u) <==> exists v :: HandsOver(d, s, u, v)
    ensures forall i: nat | i < |d.edges| && Handles(d, s, u, i) :: HandsOver(d, s, u, d.edges[i].dst)
  {
    forall i: nat | i < |d.edges| && Handles(d, s, u, i) ensures HandsOver(d, s, u, d.edges[i].dst) {
      assert Catches(d, i, u, d.edges[i].dst);
    }
    if v: nat :| HandsOver(d, s, u, v) {
      var i: nat :| Catches(d, i, u, v);
      assert Handles(d, s, u, i);
    }
  }

  /** Each unit of p failed and handed over to the next, which ran; the last one succeeded. */
  ghost predicate Rescue(d: Doc, s: State, p: seq<nat>)
    requires Fits(d, s)
  {
    && |p| > 0 && Within(d, p)
    && s.cells[p[|p| - 1]].status.Success?
    && forall k: nat, m: nat | m == k + 1 < |p| :: HandsOver(d, s, p[k], p[m])
  }

  ghost predicate Recovers(d: Doc, s: State, u: nat)
    requires Fits(d, s)
  {
    exists p :: Rescue(d, s, p) && p[0] == u
  }

  predicate Over(s: State) { !AnyDispatched(s) && !AnyPending(s) }

  ghost function Highest(rank: seq<nat>): (m: nat)
    ensures forall u: nat | u < |rank| :: rank[u] <= m
  {
    if rank == [] then 0
    else
      var m := Highest(rank[..|rank| - 1]);
      if rank[|rank| - 1] > m then rank[|rank| - 1] else m
  }

  /** With every failure handled, following handlers climbs the numbering to a success. */
  lemma {:induction false} RescueExists(d: Doc, s: State, rank: seq<nat>, u: nat) returns (p: seq<nat>)
    requires Fits(d, s) && Ranked(d, rank) && u < |d.units| && Ran(s.cells[u].status)
    requires forall v: nat | v < |d.units| :: !Unhandled(d, s, v)
    ensures Rescue(d, s, p) && p[0] == u
    decreases Highest(rank) - rank[u]
  {
    if s.cells[u].status.Success? {
      p := [u];
    } else {
      assert !Unhandled(d, s, u);
      HandledOver(d, s, u);
      var i: nat :| i < |d.edges| && Handles(d, s, u, i);
      assert Forward(d, i) && Arc(d, u, d.edges[i].dst);
      var rest := RescueExists(d, s, rank, d.edges[i].dst);
      p := [u] + rest;
      assert HandsOver(d, s, u, rest[0]);
      forall k: nat, m: nat | m == k + 1 < |p| ensures HandsOver(d, s, p[k], p[m]) {
        assert k > 0 ==> p[k] == rest[k - 1] && p[m] == rest[m - 1];
      }
    }
  }

  lemma {:induction false} RootExists(d: Doc, rank: seq<nat>, u: nat) returns (r: nat)
    requires Ranked(d, rank) && Shaped(d) && u < |d.units|
    ensures r < |d.units| && Root(d, r)
    decreases rank[u]
  {
    if i: nat :| i < |d.edges| && Enters(d, i, u) {
      assert Forward(d, i) && Arc(d, d.edges[i].src, u);
      r := RootExists(d, rank, d.edges[i].src);
    } else {
      r := u;
    }
  }

  lemma RescueHandles(d: Doc, s: State, p: seq<nat>)
    requires Fits(d, s) && Rescue(d, s, p) && s.cells[p[0]].status.Failure?
    ensures Handled(d, s, p[0])
  {
    assert HandsOver(d, s, p[0], p[1]);
    HandledOver(d, s, p[0]);
  }

  lemma UnhandledNeverRecovers(d: Doc, s: State, u: nat)
    requires Fits(d, s) && u < |d.units| && Unhandled(d, s, u)
    ensures !Recovers(d, s, u)
  {
    if Recovers(d, s, u) {
      var p :| Rescue(d, s, p) && p[0] == u;
      RescueHandles(d, s, p);
    }
  }

  // ------------------------------------------------------------------------------------- the roots

  /** No unit without incoming edges was skipped. */
  ghost predicate Rooted(d: Doc, s: State) {
    Fits(d, s) && forall u: nat | u < |d.units| && Root(d, u) :: !s.cells[u].status.Skipped?
  }

  lemma SkipsRooted(d: Doc, s: State)
    requires Rooted(d, s)
    ensures Rooted(d, Skips(d, s))
  {
    forall u: nat | u < |d.units| && Root(d, u) ensures !Skips(d, s).cells[u].status.Skipped? {
      SkipsOnlyPending(d, s, u);
      if Skips(d, s).cells[u].status.Skipped? {
        SkipsCell(d, s, u);
        SkipSetDoomed(d, s, u);
      }
    }
  }

  lemma SettleRooted(d: Doc, s: State, u: nat)
    requires Rooted(d, s) && u < |d.units|
    ensures Rooted(d, Settle(d, s, u))
  {
    hide Skips, Firing, ReachSet, Root;
    if Ran(s.cells[u].status) {
      assert Rooted(d, Bounce(d, s, u));
      SkipsRooted(d, Bounce(d, s, u));
    }
  }

  lemma MoveRooted(t: Token, d: Doc, s: State, m: Move)
    requires Rooted(d, s)
    ensures Rooted(d, Act(t, d, s, m))
  {
    hide Settle, Root;
    if Possible(d, s, m) {
      match m
      case Session(u, r) =>
        SettleRooted(d, Resolved(d, s, u, AfterSession(d.units[u], s.cells[u], r), !r.error).(sessions := s.sessions + 1), u);
      case Called(u, ok) => SettleRooted(d, Resolved(d, s, u, AfterCall(d.units[u], s.cells[u], ok), ok), u);
      case _ =>
    }
  }

  lemma {:induction false} WalkedRooted(t: Token, d: Doc, ms: seq<Move>)
    requires Shaped(d)
    ensures Rooted(d, Walked(t, d, ms))
  {
    hide Act;
    if ms != [] {
      WalkedRooted(t, d, ms[..|ms| - 1]);
      MoveRooted(t, d, Walked(t, d, ms[..|ms| - 1]), ms[|ms| - 1]);
    }
  }

  lemma LedRooted(t: Token, d: Doc, s: State)
    requires Shaped(d) && Led(t, d, s)
    ensures Rooted(d, s)
  {
    hide Rooted, Walked;
    var ms :| s == Walked(t, d, ms);
    WalkedRooted(t, d, ms);
  }

  // ------------------------------------------------------------------------------- honest outcomes

  /** A finished walk is judged a success exactly when every failure recovers; and then something
      really succeeded. */
  lemma SuccessIsHonest(d: Doc, s: State)
    requires Valid(d) && Rooted(d, s) && Over(s)
    ensures WalkOutcome(d, s).RunSuccess? <==>
            forall u: nat | u < |d.units| && s.cells[u].status.Failure? :: Recovers(d, s, u)
    ensures WalkOutcome(d, s).RunSuccess? ==> exists u: nat | u < |d.units| :: s.cells[u].status.Success?
  {
    var rank := AcyclicRank(d);
    if WalkOutcome(d, s).RunSuccess? {
      forall u: nat | u < |d.units| && s.cells[u].status.Failure? ensures Recovers(d, s, u) {
        var p := RescueExists(d, s, rank, u);
      }
      var r := RootExists(d, rank, 0);
      assert !s.cells[r].status.Pending? && !s.cells[r].status.Dispatched?;
      var p := RescueExists(d, s, rank, r);
      assert s.cells[p[|p| - 1]].status.Success?;
    } else {
      var u: nat :| u < |d.units| && Unhandled(d, s, u);
      UnhandledNeverRecovers(d, s, u);
    }
  }

  /** What each outcome says about the state a run ended in. */
  ghost predicate Faithful(d: Doc, s: State, o: Outcome)
    requires Fits(d, s)
  {
    && !AnyDispatched(s)
    && match o
       case RunSuccess =>
         && Over(s)
         && (forall u: nat | u < |d.units| && s.cells[u].status.Failure? :: Recovers(d, s, u))
         && exists u: nat | u < |d.units| :: s.cells[u].status.Success?
       case RunFailure =>
         && Over(s)
         && (exists u: nat | u < |d.units| :: s.cells[u].status.Failure? && !Recovers(d, s, u))
         && forall u: nat | u < |d.units| && s.cells[u].status.Failure? && s.cells[u].capped :: exists v :: HandsOver(d, s, u, v)
       case RunCapped =>
         || s.sessions >= d.maxSessions
         || (Over(s) && exists u: nat | u < |d.units| ::
               s.cells[u].status.Failure? && s.cells[u].capped && !Recovers(d, s, u))
  }

  lemma WalkOutcomeFaithful(d: Doc, s: State)
    requires Valid(d) && Rooted(d, s) && Over(s)
    ensures Faithful(d, s, WalkOutcome(d, s))
  {
    SuccessIsHonest(d, s);
    match WalkOutcome(d, s)
    case RunSuccess =>
    case RunFailure =>
      var u: nat :| u < |d.units| && Unhandled(d, s, u);
      UnhandledNeverRecovers(d, s, u);
      forall v: nat | v < |d.units| && s.cells[v].status.Failure? && s.cells[v].capped ensures exists w :: HandsOver(d, s, v, w) {
        assert !Unhandled(d, s, v);
        HandledOver(d, s, v);
      }
    case RunCapped =>
      var u: nat :| u < |d.units| && Unhandled(d, s, u) && s.cells[u].capped;
      UnhandledNeverRecovers(d, s, u);
  }

  lemma ValidShaped(d: Doc)
    requires Valid(d)
    ensures Shaped(d)
  {
  }

  /** A walk that is over, or whose budget is spent with nothing out, may be ended. */
  lemma EndFaithful(t: Token, d: Doc, s: State)
    requires Valid(d) && Fits(d, s) && Led(t, d, s) && !AnyDispatched(s)
    ensures s.sessions >= d.maxSessions ==> Faithful(d, s, RunCapped)
    ensures !AnyPending(s) ==> Faithful(d, s, WalkOutcome(d, s))
  {
    hide Valid, Led, Recovers, WalkOutcome, Rooted;
    if !AnyPending(s) {
      ValidShaped(d);
      LedRooted(t, d, s);
      WalkOutcomeFaithful(d, s);
    }
  }

  lemma {:induction false} PickFaithful(env: Env, f: Files, t: Token, rf: RunFile, n: int)
    requires Valid(rf.doc) && AllLed(f) && Loaded(rf) && Led(t, rf.doc, rf.state)
    ensures var (_, answer, end) := Pick(env, f, t, rf, n);
            answer.Done? ==> Faithful(rf.doc, end.state, answer.outcome)
    decreases rf.doc.maxSessions - rf.state.sessions
  {
    hide *;
    PickForms(env, f, t, rf, n);
    SweepLed(env, f, t, rf, 0);
    var (f1, rf1) := Sweep(env, f, t, rf, 0);
    LoadedFits(rf1);
    var frontier := Candidates(rf.doc, rf1.state, 0);
    if !AnyDispatched(rf1.state) {
      EndFaithful(t, rf.doc, rf1.state);
    }
    FrontierUnrun(rf.doc, rf1.state);
    CallPassLed(env, f1, t, rf1, frontier, 0);
    var pass := CallPass(env, f1, t, rf1, frontier, 0);
    LoadedFits(pass.1);
    EmitLed(t, rf.doc, pass.1.state, pass.2, n);
    var chosen := Chosen(rf.doc, pass.1.state, pass.2, n);
    var rf3 := pass.1.(state := Emit(rf.doc, pass.1.state, chosen));
    LoadedFits(rf3);
    SavedLed(pass.0, t, rf3);
    if !(rf1.state.sessions >= rf.doc.maxSessions && !AnyDispatched(rf1.state)) && frontier != [] &&
       chosen == [] && !AnyDispatched(rf3.state) {
      PickFaithful(env, Saved(pass.0, t, rf3), t, rf3, n);
    }
  }

  lemma RecordEndFaithful(t: Token, d: Doc, s: State)
    requires Valid(d) && Fits(d, s) && Led(t, d, s)
    ensures AfterRecord(d, s).Finish? ==> Faithful(d, s, AfterRecord(d, s).outcome)
  {
    hide Valid, Led, Faithful, WalkOutcome, Candidates;
    if !AnyDispatched(s) {
      EndFaithful(t, d, s);
    }
  }

  /** Every run of the machine that ends, by a pick or by a record, ends with a faithful outcome, and
      never while one of its units is dispatched. */
  lemma EveryEndingFaithful(es: seq<Event>, t: Token, env: Env, n: int, id: string, r: Report)
    requires t in Exec(es).runs
    ensures Loaded(Exec(es).runs[t])
    ensures var rf := Exec(es).runs[t];
            var (_, answer, end) := Pick(env, Exec(es), t, rf, n);
            answer.Done? ==> Faithful(rf.doc, end.state, answer.outcome)
    ensures var rf := Exec(es).runs[t];
            var who := Recorder(rf.doc, rf.state, id, 0);
            who.Some? && rf.state.cells[who.value].child.None? ==>
              var s := RecordSession(rf.doc, rf.state, who.value, r);
              AfterRecord(rf.doc, s).Finish? ==> Faithful(rf.doc, s, AfterRecord(rf.doc, s).outcome)
  {
    hide Exec, Valid, Led, AllLed, Faithful, Pick, RecordSession, AfterRecord;
    RunsLed(es, t);
    ExecLed(es);
    var rf := Exec(es).runs[t];
    PickFaithful(env, Exec(es), t, rf, n);
    var who := Recorder(rf.doc, rf.state, id, 0);
    if who.Some? && rf.state.cells[who.value].child.None? {
      TellLed(t, rf.doc, rf.state, who.value, r);
      RecordEndFaithful(t, rf.doc, RecordSession(rf.doc, rf.state, who.value, r));
    }
  }

  lemma {:induction false} NoCandidates(d: Doc, s: State, u: nat)
    requires Fits(d, s) && Over(s) && u <= |d.units|
    ensures Candidates(d, s, u) == []
    decreases |d.units| - u
  {
    if u < |d.units| {
      NoCandidates(d, s, u + 1);
    }
  }

  /** A pick that finds the walk over after its sweep judges it by the budget first: it answers the
      walk's own outcome exactly when a session is left or the outcome is the cap anyway. So a run
      whose last call spends its last session ends capped although every unit succeeded. */
  lemma PickOfFinishedWalk(env: Env, f: Files, t: Token, rf: RunFile, n: int)
    requires Valid(rf.doc) && Loaded(rf) && Over(Sweep(env, f, t, rf, 0).1.state)
    ensures
      var s := Sweep(env, f, t, rf, 0).1.state;
      var answer := Pick(env, f, t, rf, n).1;
      && answer.Done?
      && (answer.outcome == WalkOutcome(rf.doc, s) <==>
          s.sessions < rf.doc.maxSessions || WalkOutcome(rf.doc, s).RunCapped?)
  {
    var s := Sweep(env, f, t, rf, 0).1.state;
    NoCandidates(rf.doc, s, 0);
  }
}
