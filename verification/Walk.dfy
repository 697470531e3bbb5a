/** The run as the engine updates it in place. */
module Walk {
  // A loaded run state and the log directory, with one method per walk function, each equal to its meaning
  // in WalkState and Dispatch.

  import opened Counting
  import opened Documents
  import opened Validator
  import opened WalkState
  import opened Dispatch

  /** The log directory of state files and outcome sidecars. */
  class Store {
    var runs: map<Token, RunFile>
    var parked: map<Token, bool>

    ghost function View(): Files
      reads this
    {
      Files(runs, parked)
    }

    constructor ()
      ensures View() == Files(map[], map[])
    {
      runs, parked := map[], map[];
    }
  }

  class Run {
    const token: Token
    const doc: Doc
    const depth: nat
    const path: seq<string>
    var cells: seq<Cell>
    var bounces: map<(nat, nat), nat>
    var sessions: nat
    var done: seq<Entry>

    function View(): State
      reads this
    {
      State(cells, bounces, sessions, done)
    }

    function File(): RunFile
      reads this
    {
      RunFile(doc, View(), depth, path)
    }

    ghost predicate Valid()
      reads this
    {
      Fits(doc, View())
    }

    /** Loads a run from its state file. */
    constructor Load(t: Token, rf: RunFile)
      requires Loaded(rf)
      ensures Valid() && token == t && File() == rf
    {
      token, doc, depth, path := t, rf.doc, rf.depth, rf.path;
      cells, bounces, sessions, done := rf.state.cells, rf.state.bounces, rf.state.sessions, rf.state.done;
    }

    /** One scan over the units: skips every pending unit that it finds doomed. */
    method SkipPass(ghost start: State, ghost before: set<nat>) returns (changed: bool, ghost skipped: set<nat>)
      requires Valid() && Fits(doc, start) && before <= SkipSet(doc, start) && View() == Mark(start, before)
      modifies this`cells
      ensures Valid() && before <= skipped <= SkipSet(doc, start) && View() == Mark(start, skipped)
      ensures if changed then |before| < |skipped| else SkipClosed(doc, start, skipped)
    {
      hide Doomed, SkipSet;
      changed, skipped := false, before;
      for u := 0 to |doc.units|
        invariant Valid() && before <= skipped <= SkipSet(doc, start) && View() == Mark(start, skipped)
        invariant if changed then |before| < |skipped| else skipped == before
        invariant !changed ==> forall v: nat | v < u :: !Stuck(doc, Mark(start, before), v)
      {
        if Stuck(doc, View(), u) {
          SkipOne(doc, start, before, skipped, u);
          cells := cells[u := cells[u].(status := WalkState.Skipped)];
          skipped := skipped + {u};
          changed := true;
        }
      }
      if !changed {
        UnstuckClosed(doc, start, before);
      }
    }

    /** Scans the units until a whole pass skips nothing; ends at the least closed set. */
    method PropagateSkips()
      requires Valid()
      modifies this`cells
      ensures Valid() && View() == Skips(doc, old(View()))
    {
      ghost var start := View();
      ghost var skipped: set<nat> := {};
      assert View().cells == Mark(start, skipped).cells;
      var changed := true;
      while changed
        invariant Valid() && skipped <= SkipSet(doc, start) && View() == Mark(start, skipped)
        invariant !changed ==> SkipClosed(doc, start, skipped)
        decreases |SkipSet(doc, start)| - |skipped|, if changed then 1 else 0
      {
        ghost var before := skipped;
        changed, skipped := SkipPass(start, skipped);
        SubsetSize(before, skipped);
        SubsetSize(skipped, SkipSet(doc, start));
      }
      SkipSetClosed(doc, start);
    }

    /** Re-pends the target and everything downstream of it. */
    method ResetForBounce(target: nat)
      requires Valid() && target < |doc.units|
      modifies this`cells
      ensures Valid() && View() == Reset(doc, old(View()), target)
    {
      var fwd := ForwardLists(doc);
      ReachSetClosed(doc, target);
      AdjacencyBounds(doc, fwd);
      var reached := Search(fwd, [target], ReachSet(doc, target));
      ReachSetLeast(doc, fwd, target, reached);
      ghost var before := cells;
      for u := 0 to |doc.units|
        invariant |cells| == |doc.units|
        invariant forall v: nat | v < |doc.units| ::
                    cells[v] == if v < u && v in reached then FRESH else before[v]
      {
        if u in reached {
          cells := cells[u := FRESH];
        }
      }
      assert View().cells == Reset(doc, old(View()), target).cells;
    }

    /** Fires at most one back-edge of the unit that just became terminal. */
    method TraverseBackEdges(u: nat)
      requires Valid() && u < |doc.units|
      modifies this`cells, this`bounces
      ensures Valid() && View() == Bounce(doc, old(View()), u)
    {
      if !Ran(cells[u].status) {
        return;
      }
      for i := 0 to |doc.edges|
        invariant View() == old(View()) && Firing(doc, View(), u, 0) == Firing(doc, View(), u, i)
      {
        if Fires(doc, View(), i, u) {
          var e := doc.edges[i];
          bounces := CountBounce(View(), u, e.dst).bounces;
          ResetForBounce(e.dst);
          return;
        }
      }
    }

    method SettleUnit(u: nat)
      requires Valid() && u < |doc.units|
      modifies this`cells, this`bounces
      ensures Valid() && View() == Settle(doc, old(View()), u)
    {
      if Ran(cells[u].status) {
        TraverseBackEdges(u);
        PropagateSkips();
      }
    }

    /** Appends the history entry of u's current child and moves the unit to its next record. */
    method Resolve(u: nat, c: Cell, ok: bool)
      requires Valid() && u < |doc.units| && CellFits(doc.units[u], c)
      modifies this`cells, this`done
      ensures Valid() && View() == Resolved(doc, old(View()), u, c, ok)
    {
      done := done + [Entry(u, cells[u].pos, cells[u].round, ok, Via(doc, View(), u))];
      cells := cells[u := c];
    }

    method RecordCallEntry(u: nat, ok: bool)
      requires Valid() && u < |doc.units|
      modifies this
      ensures Valid() && View() == RecordCall(doc, old(View()), u, ok)
    {
      Resolve(u, AfterCall(doc.units[u], cells[u], ok), ok);
      SettleUnit(u);
    }

    /** Reserves one session of budget, then starts the child run or records why it did not. */
    method StartCallUnit(store: Store, env: Env, u: nat)
      requires Valid() && u < |doc.units| && ExpectedNode(doc, View(), u).activity.Call?
      modifies this, store
      ensures Valid() && (store.View(), File()) == StartCall(env, old(store.View()), token, old(File()), u)
    {
      hide Settle, RecordCall;
      var node := ExpectedNode(doc, View(), u);
      sessions := sessions + 1;
      if !MayStart(env, Files(store.runs, store.parked), token, File(), node) {
        RecordCallEntry(u, false);
        return;
      }
      var child := Sub(token, node.id);
      var name := node.activity.pipeline;
      store.runs := store.runs[child := NewRun(env.library[name], depth + 1, path + [name])];
      if node.activity.wait {
        cells := cells[u := cells[u].(status := Dispatched, child := Some(child))];
      } else {
        RecordCallEntry(u, true);
      }
    }

    method SweepCallUnit(store: Store, env: Env, u: nat)
      requires Valid() && u < |doc.units|
      modifies this, store
      ensures Valid() && (store.View(), File()) == SweepUnit(env, old(store.View()), token, old(File()), u)
    {
      if cells[u].status.Dispatched? && cells[u].child.Some? {
        var child := cells[u].child.value;
        if child in store.parked {
          var ok := store.parked[child];
          RecordCallEntry(u, ok);
          store.parked := store.parked - {child};
        } else if child !in store.runs {
          cells := cells[u := cells[u].(child := None)];
          StartCallUnit(store, env, u);
        }
      }
    }

    /** Consumes the parked outcomes of waited children, unit by unit. */
    method SweepCallUnits(store: Store, env: Env)
      requires Valid()
      modifies this, store
      ensures Valid() && (store.View(), File()) == Sweep(env, old(store.View()), token, old(File()), 0)
    {
      hide SweepUnit;
      ghost var whole := Sweep(env, store.View(), token, File(), 0);
      for u := 0 to |doc.units|
        invariant Valid() && Sweep(env, store.View(), token, File(), u) == whole
      {
        SweepCallUnit(store, env, u);
      }
    }

    method PickCandidates() returns (frontier: seq<nat>)
      requires Valid()
      ensures frontier == Candidates(doc, View(), 0)
    {
      hide Eligible, Shaped;
      frontier := [];
      ghost var whole := Candidates(doc, View(), 0);
      for u := 0 to |doc.units|
        invariant whole == frontier + Candidates(doc, View(), u)
      {
        ghost var rest := Candidates(doc, View(), u + 1);
        if Eligible(doc, View(), u) {
          AppendAssociates(frontier, u, rest);
          frontier := frontier + [u];
        }
      }
    }

    method OutcomeOfWalk() returns (outcome: Outcome)
      requires Valid()
      ensures outcome == WalkOutcome(doc, View())
    {
      var failed, capped := false, false;
      for u := 0 to |doc.units|
        invariant failed <==> exists v: nat | v < u :: Unhandled(doc, View(), v)
        invariant capped <==> exists v: nat | v < u :: Unhandled(doc, View(), v) && cells[v].capped
      {
        if cells[u].status.Failure? {
          var handled := false;
          for i := 0 to |doc.edges|
            invariant handled <==> exists j: nat | j < i :: Handles(doc, View(), u, j)
          {
            if Handles(doc, View(), u, i) {
              handled := true;
            }
          }
          if !handled {
            assert Unhandled(doc, View(), u);
            failed := true;
            capped := capped || cells[u].capped;
          }
        }
      }
      outcome := if capped then RunCapped else if failed then RunFailure else RunSuccess;
    }

    /** Writes the run's end: a child parks its outcome, and the state file goes. */
    method FinishRun(store: Store, outcome: Outcome)
      modifies store
      ensures store.View() == Finished(old(store.View()), token, outcome)
    {
      if token.Sub? {
        store.parked := store.parked[token := outcome.RunSuccess?];
      }
      store.runs := store.runs - {token};
    }

    method Save(store: Store)
      modifies store
      ensures store.View() == Saved(old(store.View()), token, File())
    {
      store.runs := store.runs[token := File()];
    }

    method ResolveSession(u: nat, r: Report)
      requires Valid() && u < |doc.units| && cells[u].child.None?
      modifies this
      ensures Valid() && View() == RecordSession(doc, old(View()), u, r)
    {
      hide Settle, AfterSession;
      Resolve(u, AfterSession(doc.units[u], cells[u], r), !r.error);
      sessions := sessions + 1;
      SettleUnit(u);
    }

    /** The first dispatched unit whose current node is id. */
    method FindRecorder(id: string) returns (who: Option<nat>)
      requires Valid()
      ensures who == Recorder(doc, View(), id, 0)
    {
      for u := 0 to |doc.units|
        invariant Recorder(doc, View(), id, u) == Recorder(doc, View(), id, 0)
      {
        if cells[u].status.Dispatched? && ExpectedNode(doc, View(), u).id == id {
          return Some(u);
        }
      }
      who := None;
    }

    /** Decides what a record leads to; the run neither ends nor caps around a live batch. */
    method Decide() returns (verdict: Verdict)
      requires Valid()
      ensures verdict == AfterRecord(doc, View())
    {
      verdict := Verdict.Continue;
      if !AnyDispatched(View()) {
        var frontier := PickCandidates();
        if frontier == [] {
          if AnyPending(View()) {
            return Stalled;
          }
          var outcome := OutcomeOfWalk();
          verdict := Verdict.Finish(outcome);
        } else if sessions >= doc.maxSessions {
          verdict := Verdict.Finish(RunCapped);
        }
      }
    }

    method RecordOutcome(store: Store, id: string, res: Result) returns (answer: RecordAnswer)
      requires Valid() && Handed(doc, View(), id)
      modifies this, store
      ensures (store.View(), answer) == Record(old(store.View()), token, old(File()), id, res)
    {
      var who := FindRecorder(id);
      if who.None? {
        return Refused;
      }
      var u := who.value;
      if res.Retry? {
        cells := cells[u := cells[u].(status := Pending)];
        Save(store);
        return Recorded(Verdict.Continue);
      }
      ResolveSession(u, res.report);
      var verdict := Decide();
      match verdict {
        case Continue => Save(store);
        case Stalled =>
        case Finish(outcome) => FinishRun(store, outcome);
      }
      answer := Recorded(verdict);
    }

    /** Starts the call units of a frontier while budget is left; keeps the session units. */
    method RunCallPass(store: Store, env: Env, frontier: seq<nat>) returns (steps: seq<nat>)
      requires Valid() && Within(doc, frontier)
      modifies this, store
      ensures Valid()
      ensures (store.View(), File(), steps) == CallPass(env, old(store.View()), token, old(File()), frontier, 0)
    {
      steps := [];
      ghost var whole := CallPass(env, store.View(), token, File(), frontier, 0);
      assert steps + whole.2 == whole.2;
      for k := 0 to |frontier|
        invariant Valid()
        invariant var rest := CallPass(env, store.View(), token, File(), frontier, k);
                  whole == (rest.0, rest.1, steps + rest.2)
      {
        var u := frontier[k];
        if ExpectedNode(doc, View(), u).activity.Call? {
          if !cells[u].status.Dispatched? && sessions < doc.maxSessions {
            StartCallUnit(store, env, u);
          }
        } else {
          ghost var rest := CallPass(env, store.View(), token, File(), frontier, k + 1);
          assert steps + ([u] + rest.2) == (steps + [u]) + rest.2;
          steps := steps + [u];
        }
      }
      assert steps + [] == steps;
    }

    /** The dispatch protocol: sweep, start calls, emit a batch of sessions, or end the run. */
    method PickBatch(store: Store, env: Env, n: int) returns (answer: Answer)
      requires Valid()
      modifies this, store
      ensures (store.View(), answer, File()) == Pick(env, old(store.View()), token, old(File()), n)
      decreases Max(0, doc.maxSessions - sessions)
    {
      hide Sweep, CallPass, Candidates, Chosen, WalkOutcome;
      SweepCallUnits(store, env);
      if sessions >= doc.maxSessions && !AnyDispatched(View()) {
        FinishRun(store, RunCapped);
        return Done(RunCapped);
      }
      var frontier := PickCandidates();
      if frontier == [] {
        if AnyDispatched(View()) {
          return Refusal;
        }
        if AnyPending(View()) {
          return WalkStalled;
        }
        var outcome := OutcomeOfWalk();
        FinishRun(store, outcome);
        return Done(outcome);
      }
      var steps := RunCallPass(store, env, frontier);
      var chosen := Chosen(doc, View(), steps, n);
      cells := Emit(doc, View(), chosen).cells;
      Save(store);
      if chosen != [] {
        return Steps(chosen);
      }
      if AnyDispatched(View()) {
        return Waiting;
      }
      ReentryProgress(env, old(store.View()), token, old(File()), n);
      answer := PickBatch(store, env, n);
    }
  }

  lemma AppendAssociates(a: seq<nat>, u: nat, b: seq<nat>)
    ensures a + ([u] + b) == (a + [u]) + b
  {
  }

  /** u must be skipped now. */
  predicate Stuck(d: Doc, s: State, u: nat)
    requires Fits(d, s) && u < |d.units|
  {
    s.cells[u].status.Pending? && Doomed(d, s, u)
  }

  lemma SkipOne(d: Doc, s: State, before: set<nat>, k: set<nat>, u: nat)
    requires Fits(d, s) && before <= k <= SkipSet(d, s) && u < |d.units| && Stuck(d, Mark(s, k), u)
    ensures u in SkipSet(d, s) && |before| < |k + {u}|
    ensures Fits(d, Mark(s, k + {u}))
    ensures Mark(s, k + {u}) == SetStatus(Mark(s, k), u, Skipped)
  {
    hide Doomed, SkipSet;
    SkipSetClosed(d, s);
    DoomedMonotone(d, s, k, SkipSet(d, s), u);
    SubsetSize(before, k + {u});
    assert Mark(s, k + {u}).cells == SetStatus(Mark(s, k), u, Skipped).cells;
  }

  lemma UnstuckClosed(d: Doc, s: State, k: set<nat>)
    requires Fits(d, s) && k <= SkipSet(d, s)
    requires forall v: nat | v < |d.units| :: !Stuck(d, Mark(s, k), v)
    ensures SkipClosed(d, s, k)
  {
    SkipSetClosed(d, s);
    forall v: nat | v < |d.units| && s.cells[v].status.Pending? && Doomed(d, Mark(s, k), v)
      ensures v in k
    {
      assert !Stuck(d, Mark(s, k), v);
    }
  }

  lemma ReachSetLeast(d: Doc, fwd: seq<seq<nat>>, target: nat, reached: set<nat>)
    requires Adjacency(d, fwd) && target < |d.units| && target in reached
    requires reached <= ReachSet(d, target) && ClosedUnder(fwd, reached)
    ensures reached == ReachSet(d, target)
  {
    forall v | v in ReachSet(d, target) ensures v in reached {
      var p :| IsPath(d, p) && p[0] == target && p[|p| - 1] == v;
      forall u: nat, w: nat | u in reached && Arc(d, u, w) ensures w in reached {
        assert w in fwd[u];
      }
      PathStaysIn(d, p, reached);
    }
  }
}
