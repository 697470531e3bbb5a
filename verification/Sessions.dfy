/** The driver of one run without calls. */
module Sessions {
  // Hand out a batch, report a session: the same steps that Pick and Record make on the log directory,
  // seen as steps of the run alone.

  import opened Documents
  import opened Validator
  import opened WalkState
  import opened Dispatch
  import opened WalkInvariants
  import opened Moves

  datatype Act = Hand(n: int) | Tell(id: string, res: Result)

  /** A run, and its outcome once it ended. */
  datatype Progress = Progress(state: State, outcome: Option<Outcome>)

  ghost function HandOut(d: Doc, s: State, n: int): (r: Progress)
    requires Fits(d, s)
    ensures Fits(d, r.state)
  {
    if s.sessions >= d.maxSessions && !AnyDispatched(s) then Progress(s, Some(RunCapped))
    else
      var frontier := Candidates(d, s, 0);
      if frontier == [] then
        if AnyDispatched(s) || AnyPending(s) then Progress(s, None) else Progress(s, Some(WalkOutcome(d, s)))
      else Progress(Emit(d, s, Chosen(d, s, frontier, n)), None)
  }

  ghost function TellOf(d: Doc, s: State, id: string, res: Result): (r: Progress)
    requires Fits(d, s) && Handed(d, s, id)
    ensures Fits(d, r.state)
  {
    match Recorder(d, s, id, 0)
    case None => Progress(s, None)
    case Some(u) =>
      if res.Retry? then Progress(SetStatus(s, u, Pending), None)
      else
        var s' := RecordSession(d, s, u, res.report);
        match AfterRecord(d, s')
        case Continue => Progress(s', None)
        case Stalled => Progress(s, None)
        case Finish(outcome) => Progress(s', Some(outcome))
  }

  ghost function Act1(d: Doc, p: Progress, a: Act): (r: Progress)
    requires Fits(d, p.state) && NoCalls(d)
    ensures Fits(d, r.state)
  {
    if p.outcome.Some? then p
    else
      match a
      case Hand(n) => HandOut(d, p.state, n)
      case Tell(id, res) => TellOf(d, p.state, id, res)
  }

  /** Without calls every dispatched unit is a step that was handed out. */
  lemma NoCallsHanded(d: Doc, s: State, id: string)
    requires Fits(d, s) && NoCalls(d)
    ensures Handed(d, s, id)
  {
  }

  ghost function Drive(d: Doc, acts: seq<Act>): (r: Progress)
    requires Shaped(d) && NoCalls(d)
    ensures Fits(d, r.state)
  {
    if acts == [] then Progress(Init(d), None)
    else Act1(d, Drive(d, acts[..|acts| - 1]), acts[|acts| - 1])
  }

  // ------------------------------------------------------- the same steps as the dispatch protocol

  lemma {:induction false} SweepNoCalls(env: Env, f: Files, t: Token, rf: RunFile, u: nat)
    requires Loaded(rf) && NoCalls(rf.doc) && u <= |rf.doc.units|
    ensures Sweep(env, f, t, rf, u) == (f, rf)
    decreases |rf.doc.units| - u
  {
    if u < |rf.doc.units| {
      SweepNoCalls(env, f, t, rf, u + 1);
    }
  }

  lemma {:induction false} CallPassNoCalls(env: Env, f: Files, t: Token, rf: RunFile, frontier: seq<nat>, k: nat)
    requires Loaded(rf) && NoCalls(rf.doc) && k <= |frontier| && Within(rf.doc, frontier)
    ensures CallPass(env, f, t, rf, frontier, k) == (f, rf, frontier[k..])
    decreases |frontier| - k
  {
    hide StartCall;
    if k < |frontier| {
      CallPassNoCalls(env, f, t, rf, frontier, k + 1);
      assert frontier[k..] == [frontier[k]] + frontier[k + 1..];
      assert ExpectedNode(rf.doc, rf.state, frontier[k]).activity.Session?;
    } else {
      assert frontier[k..] == [];
    }
  }

  /** Something is always handed out of a non-empty frontier. */
  lemma ChosenSome(d: Doc, s: State, n: int)
    requires Fits(d, s) && Candidates(d, s, 0) != []
    requires s.sessions < d.maxSessions || AnyDispatched(s)
    ensures Chosen(d, s, Candidates(d, s, 0), n) != []
  {
    CandidatesExact(d, s);
    if s.sessions >= d.maxSessions {
      var u: nat :| u < |s.cells| && s.cells[u].status.Dispatched?;
      assert u in Candidates(d, s, 0);
      ReclaimsKeep(s, Candidates(d, s, 0), u);
    }
  }

  lemma {:induction false} ReclaimsKeep(s: State, steps: seq<nat>, u: nat)
    requires forall i: nat | i < |steps| :: steps[i] < |s.cells|
    requires u in steps && s.cells[u].status.Dispatched?
    ensures u in Reclaims(s, steps)
  {
    if u != steps[0] {
      ReclaimsKeep(s, steps[1..], u);
    }
  }

  /** For a run without calls a pick is exactly one hand-out. */
  lemma PickIsHandOut(env: Env, f: Files, t: Token, rf: RunFile, n: int)
    requires Loaded(rf) && NoCalls(rf.doc)
    ensures var (f', answer, end) := Pick(env, f, t, rf, n);
            var p := HandOut(rf.doc, rf.state, n);
            && end.state == p.state
            && (answer.Done? <==> p.outcome.Some?)
            && (answer.Done? ==> answer.outcome == p.outcome.value && f' == Finished(f, t, answer.outcome))
            && (answer.Steps? ==> f' == Saved(f, t, rf.(state := p.state)))
            && !answer.Waiting?
  {
    hide NoCalls, Candidates, Chosen, Emit, AnyDispatched, AnyPending, WalkOutcome, Sweep, CallPass;
    SweepNoCalls(env, f, t, rf, 0);
    var frontier := Candidates(rf.doc, rf.state, 0);
    if !(rf.state.sessions >= rf.doc.maxSessions && !AnyDispatched(rf.state)) && frontier != [] {
      CallPassNoCalls(env, f, t, rf, frontier, 0);
      assert frontier[0..] == frontier;
      ChosenSome(rf.doc, rf.state, n);
    }
  }

  /** And a record is exactly one report, with or without calls. */
  lemma RecordIsTell(f: Files, t: Token, rf: RunFile, id: string, res: Result)
    requires Loaded(rf) && Handed(rf.doc, rf.state, id)
    ensures var (f', answer) := Record(f, t, rf, id, res);
            var p := TellOf(rf.doc, rf.state, id, res);
            && (p.outcome.Some? <==> answer.Recorded? && answer.verdict.Finish?)
            && (p.outcome.Some? ==> answer.verdict.outcome == p.outcome.value && f' == Finished(f, t, p.outcome.value))
            && (answer == Recorded(Verdict.Continue) ==> f' == Saved(f, t, rf.(state := p.state)))
  {
    hide RecordSession, AfterRecord, Recorder, SetStatus;
  }

  // ---------------------------------------------------------------------------- the moves it makes

  /** The move an act makes, if it makes one. */
  ghost function MoveOf(d: Doc, s: State, a: Act): Option<Move>
    requires Fits(d, s)
  {
    match a
    case Hand(n) =>
      if (s.sessions >= d.maxSessions && !AnyDispatched(s)) || Candidates(d, s, 0) == [] then None
      else Some(EmitBatch(Chosen(d, s, Candidates(d, s, 0), n)))
    case Tell(id, res) =>
      match Recorder(d, s, id, 0)
      case None => None
      case Some(u) => if res.Retry? then Some(Release(u)) else Some(Move.Session(u, res.report))
  }

  lemma ChosenEmits(d: Doc, s: State, n: int)
    requires Fits(d, s) && NoCalls(d)
    ensures var chosen := Chosen(d, s, Candidates(d, s, 0), n);
            forall i: nat | i < |chosen| :: Emittable(d, s, chosen[i])
  {
    hide Eligible;
    CandidatesExact(d, s);
    ReclaimsFrom(s, Candidates(d, s, 0));
    var chosen := Chosen(d, s, Candidates(d, s, 0), n);
    forall i: nat | i < |chosen| ensures Emittable(d, s, chosen[i]) {
      assert chosen[i] in chosen && chosen[i] in Candidates(d, s, 0);
    }
  }

  lemma HandMoves(d: Doc, s: State, n: int)
    requires Fits(d, s) && NoCalls(d)
    ensures Enabled(d, s, EmitBatch(Chosen(d, s, Candidates(d, s, 0), n)))
  {
    ChosenEmits(d, s, n);
  }

  /** Each act either leaves the state alone or applies its move. */
  lemma ActMoves(d: Doc, p: Progress, a: Act)
    requires Fits(d, p.state) && NoCalls(d)
    ensures var r := Act1(d, p, a);
            var m := MoveOf(d, p.state, a);
            r.state == p.state || (m.Some? && Enabled(d, p.state, m.value) && r.state == Apply(d, p.state, m.value))
  {
    hide RecordSession, AfterRecord, Candidates, Chosen;
    if p.outcome.None? {
      match a
      case Hand(n) => HandMoves(d, p.state, n);
      case Tell(id, res) =>
        var who := Recorder(d, p.state, id, 0);
        if who.Some? {
          assert ExpectedNode(d, p.state, who.value).activity.Session?;
        }
    }
  }
}
