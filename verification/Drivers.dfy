/** The driver of one run under fixed answers. */
module Drivers {
  // How its picks, reports and retries interleave does not matter for where the run ends.

  import opened Documents
  import opened Validator
  import opened WalkState
  import opened Dispatch
  import opened WalkInvariants
  import opened Moves
  import opened Endings
  import opened Sessions
  import opened Schedule

  /** Whatever the driver tells is the oracle's answer to the visit that is out. */
  ghost predicate Answers(d: Doc, o: Oracle, p: Progress, a: Act)
    requires Fits(d, p.state)
  {
    a.Tell? && a.res.Ended? && p.outcome.None? && Recorder(d, p.state, a.id, 0).Some? ==>
      var u := Recorder(d, p.state, a.id, 0).value;
      a.res.report == o.report(u, p.state.cells[u].pos, p.state.cells[u].round)
  }

  ghost predicate AllAnswer(d: Doc, o: Oracle, acts: seq<Act>)
    requires Shaped(d) && NoCalls(d)
  {
    acts != [] ==>
      AllAnswer(d, o, acts[..|acts| - 1]) && Answers(d, o, Drive(d, acts[..|acts| - 1]), acts[|acts| - 1])
  }

  // ---------------------------------------------------------------------- schedules of the driver

  /** The driver's run is a play of moves that obey the same oracle. */
  lemma {:induction false} DrivePlays(d: Doc, o: Oracle, acts: seq<Act>) returns (ms: seq<Move>)
    requires Shaped(d) && NoCalls(d) && AllAnswer(d, o, acts)
    ensures AllObey(d, o, ms) && Play(d, ms) == Drive(d, acts).state
  {
    hide Act1, Apply, MoveOf;
    if acts == [] {
      ms := [];
    } else {
      var front, a := acts[..|acts| - 1], acts[|acts| - 1];
      ms := DrivePlays(d, o, front);
      var p := Drive(d, front);
      ActMoves(d, p, a);
      ActObeys(d, o, p, a);
      if Act1(d, p, a).state != p.state {
        var m := MoveOf(d, p.state, a).value;
        assert (ms + [m])[..|ms|] == ms;
        ms := ms + [m];
      }
    }
  }

  lemma ActObeys(d: Doc, o: Oracle, p: Progress, a: Act)
    requires Fits(d, p.state) && NoCalls(d) && Answers(d, o, p, a)
    ensures Act1(d, p, a).state != p.state ==>
              MoveOf(d, p.state, a).Some? ==> Obeys(d, o, p.state, MoveOf(d, p.state, a).value)
  {
    hide HandOut, RecordSession, Eligible;
  }

  /** A run that has not ended still has work, and one that completed ended with its walk's outcome. */
  ghost predicate Open(d: Doc, p: Progress)
    requires Fits(d, p.state)
  {
    && (p.outcome.None? ==> !Over(p.state))
    && (p.outcome.Some? && Over(p.state) ==> p.outcome.value == WalkOutcome(d, p.state))
  }

  lemma ActOpen(d: Doc, p: Progress, a: Act)
    requires Valid(d) && Fits(d, p.state) && NoCalls(d) && Open(d, p)
    ensures Open(d, Act1(d, p, a))
  {
    hide Valid, RecordSession, Met;
    if p.outcome.None? {
      match a
      case Hand(n) => HandOpen(d, p.state, n);
      case Tell(id, res) =>
        var who := Recorder(d, p.state, id, 0);
        if who.Some? && res.Ended? {
          TellOpen(d, RecordSession(d, p.state, who.value, res.report));
        } else if who.Some? {
          assert SetStatus(p.state, who.value, Pending).cells[who.value].status.Pending?;
        }
    }
  }

  lemma HandOpen(d: Doc, s: State, n: int)
    requires Fits(d, s) && !Over(s)
    ensures Open(d, HandOut(d, s, n))
  {
    hide Candidates, Chosen, WalkOutcome;
    var r := HandOut(d, s, n).state;
    if u: nat :| u < |s.cells| && Live(s.cells[u].status) {
      assert Live(r.cells[u].status);
    }
  }

  lemma TellOpen(d: Doc, s: State)
    requires Fits(d, s)
    ensures match AfterRecord(d, s)
            case Continue => !Over(s)
            case Stalled => !Over(s)
            case Finish(x) => Over(s) ==> x == WalkOutcome(d, s)
  {
    hide WalkOutcome;
    if Over(s) {
      NoCandidates(d, s, 0);
    }
  }

  lemma {:induction false} DriveOpen(d: Doc, acts: seq<Act>)
    requires Valid(d) && NoCalls(d)
    ensures Open(d, Drive(d, acts))
  {
    hide Open, Act1;
    if acts == [] {
      assert Init(d).cells[0].status.Pending?;
      assert Open(d, Progress(Init(d), None)) by {
        OpenAtStart(d);
      }
    } else {
      DriveOpen(d, acts[..|acts| - 1]);
      ActOpen(d, Drive(d, acts[..|acts| - 1]), acts[|acts| - 1]);
    }
  }

  lemma OpenAtStart(d: Doc)
    requires Shaped(d)
    ensures Open(d, Progress(Init(d), None))
  {
    assert Init(d).cells[0].status.Pending?;
  }

  /** Two drivers that interleave picks of any size, reports and retries differently, but get the same
      answer for the same visit, complete with the same statuses, the same history and the same outcome. */
  lemma DriversAgree(d: Doc, o: Oracle, acts: seq<Act>, acts': seq<Act>)
    requires Valid(d) && NoCalls(d) && NoBack(d) && AllAnswer(d, o, acts) && AllAnswer(d, o, acts')
    requires Over(Drive(d, acts).state) && Over(Drive(d, acts').state)
    ensures var p, p' := Drive(d, acts), Drive(d, acts');
            && Solves(d, o, p.state)
            && p.state.cells == p'.state.cells
            && p.outcome == p'.outcome == Some(WalkOutcome(d, p.state))
            && forall u: nat | u < |d.units| :: Lines(p.state.done, u) == Lines(p'.state.done, u)
  {
    hide Drive, Play, Solves, WalkOutcome, AllAnswer, AllObey;
    var ms := DrivePlays(d, o, acts);
    var ms' := DrivePlays(d, o, acts');
    ScheduleIndependence(d, o, ms, ms');
    DriveOpen(d, acts);
    DriveOpen(d, acts');
  }
}
