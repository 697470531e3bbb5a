/** A loop or stage container over a whole run. */
module Containers {
  // Its children come in order, round by round, until an error, the loop's exit or its round cap.

  import opened Documents
  import opened Validator
  import opened WalkState
  import opened Schedule
  import opened Termination

  /** The turn after this one, when the unit goes on. */
  predicate Follows(unit: Unit, a: Turn, b: Turn) {
    if a.pos + 1 < |unit.children| then b.pos == a.pos + 1 && b.round == a.round
    else unit.kind.Loop? && b.pos == 0 && b.round == a.round + 1
  }

  /** Only a loop's last child says whether the loop is done: a session by its verdict, a call by
      succeeding. */
  predicate Exits(unit: Unit, u: nat, o: Oracle, a: Turn) {
    && unit.kind.Loop? && a.pos + 1 == |unit.children|
    && (unit.children[a.pos].activity.Session? ==> o.report(u, a.pos, a.round).exit)
  }

  predicate GoesOn(unit: Unit, u: nat, o: Oracle, a: Turn) {
    && a.ok && !Exits(unit, u, o, a)
    && (a.pos + 1 < |unit.children| || (unit.kind.Loop? && a.round < unit.kind.maxRounds))
  }

  /** How the last turn decides the unit. An error fails it; a plain node follows its verdict; a stage that
      finished its children succeeds; a loop succeeds by its exit and otherwise fails as capped. */
  predicate Decides(unit: Unit, u: nat, o: Oracle, a: Turn, end: Cell) {
    if !a.ok then end.status.Failure? && !end.capped
    else
      a.pos + 1 == |unit.children| &&
      match unit.kind
      case Plain =>
        var rejected := unit.children[0].activity.Session? && o.report(u, a.pos, a.round).branch == Some(false);
        end.status == (if rejected then Failure else Success) && !end.capped
      case Stage => end.status.Success? && !end.capped
      case Loop(maxRounds) =>
        if Exits(unit, u, o, a) then end.status.Success? && !end.capped
        else a.round == maxRounds && end.status.Failure? && end.capped
  }

  predicate Answered(unit: Unit, u: nat, o: Oracle, a: Turn) {
    && a.pos < |unit.children|
    && a.ok == if unit.children[a.pos].activity.Session? then !o.report(u, a.pos, a.round).error
               else o.called(u, a.pos, a.round)
  }

  ghost predicate Walked(unit: Unit, u: nat, o: Oracle, turns: seq<Turn>, end: Cell) {
    && |turns| > 0
    && (forall k: nat | k < |turns| :: Answered(unit, u, o, turns[k]))
    && (forall k: nat, m: nat | m == k + 1 < |turns| :: GoesOn(unit, u, o, turns[k]) && Follows(unit, turns[k], turns[m]))
    && Decides(unit, u, o, turns[|turns| - 1], end)
  }

  /** One visit: it answers, and either goes on to the next turn or decides. */
  lemma OneTurn(unit: Unit, u: nat, o: Oracle, c: Cell)
    requires ShapedUnit(unit) && CellFits(unit, c) && !c.capped
    ensures var (c', turn) := Visit(unit, u, o, c);
            && turn.pos == c.pos && turn.round == c.round && Answered(unit, u, o, turn)
            && (c'.status.Pending? ==> !c'.capped && GoesOn(unit, u, o, turn)
                                       && Follows(unit, turn, Turn(c'.pos, c'.round, true)))
            && (!c'.status.Pending? ==> Decides(unit, u, o, turn, c'))
  {
  }

  lemma WalkedCons(unit: Unit, u: nat, o: Oracle, a: Turn, rest: seq<Turn>, end: Cell)
    requires Walked(unit, u, o, rest, end) && Answered(unit, u, o, a) && GoesOn(unit, u, o, a) && Follows(unit, a, rest[0])
    ensures Walked(unit, u, o, [a] + rest, end)
  {
    hide Answered, GoesOn, Follows, Decides;
    var turns := [a] + rest;
    assert turns[|turns| - 1] == rest[|rest| - 1];
    forall k: nat, m: nat | m == k + 1 < |turns|
      ensures GoesOn(unit, u, o, turns[k]) && Follows(unit, turns[k], turns[m])
    {
      if k > 0 {
        assert turns[k] == rest[k - 1] && turns[m] == rest[k];
      }
    }
  }

  lemma {:induction false} WalksFrom(unit: Unit, u: nat, o: Oracle, c: Cell)
    requires ShapedUnit(unit) && CellFits(unit, c) && !c.capped
    ensures var (end, turns) := RunAlone(unit, u, o, c);
            Walked(unit, u, o, turns, end) && turns[0].pos == c.pos && turns[0].round == c.round
    decreases Left(unit, Bare(c))
  {
    VisitLeft(unit, u, o, c);
    OneTurn(unit, u, o, c);
    hide Visit, Answered, GoesOn, Decides, ShapedUnit, Left;
    var (c', turn) := Visit(unit, u, o, c);
    if c'.status.Pending? {
      WalksFrom(unit, u, o, c');
      var (end, rest) := RunAlone(unit, u, o, c');
      WalkedCons(unit, u, o, turn, rest, end);
    }
  }

  /** A unit's own run, from its first child in its first round: every turn is answered, every turn but the
      last goes on to the next child or the next round, and the last one decides the unit. */
  lemma UnitWalks(unit: Unit, u: nat, o: Oracle)
    requires ShapedUnit(unit)
    ensures CellFits(unit, FRESH)
    ensures var (end, turns) := RunAlone(unit, u, o, FRESH);
            Walked(unit, u, o, turns, end) && turns[0].pos == 0 && turns[0].round == 1
  {
    WalksFrom(unit, u, o, FRESH);
  }
}
