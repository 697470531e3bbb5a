/** How many runs one trigger can cause. */
module CallBound {
  // Every child costs its parent a session, so with caps of at most c sessions a root spawns at most
  // 1 + c + c^2 + c^3 runs, itself included.

  import opened Counting
  import opened Documents
  import opened Validator
  import opened WalkState
  import opened Dispatch
  import opened Machine
  import opened Lineage
  import opened SessionCap

  /** The runs that were not there before, the acting run aside. */
  ghost function New(f: Files, f': Files, t: Token): set<Token> {
    f'.runs.Keys - f.runs.Keys - {t}
  }

  function Spent(c: nat, s: State): nat { if s.sessions < c then s.sessions else c }

  /** Every other run of f is still there in g. */
  ghost predicate Keeps(f: Files, g: Files, t: Token) {
    forall q | q in f.runs && q != t :: q in g.runs && g.runs[q] == f.runs[q]
  }

  /** A fresh child of t that cost nothing yet. */
  ghost predicate Child(f: Files, q: Token, t: Token, depth: nat) {
    q in f.runs && q != t && q.Sub? && q.parent == t && f.runs[q].depth == depth && f.runs[q].state.sessions == 0
  }

  /** Run t went from rf to rf' and left the files f': other runs are as they were, what is new is a
      fresh child of t one level deeper, and each child was paid for with a session. */
  ghost predicate Fathered(c: nat, f: Files, f': Files, t: Token, rf: RunFile, rf': RunFile) {
    && rf'.depth == rf.depth && rf.state.sessions <= rf'.state.sessions
    && Keeps(f, f', t)
    && (forall q | q in New(f, f', t) :: Child(f', q, t, rf.depth + 1))
    && Spent(c, rf.state) + |New(f, f', t)| <= Spent(c, rf'.state)
    && (New(f, f', t) != {} ==> rf.depth < MAX_CALL_DEPTH)
  }

  lemma FatheredSelf(c: nat, f: Files, f': Files, t: Token, rf: RunFile, rf': RunFile)
    requires rf'.depth == rf.depth && rf.state.sessions <= rf'.state.sessions
    requires forall q | q != t :: (q in f.runs <==> q in f'.runs) && (q in f.runs ==> f'.runs[q] == f.runs[q])
    ensures Fathered(c, f, f', t, rf, rf')
  {
    assert New(f, f', t) == {};
  }

  lemma Additions<T>(a: set<T>, b: set<T>, c: set<T>, t: T)
    requires a - {t} <= b && b - {t} <= c
    ensures c - a - {t} == (b - a - {t}) + (c - b - {t})
    ensures |c - a - {t}| == |b - a - {t}| + |c - b - {t}|
  {
    assert c - a - {t} == (b - a - {t}) + (c - b - {t});
    assert (b - a - {t}) * (c - b - {t}) == {};
  }

  lemma KeepsKeys(f: Files, g: Files, t: Token)
    requires Keeps(f, g, t)
    ensures f.runs.Keys - {t} <= g.runs.Keys
  {
  }

  lemma KeepsTrans(f: Files, g: Files, h: Files, t: Token)
    requires Keeps(f, g, t) && Keeps(g, h, t)
    ensures Keeps(f, h, t)
  {
  }

  lemma NewTrans(f: Files, g: Files, h: Files, t: Token)
    requires Keeps(f, g, t) && Keeps(g, h, t)
    ensures Keeps(f, h, t)
    ensures New(f, h, t) == New(f, g, t) + New(g, h, t) && |New(f, h, t)| == |New(f, g, t)| + |New(g, h, t)|
  {
    KeepsTrans(f, g, h, t);
    KeepsKeys(f, g, t);
    KeepsKeys(g, h, t);
    hide Keeps;
    Additions(f.runs.Keys, g.runs.Keys, h.runs.Keys, t);
  }

  lemma ChildKept(f: Files, g: Files, h: Files, q: Token, t: Token, depth: nat)
    requires Keeps(g, h, t) && Child(g, q, t, depth)
    ensures Child(h, q, t, depth)
  {
  }

  lemma Offspring(c: nat, f: Files, f': Files, t: Token, rf: RunFile, rf': RunFile, q: Token)
    requires Fathered(c, f, f', t, rf, rf') && q in New(f, f', t)
    ensures Child(f', q, t, rf.depth + 1)
  {
    hide New, Keeps, Child;
  }

  lemma FatheredTrans(c: nat, f: Files, g: Files, h: Files, t: Token, a: RunFile, b: RunFile, e: RunFile)
    requires Fathered(c, f, g, t, a, b) && Fathered(c, g, h, t, b, e)
    ensures Fathered(c, f, h, t, a, e)
  {
    hide New, Keeps, Child, Spent;
    NewTrans(f, g, h, t);
    forall q | q in New(f, h, t) ensures Child(h, q, t, a.depth + 1) {
      if q in New(f, g, t) {
        Offspring(c, f, g, t, a, b, q);
        ChildKept(f, g, h, q, t, a.depth + 1);
      } else {
        Offspring(c, g, h, t, b, e, q);
      }
    }
  }

  lemma StartCallFathered(c: nat, env: Env, f: Files, t: Token, rf: RunFile, u: nat)
    requires Loaded(rf) && u < |rf.doc.units| && ExpectedNode(rf.doc, rf.state, u).activity.Call?
    requires rf.state.sessions < c
    ensures Fathered(c, f, StartCall(env, f, t, rf, u).0, t, rf, StartCall(env, f, t, rf, u).1)
  {
    hide StartCall, MayStart, Fathered;
    var id := ExpectedNode(rf.doc, rf.state, u).id;
    var (f', rf') := StartCall(env, f, t, rf, u);
    StartCallRuns(env, f, t, rf, u);
    if MayStart(env, f, t, rf, ExpectedNode(rf.doc, rf.state, u)) {
      NotOwnChild(t, id);
      var child: RunFile :| f'.runs == f.runs[Sub(t, id) := child] && child.depth == rf.depth + 1 && child.state.sessions == 0;
      OneChild(c, f, f', t, rf, rf', Sub(t, id), child);
    } else {
      FatheredSelf(c, f, f', t, rf, rf');
    }
  }

  lemma AddedKey<T>(a: set<T>, q: T, t: T)
    requires q !in a && q != t
    ensures (a + {q}) - a - {t} == {q}
  {
  }

  lemma NewOne(f: Files, f': Files, t: Token, q: Token, child: RunFile)
    requires q !in f.runs && q != t && f'.runs == f.runs[q := child]
    ensures New(f, f', t) == {q} && Keeps(f, f', t) && f'.runs[q] == child
  {
    assert f'.runs.Keys == f.runs.Keys + {q};
    AddedKey(f.runs.Keys, q, t);
  }

  lemma OneChild(c: nat, f: Files, f': Files, t: Token, rf: RunFile, rf': RunFile, q: Token, child: RunFile)
    requires q !in f.runs && q != t && q.Sub? && q.parent == t && f'.runs == f.runs[q := child]
    requires child.depth == rf.depth + 1 && child.state.sessions == 0 && rf.depth < MAX_CALL_DEPTH
    requires rf'.depth == rf.depth && rf'.state.sessions == rf.state.sessions + 1 && rf.state.sessions < c
    ensures Fathered(c, f, f', t, rf, rf')
  {
    NewOne(f, f', t, q, child);
    hide New, Keeps;
    assert Child(f', q, t, rf.depth + 1);
  }

  lemma StartCallRuns(env: Env, f: Files, t: Token, rf: RunFile, u: nat)
    requires Loaded(rf) && u < |rf.doc.units| && ExpectedNode(rf.doc, rf.state, u).activity.Call?
    ensures
      var node := ExpectedNode(rf.doc, rf.state, u);
      var (f', rf') := StartCall(env, f, t, rf, u);
      && rf'.depth == rf.depth
      && (!MayStart(env, f, t, rf, node) ==> f' == f)
      && (MayStart(env, f, t, rf, node) ==>
            && rf.depth < MAX_CALL_DEPTH && Sub(t, node.id) !in f.runs
            && exists child: RunFile ::
                 f'.runs == f.runs[Sub(t, node.id) := child] && child.depth == rf.depth + 1 && child.state.sessions == 0)
  {
    hide RecordCall;
  }

  lemma {:induction false} CallPassFathered(c: nat, env: Env, f: Files, t: Token, rf: RunFile, frontier: seq<nat>, k: nat)
    requires Loaded(rf) && k <= |frontier| && Within(rf.doc, frontier) && rf.doc.maxSessions <= c
    ensures Fathered(c, f, CallPass(env, f, t, rf, frontier, k).0, t, rf, CallPass(env, f, t, rf, frontier, k).1)
    decreases |frontier| - k
  {
    hide StartCall, Fathered;
    if k < |frontier| {
      var u := frontier[k];
      if ExpectedNode(rf.doc, rf.state, u).activity.Call? &&
         !rf.state.cells[u].status.Dispatched? && rf.state.sessions < rf.doc.maxSessions {
        var step := StartCall(env, f, t, rf, u);
        StartCallFathered(c, env, f, t, rf, u);
        CallPassFathered(c, env, step.0, t, step.1, frontier, k + 1);
        var end := CallPass(env, step.0, t, step.1, frontier, k + 1);
        FatheredTrans(c, f, step.0, end.0, t, rf, step.1, end.1);
      } else {
        CallPassFathered(c, env, f, t, rf, frontier, k + 1);
      }
    } else {
      FatheredSelf(c, f, f, t, rf, rf);
    }
  }

  lemma {:induction false} PickFathered(c: nat, env: Env, f: Files, t: Token, rf: RunFile, n: int)
    requires Sound(env) && Minds(f, t, rf) && rf.doc.maxSessions <= c
    ensures Loaded(rf)
    ensures Fathered(c, f, Pick(env, f, t, rf, n).0, t, rf, Pick(env, f, t, rf, n).2)
    decreases rf.doc.maxSessions - rf.state.sessions
  {
    hide *;
    MindLoaded(f, t, rf);
    PickForms(env, f, t, rf, n);
    SweepMinds(env, f, t, rf, 0);
    var (f1, rf1) := Sweep(env, f, t, rf, 0);
    LoadedFits(rf1);
    var (f', _, end) := Pick(env, f, t, rf, n);
    if rf1.state.sessions >= rf.doc.maxSessions && !AnyDispatched(rf1.state) {
      EndFathered(c, f, f1, t, rf, rf1, RunCapped);
    } else if Candidates(rf.doc, rf1.state, 0) == [] {
      SameFathered(c, f, f1, t, rf, rf1);
      EndFathered(c, f, f1, t, rf, rf1, WalkOutcome(rf.doc, rf1.state));
    } else {
      CallPassFathered(c, env, f1, t, rf1, Candidates(rf.doc, rf1.state, 0), 0);
      CallPassMinds(env, f1, t, rf1, Candidates(rf.doc, rf1.state, 0), 0);
      var pass := CallPass(env, f1, t, rf1, Candidates(rf.doc, rf1.state, 0), 0);
      LoadedFits(pass.1);
      var chosen := Chosen(rf.doc, pass.1.state, pass.2, n);
      var rf3 := pass.1.(state := Emit(rf.doc, pass.1.state, chosen));
      EmitSessions(rf.doc, pass.1.state, chosen);
      PassFathered(c, f, f1, pass.0, t, rf, rf1, pass.1, rf3);
      if chosen == [] && !AnyDispatched(rf3.state) {
        EmitMinds(pass.0, t, pass.1, chosen);
        PickFathered(c, env, Saved(pass.0, t, rf3), t, rf3, n);
        FatheredTrans(c, f, Saved(pass.0, t, rf3), f', t, rf, rf3, end);
      }
    }
  }

  lemma SameFathered(c: nat, f: Files, g: Files, t: Token, rf: RunFile, rf': RunFile)
    requires g.runs == f.runs && rf'.depth == rf.depth && rf'.state.sessions == rf.state.sessions
    ensures Fathered(c, f, g, t, rf, rf')
  {
    hide Fathered;
    FatheredSelf(c, f, g, t, rf, rf');
  }

  lemma EndFathered(c: nat, f: Files, g: Files, t: Token, rf: RunFile, rf': RunFile, o: Outcome)
    requires g.runs == f.runs && rf'.depth == rf.depth && rf'.state.sessions == rf.state.sessions
    ensures Fathered(c, f, Finished(g, t, o), t, rf, rf')
  {
    hide Fathered;
    FatheredSelf(c, f, Finished(g, t, o), t, rf, rf');
  }

  lemma PassFathered(c: nat, f: Files, g: Files, h: Files, t: Token, rf: RunFile, rf1: RunFile, rf2: RunFile, rf3: RunFile)
    requires g.runs == f.runs && rf1.depth == rf.depth && rf1.state.sessions == rf.state.sessions
    requires Fathered(c, g, h, t, rf1, rf2) && rf3.depth == rf2.depth && rf3.state.sessions == rf2.state.sessions
    ensures Fathered(c, f, Saved(h, t, rf3), t, rf, rf3)
  {
    hide Fathered;
    SameFathered(c, f, g, t, rf, rf1);
    FatheredTrans(c, f, g, h, t, rf, rf1, rf2);
    FatheredSelf(c, h, Saved(h, t, rf3), t, rf2, rf3);
    FatheredTrans(c, f, h, Saved(h, t, rf3), t, rf, rf2, rf3);
  }

  // ------------------------------------------------------------------------- what is still to come

  /** The largest family of a run at this depth, itself included, when no run has more than c sessions. */
  function Family(c: nat, depth: nat): nat
    decreases MAX_CALL_DEPTH - depth
  {
    if depth >= MAX_CALL_DEPTH then 1 else 1 + Product(c, Family(c, depth + 1))
  }

  /** What one more session of a run at this depth may still bring. */
  function Heirs(c: nat, depth: nat): nat {
    if depth >= MAX_CALL_DEPTH then 0 else Family(c, depth + 1)
  }

  /** What a run may still bring. */
  function Room(c: nat, rf: RunFile): nat {
    Product(c - Spent(c, rf.state), Heirs(c, rf.depth))
  }

  /** A run that spends sessions on children trades exactly that much of its room. */
  lemma RoomTraded(c: nat, rf: RunFile, rf': RunFile, k: nat)
    requires rf'.depth == rf.depth && Spent(c, rf.state) + k <= Spent(c, rf'.state)
    ensures Room(c, rf') + Product(k, Heirs(c, rf.depth)) <= Room(c, rf)
  {
    var h := Heirs(c, rf.depth);
    ProductAdds(c - Spent(c, rf'.state), k, h);
    ProductAdds(c - Spent(c, rf'.state) + k, c - Spent(c, rf.state), h);
  }

  /** A fresh child with its room is what one session of its parent was worth. */
  lemma ChildRoom(c: nat, child: RunFile)
    requires child.state.sessions == 0 && 0 < child.depth <= MAX_CALL_DEPTH
    ensures 1 + Room(c, child) == Heirs(c, child.depth - 1)
  {
    assert c - Spent(c, child.state) == c;
    if child.depth == MAX_CALL_DEPTH {
      assert Product(c, 0) == 0;
    }
  }

  function RootName(t: Token): string {
    match t case Top(name) => name case Sub(p, _) => RootName(p)
  }

  ghost function Under(w: Files, name: string): set<Token> {
    set t | t in w.runs.Keys && RootName(t) == name
  }

  ghost function Sum(c: nat, w: Files, s: set<Token>): nat
    requires s <= w.runs.Keys
  {
    if s == {} then 0
    else
      var t :| t in s;
      Room(c, w.runs[t]) + Sum(c, w, s - {t})
  }

  lemma {:induction false} SumPick(c: nat, w: Files, s: set<Token>, t: Token)
    requires s <= w.runs.Keys && t in s
    ensures Sum(c, w, s) == Room(c, w.runs[t]) + Sum(c, w, s - {t})
    decreases |s|
  {
    hide Room;
    var x :| x in s && Sum(c, w, s) == Room(c, w.runs[x]) + Sum(c, w, s - {x});
    if x != t {
      SumPick(c, w, s - {x}, t);
      SumPick(c, w, s - {t}, x);
      assert s - {x} - {t} == s - {t} - {x};
    }
  }

  lemma {:induction false} SumUnion(c: nat, w: Files, a: set<Token>, b: set<Token>)
    requires a + b <= w.runs.Keys && a !! b
    ensures Sum(c, w, a + b) == Sum(c, w, a) + Sum(c, w, b)
    decreases |b|
  {
    hide Room;
    if b == {} {
      assert a + b == a;
    } else {
      var t :| t in b;
      SumPick(c, w, b, t);
      SumPick(c, w, a + b, t);
      SumUnion(c, w, a, b - {t});
      assert a + b - {t} == a + (b - {t});
    }
  }

  lemma {:induction false} SumSame(c: nat, w: Files, w': Files, s: set<Token>)
    requires s <= w.runs.Keys && s <= w'.runs.Keys && forall t | t in s :: w.runs[t] == w'.runs[t]
    ensures Sum(c, w, s) == Sum(c, w', s)
    decreases |s|
  {
    hide Room;
    if s != {} {
      var t :| t in s;
      SumPick(c, w, s, t);
      SumPick(c, w', s, t);
      SumSame(c, w, w', s - {t});
    }
  }

  /** A set of fresh children of one depth, each counted with its room. */
  lemma {:induction false} SumChildren(c: nat, w: Files, s: set<Token>, depth: nat)
    requires s <= w.runs.Keys && depth < MAX_CALL_DEPTH
    requires forall t | t in s :: w.runs[t].depth == depth + 1 && w.runs[t].state.sessions == 0
    ensures |s| + Sum(c, w, s) == Product(|s|, Heirs(c, depth))
    decreases |s|
  {
    hide Room, Heirs;
    if s != {} {
      var t :| t in s;
      SumPick(c, w, s, t);
      ChildRoom(c, w.runs[t]);
      SumChildren(c, w, s - {t}, depth);
      ProductAdds(|s| - 1, 1, Heirs(c, depth));
      assert Product(1, Heirs(c, depth)) == Heirs(c, depth);
    }
  }

  // --------------------------------------------------------------------------- over whole executions

  /** The runs of this family that an event adds. */
  ghost function Births(w: Files, w': Files, name: string): set<Token> {
    Under(w', name) - Under(w, name)
  }

  /** All runs of this family that ever began, and how many of them were roots. */
  ghost function Born(es: seq<Event>, name: string): nat {
    if es == [] then 0
    else Born(es[..|es| - 1], name) + |Births(Exec(es[..|es| - 1]), Exec(es), name)|
  }

  ghost function Begun(es: seq<Event>, name: string): nat {
    if es == [] then 0
    else
      Begun(es[..|es| - 1], name) +
      if Top(name) in Births(Exec(es[..|es| - 1]), Exec(es), name) then 1 else 0
  }

  /** The documents of an execution allow at most c sessions a run. */
  ghost predicate CapsAtMost(c: nat, es: seq<Event>) {
    forall i: nat | i < |es| :: Brings((d: Doc) => d.maxSessions <= c, es[i])
  }

  /** What a run fathers is of its own family. */
  lemma NewNamed(c: nat, w: Files, w': Files, t: Token, rf: RunFile, end: RunFile)
    requires Fathered(c, w, w', t, rf, end)
    ensures forall q | q in New(w, w', t) :: q in w'.runs && RootName(q) == RootName(t)
                                             && w'.runs[q].depth == rf.depth + 1 && w'.runs[q].state.sessions == 0
  {
    hide New, Keeps, Spent;
    forall q | q in New(w, w', t)
      ensures q in w'.runs && RootName(q) == RootName(t)
              && w'.runs[q].depth == rf.depth + 1 && w'.runs[q].state.sessions == 0
    {
      Offspring(c, w, w', t, rf, end, q);
    }
  }

  lemma FamilySets(w: Files, w': Files, t: Token)
    requires t in w.runs && Keeps(w, w', t) && forall q | q in New(w, w', t) :: RootName(q) == RootName(t)
    ensures var name := RootName(t);
            var others := Under(w, name) - {t};
            && Births(w, w', name) == New(w, w', t)
            && Under(w', name) == others + New(w, w', t) + (if t in w'.runs then {t} else {})
            && others !! New(w, w', t) && t !in others && t !in New(w, w', t) && t in Under(w, name)
            && (forall q | q in others :: q in w'.runs && w'.runs[q] == w.runs[q])
  {
    var name := RootName(t);
    var others := Under(w, name) - {t};
    forall q ensures q in Under(w', name) <==> q in others || q in New(w, w', t) || (q == t && t in w'.runs) {
    }
    assert Under(w', name) == others + New(w, w', t) + (if t in w'.runs then {t} else {});
    forall q ensures q in Births(w, w', name) <==> q in New(w, w', t) {
    }
  }

  lemma OtherFamilies(w: Files, w': Files, t: Token, name: string)
    requires t in w.runs && Keeps(w, w', t) && name != RootName(t)
    requires forall q | q in New(w, w', t) :: RootName(q) == RootName(t)
    ensures Under(w', name) == Under(w, name) && forall q | q in Under(w, name) :: w'.runs[q] == w.runs[q]
  {
    forall q ensures q in Under(w', name) <==> q in Under(w, name) {
    }
  }

  /** The family apart from the acting run: what is added was already counted as room of the acting run. */
  lemma FamilyOthers(c: nat, w: Files, w': Files, t: Token, rf: RunFile, end: RunFile)
    requires t in w.runs && w.runs[t] == rf && Fathered(c, w, w', t, rf, end)
    requires forall q | q in New(w, w', t) :: RootName(q) == RootName(t)
    ensures var others, added := Under(w, RootName(t)) - {t}, New(w, w', t);
            && others + added <= w'.runs.Keys
            && |added| + Sum(c, w', others + added) + Room(c, end) <= Sum(c, w, Under(w, RootName(t)))
  {
    NewNamed(c, w, w', t, rf, end);
    FamilySets(w, w', t);
    var name, added := RootName(t), New(w, w', t);
    var others := Under(w, name) - {t};
    assert Under(w, name) <= w.runs.Keys && added <= w'.runs.Keys;
    hide *;
    SumPick(c, w, Under(w, name), t);
    SumSame(c, w, w', others);
    SumUnion(c, w', others, added);
    if added != {} {
      SumChildren(c, w', added, rf.depth);
    } else {
      NoProduct(Heirs(c, rf.depth));
    }
    RoomTraded(c, rf, end, |added|);
  }

  /** A pick adds children to the acting run's family, and no more than it gave up room for. */
  lemma FamilySum(c: nat, w: Files, w': Files, t: Token, rf: RunFile, end: RunFile)
    requires t in w.runs && w.runs[t] == rf && Fathered(c, w, w', t, rf, end) && (t in w'.runs ==> w'.runs[t] == end)
    ensures var name := RootName(t);
            |Births(w, w', name)| + Sum(c, w', Under(w', name)) <= Sum(c, w, Under(w, name))
  {
    NewNamed(c, w, w', t, rf, end);
    FamilySets(w, w', t);
    FamilyOthers(c, w, w', t, rf, end);
    var name, added := RootName(t), New(w, w', t);
    var others := Under(w, name) - {t};
    hide *;
    if t in w'.runs {
      SumUnion(c, w', others + added, {t});
      SumPick(c, w', {t}, t);
      assert {t} - {t} == {};
    } else {
      assert others + added + {} == others + added;
    }
  }

  /** A record touches its own run alone: it advances it, or ends it. */
  lemma RecordFathered(c: nat, w: Files, t: Token, rf: RunFile, id: string, res: Result) returns (end: RunFile)
    requires t in w.runs && w.runs[t] == rf && Loaded(rf) && Handed(rf.doc, rf.state, id)
    ensures var w' := Record(w, t, rf, id, res).0;
            Fathered(c, w, w', t, rf, end) && (t in w'.runs ==> w'.runs[t] == end)
  {
    hide RecordSession, AfterRecord, Recorder, Fathered;
    var w' := Record(w, t, rf, id, res).0;
    end := if t in w'.runs then w'.runs[t] else rf;
    FatheredSelf(c, w, w', t, rf, end);
  }

  /** A root brings one run and the room of a whole family. */
  lemma FamilyRoot(c: nat, w: Files, name: string, root: RunFile)
    requires Top(name) !in w.runs && root.depth == 0 && root.state.sessions == 0
    ensures var w' := Saved(w, Top(name), root);
            && |Births(w, w', name)| + Sum(c, w', Under(w', name)) == Sum(c, w, Under(w, name)) + Family(c, 0)
            && Top(name) in Births(w, w', name)
  {
    hide Room, Heirs;
    var w' := Saved(w, Top(name), root);
    assert Under(w', name) == Under(w, name) + {Top(name)};
    assert Births(w, w', name) == {Top(name)};
    SumPick(c, w', Under(w', name), Top(name));
    assert Under(w', name) - {Top(name)} == Under(w, name);
    SumSame(c, w, w', Under(w, name));
    RootRoom(c, root);
  }

  lemma RootRoom(c: nat, root: RunFile)
    requires root.depth == 0 && root.state.sessions == 0
    ensures 1 + Room(c, root) == Family(c, 0)
  {
    assert c - Spent(c, root.state) == c;
  }

  /** What one event may add to a family: a root with the room of a family, or children that were
      already counted as their parent's room. */
  ghost predicate Balanced(c: nat, w: Files, w': Files, name: string) {
    |Births(w, w', name)| + Sum(c, w', Under(w', name))
      <= Sum(c, w, Under(w, name)) + (if Top(name) in Births(w, w', name) then Family(c, 0) else 0)
  }

  lemma BalancedSame(c: nat, w: Files, w': Files, name: string)
    requires Under(w', name) == Under(w, name) && forall q | q in Under(w, name) :: w'.runs[q] == w.runs[q]
    ensures Balanced(c, w, w', name)
  {
    SumSame(c, w, w', Under(w, name));
    assert Births(w, w', name) == {};
  }

  lemma BalancedActor(c: nat, w: Files, w': Files, t: Token, rf: RunFile, end: RunFile, name: string)
    requires t in w.runs && w.runs[t] == rf && Fathered(c, w, w', t, rf, end) && (t in w'.runs ==> w'.runs[t] == end)
    ensures Balanced(c, w, w', name)
  {
    if name == RootName(t) {
      hide Under, Births, Sum, RootName;
      FamilySum(c, w, w', t, rf, end);
    } else {
      NewNamed(c, w, w', t, rf, end);
      hide New, Keeps, Child, Under;
      OtherFamilies(w, w', t, name);
      BalancedSame(c, w, w', name);
    }
  }

  lemma BalancedRoot(c: nat, w: Files, root: string, rf: RunFile, name: string)
    requires Top(root) !in w.runs && rf.depth == 0 && rf.state.sessions == 0
    ensures Balanced(c, w, Saved(w, Top(root), rf), name)
  {
    if name == root {
      hide Under, Births, Sum;
      FamilyRoot(c, w, name, rf);
    } else {
      assert Under(Saved(w, Top(root), rf), name) == Under(w, name);
      hide Under;
      BalancedSame(c, w, Saved(w, Top(root), rf), name);
    }
  }

  lemma PickBalanced(c: nat, w: Files, env: Env, t: Token, n: int, name: string)
    requires Sound(env) && AllSane(w) && AllMind(w) && t in w.runs && w.runs[t].doc.maxSessions <= c
    ensures Loaded(w.runs[t])
    ensures !Pick(env, w, t, w.runs[t], n).1.WalkStalled? ==> Balanced(c, w, Pick(env, w, t, w.runs[t], n).0, name)
  {
    hide *;
    MindAt(w, t);
    PickFathered(c, env, w, t, w.runs[t], n);
    PickOthers(env, w, t, w.runs[t], n);
    PickAnswers(env, w, t, n);
    var (w', answer, end) := Pick(env, w, t, w.runs[t], n);
    if !answer.WalkStalled? {
      BalancedActor(c, w, w', t, w.runs[t], end, name);
    }
  }

  lemma StepBalanced(c: nat, w: Files, e: Event, name: string)
    requires AllSane(w) && AllMind(w) && AllFine((d: Doc) => d.maxSessions <= c, w) && Unstalled(w, e)
    ensures Balanced(c, w, Step(w, e), name)
  {
    hide AllSane, AllMind, Pick, Record, Valid, Balanced, Fathered, Handed, AllFine;
    BalancedSame(c, w, w, name);
    match e
    case Begin(root, doc, title) =>
      if Top(root) !in w.runs && Valid(doc) {
        StartedShape(doc);
        BalancedRoot(c, w, root, NewRun(doc, 0, [title]), name);
      }
    case PickRun(env, t, n) =>
      if t in w.runs && Loaded(w.runs[t]) && Sound(env) {
        FineAt((d: Doc) => d.maxSessions <= c, w, t);
        PickBalanced(c, w, env, t, n, name);
      }
    case RecordRun(t, id, res) =>
      if t in w.runs && Loaded(w.runs[t]) && Handed(w.runs[t].doc, w.runs[t].state, id) {
        var end := RecordFathered(c, w, t, w.runs[t], id, res);
        BalancedActor(c, w, Step(w, e), t, w.runs[t], end, name);
      }
  }

  lemma CapsFront(c: nat, es: seq<Event>)
    requires CapsAtMost(c, es) && es != []
    ensures CapsAtMost(c, es[..|es| - 1])
  {
    hide Brings;
  }

  lemma CapsFine(c: nat, es: seq<Event>)
    requires CapsAtMost(c, es)
    ensures AllFine((d: Doc) => d.maxSessions <= c, Exec(es))
  {
    hide Exec, Brings;
    ExecFine((d: Doc) => d.maxSessions <= c, es);
  }

  lemma {:induction false} FamilyBound(c: nat, es: seq<Event>, name: string)
    requires CapsAtMost(c, es) && NeverStalls(es)
    ensures Born(es, name) + Sum(c, Exec(es), Under(Exec(es), name)) <= Product(Begun(es, name), Family(c, 0))
  {
    hide Family, Exec, Step, NeverStalls, CapsAtMost, Under, Births, Product, AllSane, AllMind, AllFine;
    if es == [] {
      NothingBorn(c, name);
    } else {
      var front, e := es[..|es| - 1], es[|es| - 1];
      NeverStallsFront(es);
      CapsFront(c, es);
      FamilyBound(c, front, name);
      ExecSane(front);
      ExecMinds(front);
      CapsFine(c, front);
      StepBalanced(c, Exec(front), e, name);
      assert Exec(es) == Step(Exec(front), e) by { LastStep(es); }
      ProductAdds(Begun(front, name), 1, Family(c, 0));
      OneProduct(Family(c, 0));
    }
  }

  lemma NothingBorn(c: nat, name: string)
    ensures Exec([]) == NOTHING && Under(NOTHING, name) == {} && Sum(c, NOTHING, {}) == 0
    ensures Product(0, Family(c, 0)) == 0
  {
  }

  lemma FamilySize(c: nat)
    ensures Family(c, 0) == 1 + c + c * c + c * c * c
  {
    assert Family(c, 3) == 1;
    assert Family(c, 2) == 1 + c * 1;
    assert Family(c, 1) == 1 + c * (1 + c) == 1 + c + c * c;
    assert Family(c, 0) == 1 + c * (1 + c + c * c);
    assert c * (1 + c + c * c) == c + c * c + c * c * c;
  }

  /** The bound: over every execution in which no pick is refused for a stall, the runs that ever carry a
      trigger's name, children included, are at most 1 + c + c^2 + c^3 for each time it was started. */
  lemma TreeSizeBound(c: nat, es: seq<Event>, name: string)
    requires CapsAtMost(c, es) && NeverStalls(es)
    ensures Born(es, name) <= Product(Begun(es, name), Family(c, 0))
    ensures Family(c, 0) == 1 + c + c * c + c * c * c
  {
    hide *;
    FamilyBound(c, es, name);
    FamilySize(c);
  }
}
