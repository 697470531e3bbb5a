/** The tree of runs that call nodes build. */
module CallTree {
  // Who waits for whom, whose outcome is parked, and why the tree never deadlocks, over pipelines that
  // do not change while the engine works.

  import opened Documents
  import opened Validator
  import opened WalkState
  import opened Dispatch
  import opened WalkInvariants
  import opened Moves
  import opened Machine

  /** The installed pipelines: what each trigger runs and what each call resolves to. */
  datatype Config = Config(roots: map<string, Doc>, library: map<string, Doc>)

  /** The documents in which no bounce re-pends a unit that is out on a call, and no call that ends makes
      the frontier stale: wherever a back-edge and a call meet, the unit that would be re-pended is one that
      never is live together with the back-edge's source. */
  ghost predicate TreeDoc(d: Doc) {
    forall i: nat, v: nat |
      i < |d.edges| && d.edges[i].back && d.edges[i].src < |d.units| && v < |d.units| &&
      v in ReachSet(d, d.edges[i].dst) && v != d.edges[i].src &&
      (HasCall(d.units[d.edges[i].src]) || HasCall(d.units[v])) ::
      AllJoins(d) && Comparable(d, v, d.edges[i].src)
  }

  /** Documents without back-edges and documents without calls are such documents. */
  lemma PlainTreeDoc(d: Doc)
    requires NoBack(d) || NoCalls(d)
    ensures TreeDoc(d)
  {
  }

  ghost predicate GoodConfig(cfg: Config) {
    && (forall name | name in cfg.roots :: Valid(cfg.roots[name]) && TreeDoc(cfg.roots[name]))
    && (forall name | name in cfg.library :: Valid(cfg.library[name]) && TreeDoc(cfg.library[name]))
  }

  predicate CallNode(d: Doc, u: nat, k: nat, id: string) {
    u < |d.units| && k < |d.units[u].children| && d.units[u].children[k].id == id &&
    d.units[u].children[k].activity.Call?
  }

  /** The document a run of this name has, whenever it runs. */
  ghost function DocOf(cfg: Config, t: Token): Option<Doc> {
    match t
    case Top(name) => if name in cfg.roots then Some(Started(cfg.roots[name])) else None
    case Sub(p, id) =>
      match DocOf(cfg, p)
      case None => None
      case Some(d) =>
        if u: nat, k: nat :| CallNode(d, u, k, id)
        then
          var name := d.units[u].children[k].activity.pipeline;
          if name in cfg.library then Some(Started(cfg.library[name])) else None
        else None
  }

  lemma DocOfChild(cfg: Config, t: Token, d: Doc, u: nat, k: nat)
    requires DocOf(cfg, t) == Some(d) && UniqueIds(d) && u < |d.units| && k < |d.units[u].children|
    requires d.units[u].children[k].activity.Call? && d.units[u].children[k].activity.pipeline in cfg.library
    ensures DocOf(cfg, Sub(t, d.units[u].children[k].id)) ==
            Some(Started(cfg.library[d.units[u].children[k].activity.pipeline]))
  {
    var id := d.units[u].children[k].id;
    assert CallNode(d, u, k, id);
    forall v: nat, m: nat | CallNode(d, v, m, id) ensures v == u && m == k {
      assert SameId(d, u, k, v, m);
    }
  }

  // ---------------------------------------------------------------------------------- invariant

  /** Unit u is out on a call. */
  predicate CallOut(d: Doc, s: State, u: nat)
    requires Fits(d, s)
  {
    u < |d.units| && s.cells[u].status.Dispatched? && ExpectedNode(d, s, u).activity.Call?
  }

  /** A unit out on a call waits for its own child, which is either running or parked, never both. */
  ghost predicate WaitOk(w: Files, t: Token, u: nat)
    requires t in w.runs && Loaded(w.runs[t])
  {
    var rf := w.runs[t];
    CallOut(rf.doc, rf.state, u) ==>
      var node := ExpectedNode(rf.doc, rf.state, u);
      var child := Sub(t, node.id);
      && node.activity.wait
      && rf.state.cells[u].child == Some(child)
      && ((child in w.runs) != (child in w.parked))
      && (child in w.runs ==> w.runs[child].depth == rf.depth + 1)
  }

  predicate DetachedNode(d: Doc, id: string) {
    exists u: nat, k: nat | u < |d.units| && k < |d.units[u].children| ::
      CallNode(d, u, k, id) && !d.units[u].children[k].activity.wait
  }

  ghost predicate AwaitedBy(w: Files, p: Token, id: string) {
    && p in w.runs && Loaded(w.runs[p])
    && exists u: nat :: CallOut(w.runs[p].doc, w.runs[p].state, u) &&
                        ExpectedNode(w.runs[p].doc, w.runs[p].state, u).id == id
  }

  /** A child that is known at all was detached, or its parent is out waiting for it. */
  ghost predicate ClaimOk(cfg: Config, w: Files, p: Token, id: string) {
    Known(w, Sub(p, id)) ==>
      DocOf(cfg, p).Some? && (DetachedNode(DocOf(cfg, p).value, id) || AwaitedBy(w, p, id))
  }

  /** Bookkeeping of one run: its document is the installed one, and its call path has no repeats. */
  ghost predicate RunOk(cfg: Config, t: Token, rf: RunFile) {
    && DocOf(cfg, t) == Some(rf.doc)
    && Valid(rf.doc) && TreeDoc(rf.doc) && Loaded(rf) && Reached(rf.doc, rf.state)
    && |rf.path| == rf.depth + 1 && rf.depth <= MAX_CALL_DEPTH
    && forall i: nat, j: nat | i < j < |rf.path| :: rf.path[i] != rf.path[j]
  }

  ghost predicate AllRuns(cfg: Config, w: Files) {
    forall t | t in w.runs :: RunOk(cfg, t, w.runs[t])
  }

  ghost predicate AllWaits(w: Files)
    requires AllLoaded(w)
  {
    forall t, u: nat | t in w.runs :: WaitOk(w, t, u)
  }

  ghost predicate AllClaims(cfg: Config, w: Files) {
    forall p, id :: ClaimOk(cfg, w, p, id)
  }

  ghost predicate TreeOk(cfg: Config, w: Files) {
    AllRuns(cfg, w) && AllLoaded(w) && AllWaits(w) && AllClaims(cfg, w)
  }

  lemma TreeDocSafe(d: Doc)
    requires TreeDoc(d)
    ensures Safe(d)
  {
    hide AllJoins, Comparable, HasCall;
    forall i: nat, v: nat |
      i < |d.edges| && d.edges[i].back && d.edges[i].src < |d.units| && HasCall(d.units[d.edges[i].src]) &&
      v in ReachSet(d, d.edges[i].dst) && v != d.edges[i].src
      ensures AllJoins(d) && Comparable(d, v, d.edges[i].src)
    {
    }
  }

  // ------------------------------------------------------------- what a move does to calls that are out

  /** Every call out from another unit than u stays out, unchanged, and no other goes out. */
  ghost predicate CallsKept(d: Doc, s: State, s': State, u: nat)
    requires Fits(d, s) && Fits(d, s')
  {
    forall v: nat | v < |d.units| && v != u ::
      && (CallOut(d, s', v) <==> CallOut(d, s, v))
      && (CallOut(d, s, v) ==> s'.cells[v] == s.cells[v])
  }

  lemma SkipsKeepCalls(d: Doc, s: State)
    requires Fits(d, s)
    ensures CallsKept(d, s, Skips(d, s), |d.units|)
  {
    hide Skips;
    forall v: nat | v < |d.units|
      ensures CallOut(d, Skips(d, s), v) <==> CallOut(d, s, v)
      ensures CallOut(d, s, v) ==> Skips(d, s).cells[v] == s.cells[v]
    {
      SkipsOnlyPending(d, s, v);
    }
  }

  /** No back-edge of a live, joined unit u leads to a unit that is out on a call. */
  lemma OutOfReach(d: Doc, s: State, u: nat, v: nat, i: nat)
    requires Consistent(d, s) && TreeDoc(d) && u < |d.units| && v < |d.units| && v != u && CallOut(d, s, v)
    requires Live(s.cells[u].status) && Met(d, s, u)
    requires i < |d.edges| && d.edges[i].back && d.edges[i].src == u
    ensures v !in ReachSet(d, d.edges[i].dst)
  {
    if v in ReachSet(d, d.edges[i].dst) {
      assert HasCall(d.units[v]) && Justified(d, s, v);
      ComparableExclusive(d, s, v, u);
    }
  }

  lemma SettleKeepsCalls(d: Doc, s: State, s': State, u: nat)
    requires Consistent(d, s) && Fits(d, s') && TreeDoc(d) && u < |d.units|
    requires Live(s.cells[u].status) && Met(d, s, u)
    requires s'.cells == s.cells[u := s'.cells[u]] && !s'.cells[u].status.Dispatched?
    ensures CallsKept(d, s', Settle(d, s', u), |d.units|)
  {
    hide Skips, ReachSet, TreeDoc, Met;
    if Ran(s'.cells[u].status) {
      var b := Bounce(d, s', u);
      SkipsKeepCalls(d, b);
      forall v: nat | v < |d.units| && CallOut(d, s', v) ensures b.cells[v] == s'.cells[v] {
        if Firing(d, s', u, 0).Some? {
          OutOfReach(d, s, u, v, Firing(d, s', u, 0).value);
        }
      }
    }
  }

  /** Resolving the live, joined unit u touches no other unit's call. */
  lemma ResolutionKeepsCalls(d: Doc, s: State, s': State, u: nat)
    requires Consistent(d, s) && Fits(d, s') && TreeDoc(d) && u < |d.units|
    requires Live(s.cells[u].status) && Met(d, s, u)
    requires s'.cells == s.cells[u := s'.cells[u]] && !s'.cells[u].status.Dispatched?
    ensures CallsKept(d, s, Settle(d, s', u), u) && !CallOut(d, Settle(d, s', u), u)
  {
    hide Settle, Met, TreeDoc;
    SettleKeepsCalls(d, s, s', u);
  }

  // ------------------------------------------------------------------ what a move does to the tree

  lemma RunsSaved(cfg: Config, w: Files, t: Token, rf: RunFile)
    requires AllRuns(cfg, w) && RunOk(cfg, t, rf)
    ensures AllRuns(cfg, Saved(w, t, rf)) && AllLoaded(Saved(w, t, rf))
  {
    forall q | q in Saved(w, t, rf).runs ensures RunOk(cfg, q, Saved(w, t, rf).runs[q]) {
      if q != t {
        assert RunOk(cfg, q, w.runs[q]);
      }
    }
  }

  lemma WaitsSaved(w: Files, t: Token, rf: RunFile)
    requires AllLoaded(w) && AllWaits(w) && t in w.runs && Loaded(rf)
    requires rf.doc == w.runs[t].doc && rf.depth == w.runs[t].depth
    requires CallsKept(rf.doc, w.runs[t].state, rf.state, |rf.doc.units|)
    ensures AllLoaded(Saved(w, t, rf)) && AllWaits(Saved(w, t, rf))
  {
    forall q, v: nat | q in w.runs ensures WaitOk(Saved(w, t, rf), q, v) {
      assert WaitOk(w, q, v);
    }
  }

  lemma ClaimsSaved(cfg: Config, w: Files, t: Token, rf: RunFile)
    requires AllLoaded(w) && AllClaims(cfg, w) && t in w.runs && Loaded(rf)
    requires rf.doc == w.runs[t].doc
    requires CallsKept(rf.doc, w.runs[t].state, rf.state, |rf.doc.units|)
    ensures AllClaims(cfg, Saved(w, t, rf))
  {
    forall p, id ensures ClaimOk(cfg, Saved(w, t, rf), p, id) {
      assert ClaimOk(cfg, w, p, id);
      if AwaitedBy(w, t, id) {
        var v: nat :| CallOut(rf.doc, w.runs[t].state, v) && ExpectedNode(rf.doc, w.runs[t].state, v).id == id;
        assert CallOut(rf.doc, rf.state, v) && ExpectedNode(rf.doc, rf.state, v).id == id;
      }
    }
  }

  /** A run's record may change as long as the same units stay out on the same calls. */
  lemma QuietMove(cfg: Config, w: Files, t: Token, rf: RunFile)
    requires TreeOk(cfg, w) && t in w.runs && RunOk(cfg, t, rf)
    requires rf.doc == w.runs[t].doc && rf.depth == w.runs[t].depth
    requires CallsKept(rf.doc, w.runs[t].state, rf.state, |rf.doc.units|)
    ensures TreeOk(cfg, Saved(w, t, rf))
  {
    RunsSaved(cfg, w, t, rf);
    WaitsSaved(w, t, rf);
    ClaimsSaved(cfg, w, t, rf);
  }

  lemma WaitedNotDetached(d: Doc, u: nat, k: nat)
    requires UniqueIds(d) && u < |d.units| && k < |d.units[u].children|
    requires d.units[u].children[k].activity.Call? && d.units[u].children[k].activity.wait
    ensures !DetachedNode(d, d.units[u].children[k].id)
  {
    var id := d.units[u].children[k].id;
    forall v: nat, m: nat | v < |d.units| && m < |d.units[v].children| && CallNode(d, v, m, id)
      ensures d.units[v].children[m].activity.wait
    {
      assert SameId(d, u, k, v, m);
    }
  }

  /** A unit that is not out on its waited call has no child left over: nothing runs or is parked
      under that name. */
  lemma NoLeftover(cfg: Config, w: Files, t: Token, u: nat)
    requires TreeOk(cfg, w) && t in w.runs && u < |w.runs[t].doc.units|
    requires var rf := w.runs[t];
             !CallOut(rf.doc, rf.state, u) && ExpectedNode(rf.doc, rf.state, u).activity.Call? &&
             ExpectedNode(rf.doc, rf.state, u).activity.wait
    ensures !Known(w, Sub(t, ExpectedNode(w.runs[t].doc, w.runs[t].state, u).id))
  {
    var rf := w.runs[t];
    var id := ExpectedNode(rf.doc, rf.state, u).id;
    assert ClaimOk(cfg, w, t, id);
    if Known(w, Sub(t, id)) {
      if AwaitedBy(w, t, id) {
        var v: nat :| CallOut(rf.doc, rf.state, v) && ExpectedNode(rf.doc, rf.state, v).id == id;
        SameCall(rf.doc, rf.state, u, v);
      } else {
        WaitedNotDetached(rf.doc, u, rf.state.cells[u].pos);
      }
    }
  }

  /** The files with a child run added. */
  function Added(f: Files, c: Token, child: RunFile): Files {
    f.(runs := f.runs[c := child])
  }

  /** A run that starts on an installed document begins with its bookkeeping in order. */
  lemma FreshOk(cfg: Config, t: Token, doc: Doc, depth: nat, path: seq<string>)
    requires Valid(doc) && TreeDoc(doc) && DocOf(cfg, t) == Some(Started(doc))
    requires |path| == depth + 1 && depth <= MAX_CALL_DEPTH
    requires forall i: nat, j: nat | i < j < |path| :: path[i] != path[j]
    ensures var begun := NewRun(doc, depth, path);
            RunOk(cfg, t, begun) && forall v: nat :: !CallOut(begun.doc, begun.state, v)
  {
    StartedShape(doc);
    hide Valid, DocOf, Reached;
  }

  lemma ChildOk(cfg: Config, env: Env, f: Files, t: Token, rf: RunFile, u: nat)
    requires GoodConfig(cfg) && env.library == cfg.library && RunOk(cfg, t, rf)
    requires u < |rf.doc.units| && ExpectedNode(rf.doc, rf.state, u).activity.Call?
    requires MayStart(env, f, t, rf, ExpectedNode(rf.doc, rf.state, u))
    ensures
      var node := ExpectedNode(rf.doc, rf.state, u);
      var name := node.activity.pipeline;
      var child := NewRun(env.library[name], rf.depth + 1, rf.path + [name]);
      && RunOk(cfg, Sub(t, node.id), child)
      && forall v: nat :: !CallOut(child.doc, child.state, v)
  {
    var node := ExpectedNode(rf.doc, rf.state, u);
    var name := node.activity.pipeline;
    DocOfChild(cfg, t, rf.doc, u, rf.state.cells[u].pos);
    PathGrows(rf.path, name);
    hide DocOf, TreeDoc, Started, NewRun, Reached, CallOut;
    FreshOk(cfg, Sub(t, node.id), env.library[name], rf.depth + 1, rf.path + [name]);
  }

  lemma PathGrows(path: seq<string>, name: string)
    requires name !in path && forall i: nat, j: nat | i < j < |path| :: path[i] != path[j]
    ensures forall i: nat, j: nat | i < j < |path + [name]| :: (path + [name])[i] != (path + [name])[j]
  {
    assert forall i: nat | i < |path| :: path[i] in path;
  }

  /** The states of t before and after its unit u called child c. */
  ghost predicate Calling(t: Token, rf: RunFile, rf': RunFile, u: nat, c: Token)
    requires Loaded(rf) && Loaded(rf')
  {
    && rf'.doc == rf.doc && rf'.depth == rf.depth && u < |rf.doc.units|
    && var node := ExpectedNode(rf.doc, rf.state, u);
    && node.activity.Call? && !CallOut(rf.doc, rf.state, u) && c == Sub(t, node.id)
    && CallsKept(rf.doc, rf.state, rf'.state, u)
    && if node.activity.wait
       then rf'.state.cells[u] == rf.state.cells[u].(status := Dispatched, child := Some(c))
       else !CallOut(rf.doc, rf'.state, u)
  }

  lemma WaitsCalling(w: Files, t: Token, rf': RunFile, u: nat, c: Token, child: RunFile)
    requires AllLoaded(w) && AllWaits(w) && t in w.runs && Loaded(rf') && Loaded(child)
    requires UniqueIds(rf'.doc) && c !in w.runs
    requires Calling(t, w.runs[t], rf', u, c) && child.depth == rf'.depth + 1
    requires forall v: nat :: !CallOut(child.doc, child.state, v)
    requires ExpectedNode(rf'.doc, w.runs[t].state, u).activity.wait ==> c !in w.parked
    ensures AllLoaded(Saved(Added(w, c, child), t, rf')) && AllWaits(Saved(Added(w, c, child), t, rf'))
  {
    var rf := w.runs[t];
    NotOwnChild(t, c.node);
    var w' := Saved(Added(w, c, child), t, rf');
    forall q, v: nat | q in w'.runs ensures WaitOk(w', q, v) {
      if q != c {
        assert WaitOk(w, q, v);
        if q == t && v != u && CallOut(rf.doc, rf.state, v) &&
           ExpectedNode(rf.doc, rf.state, v).id == ExpectedNode(rf.doc, rf.state, u).id {
          SameCall(rf.doc, rf.state, u, v);
        }
      }
    }
  }

  lemma ClaimCalling(cfg: Config, w: Files, t: Token, rf': RunFile, u: nat, c: Token, child: RunFile, p: Token, id: string)
    requires AllLoaded(w) && ClaimOk(cfg, w, p, id) && t in w.runs && Loaded(rf') && Loaded(child)
    requires DocOf(cfg, t) == Some(rf'.doc)
    requires Calling(t, w.runs[t], rf', u, c) && c !in w.runs
    ensures ClaimOk(cfg, Saved(Added(w, c, child), t, rf'), p, id)
  {
    var rf := w.runs[t];
    NotOwnChild(t, c.node);
    if p == t && id == c.node {
      var node := ExpectedNode(rf.doc, rf.state, u);
      assert CallNode(rf.doc, u, rf.state.cells[u].pos, id);
      if node.activity.wait {
        assert CallOut(rf'.doc, rf'.state, u) && ExpectedNode(rf'.doc, rf'.state, u).id == id;
      }
    } else if p == t && AwaitedBy(w, p, id) {
      var v: nat :| CallOut(rf.doc, rf.state, v) && ExpectedNode(rf.doc, rf.state, v).id == id;
      assert CallOut(rf'.doc, rf'.state, v) && ExpectedNode(rf'.doc, rf'.state, v).id == id;
    }
  }

  lemma ClaimsCalling(cfg: Config, w: Files, t: Token, rf': RunFile, u: nat, c: Token, child: RunFile)
    requires AllLoaded(w) && AllClaims(cfg, w) && t in w.runs && Loaded(rf') && Loaded(child)
    requires DocOf(cfg, t) == Some(rf'.doc)
    requires Calling(t, w.runs[t], rf', u, c) && c !in w.runs
    ensures AllClaims(cfg, Saved(Added(w, c, child), t, rf'))
  {
    hide ClaimOk, Calling, DocOf;
    forall p, id ensures ClaimOk(cfg, Saved(Added(w, c, child), t, rf'), p, id) {
      assert ClaimOk(cfg, w, p, id);
      ClaimCalling(cfg, w, t, rf', u, c, child, p, id);
    }
  }

  /** A child run appears: its parent's unit either waits for it or had it detached. */
  lemma ChildAppears(cfg: Config, w: Files, t: Token, rf': RunFile, u: nat, c: Token, child: RunFile)
    requires TreeOk(cfg, w) && t in w.runs && RunOk(cfg, t, rf')
    requires Calling(t, w.runs[t], rf', u, c) && child.depth == rf'.depth + 1
    requires c !in w.runs && RunOk(cfg, c, child) && forall v: nat :: !CallOut(child.doc, child.state, v)
    ensures TreeOk(cfg, Saved(Added(w, c, child), t, rf'))
  {
    if ExpectedNode(rf'.doc, w.runs[t].state, u).activity.wait {
      NoLeftover(cfg, w, t, u);
    }
    WaitsCalling(w, t, rf', u, c, child);
    ClaimsCalling(cfg, w, t, rf', u, c, child);
    RunsSaved(cfg, w, c, child);
    RunsSaved(cfg, Added(w, c, child), t, rf');
  }

  function Unparked(f: Files, c: Token): Files { f.(parked := f.parked - {c}) }

  /** The states of t before and after its unit u stopped waiting for child c. */
  ghost predicate Returning(t: Token, rf: RunFile, rf': RunFile, u: nat, c: Token)
    requires Loaded(rf) && Loaded(rf')
  {
    && rf'.doc == rf.doc && rf'.depth == rf.depth
    && CallOut(rf.doc, rf.state, u) && c == Sub(t, ExpectedNode(rf.doc, rf.state, u).id)
    && CallsKept(rf.doc, rf.state, rf'.state, u) && !CallOut(rf.doc, rf'.state, u)
  }

  lemma WaitsReturning(w: Files, t: Token, rf': RunFile, u: nat, c: Token)
    requires AllLoaded(w) && AllWaits(w) && t in w.runs && Loaded(rf') && UniqueIds(rf'.doc)
    requires Returning(t, w.runs[t], rf', u, c)
    ensures AllLoaded(Saved(Unparked(w, c), t, rf')) && AllWaits(Saved(Unparked(w, c), t, rf'))
  {
    var rf := w.runs[t];
    var w' := Saved(Unparked(w, c), t, rf');
    forall q, v: nat | q in w'.runs ensures WaitOk(w', q, v) {
      assert WaitOk(w, q, v);
      if q == t && v != u && CallOut(rf.doc, rf.state, v) &&
         ExpectedNode(rf.doc, rf.state, v).id == ExpectedNode(rf.doc, rf.state, u).id {
        SameCall(rf.doc, rf.state, u, v);
      }
    }
  }

  lemma ClaimsReturning(cfg: Config, w: Files, t: Token, rf': RunFile, u: nat, c: Token)
    requires AllLoaded(w) && AllClaims(cfg, w) && t in w.runs && Loaded(rf')
    requires Returning(t, w.runs[t], rf', u, c) && c !in w.runs
    ensures AllClaims(cfg, Saved(Unparked(w, c), t, rf'))
  {
    var rf := w.runs[t];
    NotOwnChild(t, c.node);
    var w' := Saved(Unparked(w, c), t, rf');
    forall p, id ensures ClaimOk(cfg, w', p, id) {
      assert ClaimOk(cfg, w, p, id);
      if p == t && id != c.node && AwaitedBy(w, p, id) {
        var v: nat :| CallOut(rf.doc, rf.state, v) && ExpectedNode(rf.doc, rf.state, v).id == id;
        assert CallOut(rf'.doc, rf'.state, v) && ExpectedNode(rf'.doc, rf'.state, v).id == id;
      }
    }
  }

  /** A parked outcome is consumed by the unit that waits for it, and is then gone for good. */
  lemma OutcomeConsumed(cfg: Config, w: Files, t: Token, rf': RunFile, u: nat, c: Token)
    requires TreeOk(cfg, w) && t in w.runs && RunOk(cfg, t, rf')
    requires Returning(t, w.runs[t], rf', u, c) && c in w.parked
    ensures TreeOk(cfg, Saved(Unparked(w, c), t, rf')) && !Known(Saved(Unparked(w, c), t, rf'), c)
  {
    NotOwnChild(t, c.node);
    assert WaitOk(w, t, u);
    WaitsReturning(w, t, rf', u, c);
    ClaimsReturning(cfg, w, t, rf', u, c);
    RunsSaved(cfg, Unparked(w, c), t, rf');
  }

  lemma WaitsEnding(w: Files, t: Token, o: Outcome)
    requires AllLoaded(w) && AllWaits(w) && t in w.runs
    ensures AllLoaded(Finished(w, t, o)) && AllWaits(Finished(w, t, o))
  {
    forall q, v: nat | q in Finished(w, t, o).runs ensures WaitOk(Finished(w, t, o), q, v) {
      assert WaitOk(w, q, v);
    }
  }

  lemma ClaimsEnding(cfg: Config, w: Files, t: Token, o: Outcome)
    requires AllLoaded(w) && AllClaims(cfg, w) && t in w.runs && !AnyDispatched(w.runs[t].state)
    ensures AllClaims(cfg, Finished(w, t, o))
  {
    forall p, id ensures ClaimOk(cfg, Finished(w, t, o), p, id) {
      assert ClaimOk(cfg, w, p, id);
    }
  }

  lemma RunsEnding(cfg: Config, w: Files, t: Token, o: Outcome)
    requires AllRuns(cfg, w)
    ensures AllRuns(cfg, Finished(w, t, o))
  {
    forall q | q in Finished(w, t, o).runs ensures RunOk(cfg, q, Finished(w, t, o).runs[q]) {
      assert RunOk(cfg, q, w.runs[q]);
    }
  }

  /** A run ends only when nothing of it is out, and then trades its state file for its outcome. */
  lemma RunEnds(cfg: Config, w: Files, t: Token, o: Outcome)
    requires TreeOk(cfg, w) && t in w.runs && !AnyDispatched(w.runs[t].state)
    ensures TreeOk(cfg, Finished(w, t, o))
  {
    RunsEnding(cfg, w, t, o);
    WaitsEnding(w, t, o);
    ClaimsEnding(cfg, w, t, o);
  }

  // ------------------------------------------------------------- the dispatch protocol keeps the tree

  lemma RecordCallKeepsCalls(d: Doc, s: State, u: nat, ok: bool)
    requires Consistent(d, s) && TreeDoc(d) && u < |d.units| && Eligible(d, s, u)
    ensures CallsKept(d, s, RecordCall(d, s, u, ok), u) && !CallOut(d, RecordCall(d, s, u, ok), u)
  {
    hide Settle, AfterCall, Met, TreeDoc;
    assert Justified(d, s, u);
    ResolutionKeepsCalls(d, s, Resolved(d, s, u, AfterCall(d.units[u], s.cells[u], ok), ok), u);
  }

  lemma RecordSessionKeepsCalls(d: Doc, s: State, u: nat, r: Report)
    requires Consistent(d, s) && TreeDoc(d) && u < |d.units| && ExpectedNode(d, s, u).activity.Session?
    requires s.cells[u].status.Dispatched?
    ensures CallsKept(d, s, RecordSession(d, s, u, r), |d.units|)
  {
    hide Settle, AfterSession, Met, TreeDoc;
    assert Justified(d, s, u);
    var c := AfterSession(d.units[u], s.cells[u], r);
    ResolutionKeepsCalls(d, s, Resolved(d, s, u, c, !r.error).(sessions := s.sessions + 1), u);
  }

  lemma CallingHolds(env: Env, f: Files, t: Token, rf: RunFile, u: nat)
    requires Loaded(rf) && TreeDoc(rf.doc) && u < |rf.doc.units| && Ready(rf.doc, rf.state, u)
    requires Consistent(rf.doc, rf.state)
    requires ExpectedNode(rf.doc, rf.state, u).activity.Call?
    requires MayStart(env, f, t, rf, ExpectedNode(rf.doc, rf.state, u))
    ensures Calling(t, rf, StartCall(env, f, t, rf, u).1, u, Sub(t, ExpectedNode(rf.doc, rf.state, u).id))
  {
    hide Met, Consistent, TreeDoc, RecordCall;
    PaidConsistent(rf.doc, rf.state, u);
    RecordCallKeepsCalls(rf.doc, Paid(rf.state), u, true);
  }

  /** The run as it stands after its call started, next to the files with the child in them. */
  lemma StartedCallTree(cfg: Config, env: Env, w: Files, t: Token, rf: RunFile, u: nat)
    requires GoodConfig(cfg) && env.library == cfg.library && TreeOk(cfg, w) && t in w.runs && w.runs[t] == rf
    requires RunOk(cfg, t, rf) && u < |rf.doc.units| && Ready(rf.doc, rf.state, u)
    requires ExpectedNode(rf.doc, rf.state, u).activity.Call?
    requires MayStart(env, w, t, rf, ExpectedNode(rf.doc, rf.state, u))
    ensures
      var (w', rf') := StartCall(env, w, t, rf, u);
      RunOk(cfg, t, rf') && TreeOk(cfg, Saved(w', t, rf'))
  {
    hide AllRuns, AllWaits, AllClaims, Valid, RecordCall, Met, TreeDoc, Consistent, DocOf, CallOut, Calling, Started;
    var node := ExpectedNode(rf.doc, rf.state, u);
    var name := node.activity.pipeline;
    StartCallReached(env, w, t, rf, u);
    ReachedConsistent(rf.doc, rf.state);
    CallingHolds(env, w, t, rf, u);
    ChildOk(cfg, env, w, t, rf, u);
    var child := NewRun(env.library[name], rf.depth + 1, rf.path + [name]);
    ChildAppears(cfg, w, t, StartCall(env, w, t, rf, u).1, u, Sub(t, node.id), child);
  }

  lemma RefusedCallTree(cfg: Config, env: Env, w: Files, t: Token, rf: RunFile, u: nat)
    requires TreeOk(cfg, w) && t in w.runs && w.runs[t] == rf
    requires RunOk(cfg, t, rf) && u < |rf.doc.units| && Ready(rf.doc, rf.state, u)
    requires ExpectedNode(rf.doc, rf.state, u).activity.Call?
    requires !MayStart(env, w, t, rf, ExpectedNode(rf.doc, rf.state, u))
    ensures
      var (w', rf') := StartCall(env, w, t, rf, u);
      RunOk(cfg, t, rf') && TreeOk(cfg, Saved(w', t, rf'))
  {
    hide AllRuns, AllWaits, AllClaims, Valid, Reached, RecordCall, Met, TreeDoc, Consistent;
    StartCallReached(env, w, t, rf, u);
    ReachedConsistent(rf.doc, rf.state);
    PaidConsistent(rf.doc, rf.state, u);
    RecordCallKeepsCalls(rf.doc, Paid(rf.state), u, false);
    QuietMove(cfg, w, t, StartCall(env, w, t, rf, u).1);
  }

  /** Reading the run's own stale file makes no difference to a call start. */
  lemma StartCallFiles(env: Env, f: Files, t: Token, rf: RunFile, rf': RunFile, u: nat)
    requires Loaded(rf) && u < |rf.doc.units| && ExpectedNode(rf.doc, rf.state, u).activity.Call?
    ensures
      var (a, run) := StartCall(env, f, t, rf, u);
      var (b, run') := StartCall(env, Saved(f, t, rf), t, rf, u);
      run == run' && Saved(b, t, rf') == Saved(a, t, rf') &&
      (MayStart(env, f, t, rf, ExpectedNode(rf.doc, rf.state, u)) <==>
       MayStart(env, Saved(f, t, rf), t, rf, ExpectedNode(rf.doc, rf.state, u)))
  {
    hide Settle;
    NotOwnChild(t, ExpectedNode(rf.doc, rf.state, u).id);
    var (a, run) := StartCall(env, f, t, rf, u);
    var (b, run') := StartCall(env, Saved(f, t, rf), t, rf, u);
    assert Saved(b, t, rf').runs == Saved(a, t, rf').runs;
  }

  lemma StartCallTree(cfg: Config, env: Env, f: Files, t: Token, rf: RunFile, u: nat)
    requires GoodConfig(cfg) && env.library == cfg.library && TreeOk(cfg, Saved(f, t, rf))
    requires RunOk(cfg, t, rf) && u < |rf.doc.units| && Ready(rf.doc, rf.state, u)
    requires ExpectedNode(rf.doc, rf.state, u).activity.Call?
    ensures
      var (f', rf') := StartCall(env, f, t, rf, u);
      RunOk(cfg, t, rf') && TreeOk(cfg, Saved(f', t, rf'))
  {
    var w := Saved(f, t, rf);
    StartCallFiles(env, f, t, rf, StartCall(env, f, t, rf, u).1, u);
    if MayStart(env, w, t, rf, ExpectedNode(rf.doc, rf.state, u)) {
      StartedCallTree(cfg, env, w, t, rf, u);
    } else {
      RefusedCallTree(cfg, env, w, t, rf, u);
    }
  }

  lemma ReturningHolds(t: Token, rf: RunFile, u: nat, ok: bool)
    requires Loaded(rf) && TreeDoc(rf.doc) && CallOut(rf.doc, rf.state, u) && Consistent(rf.doc, rf.state)
    ensures Returning(t, rf, rf.(state := RecordCall(rf.doc, rf.state, u, ok)), u,
                      Sub(t, ExpectedNode(rf.doc, rf.state, u).id))
  {
    hide RecordCall, TreeDoc, Consistent;
    RecordCallKeepsCalls(rf.doc, rf.state, u, ok);
  }

  lemma ConsumeTree(cfg: Config, f: Files, t: Token, rf: RunFile, u: nat, c: Token)
    requires TreeOk(cfg, Saved(f, t, rf)) && RunOk(cfg, t, rf) && CallOut(rf.doc, rf.state, u)
    requires c == Sub(t, ExpectedNode(rf.doc, rf.state, u).id) && c in f.parked
    ensures
      var rf' := rf.(state := RecordCall(rf.doc, rf.state, u, f.parked[c]));
      && RunOk(cfg, t, rf') && TreeOk(cfg, Saved(Unparked(f, c), t, rf')) && !CallOut(rf.doc, rf'.state, u)
  {
    hide AllRuns, AllWaits, AllClaims, AllLoaded, Valid, RecordCall, Reached, TreeDoc, Consistent;
    var w := Saved(f, t, rf);
    ReachedConsistent(rf.doc, rf.state);
    var rf' := rf.(state := RecordCall(rf.doc, rf.state, u, f.parked[c]));
    CalledReached(rf.doc, rf.state, u, f.parked[c]);
    ReturningHolds(t, rf, u, f.parked[c]);
    OutcomeConsumed(cfg, w, t, rf', u, c);
    assert Saved(Unparked(w, c), t, rf') == Saved(Unparked(f, c), t, rf');
  }

  /** The sweep either keeps waiting or consumes the child's outcome exactly as it was parked, adding
      one line of history; a restart never happens. */
  lemma SweepUnitTree(cfg: Config, env: Env, f: Files, t: Token, rf: RunFile, u: nat)
    requires TreeOk(cfg, Saved(f, t, rf)) && RunOk(cfg, t, rf) && u < |rf.doc.units|
    ensures
      var (f', rf') := SweepUnit(env, f, t, rf, u);
      && RunOk(cfg, t, rf') && TreeOk(cfg, Saved(f', t, rf'))
      && rf'.state.sessions == rf.state.sessions && f'.runs == f.runs
      && (if CallOut(rf.doc, rf.state, u) && Sub(t, ExpectedNode(rf.doc, rf.state, u).id) !in f.runs
          then
            var c := Sub(t, ExpectedNode(rf.doc, rf.state, u).id);
            && c in f.parked && f' == Unparked(f, c) && !CallOut(rf.doc, rf'.state, u)
            && rf'.state == RecordCall(rf.doc, rf.state, u, f.parked[c])
          else f' == f && rf' == rf)
  {
    hide AllRuns, AllClaims, RecordCall, Valid, Reached;
    var w := Saved(f, t, rf);
    assert w.runs[t] == rf;
    assert WaitOk(w, t, u);
    if CallOut(rf.doc, rf.state, u) {
      var c := Sub(t, ExpectedNode(rf.doc, rf.state, u).id);
      NotOwnChild(t, ExpectedNode(rf.doc, rf.state, u).id);
      assert c in w.runs <==> c in f.runs;
      if c in f.parked {
        ConsumeTree(cfg, f, t, rf, u, c);
      }
    }
  }

  lemma {:induction false} SweepTree(cfg: Config, env: Env, f: Files, t: Token, rf: RunFile, u: nat)
    requires TreeOk(cfg, Saved(f, t, rf)) && RunOk(cfg, t, rf) && u <= |rf.doc.units|
    ensures
      var (f', rf') := Sweep(env, f, t, rf, u);
      && RunOk(cfg, t, rf') && TreeOk(cfg, Saved(f', t, rf'))
      && rf'.state.sessions == rf.state.sessions && f'.runs == f.runs
    decreases |rf.doc.units| - u
  {
    hide *;
    RunLoaded(cfg, t, rf);
    SweepNext(env, f, t, rf, u);
    if u < |rf.doc.units| {
      SweepUnitTree(cfg, env, f, t, rf, u);
      var step := SweepUnit(env, f, t, rf, u);
      SweepTree(cfg, env, step.0, t, step.1, u + 1);
    }
  }

  lemma RunLoaded(cfg: Config, t: Token, rf: RunFile)
    requires RunOk(cfg, t, rf)
    ensures Loaded(rf) && Shaped(rf.doc) && Consistent(rf.doc, rf.state)
  {
    ReachedConsistent(rf.doc, rf.state);
  }

  lemma {:induction false} CallPassTree(cfg: Config, env: Env, f: Files, t: Token, rf: RunFile,
                                        frontier: seq<nat>, k: nat)
    requires GoodConfig(cfg) && env.library == cfg.library && TreeOk(cfg, Saved(f, t, rf))
    requires RunOk(cfg, t, rf) && k <= |frontier| && Within(rf.doc, frontier) && Distinct(frontier)
    requires forall i: nat | k <= i < |frontier| :: Eligible(rf.doc, rf.state, frontier[i])
    ensures
      var pass := CallPass(env, f, t, rf, frontier, k);
      RunOk(cfg, t, pass.1) && TreeOk(cfg, Saved(pass.0, t, pass.1))
    decreases |frontier| - k
  {
    hide AllRuns, AllClaims, AllWaits, StartCall, Valid, Reached;
    if k < |frontier| {
      var u := frontier[k];
      TreeDocSafe(rf.doc);
      if ExpectedNode(rf.doc, rf.state, u).activity.Call? &&
         !rf.state.cells[u].status.Dispatched? && rf.state.sessions < rf.doc.maxSessions {
        var step := StartCall(env, f, t, rf, u);
        StartCallTree(cfg, env, f, t, rf, u);
        ReachedConsistent(rf.doc, rf.state);
        forall i: nat | k + 1 <= i < |frontier| ensures Eligible(rf.doc, step.1.state, frontier[i]) {
          StartCallElsewhere(env, f, t, rf, u, frontier[i]);
        }
        CallPassTree(cfg, env, step.0, t, step.1, frontier, k + 1);
      } else {
        CallPassTree(cfg, env, f, t, rf, frontier, k + 1);
      }
    }
  }

  lemma EmitTree(cfg: Config, w: Files, t: Token, rf: RunFile, chosen: seq<nat>)
    requires TreeOk(cfg, w) && t in w.runs && w.runs[t] == rf && RunOk(cfg, t, rf) && Within(rf.doc, chosen)
    requires forall i: nat | i < |chosen| :: Emittable(rf.doc, rf.state, chosen[i])
    ensures
      var rf' := rf.(state := Emit(rf.doc, rf.state, chosen));
      RunOk(cfg, t, rf') && TreeOk(cfg, Saved(w, t, rf'))
  {
    EmitReached(rf.doc, rf.state, chosen);
    QuietMove(cfg, w, t, rf.(state := Emit(rf.doc, rf.state, chosen)));
  }

  /** The second half of a pick keeps the tree, files and run together. */
  lemma PassTree(cfg: Config, env: Env, f: Files, t: Token, rf: RunFile, n: int)
    requires GoodConfig(cfg) && env.library == cfg.library && TreeOk(cfg, Saved(f, t, rf)) && RunOk(cfg, t, rf)
    ensures
      var pass := CallPass(env, f, t, rf, Candidates(rf.doc, rf.state, 0), 0);
      var rf3 := pass.1.(state := Emit(rf.doc, pass.1.state, Chosen(rf.doc, pass.1.state, pass.2, n)));
      RunOk(cfg, t, rf3) && TreeOk(cfg, Saved(pass.0, t, rf3))
  {
    hide AllRuns, AllWaits, AllClaims, Valid, CallPass, Reached, Met, Chosen, Emit, Eligible, TreeDoc;
    var frontier := Candidates(rf.doc, rf.state, 0);
    CandidatesExact(rf.doc, rf.state);
    CallPassTree(cfg, env, f, t, rf, frontier, 0);
    TreeDocSafe(rf.doc);
    ChosenEmittable(env, f, t, rf, n);
    var (f2, rf2, steps) := CallPass(env, f, t, rf, frontier, 0);
    var chosen := Chosen(rf.doc, rf2.state, steps, n);
    var rf3 := rf2.(state := Emit(rf.doc, rf2.state, chosen));
    EmitTree(cfg, Saved(f2, t, rf2), t, rf2, chosen);
    assert Saved(Saved(f2, t, rf2), t, rf3) == Saved(f2, t, rf3);
  }

  lemma EndTree(cfg: Config, f: Files, t: Token, rf: RunFile, o: Outcome)
    requires TreeOk(cfg, Saved(f, t, rf)) && Loaded(rf) && !AnyDispatched(rf.state)
    ensures TreeOk(cfg, Finished(f, t, o))
  {
    hide AllRuns, AllWaits, AllClaims;
    RunEnds(cfg, Saved(f, t, rf), t, o);
    assert Finished(Saved(f, t, rf), t, o) == Finished(f, t, o);
  }

  lemma {:induction false} PickTree(cfg: Config, env: Env, f: Files, t: Token, rf: RunFile, n: int)
    requires GoodConfig(cfg) && env.library == cfg.library && TreeOk(cfg, Saved(f, t, rf)) && RunOk(cfg, t, rf)
    ensures Loaded(rf)
    ensures var (f', answer, end) := Pick(env, f, t, rf, n);
            answer.Done? || answer.Steps? || answer.Waiting? ==> TreeOk(cfg, f')
    decreases rf.doc.maxSessions - rf.state.sessions
  {
    hide *;
    RunLoaded(cfg, t, rf);
    PickForms(env, f, t, rf, n);
    SweepTree(cfg, env, f, t, rf, 0);
    var (f1, rf1) := Sweep(env, f, t, rf, 0);
    RunLoaded(cfg, t, rf1);
    LoadedFits(rf1);
    if !AnyDispatched(rf1.state) {
      EndTree(cfg, f1, t, rf1, RunCapped);
      EndTree(cfg, f1, t, rf1, WalkOutcome(rf.doc, rf1.state));
    }
    PassTree(cfg, env, f1, t, rf1, n);
    var pass := CallPass(env, f1, t, rf1, Candidates(rf.doc, rf1.state, 0), 0);
    LoadedFits(pass.1);
    var chosen := Chosen(rf.doc, pass.1.state, pass.2, n);
    var rf3 := pass.1.(state := Emit(rf.doc, pass.1.state, chosen));
    if !(rf1.state.sessions >= rf.doc.maxSessions && !AnyDispatched(rf1.state)) &&
       Candidates(rf.doc, rf1.state, 0) != [] && chosen == [] && !AnyDispatched(rf3.state) {
      SavedTwice(pass.0, t, rf3, rf3);
      RunLoaded(cfg, t, rf3);
      PickTree(cfg, env, Saved(pass.0, t, rf3), t, rf3, n);
    }
  }

  // ----------------------------------------------------------------------------- over whole executions

  /** The events keep to the installed pipelines. */
  ghost predicate Follows(cfg: Config, e: Event) {
    match e
    case Begin(name, doc, _) => name in cfg.roots && cfg.roots[name] == doc
    case PickRun(env, _, _) => env.library == cfg.library
    case RecordRun(_, _, _) => true
  }

  lemma WaitsAnchored(w: Files, t: Token)
    requires AllLoaded(w) && AllWaits(w) && t in w.runs
    ensures Anchored(w.runs[t].doc, w.runs[t].state)
  {
    var rf := w.runs[t];
    forall u: nat | u < |rf.doc.units| && rf.state.cells[u].status.Dispatched? &&
      ExpectedNode(rf.doc, rf.state, u).activity.Call?
      ensures rf.state.cells[u].child.Some?
    {
      assert WaitOk(w, t, u) && CallOut(rf.doc, rf.state, u);
    }
  }

  lemma TreeSane(cfg: Config, w: Files)
    requires TreeOk(cfg, w)
    ensures AllSane(w)
  {
    hide Valid, Reached, AllWaits, AllClaims, Safe, TreeDoc, Anchored;
    forall t | t in w.runs ensures Sane(w.runs[t]) {
      assert RunOk(cfg, t, w.runs[t]);
      WaitsAnchored(w, t);
    }
  }

  lemma RootAppears(cfg: Config, w: Files, name: string, root: RunFile)
    requires TreeOk(cfg, w) && Top(name) !in w.runs && RunOk(cfg, Top(name), root)
    requires forall v: nat :: !CallOut(root.doc, root.state, v)
    ensures TreeOk(cfg, Saved(w, Top(name), root))
  {
    hide RunOk;
    var t := Top(name);
    RunsSaved(cfg, w, t, root);
    forall q, v: nat | q in Saved(w, t, root).runs ensures WaitOk(Saved(w, t, root), q, v) {
      if q != t {
        assert WaitOk(w, q, v);
      }
    }
    forall p, id ensures ClaimOk(cfg, Saved(w, t, root), p, id) {
      assert ClaimOk(cfg, w, p, id);
    }
  }

  lemma NewRootOk(cfg: Config, name: string, title: string)
    requires GoodConfig(cfg) && name in cfg.roots
    ensures var root := NewRun(cfg.roots[name], 0, [title]);
            RunOk(cfg, Top(name), root) && forall v: nat :: !CallOut(root.doc, root.state, v)
  {
    FreshOk(cfg, Top(name), cfg.roots[name], 0, [title]);
    hide Valid, TreeDoc;
  }

  lemma RetryTree(cfg: Config, w: Files, t: Token, rf: RunFile, u: nat)
    requires TreeOk(cfg, w) && t in w.runs && w.runs[t] == rf && RunOk(cfg, t, rf) && u < |rf.doc.units|
    requires rf.state.cells[u].status.Dispatched? && ExpectedNode(rf.doc, rf.state, u).activity.Session?
    ensures TreeOk(cfg, Saved(w, t, rf.(state := SetStatus(rf.state, u, Pending))))
  {
    hide AllRuns, AllWaits, AllClaims, Valid, Reached, TreeDoc;
    ReleaseReached(rf.doc, rf.state, u);
    QuietMove(cfg, w, t, rf.(state := SetStatus(rf.state, u, Pending)));
  }

  lemma SessionTree(cfg: Config, w: Files, t: Token, rf: RunFile, u: nat, r: Report)
    requires TreeOk(cfg, w) && t in w.runs && w.runs[t] == rf && RunOk(cfg, t, rf) && u < |rf.doc.units|
    requires rf.state.cells[u].status.Dispatched? && ExpectedNode(rf.doc, rf.state, u).activity.Session?
    ensures var s := RecordSession(rf.doc, rf.state, u, r);
            TreeOk(cfg, Saved(w, t, rf.(state := s))) && !AfterRecord(rf.doc, s).Stalled?
  {
    RunLoaded(cfg, t, rf);
    hide AllRuns, AllWaits, AllClaims, Valid, Reached, TreeDoc, Consistent, RecordSession, AfterRecord, CallsKept;
    RecordedSessionSane(rf.doc, rf.state, u, r);
    RecordSessionKeepsCalls(rf.doc, rf.state, u, r);
    QuietMove(cfg, w, t, rf.(state := RecordSession(rf.doc, rf.state, u, r)));
  }

  lemma RecordTree(cfg: Config, w: Files, t: Token, rf: RunFile, id: string, res: Result)
    requires TreeOk(cfg, w) && t in w.runs && w.runs[t] == rf && RunOk(cfg, t, rf) && Handed(rf.doc, rf.state, id)
    ensures TreeOk(cfg, Record(w, t, rf, id, res).0)
  {
    RunLoaded(cfg, t, rf);
    TreeParts(cfg, w);
    WaitsAnchored(w, t);
    hide TreeOk, RunOk, RecordSession, AfterRecord, Anchored, Consistent, Finished, Saved, AnyDispatched, Recorder, SetStatus;
    match Recorder(rf.doc, rf.state, id, 0)
    case None =>
    case Some(u) =>
      HandedSession(rf.doc, rf.state, u);
      if res.Retry? {
        RetryTree(cfg, w, t, rf, u);
      } else {
        ReportTree(cfg, w, t, rf, u, res.report);
      }
  }

  lemma ReportTree(cfg: Config, w: Files, t: Token, rf: RunFile, u: nat, r: Report)
    requires TreeOk(cfg, w) && t in w.runs && w.runs[t] == rf && RunOk(cfg, t, rf) && u < |rf.doc.units|
    requires rf.state.cells[u].status.Dispatched? && ExpectedNode(rf.doc, rf.state, u).activity.Session?
    ensures var s := RecordSession(rf.doc, rf.state, u, r);
            TreeOk(cfg, Concluded(w, t, rf.(state := s), AfterRecord(rf.doc, s)))
  {
    RunLoaded(cfg, t, rf);
    hide TreeOk, RunOk, RecordSession, AfterRecord, Anchored, Consistent, Finished, Saved, AnyDispatched;
    var s := RecordSession(rf.doc, rf.state, u, r);
    SessionTree(cfg, w, t, rf, u, r);
    if AfterRecord(rf.doc, s).Finish? {
      FinishQuiet(rf.doc, s);
      EndTree(cfg, w, t, rf.(state := s), AfterRecord(rf.doc, s).outcome);
    }
  }

  lemma TreeParts(cfg: Config, w: Files)
    requires TreeOk(cfg, w)
    ensures AllRuns(cfg, w) && AllLoaded(w) && AllWaits(w) && AllClaims(cfg, w)
  {
    hide AllRuns, AllWaits, AllClaims;
  }

  /** A record ends a run only when nothing of it is dispatched. */
  lemma FinishQuiet(d: Doc, s: State)
    requires Fits(d, s) && AfterRecord(d, s).Finish?
    ensures !AnyDispatched(s)
  {
    hide WalkOutcome, Candidates;
  }

  lemma BeginTree(cfg: Config, w: Files, name: string, title: string)
    requires GoodConfig(cfg) && TreeOk(cfg, w) && name in cfg.roots && Top(name) !in w.runs
    ensures TreeOk(cfg, Saved(w, Top(name), NewRun(cfg.roots[name], 0, [title])))
  {
    hide *;
    NewRootOk(cfg, name, title);
    RootAppears(cfg, w, name, NewRun(cfg.roots[name], 0, [title]));
  }

  lemma RunOf(cfg: Config, w: Files, t: Token)
    requires TreeOk(cfg, w) && t in w.runs
    ensures RunOk(cfg, t, w.runs[t]) && Saved(w, t, w.runs[t]) == w && Sane(w.runs[t]) && AllSane(w)
  {
    hide AllWaits, AllClaims, RunOk, Sane;
    TreeSane(cfg, w);
  }

  /** A pick keeps the tree, whatever it answers: it is never refused, and the walk never stalls. */
  lemma PickKeepsTree(cfg: Config, w: Files, env: Env, t: Token, n: int)
    requires GoodConfig(cfg) && env.library == cfg.library && Sound(env) && TreeOk(cfg, w) && t in w.runs
    ensures Loaded(w.runs[t])
    ensures var (w', answer, _) := Pick(env, w, t, w.runs[t], n);
            TreeOk(cfg, w') && !answer.Refusal? && !answer.WalkStalled?
  {
    RunOf(cfg, w, t);
    RunLoaded(cfg, t, w.runs[t]);
    TreeDocSafe(w.runs[t].doc);
    hide *;
    PickSane(env, w, t, w.runs[t], n);
    PickTree(cfg, env, w, t, w.runs[t], n);
  }

  lemma StepTree(cfg: Config, w: Files, e: Event)
    requires GoodConfig(cfg) && TreeOk(cfg, w) && Follows(cfg, e)
    ensures TreeOk(cfg, Step(w, e))
  {
    hide TreeOk, Pick, Record, GoodConfig, Valid, Loaded, Recorder, NewRun;
    match e
    case Begin(name, doc, title) =>
      if Top(name) !in w.runs {
        BeginTree(cfg, w, name, title);
      }
    case PickRun(env, t, n) =>
      if t in w.runs && Sound(env) {
        PickKeepsTree(cfg, w, env, t, n);
      }
    case RecordRun(t, id, res) =>
      if t in w.runs {
        RunOf(cfg, w, t);
        RunLoaded(cfg, t, w.runs[t]);
        if Handed(w.runs[t].doc, w.runs[t].state, id) {
          RecordTree(cfg, w, t, w.runs[t], id, res);
        }
      }
  }

  /** In every reachable state of the whole tree each waited child is either running or parked for
      exactly the unit that started it, and no other child is known unless it was detached. */
  lemma {:induction false} ExecTree(cfg: Config, es: seq<Event>)
    requires GoodConfig(cfg) && forall i: nat | i < |es| :: Follows(cfg, es[i])
    ensures TreeOk(cfg, Exec(es))
  {
    if es != [] {
      ExecTree(cfg, es[..|es| - 1]);
      StepTree(cfg, Exec(es[..|es| - 1]), es[|es| - 1]);
    }
  }
}
