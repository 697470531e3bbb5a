/** Creating a pipeline directory all or nothing, with one filesystem operation that may fail. */
module PipelineCreate {
  import opened Documents

  type Path = seq<string>

  datatype Item = Absent | Dir | File(text: string) | Link

  type Tree = map<Path, Item>

  function Look(t: Tree, p: Path): Item {
    if p in t then t[p] else Absent
  }

  function Parent(p: Path): Path
    requires p != []
  {
    p[..|p| - 1]
  }

  /** Only what is there is listed, and everything but the root is in a directory. */
  ghost predicate Sound(t: Tree) {
    forall p | p in t :: t[p] != Absent && (p != [] ==> Look(t, Parent(p)) == Dir)
  }

  /** Nothing is inside. */
  ghost predicate Hollow(t: Tree, p: Path) { forall q | q in t :: !(p < q) }

  lemma {:induction false} MissingBelow(t: Tree, p: Path, q: Path)
    requires Sound(t) && p < q && Look(t, p) != Dir
    ensures Look(t, q) == Absent
    decreases |q|
  {
    if q in t {
      assert p <= Parent(q);
      if p != Parent(q) {
        MissingBelow(t, p, Parent(q));
      }
    }
  }

  /** A disk on which one coming operation fails: the one that finds the count at zero. */
  class Disk {
    var items: Tree
    var due: int

    constructor (t: Tree, fault: int)
      ensures items == t && due == fault
    {
      items, due := t, fault;
    }

    method Tick() returns (failed: bool)
      modifies this`due
      ensures due == old(due) - 1 && (failed <==> old(due) == 0)
    {
      failed := due == 0;
      due := due - 1;
    }

    method MakeDir(p: Path) returns (ok: bool)
      requires Sound(items) && p != []
      modifies this
      ensures due == old(due) - 1 && Sound(items)
      ensures ok <==> old(due) != 0 && Look(old(items), p) == Absent && Look(old(items), Parent(p)) == Dir
      ensures items == if ok then old(items)[p := Dir] else old(items)
    {
      var failed := Tick();
      ok := !failed && Look(items, p) == Absent && Look(items, Parent(p)) == Dir;
      if ok {
        items := items[p := Dir];
      }
    }

    /** A failing write may leave any text behind. */
    method Write(p: Path, text: string) returns (ok: bool)
      requires Sound(items) && p != []
      modifies this
      ensures due == old(due) - 1 && Sound(items)
      ensures ok <==> old(due) != 0 && Writable(old(items), p)
      ensures ok ==> items == old(items)[p := File(text)]
      ensures !ok ==> items == old(items) || (Writable(old(items), p) && exists junk :: items == old(items)[p := File(junk)])
    {
      var failed := Tick();
      ok := !failed && Writable(items, p);
      if ok {
        items := items[p := File(text)];
      } else if Writable(items, p) {
        var junk: string := *;
        var touched: bool := *;
        if touched {
          items := items[p := File(junk)];
        }
      }
    }

    static predicate Writable(t: Tree, p: Path)
      requires p != []
    {
      (Look(t, p) == Absent || Look(t, p).File?) && Look(t, Parent(p)) == Dir
    }

    /** Opening for exclusive creation. */
    method Create(p: Path) returns (ok: bool)
      requires Sound(items) && p != []
      modifies this
      ensures due == old(due) - 1 && Sound(items)
      ensures ok <==> old(due) != 0 && Look(old(items), p) == Absent && Look(old(items), Parent(p)) == Dir
      ensures items == if ok then old(items)[p := File("")] else old(items)
    {
      var failed := Tick();
      ok := !failed && Look(items, p) == Absent && Look(items, Parent(p)) == Dir;
      if ok {
        items := items[p := File("")];
      }
    }

    method Unlink(p: Path) returns (ok: bool)
      requires Sound(items) && p != []
      modifies this
      ensures due == old(due) - 1 && Sound(items)
      ensures ok <==> old(due) != 0 && Loose(old(items), p)
      ensures items == if ok then old(items) - {p} else old(items)
    {
      var failed := Tick();
      ok := !failed && Loose(items, p);
      if ok {
        Unlisted(items, p);
        items := items - {p};
      }
    }

    static predicate Loose(t: Tree, p: Path) { Look(t, p).File? || Look(t, p).Link? }

    static lemma Unlisted(t: Tree, p: Path)
      requires Sound(t) && Look(t, p) != Dir
      ensures Sound(t - {p})
    {
    }

    /** A directory over an empty directory. */
    method Rename(a: Path, b: Path) returns (ok: bool)
      requires Sound(items) && a != [] && b != [] && !(a <= b) && !(b <= a)
      modifies this
      ensures due == old(due) - 1 && Sound(items)
      ensures ok <==> old(due) != 0 && Look(old(items), a) == Dir && Look(old(items), b) == Dir && Hollow(old(items), b)
      ensures !ok ==> items == old(items)
      ensures ok ==> forall q :: Look(items, q) ==
                       if b <= q then Look(old(items), a + q[|b|..]) else if a <= q then Absent else Look(old(items), q)
    {
      var failed := Tick();
      ghost var before := items;
      var hollow := forall q | q in items :: !(b < q);
      ok := !failed && Look(items, a) == Dir && Look(items, b) == Dir && hollow;
      if ok {
        items := Moved(items, a, b);
        MovedSound(before, a, b);
      }
    }

    static function Moved(t: Tree, a: Path, b: Path): Tree {
      var stay := set q | q in t && !(a <= q) && !(b <= q);
      var move := set q | q in t && a <= q :: b + q[|a|..];
      map q | q in stay + move :: Look(t, if b <= q then a + q[|b|..] else q)
    }

    static lemma MovedLooks(t: Tree, a: Path, b: Path, q: Path)
      requires Sound(t) && !(a <= b) && !(b <= a)
      ensures Look(Moved(t, a, b), q) ==
                if b <= q then Look(t, a + q[|b|..]) else if a <= q then Absent else Look(t, q)
    {
      var move := set x | x in t && a <= x :: b + x[|a|..];
      if b <= q {
        var x := a + q[|b|..];
        assert x[|a|..] == q[|b|..] && q == b + q[|b|..];
        if q in move {
          var y :| y in t && a <= y && q == b + y[|a|..];
          assert y == a + y[|a|..] == x;
        }
        assert q in move <==> x in t;
      } else {
        assert forall y | y in t && a <= y :: b <= b + y[|a|..];
        assert q !in move;
      }
    }

    static lemma MovedSound(t: Tree, a: Path, b: Path)
      requires Sound(t) && a != [] && b != [] && !(a <= b) && !(b <= a) && Look(t, a) == Dir && Look(t, b) == Dir
      ensures Sound(Moved(t, a, b))
      ensures forall q :: Look(Moved(t, a, b), q) ==
                if b <= q then Look(t, a + q[|b|..]) else if a <= q then Absent else Look(t, q)
    {
      var r := Moved(t, a, b);
      forall q ensures Look(r, q) == if b <= q then Look(t, a + q[|b|..]) else if a <= q then Absent else Look(t, q) {
        MovedLooks(t, a, b, q);
      }
      forall q | q in r ensures r[q] != Absent && (q != [] ==> Look(r, Parent(q)) == Dir) {
        MovedParent(t, a, b, q);
      }
    }

    static lemma MovedParent(t: Tree, a: Path, b: Path, q: Path)
      requires Sound(t) && a != [] && b != [] && !(a <= b) && !(b <= a) && Look(t, a) == Dir && Look(t, b) == Dir
      requires q in Moved(t, a, b)
      ensures Look(Moved(t, a, b), q) != Absent && (q != [] ==> Look(Moved(t, a, b), Parent(q)) == Dir)
    {
      MovedLooks(t, a, b, q);
      MovedListed(t, a, b, q);
      if q != [] {
        MovedLooks(t, a, b, Parent(q));
        hide Moved;
        if b < q {
          var x := a + q[|b|..];
          assert Parent(x) == a + Parent(q)[|b|..];
          InDir(t, x);
        } else if q == b {
          assert !(b <= Parent(b)) && !(a <= Parent(b)) by { assert Parent(b) <= b; }
          InDir(t, b);
        } else {
          assert !(b <= Parent(q)) by { assert Parent(q) <= q; }
          assert a <= Parent(q) ==> a <= q;
          InDir(t, q);
        }
      }
    }

    static lemma MovedListed(t: Tree, a: Path, b: Path, q: Path)
      requires Sound(t) && q in Moved(t, a, b)
      ensures Look(Moved(t, a, b), q) != Absent
    {
      var move := set x | x in t && a <= x :: b + x[|a|..];
      if q in move {
        var y :| y in t && a <= y && q == b + y[|a|..];
        assert a + q[|b|..] == y;
      }
    }

    static lemma InDir(t: Tree, p: Path)
      requires Sound(t) && Look(t, p) != Absent && p != []
      ensures Look(t, Parent(p)) == Dir
    {
    }

    /** A file over a file or over nothing. */
    method Replace(a: Path, b: Path) returns (ok: bool)
      requires Sound(items) && a != [] && b != [] && a != b
      modifies this
      ensures due == old(due) - 1 && Sound(items)
      ensures ok <==> old(due) != 0 && Look(old(items), a).File? && Writable(old(items), b)
      ensures items == if ok then (old(items) - {a})[b := Look(old(items), a)] else old(items)
    {
      var failed := Tick();
      ok := !failed && Look(items, a).File? && Writable(items, b);
      if ok {
        Unlisted(items, a);
        Listed(items - {a}, b, Look(items, a));
        hide Sound;
        items := (items - {a})[b := Look(items, a)];
      }
    }

    static lemma Listed(t: Tree, p: Path, item: Item)
      requires Sound(t) && p != [] && Look(t, Parent(p)) == Dir && Look(t, p) != Dir && item != Absent
      ensures Sound(t[p := item])
    {
    }

    /** rmtree(ignore_errors=True): only a directory goes. A failure may leave any part of it. */
    method RemoveTree(p: Path) returns (whole: bool)
      requires Sound(items) && p != []
      modifies this
      ensures due == old(due) - 1 && Sound(items)
      ensures whole <==> old(due) != 0
      ensures whole ==> items == Pruned(old(items), p)
      ensures !whole ==> Look(items, p) == Look(old(items), p) && forall q | !(p <= q) :: Look(items, q) == Look(old(items), q)
    {
      var failed := Tick();
      whole := !failed;
      PrunedSound(items, p);
      if whole {
        items := Pruned(items, p);
      } else {
        var kept: Tree := *;
        var sound := forall q | q in kept :: kept[q] != Absent && (q != [] ==> Look(kept, Parent(q)) == Dir);
        var outside := forall q | q in items.Keys + kept.Keys :: !(p < q) ==> Look(kept, q) == Look(items, q);
        if sound && outside {
          items := kept;
        }
      }
    }

    static function Pruned(t: Tree, p: Path): Tree {
      if Look(t, p) == Dir then map q | q in t && !(p <= q) :: t[q] else t
    }

    static lemma PrunedSound(t: Tree, p: Path)
      requires Sound(t) && p != []
      ensures Sound(Pruned(t, p))
      ensures forall q :: Look(Pruned(t, p), q) == if p <= q && Look(t, p) == Dir then Absent else Look(t, q)
    {
      var r := Pruned(t, p);
      forall q | q in r && q != [] ensures Look(r, Parent(q)) == Dir {
        if p <= Parent(q) {
          assert p <= q;
        }
      }
    }
  
    // ------------------------------------------------------------------------------ the create

    /** The missing ancestors below the repository, as the code counts them: nearest first. */
    method CountMissing(plan: Plan) returns (n: nat)
      requires plan.repo <= plan.parent
      ensures n == Gap(items, plan.parent, plan.repo)
    {
      var p := plan.parent;
      n := 0;
      while Look(items, p) == Absent && p != plan.repo
        invariant plan.repo <= p && n + Gap(items, p, plan.repo) == Gap(items, plan.parent, plan.repo)
        decreases |p|
      {
        p, n := Parent(p), n + 1;
      }
    }

    /** makedirs over the missing ancestors, outermost first. */
    method MakeParents(plan: Plan, made: nat) returns (ok: bool, ghost reached: nat)
      requires Sound(items) && Gates(items, plan) && made == Gap(items, plan.parent, plan.repo)
      modifies this
      ensures Sound(items) && Chained(old(items), items, plan, made, reached) && reached <= made
      ensures ok <==> Look(old(items), plan.Near(made)) == Dir && !(0 <= old(due) < made)
      ensures ok ==> reached == made && due == old(due) - made
      ensures !ok ==> (reached < made || reached == 0)
      ensures !ok ==> reached == if Look(old(items), plan.Near(made)) == Dir then old(due) else 0
    {
      hide Gates, Gap, Chained, Sound;
      GapFacts(items, plan, made);
      ChainedStart(items, plan, made);
      reached := 0;
      if made == 0 {
        ok := Look(items, plan.parent) == Dir;
        return;
      }
      ghost var t0 := items;
      for k := 0 to made
        invariant Sound(items) && Chained(t0, items, plan, made, k) && due == old(due) - k && reached == k
        invariant k > 0 ==> Look(t0, plan.Near(made)) == Dir && !(0 <= old(due) < k)
      {
        var p := plan.Ancestor(made - k);
        AncestorParent(plan, made - k);
        ChainedLook(t0, items, plan, made, k);
        ghost var before := items;
        ok := MakeDir(p);
        if !ok {
          return;
        }
        ChainedStep(t0, before, plan, made, k);
        reached := k + 1;
      }
      ok := true;
    }

    /** The rollback. It never fails: whatever it cannot remove it leaves. */
    method Cleanup(plan: Plan, made: nat, claimed: bool, installed: bool, ghost t0: Tree, ghost reached: nat)
      requires Sound(items) && Sound(t0) && Gates(t0, plan) && made == Gap(t0, plan.parent, plan.repo)
      requires Dirty(t0, items, plan, made, reached, claimed, installed)
      modifies this`items
      ensures forall p | !plan.Scratch(p) ::
                Look(items, p) == if reached < made && plan.Parents(p, made, reached) then Dir else Look(t0, p)
    {
      hide Gates, Gap, Dirty, Sound;
      ghost var before := items;
      PrunedSound(items, plan.Staging());
      items := Pruned(items, plan.Staging());
      if Loose(items, plan.Temp()) {
        Unlisted(items, plan.Temp());
        items := items - {plan.Temp()};
      }
      ScratchGone(t0, before, items, plan, made, reached, claimed, installed);
      RemoveClaim(plan, made, claimed, installed, t0, reached);
      RemoveParents(plan, made, t0, reached);
    }

    /** The installed directory with all it holds, or the claim if it is still empty. */
    method RemoveClaim(plan: Plan, made: nat, claimed: bool, installed: bool, ghost t0: Tree, ghost reached: nat)
      requires Sound(items) && Sound(t0) && Gates(t0, plan) && Dirty(t0, items, plan, made, reached, claimed, installed)
      requires reached == made > 0 ==> forall p | plan.Scratch(p) :: Look(items, p) == Absent
      modifies this`items
      ensures Sound(items) && Dirty(t0, items, plan, made, reached, false, false)
      ensures reached == made > 0 ==> forall p | plan.Scratch(p) :: Look(items, p) == Absent
    {
      hide Gates, Dirty, Sound;
      ghost var before := items;
      if installed {
        PrunedSound(items, plan.Shadow());
        items := Pruned(items, plan.Shadow());
        ClaimLook(t0, before, plan, made, reached, claimed, installed);
        ClaimGone(t0, before, items, plan, made, reached, claimed, installed);
      } else if claimed {
        ClaimLook(t0, before, plan, made, reached, claimed, installed);
        ClaimHollow(t0, items, plan, made, reached);
        if Look(items, plan.Shadow()) == Dir && (forall q | q in items :: !(plan.Shadow() < q)) {
          UnmadeSound(items, plan.Shadow());
          HollowGone(items, plan.Shadow());
          items := items - {plan.Shadow()};
          ClaimGone(t0, before, items, plan, made, reached, claimed, installed);
        }
      } else {
        NotClaimed(t0, items, plan, made, reached, claimed, installed);
      }
      ScratchKept(before, items, plan);
    }

    /** Our parents, nearest first, until one is not empty. */
    method RemoveParents(plan: Plan, made: nat, ghost t0: Tree, ghost reached: nat)
      requires Sound(items) && Sound(t0) && Gates(t0, plan) && made == Gap(t0, plan.parent, plan.repo)
      requires Dirty(t0, items, plan, made, reached, false, false)
      requires reached == made > 0 ==> forall p | plan.Scratch(p) :: Look(items, p) == Absent
      modifies this`items
      ensures forall p | !plan.Scratch(p) ::
                Look(items, p) == if reached < made && plan.Parents(p, made, reached) then Dir else Look(t0, p)
    {
      hide Gates, Gap, Sound, Dirty, Shrunk, Plan.Scratch, Plan.Parents;
      ghost var gone: nat := 0;
      ShrunkStart(t0, items, plan, made, reached);
      for i := 0 to made
        invariant Sound(items) && Shrunk(t0, items, plan, made, reached, i) && gone == i
        invariant reached == made > 0 ==> forall p | plan.Scratch(p) :: Look(items, p) == Absent
        invariant reached < made ==> i == 0
      {
        GapFacts(t0, plan, made);
        var d := plan.Ancestor(i + 1);
        AncestorLook(t0, items, plan, made, reached, i);
        if Look(items, d) != Dir || !(forall q | q in items :: !(d < q)) {
          break;
        }
        UnmadeSound(items, d);
        ShrunkStep(t0, items, plan, made, reached, i);
        items := items - {d};
        gone := i + 1;
      }
      ShrunkEnd(t0, items, plan, made, reached, gone);
    }

    /** Everything is written beside the claim first, then read back and validated. */
    method Stage(plan: Plan, made: nat, ghost t0: Tree) returns (ok: bool, ghost files: map<string, string>)
      requires Sound(items) && Sound(t0) && Gates(t0, plan) && made == Gap(t0, plan.parent, plan.repo)
      requires Claimed(t0, items, plan, made)
      modifies this
      ensures Sound(items)
      ensures ok ==> Staged(t0, items, plan, made, files) && Complete(t0, plan, files) && (old(due) < 0 ==> due < 0)
      ensures !ok ==> Dirty(t0, items, plan, made, made, true, false)
      ensures old(due) < 0 ==> (ok <==> CanStage(t0, plan))
    {
      hide Gates, Gap, Claimed, Staged, Complete, Gathered, Dirty, Beside, CanStage, StageClear, BriefText, Sound;
      hide Plan.Scratch, Plan.Staging, Writable, Pruned;
      files := map[];
      var dir := plan.Staging();
      assert dir != [] by { StagingNamed(plan); }
      ghost var t1 := items;
      var whole := RemoveTree(dir);
      ghost var t2 := items;
      ok := MakeDir(dir);
      StageOpens(t0, t1, t2, plan, made, whole);
      CanStageClear(t0, plan);
      if !ok {
        return;
      }
      assert Sound(items) && Staged(t0, items, plan, made, files);
      ok := WriteStaged(plan, made, "pipeline.json", plan.text, t0, files);
      if !ok {
        return;
      }
      files := files["pipeline.json" := plan.text];
      BriefsStart(t0, plan, files);
      for i := 0 to |plan.briefs|
        invariant Sound(items) && Staged(t0, items, plan, made, files) && Gathered(t0, plan, files, i)
        invariant old(due) < 0 ==> due < 0
        invariant old(due) < 0 ==> StageClear(t0, plan)
      {
        var ref := plan.briefs[i];
        ghost var before := files;
        StagedLook(t0, items, plan, made, files, ref);
        if Look(items, dir + [ref]) == Absent {
          BriefFrom(t0, items, plan, made, files, ref);
          if ref in plan.posted {
            ok := WriteStaged(plan, made, ref, plan.posted[ref], t0, files);
            if !ok {
              return;
            }
            files := files[ref := plan.posted[ref]];
          } else if plan.source.Some? && Look(items, plan.source.value + [ref]).File? {
            var text := Look(items, plan.source.value + [ref]).text;
            ok := WriteStaged(plan, made, ref, text, t0, files);
            if !ok {
              return;
            }
            files := files[ref := text];
          }
        }
        GatheredStep(t0, plan, before, files, i);
      }
      var unread := Tick();
      Judged(t0, items, plan, made, files);
      StagedBeside(t0, items, plan, made, files);
      BesideDirty(t0, items, plan, made);
      ok := !unread && plan.sound && forall i | 0 <= i < |plan.briefs| :: Look(items, dir + [plan.briefs[i]]).File?;
      if ok && plan.source.Some? {
        var unprinted := Tick();
        ok := !unprinted;
      }
    }

    /** One file into the staging directory. */
    method WriteStaged(plan: Plan, made: nat, name: string, text: string, ghost t0: Tree, ghost files: map<string, string>)
      returns (ok: bool)
      requires Sound(items) && Sound(t0) && Gates(t0, plan) && made == Gap(t0, plan.parent, plan.repo)
      requires Staged(t0, items, plan, made, files) && name !in files
      modifies this
      ensures Sound(items) && due == old(due) - 1
      ensures ok <==> old(due) != 0
      ensures ok ==> Staged(t0, items, plan, made, files[name := text])
      ensures !ok ==> Dirty(t0, items, plan, made, made, true, false)
    {
      hide Gates, Gap, Staged, Dirty, Sound, Plan.Scratch;
      ghost var before := items;
      StagedLook(t0, items, plan, made, files, name);
      ok := Write(plan.Staging() + [name], text);
      StagedWrite(t0, before, items, plan, made, files, name, text);
    }

    /** The provenance sidecar comes last, written beside and moved over. */
    method Record(plan: Plan, made: nat, ghost t0: Tree, ghost files: map<string, string>) returns (ok: bool)
      requires Sound(items) && Sound(t0) && Gates(t0, plan) && made == Gap(t0, plan.parent, plan.repo)
      requires Placed(t0, items, plan, made, files)
      modifies this
      ensures ok ==> Installed(t0, items, plan, made, files)
      ensures !ok ==> Sound(items) && Dirty(t0, items, plan, made, made, true, true)
      ensures old(due) < 0 ==> (ok <==> Look(t0, plan.Temp()) != Dir)
    {
      hide Gates, Gap, Placed, Installed, Dirty, Sound, Unsettled, Plan.Temp, Plan.Sidecar;
      var temp := plan.Temp();
      TempLook(t0, items, plan, made, files);
      PlacedUnsettled(t0, items, plan, made, files);
      UnsettledDirty(t0, items, plan, made, files);
      UnsettledReady(t0, items, plan, made, files);
      if Look(items, temp) != Absent {
        ghost var before := items;
        ok := Unlink(temp);
        UnsettledStep(t0, before, items, plan, made, files);
        UnsettledDirty(t0, items, plan, made, files);
        if !ok {
          return;
        }
      }
      ghost var t1 := items;
      UnsettledReady(t0, t1, plan, made, files);
      ok := Create(temp);
      UnsettledStep(t0, t1, items, plan, made, files);
      UnsettledDirty(t0, items, plan, made, files);
      if !ok {
        return;
      }
      ghost var t2 := items;
      UnsettledReady(t0, t2, plan, made, files);
      ok := Write(temp, plan.record);
      UnsettledStep(t0, t2, items, plan, made, files);
      UnsettledDirty(t0, items, plan, made, files);
      if !ok {
        return;
      }
      ghost var t3 := items;
      UnsettledReady(t0, t3, plan, made, files);
      ok := Replace(temp, plan.Sidecar());
      UnsettledDone(t0, t3, plan, made, files);
    }

    /** The create, from the first missing ancestor to the sidecar. */
    method CreatePipeline(plan: Plan) returns (ok: bool, ghost files: map<string, string>)
      requires Sound(items) && Gates(items, plan)
      modifies this
      ensures ok ==> Installed(old(items), items, plan, Missing(old(items), plan), files) && Complete(old(items), plan, files)
      ensures !ok && !Stranded(old(items), plan, old(due)) ==> Untouched(old(items), items, plan)
      ensures Stranded(old(items), plan, old(due)) ==> !ok && Leftover(old(items), items, plan, old(due))
      ensures old(due) < 0 ==> (ok <==> CanCreate(old(items), plan))
    {
      hide Gates, Gap, Missing, Installed, Complete, Stranded, Untouched, Leftover, CanCreate, CanStage, Dirty, Chained;
      hide Sound, Claimed, Staged, Placed, Plan.Scratch, Plan.Parents;
      ghost var t0 := items;
      files := map[];
      RepoAbove(items, plan);
      var made := CountMissing(plan);
      Outcomes(t0, plan, made, due);
      ghost var reached;
      ok, reached := MakeParents(plan, made);
      if !ok {
        ChainedDirty(t0, items, plan, made, reached);
        Cleanup(plan, made, false, false, t0, reached);
        PartlyUndone(t0, items, plan, made, reached);
        return;
      }
      ghost var t1 := items;
      ChainedReady(t0, t1, plan, made);
      ok := MakeDir(plan.Shadow());
      if !ok {
        ChainedDirty(t0, items, plan, made, made);
        Cleanup(plan, made, false, false, t0, made);
        Undone(t0, items, plan, made);
        return;
      }
      ChainedClaimed(t0, t1, plan, made);
      ok, files := Stage(plan, made, t0);
      if !ok {
        Cleanup(plan, made, true, false, t0, made);
        Undone(t0, items, plan, made);
        return;
      }
      ghost var t2 := items;
      StagedReady(t0, t2, plan, made, files);
      ok := Rename(plan.Staging(), plan.Shadow());
      if !ok {
        StagedBeside(t0, t2, plan, made, files);
        BesideDirty(t0, t2, plan, made);
        Cleanup(plan, made, true, false, t0, made);
        Undone(t0, items, plan, made);
        return;
      }
      StagedPlaced(t0, t2, items, plan, made, files);
      ok := Record(plan, made, t0, files);
      if !ok {
        Cleanup(plan, made, true, true, t0, made);
        Undone(t0, items, plan, made);
      }
    }

    static lemma UnmadeSound(t: Tree, p: Path)
      requires Sound(t) && Hollow(t, p)
      ensures Sound(t - {p})
    {
      forall q | q in t - {p} && q != [] ensures Look(t - {p}, Parent(q)) == Dir {
        assert Parent(q) < q;
      }
    }
  }

  /** What a create is asked to do. `sound` is the verdict of the validator and of the re-read on
      everything but the presence of the briefs. */
  datatype Plan = Plan(repo: Path, parent: Path, name: string, text: string, briefs: seq<string>,
                       posted: map<string, string>, source: Option<Path>, record: string, sound: bool)
  {
    function Shadow(): Path { parent + [name] }
    function Staging(): Path { parent + [name + ".staging"] }
    function Sidecar(): Path { parent + [name + ".provenance.json"] }
    function Temp(): Path { parent + [name + ".provenance.json.tmp"] }

    /** The reserved scratch names. */
    predicate Scratch(p: Path) { Staging() <= p || p == Temp() }

    /** The ancestor so many levels above the new directory. */
    function Ancestor(k: nat): Path
      requires k <= |Shadow()|
    {
      Shadow()[..|Shadow()| - k]
    }

    /** The nearest ancestor that is there, when so many are missing. */
    function Near(made: nat): Path {
      if made < |Shadow()| then Ancestor(made + 1) else []
    }

    /** The outermost `k` of the `made` missing ancestors. */
    predicate Parents(p: Path, made: nat, k: nat) {
      p < Shadow() && |Shadow()| - made <= |p| < |Shadow()| - made + k
    }
  }

  function Gap(t: Tree, p: Path, repo: Path): nat
    requires repo <= p
    decreases |p|
  {
    if p == repo || Look(t, p) != Absent then 0 else 1 + Gap(t, Parent(p), repo)
  }

  /** What the checks before the first write establish. */
  ghost predicate Gates(t: Tree, plan: Plan) {
    && plan.repo <= plan.parent && Look(t, plan.repo) == Dir
    && Look(t, plan.Shadow()) == Absent
    && (Look(t, plan.Sidecar()) == Absent || Look(t, plan.Sidecar()).File?)
  }

  lemma {:induction false} GapBelow(t: Tree, p: Path, repo: Path, k: nat)
    requires repo <= p
    ensures Gap(t, p, repo) <= |p| - |repo|
    ensures k < Gap(t, p, repo) ==> Look(t, p[..|p| - k]) == Absent
    ensures k == Gap(t, p, repo) ==> p[..|p| - k] == repo || Look(t, p[..|p| - k]) != Absent
    decreases |p|
  {
    if p == repo || Look(t, p) != Absent {
      assert p[..|p|] == p;
    } else {
      assert p[..|p|] == p;
      GapBelow(t, Parent(p), repo, if k == 0 then 0 else k - 1);
      if 0 < k <= |p| {
        assert Parent(p)[..|Parent(p)| - (k - 1)] == p[..|p| - k];
      }
    }
  }

  lemma GapFacts(t: Tree, plan: Plan, made: nat)
    requires Gates(t, plan) && made == Gap(t, plan.parent, plan.repo)
    ensures made < |plan.Shadow()| && Look(t, plan.Near(made)) != Absent
    ensures forall k: nat | 0 < k <= made :: k <= |plan.Shadow()| && Look(t, plan.Ancestor(k)) == Absent
    ensures made == 0 ==> plan.Near(0) == plan.parent
  {
    GapBelow(t, plan.parent, plan.repo, made);
    forall k: nat | 0 < k <= made ensures k <= |plan.Shadow()| && Look(t, plan.Ancestor(k)) == Absent {
      GapBelow(t, plan.parent, plan.repo, k - 1);
      assert plan.Ancestor(k) == plan.parent[..|plan.parent| - (k - 1)];
    }
    assert plan.Near(made) == plan.parent[..|plan.parent| - made];
  }

  lemma AncestorParent(plan: Plan, k: nat)
    requires 0 < k < |plan.Shadow()|
    ensures plan.Ancestor(k) != [] && Parent(plan.Ancestor(k)) == plan.Ancestor(k + 1)
  {
  }

  /** The outermost `k` missing ancestors are there now, and nothing else has changed. */
  ghost predicate Chained(t0: Tree, t: Tree, plan: Plan, made: nat, k: nat) {
    forall p :: Look(t, p) == if plan.Parents(p, made, k) then Dir else Look(t0, p)
  }

  /** What an unfinished create may have changed. */
  ghost predicate Dirty(t0: Tree, t: Tree, plan: Plan, made: nat, reached: nat, claimed: bool, installed: bool) {
    && reached <= made && (claimed || installed ==> reached == made)
    && (forall p | !plan.Scratch(p) && !(installed && plan.Shadow() < p) ::
          Look(t, p) == if plan.Parents(p, made, reached) || ((claimed || installed) && p == plan.Shadow()) then Dir
                        else Look(t0, p))
    && (reached == made > 0 ==>
          (Look(t, plan.Staging()) == Absent || Look(t, plan.Staging()) == Dir) && Look(t, plan.Temp()) != Dir)
  }

  lemma ParentsStep(plan: Plan, made: nat, k: nat)
    requires k < made < |plan.Shadow()|
    ensures forall p :: plan.Parents(p, made, k + 1) <==> plan.Parents(p, made, k) || p == plan.Ancestor(made - k)
  {
    forall p ensures plan.Parents(p, made, k + 1) <==> plan.Parents(p, made, k) || p == plan.Ancestor(made - k) {
      if p < plan.Shadow() && |p| == |plan.Shadow()| - made + k {
        assert p == plan.Shadow()[..|p|];
      }
    }
  }

  /** The names beside the new directory differ from it and from each other. */
  lemma Apart(plan: Plan)
    ensures !(plan.Shadow() <= plan.Staging()) && !(plan.Staging() <= plan.Shadow())
    ensures !(plan.Shadow() <= plan.Temp()) && !(plan.Temp() <= plan.Shadow())
    ensures !(plan.Shadow() <= plan.Sidecar()) && !(plan.Sidecar() <= plan.Shadow())
    ensures !plan.Scratch(plan.Shadow()) && !plan.Scratch(plan.Sidecar()) && plan.Temp() != plan.Sidecar()
    ensures !(plan.Staging() <= plan.Temp()) && !(plan.Staging() <= plan.Sidecar())
    ensures forall p | p <= plan.parent :: !plan.Scratch(p) && p != plan.Sidecar()
  {
    var n := |plan.parent|;
    assert plan.Shadow()[n] == plan.name && plan.Staging()[n] == plan.name + ".staging"
           && plan.Sidecar()[n] == plan.name + ".provenance.json" && plan.Temp()[n] == plan.name + ".provenance.json.tmp";
    assert |plan.Staging()[n]| == |plan.name| + 8 && |plan.Sidecar()[n]| == |plan.name| + 16;
    assert |plan.Temp()[n]| == |plan.name| + 20;
  }

  lemma ShadowApart(plan: Plan, q: Path)
    requires plan.Shadow() <= q
    ensures !plan.Scratch(q) && forall made, k :: !plan.Parents(q, made, k)
  {
    Apart(plan);
    if plan.Staging() <= q {
      SameLength(plan.Shadow(), plan.Staging(), q);
    }
  }

  lemma SameLength(a: Path, b: Path, q: Path)
    requires a <= q && b <= q && |a| == |b|
    ensures a == b
  {
    assert a == q[..|a|] == b;
  }

  /** Nothing is inside the claim. */
  lemma ClaimHollow(t0: Tree, t: Tree, plan: Plan, made: nat, reached: nat)
    requires Sound(t0) && Sound(t) && Gates(t0, plan) && Dirty(t0, t, plan, made, reached, true, false)
    ensures Hollow(t, plan.Shadow())
  {
    hide Sound, Gates;
    forall q | plan.Shadow() < q ensures Look(t, q) == Absent {
      GatesIs(t0, plan);
      MissingBelow(t0, plan.Shadow(), q);
      ShadowApart(plan, q);
      hide *;
      DirtyLook(t0, t, plan, made, reached, true, false, q);
    }
    ListedThere(t);
  }

  lemma ListedThere(t: Tree)
    requires Sound(t)
    ensures forall q | q in t :: Look(t, q) != Absent
  {
  }

  lemma GatesIs(t: Tree, plan: Plan)
    requires Gates(t, plan)
    ensures Look(t, plan.Shadow()) == Absent
  {
  }

  lemma DirtyLook(t0: Tree, t: Tree, plan: Plan, made: nat, reached: nat, claimed: bool, installed: bool, p: Path)
    requires Dirty(t0, t, plan, made, reached, claimed, installed)
    requires !plan.Scratch(p) && !(installed && plan.Shadow() < p)
    ensures Look(t, p) == if plan.Parents(p, made, reached) || ((claimed || installed) && p == plan.Shadow()) then Dir
                          else Look(t0, p)
  {
  }

  lemma ClaimLook(t0: Tree, t: Tree, plan: Plan, made: nat, reached: nat, claimed: bool, installed: bool)
    requires Dirty(t0, t, plan, made, reached, claimed, installed) && (claimed || installed)
    ensures Look(t, plan.Shadow()) == Dir
  {
    ShadowApart(plan, plan.Shadow());
  }

  lemma NotClaimed(t0: Tree, t: Tree, plan: Plan, made: nat, reached: nat, claimed: bool, installed: bool)
    requires Dirty(t0, t, plan, made, reached, claimed, installed) && !claimed && !installed
    ensures Dirty(t0, t, plan, made, reached, false, false)
  {
  }

  lemma ScratchKept(before: Tree, t: Tree, plan: Plan)
    ensures (forall q :: Look(t, q) == if plan.Shadow() <= q then Absent else Look(before, q)) || t == before ==>
              forall p | plan.Scratch(p) && Look(before, p) == Absent :: Look(t, p) == Absent
  {
  }

  lemma AtOrBelow(t: Tree, p: Path, q: Path)
    requires Sound(t) && p <= q && Look(t, p) == Absent
    ensures Look(t, q) == Absent
  {
    if |p| == |q| {
      assert p == q[..|p|] == q;
    } else {
      MissingBelow(t, p, q);
    }
  }

  lemma HollowGone(t: Tree, p: Path)
    requires Sound(t) && Hollow(t, p)
    ensures forall q :: Look(t - {p}, q) == if p <= q then Absent else Look(t, q)
  {
    forall q | p <= q ensures Look(t - {p}, q) == Absent {
      if |p| == |q| {
        assert p == q[..|p|] == q;
      }
    }
  }

  lemma ScratchGone(t0: Tree, before: Tree, t: Tree, plan: Plan, made: nat, reached: nat, claimed: bool, installed: bool)
    requires Sound(before) && Dirty(t0, before, plan, made, reached, claimed, installed)
    requires forall q :: Look(t, q) ==
               if q == plan.Temp() && (Look(before, q).File? || Look(before, q).Link?) then Absent
               else if plan.Staging() <= q && Look(before, plan.Staging()) == Dir then Absent else Look(before, q)
    ensures Dirty(t0, t, plan, made, reached, claimed, installed)
    ensures reached == made > 0 ==> forall p | plan.Scratch(p) :: Look(t, p) == Absent
  {
    Apart(plan);
    hide Plan.Parents;
    if reached == made > 0 {
      forall p | plan.Staging() <= p && Look(before, plan.Staging()) == Absent ensures Look(before, p) == Absent {
        AtOrBelow(before, plan.Staging(), p);
      }
    }
  }

  lemma ClaimGone(t0: Tree, before: Tree, t: Tree, plan: Plan, made: nat, reached: nat, claimed: bool, installed: bool)
    requires Sound(t0) && Gates(t0, plan) && Dirty(t0, before, plan, made, reached, claimed, installed)
    requires forall q :: Look(t, q) == if plan.Shadow() <= q then Absent else Look(before, q)
    ensures Dirty(t0, t, plan, made, reached, false, false)
  {
    hide Sound, Gates, Plan.Parents, Plan.Scratch;
    GatesIs(t0, plan);
    Apart(plan);
    forall q | plan.Shadow() <= q ensures Look(t0, q) == Absent && !plan.Parents(q, made, reached) {
      ShadowApart(plan, q);
      AtOrBelow(t0, plan.Shadow(), q);
    }
  }

  lemma ChainedStart(t: Tree, plan: Plan, made: nat)
    ensures Chained(t, t, plan, made, 0)
  {
  }

  /** The next ancestor to make is missing, and what it goes into is there. */
  lemma ChainedLook(t0: Tree, t: Tree, plan: Plan, made: nat, k: nat)
    requires Gates(t0, plan) && made == Gap(t0, plan.parent, plan.repo) && k < made
    requires Chained(t0, t, plan, made, k)
    ensures made < |plan.Shadow()| && Look(t, plan.Ancestor(made - k)) == Absent
    ensures Look(t, plan.Ancestor(made - k + 1)) == if k == 0 then Look(t0, plan.Near(made)) else Dir
  {
    GapFacts(t0, plan, made);
    assert |plan.Ancestor(made - k)| == |plan.Shadow()| - made + k;
    assert |plan.Ancestor(made - k + 1)| == |plan.Shadow()| - made + k - 1;
  }

  lemma ChainedStep(t0: Tree, t: Tree, plan: Plan, made: nat, k: nat)
    requires Chained(t0, t, plan, made, k) && k < made < |plan.Shadow()|
    ensures Chained(t0, t[plan.Ancestor(made - k) := Dir], plan, made, k + 1)
  {
    var d := plan.Ancestor(made - k);
    var r := t[d := Dir];
    forall p ensures Look(r, p) == if plan.Parents(p, made, k + 1) then Dir else Look(t0, p) {
      ParentsStep(plan, made, k);
      assert plan.Parents(p, made, k + 1) <==> plan.Parents(p, made, k) || p == d;
    }
  }

  /** The parents that still stand after `i` were removed. */
  ghost predicate Shrunk(t0: Tree, t: Tree, plan: Plan, made: nat, reached: nat, i: nat) {
    forall p | !plan.Scratch(p) ::
      Look(t, p) == if plan.Parents(p, made, reached) && |p| < |plan.Shadow()| - i then Dir else Look(t0, p)
  }

  lemma ShrunkStart(t0: Tree, t: Tree, plan: Plan, made: nat, reached: nat)
    requires Dirty(t0, t, plan, made, reached, false, false)
    ensures Shrunk(t0, t, plan, made, reached, 0) && reached <= made
  {
  }

  lemma ShrunkEnd(t0: Tree, t: Tree, plan: Plan, made: nat, reached: nat, gone: nat)
    requires Shrunk(t0, t, plan, made, reached, gone) && reached <= made
    requires gone == if reached == made then made else 0
    ensures forall p | !plan.Scratch(p) ::
              Look(t, p) == if reached < made && plan.Parents(p, made, reached) then Dir else Look(t0, p)
  {
  }

  lemma AncestorLook(t0: Tree, t: Tree, plan: Plan, made: nat, reached: nat, i: nat)
    requires Sound(t0) && Sound(t) && Gates(t0, plan) && made == Gap(t0, plan.parent, plan.repo)
    requires Shrunk(t0, t, plan, made, reached, i) && reached <= made && i < made && i + 1 <= |plan.Shadow()|
    requires reached == made > 0 ==> forall p | plan.Scratch(p) :: Look(t, p) == Absent
    ensures reached == made ==> Look(t, plan.Ancestor(i + 1)) == Dir && Hollow(t, plan.Ancestor(i + 1))
    ensures reached < made && i == 0 ==> Look(t, plan.Ancestor(i + 1)) == Absent
  {
    hide Sound, Gates, Gap, Plan.Scratch;
    var d := plan.Ancestor(i + 1);
    GapFacts(t0, plan, made);
    Apart(plan);
    assert d <= plan.parent && |d| == |plan.Shadow()| - i - 1;
    if reached == made {
      forall q | d < q ensures Look(t, q) == Absent {
        MissingBelow(t0, d, q);
        assert |d| < |q|;
      }
      ListedThere(t);
    }
  }

  lemma ShrunkStep(t0: Tree, t: Tree, plan: Plan, made: nat, reached: nat, i: nat)
    requires Gates(t0, plan) && made == Gap(t0, plan.parent, plan.repo)
    requires Shrunk(t0, t, plan, made, reached, i) && i < made && i + 1 <= |plan.Shadow()|
    ensures Shrunk(t0, t - {plan.Ancestor(i + 1)}, plan, made, reached, i + 1)
  {
    var d := plan.Ancestor(i + 1);
    GapFacts(t0, plan, made);
    forall p | plan.Parents(p, made, reached) && |p| == |plan.Shadow()| - i - 1 ensures p == d {
      assert p == plan.Shadow()[..|p|];
    }
    hide Plan.Parents, Plan.Scratch, Gates, Gap;
  }

  // --------------------------------------------------------------------------- states of a create

  /** The file of this name in a directory `n` levels deep. */
  function FileAt(files: map<string, string>, p: Path, n: nat): Item
    requires |p| > n
  {
    if |p| == n + 1 && p[n] in files then File(files[p[n]]) else Absent
  }

  /** The missing parents and the claim are there, and nothing else has changed. */
  ghost predicate Claimed(t0: Tree, t: Tree, plan: Plan, made: nat) {
    forall p :: Look(t, p) == if plan.Parents(p, made, made) || p == plan.Shadow() then Dir else Look(t0, p)
  }

  /** Claimed, and beside the claim a directory with exactly these files. */
  ghost predicate Staged(t0: Tree, t: Tree, plan: Plan, made: nat, files: map<string, string>) {
    forall p :: Look(t, p) ==
      if plan.Staging() < p then FileAt(files, p, |plan.Staging()|)
      else if plan.Parents(p, made, made) || p == plan.Shadow() || p == plan.Staging() then Dir
      else Look(t0, p)
  }

  /** What a brief of the new pipeline will say: the posted text, or that of a regular file beside the
      source document. */
  function BriefText(t0: Tree, plan: Plan, ref: string): Option<string> {
    if ref in plan.posted then Some(plan.posted[ref])
    else if plan.source.None? || plan.Staging() <= plan.source.value + [ref] then None
    else
      var item := Look(t0, plan.source.value + [ref]);
      if item.File? then Some(item.text) else None
  }

  /** Exactly the document and the referenced briefs. */
  ghost predicate Complete(t0: Tree, plan: Plan, files: map<string, string>) {
    && (forall r :: r in files <==> r == "pipeline.json" || r in plan.briefs)
    && files["pipeline.json"] == plan.text
    && forall r | r in plan.briefs && r != "pipeline.json" :: BriefText(t0, plan, r) == Some(files[r])
  }

  /** The document and the briefs found among the first `i`. */
  ghost predicate Gathered(t0: Tree, plan: Plan, files: map<string, string>, i: nat) {
    && "pipeline.json" in files && files["pipeline.json"] == plan.text
    && (forall r | r in files && r != "pipeline.json" :: r in plan.briefs && BriefText(t0, plan, r) == Some(files[r]))
    && forall k | 0 <= k < i && k < |plan.briefs| ::
         plan.briefs[k] in files || BriefText(t0, plan, plan.briefs[k]).None?
  }

  predicate StageClear(t0: Tree, plan: Plan) {
    Look(t0, plan.Staging()) == Absent || Look(t0, plan.Staging()) == Dir
  }

  /** Staging succeeds when no operation fails. */
  predicate CanStage(t0: Tree, plan: Plan) {
    && StageClear(t0, plan) && plan.sound
    && forall i | 0 <= i < |plan.briefs| :: plan.briefs[i] == "pipeline.json" || BriefText(t0, plan, plan.briefs[i]).Some?
  }

  lemma NewParents(t0: Tree, plan: Plan, made: nat)
    requires Sound(t0) && Gates(t0, plan) && made == Gap(t0, plan.parent, plan.repo) > 0
    ensures Look(t0, plan.Staging()) == Absent && Look(t0, plan.Temp()) == Absent && Look(t0, plan.Sidecar()) == Absent
  {
    GapFacts(t0, plan, made);
    assert plan.Ancestor(1) == plan.parent;
    MissingBelow(t0, plan.parent, plan.Staging());
    MissingBelow(t0, plan.parent, plan.Temp());
    MissingBelow(t0, plan.parent, plan.Sidecar());
  }

  /** Outside the staging directory only the parents and the claim are new. */
  ghost predicate Beside(t0: Tree, t: Tree, plan: Plan, made: nat) {
    && (forall p | !(plan.Staging() <= p) ::
          Look(t, p) == if plan.Parents(p, made, made) || p == plan.Shadow() then Dir else Look(t0, p))
    && (made > 0 ==> Look(t, plan.Staging()) == Absent || Look(t, plan.Staging()) == Dir)
  }

  lemma BesideDirty(t0: Tree, t: Tree, plan: Plan, made: nat)
    requires Sound(t0) && Gates(t0, plan) && made == Gap(t0, plan.parent, plan.repo)
    requires Beside(t0, t, plan, made)
    ensures Dirty(t0, t, plan, made, made, true, false)
  {
    Apart(plan);
    if made > 0 {
      NewParents(t0, plan, made);
    }
    hide Gates, Gap, Sound, Plan.Parents;
  }

  lemma StageOpens(t0: Tree, t1: Tree, t2: Tree, plan: Plan, made: nat, whole: bool)
    requires Sound(t0) && Sound(t1) && Sound(t2) && Gates(t0, plan) && made == Gap(t0, plan.parent, plan.repo)
    requires Claimed(t0, t1, plan, made)
    requires whole ==> t2 == Disk.Pruned(t1, plan.Staging())
    requires !whole ==> Look(t2, plan.Staging()) == Look(t1, plan.Staging())
                        && forall q | !(plan.Staging() <= q) :: Look(t2, q) == Look(t1, q)
    ensures Look(t2, Parent(plan.Staging())) == Dir
    ensures Dirty(t0, t2, plan, made, made, true, false)
    ensures Look(t2, plan.Staging()) == Absent ==>
              Staged(t0, t2[plan.Staging() := Dir], plan, made, map[])
    ensures whole ==> (Look(t2, plan.Staging()) == Absent <==> StageClear(t0, plan))
  {
    hide Gates, Gap, Sound, Plan.Parents, Dirty;
    var dir := plan.Staging();
    Apart(plan);
    Disk.PrunedSound(t1, dir);
    ClaimParent(t0, t1, plan, made);
    ClaimStaging(t0, t1, plan, made);
    hide Disk.Pruned;
    assert Beside(t0, t2, plan, made);
    BesideDirty(t0, t2, plan, made);
    if Look(t2, dir) == Absent {
      forall p | dir < p ensures Look(t2, p) == Absent {
        AtOrBelow(t2, dir, p);
      }
      StagedEmpty(t0, t2, plan, made);
    }
  }

  lemma ClaimParent(t0: Tree, t1: Tree, plan: Plan, made: nat)
    requires Sound(t1) && Claimed(t0, t1, plan, made)
    ensures Look(t1, plan.parent) == Dir && Parent(plan.Staging()) == plan.parent && !(plan.Staging() <= plan.parent)
  {
    Disk.InDir(t1, plan.Shadow());
    assert Parent(plan.Shadow()) == plan.parent;
  }

  lemma ClaimStaging(t0: Tree, t1: Tree, plan: Plan, made: nat)
    requires Sound(t0) && Gates(t0, plan) && made == Gap(t0, plan.parent, plan.repo)
    requires Claimed(t0, t1, plan, made)
    ensures Look(t1, plan.Staging()) == Look(t0, plan.Staging())
    ensures made > 0 ==> Look(t1, plan.Staging()) == Absent
  {
    Apart(plan);
    assert !plan.Parents(plan.Staging(), made, made);
    if made > 0 {
      NewParents(t0, plan, made);
    }
  }

  lemma StagedEmpty(t0: Tree, t: Tree, plan: Plan, made: nat)
    requires Beside(t0, t, plan, made) && forall p | plan.Staging() < p :: Look(t, p) == Absent
    ensures Staged(t0, t[plan.Staging() := Dir], plan, made, map[])
  {
    hide Plan.Parents;
    Apart(plan);
    var dir, r := plan.Staging(), t[plan.Staging() := Dir];
    forall p ensures Look(r, p) ==
                       if dir < p then Absent
                       else if plan.Parents(p, made, made) || p == plan.Shadow() || p == dir then Dir else Look(t0, p) {
      AtOrPast(dir, p);
      LookSet(t, dir, Dir, p);
    }
  }

  lemma LookSet(t: Tree, x: Path, v: Item, p: Path)
    ensures Look(t[x := v], p) == if p == x then v else Look(t, p)
  {
  }

  /** A path at or below another is that one or strictly below. */
  lemma AtOrPast(d: Path, p: Path)
    ensures d <= p <==> d == p || d < p
  {
    if d <= p && |d| == |p| {
      assert d == p[..|d|] == p;
    }
  }

  lemma StagedLook(t0: Tree, t: Tree, plan: Plan, made: nat, files: map<string, string>, name: string)
    requires Staged(t0, t, plan, made, files)
    ensures Look(t, plan.Staging() + [name]) == if name in files then File(files[name]) else Absent
    ensures plan.Staging() + [name] != [] && Parent(plan.Staging() + [name]) == plan.Staging()
    ensures Look(t, plan.Staging()) == Dir
  {
    hide Plan.Parents;
    assert plan.Staging() < plan.Staging() + [name];
    assert !(plan.Staging() < plan.Staging());
  }

  lemma StagedBeside(t0: Tree, t: Tree, plan: Plan, made: nat, files: map<string, string>)
    requires Staged(t0, t, plan, made, files)
    ensures Beside(t0, t, plan, made)
  {
    hide Plan.Parents;
    assert !(plan.Staging() < plan.Staging());
    forall p | !(plan.Staging() <= p)
      ensures Look(t, p) == if plan.Parents(p, made, made) || p == plan.Shadow() then Dir else Look(t0, p)
    {
      AtOrPast(plan.Staging(), p);
    }
  }

  lemma StagedWrite(t0: Tree, before: Tree, t: Tree, plan: Plan, made: nat, files: map<string, string>, name: string,
                    text: string)
    requires Sound(t0) && Gates(t0, plan) && made == Gap(t0, plan.parent, plan.repo)
    requires Staged(t0, before, plan, made, files)
    ensures t == before[plan.Staging() + [name] := File(text)] ==> Staged(t0, t, plan, made, files[name := text])
    ensures t == before || (exists junk :: t == before[plan.Staging() + [name] := File(junk)]) ==>
              Dirty(t0, t, plan, made, made, true, false)
  {
    hide Gates, Gap, Sound, Plan.Parents, Dirty, Staged, Beside;
    StagedBeside(t0, before, plan, made, files);
    if t == before {
      BesideDirty(t0, t, plan, made);
    } else if junk :| t == before[plan.Staging() + [name] := File(junk)] {
      BesideWrite(t0, before, plan, made, name, junk);
      BesideDirty(t0, t, plan, made);
    }
    if t == before[plan.Staging() + [name] := File(text)] {
      StagedMore(t0, before, plan, made, files, name, text);
    }
  }

  lemma BesideWrite(t0: Tree, t: Tree, plan: Plan, made: nat, name: string, text: string)
    requires Beside(t0, t, plan, made)
    ensures Beside(t0, t[plan.Staging() + [name] := File(text)], plan, made)
  {
    hide Plan.Parents;
    var dir := plan.Staging();
    var dst := dir + [name];
    var r := t[dst := File(text)];
    assert dir < dst && dir <= dst;
    LookSet(t, dst, File(text), dir);
    assert made > 0 ==> Look(r, dir) == Absent || Look(r, dir) == Dir;
    forall p | !(dir <= p)
      ensures Look(r, p) == if plan.Parents(p, made, made) || p == plan.Shadow() then Dir else Look(t0, p)
    {
      LookSet(t, dst, File(text), p);
    }
    assert Beside(t0, r, plan, made);
  }

  lemma StagedMore(t0: Tree, t: Tree, plan: Plan, made: nat, files: map<string, string>, name: string, text: string)
    requires Staged(t0, t, plan, made, files)
    ensures Staged(t0, t[plan.Staging() + [name] := File(text)], plan, made, files[name := text])
  {
    hide Plan.Parents;
    var dir, more := plan.Staging(), files[name := text];
    var dst := dir + [name];
    var r := t[dst := File(text)];
    forall p ensures Look(r, p) ==
                       if dir < p then FileAt(more, p, |dir|)
                       else if plan.Parents(p, made, made) || p == plan.Shadow() || p == dir then Dir else Look(t0, p) {
      LookSet(t, dst, File(text), p);
      assert dir < dst && dst[|dir|] == name;
      if dir < p && |p| == |dir| + 1 && p[|dir|] == name {
        assert p == dst;
      }
    }
  }

  lemma BriefsStart(t0: Tree, plan: Plan, files: map<string, string>)
    requires files == map["pipeline.json" := plan.text]
    ensures Gathered(t0, plan, files, 0)
  {
  }

  /** The code's choice for a brief that is not staged yet is the text it is to say. */
  lemma BriefFrom(t0: Tree, t: Tree, plan: Plan, made: nat, files: map<string, string>, ref: string)
    requires Sound(t0) && Gates(t0, plan) && made == Gap(t0, plan.parent, plan.repo)
    requires Staged(t0, t, plan, made, files) && ref !in files
    ensures BriefText(t0, plan, ref) ==
              if ref in plan.posted then Some(plan.posted[ref])
              else if plan.source.Some? && Look(t, plan.source.value + [ref]).File? then
                Some(Look(t, plan.source.value + [ref]).text)
              else None
  {
    hide Gates, Gap, Sound;
    if ref !in plan.posted && plan.source.Some? {
      var src := plan.source.value + [ref];
      AtOrPast(plan.Staging(), src);
      if plan.Staging() < src && |src| == |plan.Staging()| + 1 {
        assert src[|plan.Staging()|] == ref;
      }
      if plan.Parents(src, made, made) {
        ParentMissing(t0, plan, made, src);
      }
      GatesIs(t0, plan);
    }
  }

  lemma ParentMissing(t0: Tree, plan: Plan, made: nat, p: Path)
    requires Gates(t0, plan) && made == Gap(t0, plan.parent, plan.repo) && plan.Parents(p, made, made)
    ensures Look(t0, p) == Absent
  {
    GapFacts(t0, plan, made);
    var k := |plan.Shadow()| - |p|;
    assert p == plan.Ancestor(k);
  }

  lemma GatheredStep(t0: Tree, plan: Plan, before: map<string, string>, files: map<string, string>, i: nat)
    requires i < |plan.briefs|
    requires Gathered(t0, plan, before, i)
    requires var ref := plan.briefs[i];
             files == if ref in before || BriefText(t0, plan, ref).None? then before
                      else before[ref := BriefText(t0, plan, ref).value]
    ensures Gathered(t0, plan, files, i + 1)
  {
  }

  lemma StagingNamed(plan: Plan)
    ensures plan.Staging() != []
  {
  }

  lemma CanStageClear(t0: Tree, plan: Plan)
    ensures CanStage(t0, plan) ==> StageClear(t0, plan)
  {
  }

  /** The staged briefs are all there exactly when each has a text to say. */
  lemma Judged(t0: Tree, t: Tree, plan: Plan, made: nat, files: map<string, string>)
    requires Staged(t0, t, plan, made, files) && Gathered(t0, plan, files, |plan.briefs|)
    ensures (forall i | 0 <= i < |plan.briefs| :: Look(t, plan.Staging() + [plan.briefs[i]]).File?) ==> Complete(t0, plan, files)
    ensures StageClear(t0, plan) ==>
              (CanStage(t0, plan) <==>
                 plan.sound && forall i | 0 <= i < |plan.briefs| :: Look(t, plan.Staging() + [plan.briefs[i]]).File?)
  {
    hide Staged, StageClear, BriefText;
    forall i | 0 <= i < |plan.briefs|
      ensures Look(t, plan.Staging() + [plan.briefs[i]]).File? <==> plan.briefs[i] in files
    {
      StagedLook(t0, t, plan, made, files, plan.briefs[i]);
    }
  }

  // ------------------------------------------------------------------------- installed and recorded

  function Missing(t0: Tree, plan: Plan): nat {
    if plan.repo <= plan.parent then Gap(t0, plan.parent, plan.repo) else 0
  }

  /** The staged directory stands where the claim was. */
  function PlacedLook(t0: Tree, plan: Plan, made: nat, files: map<string, string>, p: Path): Item {
    if plan.Shadow() < p then FileAt(files, p, |plan.Shadow()|)
    else if plan.Parents(p, made, made) || p == plan.Shadow() then Dir
    else if plan.Staging() <= p then Absent
    else Look(t0, p)
  }

  ghost predicate Placed(t0: Tree, t: Tree, plan: Plan, made: nat, files: map<string, string>) {
    forall p :: Look(t, p) == PlacedLook(t0, plan, made, files, p)
  }

  /** Placed, but for whatever stands at the sidecar's scratch name. */
  ghost predicate Unsettled(t0: Tree, t: Tree, plan: Plan, made: nat, files: map<string, string>) {
    && (forall p | p != plan.Temp() :: Look(t, p) == PlacedLook(t0, plan, made, files, p))
    && (made > 0 ==> Look(t, plan.Temp()) != Dir)
  }

  /** A finished create: the missing parents, the new directory with exactly these files, and the
      sidecar. No scratch is left, and every other path is as it was. */
  ghost predicate Installed(t0: Tree, t: Tree, plan: Plan, made: nat, files: map<string, string>) {
    forall p :: Look(t, p) ==
      if p == plan.Sidecar() then File(plan.record)
      else if p == plan.Temp() then Absent
      else PlacedLook(t0, plan, made, files, p)
  }

  /** Every path outside the reserved scratch names is as it was. */
  ghost predicate Untouched(t0: Tree, t: Tree, plan: Plan) {
    forall p | !plan.Scratch(p) :: Look(t, p) == Look(t0, p)
  }

  /** The injected fault hits the making of a missing ancestor that is not the first of them. */
  ghost predicate Stranded(t0: Tree, plan: Plan, fault: int) {
    0 < fault < Missing(t0, plan) && Look(t0, plan.Near(Missing(t0, plan))) == Dir
  }

  /** Then the ancestors already made stay behind, because the rollback begins with the innermost one,
      which is not there, and stops. */
  ghost predicate Leftover(t0: Tree, t: Tree, plan: Plan, fault: int)
    requires fault >= 0
  {
    forall p | !plan.Scratch(p) :: Look(t, p) == if plan.Parents(p, Missing(t0, plan), fault) then Dir else Look(t0, p)
  }

  /** The create succeeds when no operation fails. */
  ghost predicate CanCreate(t0: Tree, plan: Plan) {
    Look(t0, plan.Near(Missing(t0, plan))) == Dir && CanStage(t0, plan) && Look(t0, plan.Temp()) != Dir
  }

  lemma RepoAbove(t: Tree, plan: Plan)
    requires Gates(t, plan)
    ensures plan.repo <= plan.parent && Missing(t, plan) == Gap(t, plan.parent, plan.repo)
  {
  }

  lemma Outcomes(t0: Tree, plan: Plan, made: nat, due: int)
    requires made == Missing(t0, plan)
    ensures Stranded(t0, plan, due) <==> 0 < due < made && Look(t0, plan.Near(made)) == Dir
    ensures CanCreate(t0, plan) <==> Look(t0, plan.Near(made)) == Dir && CanStage(t0, plan) && Look(t0, plan.Temp()) != Dir
  {
  }

  lemma ChainedDirty(t0: Tree, t: Tree, plan: Plan, made: nat, reached: nat)
    requires Sound(t0) && Gates(t0, plan) && made == Gap(t0, plan.parent, plan.repo)
    requires Chained(t0, t, plan, made, reached) && reached <= made
    ensures Dirty(t0, t, plan, made, reached, false, false)
  {
    Apart(plan);
    if made > 0 {
      NewParents(t0, plan, made);
      assert !plan.Parents(plan.Staging(), made, reached) && !plan.Parents(plan.Temp(), made, reached);
    }
    hide Plan.Parents, Plan.Scratch, Gates, Gap, Sound;
  }

  lemma PartlyUndone(t0: Tree, t: Tree, plan: Plan, made: nat, reached: nat)
    requires made == Missing(t0, plan) && (reached < made || reached == 0)
    requires forall p | !plan.Scratch(p) ::
               Look(t, p) == if reached < made && plan.Parents(p, made, reached) then Dir else Look(t0, p)
    ensures reached == 0 ==> Untouched(t0, t, plan)
    ensures reached > 0 ==> Leftover(t0, t, plan, reached)
  {
  }

  lemma Undone(t0: Tree, t: Tree, plan: Plan, made: nat)
    requires forall p | !plan.Scratch(p) ::
               Look(t, p) == if made < made && plan.Parents(p, made, made) then Dir else Look(t0, p)
    ensures Untouched(t0, t, plan)
  {
  }

  lemma ChainedReady(t0: Tree, t: Tree, plan: Plan, made: nat)
    requires Gates(t0, plan) && made == Gap(t0, plan.parent, plan.repo)
    requires Chained(t0, t, plan, made, made) && Look(t0, plan.Near(made)) == Dir
    ensures plan.Shadow() != [] && Look(t, plan.Shadow()) == Absent && Look(t, Parent(plan.Shadow())) == Dir
  {
    GapFacts(t0, plan, made);
    assert Parent(plan.Shadow()) == plan.parent == plan.Ancestor(1);
    assert !(plan.Shadow() < plan.Shadow());
  }

  lemma ChainedClaimed(t0: Tree, t: Tree, plan: Plan, made: nat)
    requires Chained(t0, t, plan, made, made)
    ensures Claimed(t0, t[plan.Shadow() := Dir], plan, made)
  {
    hide Plan.Parents;
    forall p ensures Look(t[plan.Shadow() := Dir], p)
                       == if plan.Parents(p, made, made) || p == plan.Shadow() then Dir else Look(t0, p) {
      LookSet(t, plan.Shadow(), Dir, p);
    }
  }

  lemma StagedReady(t0: Tree, t: Tree, plan: Plan, made: nat, files: map<string, string>)
    requires Sound(t0) && Sound(t) && Gates(t0, plan) && Staged(t0, t, plan, made, files)
    ensures Look(t, plan.Staging()) == Dir && Look(t, plan.Shadow()) == Dir && Hollow(t, plan.Shadow())
    ensures plan.Staging() != [] && plan.Shadow() != [] && !(plan.Staging() <= plan.Shadow()) && !(plan.Shadow() <= plan.Staging())
  {
    Apart(plan);
    hide Sound, Gates, Plan.Parents, Plan.Scratch;
    assert !(plan.Staging() < plan.Staging()) && !(plan.Staging() < plan.Shadow());
    forall q | plan.Shadow() < q ensures Look(t, q) == Absent {
      GatesIs(t0, plan);
      MissingBelow(t0, plan.Shadow(), q);
      ShadowApart(plan, q);
      NotStaging(plan, q);
    }
    ListedThere(t);
  }

  lemma NotStaging(plan: Plan, q: Path)
    requires plan.Shadow() < q
    ensures !(plan.Staging() <= q) && !(plan.Staging() < q) && q != plan.Staging() && q != plan.Shadow()
  {
    Apart(plan);
    if plan.Staging() <= q {
      SameLength(plan.Shadow(), plan.Staging(), q);
    }
  }

  lemma StagedPlaced(t0: Tree, before: Tree, t: Tree, plan: Plan, made: nat, files: map<string, string>)
    requires Staged(t0, before, plan, made, files)
    requires forall q :: Look(t, q) ==
               if plan.Shadow() <= q then Look(before, plan.Staging() + q[|plan.Shadow()|..])
               else if plan.Staging() <= q then Absent else Look(before, q)
    ensures Placed(t0, t, plan, made, files)
  {
    hide Plan.Parents;
    forall q ensures Look(t, q) == PlacedLook(t0, plan, made, files, q) {
      AtOrPast(plan.Shadow(), q);
      AtOrPast(plan.Staging(), q);
      if plan.Shadow() <= q {
        PlacedUnder(t0, before, t, plan, made, files, q);
      } else if plan.Staging() <= q {
        NotParent(plan, made, q);
      }
    }
  }

  lemma NotParent(plan: Plan, made: nat, q: Path)
    requires plan.Staging() <= q
    ensures !plan.Parents(q, made, made) && q != plan.Shadow()
  {
    Apart(plan);
  }

  lemma PlacedUnder(t0: Tree, before: Tree, t: Tree, plan: Plan, made: nat, files: map<string, string>, q: Path)
    requires Staged(t0, before, plan, made, files) && plan.Shadow() <= q
    requires Look(t, q) == Look(before, plan.Staging() + q[|plan.Shadow()|..])
    ensures Look(t, q) == PlacedLook(t0, plan, made, files, q)
  {
    hide Plan.Parents;
    var x := plan.Staging() + q[|plan.Shadow()|..];
    AtOrPast(plan.Shadow(), q);
    AtOrPast(plan.Staging(), x);
    assert |x| == |q|;
    if q == plan.Shadow() {
      assert x == plan.Staging();
      assert !(plan.Staging() < plan.Staging()) && !(plan.Shadow() < plan.Shadow());
    } else {
      assert plan.Staging() < x;
    }
  }

  lemma TempLook(t0: Tree, t: Tree, plan: Plan, made: nat, files: map<string, string>)
    requires Placed(t0, t, plan, made, files)
    ensures Look(t, plan.Temp()) == Look(t0, plan.Temp())
  {
    Apart(plan);
    assert !plan.Parents(plan.Temp(), made, made);
  }

  lemma PlacedUnsettled(t0: Tree, t: Tree, plan: Plan, made: nat, files: map<string, string>)
    requires Sound(t0) && Gates(t0, plan) && made == Gap(t0, plan.parent, plan.repo)
    requires Placed(t0, t, plan, made, files)
    ensures Unsettled(t0, t, plan, made, files)
  {
    hide Gates, Gap, Sound, PlacedLook;
    TempLook(t0, t, plan, made, files);
    if made > 0 {
      NewParents(t0, plan, made);
    }
  }

  lemma UnsettledDirty(t0: Tree, t: Tree, plan: Plan, made: nat, files: map<string, string>)
    requires Unsettled(t0, t, plan, made, files)
    ensures Dirty(t0, t, plan, made, made, true, true)
  {
    Apart(plan);
    assert Look(t, plan.Staging()) == Absent by {
      NotParent(plan, made, plan.Staging());
    }
    hide Plan.Parents;
  }

  lemma UnsettledStep(t0: Tree, before: Tree, t: Tree, plan: Plan, made: nat, files: map<string, string>)
    requires Unsettled(t0, before, plan, made, files)
    requires t == before || t == before - {plan.Temp()} || exists x :: t == before[plan.Temp() := File(x)]
    ensures Unsettled(t0, t, plan, made, files)
  {
    hide PlacedLook, Plan.Temp;
  }

  lemma UnsettledReady(t0: Tree, t: Tree, plan: Plan, made: nat, files: map<string, string>)
    requires Sound(t) && Gates(t0, plan) && Unsettled(t0, t, plan, made, files)
    ensures plan.Temp() != [] && plan.Sidecar() != [] && plan.Temp() != plan.Sidecar()
    ensures Look(t, Parent(plan.Temp())) == Dir && Disk.Writable(t, plan.Sidecar())
  {
    Apart(plan);
    assert !(plan.Shadow() < plan.Shadow()) && Look(t, plan.Shadow()) == Dir;
    Disk.InDir(t, plan.Shadow());
    assert Parent(plan.Shadow()) == plan.parent == Parent(plan.Temp()) == Parent(plan.Sidecar());
    assert !plan.Parents(plan.Sidecar(), made, made) && !(plan.Shadow() < plan.Sidecar());
    hide Sound;
  }

  lemma UnsettledDone(t0: Tree, t: Tree, plan: Plan, made: nat, files: map<string, string>)
    requires Unsettled(t0, t, plan, made, files) && Look(t, plan.Temp()) == File(plan.record)
    ensures Installed(t0, (t - {plan.Temp()})[plan.Sidecar() := Look(t, plan.Temp())], plan, made, files)
  {
    Apart(plan);
    hide PlacedLook, Plan.Temp, Plan.Sidecar, Plan.Scratch;
  }
}
