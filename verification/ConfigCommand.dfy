/** What a file means after the --set command: when it writes, what that reads as, and when nothing else changed. */
module ConfigCommand {
  import opened Documents
  import opened Strings
  import opened ConfigParser
  import opened ConfigPrinter
  import opened ConfigReadBack
  import opened ConfigEdit
  import opened ConfigLeaves
  import opened ConfigPages

  /** The mapping a tree means. */
  function MeaningOf(kids: seq<Kid>): Val
    requires Sound(kids)
  {
    Map(Load(kids, []))
  }

  /** The kid a key means: the last one that has it. */
  function Last(kids: seq<Kid>, key: string): Option<Kid> {
    if kids == [] then None
    else
      var later := Last(kids[1..], key);
      if later.Some? then later else if kids[0].key == key then Some(kids[0]) else None
  }

  lemma {:induction false} LastSound(kids: seq<Kid>, key: string)
    requires Sound(kids)
    ensures Last(kids, key).Some? ==> SoundKid(Last(kids, key).value) && Last(kids, key).value.key == key
    decreases |kids|
  {
    hide SoundKid;
    if kids != [] {
      LastSound(kids[1..], key);
    }
  }

  lemma {:induction false} LoadLookup(kids: seq<Kid>, es: seq<Entry>, key: string)
    requires Sound(kids)
    ensures Last(kids, key).Some? ==> SoundKid(Last(kids, key).value)
    ensures Lookup(Load(kids, es), key)
              == if Last(kids, key).Some? then Some(Meaning(Last(kids, key).value)) else Lookup(es, key)
    decreases |kids|
  {
    hide SoundKid, Meaning;
    LastSound(kids, key);
    if kids != [] {
      LoadStep(kids, es);
      LoadLookup(kids[1..], Put(es, kids[0].key, Meaning(kids[0])), key);
      PutOther(es, kids[0].key, Meaning(kids[0]), key);
    }
  }

  /** Reading a path one key down. */
  lemma TreeGet(kids: seq<Kid>, path: seq<string>)
    requires Sound(kids) && path != []
    ensures Last(kids, path[0]).Some? ==> SoundKid(Last(kids, path[0]).value)
    ensures Get(MeaningOf(kids), path) ==
              if Last(kids, path[0]).Some? then Get(Meaning(Last(kids, path[0]).value), path[1..]) else None
  {
    hide Load, Meaning, Sound, SoundKid, Last;
    LoadLookup(kids, [], path[0]);
  }

  lemma {:induction false} LastApart(a: seq<Kid>, b: seq<Kid>, key: string)
    ensures Last(a + b, key) == if Last(b, key).Some? then Last(b, key) else Last(a, key)
    decreases |a|
  {
    if a == [] {
      assert a + b == b;
    } else {
      assert (a + b)[0] == a[0] && (a + b)[1..] == a[1..] + b;
      LastApart(a[1..], b, key);
    }
  }

  lemma {:induction false} LastMember(kids: seq<Kid>, key: string)
    ensures Last(kids, key).Some? ==> Last(kids, key).value in kids && Last(kids, key).value.key == key
    ensures Last(kids, key).None? ==> forall i | 0 <= i < |kids| :: kids[i].key != key
    decreases |kids|
  {
    if kids != [] {
      LastMember(kids[1..], key);
    }
  }

  // ------------------------------------------------------------------ the edited tree is a page

  predicate SimpleKeys(parts: seq<string>) { forall i | 0 <= i < |parts| :: SimpleKey(parts[i]) }

  lemma JoinSound(a: seq<Kid>, b: seq<Kid>, outer: int)
    requires Sound(a) && Sound(b) && Nested(a, outer) && Nested(b, outer)
    requires a != [] && b != [] && a[|a| - 1].tree.Branch? ==> b[0].pad <= a[|a| - 1].pad
    ensures Sound(a + b) && Nested(a + b, outer)
  {
    hide SoundKid, NestedKid;
    var r := a + b;
    forall i | 0 <= i < |r| ensures SoundKid(r[i]) && r[i].pad > outer && NestedKid(r[i]) {
      if i < |a| {
        assert r[i] == a[i];
      } else {
        assert r[i] == b[i - |a|];
      }
    }
    forall i | 0 <= i < |r| - 1 && r[i].tree.Branch? ensures r[i + 1].pad <= r[i].pad {
      if i + 1 < |a| {
        assert r[i] == a[i] && r[i + 1] == a[i + 1];
      } else if i >= |a| {
        assert r[i] == b[i - |a|] && r[i + 1] == b[i - |a| + 1];
      }
    }
  }

  lemma OneSound(k: Kid, outer: int)
    requires SoundKid(k) && NestedKid(k) && k.pad > outer
    ensures Sound([k]) && Nested([k], outer)
  {
    hide SoundKid, NestedKid;
  }

  lemma FirstPad(kids: seq<Kid>, depth: nat)
    requires Uniform(kids, depth) && kids != []
    ensures kids[0].pad == 2 * depth && kids[|kids| - 1].pad == 2 * depth
  {
    UniformPad(kids[0], depth);
    UniformPad(kids[|kids| - 1], depth);
    hide UniformKid;
  }

  lemma NestedLower(kids: seq<Kid>, outer: int, lower: int)
    requires Nested(kids, outer) && lower <= outer
    ensures Nested(kids, lower)
  {
    hide NestedKid;
  }

  lemma {:induction false} PlacedSound(kids: seq<Kid>, depth: nat, rest: seq<string>, raw: string)
    requires rest != [] && Uniform(kids, depth) && SoundRaw(raw) && SimpleKeys(rest)
    ensures var r := Placed(kids, depth, rest, raw);
            Sound(r) && Nested(r, 2 * depth - 1) && (kids != [] ==> r != [] && r[0].pad == 2 * depth)
    decreases kids, 0
  {
    hide *;
    if kids == [] {
      NothingSound(depth, rest, raw);
    } else {
      var k, later := kids[0], kids[1..];
      UniformRest(kids, depth);
      PlacedStep(kids, depth, rest, raw);
      UniformSound(later, depth);
      if later != [] {
        FirstPad(later, depth);
      }
      if k.key != rest[0] {
        KidSound(k, depth);
        OneSound(k, 2 * depth - 1);
        PlacedSound(later, depth, rest, raw);
        NothingSound(depth, rest, raw);
        JoinSound([k], Placed(later, depth, rest, raw), 2 * depth - 1);
      } else {
        var made, strays := Kept(k, depth, rest, raw), Strays(k, depth, rest, raw);
        KeptSound(k, depth, rest, raw);
        OneSound(made, 2 * depth - 1);
        JoinSound([made], strays, 2 * depth - 1);
        JoinSound([made] + strays, later, 2 * depth - 1);
      }
    }
  }

  lemma NothingSound(depth: nat, rest: seq<string>, raw: string)
    requires rest != []
    ensures var r := Placed([], depth, rest, raw); r == [] && Sound(r) && Nested(r, 2 * depth - 1)
  {
  }

  lemma {:induction false} KeptSound(k: Kid, depth: nat, rest: seq<string>, raw: string)
    requires rest != [] && UniformKid(k, depth) && SoundRaw(raw) && SimpleKeys(rest)
    ensures var made, strays := Kept(k, depth, rest, raw), Strays(k, depth, rest, raw);
            && SoundKid(made) && NestedKid(made) && made.pad == 2 * depth
            && Sound(strays) && Nested(strays, 2 * depth - 1)
            && (strays != [] ==> made.tree.Leaf? && strays[|strays| - 1].pad >= 2 * depth)
    decreases k, 2
  {
    hide *;
    KidSound(k, depth);
    KeyOf(k, depth);
    KeptForms(k, depth, rest, raw);
    InsideUniform(k, depth);
    UniformSound(Inside(k), depth + 1);
    if Inside(k) != [] {
      FirstPad(Inside(k), depth + 1);
    }
    NestedLower(Inside(k), 2 * depth + 1, 2 * depth - 1);
    if |rest| == 1 {
      LeafSound(k.pad, k.key, raw);
    } else {
      assert SimpleKey(rest[1]) && SimpleKeys(rest[1..]) by { KeysRest(rest); }
      LeafSound(2 * depth + 2, rest[1], raw);
      OneSound(Kid(2 * depth + 2, rest[1], Leaf(raw)), 2 * depth - 1);
      NoneSound(2 * depth - 1);
      if k.tree.Branch? {
        InsideKids(k);
        WroteSound(k.tree.kids, depth + 1, rest[1..], raw);
        NestedLower(Wrote(k.tree.kids, depth + 1, rest[1..], raw), 2 * depth + 1, 2 * depth);
        BranchSound(k, Wrote(k.tree.kids, depth + 1, rest[1..], raw));
      }
    }
  }

  lemma KeyOf(k: Kid, depth: nat)
    requires UniformKid(k, depth)
    ensures SimpleKey(k.key)
  {
  }

  lemma KeysRest(parts: seq<string>)
    requires SimpleKeys(parts) && |parts| > 1
    ensures SimpleKey(parts[1]) && SimpleKeys(parts[1..])
  {
  }

  lemma NoneSound(outer: int)
    ensures Sound([]) && Nested([], outer)
  {
  }

  lemma BranchSound(k: Kid, kids: seq<Kid>)
    requires SimpleKey(k.key) && Sound(kids) && Nested(kids, k.pad)
    ensures SoundKid(k.(tree := Branch(kids))) && NestedKid(k.(tree := Branch(kids)))
  {
  }

  lemma KeptForms(k: Kid, depth: nat, rest: seq<string>, raw: string)
    requires rest != []
    ensures Kept(k, depth, rest, raw) ==
              if |rest| == 1 then Kid(k.pad, k.key, Leaf(raw))
              else if k.tree.Leaf? then k
              else k.(tree := Branch(Wrote(k.tree.kids, depth + 1, rest[1..], raw)))
    ensures Strays(k, depth, rest, raw) ==
              if |rest| == 1 then Inside(k)
              else if k.tree.Leaf? && |rest| == 2 then [Kid(2 * depth + 2, rest[1], Leaf(raw))]
              else []
  {
    hide Wrote;
  }

  lemma {:induction false} WroteSound(kids: seq<Kid>, depth: nat, rest: seq<string>, raw: string)
    requires rest != [] && Uniform(kids, depth) && SoundRaw(raw) && SimpleKeys(rest)
    ensures Sound(Wrote(kids, depth, rest, raw)) && Nested(Wrote(kids, depth, rest, raw), 2 * depth - 1)
    decreases kids, 1
  {
    hide *;
    WroteForms(kids, depth, rest, raw);
    if |rest| == 1 && Aim(kids, 0, depth, rest) == Nowhere {
      var added := Kid(2 * depth, rest[0], Leaf(raw));
      assert SimpleKey(rest[0]) by { assert SimpleKeys(rest) ==> SimpleKey(rest[0]) by { FirstKey(rest); } }
      LeafSound(2 * depth, rest[0], raw);
      OneSound(added, 2 * depth - 1);
      UniformSound(kids, depth);
      JoinSound([added], kids, 2 * depth - 1);
    } else {
      PlacedSound(kids, depth, rest, raw);
    }
  }

  lemma FirstKey(parts: seq<string>)
    requires parts != []
    ensures SimpleKeys(parts) ==> SimpleKey(parts[0])
  {
  }

  lemma WroteForms(kids: seq<Kid>, depth: nat, rest: seq<string>, raw: string)
    requires rest != []
    ensures Wrote(kids, depth, rest, raw) ==
              if |rest| == 1 && Aim(kids, 0, depth, rest) == Nowhere then [Kid(2 * depth, rest[0], Leaf(raw))] + kids
              else Placed(kids, depth, rest, raw)
  {
    hide Placed, Aim;
  }

  // ------------------------------------------------------------------ the edited tree's meaning

  /** The position of the kid with a key, or the number of kids. */
  function Index(kids: seq<Kid>, key: string): (j: nat)
    ensures j <= |kids| && (j < |kids| ==> kids[j].key == key) && forall i | 0 <= i < j :: kids[i].key != key
  {
    if kids == [] || kids[0].key == key then 0 else 1 + Index(kids[1..], key)
  }

  lemma IndexStep(kids: seq<Kid>, key: string)
    requires kids != []
    ensures Index(kids, key) == if kids[0].key == key then 0 else 1 + Index(kids[1..], key)
  {
  }

  lemma Shifted(kids: seq<Kid>, j: nat, mid: seq<Kid>)
    requires kids != [] && j < |kids[1..]|
    ensures [kids[0]] + (kids[1..][..j] + mid + kids[1..][j + 1..]) == kids[..j + 1] + mid + kids[j + 2..]
  {
    assert kids[..j + 1] == [kids[0]] + kids[1..][..j] && kids[1..][j + 1..] == kids[j + 2..];
  }

  lemma {:induction false} PlacedAt(kids: seq<Kid>, depth: nat, rest: seq<string>, raw: string)
    requires rest != []
    ensures var j := Index(kids, rest[0]);
            Placed(kids, depth, rest, raw) ==
              if j == |kids| then kids
              else kids[..j] + ([Kept(kids[j], depth, rest, raw)] + Strays(kids[j], depth, rest, raw)) + kids[j + 1..]
    decreases |kids|
  {
    hide *;
    if kids == [] {
      NothingSound(depth, rest, raw);
    } else {
      PlacedStep(kids, depth, rest, raw);
      IndexStep(kids, rest[0]);
      if kids[0].key != rest[0] {
        PlacedAt(kids[1..], depth, rest, raw);
        var j := Index(kids[1..], rest[0]);
        if j < |kids[1..]| {
          var k := kids[1..][j];
          Shifted(kids, j, [Kept(k, depth, rest, raw)] + Strays(k, depth, rest, raw));
        } else {
          assert [kids[0]] + kids[1..] == kids;
        }
      } else {
        assert kids[..0] == [];
      }
    }
  }

  lemma {:induction false} AimIndex(kids: seq<Kid>, at: nat, depth: nat, rest: seq<string>)
    requires rest != []
    ensures Index(kids, rest[0]) == |kids| ==> Aim(kids, at, depth, rest) == Nowhere && Target(kids, rest) == None
    ensures |rest| == 1 && Index(kids, rest[0]) < |kids| ==> Aim(kids, at, depth, rest).At?
    decreases |kids|
  {
    hide KidHeads;
    if kids != [] && kids[0].key != rest[0] {
      AimIndex(kids[1..], at + |KidHeads(kids[0])|, depth, rest);
    }
  }

  lemma UniformAt(kids: seq<Kid>, depth: nat, j: nat)
    requires Uniform(kids, depth) && j < |kids|
    ensures UniformKid(kids[j], depth)
    ensures forall i | 0 <= i < |kids| && i != j :: kids[i].key != kids[j].key
  {
    hide UniformKid;
  }

  lemma {:induction false} NoLast(kids: seq<Kid>, key: string)
    requires forall i | 0 <= i < |kids| :: kids[i].key != key
    ensures Last(kids, key) == None
    decreases |kids|
  {
    if kids != [] {
      NoLast(kids[1..], key);
    }
  }

  lemma LastOne(k: Kid, key: string)
    ensures Last([k], key) == if k.key == key then Some(k) else None
  {
    assert [k][1..] == [];
  }

  /** Which kid a key means before and after an edit at kid j. */
  lemma EditLast(kids: seq<Kid>, depth: nat, j: nat, made: Kid, strays: seq<Kid>, key: string)
    requires Uniform(kids, depth) && j < |kids| && made.key == kids[j].key
    ensures var later, own := Last(kids[j + 1..], key), kids[j].key;
            && Last(kids, key) == (if later.Some? then later else if key == own then Some(kids[j]) else Last(kids[..j], key))
            && Last(kids[..j] + ([made] + strays) + kids[j + 1..], key) ==
                 (if later.Some? then later
                  else if Last(strays, key).Some? then Last(strays, key)
                  else if key == own then Some(made) else Last(kids[..j], key))
            && Last(kids[j + 1..], own) == None
  {
    UniformAt(kids, depth, j);
    hide Last, Uniform;
    assert kids == kids[..j] + [kids[j]] + kids[j + 1..];
    LastApart(kids[..j] + [kids[j]], kids[j + 1..], key);
    LastApart(kids[..j], [kids[j]], key);
    LastOne(kids[j], key);
    LastApart(kids[..j] + ([made] + strays), kids[j + 1..], key);
    LastApart(kids[..j], [made] + strays, key);
    LastApart([made], strays, key);
    LastOne(made, key);
    NoLast(kids[j + 1..], kids[j].key);
  }

  lemma SoundAt(kids: seq<Kid>, j: nat)
    requires Sound(kids) && j < |kids|
    ensures SoundKid(kids[j]) && Sound(Inside(kids[j])) && kids[j] in kids
    ensures kids[j].tree.Branch? ==> Inside(kids[j]) == kids[j].tree.kids && Meaning(kids[j]) == MeaningOf(kids[j].tree.kids)
    ensures kids[j].tree.Leaf? ==> Some(Meaning(kids[j])) == ParseScalar(kids[j].tree.raw)
  {
    assert SoundKid(kids[j]);
  }

  /** What the path reads as after the edit. A kid that the edit lets out may answer in its place; below a
      key that has a value the path reads as before, unless the new line takes that very key. */
  ghost function Reads(kids: seq<Kid>, rest: seq<string>, raw: string): Option<Val>
    requires rest != [] && Sound(kids) && SoundRaw(raw)
    decreases kids
  {
    var j := Index(kids, rest[0]);
    if j == |kids| then (if |rest| == 1 then ParseScalar(raw) else None)
    else
      SoundAt(kids, j);
      if |rest| == 1 then
        LastSound(Inside(kids[j]), rest[0]);
        var c := Last(Inside(kids[j]), rest[0]);
        if c.Some? then Some(Meaning(c.value)) else ParseScalar(raw)
      else if kids[j].tree.Leaf? then
        (if |rest| == 2 && rest[1] == rest[0] then None else Get(Meaning(kids[j]), rest[1..]))
      else Reads(kids[j].tree.kids, rest[1..], raw)
  }

  /** A kid c let out next to kid j does not show: a later sibling has its key, or an earlier one means the same. */
  ghost predicate Settles(kids: seq<Kid>, j: nat, c: Kid)
    requires j < |kids|
  {
    || Last(kids[j + 1..], c.key).Some?
    || var e := Last(kids[..j], c.key);
       e.Some? && SoundKid(e.value) && SoundKid(c) && Meaning(e.value) == Meaning(c)
  }

  ghost predicate AllSettle(kids: seq<Kid>, j: nat, strays: seq<Kid>)
    requires j < |kids|
  {
    forall c | c in strays :: c.key == kids[j].key || Settles(kids, j, c)
  }

  /** Nothing that the edit lets out shows. */
  ghost predicate Harmless(kids: seq<Kid>, depth: nat, rest: seq<string>, raw: string)
    requires rest != []
    decreases kids
  {
    var j := Index(kids, rest[0]);
    j < |kids| ==>
      && AllSettle(kids, j, Strays(kids[j], depth, rest, raw))
      && (|rest| > 1 && kids[j].tree.Branch? ==> Harmless(kids[j].tree.kids, depth + 1, rest[1..], raw))
  }

  /** Neither path leads to or past the other. */
  predicate Apart(p: seq<string>, q: seq<string>) { !(p <= q) && !(q <= p) }

  lemma ApartDown(p: seq<string>, q: seq<string>)
    requires Apart(p, q)
    ensures p != [] && q != [] && (p[0] == q[0] ==> |p| > 1 && Apart(p[1..], q[1..]))
  {
    assert p == [p[0]] + p[1..] && q == [q[0]] + q[1..];
  }

  lemma ApartUp(p: seq<string>, q: seq<string>)
    requires p != [] && Apart(p[1..], q)
    ensures Apart(p, [p[0]] + q)
  {
    assert p == [p[0]] + p[1..];
  }

  predicate NoKeys(v: Val) { v.Map? ==> v.entries == [] }

  lemma ReadsForms(kids: seq<Kid>, rest: seq<string>, raw: string)
    requires rest != [] && Sound(kids) && SoundRaw(raw)
    ensures var j := Index(kids, rest[0]);
            && (j == |kids| ==> Reads(kids, rest, raw) == if |rest| == 1 then ParseScalar(raw) else None)
            && (j < |kids| ==>
                  && SoundKid(kids[j]) && Sound(Inside(kids[j]))
                  && (Last(Inside(kids[j]), rest[0]).Some? ==> SoundKid(Last(Inside(kids[j]), rest[0]).value))
                  && Reads(kids, rest, raw) ==
                       if |rest| == 1 then
                         (if Last(Inside(kids[j]), rest[0]).Some? then Some(Meaning(Last(Inside(kids[j]), rest[0]).value))
                          else ParseScalar(raw))
                       else if kids[j].tree.Leaf? then
                         (if |rest| == 2 && rest[1] == rest[0] then None else Get(Meaning(kids[j]), rest[1..]))
                       else Reads(kids[j].tree.kids, rest[1..], raw))
  {
    hide Meaning, Index, SoundRaw;
    var j := Index(kids, rest[0]);
    if j < |kids| {
      SoundAt(kids, j);
      LastSound(Inside(kids[j]), rest[0]);
    }
  }

  /** The edited mapping at one level, and what a path's first key means in it. */
  lemma WroteLast(kids: seq<Kid>, depth: nat, rest: seq<string>, raw: string, key: string)
    requires rest != [] && Uniform(kids, depth)
    ensures var j, made := Index(kids, rest[0]), Wrote(kids, depth, rest, raw);
            && (j == |kids| && |rest| == 1 ==>
                  Last(made, key) == (if Last(kids, key).Some? then Last(kids, key)
                                      else if key == rest[0] then Some(Kid(2 * depth, rest[0], Leaf(raw))) else None)
                  && Last(kids, rest[0]) == None)
            && (j == |kids| && |rest| > 1 ==> made == kids)
            && (j < |kids| ==>
                  var later, strays := Last(kids[j + 1..], key), Strays(kids[j], depth, rest, raw);
                  && Last(kids, key) == (if later.Some? then later else if key == rest[0] then Some(kids[j]) else Last(kids[..j], key))
                  && Last(made, key) ==
                       (if later.Some? then later else if Last(strays, key).Some? then Last(strays, key)
                        else if key == rest[0] then Some(Kept(kids[j], depth, rest, raw)) else Last(kids[..j], key))
                  && Last(kids[j + 1..], rest[0]) == None)
  {
    hide *;
    var j := Index(kids, rest[0]);
    WroteForms(kids, depth, rest, raw);
    PlacedAt(kids, depth, rest, raw);
    AimIndex(kids, 0, depth, rest);
    if j < |kids| {
      EditLast(kids, depth, j, Kept(kids[j], depth, rest, raw), Strays(kids[j], depth, rest, raw), key);
    } else if |rest| == 1 {
      NoLast(kids, rest[0]);
      LastApart([Kid(2 * depth, rest[0], Leaf(raw))], kids, key);
      LastOne(Kid(2 * depth, rest[0], Leaf(raw)), key);
    }
  }

  lemma LeafGet(k: Kid, path: seq<string>)
    requires k.tree.Leaf? && SoundKid(k)
    ensures Some(Meaning(k)) == ParseScalar(k.tree.raw)
    ensures Get(Meaning(k), []) == ParseScalar(k.tree.raw)
    ensures NoKeys(ParseScalar(k.tree.raw).value) && path != [] ==> Get(Meaning(k), path) == None
  {
  }

  lemma BranchMeans(k: Kid)
    requires k.tree.Branch? && SoundKid(k)
    ensures Sound(k.tree.kids) && Meaning(k) == MeaningOf(k.tree.kids)
  {
  }

  lemma GetAt(v: Val, path: seq<string>)
    requires path == []
    ensures Get(v, path) == Some(v)
  {
  }

  lemma LeafMeans(k: Kid, raw: string)
    requires k.tree == Leaf(raw) && SoundKid(k)
    ensures Some(Meaning(k)) == ParseScalar(raw)
  {
  }

  /** The path ends at this level: it reads as the last line let out that has its key, or as the new scalar. */
  lemma WroteReadsHere(kids: seq<Kid>, depth: nat, rest: seq<string>, raw: string)
    requires |rest| == 1 && Uniform(kids, depth) && SoundRaw(raw) && Index(kids, rest[0]) < |kids|
    requires Sound(kids) && Sound(Wrote(kids, depth, rest, raw))
    ensures Get(MeaningOf(Wrote(kids, depth, rest, raw)), rest) == Reads(kids, rest, raw)
  {
    hide *;
    var j, made := Index(kids, rest[0]), Wrote(kids, depth, rest, raw);
    var k := kids[j];
    var stray := Last(Inside(k), rest[0]);
    ReadsForms(kids, rest, raw);
    WroteLast(kids, depth, rest, raw, rest[0]);
    TreeGet(made, rest);
    KeptForms(k, depth, rest, raw);
    if stray.Some? {
      assert Last(made, rest[0]) == stray;
      GetAt(Meaning(stray.value), rest[1..]);
    } else {
      var kept := Kid(k.pad, k.key, Leaf(raw));
      assert Last(made, rest[0]) == Some(kept);
      GetAt(Meaning(kept), rest[1..]);
      LeafMeans(kept, raw);
    }
  }

  /** No line has the path's first key: the path reads as nothing, unless it is the new leaf itself. */
  lemma WroteReadsMissing(kids: seq<Kid>, depth: nat, rest: seq<string>, raw: string)
    requires rest != [] && Uniform(kids, depth) && SoundRaw(raw) && Index(kids, rest[0]) == |kids|
    requires Sound(kids) && Sound(Wrote(kids, depth, rest, raw))
    ensures Get(MeaningOf(Wrote(kids, depth, rest, raw)), rest) == Reads(kids, rest, raw)
  {
    hide *;
    var made := Wrote(kids, depth, rest, raw);
    ReadsForms(kids, rest, raw);
    WroteLast(kids, depth, rest, raw, rest[0]);
    TreeGet(made, rest);
    if |rest| == 1 {
      var leaf := Kid(2 * depth, rest[0], Leaf(raw));
      assert Last(made, rest[0]) == Some(leaf);
      GetAt(Meaning(leaf), rest[1..]);
      LeafMeans(leaf, raw);
    } else {
      NoLast(kids, rest[0]);
    }
  }

  /** The path goes on below a scalar. */
  lemma WroteReadsLeaf(kids: seq<Kid>, depth: nat, rest: seq<string>, raw: string)
    requires |rest| > 1 && Uniform(kids, depth) && SoundRaw(raw) && NoKeys(ParseScalar(raw).value)
    requires Index(kids, rest[0]) < |kids| && kids[Index(kids, rest[0])].tree.Leaf?
    requires Sound(kids) && Sound(Wrote(kids, depth, rest, raw))
    ensures Get(MeaningOf(Wrote(kids, depth, rest, raw)), rest) == Reads(kids, rest, raw)
  {
    hide *;
    var k := kids[Index(kids, rest[0])];
    ReadsForms(kids, rest, raw);
    WroteLast(kids, depth, rest, raw, rest[0]);
    TreeGet(Wrote(kids, depth, rest, raw), rest);
    KeptForms(k, depth, rest, raw);
    LastOne(Kid(2 * depth + 2, rest[1], Leaf(raw)), rest[0]);
    NoLast([], rest[0]);
    if |rest| == 2 && rest[1] == rest[0] {
      LeafGet(Kid(2 * depth + 2, rest[1], Leaf(raw)), rest[1..]);
    }
  }

  /** The path goes on in a block: one level is peeled off on both sides. */
  lemma WroteReadsBelow(kids: seq<Kid>, depth: nat, rest: seq<string>, raw: string)
    requires |rest| > 1 && Uniform(kids, depth) && SoundRaw(raw)
    requires Index(kids, rest[0]) < |kids| && kids[Index(kids, rest[0])].tree.Branch?
    requires Sound(kids) && Sound(Wrote(kids, depth, rest, raw))
    ensures var k := kids[Index(kids, rest[0])];
            && Uniform(k.tree.kids, depth + 1) && Sound(k.tree.kids)
            && Sound(Wrote(k.tree.kids, depth + 1, rest[1..], raw))
            && Get(MeaningOf(Wrote(kids, depth, rest, raw)), rest)
                 == Get(MeaningOf(Wrote(k.tree.kids, depth + 1, rest[1..], raw)), rest[1..])
            && Reads(kids, rest, raw) == Reads(k.tree.kids, rest[1..], raw)
  {
    hide *;
    var j := Index(kids, rest[0]);
    var k := kids[j];
    ReadsForms(kids, rest, raw);
    WroteLast(kids, depth, rest, raw, rest[0]);
    TreeGet(Wrote(kids, depth, rest, raw), rest);
    UniformAt(kids, depth, j);
    KeptForms(k, depth, rest, raw);
    NoLast([], rest[0]);
    InsideKids(k);
    InsideUniform(k, depth);
    BranchMeans(Kept(k, depth, rest, raw));
    BranchMeans(k);
  }

  /** After the edit the path reads as said. */
  lemma {:induction false} WroteReads(kids: seq<Kid>, depth: nat, rest: seq<string>, raw: string)
    requires rest != [] && Uniform(kids, depth) && SoundRaw(raw) && NoKeys(ParseScalar(raw).value)
    requires Sound(kids) && Sound(Wrote(kids, depth, rest, raw))
    ensures Get(MeaningOf(Wrote(kids, depth, rest, raw)), rest) == Reads(kids, rest, raw)
    decreases kids
  {
    var j := Index(kids, rest[0]);
    if j == |kids| {
      WroteReadsMissing(kids, depth, rest, raw);
    } else if |rest| == 1 {
      WroteReadsHere(kids, depth, rest, raw);
    } else if kids[j].tree.Leaf? {
      WroteReadsLeaf(kids, depth, rest, raw);
    } else {
      WroteReadsBelow(kids, depth, rest, raw);
      WroteReads(kids[j].tree.kids, depth + 1, rest[1..], raw);
    }
  }

  lemma HarmlessForms(kids: seq<Kid>, depth: nat, rest: seq<string>, raw: string)
    requires rest != [] && Index(kids, rest[0]) < |kids|
    ensures var k := kids[Index(kids, rest[0])];
            Harmless(kids, depth, rest, raw) <==>
              && AllSettle(kids, Index(kids, rest[0]), Strays(k, depth, rest, raw))
              && (|rest| > 1 && k.tree.Branch? ==> Harmless(k.tree.kids, depth + 1, rest[1..], raw))
  {
    hide AllSettle, Strays, Index;
  }

  lemma SettledSame(kids: seq<Kid>, j: nat, strays: seq<Kid>, key: string)
    requires j < |kids| && AllSettle(kids, j, strays) && key != kids[j].key
    requires Last(kids[j + 1..], key).None? && Last(strays, key).Some?
    ensures Last(kids[..j], key).Some? && SoundKid(Last(kids[..j], key).value) && SoundKid(Last(strays, key).value)
    ensures Meaning(Last(kids[..j], key).value) == Meaning(Last(strays, key).value)
  {
    LastMember(strays, key);
    hide Last, SoundKid, Meaning;
    assert Settles(kids, j, Last(strays, key).value);
  }

  /** Where nothing that is let out shows, every path apart from the edited one reads as before. */
  lemma {:induction false} FrameHolds(kids: seq<Kid>, depth: nat, rest: seq<string>, raw: string, q: seq<string>)
    requires rest != [] && Uniform(kids, depth) && SoundRaw(raw) && Sound(kids) && Sound(Wrote(kids, depth, rest, raw))
    requires Reads(kids, rest, raw).Some? && Harmless(kids, depth, rest, raw) && Apart(rest, q)
    ensures Get(MeaningOf(Wrote(kids, depth, rest, raw)), q) == Get(MeaningOf(kids), q)
    decreases kids
  {
    hide *;
    var j, made := Index(kids, rest[0]), Wrote(kids, depth, rest, raw);
    ApartDown(rest, q);
    ReadsForms(kids, rest, raw);
    WroteLast(kids, depth, rest, raw, q[0]);
    TreeGet(made, q);
    TreeGet(kids, q);
    if j < |kids| {
      var k := kids[j];
      UniformAt(kids, depth, j);
      HarmlessForms(kids, depth, rest, raw);
      KeptForms(k, depth, rest, raw);
      var strays := Strays(k, depth, rest, raw);
      if q[0] != rest[0] {
        if Last(strays, q[0]).Some? && Last(kids[j + 1..], q[0]).None? {
          SettledSame(kids, j, strays, q[0]);
        }
      } else if k.tree.Leaf? {
        LastOne(Kid(2 * depth + 2, rest[1], Leaf(raw)), rest[0]);
        NoLast([], rest[0]);
      } else {
        NoLast([], rest[0]);
        InsideKids(k);
        InsideUniform(k, depth);
        BranchMeans(k);
        BranchMeans(Kept(k, depth, rest, raw));
        FrameHolds(k.tree.kids, depth + 1, rest[1..], raw, q[1..]);
      }
    }
  }

  lemma StrayShows(kids: seq<Kid>, j: nat, strays: seq<Kid>) returns (c: Kid)
    requires j < |kids| && !AllSettle(kids, j, strays)
    ensures c in strays && c.key != kids[j].key && !Settles(kids, j, c)
  {
    hide Settles;
    c :| c in strays && c.key != kids[j].key && !Settles(kids, j, c);
  }

  /** Kids that are let out have keys of their own. */
  lemma StrayLast(k: Kid, depth: nat, rest: seq<string>, raw: string, c: Kid)
    requires rest != [] && UniformKid(k, depth) && c in Strays(k, depth, rest, raw)
    ensures Last(Strays(k, depth, rest, raw), c.key) == Some(c)
  {
    var strays := Strays(k, depth, rest, raw);
    LastMember(strays, c.key);
    InsideUniform(k, depth);
    hide Last, UniformKid;
    var i :| 0 <= i < |strays| && strays[i] == c;
  }

  lemma SettlesNot(kids: seq<Kid>, j: nat, c: Kid)
    requires j < |kids| && !Settles(kids, j, c)
    ensures Last(kids[j + 1..], c.key).None?
    ensures Last(kids[..j], c.key).Some? && SoundKid(Last(kids[..j], c.key).value) && SoundKid(c) ==>
              Meaning(Last(kids[..j], c.key).value) != Meaning(c)
  {
    hide Last, SoundKid, Meaning;
  }

  /** Where something that is let out shows, some path apart from the edited one reads differently. */
  lemma {:induction false} FrameBreaks(kids: seq<Kid>, depth: nat, rest: seq<string>, raw: string) returns (q: seq<string>)
    requires rest != [] && Uniform(kids, depth) && SoundRaw(raw) && Sound(kids) && Sound(Wrote(kids, depth, rest, raw))
    requires !Harmless(kids, depth, rest, raw)
    ensures Apart(rest, q) && Get(MeaningOf(Wrote(kids, depth, rest, raw)), q) != Get(MeaningOf(kids), q)
    decreases kids
  {
    hide *;
    var j, made := Index(kids, rest[0]), Wrote(kids, depth, rest, raw);
    if j == |kids| {
      NothingHarmful(kids, depth, rest, raw);
    } else {
      var k := kids[j];
      UniformAt(kids, depth, j);
      HarmlessForms(kids, depth, rest, raw);
      KeptForms(k, depth, rest, raw);
      var strays := Strays(k, depth, rest, raw);
      if !AllSettle(kids, j, strays) {
        var c := StrayShows(kids, j, strays);
        q := [c.key];
        OneApart(rest, c.key);
        StrayLast(k, depth, rest, raw, c);
        SettlesNot(kids, j, c);
        WroteLast(kids, depth, rest, raw, c.key);
        TreeGet(made, q);
        TreeGet(kids, q);
        assert q[1..] == [];
        GetAt(Meaning(c), []);
        if Last(kids[..j], c.key).Some? {
          GetAt(Meaning(Last(kids[..j], c.key).value), []);
        }
      } else {
        BreaksBelow(kids, j, depth, rest, raw);
        InsideKids(k);
        InsideUniform(k, depth);
        BranchMeans(k);
        BranchMeans(Kept(k, depth, rest, raw));
        var below := FrameBreaks(k.tree.kids, depth + 1, rest[1..], raw);
        q := [rest[0]] + below;
        ApartUp(rest, below);
        WroteLast(kids, depth, rest, raw, rest[0]);
        NoLast([], rest[0]);
        TreeGet(made, q);
        TreeGet(kids, q);
        assert q[1..] == below;
      }
    }
  }

  lemma NothingHarmful(kids: seq<Kid>, depth: nat, rest: seq<string>, raw: string)
    requires rest != [] && Index(kids, rest[0]) == |kids|
    ensures Harmless(kids, depth, rest, raw)
  {
  }

  lemma OneApart(p: seq<string>, key: string)
    requires p != [] && p[0] != key
    ensures Apart(p, [key])
  {
    assert [key][0] == key;
  }

  lemma BreaksBelow(kids: seq<Kid>, j: nat, depth: nat, rest: seq<string>, raw: string)
    requires rest != [] && j < |kids| && Uniform(kids, depth) && Sound(kids) && Sound(Wrote(kids, depth, rest, raw))
    requires j == Index(kids, rest[0]) && |rest| > 1 && kids[j].tree.Branch?
    ensures SoundKid(kids[j]) && SoundKid(Kept(kids[j], depth, rest, raw))
  {
    hide *;
    SoundAt(kids, j);
    WroteLast(kids, depth, rest, raw, rest[0]);
    KeptForms(kids[j], depth, rest, raw);
    NoLast([], rest[0]);
    LastSound(Wrote(kids, depth, rest, raw), rest[0]);
  }

  // ------------------------------------------------------------------------------ what can be set

  /** The path's mappings are all blocks, and the leaf is a scalar, an empty block, or missing from a
      block that is not the page itself. */
  predicate Settable(kids: seq<Kid>, rest: seq<string>, page: bool)
    requires rest != []
    decreases kids
  {
    var j := Index(kids, rest[0]);
    if j == |kids| then |rest| == 1 && !page
    else if |rest| == 1 then Inside(kids[j]) == []
    else kids[j].tree.Branch? && Settable(kids[j].tree.kids, rest[1..], false)
  }

  lemma {:induction false} AimAt(kids: seq<Kid>, at: nat, depth: nat, rest: seq<string>) returns (there: nat)
    requires rest != [] && Index(kids, rest[0]) < |kids|
    ensures var k := kids[Index(kids, rest[0])];
            && Aim(kids, at, depth, rest) == KidAim(k, there, depth, rest)
            && Target(kids, rest) == (if |rest| == 1 then Some(k) else Target(Inside(k), rest[1..]))
    decreases |kids|
  {
    hide KidHeads, KidAim;
    AimStep(kids, at, depth, rest);
    if kids[0].key != rest[0] {
      there := AimAt(kids[1..], at + |KidHeads(kids[0])|, depth, rest);
    } else {
      there := at;
    }
  }

  lemma KidAimForms(k: Kid, at: nat, depth: nat, rest: seq<string>)
    requires |rest| > 1
    ensures var inner := Aim(Inside(k), at + 1, depth + 1, rest[1..]);
            KidAim(k, at, depth, rest) == if inner == Nowhere && |rest| == 2 then Under(at, 2 * depth) else inner
  {
    hide Aim;
  }

  lemma SettableForms(kids: seq<Kid>, rest: seq<string>, page: bool)
    requires rest != []
    ensures var j := Index(kids, rest[0]);
            Settable(kids, rest, page) <==>
              if j == |kids| then |rest| == 1 && !page
              else if |rest| == 1 then Inside(kids[j]) == []
              else kids[j].tree.Branch? && Settable(kids[j].tree.kids, rest[1..], false)
  {
    hide Index, Inside;
  }

  /** A settable path is found, reads as the new scalar after the edit, and lets nothing out. */
  lemma {:induction false} SettableWrites(kids: seq<Kid>, at: nat, depth: nat, rest: seq<string>, raw: string, page: bool)
    requires rest != [] && Sound(kids) && SoundRaw(raw) && Settable(kids, rest, page)
    ensures Aim(kids, at, depth, rest) == Nowhere ==> |rest| == 1 && !page
    ensures Target(kids, rest).Some? ==> Inside(Target(kids, rest).value) == []
    ensures Reads(kids, rest, raw) == ParseScalar(raw) && Harmless(kids, depth, rest, raw)
    decreases kids
  {
    hide *;
    var j := Index(kids, rest[0]);
    SettableForms(kids, rest, page);
    ReadsForms(kids, rest, raw);
    if j == |kids| {
      AimIndex(kids, at, depth, rest);
      NothingHarmful(kids, depth, rest, raw);
    } else {
      var k := kids[j];
      var there := AimAt(kids, at, depth, rest);
      HarmlessForms(kids, depth, rest, raw);
      KeptForms(k, depth, rest, raw);
      if |rest| == 1 {
        AimIndex(kids, at, depth, rest);
        NoLast(Inside(k), rest[0]);
        NoneSettle(kids, j);
      } else {
        InsideKids(k);
        NoneSettle(kids, j);
        KidAimForms(k, there, depth, rest);
        SettableWrites(k.tree.kids, there + 1, depth + 1, rest[1..], raw, false);
      }
    }
  }

  lemma NoneSettle(kids: seq<Kid>, j: nat)
    requires j < |kids|
    ensures AllSettle(kids, j, [])
  {
  }

  // ---------------------------------------------------------------------------------- the command

  /** The edit is made at all: the path or its parent is found, and a key that opens a block is only taken
      for a scalar when the line below it is blank or a comment. */
  ghost predicate Lands(ls: seq<string>, kids: seq<Kid>, parts: seq<string>)
    requires parts != [] && ReadsAs(ls, kids)
  {
    var aim := Aim(kids, 0, 0, parts);
    && aim != Nowhere
    && (aim.At? && Target(kids, parts).Some? && Inside(Target(kids, parts).value) != [] ==>
          aim.line < |Skim(ls)| && Gap(ls, Row(ls, aim.line)))
  }

  lemma NoSteps(parts: seq<string>)
    ensures Keys(Left([], 0)) == parts[..0] && parts[0..] == parts
  {
  }

  lemma OnwardNowhere(aim: Spot, at: nat, path: seq<Step>, parts: seq<string>)
    requires parts != [] && !aim.Blocked?
    ensures Onward(aim, [], at, path, Nowhere, parts) == aim
  {
  }

  /** The scan of the key lines finds what the tree says. */
  lemma ScanFinds(kids: seq<Kid>, parts: seq<string>)
    requires Uniform(kids, 0) && parts != []
    ensures Scan(Heads(kids), 0, [], Nowhere, parts) == Aim(kids, 0, 0, parts)
  {
    hide *;
    NoSteps(parts);
    ScanAims(kids, 0, 0, [], Nowhere, parts, []);
    assert Heads(kids) + [] == Heads(kids);
    Unblocked(kids, 0, 0, parts);
    OnwardNowhere(Aim(kids, 0, 0, parts), |Heads(kids)|, EndPath(kids, []), parts);
  }

  lemma SkimFirst(ls: seq<string>)
    requires ls != [] && !Read(ls[0]).Blank?
    ensures Skim(ls) != [] && Skim(ls)[0] == Read(ls[0])
  {
    hide Read;
  }

  lemma FirstOfRest(all: seq<Line>, rest: seq<Line>, j: nat)
    requires j < |all| && rest == all[j + 1..] && rest != []
    ensures j + 1 < |all| && all[j + 1] == rest[0]
  {
  }

  lemma NextRow(ls: seq<string>, j: nat)
    requires j < |Skim(ls)|
    ensures var i := Row(ls, j);
            i + 1 < |ls| && !Read(ls[i + 1]).Blank? ==> j + 1 < |Skim(ls)| && Read(ls[i + 1]) == Skim(ls)[j + 1]
  {
    hide *;
    RowReads(ls, j);
    var i := Row(ls, j);
    if i + 1 < |ls| && !Read(ls[i + 1]).Blank? {
      var rest := ls[i + 1..];
      assert rest != [] && rest[0] == ls[i + 1];
      SkimFirst(rest);
      FirstOfRest(Skim(ls), Skim(rest), j);
    }
  }

  lemma {:induction false} HeadsPair(kids: seq<Kid>)
    ensures forall i | 0 <= i < |Heads(kids)| :: Heads(kids)[i].Pair?
    decreases kids
  {
    hide HeadOf;
    if kids != [] {
      var inner := if kids[0].tree.Branch? then Heads(kids[0].tree.kids) else [];
      if kids[0].tree.Branch? {
        HeadsPair(kids[0].tree.kids);
      }
      HeadsPair(kids[1..]);
      assert forall i | 0 <= i < |inner| :: inner[i].Pair?;
      assert Heads(kids) == [HeadOf(kids[0])] + inner + Heads(kids[1..]);
    }
  }

  lemma {:induction false} TargetValue(kids: seq<Kid>, rest: seq<string>)
    requires rest != [] && Sound(kids) && Target(kids, rest).Some?
    ensures HeadOf(Target(kids, rest).value).value == "" <==> Target(kids, rest).value.tree.Branch?
    decreases kids
  {
    hide Index;
    assert SoundKid(kids[0]);
    if kids[0].key != rest[0] {
      TargetValue(kids[1..], rest);
    } else if |rest| > 1 {
      TargetValue(kids[0].tree.kids, rest[1..]);
    }
  }

  /** Whether the line that the scan stops at is taken for a block. */
  lemma StopsAt(ls: seq<string>, kids: seq<Kid>, parts: seq<string>)
    requires parts != [] && ReadsAs(ls, kids) && Uniform(kids, 0) && Aim(kids, 0, 0, parts).At?
    ensures var aim := Aim(kids, 0, 0, parts);
            && aim.line < |Skim(ls)| && Target(kids, parts).Some?
            && Skim(ls)[aim.line] == HeadOf(Target(kids, parts).value)
            && Stop(ls, aim) == (if Inside(Target(kids, parts).value) != [] && !Gap(ls, Row(ls, aim.line)) then Blocked
                                 else Placing(ls, aim))
  {
    hide *;
    var aim := Aim(kids, 0, 0, parts);
    assert Skim(ls) == Heads(kids) by { IsRead(ls, kids); }
    NoShallow(0);
    AimedLine(kids, 0, 0, parts, []);
    assert Heads(kids) + [] == Heads(kids);
    UniformSound(kids, 0);
    TargetValue(kids, parts);
    HeadsPair(kids);
    NextRow(ls, aim.line);
    AimIndent(kids, 0, 0, parts);
    StopForms(ls, aim, Target(kids, parts).value);
  }

  lemma IsRead(ls: seq<string>, kids: seq<Kid>)
    requires ReadsAs(ls, kids)
    ensures Skim(ls) == Heads(kids) && forall i | 0 <= i < |ls| :: LineFree(ls[i])
  {
  }

  lemma NoShallow(indent: nat)
    ensures Shallow([], indent)
  {
  }

  lemma {:induction false} AimIndent(kids: seq<Kid>, at: nat, depth: nat, rest: seq<string>)
    requires rest != [] && Uniform(kids, depth) && Aim(kids, at, depth, rest).At?
    ensures Target(kids, rest).Some? && Aim(kids, at, depth, rest).indent == Target(kids, rest).value.pad
    ensures Aim(kids, at, depth, rest).key == rest[|rest| - 1]
    decreases kids
  {
    hide KidHeads, UniformKid;
    AimTarget(kids, at, depth, rest);
    if kids != [] {
      UniformRest(kids, depth);
      if kids[0].key != rest[0] {
        AimIndent(kids[1..], at + |KidHeads(kids[0])|, depth, rest);
      } else if |rest| > 1 && kids[0].tree.Branch? {
        InsideUniform(kids[0], depth);
        AimIndent(kids[0].tree.kids, at + 1, depth + 1, rest[1..]);
      }
    }
  }

  lemma StopForms(ls: seq<string>, spot: Spot, k: Kid)
    requires spot.At? && spot.line < |Skim(ls)| && Skim(ls)[spot.line] == HeadOf(k) && spot.indent == k.pad
    requires HeadOf(k).value == "" <==> k.tree.Branch?
    requires forall i | 0 <= i < |Skim(ls)| :: Skim(ls)[i].Pair?
    requires Deeper(Skim(ls), spot.line) <==> Inside(k) != []
    requires var i := Row(ls, spot.line);
             i + 1 < |ls| && !Read(ls[i + 1]).Blank? ==>
               spot.line + 1 < |Skim(ls)| && Read(ls[i + 1]) == Skim(ls)[spot.line + 1]
    ensures Stop(ls, spot) == if Inside(k) != [] && !Gap(ls, Row(ls, spot.line)) then Blocked else Placing(ls, spot)
  {
    var i := Row(ls, spot.line);
    OpensBelow(ls, i, spot.indent);
    hide Read, Row, Opens, Skim;
  }

  /** Where the scan of a page stops. */
  lemma LocatePage(ls: seq<string>, kids: seq<Kid>, parts: seq<string>)
    requires parts != [] && ReadsAs(ls, kids) && Uniform(kids, 0)
    ensures var aim := Aim(kids, 0, 0, parts);
            && (aim.At? || aim.Under? ==> aim.line < |Skim(ls)|)
            && Locate(Broken(ls), 0, [], Nowhere, parts) == (if aim == Nowhere || Lands(ls, kids, parts) then Placing(ls, aim) else Blocked)
  {
    hide *;
    var aim := Aim(kids, 0, 0, parts);
    assert Skim(ls) == Heads(kids) by { IsRead(ls, kids); }
    ScanFinds(kids, parts);
    FromTop(ls, parts);
    Unblocked(kids, 0, 0, parts);
    AimInside(kids, 0, 0, parts);
    LandsForms(ls, kids, parts);
    if aim.At? {
      StopsAt(ls, kids, parts);
    } else {
      StopPlain(ls, aim);
    }
  }

  lemma FromTop(ls: seq<string>, parts: seq<string>)
    requires parts != []
    ensures var s := Scan(Skim(ls), 0, [], Nowhere, parts);
            && (s.At? || s.Under? ==> s.line < |Skim(ls)|)
            && Locate(Broken(ls), 0, [], Nowhere, parts) == Stop(ls, s)
  {
    assert ls[..0] == [] && ls[0..] == ls && Skim(ls)[0..] == Skim(ls) && Broken(ls)[0..] == Broken(ls);
    hide Read, Locate, Stop, Scan;
    LocateStops(ls, 0, 0, [], Nowhere, parts);
  }

  lemma StopPlain(ls: seq<string>, spot: Spot)
    requires !spot.At? && (spot.Under? ==> spot.line < |Skim(ls)|)
    ensures Stop(ls, spot) == Placing(ls, spot)
  {
    hide Skim;
  }

  lemma LandsForms(ls: seq<string>, kids: seq<Kid>, parts: seq<string>)
    requires parts != [] && ReadsAs(ls, kids)
    ensures var aim := Aim(kids, 0, 0, parts);
            Lands(ls, kids, parts) <==>
              && aim != Nowhere
              && (aim.At? && Target(kids, parts).Some? && Inside(Target(kids, parts).value) != [] ==>
                    aim.line < |Skim(ls)| && Gap(ls, Row(ls, aim.line)))
  {
    hide Aim, Skim, Row, Target;
  }

  /** What set_scalar writes to a page, and what that means. */
  lemma SetScalarMeans(ls: seq<string>, kids: seq<Kid>, parts: seq<string>, raw: string)
    requires parts != [] && ReadsAs(ls, kids) && Uniform(kids, 0) && SimpleKeys(parts)
    requires Tame(raw) && ParseScalar(raw).Some? && NoKeys(ParseScalar(raw).value)
    ensures SoundRaw(raw) && Sound(kids)
    ensures !Lands(ls, kids, parts) ==> SetScalar(Page(ls), parts, raw) == None
    ensures Lands(ls, kids, parts) ==>
              var aim := Aim(kids, 0, 0, parts);
              && (aim.At? || aim.Under?) && aim.line < |Skim(ls)|
              && var ls' := Edited(ls, Placing(ls, aim), parts[|parts| - 1], raw);
              && SetScalar(Page(ls), parts, raw) == Some(Page(ls'))
              && Sound(Wrote(kids, 0, parts, raw)) && Parse(Page(ls')) == Some(Load(Wrote(kids, 0, parts, raw), []))
  {
    hide *;
    var aim, last := Aim(kids, 0, 0, parts), parts[|parts| - 1];
    IsRead(ls, kids);
    TameSound(raw);
    UniformSound(kids, 0);
    LocatePage(ls, kids, parts);
    ScalarEdits(ls, parts, raw);
    LandsForms(ls, kids, parts);
    Unblocked(kids, 0, 0, parts);
    PlacingForms(ls, aim);
    if Lands(ls, kids, parts) {
      LastKey(parts);
      if aim.At? {
        StopsAt(ls, kids, parts);
        AimIndent(kids, 0, 0, parts);
        RowReads(ls, aim.line);
        HeadIs(Target(kids, parts).value);
      }
      EditedSkim(ls, aim, last, raw);
      PlacedHeads(kids, 0, 0, parts, raw);
      WroteForms(kids, 0, parts, raw);
      WroteSound(kids, 0, parts, raw);
      var ls' := Edited(ls, Placing(ls, aim), last, raw);
      assert ReadsAs(ls', Placed(kids, 0, parts, raw)) by { NowReads(ls', Placed(kids, 0, parts, raw)); }
      PageMeans(ls', Placed(kids, 0, parts, raw));
    }
  }

  lemma HeadIs(k: Kid)
    ensures HeadOf(k).Pair? && HeadOf(k).indent == k.pad
  {
  }

  lemma LastKey(parts: seq<string>)
    requires parts != [] && SimpleKeys(parts)
    ensures SimpleKey(parts[|parts| - 1])
  {
  }

  lemma NowReads(ls: seq<string>, kids: seq<Kid>)
    requires Skim(ls) == Heads(kids) && forall i | 0 <= i < |ls| :: LineFree(ls[i])
    ensures ReadsAs(ls, kids)
  {
  }

  lemma PlacingForms(ls: seq<string>, spot: Spot)
    requires spot.At? || spot.Under? ==> spot.line < |Skim(ls)|
    ensures Placing(ls, spot) == if spot.At? then At(Row(ls, spot.line), spot.indent, spot.key)
                                 else if spot.Under? then Under(Row(ls, spot.line), spot.indent)
                                 else spot
  {
    hide Row, Skim;
  }

  /** The leaf already prints as this value. */
  predicate Already(v: Option<Val>, value: string, show: Val -> string) {
    v.Some? && !v.value.List? && !v.value.Map? && CliStr(v.value, show) == value
  }

  lemma {:induction false} QuoteThen(s: string, q: char, t: string)
    requires q !in s
    ensures Uncommented(s + ([q] + t), Some(q)) == s + ([q] + Uncommented(t, None))
    decreases |s|
  {
    var r := s + ([q] + t);
    if s == "" {
      assert r[0] == q && r[1..] == t;
    } else {
      assert s[0] in s && r[0] == s[0] && r[1..] == s[1..] + ([q] + t);
      QuoteThen(s[1..], q, t);
    }
  }

  lemma QuotedTame(s: string, q: char)
    requires (q == '"' || q == '\'') && q !in s && LineFree(s)
    ensures Tame([q] + (s + [q]))
  {
    QuotedRaw(s, q);
    var raw := [q] + (s + [q]);
    hide SoundRaw, Uncommented, LineFree;
    forall t ensures Uncommented(raw + t, None) == raw + Uncommented(t, None) {
      QuotedThen(s, q, t);
    }
  }

  lemma QuotedThen(s: string, q: char, t: string)
    requires (q == '"' || q == '\'') && q !in s
    ensures Uncommented([q] + (s + [q]) + t, None) == [q] + (s + [q]) + Uncommented(t, None)
  {
    hide *;
    var r := [q] + (s + [q]) + t;
    QuoteThen(s, q, t);
    UncommentStep(r, None);
    assert r[0] == q && r[1..] == s + ([q] + t);
    assert [q] + (s + ([q] + Uncommented(t, None))) == [q] + (s + [q]) + Uncommented(t, None);
  }

  lemma BareTame(s: string)
    requires Bare(s)
    ensures Tame(s)
  {
    BareRaw(s);
    hide SoundRaw, Uncommented;
    forall t ensures Uncommented(s + t, None) == s + Uncommented(t, None) {
      forall c | c in s ensures Mild(c) {
        TokenFacts(c);
      }
      MildPrefix(s, t);
    }
  }

  lemma FormatReads(value: string, show: Val -> string)
    requires LineFree(value) && FormatScalar(value).Some?
    ensures var raw := FormatScalar(value).value;
            && Tame(raw) && ParseScalar(raw).Some? && NoKeys(ParseScalar(raw).value)
            && Already(ParseScalar(raw), value, show)
  {
    hide ParseScalar, Uncommented, Tame;
    var raw := FormatScalar(value).value;
    if value == "" {
      QuotedRaw("", '"');
      QuotedTame("", '"');
      assert raw == ['"'] + ("" + ['"']);
    } else if forall c | c in value :: PlainChar(c) {
      assert forall c | c in value :: TokenChar(c);
      BareRaw(value);
      BareTame(value);
    } else {
      var q := if '"' !in value then '"' else '\'';
      QuotedRaw(value, q);
      QuotedTame(value, q);
      assert raw == [q] + (value + [q]);
    }
  }

  /** A printed list or mapping never holds a line break. */
  ghost predicate OneLine(show: Val -> string) { forall v :: LineFree(show(v)) }

  /** A value with a line break never reads back, so the command refuses it. */
  lemma BreakRefused(text: string, parts: seq<string>, value: string, show: Val -> string)
    requires !LineFree(value) && OneLine(show) && Parse(text).Some? && Get(Map(Parse(text).value), parts).Some?
    ensures CliStr(Get(Map(Parse(text).value), parts).value, show) != value
  {
    ParseLegible(text);
    GetLegible(Map(Parse(text).value), parts);
    var v := Get(Map(Parse(text).value), parts).value;
    assert forall c | c in "true" :: !LineBreak(c);
    assert forall c | c in "false" :: !LineBreak(c);
  }

  predicate Writable(value: string) { LineFree(value) && FormatScalar(value).Some? }

  /** The edited page reads the value back at the path. */
  ghost predicate ReadsBack(kids: seq<Kid>, parts: seq<string>, value: string, show: Val -> string)
    requires parts != [] && Sound(kids)
  {
    && Writable(value) && SoundRaw(FormatScalar(value).value)
    && var back := Reads(kids, parts, FormatScalar(value).value);
    && back.Some? && CliStr(back.value, show) == value
  }

  /** The command step by step, over a text that parses. */
  lemma CliSteps(text: string, key: string, value: string, show: Val -> string)
    requires Parse(text).Some?
    ensures var parts := Split(key, '.');
            var r := SetCli(text, key, value, show);
            var raw := FormatScalar(value);
            && (r.Unchanged? <==> Already(Get(Map(Parse(text).value), parts), value, show))
            && (!r.Unchanged? && (raw.None? || SetScalar(text, parts, raw.value).None?) ==> r == Refused)
            && (!r.Unchanged? && raw.Some? && SetScalar(text, parts, raw.value).Some? ==>
                  var edited := SetScalar(text, parts, raw.value).value;
                  var again := Parse(edited);
                  r == if again.Some? && Get(Map(again.value), parts).Some?
                          && CliStr(Get(Map(again.value), parts).value, show) == value
                       then Written(edited) else Refused)
  {
    hide Parse, Get, SetScalar, FormatScalar, CliStr;
  }

  lemma UnwritableRefused(text: string, key: string, value: string, show: Val -> string)
    requires Parse(text).Some? && OneLine(show) && !Writable(value)
    requires !Already(Get(Map(Parse(text).value), Split(key, '.')), value, show)
    ensures SetCli(text, key, value, show) == Refused
  {
    hide Parse, Get, SetScalar, FormatScalar, CliStr, OneLine, LineFree, Already, Split;
    CliSteps(text, key, value, show);
    var parts := Split(key, '.');
    if FormatScalar(value).Some? && SetScalar(text, parts, FormatScalar(value).value).Some? {
      var edited := SetScalar(text, parts, FormatScalar(value).value).value;
      if Parse(edited).Some? && Get(Map(Parse(edited).value), parts).Some? {
        BreakRefused(edited, parts, value, show);
      }
    }
  }

  /** Every path apart from the edited one reads in the text as it did in the tree. */
  ghost predicate OthersKept(kids: seq<Kid>, text: string, parts: seq<string>)
    requires Sound(kids) && Parse(text).Some?
  {
    forall q | Apart(parts, q) :: Get(Map(Parse(text).value), q) == Get(MeaningOf(kids), q)
  }

  /** The command, exactly, on pages with comments, blank lines and flow mappings. It leaves the text alone
      if and only if the leaf already prints as the value. Otherwise it writes if and only if the value can
      be written, the edit lands, and the path then reads back as the value. What it writes is the page
      with one line renewed (its comment kept) or one line added, and every other path reads as before if
      and only if no line that the edit lets out of its block shows. */
  lemma SetCliExact(ls: seq<string>, kids: seq<Kid>, key: string, value: string, show: Val -> string)
    requires ReadsAs(ls, kids) && Uniform(kids, 0) && OneLine(show) && SimpleKeys(Split(key, '.'))
    ensures Sound(kids)
    ensures var parts := Split(key, '.');
            var r := SetCli(Page(ls), key, value, show);
            && (r.Unchanged? <==> Already(Get(MeaningOf(kids), parts), value, show))
            && (r.Written? <==> !r.Unchanged? && Lands(ls, kids, parts) && ReadsBack(kids, parts, value, show))
            && (r.Written? ==>
                  var aim, raw := Aim(kids, 0, 0, parts), FormatScalar(value).value;
                  && (aim.At? || aim.Under?) && aim.line < |Skim(ls)|
                  && r.text == Page(Edited(ls, Placing(ls, aim), parts[|parts| - 1], raw))
                  && Parse(r.text).Some? && Get(Map(Parse(r.text).value), parts).Some?
                  && CliStr(Get(Map(Parse(r.text).value), parts).value, show) == value
                  && (OthersKept(kids, r.text, parts) <==> Harmless(kids, 0, parts, raw)))
  {
    hide *;
    var parts, text := Split(key, '.'), Page(ls);
    UniformSound(kids, 0);
    PageMeans(ls, kids);
    CliSteps(text, key, value, show);
    TreeIs(kids);
    BacksForms(kids, parts, value, show);
    if !Already(Get(MeaningOf(kids), parts), value, show) {
      if !Writable(value) {
        UnwritableRefused(text, key, value, show);
      } else {
        WritableIs(value);
        var raw := FormatScalar(value).value;
        FormatReads(value, show);
        SetScalarMeans(ls, kids, parts, raw);
        if Lands(ls, kids, parts) {
          WroteReads(kids, 0, parts, raw);
          TreeIs(Wrote(kids, 0, parts, raw));
          if SetCli(text, key, value, show).Written? {
            OthersExact(ls, kids, parts, raw, SetCli(text, key, value, show).text);
          }
        }
      }
    }
  }

  lemma OthersExact(ls: seq<string>, kids: seq<Kid>, parts: seq<string>, raw: string, text: string)
    requires parts != [] && Uniform(kids, 0) && Sound(kids) && SoundRaw(raw) && Sound(Wrote(kids, 0, parts, raw))
    requires Parse(text) == Some(Load(Wrote(kids, 0, parts, raw), [])) && Reads(kids, parts, raw).Some?
    ensures OthersKept(kids, text, parts) <==> Harmless(kids, 0, parts, raw)
  {
    hide *;
    TreeIs(Wrote(kids, 0, parts, raw));
    if Harmless(kids, 0, parts, raw) {
      forall q | Apart(parts, q) ensures Get(Map(Parse(text).value), q) == Get(MeaningOf(kids), q) {
        FrameHolds(kids, 0, parts, raw, q);
      }
      KeptAll(kids, text, parts);
    } else {
      var q := FrameBreaks(kids, 0, parts, raw);
      KeptOne(kids, text, parts, q);
    }
  }

  lemma KeptAll(kids: seq<Kid>, text: string, parts: seq<string>)
    requires Sound(kids) && Parse(text).Some?
    requires forall q | Apart(parts, q) :: Get(Map(Parse(text).value), q) == Get(MeaningOf(kids), q)
    ensures OthersKept(kids, text, parts)
  {
  }

  lemma KeptOne(kids: seq<Kid>, text: string, parts: seq<string>, q: seq<string>)
    requires Sound(kids) && Parse(text).Some? && Apart(parts, q)
    ensures OthersKept(kids, text, parts) ==> Get(Map(Parse(text).value), q) == Get(MeaningOf(kids), q)
  {
    hide Parse, MeaningOf, Get, Sound;
  }

  lemma BacksForms(kids: seq<Kid>, parts: seq<string>, value: string, show: Val -> string)
    requires parts != [] && Sound(kids)
    ensures ReadsBack(kids, parts, value, show) <==>
              && Writable(value) && SoundRaw(FormatScalar(value).value)
              && Reads(kids, parts, FormatScalar(value).value).Some?
              && CliStr(Reads(kids, parts, FormatScalar(value).value).value, show) == value
    ensures Writable(value) ==> FormatScalar(value).Some?
  {
    hide Reads, Sound, SoundRaw, CliStr;
  }

  lemma TreeIs(kids: seq<Kid>)
    requires Sound(kids)
    ensures MeaningOf(kids) == Map(Load(kids, []))
  {
  }

  lemma WritableIs(value: string)
    ensures Writable(value) <==> LineFree(value) && FormatScalar(value).Some?
  {
  }

  /** On a settable path the command does what it is for: it writes whenever the value can be written, and
      exactly that leaf changes. */
  lemma SetCliSetsLeaf(ls: seq<string>, kids: seq<Kid>, key: string, value: string, show: Val -> string)
    requires ReadsAs(ls, kids) && Uniform(kids, 0) && OneLine(show) && SimpleKeys(Split(key, '.'))
    requires Settable(kids, Split(key, '.'), true)
    ensures Sound(kids)
    ensures var parts := Split(key, '.');
            var r := SetCli(Page(ls), key, value, show);
            && (r.Written? <==> !Already(Get(MeaningOf(kids), parts), value, show) && Writable(value))
            && (r.Written? ==>
                  && Parse(r.text).Some? && Already(Get(Map(Parse(r.text).value), parts), value, show)
                  && OthersKept(kids, r.text, parts))
  {
    hide *;
    var parts := Split(key, '.');
    SetCliExact(ls, kids, key, value, show);
    BacksForms(kids, parts, value, show);
    if Writable(value) {
      WritableIs(value);
      var raw := FormatScalar(value).value;
      FormatReads(value, show);
      TameSound(raw);
      SettableWrites(kids, 0, 0, parts, raw, true);
      LandsForms(ls, kids, parts);
      AlreadyIs(ParseScalar(raw), value, show);
      SetScalarMeans(ls, kids, parts, raw);
      if Lands(ls, kids, parts) {
        WroteReads(kids, 0, parts, raw);
        TreeIs(Wrote(kids, 0, parts, raw));
      }
    }
  }

  lemma AlreadyIs(v: Option<Val>, value: string, show: Val -> string)
    ensures Already(v, value, show) ==> v.Some? && CliStr(v.value, show) == value
  {
  }
}
