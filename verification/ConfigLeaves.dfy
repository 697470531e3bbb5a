/** Where a path leads in a nested mapping, and the mapping that writing there leaves behind. */
module ConfigLeaves {
  import opened Documents
  import opened ConfigParser
  import opened ConfigReadBack
  import opened ConfigEdit

  /** A nested mapping as a file lays it out: two spaces a level, no key twice in a mapping. */
  predicate Uniform(kids: seq<Kid>, depth: nat)
    decreases kids
  {
    && (forall i | 0 <= i < |kids| :: UniformKid(kids[i], depth))
    && forall i, j | 0 <= i < j < |kids| :: kids[i].key != kids[j].key
  }

  predicate UniformKid(k: Kid, depth: nat)
    decreases k
  {
    && k.pad == 2 * depth && SimpleKey(k.key)
    && match k.tree
       case Leaf(raw) => SoundRaw(raw)
       case Branch(kids) => Uniform(kids, depth + 1)
  }

  lemma UniformRest(kids: seq<Kid>, depth: nat)
    requires kids != [] && Uniform(kids, depth)
    ensures Uniform(kids[1..], depth) && UniformKid(kids[0], depth) && kids[0].pad == 2 * depth
    ensures forall i | 0 <= i < |kids[1..]| :: kids[1..][i].key != kids[0].key
  {
    hide UniformKid;
    assert UniformKid(kids[0], depth) ==> kids[0].pad == 2 * depth by { UniformPad(kids[0], depth); }
    assert forall i | 0 <= i < |kids[1..]| :: kids[1..][i] == kids[i + 1];
  }

  lemma UniformPad(k: Kid, depth: nat)
    ensures UniformKid(k, depth) ==> k.pad == 2 * depth
  {
  }

  lemma {:induction false} UniformSound(kids: seq<Kid>, depth: nat)
    requires Uniform(kids, depth)
    ensures Sound(kids) && Nested(kids, 2 * depth - 1)
    decreases kids, 1
  {
    hide SoundRaw, SimpleKey;
    forall i | 0 <= i < |kids| ensures SoundKid(kids[i]) && NestedKid(kids[i]) && kids[i].pad == 2 * depth {
      KidSound(kids[i], depth);
    }
    hide SoundKid, NestedKid, UniformKid;
  }

  lemma {:induction false} KidSound(k: Kid, depth: nat)
    requires UniformKid(k, depth)
    ensures SoundKid(k) && NestedKid(k) && k.pad == 2 * depth
    decreases k, 0
  {
    hide SoundRaw, SimpleKey;
    if k.tree.Branch? {
      UniformSound(k.tree.kids, depth + 1);
      NestedLoose(k.tree.kids, 2 * depth);
    }
  }

  lemma NestedLoose(kids: seq<Kid>, outer: int)
    requires Nested(kids, outer + 1)
    ensures Nested(kids, outer)
  {
    hide NestedKid;
  }

  // ---------------------------------------------------------------------------- the lines as read

  /** What lies below a key. */
  function Inside(k: Kid): seq<Kid> { if k.tree.Branch? then k.tree.kids else [] }

  function HeadOf(k: Kid): (r: Line)
    ensures r.Pair?
  {
    Pair(k.pad, k.key, if k.tree.Leaf? then k.tree.raw else "")
  }

  /** The key lines of a mapping, as the parser reads them. */
  function Heads(kids: seq<Kid>): seq<Line> {
    if kids == [] then [] else KidHeads(kids[0]) + Heads(kids[1..])
  }

  function KidHeads(k: Kid): (r: seq<Line>)
    ensures |r| >= 1
  {
    [HeadOf(k)] + (if k.tree.Branch? then Heads(k.tree.kids) else [])
  }

  lemma KidShape(k: Kid, more: seq<Line>)
    ensures |KidHeads(k)| == 1 + |Heads(Inside(k))|
    ensures KidHeads(k) + more == [HeadOf(k)] + (Heads(Inside(k)) + more)
  {
    hide HeadOf;
  }

  lemma HeadsSplit(kids: seq<Kid>, more: seq<Line>)
    requires kids != []
    ensures Heads(kids) + more == KidHeads(kids[0]) + (Heads(kids[1..]) + more)
    ensures |Heads(kids)| == |KidHeads(kids[0])| + |Heads(kids[1..])|
  {
    hide KidHeads;
  }

  lemma NoHeads(more: seq<Line>)
    ensures Heads([]) == [] && [] + more == more
  {
  }

  lemma InsideUniform(k: Kid, depth: nat)
    requires UniformKid(k, depth)
    ensures Uniform(Inside(k), depth + 1)
  {
  }

  // ---------------------------------------------------------------------------- where the scan goes

  /** The scan for a path over lines as they were read, the first of them number `at`: the first line
      the path leads to, else the last line its parent leads to. */
  function Scan(lines: seq<Line>, at: nat, path: seq<Step>, parent: Spot, parts: seq<string>): Spot
    requires parts != []
    decreases |lines|
  {
    if lines == [] then parent
    else if !lines[0].Pair? then Scan(lines[1..], at + 1, path, parent, parts)
    else
      var here := Left(path, lines[0].indent) + [Step(lines[0].indent, lines[0].key)];
      if Keys(here) == parts then At(at, lines[0].indent, lines[0].key)
      else
        Scan(lines[1..], at + 1, here,
             if Keys(here) == parts[..|parts| - 1] then Under(at, lines[0].indent) else parent, parts)
  }

  function EndPath(kids: seq<Kid>, path: seq<Step>): seq<Step>
    decreases kids, 1
  {
    if kids == [] then path else EndPath(kids[1..], KidPath(kids[0], path))
  }

  function KidPath(k: Kid, path: seq<Step>): seq<Step>
    decreases k, 0
  {
    var here := Left(path, k.pad) + [Step(k.pad, k.key)];
    if k.tree.Branch? then EndPath(k.tree.kids, here) else here
  }

  lemma KidPathIs(k: Kid, path: seq<Step>)
    ensures KidPath(k, path) == EndPath(Inside(k), Left(path, k.pad) + [Step(k.pad, k.key)])
  {
  }

  lemma {:induction false} LeftAgain(path: seq<Step>, m: nat, n: nat)
    requires n <= m
    ensures Left(Left(path, m), n) == Left(path, n)
    decreases |path|
  {
    if path != [] && path[|path| - 1].indent >= m {
      LeftAgain(path[..|path| - 1], m, n);
    }
  }

  lemma LeftOne(path: seq<Step>, s: Step, m: nat)
    ensures m <= s.indent ==> Left(path + [s], m) == Left(path, m)
    ensures m > s.indent ==> Left(path + [s], m) == path + [s]
  {
    assert (path + [s])[..|path|] == path;
  }

  lemma {:induction false} EndLeft(kids: seq<Kid>, path: seq<Step>, depth: nat)
    requires Uniform(kids, depth)
    ensures Left(EndPath(kids, path), 2 * depth) == Left(path, 2 * depth)
    decreases kids, 1
  {
    hide UniformKid, KidPath;
    if kids != [] {
      UniformRest(kids, depth);
      KidLeft(kids[0], path, depth);
      EndLeft(kids[1..], KidPath(kids[0], path), depth);
    }
  }

  lemma {:induction false} KidLeft(k: Kid, path: seq<Step>, depth: nat)
    requires UniformKid(k, depth)
    ensures Left(KidPath(k, path), 2 * depth) == Left(path, 2 * depth)
    decreases k, 0
  {
    hide SoundRaw, SimpleKey, Left;
    var base := Left(path, k.pad);
    var here := base + [Step(k.pad, k.key)];
    LeftOne(base, Step(k.pad, k.key), 2 * depth);
    LeftOne(base, Step(k.pad, k.key), 2 * depth + 2);
    LeftAgain(path, k.pad, 2 * depth);
    if k.tree.Branch? {
      EndLeft(k.tree.kids, here, depth + 1);
      LeftAgain(KidPath(k, path), 2 * depth + 2, 2 * depth);
    }
  }

  /** A key line of the scan. */
  lemma HeadStep(k: Kid, rest: seq<Line>, at: nat, path: seq<Step>, parent: Spot, parts: seq<string>)
    requires parts != []
    ensures var here := Left(path, k.pad) + [Step(k.pad, k.key)];
            Scan([HeadOf(k)] + rest, at, path, parent, parts) ==
              if Keys(here) == parts then At(at, k.pad, k.key)
              else Scan(rest, at + 1, here, if Keys(here) == parts[..|parts| - 1] then Under(at, k.pad) else parent, parts)
  {
    hide Left, Keys;
    assert ([HeadOf(k)] + rest)[1..] == rest;
  }

  lemma KeysApart(path: seq<Step>, s: Step)
    ensures Keys(path + [s]) == Keys(path) + [s.key]
  {
  }

  /** Keys that no extension of this path can match. */
  predicate Off(path: seq<Step>, indent: nat, key: string, parts: seq<string>) {
    !(Keys(Left(path, indent)) + [key] <= parts)
  }

  ghost predicate AllOff(path: seq<Step>, indent: nat, parts: seq<string>) { forall key :: Off(path, indent, key, parts) }

  lemma {:induction false} SkipKids(kids: seq<Kid>, depth: nat, at: nat, path: seq<Step>, parent: Spot, parts: seq<string>,
                                    more: seq<Line>)
    requires Uniform(kids, depth) && parts != []
    requires forall i | 0 <= i < |kids| :: Off(path, 2 * depth, kids[i].key, parts)
    ensures Scan(Heads(kids) + more, at, path, parent, parts)
              == Scan(more, at + |Heads(kids)|, EndPath(kids, path), parent, parts)
    decreases kids, 1
  {
    hide UniformKid, KidPath, Scan, Off, Heads, KidHeads;
    if kids == [] {
      NoHeads(more);
    } else {
      UniformRest(kids, depth);
      var rest := Heads(kids[1..]) + more;
      HeadsSplit(kids, more);
      SkipKid(kids[0], depth, at, path, parent, parts, rest);
      KidLeft(kids[0], path, depth);
      OffSame(path, KidPath(kids[0], path), depth, parts);
      SkipKids(kids[1..], depth, at + |KidHeads(kids[0])|, KidPath(kids[0], path), parent, parts, more);
    }
  }

  lemma OffSame(path: seq<Step>, other: seq<Step>, depth: nat, parts: seq<string>)
    requires Left(path, 2 * depth) == Left(other, 2 * depth)
    ensures forall key :: Off(path, 2 * depth, key, parts) <==> Off(other, 2 * depth, key, parts)
  {
  }

  lemma HereOff(k: Kid, depth: nat, path: seq<Step>, parts: seq<string>)
    requires k.pad == 2 * depth && parts != [] && Off(path, 2 * depth, k.key, parts)
    ensures var here := Left(path, k.pad) + [Step(k.pad, k.key)];
            && Keys(here) != parts && Keys(here) != parts[..|parts| - 1]
            && AllOff(here, 2 * (depth + 1), parts)
  {
    hide Left, Keys;
    var base, step := Left(path, k.pad), Step(k.pad, k.key);
    KeysApart(base, step);
    NotParent(Keys(base + [step]), parts);
    LeftOne(base, step, 2 * depth + 2);
    OffBelow(base + [step], 2 * depth + 2, parts);
  }

  lemma {:induction false} SkipKid(k: Kid, depth: nat, at: nat, path: seq<Step>, parent: Spot, parts: seq<string>, more: seq<Line>)
    requires UniformKid(k, depth) && parts != [] && Off(path, 2 * depth, k.key, parts)
    ensures Scan(KidHeads(k) + more, at, path, parent, parts)
              == Scan(more, at + |KidHeads(k)|, KidPath(k, path), parent, parts)
    decreases k, 0
  {
    hide *;
    UniformPad(k, depth);
    var here := Left(path, k.pad) + [Step(k.pad, k.key)];
    KidShape(k, more);
    HeadStep(k, Heads(Inside(k)) + more, at, path, parent, parts);
    HereOff(k, depth, path, parts);
    KidPathIs(k, path);
    InsideUniform(k, depth);
    if k.tree.Branch? {
      InsideKids(k);
      SpreadOff(here, depth + 1, k.tree.kids, parts);
      SkipKids(k.tree.kids, depth + 1, at + 1, here, parent, parts, more);
    } else {
      NoInside(k, here, more);
    }
  }

  lemma InsideKids(k: Kid)
    requires k.tree.Branch?
    ensures Inside(k) == k.tree.kids
  {
  }

  lemma NoInside(k: Kid, path: seq<Step>, more: seq<Line>)
    requires k.tree.Leaf?
    ensures Inside(k) == [] && Heads(Inside(k)) == [] && [] + more == more && EndPath(Inside(k), path) == path
  {
  }

  lemma SpreadOff(here: seq<Step>, depth: nat, kids: seq<Kid>, parts: seq<string>)
    requires AllOff(here, 2 * depth, parts)
    ensures forall i | 0 <= i < |kids| :: Off(here, 2 * depth, kids[i].key, parts)
  {
    hide Off;
  }

  lemma NotParent(ks: seq<string>, parts: seq<string>)
    requires !(ks <= parts) && parts != []
    ensures ks != parts && ks != parts[..|parts| - 1]
  {
  }

  lemma OffBelow(here: seq<Step>, indent: nat, parts: seq<string>)
    requires Left(here, indent) == here && !(Keys(here) <= parts)
    ensures AllOff(here, indent, parts)
  {
    forall key ensures Off(here, indent, key, parts) {
      if Keys(here) + [key] <= parts {
        PrefixDown(Keys(here), key, parts);
      }
    }
  }

  lemma PrefixDown(ks: seq<string>, key: string, parts: seq<string>)
    requires ks + [key] <= parts
    ensures ks <= parts
  {
    assert ks == (ks + [key])[..|ks|] == parts[..|ks|];
  }

  // ------------------------------------------------------------------------ where the path leads

  /** Where a path leads in the mapping whose first key line is number `at`. */
  function Aim(kids: seq<Kid>, at: nat, depth: nat, rest: seq<string>): (spot: Spot)
    requires rest != []
    ensures !spot.Blocked?
    decreases kids
  {
    if kids == [] then Nowhere
    else if kids[0].key != rest[0] then Aim(kids[1..], at + |KidHeads(kids[0])|, depth, rest)
    else if |rest| == 1 then At(at, 2 * depth, kids[0].key)
    else
      var inner := if kids[0].tree.Branch? then Aim(kids[0].tree.kids, at + 1, depth + 1, rest[1..]) else Nowhere;
      if inner == Nowhere && |rest| == 2 then Under(at, 2 * depth) else inner
  }

  /** Where a path that starts with this kid's key leads. */
  function KidAim(k: Kid, at: nat, depth: nat, rest: seq<string>): (spot: Spot)
    requires rest != []
    ensures !spot.Blocked?
  {
    if |rest| == 1 then At(at, 2 * depth, k.key)
    else
      var inner := Aim(Inside(k), at + 1, depth + 1, rest[1..]);
      if inner == Nowhere && |rest| == 2 then Under(at, 2 * depth) else inner
  }

  lemma AimStep(kids: seq<Kid>, at: nat, depth: nat, rest: seq<string>)
    requires kids != [] && rest != []
    ensures Aim(kids, at, depth, rest) ==
              if kids[0].key != rest[0] then Aim(kids[1..], at + |KidHeads(kids[0])|, depth, rest)
              else KidAim(kids[0], at, depth, rest)
  {
    hide KidHeads;
  }

  lemma NoAim(at: nat, depth: nat, rest: seq<string>)
    requires rest != []
    ensures Aim([], at, depth, rest) == Nowhere
  {
  }

  /** The answer of a scan that goes on after the lines with this aim. */
  function Onward(aim: Spot, more: seq<Line>, at: nat, path: seq<Step>, parent: Spot, parts: seq<string>): Spot
    requires parts != []
  {
    if aim.At? then aim else Scan(more, at, path, if aim.Under? then aim else parent, parts)
  }

  /** The scan finds what the tree says. */
  lemma {:induction false} ScanAims(kids: seq<Kid>, depth: nat, at: nat, path: seq<Step>, parent: Spot, parts: seq<string>,
                                    more: seq<Line>)
    requires Uniform(kids, depth) && depth < |parts| && Keys(Left(path, 2 * depth)) == parts[..depth]
    ensures Scan(Heads(kids) + more, at, path, parent, parts)
              == Onward(Aim(kids, at, depth, parts[depth..]), more, at + |Heads(kids)|, EndPath(kids, path), parent, parts)
    decreases kids
  {
    hide *;
    if kids == [] {
      NoAim(at, depth, parts[depth..]);
      NoHeads(more);
      NoPath(path);
      Plainly(Nowhere, more, at, path, parent, parts);
    } else {
      var k := kids[0];
      var tail := Heads(kids[1..]) + more;
      UniformRest(kids, depth);
      KidLeft(k, path, depth);
      HeadsSplit(kids, more);
      AimStep(kids, at, depth, parts[depth..]);
      PathStep(kids, path);
      if k.key != parts[depth] {
        OtherKey(path, depth, k.key, parts);
        SkipKid(k, depth, at, path, parent, parts, tail);
        ScanAims(kids[1..], depth, at + |KidHeads(k)|, KidPath(k, path), parent, parts, more);
      } else {
        KidAims(k, depth, at, path, parent, parts, tail);
        RestOff(kids, depth, KidPath(k, path), parts);
        SkipRest(kids[1..], depth, at + |KidHeads(k)|, KidPath(k, path), KidAim(k, at, depth, parts[depth..]), parent, parts, more);
      }
    }
  }

  lemma NoPath(path: seq<Step>)
    ensures EndPath([], path) == path
  {
  }

  lemma PathStep(kids: seq<Kid>, path: seq<Step>)
    requires kids != []
    ensures EndPath(kids, path) == EndPath(kids[1..], KidPath(kids[0], path))
  {
  }

  lemma Plainly(aim: Spot, more: seq<Line>, at: nat, path: seq<Step>, parent: Spot, parts: seq<string>)
    requires parts != []
    ensures Onward(aim, more, at, path, parent, parts) ==
              if aim.At? then aim else Scan(more, at, path, if aim.Under? then aim else parent, parts)
  {
  }

  lemma OtherKey(path: seq<Step>, depth: nat, key: string, parts: seq<string>)
    requires depth < |parts| && Keys(Left(path, 2 * depth)) == parts[..depth] && key != parts[depth]
    ensures Off(path, 2 * depth, key, parts)
  {
    hide Left, Keys;
    var ks := parts[..depth] + [key];
    assert ks[depth] == key;
  }

  lemma RestOff(kids: seq<Kid>, depth: nat, path: seq<Step>, parts: seq<string>)
    requires kids != [] && Uniform(kids, depth) && depth < |parts| && kids[0].key == parts[depth]
    requires Keys(Left(path, 2 * depth)) == parts[..depth]
    ensures forall i | 0 <= i < |kids[1..]| :: Off(path, 2 * depth, kids[1..][i].key, parts)
  {
    UniformRest(kids, depth);
    hide Uniform, Off, Keys, Left;
    forall i | 0 <= i < |kids[1..]| ensures Off(path, 2 * depth, kids[1..][i].key, parts) {
      OtherKey(path, depth, kids[1..][i].key, parts);
    }
  }

  lemma SkipRest(kids: seq<Kid>, depth: nat, at: nat, path: seq<Step>, aim: Spot, parent: Spot, parts: seq<string>,
                 more: seq<Line>)
    requires Uniform(kids, depth) && parts != []
    requires forall i | 0 <= i < |kids| :: Off(path, 2 * depth, kids[i].key, parts)
    ensures Onward(aim, Heads(kids) + more, at, path, parent, parts)
              == Onward(aim, more, at + |Heads(kids)|, EndPath(kids, path), parent, parts)
  {
    hide Uniform, Off, Heads, EndPath, Scan;
    SkipKids(kids, depth, at, path, if aim.Under? then aim else parent, parts, more);
  }

  lemma {:induction false} KidAims(k: Kid, depth: nat, at: nat, path: seq<Step>, parent: Spot, parts: seq<string>, more: seq<Line>)
    requires UniformKid(k, depth) && depth < |parts| && k.key == parts[depth]
    requires Keys(Left(path, 2 * depth)) == parts[..depth]
    ensures Scan(KidHeads(k) + more, at, path, parent, parts)
              == Onward(KidAim(k, at, depth, parts[depth..]), more, at + |KidHeads(k)|, KidPath(k, path), parent, parts)
    decreases k
  {
    hide *;
    var here := Left(path, k.pad) + [Step(k.pad, k.key)];
    var best := if depth + 2 == |parts| then Under(at, k.pad) else parent;
    UniformPad(k, depth);
    KidShape(k, more);
    HeadStep(k, Heads(Inside(k)) + more, at, path, parent, parts);
    HereKeys(k, depth, path, parts);
    KidAimIs(k, at, depth, parts);
    Plainly(KidAim(k, at, depth, parts[depth..]), more, at + |KidHeads(k)|, KidPath(k, path), parent, parts);
    if depth + 1 < |parts| {
      InsideUniform(k, depth);
      KidPathIs(k, path);
      var inner := Aim(Inside(k), at + 1, depth + 1, parts[depth + 1..]);
      assert Scan(Heads(Inside(k)) + more, at + 1, here, best, parts)
               == Onward(inner, more, at + |KidHeads(k)|, KidPath(k, path), best, parts) by {
        if k.tree.Branch? {
          InsideKids(k);
          ScanAims(k.tree.kids, depth + 1, at + 1, here, best, parts, more);
        } else {
          NoInside(k, here, more);
          NoAim(at + 1, depth + 1, parts[depth + 1..]);
          Plainly(inner, more, at + 1, here, best, parts);
        }
      }
      Plainly(inner, more, at + |KidHeads(k)|, KidPath(k, path), best, parts);
      Unblocked(Inside(k), at + 1, depth + 1, parts[depth + 1..]);
    }
  }

  lemma Unblocked(kids: seq<Kid>, at: nat, depth: nat, rest: seq<string>)
    requires rest != []
    ensures !Aim(kids, at, depth, rest).Blocked?
  {
  }

  lemma KidAimIs(k: Kid, at: nat, depth: nat, parts: seq<string>)
    requires depth < |parts|
    ensures KidAim(k, at, depth, parts[depth..]) ==
              if depth + 1 == |parts| then At(at, 2 * depth, k.key)
              else
                var inner := Aim(Inside(k), at + 1, depth + 1, parts[depth + 1..]);
                if inner == Nowhere && depth + 2 == |parts| then Under(at, 2 * depth) else inner
  {
    hide Aim, Inside;
    assert parts[depth..][1..] == parts[depth + 1..];
  }

  lemma HereKeys(k: Kid, depth: nat, path: seq<Step>, parts: seq<string>)
    requires depth < |parts| && k.pad == 2 * depth && k.key == parts[depth] && Keys(Left(path, 2 * depth)) == parts[..depth]
    ensures var here := Left(path, k.pad) + [Step(k.pad, k.key)];
            && Keys(here) == parts[..depth + 1] && Left(here, 2 * (depth + 1)) == here
            && (Keys(here) == parts <==> depth + 1 == |parts|)
            && (Keys(here) == parts[..|parts| - 1] <==> depth + 2 == |parts|)
  {
    hide Left, Keys;
    KeysApart(Left(path, k.pad), Step(k.pad, k.key));
    LeftOne(Left(path, k.pad), Step(k.pad, k.key), 2 * (depth + 1));
    assert parts[..depth] + [parts[depth]] == parts[..depth + 1];
    assert |parts[..depth + 1]| == depth + 1;
  }

  /** The kid that stands at the end of a path. */
  function Target(kids: seq<Kid>, rest: seq<string>): Option<Kid>
    requires rest != []
    decreases kids
  {
    if kids == [] then None
    else if kids[0].key != rest[0] then Target(kids[1..], rest)
    else if |rest| == 1 then Some(kids[0])
    else if kids[0].tree.Branch? then Target(kids[0].tree.kids, rest[1..])
    else None
  }

  /** The first of these lines, if any, is a key line no deeper than this. */
  predicate Shallow(lines: seq<Line>, indent: nat) { lines != [] ==> lines[0].Pair? && lines[0].indent <= indent }

  lemma KidsShallow(kids: seq<Kid>, depth: nat, more: seq<Line>)
    requires Uniform(kids, depth) && Shallow(more, 2 * depth)
    ensures Shallow(Heads(kids) + more, 2 * depth)
    ensures kids != [] ==> Heads(kids) + more != [] && (Heads(kids) + more)[0] == Pair(2 * depth, kids[0].key, HeadOf(kids[0]).value)
  {
    hide UniformKid;
    if kids == [] {
      NoHeads(more);
    } else {
      UniformRest(kids, depth);
      HeadsSplit(kids, more);
      KidShape(kids[0], Heads(kids[1..]) + more);
    }
  }

  /** A deeper line follows this one. */
  predicate Deeper(lines: seq<Line>, j: nat)
    requires j < |lines| && lines[j].Pair?
  {
    j + 1 < |lines| && lines[j + 1].Pair? && lines[j + 1].indent > lines[j].indent
  }

  /** A path leads to a line exactly when some kid stands there; that line is the kid's, and a deeper one
      follows it exactly when the kid has kids of its own. */
  lemma {:induction false} AimedLine(kids: seq<Kid>, at: nat, depth: nat, rest: seq<string>, more: seq<Line>)
    requires rest != [] && Uniform(kids, depth) && Shallow(more, 2 * depth)
    ensures Aim(kids, at, depth, rest).At? <==> Target(kids, rest).Some?
    ensures var a := Aim(kids, at, depth, rest);
            a.At? ==>
              && at <= a.line < at + |Heads(kids)|
              && var lines := Heads(kids) + more;
              && lines[a.line - at] == HeadOf(Target(kids, rest).value)
              && (Deeper(lines, a.line - at) <==> Inside(Target(kids, rest).value) != [])
    decreases kids
  {
    hide *;
    AimTarget(kids, at, depth, rest);
    if kids != [] {
      var k := kids[0];
      var tail := Heads(kids[1..]) + more;
      UniformRest(kids, depth);
      HeadsSplit(kids, more);
      KidsShallow(kids[1..], depth, more);
      KidShape(k, tail);
      if k.key != rest[0] {
        AimedLine(kids[1..], at + |KidHeads(k)|, depth, rest, more);
        if Aim(kids, at, depth, rest).At? {
          Onwards(KidHeads(k), tail, Aim(kids, at, depth, rest).line - at);
        }
      } else if |rest| == 1 {
        AimedHere(k, depth, tail);
      } else if k.tree.Branch? {
        InsideKids(k);
        InsideUniform(k, depth);
        LooserShallow(tail, depth);
        AimedLine(k.tree.kids, at + 1, depth + 1, rest[1..], tail);
        if Aim(kids, at, depth, rest).At? {
          Onwards([HeadOf(k)], Heads(k.tree.kids) + tail, Aim(kids, at, depth, rest).line - at);
        }
      }
    }
  }

  lemma AimTarget(kids: seq<Kid>, at: nat, depth: nat, rest: seq<string>)
    requires rest != []
    ensures kids == [] ==> Aim(kids, at, depth, rest) == Nowhere && Target(kids, rest) == None
    ensures kids != [] ==>
              var k := kids[0];
              && Target(kids, rest) == (if k.key != rest[0] then Target(kids[1..], rest)
                                        else if |rest| == 1 then Some(k)
                                        else if k.tree.Branch? then Target(k.tree.kids, rest[1..]) else None)
              && Aim(kids, at, depth, rest) ==
                   (if k.key != rest[0] then Aim(kids[1..], at + |KidHeads(k)|, depth, rest)
                    else if |rest| == 1 then At(at, 2 * depth, k.key)
                    else
                      var inner := if k.tree.Branch? then Aim(k.tree.kids, at + 1, depth + 1, rest[1..]) else Nowhere;
                      if inner == Nowhere && |rest| == 2 then Under(at, 2 * depth) else inner)
  {
    hide KidHeads;
  }

  lemma LooserShallow(lines: seq<Line>, depth: nat)
    requires Shallow(lines, 2 * depth)
    ensures Shallow(lines, 2 * (depth + 1))
  {
  }

  lemma Onwards(a: seq<Line>, b: seq<Line>, j: nat)
    requires |a| <= j < |a| + |b|
    ensures (a + b)[j] == b[j - |a|] && ((a + b)[j].Pair? ==> (Deeper(a + b, j) <==> Deeper(b, j - |a|)))
  {
  }

  lemma AimedHere(k: Kid, depth: nat, tail: seq<Line>)
    requires UniformKid(k, depth) && Shallow(tail, 2 * depth)
    ensures var lines := KidHeads(k) + tail;
            lines[0] == HeadOf(k) && (Deeper(lines, 0) <==> Inside(k) != [])
  {
    hide *;
    UniformPad(k, depth);
    InsideUniform(k, depth);
    KidShape(k, tail);
    LooserShallow(tail, depth);
    KidsShallow(Inside(k), depth + 1, tail);
    if Inside(k) == [] {
      NoHeads(tail);
    }
    HereDeeper(HeadOf(k), Heads(Inside(k)) + tail, k, depth, tail);
  }

  lemma HereDeeper(head: Line, lines: seq<Line>, k: Kid, depth: nat, tail: seq<Line>)
    requires head == HeadOf(k) && k.pad == 2 * depth && Shallow(tail, 2 * depth)
    requires Inside(k) == [] ==> lines == tail
    requires Inside(k) != [] ==> lines != [] && lines[0].Pair? && lines[0].indent == 2 * (depth + 1)
    ensures Deeper([head] + lines, 0) <==> Inside(k) != []
  {
  }

  // --------------------------------------------------------------------------- the edited tree

  /** The lines with the edit at a spot made; the first line is number `at`. */
  function Amend(lines: seq<Line>, spot: Spot, at: nat, key: string, value: string): seq<Line>
    requires (spot.At? || spot.Under?) && at <= spot.line < at + |lines|
  {
    var i := spot.line - at;
    if spot.At? then lines[i := Pair(spot.indent, spot.key, value)]
    else lines[..i + 1] + [Pair(spot.indent + 2, key, value)] + lines[i + 1..]
  }

  /** The tree after writing the scalar text `raw` at a path. */
  function Placed(kids: seq<Kid>, depth: nat, rest: seq<string>, raw: string): seq<Kid>
    requires rest != []
    decreases kids, 0
  {
    if kids == [] then []
    else if kids[0].key != rest[0] then [kids[0]] + Placed(kids[1..], depth, rest, raw)
    else [Kept(kids[0], depth, rest, raw)] + Strays(kids[0], depth, rest, raw) + kids[1..]
  }

  /** The tree after writing in a block, where a missing leaf comes first. */
  function Wrote(kids: seq<Kid>, depth: nat, rest: seq<string>, raw: string): seq<Kid>
    requires rest != []
    decreases kids, 1
  {
    if |rest| == 1 && Aim(kids, 0, depth, rest) == Nowhere then [Kid(2 * depth, rest[0], Leaf(raw))] + kids
    else Placed(kids, depth, rest, raw)
  }

  /** The kid that the path starts with, after the edit. */
  function Kept(k: Kid, depth: nat, rest: seq<string>, raw: string): (r: Kid)
    requires rest != []
    ensures r.key == k.key && r.pad == k.pad
    decreases k, 2
  {
    if |rest| == 1 then k.(tree := Leaf(raw))
    else
      match k.tree
      case Leaf(_) => k
      case Branch(kids) => k.(tree := Branch(Wrote(kids, depth + 1, rest[1..], raw)))
  }

  /** What the edit makes siblings of that kid although it stands further in: the kids of a block whose key
      line got a value, or a line put below a key that has a value. */
  function Strays(k: Kid, depth: nat, rest: seq<string>, raw: string): seq<Kid>
    requires rest != []
  {
    if |rest| == 1 then Inside(k)
    else if k.tree.Leaf? && |rest| == 2 then [Kid(2 * depth + 2, rest[1], Leaf(raw))]
    else []
  }

  lemma PlacedStep(kids: seq<Kid>, depth: nat, rest: seq<string>, raw: string)
    requires kids != [] && rest != []
    ensures Placed(kids, depth, rest, raw) ==
              if kids[0].key != rest[0] then [kids[0]] + Placed(kids[1..], depth, rest, raw)
              else [Kept(kids[0], depth, rest, raw)] + Strays(kids[0], depth, rest, raw) + kids[1..]
  {
  }

  lemma AmendLater(head: seq<Line>, tail: seq<Line>, spot: Spot, at: nat, key: string, value: string)
    requires (spot.At? || spot.Under?) && at + |head| <= spot.line < at + |head| + |tail|
    ensures Amend(head + tail, spot, at, key, value) == head + Amend(tail, spot, at + |head|, key, value)
  {
  }

  lemma AmendFirst(head: seq<Line>, tail: seq<Line>, spot: Spot, at: nat, key: string, value: string)
    requires (spot.At? || spot.Under?) && at <= spot.line < at + |head|
    ensures Amend(head + tail, spot, at, key, value) == Amend(head, spot, at, key, value) + tail
  {
    var i := spot.line - at;
    assert (head + tail)[..i + 1] == head[..i + 1] && (head + tail)[i + 1..] == head[i + 1..] + tail;
  }

  /** An aim lies among the lines of its tree. */
  lemma {:induction false} AimInside(kids: seq<Kid>, at: nat, depth: nat, rest: seq<string>)
    requires rest != []
    ensures var a := Aim(kids, at, depth, rest); a.At? || a.Under? ==> at <= a.line < at + |Heads(kids)|
    decreases kids
  {
    if kids != [] {
      HeadsSplit(kids, []);
      if kids[0].key != rest[0] {
        AimInside(kids[1..], at + |KidHeads(kids[0])|, depth, rest);
      } else if |rest| > 1 && kids[0].tree.Branch? {
        AimInside(kids[0].tree.kids, at + 1, depth + 1, rest[1..]);
      }
    }
  }

  /** Whether a path leads anywhere does not depend on where the lines are counted from. */
  lemma {:induction false} AimNowhere(kids: seq<Kid>, at: nat, other: nat, depth: nat, rest: seq<string>)
    requires rest != []
    ensures Aim(kids, at, depth, rest) == Nowhere <==> Aim(kids, other, depth, rest) == Nowhere
    decreases kids
  {
    hide KidHeads;
    if kids != [] {
      if kids[0].key != rest[0] {
        AimNowhere(kids[1..], at + |KidHeads(kids[0])|, other + |KidHeads(kids[0])|, depth, rest);
      } else if |rest| > 1 && kids[0].tree.Branch? {
        AimNowhere(kids[0].tree.kids, at + 1, other + 1, depth + 1, rest[1..]);
      }
    }
  }

  lemma {:induction false} HeadsApart(a: seq<Kid>, b: seq<Kid>)
    ensures Heads(a + b) == Heads(a) + Heads(b)
    decreases |a|
  {
    hide KidHeads;
    if a == [] {
      assert a + b == b;
    } else {
      assert (a + b)[0] == a[0] && (a + b)[1..] == a[1..] + b;
      HeadsApart(a[1..], b);
    }
  }

  lemma HeadsOne(k: Kid)
    ensures Heads([k]) == KidHeads(k)
  {
    assert KidHeads(k) + [] == KidHeads(k);
  }

  /** The edited lines are the lines of the edited tree. */
  lemma {:induction false} PlacedHeads(kids: seq<Kid>, at: nat, depth: nat, rest: seq<string>, raw: string)
    requires rest != [] && Uniform(kids, depth)
    requires Aim(kids, at, depth, rest).At? || Aim(kids, at, depth, rest).Under?
    ensures at <= Aim(kids, at, depth, rest).line < at + |Heads(kids)|
    ensures Amend(Heads(kids), Aim(kids, at, depth, rest), at, rest[|rest| - 1], raw) == Heads(Placed(kids, depth, rest, raw))
    decreases kids
  {
    hide *;
    var a, leaf := Aim(kids, at, depth, rest), rest[|rest| - 1];
    AimInside(kids, at, depth, rest);
    AimTarget(kids, at, depth, rest);
    var k := kids[0];
    UniformRest(kids, depth);
    HeadsSplit(kids, []);
    AimStep(kids, at, depth, rest);
    PlacedStep(kids, depth, rest, raw);
    var head, tail := KidHeads(k), Heads(kids[1..]);
    assert Heads(kids) == head + tail by { assert Heads(kids) + [] == Heads(kids) && tail + [] == tail; }
    if k.key != rest[0] {
      AimInside(kids[1..], at + |head|, depth, rest);
      AmendLater(head, tail, a, at, leaf, raw);
      PlacedHeads(kids[1..], at + |head|, depth, rest, raw);
      HeadsApart([k], Placed(kids[1..], depth, rest, raw));
      HeadsOne(k);
    } else {
      KidPlaced(k, at, depth, rest, raw);
      AmendFirst(head, tail, a, at, leaf, raw);
      HeadsApart([Kept(k, depth, rest, raw)] + Strays(k, depth, rest, raw), kids[1..]);
    }
  }

  lemma {:induction false} KidPlaced(k: Kid, at: nat, depth: nat, rest: seq<string>, raw: string)
    requires rest != [] && UniformKid(k, depth) && k.key == rest[0]
    requires KidAim(k, at, depth, rest).At? || KidAim(k, at, depth, rest).Under?
    ensures at <= KidAim(k, at, depth, rest).line < at + |KidHeads(k)|
    ensures Amend(KidHeads(k), KidAim(k, at, depth, rest), at, rest[|rest| - 1], raw)
              == Heads([Kept(k, depth, rest, raw)] + Strays(k, depth, rest, raw))
    decreases k
  {
    hide *;
    var made, strays := Kept(k, depth, rest, raw), Strays(k, depth, rest, raw);
    var inner := Heads(Inside(k));
    KidShape(k, []);
    assert KidHeads(k) == [HeadOf(k)] + inner by { assert KidHeads(k) + [] == KidHeads(k) && inner + [] == inner; }
    UniformPad(k, depth);
    HeadsApart([made], strays);
    HeadsOne(made);
    KidShape(made, []);
    assert KidHeads(made) == [HeadOf(made)] + Heads(Inside(made)) by {
      assert KidHeads(made) + [] == KidHeads(made) && Heads(Inside(made)) + [] == Heads(Inside(made));
    }
    KidForms(k, at, depth, rest, raw);
    if |rest| == 1 {
      AmendHead(HeadOf(k), inner, at, 2 * depth, k.key, raw);
      NoHeads([]);
    } else if k.tree.Branch? {
      InsideKids(k);
      InsideUniform(k, depth);
      NoHeads([]);
      var aim := Aim(k.tree.kids, at + 1, depth + 1, rest[1..]);
      AimNowhere(k.tree.kids, at + 1, 0, depth + 1, rest[1..]);
      if aim != Nowhere {
        Unblocked(k.tree.kids, at + 1, depth + 1, rest[1..]);
        PlacedHeads(k.tree.kids, at + 1, depth + 1, rest[1..], raw);
        AmendLater([HeadOf(k)], inner, aim, at, rest[|rest| - 1], raw);
      } else {
        AmendUnder(HeadOf(k), inner, at, 2 * depth, rest[1], raw);
        AddedHeads(Kid(2 * depth + 2, rest[1], Leaf(raw)), k.tree.kids);
      }
    } else {
      AmendUnder(HeadOf(k), inner, at, 2 * depth, rest[1], raw);
      AddedHeads(Kid(2 * depth + 2, rest[1], Leaf(raw)), []);
      assert [Kid(2 * depth + 2, rest[1], Leaf(raw))] + [] == strays;
      NoInside(k, [], []);
    }
  }

  /** What the edit makes of a kid, case by case. */
  lemma KidForms(k: Kid, at: nat, depth: nat, rest: seq<string>, raw: string)
    requires rest != [] && (KidAim(k, at, depth, rest).At? || KidAim(k, at, depth, rest).Under?)
    ensures var aim, made, strays := KidAim(k, at, depth, rest), Kept(k, depth, rest, raw), Strays(k, depth, rest, raw);
            if |rest| == 1 then
              && aim == At(at, 2 * depth, k.key) && strays == Inside(k)
              && Inside(made) == [] && HeadOf(made) == Pair(k.pad, k.key, raw)
            else if k.tree.Branch? then
              var inner := Aim(k.tree.kids, at + 1, depth + 1, rest[1..]);
              && strays == [] && HeadOf(made) == HeadOf(k) && rest[1..][|rest| - 2] == rest[|rest| - 1]
              && Inside(made) == Wrote(k.tree.kids, depth + 1, rest[1..], raw)
              && (inner != Nowhere ==> aim == inner)
              && (Aim(k.tree.kids, 0, depth + 1, rest[1..]) != Nowhere ==>
                    Inside(made) == Placed(k.tree.kids, depth + 1, rest[1..], raw))
              && (inner == Nowhere ==> |rest| == 2 && aim == Under(at, 2 * depth))
              && (Aim(k.tree.kids, 0, depth + 1, rest[1..]) == Nowhere && |rest| == 2 ==>
                    Inside(made) == [Kid(2 * depth + 2, rest[1], Leaf(raw))] + k.tree.kids)
            else
              && |rest| == 2 && aim == Under(at, 2 * depth) && made == k
              && strays == [Kid(2 * depth + 2, rest[1], Leaf(raw))]
  {
    hide Aim, Placed;
    if k.tree.Leaf? && |rest| > 1 {
      NoAim(at + 1, depth + 1, rest[1..]);
    }
  }

  lemma AmendHead(head: Line, rest: seq<Line>, at: nat, indent: nat, key: string, value: string)
    ensures Amend([head] + rest, At(at, indent, key), at, key, value) == [Pair(indent, key, value)] + rest
  {
  }

  lemma AmendUnder(head: Line, rest: seq<Line>, at: nat, indent: nat, key: string, value: string)
    ensures Amend([head] + rest, Under(at, indent), at, key, value) == [head] + ([Pair(indent + 2, key, value)] + rest)
  {
    assert ([head] + rest)[..1] == [head] && ([head] + rest)[1..] == rest;
  }

  lemma AddedHeads(added: Kid, kids: seq<Kid>)
    requires added.tree.Leaf?
    ensures Heads([added] + kids) == [Pair(added.pad, added.key, added.tree.raw)] + Heads(kids)
  {
    assert ([added] + kids)[1..] == kids;
  }
}
