/** Pages with comments and blank lines: what they mean, and what rewriting one scalar does to their lines. */
module ConfigPages {
  import opened Documents
  import opened Strings
  import opened ConfigParser
  import opened ConfigPrinter
  import opened ConfigReadBack
  import opened ConfigEdit
  import opened ConfigLeaves

  /** The lines as read, blank and comment lines left out. */
  function Skim(ls: seq<string>): (r: seq<Line>)
    ensures forall i | 0 <= i < |r| :: !r[i].Blank?
  {
    if ls == [] then [] else (if Read(ls[0]).Blank? then [] else [Read(ls[0])]) + Skim(ls[1..])
  }

  /** The page's key lines are those of the tree, whatever stands between and behind them. */
  ghost predicate ReadsAs(ls: seq<string>, kids: seq<Kid>) {
    (forall i | 0 <= i < |ls| :: LineFree(ls[i])) && Skim(ls) == Heads(kids)
  }

  lemma ReadsFree(ls: seq<string>, kids: seq<Kid>)
    requires ReadsAs(ls, kids)
    ensures (forall i | 0 <= i < |ls| :: LineFree(ls[i])) && Skim(ls) == Heads(kids)
  {
  }

  lemma ReadsOf(ls: seq<string>, kids: seq<Kid>)
    requires (forall i | 0 <= i < |ls| :: LineFree(ls[i])) && Skim(ls) == Heads(kids)
    ensures ReadsAs(ls, kids)
  {
  }

  lemma {:induction false} SkimApart(a: seq<string>, b: seq<string>)
    ensures Skim(a + b) == Skim(a) + Skim(b)
    decreases |a|
  {
    hide Read;
    if a == [] {
      assert a + b == b;
    } else {
      assert (a + b)[0] == a[0] && (a + b)[1..] == a[1..] + b;
      SkimApart(a[1..], b);
    }
  }

  lemma SkimOne(l: string)
    ensures Skim([l]) == if Read(l).Blank? then [] else [Read(l)]
  {
    hide Read;
    assert [l][1..] == [];
  }

  // ------------------------------------------------------------------------------ what a page means

  /** Reading only looks at the key lines. */
  lemma {:induction false} SkimFed(st: Stack, a: seq<string>, b: seq<string>)
    requires Skim(a) == Skim(b)
    ensures FeedAll(st, a) == FeedAll(st, b)
    decreases |a| + |b|
  {
    hide Read, ParseScalar, Closed;
    if a != [] && Read(a[0]).Blank? {
      assert Feed(st, a[0]) == Some(st);
      SkimFed(st, a[1..], b);
    } else if b != [] && Read(b[0]).Blank? {
      assert Feed(st, b[0]) == Some(st);
      SkimFed(st, a, b[1..]);
    } else if a != [] && b != [] {
      assert Read(a[0]) == Skim(a)[0] == Skim(b)[0] == Read(b[0]);
      assert Skim(a[1..]) == Skim(a)[1..] && Skim(b[1..]) == Skim(b)[1..];
      assert Feed(st, a[0]) == Feed(st, b[0]);
      if Feed(st, a[0]).Some? {
        SkimFed(Feed(st, a[0]).value, a[1..], b[1..]);
      }
    }
  }

  lemma {:induction false} LinesSkim(kids: seq<Kid>)
    requires Sound(kids)
    ensures Skim(Lines(kids)) == Heads(kids)
    decreases kids, 1
  {
    hide Read, KidHead, KidLines, KidHeads, SoundKid;
    if kids != [] {
      KidSkim(kids[0]);
      LinesSkim(kids[1..]);
      SkimApart(KidLines(kids[0]), Lines(kids[1..]));
    }
  }

  lemma {:induction false} KidSkim(k: Kid)
    requires SoundKid(k)
    ensures Skim(KidLines(k)) == KidHeads(k)
    decreases k, 0
  {
    HeadRead(k);
    hide Read, KidHead, SoundRaw, SimpleKey;
    SkimOne(KidHead(k));
    if k.tree.Branch? {
      LinesSkim(k.tree.kids);
      SkimApart([KidHead(k)], Lines(k.tree.kids));
    } else {
      assert [KidHead(k)] + [] == [KidHead(k)];
    }
  }

  /** What a page means, comments and blank lines included: its tree. */
  lemma PageMeans(ls: seq<string>, kids: seq<Kid>)
    requires ReadsAs(ls, kids) && Sound(kids) && Nested(kids, -1)
    ensures Parse(Page(ls)) == Some(Load(kids, []))
  {
    ParsePage(kids);
    LinesFree(kids);
    LinesSkim(kids);
    hide LineFree, Lines, Heads;
    PageSplits(ls);
    PageSplits(Lines(kids));
    SkimFed(Base([]), ls, Lines(kids));
  }

  // ------------------------------------------------------------------------- reading a broken line

  lemma {:induction false} BreakUncommented(l: string, q: Option<char>)
    ensures Uncommented(l + "\n", q) == if Uncommented(l, q) == l then l + "\n" else Uncommented(l, q)
    decreases |l|
  {
    var t := l + "\n";
    if l == "" {
      assert t == "\n" && t[1..] == "";
    } else {
      assert t[0] == l[0] && t[1..] == l[1..] + "\n" && l == [l[0]] + l[1..];
      var next := if q.Some? then (if l[0] == q.value then None else q)
                  else if l[0] == '"' || l[0] == '\'' then Some(l[0]) else None;
      BreakUncommented(l[1..], next);
    }
  }

  lemma BreakStrips(l: string)
    ensures StripRight(l + "\n") == StripRight(l)
  {
    assert (l + "\n")[..|l|] == l;
  }

  lemma BreakRead(l: string)
    ensures Read(l + "\n") == Read(l)
  {
    BreakUncommented(l, None);
    BreakStrips(l);
    hide Uncommented, StripRight, Strip, Indent, Colon;
  }

  // ----------------------------------------------------------------------- from key lines to lines

  /** The line of the page that holds its j-th key line. */
  function Row(ls: seq<string>, j: nat): (i: nat)
    requires j < |Skim(ls)|
    ensures i < |ls|
  {
    if Read(ls[0]).Blank? then 1 + Row(ls[1..], j)
    else if j == 0 then 0
    else 1 + Row(ls[1..], j - 1)
  }

  lemma {:induction false} RowReads(ls: seq<string>, j: nat)
    requires j < |Skim(ls)|
    ensures var i := Row(ls, j);
            Read(ls[i]) == Skim(ls)[j] && Skim(ls[..i]) == Skim(ls)[..j] && Skim(ls[i + 1..]) == Skim(ls)[j + 1..]
    decreases |ls|
  {
    hide Read;
    var i := Row(ls, j);
    if Read(ls[0]).Blank? {
      RowReads(ls[1..], j);
      assert ls[..i] == [ls[0]] + ls[1..][..i - 1] && ls[i + 1..] == ls[1..][i..];
    } else if j > 0 {
      RowReads(ls[1..], j - 1);
      assert ls[..i] == [ls[0]] + ls[1..][..i - 1] && ls[i + 1..] == ls[1..][i..];
      assert Skim(ls[1..]) == Skim(ls)[1..];
    }
  }

  lemma {:induction false} RowAt(ls: seq<string>, i: nat)
    requires i < |ls| && !Read(ls[i]).Blank?
    ensures |Skim(ls[..i])| < |Skim(ls)| && Row(ls, |Skim(ls[..i])|) == i
    decreases |ls|
  {
    hide Read;
    if i > 0 {
      assert ls[..i] == [ls[0]] + ls[1..][..i - 1];
      SkimOne(ls[0]);
      SkimApart([ls[0]], ls[1..][..i - 1]);
      RowAt(ls[1..], i - 1);
    }
  }

  /** A spot among the key lines, as a spot among the lines. */
  function Placing(ls: seq<string>, spot: Spot): Spot
    requires spot.At? || spot.Under? ==> spot.line < |Skim(ls)|
  {
    match spot
    case At(j, indent, key) => At(Row(ls, j), indent, key)
    case Under(j, indent) => Under(Row(ls, j), indent)
    case _ => spot
  }

  /** The line after this one is blank or a comment, or there is none. */
  predicate Gap(ls: seq<string>, i: nat) { i + 1 >= |ls| || Read(ls[i + 1]).Blank? }

  lemma OpensBelow(ls: seq<string>, i: nat, indent: nat)
    requires i < |ls| && (i + 1 < |ls| ==> !Read(ls[i + 1]).NoColon?)
    ensures Opens(Broken(ls)[i..], indent) <==> !Gap(ls, i) && Read(ls[i + 1]).indent > indent
  {
    if i + 1 < |ls| {
      BreakRead(ls[i + 1]);
      assert Broken(ls)[i..][1] == ls[i + 1] + "\n";
    }
  }

  /** The scan of the lines stops where the scan of the key lines stops, but refuses a key without a value
      when the very next line is one further in. */
  function Stop(ls: seq<string>, spot: Spot): Spot
    requires spot.At? || spot.Under? ==> spot.line < |Skim(ls)|
  {
    if spot.At? && Skim(ls)[spot.line].Pair? && Skim(ls)[spot.line].value == "" &&
       Opens(Broken(ls)[Row(ls, spot.line)..], spot.indent)
    then Blocked else Placing(ls, spot)
  }

  ghost predicate Earlier(spot: Spot, at: nat) { spot.Nowhere? || (spot.Under? && spot.line < at) }

  lemma {:induction false} ScanInside(lines: seq<Line>, at: nat, path: seq<Step>, parent: Spot, parts: seq<string>)
    requires parts != []
    ensures var s := Scan(lines, at, path, parent, parts);
            s == parent || ((s.At? || s.Under?) && at <= s.line < at + |lines|)
    decreases |lines|
  {
    hide Left, Keys;
    if lines != [] {
      if lines[0].Pair? {
        var here := Left(path, lines[0].indent) + [Step(lines[0].indent, lines[0].key)];
        var next := if Keys(here) == parts[..|parts| - 1] then Under(at, lines[0].indent) else parent;
        ScanInside(lines[1..], at + 1, here, next, parts);
      } else {
        ScanInside(lines[1..], at + 1, path, parent, parts);
      }
    }
  }

  lemma LocateStep(ls: seq<string>, i: nat, path: seq<Step>, parent: Spot, parts: seq<string>)
    requires i < |ls| && parts != []
    ensures var line := Read(ls[i]);
            var here := if line.Pair? then Left(path, line.indent) + [Step(line.indent, line.key)] else path;
            Locate(Broken(ls)[i..], i, path, parent, parts) ==
              if line.Pair? && Keys(here) == parts then
                (if line.value == "" && Opens(Broken(ls)[i..], line.indent) then Blocked else At(i, line.indent, line.key))
              else
                Locate(Broken(ls)[i + 1..], i + 1, here,
                       if line.Pair? && Keys(here) == parts[..|parts| - 1] then Under(i, line.indent) else parent, parts)
  {
    BreakRead(ls[i]);
    hide Read, Left, Keys, Opens;
    var lines := Broken(ls)[i..];
    assert lines[0] == ls[i] + "\n" && lines[1..] == Broken(ls)[i + 1..];
  }

  lemma ScanStep(line: Line, rest: seq<Line>, at: nat, path: seq<Step>, parent: Spot, parts: seq<string>)
    requires parts != []
    ensures var here := if line.Pair? then Left(path, line.indent) + [Step(line.indent, line.key)] else path;
            Scan([line] + rest, at, path, parent, parts) ==
              if line.Pair? && Keys(here) == parts then At(at, line.indent, line.key)
              else Scan(rest, at + 1, here,
                        if line.Pair? && Keys(here) == parts[..|parts| - 1] then Under(at, line.indent) else parent, parts)
  {
    hide Left, Keys;
    assert ([line] + rest)[1..] == rest;
  }

  lemma SkimShift(ls: seq<string>, i: nat, at: nat)
    requires i < |ls| && at == |Skim(ls[..i])| <= |Skim(ls)| && Skim(ls[i..]) == Skim(ls)[at..]
    ensures Read(ls[i]).Blank? ==> |Skim(ls[..i + 1])| == at && Skim(ls[i + 1..]) == Skim(ls)[at..]
    ensures !Read(ls[i]).Blank? ==>
              && at < |Skim(ls)| && Row(ls, at) == i && Skim(ls)[at] == Read(ls[i])
              && |Skim(ls[..i + 1])| == at + 1 && Skim(ls[i + 1..]) == Skim(ls)[at + 1..]
              && Skim(ls)[at..] == [Read(ls[i])] + Skim(ls)[at + 1..]
  {
    hide Read, Row;
    assert ls[..i + 1] == ls[..i] + [ls[i]] && ls[i..] == [ls[i]] + ls[i + 1..];
    SkimApart(ls[..i], [ls[i]]);
    SkimOne(ls[i]);
    SkimApart([ls[i]], ls[i + 1..]);
    if Read(ls[i]).Blank? {
      assert Skim(ls)[at..] == [] + Skim(ls[i + 1..]);
    } else {
      RowAt(ls, i);
      assert Skim(ls)[at..] == [Read(ls[i])] + Skim(ls[i + 1..]);
      assert Skim(ls)[at..][1..] == Skim(ls)[at + 1..];
    }
  }

  lemma {:induction false} LocateStops(ls: seq<string>, i: nat, at: nat, path: seq<Step>, parent: Spot, parts: seq<string>)
    requires i <= |ls| && parts != [] && at == |Skim(ls[..i])| <= |Skim(ls)| && Earlier(parent, at)
    requires Skim(ls[i..]) == Skim(ls)[at..]
    ensures var s := Scan(Skim(ls)[at..], at, path, parent, parts);
            && (s.At? || s.Under? ==> s.line < |Skim(ls)|)
            && Locate(Broken(ls)[i..], i, path, Placing(ls, parent), parts) == Stop(ls, s)
    decreases |ls| - i
  {
    ScanInside(Skim(ls)[at..], at, path, parent, parts);
    hide Read, Left, Keys, Opens, Scan, Locate, Skim, Broken, Row;
    if i < |ls| {
      var line := Read(ls[i]);
      LocateStep(ls, i, path, Placing(ls, parent), parts);
      SkimShift(ls, i, at);
      if line.Blank? {
        LocateStops(ls, i + 1, at, path, parent, parts);
      } else {
        var here := if line.Pair? then Left(path, line.indent) + [Step(line.indent, line.key)] else path;
        ScanStep(line, Skim(ls)[at + 1..], at, path, parent, parts);
        if !(line.Pair? && Keys(here) == parts) {
          var next := if line.Pair? && Keys(here) == parts[..|parts| - 1] then Under(at, line.indent) else parent;
          LocateStops(ls, i + 1, at + 1, here, next, parts);
        }
      }
    } else {
      NoMore(ls, i, at, path, parent, parts);
    }
  }

  lemma NoMore(ls: seq<string>, i: nat, at: nat, path: seq<Step>, parent: Spot, parts: seq<string>)
    requires i == |ls| && parts != [] && at <= |Skim(ls)| && Skim(ls[i..]) == Skim(ls)[at..]
    ensures Scan(Skim(ls)[at..], at, path, parent, parts) == parent
    ensures forall spot :: Locate(Broken(ls)[i..], i, path, spot, parts) == spot
  {
    assert Broken(ls)[i..] == [] && ls[i..] == [];
  }

  // ------------------------------------------------------------------------------- the edited lines

  /** The white space and the comment behind what a line says. */
  function Trailing(l: string): string {
    l[|StripRight(Uncommented(l, None))|..]
  }

  /** The line with another scalar; indentation, key, white space and comment are kept. */
  function Renewed(l: string, indent: nat, key: string, value: string): string {
    KidHead(Kid(indent, key, Leaf(value))) + Trailing(l)
  }

  /** The page after the edit at a spot: one line is renewed, or one is added below its parent. */
  function Edited(ls: seq<string>, spot: Spot, key: string, value: string): seq<string>
    requires (spot.At? || spot.Under?) && spot.line < |ls|
  {
    var i := spot.line;
    if spot.At? then ls[i := Renewed(ls[i], spot.indent, spot.key, value)]
    else ls[..i + 1] + [KidHead(Kid(spot.indent + 2, key, Leaf(value)))] + ls[i + 1..]
  }

  /** A scalar text that leaves no quote open: what follows it reads as if it stood alone. */
  ghost predicate Tame(raw: string) {
    SoundRaw(raw) && forall t :: Uncommented(raw + t, None) == raw + Uncommented(t, None)
  }

  predicate AllSpace(s: string) { forall c | c in s :: Space(c) }

  lemma {:induction false} UncommentedRest(l: string, q: Option<char>)
    ensures var u := Uncommented(l, q); |u| < |l| ==> l[|u|] == '#'
    decreases |l|
  {
    if l != "" {
      var next := if q.Some? then (if l[0] == q.value then None else q)
                  else if l[0] == '"' || l[0] == '\'' then Some(l[0]) else None;
      UncommentedRest(l[1..], next);
    }
  }

  lemma {:induction false} StripRightRest(s: string)
    ensures StripRight(s) <= s && AllSpace(s[|StripRight(s)|..])
    decreases |s|
  {
    if s != "" && Space(s[|s| - 1]) {
      StripRightRest(s[..|s| - 1]);
      assert s[|StripRight(s)|..] == s[..|s| - 1][|StripRight(s)|..] + [s[|s| - 1]];
    }
  }

  lemma {:induction false} StripsSpace(s: string, w: string)
    requires s != "" && !Space(s[|s| - 1]) && AllSpace(w)
    ensures StripRight(s + w) == s
    decreases |w|
  {
    if w == "" {
      assert s + w == s;
    } else {
      assert w[|w| - 1] in w && (s + w)[..|s + w| - 1] == s + w[..|w| - 1];
      StripsSpace(s, w[..|w| - 1]);
    }
  }

  lemma SpaceMild(w: string)
    requires AllSpace(w)
    ensures forall c | c in w :: Mild(c)
  {
  }

  /** What trails a line reads as white space. */
  lemma TrailingReads(l: string)
    ensures AllSpace(Uncommented(Trailing(l), None))
  {
    var u := Uncommented(l, None);
    UncommentedRest(l, None);
    StripRightRest(u);
    hide Uncommented, StripRight, Space;
    var w, c := u[|StripRight(u)|..], l[|u|..];
    assert Trailing(l) == w + c;
    SpaceMild(w);
    MildPrefix(w, c);
    UncommentEnd(c, None);
    assert w + "" == w;
  }

  lemma {:induction false} IndentSpaces(line: string)
    ensures line[..Indent(line)] == Spaces(Indent(line))
    decreases |line|
  {
    if line != "" && line[0] == ' ' {
      IndentSpaces(line[1..]);
      assert line[..Indent(line)] == [' '] + line[1..][..Indent(line[1..])];
    }
  }

  lemma ReadIndent(l: string)
    requires Read(l).Pair?
    ensures Read(l).indent <= |l| && l[..Read(l).indent] == Spaces(Read(l).indent)
  {
    var line := StripRight(Uncommented(l, None));
    StripRightRest(Uncommented(l, None));
    IndentSpaces(line);
    hide StripRight, Uncommented, Indent, Spaces;
    assert line <= l;
    assert l[..Indent(line)] == line[..Indent(line)];
  }

  lemma RewrittenIs(l: string, key: string, value: string)
    requires LineFree(l) && Read(l).Pair?
    ensures Rewritten(l + "\n", Read(l).indent, key, value) == Renewed(l, Read(l).indent, key, value) + "\n"
  {
    ReadIndent(l);
    UnbreakFree(l);
    hide Read, LineFree, Unbreak, Spaces, Uncommented, StripRight;
    var n := Read(l).indent;
    assert Rewritten(l + "\n", n, key, value) == Spaces(n) + key + ":" + " " + value + Trailing(l) + "\n";
    Regroup(Spaces(n), key, value, Trailing(l));
  }

  lemma UnbreakFree(l: string)
    requires LineFree(l)
    ensures Unbreak(l + "\n") == l
  {
    assert (l + "\n")[..|l|] == l;
    if l != "" {
      assert l[|l| - 1] in l;
    }
  }

  lemma Regroup(pad: string, key: string, value: string, rest: string)
    ensures pad + key + ":" + " " + value + rest + "\n" == pad + (key + (":" + (" " + value))) + rest + "\n"
  {
  }

  lemma AddedLine(indent: nat, key: string, value: string)
    ensures Inserted(indent, key, value) == KidHead(Kid(indent + 2, key, Leaf(value))) + "\n"
  {
    assert Spaces(indent + 2) + key + ": " + value + "\n"
             == Spaces(indent + 2) + (key + (":" + (" " + value))) + "\n";
  }

  /** Only the comment-free, trimmed text of a line is read. */
  lemma ReadStripped(a: string, b: string)
    requires StripRight(Uncommented(a, None)) == StripRight(Uncommented(b, None))
    ensures Read(a) == Read(b)
  {
    hide StripRight, Uncommented;
  }

  lemma HeadJoin(pad: nat, key: string, raw: string, t: string)
    ensures Spaces(pad) + (key + (": " + (raw + t))) == KidHead(Kid(pad, key, Leaf(raw))) + t
  {
    assert ": " + (raw + t) == (":" + (" " + raw)) + t;
  }

  lemma HeadUncommented(pad: nat, key: string, raw: string, t: string)
    requires SimpleKey(key) && Tame(raw)
    ensures var head := KidHead(Kid(pad, key, Leaf(raw)));
            Uncommented(head + t, None) == head + Uncommented(t, None)
  {
    KeyIsMild(key);
    hide SimpleKey, Uncommented, KidHead, SoundRaw;
    MildPrefix(Spaces(pad), key + (": " + (raw + t)));
    MildPrefix(key, ": " + (raw + t));
    MildPrefix(": ", raw + t);
    HeadJoin(pad, key, raw, t);
    HeadJoin(pad, key, raw, Uncommented(t, None));
  }

  lemma HeadEnds(pad: nat, key: string, raw: string)
    requires SimpleKey(key) && SoundRaw(raw)
    ensures var head := KidHead(Kid(pad, key, Leaf(raw)));
            head != "" && !Space(head[|head| - 1]) && LineFree(head) && Read(head) == Pair(pad, key, raw)
  {
    hide *;
    LeafSound(pad, key, raw);
    HeadRead(Kid(pad, key, Leaf(raw)));
    LeafEnds(pad, key, raw);
  }

  lemma LeafSound(pad: nat, key: string, raw: string)
    requires SimpleKey(key) && SoundRaw(raw)
    ensures SoundKid(Kid(pad, key, Leaf(raw))) && NestedKid(Kid(pad, key, Leaf(raw)))
    ensures raw != "" && !Space(raw[|raw| - 1])
  {
    hide SimpleKey, Space;
  }

  lemma LeafEnds(pad: nat, key: string, raw: string)
    requires raw != ""
    ensures var head := KidHead(Kid(pad, key, Leaf(raw))); head != "" && head[|head| - 1] == raw[|raw| - 1]
  {
    hide Spaces;
    var before := Spaces(pad) + (key + ": ");
    assert KidHead(Kid(pad, key, Leaf(raw))) == before + raw;
  }

  /** A renewed line says the new scalar and keeps everything else of the line. */
  lemma RenewedReads(l: string, indent: nat, key: string, raw: string)
    requires LineFree(l) && SimpleKey(key) && Tame(raw)
    ensures var r := Renewed(l, indent, key, raw);
            Read(r) == Pair(indent, key, raw) && LineFree(r) && Trailing(r) == Trailing(l)
  {
    HeadEnds(indent, key, raw);
    HeadUncommented(indent, key, raw, Trailing(l));
    HeadUncommented(indent, key, raw, "");
    TrailingReads(l);
    hide SimpleKey, SoundRaw, KidHead, Read, Uncommented, StripRight, Space;
    var head, t := KidHead(Kid(indent, key, Leaf(raw))), Trailing(l);
    UncommentEnd("", None);
    assert head + "" == head;
    StripsSpace(head, Uncommented(t, None));
    StripsSpace(head, "");
    ReadStripped(head + t, head);
    assert forall c | c in t :: c in l;
    FreeConcat(head, t);
    assert (head + t)[|head|..] == t;
  }

  lemma {:induction false} PageConcat(ls: seq<string>)
    ensures Concat(Broken(ls)) == Page(ls)
    decreases |ls|
  {
    if ls != [] {
      PageConcat(ls[1..]);
      assert Broken(ls)[0] == ls[0] + "\n" && Broken(ls)[1..] == Broken(ls[1..]);
      assert ls[0] + "\n" + Page(ls[1..]) == Page(ls);
    }
  }

  lemma EditedBroken(ls: seq<string>, spot: Spot, key: string, value: string)
    requires (spot.At? || spot.Under?) && spot.line < |ls| && LineFree(ls[spot.line])
    requires spot.At? ==> Read(ls[spot.line]).Pair? && Read(ls[spot.line]).indent == spot.indent
    ensures spot.At? ==> Broken(ls)[spot.line := Rewritten(Broken(ls)[spot.line], spot.indent, spot.key, value)]
                           == Broken(Edited(ls, spot, key, value))
    ensures spot.Under? ==> Broken(ls)[..spot.line + 1] + [Inserted(spot.indent, key, value)] + Broken(ls)[spot.line + 1..]
                              == Broken(Edited(ls, spot, key, value))
  {
    hide Read, Rewritten, LineFree, Inserted, Renewed, KidHead;
    if spot.At? {
      RewrittenIs(ls[spot.line], spot.key, value);
    } else {
      AddedLine(spot.indent, key, value);
    }
  }

  /** What set_scalar writes to a page, line by line. */
  lemma ScalarEdits(ls: seq<string>, parts: seq<string>, raw: string)
    requires parts != [] && forall i | 0 <= i < |ls| :: LineFree(ls[i])
    ensures var spot := Locate(Broken(ls), 0, [], Nowhere, parts);
            if (spot.At? ==> Read(ls[spot.line]).Pair? && Read(ls[spot.line]).indent == spot.indent) && (spot.At? || spot.Under?)
            then SetScalar(Page(ls), parts, raw) == Some(Page(Edited(ls, spot, parts[|parts| - 1], raw)))
            else spot.Blocked? || spot.Nowhere? ==> SetScalar(Page(ls), parts, raw) == None
  {
    PageSplits(ls);
    hide Read, LineFree, Locate, Rewritten, Inserted, KeepLines, Broken, Page, Concat, Edited;
    var spot := Locate(Broken(ls), 0, [], Nowhere, parts);
    if (spot.At? || spot.Under?) && (spot.At? ==> Read(ls[spot.line]).Pair? && Read(ls[spot.line]).indent == spot.indent) {
      EditedBroken(ls, spot, parts[|parts| - 1], raw);
      PageConcat(Edited(ls, spot, parts[|parts| - 1], raw));
    }
  }

  lemma RenewedSkim(ls: seq<string>, i: nat, j: nat, l: string)
    requires i < |ls| && j < |Skim(ls)| && !Read(l).Blank?
    requires Skim(ls[..i]) == Skim(ls)[..j] && Skim(ls[i + 1..]) == Skim(ls)[j + 1..]
    ensures Skim(ls[i := l]) == Skim(ls)[j := Read(l)]
  {
    hide Read, Skim;
    SpliceSkim(ls[..i], l, ls[i + 1..]);
    assert ls[i := l] == ls[..i] + ([l] + ls[i + 1..]);
    assert Skim(ls)[j := Read(l)] == Skim(ls)[..j] + ([Read(l)] + Skim(ls)[j + 1..]);
  }

  lemma AddedSkim(ls: seq<string>, i: nat, j: nat, l: string)
    requires i < |ls| && j < |Skim(ls)| && !Read(l).Blank? && Read(ls[i]) == Skim(ls)[j]
    requires Skim(ls[..i]) == Skim(ls)[..j] && Skim(ls[i + 1..]) == Skim(ls)[j + 1..]
    ensures Skim(ls[..i + 1] + [l] + ls[i + 1..]) == Skim(ls)[..j + 1] + [Read(l)] + Skim(ls)[j + 1..]
  {
    hide Read, Skim;
    SpliceSkim(ls[..i + 1], l, ls[i + 1..]);
    SpliceSkim(ls[..i], ls[i], []);
    assert ls[..i + 1] == ls[..i] + ([ls[i]] + []);
    assert Skim(ls)[..j + 1] == Skim(ls)[..j] + ([Read(ls[i])] + Skim([]));
    assert ls[..i + 1] + ([l] + ls[i + 1..]) == ls[..i + 1] + [l] + ls[i + 1..];
  }

  /** The edited page reads as the edited key lines. */
  lemma EditedSkim(ls: seq<string>, spot: Spot, key: string, raw: string)
    requires (spot.At? || spot.Under?) && spot.line < |Skim(ls)|
    requires (forall i | 0 <= i < |ls| :: LineFree(ls[i])) && Tame(raw) && SimpleKey(key)
    requires spot.At? ==> SimpleKey(spot.key)
    ensures var r := Edited(ls, Placing(ls, spot), key, raw);
            && Skim(r) == Amend(Skim(ls), spot, 0, key, raw)
            && forall i | 0 <= i < |r| :: LineFree(r[i])
  {
    hide *;
    var i := Row(ls, spot.line);
    RowReads(ls, spot.line);
    EditedForm(ls, spot, key, raw);
    if spot.At? {
      RenewedReads(ls[i], spot.indent, spot.key, raw);
      RenewedSkim(ls, i, spot.line, Renewed(ls[i], spot.indent, spot.key, raw));
    } else {
      var l := KidHead(Kid(spot.indent + 2, key, Leaf(raw)));
      TameSound(raw);
      HeadEnds(spot.indent + 2, key, raw);
      AddedSkim(ls, i, spot.line, l);
    }
  }

  lemma EditedForm(ls: seq<string>, spot: Spot, key: string, raw: string)
    requires (spot.At? || spot.Under?) && spot.line < |Skim(ls)|
    ensures var i := Row(ls, spot.line);
            && Edited(ls, Placing(ls, spot), key, raw) ==
                 (if spot.At? then ls[i := Renewed(ls[i], spot.indent, spot.key, raw)]
                  else ls[..i + 1] + [KidHead(Kid(spot.indent + 2, key, Leaf(raw)))] + ls[i + 1..])
            && Amend(Skim(ls), spot, 0, key, raw) ==
                 (if spot.At? then Skim(ls)[spot.line := Pair(spot.indent, spot.key, raw)]
                  else Skim(ls)[..spot.line + 1] + [Pair(spot.indent + 2, key, raw)] + Skim(ls)[spot.line + 1..])
  {
    hide Skim, Row, Renewed, KidHead;
  }

  lemma TameSound(raw: string)
    requires Tame(raw)
    ensures SoundRaw(raw)
  {
  }

  lemma SpliceSkim(a: seq<string>, l: string, b: seq<string>)
    requires !Read(l).Blank?
    ensures Skim(a + ([l] + b)) == Skim(a) + ([Read(l)] + Skim(b)) && Skim([]) == []
  {
    hide Read;
    SkimApart(a, [l] + b);
    SkimApart([l], b);
    SkimOne(l);
  }
}
