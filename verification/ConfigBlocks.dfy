/** Replacing one top-level block of a page is a one-key update of what the page means. */
module ConfigBlocks {
  // The page may hold comments and blank lines; all of it outside the block is kept line by line.

  import opened Documents
  import opened Strings
  import opened ConfigParser
  import opened ConfigPrinter
  import opened ConfigReadBack
  import opened ConfigRoundTrip
  import opened ConfigLeaves
  import opened ConfigPages

  /** A whole page: its keys stand in column 0. */
  predicate Flush(kids: seq<Kid>) {
    Sound(kids) && Nested(kids, -1) && forall i | 0 <= i < |kids| :: kids[i].pad == 0
  }

  /** The key occurs at most once. */
  predicate Once(kids: seq<Kid>, key: string) {
    forall i, j | 0 <= i < j < |kids| :: !(kids[i].key == key && kids[j].key == key)
  }

  function PutKid(kids: seq<Kid>, k: Kid): (r: seq<Kid>)
    ensures forall x | x in r :: x in kids || x == k
  {
    if kids == [] then [k]
    else if kids[0].key == k.key then [k] + kids[1..]
    else [kids[0]] + PutKid(kids[1..], k)
  }

  lemma FlushRest(kids: seq<Kid>)
    requires Flush(kids) && kids != []
    ensures Flush(kids[1..]) && SoundKid(kids[0]) && NestedKid(kids[0]) && kids[0].pad == 0
  {
    hide SoundKid, NestedKid;
    FirstKid(kids, -1);
    assert forall i | 0 <= i < |kids[1..]| :: kids[1..][i] == kids[i + 1];
  }

  // ------------------------------------------------------------------------------ the rows cut out

  /** A key line in column 0. */
  predicate IsTop(line: Line) { line.Pair? && line.indent == 0 }

  /** The rows that the scan cuts out: from the first that starts with the key and a colon, if there is one, to
      the next that ends a block. */
  function CutStart(ls: seq<string>, key: string): (i: nat)
    ensures i <= |ls|
  {
    KeyLine(Broken(ls), key)
  }

  function CutEnd(ls: seq<string>, key: string): (i: nat)
    ensures CutStart(ls, key) <= i <= |ls|
  {
    var i := CutStart(ls, key);
    if i == |ls| then i else i + 1 + BlockLen(Broken(ls)[i + 1..])
  }

  /** The page with the block in place of these rows; every other row is kept. */
  function Replaced(ls: seq<string>, key: string, block: seq<string>): seq<string> {
    ls[..CutStart(ls, key)] + block + ls[CutEnd(ls, key)..]
  }

  /** What some rows mean on their own. */
  function Says(ls: seq<string>): seq<Entry> {
    if Parse(Page(ls)).Some? then Parse(Page(ls)).value else []
  }

  /** The rows cut out take nothing with them. Of the key itself, nothing else may be said behind them; any
      other key that they define must be defined again behind them, or have meant the same before them. */
  ghost predicate Keeps(ls: seq<string>, key: string, v: Val) {
    forall k :: KeepsKey(ls, key, v, k)
  }

  predicate KeepsKey(ls: seq<string>, key: string, v: Val, k: string) {
    var before := Lookup(Says(ls[..CutStart(ls, key)]), k);
    var gone := Lookup(Says(ls[CutStart(ls, key)..CutEnd(ls, key)]), k);
    var behind := Lookup(Says(ls[CutEnd(ls, key)..]), k);
    if k == key then behind == None || behind == Some(v)
    else behind.Some? || gone.None? || gone == before
  }

  // ------------------------------------------------------------------------------- the tree cut apart

  predicate NoTop(lines: seq<Line>) { forall i | 0 <= i < |lines| :: !IsTop(lines[i]) }

  lemma {:induction false} DeepHeads(kids: seq<Kid>, outer: nat)
    requires Sound(kids) && Nested(kids, outer)
    ensures NoTop(Heads(kids))
    decreases kids
  {
    if kids != [] {
      FirstKid(kids, outer);
      hide SoundKid;
      if kids[0].tree.Branch? {
        assert SoundKid(kids[0]) && NestedKid(kids[0]);
        DeepInside(kids[0]);
        DeepHeads(kids[0].tree.kids, kids[0].pad);
      }
      DeepHeads(kids[1..], outer);
    }
  }

  lemma DeepInside(k: Kid)
    requires SoundKid(k) && NestedKid(k) && k.tree.Branch?
    ensures Sound(k.tree.kids) && Nested(k.tree.kids, k.pad)
  {
  }

  lemma KidTop(k: Kid)
    requires SoundKid(k) && NestedKid(k) && k.pad == 0
    ensures var inner := if k.tree.Branch? then Heads(k.tree.kids) else [];
            KidHeads(k) == [HeadOf(k)] + inner && NoTop(inner) && IsTop(HeadOf(k)) && HeadOf(k).key == k.key
  {
    if k.tree.Branch? {
      DeepInside(k);
      DeepHeads(k.tree.kids, 0);
    }
  }

  lemma FlushSlice(kids: seq<Kid>, i: nat, j: nat)
    requires Flush(kids) && i <= j <= |kids|
    ensures Flush(kids[i..j])
  {
    hide SoundKid, NestedKid;
    var r := kids[i..j];
    assert forall n | 0 <= n < |r| :: r[n] == kids[i + n];
  }

  lemma NotInside(own: seq<Line>, rest: seq<Line>, n: nat)
    requires own != [] && NoTop(own[1..]) && 0 < n <= |own + rest| && (n < |own + rest| ==> IsTop((own + rest)[n]))
    ensures |own| <= n
  {
    if n < |own| {
      InnerLine(own, rest, n);
    }
  }

  lemma InnerLine(own: seq<Line>, rest: seq<Line>, n: nat)
    requires 0 < n < |own|
    ensures (own + rest)[n] == own[1..][n - 1]
  {
  }

  lemma HeadsNext(kids: seq<Kid>, i: nat)
    requires kids != [] && i <= |kids[1..]|
    ensures Heads(kids) == KidHeads(kids[0]) + Heads(kids[1..])
    ensures Heads(kids[..i + 1]) == KidHeads(kids[0]) + Heads(kids[1..][..i])
  {
    hide KidHeads;
    assert kids[..i + 1][1..] == kids[1..][..i];
  }

  lemma NoneYet(kids: seq<Kid>)
    ensures Heads(kids[..0]) == [] && (kids == [] ==> Heads(kids) == [])
  {
  }

  /** In front of a key line of column 0 the key lines part where the tree parts. */
  lemma {:induction false} TopSplit(kids: seq<Kid>, n: nat) returns (i: nat)
    requires Flush(kids) && n <= |Heads(kids)| && (n < |Heads(kids)| ==> IsTop(Heads(kids)[n]))
    ensures i <= |kids| && |Heads(kids[..i])| == n
    decreases |kids|
  {
    hide *;
    NoneYet(kids);
    i := 0;
    if n > 0 {
      FlushRest(kids);
      KidTop(kids[0]);
      HeadsNext(kids, 0);
      var own := KidHeads(kids[0]);
      OwnTail(kids[0]);
      NotInside(own, Heads(kids[1..]), n);
      i := TopSplit(kids[1..], n - |own|);
      HeadsNext(kids, i);
      i := i + 1;
    }
  }

  lemma OwnTail(k: Kid)
    requires SoundKid(k) && NestedKid(k) && k.pad == 0
    ensures KidHeads(k) != [] && NoTop(KidHeads(k)[1..])
  {
    KidTop(k);
    hide NoTop, Heads, KidHeads;
    var inner := if k.tree.Branch? then Heads(k.tree.kids) else [];
    assert ([HeadOf(k)] + inner)[1..] == inner;
  }

  lemma SkimPart(ls: seq<string>, i: nat)
    requires i <= |ls|
    ensures Skim(ls) == Skim(ls[..i]) + Skim(ls[i..])
    ensures i < |ls| && !Read(ls[i]).Blank? ==> Skim(ls[i..]) != [] && Skim(ls[i..])[0] == Read(ls[i])
  {
    assert ls == ls[..i] + ls[i..];
    SkimApart(ls[..i], ls[i..]);
    hide Read;
  }

  lemma FreePart(ls: seq<string>, i: nat)
    requires i <= |ls| && forall n | 0 <= n < |ls| :: LineFree(ls[n])
    ensures (forall n | 0 <= n < |ls[..i]| :: LineFree(ls[..i][n])) && forall n | 0 <= n < |ls[i..]| :: LineFree(ls[i..][n])
  {
    hide LineFree;
  }

  lemma NoRows(ls: seq<string>)
    ensures ls[|ls|..] == [] && Skim([]) == []
  {
  }

  /** In front of a row of column 0 the page parts where the tree parts. */
  lemma RowSplit(ls: seq<string>, kids: seq<Kid>, i: nat) returns (j: nat)
    requires ReadsAs(ls, kids) && Flush(kids) && i <= |ls| && (i < |ls| ==> IsTop(Read(ls[i])))
    ensures j <= |kids| && ReadsAs(ls[..i], kids[..j]) && ReadsAs(ls[i..], kids[j..])
    ensures Flush(kids[..j]) && Flush(kids[j..])
  {
    hide *;
    SkimPart(ls, i);
    ReadsFree(ls, kids);
    FreePart(ls, i);
    NoRows(ls);
    if i < |ls| {
      TopIsPair(Read(ls[i]));
    }
    j := TopSplit(kids, |Skim(ls[..i])|);
    assert kids == kids[..j] + kids[j..];
    HeadsApart(kids[..j], kids[j..]);
    assert Heads(kids)[..|Skim(ls[..i])|] == Heads(kids[..j]) == Skim(ls[..i]);
    assert Heads(kids)[|Skim(ls[..i])|..] == Heads(kids[j..]) == Skim(ls[i..]);
    ReadsOf(ls[..i], kids[..j]);
    ReadsOf(ls[i..], kids[j..]);
    FlushSlice(kids, 0, j);
    FlushSlice(kids, j, |kids|);
    assert kids[0..j] == kids[..j] && kids[j..|kids|] == kids[j..];
  }

  lemma TopIsPair(line: Line)
    requires IsTop(line)
    ensures line.Pair?
  {
  }

  // --------------------------------------------------------------------------------- rows as text

  /** A row in column 0 says its key at once: nothing stands before the key or between it and the colon. */
  predicate UprightRow(l: string) { IsTop(Read(l)) ==> Read(l).key + ":" <= l }

  predicate Upright(ls: seq<string>) { forall i | 0 <= i < |ls| :: UprightRow(ls[i]) }

  lemma {:induction false} TrimKeeps(a: string, b: string)
    requires a != "" && !Space(a[|a| - 1])
    ensures a <= StripRight(a + b)
    decreases |b|
  {
    if b != "" && Space(b[|b| - 1]) {
      assert (a + b)[..|a + b| - 1] == a + b[..|b| - 1];
      TrimKeeps(a, b[..|b| - 1]);
    } else if b == "" {
      assert a + b == a;
    }
  }

  lemma KeyUncommented(key: string, rest: string)
    requires SimpleKey(key)
    ensures Uncommented(key + (":" + rest), None) == key + ":" + Uncommented(rest, None)
  {
    KeyIsMild(key);
    hide SimpleKey, Uncommented;
    MildPrefix(":", rest);
    MildPrefix(key, ":" + rest);
    assert key + (":" + Uncommented(rest, None)) == key + ":" + Uncommented(rest, None);
  }

  lemma KeyTrim(key: string, u: string)
    ensures var t := StripRight(key + ":" + u);
            |t| > |key| && t == key + (":" + t[|key| + 1..]) && StripRight(t) == t
  {
    assert !Space((key + ":")[|key|]);
    TrimKeeps(key + ":", u);
    StripRightDone(key + ":" + u);
    hide StripRight, Space;
    var t := StripRight(key + ":" + u);
    NoSpaceAtEnd(t);
    LeadSplit(key, t);
  }

  lemma LeadSplit(key: string, t: string)
    requires key + ":" <= t
    ensures t == key + (":" + t[|key| + 1..])
  {
  }

  lemma KeyLead(key: string, rest: string)
    requires SimpleKey(key)
    ensures var t := StripRight(Uncommented(key + (":" + rest), None));
            |t| > |key| && t == key + (":" + t[|key| + 1..]) && StripRight(t) == t
  {
    hide *;
    KeyUncommented(key, rest);
    KeyTrim(key, Uncommented(rest, None));
  }

  lemma KeyRead(key: string, rest: string)
    requires SimpleKey(key)
    ensures IsTop(Read(key + (":" + rest))) && Read(key + (":" + rest)).key == key
  {
    KeyLead(key, rest);
    KeyIsMild(key);
    var t := StripRight(Uncommented(key + (":" + rest), None));
    ColonAt(key, t[|key| + 1..]);
    assert t[0] == key[0];
    hide Uncommented, StripRight, Colon, SimpleKey;
    assert StripLeft(t) == t && Indent(t) == 0;
    assert t[..|key|] == key;
  }

  /** A row that starts with the key and a colon reads as that key, in column 0. */
  lemma RowKeyed(l: string, key: string)
    requires SimpleKey(key) && key + ":" <= l + "\n"
    ensures IsTop(Read(l)) && Read(l).key == key
  {
    hide Read, SimpleKey;
    var t := l + "\n";
    assert t[..|key| + 1] == key + ":" && (key + ":")[|key|] == ':' && t[|l|] == '\n';
    assert |key| + 1 <= |l| && l[..|key|] == t[..|key| + 1][..|key|] == key && l[|key|] == ':';
    assert l == key + (":" + l[|key| + 1..]);
    KeyRead(key, l[|key| + 1..]);
  }

  lemma {:induction false} StripLeftSkips(w: string, t: string)
    requires AllSpace(w)
    ensures StripLeft(w + t) == StripLeft(t)
    decreases |w|
  {
    if w == "" {
      assert w + t == t;
    } else {
      assert w[0] in w && (w + t)[0] == w[0] && (w + t)[1..] == w[1..] + t;
      StripLeftSkips(w[1..], t);
    }
  }

  lemma {:induction false} StripLeftRest(s: string)
    ensures StripLeft(s) == "" ==> AllSpace(s)
  {
    if s != "" && Space(s[0]) {
      StripLeftRest(s[1..]);
      assert s == [s[0]] + s[1..];
    }
  }

  lemma StripNone(s: string)
    requires Strip(s) == ""
    ensures AllSpace(s)
  {
    StripLeftRest(s);
    StripLeftDone(s);
    if StripLeft(s) != "" {
      KeepsFirst(StripLeft(s));
    }
  }

  /** A row that reads as blank is white space and perhaps a comment. */
  lemma BlankStrips(l: string)
    requires Read(l).Blank?
    ensures Strip(StripRight(Uncommented(l, None))) == ""
  {
    hide Strip, StripRight, Uncommented, Colon, Indent;
  }

  lemma SpaceBehind(u: string)
    requires AllSpace(StripRight(u))
    ensures AllSpace(u)
  {
    StripRightRest(u);
    hide StripRight, Space;
    assert u == StripRight(u) + u[|StripRight(u)|..];
  }

  lemma BlankText(l: string)
    requires Read(l).Blank?
    ensures var u := Uncommented(l, None); AllSpace(u) && u <= l && (|u| < |l| ==> l[|u|] == '#')
  {
    hide *;
    BlankStrips(l);
    var u := Uncommented(l, None);
    UncommentedRest(l, None);
    StripNone(StripRight(u));
    SpaceBehind(u);
  }

  lemma BlankRow(l: string)
    requires Read(l).Blank?
    ensures !EndsBlock(l + "\n")
  {
    BlankText(l);
    var u := Uncommented(l, None);
    hide Uncommented, Space, Read, StripRight, StripLeft;
    assert l + "\n" == u + (l[|u|..] + "\n");
    StripLeftSkips(u, l[|u|..] + "\n");
    CommentLeft(l[|u|..]);
  }

  lemma CommentLeft(c: string)
    requires c != "" ==> c[0] == '#'
    ensures var t := StripRight(StripLeft(c + "\n")); t == "" || t[0] == '#'
  {
    if c == "" {
      assert c + "\n" == "\n";
    } else {
      KeepsFirst(c + "\n");
    }
  }

  lemma Starts(line: string)
    requires line != "" && !Space(line[0]) && line[0] != '#'
    ensures Strip(line) != "" && Strip(line)[0] == line[0] && EndsBlock(line)
  {
    KeepsFirst(line);
  }

  lemma {:induction false} KeepsFirst(s: string)
    requires s != "" && !Space(s[0])
    ensures StripRight(s) != "" && StripRight(s)[0] == s[0]
  {
    if Space(s[|s| - 1]) {
      KeepsFirst(s[..|s| - 1]);
    }
  }

  /** A row that ends a block reads as a key, in column 0. */
  lemma RowEnds(l: string)
    requires !Read(l).NoColon? && EndsBlock(l + "\n")
    ensures IsTop(Read(l))
  {
    hide Read, EndsBlock;
    if Read(l).Blank? {
      BlankRow(l);
    } else if Read(l).indent > 0 {
      ReadIndent(l);
      InColumn(l, Read(l).indent);
    }
  }

  /** Conversely an upright row in column 0 ends the block above it. */
  lemma UprightEnds(l: string)
    requires IsTop(Read(l)) && UprightRow(l) && SimpleKey(Read(l).key)
    ensures EndsBlock(l + "\n")
  {
    hide Read, SimpleKey, EndsBlock;
    var key := Read(l).key;
    KeyIsMild(key);
    KeyNotEmpty(key);
    assert (l + "\n")[0] == (key + ":")[0] == key[0];
    Starts(l + "\n");
  }

  lemma KeyNotEmpty(key: string)
    requires SimpleKey(key)
    ensures key != ""
  {
  }

  lemma InColumn(l: string, n: nat)
    requires 0 < n <= |l| && l[..n] == Spaces(n)
    ensures !EndsBlock(l + "\n")
  {
    assert l[0] == l[..n][0] == Spaces(n)[0] && Spaces(n)[0] in Spaces(n);
  }

  // ------------------------------------------------------------------------------- where the scan cuts

  lemma {:induction false} KeyLineStarts(lines: seq<string>, key: string)
    ensures var k := KeyLine(lines, key);
            (k < |lines| ==> key + ":" <= lines[k]) && forall i: nat | i < k :: !(key + ":" <= lines[i])
    decreases |lines|
  {
    if lines != [] && !(key + ":" <= lines[0]) {
      KeyLineStarts(lines[1..], key);
      assert forall i: nat | 0 < i < |lines| :: lines[i] == lines[1..][i - 1];
    }
  }

  lemma {:induction false} BlockLenEnds(lines: seq<string>)
    ensures var k := BlockLen(lines);
            (k < |lines| ==> EndsBlock(lines[k])) && forall i: nat | i < k :: !EndsBlock(lines[i])
    decreases |lines|
  {
    hide EndsBlock;
    if lines != [] && !EndsBlock(lines[0]) {
      BlockLenEnds(lines[1..]);
      assert forall i: nat | 0 < i < |lines| :: lines[i] == lines[1..][i - 1];
    }
  }

  /** The cut, row by row. */
  lemma CutRows(ls: seq<string>, key: string)
    ensures var s, e := CutStart(ls, key), CutEnd(ls, key);
            && (s < |ls| ==> key + ":" <= ls[s] + "\n" && s < e)
            && (s == |ls| ==> e == s)
            && (e < |ls| ==> EndsBlock(ls[e] + "\n"))
            && (forall i: nat | i < s :: !(key + ":" <= ls[i] + "\n"))
            && forall i: nat | s < i < e :: !EndsBlock(ls[i] + "\n")
  {
    var lines, s, e := Broken(ls), CutStart(ls, key), CutEnd(ls, key);
    KeyLineStarts(lines, key);
    hide EndsBlock, KeyLine, BlockLen;
    if s < |ls| {
      var rest := lines[s + 1..];
      BlockLenEnds(rest);
      assert forall i: nat | i < |rest| :: rest[i] == ls[s + 1 + i] + "\n";
      forall i: nat | s < i < e ensures !EndsBlock(ls[i] + "\n") {
        assert rest[i - s - 1] == ls[i] + "\n";
      }
    }
  }

  // ------------------------------------------------------------------------------------ the text

  lemma {:induction false} PageApart(a: seq<string>, b: seq<string>)
    ensures Page(a + b) == Page(a) + Page(b)
    decreases |a|
  {
    if a == [] {
      assert a + b == b;
    } else {
      assert (a + b)[0] == a[0] && (a + b)[1..] == a[1..] + b;
      PageApart(a[1..], b);
      assert a[0] + "\n" + (Page(a[1..]) + Page(b)) == a[0] + "\n" + Page(a[1..]) + Page(b);
    }
  }

  /** The page with the block at `start` replaced. */
  function Spliced(lines: seq<string>, key: string, block: string): string
    requires KeyLine(lines, key) < |lines|
  {
    var start := KeyLine(lines, key);
    Concat(lines[..start]) + block + Concat(lines[start + 1 + BlockLen(lines[start + 1..])..])
  }

  lemma {:induction false} EndedPage(lines: seq<string>)
    ensures Ended(Page(lines)) == Page(lines)
    ensures lines != [] ==> Page(lines) != "" && Page(lines)[|Page(lines)| - 1] == '\n'
    decreases |lines|
  {
    if lines != [] {
      EndedPage(lines[1..]);
    }
  }

  lemma SetBlockSpliced(text: string, key: string, block: string)
    requires block != "" && Ended(block) == block && Ended(text) == text
    ensures var lines := KeepLines(text);
            SetBlock(text, key, block) ==
              if KeyLine(lines, key) < |lines| then Spliced(lines, key, block) else text + block
  {
    hide KeepLines, KeyLine, BlockLen, Concat;
  }

  lemma RowsText(ls: seq<string>, i: nat)
    requires i <= |ls|
    ensures Concat(Broken(ls)[..i]) == Page(ls[..i]) && Concat(Broken(ls)[i..]) == Page(ls[i..])
    ensures Broken(ls)[i..] == Broken(ls[i..])
  {
    hide Concat, Page;
    assert Broken(ls)[..i] == Broken(ls[..i]) && Broken(ls)[i..] == Broken(ls[i..]);
    PageConcat(ls[..i]);
    PageConcat(ls[i..]);
  }

  predicate Simple(lines: seq<Line>) { forall i | 0 <= i < |lines| :: lines[i].Pair? && SimpleKey(lines[i].key) }

  lemma {:induction false} HeadsSimple(kids: seq<Kid>)
    requires Sound(kids)
    ensures Simple(Heads(kids))
    decreases kids
  {
    hide SimpleKey, SoundRaw;
    if kids != [] {
      var k := kids[0];
      assert SoundKid(k) && Sound(kids[1..]);
      if k.tree.Branch? {
        HeadsSimple(k.tree.kids);
      }
      assert Simple([HeadOf(k)]) && Simple(KidHeads(k));
      HeadsSimple(kids[1..]);
    }
  }

  lemma RowSkimmed(ls: seq<string>, i: nat)
    requires i < |ls| && !Read(ls[i]).Blank?
    ensures exists j | 0 <= j < |Skim(ls)| :: Skim(ls)[j] == Read(ls[i])
  {
    RowAt(ls, i);
    RowReads(ls, |Skim(ls[..i])|);
  }

  /** Outside the rows cut out every row is kept as it is, comment or not. */
  lemma SetBlockReplaces(ls: seq<string>, key: string, block: seq<string>)
    requires block != [] && forall i | 0 <= i < |ls| :: LineFree(ls[i])
    ensures SetBlock(Page(ls), key, Page(block)) == Page(Replaced(ls, key, block))
  {
    hide *;
    PageSplits(ls);
    EndedPage(ls);
    EndedPage(block);
    SetBlockSpliced(Page(ls), key, Page(block));
    BrokenSize(ls);
    CutForms(ls, key, block);
    var s, e := CutStart(ls, key), CutEnd(ls, key);
    PageApart(ls[..s] + block, ls[e..]);
    PageApart(ls[..s], block);
    if s == |ls| {
      assert ls[..s] == ls && ls[e..] == [];
      EmptyPage();
    } else {
      RowsText(ls, s);
      RowsText(ls, e);
      SplicedForms(Broken(ls), key, Page(block));
    }
  }

  lemma EmptyPage()
    ensures Page([]) == "" && forall t: string :: t + "" == t
  {
  }

  lemma CutForms(ls: seq<string>, key: string, block: seq<string>)
    ensures Replaced(ls, key, block) == ls[..CutStart(ls, key)] + block + ls[CutEnd(ls, key)..]
    ensures CutStart(ls, key) == KeyLine(Broken(ls), key)
    ensures var i := CutStart(ls, key);
            CutEnd(ls, key) == if i == |ls| then i else i + 1 + BlockLen(Broken(ls)[i + 1..])
  {
    hide KeyLine, BlockLen, Broken;
  }

  lemma BrokenSize(ls: seq<string>)
    ensures |Broken(ls)| == |ls|
  {
  }

  lemma SplicedForms(lines: seq<string>, key: string, block: string)
    requires KeyLine(lines, key) < |lines|
    ensures var start := KeyLine(lines, key);
            && start + 1 + BlockLen(lines[start + 1..]) <= |lines|
            && Spliced(lines, key, block) ==
                 Concat(lines[..start]) + block + Concat(lines[start + 1 + BlockLen(lines[start + 1..])..])
  {
    hide KeyLine, BlockLen, Concat;
  }

  // --------------------------------------------------------------------------- the page in three parts

  lemma NoColons(ls: seq<string>, kids: seq<Kid>)
    requires ReadsAs(ls, kids) && Sound(kids)
    ensures forall i | 0 <= i < |ls| :: !Read(ls[i]).NoColon? && (IsTop(Read(ls[i])) ==> SimpleKey(Read(ls[i]).key))
  {
    HeadsSimple(kids);
    hide Read, LineFree, SimpleKey, Skim, Heads, Sound;
    forall i | 0 <= i < |ls|
      ensures !Read(ls[i]).NoColon? && (IsTop(Read(ls[i])) ==> SimpleKey(Read(ls[i]).key))
    {
      if !Read(ls[i]).Blank? {
        RowSkimmed(ls, i);
      }
    }
  }

  lemma CutTops(ls: seq<string>, kids: seq<Kid>, key: string)
    requires ReadsAs(ls, kids) && Sound(kids) && SimpleKey(key)
    ensures var s, e := CutStart(ls, key), CutEnd(ls, key);
            && (s < |ls| ==> IsTop(Read(ls[s])) && Read(ls[s]).key == key)
            && (e < |ls| ==> IsTop(Read(ls[e])))
  {
    NoColons(ls, kids);
    CutRows(ls, key);
    hide Read, EndsBlock, SimpleKey, CutStart, CutEnd;
    var s, e := CutStart(ls, key), CutEnd(ls, key);
    if s < |ls| {
      RowKeyed(ls[s], key);
    }
    if e < |ls| {
      RowEnds(ls[e]);
    }
  }

  /** The rows before the cut, those cut out and those behind it are the tree in three parts. */
  lemma CutKids(ls: seq<string>, kids: seq<Kid>, key: string) returns (j: nat, m: nat)
    requires ReadsAs(ls, kids) && Flush(kids) && SimpleKey(key)
    ensures j <= m <= |kids| && Flush(kids[..j]) && Flush(kids[j..m]) && Flush(kids[m..])
    ensures var s, e := CutStart(ls, key), CutEnd(ls, key);
            ReadsAs(ls[..s], kids[..j]) && ReadsAs(ls[s..e], kids[j..m]) && ReadsAs(ls[e..], kids[m..])
  {
    hide *;
    FlushSound(kids);
    CutTops(ls, kids, key);
    var s, e := CutStart(ls, key), CutEnd(ls, key);
    j := RowSplit(ls, kids, s);
    var rest, below := ls[s..], kids[j..];
    var m' := RowSplit(rest, below, e - s);
    m := j + m';
    assert rest[..e - s] == ls[s..e] && rest[e - s..] == ls[e..];
    assert below[..m'] == kids[j..m] && below[m'..] == kids[m..];
  }

  // --------------------------------------------------------------------------------- the meaning

  lemma {:induction false} LoadApart(a: seq<Kid>, b: seq<Kid>, es: seq<Entry>)
    requires Sound(a) && Sound(b)
    ensures Sound(a + b) && Load(a + b, es) == Load(b, Load(a, es))
    decreases |a|
  {
    hide SoundKid, Meaning;
    if a == [] {
      assert a + b == b;
    } else {
      LoadStep(a, es);
      assert (a + b)[0] == a[0] && (a + b)[1..] == a[1..] + b;
      LoadApart(a[1..], b, Put(es, a[0].key, Meaning(a[0])));
    }
  }

  /** A mapping read on top of another: its own keys first. */
  lemma {:induction false} LoadOver(kids: seq<Kid>, es: seq<Entry>, key: string)
    requires Sound(kids)
    ensures Lookup(Load(kids, es), key)
              == if Lookup(Load(kids, []), key).Some? then Lookup(Load(kids, []), key) else Lookup(es, key)
    decreases |kids|
  {
    hide SoundKid, Meaning;
    if kids != [] {
      var k, v := kids[0].key, Meaning(kids[0]);
      LoadStep(kids, es);
      LoadStep(kids, []);
      LoadOver(kids[1..], Put(es, k, v), key);
      LoadOver(kids[1..], Put([], k, v), key);
      PutOther(es, k, v, key);
      PutOther([], k, v, key);
    }
  }

  lemma SaysLoad(ls: seq<string>, kids: seq<Kid>)
    requires ReadsAs(ls, kids) && Flush(kids)
    ensures Sound(kids) && Parse(Page(ls)) == Some(Load(kids, [])) && Says(ls) == Load(kids, [])
  {
    hide Sound, Nested, ReadsAs, Parse, Page, Load;
    PageMeans(ls, kids);
  }

  /** The page that is written reads as the tree before the cut, the block, and the tree behind the cut. */
  lemma WrittenReads(ls: seq<string>, kids: seq<Kid>, k: Kid, j: nat, m: nat)
    requires SoundKid(k) && NestedKid(k) && k.pad == 0 && j <= m <= |kids| && Flush(kids[..j]) && Flush(kids[m..])
    requires var s, e := CutStart(ls, k.key), CutEnd(ls, k.key);
             ReadsAs(ls[..s], kids[..j]) && ReadsAs(ls[e..], kids[m..])
    ensures ReadsAs(Replaced(ls, k.key, KidLines(k)), kids[..j] + [k] + kids[m..])
    ensures Flush(kids[..j] + [k] + kids[m..])
  {
    hide *;
    var s, e := CutStart(ls, k.key), CutEnd(ls, k.key);
    FlushJoin(kids[..j], k, kids[m..]);
    CutForms(ls, k.key, KidLines(k));
    KidSkim(k);
    KidFree(k);
    ReadsFree(ls[..s], kids[..j]);
    ReadsFree(ls[e..], kids[m..]);
    OneHeads(k);
    HeadsApart(kids[..j] + [k], kids[m..]);
    HeadsApart(kids[..j], [k]);
    SkimApart(ls[..s] + KidLines(k), ls[e..]);
    SkimApart(ls[..s], KidLines(k));
    AllFreeIs(KidLines(k));
    FreeJoin(ls[..s], KidLines(k), ls[e..]);
    ReadsOf(Replaced(ls, k.key, KidLines(k)), kids[..j] + [k] + kids[m..]);
  }

  lemma OneHeads(k: Kid)
    ensures Heads([k]) == KidHeads(k)
  {
    assert [k][1..] == [] && KidHeads(k) + [] == KidHeads(k);
  }

  lemma AllFreeIs(ls: seq<string>)
    requires AllFree(ls)
    ensures forall i | 0 <= i < |ls| :: LineFree(ls[i])
  {
  }

  lemma FreeJoin(a: seq<string>, b: seq<string>, c: seq<string>)
    requires (forall i | 0 <= i < |a| :: LineFree(a[i])) && (forall i | 0 <= i < |b| :: LineFree(b[i]))
    requires forall i | 0 <= i < |c| :: LineFree(c[i])
    ensures forall i | 0 <= i < |a + b + c| :: LineFree((a + b + c)[i])
  {
    hide LineFree;
  }

  lemma FlushJoin(a: seq<Kid>, k: Kid, b: seq<Kid>)
    requires Flush(a) && Flush(b) && SoundKid(k) && NestedKid(k) && k.pad == 0
    ensures Flush(a + [k] + b)
  {
    hide SoundKid, NestedKid;
    var r := a + [k] + b;
    forall i | 0 <= i < |r| ensures SoundKid(r[i]) && NestedKid(r[i]) && r[i].pad == 0 {
      assert i < |a| ==> r[i] == a[i];
      assert i == |a| ==> r[i] == k;
      assert i > |a| ==> r[i] == b[i - |a| - 1];
    }
  }

  /** What one key means on the written page, part by part. */
  lemma WrittenLookup(a: seq<Kid>, k: Kid, b: seq<Kid>, key: string)
    requires Sound(a) && SoundKid(k) && Sound(b) && Sound(a + [k] + b)
    ensures var behind := Lookup(Load(b, []), key);
            Lookup(Load(a + [k] + b, []), key) ==
              if behind.Some? then behind else if key == k.key then Some(Meaning(k)) else Lookup(Load(a, []), key)
  {
    hide SoundKid, Meaning, Load;
    assert Sound([k]);
    LoadApart(a + [k], b, []);
    LoadApart(a, [k], []);
    LoadOver(b, Load(a + [k], []), key);
    LoadOne(k, Load(a, []));
    PutOther(Load(a, []), k.key, Meaning(k), key);
  }

  lemma LoadOne(k: Kid, es: seq<Entry>)
    requires SoundKid(k)
    ensures Sound([k]) && Load([k], es) == Put(es, k.key, Meaning(k))
  {
    hide SoundKid, Meaning;
    LoadStep([k], es);
    assert [k][1..] == [];
  }

  /** And on the page as it was. */
  lemma PartsLookup(a: seq<Kid>, g: seq<Kid>, b: seq<Kid>, key: string)
    requires Sound(a) && Sound(g) && Sound(b)
    ensures Sound(a + g + b)
    ensures var behind, gone := Lookup(Load(b, []), key), Lookup(Load(g, []), key);
            Lookup(Load(a + g + b, []), key) ==
              if behind.Some? then behind else if gone.Some? then gone else Lookup(Load(a, []), key)
  {
    hide Load, Sound;
    LoadApart(a, g, []);
    LoadApart(a + g, b, []);
    LoadOver(b, Load(a + g, []), key);
    LoadOver(g, Load(a, []), key);
  }

  /** One key means the same on the written page as it should, exactly when the cut keeps it. */
  lemma KeyExact(ls: seq<string>, a: seq<Kid>, g: seq<Kid>, b: seq<Kid>, k: Kid, x: string)
    requires Sound(a) && Sound(g) && Sound(b) && SoundKid(k) && Sound(a + [k] + b)
    requires Says(ls[..CutStart(ls, k.key)]) == Load(a, [])
    requires Says(ls[CutStart(ls, k.key)..CutEnd(ls, k.key)]) == Load(g, [])
    requires Says(ls[CutEnd(ls, k.key)..]) == Load(b, [])
    ensures Sound(a + g + b)
    ensures KeepsKey(ls, k.key, Meaning(k), x) <==>
              Lookup(Load(a + [k] + b, []), x) == Lookup(Put(Load(a + g + b, []), k.key, Meaning(k)), x)
  {
    hide *;
    WrittenLookup(a, k, b, x);
    PartsLookup(a, g, b, x);
    PutOther(Load(a + g + b, []), k.key, Meaning(k), x);
    KeepsForms(ls, k.key, Meaning(k), x);
  }

  /** The two mappings are the same dictionary: they agree on every key, in whatever order they hold them. */
  ghost predicate SameMap(a: seq<Entry>, b: seq<Entry>) {
    forall k :: Lookup(a, k) == Lookup(b, k)
  }

  lemma PartsExact(ls: seq<string>, a: seq<Kid>, g: seq<Kid>, b: seq<Kid>, k: Kid)
    requires Sound(a) && Sound(g) && Sound(b) && SoundKid(k) && Sound(a + [k] + b)
    requires Says(ls[..CutStart(ls, k.key)]) == Load(a, [])
    requires Says(ls[CutStart(ls, k.key)..CutEnd(ls, k.key)]) == Load(g, [])
    requires Says(ls[CutEnd(ls, k.key)..]) == Load(b, [])
    ensures Sound(a + g + b)
    ensures SameMap(Load(a + [k] + b, []), Put(Load(a + g + b, []), k.key, Meaning(k))) <==> Keeps(ls, k.key, Meaning(k))
  {
    hide *;
    PartsLookup(a, g, b, "");
    var now, goal := Load(a + [k] + b, []), Put(Load(a + g + b, []), k.key, Meaning(k));
    forall x ensures KeepsKey(ls, k.key, Meaning(k), x) <==> Lookup(now, x) == Lookup(goal, x) {
      KeyExact(ls, a, g, b, k, x);
    }
    KeepsAll(ls, k.key, Meaning(k), now, goal);
  }

  lemma PagesExact(ls: seq<string>, kids: seq<Kid>, k: Kid, j: nat, m: nat)
    requires ReadsAs(ls, kids) && Flush(kids) && SoundKid(k) && NestedKid(k) && k.pad == 0
    requires j <= m <= |kids| && Flush(kids[..j]) && Flush(kids[j..m]) && Flush(kids[m..])
    requires var s, e := CutStart(ls, k.key), CutEnd(ls, k.key);
             ReadsAs(ls[..s], kids[..j]) && ReadsAs(ls[s..e], kids[j..m]) && ReadsAs(ls[e..], kids[m..])
    ensures Parse(Page(ls)).Some? && Parse(Page(Replaced(ls, k.key, KidLines(k)))).Some?
    ensures Keeps(ls, k.key, Meaning(k)) <==>
              SameMap(Parse(Page(Replaced(ls, k.key, KidLines(k)))).value, Put(Parse(Page(ls)).value, k.key, Meaning(k)))
  {
    hide *;
    var s, e := CutStart(ls, k.key), CutEnd(ls, k.key);
    var a, g, b := kids[..j], kids[j..m], kids[m..];
    assert kids == a + g + b;
    SaysLoad(ls, kids);
    SaysLoad(ls[..s], a);
    SaysLoad(ls[s..e], g);
    SaysLoad(ls[e..], b);
    WrittenReads(ls, kids, k, j, m);
    SaysLoad(Replaced(ls, k.key, KidLines(k)), a + [k] + b);
    PartsExact(ls, a, g, b, k);
  }

  /** set_block, exactly, on pages with comments and blank lines whose keys stand in column 0 as the parser
      reads them. It writes the page with one stretch of rows replaced, and what it writes means the old mapping
      with the one key set if and only if those rows take nothing else with them. */
  lemma SetBlockExact(ls: seq<string>, kids: seq<Kid>, key: string, sub: seq<Kid>)
    requires ReadsAs(ls, kids) && Flush(kids) && SimpleKey(key) && Sound(sub) && Nested(sub, 0)
    ensures Parse(Page(ls)).Some?
    ensures var block := KidLines(Kid(0, key, Branch(sub)));
            var text, v := SetBlock(Page(ls), key, Page(block)), Map(Load(sub, []));
            && text == Page(Replaced(ls, key, block))
            && Parse(text).Some?
            && (SameMap(Parse(text).value, Put(Parse(Page(ls)).value, key, v)) <==> Keeps(ls, key, v))
  {
    var k := Kid(0, key, Branch(sub));
    BlockMeans(key, sub);
    hide *;
    ReadsFree(ls, kids);
    HeadFirst(k);
    SetBlockReplaces(ls, key, KidLines(k));
    var j, m := CutKids(ls, kids, key);
    PagesExact(ls, kids, k, j, m);
  }

  lemma KeepsForms(ls: seq<string>, key: string, v: Val, k: string)
    ensures var before := Lookup(Says(ls[..CutStart(ls, key)]), k);
            var gone := Lookup(Says(ls[CutStart(ls, key)..CutEnd(ls, key)]), k);
            var behind := Lookup(Says(ls[CutEnd(ls, key)..]), k);
            KeepsKey(ls, key, v, k) <==>
              if k == key then behind == None || behind == Some(v) else behind.Some? || gone.None? || gone == before
  {
    hide Says, CutStart, CutEnd;
  }

  lemma KeepsAll(ls: seq<string>, key: string, v: Val, a: seq<Entry>, b: seq<Entry>)
    requires forall k :: KeepsKey(ls, key, v, k) <==> Lookup(a, k) == Lookup(b, k)
    ensures SameMap(a, b) <==> Keeps(ls, key, v)
  {
    hide KeepsKey, Lookup;
  }

  predicate Present(kids: seq<Kid>, key: string) { exists i | 0 <= i < |kids| :: kids[i].key == key }

  lemma PresentCons(kids: seq<Kid>, key: string)
    requires kids != []
    ensures Present(kids, key) <==> kids[0].key == key || Present(kids[1..], key)
  {
    if i :| 0 < i < |kids| && kids[i].key == key {
      assert kids[1..][i - 1].key == key;
    }
  }

  lemma {:induction false} PutSwap(es: seq<Entry>, k: string, v: Val, l: string, w: Val)
    requires k != l && Lookup(es, l).Some?
    ensures Put(Put(es, k, v), l, w) == Put(Put(es, l, w), k, v)
    ensures Lookup(Put(es, k, v), l).Some?
    decreases |es|
  {
    if es[0].key != k && es[0].key != l {
      PutSwap(es[1..], k, v, l, w);
    }
  }

  lemma {:induction false} PutLookup(es: seq<Entry>, key: string, v: Val)
    ensures Lookup(Put(es, key, v), key) == Some(v)
    decreases |es|
  {
    if es != [] && es[0].key != key {
      PutLookup(es[1..], key, v);
    }
  }

  lemma {:induction false} LoadAround(kids: seq<Kid>, es: seq<Entry>, key: string, v: Val)
    requires Sound(kids) && Lookup(es, key).Some? && !Present(kids, key)
    ensures Load(kids, Put(es, key, v)) == Put(Load(kids, es), key, v)
    decreases |kids|
  {
    hide Meaning, SoundKid;
    if kids != [] {
      PresentCons(kids, key);
      var k := kids[0];
      LoadStep(kids, es);
      LoadStep(kids, Put(es, key, v));
      PutSwap(es, k.key, Meaning(k), key, v);
      LoadAround(kids[1..], Put(es, k.key, Meaning(k)), key, v);
    }
  }

  lemma {:induction false} PutKidMeans(kids: seq<Kid>, k: Kid, es: seq<Entry>)
    requires Flush(kids) && Once(kids, k.key) && SoundKid(k)
    ensures Sound(PutKid(kids, k))
    ensures Load(PutKid(kids, k), es) == Put(Load(kids, es), k.key, Meaning(k))
    decreases |kids|
  {
    hide Meaning, SoundKid;
    var r := PutKid(kids, k);
    if kids == [] {
      assert r == [k];
      LoadStep(r, es);
    } else {
      FlushRest(kids);
      LoadStep(kids, es);
      if kids[0].key == k.key {
        assert r[0] == k && r[1..] == kids[1..];
        LoadStep(r, es);
        var first := Put(es, k.key, Meaning(kids[0]));
        PutLookup(es, k.key, Meaning(kids[0]));
        LoadAround(kids[1..], first, k.key, Meaning(k));
        PutTwice(es, k.key, Meaning(kids[0]), Meaning(k));
      } else {
        assert r[0] == kids[0] && r[1..] == PutKid(kids[1..], k);
        PutKidMeans(kids[1..], k, Put(es, kids[0].key, Meaning(kids[0])));
        LoadStep(r, es);
      }
    }
  }

  lemma FlushSound(kids: seq<Kid>)
    requires Flush(kids)
    ensures Sound(kids)
  {
  }

  lemma HeadFirst(k: Kid)
    ensures KidLines(k) != []
  {
  }

  lemma BlockMeans(key: string, sub: seq<Kid>)
    requires SimpleKey(key) && Sound(sub) && Nested(sub, 0)
    ensures var k := Kid(0, key, Branch(sub)); SoundKid(k) && NestedKid(k) && Meaning(k) == Map(Load(sub, []))
  {
  }

  // ------------------------------------------------------------------------------------ upright pages

  /** On an upright page the scan cuts out the block of the key and nothing else. */
  lemma UprightCut(ls: seq<string>, kids: seq<Kid>, key: string, j: nat, m: nat)
    requires ReadsAs(ls, kids) && Flush(kids) && Upright(ls) && SimpleKey(key) && j <= m <= |kids| && Flush(kids[j..m])
    requires ReadsAs(ls[CutStart(ls, key)..CutEnd(ls, key)], kids[j..m])
    ensures CutStart(ls, key) < |ls| ==> m == j + 1 && kids[j].key == key
    ensures CutStart(ls, key) == |ls| ==> m == j && !Present(kids, key)
  {
    hide *;
    if CutStart(ls, key) < |ls| {
      BlockFound(ls, kids, key, kids[j..m]);
    } else {
      NothingFound(ls, kids, key);
      CutRows(ls, key);
      ReadsFree(ls[CutStart(ls, key)..CutEnd(ls, key)], kids[j..m]);
      assert ls[CutStart(ls, key)..CutEnd(ls, key)] == [];
      HeadsOfNone(kids[j..m]);
    }
  }

  lemma BlockFound(ls: seq<string>, kids: seq<Kid>, key: string, g: seq<Kid>)
    requires ReadsAs(ls, kids) && Flush(kids) && Upright(ls) && SimpleKey(key) && Flush(g)
    requires CutStart(ls, key) < |ls| && ReadsAs(ls[CutStart(ls, key)..CutEnd(ls, key)], g)
    ensures |g| == 1 && g[0].key == key
  {
    hide *;
    var s, e := CutStart(ls, key), CutEnd(ls, key);
    FlushSound(kids);
    CutRows(ls, key);
    CutTops(ls, kids, key);
    ReadsFree(ls[s..e], g);
    TopSpeaks(ls[s]);
    assert ls[s..e][0] == ls[s];
    FirstHead(ls[s..e], g);
    if |g| > 1 {
      var r := SecondTop(ls[s..e], g);
      assert ls[s..e][r] == ls[s + r];
      TopEnds(ls, kids, s + r);
      assert false;
    }
  }

  lemma TopSpeaks(l: string)
    ensures IsTop(Read(l)) ==> !Read(l).Blank?
  {
    hide Read;
  }

  lemma TopEnds(ls: seq<string>, kids: seq<Kid>, i: nat)
    requires ReadsAs(ls, kids) && Sound(kids) && Upright(ls) && i < |ls| && IsTop(Read(ls[i]))
    ensures EndsBlock(ls[i] + "\n")
  {
    hide *;
    NoColons(ls, kids);
    UprightAt(ls, i);
    UprightEnds(ls[i]);
  }

  lemma NothingFound(ls: seq<string>, kids: seq<Kid>, key: string)
    requires ReadsAs(ls, kids) && Flush(kids) && Upright(ls) && CutStart(ls, key) == |ls|
    ensures !Present(kids, key)
  {
    hide *;
    ReadsFree(ls, kids);
    CutRows(ls, key);
    if Present(kids, key) {
      var i := TopRow(ls, kids, key);
      UprightAt(ls, i);
      StartsBroken(ls[i], key);
      assert false;
    }
  }

  lemma UprightAt(ls: seq<string>, i: nat)
    requires Upright(ls) && i < |ls|
    ensures UprightRow(ls[i]) && (IsTop(Read(ls[i])) ==> Read(ls[i]).key + ":" <= ls[i])
  {
    hide Read;
  }

  lemma StartsBroken(l: string, key: string)
    requires key + ":" <= l
    ensures key + ":" <= l + "\n"
  {
  }

  lemma HeadsOfNone(g: seq<Kid>)
    requires Heads(g) == Skim([])
    ensures g == []
  {
    SomeHeads(g);
  }

  lemma SomeHeads(g: seq<Kid>)
    ensures g != [] ==> |Heads(g)| >= 1
  {
  }

  lemma FirstHead(ls: seq<string>, g: seq<Kid>)
    requires ls != [] && Skim(ls) == Heads(g) && !Read(ls[0]).Blank?
    ensures g != [] && Read(ls[0]) == HeadOf(g[0]) && HeadOf(g[0]).key == g[0].key
  {
    hide Read;
    assert Skim(ls)[0] == Read(ls[0]);
    if g != [] {
      assert Heads(g)[0] == KidHeads(g[0])[0] == HeadOf(g[0]);
    }
  }

  /** The row of the second key. */
  lemma SecondTop(ls: seq<string>, g: seq<Kid>) returns (r: nat)
    requires |g| >= 2 && Flush(g) && Skim(ls) == Heads(g) && ls != [] && !Read(ls[0]).Blank?
    ensures 0 < r < |ls| && IsTop(Read(ls[r]))
  {
    FlushRest(g);
    FlushRest(g[1..]);
    KidTop(g[1..][0]);
    hide Flush, Read, IsTop;
    var own := KidHeads(g[0]);
    assert Heads(g) == own + Heads(g[1..]) && Heads(g[1..]) == KidHeads(g[1..][0]) + Heads(g[1..][1..]);
    assert Heads(g)[|own|] == HeadOf(g[1..][0]);
    r := Row(ls, |own|);
    RowReads(ls, |own|);
  }

  lemma HeadAt(kids: seq<Kid>, j: nat)
    requires j < |kids|
    ensures var n := |Heads(kids[..j])|; n < |Heads(kids)| && Heads(kids)[n] == HeadOf(kids[j])
  {
    assert kids == kids[..j] + kids[j..];
    HeadsApart(kids[..j], kids[j..]);
    assert Heads(kids[j..]) == KidHeads(kids[j]) + Heads(kids[j..][1..]);
    hide Heads, HeadOf;
    assert KidHeads(kids[j])[0] == HeadOf(kids[j]);
  }

  lemma HeadTop(kids: seq<Kid>, j: nat)
    requires Flush(kids) && j < |kids|
    ensures IsTop(HeadOf(kids[j])) && HeadOf(kids[j]).key == kids[j].key
  {
    hide SoundKid, NestedKid;
  }

  /** The row of a key that is there. */
  lemma TopRow(ls: seq<string>, kids: seq<Kid>, key: string) returns (i: nat)
    requires Skim(ls) == Heads(kids) && Flush(kids) && Present(kids, key)
    ensures i < |ls| && IsTop(Read(ls[i])) && Read(ls[i]).key == key
  {
    var j: nat :| j < |kids| && kids[j].key == key;
    hide *;
    HeadAt(kids, j);
    HeadTop(kids, j);
    RowReads(ls, |Heads(kids[..j])|);
    i := Row(ls, |Heads(kids[..j])|);
  }

  lemma {:induction false} PutKidAt(kids: seq<Kid>, k: Kid, j: nat)
    requires j < |kids| && kids[j].key == k.key && Once(kids, k.key)
    ensures PutKid(kids, k) == kids[..j] + [k] + kids[j + 1..]
    decreases |kids|
  {
    if j > 0 {
      assert kids[0].key != k.key;
      assert forall i | 0 <= i < |kids[1..]| :: kids[1..][i] == kids[i + 1];
      PutKidAt(kids[1..], k, j - 1);
      assert kids[..j] == [kids[0]] + kids[1..][..j - 1];
    } else {
      assert kids[..0] == [];
    }
  }

  lemma {:induction false} PutKidNew(kids: seq<Kid>, k: Kid)
    requires !Present(kids, k.key)
    ensures PutKid(kids, k) == kids + [k]
    decreases |kids|
  {
    if kids != [] {
      PresentCons(kids, k.key);
      PutKidNew(kids[1..], k);
      assert kids + [k] == [kids[0]] + (kids[1..] + [k]);
    }
  }

  /** On an upright page which has the key at most once the mapping keeps its order too. */
  lemma SetBlockPutsKey(ls: seq<string>, kids: seq<Kid>, key: string, sub: seq<Kid>)
    requires ReadsAs(ls, kids) && Flush(kids) && Upright(ls) && Once(kids, key)
    requires SimpleKey(key) && Sound(sub) && Nested(sub, 0)
    ensures Sound(kids)
    ensures var block := KidLines(Kid(0, key, Branch(sub)));
            var text := SetBlock(Page(ls), key, Page(block));
            && text == Page(Replaced(ls, key, block))
            && Parse(text) == Some(Put(Load(kids, []), key, Map(Load(sub, []))))
  {
    var k := Kid(0, key, Branch(sub));
    BlockMeans(key, sub);
    FlushSound(kids);
    hide *;
    ReadsFree(ls, kids);
    HeadFirst(k);
    SetBlockReplaces(ls, key, KidLines(k));
    var j, m := CutKids(ls, kids, key);
    UprightCut(ls, kids, key, j, m);
    WrittenReads(ls, kids, k, j, m);
    SaysLoad(Replaced(ls, key, KidLines(k)), kids[..j] + [k] + kids[m..]);
    PutKidMeans(kids, k, []);
    if CutStart(ls, key) < |ls| {
      PutKidAt(kids, k, j);
    } else {
      PutKidNew(kids, k);
      WholePage(ls, kids, key, j);
      assert kids[..j] == kids && kids[m..] == [] && kids + [k] + [] == kids + [k];
    }
  }

  lemma WholePage(ls: seq<string>, kids: seq<Kid>, key: string, j: nat)
    requires ReadsAs(ls, kids) && j <= |kids| && CutStart(ls, key) == |ls| && ReadsAs(ls[CutEnd(ls, key)..], kids[j..])
    ensures j == |kids|
  {
    CutRows(ls, key);
    hide CutStart, CutEnd;
    assert ls[|ls|..] == [];
    HeadsOfNone(kids[j..]);
  }

  // ----------------------------------------------------------------------------------- printed text

  /** What the printer writes is upright. */
  lemma PrintedUpright(kids: seq<Kid>)
    requires Sound(kids)
    ensures ReadsAs(Lines(kids), kids) && Upright(Lines(kids))
  {
    LinesFree(kids);
    LinesSkim(kids);
    LinesUpright(kids);
    hide Lines, Skim, LineFree, Heads, UprightRow;
  }

  lemma {:induction false} LinesUpright(kids: seq<Kid>)
    requires Sound(kids)
    ensures Upright(Lines(kids))
    decreases kids
  {
    hide UprightRow, KidHead, SoundRaw, SimpleKey;
    if kids != [] {
      assert SoundKid(kids[0]);
      HeadUpright(kids[0]);
      if kids[0].tree.Branch? {
        LinesUpright(kids[0].tree.kids);
      }
      LinesUpright(kids[1..]);
    }
  }

  lemma HeadUpright(k: Kid)
    requires SoundKid(k)
    ensures UprightRow(KidHead(k))
  {
    HeadRead(k);
    hide Read, SoundKid;
    if k.pad == 0 {
      HeadStarts(k);
    }
    hide KidHead;
  }

  lemma HeadStarts(k: Kid)
    requires k.pad == 0
    ensures k.key + ":" <= KidHead(k)
  {
    var tail := if k.tree.Leaf? then " " + k.tree.raw else "";
    assert KidHead(k) == Spaces(0) + (k.key + (":" + tail));
    assert Spaces(0) == "";
    assert k.key + (":" + tail) == k.key + ":" + tail;
  }

  lemma {:induction false} ShapeKeys(es: seq<Entry>, indent: nat)
    requires Emit(es, indent).Some?
    ensures |Shape(es, indent)| == |es| && forall i | 0 <= i < |es| :: Shape(es, indent)[i].key == es[i].key
    decreases |es|
  {
    hide ShapeOf, Emit, EmitEntry;
    if es != [] {
      ShapeStep(es, indent);
      ShapeKeys(es[1..], indent);
      var kids := Shape(es, indent);
      assert kids == [kids[0]] + kids[1..];
    } else {
      EmptyShape(indent, []);
    }
  }

  lemma FaithfulShape(es: seq<Entry>, indent: nat)
    requires Emit(es, indent).Some? && Dict(es) && FaithfulEntries(es)
    ensures Sound(Shape(es, indent)) && Nested(Shape(es, indent), indent - 1)
    ensures Load(Shape(es, indent), []) == es
  {
    hide Emit, Shape, Load, Sound, Nested;
    FaithfulUnbroken(Map(es));
    ShapeSound(es, indent);
    ShapeMeans(es, indent, []);
    EntriesFixed(es);
    assert [] + es == es;
  }

  lemma BlockShape(key: string, sub: seq<Entry>)
    requires Emit([Entry(key, Map(sub))], 0).Some?
    ensures Emit(sub, 2).Some?
    ensures Emit([Entry(key, Map(sub))], 0).value == KidLines(Kid(0, key, Branch(Shape(sub, 2))))
    ensures LineFree(key) ==> SimpleKey(key)
  {
    var e := Entry(key, Map(sub));
    EntryLines(e, 0);
    UnendedFree(key);
    assert EmitEntry(e, 0).value + [] == EmitEntry(e, 0).value;
  }

  /** set_block then parse: on the printed form of any faithful mapping, writing the printed block of
      another one is exactly a one-key update of the mapping. */
  lemma SetBlockUpdates(es: seq<Entry>, key: string, sub: seq<Entry>)
    requires Emit(es, 0).Some? && Dict(es) && FaithfulEntries(es)
    requires Emit([Entry(key, Map(sub))], 0).Some? && LineFree(key) && Dict(sub) && FaithfulEntries(sub)
    ensures Parse(SetBlock(Page(Emit(es, 0).value), key, Page(Emit([Entry(key, Map(sub))], 0).value)))
              == Some(Put(es, key, Map(sub)))
  {
    hide *;
    BlockShape(key, sub);
    FaithfulShape(es, 0);
    FaithfulShape(sub, 2);
    EmitLines(es, 0);
    ShapeFlush(es, key);
    NestedLess(Shape(sub, 2));
    PrintedUpright(Shape(es, 0));
    SetBlockPutsKey(Lines(Shape(es, 0)), Shape(es, 0), key, Shape(sub, 2));
  }

  lemma ShapeFlush(es: seq<Entry>, key: string)
    requires Emit(es, 0).Some? && Dict(es) && FaithfulEntries(es)
    ensures Flush(Shape(es, 0)) && Once(Shape(es, 0), key)
  {
    FaithfulUnbroken(Map(es));
    ShapeKeys(es, 0);
    ShapeSound(es, 0);
    hide Sound, Nested, Shape, Emit, FaithfulEntries, UnbrokenEntries;
  }

  lemma NestedLess(kids: seq<Kid>)
    requires Nested(kids, 1)
    ensures Nested(kids, 0)
  {
    hide NestedKid;
  }
}
