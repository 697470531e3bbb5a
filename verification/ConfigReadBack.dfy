/** What block text means to the parser, and that printing is undone by reading. */
module ConfigReadBack {
  import opened Documents
  import opened Strings
  import opened ConfigParser
  import opened ConfigPrinter

  /** Block text as a tree: every line is a key with a scalar text, or a key that opens a block. */
  datatype Tree = Leaf(raw: string) | Branch(kids: seq<Kid>)
  datatype Kid = Kid(pad: nat, key: string, tree: Tree)

  function KidHead(k: Kid): string {
    Spaces(k.pad) + (k.key + (":" + (if k.tree.Leaf? then " " + k.tree.raw else "")))
  }

  function Lines(kids: seq<Kid>): seq<string> {
    if kids == [] then [] else KidLines(kids[0]) + Lines(kids[1..])
  }

  function KidLines(k: Kid): seq<string> {
    [KidHead(k)] + (if k.tree.Branch? then Lines(k.tree.kids) else [])
  }

  predicate SimpleKey(key: string) { key != "" && forall c | c in key :: KeyChar(c) }

  /** A scalar text that survives on its line: trimmed, unbroken, no comment, readable. */
  predicate SoundRaw(raw: string) {
    && raw != "" && !Space(raw[0]) && !Space(raw[|raw| - 1])
    && LineFree(raw) && Uncommented(raw, None) == raw && ParseScalar(raw).Some?
  }

  predicate Sound(kids: seq<Kid>) {
    forall i | 0 <= i < |kids| :: SoundKid(kids[i])
  }

  predicate SoundKid(k: Kid) {
    SimpleKey(k.key) && match k.tree case Leaf(raw) => SoundRaw(raw) case Branch(kids) => Sound(kids)
  }

  /** Blocks are indented more than their key, and what follows a block is not inside it. */
  predicate Nested(kids: seq<Kid>, outer: int) {
    && (forall i | 0 <= i < |kids| :: kids[i].pad > outer && NestedKid(kids[i]))
    && forall i | 0 <= i < |kids| - 1 :: kids[i].tree.Branch? ==> kids[i + 1].pad <= kids[i].pad
  }

  predicate NestedKid(k: Kid) {
    k.tree.Branch? ==> Nested(k.tree.kids, k.pad)
  }

  /** What the text means: the entries in order, a repeated key overwriting. */
  function Load(kids: seq<Kid>, es: seq<Entry>): seq<Entry>
    requires Sound(kids)
    decreases kids
  {
    if kids == [] then es else Load(kids[1..], Put(es, kids[0].key, Meaning(kids[0])))
  }

  function Meaning(k: Kid): Val
    requires SoundKid(k)
    decreases k
  {
    match k.tree case Leaf(raw) => ParseScalar(raw).value case Branch(kids) => Map(Load(kids, []))
  }

  // -------------------------------------------------------------------------- lines of a page

  lemma {:induction false} LineEndAt(l: string, t: string)
    requires LineFree(l)
    ensures LineEnd(l + ("\n" + t)) == |l|
    decreases |l|
  {
    var s := l + ("\n" + t);
    if l != "" {
      assert l[0] in l && s[0] == l[0] && s[1..] == l[1..] + ("\n" + t);
      LineEndAt(l[1..], t);
    }
  }

  function Broken(lines: seq<string>): (r: seq<string>)
    ensures |r| == |lines| && forall i | 0 <= i < |lines| :: r[i] == lines[i] + "\n"
  {
    seq(|lines|, i requires 0 <= i < |lines| => lines[i] + "\n")
  }

  lemma FirstOfPage(l: string, t: string)
    requires LineFree(l)
    ensures var text := l + "\n" + t;
            && SplitLines(text) == [l] + SplitLines(t)
            && KeepLines(text) == [l + "\n"] + KeepLines(t)
  {
    var text := l + "\n" + t;
    assert text == l + ("\n" + t);
    LineEndAt(l, t);
    hide LineEnd, LineFree;
    assert FirstLine(text) == |l| + 1 && text[..|l|] == l && text[..|l| + 1] == l + "\n" && text[|l| + 1..] == t;
  }

  lemma PageNext(lines: seq<string>)
    requires lines != []
    ensures Page(lines) == lines[0] + "\n" + Page(lines[1..])
    ensures Broken(lines) == [lines[0] + "\n"] + Broken(lines[1..])
    ensures Concat(Broken(lines)) == lines[0] + "\n" + Concat(Broken(lines[1..]))
  {
    assert Broken(lines)[1..] == Broken(lines[1..]);
  }

  lemma {:induction false} PageSplits(lines: seq<string>)
    requires forall i | 0 <= i < |lines| :: LineFree(lines[i])
    ensures SplitLines(Page(lines)) == lines
    ensures KeepLines(Page(lines)) == Broken(lines)
    ensures Concat(Broken(lines)) == Page(lines)
    decreases |lines|
  {
    if lines != [] {
      hide LineFree, SplitLines, KeepLines, Page, Broken, Concat;
      FirstOfPage(lines[0], Page(lines[1..]));
      PageNext(lines);
      PageSplits(lines[1..]);
      assert lines == [lines[0]] + lines[1..];
    }
  }

  lemma {:induction false} PutOther(es: seq<Entry>, k: string, v: Val, key: string)
    ensures Lookup(Put(es, k, v), key) == if k == key then Some(v) else Lookup(es, key)
    decreases |es|
  {
    if es != [] && es[0].key != k {
      PutOther(es[1..], k, v, key);
    }
  }

  lemma LoadStep(kids: seq<Kid>, es: seq<Entry>)
    requires kids != [] && Sound(kids)
    ensures SoundKid(kids[0]) && Sound(kids[1..])
    ensures Load(kids, es) == Load(kids[1..], Put(es, kids[0].key, Meaning(kids[0])))
  {
    hide SoundKid, Meaning;
  }

  // --------------------------------------------------------------------------- reading one line

  /** A character that neither quotes nor comments. */
  predicate Mild(c: char) { c != '"' && c != '\'' && c != '#' }

  lemma MildChar(c: char, t: string)
    requires Mild(c)
    ensures Uncommented([c] + t, None) == [c] + Uncommented(t, None)
  {
    assert ([c] + t)[0] == c && ([c] + t)[1..] == t;
  }

  lemma {:induction false} MildPrefix(a: string, b: string)
    requires forall c | c in a :: Mild(c)
    ensures Uncommented(a + b, None) == a + Uncommented(b, None)
    decreases |a|
  {
    hide Uncommented, Mild;
    if a == "" {
      assert a + b == b;
    } else {
      assert a[0] in a && a + b == [a[0]] + (a[1..] + b);
      MildPrefix(a[1..], b);
      MildChar(a[0], a[1..] + b);
      assert [a[0]] + (a[1..] + Uncommented(b, None)) == a + Uncommented(b, None);
    }
  }

  lemma {:induction false} Padded(n: nat, s: string)
    requires s != "" && !Space(s[0])
    ensures StripLeft(Spaces(n) + s) == s && Indent(Spaces(n) + s) == n
  {
    assert s[0] != ' ';
    if n == 0 {
      assert Spaces(0) + s == s;
    } else {
      Padded(n - 1, s);
      var t := Spaces(n) + s;
      assert t[0] == ' ' && t[1..] == Spaces(n - 1) + s;
    }
  }

  lemma {:induction false} ColonAt(key: string, t: string)
    requires ':' !in key
    ensures Colon(key + (":" + t)) == |key|
    decreases |key|
  {
    var s := key + (":" + t);
    if key != "" {
      assert key[0] in key && s[0] == key[0] && s[1..] == key[1..] + (":" + t);
      ColonAt(key[1..], t);
    }
  }

  lemma KeyIsMild(key: string)
    requires SimpleKey(key)
    ensures ':' !in key && (forall c | c in key :: Mild(c) && !LineBreak(c)) && Strip(key) == key
    ensures !Space(key[0]) && key[0] != '#'
  {
    assert key[0] in key && key[|key| - 1] in key;
    assert forall c :: KeyChar(c) ==> Mild(c) && !LineBreak(c) && !Space(c);
  }

  /** What may follow the colon of a line. */
  predicate Tail(tail: string) {
    tail == "" || (tail[0] == ' ' && SoundRaw(tail[1..]))
  }

  lemma FreeConcat(a: string, b: string)
    requires LineFree(a) && LineFree(b)
    ensures LineFree(a + b)
  {
  }

  lemma TailWhole(tail: string)
    requires Tail(tail)
    ensures Uncommented(":" + tail, None) == ":" + tail && LineFree(":" + tail)
  {
    MildChar(':', tail);
    if tail != "" {
      MildChar(' ', tail[1..]);
      assert tail == [' '] + tail[1..];
      FreeConcat(" ", tail[1..]);
    }
    FreeConcat(":", tail);
  }

  lemma LineWhole(pad: nat, key: string, tail: string)
    requires SimpleKey(key) && Tail(tail)
    ensures var line := Spaces(pad) + (key + (":" + tail)); Uncommented(line, None) == line && LineFree(line)
  {
    KeyIsMild(key);
    TailWhole(tail);
    hide Uncommented, SimpleKey, Tail;
    MildPrefix(key, ":" + tail);
    MildPrefix(Spaces(pad), key + (":" + tail));
    FreeConcat(key, ":" + tail);
    FreeConcat(Spaces(pad), key + (":" + tail));
  }

  lemma Trimmed(s: string)
    requires s != "" && !Space(s[0]) && !Space(s[|s| - 1])
    ensures StripLeft(s) == s && StripRight(s) == s && Strip(s) == s
  {
  }

  lemma ReadForms(l: string)
    ensures var line := StripRight(Uncommented(l, None));
            var content := Strip(line);
            content != "" && Colon(content) < |content| ==>
              Read(l) == Pair(Indent(line), Strip(content[..Colon(content)]), Strip(content[Colon(content) + 1..]))
  {
    hide StripRight, Uncommented, Strip, Colon, Indent;
  }

  lemma PairRead(pad: nat, key: string, tail: string)
    requires SimpleKey(key) && Tail(tail)
    ensures Read(Spaces(pad) + (key + (":" + tail))) == Pair(pad, key, if tail == "" then "" else tail[1..])
    ensures LineFree(Spaces(pad) + (key + (":" + tail)))
  {
    hide *;
    LineWhole(pad, key, tail);
    ContentRead(pad, key, tail);
    ContentParts(key, tail);
    ReadForms(Spaces(pad) + (key + (":" + tail)));
  }

  lemma ContentRead(pad: nat, key: string, tail: string)
    requires SimpleKey(key) && Tail(tail)
    ensures var content := key + (":" + tail);
            var line := Spaces(pad) + content;
            StripRight(line) == line && Strip(line) == content && Indent(line) == pad && content != ""
  {
    KeyIsMild(key);
    LastOf(key, tail);
    hide StripLeft, StripRight, Indent, Tail, SimpleKey;
    var content := key + (":" + tail);
    assert content[0] == key[0];
    Trimmed(content);
    Padded(pad, content);
    NoSpaceAtEnd(Spaces(pad) + content);
  }

  lemma ContentParts(key: string, tail: string)
    requires SimpleKey(key) && Tail(tail)
    ensures var content := key + (":" + tail);
            var c := Colon(content);
            c < |content| && Strip(content[..c]) == key
            && Strip(content[c + 1..]) == if tail == "" then "" else tail[1..]
  {
    KeyIsMild(key);
    TailRead(tail);
    ColonAt(key, tail);
    hide Strip, Colon, Tail, SimpleKey;
    var content := key + (":" + tail);
    assert content[..|key|] == key && content[|key| + 1..] == tail;
  }

  lemma LastOf(key: string, tail: string)
    requires Tail(tail)
    ensures var content := key + (":" + tail); !Space(content[|content| - 1])
  {
    if tail != "" {
      assert (":" + tail)[|tail|] == tail[|tail| - 1] == tail[1..][|tail| - 2];
    }
  }

  lemma NoSpaceAtEnd(line: string)
    requires line != "" && !Space(line[|line| - 1])
    ensures StripRight(line) == line
  {
  }

  lemma TailRead(tail: string)
    requires Tail(tail)
    ensures Strip(tail) == if tail == "" then "" else tail[1..]
  {
    if tail != "" {
      Trimmed(tail[1..]);
      assert tail == Spaces(1) + tail[1..] by { assert Spaces(1) == " "; }
      Padded(1, tail[1..]);
    }
  }

  // ---------------------------------------------------------------------- reading nested blocks

  function Top(st: Stack): int { if st.Base? then -1 else st.indent }

  lemma {:induction false} ClosedAgain(st: Stack, m: nat, n: nat)
    requires n <= m
    ensures Closed(Closed(st, m), n) == Closed(st, n)
    decreases Height(st)
  {
    if st.Above? && st.indent >= m {
      ClosedAgain(Noted(st.below, st.key, Map(st.entries)), m, n);
    }
  }

  lemma {:induction false} PutTwice(es: seq<Entry>, key: string, v: Val, w: Val)
    ensures Put(Put(es, key, v), key, w) == Put(es, key, w)
    decreases |es|
  {
    if es != [] && es[0].key != key {
      PutTwice(es[1..], key, v, w);
    }
  }

  lemma {:induction false} FedConcat(st: Stack, a: seq<string>, b: seq<string>)
    ensures FeedAll(st, a).Some? ==> FeedAll(st, a + b) == FeedAll(FeedAll(st, a).value, b)
    ensures FeedAll(st, a).None? ==> FeedAll(st, a + b).None?
    decreases |a|
  {
    if a == [] {
      assert a + b == b;
    } else {
      assert (a + b)[0] == a[0] && (a + b)[1..] == a[1..] + b;
      if Feed(st, a[0]).Some? {
        FedConcat(Feed(st, a[0]).value, a[1..], b);
      }
    }
  }

  /** Entering a block changes only what the enclosing mappings are closed to. */
  lemma FedSame(st: Stack, other: Stack, kids: seq<Kid>)
    requires kids != [] && SoundKid(kids[0]) && Closed(st, kids[0].pad) == Closed(other, kids[0].pad)
    ensures FeedAll(st, Lines(kids)) == FeedAll(other, Lines(kids))
  {
    var k := kids[0];
    HeadRead(k);
    assert Lines(kids) == KidLines(k) + Lines(kids[1..]);
    assert Lines(kids)[0] == KidLines(k)[0] == KidHead(k);
  }

  lemma HeadRead(k: Kid)
    requires SoundKid(k)
    ensures Read(KidHead(k)) == Pair(k.pad, k.key, if k.tree.Leaf? then k.tree.raw else "") && k.key != ""
    ensures LineFree(KidHead(k))
  {
    var tail := if k.tree.Leaf? then " " + k.tree.raw else "";
    if k.tree.Leaf? {
      assert tail[1..] == k.tree.raw;
    }
    PairRead(k.pad, k.key, tail);
  }

  lemma FirstKid(kids: seq<Kid>, outer: int)
    requires kids != [] && Sound(kids) && Nested(kids, outer)
    ensures SoundKid(kids[0]) && NestedKid(kids[0]) && kids[0].pad > outer
    ensures Sound(kids[1..]) && Nested(kids[1..], outer)
    ensures |kids| > 1 && kids[0].tree.Branch? ==> kids[1].pad <= kids[0].pad
    ensures |kids| > 1 ==> kids[1].pad > outer
  {
    hide SoundKid, NestedKid;
    var rest := kids[1..];
    assert forall i | 0 <= i < |rest| :: rest[i] == kids[i + 1];
  }

  lemma {:induction false} FedKids(st: Stack, kids: seq<Kid>, n: nat)
    requires Sound(kids) && Nested(kids, Top(st)) && Top(st) < n && (kids != [] ==> n <= kids[|kids| - 1].pad)
    ensures FeedAll(st, Lines(kids)).Some?
    ensures Closed(FeedAll(st, Lines(kids)).value, n) == st.(entries := Load(kids, st.entries))
    decreases kids, 1
  {
    hide SoundKid, Sound, Nested, NestedKid, KidLines, Meaning;
    if kids != [] {
      var k, rest := kids[0], kids[1..];
      FirstKid(kids, Top(st));
      FedKid(st, k);
      FedConcat(st, KidLines(k), Lines(rest));
      var r := FeedAll(st, KidLines(k)).value;
      var next := Noted(st, k.key, Meaning(k));
      if rest == [] {
        assert n <= k.pad && Closed(r, n) == next;
        assert Lines(rest) == [];
      } else {
        assert rest[0] == kids[1];
        assert Closed(r, rest[0].pad) == next == Closed(next, rest[0].pad);
        FirstKid(rest, Top(st));
        FedSame(r, next, rest);
        FedKids(next, rest, n);
      }
    }
  }

  lemma {:induction false} FedKid(st: Stack, k: Kid)
    requires SoundKid(k) && NestedKid(k) && k.pad > Top(st)
    ensures FeedAll(st, KidLines(k)).Some?
    ensures var r := FeedAll(st, KidLines(k)).value;
            forall p: nat :: Top(st) < p && (k.tree.Branch? ==> p <= k.pad) ==>
              Closed(r, p) == Noted(st, k.key, Meaning(k))
    decreases k, 0
  {
    if k.tree.Leaf? {
      LeafFed(st, k);
    } else {
      hide SoundRaw, SimpleKey, Closed, FeedAll, Lines, KidLines;
      var kids := k.tree.kids;
      var inner := Above(k.pad, k.key, [], Noted(st, k.key, Map([])));
      var m := if kids == [] then k.pad + 1 else kids[|kids| - 1].pad;
      FedKids(inner, kids, m);
      BranchFed(st, k);
      var r := FeedAll(inner, Lines(kids)).value;
      forall p: nat | Top(st) < p && p <= k.pad ensures Closed(r, p) == Noted(st, k.key, Meaning(k)) {
        ClosedAgain(r, m, p);
        BlockLeft(st, k, p);
      }
    }
  }

  lemma LeafFed(st: Stack, k: Kid)
    requires SoundKid(k) && k.tree.Leaf? && k.pad > Top(st)
    ensures FeedAll(st, KidLines(k)) == Some(Noted(st, k.key, Meaning(k)))
  {
    HeadRead(k);
    RawFilled(k);
    hide Read, ParseScalar, SoundKid;
    assert KidLines(k)[0] == KidHead(k) && KidLines(k)[1..] == [];
  }

  lemma BranchFed(st: Stack, k: Kid)
    requires SoundKid(k) && k.tree.Branch? && k.pad > Top(st)
    ensures FeedAll(st, KidLines(k)) == FeedAll(Above(k.pad, k.key, [], Noted(st, k.key, Map([]))), Lines(k.tree.kids))
  {
    HeadRead(k);
    hide Read, SoundKid, Lines;
    assert KidLines(k)[0] == KidHead(k) && KidLines(k)[1..] == Lines(k.tree.kids);
  }

  lemma BlockLeft(st: Stack, k: Kid, p: nat)
    requires SoundKid(k) && k.tree.Branch? && Top(st) < p <= k.pad
    ensures Closed(Above(k.pad, k.key, Load(k.tree.kids, []), Noted(st, k.key, Map([]))), p) == Noted(st, k.key, Meaning(k))
  {
    hide Load, Sound, SimpleKey;
    PutTwice(st.entries, k.key, Map([]), Meaning(k));
  }

  lemma RawFilled(k: Kid)
    requires SoundKid(k) && k.tree.Leaf?
    ensures k.tree.raw != "" && ParseScalar(k.tree.raw) == Some(Meaning(k))
  {
  }

  predicate AllFree(ls: seq<string>) { forall i | 0 <= i < |ls| :: LineFree(ls[i]) }

  lemma FreeApart(a: seq<string>, b: seq<string>)
    requires AllFree(a) && AllFree(b)
    ensures AllFree(a + b)
  {
    hide LineFree;
  }

  lemma {:induction false} KidFree(k: Kid)
    requires SoundKid(k)
    ensures AllFree(KidLines(k))
    decreases k, 0
  {
    HeadRead(k);
    hide SoundRaw, SimpleKey, LineFree, KidHead;
    assert AllFree([KidHead(k)]);
    if k.tree.Branch? {
      LinesFree(k.tree.kids);
      FreeApart([KidHead(k)], Lines(k.tree.kids));
    }
  }

  lemma {:induction false} LinesFree(kids: seq<Kid>)
    requires Sound(kids)
    ensures AllFree(Lines(kids))
    ensures forall i | 0 <= i < |Lines(kids)| :: LineFree(Lines(kids)[i])
    decreases kids, 1
  {
    hide SoundKid, LineFree, KidLines;
    if kids != [] {
      KidFree(kids[0]);
      LinesFree(kids[1..]);
      FreeApart(KidLines(kids[0]), Lines(kids[1..]));
    }
  }

  /** What a page of nested blocks means, whatever the indentation steps and repeated keys. */
  lemma ParsePage(kids: seq<Kid>)
    requires Sound(kids) && Nested(kids, -1)
    ensures Parse(Page(Lines(kids))) == Some(Load(kids, []))
  {
    LinesFree(kids);
    hide LineFree;
    PageSplits(Lines(kids));
    FedKids(Base([]), kids, 0);
  }

  // ------------------------------------------------------------------------ scalars read back

  /** How a printed value reads back: integers as text, the texts "true" and "false" as flags. */
  function Normal(v: Val): Val
    decreases v
  {
    match v
    case Text(s) => if s == "true" then Flag(true) else if s == "false" then Flag(false) else v
    case Whole(n) => Text(Decimal(n))
    case Flag(_) => v
    case List(items) => List(NormalAll(items))
    case Map(es) => Map(NormalEntries(es))
  }

  function NormalAll(items: seq<Val>): seq<Val>
    decreases items
  {
    if items == [] then [] else [Normal(items[0])] + NormalAll(items[1..])
  }

  function NormalEntries(es: seq<Entry>): seq<Entry>
    decreases es
  {
    if es == [] then [] else [Entry(es[0].key, Normal(es[0].value))] + NormalEntries(es[1..])
  }

  /** A token in the strict sense: no final line feed. */
  predicate Bare(s: string) { s != "" && forall c | c in s :: TokenChar(c) }

  lemma TokenFacts(c: char)
    requires TokenChar(c)
    ensures Mild(c) && !LineBreak(c) && !Space(c) && c !in "[]{},:"
  {
  }

  lemma BareRaw(s: string)
    requires Bare(s)
    ensures SoundRaw(s) && ParseScalar(s) == Some(Normal(Text(s)))
  {
    TokenFacts(s[0]);
    TokenFacts(s[|s| - 1]);
    forall c | c in s ensures Mild(c) && !LineBreak(c) {
      TokenFacts(c);
    }
    MildPrefix(s, "");
    assert s + "" == s;
    Trimmed(s);
    hide Uncommented, Mild;
    assert Uncommented("", None) == "";
    assert s != "{}" && !Enclosed(s, '[', ']') && !Enclosed(s, '{', '}');
  }

  lemma {:induction false} QuotePass(s: string, q: char)
    requires q !in s
    ensures Uncommented(s + [q], Some(q)) == s + [q]
    decreases |s|
  {
    var t := s + [q];
    if s != "" {
      assert s[0] in s && t[0] == s[0] && t[1..] == s[1..] + [q];
      QuotePass(s[1..], q);
    }
  }

  lemma QuotedWhole(s: string, q: char)
    requires (q == '"' || q == '\'') && q !in s && LineFree(s)
    ensures var raw := [q] + (s + [q]); Uncommented(raw, None) == raw && LineFree(raw)
  {
    QuotePass(s, q);
    FreeConcat(s, [q]);
    FreeConcat([q], s + [q]);
    var raw := [q] + (s + [q]);
    assert raw[0] == q && raw[1..] == s + [q];
  }

  /** No text that begins like this is one of the words or the empty mapping. */
  lemma NoWord(raw: string)
    requires raw != "" && raw[0] in "[\"'"
    ensures raw != "{}" && raw != "true" && raw != "false" && !Enclosed(raw, '{', '}')
  {
    assert "{}"[0] == '{' && "true"[0] == 't' && "false"[0] == 'f';
  }

  lemma QuotedRaw(s: string, q: char)
    requires (q == '"' || q == '\'') && q !in s && LineFree(s)
    ensures SoundRaw([q] + (s + [q])) && ParseScalar([q] + (s + [q])) == Some(Text(s))
  {
    var raw := [q] + (s + [q]);
    QuotedWhole(s, q);
    assert raw[0] == q == raw[|raw| - 1];
    hide Uncommented, LineFree;
    Trimmed(raw);
    NoWord(raw);
    hide Strip;
    assert Inner(raw) == s;
  }

  lemma {:induction false} DigitsBare(n: nat)
    ensures Bare(Digits(n)) && Digits(n)[0] != 't' && Digits(n)[0] != 'f'
  {
    var c := '0' + (n % 10) as char;
    assert '0' <= c <= '9';
    if n >= 10 {
      DigitsBare(n / 10);
    }
  }

  lemma DecimalBare(n: int)
    ensures Bare(Decimal(n)) && Normal(Text(Decimal(n))) == Text(Decimal(n))
  {
    DigitsBare(if n < 0 then -n else n);
    assert "true"[0] == 't' && "false"[0] == 'f';
  }

  /** All items are strict tokens. */
  predicate BareItems(items: seq<Val>) { forall i | 0 <= i < |items| :: items[i].Text? && Bare(items[i].s) }

  lemma {:induction false} SnipBare(c: Cut, s: string, t: string)
    requires c.quote.None? && forall x | x in s :: TokenChar(x) || x == ' '
    ensures SnipAll(c, s + t) == SnipAll(c.(buf := c.buf + s), t)
    decreases |s|
  {
    if s == "" {
      assert s + t == t && c.buf + s == c.buf;
    } else {
      assert s[0] in s && (s + t)[0] == s[0] && (s + t)[1..] == s[1..] + t;
      if s[0] != ' ' {
        TokenFacts(s[0]);
      }
      SnipBare(c.(buf := c.buf + [s[0]]), s[1..], t);
      assert c.buf + [s[0]] + s[1..] == c.buf + s;
    }
  }

  function Segments(lead: string, items: seq<Val>): seq<string>
    requires BareItems(items)
    decreases |items|
  {
    if items == [] then [] else [lead + items[0].s] + Segments(" ", items[1..])
  }

  lemma SegmentsStep(lead: string, items: seq<Val>)
    requires items != [] && BareItems(items)
    ensures items[0].Text? && Bare(items[0].s) && BareItems(items[1..])
    ensures Segments(lead, items) == [lead + items[0].s] + Segments(" ", items[1..])
    ensures |items| == 1 ==> Segments(lead, items) == [lead + items[0].s]
    ensures NormalAll(items) == [Normal(Text(items[0].s))] + NormalAll(items[1..])
  {
    hide Bare, Normal;
  }

  lemma EmitItemsNext(items: seq<Val>)
    requires items != [] && BareItems(items) && EmitItems(items).Some?
    ensures |items| == 1 ==> EmitItems(items).value == items[0].s
    ensures |items| > 1 ==> EmitItems(items[1..]).Some? &&
                            EmitItems(items).value == items[0].s + (", " + EmitItems(items[1..]).value)
  {
    hide Bare, IsToken;
    if |items| > 1 {
      var s, rest := items[0].s, EmitItems(items[1..]).value;
      assert s + ", " + rest == s + (", " + rest);
    }
  }

  lemma EndsOf(parts: seq<string>, buf: string)
    ensures SnipAll(Cut(parts, buf, None, 0), "") == Cut(parts, buf, None, 0)
    ensures buf != "" ==> Ends(Cut(parts, buf, None, 0)) == parts + [buf]
  {
  }

  lemma {:induction false} ItemsSplit(parts: seq<string>, lead: string, items: seq<Val>)
    requires items != [] && BareItems(items) && EmitItems(items).Some? && (lead == "" || lead == " ")
    ensures Ends(SnipAll(Cut(parts, lead, None, 0), EmitItems(items).value)) == parts + Segments(lead, items)
    decreases |items|
  {
    hide SnipAll, Segments, EmitItems, BareItems, Bare, Ends;
    SegmentsStep(lead, items);
    EmitItemsNext(items);
    var s := items[0].s;
    BareChars(s);
    var c := Cut(parts, lead, None, 0);
    if |items| == 1 {
      SnipBare(c, s, "");
      assert s + "" == s;
      EndsOf(parts, lead + s);
    } else {
      var rest := EmitItems(items[1..]).value;
      SnipBare(c, s, ", " + rest);
      CommaSnip(parts, lead + s, rest);
      ItemsSplit(parts + [lead + s], " ", items[1..]);
      assert parts + [lead + s] + Segments(" ", items[1..]) == parts + ([lead + s] + Segments(" ", items[1..]));
    }
  }

  lemma BareChars(s: string)
    requires Bare(s)
    ensures s != "" && forall c | c in s :: TokenChar(c)
  {
  }

  lemma CommaSnip(parts: seq<string>, buf: string, rest: string)
    ensures SnipAll(Cut(parts, buf, None, 0), ", " + rest) == SnipAll(Cut(parts + [buf], " ", None, 0), rest)
  {
    var t := ", " + rest;
    assert t[0] == ',' && t[1..] == " " + rest && t[1..][0] == ' ' && t[1..][1..] == rest;
    assert "" + " " == " ";
  }

  lemma ParseAllStep(parts: seq<string>, bound: nat)
    requires parts != [] && forall i: nat | i < |parts| :: |parts[i]| <= bound
    ensures var v, rest := ParseScalar(Strip(parts[0])), ParseAll(parts[1..], bound);
            ParseAll(parts, bound) == if v.None? || rest.None? then None else Some([v.value] + rest.value)
  {
    hide ParseScalar, Strip;
  }

  lemma {:induction false} SegmentsRead(lead: string, items: seq<Val>, bound: nat)
    requires BareItems(items) && (lead == "" || lead == " ")
    requires forall i: nat | i < |Segments(lead, items)| :: |Segments(lead, items)[i]| <= bound
    ensures ParseAll(Segments(lead, items), bound) == Some(NormalAll(items))
    decreases |items|
  {
    if items != [] {
      var segs := Segments(lead, items);
      SegmentsStep(lead, items);
      BareRaw(items[0].s);
      LeadStrip(lead, items[0].s);
      hide *;
      Tails(segs, lead + items[0].s, Segments(" ", items[1..]));
      SegmentsRead(" ", items[1..], bound);
      ParseAllStep(segs, bound);
    } else {
      NoSegments(lead, bound);
    }
  }

  lemma NoSegments(lead: string, bound: nat)
    ensures Segments(lead, []) == [] && NormalAll([]) == [] && ParseAll([], bound) == Some([])
  {
  }

  lemma Tails(parts: seq<string>, first: string, rest: seq<string>)
    requires parts == [first] + rest
    ensures parts != [] && parts[0] == first && parts[1..] == rest
    ensures forall i: nat | i < |rest| :: rest[i] == parts[i + 1]
  {
  }

  lemma LeadStrip(lead: string, s: string)
    requires Bare(s) && (lead == "" || lead == " ")
    ensures Strip(lead + s) == s
  {
    TokenFacts(s[0]);
    TokenFacts(s[|s| - 1]);
    Trimmed(s);
    if lead == "" {
      assert lead + s == s;
    } else {
      assert (lead + s)[1..] == s;
    }
  }

  lemma {:induction false} ItemsText(items: seq<Val>)
    requires BareItems(items) && EmitItems(items).Some?
    ensures var t := EmitItems(items).value;
            && (forall c | c in t :: Mild(c) && !LineBreak(c))
            && (items != [] ==> t != "" && !Space(t[0]) && !Space(t[|t| - 1]))
    decreases |items|
  {
    if items != [] {
      var s := items[0].s;
      assert Bare(s);
      forall c | c in s ensures Mild(c) && !LineBreak(c) && !Space(c) {
        TokenFacts(c);
      }
      assert s[0] in s && s[|s| - 1] in s;
      ItemsText(items[1..]);
    }
  }

  lemma ListWhole(t: string)
    requires forall c | c in t :: Mild(c) && !LineBreak(c)
    ensures Uncommented("[" + t + "]", None) == "[" + t + "]" && LineFree("[" + t + "]")
  {
    var raw := "[" + t + "]";
    MildPrefix(raw, "");
    assert raw + "" == raw && Uncommented("", None) == "";
  }

  lemma ListRead(items: seq<Val>, t: string)
    requires BareItems(items) && EmitItems(items) == Some(t) && items != []
    requires t != "" && !Space(t[0]) && !Space(t[|t| - 1])
    ensures Strip(t) == t
    ensures (forall i: nat | i < |SplitTop(t)| :: |SplitTop(t)[i]| <= |t|) && ParseAll(SplitTop(t), |t|) == Some(NormalAll(items))
  {
    Trimmed(t);
    ItemsSplit([], "", items);
    assert SplitTop(t) == [] + Segments("", items) == Segments("", items);
    SplitTopHeld(t);
    hide SplitTop, Segments;
    SegmentsRead("", items, |t|);
  }

  lemma ListRaw(items: seq<Val>)
    requires BareItems(items) && EmitItems(items).Some?
    ensures var raw := "[" + EmitItems(items).value + "]";
            SoundRaw(raw) && ParseScalar(raw) == Some(List(NormalAll(items)))
  {
    var t := EmitItems(items).value;
    var raw := "[" + t + "]";
    ItemsText(items);
    ListWhole(t);
    if items != [] {
      ListRead(items, t);
    }
    hide EmitItems, BareItems, Mild, SplitTop, Uncommented, LineFree;
    assert raw[0] == '[' && raw[|raw| - 1] == ']' && Inner(raw) == t;
    Trimmed(raw);
    NoWord(raw);
    hide Strip;
    if items == [] {
      EmptyStrip();
    }
  }

  lemma EmptyStrip()
    ensures Strip("") == "" && EmitItems([]) == Some("") && NormalAll([]) == []
  {
  }
}
