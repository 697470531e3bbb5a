/** The restricted YAML subset and its line-by-line parser. */
module ConfigParser {
  // Block mappings by indentation, inline lists, one level of flow mapping.

  import opened Documents
  import opened Strings

  /** What reading yields; a Whole exists only in mappings that are about to be printed. */
  datatype Val = Text(s: string) | Flag(b: bool) | Whole(n: int) | List(items: seq<Val>) | Map(entries: seq<Entry>)

  /** Mappings keep the order in which their keys came. */
  datatype Entry = Entry(key: string, value: Val)

  function Put(es: seq<Entry>, key: string, v: Val): seq<Entry> {
    if es == [] then [Entry(key, v)]
    else if es[0].key == key then [Entry(key, v)] + es[1..]
    else [es[0]] + Put(es[1..], key, v)
  }

  function Lookup(es: seq<Entry>, key: string): Option<Val> {
    if es == [] then None else if es[0].key == key then Some(es[0].value) else Lookup(es[1..], key)
  }

  /** The value at a path of keys. */
  function Get(v: Val, path: seq<string>): Option<Val>
    decreases |path|
  {
    if path == [] then Some(v)
    else if !v.Map? then None
    else
      var inner := Lookup(v.entries, path[0]);
      if inner.None? then None else Get(inner.value, path[1..])
  }

  // --------------------------------------------------------------------------------------- lines

  predicate LineBreak(c: char) {
    var k := c as int;
    10 <= k <= 13 || 28 <= k <= 30 || k == 133 || k == 8232 || k == 8233
  }

  predicate LineFree(s: string) { forall c | c in s :: !LineBreak(c) }

  function LineEnd(s: string): (k: nat)
    ensures k <= |s| && LineFree(s[..k]) && (k < |s| ==> LineBreak(s[k]))
  {
    if s == "" || LineBreak(s[0]) then 0
    else
      var k := LineEnd(s[1..]);
      assert s[..k + 1] == [s[0]] + s[1..][..k];
      k + 1
  }

  /** One line of a text together with its line break; "\r\n" is a single break. */
  function FirstLine(text: string): (n: nat)
    requires text != ""
    ensures 0 < n <= |text| && LineEnd(text) <= n
  {
    var k := LineEnd(text);
    if k == |text| then k
    else if text[k] == '\r' && k + 1 < |text| && text[k + 1] == '\n' then k + 2
    else k + 1
  }

  function SplitLines(text: string): seq<string>
    decreases |text|
  {
    if text == "" then [] else [text[..LineEnd(text)]] + SplitLines(text[FirstLine(text)..])
  }

  function KeepLines(text: string): seq<string>
    decreases |text|
  {
    if text == "" then [] else [text[..FirstLine(text)]] + KeepLines(text[FirstLine(text)..])
  }

  /** The line up to its comment; a hash inside quotes is not one. */
  function Uncommented(line: string, quote: Option<char>): (r: string)
    ensures r <= line
    decreases |line|
  {
    if line == "" then ""
    else if quote.Some? then
      [line[0]] + Uncommented(line[1..], if line[0] == quote.value then None else quote)
    else if line[0] == '"' || line[0] == '\'' then [line[0]] + Uncommented(line[1..], Some(line[0]))
    else if line[0] == '#' then ""
    else [line[0]] + Uncommented(line[1..], None)
  }

  function Indent(line: string): (n: nat)
    ensures n <= |line|
    decreases |line|
  {
    if line != "" && line[0] == ' ' then 1 + Indent(line[1..]) else 0
  }

  /** The position of the first colon, or the length when there is none. */
  function Colon(s: string): (k: nat)
    ensures k <= |s| && (k < |s| ==> s[k] == ':') && ':' !in s[..k]
    decreases |s|
  {
    if s == "" || s[0] == ':' then 0
    else
      var k := Colon(s[1..]);
      assert s[..k + 1] == [s[0]] + s[1..][..k];
      k + 1
  }

  datatype Line = Blank | NoColon | Pair(indent: nat, key: string, value: string)

  function Read(raw: string): Line {
    var line := StripRight(Uncommented(raw, None));
    var content := Strip(line);
    if content == "" then Blank
    else
      var c := Colon(content);
      if c == |content| then NoColon else Pair(Indent(line), Strip(content[..c]), Strip(content[c + 1..]))
  }

  // ------------------------------------------------------------------------------------- scalars

  datatype Cut = Cut(parts: seq<string>, buf: string, quote: Option<char>, depth: int)

  function Snip(c: Cut, ch: char): Cut {
    if c.quote.Some? then c.(buf := c.buf + [ch], quote := if ch == c.quote.value then None else c.quote)
    else if ch == '"' || ch == '\'' then c.(buf := c.buf + [ch], quote := Some(ch))
    else if ch == '[' || ch == '{' then c.(buf := c.buf + [ch], depth := c.depth + 1)
    else if ch == ']' || ch == '}' then c.(buf := c.buf + [ch], depth := c.depth - 1)
    else if ch == ',' && c.depth == 0 then c.(parts := c.parts + [c.buf], buf := "")
    else c.(buf := c.buf + [ch])
  }

  function SnipAll(c: Cut, s: string): Cut
    decreases |s|
  {
    if s == "" then c else SnipAll(Snip(c, s[0]), s[1..])
  }

  function Ends(c: Cut): seq<string> {
    if c.buf != "" || c.parts != [] then c.parts + [c.buf] else c.parts
  }

  /** The split at top-level commas. */
  function SplitTop(s: string): seq<string> {
    Ends(SnipAll(Cut([], "", None, 0), s))
  }

  method SplitTopLoop(s: string) returns (parts: seq<string>)
    ensures parts == SplitTop(s)
  {
    var c := Cut([], "", None, 0);
    assert s[0..] == s;
    for k := 0 to |s|
      invariant SnipAll(c, s[k..]) == SnipAll(Cut([], "", None, 0), s)
    {
      assert s[k..][0] == s[k] && s[k..][1..] == s[k + 1..];
      c := Snip(c, s[k]);
    }
    parts := Ends(c);
  }

  method UncommentLoop(line: string) returns (r: string)
    ensures r == Uncommented(line, None)
  {
    hide Uncommented;
    var quote: Option<char> := None;
    r := "";
    var k := 0;
    assert line[0..] == line;
    while k < |line|
      invariant 0 <= k <= |line| && r + Uncommented(line[k..], quote) == Uncommented(line, None)
    {
      var ch := line[k];
      UncommentStep(line[k..], quote);
      Advance(line, k);
      if quote.Some? {
        if ch == quote.value { quote := None; }
      } else if ch == '"' || ch == '\'' {
        quote := Some(ch);
      } else if ch == '#' {
        break;
      }
      Append(r, ch, Uncommented(line[k + 1..], quote));
      r := r + [ch];
      k := k + 1;
    }
    UncommentEnd(line[k..], quote);
    assert r + "" == r;
  }

  lemma Advance(line: string, k: nat)
    requires k < |line|
    ensures line[k..][0] == line[k] && line[k..][1..] == line[k + 1..]
  {
  }

  lemma Append(r: string, ch: char, rest: string)
    ensures r + ([ch] + rest) == r + [ch] + rest
  {
  }

  lemma UncommentStep(s: string, quote: Option<char>)
    requires s != ""
    ensures Uncommented(s, quote) ==
              if quote.Some? then [s[0]] + Uncommented(s[1..], if s[0] == quote.value then None else quote)
              else if s[0] == '"' || s[0] == '\'' then [s[0]] + Uncommented(s[1..], Some(s[0]))
              else if s[0] == '#' then "" else [s[0]] + Uncommented(s[1..], None)
  {
  }

  lemma UncommentEnd(s: string, quote: Option<char>)
    ensures s == "" || (quote.None? && s[0] == '#') ==> Uncommented(s, quote) == ""
  {
  }

  /** Every part of a cut is made of characters already read, and no longer than they are. */
  ghost predicate Held(c: Cut, n: nat, cs: set<char>) {
    && |c.buf| <= n && (forall x | x in c.buf :: x in cs)
    && forall i: nat | i < |c.parts| :: |c.parts[i]| <= n && forall x | x in c.parts[i] :: x in cs
  }

  lemma {:induction false} SnipAllHeld(c: Cut, s: string, n: nat, cs: set<char>)
    requires Held(c, n, cs) && forall x | x in s :: x in cs
    ensures Held(SnipAll(c, s), n + |s|, cs)
    decreases |s|
  {
    if s != "" {
      assert s[0] in s && forall x | x in s[1..] :: x in s;
      SnipAllHeld(Snip(c, s[0]), s[1..], n + 1, cs);
    }
  }

  lemma SplitTopHeld(s: string)
    ensures forall i: nat | i < |SplitTop(s)| :: |SplitTop(s)[i]| <= |s| && forall x | x in SplitTop(s)[i] :: x in s
  {
    SnipAllHeld(Cut([], "", None, 0), s, 0, set x | x in s);
  }

  predicate Enclosed(s: string, l: char, r: char) { |s| >= 2 && s[0] == l && s[|s| - 1] == r }

  function Inner(s: string): (r: string)
    requires |s| >= 2
    ensures |r| == |s| - 2 && forall c | c in r :: c in s
  {
    s[1..|s| - 1]
  }

  /** A scalar, an inline list or a flow mapping; None where the code raises. */
  function ParseScalar(text: string): Option<Val>
    decreases |text|, 0
  {
    var raw := Strip(text);
    if raw == "" || raw == "{}" then Some(Map([]))
    else if raw == "true" then Some(Flag(true))
    else if raw == "false" then Some(Flag(false))
    else if Enclosed(raw, '[', ']') then
      var inner := Strip(Inner(raw));
      if inner == "" then Some(List([]))
      else
        SplitTopHeld(inner);
        var vs := ParseAll(SplitTop(inner), |inner|);
        if vs.None? then None else Some(List(vs.value))
    else if Enclosed(raw, '{', '}') then
      var inner := Strip(Inner(raw));
      SplitTopHeld(inner);
      var es := ParsePairs(SplitTop(inner), |inner|, []);
      if es.None? then None else Some(Map(es.value))
    else if Enclosed(raw, '"', '"') || Enclosed(raw, '\'', '\'') then Some(Text(Inner(raw)))
    else Some(Text(raw))
  }

  function ParseAll(parts: seq<string>, bound: nat): Option<seq<Val>>
    requires forall i: nat | i < |parts| :: |parts[i]| <= bound
    decreases bound, 1, |parts|
  {
    if parts == [] then Some([])
    else
      var v := ParseScalar(Strip(parts[0]));
      var rest := ParseAll(parts[1..], bound);
      if v.None? || rest.None? then None else Some([v.value] + rest.value)
  }

  function ParsePairs(parts: seq<string>, bound: nat, es: seq<Entry>): Option<seq<Entry>>
    requires forall i: nat | i < |parts| :: |parts[i]| <= bound
    decreases bound, 1, |parts|
  {
    if parts == [] then Some(es)
    else
      var part := Strip(parts[0]);
      var c := Colon(part);
      if c == |part| then None
      else
        var value := Strip(part[c + 1..]);
        if value != "" && value[0] == '{' then None
        else
          var v := ParseScalar(value);
          if v.None? then None else ParsePairs(parts[1..], bound, Put(es, Strip(part[..c]), v.value))
  }

  // ----------------------------------------------------------------------------------- documents

  /** The mappings that are still open, innermost first; an inner one is already under its key. */
  datatype Stack = Base(entries: seq<Entry>) | Above(indent: nat, key: string, entries: seq<Entry>, below: Stack)

  function Height(st: Stack): nat {
    if st.Base? then 0 else 1 + Height(st.below)
  }

  function Noted(st: Stack, key: string, v: Val): (r: Stack)
    ensures Height(r) == Height(st)
  {
    st.(entries := Put(st.entries, key, v))
  }

  /** The stack after every mapping at this indent or deeper is left. */
  function Closed(st: Stack, indent: nat): (r: Stack)
    ensures r.Above? ==> r.indent < indent
    decreases Height(st)
  {
    if st.Above? && st.indent >= indent then Closed(Noted(st.below, st.key, Map(st.entries)), indent) else st
  }

  function Feed(st: Stack, raw: string): Option<Stack> {
    match Read(raw)
    case Blank => Some(st)
    case NoColon => None
    case Pair(indent, key, value) =>
      if key == "" then None
      else
        var parent := Closed(st, indent);
        if value == "" then Some(Above(indent, key, [], Noted(parent, key, Map([]))))
        else
          var v := ParseScalar(value);
          if v.None? then None else Some(Noted(parent, key, v.value))
  }

  function FeedAll(st: Stack, lines: seq<string>): Option<Stack>
    decreases |lines|
  {
    if lines == [] then Some(st)
    else
      var next := Feed(st, lines[0]);
      if next.None? then None else FeedAll(next.value, lines[1..])
  }

  /** The root mapping; None where the code raises. */
  function Parse(text: string): Option<seq<Entry>> {
    var st := FeedAll(Base([]), SplitLines(text));
    if st.None? then None else Some(Closed(st.value, 0).entries)
  }

  method ParseLoop(text: string) returns (root: Option<seq<Entry>>)
    ensures root == Parse(text)
  {
    var st, lines := Base([]), SplitLines(text);
    assert lines[0..] == lines;
    for k := 0 to |lines|
      invariant FeedAll(st, lines[k..]) == FeedAll(Base([]), lines)
    {
      assert lines[k..][0] == lines[k] && lines[k..][1..] == lines[k + 1..];
      ghost var before := st;
      match Read(lines[k]) {
        case Blank =>
        case NoColon => return None;
        case Pair(indent, key, value) =>
          if key == "" { return None; }
          while st.Above? && st.indent >= indent
            invariant Closed(st, indent) == Closed(before, indent)
            decreases Height(st)
          {
            st := Noted(st.below, st.key, Map(st.entries));
          }
          if value == "" {
            st := Above(indent, key, [], Noted(st, key, Map([])));
          } else {
            var v := ParseScalar(value);
            if v.None? { return None; }
            st := Noted(st, key, v.value);
          }
      }
      assert Some(st) == Feed(before, lines[k]);
    }
    root := Some(Closed(st, 0).entries);
  }

  // ------------------------------------------------------------- what reading can never produce

  /** No string anywhere inside holds a line break, and no integer occurs. */
  predicate Legible(v: Val)
    decreases v
  {
    match v
    case Text(s) => LineFree(s)
    case Flag(_) => true
    case Whole(_) => false
    case List(items) => forall i | 0 <= i < |items| :: Legible(items[i])
    case Map(es) => LegibleEntries(es)
  }

  predicate LegibleEntries(es: seq<Entry>)
    decreases es
  {
    forall i | 0 <= i < |es| :: LineFree(es[i].key) && Legible(es[i].value)
  }

  lemma {:induction false} PutLegible(es: seq<Entry>, key: string, v: Val)
    requires LegibleEntries(es) && LineFree(key) && Legible(v)
    ensures LegibleEntries(Put(es, key, v))
    decreases |es|
  {
    hide Legible, LineFree;
    if es != [] && es[0].key != key {
      PutLegible(es[1..], key, v);
    }
  }

  lemma PartsFree(inner: string)
    requires LineFree(inner)
    ensures forall i: nat | i < |SplitTop(inner)| :: |SplitTop(inner)[i]| <= |inner| && LineFree(SplitTop(inner)[i])
  {
    hide SplitTop;
    SplitTopHeld(inner);
  }

  lemma StripFree(s: string)
    requires LineFree(s)
    ensures LineFree(Strip(s)) && (|s| >= 2 ==> LineFree(Inner(s)))
  {
    hide Strip, Inner;
  }

  lemma {:induction false} ScalarLegible(text: string)
    requires LineFree(text)
    ensures ParseScalar(text).Some? ==> Legible(ParseScalar(text).value)
    decreases |text|, 0
  {
    hide SplitTop, Strip, Put, LineFree, Inner, ParseAll, ParsePairs;
    var raw := Strip(text);
    StripFree(text);
    StripFree(raw);
    if |raw| >= 2 {
      var inner := Strip(Inner(raw));
      StripFree(Inner(raw));
      PartsFree(inner);
      if Enclosed(raw, '[', ']') {
        AllLegible(SplitTop(inner), |inner|);
      } else if Enclosed(raw, '{', '}') {
        PairsLegible(SplitTop(inner), |inner|, []);
      }
    }
  }

  lemma {:induction false} AllLegible(parts: seq<string>, bound: nat)
    requires forall i: nat | i < |parts| :: |parts[i]| <= bound && LineFree(parts[i])
    ensures var vs := ParseAll(parts, bound);
            vs.Some? ==> forall i | 0 <= i < |vs.value| :: Legible(vs.value[i])
    decreases bound, 1, |parts|
  {
    if parts != [] {
      assert LineFree(Strip(parts[0]));
      hide LineFree, Strip, Legible, ParseScalar;
      ScalarLegible(Strip(parts[0]));
      AllLegible(parts[1..], bound);
    }
  }

  lemma {:induction false} PairsLegible(parts: seq<string>, bound: nat, es: seq<Entry>)
    requires forall i: nat | i < |parts| :: |parts[i]| <= bound && LineFree(parts[i])
    requires LegibleEntries(es)
    ensures var r := ParsePairs(parts, bound, es);
            r.Some? ==> LegibleEntries(r.value)
    decreases bound, 1, |parts|
  {
    if parts != [] {
      var part := Strip(parts[0]);
      var c := Colon(part);
      if c < |part| {
        var key, value := Strip(part[..c]), Strip(part[c + 1..]);
        assert LineFree(key) && LineFree(value);
        hide LineFree, Strip, LegibleEntries, ParseScalar;
        ScalarLegible(value);
        var v := ParseScalar(value);
        if v.Some? {
          PutLegible(es, key, v.value);
          PairsLegible(parts[1..], bound, Put(es, key, v.value));
        }
      }
    }
  }

  ghost predicate LegibleStack(st: Stack) {
    LegibleEntries(st.entries) && (st.Above? ==> LineFree(st.key) && LegibleStack(st.below))
  }

  lemma {:induction false} ClosedLegible(st: Stack, indent: nat)
    requires LegibleStack(st)
    ensures LegibleStack(Closed(st, indent))
    decreases Height(st)
  {
    hide LineFree;
    if st.Above? && st.indent >= indent {
      PutLegible(st.below.entries, st.key, Map(st.entries));
      ClosedLegible(Noted(st.below, st.key, Map(st.entries)), indent);
    }
  }

  lemma ReadLegible(raw: string)
    requires LineFree(raw)
    ensures Read(raw).Pair? ==> LineFree(Read(raw).key) && LineFree(Read(raw).value)
  {
    var line := StripRight(Uncommented(raw, None));
    assert forall c | c in Uncommented(raw, None) :: c in raw;
    var content := Strip(line);
    assert forall c | c in content :: c in raw;
    assert forall c | c in content[..Colon(content)] :: c in content;
  }

  lemma FeedLegible(st: Stack, raw: string)
    requires LegibleStack(st) && LineFree(raw)
    ensures Feed(st, raw).Some? ==> LegibleStack(Feed(st, raw).value)
  {
    hide LineFree, Read, ParseScalar, LegibleEntries;
    ReadLegible(raw);
    var line := Read(raw);
    if line.Pair? {
      var parent := Closed(st, line.indent);
      ClosedLegible(st, line.indent);
      ScalarLegible(line.value);
      Empty();
      PutLegible(parent.entries, line.key, Map([]));
      if ParseScalar(line.value).Some? {
        PutLegible(parent.entries, line.key, ParseScalar(line.value).value);
      }
    }
  }

  lemma Empty()
    ensures LegibleEntries([]) && Legible(Map([]))
  {
  }

  lemma {:induction false} FeedAllLegible(st: Stack, lines: seq<string>)
    requires LegibleStack(st) && forall i | 0 <= i < |lines| :: LineFree(lines[i])
    ensures FeedAll(st, lines).Some? ==> LegibleStack(FeedAll(st, lines).value)
    decreases |lines|
  {
    hide LineFree, LegibleStack, Feed;
    if lines != [] {
      FeedLegible(st, lines[0]);
      if Feed(st, lines[0]).Some? {
        FeedAllLegible(Feed(st, lines[0]).value, lines[1..]);
      }
    }
  }

  lemma {:induction false} SplitLinesFree(text: string)
    ensures forall i | 0 <= i < |SplitLines(text)| :: LineFree(SplitLines(text)[i])
    decreases |text|
  {
    hide LineFree;
    if text != "" {
      SplitLinesFree(text[FirstLine(text)..]);
    }
  }

  /** Whatever a text holds, nothing read from it contains a line break or an integer. */
  lemma ParseLegible(text: string)
    requires Parse(text).Some?
    ensures LegibleEntries(Parse(text).value)
  {
    hide LegibleEntries;
    SplitLinesFree(text);
    Empty();
    FeedAllLegible(Base([]), SplitLines(text));
    ClosedLegible(FeedAll(Base([]), SplitLines(text)).value, 0);
  }

  lemma {:induction false} GetLegible(v: Val, path: seq<string>)
    requires Legible(v)
    ensures Get(v, path).Some? ==> Legible(Get(v, path).value)
    decreases |path|
  {
    if path != [] && v.Map? {
      LookupLegible(v.entries, path[0]);
      if Lookup(v.entries, path[0]).Some? {
        GetLegible(Lookup(v.entries, path[0]).value, path[1..]);
      }
    }
  }

  lemma {:induction false} LookupLegible(es: seq<Entry>, key: string)
    requires LegibleEntries(es)
    ensures Lookup(es, key).Some? ==> Legible(Lookup(es, key).value)
    decreases |es|
  {
    hide Legible;
    if es != [] && es[0].key != key {
      LookupLegible(es[1..], key);
    }
  }
}
