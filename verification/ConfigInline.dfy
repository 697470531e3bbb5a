/** What a value on one line means. */
module ConfigInline {
  // Words, quoted texts, lists and flow mappings, nested as the code allows it: printed and read back they are what
  // the tree says, also with white space and a comment behind them.

  import opened Documents
  import opened Strings
  import opened ConfigParser
  import opened ConfigPrinter
  import opened ConfigReadBack
  import opened ConfigPages
  import opened ConfigCommand

  datatype Inline =
    | Word(s: string)
    | Quoted(quote: char, s: string)
    | Several(items: seq<Inline>)
    | Flow(pairs: seq<Pairing>)

  datatype Pairing = Pairing(key: string, value: Inline)

  function Write(i: Inline): string
    decreases i
  {
    match i
    case Word(s) => s
    case Quoted(quote, s) => [quote] + (s + [quote])
    case Several(items) => "[" + (WriteAll(items) + "]")
    case Flow(pairs) => "{" + (WritePairs(pairs) + "}")
  }

  function WriteAll(items: seq<Inline>): string
    decreases items
  {
    if items == [] then "" else if |items| == 1 then Write(items[0]) else Write(items[0]) + (", " + WriteAll(items[1..]))
  }

  function WritePair(p: Pairing): string
    decreases p
  {
    p.key + (": " + Write(p.value))
  }

  function WritePairs(pairs: seq<Pairing>): string
    decreases pairs
  {
    if pairs == [] then "" else if |pairs| == 1 then WritePair(pairs[0]) else WritePair(pairs[0]) + (", " + WritePairs(pairs[1..]))
  }

  /** Neither white space at its ends, nor a quote, a bracket, a brace, a comma or a comment sign. */
  predicate Plainly(s: string) {
    && s != "" && !Space(s[0]) && !Space(s[|s| - 1])
    && forall k | 0 <= k < |s| :: s[k] !in "\"'[]{},#" && !LineBreak(s[k])
  }

  /** Words and keys are plain, a quoted text does not hold its quote, nothing holds a line break, and a flow mapping
      has a pair. */
  predicate Sayable(i: Inline)
    decreases i
  {
    match i
    case Word(s) => Plainly(s)
    case Quoted(quote, s) => (quote == '"' || quote == '\'') && quote !in s && LineFree(s)
    case Several(items) => AllSayable(items)
    case Flow(pairs) => pairs != [] && PairsSayable(pairs)
  }

  predicate AllSayable(items: seq<Inline>)
    decreases items
  {
    items != [] ==> Sayable(items[0]) && AllSayable(items[1..])
  }

  predicate PairsSayable(pairs: seq<Pairing>)
    decreases pairs
  {
    pairs != [] ==> Plainly(pairs[0].key) && ':' !in pairs[0].key && Sayable(pairs[0].value) && PairsSayable(pairs[1..])
  }

  // --------------------------------------------------------------------------------------- meaning

  /** true and false are flags, any other word is itself; a flow mapping straight inside a flow mapping is refused. */
  function Says(i: Inline): Option<Val>
    decreases i
  {
    match i
    case Word(s) => Some(if s == "true" then Flag(true) else if s == "false" then Flag(false) else Text(s))
    case Quoted(_, s) => Some(Text(s))
    case Several(items) =>
      var vs := SaysAll(items);
      if vs.None? then None else Some(List(vs.value))
    case Flow(pairs) =>
      var es := SaysPairs(pairs, []);
      if es.None? then None else Some(Map(es.value))
  }

  function SaysAll(items: seq<Inline>): (r: Option<seq<Val>>)
    decreases items
  {
    if items == [] then Some([])
    else
      var v, rest := Says(items[0]), SaysAll(items[1..]);
      if v.None? || rest.None? then None else Some([v.value] + rest.value)
  }

  /** The pairs put, in turn, into the mapping so far. */
  function SaysPairs(pairs: seq<Pairing>, es: seq<Entry>): Option<seq<Entry>>
    decreases pairs
  {
    if pairs == [] then Some(es)
    else if pairs[0].value.Flow? || Says(pairs[0].value).None? then None
    else SaysPairs(pairs[1..], Put(es, pairs[0].key, Says(pairs[0].value).value))
  }

  // --------------------------------------------------------------------------------- written values

  lemma WriteEnds(i: Inline)
    requires Sayable(i)
    ensures var s := Write(i); s != "" && !Space(s[0]) && !Space(s[|s| - 1]) && Strip(s) == s && Strip(" " + s) == s
  {
    var s := Write(i);
    assert s != "" && !Space(s[0]) && !Space(s[|s| - 1]) by {
      match i
      case Several(items) => assert s[|s| - 1] == ']';
      case Flow(pairs) => assert s[|s| - 1] == '}';
      case _ =>
    }
    hide Write, Sayable;
    Trimmed(s);
    assert (" " + s)[0] == ' ' && (" " + s)[1..] == s;
    assert StripLeft(" " + s) == StripLeft(s);
  }

  // ------------------------------------------------------------------------------- taking it apart

  /** The text is read into the current part, and nothing is left open. */
  ghost predicate Gathers(c: Cut, s: string) { SnipAll(c, s) == c.(buf := c.buf + s) }

  lemma {:induction false} SnipJoins(c: Cut, a: string, b: string)
    ensures SnipAll(c, a + b) == SnipAll(SnipAll(c, a), b)
    decreases |a|
  {
    hide Snip;
    if a == "" {
      assert a + b == b;
    } else {
      assert (a + b)[1..] == a[1..] + b;
      SnipJoins(Snip(c, a[0]), a[1..], b);
    }
  }

  lemma HeldJoin(c: Cut, a: string, b: string)
    requires Gathers(c, a) && Gathers(c.(buf := c.buf + a), b)
    ensures Gathers(c, a + b)
  {
    SnipJoins(c, a, b);
    assert c.buf + a + b == c.buf + (a + b);
  }

  lemma {:induction false} PlainHeld(c: Cut, s: string)
    requires c.quote == None && forall k | 0 <= k < |s| :: s[k] !in "\"'[]{},"
    ensures Gathers(c, s)
    decreases |s|
  {
    if s == "" {
      assert c.buf + "" == c.buf;
    } else {
      PlainHeld(Snip(c, s[0]), s[1..]);
      assert c.buf + [s[0]] + s[1..] == c.buf + s;
    }
  }

  lemma {:induction false} QuoteHeld(c: Cut, s: string, q: char)
    requires c.quote == Some(q) && q !in s
    ensures SnipAll(c, s + [q]) == c.(buf := c.buf + (s + [q]), quote := None)
    decreases |s|
  {
    var t := s + [q];
    if s == "" {
      assert t[1..] == "" && SnipAll(Snip(c, q), "") == Snip(c, q);
    } else {
      assert t[0] == s[0] && s[0] in s && t[1..] == s[1..] + [q];
      QuoteHeld(Snip(c, s[0]), s[1..], q);
      assert c.buf + [s[0]] + (s[1..] + [q]) == c.buf + t;
    }
  }

  /** Inside brackets or braces. */
  lemma NestHeld(c: Cut, l: char, s: string, r: char)
    requires c.quote == None && ((l == '[' && r == ']') || (l == '{' && r == '}'))
    requires Gathers(c.(depth := c.depth + 1, buf := c.buf + [l]), s)
    ensures Gathers(c, [l] + (s + [r]))
  {
    var inside := c.(depth := c.depth + 1, buf := c.buf + [l]);
    var t := [l] + (s + [r]);
    assert t[1..] == s + [r] && Snip(c, l) == inside;
    SnipJoins(inside, s, [r]);
    var end := SnipAll(inside, s);
    assert [r][1..] == "" && SnipAll(end, [r]) == SnipAll(Snip(end, r), "");
    assert c.buf + [l] + s + [r] == c.buf + t;
  }

  lemma CommaHeld(c: Cut)
    requires c.quote == None && c.depth > 0
    ensures Gathers(c, ", ")
  {
    assert ", "[1..] == " " && " "[1..] == "";
    assert SnipAll(c, ", ") == SnipAll(Snip(Snip(c, ','), ' '), "");
    assert c.buf + [','] + [' '] == c.buf + ", ";
  }

  lemma {:induction false} WriteHeld(i: Inline, c: Cut)
    requires Sayable(i) && c.quote == None && c.depth >= 0
    ensures Gathers(c, Write(i))
    decreases i, 1
  {
    hide Gathers;
    match i
    case Word(s) => PlainHeld(c, s);
    case Quoted(q, s) =>
      var t := [q] + (s + [q]);
      assert t[1..] == s + [q] && Snip(c, q) == c.(buf := c.buf + [q], quote := Some(q));
      QuoteHeld(c.(buf := c.buf + [q], quote := Some(q)), s, q);
      assert c.buf + [q] + (s + [q]) == c.buf + t;
      HeldIs(c, t);
    case Several(items) =>
      AllHeld(items, c.(depth := c.depth + 1, buf := c.buf + "["));
      NestHeld(c, '[', WriteAll(items), ']');
    case Flow(pairs) =>
      PairsHeld(pairs, c.(depth := c.depth + 1, buf := c.buf + "{"));
      NestHeld(c, '{', WritePairs(pairs), '}');
  }

  lemma HeldIs(c: Cut, s: string)
    ensures Gathers(c, s) <==> SnipAll(c, s) == c.(buf := c.buf + s)
  {
  }

  lemma {:induction false} AllHeld(items: seq<Inline>, c: Cut)
    requires AllSayable(items) && c.quote == None && c.depth > 0
    ensures Gathers(c, WriteAll(items))
    decreases items
  {
    hide Gathers;
    if items == [] {
      PlainHeld(c, "");
    } else {
      WriteHeld(items[0], c);
      if |items| > 1 {
        var p := Write(items[0]);
        var here := c.(buf := c.buf + p);
        CommaHeld(here);
        AllHeld(items[1..], here.(buf := here.buf + ", "));
        HeldJoin(here, ", ", WriteAll(items[1..]));
        HeldJoin(c, p, ", " + WriteAll(items[1..]));
      }
    }
  }

  lemma {:induction false} PairHeld(p: Pairing, c: Cut)
    requires Plainly(p.key) && Sayable(p.value) && c.quote == None && c.depth >= 0
    ensures Gathers(c, WritePair(p))
    decreases p.value, 2
  {
    hide Gathers, Write, Sayable;
    PlainHeld(c, p.key);
    var here := c.(buf := c.buf + p.key);
    PlainHeld(here, ": ");
    WriteHeld(p.value, here.(buf := here.buf + ": "));
    HeldJoin(here, ": ", Write(p.value));
    HeldJoin(c, p.key, ": " + Write(p.value));
  }

  lemma {:induction false} PairsHeld(pairs: seq<Pairing>, c: Cut)
    requires PairsSayable(pairs) && c.quote == None && c.depth > 0
    ensures Gathers(c, WritePairs(pairs))
    decreases pairs
  {
    hide Gathers, Plainly, Sayable, WritePair;
    if pairs == [] {
      PlainHeld(c, "");
    } else {
      PairHeld(pairs[0], c);
      if |pairs| > 1 {
        var p := WritePair(pairs[0]);
        var here := c.(buf := c.buf + p);
        CommaHeld(here);
        PairsHeld(pairs[1..], here.(buf := here.buf + ", "));
        HeldJoin(here, ", ", WritePairs(pairs[1..]));
        HeldJoin(c, p, ", " + WritePairs(pairs[1..]));
      }
    }
  }

  // ------------------------------------------------------------------------------------ reading it back

  function Segs(lead: string, items: seq<Inline>): seq<string>
    decreases items
  {
    if items == [] then [] else [lead + Write(items[0])] + Segs(" ", items[1..])
  }

  function PairSegs(lead: string, pairs: seq<Pairing>): seq<string>
    decreases pairs
  {
    if pairs == [] then [] else [lead + WritePair(pairs[0])] + PairSegs(" ", pairs[1..])
  }

  lemma CutNext(parts: seq<string>, buf: string, rest: string)
    ensures SnipAll(Cut(parts, buf, None, 0), ", " + rest) == SnipAll(Cut(parts + [buf], " ", None, 0), rest)
  {
    var s := ", " + rest;
    assert s[1..] == " " + rest && (" " + rest)[1..] == rest && "" + [' '] == " ";
  }

  lemma ItemsAre(items: seq<Inline>)
    requires AllSayable(items) && items != []
    ensures Sayable(items[0]) && AllSayable(items[1..])
    ensures |items| == 1 ==> WriteAll(items) == Write(items[0]) && items[1..] == []
    ensures |items| > 1 ==> WriteAll(items) == Write(items[0]) + (", " + WriteAll(items[1..]))
    ensures forall lead :: Segs(lead, items) == [lead + Write(items[0])] + Segs(" ", items[1..])
  {
    hide Write, Sayable;
  }

  lemma NoSegs(lead: string)
    ensures Segs(lead, []) == [] && PairSegs(lead, []) == []
  {
  }

  lemma CutLast(parts: seq<string>, buf: string)
    requires buf != ""
    ensures Ends(Cut(parts, buf, None, 0)) == parts + [buf]
  {
  }

  lemma {:induction false} ItemsSplit(items: seq<Inline>, parts: seq<string>, lead: string)
    requires AllSayable(items) && items != []
    ensures Ends(SnipAll(Cut(parts, lead, None, 0), WriteAll(items))) == parts + Segs(lead, items)
    decreases items
  {
    hide *;
    ItemsAre(items);
    var c, p := Cut(parts, lead, None, 0), Write(items[0]);
    WriteHeld(items[0], c);
    HeldIs(c, p);
    WriteEnds(items[0]);
    if |items| == 1 {
      NoSegs(" ");
      CutLast(parts, lead + p);
    } else {
      SnipJoins(c, p, ", " + WriteAll(items[1..]));
      CutNext(parts, lead + p, WriteAll(items[1..]));
      ItemsSplit(items[1..], parts + [lead + p], " ");
      assert parts + [lead + p] + Segs(" ", items[1..]) == parts + ([lead + p] + Segs(" ", items[1..]));
    }
  }

  lemma PairsAre(pairs: seq<Pairing>)
    requires PairsSayable(pairs) && pairs != []
    ensures Plainly(pairs[0].key) && ':' !in pairs[0].key && Sayable(pairs[0].value) && PairsSayable(pairs[1..])
    ensures |pairs| == 1 ==> WritePairs(pairs) == WritePair(pairs[0]) && pairs[1..] == []
    ensures |pairs| > 1 ==> WritePairs(pairs) == WritePair(pairs[0]) + (", " + WritePairs(pairs[1..]))
    ensures forall lead :: PairSegs(lead, pairs) == [lead + WritePair(pairs[0])] + PairSegs(" ", pairs[1..])
  {
    hide WritePair, Sayable, Plainly;
  }

  lemma PairEnds(p: Pairing)
    requires Plainly(p.key) && Sayable(p.value)
    ensures var s := WritePair(p); s != "" && !Space(s[0]) && !Space(s[|s| - 1]) && Strip(s) == s && Strip(" " + s) == s
  {
    WriteEnds(p.value);
    hide Write, Sayable;
    var s, v := WritePair(p), Write(p.value);
    assert s == p.key + ": " + v;
    assert s[0] == p.key[0] && s[|s| - 1] == v[|v| - 1];
    hide Plainly, WritePair;
    Trimmed(s);
    assert (" " + s)[0] == ' ' && (" " + s)[1..] == s;
    assert StripLeft(" " + s) == StripLeft(s);
  }

  lemma {:induction false} PairsSplit(pairs: seq<Pairing>, parts: seq<string>, lead: string)
    requires PairsSayable(pairs) && pairs != []
    ensures Ends(SnipAll(Cut(parts, lead, None, 0), WritePairs(pairs))) == parts + PairSegs(lead, pairs)
    decreases pairs
  {
    hide *;
    PairsAre(pairs);
    var c, p := Cut(parts, lead, None, 0), WritePair(pairs[0]);
    PairHeld(pairs[0], c);
    HeldIs(c, p);
    PairEnds(pairs[0]);
    if |pairs| == 1 {
      NoSegs(" ");
      CutLast(parts, lead + p);
    } else {
      SnipJoins(c, p, ", " + WritePairs(pairs[1..]));
      CutNext(parts, lead + p, WritePairs(pairs[1..]));
      PairsSplit(pairs[1..], parts + [lead + p], " ");
      assert parts + [lead + p] + PairSegs(" ", pairs[1..]) == parts + ([lead + p] + PairSegs(" ", pairs[1..]));
    }
  }

  lemma WordReads(s: string)
    requires Plainly(s)
    ensures ParseScalar(s) == Says(Word(s))
  {
    Trimmed(s);
    hide Strip;
    assert s[0] !in "\"'[]{},#" && s[|s| - 1] !in "\"'[]{},#";
    assert s != "{}";
  }

  /** Brackets around a text that is tight, or empty. */
  lemma ListForms(inner: string)
    requires inner == "" || (!Space(inner[0]) && !Space(inner[|inner| - 1]))
    ensures forall i: nat | i < |SplitTop(inner)| :: |SplitTop(inner)[i]| <= |inner|
    ensures ParseScalar("[" + (inner + "]")) ==
              if inner == "" then Some(List([]))
              else
                var vs := ParseAll(SplitTop(inner), |inner|);
                if vs.None? then None else Some(List(vs.value))
  {
    var raw := "[" + (inner + "]");
    SplitTopHeld(inner);
    Trimmed(raw);
    if inner != "" {
      Trimmed(inner);
    }
    NoWord(raw);
    assert Inner(raw) == inner && Enclosed(raw, '[', ']');
    hide Strip, SplitTop, ParseAll;
    EmptyStrip();
  }

  lemma FlowForms(inner: string)
    requires inner != "" && !Space(inner[0]) && !Space(inner[|inner| - 1])
    ensures forall i: nat | i < |SplitTop(inner)| :: |SplitTop(inner)[i]| <= |inner|
    ensures ParseScalar("{" + (inner + "}")) ==
              var es := ParsePairs(SplitTop(inner), |inner|, []);
              if es.None? then None else Some(Map(es.value))
  {
    var raw := "{" + (inner + "}");
    SplitTopHeld(inner);
    Trimmed(raw);
    Trimmed(inner);
    assert raw[0] == '{' && |raw| > 2;
    assert Inner(raw) == inner && Enclosed(raw, '{', '}') && !Enclosed(raw, '[', ']');
    assert raw != "{}" && raw != "true" && raw != "false";
    hide Strip, SplitTop, ParsePairs;
  }

  lemma AllEnds(items: seq<Inline>)
    requires AllSayable(items)
    ensures var s := WriteAll(items); (s == "" <==> items == []) && (s != "" ==> !Space(s[0]) && !Space(s[|s| - 1]))
    decreases items
  {
    hide Write, Sayable;
    if items != [] {
      WriteEnds(items[0]);
      if |items| > 1 {
        AllEnds(items[1..]);
      }
    }
  }

  lemma PairsEnds(pairs: seq<Pairing>)
    requires PairsSayable(pairs)
    ensures var s := WritePairs(pairs); (s == "" <==> pairs == []) && (s != "" ==> !Space(s[0]) && !Space(s[|s| - 1]))
    decreases pairs
  {
    hide WritePair, Sayable, Plainly;
    if pairs != [] {
      PairEnds(pairs[0]);
      if |pairs| > 1 {
        PairsEnds(pairs[1..]);
      }
    }
  }

  /** A value on one line is read as the tree says, or refused where the tree says so. */
  lemma {:induction false} InlineReads(i: Inline)
    requires Sayable(i)
    ensures ParseScalar(Write(i)) == Says(i)
    decreases i, 1
  {
    hide ParseScalar, SaysAll, SaysPairs, Plainly;
    match i
    case Word(s) => WordReads(s);
    case Quoted(q, s) => QuotedRaw(s, q);
    case Several(items) =>
      AllEnds(items);
      ListForms(WriteAll(items));
      if items != [] {
        ItemsSplit(items, [], "");
        SplitIs(WriteAll(items));
        assert [] + Segs("", items) == Segs("", items);
        ItemsRead("", items, |WriteAll(items)|);
      }
      SaysNone();
    case Flow(pairs) =>
      PairsEnds(pairs);
      FlowForms(WritePairs(pairs));
      PairsSplit(pairs, [], "");
      SplitIs(WritePairs(pairs));
      assert [] + PairSegs("", pairs) == PairSegs("", pairs);
      PairsRead("", pairs, |WritePairs(pairs)|, []);
  }

  lemma SplitIs(s: string)
    ensures SplitTop(s) == Ends(SnipAll(Cut([], "", None, 0), s))
  {
  }

  lemma SaysNone()
    ensures SaysAll([]) == Some([])
  {
  }

  lemma SaysMore(items: seq<Inline>)
    requires items != []
    ensures SaysAll(items) ==
              var v, rest := Says(items[0]), SaysAll(items[1..]);
              if v.None? || rest.None? then None else Some([v.value] + rest.value)
  {
  }

  lemma SegTail(segs: seq<string>, first: string, rest: seq<string>, bound: nat)
    requires segs == [first] + rest && forall k: nat | k < |segs| :: |segs[k]| <= bound
    ensures segs[0] == first && segs[1..] == rest && forall k: nat | k < |rest| :: |rest[k]| <= bound
  {
    forall k: nat | k < |rest| ensures |rest[k]| <= bound {
      assert rest[k] == segs[k + 1];
    }
  }

  lemma NoAll(bound: nat, es: seq<Entry>)
    ensures ParseAll([], bound) == Some([]) && ParsePairs([], bound, es) == Some(es)
  {
  }

  lemma LeadGone(lead: string, s: string)
    requires (lead == "" || lead == " ") && Strip(s) == s && Strip(" " + s) == s
    ensures Strip(lead + s) == s
  {
    hide Strip;
    assert "" + s == s;
  }

  lemma {:induction false} ItemsRead(lead: string, items: seq<Inline>, bound: nat)
    requires AllSayable(items) && (lead == "" || lead == " ")
    requires forall k: nat | k < |Segs(lead, items)| :: |Segs(lead, items)[k]| <= bound
    ensures ParseAll(Segs(lead, items), bound) == SaysAll(items)
    decreases items
  {
    hide *;
    if items == [] {
      NoSegs(lead);
      NoAll(bound, []);
      SaysNone();
    } else {
      ItemsAre(items);
      WriteEnds(items[0]);
      LeadGone(lead, Write(items[0]));
      var segs := Segs(lead, items);
      SegTail(segs, lead + Write(items[0]), Segs(" ", items[1..]), bound);
      ParseAllStep(segs, bound);
      InlineReads(items[0]);
      ItemsRead(" ", items[1..], bound);
      SaysMore(items);
    }
  }

  lemma PairsStep(parts: seq<string>, bound: nat, es: seq<Entry>, key: string, value: string)
    requires parts != [] && (forall k: nat | k < |parts| :: |parts[k]| <= bound)
    requires Strip(parts[0]) == key + (":" + (" " + value)) && ':' !in key && Strip(key) == key && Strip(" " + value) == value && value != ""
    ensures ParsePairs(parts, bound, es) ==
              if value[0] == '{' then None
              else if ParseScalar(value).None? then None
              else ParsePairs(parts[1..], bound, Put(es, key, ParseScalar(value).value))
  {
    var part := Strip(parts[0]);
    ColonAt(key, " " + value);
    assert part[..|key|] == key && part[|key| + 1..] == " " + value;
    hide Strip, ParseScalar, Colon, Put;
  }

  lemma KeyStrips(key: string)
    requires Plainly(key)
    ensures Strip(key) == key
  {
    Trimmed(key);
  }

  lemma SaysPut(pairs: seq<Pairing>, es: seq<Entry>)
    ensures pairs == [] ==> SaysPairs(pairs, es) == Some(es)
    ensures pairs != [] ==>
              SaysPairs(pairs, es) ==
                if pairs[0].value.Flow? || Says(pairs[0].value).None? then None
                else SaysPairs(pairs[1..], Put(es, pairs[0].key, Says(pairs[0].value).value))
  {
    hide Says, Put;
  }

  lemma OpensFlow(i: Inline)
    requires Sayable(i)
    ensures Write(i) != "" && (Write(i)[0] == '{' <==> i.Flow?)
  {
    match i
    case Word(s) => assert s[0] !in "\"'[]{},#";
    case _ =>
  }

  lemma WritePairIs(p: Pairing)
    ensures WritePair(p) == p.key + (":" + (" " + Write(p.value)))
  {
    hide Write;
    assert ":" + (" " + Write(p.value)) == ": " + Write(p.value);
  }

  lemma {:induction false} PairsRead(lead: string, pairs: seq<Pairing>, bound: nat, es: seq<Entry>)
    requires PairsSayable(pairs) && (lead == "" || lead == " ")
    requires forall k: nat | k < |PairSegs(lead, pairs)| :: |PairSegs(lead, pairs)[k]| <= bound
    ensures ParsePairs(PairSegs(lead, pairs), bound, es) == SaysPairs(pairs, es)
    decreases pairs
  {
    hide *;
    SaysPut(pairs, es);
    if pairs == [] {
      NoSegs(lead);
      NoAll(bound, es);
    } else {
      PairsAre(pairs);
      var p := pairs[0];
      PairEnds(p);
      LeadGone(lead, WritePair(p));
      var segs := PairSegs(lead, pairs);
      SegTail(segs, lead + WritePair(p), PairSegs(" ", pairs[1..]), bound);
      WriteEnds(p.value);
      WritePairIs(p);
      KeyStrips(p.key);
      OpensFlow(p.value);
      PairsStep(segs, bound, es, p.key, Write(p.value));
      InlineReads(p.value);
      if !p.value.Flow? && Says(p.value).Some? {
        PairsRead(" ", pairs[1..], bound, Put(es, p.key, Says(p.value).value));
      }
    }
  }

  // --------------------------------------------------------------------------------------- on a line

  /** The text holds no comment sign outside quotes, and leaves no quote open. */
  ghost predicate Passes(s: string) { forall t :: Uncommented(s + t, None) == s + Uncommented(t, None) }

  lemma PassJoin(a: string, b: string)
    requires Passes(a) && Passes(b)
    ensures Passes(a + b)
  {
    hide Uncommented;
    forall t ensures Uncommented(a + b + t, None) == a + b + Uncommented(t, None) {
      assert a + b + t == a + (b + t);
      assert a + b + Uncommented(t, None) == a + (b + Uncommented(t, None));
    }
  }

  lemma MildPasses(s: string)
    requires forall c | c in s :: Mild(c)
    ensures Passes(s)
  {
    hide Uncommented, Mild;
    forall t ensures Uncommented(s + t, None) == s + Uncommented(t, None) {
      MildPrefix(s, t);
    }
  }

  lemma QuotedPasses(s: string, q: char)
    requires (q == '"' || q == '\'') && q !in s && LineFree(s)
    ensures Passes([q] + (s + [q])) && LineFree([q] + (s + [q]))
  {
    QuotedTame(s, q);
  }

  lemma PlainPasses(s: string)
    requires Plainly(s)
    ensures Passes(s) && LineFree(s)
  {
    hide Uncommented, LineBreak, Space;
    MildPasses(s);
  }

  lemma Glue(a: string, b: string, c: string)
    requires Passes(a) && LineFree(a) && Passes(b) && LineFree(b) && Passes(c) && LineFree(c)
    ensures Passes(a + (b + c)) && LineFree(a + (b + c))
  {
    PassJoin(b, c);
    PassJoin(a, b + c);
    FreeConcat(b, c);
    FreeConcat(a, b + c);
  }

  lemma MarksPass()
    ensures forall s | s in {"", "[", "]", "{", "}", ", ", ": "} :: Passes(s) && LineFree(s)
  {
    forall s | s in {"", "[", "]", "{", "}", ", ", ": "} ensures Passes(s) && LineFree(s) {
      MildPasses(s);
    }
  }

  lemma {:induction false} WritePasses(i: Inline)
    requires Sayable(i)
    ensures Passes(Write(i)) && LineFree(Write(i))
    decreases i, 1
  {
    hide Passes, LineFree, Plainly;
    MarksPass();
    match i
    case Word(s) => PlainPasses(s);
    case Quoted(q, s) => QuotedPasses(s, q);
    case Several(items) =>
      AllPass(items);
      Glue("[", WriteAll(items), "]");
    case Flow(pairs) =>
      PairsPass(pairs);
      Glue("{", WritePairs(pairs), "}");
  }

  lemma {:induction false} AllPass(items: seq<Inline>)
    requires AllSayable(items)
    ensures Passes(WriteAll(items)) && LineFree(WriteAll(items))
    decreases items
  {
    hide Passes, LineFree, Write, Sayable;
    MarksPass();
    if items != [] {
      WritePasses(items[0]);
      if |items| > 1 {
        AllPass(items[1..]);
        Glue(Write(items[0]), ", ", WriteAll(items[1..]));
      }
    }
  }

  lemma {:induction false} PairsPass(pairs: seq<Pairing>)
    requires PairsSayable(pairs)
    ensures Passes(WritePairs(pairs)) && LineFree(WritePairs(pairs))
    decreases pairs
  {
    hide Passes, LineFree, Write, Sayable, Plainly;
    MarksPass();
    if pairs != [] {
      PlainPasses(pairs[0].key);
      WritePasses(pairs[0].value);
      Glue(pairs[0].key, ": ", Write(pairs[0].value));
      if |pairs| > 1 {
        PairsPass(pairs[1..]);
        Glue(WritePair(pairs[0]), ", ", WritePairs(pairs[1..]));
      }
    }
  }

  /** A value that the tree does not refuse may stand behind a key on any page. */
  lemma InlineTame(i: Inline)
    requires Sayable(i) && Says(i).Some?
    ensures Tame(Write(i)) && ParseScalar(Write(i)) == Says(i)
  {
    InlineReads(i);
    WritePasses(i);
    WriteEnds(i);
    hide ParseScalar, Write, Says, Sayable, Space, LineFree;
    NoComment();
    assert Write(i) + "" == Write(i);
  }

  lemma NoComment()
    ensures Uncommented("", None) == ""
  {
  }

  /** What trails a line: white space, and a comment if there is one. */
  predicate Trail(w: string, c: string) { AllSpace(w) && (c == "" || c[0] == '#') }

  lemma TrailPasses(w: string, c: string)
    requires Trail(w, c)
    ensures Uncommented(w + c, None) == w
  {
    SpaceMild(w);
    hide Space;
    MildPrefix(w, c);
    UncommentEnd(c, None);
    assert w + "" == w;
  }

  /** A line with a value is read as that pair, whatever white space and comment trail it. */
  lemma LineReads(pad: nat, key: string, i: Inline, w: string, c: string)
    requires SimpleKey(key) && Sayable(i) && Says(i).Some? && Trail(w, c)
    ensures Read(Spaces(pad) + (key + (":" + (" " + Write(i)))) + (w + c)) == Pair(pad, key, Write(i))
  {
    var raw := Write(i);
    var head := Spaces(pad) + (key + (":" + (" " + raw)));
    InlineTame(i);
    TrailPasses(w, c);
    TameSound(raw);
    HeadUncommented(pad, key, raw, w + c);
    HeadUncommented(pad, key, raw, "");
    HeadEnds(pad, key, raw);
    HeadText(pad, key, raw);
    NoComment();
    StripsSpace(head, w);
    StripsSpace(head, "");
    hide Write, Says, Sayable, SimpleKey, Tame, Uncommented, StripRight, Read, Space, AllSpace;
    assert head + "" == head;
    ReadStripped(head + (w + c), head);
  }

  lemma TameSound(raw: string)
    requires Tame(raw)
    ensures SoundRaw(raw)
  {
  }

  lemma HeadText(pad: nat, key: string, raw: string)
    ensures KidHead(Kid(pad, key, Leaf(raw))) == Spaces(pad) + (key + (":" + (" " + raw)))
  {
  }

  /** A line of white space, or with nothing but a comment, says nothing. */
  lemma BlankReads(w: string, c: string)
    requires Trail(w, c)
    ensures Read(w + c) == Blank
  {
    TrailPasses(w, c);
    AllStripped(w);
    hide Uncommented;
  }

  lemma {:induction false} AllStripped(w: string)
    requires AllSpace(w)
    ensures StripRight(w) == "" && Strip("") == ""
    decreases |w|
  {
    if w != "" {
      assert w[|w| - 1] in w;
      AllStripped(w[..|w| - 1]);
    }
  }
}
