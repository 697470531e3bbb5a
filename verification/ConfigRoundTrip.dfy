/** Printing a mapping and reading it back, and replacing one top-level block. */
module ConfigRoundTrip {
  import opened Documents
  import opened Strings
  import opened ConfigParser
  import opened ConfigPrinter
  import opened ConfigReadBack

  /** No string anywhere inside holds a line break. */
  predicate Unbroken(v: Val)
    decreases v
  {
    match v
    case Text(s) => LineFree(s)
    case List(items) => forall i | 0 <= i < |items| :: Unbroken(items[i])
    case Map(es) => UnbrokenEntries(es)
    case _ => true
  }

  predicate UnbrokenEntries(es: seq<Entry>)
    decreases es
  {
    forall i | 0 <= i < |es| :: LineFree(es[i].key) && Unbroken(es[i].value)
  }

  /** No key occurs twice, as in every mapping that was read. */
  predicate Dict(es: seq<Entry>)
    decreases es
  {
    && (forall i, j | 0 <= i < j < |es| :: es[i].key != es[j].key)
    && forall i | 0 <= i < |es| :: es[i].value.Map? ==> Dict(es[i].value.entries)
  }

  // --------------------------------------------------------------------- printed text as a tree

  function RawOf(v: Val): string
    requires v.Map? || EmitEntry(Entry("k", v), 0).Some?
  {
    match v
    case Map(_) => ""
    case List(items) => "[" + EmitItems(items).value + "]"
    case Flag(b) => Truth(b)
    case Whole(n) => Decimal(n)
    case Text(s) => EmitText(s).value
  }

  function Shape(es: seq<Entry>, indent: nat): seq<Kid>
    requires Emit(es, indent).Some?
    decreases es
  {
    if es == [] then [] else [ShapeOf(es[0], indent)] + Shape(es[1..], indent)
  }

  function ShapeOf(e: Entry, indent: nat): Kid
    requires EmitEntry(e, indent).Some?
    decreases e
  {
    Kid(indent, e.key, match e.value case Map(es) => Branch(Shape(es, indent + 2)) case _ => Leaf(RawOf(e.value)))
  }

  lemma {:induction false} EmitLines(es: seq<Entry>, indent: nat)
    requires Emit(es, indent).Some?
    ensures Emit(es, indent).value == Lines(Shape(es, indent))
    decreases es
  {
    if es != [] {
      EntryLines(es[0], indent);
      EmitLines(es[1..], indent);
    }
  }

  lemma {:induction false} EntryLines(e: Entry, indent: nat)
    requires EmitEntry(e, indent).Some?
    ensures EmitEntry(e, indent).value == KidLines(ShapeOf(e, indent))
    decreases e
  {
    var head := Spaces(indent) + e.key + ":";
    assert head == Spaces(indent) + (e.key + (":" + ""));
    if e.value.Map? {
      EmitLines(e.value.entries, indent + 2);
    } else {
      var raw := RawOf(e.value);
      assert head + " " + raw == Spaces(indent) + (e.key + (":" + (" " + raw)));
    }
  }

  lemma UnendedFree(s: string)
    ensures Unended(s) == s || !LineFree(s)
  {
    if s != "" {
      assert s[|s| - 1] in s;
    }
  }

  lemma {:induction false} ItemsBare(items: seq<Val>)
    requires EmitItems(items).Some? && Unbroken(List(items))
    ensures BareItems(items)
    decreases |items|
  {
    if items != [] {
      UnendedFree(items[0].s);
      assert Unbroken(List(items[1..]));
      if |items| > 1 {
        ItemsBare(items[1..]);
      }
    }
  }

  lemma ScalarReads(e: Entry, indent: nat)
    requires EmitEntry(e, indent).Some? && !e.value.Map? && Unbroken(e.value)
    ensures SoundRaw(RawOf(e.value)) && ParseScalar(RawOf(e.value)) == Some(Normal(e.value))
  {
    hide SoundRaw, ParseScalar, Normal;
    var raw := RawOf(e.value);
    match e.value
    case List(items) =>
      ItemsBare(items);
      ListRaw(items);
      ListNormal(items);
    case Flag(b) => FlagReads(b);
    case Whole(n) =>
      DecimalBare(n);
      BareRaw(raw);
      WholeNormal(n);
    case Text(s) =>
      UnendedFree(s);
      if IsToken(s) {
        BareRaw(s);
      } else {
        QuotedReads(s);
      }
  }

  lemma ListNormal(items: seq<Val>)
    ensures Normal(List(items)) == List(NormalAll(items))
  {
  }

  lemma WholeNormal(n: int)
    ensures Normal(Whole(n)) == Text(Decimal(n))
  {
  }

  lemma FlagReads(b: bool)
    ensures SoundRaw(Truth(b)) && ParseScalar(Truth(b)) == Some(Normal(Flag(b)))
  {
    assert forall c | c in Truth(b) :: c in "truefals";
    assert forall c | c in "truefals" :: TokenChar(c);
    BareRaw(Truth(b));
  }

  lemma QuotedReads(s: string)
    requires LineFree(s) && EmitText(s).Some? && !IsToken(s)
    ensures SoundRaw(EmitText(s).value) && ParseScalar(EmitText(s).value) == Some(Normal(Text(s)))
  {
    var q := if '"' !in s then '"' else '\'';
    QuotedRaw(s, q);
    assert EmitText(s).value == [q] + (s + [q]);
    hide SoundRaw, ParseScalar;
    assert Normal(Text(s)) == Text(s) by {
      if s == "true" || s == "false" {
        FlagReads(s == "true");
        WordToken(s);
      }
    }
  }

  lemma WordToken(s: string)
    requires s == "true" || s == "false"
    ensures IsToken(s)
  {
    assert Unended(s) == s;
    assert forall c | c in s :: c in "truefals";
    assert forall c | c in "truefals" :: TokenChar(c);
  }

  // ------------------------------------------------------------------------- mappings read back

  predicate Fresh(key: string, es: seq<Entry>) { forall i | 0 <= i < |es| :: es[i].key != key }

  lemma {:induction false} PutFresh(es: seq<Entry>, key: string, v: Val)
    requires Fresh(key, es)
    ensures Put(es, key, v) == es + [Entry(key, v)]
    decreases |es|
  {
    if es != [] {
      PutFresh(es[1..], key, v);
      assert [es[0]] + (es[1..] + [Entry(key, v)]) == es + [Entry(key, v)];
    }
  }

  lemma {:induction false} ShapeSound(es: seq<Entry>, indent: nat)
    requires Emit(es, indent).Some? && UnbrokenEntries(es)
    ensures Sound(Shape(es, indent)) && Nested(Shape(es, indent), indent - 1)
    ensures forall i | 0 <= i < |Shape(es, indent)| :: Shape(es, indent)[i].pad == indent
    decreases es
  {
    if es != [] {
      EntrySound(es[0], indent);
      assert UnbrokenEntries(es[1..]);
      ShapeSound(es[1..], indent);
      ConsSound(ShapeOf(es[0], indent), Shape(es[1..], indent), indent);
    }
  }

  lemma ConsSound(k: Kid, rest: seq<Kid>, indent: nat)
    requires SoundKid(k) && NestedKid(k) && k.pad == indent
    requires Sound(rest) && Nested(rest, indent - 1) && forall i | 0 <= i < |rest| :: rest[i].pad == indent
    ensures Sound([k] + rest) && Nested([k] + rest, indent - 1)
  {
    hide SoundKid, NestedKid;
  }

  lemma {:induction false} EntrySound(e: Entry, indent: nat)
    requires EmitEntry(e, indent).Some? && Unbroken(e.value) && LineFree(e.key)
    ensures SoundKid(ShapeOf(e, indent)) && NestedKid(ShapeOf(e, indent))
    decreases e
  {
    hide SoundRaw, RawOf;
    UnendedFree(e.key);
    match e.value
    case Map(es) =>
      ShapeSound(es, indent + 2);
      NestedDeeper(Shape(es, indent + 2), indent);
    case _ =>
      ScalarReads(e, indent);
  }

  lemma NestedDeeper(kids: seq<Kid>, indent: nat)
    requires Nested(kids, indent + 1)
    ensures Nested(kids, indent)
  {
    hide NestedKid;
  }

  lemma ShapeStep(es: seq<Entry>, indent: nat)
    requires es != [] && Emit(es, indent).Some?
    ensures EmitEntry(es[0], indent).Some? && Emit(es[1..], indent).Some?
    ensures Shape(es, indent) != [] && Shape(es, indent)[0] == ShapeOf(es[0], indent)
    ensures Shape(es, indent)[1..] == Shape(es[1..], indent)
    ensures ShapeOf(es[0], indent).key == es[0].key
  {
  }

  lemma {:induction false} ShapeMeans(es: seq<Entry>, indent: nat, before: seq<Entry>)
    requires Emit(es, indent).Some? && UnbrokenEntries(es) && Dict(es) && Sound(Shape(es, indent))
    requires forall i | 0 <= i < |es| :: Fresh(es[i].key, before)
    ensures Load(Shape(es, indent), before) == before + NormalEntries(es)
    decreases es, 1
  {
    hide Shape, ShapeOf, Emit, EmitEntry, Sound, SoundKid, Meaning, Dict, UnbrokenEntries, Unbroken, Normal, Fresh;
    if es != [] {
      var e := Entry(es[0].key, Normal(es[0].value));
      ShapeStep(es, indent);
      LoadStep(Shape(es, indent), before);
      DictRest(es, before, e);
      EntryMeans(es[0], indent);
      PutFresh(before, e.key, e.value);
      ShapeMeans(es[1..], indent, before + [e]);
      assert before + [e] + NormalEntries(es[1..]) == before + ([e] + NormalEntries(es[1..]));
    } else {
      EmptyShape(indent, before);
    }
  }

  lemma EmptyShape(indent: nat, before: seq<Entry>)
    ensures Shape([], indent) == [] && Load([], before) == before == before + NormalEntries([])
  {
  }

  lemma DictRest(es: seq<Entry>, before: seq<Entry>, e: Entry)
    requires es != [] && Dict(es) && UnbrokenEntries(es) && e.key == es[0].key
    requires forall i | 0 <= i < |es| :: Fresh(es[i].key, before)
    ensures Dict(es[1..]) && UnbrokenEntries(es[1..])
    ensures Unbroken(es[0].value) && (es[0].value.Map? ==> Dict(es[0].value.entries)) && Fresh(es[0].key, before)
    ensures forall i | 0 <= i < |es[1..]| :: Fresh(es[1..][i].key, before + [e])
  {
    hide Unbroken;
    assert forall i | 0 <= i < |es[1..]| :: es[1..][i] == es[i + 1];
  }

  lemma {:induction false} EntryMeans(e: Entry, indent: nat)
    requires EmitEntry(e, indent).Some? && Unbroken(e.value) && (e.value.Map? ==> Dict(e.value.entries))
    requires SoundKid(ShapeOf(e, indent))
    ensures Meaning(ShapeOf(e, indent)) == Normal(e.value)
    decreases e, 0
  {
    match e.value
    case Map(es) =>
      ShapeMeans(es, indent + 2, []);
      assert [] + NormalEntries(es) == NormalEntries(es);
    case _ =>
      hide Normal, ParseScalar, SoundRaw, RawOf;
      ScalarReads(e, indent);
  }

  /** Printing then reading normalises, and does nothing else. */
  lemma EmitReadsNormal(es: seq<Entry>)
    requires Emit(es, 0).Some? && UnbrokenEntries(es) && Dict(es)
    ensures Parse(Page(Emit(es, 0).value)) == Some(NormalEntries(es))
  {
    hide UnbrokenEntries, Dict, Emit;
    EmitLines(es, 0);
    ShapeSound(es, 0);
    ParsePage(Shape(es, 0));
    ShapeMeans(es, 0, []);
    assert [] + NormalEntries(es) == NormalEntries(es);
  }

  // --------------------------------------------------------------------- exactly what round-trips

  /** A value that printing and reading leaves alone: no integer, no text or item spelled like a flag,
      no line break. */
  predicate Faithful(v: Val)
    decreases v
  {
    match v
    case Text(s) => LineFree(s) && s != "true" && s != "false"
    case Flag(_) => true
    case Whole(_) => false
    case List(items) => forall i | 0 <= i < |items| :: Faithful(items[i])
    case Map(es) => FaithfulEntries(es)
  }

  predicate FaithfulEntries(es: seq<Entry>)
    decreases es
  {
    forall i | 0 <= i < |es| :: LineFree(es[i].key) && Faithful(es[i].value)
  }

  lemma {:induction false} NormalFixed(v: Val)
    requires Unbroken(v)
    ensures Normal(v) == v <==> Faithful(v)
    decreases v, 0
  {
    match v
    case List(items) => AllFixed(items);
    case Map(es) => EntriesFixed(es);
    case _ =>
  }

  lemma {:induction false} AllFixed(items: seq<Val>)
    requires forall i | 0 <= i < |items| :: Unbroken(items[i])
    ensures |NormalAll(items)| == |items|
    ensures NormalAll(items) == items <==> forall i | 0 <= i < |items| :: Faithful(items[i])
    decreases items, 1
  {
    if items != [] {
      var rest := items[1..];
      NormalFixed(items[0]);
      AllFixed(rest);
      hide Unbroken, Faithful, Normal;
      assert NormalAll(items) == items <==> Normal(items[0]) == items[0] && NormalAll(rest) == rest by {
        assert items == [items[0]] + rest;
        if NormalAll(items) == items {
          assert NormalAll(items)[0] == items[0] && NormalAll(items)[1..] == NormalAll(rest);
        }
      }
      assert forall i | 0 <= i < |rest| :: rest[i] == items[i + 1];
    }
  }

  lemma {:induction false} EntriesFixed(es: seq<Entry>)
    requires UnbrokenEntries(es)
    ensures NormalEntries(es) == es <==> FaithfulEntries(es)
    decreases es, 1
  {
    if es != [] {
      var rest := es[1..];
      NormalFixed(es[0].value);
      EntriesFixed(rest);
      hide Unbroken, Faithful, Normal;
      assert NormalEntries(es) == es <==> Normal(es[0].value) == es[0].value && NormalEntries(rest) == rest by {
        assert es == [es[0]] + rest;
        if NormalEntries(es) == es {
          assert NormalEntries(es)[0] == es[0] && NormalEntries(es)[1..] == NormalEntries(rest);
        }
      }
      assert forall i | 0 <= i < |rest| :: rest[i] == es[i + 1];
    }
  }

  lemma {:induction false} LegibleUnbroken(v: Val)
    requires Legible(v)
    ensures Unbroken(v)
    decreases v
  {
    match v
    case List(items) =>
      forall i | 0 <= i < |items| ensures Unbroken(items[i]) {
        LegibleUnbroken(items[i]);
      }
    case Map(es) =>
      forall i | 0 <= i < |es| ensures Unbroken(es[i].value) {
        LegibleUnbroken(es[i].value);
      }
    case _ =>
  }

  lemma {:induction false} FaithfulUnbroken(v: Val)
    requires Faithful(v)
    ensures Unbroken(v)
    decreases v
  {
    match v
    case List(items) =>
      forall i | 0 <= i < |items| ensures Unbroken(items[i]) {
        FaithfulUnbroken(items[i]);
      }
    case Map(es) =>
      forall i | 0 <= i < |es| ensures Unbroken(es[i].value) {
        FaithfulUnbroken(es[i].value);
      }
    case _ =>
  }

  /** The round trip, exactly: a mapping that prints reads back as itself if and only if it holds no
      integer, no text or list item spelled like a flag, and no line break. */
  lemma RoundTripExact(es: seq<Entry>)
    requires Emit(es, 0).Some? && Dict(es)
    ensures Parse(Page(Emit(es, 0).value)) == Some(es) <==> FaithfulEntries(es)
  {
    hide Emit, Parse, Page, Dict;
    if FaithfulEntries(es) {
      FaithfulUnbroken(Map(es));
      EmitReadsNormal(es);
      EntriesFixed(es);
    } else if Parse(Page(Emit(es, 0).value)) == Some(es) {
      ParseLegible(Page(Emit(es, 0).value));
      LegibleUnbroken(Map(es));
      EmitReadsNormal(es);
      EntriesFixed(es);
    }
  }

  /** The roles block reads back as the one key it prints. */
  lemma RolesBlockReads(roles: seq<Entry>)
    requires RolesBlock(roles).Some? && Dict(roles) && FaithfulEntries(roles)
    ensures Parse(RolesBlock(roles).value) == Some([Entry("roles", Map(roles))])
  {
    var es := [Entry("roles", Map(roles))];
    RolesIsEntry(roles);
    assert Dict(es);
    KeyLiteral();
    RoundTripExact(es);
  }

  lemma KeyLiteral()
    ensures LineFree("roles") && IsKey("roles")
  {
    assert Unended("roles") == "roles";
    assert forall c | c in "roles" :: KeyChar(c) && !LineBreak(c);
  }

  lemma RolesIsEntry(roles: seq<Entry>)
    requires RolesBlock(roles).Some?
    ensures Emit([Entry("roles", Map(roles))], 0).Some?
    ensures RolesBlock(roles).value == Page(Emit([Entry("roles", Map(roles))], 0).value)
  {
    KeyLiteral();
    var lines := ["roles:"] + Emit(roles, 2).value;
    assert Spaces(0) + "roles" + ":" == "roles:";
    assert lines + [] == lines;
  }
}
