/** The input on which the --set command changes more than its leaf, because it takes a block for a scalar. */
module ConfigHoist {
  import opened Documents
  import opened Strings
  import opened ConfigParser
  import opened ConfigPrinter
  import opened ConfigReadBack
  import opened ConfigEdit
  import opened ConfigLeaves
  import opened ConfigPages
  import opened ConfigCommand

  const INNER: seq<Kid> := [Kid(2, "x", Leaf("1"))]

  /** p is a block, and a comment stands between its key and its only line. */
  const PAGE := ["x: 0", "p:", "  # note", "  x: 1"]

  /** The page with the line of p rewritten. */
  const AFTER := ["x: 0", "p: v", "  # note", "  x: 1"]

  const KIDS: seq<Kid> := [Kid(0, "x", Leaf("0")), Kid(0, "p", Branch(INNER))]

  lemma KidsAre()
    ensures |KIDS| == 2 && KIDS[0] == Kid(0, "x", Leaf("0")) && KIDS[1] == Kid(0, "p", Branch(INNER))
    ensures |INNER| == 1 && INNER[0] == Kid(2, "x", Leaf("1")) && Sound([]) && "x" != "p"
  {
    assert "x"[0] != "p"[0];
  }

  // ---------------------------------------------------------------------------- the page as it reads

  lemma TwoSpaces()
    ensures Spaces(0) == "" && Spaces(1) == " " && Spaces(2) == "  "
    ensures StripRight("  ") == "" && Strip("") == "" && "  " + "" == "  "
  {
    assert "  "[..1] == " " && " "[..0] == "";
    assert StripRight("") == "" && StripRight(" ") == "";
  }

  lemma NoteUncommented()
    ensures Uncommented("  # note", None) == "  "
  {
    assert "  " + "# note" == "  # note";
    MildPrefix("  ", "# note");
    UncommentEnd("# note", None);
    assert "  " + "" == "  ";
  }

  lemma NoteRead()
    ensures Read("  # note") == Blank
  {
    NoteUncommented();
    TwoSpaces();
    hide Uncommented, StripRight, Strip;
  }

  lemma NoteFree()
    ensures LineFree("  # note")
  {
  }

  lemma ScalarRaw(c: char)
    requires c == '0' || c == '1' || c == 'v'
    ensures SoundRaw([c]) && ParseScalar([c]) == Some(Text([c]))
  {
    BareRaw([c]);
    assert "true"[0] == 't' && "false"[0] == 'f';
  }

  lemma HeadTexts()
    ensures KidHead(Kid(0, "x", Leaf("0"))) == "x: 0" && KidHead(Kid(2, "x", Leaf("1"))) == "  x: 1"
    ensures KidHead(Kid(0, "p", Branch(INNER))) == "p:" && KidHead(Kid(0, "p", Leaf("v"))) == "p: v"
  {
    TwoSpaces();
    assert "" + ("x" + (":" + (" " + "0"))) == "x: 0";
    assert "  " + ("x" + (":" + (" " + "1"))) == "  x: 1";
    assert "" + ("p" + (":" + "")) == "p:";
    assert "" + ("p" + (":" + (" " + "v"))) == "p: v";
  }

  lemma KidsUniform()
    ensures Uniform(KIDS, 0) && Uniform(INNER, 1)
  {
    ScalarRaw('0');
    ScalarRaw('1');
    assert SimpleKey("x") && SimpleKey("p");
    hide SoundRaw, SimpleKey;
    assert "x" != "p" by { assert "x"[0] != "p"[0]; }
  }

  lemma LinesRead()
    ensures Read("x: 0") == Pair(0, "x", "0") && Read("p:") == Pair(0, "p", "") && Read("  x: 1") == Pair(2, "x", "1")
    ensures LineFree("x: 0") && LineFree("p:") && LineFree("  x: 1")
  {
    HeadTexts();
    KidsUniform();
    KidsAre();
    hide *;
    UniformAt(KIDS, 0, 0);
    UniformAt(KIDS, 0, 1);
    UniformAt(INNER, 1, 0);
    KidSound(KIDS[0], 0);
    KidSound(KIDS[1], 0);
    KidSound(INNER[0], 1);
    HeadRead(KIDS[0]);
    HeadRead(KIDS[1]);
    HeadRead(INNER[0]);
  }

  lemma PageSkim()
    ensures Skim(PAGE) == [Pair(0, "x", "0"), Pair(0, "p", ""), Pair(2, "x", "1")]
    ensures Row(PAGE, 1) == 1 && Gap(PAGE, 1)
  {
    NoteRead();
    LinesRead();
    hide Read;
    assert PAGE[1..] == ["p:", "  # note", "  x: 1"] && PAGE[1..][1..] == ["  # note", "  x: 1"];
    assert PAGE[1..][1..][1..] == ["  x: 1"];
    SkimOne("  x: 1");
    assert Skim(["  # note", "  x: 1"]) == [] + [Pair(2, "x", "1")];
    assert Skim(["p:", "  # note", "  x: 1"]) == [Pair(0, "p", "")] + [Pair(2, "x", "1")];
  }

  lemma KidsHeads()
    ensures Heads(KIDS) == [Pair(0, "x", "0"), Pair(0, "p", ""), Pair(2, "x", "1")]
  {
    HeadsOne(INNER[0]);
    assert Heads(INNER) == [Pair(2, "x", "1")];
    assert KIDS[1..] == [KIDS[1]];
    HeadsOne(KIDS[1]);
  }

  lemma PageFree()
    ensures forall i | 0 <= i < |PAGE| :: LineFree(PAGE[i])
  {
    LinesRead();
    NoteFree();
    hide LineFree, Read;
  }

  lemma PageReads()
    ensures ReadsAs(PAGE, KIDS)
  {
    hide *;
    PageFree();
    PageSkim();
    KidsHeads();
    ReadsOf(PAGE, KIDS);
  }

  // -------------------------------------------------------------------------------- the command on it

  lemma OneKey()
    ensures Split("p", '.') == ["p"] && SimpleKeys(["p"])
  {
    assert "p"[1..] == "";
    assert ['p'] + "" == "p";
  }

  lemma PathOfP()
    ensures Index(KIDS, "p") == 1 && Aim(KIDS, 0, 0, ["p"]) == At(1, 0, "p")
    ensures Target(KIDS, ["p"]) == Some(KIDS[1]) && Inside(KIDS[1]) == INNER
    ensures Strays(KIDS[1], 0, ["p"], "v") == INNER
  {
    assert "x"[0] != "p"[0];
    assert KIDS[1..] == [KIDS[1]] && KIDS[1..][0] == KIDS[1];
    assert |KidHeads(KIDS[0])| == 1;
  }

  lemma LastOfX()
    ensures Last(INNER, "p") == None && Last(INNER, "x") == Some(INNER[0])
    ensures Last(KIDS[..1], "x") == Some(KIDS[0]) && Last(KIDS[2..], "x") == None
  {
    assert "x"[0] != "p"[0];
    LastOne(INNER[0], "p");
    LastOne(INNER[0], "x");
    LastOne(KIDS[0], "x");
    assert KIDS[..1] == [KIDS[0]] && KIDS[2..] == [];
  }

  lemma FormatV()
    ensures Writable("v") && FormatScalar("v") == Some("v")
  {
  }

  lemma FirstMap(show: Val -> string)
    requires Sound(KIDS)
    ensures !Already(Get(MeaningOf(KIDS), ["p"]), "v", show)
  {
    KidsAre();
    hide *;
    TreeGet(KIDS, ["p"]);
    PathOfP();
    KidsUniform();
    WroteLast(KIDS, 0, ["p"], "v", "p");
    BranchMeans(KIDS[1]);
    assert ["p"][1..] == [];
    GetAt(Meaning(KIDS[1]), []);
    MapNotAlready(Load(INNER, []), show);
    TreeIs(INNER);
  }

  lemma MapNotAlready(es: seq<Entry>, show: Val -> string)
    ensures !Already(Some(Map(es)), "v", show)
  {
  }

  lemma ReadsV(show: Val -> string)
    requires Sound(KIDS)
    ensures ReadsBack(KIDS, ["p"], "v", show)
  {
    FormatV();
    ScalarRaw('v');
    PathOfP();
    LastOfX();
    KidsAre();
    hide *;
    assert "v" == ['v'];
    ReadsForms(KIDS, ["p"], "v");
    BacksForms(KIDS, ["p"], "v", show);
    TextShows("v", show);
  }

  lemma TextShows(s: string, show: Val -> string)
    ensures CliStr(Text(s), show) == s
  {
  }

  lemma NewLine()
    ensures Edited(PAGE, At(1, 0, "p"), "p", "v") == AFTER
  {
    HeadTexts();
    PWhole();
    hide KidHead, StripRight, Uncommented;
    assert Trailing("p:") == "";
    assert "p: v" + "" == "p: v";
  }

  lemma PWhole()
    ensures StripRight(Uncommented("p:", None)) == "p:"
  {
    HeadTexts();
    KidsUniform();
    TwoSpaces();
    KidsAre();
    hide *;
    UniformAt(KIDS, 0, 1);
    KeyOf(KIDS[1], 0);
    NoTail();
    LineWhole(0, "p", "");
    ContentRead(0, "p", "");
    assert "" + ("p" + (":" + "")) == "p:";
  }

  lemma NoTail()
    ensures Tail("")
  {
  }

  /** The edit of p reads the other key x anew: its own line still says 0, but the line that was inside p
      now follows it and says 1. */
  lemma HoistedLeaf(show: Val -> string)
    requires OneLine(show)
    ensures SetCli(Page(PAGE), "p", "v", show) == Written(Page(AFTER))
    ensures Parse(Page(PAGE)).Some? && Parse(Page(AFTER)).Some?
    ensures Get(Map(Parse(Page(PAGE)).value), ["x"]) == Some(Text("0"))
    ensures Get(Map(Parse(Page(AFTER)).value), ["x"]) == Some(Text("1"))
  {
    KidsAre();
    hide *;
    PageReads();
    KidsUniform();
    OneKey();
    NewLine();
    UniformSound(KIDS, 0);
    PageMeans(PAGE, KIDS);
    TreeIs(KIDS);
    FirstMap(show);
    ReadsV(show);
    PathOfP();
    PageSkim();
    LandsForms(PAGE, KIDS, ["p"]);
    SetCliExact(PAGE, KIDS, "p", "v", show);
    PlacingForms(PAGE, At(1, 0, "p"));
    XBefore();
    XAfter();
    FormatV();
  }

  lemma XBefore()
    requires Sound(KIDS)
    ensures Get(MeaningOf(KIDS), ["x"]) == Some(Text("0"))
  {
    KidsAre();
    hide *;
    PathOfP();
    KidsUniform();
    LastOfX();
    ScalarRaw('0');
    WroteLast(KIDS, 0, ["p"], "v", "x");
    TreeGet(KIDS, ["x"]);
    LeafGet(KIDS[0], []);
    assert ["x"][1..] == [] && "0" == ['0'];
  }

  lemma XAfter()
    ensures Parse(Page(AFTER)).Some?
    ensures Get(Map(Parse(Page(AFTER)).value), ["x"]) == Some(Text("1"))
  {
    KidsAre();
    hide *;
    PageReads();
    KidsUniform();
    PathOfP();
    PageSkim();
    LastOfX();
    ScalarRaw('1');
    ScalarRaw('v');
    BareV();
    NewLine();
    OneKey();
    assert "v" == ['v'] && "1" == ['1'] && ["x"][1..] == [];
    TextNoKeys("v");
    LandsForms(PAGE, KIDS, ["p"]);
    SetScalarMeans(PAGE, KIDS, ["p"], "v");
    PlacingForms(PAGE, At(1, 0, "p"));
    var made := Wrote(KIDS, 0, ["p"], "v");
    TreeIs(made);
    WroteLast(KIDS, 0, ["p"], "v", "x");
    TreeGet(made, ["x"]);
    LeafGet(INNER[0], []);
  }

  lemma BareV()
    ensures Tame("v")
  {
    BareTame("v");
  }

  lemma TextNoKeys(s: string)
    ensures NoKeys(Text(s))
  {
  }
}
