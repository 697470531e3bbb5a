/** The input on which replacing one block loses another key, because that key stands behind a tab. */
module ConfigTab {
  import opened Documents
  import opened Strings
  import opened ConfigParser
  import opened ConfigPrinter
  import opened ConfigReadBack
  import opened ConfigLeaves
  import opened ConfigPages
  import opened ConfigBlocks

  /** b stands in the first column but for a tab, which the parser strips. */
  const PAGE := ["a: 0", "\tb: 1"]

  const KIDS: seq<Kid> := [Kid(0, "a", Leaf("0")), Kid(0, "b", Leaf("1"))]

  const BLOCK := ["a:"]

  lemma KidsAre()
    ensures |KIDS| == 2 && KIDS[0] == Kid(0, "a", Leaf("0")) && KIDS[1] == Kid(0, "b", Leaf("1")) && "a" != "b"
  {
    assert "a"[0] != "b"[0];
  }

  lemma ScalarRaw(c: char)
    requires c == '0' || c == '1'
    ensures SoundRaw([c]) && ParseScalar([c]) == Some(Text([c]))
  {
    BareRaw([c]);
    assert "true"[0] == 't' && "false"[0] == 'f';
  }

  lemma TabWhole(key: string, tail: string)
    requires SimpleKey(key) && Tail(tail)
    ensures var t := "\t" + (key + (":" + tail)); Uncommented(t, None) == t && LineFree(t)
  {
    var content := key + (":" + tail);
    LineWhole(0, key, tail);
    assert Spaces(0) + content == content;
    hide SimpleKey, Tail, Uncommented, LineFree, Spaces;
    MildChar('\t', content);
    TabFree();
    FreeConcat("\t", content);
  }

  lemma TabFree()
    ensures LineFree("\t")
  {
  }

  lemma ContentWhole(key: string, tail: string)
    requires SimpleKey(key) && Tail(tail)
    ensures var content := key + (":" + tail); content != "" && Strip(content) == content
    ensures var content := key + (":" + tail); !Space(content[|content| - 1])
  {
    ContentRead(0, key, tail);
    LastOf(key, tail);
    hide SimpleKey, Tail, Strip, Space;
    assert Spaces(0) + (key + (":" + tail)) == key + (":" + tail);
  }

  /** A tab in front of a line is stripped, and not counted as indentation. */
  lemma TabbedRead(key: string, tail: string)
    requires SimpleKey(key) && Tail(tail)
    ensures Read("\t" + (key + (":" + tail))) == Pair(0, key, if tail == "" then "" else tail[1..])
    ensures LineFree("\t" + (key + (":" + tail)))
  {
    hide *;
    var content := key + (":" + tail);
    TabWhole(key, tail);
    ContentWhole(key, tail);
    ContentParts(key, tail);
    TabStripped(content);
    ReadForms("\t" + content);
  }

  lemma TabStripped(content: string)
    requires content != "" && !Space(content[|content| - 1])
    ensures StripRight("\t" + content) == "\t" + content
    ensures Strip("\t" + content) == Strip(content) && Indent("\t" + content) == 0
  {
    var t := "\t" + content;
    assert t[0] == '\t' && t[1..] == content && t[|t| - 1] == content[|content| - 1];
    NoSpaceAtEnd(t);
    assert StripLeft(t) == StripLeft(content);
    hide StripRight;
  }

  lemma OneTail()
    ensures Tail(" 1") && " 1"[1..] == "1" && " 1" != "" && SimpleKey("b")
  {
    ScalarRaw('1');
    hide SoundRaw;
    assert " 1"[1..] == "1";
  }

  lemma TabText()
    ensures "\t" + ("b" + (":" + " 1")) == "\tb: 1"
  {
  }

  lemma TabRead()
    ensures Read("\tb: 1") == Pair(0, "b", "1") && LineFree("\tb: 1")
  {
    hide *;
    OneTail();
    TabText();
    TabbedRead("b", " 1");
  }

  lemma HeadText()
    ensures KidHead(Kid(0, "a", Leaf("0"))) == "a: 0" && KidHead(Kid(0, "a", Branch([]))) == "a:"
    ensures KidLines(Kid(0, "a", Branch([]))) == BLOCK
  {
    assert Spaces(0) == "";
    assert "" + ("a" + (":" + (" " + "0"))) == "a: 0";
    assert "" + ("a" + (":" + "")) == "a:";
  }

  lemma HeadsTwo(a: Kid, b: Kid)
    requires a.tree.Leaf? && b.tree.Leaf?
    ensures Heads([a, b]) == [HeadOf(a), HeadOf(b)]
  {
    assert [a, b][1..] == [b] && [b][1..] == [];
    assert Heads([b]) == KidHeads(b) + [] && KidHeads(b) == [HeadOf(b)] + [];
    assert Heads([a, b]) == KidHeads(a) + Heads([b]);
  }

  lemma SkimTwo(k: string, l: string)
    requires !Read(k).Blank? && !Read(l).Blank?
    ensures Skim([k, l]) == [Read(k), Read(l)]
  {
    SkimOne(k);
    SkimOne(l);
    SkimApart([k], [l]);
    hide Skim, Read;
    assert [k, l] == [k] + [l];
  }

  lemma HeadARead()
    ensures Read("a: 0") == Pair(0, "a", "0") && LineFree("a: 0")
  {
    HeadText();
    ScalarRaw('0');
    assert SimpleKey("a");
    HeadRead(Kid(0, "a", Leaf("0")));
    hide Read, LineFree, KidHead, SoundRaw, SimpleKey;
  }

  lemma PageReads()
    ensures ReadsAs(PAGE, KIDS)
  {
    TabRead();
    HeadARead();
    HeadsTwo(Kid(0, "a", Leaf("0")), Kid(0, "b", Leaf("1")));
    SkimTwo("a: 0", "\tb: 1");
    hide Skim, Heads, Read, LineFree;
  }

  lemma KidsFlush()
    ensures Flush(KIDS) && Once(KIDS, "a")
  {
    ScalarRaw('0');
    ScalarRaw('1');
    KidsAre();
    assert SimpleKey("a") && SimpleKey("b");
    hide SoundRaw, SimpleKey;
  }

  lemma TabInside()
    ensures !EndsBlock("\tb: 1" + "\n")
  {
    assert ("\tb: 1" + "\n")[0] == '\t';
  }

  lemma KeyFirst()
    ensures "a" + ":" <= "a: 0" + "\n"
  {
    assert ("a: 0" + "\n")[..2] == "a:";
  }

  lemma RowsOf(k: string, l: string, key: string)
    requires key + ":" <= k + "\n" && !EndsBlock(l + "\n")
    ensures KeyLine(Broken([k, l]), key) == 0 && BlockLen(Broken([k, l])[1..]) == 1
  {
    hide EndsBlock;
    var rest := Broken([k, l])[1..];
    assert rest[0] == l + "\n" && rest[1..] == [];
  }

  lemma TwoRows(k: string, l: string)
    requires LineFree(k) && LineFree(l)
    ensures KeepLines(Page([k, l])) == Broken([k, l]) && |Broken([k, l])| == 2
  {
    hide Page, KeepLines, LineFree;
    PageSplits([k, l]);
  }

  lemma PageRows()
    ensures KeepLines(Page(PAGE)) == Broken(PAGE) && |Broken(PAGE)| == 2
    ensures KeyLine(Broken(PAGE), "a") == 0 && BlockLen(Broken(PAGE)[1..]) == 1
  {
    hide Page, KeyLine, BlockLen, EndsBlock, KeepLines, Broken, LineFree, Read;
    TabRead();
    HeadARead();
    TabInside();
    KeyFirst();
    TwoRows("a: 0", "\tb: 1");
    RowsOf("a: 0", "\tb: 1", "a");
  }

  lemma Ends()
    ensures Ended(Page(PAGE)) == Page(PAGE) && Ended(Page(BLOCK)) == Page(BLOCK) && Page(BLOCK) != ""
  {
    EndedPage(PAGE);
    EndedPage(BLOCK);
    hide Page, Ended;
  }

  lemma NothingAround(lines: seq<string>, block: string)
    requires |lines| == 2
    ensures Concat(lines[..0]) + block + Concat(lines[2..]) == block
  {
    assert lines[..0] == [] && lines[2..] == [];
  }

  lemma BlockWritten()
    ensures SetBlock(Page(PAGE), "a", Page(BLOCK)) == Page(BLOCK)
  {
    hide *;
    PageRows();
    Ends();
    SetBlockSpliced(Page(PAGE), "a", Page(BLOCK));
    SplicedForms(Broken(PAGE), "a", Page(BLOCK));
    NothingAround(Broken(PAGE), Page(BLOCK));
  }

  /** The page has the keys a and b, both in column 0 as the parser reads it. Replacing the block of a drops b
      with it: the scan for the next key takes the tab for indentation. */
  lemma TabbedKeyLost()
    ensures ReadsAs(PAGE, KIDS) && Flush(KIDS) && Once(KIDS, "a")
    ensures var text := SetBlock(Page(PAGE), "a", Page(KidLines(Kid(0, "a", Branch([])))));
            && Parse(Page(PAGE)).Some? && Lookup(Parse(Page(PAGE)).value, "b") == Some(Text("1"))
            && Parse(text).Some? && Lookup(Parse(text).value, "b") == None
  {
    PageReads();
    KidsFlush();
    BlockWritten();
    HeadText();
    PageMeans(PAGE, KIDS);
    BlockReads();
    KidsMean();
    hide Parse, Page, SetBlock, Flush, ReadsAs, Load, KidLines;
  }

  lemma KidsMean()
    requires Sound(KIDS)
    ensures Lookup(Load(KIDS, []), "b") == Some(Text("1"))
  {
    ScalarRaw('0');
    ScalarRaw('1');
    KidsAre();
    hide ParseScalar;
    var es := Put([], "a", Text("0"));
    assert es == [Entry("a", Text("0"))];
    assert KIDS[1..] == [Kid(0, "b", Leaf("1"))] && KIDS[1..][1..] == [];
    assert Load(KIDS, []) == Put(es, "b", Text("1")) == [Entry("a", Text("0")), Entry("b", Text("1"))];
  }

  lemma BlockReads()
    ensures Parse(Page(BLOCK)).Some? && Lookup(Parse(Page(BLOCK)).value, "b") == None
  {
    HeadText();
    KidsAre();
    var k := Kid(0, "a", Branch([]));
    assert SimpleKey("a") && Sound([]) && [k][1..] == [];
    assert SoundKid(k) && NestedKid(k) && Sound([k]) && Nested([k], -1);
    assert Lines([k]) == KidLines(k) + [] == BLOCK;
    ParsePage([k]);
    LoadStep([k], []);
    hide Parse, Page, Load, Lines;
    LoadNone();
    assert Meaning(k) == Map([]);
  }

  lemma LoadNone()
    ensures Sound([]) && forall es :: Load([], es) == es
  {
  }
}
