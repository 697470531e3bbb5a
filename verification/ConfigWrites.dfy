/** What the printers write, to the letter. */
module ConfigWrites {
  // Which mappings can be printed and as what text, how the command writes a scalar, where lines end, and which
  // rows the replacement of a block takes out.

  import opened Documents
  import opened Strings
  import opened ConfigParser
  import opened ConfigPrinter
  import opened ConfigEdit

  // -------------------------------------------------------------------------------- printable values

  predicate Alnum(c: char) { 'a' <= c <= 'z' || 'A' <= c <= 'Z' || '0' <= c <= '9' }

  /** Letters, digits and these marks, one at least; a line feed may follow, where the code's pattern ends. */
  predicate MadeOf(s: string, marks: string) {
    var t := if |s| > 0 && s[|s| - 1] == '\n' then s[..|s| - 1] else s;
    |t| > 0 && AllOf(t, marks)
  }

  predicate AllOf(t: string, marks: string) { forall i | 0 <= i < |t| :: Alnum(t[i]) || t[i] in marks }

  const TOKEN_MARKS := "._/*-"
  const KEY_MARKS := "._-"

  /** A text in the quotes it does not contain, double ones if it can. */
  predicate InQuotes(s: string, raw: string) {
    if '"' !in s then raw == ['"'] + s + ['"'] else '\'' !in s && raw == ['\''] + s + ['\'']
  }

  /** The items with a comma and a blank between them. */
  function Listed(items: seq<Val>): string
    requires forall i | 0 <= i < |items| :: items[i].Text?
  {
    if items == [] then ""
    else if |items| == 1 then items[0].s
    else items[0].s + ", " + Listed(items[1..])
  }

  /** raw is how a value that is no mapping is printed. */
  predicate Spells(v: Val, raw: string) {
    match v
    case Flag(b) => raw == if b then "true" else "false"
    case Whole(n) => raw == Decimal(n)
    case Text(s) => '\n' !in s && if MadeOf(s, TOKEN_MARKS) then raw == s else InQuotes(s, raw)
    case List(items) =>
      (forall i | 0 <= i < |items| :: items[i].Text? && MadeOf(items[i].s, TOKEN_MARKS)) && raw == "[" + Listed(items) + "]"
    case Map(_) => false
  }

  /** The value can be printed: no text holds a line feed or both kinds of quotes, the items of lists are tokens,
      and keys are made of letters, digits, dots, underscores and dashes. */
  predicate Printable(v: Val)
    decreases v
  {
    match v
    case Flag(_) => true
    case Whole(_) => true
    case Text(s) => '\n' !in s && (MadeOf(s, TOKEN_MARKS) || '"' !in s || '\'' !in s)
    case List(items) => forall i | 0 <= i < |items| :: items[i].Text? && MadeOf(items[i].s, TOKEN_MARKS)
    case Map(es) => forall i | 0 <= i < |es| :: MadeOf(es[i].key, KEY_MARKS) && Printable(es[i].value)
  }

  lemma TokenMeans(s: string)
    ensures IsToken(s) <==> MadeOf(s, TOKEN_MARKS)
    ensures IsKey(s) <==> MadeOf(s, KEY_MARKS)
  {
    var t := if |s| > 0 && s[|s| - 1] == '\n' then s[..|s| - 1] else s;
    assert t == Unended(s);
    TokenChars(t);
    KeyChars(t);
    hide AllOf;
  }

  lemma TokenChars(t: string)
    ensures (forall c | c in t :: TokenChar(c)) <==> AllOf(t, TOKEN_MARKS)
  {
    assert forall c: char :: TokenChar(c) <==> Alnum(c) || c in TOKEN_MARKS;
    hide TokenChar, Alnum;
    if c :| c in t && !TokenChar(c) {
      var i :| 0 <= i < |t| && t[i] == c;
    }
    if i :| 0 <= i < |t| && !(Alnum(t[i]) || t[i] in TOKEN_MARKS) {
      assert t[i] in t;
    }
  }

  lemma KeyChars(t: string)
    ensures (forall c | c in t :: KeyChar(c)) <==> AllOf(t, KEY_MARKS)
  {
    assert forall c: char :: KeyChar(c) <==> Alnum(c) || c in KEY_MARKS;
    hide KeyChar, Alnum;
    if c :| c in t && !KeyChar(c) {
      var i :| 0 <= i < |t| && t[i] == c;
    }
    if i :| 0 <= i < |t| && !(Alnum(t[i]) || t[i] in KEY_MARKS) {
      assert t[i] in t;
    }
  }

  lemma TextMeans(s: string, raw: string)
    ensures EmitText(s) == Some(raw) <==> Spells(Text(s), raw)
    ensures EmitText(s).Some? <==> Printable(Text(s))
  {
    TokenMeans(s);
    hide IsToken, MadeOf;
    assert ['"'] + s + ['"'] == "\"" + s + "\"" && ['\''] + s + ['\''] == "'" + s + "'";
    assert EmitText(s) == if '\n' in s then None
                          else if MadeOf(s, TOKEN_MARKS) then Some(s)
                          else if '"' !in s then Some(['"'] + s + ['"'])
                          else if '\'' !in s then Some(['\''] + s + ['\'']) else None;
  }

  lemma {:induction false} ItemsMean(items: seq<Val>)
    ensures EmitItems(items).Some? <==> forall i | 0 <= i < |items| :: items[i].Text? && MadeOf(items[i].s, TOKEN_MARKS)
    ensures EmitItems(items).Some? ==> (forall i | 0 <= i < |items| :: items[i].Text?) && EmitItems(items).value == Listed(items)
    decreases |items|
  {
    hide IsToken, MadeOf;
    if items != [] {
      if items[0].Text? {
        TokenMeans(items[0].s);
      }
      ItemsMean(items[1..]);
      assert forall i | 0 < i < |items| :: items[i] == items[1..][i - 1];
      assert forall i | 0 <= i < |items[1..]| :: items[1..][i] == items[i + 1];
    }
  }

  /** The line of a scalar or of a list. */
  lemma LineMeans(key: string, v: Val, indent: nat, raw: string)
    requires !v.Map?
    ensures EmitEntry(Entry(key, v), indent) == Some([Spaces(indent) + key + ": " + raw]) <==> MadeOf(key, KEY_MARKS) && Spells(v, raw)
  {
    TokenMeans(key);
    var head := Spaces(indent) + key + ":";
    assert head + " " + raw == Spaces(indent) + key + ": " + raw;
    assert forall x: string :: head + " " + x == head + " " + raw ==> x == raw by {
      forall x: string | head + " " + x == head + " " + raw ensures x == raw {
        assert (head + " " + x)[|head| + 1..] == x && (head + " " + raw)[|head| + 1..] == raw;
      }
    }
    hide IsKey, MadeOf, Spaces;
    match v
    case Text(s) => TextMeans(s, raw); hide EmitText;
    case List(items) =>
      ItemsMean(items);
      hide EmitItems;
      if EmitItems(items).Some? {
        assert "[" + EmitItems(items).value + "]" == "[" + (EmitItems(items).value + "]");
      }
    case _ =>
  }

  /** A mapping prints if and only if everything in it does; a mapping inside it is printed below its key, two
      blanks further in. */
  lemma {:induction false} EmitMeans(es: seq<Entry>, indent: nat)
    ensures Emit(es, indent).Some? <==> Printable(Map(es))
    decreases es
  {
    hide MadeOf;
    if es != [] {
      EntryMeans(es[0], indent);
      EmitMeans(es[1..], indent);
      assert forall i | 0 < i < |es| :: es[i] == es[1..][i - 1];
      assert forall i | 0 <= i < |es[1..]| :: es[1..][i] == es[i + 1];
    }
  }

  lemma {:induction false} EntryMeans(e: Entry, indent: nat)
    ensures EmitEntry(e, indent).Some? <==> MadeOf(e.key, KEY_MARKS) && Printable(e.value)
    ensures e.value.Map? && EmitEntry(e, indent).Some? ==>
              var inner := Emit(e.value.entries, indent + 2);
              inner.Some? && EmitEntry(e, indent).value == [Spaces(indent) + e.key + ":"] + inner.value
    decreases e
  {
    TokenMeans(e.key);
    hide MadeOf, IsKey, IsToken;
    match e.value
    case Map(es) => EmitMeans(es, indent + 2);
    case List(items) => ItemsMean(items);
    case Text(s) => TextMeans(s, "");
    case _ =>
  }

  // ------------------------------------------------------------------------------ the written scalar

  /** A value as the command writes it: bare when it is letters, digits and these marks, and in quotes otherwise.
      Nothing says a value that holds both kinds of quotes. */
  lemma FormatMeans(value: string, raw: string)
    ensures FormatScalar(value) == Some(raw) <==>
              if value != "" && forall i | 0 <= i < |value| :: Alnum(value[i]) || value[i] in "._/-" then raw == value
              else InQuotes(value, raw)
    ensures FormatScalar(value).None? <==> '"' in value && '\'' in value
  {
    assert forall c: char :: PlainChar(c) <==> Alnum(c) || c in "._/-";
    assert forall i | 0 <= i < |value| :: value[i] in value;
    assert ['"'] + value + ['"'] == "\"" + value + "\"" && ['\''] + value + ['\''] == "'" + value + "'";
    assert value == "" ==> ['"'] + value + ['"'] == "\"\"";
    if '"' in value {
      assert !PlainChar('"');
    }
    if '\'' in value {
      assert !PlainChar('\'');
    }
  }

  /** The command leaves the text alone exactly when what stands at the path is this text, this flag or this
      number already. */
  lemma UnchangedMeans(text: string, key: string, value: string, show: Val -> string)
    ensures SetCli(text, key, value, show) == Unchanged <==>
              && Parse(text).Some?
              && var v := Get(Map(Parse(text).value), Split(key, '.'));
                 v == Some(Text(value)) || (v == Some(Flag(true)) && value == "true") || (v == Some(Flag(false)) && value == "false") ||
                 (v.Some? && v.value.Whole? && value == Decimal(v.value.n))
  {
    hide Parse, Get, Split, SetScalar, FormatScalar;
  }

  // ------------------------------------------------------------------------------------- where lines end

  /** The characters at which splitlines() breaks: line feed, vertical tab, form feed, carriage return, the file,
      group and record separators, next line, and the line and paragraph separators. */
  predicate Breaks(c: char) {
    var k := c as int;
    k == 10 || k == 11 || k == 12 || k == 13 || k == 28 || k == 29 || k == 30 || k == 0x85 || k == 0x2028 || k == 0x2029
  }

  predicate Solid(s: string) { forall i | 0 <= i < |s| :: !Breaks(s[i]) }

  lemma {:induction false} LineEndIs(l: string, rest: string)
    requires Solid(l) && (rest == "" || Breaks(rest[0]))
    ensures LineEnd(l + rest) == |l|
    decreases |l|
  {
    if l == "" {
      assert l + rest == rest;
    } else {
      assert (l + rest)[0] == l[0] && (l + rest)[1..] == l[1..] + rest;
      LineEndIs(l[1..], rest);
    }
  }

  /** Lines, one by one: a carriage return and a line feed are one break, any other breaking character is one. */
  lemma LinesMean(l: string, end: string, rest: string)
    requires Solid(l) && (end == "\r\n" || (|end| == 1 && Breaks(end[0]) && !(end == "\r" && rest != "" && rest[0] == '\n')))
    ensures SplitLines(l + end + rest) == [l] + SplitLines(rest)
    ensures KeepLines(l + end + rest) == [l + end] + KeepLines(rest)
  {
    var text := l + end + rest;
    assert text == l + (end + rest);
    LineEndIs(l, end + rest);
    assert text[|l|] == end[0];
    assert |l| + 1 < |text| ==> text[|l| + 1] == (if |end| == 2 then '\n' else rest[0]);
    assert FirstLine(text) == |l| + |end|;
    assert text[..|l|] == l && text[..|l| + |end|] == l + end && text[|l| + |end|..] == rest;
  }

  /** The last line may have no break. */
  lemma LastLineMeans(l: string)
    requires Solid(l)
    ensures SplitLines("") == [] && KeepLines("") == []
    ensures l != "" ==> SplitLines(l) == [l] && KeepLines(l) == [l]
  {
    LineEndIs(l, "");
    assert l + "" == l;
    if l != "" {
      assert l[..|l|] == l && l[|l|..] == "";
    }
  }

  // ------------------------------------------------------------------------------- replacing a block

  /** The row is a key of the top level, or anything else that no blank or tab, no comment sign begins. */
  predicate TopRow(row: string) {
    && row != "" && row[0] != ' ' && row[0] != '\t'
    && exists k | 0 <= k < |row| :: !Space(row[k]) && row[k] != '#' && forall j | 0 <= j < k :: Space(row[j])
  }

  function Rows(lines: seq<string>): string { if lines == [] then "" else lines[0] + Rows(lines[1..]) }

  /** With a line feed at its end, if there is none. */
  function Closing(s: string): string { if s != "" && s[|s| - 1] != '\n' then s + "\n" else s }

  /** The block begins at the first row that starts with the key and a colon, and ends before the next row of the
      top level. */
  ghost predicate BlockAt(rows: seq<string>, key: string, from: nat, to: nat) {
    && from < to <= |rows|
    && key + ":" <= rows[from] && (forall i | 0 <= i < from :: !(key + ":" <= rows[i]))
    && (forall i | from < i < to :: !TopRow(rows[i])) && (to < |rows| ==> TopRow(rows[to]))
  }

  lemma {:induction false} FirstLetter(row: string, k: nat)
    requires k < |row| && !Space(row[k]) && forall j | 0 <= j < k :: Space(row[j])
    ensures Strip(row) != "" && Strip(row)[0] == row[k]
    decreases k
  {
    if k > 0 {
      FirstLetter(row[1..], k - 1);
    } else {
      assert StripLeft(row) == row;
      StripKeeps(row);
    }
  }

  lemma {:induction false} StripKeeps(row: string)
    requires row != "" && !Space(row[0])
    ensures StripRight(row) != "" && StripRight(row)[0] == row[0]
    decreases |row|
  {
    if Space(row[|row| - 1]) {
      StripKeeps(row[..|row| - 1]);
    }
  }

  lemma {:induction false} NoLetter(row: string)
    requires forall j | 0 <= j < |row| :: Space(row[j])
    ensures Strip(row) == ""
    decreases |row|
  {
    if row != "" {
      NoLetter(row[1..]);
    }
  }

  lemma {:induction false} SomeLetter(row: string) returns (k: nat)
    ensures k <= |row| && (forall j | 0 <= j < k :: Space(row[j])) && (k < |row| ==> !Space(row[k]))
  {
    k := 0;
    while k < |row| && Space(row[k])
      invariant k <= |row| && forall j | 0 <= j < k :: Space(row[j])
      decreases |row| - k
    {
      k := k + 1;
    }
  }

  lemma TopMeans(row: string)
    ensures EndsBlock(row) <==> TopRow(row)
  {
    var k := SomeLetter(row);
    hide Space;
    if k < |row| {
      FirstLetter(row, k);
      if j :| 0 <= j < |row| && !Space(row[j]) && row[j] != '#' && forall i | 0 <= i < j :: Space(row[i]) {
        assert j == k;
      }
    } else {
      NoLetter(row);
    }
    hide Strip;
  }

  lemma {:induction false} KeyLineFirst(rows: seq<string>, key: string)
    ensures var k := KeyLine(rows, key);
            (k < |rows| ==> key + ":" <= rows[k]) && forall i | 0 <= i < k :: !(key + ":" <= rows[i])
    decreases |rows|
  {
    if rows != [] && !(key + ":" <= rows[0]) {
      KeyLineFirst(rows[1..], key);
    }
  }

  lemma {:induction false} BlockLenEnds(rows: seq<string>)
    ensures var k := BlockLen(rows);
            (k < |rows| ==> TopRow(rows[k])) && forall i | 0 <= i < k :: !TopRow(rows[i])
    decreases |rows|
  {
    hide EndsBlock, TopRow;
    if rows != [] {
      TopMeans(rows[0]);
      if !EndsBlock(rows[0]) {
        BlockLenEnds(rows[1..]);
      }
    }
  }

  lemma {:induction false} RowsAre(lines: seq<string>)
    ensures Concat(lines) == Rows(lines)
    decreases |lines|
  {
    if lines != [] {
      RowsAre(lines[1..]);
    }
  }

  /** Replacing a block, on every text: the rows of the block are exchanged and all others stay, or the block is put
      at the end where no row starts with the key. */
  lemma SetBlockMeans(text: string, key: string, block: string)
    ensures var rows, r := KeepLines(text), SetBlock(text, key, block);
            && (forall from: nat, to: nat | BlockAt(rows, key, from, to) ::
                  r == Rows(rows[..from]) + Closing(if block == "" then "\n" else block) + Rows(rows[to..]))
            && ((forall i: nat | i < |rows| :: !(key + ":" <= rows[i])) ==> r == Closing(text) + block)
            && ((exists i: nat | i < |rows| :: key + ":" <= rows[i]) ==> exists from: nat, to: nat :: BlockAt(rows, key, from, to))
  {
    hide KeepLines, TopRow, KeyLine, BlockLen, EndsBlock;
    var rows := KeepLines(text);
    var s := KeyLine(rows, key);
    KeyLineFirst(rows, key);
    if s < |rows| {
      var e := s + 1 + BlockLen(rows[s + 1..]);
      BlockLenEnds(rows[s + 1..]);
      assert forall i | s < i < |rows| :: rows[i] == rows[s + 1..][i - s - 1];
      assert BlockAt(rows, key, s, e);
      RowsAre(rows[..s]);
      RowsAre(rows[e..]);
      forall from: nat, to: nat | BlockAt(rows, key, from, to) ensures from == s && to == e {
        assert !(from < s) && !(s < from);
        assert !(to < e) && !(e < to);
      }
    } else {
      assert forall from: nat, to: nat :: !BlockAt(rows, key, from, to);
    }
  }
}
