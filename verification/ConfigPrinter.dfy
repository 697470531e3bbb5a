/** Printing mappings as restricted-subset text, and replacing one top-level block of a text. */
module ConfigPrinter {
  import opened Documents
  import opened Strings
  import opened ConfigParser

  predicate KeyChar(c: char) {
    'A' <= c <= 'Z' || 'a' <= c <= 'z' || '0' <= c <= '9' || c == '.' || c == '_' || c == '-'
  }

  predicate TokenChar(c: char) { KeyChar(c) || c == '/' || c == '*' }

  /** The pattern's end also matches before one final line feed. */
  function Unended(s: string): string {
    if s != "" && s[|s| - 1] == '\n' then s[..|s| - 1] else s
  }

  predicate IsToken(s: string) { Unended(s) != "" && forall c | c in Unended(s) :: TokenChar(c) }

  predicate IsKey(s: string) { Unended(s) != "" && forall c | c in Unended(s) :: KeyChar(c) }

  function EmitText(s: string): Option<string> {
    if '\n' in s then None
    else if IsToken(s) then Some(s)
    else if '"' !in s then Some("\"" + s + "\"")
    else if '\'' !in s then Some("'" + s + "'")
    else None
  }

  function Truth(b: bool): string { if b then "true" else "false" }

  function EmitItems(items: seq<Val>): Option<string> {
    if items == [] then Some("")
    else if !items[0].Text? || !IsToken(items[0].s) then None
    else if |items| == 1 then Some(items[0].s)
    else
      var rest := EmitItems(items[1..]);
      if rest.None? then None else Some(items[0].s + ", " + rest.value)
  }

  function Spaces(n: nat): (s: string)
    ensures |s| == n && forall c | c in s :: c == ' '
  {
    if n == 0 then "" else " " + Spaces(n - 1)
  }

  function Emit(es: seq<Entry>, indent: nat): Option<seq<string>> {
    if es == [] then Some([])
    else
      var first := EmitEntry(es[0], indent);
      var rest := Emit(es[1..], indent);
      if first.None? || rest.None? then None else Some(first.value + rest.value)
  }

  function EmitEntry(e: Entry, indent: nat): Option<seq<string>> {
    var head := Spaces(indent) + e.key + ":";
    if !IsKey(e.key) then None
    else match e.value
      case Map(es) =>
        var inner := Emit(es, indent + 2);
        if inner.None? then None else Some([head] + inner.value)
      case List(items) =>
        var inner := EmitItems(items);
        if inner.None? then None else Some([head + " " + ("[" + inner.value + "]")])
      case Flag(b) => Some([head + " " + Truth(b)])
      case Whole(n) => Some([head + " " + Decimal(n)])
      case Text(s) =>
        var t := EmitText(s);
        if t.None? then None else Some([head + " " + t.value])
  }

  /** Lines joined and ended by line feeds. */
  function Page(lines: seq<string>): string {
    if lines == [] then "" else lines[0] + "\n" + Page(lines[1..])
  }

  /** The `roles:` block. */
  function RolesBlock(roles: seq<Entry>): Option<string> {
    var inner := Emit(roles, 2);
    if inner.None? then None else Some(Page(["roles:"] + inner.value))
  }

  // ------------------------------------------------------------------------------ block replacement

  function KeyLine(lines: seq<string>, key: string): (k: nat)
    ensures k <= |lines|
  {
    if lines == [] || key + ":" <= lines[0] then 0 else 1 + KeyLine(lines[1..], key)
  }

  /** A line that ends the block above it: in column 0, neither blank nor a comment. */
  predicate EndsBlock(line: string) {
    (line == "" || (line[0] != ' ' && line[0] != '\t')) && Strip(line) != "" && Strip(line)[0] != '#'
  }

  function BlockLen(lines: seq<string>): (k: nat)
    ensures k <= |lines|
  {
    if lines == [] || EndsBlock(lines[0]) then 0 else 1 + BlockLen(lines[1..])
  }

  function Ended(s: string): string {
    if s != "" && s[|s| - 1] != '\n' then s + "\n" else s
  }

  function Concat(lines: seq<string>): string {
    if lines == [] then "" else lines[0] + Concat(lines[1..])
  }

  function SetBlock(text: string, key: string, block: string): string {
    var lines := KeepLines(text);
    var start := KeyLine(lines, key);
    if start == |lines| then Ended(text) + block
    else
      var end := start + 1 + BlockLen(lines[start + 1..]);
      Concat(lines[..start]) + (if block == "" then "\n" else Ended(block)) + Concat(lines[end..])
  }

  method SetBlockLoop(text: string, key: string, block: string) returns (r: string)
    ensures r == SetBlock(text, key, block)
  {
    hide Concat, KeepLines, EndsBlock;
    var lines := KeepLines(text);
    var start, end := |lines|, |lines|;
    assert lines[0..] == lines;
    for i := 0 to |lines|
      invariant end == |lines| && start <= |lines|
      invariant start == |lines| ==> KeyLine(lines, key) == i + KeyLine(lines[i..], key)
      invariant start < |lines| ==>
                  && start == KeyLine(lines, key) < i
                  && BlockLen(lines[start + 1..]) == i - start - 1 + BlockLen(lines[i..])
    {
      assert lines[i..][0] == lines[i] && lines[i..][1..] == lines[i + 1..];
      if start == |lines| {
        if key + ":" <= lines[i] { start := i; }
      } else if EndsBlock(lines[i]) {
        end := i;
        break;
      }
    }
    if start == |lines| {
      return Ended(text) + block;
    }
    r := Concat(lines[..start]) + (if block == "" then "\n" else Ended(block)) + Concat(lines[end..]);
  }
}
