/** Rewriting one scalar of a text in place, and the command that does so safely. */
module ConfigEdit {
  import opened Documents
  import opened Strings
  import opened ConfigParser
  import opened ConfigPrinter

  /** One step of the path to the current line. */
  datatype Step = Step(indent: nat, key: string)

  function Keys(path: seq<Step>): (ks: seq<string>)
    ensures |ks| == |path| && forall i | 0 <= i < |path| :: ks[i] == path[i].key
  {
    seq(|path|, i requires 0 <= i < |path| => path[i].key)
  }

  /** The path after every step at this indent or deeper is left. */
  function Left(path: seq<Step>, indent: nat): (r: seq<Step>)
    ensures |r| <= |path|
  {
    if path != [] && path[|path| - 1].indent >= indent then Left(path[..|path| - 1], indent) else path
  }

  /** Where a path leads in a text: the line of its leaf, the line of its parent (the leaf then goes
      below it), a mapping that must not be overwritten, or nowhere. */
  datatype Spot = At(line: nat, indent: nat, key: string) | Under(line: nat, indent: nat) | Blocked | Nowhere

  /** The next line is indented further than a key line at this indent. */
  predicate Opens(lines: seq<string>, indent: nat) {
    |lines| > 1 &&
    var next := StripRight(Uncommented(lines[1], None));
    Strip(next) != "" && Indent(next) > indent
  }

  /** The scan over the lines that are left, the first of them number `at`; `parent` is the best answer
      so far. */
  function Locate(lines: seq<string>, at: nat, path: seq<Step>, parent: Spot, parts: seq<string>): (spot: Spot)
    requires parts != []
    ensures spot.At? || spot.Under? ==> spot == parent || at <= spot.line < at + |lines|
    decreases |lines|
  {
    if lines == [] then parent
    else
      var line := Read(lines[0]);
      if !line.Pair? then Locate(lines[1..], at + 1, path, parent, parts)
      else
        var here := Left(path, line.indent) + [Step(line.indent, line.key)];
        if Keys(here) == parts then
          if line.value == "" && Opens(lines, line.indent) then Blocked else At(at, line.indent, line.key)
        else
          Locate(lines[1..], at + 1, here,
                 if Keys(here) == parts[..|parts| - 1] then Under(at, line.indent) else parent, parts)
  }

  /** rstrip("\n") */
  function Unbreak(line: string): (r: string)
    ensures |r| <= |line|
  {
    if line != "" && line[|line| - 1] == '\n' then Unbreak(line[..|line| - 1]) else line
  }

  function Rewritten(line: string, indent: nat, key: string, value: string): string {
    var body := Unbreak(line);
    var kept := if indent <= |body| then body[..indent] else body;
    kept + key + ":" + " " + value + body[|StripRight(Uncommented(body, None))|..] + "\n"
  }

  function Inserted(indent: nat, key: string, value: string): string {
    Spaces(indent + 2) + key + ": " + value + "\n"
  }

  /** None where the code raises. */
  function SetScalar(text: string, parts: seq<string>, value: string): Option<string>
    requires parts != []
  {
    var lines := KeepLines(text);
    match Locate(lines, 0, [], Nowhere, parts)
    case At(i, indent, key) => Some(Concat(lines[i := Rewritten(lines[i], indent, key, value)]))
    case Under(i, indent) =>
      Some(Concat(lines[..i + 1] + [Inserted(indent, parts[|parts| - 1], value)] + lines[i + 1..]))
    case _ => None
  }

  method SetScalarLoop(text: string, parts: seq<string>, value: string) returns (r: Option<string>)
    requires parts != []
    ensures r == SetScalar(text, parts, value)
  {
    var lines := KeepLines(text);
    var path: seq<Step>, parent := [], Nowhere;
    assert lines[0..] == lines;
    for i := 0 to |lines|
      invariant Locate(lines[i..], i, path, parent, parts) == Locate(lines, 0, [], Nowhere, parts)
      invariant parent == Nowhere || (parent.Under? && parent.line < i)
    {
      var line := Read(lines[i]);
      assert lines[i..][0] == lines[i] && lines[i..][1..] == lines[i + 1..];
      if line.Pair? {
        ghost var before := path;
        while path != [] && path[|path| - 1].indent >= line.indent
          invariant Left(path, line.indent) == Left(before, line.indent)
          decreases |path|
        {
          path := path[..|path| - 1];
        }
        path := path + [Step(line.indent, line.key)];
        if Keys(path) == parts {
          if line.value == "" && Opens(lines[i..], line.indent) {
            return None;
          }
          return Some(Concat(lines[i := Rewritten(lines[i], line.indent, line.key, value)]));
        }
        if Keys(path) == parts[..|parts| - 1] {
          parent := Under(i, line.indent);
        }
      }
    }
    if parent.Nowhere? {
      return None;
    }
    r := Some(Concat(lines[..parent.line + 1] + [Inserted(parent.indent, parts[|parts| - 1], value)] + lines[parent.line + 1..]));
  }

  /** How the command prints a scalar; lists and mappings go through `show`. */
  function CliStr(v: Val, show: Val -> string): string {
    match v
    case Text(s) => s
    case Flag(b) => Truth(b)
    case Whole(n) => Decimal(n)
    case _ => show(v)
  }

  predicate PlainChar(c: char) {
    'A' <= c <= 'Z' || 'a' <= c <= 'z' || '0' <= c <= '9' || c == '.' || c == '_' || c == '/' || c == '-'
  }

  /** A value as it is written: bare, or in the quotes it does not contain. */
  function FormatScalar(value: string): Option<string> {
    if value == "" then Some("\"\"")
    else if forall c | c in value :: PlainChar(c) then Some(value)
    else if '"' !in value then Some("\"" + value + "\"")
    else if '\'' !in value then Some("'" + value + "'")
    else None
  }

  datatype Reply = Unchanged | Refused | Written(text: string)

  /** The --set command. It re-reads what it is about to write. */
  function SetCli(text: string, key: string, value: string, show: Val -> string): Reply {
    var parts := Split(key, '.');
    var config := Parse(text);
    if config.None? then Refused
    else
      var current := Get(Map(config.value), parts);
      if current.Some? && !current.value.List? && !current.value.Map? && CliStr(current.value, show) == value then
        Unchanged
      else
        var raw := FormatScalar(value);
        var edited := if raw.None? then None else SetScalar(text, parts, raw.value);
        if edited.None? then Refused
        else
          var again := Parse(edited.value);
          var reread := if again.None? then None else Get(Map(again.value), parts);
          if reread.None? || CliStr(reread.value, show) != value then Refused else Written(edited.value)
  }
}
